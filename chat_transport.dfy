/** The chat transport the scorer talks to (`MultiRoundChatAPI`). Its implementation is
    network I/O; here it is a scripted stand-in: the replies it will give are fixed in
    advance and handed out one per call, and every call is logged. */
module ChatTransport {
  import opened JsonValues

  /** What one call of the transport produces: an exception, or a reply dictionary that may
      or may not hold the keys the scorer looks for. */
  datatype Reply = Raised(message: string) | Reply(fields: map<string, Json>)

  /** A call made to the transport. */
  datatype Call = CreateOrLoad(useExisting: bool) | Send(query: string)

  /** The exception a transport with no scripted reply left raises. */
  const Exhausted: string := "no reply"

  /** The `i`-th scripted reply, counting from 0; past the end the transport raises. */
  function ReplyAt(script: seq<Reply>, i: nat): (r: Reply)
    ensures i >= |script| ==> r.Raised?
    ensures i < |script| ==> r == script[i]
  {
    if i < |script| then script[i] else Raised(Exhausted)
  }

  /** The script after `n` replies have been handed out. */
  function Drop(script: seq<Reply>, n: nat): (r: seq<Reply>)
    ensures |r| == if n <= |script| then |script| - n else 0
    ensures forall i: nat :: ReplyAt(r, i) == ReplyAt(script, n + i)
  {
    if n <= |script| then script[n..] else []
  }

  /** The calls made by sending the given queries one after another. */
  function Sends(queries: seq<string>): (r: seq<Call>)
    ensures |r| == |queries|
    ensures forall k :: 0 <= k < |r| ==> r[k] == Send(queries[k])
  {
    seq(|queries|, k requires 0 <= k < |queries| => Send(queries[k]))
  }

  /** Sending one more query adds one call to the log. */
  lemma SendsPrefix(log: seq<Call>, queries: seq<string>, i: nat)
    requires i < |queries|
    ensures log + Sends(queries[..i]) + [Send(queries[i])] == log + Sends(queries[..i + 1])
  {
    assert Sends(queries[..i + 1]) == Sends(queries[..i]) + [Send(queries[i])];
  }

  class ChatApi {
    /** The replies not handed out yet. */
    var script: seq<Reply>
    /** Every call made so far, oldest first. */
    var log: seq<Call>

    constructor (script: seq<Reply>)
      ensures this.script == script && log == []
    {
      this.script := script;
      log := [];
    }

    /** `create_or_load_conversation(use_existing)`: opens or reuses the conversation. */
    method CreateOrLoadConversation(useExisting: bool) returns (r: Reply)
      modifies this
      ensures r == ReplyAt(old(script), 0)
      ensures script == Drop(old(script), 1)
      ensures log == old(log) + [CreateOrLoad(useExisting)]
    {
      r := Next();
      log := log + [CreateOrLoad(useExisting)];
    }

    /** `send_message(query)`: one round of the conversation. */
    method SendMessage(query: string) returns (r: Reply)
      modifies this
      ensures r == ReplyAt(old(script), 0)
      ensures script == Drop(old(script), 1)
      ensures log == old(log) + [Send(query)]
    {
      r := Next();
      log := log + [Send(query)];
    }

    /** Hands out the next scripted reply. */
    method Next() returns (r: Reply)
      modifies this`script
      ensures r == ReplyAt(old(script), 0)
      ensures script == Drop(old(script), 1)
    {
      if script == [] {
        r := Raised(Exhausted);
      } else {
        r := script[0];
        script := script[1..];
      }
    }
  }
}
