/** `ResumeScorer`: scoring resumes by asking the chat agent one query at a time, pulling a
    JSON object out of each answer, stamping it with the query, the conversation and the
    time, and sorting the queries into scored results and failure records. */
module ResumeScoring {
  import opened Wrappers
  import opened JsonValues
  import opened ResponseParser
  import opened ChatTransport

  /** A scored result: a JSON object. */
  type Record = map<string, Json>

  /** Python's `str()` on an answer that is neither a dict nor a string. */
  type Renderer = Json -> string

  // Keys the scorer reads from a reply.
  const AnswerKey: string := "answer"
  const ConversationIdKey: string := "conversation_id"
  const TimestampReplyKey: string := "timestamp"

  // Keys the scorer writes onto a result.
  const QueryKey: string := "评分查询"
  const ConversationKey: string := "对话ID"
  const TimestampKey: string := "时间戳"

  /** The conversation recorded when a reply does not name one. */
  const UnknownConversation: Json := JStr("unknown")

  /** The reason written into every failure record. */
  const FailureReason: string := "评分失败或无返回数据"

  /** A failure record `{序号, 查询内容, 失败时间, 失败原因}`. */
  datatype FailureEntry = FailureEntry(index: nat, query: string, failedAt: string, reason: string)

  /** The argument handed to the extractor for a reply's `answer`. */
  function AsAnswer(render: Renderer, answer: Json): (a: Answer)
    ensures answer.JObj? <==> a.DictAnswer?
    ensures answer.JObj? ==> a.fields == answer.fields
    ensures answer.JStr? ==> a == TextAnswer(answer.s)
  {
    match answer
    case JObj(fields) => DictAnswer(fields)
    case JStr(s) => TextAnswer(s)
    case _ => TextAnswer(render(answer))
  }

  /** `dict.get(key, default)`. */
  function Get(fields: map<string, Json>, key: string, default: Json): (v: Json)
    ensures key in fields ==> v == fields[key]
    ensures key !in fields ==> v == default
  {
    if key in fields then fields[key] else default
  }

  /** What scoring one query yields for a given reply: `None` when the transport raised
      or the reply has no `answer`; otherwise whatever `Finish` makes of the value extracted
      from the answer. `now` is the time `datetime.now()` would give. */
  function ScoreOutcome(parse: Parser, render: Renderer, query: string, reply: Reply, now: string): (r: Option<Record>)
    ensures reply.Raised? ==> r.None?
    ensures reply.Reply? && AnswerKey !in reply.fields ==> r.None?
  {
    match reply
    case Raised(_) => None
    case Reply(fields) =>
      if AnswerKey !in fields then None
      else Finish(query, fields, Extract(parse, AsAnswer(render, fields[AnswerKey])), now)
  }

  /** What becomes of the value extracted from a reply's answer: `None` when nothing was
      extracted, when the value is falsy (an empty object, `null`, `0`, `""`, `[]`, `false`)
      or when it is not an object (item assignment on it raises); otherwise the object
      with the query, the reply's conversation id (`"unknown"` when absent) and the reply's
      timestamp (the current time when absent) written onto it. */
  function Finish(query: string, reply: map<string, Json>, data: Option<Json>, now: string): (r: Option<Record>)
    ensures r.Some? <==> data.Some? && data.value.JObj? && data.value.fields != map[]
    ensures r.Some? ==>
      && r.value.Keys == data.value.fields.Keys + {QueryKey, ConversationKey, TimestampKey}
      && r.value[QueryKey] == JStr(query)
      && r.value[ConversationKey] == Get(reply, ConversationIdKey, UnknownConversation)
      && r.value[TimestampKey] == Get(reply, TimestampReplyKey, JStr(now))
      && forall k :: k in data.value.fields && k !in {QueryKey, ConversationKey, TimestampKey} ==>
           r.value[k] == data.value.fields[k]
  {
    match data
    case None => None
    case Some(value) =>
      if Falsy(value) || !value.JObj? then None
      else Some(Stamp(value.fields, query, reply, now))
  }

  /** The extracted object with the query, the conversation and the time written onto it. */
  function Stamp(data: Record, query: string, reply: map<string, Json>, now: string): Record
  {
    data[QueryKey := JStr(query)]
        [ConversationKey := Get(reply, ConversationIdKey, UnknownConversation)]
        [TimestampKey := Get(reply, TimestampReplyKey, JStr(now))]
  }

  /** A scored result always holds the query it answers, so it is never empty (truthy). */
  lemma ScoredNonEmpty(parse: Parser, render: Renderer, query: string, reply: Reply, now: string)
    requires ScoreOutcome(parse, render, query, reply, now).Some?
    ensures ScoreOutcome(parse, render, query, reply, now).value != map[]
  {
    assert QueryKey in ScoreOutcome(parse, render, query, reply, now).value;
  }

  // ---------------------------------------------------------------------------
  // A batch, as a function of the replies
  // ---------------------------------------------------------------------------

  /** The outcome of every query of a batch, the `k`-th one scored with the `k`-th reply
      after the conversation was opened; `now(i)` is the time while query `i` (1-based)
      is processed. */
  function Outcomes(parse: Parser, render: Renderer, queries: seq<string>, script: seq<Reply>,
                    now: nat -> string): (os: seq<Option<Record>>)
    ensures |os| == |queries|
    ensures forall k :: 0 <= k < |queries| ==>
      os[k] == ScoreOutcome(parse, render, queries[k], ReplyAt(script, k), now(k + 1))
  {
    seq(|queries|, k requires 0 <= k < |queries| =>
      ScoreOutcome(parse, render, queries[k], ReplyAt(script, k), now(k + 1)))
  }

  /** The scored results, in query order. */
  function Successes(os: seq<Option<Record>>): (rs: seq<Record>)
    ensures |rs| <= |os|
  {
    if os == [] then [] else Successes(os[..|os| - 1]) + ToSeq(os[|os| - 1])
  }

  /** The failure records, in query order; `failedAt(i)` is the time stamped on a failure
      of query `i` (1-based). */
  function Failures(queries: seq<string>, os: seq<Option<Record>>, failedAt: nat -> string): (fs: seq<FailureEntry>)
    requires |queries| == |os|
    ensures |fs| <= |os|
    ensures forall j :: 0 <= j < |fs| ==>
      && 1 <= fs[j].index <= |os|
      && fs[j].query == queries[fs[j].index - 1]
      && os[fs[j].index - 1].None?
      && fs[j].failedAt == failedAt(fs[j].index)
      && fs[j].reason == FailureReason
    ensures forall i, j :: 0 <= i < j < |fs| ==> fs[i].index < fs[j].index
  {
    if os == [] then []
    else
      var n := |os|;
      var prev := Failures(queries[..n - 1], os[..n - 1], failedAt);
      if os[n - 1].None? then prev + [FailureEntry(n, queries[n - 1], failedAt(n), FailureReason)]
      else prev
  }

  /** One more query adds its outcome to exactly one of the two lists. */
  lemma BatchStep(queries: seq<string>, os: seq<Option<Record>>, failedAt: nat -> string, i: nat)
    requires |queries| == |os| && i < |os|
    ensures Successes(os[..i + 1]) == Successes(os[..i]) + ToSeq(os[i])
    ensures Failures(queries[..i + 1], os[..i + 1], failedAt) == Failures(queries[..i], os[..i], failedAt) +
      (if os[i].None? then [FailureEntry(i + 1, queries[i], failedAt(i + 1), FailureReason)] else [])
  {
    assert os[..i + 1][..i] == os[..i] && queries[..i + 1][..i] == queries[..i];
  }

  /** Every query lands in exactly one of the two lists. */
  lemma {:induction false} BatchPartition(queries: seq<string>, os: seq<Option<Record>>, failedAt: nat -> string)
    requires |queries| == |os|
    ensures |Successes(os)| + |Failures(queries, os, failedAt)| == |os|
  {
    if os != [] {
      BatchPartition(queries[..|os| - 1], os[..|os| - 1], failedAt);
    }
  }

  /** Every query whose scoring failed has a failure record carrying its 1-based position. */
  lemma {:induction false} FailuresComplete(queries: seq<string>, os: seq<Option<Record>>, failedAt: nat -> string, k: nat)
    requires |queries| == |os| && k < |os| && os[k].None?
    ensures exists j :: 0 <= j < |Failures(queries, os, failedAt)| && Failures(queries, os, failedAt)[j].index == k + 1
  {
    var n := |os|;
    var fs := Failures(queries, os, failedAt);
    if k == n - 1 {
      assert fs[|fs| - 1].index == k + 1;
    } else {
      FailuresComplete(queries[..n - 1], os[..n - 1], failedAt, k);
      var prev := Failures(queries[..n - 1], os[..n - 1], failedAt);
      var j :| 0 <= j < |prev| && prev[j].index == k + 1;
      assert fs[j] == prev[j];
    }
  }

  /** The positions of the queries that were scored, in increasing order. */
  function SuccessPositions(os: seq<Option<Record>>): (ps: seq<nat>)
    ensures forall j :: 0 <= j < |ps| ==> ps[j] < |os| && os[ps[j]].Some?
    ensures forall i, j :: 0 <= i < j < |ps| ==> ps[i] < ps[j]
  {
    if os == [] then []
    else SuccessPositions(os[..|os| - 1]) + (if os[|os| - 1].Some? then [|os| - 1] else [])
  }

  /** The results are the scored outcomes in query order: the `j`-th result is the outcome
      of the `j`-th scored query, and every scored query appears. */
  lemma {:induction false} SuccessesInOrder(os: seq<Option<Record>>)
    ensures |Successes(os)| == |SuccessPositions(os)|
    ensures forall j :: 0 <= j < |Successes(os)| ==> Successes(os)[j] == os[SuccessPositions(os)[j]].value
    ensures forall k :: 0 <= k < |os| && os[k].Some? ==> k in SuccessPositions(os)
  {
    if os != [] {
      SuccessesInOrder(os[..|os| - 1]);
    }
  }

  /** Each result answers the query it was scored for. */
  lemma SuccessCarriesQuery(parse: Parser, render: Renderer, queries: seq<string>, script: seq<Reply>,
                            now: nat -> string, j: nat)
    requires j < |Successes(Outcomes(parse, render, queries, script, now))|
    ensures var os := Outcomes(parse, render, queries, script, now);
      && j < |SuccessPositions(os)| && SuccessPositions(os)[j] < |queries|
      && QueryKey in Successes(os)[j]
      && Successes(os)[j][QueryKey] == JStr(queries[SuccessPositions(os)[j]])
  {
    SuccessesInOrder(Outcomes(parse, render, queries, script, now));
  }

  // ---------------------------------------------------------------------------
  // The scorer
  // ---------------------------------------------------------------------------

  class ResumeScorer {
    /** `json.loads`. */
    const parse: Parser
    /** `str()` on answers that are neither dicts nor strings. */
    const render: Renderer
    /** The agent conversation. */
    const chatApi: ChatApi
    /** The results of the last batch. */
    var scoredData: seq<Record>
    /** The failure records of the last batch; absent until a batch has run. */
    var failedScores: Option<seq<FailureEntry>>

    constructor (parse: Parser, render: Renderer, chatApi: ChatApi)
      ensures this.parse == parse && this.render == render && this.chatApi == chatApi
      ensures scoredData == [] && failedScores == None
    {
      this.parse := parse;
      this.render := render;
      this.chatApi := chatApi;
      scoredData := [];
      failedScores := None;
    }

    /** `process_score_query(query)`: one round trip; every failure becomes `None`. */
    method ProcessScoreQuery(query: string, now: string) returns (r: Option<Record>)
      modifies chatApi
      ensures r == ScoreOutcome(parse, render, query, ReplyAt(old(chatApi.script), 0), now)
      ensures chatApi.script == Drop(old(chatApi.script), 1)
      ensures chatApi.log == old(chatApi.log) + [Send(query)]
    {
      var response := chatApi.SendMessage(query);
      if response.Raised? {
        return None;
      }
      if AnswerKey !in response.fields {
        return None;
      }
      var answer := AsAnswer(render, response.fields[AnswerKey]);
      var extracted := ExtractJsonFromResponse(parse, answer);
      if extracted.None? || Falsy(extracted.value) {
        return None;
      }
      if !extracted.value.JObj? {
        return None;
      }
      var data := extracted.value.fields;
      data := data[QueryKey := JStr(query)];
      data := data[ConversationKey := Get(response.fields, ConversationIdKey, UnknownConversation)];
      data := data[TimestampKey := Get(response.fields, TimestampReplyKey, JStr(now))];
      return Some(data);
    }

    /** `batch_score(queries)`: opens the conversation, then scores the queries in order.
        When opening the conversation raises, the exception propagates (`None`) and the
        stored lists are untouched. */
    method BatchScore(queries: seq<string>, now: nat -> string, failedAt: nat -> string)
      returns (r: Option<seq<Record>>)
      modifies this, chatApi
      ensures ReplyAt(old(chatApi.script), 0).Raised? ==>
        && r.None?
        && scoredData == old(scoredData) && failedScores == old(failedScores)
        && chatApi.log == old(chatApi.log) + [CreateOrLoad(true)]
        && chatApi.script == Drop(old(chatApi.script), 1)
      ensures ReplyAt(old(chatApi.script), 0).Reply? ==>
        var os := Outcomes(parse, render, queries, Drop(old(chatApi.script), 1), now);
        && r == Some(Successes(os))
        && scoredData == Successes(os)
        && failedScores == Some(Failures(queries, os, failedAt))
        && chatApi.log == old(chatApi.log) + [CreateOrLoad(true)] + Sends(queries)
        && chatApi.script == Drop(old(chatApi.script), 1 + |queries|)
    {
      var conversation := chatApi.CreateOrLoadConversation(true);
      if conversation.Raised? {
        return None;
      }
      var results, failed := ScoreAll(queries, now, failedAt);
      scoredData := results;
      failedScores := Some(failed);
      return Some(results);
    }

    /** The loop of `batch_score`: each query in order, with its 1-based position. */
    method ScoreAll(queries: seq<string>, now: nat -> string, failedAt: nat -> string)
      returns (results: seq<Record>, failed: seq<FailureEntry>)
      modifies chatApi
      ensures var os := Outcomes(parse, render, queries, old(chatApi.script), now);
        && results == Successes(os)
        && failed == Failures(queries, os, failedAt)
      ensures chatApi.log == old(chatApi.log) + Sends(queries)
      ensures chatApi.script == Drop(old(chatApi.script), |queries|)
    {
      ghost var os := Outcomes(parse, render, queries, chatApi.script, now);
      results := [];
      failed := [];
      for i := 0 to |queries|
        invariant chatApi.script == Drop(old(chatApi.script), i)
        invariant chatApi.log == old(chatApi.log) + Sends(queries[..i])
        invariant results == Successes(os[..i])
        invariant failed == Failures(queries[..i], os[..i], failedAt)
      {
        var info := ProcessScoreQuery(queries[i], now(i + 1));
        assert info == os[i];
        BatchStep(queries, os, failedAt, i);
        if info.Some? {
          results := results + [info.value];
        } else {
          failed := failed + [FailureEntry(i + 1, queries[i], failedAt(i + 1), FailureReason)];
        }
        SendsPrefix(old(chatApi.log), queries, i);
      }
      assert os[..|queries|] == os && queries[..|queries|] == queries;
    }
  }
}
