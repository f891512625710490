/** `ResumeScorer.extract_json_from_response`: recovering one JSON value from the free-form
    text an agent replies with, by an ordered chain of strategies where the first value
    that parses wins. Python's `json.loads` is a parameter (`Parser`), so every property
    proved here holds for whichever parser is plugged in. */
module ResponseParser {
  import opened Wrappers
  import opened Text
  import opened JsonValues

  /** A stand-in for `json.loads`: `None` where it raises, `Some(value)` where it returns. */
  type Parser = string -> Option<Json>

  /** The argument of the extractor: a dict is passed through unchanged, a string is parsed. */
  datatype Answer = DictAnswer(fields: map<string, Json>) | TextAnswer(text: string)

  /** The closing fence of a code block. */
  const Fence: string := "```"

  /** The pattern searched for by the brace strategies. */
  const OpenBrace: string := "{"

  /** The opening fences, in the order they are tried. */
  const Markers: seq<string> := ["```json", "```JSON", "```"]

  // ---------------------------------------------------------------------------
  // Trying candidates in order: the first one that parses wins
  // ---------------------------------------------------------------------------

  /** No candidate parses. */
  predicate NoneParses(parse: Parser, cands: seq<string>) {
    forall k :: 0 <= k < |cands| ==> parse(cands[k]).None?
  }

  /** Position of the first candidate that parses, if any. */
  function FirstParsing(parse: Parser, cands: seq<string>): (r: Option<nat>)
    ensures r.Some? ==> r.value < |cands| && parse(cands[r.value]).Some?
    ensures forall k :: 0 <= k < |cands| && (r.None? || k < r.value) ==> parse(cands[k]).None?
  {
    if cands == [] then None
    else if parse(cands[0]).Some? then Some(0)
    else match FirstParsing(parse, cands[1..])
      case None => None
      case Some(k) => Some(k + 1)
  }

  /** The value of the first candidate that parses, or `None` when none does. */
  function TryInOrder(parse: Parser, cands: seq<string>): Option<Json>
  {
    match FirstParsing(parse, cands)
    case None => None
    case Some(k) => parse(cands[k])
  }

  /** When candidate `k` parses and all before it fail, the chain yields candidate `k`'s value. */
  lemma TryInOrderHit(parse: Parser, cands: seq<string>, k: nat)
    requires k < |cands| && parse(cands[k]).Some?
    requires forall j :: 0 <= j < k ==> parse(cands[j]).None?
    ensures FirstParsing(parse, cands) == Some(k)
    ensures TryInOrder(parse, cands) == parse(cands[k])
  {
  }

  /** When no candidate parses, the chain yields `None`. */
  lemma TryInOrderMiss(parse: Parser, cands: seq<string>)
    requires NoneParses(parse, cands)
    ensures TryInOrder(parse, cands) == None
  {
  }

  /** A value from the chain is the value of some candidate, and every earlier candidate failed. */
  lemma TryInOrderFirst(parse: Parser, cands: seq<string>)
    ensures TryInOrder(parse, cands).Some? ==>
      exists k :: 0 <= k < |cands| && TryInOrder(parse, cands) == parse(cands[k])
        && forall j :: 0 <= j < k ==> parse(cands[j]).None?
    ensures TryInOrder(parse, cands).None? <==> forall k :: 0 <= k < |cands| ==> parse(cands[k]).None?
  {
    match FirstParsing(parse, cands)
    case None =>
    case Some(k) =>
  }

  // ---------------------------------------------------------------------------
  // Strategy 2: fenced code blocks
  // ---------------------------------------------------------------------------

  /** The candidate for one marker: the trimmed text between the marker's first occurrence
      and the first closing fence after it, when both occur. */
  function FenceCandidate(text: string, marker: string): Option<string>
  {
    match Enclosed(text, marker, Fence)
    case None => None
    case Some(raw) => Some(Strip(raw))
  }

  /** The text between the first `open` and the first `close` after it. */
  function Enclosed(text: string, open: string, close: string): Option<string>
  {
    match Find(text, open, 0)
    case None => None
    case Some(start) =>
      match Find(text, close, start + |open|)
      case None => None
      case Some(end) => Some(text[start + |open|..end])
  }

  /** The text enclosed by an `open` found at `start` and a `close` found at `end`. */
  lemma EnclosedAt(text: string, open: string, close: string, start: nat, end: nat)
    requires Find(text, open, 0) == Some(start)
    requires Find(text, close, start + |open|) == Some(end)
    ensures start + |open| <= end <= |text|
    ensures Enclosed(text, open, close) == Some(text[start + |open|..end])
  {
  }

  /** Without an `open`, or without a `close` after it, nothing is enclosed. */
  lemma EnclosedNone(text: string, open: string, close: string)
    ensures Find(text, open, 0).None? ==> Enclosed(text, open, close).None?
    ensures Find(text, open, 0).Some? && Find(text, close, Find(text, open, 0).value + |open|).None? ==>
              Enclosed(text, open, close).None?
  {
  }

  /** The candidate of a marker found at `start` whose closing fence is found at `end`. */
  lemma CandidateAt(text: string, marker: string, start: nat, end: nat)
    requires Find(text, marker, 0) == Some(start)
    requires Find(text, Fence, start + |marker|) == Some(end)
    ensures start + |marker| <= end <= |text|
    ensures FenceCandidate(text, marker) == Some(Strip(text[start + |marker|..end]))
  {
    EnclosedAt(text, marker, Fence, start, end);
  }

  /** The candidates of the given markers, in marker order, skipping markers without one. */
  function FenceCandidates(text: string, markers: seq<string>): seq<string>
  {
    if markers == [] then []
    else FenceCandidates(text, markers[..|markers| - 1]) + ToSeq(FenceCandidate(text, markers[|markers| - 1]))
  }

  lemma {:induction false} FenceCandidatesAppend(text: string, ms: seq<string>, ns: seq<string>)
    ensures FenceCandidates(text, ms + ns) == FenceCandidates(text, ms) + FenceCandidates(text, ns)
    decreases |ns|
  {
    if ns == [] {
      assert ms + ns == ms;
    } else {
      var init := ns[..|ns| - 1];
      assert (ms + ns)[..|ms + ns| - 1] == ms + init;
      FenceCandidatesAppend(text, ms, init);
    }
  }

  // ---------------------------------------------------------------------------
  // Strategy 4: from the first `{` to the last `}`
  // ---------------------------------------------------------------------------

  /** The text from the first `{` to the last `}`, when a `}` follows the first `{`. */
  function BraceSlice(text: string): (r: Option<string>)
    ensures r.Some? ==> |r.value| >= 2 && r.value[0] == '{' && r.value[|r.value| - 1] == '}'
  {
    match Find(text, OpenBrace, 0)
    case None => None
    case Some(first) =>
      match RFind(text, '}')
      case None => None
      case Some(last) =>
        if last > first then
          assert text[first..first + 1][0] == text[first];
          Some(text[first..last + 1])
        else None
  }

  lemma BraceSliceIs(text: string, first: nat, last: nat)
    requires Find(text, OpenBrace, 0) == Some(first) && RFind(text, '}') == Some(last) && last > first
    ensures BraceSlice(text) == Some(text[first..last + 1])
  {
  }

  lemma NoBraceSlice(text: string, first: nat)
    requires Find(text, OpenBrace, 0) == Some(first)
    requires RFind(text, '}').None? || RFind(text, '}').value <= first
    ensures BraceSlice(text) == None
  {
  }

  // ---------------------------------------------------------------------------
  // Strategy 5: the depth-counting scan, as a state machine over prefixes
  // ---------------------------------------------------------------------------

  /** Nesting depth after reading the first `i` characters; a `}` at depth 0 is ignored,
      so the depth never goes below zero. */
  function Depth(t: string, i: nat): nat
    requires i <= |t|
  {
    if i == 0 then 0
    else
      var d := Depth(t, i - 1);
      if t[i - 1] == '{' then d + 1
      else if t[i - 1] == '}' && d > 0 then d - 1
      else d
  }

  /** Where the currently open top-level object starts, after reading `i` characters. */
  function Open(t: string, i: nat): (r: Option<nat>)
    requires i <= |t|
    ensures r.Some? <==> Depth(t, i) > 0
    ensures r.Some? ==> r.value < i && t[r.value] == '{' && Depth(t, r.value) == 0
    ensures r.Some? ==> forall k :: r.value < k <= i ==> Depth(t, k) > 0
  {
    if i == 0 || Depth(t, i) == 0 then None
    else if t[i - 1] == '{' && Depth(t, i - 1) == 0 then Some(i - 1)
    else Open(t, i - 1)
  }

  /** A span `t[start..end]` (both ends included). */
  datatype Span = Span(start: nat, end: nat)

  /** A balanced top-level object: it opens with `{` at depth 0, closes with the `}` that
      brings the depth back to 0, and the depth stays positive everywhere inside. */
  predicate TopLevel(t: string, sp: Span) {
    && sp.start < sp.end < |t|
    && t[sp.start] == '{' && t[sp.end] == '}'
    && Depth(t, sp.start) == 0 && Depth(t, sp.end + 1) == 0
    && forall k :: sp.start < k <= sp.end ==> Depth(t, k) > 0
  }

  /** The top-level spans closed within the first `i` characters, in order. */
  function Spans(t: string, i: nat): (r: seq<Span>)
    requires i <= |t|
    ensures forall k :: 0 <= k < |r| ==> r[k].start < r[k].end < i
  {
    if i == 0 then []
    else
      var prev := Spans(t, i - 1);
      var o := Open(t, i - 1);
      if t[i - 1] == '}' && Depth(t, i - 1) == 1 && o.Some? then prev + [Span(o.value, i - 1)]
      else prev
  }

  /** Every span the scan tries is a balanced top-level object. */
  lemma {:induction false} SpansTopLevel(t: string, i: nat)
    requires i <= |t|
    ensures forall k :: 0 <= k < |Spans(t, i)| ==> TopLevel(t, Spans(t, i)[k])
  {
    if i > 0 {
      SpansTopLevel(t, i - 1);
    }
  }

  /** The spans are disjoint and in text order: scanning resumes after each closing brace,
      so no object nested inside a tried one is tried. */
  lemma {:induction false} SpansOrdered(t: string, i: nat)
    requires i <= |t|
    ensures forall j, k :: 0 <= j < k < |Spans(t, i)| ==> Spans(t, i)[j].end < Spans(t, i)[k].start
  {
    if i > 0 {
      SpansOrdered(t, i - 1);
      SpansTopLevel(t, i - 1);
      var prev := Spans(t, i - 1);
      var o := Open(t, i - 1);
      if t[i - 1] == '}' && Depth(t, i - 1) == 1 && o.Some? {
        forall j | 0 <= j < |prev| ensures prev[j].end < o.value {
          assert TopLevel(t, prev[j]);
        }
      }
    }
  }

  /** The text of a span. */
  function Segment(t: string, sp: Span): string
    requires sp.start <= sp.end < |t|
  {
    t[sp.start..sp.end + 1]
  }

  /** The texts of a list of spans, in order. */
  function Segments(t: string, sps: seq<Span>): (r: seq<string>)
    requires forall k :: 0 <= k < |sps| ==> sps[k].start <= sps[k].end < |t|
    ensures |r| == |sps|
    ensures forall k :: 0 <= k < |sps| ==> r[k] == Segment(t, sps[k])
  {
    seq(|sps|, k requires 0 <= k < |sps| => Segment(t, sps[k]))
  }

  /** The spans found after `i` characters are a prefix of those found after `j >= i`. */
  lemma {:induction false} SpansPrefix(t: string, i: nat, j: nat)
    requires i <= j <= |t|
    ensures |Spans(t, i)| <= |Spans(t, j)| && Spans(t, i) == Spans(t, j)[..|Spans(t, i)|]
    decreases j - i
  {
    if i < j {
      SpansPrefix(t, i, j - 1);
    }
  }

  // ---------------------------------------------------------------------------
  // The whole chain
  // ---------------------------------------------------------------------------

  /** Strategy 2: the first fence candidate, in marker order, that parses. */
  function FenceStrategy(parse: Parser, text: string): Option<Json>
  {
    TryInOrder(parse, FenceCandidates(text, Markers))
  }

  /** Strategy 4: the first-`{`-to-last-`}` slice, when there is one and it parses. */
  function SliceStrategy(parse: Parser, text: string): Option<Json>
  {
    match BraceSlice(text)
    case None => None
    case Some(c) => parse(c)
  }

  /** Strategy 5: the first balanced top-level object, in text order, that parses. */
  function ScanStrategy(parse: Parser, text: string): Option<Json>
  {
    TryInOrder(parse, Segments(text, Spans(text, |text|)))
  }

  /** The chain of strategies on an already stripped text: fenced blocks, the whole text,
      then, only when the text holds a `{`, the two brace strategies; the first value that
      parses wins. */
  function ExtractStripped(parse: Parser, text: string): Option<Json>
  {
    if FenceStrategy(parse, text).Some? then FenceStrategy(parse, text)
    else if parse(text).Some? then parse(text)
    else if Find(text, OpenBrace, 0).None? then None
    else BraceStrategies(parse, text)
  }

  /** The first-`{`-to-last-`}` slice, and failing that the balanced top-level objects. */
  function BraceStrategies(parse: Parser, text: string): Option<Json>
  {
    if SliceStrategy(parse, text).Some? then SliceStrategy(parse, text) else ScanStrategy(parse, text)
  }

  /** What the extractor returns for an argument: a dict unchanged, a string stripped of
      surrounding white space and then run through the chain. */
  function Extract(parse: Parser, response: Answer): Option<Json>
  {
    match response
    case DictAnswer(fields) => Some(JObj(fields))
    case TextAnswer(raw) => ExtractStripped(parse, Strip(raw))
  }

  /** The extractor itself: a dict is returned as it is, a string goes through the chain. */
  method ExtractJsonFromResponse(parse: Parser, response: Answer) returns (r: Option<Json>)
    ensures r == Extract(parse, response)
  {
    if response.DictAnswer? {
      return Some(JObj(response.fields));
    }
    r := ExtractFromText(parse, Strip(response.text));
  }

  /** The chain on stripped text: the fence loop, the whole text, then the brace strategies. */
  method ExtractFromText(parse: Parser, text: string) returns (r: Option<Json>)
    ensures r == ExtractStripped(parse, text)
  {
    r := TryFences(parse, text);
    if r.Some? {
      FenceWins(parse, text);
      return;
    }
    r := parse(text);
    if r.Some? {
      WholeWins(parse, text);
      return;
    }
    var firstBrace := Find(text, OpenBrace, 0);
    if firstBrace.None? {
      NoBraceFails(parse, text);
      return None;
    }
    r := TryBraces(parse, text, firstBrace.value);
    BracesDecide(parse, text);
  }

  /** A fenced block that parses is the value. */
  lemma FenceWins(parse: Parser, text: string)
    requires FenceStrategy(parse, text).Some?
    ensures ExtractStripped(parse, text) == FenceStrategy(parse, text)
  {
  }

  /** Once the fences have failed, the whole text is the value if it parses. */
  lemma WholeWins(parse: Parser, text: string)
    requires FenceStrategy(parse, text).None? && parse(text).Some?
    ensures ExtractStripped(parse, text) == parse(text)
  {
  }

  /** Once the fences and the whole text have failed, a text without `{` yields nothing. */
  lemma NoBraceFails(parse: Parser, text: string)
    requires FenceStrategy(parse, text).None? && parse(text).None?
    requires Find(text, OpenBrace, 0).None?
    ensures ExtractStripped(parse, text).None?
  {
  }

  /** Once the fences and the whole text have failed on a text holding a `{`, the brace
      strategies decide. */
  lemma BracesDecide(parse: Parser, text: string)
    requires FenceStrategy(parse, text).None? && parse(text).None?
    requires Find(text, OpenBrace, 0).Some?
    ensures ExtractStripped(parse, text) == BraceStrategies(parse, text)
  {
  }

  /** The brace strategies: the slice from the first `{` (at `first`) to the last `}` when
      one follows it, then the depth-counting scan. */
  method TryBraces(parse: Parser, text: string, first: nat) returns (r: Option<Json>)
    requires Find(text, OpenBrace, 0) == Some(first)
    ensures r == BraceStrategies(parse, text)
  {
    var lastBrace := RFind(text, '}');
    if lastBrace.Some? && lastBrace.value > first {
      r := parse(text[first..lastBrace.value + 1]);
      if r.Some? {
        BraceSliceIs(text, first, lastBrace.value);
        return;
      }
    }
    r := ScanBalanced(parse, text);
    ScanWins(parse, text, first);
  }

  /** When the slice is missing or does not parse, the scan decides. */
  lemma ScanWins(parse: Parser, text: string, first: nat)
    requires Find(text, OpenBrace, 0) == Some(first)
    requires RFind(text, '}').Some? && RFind(text, '}').value > first ==>
      parse(text[first..RFind(text, '}').value + 1]).None?
    ensures BraceStrategies(parse, text) == ScanStrategy(parse, text)
  {
    match RFind(text, '}')
    case None =>
    case Some(last) =>
      if last > first {
        BraceSliceIs(text, first, last);
      }
  }

  /** Strategy 2: each marker in turn, its first occurrence only, up to the next fence. */
  method TryFences(parse: Parser, text: string) returns (r: Option<Json>)
    ensures r == FenceStrategy(parse, text)
  {
    for m := 0 to |Markers|
      invariant NoneParses(parse, FenceCandidates(text, Markers[..m]))
    {
      var marker := Markers[m];
      EnclosedNone(text, marker, Fence);
      var start := Find(text, marker, 0);
      if start.Some? {
        var jsonStart := start.value + |marker|;
        var end := Find(text, Fence, jsonStart);
        if end.Some? {
          var candidate := Strip(text[jsonStart..end.value]);
          CandidateAt(text, marker, start.value, end.value);
          var parsed := parse(candidate);
          if parsed.Some? {
            FenceHit(parse, text, Markers, m);
            return parsed;
          }
        }
      }
      FenceCandidatesSnoc(parse, text, Markers, m);
    }
    assert Markers[..|Markers|] == Markers;
    TryInOrderMiss(parse, FenceCandidates(text, Markers));
    return None;
  }

  /** Adding a marker whose candidate is missing or does not parse keeps every fence
      candidate failing. */
  lemma FenceCandidatesSnoc(parse: Parser, text: string, ms: seq<string>, m: nat)
    requires m < |ms|
    requires NoneParses(parse, FenceCandidates(text, ms[..m]))
    requires FenceCandidate(text, ms[m]).Some? ==> parse(FenceCandidate(text, ms[m]).value).None?
    ensures NoneParses(parse, FenceCandidates(text, ms[..m + 1]))
  {
    assert ms[..m + 1][..m] == ms[..m];
  }

  /** Strategy 5: a left-to-right walk that tracks the depth and the start of the open
      top-level object, and tries each object as soon as it closes. */
  method ScanBalanced(parse: Parser, text: string) returns (r: Option<Json>)
    ensures r == ScanStrategy(parse, text)
  {
    var depth: nat := 0;
    var startIdx: Option<nat> := None;
    for i := 0 to |text|
      invariant depth == Depth(text, i) && startIdx == Open(text, i)
      invariant forall k :: 0 <= k < |Spans(text, i)| ==> parse(Segment(text, Spans(text, i)[k])).None?
    {
      var ch := text[i];
      if ch == '{' {
        if depth == 0 {
          startIdx := Some(i);
        }
        depth := depth + 1;
      } else if ch == '}' {
        if depth > 0 {
          depth := depth - 1;
          if depth == 0 && startIdx.Some? {
            var parsed := parse(text[startIdx.value..i + 1]);
            if parsed.Some? {
              ScanHit(parse, text, i);
              return parsed;
            }
            startIdx := None;
          }
        }
      }
    }
    TryInOrderMiss(parse, Segments(text, Spans(text, |text|)));
    return None;
  }

  /** A fence candidate that parses, after the earlier markers' candidates failed, is the
      value of the fence strategy. */
  lemma FenceHit(parse: Parser, text: string, ms: seq<string>, m: nat)
    requires m < |ms|
    requires NoneParses(parse, FenceCandidates(text, ms[..m]))
    requires FenceCandidate(text, ms[m]).Some? && parse(FenceCandidate(text, ms[m]).value).Some?
    ensures TryInOrder(parse, FenceCandidates(text, ms)) == parse(FenceCandidate(text, ms[m]).value)
  {
    FenceCandidatesSplit(text, ms, m);
    PrefixHit(parse, FenceCandidates(text, ms[..m]), FenceCandidate(text, ms[m]).value, FenceCandidates(text, ms[m + 1..]));
  }

  lemma FenceCandidatesSplit(text: string, ms: seq<string>, m: nat)
    requires m < |ms|
    ensures FenceCandidates(text, ms) ==
      FenceCandidates(text, ms[..m]) + ToSeq(FenceCandidate(text, ms[m])) + FenceCandidates(text, ms[m + 1..])
  {
    assert ms[..m + 1][..m] == ms[..m];
    assert ms == ms[..m + 1] + ms[m + 1..];
    FenceCandidatesAppend(text, ms[..m + 1], ms[m + 1..]);
  }

  /** A candidate that parses after a run of failing ones is the chain's value. */
  lemma PrefixHit(parse: Parser, before: seq<string>, c: string, after: seq<string>)
    requires NoneParses(parse, before)
    requires parse(c).Some?
    ensures TryInOrder(parse, before + [c] + after) == parse(c)
  {
    var all := before + [c] + after;
    forall j | 0 <= j < |before| ensures parse(all[j]).None? {
      assert all[j] == before[j];
    }
    TryInOrderHit(parse, all, |before|);
  }

  /** A top-level object closing at `i` that parses, after all earlier ones failed, is the
      value of the scan strategy. */
  lemma ScanHit(parse: Parser, text: string, i: nat)
    requires i < |text| && text[i] == '}' && Depth(text, i) == 1 && Open(text, i).Some?
    requires forall k :: 0 <= k < |Spans(text, i)| ==> parse(Segment(text, Spans(text, i)[k])).None?
    requires parse(text[Open(text, i).value..i + 1]).Some?
    ensures TryInOrder(parse, Segments(text, Spans(text, |text|))) == parse(text[Open(text, i).value..i + 1])
  {
    var sp := Span(Open(text, i).value, i);
    var rest := SpansAfter(text, i);
    SegmentsAppend(text, Spans(text, i), sp, rest);
    PrefixHit(parse, Segments(text, Spans(text, i)), Segment(text, sp), Segments(text, rest));
  }

  /** The spans after the one closing at `i`. */
  lemma SpansAfter(text: string, i: nat) returns (rest: seq<Span>)
    requires i < |text| && text[i] == '}' && Depth(text, i) == 1 && Open(text, i).Some?
    ensures Spans(text, |text|) == Spans(text, i) + [Span(Open(text, i).value, i)] + rest
    ensures forall k :: 0 <= k < |rest| ==> rest[k].start <= rest[k].end < |text|
  {
    var all := Spans(text, |text|);
    var n := |Spans(text, i)|;
    assert Spans(text, i + 1) == Spans(text, i) + [Span(Open(text, i).value, i)];
    SpansPrefix(text, i + 1, |text|);
    rest := all[n + 1..];
    assert all == all[..n + 1] + rest;
  }

  lemma SegmentsAppend(text: string, before: seq<Span>, sp: Span, after: seq<Span>)
    requires forall k :: 0 <= k < |before| ==> before[k].start <= before[k].end < |text|
    requires sp.start <= sp.end < |text|
    requires forall k :: 0 <= k < |after| ==> after[k].start <= after[k].end < |text|
    ensures Segments(text, before + [sp] + after) == Segments(text, before) + [Segment(text, sp)] + Segments(text, after)
  {
  }
}
