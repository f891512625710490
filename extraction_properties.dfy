/** What the extractor guarantees, for every parser: which balanced objects the scan tries
    and which one it picks, that a fenced block is found through the surrounding text, and
    that blank text yields nothing. */
module ExtractionProperties {
  import opened Wrappers
  import opened Text
  import opened JsonValues
  import opened ResponseParser

  // ---------------------------------------------------------------------------
  // The depth scan
  // ---------------------------------------------------------------------------

  /** Across a stretch where every `}` is read at a positive depth, the depth moves by the
      number of `{` minus the number of `}`. */
  lemma {:induction false} DepthCount(t: string, i: nat, j: nat)
    requires i <= j <= |t|
    requires forall m :: i <= m < j && t[m] == '}' ==> Depth(t, m) > 0
    ensures Depth(t, j) + Count(t[i..j], '}') == Depth(t, i) + Count(t[i..j], '{')
    decreases j - i
  {
    if i < j {
      DepthCount(t, i, j - 1);
      assert t[i..j][..j - i - 1] == t[i..j - 1];
    }
  }

  /** Every object the scan tries is brace-balanced: as many `{` as `}`, and every proper
      prefix has more `{` than `}`. */
  lemma SegmentBalanced(t: string, sp: Span)
    requires TopLevel(t, sp)
    ensures var s := Segment(t, sp);
      && Count(s, '{') == Count(s, '}')
      && forall n :: 0 < n < |s| ==> Count(s[..n], '{') > Count(s[..n], '}')
  {
    var s := Segment(t, sp);
    DepthCount(t, sp.start, sp.end + 1);
    forall n | 0 < n < |s| ensures Count(s[..n], '{') > Count(s[..n], '}') {
      assert s[..n] == t[sp.start..sp.start + n];
      DepthCount(t, sp.start, sp.start + n);
    }
  }

  /** While the depth stays positive after an opening brace read at depth 0, that brace is
      where the open object starts. */
  lemma {:induction false} OpenIs(t: string, s: nat, i: nat)
    requires s < i <= |t| && t[s] == '{' && Depth(t, s) == 0
    requires forall k :: s < k <= i ==> Depth(t, k) > 0
    ensures Open(t, i) == Some(s)
    decreases i
  {
    if i > s + 1 {
      OpenIs(t, s, i - 1);
    }
  }

  /** The scan tries every balanced top-level object of the text. */
  lemma SpansComplete(t: string, sp: Span) returns (j: nat)
    requires TopLevel(t, sp)
    ensures j < |Spans(t, |t|)| && Spans(t, |t|)[j] == sp
  {
    OpenIs(t, sp.start, sp.end);
    assert Spans(t, sp.end + 1) == Spans(t, sp.end) + [sp];
    SpansPrefix(t, sp.end + 1, |t|);
    j := |Spans(t, sp.end)|;
  }

  /** An object nested inside a top-level one is never tried on its own. */
  lemma NestedNotTried(t: string, outer: Span, inner: Span)
    requires TopLevel(t, outer) && outer.start < inner.start <= outer.end
    ensures !TopLevel(t, inner) && inner !in Spans(t, |t|)
  {
    SpansTopLevel(t, |t|);
  }

  /** Of two tried objects, the one that closes first is tried first. */
  lemma SpansByEnd(t: string, j: nat, k: nat)
    requires j < |Spans(t, |t|)| && k < |Spans(t, |t|)|
    requires Spans(t, |t|)[j].end < Spans(t, |t|)[k].end
    ensures j < k
  {
    SpansOrdered(t, |t|);
  }

  /** The scan yields nothing exactly when no balanced top-level object parses. */
  lemma ScanFailsIff(parse: Parser, t: string)
    ensures ScanStrategy(parse, t).None? <==>
      forall sp :: TopLevel(t, sp) ==> parse(Segment(t, sp)).None?
  {
    var sps := Spans(t, |t|);
    var segs := Segments(t, sps);
    SpansTopLevel(t, |t|);
    TryInOrderFirst(parse, segs);
    if ScanStrategy(parse, t).None? {
      forall sp | TopLevel(t, sp) ensures parse(Segment(t, sp)).None? {
        var j := SpansComplete(t, sp);
        assert segs[j] == Segment(t, sp);
      }
    } else {
      var k :| 0 <= k < |segs| && ScanStrategy(parse, t) == parse(segs[k]);
      assert TopLevel(t, sps[k]);
    }
  }

  /** The scan yields the earliest balanced top-level object that parses: not the longest
      and not the last. */
  lemma ScanPicksEarliest(parse: Parser, t: string)
    requires ScanStrategy(parse, t).Some?
    ensures exists sp :: TopLevel(t, sp) && ScanStrategy(parse, t) == parse(Segment(t, sp)) &&
                         forall other :: TopLevel(t, other) && other.end < sp.end ==> parse(Segment(t, other)).None?
  {
    var sps := Spans(t, |t|);
    var segs := Segments(t, sps);
    SpansTopLevel(t, |t|);
    var k := FirstParsing(parse, segs).value;
    var sp := sps[k];
    forall other | TopLevel(t, other) && other.end < sp.end ensures parse(Segment(t, other)).None? {
      var j := SpansComplete(t, other);
      SpansByEnd(t, j, k);
      assert segs[j] == Segment(t, other);
    }
    assert TopLevel(t, sp) && segs[k] == Segment(t, sp);
  }

  // ---------------------------------------------------------------------------
  // Whole-chain scenarios
  // ---------------------------------------------------------------------------

  /** A dict answer is returned as it is, whatever the parser: nothing is parsed. */
  lemma DictPassesThrough(parse: Parser, other: Parser, fields: map<string, Json>)
    ensures Extract(parse, DictAnswer(fields)) == Some(JObj(fields))
    ensures Extract(parse, DictAnswer(fields)) == Extract(other, DictAnswer(fields))
  {
  }

  /** Every opening fence starts with a backtick. */
  lemma MarkersStartWithBacktick()
    ensures forall m :: 0 <= m < |Markers| ==> |Markers[m]| > 0 && Markers[m][0] == '`'
  {
  }

  /** Without any marker candidate, the fence strategy has nothing to try. */
  lemma {:induction false} NoFenceCandidates(text: string, ms: seq<string>)
    requires forall m :: 0 <= m < |ms| ==> FenceCandidate(text, ms[m]).None?
    ensures FenceCandidates(text, ms) == []
    decreases |ms|
  {
    if ms != [] {
      NoFenceCandidates(text, ms[..|ms| - 1]);
    }
  }

  /** A text without backticks has no fence candidates. */
  lemma NoBacktickNoFence(text: string)
    requires NoBacktick(text)
    ensures FenceCandidates(text, Markers) == []
  {
    MarkersStartWithBacktick();
    forall m | 0 <= m < |Markers| ensures FenceCandidate(text, Markers[m]).None? {
      forall k: nat ensures !IsAt(text, Markers[m], k) {
        IsAtFirst(text, Markers[m], k);
      }
    }
    NoFenceCandidates(text, Markers);
  }

  /** Blank text yields nothing, given a parser that rejects the empty text. */
  lemma BlankTextFails(parse: Parser, raw: string)
    requires AllSpace(raw) && parse("").None?
    ensures Extract(parse, TextAnswer(raw)).None?
  {
    StripEmptyIffBlank(raw);
    NoBacktickNoFence("");
    assert Find("", OpenBrace, 0).None?;
  }

  /** No backtick occurs in `s`. */
  predicate NoBacktick(s: string) {
    forall k :: 0 <= k < |s| ==> s[k] != '`'
  }

  /** No fence starts inside `inner` when the fence follows it, not even one that runs into
      that fence: the fence right after `inner` is the first one. */
  predicate Unfenced(inner: string, fence: string) {
    forall k :: 0 <= k < |inner| ==> !IsAt(inner + fence, fence, k)
  }

  /** A body without the fence's first character is unfenced. */
  lemma FreeUnfenced(inner: string, fence: string)
    requires |fence| > 0
    requires forall k :: 0 <= k < |inner| ==> inner[k] != fence[0]
    ensures Unfenced(inner, fence)
  {
    forall k | 0 <= k < |inner| ensures !IsAt(inner + fence, fence, k) {
      assert (inner + fence)[k] == inner[k];
      IsAtFirst(inner + fence, fence, k);
    }
  }

  /** A text made of a lead free of the marker's first character, the opening marker, an
      unfenced body, the closing fence and anything after it: the marker is found right after
      the lead, and the first fence after it closes the body. */
  lemma BlockLayout(lead: string, open: string, inner: string, fence: string, rest: string)
    requires |open| > 0 && |fence| > 0
    requires forall k :: 0 <= k < |lead| ==> lead[k] != open[0]
    requires Unfenced(inner, fence)
    ensures var text := lead + open + inner + fence + rest;
      && Find(text, open, 0) == Some(|lead|)
      && Find(text, fence, |lead| + |open|) == Some(|lead| + |open| + |inner|)
      && text[|lead| + |open|..|lead| + |open| + |inner|] == inner
  {
    var text := lead + open + inner + fence + rest;
    var head := lead + open;
    var from := |lead| + |open|;
    assert |head| == from;
    assert Find(text, open, 0) == Some(|lead|) by {
      assert text == lead + open + (inner + fence + rest);
      MarkerAt(lead, open, inner + fence + rest);
    }
    assert Find(text, fence, from) == Some(from + |inner|) by {
      FenceCloses(head, inner, fence, rest);
    }
    assert text[from..from + |inner|] == inner by {
      assert text == head + inner + (fence + rest);
      SliceWithin(head, inner, fence + rest, 0, |inner|);
    }
  }

  /** The marker's first occurrence is right after a lead free of its first character. */
  lemma MarkerAt(lead: string, open: string, tail: string)
    requires |open| > 0
    requires forall k :: 0 <= k < |lead| ==> lead[k] != open[0]
    ensures Find(lead + open + tail, open, 0) == Some(|lead|)
  {
    var text := lead + open + tail;
    assert text[|lead|..|lead| + |open|] == open;
    assert IsAt(text, open, |lead|);
    forall k | 0 <= k < |lead| ensures !IsAt(text, open, k) {
      assert text[k] == lead[k];
      IsAtFirst(text, open, k);
    }
  }

  /** The first fence after the marker is the one right after the body. */
  lemma FenceCloses(open: string, inner: string, fence: string, rest: string)
    requires |fence| > 0
    requires Unfenced(inner, fence)
    ensures Find(open + inner + fence + rest, fence, |open|) == Some(|open| + |inner|)
  {
    var text := open + inner + fence + rest;
    var close := |open| + |inner|;
    assert text[close..close + |fence|] == fence;
    assert IsAt(text, fence, close);
    assert text == open + (inner + fence) + rest;
    forall k | |open| <= k < close ensures !IsAt(text, fence, k) {
      var j := k - |open|;
      assert !IsAt(inner + fence, fence, j);
      SliceWithin(open, inner + fence, rest, j, |fence|);
    }
  }

  /** A slice inside the middle part is that slice of the middle part. */
  lemma SliceWithin(open: string, mid: string, rest: string, j: nat, m: nat)
    requires j + m <= |mid|
    ensures (open + mid + rest)[|open| + j..|open| + j + m] == mid[j..j + m]
  {
  }

  /** Such a text: the marker encloses exactly that body. */
  lemma BlockEnclosed(lead: string, open: string, inner: string, fence: string, rest: string)
    requires |open| > 0 && |fence| > 0
    requires forall k :: 0 <= k < |lead| ==> lead[k] != open[0]
    requires Unfenced(inner, fence)
    ensures Enclosed(lead + open + inner + fence + rest, open, fence) == Some(inner)
  {
    var text := lead + open + inner + fence + rest;
    var start, end := |lead|, |lead| + |open| + |inner|;
    BlockLayout(lead, open, inner, fence, rest);
    EnclosedIs(text, open, fence, start, end, inner);
  }

  /** The found marker and fence enclose a known body. */
  lemma EnclosedIs(text: string, open: string, close: string, start: nat, end: nat, inner: string)
    requires Find(text, open, 0) == Some(start)
    requires Find(text, close, start + |open|) == Some(end)
    requires start + |open| <= end <= |text| && text[start + |open|..end] == inner
    ensures Enclosed(text, open, close) == Some(inner)
  {
    EnclosedAt(text, open, close, start, end);
  }

  /** Stripping a text whose middle part starts and ends with non-space characters keeps
      that middle part whole, with a tail of what came before it and a head of what follows. */
  lemma StripAround(lead: string, mid: string, rest: string) returns (a: nat, b: nat)
    requires mid != [] && !IsSpace(mid[0]) && !IsSpace(mid[|mid| - 1])
    ensures a <= |lead| && b <= |rest|
    ensures Strip(lead + mid + rest) == lead[a..] + mid + rest[..b]
  {
    var text := lead + mid + rest;
    var i, j := StripWindow(text);
    assert forall k :: 0 <= k < i ==> IsSpace(text[k]) by {
      forall k | 0 <= k < i ensures IsSpace(text[k]) {
        assert text[..i][k] == text[k];
      }
    }
    assert forall k :: j <= k < |text| ==> IsSpace(text[k]) by {
      forall k | j <= k < |text| ensures IsSpace(text[k]) {
        assert text[j..][k - j] == text[k];
      }
    }
    assert text[|lead|] == mid[0] && text[|lead| + |mid| - 1] == mid[|mid| - 1];
    a, b := i, j - |lead| - |mid|;
    SliceAcross(lead, mid, rest, i, j);
  }

  /** A slice that covers the middle part is a tail of the first part, the middle part and a
      head of the last part. */
  lemma SliceAcross(lead: string, mid: string, rest: string, i: nat, j: nat)
    requires i <= |lead| && |lead| + |mid| <= j <= |lead| + |mid| + |rest|
    ensures (lead + mid + rest)[i..j] == lead[i..] + mid + rest[..j - |lead| - |mid|]
  {
  }

  /** The same text, stripped first: the marker still encloses exactly that body, provided
      the marker starts and the fence ends with non-space characters. */
  lemma StrippedBlockEnclosed(lead: string, open: string, inner: string, fence: string, rest: string)
    requires |open| > 0 && |fence| > 0
    requires !IsSpace(open[0]) && !IsSpace(fence[|fence| - 1])
    requires forall k :: 0 <= k < |lead| ==> lead[k] != open[0]
    requires Unfenced(inner, fence)
    ensures Enclosed(Strip(lead + open + inner + fence + rest), open, fence) == Some(inner)
  {
    var mid := open + inner + fence;
    assert mid[0] == open[0] && mid[|mid| - 1] == fence[|fence| - 1];
    Regroup(lead, open, inner, fence, rest);
    var a, b := StripAround(lead, mid, rest);
    Regroup(lead[a..], open, inner, fence, rest[..b]);
    BlockEnclosed(lead[a..], open, inner, fence, rest[..b]);
  }

  /** Concatenation regrouped around a middle part. */
  lemma Regroup(a: string, p: string, b: string, q: string, z: string)
    ensures a + p + b + q + z == a + (p + b + q) + z
  {
  }

  /** A text holding a ```` ```json ```` block whose body parses yields that body's value,
      whatever backtick-free text comes before the block, whatever white space pads the body
      and whatever follows the block. The body may hold backticks, as long as no closing
      fence starts inside it. */
  lemma FencedBlockWins(parse: Parser, lead: string, pad1: string, body: string, pad2: string,
                        rest: string)
    requires NoBacktick(lead)
    requires AllSpace(pad1) && AllSpace(pad2)
    requires body == [] || (!IsSpace(body[0]) && !IsSpace(body[|body| - 1]))
    requires Unfenced(pad1 + body + pad2, Fence)
    requires parse(body).Some?
    ensures Extract(parse, TextAnswer(lead + Markers[0] + pad1 + body + pad2 + Fence + rest))
            == parse(body)
  {
    var inner := pad1 + body + pad2;
    var raw := lead + Markers[0] + pad1 + body + pad2 + Fence + rest;
    assert raw == lead + Markers[0] + inner + Fence + rest;
    MarkersStartWithBacktick();
    StrippedBlockEnclosed(lead, Markers[0], inner, Fence, rest);
    StripPadded(pad1, body, pad2);
    FirstFenceWins(parse, raw, body);
  }

  /** A backtick inside the body does not end the block: only a whole fence does. */
  lemma BacktickInBody(parse: Parser)
    requires parse("{`}").Some?
    ensures Extract(parse, TextAnswer("```json\n{`}\n```")) == parse("{`}")
  {
    var inner := "\n" + "{`}" + "\n";
    var t := inner + Fence;
    assert t == "\n{`}\n```";
    forall k | 0 <= k < |inner| ensures !IsAt(t, Fence, k) {
      assert t[k..k + 3] == [t[k], t[k + 1], t[k + 2]];
      assert t[k] != '`' || t[k + 1] != '`';
    }
    assert "" + Markers[0] + "\n" + "{`}" + "\n" + Fence + "" == "```json\n{`}\n```";
    FencedBlockWins(parse, "", "\n", "{`}", "\n", "");
  }

  /** When the first marker's block in the stripped text parses, its value is the result. */
  lemma FirstFenceWins(parse: Parser, raw: string, body: string)
    requires FenceCandidate(Strip(raw), Markers[0]) == Some(body) && parse(body).Some?
    ensures Extract(parse, TextAnswer(raw)) == parse(body)
  {
    assert Markers[..0] == [];
    FenceHit(parse, Strip(raw), Markers, 0);
    FenceWins(parse, Strip(raw));
  }

  /** A text with no backtick and no brace is parsed as a whole or not at all. */
  lemma PlainTextWhole(parse: Parser, text: string)
    requires Strip(text) == text && NoBacktick(text)
    requires forall k :: 0 <= k < |text| ==> text[k] != '{'
    ensures Extract(parse, TextAnswer(text)) == parse(text)
  {
    NoBacktickNoFence(text);
  }
}
