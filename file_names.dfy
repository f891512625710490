/** Batch mode of the web front end: every uploaded file's name, without its extension,
    becomes one scoring query. */
module FileNames {
  import opened Text

  /** The separator of a file name's extension. */
  const Dot: char := '.'

  /** What is appended to a file's stem to make its query ("'s resume"). */
  const QuerySuffix: string := "的简历情况"

  /** `strip_ext(filename)`: the name without its last extension; a name without a dot is
      returned unchanged. */
  function StripExt(filename: string): (r: string)
    ensures Dot !in filename ==> r == filename
    ensures |r| <= |filename|
  {
    if Dot !in filename then filename
    else
      var parts := Split(filename, Dot);
      StripExtLength(filename);
      Join(parts[..|parts| - 1], Dot)
  }

  /** The last dot-separated piece of a name: its extension when it has a dot. */
  function Extension(filename: string): (r: string)
    ensures Dot !in r
  {
    var parts := Split(filename, Dot);
    parts[|parts| - 1]
  }

  /** A name holding a dot splits into at least two pieces. */
  lemma SplitAtDot(s: string)
    requires Dot in s
    ensures |Split(s, Dot)| >= 2
  {
    var k :| 0 <= k < |s| && s[k] == Dot;
    assert IndexOf(s, Dot).Some?;
  }

  /** Removing the extension and joining it back with a dot gives the name back: exactly
      the last extension is removed. */
  lemma StripExtRoundTrip(filename: string)
    requires Dot in filename
    ensures StripExt(filename) + [Dot] + Extension(filename) == filename
  {
    var parts := Split(filename, Dot);
    SplitAtDot(filename);
    assert parts == parts[..|parts| - 1] + [parts[|parts| - 1]];
    JoinSnoc(parts[..|parts| - 1], parts[|parts| - 1], Dot);
    JoinSplit(filename, Dot);
  }

  /** Removing the extension removes exactly one dot. */
  lemma StripExtDots(filename: string)
    requires Dot in filename
    ensures Count(StripExt(filename), Dot) + 1 == Count(filename, Dot)
  {
    StripExtRoundTrip(filename);
    CountAppend(StripExt(filename) + [Dot], Extension(filename), Dot);
    CountAppend(StripExt(filename), [Dot], Dot);
    CountAbsent(Extension(filename), Dot);
    assert Count([Dot], Dot) == 1 by {
      assert [Dot][..0] == [];
    }
  }

  /** The stem is never longer than the name (the removed part holds at least the dot). */
  lemma StripExtLength(filename: string)
    requires Dot in filename
    ensures |Join(Split(filename, Dot)[..|Split(filename, Dot)| - 1], Dot)| < |filename|
  {
    var parts := Split(filename, Dot);
    SplitAtDot(filename);
    assert parts == parts[..|parts| - 1] + [parts[|parts| - 1]];
    JoinSnoc(parts[..|parts| - 1], parts[|parts| - 1], Dot);
    JoinSplit(filename, Dot);
  }

  /** The query for one uploaded file. */
  function FileQuery(filename: string): (q: string)
    ensures |q| >= |QuerySuffix|
    ensures q[..|q| - |QuerySuffix|] == StripExt(filename) && q[|q| - |QuerySuffix|..] == QuerySuffix
  {
    StripExt(filename) + QuerySuffix
  }

  /** The queries of a batch upload: one per file, in upload order. */
  function BatchQueries(filenames: seq<string>): (queries: seq<string>)
    ensures |queries| == |filenames|
    ensures forall k :: 0 <= k < |filenames| ==> queries[k] == FileQuery(filenames[k])
  {
    seq(|filenames|, k requires 0 <= k < |filenames| => FileQuery(filenames[k]))
  }
}
