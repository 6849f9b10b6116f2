/**
  Discovery of the "Download Artifact" composite action file. The directory
  walk is replaced by its result: the files the glob patterns matched, in
  glob order, each with its text or `None` when reading or decoding failed.
  The module keeps the files that look like the action, then picks the one
  the suite's sort puts first.
*/
module Locator {
  import opened Wrappers
  import opened PyStr

  /** A file the glob patterns matched: its path and, if it could be read as
      UTF-8, its text (after Python's newline translation). */
  datatype FileEntry = FileEntry(path: string, text: Option<string>)

  /** The outcome of the search: the chosen file, or nothing to test. */
  datatype Location = Found(file: FileEntry) | NotFound

  const NameMarker := "name: Download Artifact"
  const ConventionalDir := ".github/actions"

  // ---------------------------------------------------------------------
  // The pattern `^\s*using:\s*composite\b` searched with re.MULTILINE.
  // ---------------------------------------------------------------------

  /** Where `^` can match under re.MULTILINE: the start, or just after '\n'. */
  predicate LineStart(text: string, p: nat) {
    p <= |text| && (p == 0 || text[p - 1] == '\n')
  }

  /** `\b` after a word character at position `e`: end of text or a non-word character. */
  predicate WordEnd(text: string, e: nat) {
    e == |text| || (e < |text| && !IsWordChar(text[e]))
  }

  /** The pattern matches starting at `p` with `using:` at `a` and
      `composite` at `b`: `^`, a whitespace run, `using:`, another whitespace
      run (possibly empty, possibly across lines), `composite`, and a word
      boundary. */
  ghost predicate MatchWith(text: string, p: nat, a: nat, b: nat) {
    && LineStart(text, p)
    && p <= a && a + 6 <= b && b + 9 <= |text|
    && AllSpace(text[p..a]) && OccursAt(text, "using:", a)
    && AllSpace(text[a + 6..b]) && OccursAt(text, "composite", b)
    && WordEnd(text, b + 9)
  }

  /** The pattern matches starting at `p`. */
  ghost predicate MatchAt(text: string, p: nat) {
    exists a: nat, b: nat :: MatchWith(text, p, a, b)
  }

  /** `re.search` finds the pattern somewhere in the text. */
  ghost predicate PatternFound(text: string) {
    exists p: nat :: MatchAt(text, p)
  }

  /** The end of the whitespace run starting at `i`. */
  function SkipSpace(text: string, i: nat): (j: nat)
    requires i <= |text|
    decreases |text| - i
    ensures i <= j <= |text| && AllSpace(text[i..j])
    ensures j < |text| ==> !IsSpace(text[j])
  {
    if i < |text| && IsSpace(text[i]) then
      var j := SkipSpace(text, i + 1);
      assert text[i..j] == [text[i]] + text[i + 1..j];
      j
    else i
  }

  /** A whitespace run followed by a non-whitespace character at `a` ends at
      `a`: the greedy `\s*` has only one way to continue. */
  lemma SpaceRunEnd(text: string, i: nat, a: nat)
    requires i <= a < |text| && AllSpace(text[i..a]) && !IsSpace(text[a])
    ensures SkipSpace(text, i) == a
  {
    var j := SkipSpace(text, i);
    SpaceRunIndices(text, i, a);
    SpaceRunIndices(text, i, j);
  }

  /** A whitespace slice, stated index by index. */
  lemma SpaceRunIndices(text: string, i: nat, j: nat)
    requires i <= j <= |text| && AllSpace(text[i..j])
    ensures forall k :: i <= k < j ==> IsSpace(text[k])
  {
    forall k | i <= k < j
      ensures IsSpace(text[k])
    {
      assert text[i..j][k - i] == text[k];
    }
  }

  /** The deterministic matcher at one position: each `\s*` is greedy and
      the literal after it starts with a non-space, so there is nothing to
      backtrack into. */
  function MatchesFrom(text: string, p: nat): (r: bool)
    requires p <= |text|
    ensures r <==> MatchAt(text, p)
  {
    var a := SkipSpace(text, p);
    var b := if a + 6 <= |text| then SkipSpace(text, a + 6) else a + 6;
    var r := LineStart(text, p) && OccursAt(text, "using:", a) && OccursAt(text, "composite", b) && WordEnd(text, b + 9);
    GreedyMatch(text, p, a, b, r);
    r
  }

  /** The greedy matcher's answer at `p` is a match, and any match is the greedy one. */
  lemma GreedyMatch(text: string, p: nat, a: nat, b: nat, r: bool)
    requires p <= |text| && a == SkipSpace(text, p)
    requires b == if a + 6 <= |text| then SkipSpace(text, a + 6) else a + 6
    requires r == (LineStart(text, p) && OccursAt(text, "using:", a) && OccursAt(text, "composite", b) && WordEnd(text, b + 9))
    ensures r <==> MatchAt(text, p)
  {
    if r {
      GreedySound(text, p, a, b);
    }
    if MatchAt(text, p) {
      var a', b' :| MatchWith(text, p, a', b');
      GreedyRuns(text, p, a', b');
    }
  }

  /** What the greedy matcher accepts is a match. */
  lemma GreedySound(text: string, p: nat, a: nat, b: nat)
    requires p <= |text| && a == SkipSpace(text, p)
    requires a + 6 <= |text| && b == SkipSpace(text, a + 6)
    requires LineStart(text, p) && OccursAt(text, "using:", a) && OccursAt(text, "composite", b) && WordEnd(text, b + 9)
    ensures MatchAt(text, p)
  {
    assert MatchWith(text, p, a, b);
  }

  /** Any match at `p` puts `using:` and `composite` where the greedy
      whitespace runs end. */
  lemma GreedyRuns(text: string, p: nat, a: nat, b: nat)
    requires MatchWith(text, p, a, b)
    ensures SkipSpace(text, p) == a && SkipSpace(text, a + 6) == b
  {
    assert text[a..a + 6][0] == 'u';
    SpaceRunEnd(text, p, a);
    assert text[b..b + 9][0] == 'c';
    SpaceRunEnd(text, a + 6, b);
  }

  /** The first position at or after `p` where the pattern matches. */
  function FirstMatchFrom(text: string, p: nat): (r: Option<nat>)
    requires p <= |text|
    decreases |text| - p
    ensures r.Some? ==> p <= r.value && MatchAt(text, r.value)
    ensures r.Some? ==> forall q: nat :: p <= q < r.value ==> !MatchAt(text, q)
    ensures r.None? ==> forall q: nat :: p <= q ==> !MatchAt(text, q)
  {
    if MatchesFrom(text, p) then Some(p)
    else if p == |text| then None
    else FirstMatchFrom(text, p + 1)
  }

  /** `re.search(r"^\s*using:\s*composite\b", text, flags=re.M)` succeeds. */
  function UsingComposite(text: string): (r: bool)
    ensures r <==> PatternFound(text)
  {
    FirstMatchFrom(text, 0).Some?
  }

  /** A line `<indent>using:<gap>composite` at a line start, followed by
      the end of the text or a non-word character, is found by the search. */
  lemma {:induction false} UsingLineFound(before: string, indent: string, gap: string, after: string)
    requires |before| == 0 || before[|before| - 1] == '\n'
    requires AllSpace(indent) && AllSpace(gap)
    requires |after| == 0 || !IsWordChar(after[0])
    ensures PatternFound(before + indent + "using:" + gap + "composite" + after)
  {
    var w := before + indent;
    var z := w + "using:";
    var y := z + gap;
    var x := y + "composite";
    var text := x + after;
    var p, a, b := |before|, |w|, |z| + |gap|;
    Front(x, after, b, b + 9);
    Tail(y, "composite");
    Front(x, after, a + 6, b);
    Front(y, "composite", a + 6, b);
    Tail(z, gap);
    Front(x, after, a, a + 6);
    Front(y, "composite", a, a + 6);
    Front(z, gap, a, a + 6);
    Tail(w, "using:");
    Front(x, after, p, a);
    Front(y, "composite", p, a);
    Front(z, gap, p, a);
    Front(w, "using:", p, a);
    Tail(before, indent);
    assert b + 9 < |text| ==> text[b + 9] == after[0];
    assert p > 0 ==> text[p - 1] == before[p - 1];
    assert MatchWith(text, p, a, b);
    assert MatchAt(text, p);
  }

  /** A slice inside the first part of a concatenation. */
  lemma Front(x: string, y: string, i: nat, j: nat)
    requires i <= j <= |x|
    ensures (x + y)[i..j] == x[i..j]
  {
  }

  /** The second part of a concatenation, as a slice. */
  lemma Tail(x: string, y: string)
    ensures (x + y)[|x|..|x| + |y|] == y
  {
  }

  // ---------------------------------------------------------------------
  // Candidates and ranking.
  // ---------------------------------------------------------------------

  /** The file was readable, names the action and declares a composite run. */
  function IsCandidate(f: FileEntry): (r: bool)
    ensures r <==> f.text.Some? && Contains(f.text.value, NameMarker) && PatternFound(f.text.value)
  {
    match f.text
    case None => false
    case Some(text) => In(NameMarker, text) && UsingComposite(text)
  }

  /** The candidate list, in glob order; unreadable files are skipped. */
  function Candidates(files: seq<FileEntry>): (r: seq<FileEntry>)
    ensures |r| <= |files|
    ensures forall f :: f in r <==> f in files && IsCandidate(f)
  {
    if |files| == 0 then []
    else if IsCandidate(files[0]) then [files[0]] + Candidates(files[1..])
    else Candidates(files[1..])
  }

  /** The first component of the sort key: 0 under the conventional directory. */
  function Flag(path: string): (r: int)
    ensures r == 0 <==> Contains(path, ConventionalDir)
    ensures r == 0 || r == 1
  {
    if In(ConventionalDir, path) then 0 else 1
  }

  /** The sort key `(flag, len(path))` of `a` is strictly below that of `b`. */
  predicate KeyLess(a: FileEntry, b: FileEntry) {
    Flag(a.path) < Flag(b.path) || (Flag(a.path) == Flag(b.path) && |a.path| < |b.path|)
  }

  /** The index Python's stable sort moves to the front: a least key, and
      the earliest among equal least keys. */
  function BestIndex(c: seq<FileEntry>): (i: nat)
    requires |c| > 0
    ensures i < |c|
    ensures forall j :: 0 <= j < |c| ==> !KeyLess(c[j], c[i])
    ensures forall j :: 0 <= j < i ==> KeyLess(c[i], c[j])
  {
    if |c| == 1 then 0
    else
      var k := BestIndex(c[1..]) + 1;
      assert forall j :: 1 <= j < |c| ==> c[j] == c[1..][j - 1];
      if KeyLess(c[k], c[0]) then k else 0
  }

  /** `_find_download_artifact_action` without the directory walk. */
  function Locate(files: seq<FileEntry>): (r: Location)
    ensures r.NotFound? <==> forall f :: f in files ==> !IsCandidate(f)
    ensures r.Found? ==> r.file in files && IsCandidate(r.file)
    ensures r.Found? ==> forall g :: g in files && IsCandidate(g) ==> !KeyLess(g, r.file)
    ensures r.Found? ==> r == Found(Candidates(files)[BestIndex(Candidates(files))])
  {
    var c := Candidates(files);
    if |c| == 0 then NotFound
    else
      var i := BestIndex(c);
      assert c[0] in c;
      assert forall g :: g in c ==> !KeyLess(g, c[i]) by {
        forall g | g in c ensures !KeyLess(g, c[i]) {
          var j :| 0 <= j < |c| && c[j] == g;
        }
      }
      Found(c[i])
  }

  // ---------------------------------------------------------------------
  // Properties of the search.
  // ---------------------------------------------------------------------

  /** The filter keeps glob order: filtering a concatenation filters each part. */
  lemma {:induction false} CandidatesAppend(a: seq<FileEntry>, b: seq<FileEntry>)
    ensures Candidates(a + b) == Candidates(a) + Candidates(b)
  {
    if |a| == 0 {
      assert a + b == b;
    } else {
      assert (a + b)[0] == a[0];
      assert (a + b)[1..] == a[1..] + b;
      CandidatesAppend(a[1..], b);
    }
  }

  /** A candidate under `.github/actions` beats every candidate outside it,
      whatever the path lengths. */
  lemma ConventionalBeatsFallback(files: seq<FileEntry>, g: FileEntry)
    requires g in files && IsCandidate(g) && Contains(g.path, ConventionalDir)
    ensures Locate(files).Found?
    ensures Contains(Locate(files).file.path, ConventionalDir)
  {
    var r := Locate(files);
    assert !KeyLess(g, r.file);
  }

  /** Among candidates equally placed with respect to `.github/actions`, the
      chosen path is a shortest one. */
  lemma ShorterPathWins(files: seq<FileEntry>, g: FileEntry)
    requires g in files && IsCandidate(g)
    requires Contains(g.path, ConventionalDir) <==> Contains(Locate(files).file.path, ConventionalDir)
    ensures Locate(files).Found?
    ensures |Locate(files).file.path| <= |g.path|
  {
    var r := Locate(files);
    assert !KeyLess(g, r.file);
  }

  /** Unreadable files and files without both markers never become the result;
      no candidate at all means nothing is found. */
  lemma LocateOnlyCandidates(files: seq<FileEntry>)
    ensures Locate(files) == NotFound <==> Candidates(files) == []
    ensures Locate(files).Found? ==> Locate(files).file in Candidates(files)
  {
    var c := Candidates(files);
    if |c| > 0 {
      assert c[0] in c;
    }
  }
}
