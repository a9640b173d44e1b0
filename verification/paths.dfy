/** POSIX path and string helpers the job code uses: `os.path.join`,
    `os.path.basename`, `str.strip` and the `PYTHONPATH` colon join. */
module Paths {

  predicate StartsWith(s: string, c: char) { |s| > 0 && s[0] == c }
  predicate EndsWith(s: string, c: char) { |s| > 0 && s[|s| - 1] == c }

  /** `posixpath.join(a, b)`: an absolute `b` replaces `a`; otherwise a single
      separator is inserted unless `a` is empty or already ends with one. */
  function Join(a: string, b: string): string {
    if StartsWith(b, '/') then b
    else if a == [] || EndsWith(a, '/') then a + b
    else a + "/" + b
  }

  /** A relative `b` is appended to `a`, which stays a prefix, with at most
      one separator between them; an absolute `b` replaces `a`. */
  lemma JoinShape(a: string, b: string)
    ensures var p := Join(a, b);
      && (!StartsWith(b, '/') ==>
            && |a| + |b| <= |p| <= |a| + |b| + 1
            && p[..|a|] == a && p[|p| - |b|..] == b
            && (|p| == |a| + |b| + 1 ==> p[|a|] == '/'))
      && (StartsWith(b, '/') ==> p == b)
  {
  }

  /** A relative path component without separators, such as `worker.log`. */
  predicate SimpleName(b: string) {
    b != [] && forall k :: 0 <= k < |b| ==> b[k] != '/'
  }

  /** `posixpath.basename(p)`: everything after the last separator. */
  function Basename(p: string): string {
    if p == [] || EndsWith(p, '/') then [] else Basename(p[..|p| - 1]) + [p[|p| - 1]]
  }

  lemma {:induction false} BasenameAfterSeparator(x: string, b: string)
    requires x == [] || EndsWith(x, '/')
    requires forall k :: 0 <= k < |b| ==> b[k] != '/'
    ensures Basename(x + b) == b
    decreases |b|
  {
    if b != [] {
      var p := x + b;
      assert p[..|p| - 1] == x + b[..|b| - 1];
      BasenameAfterSeparator(x, b[..|b| - 1]);
    }
  }

  /** Joining a simple name onto any directory yields a path whose basename is
      that name and which extends the directory. */
  lemma JoinSimpleName(a: string, b: string)
    requires SimpleName(b)
    ensures Basename(Join(a, b)) == b
    ensures |Join(a, b)| > |a| && Join(a, b)[..|a|] == a
  {
    JoinShape(a, b);
    if a == [] || EndsWith(a, '/') {
      BasenameAfterSeparator(a, b);
    } else {
      assert a + "/" + b == (a + "/") + b;
      BasenameAfterSeparator(a + "/", b);
    }
  }

  /** `JoinSimpleName` for callers that have not established `SimpleName(b)`. */
  lemma JoinNameFacts(a: string, b: string)
    ensures SimpleName(b) ==> Basename(Join(a, b)) == b && |Join(a, b)| > |a| && Join(a, b)[..|a|] == a
  {
    if SimpleName(b) {
      JoinSimpleName(a, b);
    }
  }

  // ---------------------------------------------------------------------
  // str.strip(c)

  function LStrip(s: string, c: char): (r: string)
    ensures |r| <= |s| && r == s[|s| - |r|..]
    ensures !StartsWith(r, c)
    ensures forall k :: 0 <= k < |s| - |r| ==> s[k] == c
  {
    if StartsWith(s, c) then LStrip(s[1..], c) else s
  }

  function RStrip(s: string, c: char): (r: string)
    ensures |r| <= |s| && r == s[..|r|]
    ensures !EndsWith(r, c)
    ensures forall k :: |r| <= k < |s| ==> s[k] == c
  {
    if EndsWith(s, c) then RStrip(s[..|s| - 1], c) else s
  }

  /** `s.strip(c)`. */
  function Strip(s: string, c: char): string {
    RStrip(LStrip(s, c), c)
  }

  /** `s.strip(c)` keeps a contiguous middle part of `s`, removes only `c`
      characters on either side, and leaves no `c` at either end. */
  lemma StripIsTrimmedSlice(s: string, c: char)
    ensures var r := Strip(s, c);
      && !StartsWith(r, c) && !EndsWith(r, c)
      && (exists i, j :: 0 <= i <= j <= |s| && r == s[i..j]
            && (forall k :: 0 <= k < i ==> s[k] == c)
            && (forall k :: j <= k < |s| ==> s[k] == c))
  {
    var l := LStrip(s, c);
    var r := RStrip(l, c);
    var i := |s| - |l|;
    var j := i + |r|;
    assert r == s[i..j];
    forall k | j <= k < |s| ensures s[k] == c {
      assert s[k] == l[k - i];
    }
  }

  lemma {:induction false} RStripDropsTrailing(s: string, c: char)
    ensures RStrip(s + [c], c) == RStrip(s, c)
  {
    assert (s + [c])[..|s|] == s;
  }

  /** `':'.join([a, b])` with both halves present. */
  function ColonJoin(a: string, b: string): string {
    a + ":" + b
  }

  /** The new `PYTHONPATH`: `':'.join([suitePath, previous]).strip(':')`. */
  function PythonPath(suitePath: string, previous: string): (r: string)
    ensures !StartsWith(r, ':') && !EndsWith(r, ':')
  {
    StripIsTrimmedSlice(ColonJoin(suitePath, previous), ':');
    Strip(ColonJoin(suitePath, previous), ':')
  }

  /** With no previous `PYTHONPATH` the result is the suite path with its
      leading and trailing colons removed. */
  lemma PythonPathWithoutPrevious(suitePath: string)
    ensures PythonPath(suitePath, "") == Strip(suitePath, ':')
  {
    var joined := ColonJoin(suitePath, "");
    assert joined == suitePath + [':'];
    var l := LStrip(suitePath, ':');
    if l == [] {
      assert forall k :: 0 <= k < |joined| ==> joined[k] == ':';
      LStripAllColons(joined);
    } else {
      LStripAppend(suitePath, [':']);
      RStripDropsTrailing(l, ':');
    }
  }

  lemma {:induction false} LStripAllColons(s: string)
    requires forall k :: 0 <= k < |s| ==> s[k] == ':'
    ensures LStrip(s, ':') == []
    decreases |s|
  {
    if s != [] {
      LStripAllColons(s[1..]);
    }
  }

  lemma {:induction false} LStripAppend(s: string, t: string)
    requires LStrip(s, ':') != []
    ensures LStrip(s + t, ':') == LStrip(s, ':') + t
    decreases |s|
  {
    if StartsWith(s, ':') {
      assert (s + t)[1..] == s[1..] + t;
      LStripAppend(s[1..], t);
    }
  }

  /** A suite path and a previous value that carry no stray colons are joined
      unchanged, the suite path first. */
  lemma PythonPathPrepends(suitePath: string, previous: string)
    requires suitePath != [] && !StartsWith(suitePath, ':')
    requires previous != [] && !EndsWith(previous, ':')
    ensures PythonPath(suitePath, previous) == suitePath + ":" + previous
  {
    var s := suitePath + ":" + previous;
    assert !StartsWith(s, ':');
    assert s[|s| - 1] == previous[|previous| - 1];
  }
}
