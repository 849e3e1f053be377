/**
 * The CoreMark store-width analysis: read a core trace line by line and count
 * the lines that mention `sb`, `sh` or `sw`. The file is the sequence of the
 * strings `readline` returns; the empty string is end of file. A line counts
 * for the first of `sb`, `sh`, `sw` it contains, in that order, so each line
 * adds to at most one counter.
 */
module SwAnalysis {

  /** `p` occurs in `s` starting at index `i`. */
  predicate OccursAt(s: string, p: string, i: int) {
    0 <= i <= |s| - |p| && s[i..i + |p|] == p
  }

  /** `p` occurs somewhere in `s`. */
  ghost predicate Contains(s: string, p: string) {
    exists i :: OccursAt(s, p, i)
  }

  /** An occurrence one character into `s` is an occurrence in `s[1..]`. */
  lemma OccursShift(s: string, p: string, i: nat)
    requires |s| > 0
    ensures OccursAt(s, p, i + 1) <==> OccursAt(s[1..], p, i)
  {
    if i <= |s| - 1 - |p| {
      assert s[i + 1..i + 1 + |p|] == s[1..][i..i + |p|];
    }
  }

  /** `s.find(p)`: the first index at which `p` occurs in `s`, or -1 when it does not occur. */
  function Find(s: string, p: string): (r: int)
    ensures r == -1 <==> !Contains(s, p)
    ensures r != -1 ==> OccursAt(s, p, r) && forall k :: 0 <= k < r ==> !OccursAt(s, p, k)
    decreases |s|
  {
    if |s| < |p| then
      -1
    else if s[..|p|] == p then
      assert OccursAt(s, p, 0);
      0
    else
      var r := Find(s[1..], p);
      FindStep(s, p, r);
      if r == -1 then -1 else r + 1
  }

  /** The occurrences of `p` in `s` past index 0 are those in `s[1..]`, shifted by one. */
  lemma FindStep(s: string, p: string, r: int)
    requires |s| >= |p| && s[..|p|] != p
    requires r == -1 <==> !Contains(s[1..], p)
    requires r != -1 ==> OccursAt(s[1..], p, r) && forall k :: 0 <= k < r ==> !OccursAt(s[1..], p, k)
    ensures r == -1 <==> !Contains(s, p)
    ensures r != -1 ==> OccursAt(s, p, r + 1) && forall k :: 0 <= k < r + 1 ==> !OccursAt(s, p, k)
  {
    assert !OccursAt(s, p, 0);
    if r == -1 {
      forall i | OccursAt(s, p, i)
        ensures false
      {
        OccursShift(s, p, i - 1);
      }
    } else {
      OccursShift(s, p, r);
      forall k | 1 <= k < r + 1
        ensures !OccursAt(s, p, k)
      {
        OccursShift(s, p, k - 1);
      }
    }
  }

  /** Which counter a line adds to. */
  datatype Store = Sb | Sh | Sw | NoStore

  /** The `if`/`elif` chain: `sb` first, then `sh`, then `sw`. */
  ghost function Classify(line: string): Store {
    if Contains(line, "sb") then Sb
    else if Contains(line, "sh") then Sh
    else if Contains(line, "sw") then Sw
    else NoStore
  }

  /** The three counters. */
  datatype Counts = Counts(sw: nat, sh: nat, sb: nat)

  function Total(c: Counts): nat {
    c.sw + c.sh + c.sb
  }

  function Plus(c: Counts, d: Counts): Counts {
    Counts(c.sw + d.sw, c.sh + d.sh, c.sb + d.sb)
  }

  /** The counters after one more line of the given kind. */
  function Count(c: Counts, k: Store): Counts {
    match k
    case Sb => c.(sb := c.sb + 1)
    case Sh => c.(sh := c.sh + 1)
    case Sw => c.(sw := c.sw + 1)
    case NoStore => c
  }

  /** The counters after the given lines, counted from zero. */
  ghost function Tally(lines: seq<string>): Counts {
    if |lines| == 0 then Counts(0, 0, 0)
    else Count(Tally(lines[..|lines| - 1]), Classify(lines[|lines| - 1]))
  }

  /** Each line adds one to exactly the counter of its kind, or to none when it mentions no store. */
  lemma CountsOneLine(c: Counts, line: string)
    ensures var d := Count(c, Classify(line));
      Total(d) == Total(c) + (if Classify(line) == NoStore then 0 else 1) &&
      d.sb == c.sb + (if Contains(line, "sb") then 1 else 0) &&
      (Contains(line, "sb") ==> d.sh == c.sh && d.sw == c.sw) &&
      (!Contains(line, "sb") && !Contains(line, "sh") && !Contains(line, "sw") ==> d == c)
  {
  }

  /** The counters never sum to more than the number of lines. */
  lemma {:induction false} TotalAtMostLines(lines: seq<string>)
    ensures Total(Tally(lines)) <= |lines|
  {
    if |lines| > 0 {
      TotalAtMostLines(lines[..|lines| - 1]);
    }
  }

  /** Counting one more line commutes with adding counters. */
  lemma CountPlus(c: Counts, d: Counts, k: Store)
    ensures Count(Plus(c, d), k) == Plus(c, Count(d, k))
  {
  }

  /** Counting is additive over a split of the lines. */
  lemma {:induction false} TallyAppend(u: seq<string>, v: seq<string>)
    ensures Tally(u + v) == Plus(Tally(u), Tally(v))
    decreases |v|
  {
    if |v| == 0 {
      assert u + v == u;
    } else {
      var w, x := v[..|v| - 1], v[|v| - 1];
      assert (u + v)[..|u + v| - 1] == u + w;
      assert (u + v)[|u + v| - 1] == x;
      TallyAppend(u, w);
      CountPlus(Tally(u), Tally(w), Classify(x));
    }
  }

  /** A line between two others adds exactly its own count. */
  lemma TallyMiddle(u: seq<string>, line: string, v: seq<string>)
    ensures Tally(u + [line] + v) == Plus(Tally(u + v), Count(Counts(0, 0, 0), Classify(line)))
  {
    TallyAppend(u + [line], v);
    TallyAppend(u, [line]);
    assert [line][..0] == [];
    TallyAppend(u, v);
  }

  /** Taking out element `j` takes exactly one copy of it out of the multiset. */
  lemma MultisetSplit<T>(s: seq<T>, j: nat)
    requires j < |s|
    ensures multiset(s[..j] + s[j + 1..]) == multiset(s) - multiset{s[j]}
  {
    assert s == s[..j] + [s[j]] + s[j + 1..];
  }

  /** The counters do not depend on the order of the lines. */
  lemma {:induction false} TallyOrderIndependent(a: seq<string>, b: seq<string>)
    requires multiset(a) == multiset(b)
    ensures Tally(a) == Tally(b)
    decreases |a|
  {
    if |a| > 0 {
      var a', x := a[..|a| - 1], a[|a| - 1];
      assert x in multiset(b);
      var j :| 0 <= j < |b| && b[j] == x;
      var b' := b[..j] + b[j + 1..];
      assert b == b[..j] + [x] + b[j + 1..];
      assert a == a' + [x] + [];
      MultisetSplit(a, |a| - 1);
      MultisetSplit(b, j);
      assert multiset(a') == multiset(b');
      TallyOrderIndependent(a', b');
      TallyMiddle(b[..j], x, b[j + 1..]);
      TallyMiddle(a', x, []);
      assert a' + [] == a';
    } else {
      assert |multiset(b)| == |multiset(a)| == 0;
    }
  }

  /** The number of lines read before the first end-of-file marker. */
  function LinesRead(file: seq<string>): (n: nat)
    ensures n <= |file| && (forall i :: 0 <= i < n ==> file[i] != "") && (n < |file| ==> file[n] == "")
  {
    if |file| == 0 || file[0] == "" then 0 else 1 + LinesRead(file[1..])
  }

  /**
   * The script: read lines until `readline` gives the empty string, and
   * count each line by its kind. The counters are those of the lines read,
   * so they sum to at most the number of lines read.
   */
  method Analyze(file: seq<string>) returns (counts: Counts, read: nat)
    ensures read == LinesRead(file)
    ensures counts == Tally(file[..read])
    ensures Total(counts) <= read
  {
    var sw, sh, sb := 0, 0, 0;
    read := 0;
    while read < |file| && file[read] != ""
      invariant read <= LinesRead(file)
      invariant Counts(sw, sh, sb) == Tally(file[..read])
    {
      var line := file[read];
      assert file[..read + 1][read] == line;
      if Find(line, "sb") != -1 {
        sb := sb + 1;
      } else if Find(line, "sh") != -1 {
        sh := sh + 1;
      } else if Find(line, "sw") != -1 {
        sw := sw + 1;
      }
      assert file[..read + 1][..read] == file[..read];
      read := read + 1;
    }
    counts := Counts(sw, sh, sb);
    TotalAtMostLines(file[..read]);
  }
}
