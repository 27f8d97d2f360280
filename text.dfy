/** The string operations the request handlers use: `indexOf`, `split`,
    `join` (which is also how an array is turned into a string) and an
    ASCII `toLowerCase`. */
module Text {

  /** `t` occurs in `s` starting at index `i`. */
  predicate OccursAt(s: string, t: string, i: nat)
  {
    i + |t| <= |s| && s[i..i + |t|] == t
  }

  ghost predicate Occurs(s: string, t: string)
  {
    exists i: nat :: OccursAt(s, t, i)
  }

  /** JavaScript's `s.indexOf(t)`: the first index at which `t` occurs, or -1. */
  function IndexOf(s: string, t: string): (r: int)
    ensures -1 <= r <= |s|
    ensures r >= 0 ==> OccursAt(s, t, r)
    ensures forall j: nat :: OccursAt(s, t, j) ==> 0 <= r <= j
    decreases |s|
  {
    if OccursAt(s, t, 0) then 0
    else if s == [] then -1
    else
      var k := IndexOf(s[1..], t);
      OccursShift(s, t);
      if k < 0 then -1 else k + 1
  }

  /** An occurrence past index 0 is an occurrence in the tail, one earlier. */
  lemma OccursShift(s: string, t: string)
    requires s != []
    ensures forall j: nat :: 0 < j ==> (OccursAt(s, t, j) <==> OccursAt(s[1..], t, j - 1))
  {
    forall j: nat | 0 < j
      ensures OccursAt(s, t, j) <==> OccursAt(s[1..], t, j - 1)
    {
      if j + |t| <= |s| {
        assert s[1..][j - 1..j - 1 + |t|] == s[j..j + |t|];
      }
    }
  }

  /** `s.indexOf(t) >= 0`, the test every handler uses to look for a fault tag. */
  predicate Contains(s: string, t: string)
  {
    IndexOf(s, t) >= 0
  }

  lemma ContainsIsOccurs(s: string, t: string)
    ensures Contains(s, t) <==> Occurs(s, t)
  {
    if Occurs(s, t) {
      var i: nat :| OccursAt(s, t, i);
    }
  }

  /** `s.indexOf(t)` is falsy (zero) exactly when `s` starts with `t`; a
      missing `t` gives -1, which is truthy. */
  lemma IndexOfIsZeroIffPrefix(s: string, t: string)
    ensures IndexOf(s, t) == 0 <==> t <= s
  {
    if t <= s {
      assert s[0..|t|] == t;
      assert OccursAt(s, t, 0);
    }
    if IndexOf(s, t) == 0 {
      assert OccursAt(s, t, 0);
      assert s[..|t|] == t;
    }
  }

  /** A needle placed right after a prefix occurs at the prefix's length. */
  lemma OccursAfter(p: string, t: string)
    ensures OccursAt(p + t, t, |p|)
  {
    assert (p + t)[|p|..|p| + |t|] == t;
  }

  /** An occurrence survives text appended after it. */
  lemma OccursAtExtend(s: string, u: string, t: string, i: nat)
    requires OccursAt(s, t, i)
    ensures OccursAt(s + u, t, i)
  {
    assert (s + u)[i..i + |t|] == s[i..i + |t|];
  }

  /** Prefixing `m` with text that does not contain the first character of
      `t` neither creates nor hides an occurrence of `t`. */
  lemma OccursAfterPrefix(p: string, m: string, t: string)
    requires |t| > 0 && t[0] !in p
    ensures Occurs(p + m, t) <==> Occurs(m, t)
  {
    if Occurs(p + m, t) {
      var i: nat :| OccursAt(p + m, t, i);
      assert (p + m)[i] == t[0];
      assert i >= |p|;
      assert (p + m)[i..i + |t|] == m[i - |p|..i - |p| + |t|];
      assert OccursAt(m, t, i - |p|);
    }
    if Occurs(m, t) {
      var i: nat :| OccursAt(m, t, i);
      assert (p + m)[i + |p|..i + |p| + |t|] == m[i..i + |t|];
      assert OccursAt(p + m, t, i + |p|);
    }
  }

  /** `parts.join(sep)`. */
  function Join(parts: seq<string>, sep: string): string
  {
    if |parts| == 0 then ""
    else if |parts| == 1 then parts[0]
    else Join(parts[..|parts| - 1], sep) + sep + parts[|parts| - 1]
  }
  /** `s.split(c)` for a one-character separator: the runs of `s` between
      occurrences of `c`, always at least one (possibly empty). */
  function Split(s: string, c: char): (r: seq<string>)
    ensures |r| >= 1
    decreases |s|
  {
    if s == [] then [[]]
    else
      var rest := Split(s[..|s| - 1], c);
      if s[|s| - 1] == c then rest + [[]]
      else rest[..|rest| - 1] + [rest[|rest| - 1] + [s[|s| - 1]]]
  }
  lemma JoinExtendLast(parts: seq<string>, sep: string, t: string)
    requires |parts| >= 1
    ensures Join(parts[..|parts| - 1] + [parts[|parts| - 1] + t], sep) == Join(parts, sep) + t
  {
    var q := parts[..|parts| - 1] + [parts[|parts| - 1] + t];
    if |parts| > 1 {
      assert q[..|q| - 1] == parts[..|parts| - 1];
    }
  }
  /** Joining the pieces with the separator gives back the string. */
  lemma {:induction false} SplitJoin(s: string, c: char)
    ensures Join(Split(s, c), [c]) == s
    decreases |s|
  {
    if s != [] {
      var init := s[..|s| - 1];
      SplitJoin(init, c);
      SplitJoinSnoc(init, s[|s| - 1], c);
      assert init + [s[|s| - 1]] == s;
    }
  }
  lemma SplitJoinSnoc(init: string, x: char, c: char)
    requires Join(Split(init, c), [c]) == init
    ensures Join(Split(init + [x], c), [c]) == init + [x]
  {
    var s := init + [x];
    assert s[..|s| - 1] == init && s[|s| - 1] == x;
    var rest := Split(init, c);
    if x == c {
      assert Split(s, c) == rest + [[]];
      JoinAppendEmpty(rest, [c]);
    } else {
      assert Split(s, c) == rest[..|rest| - 1] + [rest[|rest| - 1] + [x]];
      JoinExtendLast(rest, [c], [x]);
    }
  }
  lemma JoinAppendEmpty(parts: seq<string>, sep: string)
    requires |parts| >= 1
    ensures Join(parts + [[]], sep) == Join(parts, sep) + sep
  {
    var q := parts + [[]];
    assert q[..|q| - 1] == parts;
  }
  /** No piece contains the separator. */
  lemma {:induction false} SplitPiecesFree(s: string, c: char)
    ensures forall i :: 0 <= i < |Split(s, c)| ==> c !in Split(s, c)[i]
    decreases |s|
  {
    if s != [] {
      SplitPiecesFree(s[..|s| - 1], c);
    }
  }
  /** There is more than one piece exactly when the separator occurs. */
  lemma {:induction false} SplitSingle(s: string, c: char)
    ensures |Split(s, c)| == 1 <==> c !in s
    decreases |s|
  {
    if s != [] {
      var init := s[..|s| - 1];
      SplitSingle(init, c);
      assert s == init + [s[|s| - 1]];
    }
  }
  /** Appending text free of the separator to `s` extends only the last
      piece of its split. */
  lemma {:induction false} SplitAppend(s: string, t: string, c: char)
    requires c !in t
    ensures var p := Split(s, c);
      Split(s + t, c) == p[..|p| - 1] + [p[|p| - 1] + t]
    decreases |t|
  {
    var p := Split(s, c);
    if t == [] {
      assert s + t == s;
      assert p[|p| - 1] + t == p[|p| - 1];
    } else {
      var t' := t[..|t| - 1];
      assert t == t' + [t[|t| - 1]];
      SplitAppend(s, t', c);
      assert (s + t)[..|s + t| - 1] == s + t';
      assert p[|p| - 1] + t == (p[|p| - 1] + t') + [t[|t| - 1]];
    }
  }

  /** A trailing separator opens a new, empty, last piece. */
  lemma SplitSeparatorLast(s: string, c: char)
    ensures Split(s + [c], c) == Split(s, c) + [[]]
  {
    assert (s + [c])[..|s|] == s;
  }

  /** A string without the separator splits into itself alone. */
  lemma SplitFree(s: string, c: char)
    requires c !in s
    ensures Split(s, c) == [s]
  {
    SplitSingle(s, c);
    SplitJoin(s, c);
  }

  predicate IsUpper(ch: char)
  {
    'A' <= ch <= 'Z'
  }

  /** ASCII `toLowerCase`: no upper-case letter is left, each one becomes
      the letter 32 code points above it, and every other character is
      kept. */
  function ToLower(s: string): (r: string)
    ensures |r| == |s|
    ensures forall i :: 0 <= i < |r| ==> !IsUpper(r[i])
    ensures forall i :: 0 <= i < |s| && !IsUpper(s[i]) ==> r[i] == s[i]
    ensures forall i :: 0 <= i < |s| && IsUpper(s[i]) ==> 'a' <= r[i] <= 'z' && r[i] as int == s[i] as int + 32
  {
    seq(|s|, i requires 0 <= i < |s| =>
      if IsUpper(s[i]) then (s[i] as int + 32) as char else s[i])
  }

  /** Lower-casing twice is lower-casing once. */
  lemma ToLowerIdempotent(s: string)
    ensures ToLower(ToLower(s)) == ToLower(s)
  {
  }
}
