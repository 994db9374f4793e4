/** The string operations the runtime leans on: blanks, searching and trimming. */
module Text {
  /** White space as the source's `strip` family sees it. */
  predicate IsSpace(c: char) {
    var n := c as int;
    || 9 <= n <= 13 || 28 <= n <= 32 || n == 0x85 || n == 0xA0 || n == 0x1680 || 0x2000 <= n <= 0x200A
    || n == 0x2028 || n == 0x2029 || n == 0x202F || n == 0x205F || n == 0x3000
  }

  function RStrip(s: string): string {
    if s != [] && IsSpace(s[|s| - 1]) then RStrip(s[..|s| - 1]) else s
  }

  function LStrip(s: string): string {
    if s != [] && IsSpace(s[0]) then LStrip(s[1..]) else s
  }

  predicate OccursAt(s: string, pattern: string, i: nat) {
    i + |pattern| <= |s| && s[i..i + |pattern|] == pattern
  }

  predicate Occurs(s: string, pattern: string) {
    exists i :: 0 <= i <= |s| && OccursAt(s, pattern, i)
  }

  /** The first position of `pattern` at or after `from`, or -1. */
  function FindFrom(s: string, pattern: string, from: nat): (r: int)
    requires from <= |s|
    ensures r == -1 || (from <= r && OccursAt(s, pattern, r))
    decreases |s| - from
  {
    if OccursAt(s, pattern, from) then from else if from == |s| then -1 else FindFrom(s, pattern, from + 1)
  }

  function Find(s: string, pattern: string): (r: int)
    ensures r == -1 || (0 <= r && OccursAt(s, pattern, r))
  {
    FindFrom(s, pattern, 0)
  }

  lemma {:induction false} FindFromFirst(s: string, pattern: string, from: nat, i: nat)
    requires from <= i <= |s| && OccursAt(s, pattern, i)
    requires forall j :: from <= j < i ==> !OccursAt(s, pattern, j)
    ensures FindFrom(s, pattern, from) == i
    decreases i - from
  {
    if from < i {
      FindFromFirst(s, pattern, from + 1, i);
    }
  }

  lemma {:induction false} FindFromNone(s: string, pattern: string, from: nat)
    requires from <= |s| && !Occurs(s, pattern)
    ensures FindFrom(s, pattern, from) == -1
    decreases |s| - from
  {
    assert !OccursAt(s, pattern, from);
    if from < |s| {
      FindFromNone(s, pattern, from + 1);
    }
  }

  lemma {:induction false} RStripPrefix(s: string)
    ensures RStrip(s) <= s
    ensures RStrip(s) != [] ==> !IsSpace(RStrip(s)[|RStrip(s)| - 1])
  {
    if s != [] && IsSpace(s[|s| - 1]) {
      RStripPrefix(s[..|s| - 1]);
    }
  }

  lemma {:induction false} RStripIdempotent(s: string)
    ensures RStrip(RStrip(s)) == RStrip(s)
  {
    RStripPrefix(s);
  }

  /** Trimming does not reach past a final character that is no blank. */
  lemma {:induction false} RStripConcat(a: string, b: string)
    requires a != [] && !IsSpace(a[|a| - 1])
    ensures RStrip(a + b) == a + RStrip(b)
  {
    if b == [] {
      assert a + b == a;
    } else if IsSpace(b[|b| - 1]) {
      assert (a + b)[..|a + b| - 1] == a + b[..|b| - 1];
      RStripConcat(a, b[..|b| - 1]);
    }
  }

  lemma {:induction false} RStripBlankTail(a: string, b: string)
    requires forall i :: 0 <= i < |b| ==> IsSpace(b[i])
    ensures RStrip(a + b) == RStrip(a)
  {
    if b == [] {
      assert a + b == a;
    } else {
      assert (a + b)[..|a + b| - 1] == a + b[..|b| - 1];
      RStripBlankTail(a, b[..|b| - 1]);
    }
  }

  lemma {:induction false} PrefixOccurs(p: string, s: string, pattern: string)
    requires p <= s && Occurs(p, pattern)
    ensures Occurs(s, pattern)
  {
    var i :| 0 <= i <= |p| && OccursAt(p, pattern, i);
    assert s[i..i + |pattern|] == p[i..i + |pattern|];
    assert OccursAt(s, pattern, i);
  }

  /** A pattern found in a concatenation lies in one part or straddles the seam. */
  lemma {:induction false} OccursInConcat(a: string, b: string, pattern: string, i: nat)
    requires OccursAt(a + b, pattern, i) && pattern != []
    ensures i + |pattern| <= |a| ==> OccursAt(a, pattern, i)
    ensures i >= |a| ==> OccursAt(b, pattern, i - |a|)
    ensures i < |a| < i + |pattern| ==> a[i] == pattern[0] && b != [] && b[0] == pattern[|a| - i]
  {
    var s := a + b;
    assert pattern == s[i..i + |pattern|];
    if i + |pattern| <= |a| {
      assert a[i..i + |pattern|] == pattern;
    } else if i >= |a| {
      assert b[i - |a|..i - |a| + |pattern|] == pattern;
    } else {
      assert pattern[0] == s[i] && pattern[|a| - i] == s[|a|];
    }
  }

  lemma {:induction false} OccursAtConcat(a: string, b: string, c: string)
    ensures OccursAt(a + b + c, b, |a|)
  {
    assert (a + b + c)[|a|..|a| + |b|] == b;
  }

  // ------------------------------------------------------------------ cutting text up

  /** The position of a character, or the length of the text. */
  function IndexOf(s: string, c: char): (n: nat)
    ensures n <= |s| && c !in s[..n] && (n < |s| ==> s[n] == c)
  {
    if s == [] || s[0] == c then 0
    else
      var n := IndexOf(s[1..], c);
      assert s[..1 + n] == [s[0]] + s[1..][..n];
      1 + n
  }

  /** Text before and after the first `c`; all of it and nothing when there is none. */
  function Partition(s: string, c: char): (string, string) {
    var n := IndexOf(s, c);
    if n < |s| then (s[..n], s[n + 1..]) else (s, "")
  }

  function Split(s: string, c: char): (parts: seq<string>)
    ensures parts != [] && forall p :: p in parts ==> c !in p
    decreases |s|
  {
    var n := IndexOf(s, c);
    if n < |s| then [s[..n]] + Split(s[n + 1..], c) else [s]
  }

  lemma {:induction false} IndexOfAt(a: string, c: char, b: string)
    requires c !in a
    ensures IndexOf(a + ([c] + b), c) == |a|
  {
    if a == [] {
      assert a + ([c] + b) == [c] + b;
    } else {
      assert (a + ([c] + b))[1..] == a[1..] + ([c] + b);
      IndexOfAt(a[1..], c, b);
    }
  }

  lemma {:induction false} SplitWhole(s: string, c: char)
    requires c !in s
    ensures Split(s, c) == [s]
  {}

  lemma {:induction false} SplitAt(a: string, c: char, b: string)
    requires c !in a
    ensures Split(a + [c] + b, c) == [a] + Split(b, c)
  {
    IndexOfAt(a, c, b);
    assert a + [c] + b == a + ([c] + b);
    assert (a + [c] + b)[..|a|] == a && (a + [c] + b)[|a| + 1..] == b;
  }
}
