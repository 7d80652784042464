/** String helpers shared by the statement builder and the CSV writer. */
module Strings {

  /** The items separated by `sep`, nothing before the first or after the last
      (Python's `sep.join(items)`). */
  function Join(items: seq<string>, sep: string): string
  {
    if |items| == 0 then ""
    else if |items| == 1 then items[0]
    else Join(items[..|items| - 1], sep) + sep + items[|items| - 1]
  }

  /** Every item followed by `sep`: what a loop `out += item + sep` builds. */
  function Terminated(items: seq<string>, sep: string): string
  {
    if |items| == 0 then "" else Terminated(items[..|items| - 1], sep) + items[|items| - 1] + sep
  }

  /** Dropping the trailing separator of a terminated list leaves the joined list
      (the `out[:-1]` trims in the source rely on this). */
  lemma {:induction false} TerminatedIsJoinedPlusSep(items: seq<string>, sep: string)
    requires |items| > 0
    ensures Terminated(items, sep) == Join(items, sep) + sep
  {
    if |items| > 1 {
      var init := items[..|items| - 1];
      assert init[..|init| - 1] == items[..|items| - 2];
      TerminatedIsJoinedPlusSep(init, sep);
    } else {
      assert items[..0] == [];
    }
  }

  /** Concatenation of a list of strings. */
  function Concat(parts: seq<string>): string
  {
    if |parts| == 0 then "" else Concat(parts[..|parts| - 1]) + parts[|parts| - 1]
  }

  lemma {:induction false} ConcatAppend(a: seq<string>, b: seq<string>)
    ensures Concat(a + b) == Concat(a) + Concat(b)
  {
    if |b| > 0 {
      assert (a + b)[..|a + b| - 1] == a + b[..|b| - 1];
      ConcatAppend(a, b[..|b| - 1]);
    } else {
      assert a + b == a;
    }
  }

  /** The character `c` repeated `n` times (Python's `c * n`). */
  function Repeat(c: char, n: nat): (s: string)
    ensures |s| == n
    ensures forall i :: 0 <= i < n ==> s[i] == c
  {
    if n == 0 then "" else Repeat(c, n - 1) + [c]
  }

  /** Number of occurrences of `c` in `s`. */
  function Occurrences(s: string, c: char): nat
  {
    if |s| == 0 then 0 else Occurrences(s[..|s| - 1], c) + (if s[|s| - 1] == c then 1 else 0)
  }

  lemma {:induction false} OccurrencesAppend(a: string, b: string, c: char)
    ensures Occurrences(a + b, c) == Occurrences(a, c) + Occurrences(b, c)
  {
    if |b| > 0 {
      assert (a + b)[..|a + b| - 1] == a + b[..|b| - 1];
      OccurrencesAppend(a, b[..|b| - 1], c);
    } else {
      assert a + b == a;
    }
  }

  lemma {:induction false} OccurrencesAbsent(s: string, c: char)
    requires c !in s
    ensures Occurrences(s, c) == 0
  {
    if |s| > 0 {
      assert c !in s[..|s| - 1];
      OccurrencesAbsent(s[..|s| - 1], c);
    }
  }

  /** A join never contains `c` when neither the items nor the separator do. */
  lemma {:induction false} JoinAvoids(items: seq<string>, sep: string, c: char)
    requires c !in sep
    requires forall i :: 0 <= i < |items| ==> c !in items[i]
    ensures c !in Join(items, sep)
  {
    if |items| > 1 {
      JoinAvoids(items[..|items| - 1], sep, c);
    }
  }

  /** `sub` occurs in `s` starting at index `i`. */
  predicate OccursAt(s: string, sub: string, i: int)
  {
    0 <= i && i + |sub| <= |s| && s[i..i + |sub|] == sub
  }

  /** Python's `sub in s` for strings. */
  predicate Contains(s: string, sub: string)
  {
    exists i :: 0 <= i <= |s| && OccursAt(s, sub, i)
  }

  /** `sub` is absent when no position holding its first character starts it. */
  lemma NotContains(s: string, sub: string)
    requires |sub| > 0
    requires forall i :: 0 <= i < |s| && s[i] == sub[0] ==> !OccursAt(s, sub, i)
    ensures !Contains(s, sub)
  {
  }
}
