/** Searching and counting in sequences, shared by the parsers of the model. */
module Seqs {

  /** Index of the first occurrence of `x` in `s`, or `|s|` when `x` does not occur. */
  function Find<T(==)>(s: seq<T>, x: T): (i: nat)
    ensures i <= |s|
    ensures i < |s| ==> s[i] == x
  {
    if s == [] then 0
    else if s[0] == x then 0
    else 1 + Find(s[1..], x)
  }

  /** No occurrence of `x` comes before the one `Find` reports. */
  lemma {:induction false} FindIsFirst<T>(s: seq<T>, x: T, j: nat)
    requires j < Find(s, x)
    ensures s[j] != x
  {
    if j > 0 {
      FindIsFirst(s[1..], x, j - 1);
    }
  }

  /** Searching past a prefix that does not hold `x` skips the whole prefix. */
  lemma {:induction false} FindPastPrefix<T>(a: seq<T>, b: seq<T>, x: T)
    requires x !in a
    ensures Find(a + b, x) == |a| + Find(b, x)
  {
    if a == [] {
      assert a + b == b;
    } else {
      assert (a + b)[1..] == a[1..] + b;
      FindPastPrefix(a[1..], b, x);
    }
  }

  /** Number of occurrences of `x` in `s`. */
  function Count<T(==)>(s: seq<T>, x: T): nat
  {
    if s == [] then 0
    else (if s[0] == x then 1 else 0) + Count(s[1..], x)
  }

  lemma {:induction false} CountConcat<T>(a: seq<T>, b: seq<T>, x: T)
    ensures Count(a + b, x) == Count(a, x) + Count(b, x)
  {
    if a == [] {
      assert a + b == b;
    } else {
      assert (a + b)[1..] == a[1..] + b;
      CountConcat(a[1..], b, x);
    }
  }

  lemma {:induction false} CountAbsent<T>(s: seq<T>, x: T)
    requires x !in s
    ensures Count(s, x) == 0
  {
    if s != [] {
      CountAbsent(s[1..], x);
    }
  }
}
