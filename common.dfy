/** Small shared vocabulary: optional values, error-carrying results and a few
    facts about sequences that both the similarity engine and the relay use. */
module Common {

  datatype Option<+T> = None | Some(value: T)

  datatype Result<+T, +E> = Ok(value: T) | Err(error: E)

  /** No element occurs twice. */
  ghost predicate Distinct<T>(s: seq<T>) {
    forall i, j :: 0 <= i < j < |s| ==> s[i] != s[j]
  }

  /** Number of occurrences of `x` in `s`, counted from the end so that
      extending `s` by one element extends the count by at most one. */
  function Count<T(==)>(s: seq<T>, x: T): (n: nat)
    ensures n <= |s|
    ensures n > 0 <==> x in s
  {
    if s == [] then 0
    else Count(s[..|s| - 1], x) + (if s[|s| - 1] == x then 1 else 0)
  }

  lemma CountSnoc<T>(s: seq<T>, x: T)
    ensures forall y :: Count(s + [x], y) == Count(s, y) + (if y == x then 1 else 0)
  {
    assert (s + [x])[..|s|] == s;
  }

  /** The distinct elements of `s` in the order of their first occurrence:
      what a Python dict built by inserting the elements of `s` in turn
      keeps as its key order. */
  function Dedup<T(==)>(s: seq<T>): (d: seq<T>)
    ensures Distinct(d)
    ensures forall i :: 0 <= i < |d| ==> d[i] in s
    ensures forall i :: 0 <= i < |s| ==> s[i] in d
    ensures |d| <= |s|
  {
    if s == [] then []
    else
      var prefix := Dedup(s[..|s| - 1]);
      if s[|s| - 1] in prefix then prefix else prefix + [s[|s| - 1]]
  }

  /** Position of the first occurrence of `x` in `s`. */
  function FirstIndex<T(==)>(s: seq<T>, x: T): (i: nat)
    requires x in s
    ensures i < |s| && s[i] == x
    ensures forall j :: 0 <= j < i ==> s[j] != x
  {
    if s[0] == x then 0 else 1 + FirstIndex(s[1..], x)
  }

  lemma {:induction false} FirstIndexPrefix<T>(s: seq<T>, n: nat, x: T)
    requires n <= |s| && x in s[..n]
    ensures FirstIndex(s, x) == FirstIndex(s[..n], x)
  {
    if s[0] != x {
      assert s[1..][..n - 1] == s[..n][1..];
      FirstIndexPrefix(s[1..], n - 1, x);
    }
  }

  /** Dedup lists the elements in the order in which they first occur. */
  lemma {:induction false} DedupFirstSeenOrder<T>(s: seq<T>, i: nat, j: nat)
    requires i < j < |Dedup(s)|
    ensures FirstIndex(s, Dedup(s)[i]) < FirstIndex(s, Dedup(s)[j])
  {
    var n := |s| - 1;
    var p := s[..n];
    var d := Dedup(s);
    var dp := Dedup(p);
    assert d[i] == dp[i] && d[i] in p;
    FirstIndexPrefix(s, n, d[i]);
    if j < |dp| {
      assert d[j] == dp[j] && d[j] in p;
      DedupFirstSeenOrder(p, i, j);
      FirstIndexPrefix(s, n, d[j]);
    } else {
      // d[j] is s[n], seen for the first time at the end of s
      assert d[j] == s[n] && s[n] !in p;
    }
  }

  /** Dedup of a longer sequence extends Dedup of its prefix. */
  lemma {:induction false} DedupSnoc<T>(s: seq<T>, x: T)
    ensures Dedup(s + [x]) == if x in Dedup(s) then Dedup(s) else Dedup(s) + [x]
  {
    assert (s + [x])[..|s + [x]| - 1] == s;
  }

  /** `a` occurs in `b` in order, possibly with gaps. */
  predicate IsSubsequence<T(==)>(a: seq<T>, b: seq<T>)
    decreases |b|
  {
    if a == [] then true
    else if b == [] then false
    else if a[0] == b[0] then IsSubsequence(a[1..], b[1..])
    else IsSubsequence(a, b[1..])
  }

  lemma {:induction false} SubsequenceElements<T>(a: seq<T>, b: seq<T>, x: T)
    requires IsSubsequence(a, b) && x in a
    ensures x in b
    decreases |b|
  {
    if a[0] == b[0] {
      if x != a[0] {
        assert x in a[1..];
        SubsequenceElements(a[1..], b[1..], x);
      }
    } else {
      SubsequenceElements(a, b[1..], x);
    }
  }
}

/** The two functions of Python's `math` module that the similarity engine
    calls. They are passed in as parameters: the model relies only on the
    facts collected in `Sound`, not on any particular approximation. */
module Numeric {

  datatype MathLib = MathLib(log: real -> real, sqrt: real -> real)

  function Product(a: real, b: real): real {
    a * b
  }

  function Square(x: real): real {
    Product(x, x)
  }

  /** The facts about `math.log` and `math.sqrt` that the code relies on:
      `log` is non-negative from 1 on; `sqrt` is the non-negative square
      root, zero on zero, positive on positives and strictly monotone. */
  ghost predicate Sound(m: MathLib) {
    && (forall x :: x >= 1.0 ==> m.log(x) >= 0.0)
    && (forall x :: x >= 0.0 ==> m.sqrt(x) >= 0.0 && Square(m.sqrt(x)) == x)
    && m.sqrt(0.0) == 0.0
    && (forall x :: x > 0.0 ==> m.sqrt(x) > 0.0)
    && (forall x, y :: 0.0 <= x < y ==> m.sqrt(x) < m.sqrt(y))
  }
}
