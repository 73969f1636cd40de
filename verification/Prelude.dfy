/** Option, Result and a few real-number helpers shared by every module. */
module Prelude {
  datatype Option<+T> = None | Some(value: T)

  datatype Result<+T, +E> = Ok(value: T) | Err(error: E)

  function Min(a: real, b: real): real {
    if a <= b then a else b
  }

  function Max(a: real, b: real): real {
    if a >= b then a else b
  }

  function Abs(a: real): real {
    if a >= 0.0 then a else -a
  }

  /** The last `n` elements of `s`, or all of it when it is shorter. */
  function LastN<T>(s: seq<T>, n: nat): seq<T> {
    if |s| <= n then s else s[|s| - n..]
  }

  lemma MulDiv(a: real, b: real)
    requires b != 0.0
    ensures a / b * b == a
    ensures a * b / b == a
  {
  }

  lemma MulNonNegative(a: real, b: real)
    requires a >= 0.0 && b >= 0.0
    ensures a * b >= 0.0
  {
  }

  lemma MulMonotone(a: real, b: real, c: real)
    requires a <= b && 0.0 <= c
    ensures a * c <= b * c
  {
    MulNonNegative(b - a, c);
    assert b * c - a * c == (b - a) * c;
  }
}

/** Finite sums over the entries of a map, independent of the order of visiting them. */
module Sums {
  ghost function Sum<K, V>(m: map<K, V>, w: (K, V) -> real): real
    decreases |m|
  {
    if m == map[] then 0.0 else
      var k :| k in m;
      w(k, m[k]) + Sum(m - {k}, w)
  }

  lemma {:induction false} SumSplit<K, V>(m: map<K, V>, k: K, w: (K, V) -> real)
    requires k in m
    ensures Sum(m, w) == w(k, m[k]) + Sum(m - {k}, w)
    decreases |m|
  {
    var t :| t in m && Sum(m, w) == w(t, m[t]) + Sum(m - {t}, w);
    if t != k {
      SumSplit(m - {t}, k, w);
      SumSplit(m - {k}, t, w);
      assert m - {t} - {k} == m - {k} - {t};
    }
  }

  lemma SumReplace<K, V>(m: map<K, V>, k: K, v: V, w: (K, V) -> real)
    ensures Sum(m[k := v], w) == w(k, v) + Sum(m - {k}, w)
    ensures Sum(m, w) == (if k in m then w(k, m[k]) else 0.0) + Sum(m - {k}, w)
  {
    SumSplit(m[k := v], k, w);
    assert m[k := v] - {k} == m - {k};
    if k in m {
      SumSplit(m, k, w);
    } else {
      assert m - {k} == m;
    }
  }

  lemma {:induction false} SumLinear<K, V>(m: map<K, V>, a: (K, V) -> real, b: (K, V) -> real, c: (K, V) -> real)
    requires forall k :: k in m ==> a(k, m[k]) == b(k, m[k]) + c(k, m[k])
    ensures Sum(m, a) == Sum(m, b) + Sum(m, c)
    decreases |m|
  {
    if m != map[] {
      var k :| k in m;
      SumSplit(m, k, a);
      SumSplit(m, k, b);
      SumSplit(m, k, c);
      SumLinear(m - {k}, a, b, c);
    }
  }

  lemma {:induction false} SumBelow<K, V>(m: map<K, V>, a: (K, V) -> real, b: (K, V) -> real)
    requires forall k :: k in m ==> a(k, m[k]) <= b(k, m[k])
    ensures Sum(m, a) <= Sum(m, b)
    decreases |m|
  {
    if m != map[] {
      var k :| k in m;
      SumSplit(m, k, a);
      SumSplit(m, k, b);
      SumBelow(m - {k}, a, b);
    }
  }

  lemma {:induction false} SumNonNegative<K, V>(m: map<K, V>, w: (K, V) -> real)
    requires forall k :: k in m ==> w(k, m[k]) >= 0.0
    ensures Sum(m, w) >= 0.0
    decreases |m|
  {
    if m != map[] {
      var k :| k in m;
      SumSplit(m, k, w);
      SumNonNegative(m - {k}, w);
    }
  }
}
