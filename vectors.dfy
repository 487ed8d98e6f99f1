/** Arithmetic on the per-class score vectors that the ensemble manipulates
    (moa.core.DoubleVector), with doubles taken as exact reals. */
module Vectors {

  /** Sum of all entries (DoubleVector.sumOfValues). A vector with no
      negative entry has a mass of at least zero. */
  function Sum(v: seq<real>): (r: real)
    ensures (forall i :: 0 <= i < |v| ==> v[i] >= 0.0) ==> r >= 0.0
  {
    if v == [] then 0.0 else Sum(v[..|v| - 1]) + v[|v| - 1]
  }

  /** A vector of n zeros: the padding a DoubleVector grows by. */
  function Zeros(n: nat): (z: seq<real>)
    ensures |z| == n && forall i :: 0 <= i < n ==> z[i] == 0.0
  {
    if n == 0 then [] else Zeros(n - 1) + [0.0]
  }

  /** Every entry of v divided by s. */
  function Scale(v: seq<real>, s: real): (r: seq<real>)
    requires s != 0.0
    ensures |r| == |v| && forall i :: 0 <= i < |v| ==> r[i] == v[i] / s
  {
    if v == [] then [] else Scale(v[..|v| - 1], s) + [v[|v| - 1] / s]
  }

  /** Entrywise sum of two vectors of equal length. */
  function Add(a: seq<real>, b: seq<real>): (r: seq<real>)
    requires |a| == |b|
    ensures |r| == |a| && forall i :: 0 <= i < |a| ==> r[i] == a[i] + b[i]
  {
    if a == [] then [] else Add(a[..|a| - 1], b[..|b| - 1]) + [a[|a| - 1] + b[|b| - 1]]
  }

  /** DoubleVector.normalize: divide every entry by the sum of the entries. */
  function Normalize(v: seq<real>): (r: seq<real>)
    requires Sum(v) != 0.0
    ensures |r| == |v| && forall i :: 0 <= i < |v| ==> r[i] == v[i] / Sum(v)
  {
    Scale(v, Sum(v))
  }

  /** DoubleVector.addValues: the accumulator first grows (padding with zeros)
      to the length of the vector added, then the two are added entrywise. */
  function AddValues(acc: seq<real>, v: seq<real>): (r: seq<real>)
    requires |acc| <= |v|
    ensures |r| == |v|
    ensures forall i :: 0 <= i < |v| ==> r[i] == (if i < |acc| then acc[i] else 0.0) + v[i]
  {
    Add(acc + Zeros(|v| - |acc|), v)
  }

  lemma {:induction false} SumConcat(a: seq<real>, b: seq<real>)
    ensures Sum(a + b) == Sum(a) + Sum(b)
  {
    if b != [] {
      assert (a + b)[..|a + b| - 1] == a + b[..|b| - 1];
      SumConcat(a, b[..|b| - 1]);
    } else {
      assert a + b == a;
    }
  }

  lemma {:induction false} SumZeros(n: nat)
    ensures Sum(Zeros(n)) == 0.0
  {
    if n > 0 {
      assert Zeros(n)[..n - 1] == Zeros(n - 1);
      SumZeros(n - 1);
    }
  }

  lemma {:induction false} SumScale(v: seq<real>, s: real)
    requires s != 0.0
    ensures Sum(Scale(v, s)) == Sum(v) / s
  {
    if v != [] {
      var w := v[..|v| - 1];
      assert Scale(v, s)[..|v| - 1] == Scale(w, s);
      SumScale(w, s);
      DivideSum(Sum(w), v[|v| - 1], s);
    }
  }

  lemma DivideSum(a: real, b: real, s: real)
    requires s != 0.0
    ensures (a + b) / s == a / s + b / s
  {
    assert (a + b) / s * s == a + b;
    assert (a / s + b / s) * s == a / s * s + b / s * s;
  }

  lemma {:induction false} SumAdd(a: seq<real>, b: seq<real>)
    requires |a| == |b|
    ensures Sum(Add(a, b)) == Sum(a) + Sum(b)
  {
    if a != [] {
      assert Add(a, b)[..|a| - 1] == Add(a[..|a| - 1], b[..|b| - 1]);
      SumAdd(a[..|a| - 1], b[..|b| - 1]);
    }
  }

  /** A normalised vector is a distribution: its entries add up to one. */
  lemma NormalizeSumsToOne(v: seq<real>)
    requires Sum(v) > 0.0
    ensures |Normalize(v)| == |v| && Sum(Normalize(v)) == 1.0
  {
    SumScale(v, Sum(v));
    SelfQuotient(Sum(v));
  }

  lemma SelfQuotient(m: real)
    requires m != 0.0
    ensures m / m == 1.0
  {
  }

  /** addValues adds the mass of the added vector to the accumulator's. */
  lemma AddValuesSum(acc: seq<real>, v: seq<real>)
    requires |acc| <= |v|
    ensures |AddValues(acc, v)| == |v|
    ensures Sum(AddValues(acc, v)) == Sum(acc) + Sum(v)
  {
    SumAdd(acc + Zeros(|v| - |acc|), v);
    SumConcat(acc, Zeros(|v| - |acc|));
    SumZeros(|v| - |acc|);
  }
}
