/** The running per-class statistics of BayesianBagAdaptive: class
    frequencies with a Laplace floor of one, kept beside a total count. */
module Frequencies {
  import opened Vectors

  /** The freshly allocated frequencies: one per class (Laplace smoothing). */
  function Ones(n: nat): (s: seq<real>)
    ensures |s| == n && forall i :: 0 <= i < n ==> s[i] == 1.0
  {
    if n == 0 then [] else Ones(n - 1) + [1.0]
  }

  /** Every class frequency respects the Laplace floor. */
  predicate AtLeastOne(s: seq<real>)
  {
    forall i :: 0 <= i < |s| ==> s[i] >= 1.0
  }

  /** Before anything is observed, the frequencies add up to the number of classes. */
  lemma {:induction false} SumOnes(n: nat)
    ensures Sum(Ones(n)) == n as real
  {
    if n > 0 {
      assert Ones(n)[..n - 1] == Ones(n - 1);
      SumOnes(n - 1);
    }
  }

  /** Observing one instance of class c adds exactly one to the total mass. */
  lemma {:induction false} SumIncrement(s: seq<real>, c: int)
    requires 0 <= c < |s|
    ensures Sum(s[c := s[c] + 1.0]) == Sum(s) + 1.0
  {
    var t := s[c := s[c] + 1.0];
    var n := |s|;
    if c < n - 1 {
      assert t[..n - 1] == s[..n - 1][c := s[c] + 1.0];
      SumIncrement(s[..n - 1], c);
    } else {
      assert t[..n - 1] == s[..n - 1];
    }
  }

  /** Under the floor, one class can hold no more than the excess of the total
      over the number of classes, plus its own floor of one. */
  lemma {:induction false} EntryBoundedBySum(s: seq<real>, c: int)
    requires AtLeastOne(s) && 0 <= c < |s|
    ensures s[c] <= Sum(s) - |s| as real + 1.0
  {
    var n := |s|;
    var prefix := s[..n - 1];
    assert AtLeastOne(prefix);
    if c < n - 1 {
      EntryBoundedBySum(prefix, c);
    } else if n > 1 {
      SumAtLeastLength(prefix);
    }
  }

  /** Under the floor, the frequencies add up to at least the number of classes. */
  lemma {:induction false} SumAtLeastLength(s: seq<real>)
    requires AtLeastOne(s)
    ensures Sum(s) >= |s| as real
  {
    if s != [] {
      assert AtLeastOne(s[..|s| - 1]);
      SumAtLeastLength(s[..|s| - 1]);
    }
  }

  /** The statistics invariant: every frequency is at least one, and the
      frequencies exceed their floors by exactly count - 1 in all. */
  predicate StatsInvariant(freqs: seq<real>, count: real)
  {
    AtLeastOne(freqs) && Sum(freqs) == count - 1.0 + |freqs| as real
  }

  /** Every observed class index lies in [0, n). */
  predicate ClassesIn(classes: seq<int>, n: nat)
  {
    forall i :: 0 <= i < |classes| ==> 0 <= classes[i] < n
  }

  /** How many times class c occurs among the observed classes. */
  function Occurrences(classes: seq<int>, c: int): nat
  {
    if classes == [] then 0
    else Occurrences(classes[..|classes| - 1], c) + (if classes[|classes| - 1] == c then 1 else 0)
  }

  /** The frequencies after observing the given classes, in order, starting
      from the Laplace floor: each observation adds one to its class. */
  function Tally(n: nat, classes: seq<int>): (s: seq<real>)
    requires ClassesIn(classes, n)
    ensures |s| == n
  {
    if classes == [] then Ones(n)
    else
      var s := Tally(n, classes[..|classes| - 1]);
      var c := classes[|classes| - 1];
      s[c := s[c] + 1.0]
  }

  /** Laplace-smoothed counts: each frequency is one plus the number of
      observations of that class. */
  lemma {:induction false} TallyCounts(n: nat, classes: seq<int>, c: int)
    requires ClassesIn(classes, n) && 0 <= c < n
    ensures Tally(n, classes)[c] == 1.0 + Occurrences(classes, c) as real
  {
    if classes != [] {
      TallyCounts(n, classes[..|classes| - 1], c);
    }
  }

  /** After any sequence of observations the frequencies and the count
      1 + (number of observations) satisfy the statistics invariant. */
  lemma {:induction false} TallyInvariant(n: nat, classes: seq<int>)
    requires ClassesIn(classes, n)
    ensures StatsInvariant(Tally(n, classes), 1.0 + |classes| as real)
  {
    if classes == [] {
      SumOnes(n);
    } else {
      var prefix := classes[..|classes| - 1];
      TallyInvariant(n, prefix);
      SumIncrement(Tally(n, prefix), classes[|classes| - 1]);
    }
  }

  /** Observing one more class c in [0, n) adds one to its tally and keeps
      the statistics invariant with the count grown by one. */
  lemma TallyStep(n: nat, classes: seq<int>, c: int)
    requires ClassesIn(classes, n) && 0 <= c < n
    ensures ClassesIn(classes + [c], n)
    ensures Tally(n, classes + [c]) == Tally(n, classes)[c := Tally(n, classes)[c] + 1.0]
    ensures StatsInvariant(Tally(n, classes + [c]), 1.0 + |classes + [c]| as real)
  {
    assert (classes + [c])[..|classes|] == classes;
    TallyInvariant(n, classes + [c]);
  }

  /** Under the invariant no class frequency exceeds the instance count, and
      the count is at least one. */
  lemma FrequencyAtMostCount(freqs: seq<real>, count: real, c: int)
    requires StatsInvariant(freqs, count) && 0 <= c < |freqs|
    ensures 1.0 <= freqs[c] <= count
  {
    EntryBoundedBySum(freqs, c);
  }
}
