/** How the ensemble combines the vote vectors of its members
    (BayesianBagAdaptive.getVotesForInstance): every member whose votes add up
    to a positive mass is normalised and added in; the others abstain. */
module Votes {
  import opened Vectors

  /** All vote vectors have the same length (the number of classes). */
  predicate SameLength(votes: seq<seq<real>>)
  {
    forall i, j :: 0 <= i < |votes| && 0 <= j < |votes| ==> |votes[i]| == |votes[j]|
  }

  /** A member takes part in the vote when its scores sum to more than zero. */
  predicate Contributes(v: seq<real>)
  {
    Sum(v) > 0.0
  }

  /** The number of members that take part in the vote. */
  function Contributors(votes: seq<seq<real>>): nat
  {
    if votes == [] then 0
    else Contributors(votes[..|votes| - 1]) + (if Contributes(votes[|votes| - 1]) then 1 else 0)
  }

  /** The combined vote, accumulated from the first member to the last. It is
      empty when nobody votes (an empty DoubleVector) and has one entry per
      class otherwise. */
  function CombinedVote(votes: seq<seq<real>>): (r: seq<real>)
    requires SameLength(votes)
    ensures |r| == if Contributors(votes) == 0 then 0 else |votes[0]|
  {
    if votes == [] then []
    else
      var acc := CombinedVote(votes[..|votes| - 1]);
      var v := votes[|votes| - 1];
      if Contributes(v) then AddValues(acc, Normalize(v)) else acc
  }

  /** The combined vote of a longer ensemble, one member at a time. */
  lemma CombinedVoteSnoc(votes: seq<seq<real>>, w: seq<real>)
    requires SameLength(votes + [w])
    ensures SameLength(votes)
    ensures |CombinedVote(votes)| <= |w|
    ensures CombinedVote(votes + [w]) ==
      if Contributes(w) then AddValues(CombinedVote(votes), Normalize(w))
      else CombinedVote(votes)
  {
    assert (votes + [w])[..|votes|] == votes;
    assert forall j :: 0 <= j < |votes| ==> (votes + [w])[j] == votes[j];
  }

  /** One more member's vote, as the accumulation loop takes it in. */
  lemma CombinedVoteStep(votes: seq<seq<real>>, i: int)
    requires SameLength(votes) && 0 <= i < |votes|
    ensures SameLength(votes[..i]) && SameLength(votes[..i + 1])
    ensures |CombinedVote(votes[..i])| <= |votes[i]|
    ensures CombinedVote(votes[..i + 1]) ==
      if Contributes(votes[i]) then AddValues(CombinedVote(votes[..i]), Normalize(votes[i]))
      else CombinedVote(votes[..i])
  {
    assert votes[..i + 1] == votes[..i] + [votes[i]];
    assert forall j :: 0 <= j < i + 1 ==> votes[..i + 1][j] == votes[j];
    CombinedVoteSnoc(votes[..i], votes[i]);
  }

  /** Each voting member adds a total mass of exactly one: the combined vote
      adds up to the number of members that did not abstain. */
  lemma {:induction false} CombinedVoteMass(votes: seq<seq<real>>)
    requires SameLength(votes)
    ensures Sum(CombinedVote(votes)) == Contributors(votes) as real
  {
    if votes != [] {
      var prefix := votes[..|votes| - 1];
      var v := votes[|votes| - 1];
      CombinedVoteMass(prefix);
      if Contributes(v) {
        NormalizeSumsToOne(v);
        AddValuesSum(CombinedVote(prefix), Normalize(v));
      }
    }
  }

  /** A member whose votes sum to zero or less changes nothing, wherever it
      stands in the ensemble: it is never counted as a uniform vote. */
  lemma {:induction false} AbstentionIgnored(before: seq<seq<real>>, v: seq<real>, after: seq<seq<real>>)
    requires SameLength(before + [v] + after)
    requires !Contributes(v)
    ensures SameLength(before + after)
    ensures CombinedVote(before + [v] + after) == CombinedVote(before + after)
  {
    SameLengthWithout(before, v, after);
    if after == [] {
      assert before + [v] + after == before + [v];
      assert before + after == before;
      CombinedVoteSnoc(before, v);
    } else {
      var rest, w := after[..|after| - 1], after[|after| - 1];
      assert after == rest + [w];
      assert before + [v] + after == (before + [v] + rest) + [w];
      assert before + after == (before + rest) + [w];
      CombinedVoteSnoc(before + [v] + rest, w);
      CombinedVoteSnoc(before + rest, w);
      AbstentionIgnored(before, v, rest);
    }
  }

  /** Removing one member keeps all vote vectors the same length. */
  lemma SameLengthWithout(before: seq<seq<real>>, v: seq<real>, after: seq<seq<real>>)
    requires SameLength(before + [v] + after)
    ensures SameLength(before + after)
  {
    var all := before + [v] + after;
    forall i, j | 0 <= i < |before + after| && 0 <= j < |before + after|
      ensures |(before + after)[i]| == |(before + after)[j]|
    {
      assert (before + after)[i] == all[if i < |before| then i else i + 1];
      assert (before + after)[j] == all[if j < |before| then j else j + 1];
    }
  }

  /** Dropping an abstaining member leaves the number of contributors alone. */
  lemma {:induction false} ContributorsAbstention(before: seq<seq<real>>, v: seq<real>, after: seq<seq<real>>)
    requires !Contributes(v)
    ensures Contributors(before + [v] + after) == Contributors(before + after)
  {
    var all := before + [v] + after;
    if after == [] {
      assert all[..|all| - 1] == before;
      assert before + after == before;
    } else {
      var rest := after[..|after| - 1];
      assert all[..|all| - 1] == before + [v] + rest;
      assert (before + after)[..|before + after| - 1] == before + rest;
      ContributorsAbstention(before, v, rest);
    }
  }

  /** Votes [2, 2], [0, 0] and [1, 3]: the second member abstains and the
      combined vote is [0.5, 0.5] + [0.25, 0.75]. */
  lemma CombinedVoteExample()
    ensures CombinedVote([[2.0, 2.0], [0.0, 0.0], [1.0, 3.0]]) == [0.75, 1.25]
  {
    var votes: seq<seq<real>> := [[2.0, 2.0], [0.0, 0.0], [1.0, 3.0]];
    SumPair(2.0, 2.0);
    SumPair(0.0, 0.0);
    SumPair(1.0, 3.0);
    var half, skewed := Normalize([2.0, 2.0]), Normalize([1.0, 3.0]);
    assert half == [0.5, 0.5];
    assert skewed == [0.25, 0.75];
    assert votes[..1] == [[2.0, 2.0]];
    assert votes[..2] == [[2.0, 2.0], [0.0, 0.0]];
    assert votes[..2][..1] == [[2.0, 2.0]];
    var first := CombinedVote(votes[..1]);
    assert first == AddValues([], half);
    assert CombinedVote(votes[..2]) == first;
    assert CombinedVote(votes) == AddValues(first, skewed);
  }

  /** The mass of a two-class vote. */
  lemma SumPair(a: real, b: real)
    ensures Sum([a, b]) == a + b
  {
    assert [a][..0] == [];
    assert Sum([a]) == a;
    assert [a, b][..1] == [a];
  }
}
