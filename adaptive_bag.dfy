/** The adaptive Bayesian bagging ensemble (BayesianBagAdaptive): each arriving
    instance reaches every ensemble member with its own Gamma-distributed
    weight, whose parameters adapt to how often the instance's class has been
    seen; predictions add up the normalised votes of the members that vote. */
module AdaptiveBag {
  import opened Vectors
  import opened Votes
  import opened Frequencies
  import opened Gamma
  import opened Collaborators

  /** The tuning constant k of the adaptive sampler. */
  const K: real := 1.0

  /** A call that either returns a value or dereferences a null ensemble. */
  datatype Outcome<T> = Ok(value: T) | NullPointer

  /** A named figure reported about the model. */
  datatype Measurement = Measurement(name: string, value: real)

  /** The Gamma parameters used for an instance of class c, read from the
      frequencies and count as they stand. */
  function SamplerParams(freqs: seq<real>, count: real, c: int): (r: GammaParams)
    requires 0 <= c < |freqs| && freqs[c] > 0.0 && count > 0.0
    ensures r.shape * count == K * freqs[c]
    ensures r.scale * (K * freqs[c]) == count
  {
    AdaptiveParams(K, freqs[c], count)
  }

  /** Under the statistics invariant the sampler's parameters are well formed:
      shape in (0, 1], scale at least one, unit mean, and variance
      count / (k * freq[c]); so the GammaDistribution constructor never throws. */
  lemma SamplerParamsMoments(freqs: seq<real>, count: real, c: int)
    requires StatsInvariant(freqs, count) && 0 <= c < |freqs|
    ensures 1.0 <= freqs[c] <= count
    ensures 0.0 < SamplerParams(freqs, count, c).shape <= 1.0
    ensures SamplerParams(freqs, count, c).scale >= 1.0
    ensures Mean(SamplerParams(freqs, count, c)) == 1.0
    ensures Variance(SamplerParams(freqs, count, c)) == count / (K * freqs[c])
    ensures NewGammaDistribution(SamplerParams(freqs, count, c).shape, SamplerParams(freqs, count, c).scale).Built?
  {
    FrequencyAtMostCount(freqs, count, c);
    AdaptiveParamsMoments(K, freqs[c], count);
    AdaptiveParamsRange(K, freqs[c], count);
  }

  /** The lazily allocated frequency array: one entry per class, each at the
      Laplace floor of one. */
  method NewLaplaceFreqs(numClasses: nat) returns (freqs: array<real>)
    ensures fresh(freqs) && freqs[..] == Ones(numClasses)
  {
    freqs := new real[numClasses];
    for x := 0 to freqs.Length
      invariant forall j :: 0 <= j < x ==> freqs[j] == 1.0
    {
      freqs[x] := 1.0;
    }
  }

  class BayesianBagAdaptive {
    /** ensembleSizeOption: the number of models in the bag. */
    const ensembleSize: nat
    /** The prepared baseLearnerOption: the learner every slot is copied from. */
    const baseLearner: Learner

    /** The members; null until the first reset. */
    var ensemble: array?<Learner>
    /** Per-class frequencies; null until the first training call after a reset. */
    var classFreqs: array?<real>
    /** Total instance count, starting from a Laplace floor of one. */
    var instCounts: real
    /** How many values have been taken from the classifier's random stream. */
    var randomCalls: nat

    /** The class indices observed since the last reset, in order. */
    ghost var history: seq<int>

    ghost predicate Valid()
      reads this, classFreqs
    {
      && ensemble != null
      && ensemble.Length == ensembleSize
      && StatsValid()
    }

    /** The statistics are the Laplace-smoothed tally of the history: no
        frequencies and a count of one before the first observation. */
    ghost predicate StatsValid()
      reads this, classFreqs
    {
      if classFreqs == null then history == [] && instCounts == 1.0
      else
        && ClassesIn(history, classFreqs.Length)
        && classFreqs[..] == Tally(classFreqs.Length, history)
        && instCounts == 1.0 + |history| as real
        && StatsInvariant(classFreqs[..], instCounts)
    }

    /** The frequencies a training call on an instance with numClasses classes
        works with: the existing ones, or the Laplace floor when none exist yet. */
    ghost function PriorFreqs(numClasses: nat): seq<real>
      reads this, classFreqs
    {
      if classFreqs == null then Ones(numClasses) else classFreqs[..]
    }

    /** Under the invariant the prior frequencies and the count are the
        Laplace-smoothed tallies of the history. */
    lemma PriorIsTally(numClasses: nat)
      requires Valid()
      requires classFreqs != null ==> classFreqs.Length == numClasses
      ensures ClassesIn(history, numClasses)
      ensures PriorFreqs(numClasses) == Tally(numClasses, history)
      ensures StatsInvariant(PriorFreqs(numClasses), instCounts)
    {
      TallyInvariant(numClasses, history);
    }

    constructor (ensembleSize: nat, baseLearner: Learner)
      ensures this.ensembleSize == ensembleSize && this.baseLearner == baseLearner
      ensures ensemble == null && classFreqs == null
      ensures instCounts == 0.0 && randomCalls == 0 && history == []
    {
      this.ensembleSize := ensembleSize;
      this.baseLearner := baseLearner;
      ensemble := null;
      classFreqs := null;
      instCounts := 0.0;
      randomCalls := 0;
      history := [];
    }

    /** getClassFreqs: the frequency array itself, which respects the floor. */
    function GetClassFreqs(): (r: array?<real>)
      reads this, classFreqs
      ensures r == classFreqs
      ensures Valid() && r != null ==> forall c :: 0 <= c < r.Length ==> r[c] >= 1.0
    {
      classFreqs
    }

    /** getInstCounts: one more than the number of instances trained on since
        the last reset, so never negative once reset. */
    function GetInstCounts(): (r: real)
      reads this, classFreqs
      ensures Valid() ==> r == 1.0 + |history| as real && r >= 1.0
    {
      instCounts
    }

    /** resetLearningImpl: a fresh ensemble of ensembleSize copies of the reset
        base learner, no frequencies yet and a count of one. */
    method ResetLearningImpl()
      modifies this
      ensures Valid() && fresh(ensemble)
      ensures forall i :: 0 <= i < ensemble.Length ==> ensemble[i] == ResetLearning(baseLearner)
      ensures classFreqs == null && instCounts == 1.0 && history == []
      ensures randomCalls == old(randomCalls)
    {
      var members := new Learner[ensembleSize];
      var template := ResetLearning(baseLearner);
      for i := 0 to members.Length
        invariant forall j :: 0 <= j < i ==> members[j] == template
        modifies members
      {
        members[i] := template;
      }
      ensemble := members;
      classFreqs := null;
      instCounts := 1.0;
      history := [];
    }

    /** trainOnInstanceImpl: every member, in slot order, is trained on a copy
        of the instance weighted by a Gamma draw whose parameters come from the
        statistics as they stood before the call; then the count and the
        instance's class frequency grow by one. */
    method TrainOnInstanceImpl(inst: Instance)
      requires Valid()
      requires 0 <= ClassIndex(inst.classValue) < |PriorFreqs(inst.numClasses)|
      modifies this, ensemble, classFreqs
      ensures Valid()
      ensures ensemble == old(ensemble) && classFreqs != null
      ensures old(classFreqs) == null ==> fresh(classFreqs) && classFreqs.Length == inst.numClasses
      ensures old(classFreqs) != null ==> classFreqs == old(classFreqs)
      ensures history == old(history) + [ClassIndex(inst.classValue)]
      ensures instCounts == old(instCounts) + 1.0
      ensures var prior, c := old(PriorFreqs(inst.numClasses)), ClassIndex(inst.classValue);
        && classFreqs[..] == prior[c := prior[c] + 1.0]
        && classFreqs[c] == prior[c] + 1.0
        && forall j :: 0 <= j < |prior| && j != c ==> classFreqs[j] == prior[j]
      ensures randomCalls == old(randomCalls) + ensemble.Length
      ensures forall i :: 0 <= i < ensemble.Length ==>
        ensemble[i] == TrainOn(old(ensemble[i]), WithWeight(inst, GammaDraw(
          SamplerParams(old(PriorFreqs(inst.numClasses)), old(instCounts), ClassIndex(inst.classValue)),
          old(randomCalls) + i)))
    {
      ghost var prior := PriorFreqs(inst.numClasses);
      PriorIsTally(if classFreqs == null then inst.numClasses else classFreqs.Length);
      if classFreqs == null {
        classFreqs := NewLaplaceFreqs(inst.numClasses);
      }
      assert classFreqs[..] == prior;
      var classValue := ClassIndex(inst.classValue);
      FrequencyAtMostCount(prior, instCounts, classValue);

      if instCounts < 0.0 {
        // The count starts at one and only grows: this branch is dead.
        assert false;
      } else {
        TrainMembers(inst, classFreqs[classValue], instCounts);
      }
      RecordObservation(classValue);
    }

    /** The statistics update that closes trainOnInstanceImpl: the count and
        the observed class's frequency grow by one, nothing else changes. */
    method RecordObservation(c: int)
      requires StatsValid() && classFreqs != null && 0 <= c < classFreqs.Length
      modifies this`instCounts, this`history, classFreqs
      ensures StatsValid()
      ensures instCounts == old(instCounts) + 1.0 && history == old(history) + [c]
      ensures classFreqs[..] == old(classFreqs[..])[c := old(classFreqs[c]) + 1.0]
    {
      TallyStep(classFreqs.Length, history, c);
      instCounts := instCounts + 1.0;
      classFreqs[c] := classFreqs[c] + 1.0;
      history := history + [c];
    }

    /** The per-model loop of trainOnInstanceImpl: slot i, in order, is trained
        on the instance weighted by a draw from the adaptive parameters for
        the given frequency and count, reseeded by the next random value. */
    method TrainMembers(inst: Instance, freq: real, count: real)
      requires ensemble != null && freq >= 1.0 && count >= 1.0
      modifies this`randomCalls, ensemble
      ensures randomCalls == old(randomCalls) + ensemble.Length
      ensures forall i :: 0 <= i < ensemble.Length ==>
        ensemble[i] == TrainOn(old(ensemble[i]), WithWeight(inst, GammaDraw(AdaptiveParams(K, freq, count), old(randomCalls) + i)))
    {
      var k := K;
      var members := ensemble;
      for i := 0 to members.Length
        invariant randomCalls == old(randomCalls) + i
        invariant forall j :: 0 <= j < i ==>
          members[j] == TrainOn(old(members[j]), WithWeight(inst, GammaDraw(AdaptiveParams(K, freq, count), old(randomCalls) + j)))
        invariant forall j :: i <= j < members.Length ==> members[j] == old(members[j])
      {
        var g := AdaptiveParams(k, freq, count);
        var weight := GammaDraw(g, randomCalls); // reseeded from classifierRandom.nextLong()
        randomCalls := randomCalls + 1;
        members[i] := TrainOn(members[i], WithWeight(inst, weight));
      }
    }

    /** getVotesForInstance, given each member's votes for the instance: the sum
        of the normalised votes of the members that do not abstain, whose total
        mass is the number of such members. */
    method GetVotesForInstance(votes: seq<seq<real>>) returns (r: Outcome<seq<real>>)
      requires ensemble != null ==> |votes| == ensemble.Length && SameLength(votes)
      ensures ensemble == null ==> r == NullPointer
      ensures ensemble != null ==> r == Ok(CombinedVote(votes))
      ensures r.Ok? ==> Sum(r.value) == Contributors(votes) as real
    {
      if ensemble == null {
        return NullPointer;
      }
      var combinedVote: seq<real> := [];
      for i := 0 to ensemble.Length
        invariant SameLength(votes[..i])
        invariant combinedVote == CombinedVote(votes[..i])
      {
        var vote := votes[i];
        CombinedVoteStep(votes, i);
        if Sum(vote) > 0.0 {
          combinedVote := AddValues(combinedVote, Normalize(vote));
        }
      }
      assert votes[..ensemble.Length] == votes;
      CombinedVoteMass(votes);
      r := Ok(combinedVote);
    }

    /** getModelMeasurementsImpl: the ensemble size, or zero before any reset. */
    method GetModelMeasurementsImpl() returns (m: seq<Measurement>)
      ensures |m| == 1 && m[0].name == "ensemble size"
      ensures ensemble == null ==> m[0].value == 0.0
      ensures Valid() ==> m[0].value == ensembleSize as real
    {
      m := [Measurement("ensemble size", if ensemble != null then ensemble.Length as real else 0.0)];
    }

    /** getSubClassifiers: a fresh array holding the members, in slot order. */
    method GetSubClassifiers() returns (r: Outcome<array<Learner>>)
      ensures ensemble == null ==> r == NullPointer
      ensures ensemble != null ==> r.Ok? && fresh(r.value) && r.value[..] == ensemble[..]
    {
      if ensemble == null {
        return NullPointer;
      }
      var members := ensemble;
      var snapshot := new Learner[members.Length](i requires 0 <= i < members.Length reads members => members[i]);
      r := Ok(snapshot);
    }
  }
}
