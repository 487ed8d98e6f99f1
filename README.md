# Adaptive Bayesian bagging, modelled in Dafny

This project models the core of MOA's adaptive Bayesian bagging classifier
(`moa.classifiers.meta.BayesianBagAdaptive` and its fixed-sampler variant
`BayesianBagAdaptiveK`). The classifier does online bagging for streaming
classification. Each arriving labelled instance reaches every ensemble member
with its own weight, drawn from a Gamma distribution. With the adaptive
sampler, the parameters of that distribution depend on how often the
instance's class has been seen. With the fixed sampler, they are Gamma(number
of classes, 1). To predict, the classifier adds up the normalised votes of
every member that does not abstain.

Modules, one file each:

- `Vectors` (`vectors.dfy`): the `DoubleVector` arithmetic the ensemble
  uses, with doubles taken as exact reals. It covers sum, normalise and the
  zero-padding `addValues`.
- `Votes` (`votes.dfy`): the vote-combination fold of `getVotesForInstance`
  as a function, with its properties.
- `Frequencies` (`frequencies.dfy`): the running class statistics. These are
  the Laplace floor, the Laplace-smoothed tally of a history of observed
  classes, and the statistics invariant.
- `Gamma` (`gamma.dfy`): Gamma parameters, what the `GammaDistribution`
  constructor accepts, the frequency-adaptive parameter formula, and its
  moments.
- `Collaborators` (`collaborators.dfy`): what the ensemble sees of weka
  instances and base learners. A base learner is a value that records the
  weighted instances it was trained on. A sampled weight is the symbolic
  value `GammaDraw(params, slot)`, where `slot` is the position in the
  classifier's random stream of the value that reseeded the generator.
- `AdaptiveBag` (`adaptive_bag.dfy`): the class `BayesianBagAdaptive`. It has
  the fields `ensemble`, `classFreqs`, `instCounts` and a counter of random
  values taken. The ghost history of observed classes gives the frequencies
  their meaning.
- `AdaptiveBagK` (`adaptive_bag_k.dfy`): the class `BayesianBagAdaptiveK`,
  which has a cached distribution. Building it for an instance with no
  classes throws, and the cache stays empty.

Two consequences of the code are worth stating outright:

- An adaptive weight has mean shape·scale = 1 and variance shape·scale² =
  count / (k·freq[c]), the figure the code prints as `Var[W]`
  (`Gamma.AdaptiveParamsMoments`).
- Normalising divides a vote by its sum, so votes [2,2], [0,0] and [1,3]
  combine to [0.5,0.5] + [0.25,0.75] = [0.75, 1.25]
  (`Votes.CombinedVoteExample`). The combined vote always adds up to the
  number of voting members (`Votes.CombinedVoteMass`), which is 2 here.

## Model

| member | source | states |
|---|---|---|
| `AdaptiveBag.BayesianBagAdaptive.constructor` | src/main/java/moa/classifiers/meta/BayesianBagAdaptive.java:32-37 | before any reset there is no ensemble, no frequency array, and the instance count is 0 |
| `AdaptiveBag.BayesianBagAdaptive.ResetLearningImpl` | src/main/java/moa/classifiers/meta/BayesianBagAdaptive.java:54-64 | afterwards there is a fresh ensemble of exactly `ensembleSize` slots, each a copy of the reset base learner; the frequency array is null; the count is 1; the invariant holds |
| `AdaptiveBag.BayesianBagAdaptive.TrainOnInstanceImpl` | src/main/java/moa/classifiers/meta/BayesianBagAdaptive.java:67-136 | allocates the frequencies (all 1, length `numClasses`) only when absent; slot i, in order 0..S−1, receives exactly one copy of the instance, weighted by a draw from the (pre-update) adaptive parameters reseeded by random value number old+i; then the count grows by exactly 1, the observed class's frequency by exactly 1, and no other frequency changes; the invariant is preserved, and the `m_instCounts < 0` branch is proved dead |
| `AdaptiveBag.NewLaplaceFreqs` | src/main/java/moa/classifiers/meta/BayesianBagAdaptive.java:69-72 | a fresh array with one entry per class, every entry 1 |
| `AdaptiveBag.BayesianBagAdaptive.TrainMembers` | src/main/java/moa/classifiers/meta/BayesianBagAdaptive.java:102-131 | slot i, for every i in order, gets exactly one more training instance: the instance weighted by a draw from the adaptive parameters, reseeded by the (old + i)-th random value; exactly S random values are taken |
| `AdaptiveBag.BayesianBagAdaptive.RecordObservation` | src/main/java/moa/classifiers/meta/BayesianBagAdaptive.java:134-135 | the count and the observed class's frequency grow by exactly one, the other frequencies are unchanged, and the frequencies stay the Laplace-smoothed tally of the extended history |
| `AdaptiveBag.BayesianBagAdaptive.GetVotesForInstance` | src/main/java/moa/classifiers/meta/BayesianBagAdaptive.java:139-149 | the loop's result equals `CombinedVote` of the members' votes, and its total mass is the number of non-abstaining members; before any reset the call fails on the null ensemble |
| `AdaptiveBag.BayesianBagAdaptive.GetModelMeasurementsImpl` | src/main/java/moa/classifiers/meta/BayesianBagAdaptive.java:162-165 | one measurement, "ensemble size": 0 before any reset, `ensembleSize` once reset |
| `AdaptiveBag.BayesianBagAdaptive.GetSubClassifiers` | src/main/java/moa/classifiers/meta/BayesianBagAdaptive.java:168-170 | a fresh array with the members in slot order; before any reset the call fails on the null ensemble |
| `AdaptiveBag.BayesianBagAdaptive.GetClassFreqs` | src/main/java/moa/classifiers/meta/BayesianBagAdaptive.java:45-47 | returns the frequency array itself (an alias), every entry of which is at least 1 under the invariant |
| `AdaptiveBag.BayesianBagAdaptive.GetInstCounts` | src/main/java/moa/classifiers/meta/BayesianBagAdaptive.java:49-51 | under the invariant the count is 1 + the number of instances trained on since the reset, hence never negative |
| `AdaptiveBag.BayesianBagAdaptive.PriorIsTally` | src/main/java/moa/classifiers/meta/BayesianBagAdaptive.java:68-73 | the statistics a training call reads (the existing frequencies, or the floor of ones when none are allocated yet) are the Laplace-smoothed tally of the history and satisfy the statistics invariant |
| `AdaptiveBag.SamplerParamsMoments` | src/main/java/moa/classifiers/meta/BayesianBagAdaptive.java:105-106 | under the invariant, 1 ≤ freq[c] ≤ count; shape is in (0, 1]; scale ≥ 1; shape·scale = 1; shape·scale² = count/(k·freq[c]) |
| `Gamma.AdaptiveParamsMoments` | src/main/java/moa/classifiers/meta/BayesianBagAdaptive.java:105-106 | for any positive k, freq and count, both parameters are positive, the mean shape·scale is 1 and the variance shape·scale² is count/(k·freq), the figures printed as E[W] and Var[W] |
| `Gamma.VarianceDecreasesWithFrequency` | src/main/java/moa/classifiers/meta/BayesianBagAdaptive.java:105-106 | at a fixed count, a rarer class gets a strictly larger weight variance |
| `Gamma.AdaptiveParamsRange` | src/main/java/moa/classifiers/meta/BayesianBagAdaptive.java:105-106 | when k·freq ≤ count, shape ≤ 1 and scale ≥ 1 |
| `Frequencies.TallyCounts` | src/main/java/moa/classifiers/meta/BayesianBagAdaptive.java:134-135 | after any sequence of observations, each frequency is 1 + the number of observations of that class |
| `Frequencies.TallyInvariant` | src/main/java/moa/classifiers/meta/BayesianBagAdaptive.java:134-135 | after any sequence of n observations, every frequency is ≥ 1 and the frequencies sum to (1 + n) − 1 + numClasses, with 1 + n the count |
| `Frequencies.FrequencyAtMostCount` | src/main/java/moa/classifiers/meta/BayesianBagAdaptive.java:77 | under the statistics invariant, 1 ≤ freq[c] ≤ count, so the count is positive |
| `Frequencies.SumIncrement` | src/main/java/moa/classifiers/meta/BayesianBagAdaptive.java:135 | adding one to one class frequency adds exactly one to the total |
| `Frequencies.SumOnes` | src/main/java/moa/classifiers/meta/BayesianBagAdaptive.java:69-72 | the freshly allocated frequencies sum to the number of classes |
| `Frequencies.EntryBoundedBySum` | src/main/java/moa/classifiers/meta/BayesianBagAdaptive.java:71 | with the floor, one frequency is at most its floor plus the total excess over the floors |
| `Vectors.NormalizeSumsToOne` | src/main/java/moa/classifiers/meta/BayesianBagAdaptive.java:143-144 | a vote vector with positive sum normalises to one of the same length summing to 1 |
| `Vectors.AddValuesSum` | src/main/java/moa/classifiers/meta/BayesianBagAdaptive.java:145 | adding a vote into the accumulator gives it the vote's length and adds the vote's mass |
| `Vectors.Scale` | src/main/java/moa/classifiers/meta/BayesianBagAdaptive.java:144 | every entry is the corresponding input entry divided by the factor |
| `Vectors.Add` | src/main/java/moa/classifiers/meta/BayesianBagAdaptive.java:145 | every entry is the sum of the corresponding entries |
| `Votes.CombinedVote` | src/main/java/moa/classifiers/meta/BayesianBagAdaptive.java:140-148 | the combined vote is empty when no member votes (an empty vector) and has one entry per class otherwise |
| `Votes.CombinedVoteMass` | src/main/java/moa/classifiers/meta/BayesianBagAdaptive.java:143-146 | the combined vote sums to the number of members whose vote sum is > 0 |
| `Votes.AbstentionIgnored` | src/main/java/moa/classifiers/meta/BayesianBagAdaptive.java:143 | a member whose votes sum to ≤ 0 contributes nothing, wherever it stands in the ensemble |
| `Votes.ContributorsAbstention` | src/main/java/moa/classifiers/meta/BayesianBagAdaptive.java:143 | removing an abstaining member leaves the number of voting members unchanged |
| `Votes.CombinedVoteExample` | src/main/java/moa/classifiers/meta/BayesianBagAdaptive.java:139-149 | votes [2,2], [0,0], [1,3] combine to [0.75, 1.25] |
| `AdaptiveBagK.BayesianBagAdaptiveK.GetDistribution` | src/main/java/moa/classifiers/meta/BayesianBagAdaptiveK.java:14-20 | the first call whose instance has at least one class caches and returns Gamma(numClasses, 1); a first call on an instance with no classes fails as the constructor throws and leaves the cache empty; once set, every call returns the cached value unchanged whatever the instance |
| `AdaptiveBagK.CachedIsReturned` | src/main/java/moa/classifiers/meta/BayesianBagAdaptiveK.java:15-19 | once the cache is set, every call on any stream of instances returns it |
| `AdaptiveBagK.FirstInstanceFixesDistribution` | src/main/java/moa/classifiers/meta/BayesianBagAdaptiveK.java:15-19 | from an empty cache, every call fails until the first instance with at least one class, and from then on returns Gamma(n, 1), with n the class count of that instance |
| `AdaptiveBagK.SampleStream` | src/main/java/moa/classifiers/meta/BayesianBagAdaptiveK.java:11-19 | a new sampler driven through its method over a stream yields exactly the specified sequence of outcomes; when the first instance has classes, each is Gamma(n, 1) of that instance |
| `Collaborators.ClassIndex` | src/main/java/moa/classifiers/meta/BayesianBagAdaptive.java:75 | the `(int)` cast truncates toward zero: the result is within one of the class value, on the side of zero |
| `Gamma.NewGammaDistribution` | src/main/java/moa/classifiers/meta/BayesianBagAdaptiveK.java:17 | the GammaDistribution constructor succeeds exactly when shape and scale are both strictly positive, and then keeps them; otherwise it throws NotStrictlyPositiveException |
| `Gamma.AdaptiveParams` | src/main/java/moa/classifiers/meta/BayesianBagAdaptive.java:105-106 | shape·count = k·freq and scale·(k·freq) = count: the shape is k times the class's share of the instances and the scale its reciprocal |
| `AdaptiveBag.SamplerParams` | src/main/java/moa/classifiers/meta/BayesianBagAdaptive.java:99-106 | with k = 1, the shape times the count is the class's frequency and the scale times the frequency is the count |
| `AdaptiveBagK.FixedParams` | src/main/java/moa/classifiers/meta/BayesianBagAdaptiveK.java:16-17 | the construction succeeds exactly when the instance has at least one class, and then the weights have mean and variance both equal to the number of classes |
| `AdaptiveBagK.NextDistribution` | src/main/java/moa/classifiers/meta/BayesianBagAdaptiveK.java:15-19 | a set cache is returned and kept; an empty cache is filled with the distribution built, or stays empty when building throws; a call succeeds exactly when the cache is set or the instance has classes |
| `AdaptiveBagK.Distributions` | src/main/java/moa/classifiers/meta/BayesianBagAdaptiveK.java:15-19 | a stream of calls yields one outcome per instance |
| `AdaptiveBagK.BayesianBagAdaptiveK.constructor` | src/main/java/moa/classifiers/meta/BayesianBagAdaptiveK.java:11 | a new sampler has no cached distribution |
| `Vectors.Sum` | src/main/java/moa/classifiers/meta/BayesianBagAdaptive.java:143 | a vote with no negative score has a mass of at least zero |
| `Vectors.Normalize` | src/main/java/moa/classifiers/meta/BayesianBagAdaptive.java:144 | the result has the vote's length and each entry is the vote's entry divided by the vote's sum |
| `Vectors.AddValues` | src/main/java/moa/classifiers/meta/BayesianBagAdaptive.java:145 | the result has the vote's length; each entry is the vote's entry plus the accumulator's entry, or plus zero past the accumulator's end |
| `Collaborators.WithWeight` | src/main/java/moa/classifiers/meta/BayesianBagAdaptive.java:127-129 | the copy carries the new weight and the original's attributes, class value and number of classes |
| `Collaborators.ResetLearning` | src/main/java/moa/classifiers/meta/BayesianBagAdaptive.java:56-57 | the learner keeps its configuration and forgets every training instance |
| `Collaborators.TrainOn` | src/main/java/moa/classifiers/meta/BayesianBagAdaptive.java:130 | the learner keeps its configuration and its training log grows by exactly the given instance at the end, earlier entries unchanged |

## Left out

- The Gamma draw and reseeding (`GammaDistribution.sample`, `reseedRandomGenerator(classifierRandom.nextLong())`) are Apache Commons Math code plus randomness. A draw is the symbolic value `GammaDraw(params, slot)`. It records the distribution and the position in the random stream of the seed. Its numeric value is not modelled.
- `m_gammaDefault` (the Gamma(1,1) built on reset) is not modelled. It is used only in the `m_instCounts < 0` branch, which `TrainOnInstanceImpl` proves unreachable.
- IEEE double rounding is not modelled. Frequencies, counts, parameters and votes are exact reals. So nothing is claimed about a floating-point shape·scale being exactly 1.0, about counts past 2^53, or about NaN class values.
- Base-learner internals are not modelled. A learner is a configuration tag plus the log of weighted instances it was trained on. A member's votes for an instance are a parameter of `GetVotesForInstance`.
- Learners are values, so the shallow copy made by `getSubClassifiers` and the aliasing between the returned array and the members are not captured.
- `Instance.copy`/`setWeight` are the value update `WithWeight`, which changes only the weight.
- `GetVotesForInstance` requires all vote vectors to have the same length, the number of classes. Growing a longer accumulator is the only part of `DoubleVector.addValues` that is modelled (zero padding). `DoubleVector` itself is not part of this model.
- `TrainOnInstanceImpl` requires a prior reset. The framework resets a classifier before its first training call. The Java code would throw on the null ensemble only after allocating the frequencies.
- `ResetLearningImpl` does not model the reset of the prepared base-learner option object, only the reset copy placed in each slot. It also does not model the superclass reseeding the classifier's random stream.
- Debug printing to standard output is not modelled. It has no behavioural effect.
- Option plumbing and framework glue are not modelled: `ClassOption`/`IntOption`, `getPreparedClassOption`, `setDebug`, `getPurposeString`, the empty `getModelDescription`, and `isRandomizable` (which always returns true).
- The commented-out "old formulation" of the parameters is not modelled.
- The training loop of `AbstractBayesianBag`, the superclass of `BayesianBagAdaptiveK`, is not part of this model. Only `getDistribution` and its cache are.
- `GetDistribution`: the `NotStrictlyPositiveException` thrown for an instance with no classes is the outcome `NotStrictlyPositive`. How the superclass's training call propagates it is not part of this model.
