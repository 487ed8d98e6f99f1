/** The fixed sampler of BayesianBagAdaptiveK: one Gamma(numClasses, 1)
    distribution, built on first use from the first instance seen and handed
    out unchanged ever after. Building it fails, and nothing is cached, for an
    instance with no classes. */
module AdaptiveBagK {
  import opened Gamma
  import opened Collaborators

  datatype Option<T> = None | Some(value: T)

  /** The distribution built on first use: shape the instance's number of
      classes, scale one, so that a weight has mean and variance both equal to
      the number of classes. The constructor refuses a shape of zero. */
  function FixedParams(inst: Instance): (r: Construction)
    ensures r.Built? <==> inst.numClasses > 0
    ensures r.Built? ==> Mean(r.dist) == inst.numClasses as real
    ensures r.Built? ==> Variance(r.dist) == inst.numClasses as real
  {
    NewGammaDistribution(inst.numClasses as real, 1.0)
  }

  /** One call of getDistribution on the cache as it stands: what the call
      yields, and the cache afterwards. A filled cache answers every call and
      is kept; an empty one is filled by a successful construction and stays
      empty when the construction throws. */
  function NextDistribution(cache: Option<GammaParams>, inst: Instance): (r: (Construction, Option<GammaParams>))
    ensures cache.Some? ==> r == (Built(cache.value), cache)
    ensures cache.None? ==> r.1 == if r.0.Built? then Some(r.0.dist) else None
    ensures r.0.Built? <==> cache.Some? || inst.numClasses > 0
  {
    match cache
    case Some(g) => (Built(g), cache)
    case None =>
      match FixedParams(inst)
      case Built(g) => (Built(g), Some(g))
      case NotStrictlyPositive => (NotStrictlyPositive, None)
  }

  /** What consecutive calls on a stream of instances yield. */
  function Distributions(cache: Option<GammaParams>, insts: seq<Instance>): (gs: seq<Construction>)
    ensures |gs| == |insts|
    decreases |insts|
  {
    if insts == [] then []
    else
      var (g, next) := NextDistribution(cache, insts[0]);
      [g] + Distributions(next, insts[1..])
  }

  /** Once the cache is set, every call returns the cached distribution,
      whatever the instance. */
  lemma {:induction false} CachedIsReturned(g: GammaParams, insts: seq<Instance>)
    ensures forall i :: 0 <= i < |insts| ==> Distributions(Some(g), insts)[i] == Built(g)
  {
    if insts != [] {
      CachedIsReturned(g, insts[1..]);
    }
  }

  /** From an empty cache, every call fails until the first instance j with
      at least one class; from then on every call returns Gamma(n, 1), where n
      is the number of classes of instance j: later instances, their classes
      and any frequencies play no part. */
  lemma {:induction false} FirstInstanceFixesDistribution(insts: seq<Instance>, j: nat)
    requires j < |insts| && insts[j].numClasses > 0
    requires forall i :: 0 <= i < j ==> insts[i].numClasses == 0
    ensures forall i :: 0 <= i < j ==> Distributions(None, insts)[i] == NotStrictlyPositive
    ensures forall i :: j <= i < |insts| ==>
      Distributions(None, insts)[i] == Built(GammaParams(insts[j].numClasses as real, 1.0))
  {
    var gs := Distributions(None, insts);
    if j == 0 {
      var g := GammaParams(insts[0].numClasses as real, 1.0);
      assert gs == [Built(g)] + Distributions(Some(g), insts[1..]);
      CachedIsReturned(g, insts[1..]);
    } else {
      assert gs == [NotStrictlyPositive] + Distributions(None, insts[1..]);
      FirstInstanceFixesDistribution(insts[1..], j - 1);
    }
  }

  class BayesianBagAdaptiveK {
    /** The cached distribution (m_gamma); None until a call succeeds. */
    var gamma: Option<GammaParams>

    constructor ()
      ensures gamma == None
    {
      gamma := None;
    }

    /** getDistribution: build Gamma(numClasses, 1) on first use, then return
        the cached distribution; the cache is never cleared or replaced. When
        the construction throws, the exception leaves the cache empty. */
    method GetDistribution(inst: Instance) returns (r: Construction)
      modifies this
      ensures (r, gamma) == NextDistribution(old(gamma), inst)
      ensures old(gamma) == None && inst.numClasses > 0 ==>
        r == Built(GammaParams(inst.numClasses as real, 1.0)) && gamma == Some(r.dist)
      ensures old(gamma) == None && inst.numClasses == 0 ==> r == NotStrictlyPositive && gamma == None
      ensures old(gamma) != None ==> r == Built(old(gamma).value) && gamma == old(gamma)
    {
      if gamma == None {
        var k := inst.numClasses as real;
        var made := NewGammaDistribution(k, 1.0);
        if made.NotStrictlyPositive? {
          return NotStrictlyPositive;
        }
        gamma := Some(made.dist);
      }
      r := Built(gamma.value);
    }
  }

  /** Drives a new sampler with a stream of instances: when the first
      instance has classes, every call hands out the distribution it fixes. */
  method SampleStream(insts: seq<Instance>) returns (gs: seq<Construction>)
    ensures gs == Distributions(None, insts)
    ensures forall i :: 0 <= i < |gs| && insts[0].numClasses > 0 ==>
      gs[i] == Built(GammaParams(insts[0].numClasses as real, 1.0))
  {
    var sampler := new BayesianBagAdaptiveK();
    gs := [];
    for i := 0 to |insts|
      invariant |gs| == i
      invariant gs + Distributions(sampler.gamma, insts[i..]) == Distributions(None, insts)
    {
      assert insts[i..] == [insts[i]] + insts[i + 1..];
      var g := sampler.GetDistribution(insts[i]);
      gs := gs + [g];
    }
    if insts != [] && insts[0].numClasses > 0 {
      FirstInstanceFixesDistribution(insts, 0);
    }
  }
}
