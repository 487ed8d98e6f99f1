/** The Gamma distributions from which per-model instance weights are drawn.
    Only the parameters are modelled; a draw is a symbolic value (see
    Collaborators.Weight). */
module Gamma {

  /** A Gamma(shape, scale) distribution. */
  datatype GammaParams = GammaParams(shape: real, scale: real)

  /** Expected value of a draw. */
  function Mean(g: GammaParams): real
  {
    g.shape * g.scale
  }

  /** Variance of a draw. */
  function Variance(g: GammaParams): real
  {
    g.shape * g.scale * g.scale
  }

  /** What constructing a GammaDistribution(shape, scale) yields: the
      distribution, or the NotStrictlyPositiveException thrown when the shape
      or the scale is not strictly positive. */
  datatype Construction = Built(dist: GammaParams) | NotStrictlyPositive

  /** The GammaDistribution constructor: it accepts exactly the strictly
      positive shapes and scales, and keeps them unchanged. */
  function NewGammaDistribution(shape: real, scale: real): (r: Construction)
    ensures r.Built? <==> shape > 0.0 && scale > 0.0
    ensures r.Built? ==> r.dist.shape == shape && r.dist.scale == scale
  {
    if shape <= 0.0 || scale <= 0.0 then NotStrictlyPositive
    else Built(GammaParams(shape, scale))
  }

  /** The frequency-adaptive parameters of BayesianBagAdaptive for an instance
      of a class seen freq times out of count instances, with tuning constant k:
      the shape is k times the share of the class among all instances, and the
      scale is its reciprocal. */
  function AdaptiveParams(k: real, freq: real, count: real): (r: GammaParams)
    requires k * freq != 0.0 && count != 0.0
    ensures r.shape * count == k * freq
    ensures r.scale * (k * freq) == count
  {
    GammaParams(k * freq / count, count / (k * freq))
  }

  /** With positive statistics both parameters are positive (so the Gamma
      distribution is well defined), every weight has mean one, and the
      variance is count / (k * freq). */
  lemma AdaptiveParamsMoments(k: real, freq: real, count: real)
    requires k > 0.0 && freq > 0.0 && count > 0.0
    ensures AdaptiveParams(k, freq, count).shape > 0.0
    ensures AdaptiveParams(k, freq, count).scale > 0.0
    ensures Mean(AdaptiveParams(k, freq, count)) == 1.0
    ensures Variance(AdaptiveParams(k, freq, count)) == count / (k * freq)
  {
    var a, b := k * freq, count;
    assert a / b * (b / a) == 1.0 by {
      assert a / b * b == a;
      assert b / a * a == b;
      assert a / b * (b / a) * (a * b) == a * b;
    }
  }

  /** The rarer the class, the larger the variance of its weights: for a
      fixed instance count, a smaller frequency gives a strictly larger variance. */
  lemma VarianceDecreasesWithFrequency(k: real, rare: real, common: real, count: real)
    requires k > 0.0 && 0.0 < rare < common && count > 0.0
    ensures Variance(AdaptiveParams(k, common, count)) < Variance(AdaptiveParams(k, rare, count))
  {
    AdaptiveParamsMoments(k, rare, count);
    AdaptiveParamsMoments(k, common, count);
  }

  /** When the class has been seen at most as often as there are instances in
      all, the shape is at most one and the scale at least one. */
  lemma AdaptiveParamsRange(k: real, freq: real, count: real)
    requires k > 0.0 && freq > 0.0 && count > 0.0 && k * freq <= count
    ensures 0.0 < AdaptiveParams(k, freq, count).shape <= 1.0
    ensures AdaptiveParams(k, freq, count).scale >= 1.0
  {
    AdaptiveParamsMoments(k, freq, count);
    var g, a := AdaptiveParams(k, freq, count), k * freq;
    assert (g.scale - 1.0) * a == count - a;
    assert (1.0 - g.shape) * count == count - a;
  }
}
