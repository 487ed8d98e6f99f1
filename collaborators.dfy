/** The outside collaborators the ensemble relies on, reduced to what it
    observes of them: weka instances (class value, number of classes, weight)
    and base learners, which are opaque apart from the training calls they
    receive. */
module Collaborators {
  import opened Gamma

  /** The weight carried by an instance: a plain number, or the value drawn
      from a Gamma distribution by a generator reseeded with the slot-th value
      of the classifier's random stream. The draw itself is not computed. */
  datatype Weight = Fixed(value: real) | GammaDraw(dist: GammaParams, slot: nat)

  /** A labelled instance. The class value is a double, as in weka. */
  datatype Instance = Instance(attributes: seq<real>, classValue: real, numClasses: nat, weight: Weight)

  /** Java's (int) cast of a double: truncation toward zero. */
  function ClassIndex(classValue: real): (c: int)
    ensures classValue >= 0.0 ==> c as real <= classValue < c as real + 1.0
    ensures classValue < 0.0 ==> c as real - 1.0 < classValue <= c as real
  {
    if classValue >= 0.0 then classValue.Floor else -((-classValue).Floor)
  }

  /** Instance.copy followed by setWeight: the same instance with another weight. */
  function WithWeight(inst: Instance, w: Weight): (r: Instance)
    ensures r.weight == w
    ensures r.attributes == inst.attributes && r.classValue == inst.classValue
    ensures r.numClasses == inst.numClasses
  {
    inst.(weight := w)
  }

  /** A base learner, known only by its configuration and by the weighted
      instances it has been trained on, in order. */
  datatype Learner = Learner(config: nat, trainingLog: seq<Instance>)

  /** Classifier.resetLearning: the configuration stays, the learned state goes. */
  function ResetLearning(l: Learner): (r: Learner)
    ensures r.config == l.config && r.trainingLog == []
  {
    l.(trainingLog := [])
  }

  /** Classifier.trainOnInstance: the learner records one more training instance. */
  function TrainOn(l: Learner, inst: Instance): (r: Learner)
    ensures r.config == l.config
    ensures |r.trainingLog| == |l.trainingLog| + 1 && r.trainingLog[|l.trainingLog|] == inst
    ensures r.trainingLog[..|l.trainingLog|] == l.trainingLog
  {
    l.(trainingLog := l.trainingLog + [inst])
  }
}
