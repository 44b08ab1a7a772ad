/** The gensim `HdpModel` family. The number of topics is not a setting of this
    family: the base constructor receives 0 for it. */
module HdpTopicModel {
  import opened Basics
  import opened Artifacts
  import opened OrderedMap

  /** `set_model_type` */
  const ModelType := "hdp"
  const ModelFileName := "HDP-model"

  /** What the constructor hands to the base class as `number_of_topics`. */
  const NumberOfTopics := AInt(0)

  /** The `HdpModel(...)` call: the settings are stored but not passed on. */
  function Fit(corpus: seq<BagOfWords>, dictionary: Dictionary): (m: Model)
    ensures m.HdpFit? && m.corpus == corpus && m.dictionary == dictionary
  {
    HdpFit(corpus, dictionary)
  }

  const MetricNames: seq<string> := ["c_v", "u_mass"]

  /** `get_model_evaluation_metrics` */
  function Metrics(model: Model, texts: seq<seq<string>>): (j: Json)
    ensures j.JObject? && Keys(j.members) == MetricNames
    ensures forall i :: 0 <= i < |MetricNames| ==> j.members[i].1 == JScore(Score(MetricNames[i], model, texts))
  {
    JObject([("c_v", JScore(Score("c_v", model, texts))), ("u_mass", JScore(Score("u_mass", model, texts)))])
  }

  /** `get_model_parameters` */
  function Parameters(common: Json, chunkSize: Arg, alpha: Arg, beta: Arg): (j: Json)
    ensures j.JObject? && Keys(j.members) == ["common", "hdp"]
    ensures j.members[0].1 == common
    ensures j.members[1].1.JObject? && Keys(j.members[1].1.members) == ["chunk_size", "alpha", "beta"]
  {
    JObject([("common", common),
             ("hdp", JObject([("chunk_size", ArgToJson(chunkSize)), ("alpha", ArgToJson(alpha)), ("beta", ArgToJson(beta))]))])
  }
}
