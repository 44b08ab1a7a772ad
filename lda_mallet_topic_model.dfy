/** The Mallet LDA wrapper family: model type, saved-model file name, the fit,
    its two metrics and its recorded parameters. */
module LdaMalletTopicModel {
  import opened Basics
  import opened Artifacts
  import opened OrderedMap

  /** `set_model_type` */
  const ModelType := "mallet"
  const ModelFileName := "MLDA-model"

  /** The `LdaMallet(...)` call: only the corpus, the dictionary and the number of
      topics reach the wrapper. */
  function Fit(corpus: seq<BagOfWords>, dictionary: Dictionary, numberOfTopics: Arg): (m: Model)
    ensures m.MalletFit? && m.corpus == corpus && m.dictionary == dictionary && m.numTopics == numberOfTopics
  {
    MalletFit(corpus, dictionary, numberOfTopics)
  }

  const MetricNames: seq<string> := ["c_v", "u_mass"]

  /** `get_model_evaluation_metrics` */
  function Metrics(model: Model, texts: seq<seq<string>>): (j: Json)
    ensures j.JObject? && Keys(j.members) == MetricNames
    ensures forall i :: 0 <= i < |MetricNames| ==> j.members[i].1 == JScore(Score(MetricNames[i], model, texts))
  {
    JObject([("c_v", JScore(Score("c_v", model, texts))), ("u_mass", JScore(Score("u_mass", model, texts)))])
  }

  /** `get_model_parameters` */
  function Parameters(common: Json, chunkSize: Arg, alpha: Arg, beta: Arg, iterations: Arg, passes: Arg, evalEvery: Arg): (j: Json)
    ensures j.JObject? && Keys(j.members) == ["common", "lda_Mallet"]
    ensures j.members[0].1 == common
    ensures j.members[1].1.JObject? &&
      Keys(j.members[1].1.members) == ["chunk_size", "alpha", "beta", "iteration", "passes", "eval_every"]
  {
    JObject([("common", common),
             ("lda_Mallet", JObject([("chunk_size", ArgToJson(chunkSize)), ("alpha", ArgToJson(alpha)),
                                     ("beta", ArgToJson(beta)), ("iteration", ArgToJson(iterations)),
                                     ("passes", ArgToJson(passes)), ("eval_every", ArgToJson(evalEvery))]))])
  }
}
