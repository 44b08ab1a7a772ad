/** The gensim `LdaModel` family: its model type, the file name of its saved
    model, what it is fitted with, the metrics it reports and the parameters it
    records. */
module LdaTopicModel {
  import opened Basics
  import opened Artifacts
  import opened OrderedMap

  /** `set_model_type` */
  const ModelType := "lda"
  const ModelFileName := "LDA-model"

  /** The `LdaModel(...)` call of `set_model`. */
  function Fit(corpus: seq<BagOfWords>, dictionary: Dictionary, numberOfTopics: Arg,
               chunkSize: Arg, alpha: Arg, beta: Arg, iterations: Arg, passes: Arg, evalEvery: Arg): (m: Model)
    ensures m.LdaFit? && m.corpus == corpus && m.dictionary == dictionary && m.numTopics == numberOfTopics
    ensures m.eta == beta && m.alpha == alpha && m.chunkSize == chunkSize
  {
    LdaFit(corpus, dictionary, numberOfTopics, chunkSize, alpha, beta, iterations, passes, evalEvery)
  }

  const MetricNames: seq<string> :=
    ["perplexity", "c_v_coherence_lda", "u_mass_coherence_lda", "avg_topic_coherence_u_mass", "avg_topic_coherence_c_v"]

  /** `get_model_evaluation_metrics`: one score per metric name, each computed by
      gensim from the model and the processed texts. */
  function Metrics(model: Model, texts: seq<seq<string>>): (j: Json)
    ensures j.JObject? && Keys(j.members) == MetricNames
    ensures forall i :: 0 <= i < |MetricNames| ==> j.members[i].1 == JScore(Score(MetricNames[i], model, texts))
  {
    JObject(seq(|MetricNames|, i requires 0 <= i < |MetricNames| => (MetricNames[i], JScore(Score(MetricNames[i], model, texts)))))
  }

  /** `get_model_parameters` */
  function Parameters(common: Json, chunkSize: Arg, alpha: Arg, beta: Arg, iterations: Arg, passes: Arg, evalEvery: Arg): (j: Json)
    ensures j.JObject? && Keys(j.members) == ["common", "lda"]
    ensures j.members[0].1 == common
    ensures j.members[1].1.JObject? &&
      Keys(j.members[1].1.members) == ["chunk_size", "alpha", "beta", "iteration", "passes", "eval_every"]
  {
    JObject([("common", common),
             ("lda", JObject([("chunk_size", ArgToJson(chunkSize)), ("alpha", ArgToJson(alpha)),
                              ("beta", ArgToJson(beta)), ("iteration", ArgToJson(iterations)),
                              ("passes", ArgToJson(passes)), ("eval_every", ArgToJson(evalEvery))]))])
  }
}
