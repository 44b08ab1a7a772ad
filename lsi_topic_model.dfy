/** The gensim `LsiModel` family, fitted on the tf-idf transform of the corpus. */
module LsiTopicModel {
  import opened Basics
  import opened Artifacts
  import opened OrderedMap

  /** `set_model_type` */
  const ModelType := "lsi"
  const ModelFileName := "LSI-model"

  /** `LsiModel(TfidfModel(corpus)[corpus], ...)` */
  function Fit(corpus: seq<BagOfWords>, dictionary: Dictionary, numberOfTopics: Arg): (m: Model)
    ensures m.LsiFit? && m.corpus == corpus && m.dictionary == dictionary && m.numTopics == numberOfTopics
  {
    LsiFit(corpus, dictionary, numberOfTopics)
  }

  const MetricNames: seq<string> := ["c_v", "u_mass"]

  /** `get_model_evaluation_metrics` */
  function Metrics(model: Model, texts: seq<seq<string>>): (j: Json)
    ensures j.JObject? && Keys(j.members) == MetricNames
    ensures forall i :: 0 <= i < |MetricNames| ==> j.members[i].1 == JScore(Score(MetricNames[i], model, texts))
  {
    JObject([("c_v", JScore(Score("c_v", model, texts))), ("u_mass", JScore(Score("u_mass", model, texts)))])
  }

  /** `get_model_parameters`: the family records only that tf-idf was used. */
  function Parameters(common: Json): (j: Json)
    ensures j.JObject? && Keys(j.members) == ["common", "lsi"]
    ensures j.members[0].1 == common
    ensures j.members[1].1 == JObject([("tfidf", JBool(true))])
  {
    JObject([("common", common), ("lsi", JObject([("tfidf", JBool(true))]))])
  }
}
