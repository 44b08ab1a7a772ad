/** The part every topic-model family shares: the common parameters, the two
    report files, and the load-or-train step behind `get_model`/`set_model`. The
    four family classes differ only in their settings, model type, model file
    name, fit, metrics and parameter record, which the `Family` value carries and
    the family modules define. */
module TopicModel {
  import opened Basics
  import opened Artifacts
  import opened OrderedMap
  import opened FileStore
  import opened Advisor
  import opened TopicModelEssential
  import Lda = LdaTopicModel
  import Mallet = LdaMalletTopicModel
  import Hdp = HdpTopicModel
  import Lsi = LsiTopicModel

  /** Which subclass an instance is, with the settings that subclass stores. */
  datatype Family =
    | LdaFamily(chunkSize: Arg, alpha: Arg, beta: Arg, iterations: Arg, passes: Arg, evalEvery: Arg)
    | MalletFamily(chunkSize: Arg, alpha: Arg, beta: Arg, iterations: Arg, passes: Arg, evalEvery: Arg)
    | HdpFamily(chunkSize: Arg, alpha: Arg, beta: Arg)
    | LsiFamily

  /** What each subclass's `set_model_type` assigns. */
  function ModelTypeOf(f: Family): string {
    match f
    case LdaFamily(_, _, _, _, _, _) => Lda.ModelType
    case MalletFamily(_, _, _, _, _, _) => Mallet.ModelType
    case HdpFamily(_, _, _) => Hdp.ModelType
    case LsiFamily => Lsi.ModelType
  }

  /** The extensionless file name `get_model` asks for. */
  function ModelFileNameOf(f: Family): string {
    match f
    case LdaFamily(_, _, _, _, _, _) => Lda.ModelFileName
    case MalletFamily(_, _, _, _, _, _) => Mallet.ModelFileName
    case HdpFamily(_, _, _) => Hdp.ModelFileName
    case LsiFamily => Lsi.ModelFileName
  }

  function Fit(f: Family, corpus: seq<BagOfWords>, dictionary: Dictionary, numberOfTopics: Arg): Model {
    match f
    case LdaFamily(c, a, b, i, p, e) => Lda.Fit(corpus, dictionary, numberOfTopics, c, a, b, i, p, e)
    case MalletFamily(_, _, _, _, _, _) => Mallet.Fit(corpus, dictionary, numberOfTopics)
    case HdpFamily(_, _, _) => Hdp.Fit(corpus, dictionary)
    case LsiFamily => Lsi.Fit(corpus, dictionary, numberOfTopics)
  }

  function MetricNamesOf(f: Family): seq<string> {
    match f
    case LdaFamily(_, _, _, _, _, _) => Lda.MetricNames
    case MalletFamily(_, _, _, _, _, _) => Mallet.MetricNames
    case HdpFamily(_, _, _) => Hdp.MetricNames
    case LsiFamily => Lsi.MetricNames
  }

  function Metrics(f: Family, model: Model, texts: seq<seq<string>>): Json {
    match f
    case LdaFamily(_, _, _, _, _, _) => Lda.Metrics(model, texts)
    case MalletFamily(_, _, _, _, _, _) => Mallet.Metrics(model, texts)
    case HdpFamily(_, _, _) => Hdp.Metrics(model, texts)
    case LsiFamily => Lsi.Metrics(model, texts)
  }

  /** Every family's metric record is an object keyed by exactly its metric names,
      each holding the score gensim computes for that name. */
  lemma {:induction false} MetricsShape(f: Family, model: Model, texts: seq<seq<string>>)
    ensures var j := Metrics(f, model, texts);
      j.JObject? && Keys(j.members) == MetricNamesOf(f) &&
      forall i :: 0 <= i < |j.members| ==> j.members[i].1 == JScore(Score(MetricNamesOf(f)[i], model, texts))
  {
    var j := Metrics(f, model, texts);
    assert |j.members| == |Keys(j.members)|;
  }

  const CommonNames: seq<string> := ["topic_number", "no_below", "no_above", "n_most_frequent"]

  /** `get_common_parameters`: exactly the four common keys, in this order,
      holding the stored values. */
  function CommonParameters(numberOfTopics: Arg, noBelow: Arg, noAbove: Arg, nMostFrequent: Arg): (j: Json)
    ensures j.JObject? && Keys(j.members) == CommonNames
    ensures Get(j.members, "topic_number") == Some(ArgToJson(numberOfTopics))
    ensures Get(j.members, "no_below") == Some(ArgToJson(noBelow))
    ensures Get(j.members, "no_above") == Some(ArgToJson(noAbove))
    ensures Get(j.members, "n_most_frequent") == Some(ArgToJson(nMostFrequent))
  {
    assert "no_below"[3] != "no_above"[3] && "n_most_frequent"[1] != "no_above"[1];
    assert "no_below" != "no_above" && "n_most_frequent" != "no_above";
    var members := [("topic_number", ArgToJson(numberOfTopics)), ("no_below", ArgToJson(noBelow)),
                    ("no_above", ArgToJson(noAbove)), ("n_most_frequent", ArgToJson(nMostFrequent))];
    assert members[1..][1..] == [("no_above", ArgToJson(noAbove)), ("n_most_frequent", ArgToJson(nMostFrequent))];
    assert members[1..][1..][1..] == [("n_most_frequent", ArgToJson(nMostFrequent))];
    assert Get(members[1..][1..], "n_most_frequent") == Get(members[1..][1..][1..], "n_most_frequent");
    assert Get(members[1..], "n_most_frequent") == Get(members[1..][1..], "n_most_frequent");
    assert Get(members[1..], "no_above") == Get(members[1..][1..], "no_above");
    JObject(members)
  }

  /** `get_model_parameters` of each family. */
  function Parameters(f: Family, common: Json): Json {
    match f
    case LdaFamily(c, a, b, i, p, e) => Lda.Parameters(common, c, a, b, i, p, e)
    case MalletFamily(c, a, b, i, p, e) => Mallet.Parameters(common, c, a, b, i, p, e)
    case HdpFamily(c, a, b) => Hdp.Parameters(common, c, a, b)
    case LsiFamily => Lsi.Parameters(common)
  }

  /** Every family stores the common parameters first, under "common", and its own
      settings under one family key. */
  lemma {:induction false} ParametersShape(f: Family, common: Json)
    ensures var j := Parameters(f, common);
      j.JObject? && |j.members| == 2 && j.members[0] == ("common", common) &&
      j.members[1].0 == (match f
                         case LdaFamily(_, _, _, _, _, _) => "lda"
                         case MalletFamily(_, _, _, _, _, _) => "lda_Mallet"
                         case HdpFamily(_, _, _) => "hdp"
                         case LsiFamily => "lsi")
  {
  }

  // ---------------------------------------------------------------------------
  // The report files and the load-or-train step

  const EvaluationName := "evaluation"
  const MetaName := "meta.json"

  /** `write_model_evaluation_metrics` on a resolved model-type folder: both files
      are opened with "w", so earlier reports are replaced. */
  function Reports(files: map<string, Content>, folder: string, metrics: Json, parameters: Json): map<string, Content> {
    files[folder + EvaluationName := JsonFile(metrics)][folder + MetaName := JsonFile(parameters)]
  }

  /** `<Model>.load` */
  function ModelIn(c: Content): Option<Model> {
    if c.ModelFile? then Some(c.model) else None
  }

  function SaveModel(m: Model): Content { ModelFile(m) }

  /** `get_model` for an instance without a model: resolve the model file in the
      model-type folder; when it is missing, `set_model` fits `m`, saves it there,
      and writes its metrics and the parameters next to it. */
  function Training(dirs: set<string>, files: map<string, Content>, folder: Result<string>, f: Family,
                    m: Model, texts: seq<seq<string>>, parameters: Json): Cached<Model>
  {
    var step := Resolve(dirs, files, folder, ModelFileNameOf(f), Ok(m), ModelIn, SaveModel);
    if folder.Ok? && !Exists(EnsuredDirs(dirs, files, folder.value), files, folder.value + ModelFileNameOf(f)) then
      step.(files := Reports(step.files, folder.value, Metrics(f, m, texts), parameters))
    else step
  }

  lemma {:induction false} AppendDiffers(p: string, a: string, b: string)
    requires a != b
    ensures p + a != p + b
  {
    assert (p + a)[|p|..] == a && (p + b)[|p|..] == b;
  }

  /** The model file and the two reports are three different paths. */
  lemma {:induction false} ReportPathsDiffer(f: Family, folder: string)
    ensures folder + ModelFileNameOf(f) != folder + EvaluationName
    ensures folder + ModelFileNameOf(f) != folder + MetaName
    ensures folder + EvaluationName != folder + MetaName
  {
    var n := ModelFileNameOf(f);
    assert n[0] != EvaluationName[0] && n[0] != MetaName[0];
    assert EvaluationName[0] != MetaName[0];
    AppendDiffers(folder, n, EvaluationName);
    AppendDiffers(folder, n, MetaName);
    AppendDiffers(folder, EvaluationName, MetaName);
  }

  /** A stored model file is loaded and nothing is trained: the result does not
      depend on the model that would have been fitted, and no file changes. */
  lemma {:induction false} TrainingLoads(dirs: set<string>, files: map<string, Content>, folder: string, f: Family,
                      m1: Model, m2: Model, texts: seq<seq<string>>, parameters1: Json, parameters2: Json)
    requires Exists(EnsuredDirs(dirs, files, folder), files, folder + ModelFileNameOf(f))
    ensures Training(dirs, files, Ok(folder), f, m1, texts, parameters1)
         == Training(dirs, files, Ok(folder), f, m2, texts, parameters2)
    ensures Training(dirs, files, Ok(folder), f, m1, texts, parameters1).files == files
    ensures Training(dirs, files, Ok(folder), f, m1, texts, parameters1).dirs == EnsuredDirs(dirs, files, folder)
    ensures Training(dirs, files, Ok(folder), f, m1, texts, parameters1).value
         == Loaded(files, folder + ModelFileNameOf(f), ModelIn)
  {
  }

  /** A missing model file is trained: the model is saved at the model-type folder +
      its file name, its metrics at + "evaluation" and the parameters at
      + "meta.json", replacing whatever those two held; no other path changes. */
  lemma {:induction false} TrainingBuilds(dirs: set<string>, files: map<string, Content>, folder: string, f: Family,
                       m: Model, texts: seq<seq<string>>, parameters: Json)
    requires !Exists(EnsuredDirs(dirs, files, folder), files, folder + ModelFileNameOf(f))
    ensures var step := Training(dirs, files, Ok(folder), f, m, texts, parameters);
      step.value == Ok(m) &&
      step.files[folder + ModelFileNameOf(f)] == ModelFile(m) &&
      step.files[folder + EvaluationName] == JsonFile(Metrics(f, m, texts)) &&
      step.files[folder + MetaName] == JsonFile(parameters) &&
      step.files.Keys == files.Keys + {folder + ModelFileNameOf(f), folder + EvaluationName, folder + MetaName} &&
      (forall p :: p in files && p !in {folder + ModelFileNameOf(f), folder + EvaluationName, folder + MetaName} ==>
                   step.files[p] == files[p])
  {
    var p := folder + ModelFileNameOf(f);
    TrainingAbsent(dirs, files, folder, f, m, texts, parameters);
    ReportPathsDiffer(f, folder);
    ThreeWrites(files, p, folder + EvaluationName, folder + MetaName,
                ModelFile(m), JsonFile(Metrics(f, m, texts)), JsonFile(parameters));
  }

  lemma {:induction false} TrainingAbsent(dirs: set<string>, files: map<string, Content>, folder: string, f: Family,
                       m: Model, texts: seq<seq<string>>, parameters: Json)
    requires !Exists(EnsuredDirs(dirs, files, folder), files, folder + ModelFileNameOf(f))
    ensures Training(dirs, files, Ok(folder), f, m, texts, parameters)
         == Cached(Ok(m), EnsuredDirs(dirs, files, folder),
                   Reports(files[folder + ModelFileNameOf(f) := ModelFile(m)], folder, Metrics(f, m, texts), parameters))
  {
    var p := folder + ModelFileNameOf(f);
    var d := EnsuredDirs(dirs, files, folder);
    var step := Resolve(dirs, files, Ok(folder), ModelFileNameOf(f), Ok(m), ModelIn, SaveModel);
    assert step == Cached(Ok(m), d, files[p := ModelFile(m)]);
  }

  /** Three writes to three different paths. */
  lemma {:induction false} ThreeWrites(files: map<string, Content>, p: string, e: string, q: string, a: Content, b: Content, c: Content)
    requires p != e && p != q && e != q
    ensures var w := files[p := a][e := b][q := c];
      w[p] == a && w[e] == b && w[q] == c && w.Keys == files.Keys + {p, e, q} &&
      forall k :: k in files && k !in {e, q} && k != p ==> w[k] == files[k]
  {
  }

  /** After a step that produced a model, the same step again finds that model in
      place, whatever it would fit, and changes nothing. */
  lemma {:induction false} TrainingTwice(dirs: set<string>, files: map<string, Content>, folder: Result<string>, f: Family,
                      m: Model, again: Model, texts: seq<seq<string>>, parameters: Json, parameters2: Json)
    requires Training(dirs, files, folder, f, m, texts, parameters).value.Ok?
    ensures var step := Training(dirs, files, folder, f, m, texts, parameters);
      Training(step.dirs, step.files, folder, f, again, texts, parameters2) == step
  {
    var step := Training(dirs, files, folder, f, m, texts, parameters);
    var p := folder.value + ModelFileNameOf(f);
    var d := EnsuredDirs(dirs, files, folder.value);
    EnsuredDirsSpec(dirs, files, folder.value);
    if !Exists(d, files, p) {
      TrainingBuilds(dirs, files, folder.value, f, m, texts, parameters);
      TrainingAbsent(dirs, files, folder.value, f, m, texts, parameters);
      assert step.dirs == d;
      assert Exists(step.dirs, step.files, folder.value);
      TrainingLoads(step.dirs, step.files, folder.value, f, again, again, texts, parameters2, parameters2);
    } else {
      TrainingLoads(dirs, files, folder.value, f, m, m, texts, parameters, parameters);
      assert p in files;
      assert EnsuredDirs(d, files, folder.value) == d;
      TrainingLoads(step.dirs, step.files, folder.value, f, again, again, texts, parameters2, parameters2);
    }
  }

  /** Whatever the step did, a model it produced is the one stored at the model
      path afterwards: loaded from there, or saved there before the reports. */
  lemma {:induction false} TrainingStoresModel(dirs: set<string>, files: map<string, Content>, folder: Result<string>,
                                               f: Family, m: Model, texts: seq<seq<string>>, parameters: Json)
    ensures var step := Training(dirs, files, folder, f, m, texts, parameters);
      step.value.Ok? ==>
        folder.Ok? && folder.value + ModelFileNameOf(f) in step.files &&
        step.files[folder.value + ModelFileNameOf(f)] == ModelFile(step.value.value)
  {
    if folder.Ok? {
      var p := folder.value + ModelFileNameOf(f);
      if Exists(EnsuredDirs(dirs, files, folder.value), files, p) {
        TrainingLoads(dirs, files, folder.value, f, m, m, texts, parameters, parameters);
      } else {
        TrainingBuilds(dirs, files, folder.value, f, m, texts, parameters);
      }
    }
  }

  /** What a family constructor does to the store, given the shared artifacts
      and the param-version folder `topicVersion` the advisor resolves:
      `ModelView` needs that folder (it creates nothing), then `get_model` runs
      the load-or-train step in its model-type sub-folder with the model fitted
      from the artifacts and the family's parameter record. */
  function Constructed(f: Family, topicVersion: Result<string>, dictionary: Dictionary, corpus: seq<BagOfWords>,
                       dirs: set<string>, files: map<string, Content>, numberOfTopics: Arg, texts: seq<seq<string>>,
                       noBelow: Arg, noAbove: Arg, nMostFrequent: Arg): Cached<Model>
  {
    if topicVersion.Err? then Cached(Err(topicVersion.error), dirs, files)
    else
      Training(dirs, files, Then(topicVersion, ModelTypeSegment(ModelTypeOf(f))),
               f, Fit(f, corpus, dictionary, numberOfTopics), texts,
               Parameters(f, CommonParameters(numberOfTopics, noBelow, noAbove, nMostFrequent)))
  }

  /** The construction ended as `step` says: the store is the one the step
      leaves, and the instance was returned holding the step's model exactly when
      the step produced one (`got` is the returned instance's model), its error
      raised otherwise. */
  predicate EndsAs(dirs: set<string>, files: map<string, Content>, got: Result<Option<Model>>, step: Cached<Model>) {
    dirs == step.dirs && files == step.files &&
    (step.value.Err? ==> got == Err(step.value.error)) &&
    (step.value.Ok? ==> got == Ok(Some(step.value.value)))
  }

  // ---------------------------------------------------------------------------
  // The instance

  class TopicModel {
    const family: Family
    const advisor: Advisor
    const essentials: Essentials
    const numberOfTopics: Arg
    const noBelow: Arg
    const noAbove: Arg
    const nMostFrequent: Arg
    /** The class attribute `model_type`, empty until `set_model_type`. */
    var modelType: string
    var model: Option<Model>
    /** `visualization.topic_version_path`, the param-version folder. */
    var topicVersionPath: string
    /** The (model type, model) pairs handed to the visualization, in order. */
    var views: seq<(string, Model)>

    /** The base constructor after `TopicModelEssential.init`. */
    constructor (family: Family, advisor: Advisor, essentials: Essentials, numberOfTopics: Arg,
                 noBelow: Arg, noAbove: Arg, nMostFrequent: Arg)
      ensures this.family == family && this.advisor == advisor && this.essentials == essentials
      ensures this.numberOfTopics == numberOfTopics && this.noBelow == noBelow
      ensures this.noAbove == noAbove && this.nMostFrequent == nMostFrequent
      ensures model == None && modelType == "" && views == []
    {
      this.family := family;
      this.advisor := advisor;
      this.essentials := essentials;
      this.numberOfTopics := numberOfTopics;
      this.noBelow := noBelow;
      this.noAbove := noAbove;
      this.nMostFrequent := nMostFrequent;
      modelType := "";
      model := None;
      topicVersionPath := "";
      views := [];
    }

    /** Both shared artifacts are present, as every construction through a registry
        leaves them. */
    predicate Ready()
      reads essentials
    {
      essentials.dictionary.Some? && essentials.corpus.Some?
    }

    /** The instance holds these constructor arguments, its family's model type
        and the visualization's param-version folder `topicVersion`. */
    ghost predicate Holds(family: Family, advisor: Advisor, essentials: Essentials, numberOfTopics: Arg,
                          noBelow: Arg, noAbove: Arg, nMostFrequent: Arg, topicVersion: Result<string>)
      reads this
    {
      this.family == family && this.advisor == advisor && this.essentials == essentials &&
      this.numberOfTopics == numberOfTopics && this.noBelow == noBelow &&
      this.noAbove == noAbove && this.nMostFrequent == nMostFrequent &&
      modelType == ModelTypeOf(family) && topicVersion == Ok(topicVersionPath)
    }

    /** `set_model_type` */
    method SetModelType()
      modifies this
      ensures modelType == ModelTypeOf(family)
      ensures model == old(model) && views == old(views) && topicVersionPath == old(topicVersionPath)
    {
      modelType := ModelTypeOf(family);
    }

    /** `get_common_parameters` */
    function GetCommonParameters(): (j: Json)
      ensures j.JObject? && Keys(j.members) == CommonNames
    {
      CommonParameters(numberOfTopics, noBelow, noAbove, nMostFrequent)
    }

    /** `get_model_parameters` */
    function GetModelParameters(): Json {
      Parameters(family, GetCommonParameters())
    }

    /** `get_model_evaluation_metrics`: needs a model (`None.show_topics` raises). */
    function GetModelEvaluationMetrics(texts: seq<seq<string>>): (r: Result<Json>)
      reads this
      ensures r.Ok? <==> model.Some?
      ensures r.Ok? ==> r.value.JObject? && Keys(r.value.members) == MetricNamesOf(family)
    {
      if model.None? then Err(AttributeError("show_topics"))
      else
        MetricsShape(family, model.value, texts);
        Ok(Metrics(family, model.value, texts))
    }

    /** The model `set_model` fits from the shared artifacts. */
    function Fitted(): Model
      reads essentials
      requires Ready()
    {
      Fit(family, essentials.corpus.value, essentials.dictionary.value, numberOfTopics)
    }

    function ModelTypeFolder(lang: string, dataVersion: string, dictionaryVersion: string, modelVersion: string,
                             paramName: string, paramVersion: string): Result<string>
      reads this, advisor
    {
      advisor.ModelTypeFolderPath(lang, dataVersion, dictionaryVersion, modelVersion, paramName, paramVersion, modelType)
    }

    /** `write_model_evaluation_metrics`: the metrics go to the model-type folder +
        "evaluation" and the parameters to the same folder + "meta.json", both
        through the extensionless getter. */
    method WriteModelEvaluationMetrics(lang: string, dataVersion: string, dictionaryVersion: string,
                                       modelVersion: string, paramName: string, paramVersion: string,
                                       metrics: Json, parameters: Json)
      returns (o: Outcome)
      modifies advisor.store
      ensures var folder := ModelTypeFolder(lang, dataVersion, dictionaryVersion, modelVersion, paramName, paramVersion);
        (folder.Err? ==> o == Fail(folder.error) &&
                         advisor.store.files == old(advisor.store.files) && advisor.store.dirs == old(advisor.store.dirs)) &&
        (folder.Ok? ==> o == Pass &&
                        advisor.store.dirs == EnsuredDirs(old(advisor.store.dirs), old(advisor.store.files), folder.value) &&
                        advisor.store.files == Reports(old(advisor.store.files), folder.value, metrics, parameters))
    {
      var evaluationPath := advisor.ModelTypeFoldersFilePath(lang, dataVersion, dictionaryVersion, modelVersion,
                                                             paramName, paramVersion, modelType, EvaluationName);
      if evaluationPath.Err? {
        return Fail(evaluationPath.error);
      }
      ghost var folder := ModelTypeFolder(lang, dataVersion, dictionaryVersion, modelVersion, paramName, paramVersion).value;
      EnsuredDirsSpec(old(advisor.store.dirs), old(advisor.store.files), folder);
      var metaPath := advisor.ModelTypeFoldersFilePath(lang, dataVersion, dictionaryVersion, modelVersion,
                                                       paramName, paramVersion, modelType, MetaName);
      advisor.store.Write(evaluationPath.value, JsonFile(metrics));
      advisor.store.Write(metaPath.value, JsonFile(parameters));
      return Pass;
    }

    /** `set_model`: fit, save at `modelFilePath`, keep, then write the reports. */
    method SetModel(lang: string, dataVersion: string, dictionaryVersion: string, modelVersion: string,
                    paramName: string, paramVersion: string, modelFilePath: string, texts: seq<seq<string>>)
      returns (o: Outcome)
      requires Ready()
      modifies this, advisor.store
      ensures model == Some(Fitted())
      ensures modelType == old(modelType) && views == old(views) && topicVersionPath == old(topicVersionPath)
      ensures var saved := old(advisor.store.files)[modelFilePath := ModelFile(Fitted())];
        var folder := ModelTypeFolder(lang, dataVersion, dictionaryVersion, modelVersion, paramName, paramVersion);
        (folder.Err? ==> o == Fail(folder.error) &&
                         advisor.store.files == saved && advisor.store.dirs == old(advisor.store.dirs)) &&
        (folder.Ok? ==> o == Pass &&
                        advisor.store.dirs == EnsuredDirs(old(advisor.store.dirs), saved, folder.value) &&
                        advisor.store.files == Reports(saved, folder.value, Metrics(family, Fitted(), texts),
                                                       GetModelParameters()))
    {
      var m := Fit(family, essentials.corpus.value, essentials.dictionary.value, numberOfTopics);
      advisor.store.Write(modelFilePath, ModelFile(m));
      model := Some(m);
      var metrics := Metrics(family, m, texts);
      var parameters := GetModelParameters();
      o := WriteModelEvaluationMetrics(lang, dataVersion, dictionaryVersion, modelVersion, paramName, paramVersion,
                                       metrics, parameters);
    }

    /** `get_model`: nothing is touched when a model is held; otherwise the model
        file is loaded when it exists and trained by `set_model` when it does not.
        With `modelView` the model goes to the visualization. */
    method GetModel(lang: string, dataVersion: string, dictionaryVersion: string, modelVersion: string,
                    paramName: string, paramVersion: string, texts: seq<seq<string>>, modelView: bool)
      returns (r: Result<Model>)
      requires Ready()
      modifies this, advisor.store
      ensures modelType == old(modelType) && topicVersionPath == old(topicVersionPath)
      ensures views == old(views) + (if modelView && r.Ok? then [(modelType, r.value)] else [])
      ensures old(model).Some? ==>
        r == Ok(old(model).value) && model == old(model) &&
        advisor.store.files == old(advisor.store.files) && advisor.store.dirs == old(advisor.store.dirs)
      ensures old(model).None? ==>
        var step := Training(old(advisor.store.dirs), old(advisor.store.files),
                             ModelTypeFolder(lang, dataVersion, dictionaryVersion, modelVersion, paramName, paramVersion),
                             family, Fitted(), texts, GetModelParameters());
        r == step.value && model == OptionOf(step.value) &&
        advisor.store.dirs == step.dirs && advisor.store.files == step.files
    {
      if model.None? {
        var p := advisor.ModelTypeFoldersFilePath(lang, dataVersion, dictionaryVersion, modelVersion,
                                                  paramName, paramVersion, modelType, ModelFileNameOf(family));
        if p.Err? {
          return Err(p.error);
        }
        if advisor.store.Has(p.value) {
          var loaded := Loaded(advisor.store.files, p.value, ModelIn);
          if loaded.Err? {
            return Err(loaded.error);
          }
          model := Some(loaded.value);
        } else {
          ghost var folder := ModelTypeFolder(lang, dataVersion, dictionaryVersion, modelVersion, paramName, paramVersion).value;
          ghost var dirs1 := advisor.store.dirs;
          var o := SetModel(lang, dataVersion, dictionaryVersion, modelVersion, paramName, paramVersion, p.value, texts);
          EnsuredDirsSpec(old(advisor.store.dirs), old(advisor.store.files), folder);
          assert EnsuredDirs(dirs1, old(advisor.store.files)[p.value := ModelFile(Fitted())], folder) == dirs1;
          if o.Fail? {
            return Err(o.error);
          }
        }
      }
      r := Ok(model.value);
      if modelView {
        views := views + [(modelType, model.value)];
      }
    }
  }

  /** The constructor of a family class: the shared artifacts from the
      process-wide `TopicModelEssential.init`, then the rest of the construction.
      A constructed instance holds its arguments, its family's model type, the
      param-version folder and the model `get_model` settled on, and its artifacts
      are the ones the holder keeps. Once the holder has an instance, every model
      gets that instance, whatever its language and versions, and the store ends
      as the model step `Constructed` leaves it; on the first call the holder's
      construction runs first, its error is raised as is, and otherwise the model
      step runs on the store it leaves with the artifacts it built or loaded. */
  method NewTopicModel(family: Family, registry: Registry, lang: string, numberOfTopics: Arg,
                       dataVersion: Arg, dictionaryVersion: Arg, modelVersion: Arg,
                       paramName: string, paramVersion: Arg, texts: seq<seq<string>>,
                       noBelow: Arg, noAbove: Arg, nMostFrequent: Arg, modelView: bool)
    returns (r: Result<TopicModel>)
    requires registry.Valid()
    modifies registry, registry.advisor.store
    ensures registry.Valid()
    ensures r.Ok? ==> registry.instance == Some(r.value.essentials)
    ensures old(registry.instance).Some? ==> registry.instance == old(registry.instance)
    ensures r.Ok? ==>
      fresh(r.value) && r.value.model.Some? && r.value.Ready() &&
      r.value.views == (if modelView then [(ModelTypeOf(family), r.value.model.value)] else []) &&
      r.value.Holds(family, registry.advisor, r.value.essentials, numberOfTopics, noBelow, noAbove, nMostFrequent,
                    old(registry.advisor.ParamVersionFolderPath(lang, Show(dataVersion), Show(dictionaryVersion),
                                                                Show(modelVersion), paramName, Show(paramVersion))))
    ensures var topicVersion := old(registry.advisor.ParamVersionFolderPath(lang, Show(dataVersion),
                                      Show(dictionaryVersion), Show(modelVersion), paramName, Show(paramVersion)));
      var (c, dirs, files) := old(Construction(registry.advisor.store.dirs, registry.advisor.store.files,
                                        registry.advisor.DictionaryVersionFolderPath(lang, Show(dataVersion),
                                                                                     Show(dictionaryVersion)),
                                        texts, noBelow, noAbove, nMostFrequent));
      (old(registry.instance).Some? ==>
         EndsAs(registry.advisor.store.dirs, registry.advisor.store.files,
                if r.Ok? then Ok(r.value.model) else Err(r.error),
                Constructed(family, topicVersion, old(registry.instance.value.dictionary.value),
                            old(registry.instance.value.corpus.value), old(registry.advisor.store.dirs),
                            old(registry.advisor.store.files), numberOfTopics, texts, noBelow, noAbove, nMostFrequent))) &&
      (old(registry.instance).None? && c.Err? ==>
         r == Err(c.error) && registry.advisor.store.dirs == dirs && registry.advisor.store.files == files) &&
      (old(registry.instance).None? && c.Ok? ==>
         EndsAs(registry.advisor.store.dirs, registry.advisor.store.files,
                if r.Ok? then Ok(r.value.model) else Err(r.error),
                Constructed(family, topicVersion, c.value.0, c.value.1, dirs, files,
                            numberOfTopics, texts, noBelow, noAbove, nMostFrequent)))
  {
    ghost var topicVersion := registry.advisor.ParamVersionFolderPath(lang, Show(dataVersion), Show(dictionaryVersion),
                                                                      Show(modelVersion), paramName, Show(paramVersion));
    if registry.instance.Some? {
      r := LaterTopicModel(family, registry, lang, numberOfTopics, dataVersion, dictionaryVersion, modelVersion,
                           paramName, paramVersion, texts, noBelow, noAbove, nMostFrequent, modelView, topicVersion);
    } else {
      r := FirstTopicModel(family, registry, lang, numberOfTopics, dataVersion, dictionaryVersion, modelVersion,
                           paramName, paramVersion, texts, noBelow, noAbove, nMostFrequent, modelView, topicVersion);
    }
  }

  /** A family constructor once the holder has an instance: `init` hands it
      back and touches no file, and the model step runs on the store as it is.
      `topicVersion` is the param-version folder the advisor resolves. */
  method LaterTopicModel(family: Family, registry: Registry, lang: string, numberOfTopics: Arg,
                         dataVersion: Arg, dictionaryVersion: Arg, modelVersion: Arg,
                         paramName: string, paramVersion: Arg, texts: seq<seq<string>>,
                         noBelow: Arg, noAbove: Arg, nMostFrequent: Arg, modelView: bool,
                         ghost topicVersion: Result<string>)
    returns (r: Result<TopicModel>)
    requires registry.Valid() && registry.instance.Some?
    requires topicVersion == registry.advisor.ParamVersionFolderPath(lang, Show(dataVersion), Show(dictionaryVersion),
                                                                     Show(modelVersion), paramName, Show(paramVersion))
    modifies registry, registry.advisor.store
    ensures registry.Valid() && registry.instance == old(registry.instance)
    ensures r.Ok? ==>
      fresh(r.value) && r.value.model.Some? && registry.instance == Some(r.value.essentials) &&
      r.value.views == (if modelView then [(ModelTypeOf(family), r.value.model.value)] else []) &&
      r.value.Holds(family, registry.advisor, r.value.essentials, numberOfTopics, noBelow, noAbove, nMostFrequent,
                    topicVersion)
    ensures EndsAs(registry.advisor.store.dirs, registry.advisor.store.files,
                   if r.Ok? then Ok(r.value.model) else Err(r.error),
                   Constructed(family, topicVersion, old(registry.instance.value.dictionary.value),
                               old(registry.instance.value.corpus.value), old(registry.advisor.store.dirs),
                               old(registry.advisor.store.files), numberOfTopics, texts, noBelow, noAbove, nMostFrequent))
  {
    var held := registry.Init(lang, Show(dataVersion), Show(dictionaryVersion), texts, noBelow, noAbove, nMostFrequent);
    r := Assemble(family, registry.advisor, held.value, lang, numberOfTopics, dataVersion, dictionaryVersion,
                  modelVersion, paramName, paramVersion, texts, noBelow, noAbove, nMostFrequent, modelView,
                  topicVersion);
  }

  /** The first family constructor of a run: `init` constructs the holder's
      instance in the dict-version folder and keeps it only when that succeeds,
      and the model step runs on the store the construction leaves.
      `topicVersion` is the param-version folder the advisor resolves. */
  method FirstTopicModel(family: Family, registry: Registry, lang: string, numberOfTopics: Arg,
                         dataVersion: Arg, dictionaryVersion: Arg, modelVersion: Arg,
                         paramName: string, paramVersion: Arg, texts: seq<seq<string>>,
                         noBelow: Arg, noAbove: Arg, nMostFrequent: Arg, modelView: bool,
                         ghost topicVersion: Result<string>)
    returns (r: Result<TopicModel>)
    requires registry.Valid() && registry.instance.None?
    requires topicVersion == registry.advisor.ParamVersionFolderPath(lang, Show(dataVersion), Show(dictionaryVersion),
                                                                     Show(modelVersion), paramName, Show(paramVersion))
    modifies registry, registry.advisor.store
    ensures registry.Valid()
    ensures r.Ok? ==>
      fresh(r.value) && r.value.model.Some? && registry.instance == Some(r.value.essentials) &&
      r.value.views == (if modelView then [(ModelTypeOf(family), r.value.model.value)] else []) &&
      r.value.Holds(family, registry.advisor, r.value.essentials, numberOfTopics, noBelow, noAbove, nMostFrequent,
                    topicVersion)
    ensures var (c, dirs, files) := old(Construction(registry.advisor.store.dirs, registry.advisor.store.files,
                                        registry.advisor.DictionaryVersionFolderPath(lang, Show(dataVersion),
                                                                                     Show(dictionaryVersion)),
                                        texts, noBelow, noAbove, nMostFrequent));
      (c.Err? ==> r == Err(c.error) && registry.advisor.store.dirs == dirs && registry.advisor.store.files == files) &&
      (c.Ok? ==> EndsAs(registry.advisor.store.dirs, registry.advisor.store.files,
                        if r.Ok? then Ok(r.value.model) else Err(r.error),
                        Constructed(family, topicVersion, c.value.0, c.value.1, dirs, files,
                                    numberOfTopics, texts, noBelow, noAbove, nMostFrequent)))
  {
    var held := registry.Init(lang, Show(dataVersion), Show(dictionaryVersion), texts, noBelow, noAbove, nMostFrequent);
    if held.Err? {
      return Err(held.error);
    }
    r := Assemble(family, registry.advisor, held.value, lang, numberOfTopics, dataVersion, dictionaryVersion,
                  modelVersion, paramName, paramVersion, texts, noBelow, noAbove, nMostFrequent, modelView,
                  topicVersion);
  }

  /** The constructor after `TopicModelEssential.init`: the instance
      `Prepared` sets up, then `get_model`. `topicVersion` is the
      param-version folder the advisor resolves. */
  method Assemble(family: Family, advisor: Advisor, essentials: Essentials, lang: string, numberOfTopics: Arg,
                  dataVersion: Arg, dictionaryVersion: Arg, modelVersion: Arg,
                  paramName: string, paramVersion: Arg, texts: seq<seq<string>>,
                  noBelow: Arg, noAbove: Arg, nMostFrequent: Arg, modelView: bool, ghost topicVersion: Result<string>)
    returns (r: Result<TopicModel>)
    requires essentials.dictionary.Some? && essentials.corpus.Some?
    requires topicVersion == advisor.ParamVersionFolderPath(lang, Show(dataVersion), Show(dictionaryVersion),
                                                            Show(modelVersion), paramName, Show(paramVersion))
    modifies advisor.store
    ensures r.Ok? ==>
      fresh(r.value) && r.value.model.Some? &&
      r.value.views == (if modelView then [(ModelTypeOf(family), r.value.model.value)] else []) &&
      r.value.Holds(family, advisor, essentials, numberOfTopics, noBelow, noAbove, nMostFrequent, topicVersion)
    ensures EndsAs(advisor.store.dirs, advisor.store.files, if r.Ok? then Ok(r.value.model) else Err(r.error),
                   Constructed(family, topicVersion, old(essentials.dictionary.value), old(essentials.corpus.value),
                               old(advisor.store.dirs), old(advisor.store.files), numberOfTopics, texts,
                               noBelow, noAbove, nMostFrequent))
  {
    var m :- Prepared(family, advisor, essentials, lang, numberOfTopics, dataVersion, dictionaryVersion,
                      modelVersion, paramName, paramVersion, noBelow, noAbove, nMostFrequent);
    var got :- m.GetModel(lang, Show(dataVersion), Show(dictionaryVersion), Show(modelVersion),
                          paramName, Show(paramVersion), texts, modelView);
    return Ok(m);
  }

  /** The constructor up to `get_model`: the fields, `set_model_type`, and the
      visualization's param-version folder, which needs the root and creates
      no folder. */
  method Prepared(family: Family, advisor: Advisor, essentials: Essentials, lang: string, numberOfTopics: Arg,
                  dataVersion: Arg, dictionaryVersion: Arg, modelVersion: Arg, paramName: string, paramVersion: Arg,
                  noBelow: Arg, noAbove: Arg, nMostFrequent: Arg)
    returns (r: Result<TopicModel>)
    ensures var topicVersion := advisor.ParamVersionFolderPath(lang, Show(dataVersion), Show(dictionaryVersion),
                                                               Show(modelVersion), paramName, Show(paramVersion));
      (topicVersion.Err? ==> r == Err(topicVersion.error)) &&
      (topicVersion.Ok? ==> r.Ok? && fresh(r.value) && r.value.topicVersionPath == topicVersion.value)
    ensures r.Ok? ==>
      r.value.Holds(family, advisor, essentials, numberOfTopics, noBelow, noAbove, nMostFrequent,
                    advisor.ParamVersionFolderPath(lang, Show(dataVersion), Show(dictionaryVersion),
                                                   Show(modelVersion), paramName, Show(paramVersion))) &&
      r.value.model == None && r.value.views == []
  {
    var m := new TopicModel(family, advisor, essentials, numberOfTopics, noBelow, noAbove, nMostFrequent);
    m.SetModelType();
    var topicVersion := advisor.ParamVersionFolderPath(lang, Show(dataVersion), Show(dictionaryVersion),
                                                       Show(modelVersion), paramName, Show(paramVersion));
    if topicVersion.Err? {
      return Err(topicVersion.error);
    }
    m.topicVersionPath := topicVersion.value;
    return Ok(m);
  }
}
