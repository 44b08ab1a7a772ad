/** The artifacts every topic model of a language shares: the gensim dictionary
    and the bag-of-words corpus. Both live in the dict-version folder; each is
    loaded when its file exists and otherwise built from the processed documents
    and saved there. One instance serves the whole process. */
module TopicModelEssential {
  import opened Basics
  import opened Artifacts
  import opened FileStore
  import opened Advisor

  const DictionaryName := "dictionary"
  const DictionaryExtension := "dict"
  const CorpusName := "corpus"
  const CorpusExtension := "mm"

  /** `set_dictionary`'s build: the dictionary of the documents, then
      `filter_n_most_frequent`, then `filter_extremes`. */
  function BuiltDictionary(docs: seq<seq<string>>, noBelow: Arg, noAbove: Arg, nMostFrequent: Arg): (d: Dictionary)
    ensures d.ExtremesFiltered? && d.noBelow == noBelow && d.noAbove == noAbove
    ensures d.source == MostFrequentFiltered(FromDocuments(docs), nMostFrequent)
  {
    ExtremesFiltered(MostFrequentFiltered(FromDocuments(docs), nMostFrequent), noBelow, noAbove)
  }

  /** `set_corpus`'s comprehension: one bag of words per document. */
  function BuiltCorpus(dictionary: Dictionary, docs: seq<seq<string>>): (c: seq<BagOfWords>)
    ensures |c| == |docs|
    ensures forall i :: 0 <= i < |docs| ==> c[i] == Doc2Bow(dictionary, docs[i])
  {
    if docs == [] then [] else [Doc2Bow(dictionary, docs[0])] + BuiltCorpus(dictionary, docs[1..])
  }

  /** `Dictionary.load` */
  function DictionaryIn(c: Content): Option<Dictionary> {
    if c.DictionaryFile? then Some(c.dictionary) else None
  }

  function SaveDictionary(d: Dictionary): Content { DictionaryFile(d) }

  /** `list(MmCorpus(path))` */
  function CorpusIn(c: Content): Option<seq<BagOfWords>> {
    if c.CorpusFile? then Some(c.corpus) else None
  }

  function SaveCorpus(c: seq<BagOfWords>): Content { CorpusFile(c) }

  /** What is saved can be read back. */
  lemma {:induction false} SavedArtifactsLoad()
    ensures forall d :: DictionaryIn(SaveDictionary(d)) == Some(d)
    ensures forall c :: CorpusIn(SaveCorpus(c)) == Some(c)
  {
  }

  /** `get_dictionary` for an instance without a dictionary. */
  function DictionaryStep(dirs: set<string>, files: map<string, Content>, folder: Result<string>,
                          docs: seq<seq<string>>, noBelow: Arg, noAbove: Arg, nMostFrequent: Arg): Cached<Dictionary>
  {
    Resolve(dirs, files, folder, FileName(DictionaryName, DictionaryExtension),
            Ok(BuiltDictionary(docs, noBelow, noAbove, nMostFrequent)), DictionaryIn, SaveDictionary)
  }

  /** `get_corpus` for an instance without a corpus; building needs a dictionary
      (`None.doc2bow` raises). */
  function CorpusStep(dirs: set<string>, files: map<string, Content>, folder: Result<string>,
                      dictionary: Option<Dictionary>, docs: seq<seq<string>>): Cached<seq<BagOfWords>>
  {
    var built := if dictionary.Some? then Ok(BuiltCorpus(dictionary.value, docs)) else Err(AttributeError("doc2bow"));
    Resolve(dirs, files, folder, FileName(CorpusName, CorpusExtension), built, CorpusIn, SaveCorpus)
  }

  /** The constructor: the dictionary first, then the corpus from that dictionary,
      both in the same folder. The result holds the two artifacts, or the error that
      aborted the construction, and the store afterwards. */
  function Construction(dirs: set<string>, files: map<string, Content>, folder: Result<string>,
                        docs: seq<seq<string>>, noBelow: Arg, noAbove: Arg, nMostFrequent: Arg)
    : (Result<(Dictionary, seq<BagOfWords>)>, set<string>, map<string, Content>)
  {
    var d := DictionaryStep(dirs, files, folder, docs, noBelow, noAbove, nMostFrequent);
    if d.value.Err? then (Err(d.value.error), d.dirs, d.files)
    else
      var c := CorpusStep(d.dirs, d.files, folder, Some(d.value.value), docs);
      if c.value.Err? then (Err(c.value.error), c.dirs, c.files)
      else (Ok((d.value.value, c.value.value)), c.dirs, c.files)
  }

  /** On a fresh store the construction builds both artifacts, the corpus from the
      dictionary just built, and saves exactly the two files `dictionary.dict` and
      `corpus.mm` of the dict-version folder. */
  lemma {:induction false} ConstructionFromScratch(dirs: set<string>, files: map<string, Content>, folder: string,
                                docs: seq<seq<string>>, noBelow: Arg, noAbove: Arg, nMostFrequent: Arg)
    requires forall p :: p in dirs || p in files ==> !StartsWith(p, folder)
    ensures var d := BuiltDictionary(docs, noBelow, noAbove, nMostFrequent);
      var (r, dirs', files') := Construction(dirs, files, Ok(folder), docs, noBelow, noAbove, nMostFrequent);
      r == Ok((d, BuiltCorpus(d, docs))) &&
      files' == files[folder + "dictionary.dict" := DictionaryFile(d)][folder + "corpus.mm" := CorpusFile(BuiltCorpus(d, docs))]
  {
    var dn, cn := FileName(DictionaryName, DictionaryExtension), FileName(CorpusName, CorpusExtension);
    assert dn == "dictionary.dict" && cn == "corpus.mm";
    var dp, cp := folder + dn, folder + cn;
    var dirs1 := EnsuredDirs(dirs, files, folder);
    FreshFolder(dirs, files, folder);
    var d := BuiltDictionary(docs, noBelow, noAbove, nMostFrequent);
    ResolveAbsent(dirs, files, folder, dn, d, DictionaryIn, SaveDictionary);
    var files1 := files[dp := DictionaryFile(d)];
    EnsuredDirsSpec(dirs, files, folder);
    assert EnsuredDirs(dirs1, files1, folder) == dirs1;
    ResolveAbsent(dirs1, files1, folder, cn, BuiltCorpus(d, docs), CorpusIn, SaveCorpus);
  }

  /** In a folder nothing starts with, neither artifact path exists, even after
      the folder is created, and the two paths differ. */
  lemma {:induction false} FreshFolder(dirs: set<string>, files: map<string, Content>, folder: string)
    requires forall p :: p in dirs || p in files ==> !StartsWith(p, folder)
    ensures var dirs1 := EnsuredDirs(dirs, files, folder);
      var dp, cp := folder + "dictionary.dict", folder + "corpus.mm";
      dp !in dirs1 && cp !in dirs1 && dp !in files && cp !in files && dp != cp
  {
    var dp, cp := folder + "dictionary.dict", folder + "corpus.mm";
    assert StartsWith(dp, folder) && StartsWith(cp, folder);
    assert StartsWith(folder, folder);
    var dirs1 := EnsuredDirs(dirs, files, folder);
    assert dirs1 == dirs + FolderPrefixes(folder) + {folder};
    forall q | q in FolderPrefixes(folder) ensures |q| < |dp| && |q| < |cp| {
      assert q <= folder;
    }
    assert dp[|folder|] != cp[|folder|];
  }

  /** When both files are already stored and readable the construction builds
      nothing and writes nothing, whatever documents and thresholds it is given. */
  lemma {:induction false} ConstructionLoads(dirs: set<string>, files: map<string, Content>, folder: string,
                          docs: seq<seq<string>>, noBelow: Arg, noAbove: Arg, nMostFrequent: Arg,
                          d: Dictionary, c: seq<BagOfWords>)
    requires folder + "dictionary.dict" in files && files[folder + "dictionary.dict"] == DictionaryFile(d)
    requires folder + "corpus.mm" in files && files[folder + "corpus.mm"] == CorpusFile(c)
    ensures Construction(dirs, files, Ok(folder), docs, noBelow, noAbove, nMostFrequent)
         == (Ok((d, c)), EnsuredDirs(dirs, files, folder), files)
  {
    assert FileName(DictionaryName, DictionaryExtension) == "dictionary.dict";
    assert FileName(CorpusName, CorpusExtension) == "corpus.mm";
  }

  class Essentials {
    var dictionary: Option<Dictionary>
    var corpus: Option<seq<BagOfWords>>
    const advisor: Advisor

    constructor (advisor: Advisor)
      ensures dictionary == None && corpus == None && this.advisor == advisor
    {
      dictionary := None;
      corpus := None;
      this.advisor := advisor;
    }

    /** `set_dictionary`: build, save at `p`, keep. */
    method SetDictionary(docs: seq<seq<string>>, noBelow: Arg, noAbove: Arg, nMostFrequent: Arg, p: string)
      modifies this, advisor.store
      ensures dictionary == Some(BuiltDictionary(docs, noBelow, noAbove, nMostFrequent)) && corpus == old(corpus)
      ensures advisor.store.files == old(advisor.store.files)[p := DictionaryFile(dictionary.value)]
      ensures advisor.store.dirs == old(advisor.store.dirs)
    {
      var dic := BuiltDictionary(docs, noBelow, noAbove, nMostFrequent);
      advisor.store.Write(p, DictionaryFile(dic));
      dictionary := Some(dic);
    }

    /** `get_dictionary` */
    method GetDictionary(lang: string, dataVersion: string, dictionaryVersion: string,
                         noAbove: Arg, noBelow: Arg, nMostFrequent: Arg, docs: seq<seq<string>>)
      returns (o: Outcome)
      modifies this, advisor.store
      ensures corpus == old(corpus)
      ensures old(dictionary).Some? ==>
        dictionary == old(dictionary) && o == Pass &&
        advisor.store.files == old(advisor.store.files) && advisor.store.dirs == old(advisor.store.dirs)
      ensures old(dictionary).None? ==>
        var step := DictionaryStep(old(advisor.store.dirs), old(advisor.store.files),
                                   advisor.DictionaryVersionFolderPath(lang, dataVersion, dictionaryVersion),
                                   docs, noBelow, noAbove, nMostFrequent);
        dictionary == OptionOf(step.value) && o == OutcomeOf(step.value) &&
        advisor.store.dirs == step.dirs && advisor.store.files == step.files
    {
      if dictionary.Some? {
        return Pass;
      }
      var p := advisor.DictionaryVersionFolderFilePath(lang, dataVersion, dictionaryVersion,
                                                       DictionaryName, DictionaryExtension);
      if p.Err? {
        return Fail(p.error);
      }
      if advisor.store.Has(p.value) {
        var loaded := Loaded(advisor.store.files, p.value, DictionaryIn);
        if loaded.Err? {
          return Fail(loaded.error);
        }
        dictionary := Some(loaded.value);
      } else {
        SetDictionary(docs, noBelow, noAbove, nMostFrequent, p.value);
      }
      return Pass;
    }

    /** `set_corpus`: one bag of words per document, saved at `p`, kept. */
    method SetCorpus(docs: seq<seq<string>>, p: string) returns (o: Outcome)
      modifies this, advisor.store
      ensures dictionary == old(dictionary)
      ensures old(dictionary).None? ==>
        o == Fail(AttributeError("doc2bow")) && corpus == old(corpus) &&
        advisor.store.files == old(advisor.store.files)
      ensures old(dictionary).Some? ==>
        o == Pass && corpus == Some(BuiltCorpus(dictionary.value, docs)) &&
        advisor.store.files == old(advisor.store.files)[p := CorpusFile(corpus.value)]
      ensures advisor.store.dirs == old(advisor.store.dirs)
    {
      if dictionary.None? {
        return Fail(AttributeError("doc2bow"));
      }
      var bows := BagsOfWords(dictionary.value, docs);
      advisor.store.Write(p, CorpusFile(bows));
      corpus := Some(bows);
      return Pass;
    }

    /** `get_corpus` */
    method GetCorpus(lang: string, dataVersion: string, dictionaryVersion: string, docs: seq<seq<string>>)
      returns (o: Outcome)
      modifies this, advisor.store
      ensures dictionary == old(dictionary)
      ensures old(corpus).Some? ==>
        corpus == old(corpus) && o == Pass &&
        advisor.store.files == old(advisor.store.files) && advisor.store.dirs == old(advisor.store.dirs)
      ensures old(corpus).None? ==>
        var step := CorpusStep(old(advisor.store.dirs), old(advisor.store.files),
                               advisor.DictionaryVersionFolderPath(lang, dataVersion, dictionaryVersion),
                               dictionary, docs);
        corpus == OptionOf(step.value) && o == OutcomeOf(step.value) &&
        advisor.store.dirs == step.dirs && advisor.store.files == step.files
    {
      if corpus.Some? {
        return Pass;
      }
      var p := advisor.DictionaryVersionFolderFilePath(lang, dataVersion, dictionaryVersion,
                                                       CorpusName, CorpusExtension);
      if p.Err? {
        return Fail(p.error);
      }
      if advisor.store.Has(p.value) {
        var loaded := Loaded(advisor.store.files, p.value, CorpusIn);
        if loaded.Err? {
          return Fail(loaded.error);
        }
        corpus := Some(loaded.value);
        return Pass;
      }
      o := SetCorpus(docs, p.value);
    }

    /** The body of `__init__`: both fields start empty, then the dictionary and the
        corpus are resolved in that order. */
    method Construct(lang: string, dataVersion: string, dictionaryVersion: string, docs: seq<seq<string>>,
                     noBelow: Arg, noAbove: Arg, nMostFrequent: Arg)
      returns (o: Outcome)
      modifies this, advisor.store
      ensures var (r, dirs, files) := Construction(old(advisor.store.dirs), old(advisor.store.files),
                                                   advisor.DictionaryVersionFolderPath(lang, dataVersion, dictionaryVersion),
                                                   docs, noBelow, noAbove, nMostFrequent);
        o == OutcomeOf(r) && advisor.store.dirs == dirs && advisor.store.files == files &&
        (r.Ok? ==> dictionary == Some(r.value.0) && corpus == Some(r.value.1))
    {
      dictionary := None;
      corpus := None;
      o := GetDictionary(lang, dataVersion, dictionaryVersion, noAbove, noBelow, nMostFrequent, docs);
      if o.Fail? {
        return;
      }
      o := GetCorpus(lang, dataVersion, dictionaryVersion, docs);
    }
  }

  /** The comprehension of `set_corpus`, document by document. */
  method BagsOfWords(dictionary: Dictionary, docs: seq<seq<string>>) returns (bows: seq<BagOfWords>)
    ensures bows == BuiltCorpus(dictionary, docs)
  {
    bows := [];
    for i := 0 to |docs|
      invariant bows == BuiltCorpus(dictionary, docs[..i])
    {
      CorpusSnoc(dictionary, docs[..i], docs[i]);
      assert docs[..i + 1] == docs[..i] + [docs[i]];
      bows := bows + [Doc2Bow(dictionary, docs[i])];
    }
    assert docs[..|docs|] == docs;
  }

  lemma {:induction false} CorpusSnoc(dictionary: Dictionary, docs: seq<seq<string>>, doc: seq<string>)
    ensures BuiltCorpus(dictionary, docs + [doc]) == BuiltCorpus(dictionary, docs) + [Doc2Bow(dictionary, doc)]
  {
    var b := BuiltCorpus(dictionary, docs + [doc]);
    assert |b| == |docs| + 1;
    assert forall i :: 0 <= i < |docs| ==> b[i] == Doc2Bow(dictionary, docs[i]);
  }

  /** The class attribute `topic_model_essential`: the one instance of the process. */
  class Registry {
    var instance: Option<Essentials>
    const advisor: Advisor

    constructor (advisor: Advisor)
      ensures instance == None && this.advisor == advisor
      ensures Valid()
    {
      instance := None;
      this.advisor := advisor;
    }

    /** The instance, once there, resolves through this registry's advisor and
        holds both artifacts. */
    ghost predicate Valid()
      reads this, if instance.Some? then {instance.value} else {}
    {
      instance.Some? ==>
        instance.value.advisor == advisor && instance.value.dictionary.Some? && instance.value.corpus.Some?
    }

    /** `TopicModelEssential.init`: the instance is constructed on the first call
        only; every later call returns it, whatever its arguments, and touches no
        file. A construction that raises leaves no instance behind. */
    method Init(lang: string, dataVersion: string, dictionaryVersion: string, docs: seq<seq<string>>,
                noBelow: Arg, noAbove: Arg, nMostFrequent: Arg)
      returns (r: Result<Essentials>)
      requires Valid()
      modifies this, advisor.store
      ensures Valid()
      ensures r.Ok? ==> r.value.advisor == advisor && r.value.dictionary.Some? && r.value.corpus.Some?
      ensures r.Ok? ==> instance == Some(r.value)
      ensures old(instance).Some? ==>
        r == Ok(old(instance).value) && instance == old(instance) &&
        advisor.store.files == old(advisor.store.files) && advisor.store.dirs == old(advisor.store.dirs)
      ensures old(instance).None? ==>
        var (c, dirs, files) := old(Construction(advisor.store.dirs, advisor.store.files,
                                                 advisor.DictionaryVersionFolderPath(lang, dataVersion, dictionaryVersion),
                                                 docs, noBelow, noAbove, nMostFrequent));
        advisor.store.dirs == dirs && advisor.store.files == files &&
        (c.Err? ==> r == Err(c.error) && instance == None) &&
        (c.Ok? ==> r.Ok? && instance == Some(r.value) && fresh(r.value) && r.value.advisor == advisor &&
                   r.value.dictionary == Some(c.value.0) && r.value.corpus == Some(c.value.1))
    {
      if instance.Some? {
        return Ok(instance.value);
      }
      var e := new Essentials(advisor);
      var o := e.Construct(lang, dataVersion, dictionaryVersion, docs, noBelow, noAbove, nMostFrequent);
      if o.Fail? {
        return Err(o.error);
      }
      instance := Some(e);
      return Ok(e);
    }
  }
  /** A run over the languages `en` and then `de` on one registry: the second
      call hands back the instance built for the first, whose artifacts were
      resolved in the `en` dict-version folder from the `en` documents. */
  method SecondLanguageReusesFirst(registry: Registry, enDocs: seq<seq<string>>, deDocs: seq<seq<string>>,
                                   noBelow: Arg, noAbove: Arg, nMostFrequent: Arg)
    returns (en: Result<Essentials>, de: Result<Essentials>)
    requires registry.instance.None?
    modifies registry, registry.advisor.store
    ensures en.Ok? ==> de == en
    ensures en.Ok? ==>
      var (c, _, _) := Construction(old(registry.advisor.store.dirs), old(registry.advisor.store.files),
                                    registry.advisor.DictionaryVersionFolderPath("en", "1", "1"),
                                    enDocs, noBelow, noAbove, nMostFrequent);
      c.Ok? && de.value.dictionary == Some(c.value.0)
  {
    en := registry.Init("en", "1", "1", enDocs, noBelow, noAbove, nMostFrequent);
    de := registry.Init("de", "1", "1", deDocs, noBelow, noAbove, nMostFrequent);
  }

  /** The registry keyed by language, data version and dictionary version: each
      key gets the instance constructed for it, on its first request. */
  class KeyedRegistry {
    var instances: map<(string, string, string), Essentials>
    const advisor: Advisor

    constructor (advisor: Advisor)
      ensures instances == map[] && this.advisor == advisor
      ensures Valid()
    {
      instances := map[];
      this.advisor := advisor;
    }

    /** Every registered instance resolves through this registry's advisor and
        holds both artifacts. */
    ghost predicate Valid()
      reads this, instances.Values
    {
      forall k :: k in instances ==>
        instances[k].advisor == advisor && instances[k].dictionary.Some? && instances[k].corpus.Some?
    }

    /** The instance for `(lang, dataVersion, dictionaryVersion)`: the registered
        one, untouched, or else a new one constructed from these arguments and
        registered under its key alone. */
    method Init(lang: string, dataVersion: string, dictionaryVersion: string, docs: seq<seq<string>>,
                noBelow: Arg, noAbove: Arg, nMostFrequent: Arg)
      returns (r: Result<Essentials>)
      requires Valid()
      modifies this, advisor.store
      ensures Valid()
      ensures r.Ok? ==> r.value.advisor == advisor && r.value.dictionary.Some? && r.value.corpus.Some?
      ensures (lang, dataVersion, dictionaryVersion) in old(instances) ==>
        r == Ok(old(instances)[(lang, dataVersion, dictionaryVersion)]) && instances == old(instances) &&
        advisor.store.files == old(advisor.store.files) && advisor.store.dirs == old(advisor.store.dirs)
      ensures (lang, dataVersion, dictionaryVersion) !in old(instances) ==>
        var (c, dirs, files) := Construction(old(advisor.store.dirs), old(advisor.store.files),
                                             advisor.DictionaryVersionFolderPath(lang, dataVersion, dictionaryVersion),
                                             docs, noBelow, noAbove, nMostFrequent);
        advisor.store.dirs == dirs && advisor.store.files == files &&
        (c.Err? ==> r == Err(c.error) && instances == old(instances)) &&
        (c.Ok? ==> r.Ok? && fresh(r.value) &&
                   instances == old(instances)[(lang, dataVersion, dictionaryVersion) := r.value] &&
                   r.value.dictionary == Some(c.value.0) && r.value.corpus == Some(c.value.1))
    {
      var key := (lang, dataVersion, dictionaryVersion);
      if key in instances {
        return Ok(instances[key]);
      }
      var e := new Essentials(advisor);
      var o := e.Construct(lang, dataVersion, dictionaryVersion, docs, noBelow, noAbove, nMostFrequent);
      if o.Fail? {
        return Err(o.error);
      }
      instances := instances[key := e];
      return Ok(e);
    }
  }
}
