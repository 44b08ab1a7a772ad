/** Turning the raw pages of each language into lists of lemmas, and caching the
    result under the data version folders. One preprocessor per supported language
    is kept in a class-level registry while a run processes its raw data; spaCy is
    a foreign call, passed in as `Nlp`. */
module TextPreprocessor {
  import opened Basics
  import opened Artifacts
  import opened OrderedMap
  import opened FileStore
  import opened Advisor
  import DataProvider

  /** `spacy.load(modelName)(document)`: the tokens of a document. */
  type Nlp = (string, string) -> seq<Token>

  /** The spaCy model of each supported language. */
  const LangModels: Dict<string, string> := [
    ("en", "en_core_web_lg"), ("de", "de_core_news_md"), ("fr", "fr_core_news_md"),
    ("es", "es_core_news_md"), ("el", "el_core_news_md"), ("pt", "pt_core_news_sm"),
    ("it", "it_core_news_sm"), ("nl", "nl_core_news_sm"), ("nb", "nb_core_news_sm"),
    ("lt", "lt_core_news_sm")]

  /** The languages a preprocessor can be built for. */
  const SupportedLanguages: seq<string> := ["en", "de", "fr", "es", "el", "pt", "it", "nl", "nb", "lt"]

  /** The model table covers exactly the supported languages. */
  lemma {:induction false} LangModelsSpec()
    ensures Keys(LangModels) == SupportedLanguages
  {
    var ks := Keys(LangModels);
    assert ks[0] == "en" && ks[1] == "de" && ks[2] == "fr" && ks[3] == "es" && ks[4] == "el";
    assert ks[5] == "pt" && ks[6] == "it" && ks[7] == "nl" && ks[8] == "nb" && ks[9] == "lt";
    assert ks == [ks[0], ks[1], ks[2], ks[3], ks[4], ks[5], ks[6], ks[7], ks[8], ks[9]];
  }

  /** `__load_suitable_model`: the model name of a supported language. */
  function LoadSuitableModel(lang: string): (r: Result<string>)
    ensures r.Ok? <==> lang in SupportedLanguages
    ensures r.Err? ==> r.error == NotSupported(lang)
  {
    LangModelsSpec();
    match Get(LangModels, lang)
    case Some(model) => Ok(model)
    case None => Err(NotSupported(lang))
  }

  // ---------------------------------------------------------------------------
  // Tokens

  predicate IsVerb(token: Token) {
    token.pos == "VERB"
  }

  /** `__is_token_valid` */
  function IsTokenValid(token: Token): (b: bool)
    ensures b <==> token.isAlpha && token.pos != "VERB" &&
                   !(token.isStop || token.isSpace || token.isCurrency || token.isBracket) &&
                   !(token.likeUrl || token.likeEmail || token.likeNum)
  {
    if token.isStop || token.isSpace || token.isCurrency || token.isBracket || !token.isAlpha ||
       token.likeUrl || token.likeEmail || token.likeNum || IsVerb(token)
    then false
    else true
  }

  /** The lemmas of the valid tokens, in token order. */
  function ValidLemmas(tokens: seq<Token>): (r: seq<string>)
    ensures |r| <= |tokens|
  {
    if tokens == [] then []
    else
      var last := tokens[|tokens| - 1];
      ValidLemmas(tokens[..|tokens| - 1]) + (if IsTokenValid(last) then [last.lemmaForm] else [])
  }

  /** Filtering works token by token: it distributes over concatenation, and a
      single token contributes its lemma exactly when it is valid. */
  lemma {:induction false} ValidLemmasAppend(a: seq<Token>, b: seq<Token>)
    ensures ValidLemmas(a + b) == ValidLemmas(a) + ValidLemmas(b)
    decreases |b|
  {
    if b == [] {
      assert a + b == a;
    } else {
      var init := b[..|b| - 1];
      assert (a + b)[..|a + b| - 1] == a + init;
      ValidLemmasAppend(a, init);
    }
  }

  lemma {:induction false} ValidLemmasSingle(t: Token)
    ensures ValidLemmas([t]) == if IsTokenValid(t) then [t.lemmaForm] else []
  {
    assert [t][..0] == [];
  }

  /** The loop of `document_pre_process` over the tokens. */
  method LemmasOfValidTokens(data: seq<Token>) returns (postProcessData: seq<string>)
    ensures postProcessData == ValidLemmas(data)
  {
    postProcessData := [];
    for i := 0 to |data|
      invariant postProcessData == ValidLemmas(data[..i])
    {
      assert data[..i + 1][..i] == data[..i];
      if IsTokenValid(data[i]) {
        postProcessData := postProcessData + [data[i].lemmaForm];
      }
    }
    assert data[..|data|] == data;
  }

  /** A document before and after preprocessing: the list is overwritten in
      place, each raw text by its lemmas. */
  datatype Document = Raw(text: string) | Lemmas(words: seq<string>)

  /** What preprocessing turns the texts of one language into. */
  function ProcessDocs(model: string, texts: seq<string>, nlp: Nlp): (r: seq<seq<string>>)
    ensures |r| == |texts|
    ensures forall i :: 0 <= i < |texts| ==> r[i] == ValidLemmas(nlp(model, texts[i]))
  {
    seq(|texts|, i requires 0 <= i < |texts| => ValidLemmas(nlp(model, texts[i])))
  }

  /** The preprocessor of one language. */
  class Preprocessor {
    const lang: string
    /** The spaCy model loaded for the language, by name. */
    const model: string

    /** `__init__`, reached only through `init_replacement`, which has checked the
        language. */
    constructor (lang: string)
      requires LoadSuitableModel(lang).Ok?
      ensures this.lang == lang && this.model == LoadSuitableModel(lang).value
    {
      this.lang := lang;
      this.model := LoadSuitableModel(lang).value;
    }

    /** `document_pre_process`: both language branches run the same loop. */
    method DocumentPreProcess(document: string, nlp: Nlp) returns (postProcessData: seq<string>)
      ensures postProcessData == ValidLemmas(nlp(model, document))
    {
      var data := nlp(model, document);
      if lang == "en" {
        postProcessData := LemmasOfValidTokens(data);
      } else {
        postProcessData := LemmasOfValidTokens(data);
      }
    }

    /** `__process_list_of_docs`: each document is replaced, where it stands, by
        its lemmas. */
    method ProcessListOfDocs(listOfDocs: array<Document>, nlp: Nlp)
      requires forall i :: 0 <= i < listOfDocs.Length ==> listOfDocs[i].Raw?
      modifies listOfDocs
      ensures forall i :: 0 <= i < listOfDocs.Length ==>
        listOfDocs[i] == Lemmas(ValidLemmas(nlp(model, old(listOfDocs[i]).text)))
    {
      for index := 0 to listOfDocs.Length
        invariant forall i :: 0 <= i < index ==>
          listOfDocs[i] == Lemmas(ValidLemmas(nlp(model, old(listOfDocs[i]).text)))
        invariant forall i :: index <= i < listOfDocs.Length ==> listOfDocs[i] == old(listOfDocs[i])
      {
        var words := DocumentPreProcess(listOfDocs[index].text, nlp);
        listOfDocs[index] := Lemmas(words);
      }
    }
  }

  /** `objects_of_TextPreprocessor_for_each_lang`: at most one preprocessor per
      language. */
  class Registry {
    var objects: map<string, Preprocessor>

    constructor ()
      ensures objects == map[]
    {
      objects := map[];
    }

    /** Every stored preprocessor is the one of its key's language. */
    ghost predicate Valid()
      reads this
    {
      forall l :: l in objects ==> objects[l].lang == l && LoadSuitableModel(l) == Ok(objects[l].model)
    }

    /** `init_replacement`: an unsupported language raises and changes nothing; a
        supported one gets its preprocessor, created on the first request only. */
    method InitReplacement(lang: string) returns (r: Result<Preprocessor>)
      requires Valid()
      modifies this
      ensures Valid()
      ensures !LoadSuitableModel(lang).Ok? ==> r == Err(NotSupported(lang)) && objects == old(objects)
      ensures LoadSuitableModel(lang).Ok? ==>
        r.Ok? && lang in objects && r.value == objects[lang] &&
        r.value.lang == lang && r.value.model == LoadSuitableModel(lang).value
      ensures lang in old(objects) ==> objects == old(objects) && r == Ok(old(objects)[lang])
      ensures LoadSuitableModel(lang).Ok? && lang !in old(objects) ==>
        fresh(r.value) && objects == old(objects)[lang := r.value]
    {
      if LoadSuitableModel(lang).Ok? {
        if lang !in objects {
          var created := new Preprocessor(lang);
          objects := objects[lang := created];
        }
        return Ok(objects[lang]);
      }
      return Err(NotSupported(lang));
    }

    /** `release_objects_of_TextPreprocessor_for_each_lang` */
    method Release()
      modifies this
      ensures objects == map[] && Valid()
    {
      objects := map[];
    }
  }

  /** Asking twice for the same language gives the same object. */
  method InitReplacementTwice(registry: Registry, lang: string) returns (first: Result<Preprocessor>, second: Result<Preprocessor>)
    requires registry.Valid()
    modifies registry
    ensures registry.Valid()
    ensures first == second
    ensures !LoadSuitableModel(lang).Ok? ==> registry.objects == old(registry.objects)
  {
    first := registry.InitReplacement(lang);
    second := registry.InitReplacement(lang);
  }

  // ---------------------------------------------------------------------------
  // Processing the raw data

  /** The processed data of the languages of `raw` that have a model, in the
      order of `raw`; other languages, "None" among them, are skipped. */
  function Processed(raw: Dict<string, seq<string>>, nlp: Nlp): Dict<string, seq<seq<string>>> {
    if raw == [] then []
    else
      var acc := Processed(raw[..|raw| - 1], nlp);
      var (lang, texts) := raw[|raw| - 1];
      match LoadSuitableModel(lang)
      case Ok(model) => Put(acc, lang, ProcessDocs(model, texts, nlp))
      case Err(_) => acc
  }

  /** The supported languages of `langs`, in order. */
  function Supported(langs: seq<string>): (r: seq<string>)
    ensures forall l :: l in r <==> l in langs && l in SupportedLanguages
  {
    if langs == [] then []
    else Supported(langs[..|langs| - 1]) +
         (if langs[|langs| - 1] in SupportedLanguages then [langs[|langs| - 1]] else [])
  }

  /** `acc` holds exactly the supported languages of `raw`, in input order, each
      once, each with its language's texts preprocessed with that language's
      model. */
  ghost predicate ProcessedFrom(acc: Dict<string, seq<seq<string>>>, raw: Dict<string, seq<string>>, nlp: Nlp) {
    ProcessedKeys(acc, raw) && ProcessedValues(acc, raw, nlp)
  }

  ghost predicate ProcessedKeys(acc: Dict<string, seq<seq<string>>>, raw: Dict<string, seq<string>>) {
    Valid(acc) && Keys(acc) == Supported(Keys(raw))
  }

  ghost predicate ProcessedValues(acc: Dict<string, seq<seq<string>>>, raw: Dict<string, seq<string>>, nlp: Nlp) {
    forall l :: Get(acc, l) == ProcessedValue(raw, l, nlp)
  }

  /** What the processed dict holds under `l`. */
  ghost function ProcessedValue(raw: Dict<string, seq<string>>, l: string, nlp: Nlp): Option<seq<seq<string>>> {
    var m := LoadSuitableModel(l);
    if Get(raw, l).Some? && m.Ok? then Some(ProcessDocs(m.value, Get(raw, l).value, nlp)) else None
  }

  /** One step of the fold. */
  lemma {:induction false} ProcessedLast(raw: Dict<string, seq<string>>, nlp: Nlp)
    requires raw != []
    ensures var m := LoadSuitableModel(raw[|raw| - 1].0);
            Processed(raw, nlp) ==
              if m.Ok? then Put(Processed(raw[..|raw| - 1], nlp), raw[|raw| - 1].0, ProcessDocs(m.value, raw[|raw| - 1].1, nlp))
              else Processed(raw[..|raw| - 1], nlp)
  {
  }

  /** The last entry of a dict without repeated keys holds a new key. */
  lemma {:induction false} GetLastAt<V>(d: Dict<string, V>, l: string)
    requires d != [] && d[|d| - 1].0 !in Keys(d[..|d| - 1])
    ensures Get(d, l) == if l == d[|d| - 1].0 then Some(d[|d| - 1].1) else Get(d[..|d| - 1], l)
  {
    assert d == d[..|d| - 1] + [d[|d| - 1]];
    GetSnoc(d[..|d| - 1], d[|d| - 1], l);
  }

  lemma {:induction false} GetLast<V>(d: Dict<string, V>)
    requires d != [] && d[|d| - 1].0 !in Keys(d[..|d| - 1])
    ensures forall l :: Get(d, l) == if l == d[|d| - 1].0 then Some(d[|d| - 1].1) else Get(d[..|d| - 1], l)
  {
    var init := d[..|d| - 1];
    assert d == init + [d[|d| - 1]];
    forall l ensures Get(d, l) == if l == d[|d| - 1].0 then Some(d[|d| - 1].1) else Get(init, l) {
      GetSnoc(init, d[|d| - 1], l);
    }
  }

  lemma {:induction false} SupportedLast(langs: seq<string>)
    requires langs != []
    ensures Supported(langs) == Supported(langs[..|langs| - 1]) +
              (if langs[|langs| - 1] in SupportedLanguages then [langs[|langs| - 1]] else [])
  {
  }

  lemma {:induction false} ProcessedKeysStep(raw: Dict<string, seq<string>>, nlp: Nlp)
    requires raw != [] && Valid(raw)
    requires ProcessedKeys(Processed(raw[..|raw| - 1], nlp), raw[..|raw| - 1])
    ensures ProcessedKeys(Processed(raw, nlp), raw)
  {
    var n := |raw| - 1;
    var init := raw[..n];
    var (lang, texts) := raw[n];
    var acc := Processed(init, nlp);
    var m := LoadSuitableModel(lang);
    var ks := Keys(raw);
    assert ks[..n] == Keys(init) && ks[n] == lang by {
      KeysPrefix(raw, n);
    }
    SupportedLast(ks);
    ProcessedLast(raw, nlp);
    if m.Ok? {
      var v := ProcessDocs(m.value, texts, nlp);
      assert lang !in Keys(acc) by {
        LastKeyNew(raw);
      }
      PutNew(acc, lang, v);
      PutKeepsValid(acc, lang, v);
      KeysSnoc(acc, (lang, v));
    }
  }

  lemma {:induction false} ProcessedValueAt(raw: Dict<string, seq<string>>, nlp: Nlp, l: string)
    requires raw != [] && raw[|raw| - 1].0 !in Keys(raw[..|raw| - 1])
    requires Get(Processed(raw[..|raw| - 1], nlp), l) == ProcessedValue(raw[..|raw| - 1], l, nlp)
    ensures Get(Processed(raw, nlp), l) == ProcessedValue(raw, l, nlp)
  {
    var (lang, texts) := raw[|raw| - 1];
    var acc := Processed(raw[..|raw| - 1], nlp);
    var m := LoadSuitableModel(lang);
    ProcessedLast(raw, nlp);
    GetLastAt(raw, l);
    if m.Ok? {
      PutSpec(acc, lang, ProcessDocs(m.value, texts, nlp));
    }
  }

  lemma {:induction false} ProcessedValuesStep(raw: Dict<string, seq<string>>, nlp: Nlp)
    requires raw != [] && raw[|raw| - 1].0 !in Keys(raw[..|raw| - 1])
    requires ProcessedValues(Processed(raw[..|raw| - 1], nlp), raw[..|raw| - 1], nlp)
    ensures ProcessedValues(Processed(raw, nlp), raw, nlp)
  {
    forall l ensures Get(Processed(raw, nlp), l) == ProcessedValue(raw, l, nlp) {
      ProcessedValueAt(raw, nlp, l);
    }
  }

  /** The processed keys are exactly the supported input languages, in input
      order, each once; each holds its language's texts preprocessed with that
      language's model. */
  lemma {:induction false} ProcessedSpec(raw: Dict<string, seq<string>>, nlp: Nlp)
    requires Valid(raw)
    ensures ProcessedFrom(Processed(raw, nlp), raw, nlp)
  {
    if raw != [] {
      var init := raw[..|raw| - 1];
      assert Keys(init) == Keys(raw)[..|init|];
      assert Valid(init);
      ProcessedSpec(init, nlp);
      ProcessedKeysStep(raw, nlp);
      LastKeyNew(raw);
      ProcessedValuesStep(raw, nlp);
    }
  }

  /** Looking a key up after appending an entry whose key is new. */
  lemma {:induction false} GetSnoc<V>(d: Dict<string, V>, e: (string, V), k: string)
    requires e.0 !in Keys(d)
    ensures Get(d + [e], k) == if k == e.0 then Some(e.1) else Get(d, k)
  {
    if d != [] {
      assert (d + [e])[1..] == d[1..] + [e];
      GetSnoc(d[1..], e, k);
    } else {
      assert [e][1..] == [];
    }
  }

  function WordsOf(docs: seq<Document>): (r: seq<seq<string>>)
    requires forall i :: 0 <= i < |docs| ==> docs[i].Lemmas?
    ensures |r| == |docs| && forall i :: 0 <= i < |docs| ==> r[i] == docs[i].words
  {
    seq(|docs|, i requires 0 <= i < |docs| && docs[i].Lemmas? => docs[i].words)
  }

  /** The texts of one language, preprocessed in a list that is overwritten in
      place. */
  method ProcessTexts(processor: Preprocessor, texts: seq<string>, nlp: Nlp) returns (docs: seq<seq<string>>)
    ensures docs == ProcessDocs(processor.model, texts, nlp)
  {
    var listOfDocs := new Document[|texts|](i requires 0 <= i < |texts| => Raw(texts[i]));
    processor.ProcessListOfDocs(listOfDocs, nlp);
    docs := WordsOf(listOfDocs[..]);
  }

  /** `__process_raw_data_language_classified`: each supported language is
      processed, unsupported ones are skipped, and the registry is released at the
      end. */
  method ProcessRawDataLanguageClassified(registry: Registry, raw: Dict<string, seq<string>>, nlp: Nlp)
    returns (processedData: Dict<string, seq<seq<string>>>)
    requires registry.Valid()
    modifies registry
    ensures registry.objects == map[] && registry.Valid()
    ensures processedData == Processed(raw, nlp)
  {
    processedData := [];
    for i := 0 to |raw|
      invariant registry.Valid()
      invariant processedData == Processed(raw[..i], nlp)
    {
      var (lang, texts) := raw[i];
      assert raw[..i + 1][..i] == raw[..i] && raw[..i + 1][i] == (lang, texts);
      ProcessedLast(raw[..i + 1], nlp);
      var textProcessor := registry.InitReplacement(lang);
      if textProcessor.Ok? {
        var docs := ProcessTexts(textProcessor.value, texts, nlp);
        processedData := Put(processedData, lang, docs);
      }
    }
    assert raw[..|raw|] == raw;
    registry.Release();
  }

  // ---------------------------------------------------------------------------
  // JSON form of the cached files

  function StrsToJson(words: seq<string>): (j: Json)
    ensures j.JArray? && |j.items| == |words|
    ensures forall i :: 0 <= i < |words| ==> j.items[i] == JStr(words[i])
  {
    JArray(seq(|words|, i requires 0 <= i < |words| => JStr(words[i])))
  }

  function JsonToStrs(j: Json): Option<seq<string>> {
    if j.JArray? && forall i :: 0 <= i < |j.items| ==> j.items[i].JStr? then
      Some(seq(|j.items|, i requires 0 <= i < |j.items| && j.items[i].JStr? => j.items[i].s))
    else None
  }

  function DocsToJson(docs: seq<seq<string>>): (j: Json)
    ensures j.JArray? && |j.items| == |docs|
    ensures forall i :: 0 <= i < |docs| ==> j.items[i] == StrsToJson(docs[i])
  {
    JArray(seq(|docs|, i requires 0 <= i < |docs| => StrsToJson(docs[i])))
  }

  function JsonToDocs(j: Json): Option<seq<seq<string>>> {
    if j.JArray? && forall i :: 0 <= i < |j.items| ==> JsonToStrs(j.items[i]).Some? then
      Some(seq(|j.items|, i requires 0 <= i < |j.items| && JsonToStrs(j.items[i]).Some? => JsonToStrs(j.items[i]).value))
    else None
  }

  /** What `json.dump` writes, `json.load` reads back. */
  lemma {:induction false} StrsRoundTrip(words: seq<string>)
    ensures JsonToStrs(StrsToJson(words)) == Some(words)
  {
    var j := StrsToJson(words);
    assert JsonToStrs(j).Some?;
    assert JsonToStrs(j).value == words;
  }

  lemma {:induction false} DocsRoundTrip(docs: seq<seq<string>>)
    ensures JsonToDocs(DocsToJson(docs)) == Some(docs)
  {
    var j := DocsToJson(docs);
    forall i | 0 <= i < |docs| ensures JsonToStrs(j.items[i]) == Some(docs[i]) {
      StrsRoundTrip(docs[i]);
    }
    assert JsonToDocs(j).Some?;
    assert JsonToDocs(j).value == docs;
  }

  /** The meta file: the processed languages and the number of documents of
      each. */
  function MetaContent(languages: seq<string>, langLength: Json): Json {
    JObject([("languages", StrsToJson(languages)), ("lang_length", langLength)])
  }

  /** `{lang: len(processed[lang]) for lang in languages}` */
  function LangLength(processed: Dict<string, seq<seq<string>>>): (j: Json)
    ensures j.JObject? && Keys(j.members) == Keys(processed)
  {
    JObject(seq(|processed|, i requires 0 <= i < |processed| => (processed[i].0, JInt(|processed[i].1|))))
  }

  /** The meta file records each language's document count. */
  lemma {:induction false} LangLengthCounts(processed: Dict<string, seq<seq<string>>>, l: string)
    requires Valid(processed) && Get(processed, l).Some?
    ensures Get(LangLength(processed).members, l) == Some(JInt(|Get(processed, l).value|))
  {
    var i :| 0 <= i < |processed| && Keys(processed)[i] == l;
    GetEntry(processed, i);
    var m := LangLength(processed).members;
    assert Keys(m) == Keys(processed);
    GetEntry(m, i);
  }

  const DataProcessMetaName := "data-process-mata"

  /** The record of how one data version was processed. */
  function DataProcessMeta(tags: Json): Json {
    JObject([
      ("tags", tags),
      ("token_ validation", JObject([
        ("must", StrsToJson(["alpha"])),
        ("must Not", StrsToJson(["stop_word", "space", "bracket", "currency", "url", "email", "number", "verb"]))]))])
  }

  /** The tag policy as the meta file records it. */
  function TagsJson(includeTags: Arg, excludeTags: Arg): Json {
    JObject([
      ("include", ArgToJson(includeTags)), ("exclude", ArgToJson(excludeTags)),
      ("important", StrsToJson(DataProvider.ImportantTags)), ("skip", StrsToJson(DataProvider.SkipTags))])
  }

  /** `meta["languages"]` */
  function MetaLanguages(meta: Json): Result<seq<string>> {
    if !meta.JObject? then Err(TypeError)
    else match Get(meta.members, "languages")
      case None => Err(KeyError("languages"))
      case Some(j) =>
        match JsonToStrs(j)
        case Some(langs) => Ok(langs)
        case None => Err(NotModelled("meta languages that are not a list of strings"))
  }

  lemma {:induction false} MetaLanguagesOf(languages: seq<string>, langLength: Json)
    ensures MetaLanguages(MetaContent(languages, langLength)) == Ok(languages)
  {
    StrsRoundTrip(languages);
  }

  // ---------------------------------------------------------------------------
  // The cache on disk

  /** What a sequence of file operations leaves behind: whether it ran to the end,
      and the store afterwards. */
  datatype Effect = Effect(outcome: Outcome, dirs: set<string>, files: map<string, Content>)

  /** For each (language, document) item in turn: take the data version folder of
      the language (creating it) and write the document as `name.ext` there. */
  function WrittenPerLanguage(advisor: Advisor, dirs: set<string>, files: map<string, Content>, version: string,
                              name: string, ext: string, items: seq<(string, Json)>): Effect
    reads advisor
    decreases |items|
  {
    if items == [] then Effect(Pass, dirs, files)
    else
      var folder := advisor.DataVersionFolderPath(items[0].0, version);
      if folder.Err? then Effect(Fail(folder.error), dirs, files)
      else WrittenPerLanguage(advisor, EnsuredDirs(dirs, files, folder.value),
                              files[folder.value + FileName(name, ext) := JsonFile(items[0].1)],
                              version, name, ext, items[1..])
  }

  /** The loop shared by `__write_processed_data` and the per-language part of
      `__write_meta_data`. */
  method WritePerLanguage(advisor: Advisor, version: string, name: string, ext: string, items: seq<(string, Json)>)
    returns (o: Outcome)
    modifies advisor.store
    ensures Effect(o, advisor.store.dirs, advisor.store.files) ==
      WrittenPerLanguage(advisor, old(advisor.store.dirs), old(advisor.store.files), version, name, ext, items)
  {
    ghost var goal := WrittenPerLanguage(advisor, advisor.store.dirs, advisor.store.files, version, name, ext, items);
    for i := 0 to |items|
      invariant WrittenPerLanguage(advisor, advisor.store.dirs, advisor.store.files, version, name, ext, items[i..]) == goal
    {
      assert items[i..][1..] == items[i + 1..];
      var p := advisor.DataVersionFoldersFilePath(items[i].0, version, name, ext);
      if p.Err? {
        return Fail(p.error);
      }
      advisor.store.Write(p.value, JsonFile(items[i].1));
    }
    return Pass;
  }

  function DocItems(processed: Dict<string, seq<seq<string>>>): (items: seq<(string, Json)>)
    ensures Keys(items) == Keys(processed)
    ensures forall i :: 0 <= i < |processed| ==> items[i].1 == DocsToJson(processed[i].1)
  {
    seq(|processed|, i requires 0 <= i < |processed| => (processed[i].0, DocsToJson(processed[i].1)))
  }

  function MetaItems(languages: seq<string>, tags: Json): (items: seq<(string, Json)>)
    ensures Keys(items) == languages
  {
    seq(|languages|, i requires 0 <= i < |languages| => (languages[i], DataProcessMeta(tags)))
  }

  /** `__write_meta_data` */
  method WriteMetaData(advisor: Advisor, languageList: seq<string>, tags: Json, dataVersion: string, langLength: Json)
    returns (o: Outcome)
    modifies advisor.store
    ensures Effect(o, advisor.store.dirs, advisor.store.files) ==
      WrittenPerLanguage(advisor, old(advisor.store.dirs),
                         old(advisor.store.files)[advisor.DataFileMetaPath() := JsonFile(MetaContent(languageList, langLength))],
                         dataVersion, DataProcessMetaName, "json", MetaItems(languageList, tags))
  {
    var dataFileMetaPath := advisor.DataFileMetaPath();
    advisor.store.Write(dataFileMetaPath, JsonFile(MetaContent(languageList, langLength)));
    o := WritePerLanguage(advisor, dataVersion, DataProcessMetaName, "json", MetaItems(languageList, tags));
  }

  /** `__write_processed_data` */
  method WriteProcessedData(advisor: Advisor, dataFileName: string, processedData: Dict<string, seq<seq<string>>>,
                            version: string)
    returns (o: Outcome)
    modifies advisor.store
    ensures Effect(o, advisor.store.dirs, advisor.store.files) ==
      WrittenPerLanguage(advisor, old(advisor.store.dirs), old(advisor.store.files), version, dataFileName, "json",
                         DocItems(processedData))
  {
    o := WritePerLanguage(advisor, version, dataFileName, "json", DocItems(processedData));
  }

  /** Everything a rebuild writes: the meta file, the processing record of each
      language, then each language's processed data. */
  function Rebuilt(advisor: Advisor, dirs: set<string>, files: map<string, Content>, name: string, version: string,
                   tags: Json, processed: Dict<string, seq<seq<string>>>): Effect
    reads advisor
  {
    var languages := Keys(processed);
    var meta := WrittenPerLanguage(advisor, dirs,
                                   files[advisor.DataFileMetaPath() := JsonFile(MetaContent(languages, LangLength(processed)))],
                                   version, DataProcessMetaName, "json", MetaItems(languages, tags));
    if meta.outcome.Fail? then meta
    else WrittenPerLanguage(advisor, meta.dirs, meta.files, version, name, "json", DocItems(processed))
  }

  /** The languages the meta file lists; a missing meta file gives `None`. */
  function MetaAt(dirs: set<string>, files: map<string, Content>, p: string): Result<Option<seq<string>>> {
    if !Exists(dirs, files, p) then Ok(None)
    else if p !in files || !files[p].JsonFile? then Err(Corrupt(p))
    else
      var langs := MetaLanguages(files[p].json);
      if langs.Err? then Err(langs.error) else Ok(Some(langs.value))
  }

  function DocsAt(files: map<string, Content>, p: string): Option<seq<seq<string>>> {
    if p in files && files[p].JsonFile? then JsonToDocs(files[p].json) else None
  }

  /** The loop of `__read_processed_data` from language `langs[0]` on, with `acc`
      read so far: a missing language file gives `None`. */
  function ReadLanguages(advisor: Advisor, dirs: set<string>, files: map<string, Content>, name: string,
                         version: string, langs: seq<string>, acc: Dict<string, seq<seq<string>>>)
    : Cached<Option<Dict<string, seq<seq<string>>>>>
    reads advisor
    decreases |langs|
  {
    if langs == [] then Cached(Ok(Some(acc)), dirs, files)
    else
      var folder := advisor.DataVersionFolderPath(langs[0], version);
      if folder.Err? then Cached(Err(folder.error), dirs, files)
      else
        var dirs' := EnsuredDirs(dirs, files, folder.value);
        var p := folder.value + FileName(name, "json");
        if !Exists(dirs', files, p) then Cached(Ok(None), dirs', files)
        else match DocsAt(files, p)
          case None => Cached(Err(Corrupt(p)), dirs', files)
          case Some(docs) => ReadLanguages(advisor, dirs', files, name, version, langs[1..], Put(acc, langs[0], docs))
  }

  /** `__read_processed_data` */
  function ReadProcessed(advisor: Advisor, dirs: set<string>, files: map<string, Content>, name: string, version: string)
    : (r: Cached<Option<Dict<string, seq<seq<string>>>>>)
    reads advisor
    ensures r.files == files
  {
    var meta := MetaAt(dirs, files, advisor.DataFileMetaPath());
    if meta.Err? then Cached(Err(meta.error), dirs, files)
    else if meta.value.None? then Cached(Ok(None), dirs, files)
    else
      ReadLanguagesKeepsFiles(advisor, dirs, files, name, version, meta.value.value, []);
      ReadLanguages(advisor, dirs, files, name, version, meta.value.value, [])
  }

  lemma {:induction false} ReadLanguagesKeepsFiles(advisor: Advisor, dirs: set<string>, files: map<string, Content>,
                                                   name: string, version: string, langs: seq<string>,
                                                   acc: Dict<string, seq<seq<string>>>)
    ensures ReadLanguages(advisor, dirs, files, name, version, langs, acc).files == files
    decreases |langs|
  {
    if langs != [] {
      var folder := advisor.DataVersionFolderPath(langs[0], version);
      if folder.Ok? {
        var dirs' := EnsuredDirs(dirs, files, folder.value);
        var p := folder.value + FileName(name, "json");
        if Exists(dirs', files, p) && DocsAt(files, p).Some? {
          ReadLanguagesKeepsFiles(advisor, dirs', files, name, version, langs[1..], Put(acc, langs[0], DocsAt(files, p).value));
        }
      }
    }
  }

  /** `__read_data_meta_file` */
  method ReadDataMetaFile(advisor: Advisor) returns (r: Result<Option<seq<string>>>)
    ensures r == MetaAt(advisor.store.dirs, advisor.store.files, advisor.DataFileMetaPath())
  {
    var metaFilePath := advisor.DataFileMetaPath();
    if !advisor.store.Has(metaFilePath) {
      return Ok(None);
    }
    if metaFilePath !in advisor.store.files || !advisor.store.files[metaFilePath].JsonFile? {
      return Err(Corrupt(metaFilePath));
    }
    var langs := MetaLanguages(advisor.store.files[metaFilePath].json);
    if langs.Err? {
      return Err(langs.error);
    }
    return Ok(Some(langs.value));
  }

  /** `__read_processed_data`: `None` when the meta file or any language's file is
      missing. */
  method ReadProcessedData(advisor: Advisor, dataFileName: string, version: string)
    returns (r: Result<Option<Dict<string, seq<seq<string>>>>>)
    modifies advisor.store
    ensures var read := ReadProcessed(advisor, old(advisor.store.dirs), old(advisor.store.files), dataFileName, version);
      r == read.value && advisor.store.dirs == read.dirs && advisor.store.files == read.files
  {
    var meta :- ReadDataMetaFile(advisor);
    if meta.None? {
      return Ok(None);
    }
    var langs := meta.value;
    var processedData: Dict<string, seq<seq<string>>> := [];
    ghost var goal := ReadLanguages(advisor, advisor.store.dirs, advisor.store.files, dataFileName, version, langs, []);
    for i := 0 to |langs|
      invariant ReadLanguages(advisor, advisor.store.dirs, advisor.store.files, dataFileName, version, langs[i..], processedData) == goal
    {
      assert langs[i..][1..] == langs[i + 1..];
      var p := advisor.DataVersionFoldersFilePath(langs[i], version, dataFileName, "json");
      if p.Err? {
        return Err(p.error);
      }
      if !advisor.store.Has(p.value) {
        return Ok(None);
      }
      var docs := DocsAt(advisor.store.files, p.value);
      if docs.None? {
        return Err(Corrupt(p.value));
      }
      processedData := Put(processedData, langs[i], docs.value);
    }
    return Ok(Some(processedData));
  }

  // ---------------------------------------------------------------------------
  // Reading back what a rebuild wrote

  /** Where the processed data of `lang` goes. */
  function LanguageFile(advisor: Advisor, lang: string, version: string, name: string, ext: string): string
    reads advisor
    requires advisor.dataFolderIsSet
  {
    advisor.DataVersionFolderPath(lang, version).value + FileName(name, ext)
  }

  lemma {:induction false} LanguageFileForm(advisor: Advisor, lang: string, version: string, name: string, ext: string)
    requires advisor.dataFolderIsSet
    ensures advisor.DataVersionFolderPath(lang, version).Ok?
    ensures LanguageFile(advisor, lang, version, name, ext) ==
      advisor.dataFolder + "lang-" + (lang + ("/data-version-" + version + "/" + FileName(name, ext)))
  {
  }

  lemma {:induction false} MiddleInjective(a: string, x: string, y: string, t: string)
    requires a + (x + t) == a + (y + t)
    ensures x == y
  {
    var p := a + (x + t);
    assert x + t == p[|a|..] == y + t;
    assert x == (x + t)[..|x|] == (y + t)[..|y|] == y;
  }

  /** Different languages have different files, and none of them is the meta
      file. */
  lemma {:induction false} LanguageFilesApart(advisor: Advisor, l1: string, l2: string, version: string, name: string, ext: string)
    requires advisor.dataFolderIsSet
    ensures l1 != l2 ==> LanguageFile(advisor, l1, version, name, ext) != LanguageFile(advisor, l2, version, name, ext)
    ensures LanguageFile(advisor, l1, version, name, ext) != advisor.DataFileMetaPath()
  {
    var root := advisor.dataFolder;
    var tail := "/data-version-" + version + "/" + FileName(name, ext);
    LanguageFileForm(advisor, l1, version, name, ext);
    LanguageFileForm(advisor, l2, version, name, ext);
    var p1, p2 := LanguageFile(advisor, l1, version, name, ext), LanguageFile(advisor, l2, version, name, ext);
    if p1 == p2 {
      MiddleInjective(root + "lang-", l1, l2, tail);
    }
    assert p1[|root|] == 'l';
    assert advisor.DataFileMetaPath() == root + (MetaFileName + ".json");
    assert advisor.DataFileMetaPath()[|root|] == 'm';
  }

  function LanguageFiles(advisor: Advisor, items: seq<(string, Json)>, version: string, name: string, ext: string): set<string>
    reads advisor
    requires advisor.dataFolderIsSet
  {
    set i | 0 <= i < |items| :: LanguageFile(advisor, items[i].0, version, name, ext)
  }

  /** With the root set, every item is written to its language's file, and only
      those files change. */
  lemma {:induction false} WrittenPerLanguageSpec(advisor: Advisor, dirs: set<string>, files: map<string, Content>,
                                                  version: string, name: string, ext: string, items: seq<(string, Json)>)
    requires advisor.dataFolderIsSet && Distinct(Keys(items))
    ensures var e := WrittenPerLanguage(advisor, dirs, files, version, name, ext, items);
      e.outcome.Pass? &&
      (forall i :: 0 <= i < |items| ==>
        LanguageFile(advisor, items[i].0, version, name, ext) in e.files &&
        e.files[LanguageFile(advisor, items[i].0, version, name, ext)] == JsonFile(items[i].1)) &&
      (forall p :: p !in LanguageFiles(advisor, items, version, name, ext) ==>
        (p in e.files <==> p in files) && (p in files ==> e.files[p] == files[p]))
    decreases |items|
  {
    if items != [] {
      var folder := advisor.DataVersionFolderPath(items[0].0, version);
      var p0 := LanguageFile(advisor, items[0].0, version, name, ext);
      var files' := files[p0 := JsonFile(items[0].1)];
      var rest := items[1..];
      assert Distinct(Keys(rest)) by {
        forall i, j | 0 <= i < j < |rest| ensures Keys(rest)[i] != Keys(rest)[j] {
          assert Keys(items)[i + 1] != Keys(items)[j + 1];
        }
      }
      WrittenPerLanguageSpec(advisor, EnsuredDirs(dirs, files, folder.value), files', version, name, ext, rest);
      forall i | 0 <= i < |rest| ensures LanguageFile(advisor, rest[i].0, version, name, ext) != p0 {
        assert Keys(items)[0] != Keys(items)[i + 1];
        LanguageFilesApart(advisor, rest[i].0, items[0].0, version, name, ext);
      }
      assert p0 !in LanguageFiles(advisor, rest, version, name, ext);
      forall p | p !in LanguageFiles(advisor, items, version, name, ext)
        ensures p != p0 && p !in LanguageFiles(advisor, rest, version, name, ext)
      {
        assert p0 == LanguageFile(advisor, items[0].0, version, name, ext);
      }
    }
  }

  /** A language whose file holds its documents is read and the walk goes on. */
  lemma {:induction false} ReadLanguagesStep(advisor: Advisor, dirs: set<string>, files: map<string, Content>, name: string,
                          version: string, langs: seq<string>, acc: Dict<string, seq<seq<string>>>,
                          docs: seq<seq<string>>)
    requires advisor.dataFolderIsSet && langs != []
    requires DocsAt(files, LanguageFile(advisor, langs[0], version, name, "json")) == Some(docs)
    ensures ReadLanguages(advisor, dirs, files, name, version, langs, acc) ==
      ReadLanguages(advisor, EnsuredDirs(dirs, files, advisor.DataVersionFolderPath(langs[0], version).value), files,
                    name, version, langs[1..], Put(acc, langs[0], docs))
  {
    LanguageFileForm(advisor, langs[0], version, name, "json");
  }

  /** Reading the languages of a dict from files that hold each of them finds the
      dict again, whatever the folders. */
  lemma {:induction false} ReadBack(advisor: Advisor, dirs: set<string>, files: map<string, Content>, name: string,
                                    version: string, processed: Dict<string, seq<seq<string>>>, i: nat)
    requires advisor.dataFolderIsSet && Valid(processed) && i <= |processed|
    requires forall j :: i <= j < |processed| ==>
      LanguageFile(advisor, processed[j].0, version, name, "json") in files &&
      files[LanguageFile(advisor, processed[j].0, version, name, "json")] == JsonFile(DocsToJson(processed[j].1))
    ensures ReadLanguages(advisor, dirs, files, name, version, Keys(processed)[i..], processed[..i]).value == Ok(Some(processed))
    decreases |processed| - i
  {
    if i == |processed| {
      assert processed[..i] == processed;
    } else {
      var lang := processed[i].0;
      var folder := advisor.DataVersionFolderPath(lang, version);
      var p := LanguageFile(advisor, lang, version, name, "json");
      var langs := Keys(processed)[i..];
      assert langs[0] == lang && langs[1..] == Keys(processed)[i + 1..];
      assert DocsAt(files, p) == Some(processed[i].1) by {
        DocsRoundTrip(processed[i].1);
      }
      ReadLanguagesStep(advisor, dirs, files, name, version, langs, processed[..i], processed[i].1);
      assert Put(processed[..i], lang, processed[i].1) == processed[..i + 1] by {
        assert lang !in Keys(processed[..i]) by {
          forall j | 0 <= j < i ensures processed[..i][j].0 != lang {
            assert Keys(processed)[j] != Keys(processed)[i];
          }
        }
        PutNew(processed[..i], lang, processed[i].1);
        assert processed[..i] + [(lang, processed[i].1)] == processed[..i + 1];
      }
      ReadBack(advisor, EnsuredDirs(dirs, files, folder.value), files, name, version, processed, i + 1);
    }
  }

  /** The items part of `WrittenPerLanguageSpec` alone. */
  lemma {:induction false} WrittenItems(advisor: Advisor, dirs: set<string>, files: map<string, Content>,
                     version: string, name: string, ext: string, items: seq<(string, Json)>)
    requires advisor.dataFolderIsSet && Distinct(Keys(items))
    ensures var e := WrittenPerLanguage(advisor, dirs, files, version, name, ext, items);
      e.outcome.Pass? &&
      (forall i :: 0 <= i < |items| ==>
        LanguageFile(advisor, items[i].0, version, name, ext) in e.files &&
        e.files[LanguageFile(advisor, items[i].0, version, name, ext)] == JsonFile(items[i].1))
  {
    WrittenPerLanguageSpec(advisor, dirs, files, version, name, ext, items);
  }

  /** The meta file is not one of the language files, so writing them keeps it. */
  lemma {:induction false} WrittenKeepsMeta(advisor: Advisor, dirs: set<string>, files: map<string, Content>,
                         version: string, name: string, ext: string, items: seq<(string, Json)>)
    requires advisor.dataFolderIsSet && Distinct(Keys(items))
    ensures var e := WrittenPerLanguage(advisor, dirs, files, version, name, ext, items);
      var p := advisor.DataFileMetaPath();
      e.outcome.Pass? && (p in e.files <==> p in files) && (p in files ==> e.files[p] == files[p])
  {
    var p := advisor.DataFileMetaPath();
    assert p !in LanguageFiles(advisor, items, version, name, ext) by {
      forall i | 0 <= i < |items| ensures LanguageFile(advisor, items[i].0, version, name, ext) != p {
        LanguageFilesApart(advisor, items[i].0, items[i].0, version, name, ext);
      }
    }
    WrittenPerLanguageSpec(advisor, dirs, files, version, name, ext, items);
  }

  /** After a rebuild the meta file holds the language list and each language
      file holds that language's documents. */
  lemma {:induction false} RebuiltFiles(advisor: Advisor, dirs: set<string>, files: map<string, Content>, name: string,
                     version: string, tags: Json, processed: Dict<string, seq<seq<string>>>)
    requires advisor.dataFolderIsSet && Valid(processed)
    ensures var e := Rebuilt(advisor, dirs, files, name, version, tags, processed);
      e.outcome.Pass? &&
      advisor.DataFileMetaPath() in e.files &&
      e.files[advisor.DataFileMetaPath()] == JsonFile(MetaContent(Keys(processed), LangLength(processed))) &&
      (forall j :: 0 <= j < |processed| ==>
        LanguageFile(advisor, processed[j].0, version, name, "json") in e.files &&
        e.files[LanguageFile(advisor, processed[j].0, version, name, "json")] == JsonFile(DocsToJson(processed[j].1)))
  {
    var languages := Keys(processed);
    var metaPath := advisor.DataFileMetaPath();
    var metaContent := JsonFile(MetaContent(languages, LangLength(processed)));
    var files1 := files[metaPath := metaContent];
    var items1 := MetaItems(languages, tags);
    WrittenKeepsMeta(advisor, dirs, files1, version, DataProcessMetaName, "json", items1);
    var meta := WrittenPerLanguage(advisor, dirs, files1, version, DataProcessMetaName, "json", items1);
    var items2 := DocItems(processed);
    WrittenKeepsMeta(advisor, meta.dirs, meta.files, version, name, "json", items2);
    WrittenItems(advisor, meta.dirs, meta.files, version, name, "json", items2);
    var e := WrittenPerLanguage(advisor, meta.dirs, meta.files, version, name, "json", items2);
    assert Rebuilt(advisor, dirs, files, name, version, tags, processed) == e;
    assert metaPath in e.files && e.files[metaPath] == metaContent;
    forall j | 0 <= j < |processed|
      ensures LanguageFile(advisor, processed[j].0, version, name, "json") in e.files &&
              e.files[LanguageFile(advisor, processed[j].0, version, name, "json")] == JsonFile(DocsToJson(processed[j].1))
    {
      assert items2[j] == (processed[j].0, DocsToJson(processed[j].1));
    }
  }

  /** A rebuild leaves a cache that the next run reads back unchanged, so it does
      not rebuild again. */
  lemma {:induction false} RebuiltReadsBack(advisor: Advisor, dirs: set<string>, files: map<string, Content>, name: string,
                         version: string, tags: Json, processed: Dict<string, seq<seq<string>>>)
    requires advisor.dataFolderIsSet && Valid(processed)
    ensures var e := Rebuilt(advisor, dirs, files, name, version, tags, processed);
      e.outcome.Pass? && ReadProcessed(advisor, e.dirs, e.files, name, version).value == Ok(Some(processed))
  {
    var languages := Keys(processed);
    var e := Rebuilt(advisor, dirs, files, name, version, tags, processed);
    RebuiltFiles(advisor, dirs, files, name, version, tags, processed);
    MetaLanguagesOf(languages, LangLength(processed));
    assert MetaAt(e.dirs, e.files, advisor.DataFileMetaPath()) == Ok(Some(languages));
    ReadBack(advisor, e.dirs, e.files, name, version, processed, 0);
    assert Keys(processed)[0..] == Keys(processed) && processed[..0] == [];
  }

  // ---------------------------------------------------------------------------
  // get_processed_data

  /** `get_processed_data`: the cached data when every file of it is there;
      otherwise the raw data is read, processed, cached and returned. */
  method GetProcessedData(advisor: Advisor, registry: Registry, dataFileName: string, dataFileExtension: string,
                          dataVersion: string, dataFileType: string, includeTags: Arg, excludeTags: Arg,
                          c: DataProvider.Collaborators, nlp: Nlp)
    returns (r: Result<Dict<string, seq<seq<string>>>>)
    requires registry.Valid()
    modifies advisor.store, registry
    ensures registry.Valid()
    ensures var read := ReadProcessed(advisor, old(advisor.store.dirs), old(advisor.store.files), dataFileName, dataVersion);
      (read.value.Err? ==> r == Err(read.value.error) &&
                           advisor.store.dirs == read.dirs && advisor.store.files == read.files) &&
      (read.value.Ok? && read.value.value.Some? ==>
         r == Ok(read.value.value.value) && advisor.store.dirs == read.dirs && advisor.store.files == old(advisor.store.files)) &&
      (read.value == Ok(None) ==>
         var raw := DataProvider.TrainData(read.files, advisor.DataFoldersFilePath(dataFileName, dataFileExtension), dataFileType,
                                           DataProvider.ArgPolicy(includeTags, excludeTags), c);
         (raw.Err? ==> r == Err(raw.error)) &&
         (raw.Ok? ==>
            var processed := Processed(raw.value, nlp);
            var e := Rebuilt(advisor, read.dirs, read.files, dataFileName, dataVersion, TagsJson(includeTags, excludeTags), processed);
            registry.objects == map[] && advisor.store.dirs == e.dirs && advisor.store.files == e.files &&
            (if e.outcome.Pass? then r == Ok(processed) else r == Err(e.outcome.error))))
  {
    var languagesProcessedData :- ReadProcessedData(advisor, dataFileName, dataVersion);
    if languagesProcessedData.Some? {
      return Ok(languagesProcessedData.value);
    }
    r := ProcessFreshData(advisor, registry, dataFileName, dataFileExtension, dataVersion, dataFileType,
                          includeTags, excludeTags, c, nlp);
  }

  /** The branch of `get_processed_data` that finds no stored processed data: the
      raw pages are read, processed, and cached. */
  method ProcessFreshData(advisor: Advisor, registry: Registry, dataFileName: string, dataFileExtension: string,
                          dataVersion: string, dataFileType: string, includeTags: Arg, excludeTags: Arg,
                          c: DataProvider.Collaborators, nlp: Nlp)
    returns (r: Result<Dict<string, seq<seq<string>>>>)
    requires registry.Valid()
    modifies advisor.store, registry
    ensures registry.Valid()
    ensures var raw := DataProvider.TrainData(old(advisor.store.files), advisor.DataFoldersFilePath(dataFileName, dataFileExtension), dataFileType,
                                              DataProvider.ArgPolicy(includeTags, excludeTags), c);
      raw.Err? ==> r == Err(raw.error)
    ensures var raw := DataProvider.TrainData(old(advisor.store.files), advisor.DataFoldersFilePath(dataFileName, dataFileExtension), dataFileType,
                                              DataProvider.ArgPolicy(includeTags, excludeTags), c);
      raw.Ok? ==>
         var processed := Processed(raw.value, nlp);
         var e := Rebuilt(advisor, old(advisor.store.dirs), old(advisor.store.files), dataFileName, dataVersion,
                          TagsJson(includeTags, excludeTags), processed);
         registry.objects == map[] && advisor.store.dirs == e.dirs && advisor.store.files == e.files &&
         (if e.outcome.Pass? then r == Ok(processed) else r == Err(e.outcome.error))
  {
    var dataProvider := new DataProvider.DataProvider(advisor, includeTags, excludeTags);
    var rawData := dataProvider.GetTrainDataReadyToWork(dataFileName, dataFileExtension, dataFileType, c);
    if rawData.Err? {
      return Err(rawData.error);
    }
    r := ProcessAndCacheData(advisor, registry, rawData.value, dataFileName, dataVersion,
                             TagsJson(includeTags, excludeTags), nlp);
  }

  /** The rebuilding half of `get_processed_data`: process the raw data language
      by language, cache it, and return it when every write succeeded. */
  method ProcessAndCacheData(advisor: Advisor, registry: Registry, raw: Dict<string, seq<string>>,
                             dataFileName: string, dataVersion: string, tags: Json, nlp: Nlp)
    returns (r: Result<Dict<string, seq<seq<string>>>>)
    requires registry.Valid()
    modifies advisor.store, registry
    ensures registry.Valid()
    ensures var processed := Processed(raw, nlp);
      var e := Rebuilt(advisor, old(advisor.store.dirs), old(advisor.store.files), dataFileName, dataVersion, tags, processed);
      registry.objects == map[] && advisor.store.dirs == e.dirs && advisor.store.files == e.files &&
      (if e.outcome.Pass? then r == Ok(processed) else r == Err(e.outcome.error))
  {
    var processed := ProcessRawDataLanguageClassified(registry, raw, nlp);
    var o := CacheProcessedData(advisor, dataFileName, dataVersion, tags, processed);
    if o.Fail? {
      return Err(o.error);
    }
    return Ok(processed);
  }

  /** The writing half of `get_processed_data`: the meta file, then the
      processed data, stopping at the first failure. */
  method CacheProcessedData(advisor: Advisor, dataFileName: string, dataVersion: string, tags: Json,
                            processed: Dict<string, seq<seq<string>>>)
    returns (o: Outcome)
    modifies advisor.store
    ensures Effect(o, advisor.store.dirs, advisor.store.files) ==
      Rebuilt(advisor, old(advisor.store.dirs), old(advisor.store.files), dataFileName, dataVersion, tags, processed)
  {
    o := WriteMetaData(advisor, Keys(processed), tags, dataVersion, LangLength(processed));
    if o.Pass? {
      o := WriteProcessedData(advisor, dataFileName, processed, dataVersion);
    }
  }
}
