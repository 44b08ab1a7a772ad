/** The values that cross the boundary between the program and the libraries it
    calls. Command-line values keep the shape argparse gives them; JSON documents
    keep the shape `json.dump` writes; everything gensim, spaCy and BeautifulSoup
    produce is a free term that records which builder was applied to what, so two
    artifacts are equal exactly when they were built the same way. */
module Artifacts {
  import opened Basics

  /** A parsed command-line value: `None` when absent, a scalar, or an `nargs`
      list. Floats are kept by their textual form only. */
  datatype Arg =
    | ANone
    | ABool(b: bool)
    | AInt(i: int)
    | AFloat(repr: string)
    | AStr(s: string)
    | AList(items: seq<Arg>)

  /** Python's `str(a)`, which is what `str.format` inserts for a `{}` field. */
  function Show(a: Arg): string
    decreases a, 1
  {
    match a
    case ANone => "None"
    case ABool(b) => if b then "True" else "False"
    case AInt(i) => IntToString(i)
    case AFloat(r) => r
    case AStr(s) => s
    case AList(items) => "[" + ShowItems(items) + "]"
  }

  /** Python's `repr` of a list element (string escapes are not modelled). */
  function ReprItem(a: Arg): string
    decreases a, 2
  {
    if a.AStr? then "'" + a.s + "'" else Show(a)
  }

  function ShowItems(items: seq<Arg>): string
    decreases items
  {
    if items == [] then ""
    else if |items| == 1 then ReprItem(items[0])
    else ReprItem(items[0]) + ", " + ShowItems(items[1..])
  }

  /** A JSON document as `json.dump` receives it: dicts keep insertion order.
      `JScore` stands for a float a gensim metric computed. */
  datatype Json =
    | JNull
    | JBool(b: bool)
    | JInt(i: int)
    | JFloat(repr: string)
    | JStr(s: string)
    | JArray(items: seq<Json>)
    | JObject(members: seq<(string, Json)>)
    | JScore(score: Score)

  /** How an argparse value is written by `json.dump`. */
  function ArgToJson(a: Arg): (j: Json)
    ensures a.ANone? <==> j.JNull?
    ensures a.AList? <==> j.JArray?
    ensures a.AList? ==> |j.items| == |a.items|
  {
    match a
    case ANone => JNull
    case ABool(b) => JBool(b)
    case AInt(i) => JInt(i)
    case AFloat(r) => JFloat(r)
    case AStr(s) => JStr(s)
    case AList(items) => JArray(ArgsToJson(items))
  }

  function ArgsToJson(items: seq<Arg>): (js: seq<Json>)
    ensures |js| == |items| && forall i :: 0 <= i < |items| ==> js[i] == ArgToJson(items[i])
  {
    if items == [] then [] else [ArgToJson(items[0])] + ArgsToJson(items[1..])
  }

  // ---------------------------------------------------------------------------
  // gensim

  /** A gensim `Dictionary`, recorded by the steps that built it. */
  datatype Dictionary =
    | FromDocuments(docs: seq<seq<string>>)
    | MostFrequentFiltered(source: Dictionary, n: Arg)
    | ExtremesFiltered(source: Dictionary, noBelow: Arg, noAbove: Arg)

  /** `dictionary.doc2bow(words)` */
  datatype BagOfWords = Doc2Bow(dictionary: Dictionary, words: seq<string>)

  /** A fitted topic model, recorded by the library call that trained it and the
      arguments that call received. */
  datatype Model =
    | LdaFit(corpus: seq<BagOfWords>, dictionary: Dictionary, numTopics: Arg, chunkSize: Arg,
             alpha: Arg, eta: Arg, iterations: Arg, passes: Arg, evalEvery: Arg)
    | MalletFit(corpus: seq<BagOfWords>, dictionary: Dictionary, numTopics: Arg)
    | HdpFit(corpus: seq<BagOfWords>, dictionary: Dictionary)
    | LsiFit(corpus: seq<BagOfWords>, dictionary: Dictionary, numTopics: Arg)  // fitted on the tf-idf transform of corpus

  /** A metric a gensim evaluator computed for a model over the processed texts. */
  datatype Score = Score(metric: string, model: Model, texts: seq<seq<string>>)

  // ---------------------------------------------------------------------------
  // spaCy and BeautifulSoup

  /** The attributes of a spaCy token that the program reads. */
  datatype Token = Token(
    isStop: bool, isSpace: bool, isCurrency: bool, isBracket: bool, isAlpha: bool,
    likeUrl: bool, likeEmail: bool, likeNum: bool, pos: string, lemmaForm: string)

  /** An element of a parsed HTML page: its tag name and its `.text`. A parsed page
      is the list of its elements in document order, which is what `find_all()`
      returns. */
  datatype Element = Element(name: string, text: string)

  // ---------------------------------------------------------------------------
  // Stored files

  /** A line as `readline` returns it: never empty, since the empty string marks
      the end of the file. */
  type Line = s: string | s != [] witness "\n"

  /** What a file of the artifact store holds. */
  datatype Content =
    | DictionaryFile(dictionary: Dictionary)   // Dictionary.save
    | CorpusFile(corpus: seq<BagOfWords>)      // MmCorpus.serialize
    | ModelFile(model: Model)                  // <model>.save
    | JsonFile(json: Json)                     // json.dump
    | TextFile(lines: seq<Line>)               // a raw data file, line by line
}
