/** Where every artifact of an experiment lives. A root folder is configured once;
    every other location is the root followed by fixed segments in a fixed order:

      <root>/lang-<l>/data-version-<d>/dict-version-<v>/model-version-<m>/<param>-<value>/<type>-model/visualization/Topic-<t>/

    Folder getters only build strings; file getters also create the folder when it
    is missing. Components are passed as the text Python's `str()` gives them. */
module Advisor {
  import opened Basics
  import opened Artifacts
  import opened FileStore

  // ---------------------------------------------------------------------------
  // `str.format` on the root template

  predicate NoBraces(s: string) {
    '{' !in s && '}' !in s
  }

  /** How the fields of one `str.format` call are numbered so far: none yet,
      automatically (`{}`, with the next index), or by explicit indices (`{0}`);
      mixing the two raises ValueError. */
  datatype Numbering = Unnumbered | Automatic(next: nat) | Manual

  /** The text between a field's braces: the name, an optional `!` conversion and
      the `:` format spec. */
  datatype Field = Field(name: string, conversion: Option<char>, spec: string)

  /** `template.format(arg)` for a single positional argument. `{{` and `}}` are
      escapes; a field is looked up by its name: `{}` takes the next automatic
      index, `{0}` an explicit one, and any index beyond 0 has no argument
      (IndexError); any other name is a keyword, and there are none (KeyError).
      The conversion `!s` keeps the string. A lone brace, a field without its
      closing brace, mixed numbering or an unknown conversion is a ValueError
      (`FormatError`). Attribute and index access in a name, the `!r` and `!a`
      conversions, a non-empty format spec and nested fields are not
      interpreted. */
  function Format(template: string, arg: string): Result<string> {
    FormatFrom(template, arg, Unnumbered)
  }

  function FormatFrom(t: string, arg: string, n: Numbering): Result<string>
    decreases |t|
  {
    if t == [] then Ok("")
    else if t[0] == '{' then
      if |t| > 1 && t[1] == '{' then Prefixed("{", FormatFrom(t[2..], arg, n))
      else
        var k := Find(t[1..], '}');
        if k == |t[1..]| then Err(FormatError)
        else
          var v :- Render(t[1..][..k], arg, n);
          Prefixed(v.0, FormatFrom(t[1..][k + 1..], arg, v.1))
    else if t[0] == '}' then
      if |t| > 1 && t[1] == '}' then Prefixed("}", FormatFrom(t[2..], arg, n)) else Err(FormatError)
    else Prefixed([t[0]], FormatFrom(t[1..], arg, n))
  }

  /** The first position of `c` in `s`, or `|s|`. */
  function Find(s: string, c: char): (k: nat)
    ensures k <= |s| && (k < |s| ==> s[k] == c)
    ensures forall j :: 0 <= j < k ==> s[j] != c
  {
    if s == [] || s[0] == c then 0 else 1 + Find(s[1..], c)
  }

  /** The first position holding `!` or `:`, or `|s|`. */
  function NameEnd(s: string): (k: nat)
    ensures k <= |s| && (k < |s| ==> s[k] == '!' || s[k] == ':')
    ensures forall j :: 0 <= j < k ==> s[j] != '!' && s[j] != ':'
  {
    if s == [] || s[0] == '!' || s[0] == ':' then 0 else 1 + NameEnd(s[1..])
  }

  /** The parser of one field's text: the name runs to the first `!` or `:`;
      a `!` is followed by one conversion character and then the end or a `:`. */
  function ParseField(c: string): Result<Field> {
    var i := NameEnd(c);
    if i == |c| then Ok(Field(c, None, ""))
    else if c[i] == ':' then Ok(Field(c[..i], None, c[i + 1..]))
    else if i + 1 == |c| then Err(FormatError)
    else if i + 2 == |c| then Ok(Field(c[..i], Some(c[i + 1]), ""))
    else if c[i + 2] == ':' then Ok(Field(c[..i], Some(c[i + 1]), c[i + 3..]))
    else Err(FormatError)
  }

  predicate AllDigits(s: string) {
    s != [] && forall i :: 0 <= i < |s| ==> IsDigitChar(s[i])
  }

  /** The decimal value of a digit string. */
  function DigitsValue(s: string): int
    requires forall i :: 0 <= i < |s| ==> IsDigitChar(s[i])
  {
    if s == [] then 0 else DigitsValue(s[..|s| - 1]) * 10 + (s[|s| - 1] as int - '0' as int)
  }

  /** The positional index a field name selects, and the numbering after it. */
  function FieldIndex(name: string, n: Numbering): Result<(int, Numbering)> {
    if name == [] then
      if n.Manual? then Err(FormatError)
      else var i := if n.Automatic? then n.next else 0; Ok((i, Automatic(i + 1)))
    else if AllDigits(name) then
      if n.Automatic? then Err(FormatError) else Ok((DigitsValue(name), Manual))
    else if '.' in name || '[' in name then Err(NotModelled("attribute or index access in a format field"))
    else Err(KeyError(name))
  }

  /** One field's text rendered with the argument: the lookup, then the
      conversion, then the format spec. */
  function Render(c: string, arg: string, n: Numbering): Result<(string, Numbering)> {
    if '{' in c then Err(NotModelled("nested format field"))
    else
      var f :- ParseField(c);
      var (i, n') :- FieldIndex(f.name, n);
      if i != 0 then Err(IndexError)
      else if f.conversion.Some? && f.conversion.value != 's' then
        if f.conversion.value in "ra" then Err(NotModelled("repr conversion")) else Err(FormatError)
      else if f.spec != [] then Err(NotModelled("format spec"))
      else Ok((arg, n'))
  }

  function Prefixed(p: string, r: Result<string>): (q: Result<string>)
    ensures q.Ok? <==> r.Ok?
    ensures q.Ok? ==> q.value == p + r.value
  {
    if r.Ok? then Ok(p + r.value) else r
  }

  /** A text without braces is its own formatting, whatever the argument. */
  lemma {:induction false} FormatBraceFree(s: string, arg: string, n: Numbering)
    requires NoBraces(s)
    ensures FormatFrom(s, arg, n) == Ok(s)
    decreases |s|
  {
    if s != [] {
      assert s[0] != '{' && s[0] != '}';
      assert NoBraces(s[1..]) by {
        forall c | c in s[1..] ensures c in s { }
      }
      FormatBraceFree(s[1..], arg, n);
      assert [s[0]] + s[1..] == s;
    }
  }

  /** The initial root template `"{}/"` inserts the argument verbatim, braces in
      the argument included. */
  lemma {:induction false} FormatRoot(r: string)
    ensures Format(InitialDataFolder, r) == Ok(r + "/")
  {
    var t := InitialDataFolder;
    assert t[0] == '{' && t[1] == '}' && t[2..] == "/";
    assert Find(t[1..], '}') == 0;
    assert t[1..][..0] == [] && t[1..][1..] == "/";
    assert Render([], r, Unnumbered) == Ok((r, Automatic(1)));
    FormatBraceFree("/", r, Automatic(1));
    assert FormatFrom(t, r, Unnumbered) == Prefixed(r, FormatFrom(t[2..], r, Automatic(1)));
  }

  /** Configuring the root twice keeps the first root when that root had no braces;
      the second argument is then ignored. */
  lemma {:induction false} SecondSetKeepsRoot(r1: string, r2: string)
    requires NoBraces(r1)
    ensures Format(InitialDataFolder, r1).Ok?
    ensures Format(Format(InitialDataFolder, r1).value, r2) == Ok(r1 + "/")
  {
    FormatRoot(r1);
    assert NoBraces(r1 + "/") by {
      forall c | c in r1 + "/" ensures c != '{' && c != '}' {
        if c !in r1 { assert c in "/"; }
      }
    }
    FormatBraceFree(r1 + "/", r2, Unnumbered);
  }

  /** A root with a `{}` field in it is formatted again by the second call. */
  lemma {:induction false} SecondSetFormatsBracedRoot()
    ensures Format(InitialDataFolder, "{}").value == "{}/"
    ensures Format(Format(InitialDataFolder, "{}").value, "x") == Ok("x/")
  {
    FormatRoot("{}");
    assert "{}" + "/" == InitialDataFolder;
    FormatRoot("x");
    assert "x" + "/" == "x/";
  }

  /** A root holding `{0}` or `{!s}` is filled by the second call as `{}` is. */
  lemma {:induction false} SecondSetFormatsIndexedRoot(a: string)
    ensures Format(Format(InitialDataFolder, "{0}").value, a) == Ok(a + "/")
    ensures Format(Format(InitialDataFolder, "{!s}").value, a) == Ok(a + "/")
  {
    var zero, str := "0", "!s";
    assert '}' !in zero && '}' !in str;
    FieldCases(a);
    SecondSetField(zero, a);
    SecondSetField(str, a);
    assert "{" + zero + "}" == "{0}" && "{" + str + "}" == "{!s}";
  }

  /** The second call on a root `{c}` whose field renders as the argument. */
  lemma {:induction false} SecondSetField(c: string, a: string)
    requires '}' !in c && Render(c, a, Unnumbered).Ok? && Render(c, a, Unnumbered).value.0 == a
    ensures Format(Format(InitialDataFolder, "{" + c + "}").value, a) == Ok(a + "/")
  {
    var t := "{" + c + "}/";
    FormatRoot("{" + c + "}");
    assert ("{" + c + "}") + "/" == t;
    FieldFormats(t, c, a);
    FormatBraceFree("/", a, Render(c, a, Unnumbered).value.1);
  }

  /** A template `{c}/` whose field text `c` renders as the argument. */
  lemma {:induction false} FieldFormats(t: string, c: string, a: string)
    requires t == "{" + c + "}/" && '}' !in c && Render(c, a, Unnumbered).Ok?
    ensures FormatFrom(t, a, Unnumbered) == Prefixed(Render(c, a, Unnumbered).value.0,
                                                     FormatFrom("/", a, Render(c, a, Unnumbered).value.1))
  {
    assert t[0] == '{' && t[1..] == c + "}/";
    assert t[1] != '{' by {
      assert '{' !in c by { assert Render(c, a, Unnumbered).Ok?; }
      if c == [] { assert t[1] == '}'; } else { assert t[1] == c[0]; }
    }
    assert Find(t[1..], '}') == |c| by {
      FindPrefix(c, "}/", '}');
    }
    assert t[1..][..|c|] == c && t[1..][|c| + 1..] == "/";
  }

  /** The first `c` of `s + r` lies in `r` when `s` has none. */
  lemma {:induction false} FindPrefix(s: string, r: string, c: char)
    requires c !in s && r != [] && r[0] == c
    ensures Find(s + r, c) == |s|
  {
    if s != [] {
      assert (s + r)[1..] == s[1..] + r;
      FindPrefix(s[1..], r, c);
    }
  }

  /** An explicit index 0 and the `!s` conversion give the argument. */
  lemma {:induction false} FieldCases(a: string)
    ensures Render("0", a, Unnumbered) == Ok((a, Manual))
    ensures Render("!s", a, Unnumbered) == Ok((a, Automatic(1)))
  {
    assert NameEnd("0") == 1 && AllDigits("0") && DigitsValue("0") == 0;
    assert NameEnd("!s") == 0 && "!s"[..0] == [];
  }

  /** A second automatic field or the index 1 has no argument, and a name is a
      missing keyword. */
  lemma {:induction false} MissingFieldCases(a: string)
    ensures Render("", a, Automatic(1)) == Err(IndexError)
    ensures Render("1", a, Unnumbered) == Err(IndexError)
    ensures Render("name", a, Unnumbered) == Err(KeyError("name"))
  {
    assert NameEnd("1") == 1 && AllDigits("1") && DigitsValue("1") == 1;
    assert NameEnd("name") == 4 && !AllDigits("name") && "name"[0] == 'n';
  }

  /** Mixing automatic and explicit numbering, and an unclosed field, are
      ValueErrors. */
  lemma {:induction false} MalformedFieldCases(a: string)
    ensures Render("0", a, Automatic(1)) == Err(FormatError) && Render("", a, Manual) == Err(FormatError)
    ensures Format("{", a) == Err(FormatError)
  {
    assert NameEnd("0") == 1 && AllDigits("0");
  }

  // ---------------------------------------------------------------------------
  // Segments

  const InitialDataFolder := "{}/"
  const MetaFileName := "meta-of-data-file"

  /** `"{}.{}".format(name, extension)` */
  function FileName(name: string, extension: string): string {
    name + "." + extension
  }

  function LangSegment(lang: string): string { "lang-" + lang + "/" }
  function DataVersionSegment(v: string): string { "data-version-" + v + "/" }
  function DictionaryVersionSegment(v: string): string { "dict-version-" + v + "/" }
  function ModelVersionSegment(v: string): string { "model-version-" + v + "/" }
  function ParamVersionSegment(name: string, v: string): string { name + "-" + v + "/" }
  function ModelTypeSegment(modelType: string): string { modelType + "-model/" }
  const VisualizationSegment := "visualization/"
  function TopicSegment(topicId: string): string { "Topic-" + topicId + "/" }

  /** `folder + segment` when the folder could be resolved. */
  function Then(folder: Result<string>, segment: string): (r: Result<string>)
    ensures r.Ok? <==> folder.Ok?
    ensures folder.Err? ==> r == folder
    ensures r.Ok? ==> r.value == folder.value + segment
  {
    if folder.Ok? then Ok(folder.value + segment) else folder
  }

  predicate EndsInSlash(p: string) {
    p != [] && p[|p| - 1] == '/'
  }

  /** The folder of the topic-version getters: a model-type folder below an
      already resolved parameter-version folder, then `visualization/`. */
  function VisualizationFolderFromTopicVersion(topicVersionFolder: string, modelType: string): string {
    topicVersionFolder + ModelTypeSegment(modelType) + VisualizationSegment
  }

  function TopicFolderFromTopicVersion(topicVersionFolder: string, modelType: string, topicId: string): string {
    VisualizationFolderFromTopicVersion(topicVersionFolder, modelType) + TopicSegment(topicId)
  }

  /** The root configuration and the file store the getters create folders in.
      The Python class keeps the root in class attributes, so there is one
      configuration per process; here it is one object. */
  class Advisor {
    var dataFolder: string
    var dataFolderIsSet: bool
    const store: Store

    constructor (store: Store)
      ensures dataFolder == InitialDataFolder && !dataFolderIsSet && this.store == store
    {
      dataFolder := InitialDataFolder;
      dataFolderIsSet := false;
      this.store := store;
    }

    /** `set_data_folder_path`: the root template is formatted with the argument and
        the flag is set; a formatting error leaves both as they were. */
    method SetDataFolderPath(folder: string) returns (o: Outcome)
      modifies this
      ensures o == OutcomeOf(Format(old(dataFolder), folder))
      ensures o.Pass? ==> dataFolder == Format(old(dataFolder), folder).value && dataFolderIsSet
      ensures o.Fail? ==> dataFolder == old(dataFolder) && dataFolderIsSet == old(dataFolderIsSet)
    {
      var formatted := Format(dataFolder, folder);
      if formatted.Err? {
        return Fail(formatted.error);
      }
      dataFolder := formatted.value;
      dataFolderIsSet := true;
      return Pass;
    }

    /** `get_data_folder_path` */
    function DataFolderPath(): Result<string>
      reads this
    {
      if dataFolderIsSet then Ok(dataFolder) else Err(FileNotFound("data folder"))
    }

    /** `get_data_folders_file_path`: does not look at the flag. */
    function DataFoldersFilePath(name: string, extension: string): string
      reads this
    {
      dataFolder + FileName(name, extension)
    }

    /** `get_data_file_meta_path` */
    function DataFileMetaPath(): string
      reads this
    {
      DataFoldersFilePath(MetaFileName, "json")
    }

    function LanguageFolderPath(lang: string): Result<string>
      reads this
    {
      Then(DataFolderPath(), LangSegment(lang))
    }

    function DataVersionFolderPath(lang: string, dataVersion: string): Result<string>
      reads this
    {
      Then(LanguageFolderPath(lang), DataVersionSegment(dataVersion))
    }

    function DictionaryVersionFolderPath(lang: string, dataVersion: string, dictionaryVersion: string): Result<string>
      reads this
    {
      Then(DataVersionFolderPath(lang, dataVersion), DictionaryVersionSegment(dictionaryVersion))
    }

    function ModelVersionFolderPath(lang: string, dataVersion: string, dictionaryVersion: string,
                                    modelVersion: string): Result<string>
      reads this
    {
      Then(DictionaryVersionFolderPath(lang, dataVersion, dictionaryVersion), ModelVersionSegment(modelVersion))
    }

    function ParamVersionFolderPath(lang: string, dataVersion: string, dictionaryVersion: string,
                                    modelVersion: string, paramName: string, paramVersion: string): Result<string>
      reads this
    {
      Then(ModelVersionFolderPath(lang, dataVersion, dictionaryVersion, modelVersion),
           ParamVersionSegment(paramName, paramVersion))
    }

    function ModelTypeFolderPath(lang: string, dataVersion: string, dictionaryVersion: string,
                                 modelVersion: string, paramName: string, paramVersion: string,
                                 modelType: string): Result<string>
      reads this
    {
      Then(ParamVersionFolderPath(lang, dataVersion, dictionaryVersion, modelVersion, paramName, paramVersion),
           ModelTypeSegment(modelType))
    }

    function VisualizationFolderPath(lang: string, dataVersion: string, dictionaryVersion: string,
                                     modelVersion: string, paramName: string, paramVersion: string,
                                     modelType: string): Result<string>
      reads this
    {
      Then(ModelTypeFolderPath(lang, dataVersion, dictionaryVersion, modelVersion, paramName, paramVersion, modelType),
           VisualizationSegment)
    }

    /** The shared body of the file getters: resolve the folder, create it when it
        does not exist, and append the file name. An unresolved folder creates
        nothing. */
    method FileIn(folder: Result<string>, file: string) returns (r: Result<string>)
      modifies store
      ensures r == Then(folder, file)
      ensures store.files == old(store.files)
      ensures folder.Ok? ==> store.dirs == EnsuredDirs(old(store.dirs), old(store.files), folder.value)
      ensures folder.Err? ==> store.dirs == old(store.dirs)
    {
      if folder.Err? {
        return folder;
      }
      store.EnsureFolder(folder.value);
      return Ok(folder.value + file);
    }

    method DataVersionFoldersFilePath(lang: string, dataVersion: string, name: string, extension: string)
      returns (r: Result<string>)
      modifies store
      ensures r == Then(DataVersionFolderPath(lang, dataVersion), FileName(name, extension))
      ensures store.files == old(store.files)
      ensures DataVersionFolderPath(lang, dataVersion).Ok? ==>
        store.dirs == EnsuredDirs(old(store.dirs), old(store.files), DataVersionFolderPath(lang, dataVersion).value)
      ensures DataVersionFolderPath(lang, dataVersion).Err? ==> store.dirs == old(store.dirs)
    {
      r := FileIn(DataVersionFolderPath(lang, dataVersion), FileName(name, extension));
    }

    method DictionaryVersionFolderFilePath(lang: string, dataVersion: string, dictionaryVersion: string,
                                           name: string, extension: string)
      returns (r: Result<string>)
      modifies store
      ensures r == Then(DictionaryVersionFolderPath(lang, dataVersion, dictionaryVersion), FileName(name, extension))
      ensures store.files == old(store.files)
      ensures DictionaryVersionFolderPath(lang, dataVersion, dictionaryVersion).Ok? ==>
        store.dirs == EnsuredDirs(old(store.dirs), old(store.files),
                                  DictionaryVersionFolderPath(lang, dataVersion, dictionaryVersion).value)
      ensures DictionaryVersionFolderPath(lang, dataVersion, dictionaryVersion).Err? ==> store.dirs == old(store.dirs)
    {
      r := FileIn(DictionaryVersionFolderPath(lang, dataVersion, dictionaryVersion), FileName(name, extension));
    }

    method ModelVersionFoldersFilePath(lang: string, dataVersion: string, dictionaryVersion: string,
                                       modelVersion: string, name: string, extension: string)
      returns (r: Result<string>)
      modifies store
      ensures r == Then(ModelVersionFolderPath(lang, dataVersion, dictionaryVersion, modelVersion),
                        FileName(name, extension))
      ensures store.files == old(store.files)
      ensures ModelVersionFolderPath(lang, dataVersion, dictionaryVersion, modelVersion).Ok? ==>
        store.dirs == EnsuredDirs(old(store.dirs), old(store.files),
                                  ModelVersionFolderPath(lang, dataVersion, dictionaryVersion, modelVersion).value)
      ensures ModelVersionFolderPath(lang, dataVersion, dictionaryVersion, modelVersion).Err? ==>
        store.dirs == old(store.dirs)
    {
      r := FileIn(ModelVersionFolderPath(lang, dataVersion, dictionaryVersion, modelVersion),
                  FileName(name, extension));
    }

    method ParamVersionFoldersFilePath(lang: string, dataVersion: string, dictionaryVersion: string,
                                       modelVersion: string, paramName: string, paramVersion: string,
                                       name: string, extension: string)
      returns (r: Result<string>)
      modifies store
      ensures r == Then(ParamVersionFolderPath(lang, dataVersion, dictionaryVersion, modelVersion,
                                               paramName, paramVersion), FileName(name, extension))
      ensures store.files == old(store.files)
      ensures ParamVersionFolderPath(lang, dataVersion, dictionaryVersion, modelVersion, paramName, paramVersion).Ok? ==>
        store.dirs == EnsuredDirs(old(store.dirs), old(store.files),
          ParamVersionFolderPath(lang, dataVersion, dictionaryVersion, modelVersion, paramName, paramVersion).value)
      ensures ParamVersionFolderPath(lang, dataVersion, dictionaryVersion, modelVersion, paramName, paramVersion).Err? ==>
        store.dirs == old(store.dirs)
    {
      r := FileIn(ParamVersionFolderPath(lang, dataVersion, dictionaryVersion, modelVersion, paramName, paramVersion),
                  FileName(name, extension));
    }

    /** `get_model_type_folders_file_path`: the file name is appended as given,
        without an extension. */
    method ModelTypeFoldersFilePath(lang: string, dataVersion: string, dictionaryVersion: string,
                                    modelVersion: string, paramName: string, paramVersion: string,
                                    modelType: string, name: string)
      returns (r: Result<string>)
      modifies store
      ensures r == Then(ModelTypeFolderPath(lang, dataVersion, dictionaryVersion, modelVersion,
                                            paramName, paramVersion, modelType), name)
      ensures store.files == old(store.files)
      ensures ModelTypeFolderPath(lang, dataVersion, dictionaryVersion, modelVersion,
                                  paramName, paramVersion, modelType).Ok? ==>
        store.dirs == EnsuredDirs(old(store.dirs), old(store.files),
          ModelTypeFolderPath(lang, dataVersion, dictionaryVersion, modelVersion,
                              paramName, paramVersion, modelType).value)
      ensures ModelTypeFolderPath(lang, dataVersion, dictionaryVersion, modelVersion,
                                  paramName, paramVersion, modelType).Err? ==>
        store.dirs == old(store.dirs)
    {
      r := FileIn(ModelTypeFolderPath(lang, dataVersion, dictionaryVersion, modelVersion,
                                      paramName, paramVersion, modelType), name);
    }

    method VisualizationFilePathFromTopicVersion(topicVersionFolder: string, modelType: string,
                                                 name: string, extension: string)
      returns (p: string)
      modifies store
      ensures p == VisualizationFolderFromTopicVersion(topicVersionFolder, modelType) + FileName(name, extension)
      ensures store.files == old(store.files)
      ensures store.dirs == EnsuredDirs(old(store.dirs), old(store.files),
                                        VisualizationFolderFromTopicVersion(topicVersionFolder, modelType))
    {
      var folder := VisualizationFolderFromTopicVersion(topicVersionFolder, modelType);
      store.EnsureFolder(folder);
      p := folder + FileName(name, extension);
    }

    method TopicFoldersFilePathFromTopicVersion(topicVersionFolder: string, modelType: string, topicId: string,
                                                name: string, extension: string)
      returns (p: string)
      modifies store
      ensures p == TopicFolderFromTopicVersion(topicVersionFolder, modelType, topicId) + FileName(name, extension)
      ensures store.files == old(store.files)
      ensures store.dirs == EnsuredDirs(old(store.dirs), old(store.files),
                                        TopicFolderFromTopicVersion(topicVersionFolder, modelType, topicId))
    {
      var folder := TopicFolderFromTopicVersion(topicVersionFolder, modelType, topicId);
      store.EnsureFolder(folder);
      p := folder + FileName(name, extension);
    }
  }

  // ---------------------------------------------------------------------------
  // Properties of the resolver

  /** Before the root is configured, the root getter and every getter below it fail
      with FileNotFoundError. */
  lemma {:induction false} UnsetRootFails(a: Advisor, lang: string, dv: string, kv: string, mv: string,
                       pn: string, pv: string, mt: string)
    requires !a.dataFolderIsSet
    ensures a.DataFolderPath().Err? && a.DataFolderPath().error.FileNotFound?
    ensures a.LanguageFolderPath(lang) == a.DataFolderPath()
    ensures a.DataVersionFolderPath(lang, dv) == a.DataFolderPath()
    ensures a.DictionaryVersionFolderPath(lang, dv, kv) == a.DataFolderPath()
    ensures a.ModelVersionFolderPath(lang, dv, kv, mv) == a.DataFolderPath()
    ensures a.ParamVersionFolderPath(lang, dv, kv, mv, pn, pv) == a.DataFolderPath()
    ensures a.ModelTypeFolderPath(lang, dv, kv, mv, pn, pv, mt) == a.DataFolderPath()
    ensures a.VisualizationFolderPath(lang, dv, kv, mv, pn, pv, mt) == a.DataFolderPath()
  {
  }

  /** The meta file is found under the current root template whether or not the
      root was configured: before configuration it is the literal template. */
  lemma {:induction false} MetaPathIgnoresFlag(a: Advisor)
    ensures a.DataFileMetaPath() == a.dataFolder + "meta-of-data-file.json"
    ensures a.dataFolder == InitialDataFolder ==> a.DataFileMetaPath() == "{}/meta-of-data-file.json"
  {
  }

  /** Once the root is configured, every level resolves, each level is its parent
      followed by exactly one segment, and so every shallower folder is a prefix of
      every deeper one. */
  lemma {:induction false} FolderChain(a: Advisor, lang: string, dv: string, kv: string, mv: string,
                    pn: string, pv: string, mt: string)
    requires a.dataFolderIsSet
    ensures a.DataFolderPath() == Ok(a.dataFolder)
    ensures a.LanguageFolderPath(lang) == Ok(a.dataFolder + LangSegment(lang))
    ensures a.DataVersionFolderPath(lang, dv) == Ok(a.LanguageFolderPath(lang).value + DataVersionSegment(dv))
    ensures a.DictionaryVersionFolderPath(lang, dv, kv)
         == Ok(a.DataVersionFolderPath(lang, dv).value + DictionaryVersionSegment(kv))
    ensures a.ModelVersionFolderPath(lang, dv, kv, mv)
         == Ok(a.DictionaryVersionFolderPath(lang, dv, kv).value + ModelVersionSegment(mv))
    ensures a.ParamVersionFolderPath(lang, dv, kv, mv, pn, pv)
         == Ok(a.ModelVersionFolderPath(lang, dv, kv, mv).value + ParamVersionSegment(pn, pv))
    ensures a.ModelTypeFolderPath(lang, dv, kv, mv, pn, pv, mt)
         == Ok(a.ParamVersionFolderPath(lang, dv, kv, mv, pn, pv).value + ModelTypeSegment(mt))
    ensures a.VisualizationFolderPath(lang, dv, kv, mv, pn, pv, mt)
         == Ok(a.ModelTypeFolderPath(lang, dv, kv, mv, pn, pv, mt).value + VisualizationSegment)
  {
  }

  lemma {:induction false} FolderPrefixOrder(a: Advisor, lang: string, dv: string, kv: string, mv: string,
                          pn: string, pv: string, mt: string)
    requires a.dataFolderIsSet
    ensures a.dataFolder <= a.LanguageFolderPath(lang).value
    ensures a.LanguageFolderPath(lang).value <= a.DataVersionFolderPath(lang, dv).value
    ensures a.DataVersionFolderPath(lang, dv).value <= a.DictionaryVersionFolderPath(lang, dv, kv).value
    ensures a.DictionaryVersionFolderPath(lang, dv, kv).value <= a.ModelVersionFolderPath(lang, dv, kv, mv).value
    ensures a.ModelVersionFolderPath(lang, dv, kv, mv).value <= a.ParamVersionFolderPath(lang, dv, kv, mv, pn, pv).value
    ensures a.ParamVersionFolderPath(lang, dv, kv, mv, pn, pv).value
         <= a.ModelTypeFolderPath(lang, dv, kv, mv, pn, pv, mt).value
    ensures a.ModelTypeFolderPath(lang, dv, kv, mv, pn, pv, mt).value
         <= a.VisualizationFolderPath(lang, dv, kv, mv, pn, pv, mt).value
    ensures a.dataFolder <= a.VisualizationFolderPath(lang, dv, kv, mv, pn, pv, mt).value
  {
    FolderChain(a, lang, dv, kv, mv, pn, pv, mt);
    PrefixOfAppend(a.dataFolder, LangSegment(lang));
    var l := a.LanguageFolderPath(lang).value;
    PrefixOfAppend(l, DataVersionSegment(dv));
    var d := a.DataVersionFolderPath(lang, dv).value;
    PrefixOfAppend(d, DictionaryVersionSegment(kv));
    var k := a.DictionaryVersionFolderPath(lang, dv, kv).value;
    PrefixOfAppend(k, ModelVersionSegment(mv));
    var m := a.ModelVersionFolderPath(lang, dv, kv, mv).value;
    PrefixOfAppend(m, ParamVersionSegment(pn, pv));
    var p := a.ParamVersionFolderPath(lang, dv, kv, mv, pn, pv).value;
    PrefixOfAppend(p, ModelTypeSegment(mt));
    var t := a.ModelTypeFolderPath(lang, dv, kv, mv, pn, pv, mt).value;
    PrefixOfAppend(t, VisualizationSegment);
  }

  lemma {:induction false} PrefixOfAppend(p: string, s: string)
    ensures p <= p + s
  {
  }

  /** Every resolved folder ends in '/', whatever the components are. */
  lemma {:induction false} FoldersEndInSlash(a: Advisor, lang: string, dv: string, kv: string, mv: string,
                          pn: string, pv: string, mt: string, tv: string, topic: string)
    requires a.dataFolderIsSet
    ensures EndsInSlash(a.LanguageFolderPath(lang).value)
    ensures EndsInSlash(a.DataVersionFolderPath(lang, dv).value)
    ensures EndsInSlash(a.DictionaryVersionFolderPath(lang, dv, kv).value)
    ensures EndsInSlash(a.ModelVersionFolderPath(lang, dv, kv, mv).value)
    ensures EndsInSlash(a.ParamVersionFolderPath(lang, dv, kv, mv, pn, pv).value)
    ensures EndsInSlash(a.ModelTypeFolderPath(lang, dv, kv, mv, pn, pv, mt).value)
    ensures EndsInSlash(a.VisualizationFolderPath(lang, dv, kv, mv, pn, pv, mt).value)
    ensures EndsInSlash(VisualizationFolderFromTopicVersion(tv, mt))
    ensures EndsInSlash(TopicFolderFromTopicVersion(tv, mt, topic))
  {
  }

  /** Starting from a parameter-version folder, the topic-version visualization
      folder is the ordinary visualization folder, and a topic folder is that
      folder followed by `Topic-<id>/`. */
  lemma {:induction false} TopicVersionAgrees(a: Advisor, lang: string, dv: string, kv: string, mv: string,
                           pn: string, pv: string, mt: string, topic: string)
    requires a.dataFolderIsSet
    ensures VisualizationFolderFromTopicVersion(a.ParamVersionFolderPath(lang, dv, kv, mv, pn, pv).value, mt)
         == a.VisualizationFolderPath(lang, dv, kv, mv, pn, pv, mt).value
    ensures TopicFolderFromTopicVersion(a.ParamVersionFolderPath(lang, dv, kv, mv, pn, pv).value, mt, topic)
         == a.VisualizationFolderPath(lang, dv, kv, mv, pn, pv, mt).value + "Topic-" + topic + "/"
  {
    var p := a.ParamVersionFolderPath(lang, dv, kv, mv, pn, pv).value;
    assert p + ModelTypeSegment(mt) + VisualizationSegment == (p + ModelTypeSegment(mt)) + VisualizationSegment;
  }
}
