/** Reading the raw data file and bucketing its pages by language. A data file is
    framed into pages in one of three formats; each page is parsed as HTML, its
    text is taken from the tags the tag policy selects, and the text is filed
    under the language detected for it. HTML parsing, language detection and JSON
    decoding are foreign calls, passed in as `Collaborators`. */
module DataProvider {
  import opened Basics
  import opened Artifacts
  import opened OrderedMap
  import opened FileStore
  import opened Advisor

  const DataFileTypes: seq<string> := ["CommonCrawl", "Json", "SemiJson"]
  const ImportantTags: seq<string> := ["h1", "p"]
  const SkipTags: seq<string> := ["head", "style", "script", "noscript", "title", "link", "meta"]
  const HtmlHeader := "Content-Type: text/html"
  /** The bucket of a page whose language cannot be detected. */
  const UndetectedLanguage := "None"

  /** The foreign calls of the provider. */
  datatype Collaborators = Collaborators(
    parse: string -> seq<Element>,          // BeautifulSoup(page).find_all(): the elements in document order
    detect: string -> Option<string>,       // langdetect.detect; None when it raises LangDetectException
    loadJson: string -> Option<string>,     // json.loads of a JSON-lines line; None when it raises
    loadFdData: string -> Option<string>)   // json.loads(json.loads(piece)['fd_data']); None when either step raises

  /** The lines of the text file at `p`; opening a missing path raises. */
  function LinesAt(files: map<string, Content>, p: string): (r: Result<seq<Line>>)
    ensures r.Ok? <==> p in files && files[p].TextFile?
  {
    if p !in files then Err(FileNotFound(p))
    else if !files[p].TextFile? then Err(Corrupt(p))
    else Ok(files[p].lines)
  }

  // ---------------------------------------------------------------------------
  // CommonCrawl framing

  /** The pages read from the stripped lines `ls` when the page being accumulated
      is `page`: a line that starts with the HTML header closes the current page
      and opens the next one with itself; end of file closes the last page. */
  function Frame(ls: seq<string>, page: string): (pages: seq<string>)
    ensures |pages| >= 1
  {
    if ls == [] then [page]
    else if StartsWith(ls[0], HtmlHeader) then [page] + Frame(ls[1..], ls[0])
    else Frame(ls[1..], page + ls[0])
  }

  /** One line of the framing loop. */
  lemma {:induction false} FrameStep(dataSet: seq<string>, ls: seq<string>, page: string)
    requires ls != []
    ensures dataSet + Frame(ls, page) ==
      if StartsWith(ls[0], HtmlHeader) then (dataSet + [page]) + Frame(ls[1..], ls[0])
      else dataSet + Frame(ls[1..], page + ls[0])
  {
    if StartsWith(ls[0], HtmlHeader) {
      assert [page] + Frame(ls[1..], ls[0]) == Frame(ls, page);
      assert dataSet + ([page] + Frame(ls[1..], ls[0])) == (dataSet + [page]) + Frame(ls[1..], ls[0]);
    }
  }

  function StrippedLines(lines: seq<Line>): (r: seq<string>)
    ensures |r| == |lines|
    ensures forall i :: 0 <= i < |lines| ==> r[i] == Strip(lines[i])
  {
    seq(|lines|, i requires 0 <= i < |lines| => Strip(lines[i]))
  }

  function CommonCrawlPages(lines: seq<Line>): seq<string> {
    Frame(StrippedLines(lines), "")
  }

  /** How many lines start with the header. */
  function Headers(ls: seq<string>): nat {
    if ls == [] then 0
    else (if StartsWith(ls[0], HtmlHeader) then 1 else 0) + Headers(ls[1..])
  }

  /** One page per header line, plus the one before the first header. */
  lemma {:induction false} FrameCount(ls: seq<string>, page: string)
    ensures |Frame(ls, page)| == Headers(ls) + 1
  {
    if ls != [] {
      FrameCount(ls[1..], ls[0]);
      FrameCount(ls[1..], page + ls[0]);
    }
  }

  /** Framing loses and adds nothing: the pages concatenate to the lines. */
  lemma {:induction false} FrameConcat(ls: seq<string>, page: string)
    ensures Concat(Frame(ls, page)) == page + Concat(ls)
  {
    if ls == [] {
      assert Concat([page]) == page + Concat([]);
    } else if StartsWith(ls[0], HtmlHeader) {
      var pages := Frame(ls[1..], ls[0]);
      FrameConcat(ls[1..], ls[0]);
      assert ([page] + pages)[1..] == pages;
    } else {
      FrameConcat(ls[1..], page + ls[0]);
      assert (page + ls[0]) + Concat(ls[1..]) == page + (ls[0] + Concat(ls[1..]));
    }
  }

  /** Every page after the first starts with its header line. */
  lemma {:induction false} FrameHeaders(ls: seq<string>, page: string)
    ensures StartsWith(page, HtmlHeader) ==> StartsWith(Frame(ls, page)[0], HtmlHeader)
    ensures forall i :: 1 <= i < |Frame(ls, page)| ==> StartsWith(Frame(ls, page)[i], HtmlHeader)
  {
    if ls != [] {
      if StartsWith(ls[0], HtmlHeader) {
        FrameHeaders(ls[1..], ls[0]);
      } else {
        FrameHeaders(ls[1..], page + ls[0]);
        assert StartsWith(page, HtmlHeader) ==> StartsWith(page + ls[0], HtmlHeader);
      }
    }
  }

  /** The three facts about framing a whole file: one page more than there are
      header lines, the pages concatenate to the stripped lines, and every page
      but the first opens with a header. */
  lemma {:induction false} CommonCrawlSpec(lines: seq<Line>)
    ensures |CommonCrawlPages(lines)| == Headers(StrippedLines(lines)) + 1
    ensures Concat(CommonCrawlPages(lines)) == Concat(StrippedLines(lines))
    ensures forall i :: 1 <= i < |CommonCrawlPages(lines)| ==> StartsWith(CommonCrawlPages(lines)[i], HtmlHeader)
  {
    var ls := StrippedLines(lines);
    FrameCount(ls, "");
    FrameConcat(ls, "");
    FrameHeaders(ls, "");
    assert "" + Concat(ls) == Concat(ls);
  }

  /** `_read_common_crawl_file` */
  method ReadCommonCrawlFile(store: Store, p: string) returns (r: Result<seq<string>>)
    ensures r == (var lines := LinesAt(store.files, p); if lines.Err? then Err(lines.error)
                  else Ok(CommonCrawlPages(lines.value)))
  {
    var file := LinesAt(store.files, p);
    if file.Err? {
      return Err(file.error);
    }
    var lines := file.value;
    var dataSet: seq<string> := [];
    var page := "";
    var i := 0;
    ghost var stripped := StrippedLines(lines);
    while i < |lines|
      invariant 0 <= i <= |lines|
      invariant dataSet + Frame(stripped[i..], page) == CommonCrawlPages(lines)
    {
      var line := Strip(lines[i]);
      FrameStep(dataSet, stripped[i..], page);
      assert stripped[i..][0] == line && stripped[i..][1..] == stripped[i + 1..];
      if StartsWith(line, HtmlHeader) {
        dataSet := dataSet + [page];
        page := "";
      }
      assert "" + line == line;
      page := page + line;
      i := i + 1;
    }
    dataSet := dataSet + [page];
    return Ok(dataSet);
  }

  // ---------------------------------------------------------------------------
  // Semi-JSON framing

  /** `[l for l in line.split('|') if l]` */
  function Pieces(line: string): seq<string> {
    NonEmpty(Split(line, '|'))
  }

  /** What one line contributes: only a line of three pieces whose storage version
      is '1' can, and only when its payload decodes. */
  function SemiJsonPage(line: string, c: Collaborators): Option<string> {
    var s := Pieces(line);
    if |s| == 3 && s[0] == "1" then c.loadFdData(s[2]) else None
  }

  function SemiJsonPages(lines: seq<Line>, c: Collaborators): (pages: seq<string>)
    ensures |pages| <= |lines|
  {
    if lines == [] then []
    else
      var rest := SemiJsonPages(lines[..|lines| - 1], c);
      match SemiJsonPage(lines[|lines| - 1], c)
      case Some(page) => rest + [page]
      case None => rest
  }

  /** A file without a line of storage version '1' yields no page. */
  lemma {:induction false} SemiJsonNeedsVersionOne(lines: seq<Line>, c: Collaborators)
    requires forall i :: 0 <= i < |lines| ==> var s := Pieces(lines[i]); !(|s| == 3 && s[0] == "1")
    ensures SemiJsonPages(lines, c) == []
  {
    if lines != [] {
      SemiJsonNeedsVersionOne(lines[..|lines| - 1], c);
    }
  }

  /** Every decoded payload of a well-formed line comes out, in line order. */
  lemma {:induction false} SemiJsonKeepsDecoded(lines: seq<Line>, c: Collaborators)
    requires forall i :: 0 <= i < |lines| ==> SemiJsonPage(lines[i], c).Some?
    ensures SemiJsonPages(lines, c) == seq(|lines|, i requires 0 <= i < |lines| => SemiJsonPage(lines[i], c).value)
  {
    if lines != [] {
      SemiJsonKeepsDecoded(lines[..|lines| - 1], c);
    }
  }

  /** `_read_semi_json_file`: malformed lines are skipped, nothing raises. */
  method ReadSemiJsonFile(store: Store, p: string, c: Collaborators) returns (r: Result<seq<string>>)
    ensures r == (var lines := LinesAt(store.files, p); if lines.Err? then Err(lines.error)
                  else Ok(SemiJsonPages(lines.value, c)))
  {
    var file := LinesAt(store.files, p);
    if file.Err? {
      return Err(file.error);
    }
    var lines := file.value;
    var dataset: seq<string> := [];
    var count := 0;
    while count < |lines|
      invariant 0 <= count <= |lines|
      invariant dataset == SemiJsonPages(lines[..count], c)
    {
      var line := lines[count];
      assert lines[..count + 1][..count] == lines[..count];
      count := count + 1;
      var splits := Pieces(line);
      if |splits| == 3 {
        if splits[0] == "1" {
          var data := c.loadFdData(splits[2]);
          if data.Some? {
            dataset := dataset + [data.value];
          }
        }
      }
    }
    assert lines[..|lines|] == lines;
    return Ok(dataset);
  }

  // ---------------------------------------------------------------------------
  // JSON lines

  /** Every line is decoded; the first line that does not decode raises, with its
      1-based number. */
  function JsonPages(lines: seq<Line>, c: Collaborators): Result<seq<string>> {
    if lines == [] then Ok([])
    else
      var rest := JsonPages(lines[..|lines| - 1], c);
      if rest.Err? then rest
      else match c.loadJson(lines[|lines| - 1])
        case Some(page) => Ok(rest.value + [page])
        case None => Err(JsonDecodeError(|lines|))
  }

  /** A JSON-lines file yields one page per line when every line decodes, and
      otherwise fails at the first line that does not. */
  lemma {:induction false} JsonPagesSpec(lines: seq<Line>, c: Collaborators)
    ensures var r := JsonPages(lines, c);
      (r.Ok? <==> forall i :: 0 <= i < |lines| ==> c.loadJson(lines[i]).Some?) &&
      (r.Ok? ==> |r.value| == |lines| && forall i :: 0 <= i < |lines| ==> r.value[i] == c.loadJson(lines[i]).value) &&
      (r.Err? ==> r.error.JsonDecodeError? && 1 <= r.error.line <= |lines| &&
                  c.loadJson(lines[r.error.line - 1]).None? &&
                  forall i :: 0 <= i < r.error.line - 1 ==> c.loadJson(lines[i]).Some?)
  {
    if lines != [] {
      var init := lines[..|lines| - 1];
      JsonPagesSpec(init, c);
      assert forall i :: 0 <= i < |init| ==> init[i] == lines[i];
    }
  }

  /** Once a prefix of the file fails to decode, the whole file fails the same way. */
  lemma {:induction false} JsonPagesErrPrefix(lines: seq<Line>, n: nat, c: Collaborators)
    requires n <= |lines| && JsonPages(lines[..n], c).Err?
    ensures JsonPages(lines, c) == JsonPages(lines[..n], c)
    decreases |lines| - n
  {
    if n < |lines| {
      var init := lines[..|lines| - 1];
      assert init[..n] == lines[..n];
      JsonPagesErrPrefix(init, n, c);
    } else {
      assert lines[..n] == lines;
    }
  }

  /** `_read_json_file` */
  method ReadJsonFile(store: Store, p: string, c: Collaborators) returns (r: Result<seq<string>>)
    ensures r == (var lines := LinesAt(store.files, p); if lines.Err? then Err(lines.error)
                  else JsonPages(lines.value, c))
  {
    var file := LinesAt(store.files, p);
    if file.Err? {
      return Err(file.error);
    }
    var lines := file.value;
    var fileData: seq<string> := [];
    for i := 0 to |lines|
      invariant JsonPages(lines[..i], c) == Ok(fileData)
    {
      assert lines[..i + 1][..i] == lines[..i];
      var data := c.loadJson(lines[i]);
      if data.None? {
        JsonPagesErrPrefix(lines, i + 1, c);
        return Err(JsonDecodeError(i + 1));
      }
      fileData := fileData + [data.value];
    }
    assert lines[..|lines|] == lines;
    return Ok(fileData);
  }

  // ---------------------------------------------------------------------------
  // Joining texts

  /** Each text followed by one space. */
  function Spaced(texts: seq<string>): (r: seq<string>)
    ensures |r| == |texts|
    ensures forall i :: 0 <= i < |texts| ==> r[i] == texts[i] + " "
  {
    seq(|texts|, i requires 0 <= i < |texts| => texts[i] + " ")
  }

  lemma {:induction false} SpacedSnoc(texts: seq<string>, t: string)
    ensures Concat(Spaced(texts + [t])) == Concat(Spaced(texts)) + t + " "
  {
    assert Spaced(texts + [t]) == Spaced(texts) + [t + " "];
    ConcatSnoc(Spaced(texts), t + " ");
  }

  /** `_convert_list_of_string_to_one_string` */
  method ConvertListOfStringToOneString(listOfStr: seq<string>) returns (text: string)
    ensures text == Concat(Spaced(listOfStr))
  {
    text := "";
    for i := 0 to |listOfStr|
      invariant text == Concat(Spaced(listOfStr[..i]))
    {
      assert listOfStr[..i + 1] == listOfStr[..i] + [listOfStr[i]];
      SpacedSnoc(listOfStr[..i], listOfStr[i]);
      text := text + listOfStr[i] + " ";
    }
    assert listOfStr[..|listOfStr|] == listOfStr;
  }

  // ---------------------------------------------------------------------------
  // Reading a data file

  /** `_get_raw_data_from_path_file`: the reader for the file type; any other type
      gives `None`. */
  function RawPages(files: map<string, Content>, fileType: string, p: string, c: Collaborators)
    : (r: Result<Option<seq<string>>>)
    ensures fileType !in DataFileTypes <==> r == Ok(None)
  {
    var lines := LinesAt(files, p);
    if fileType !in DataFileTypes then Ok(None)
    else if lines.Err? then Err(lines.error)
    else if fileType == "CommonCrawl" then Ok(Some(CommonCrawlPages(lines.value)))
    else if fileType == "Json" then
      (var pages := JsonPages(lines.value, c); if pages.Err? then Err(pages.error) else Ok(Some(pages.value)))
    else Ok(Some(SemiJsonPages(lines.value, c)))
  }

  method GetRawDataFromPathFile(store: Store, fileType: string, p: string, c: Collaborators)
    returns (r: Result<Option<seq<string>>>)
    ensures r == RawPages(store.files, fileType, p, c)
  {
    var pages: Result<seq<string>>;
    if fileType == DataFileTypes[0] {
      pages := ReadCommonCrawlFile(store, p);
    } else if fileType == DataFileTypes[1] {
      pages := ReadJsonFile(store, p, c);
    } else if fileType == DataFileTypes[2] {
      pages := ReadSemiJsonFile(store, p, c);
    } else {
      return Ok(None);
    }
    if pages.Err? {
      return Err(pages.error);
    }
    return Ok(Some(pages.value));
  }

  // ---------------------------------------------------------------------------
  // Tag policy

  /** A tag argument as the code uses it: iterating a `str` gives its characters
      and `in` on a `str` is a substring test, while a list holds tag names. */
  datatype Tags = Chars(s: string) | Names(names: seq<string>)

  /** `for tag in tags` */
  function TagSequence(t: Tags): (r: seq<string>)
    ensures t.Chars? ==> |r| == |t.s| && forall i :: 0 <= i < |t.s| ==> r[i] == [t.s[i]]
    ensures t.Names? ==> r == t.names
  {
    match t
    case Chars(s) => seq(|s|, i requires 0 <= i < |s| => [s[i]])
    case Names(names) => names
  }

  predicate IsSubstring(a: string, s: string) {
    exists i :: 0 <= i <= |s| && a <= s[i..]
  }

  /** `name in tags` */
  predicate TagContains(t: Tags, name: string) {
    match t
    case Chars(s) => IsSubstring(name, s)
    case Names(names) => name in names
  }

  /** The three ways of choosing text: named tags, every tag but the excluded and
      skipped ones, or the important tags. */
  datatype Policy = Include(tags: seq<string>) | Exclude(excluded: Tags) | Important

  /** Splitting on whitespace, `s.split()`. */
  function Words(s: string): seq<string> {
    NonEmpty(SplitSpace(s))
  }

  function SplitSpace(s: string): (r: seq<string>)
    ensures |r| >= 1
  {
    if s == [] then [""]
    else if IsSpace(s[0]) then [""] + SplitSpace(s[1..])
    else var rest := SplitSpace(s[1..]); [[s[0]] + rest[0]] + rest[1..]
  }

  /** A text without whitespace is one word. */
  lemma {:induction false} SplitSpaceNoSpace(s: string)
    requires forall i :: 0 <= i < |s| ==> !IsSpace(s[i])
    ensures SplitSpace(s) == [s]
  {
    if s != [] {
      SplitSpaceNoSpace(s[1..]);
      assert [s[0]] + s[1..] == s;
    }
  }

  lemma {:induction false} WordsNoSpace(s: string)
    requires s != [] && forall i :: 0 <= i < |s| ==> !IsSpace(s[i])
    ensures Words(s) == [s]
  {
    SplitSpaceNoSpace(s);
    assert [s][1..] == [];
  }

  /** A command-line tag argument read as a list of tag names: a string is split on
      whitespace. */
  function TagsOf(a: Arg): Result<Option<Tags>> {
    match a
    case ANone => Ok(None)
    case AStr(s) => Ok(Some(Names(Words(s))))
    case AList(items) =>
      if forall i :: 0 <= i < |items| ==> items[i].AStr? then
        Ok(Some(Names(seq(|items|, i requires 0 <= i < |items| && items[i].AStr? => items[i].s))))
      else Err(NotModelled("tag list with non-string items"))
    case _ => Err(NotModelled("tag argument that is neither a string nor a list"))
  }

  /** The tag argument as the code receives it from the command line, where a
      string is iterated character by character. */
  function TagsAsWritten(a: Arg): Result<Option<Tags>> {
    match a
    case ANone => Ok(None)
    case AStr(s) => Ok(Some(Chars(s)))
    case AList(items) =>
      if forall i :: 0 <= i < |items| ==> items[i].AStr? then
        Ok(Some(Names(seq(|items|, i requires 0 <= i < |items| && items[i].AStr? => items[i].s))))
      else Err(NotModelled("tag list with non-string items"))
    case _ => Err(NotModelled("tag argument that is neither a string nor a list"))
  }

  /** `_get_text_data_from_page`'s choice: included tags when given, else excluded
      tags when given, else the important tags. */
  function PolicyOf(incl: Result<Option<Tags>>, excl: Result<Option<Tags>>): Result<Policy> {
    if incl.Err? then Err(incl.error)
    else if incl.value.Some? then Ok(Include(TagSequence(incl.value.value)))
    else if excl.Err? then Err(excl.error)
    else if excl.value.Some? then Ok(Exclude(excl.value.value))
    else Ok(Important)
  }

  /** The policy of the two command-line tag arguments as the provider reads
      them: a string argument is iterated character by character and
      substring-tested. */
  function ArgPolicy(includeTags: Arg, excludeTags: Arg): Result<Policy> {
    PolicyOf(TagsAsWritten(includeTags), TagsAsWritten(excludeTags))
  }

  /** Included tags win over excluded tags, which win over the important tags. */
  lemma {:induction false} PolicyPrecedence(incl: Tags, exclude1: Result<Option<Tags>>, exclude2: Result<Option<Tags>>, exclude: Tags)
    ensures PolicyOf(Ok(Some(incl)), exclude1) == PolicyOf(Ok(Some(incl)), exclude2)
    ensures PolicyOf(Ok(Some(incl)), exclude1) == Ok(Include(TagSequence(incl)))
    ensures PolicyOf(Ok(None), Ok(Some(exclude))) == Ok(Exclude(exclude))
    ensures PolicyOf(Ok(None), Ok(None)) == Ok(Important)
  {
  }

  /** `page.find_all(name)` */
  function FindAll(page: seq<Element>, name: string): (r: seq<Element>)
    ensures forall i :: 0 <= i < |r| ==> r[i].name == name
    ensures |r| <= |page|
  {
    if page == [] then []
    else if page[0].name == name then [page[0]] + FindAll(page[1..], name)
    else FindAll(page[1..], name)
  }

  function TextsOf(elements: seq<Element>): (r: seq<string>)
    ensures |r| == |elements|
    ensures forall i :: 0 <= i < |elements| ==> r[i] == elements[i].text
  {
    seq(|elements|, i requires 0 <= i < |elements| => elements[i].text)
  }

  /** The text of the elements of each tag, tag by tag, each text followed by a
      space. */
  function IncludedText(page: seq<Element>, tags: seq<string>): string {
    if tags == [] then ""
    else IncludedText(page, tags[..|tags| - 1]) + Concat(Spaced(TextsOf(FindAll(page, tags[|tags| - 1]))))
  }

  predicate Kept(exclude: Tags, e: Element) {
    !TagContains(exclude, e.name) && e.name !in SkipTags
  }

  /** The text of every element that is neither excluded nor skipped, in document
      order, each followed by a space. */
  function NotExcludedText(page: seq<Element>, exclude: Tags): string {
    if page == [] then ""
    else
      var e := page[|page| - 1];
      NotExcludedText(page[..|page| - 1], exclude) + (if Kept(exclude, e) then e.text + " " else "")
  }

  function PageText(policy: Policy, page: seq<Element>): string {
    match policy
    case Include(tags) => IncludedText(page, tags)
    case Exclude(tags) => NotExcludedText(page, tags)
    case Important => IncludedText(page, ImportantTags)
  }

  /** Nothing but the selected elements contributes: with included tags, a page
      without elements of those tags has no text; with excluded tags, a page whose
      elements are all excluded or skipped has none. */
  lemma {:induction false} IncludedTextNeedsTags(page: seq<Element>, tags: seq<string>)
    requires forall i, j :: 0 <= i < |page| && 0 <= j < |tags| ==> page[i].name != tags[j]
    ensures IncludedText(page, tags) == ""
  {
    if tags != [] {
      IncludedTextNeedsTags(page, tags[..|tags| - 1]);
      FindAllAbsent(page, tags[|tags| - 1]);
    }
  }

  lemma {:induction false} FindAllAbsent(page: seq<Element>, name: string)
    requires forall i :: 0 <= i < |page| ==> page[i].name != name
    ensures FindAll(page, name) == []
  {
    if page != [] {
      FindAllAbsent(page[1..], name);
    }
  }

  lemma {:induction false} NotExcludedTextNeedsKept(page: seq<Element>, exclude: Tags)
    requires forall i :: 0 <= i < |page| ==> !Kept(exclude, page[i])
    ensures NotExcludedText(page, exclude) == ""
  {
    if page != [] {
      NotExcludedTextNeedsKept(page[..|page| - 1], exclude);
    }
  }

  /** The inner loop: the texts of `elements`, each followed by a space. */
  method AppendTexts(text0: string, elements: seq<Element>) returns (text: string)
    ensures text == text0 + Concat(Spaced(TextsOf(elements)))
  {
    text := text0;
    for k := 0 to |elements|
      invariant text == text0 + Concat(Spaced(TextsOf(elements[..k])))
    {
      assert TextsOf(elements[..k + 1]) == TextsOf(elements[..k]) + [elements[k].text];
      SpacedSnoc(TextsOf(elements[..k]), elements[k].text);
      text := text + elements[k].text + " ";
    }
    assert elements[..|elements|] == elements;
  }

  /** `_get_included_tag_data`, and `_get_important_tags_data` for the important
      tags. */
  method GetIncludedTagData(page: seq<Element>, tags: seq<string>) returns (finalData: string)
    ensures finalData == IncludedText(page, tags)
  {
    finalData := "";
    for j := 0 to |tags|
      invariant finalData == IncludedText(page, tags[..j])
    {
      assert tags[..j + 1][..j] == tags[..j];
      finalData := AppendTexts(finalData, FindAll(page, tags[j]));
    }
    assert tags[..|tags|] == tags;
  }

  /** `_get_important_tags_data` */
  method GetImportantTagsData(page: seq<Element>) returns (finalData: string)
    ensures finalData == IncludedText(page, ImportantTags)
  {
    finalData := GetIncludedTagData(page, ImportantTags);
  }

  /** `_get_not_excluded_tag_data` */
  method GetNotExcludedTagData(page: seq<Element>, exclude: Tags) returns (finalData: string)
    ensures finalData == NotExcludedText(page, exclude)
  {
    finalData := "";
    for k := 0 to |page|
      invariant finalData == NotExcludedText(page[..k], exclude)
    {
      assert page[..k + 1][..k] == page[..k];
      var tag := page[k];
      if !TagContains(exclude, tag.name) && tag.name !in SkipTags {
        finalData := finalData + tag.text + " ";
      }
    }
    assert page[..|page|] == page;
  }

  /** The language a text is filed under. */
  function LanguageOf(text: string, c: Collaborators): string {
    match c.detect(text)
    case Some(lang) => lang
    case None => UndetectedLanguage
  }

  /** As written, an include argument "h1" is iterated as the tags "h" and "1",
      so a page whose only element is an `h1` yields no text. */
  lemma {:induction false} IncludeAsWrittenSplitsTagName()
    ensures var page := [Element("h1", "Title")];
      ArgPolicy(AStr("h1"), ANone) == Ok(Include(["h", "1"])) &&
      PageText(Include(["h", "1"]), page) == ""
  {
    var page := [Element("h1", "Title")];
    assert TagSequence(Chars("h1")) == ["h", "1"];
    FindAllAbsent(page, "h");
    FindAllAbsent(page, "1");
    assert IncludedText(page, ["h", "1"][..1]) == IncludedText(page, []) + "";
  }

  /** Read as tag names, the include argument "h1" selects the `h1` element. */
  lemma {:induction false} IncludeCorrectedSelectsTag()
    ensures var page := [Element("h1", "Title")];
      PolicyOf(TagsOf(AStr("h1")), Ok(None)) == Ok(Include(["h1"])) &&
      PageText(Include(["h1"]), page) == "Title "
  {
    var page := [Element("h1", "Title")];
    assert !IsSpace("h1"[0]) && !IsSpace("h1"[1]);
    WordsNoSpace("h1");
    assert page[1..] == [];
    assert FindAll(page, "h1") == page;
    assert TextsOf(page) == ["Title"];
    assert "Title" + " " == "Title ";
    assert Spaced(["Title"]) == ["Title "];
    assert Concat(["Title "]) == "Title " + Concat([]);
    assert ["h1"][..0] == [];
  }

  /** As written, `tag.name not in "script"` is a substring test, so excluding
      "script" also drops every `p`, `c`, `i` and `t` element. */
  lemma {:induction false} ExcludeAsWrittenDropsSubstrings()
    ensures var page := [Element("p", "Body")];
      ArgPolicy(ANone, AStr("script")) == Ok(Exclude(Chars("script"))) &&
      PageText(Exclude(Chars("script")), page) == ""
  {
    var page := [Element("p", "Body")];
    assert "p" <= "script"[4..];
    assert IsSubstring("p", "script");
    assert !Kept(Chars("script"), page[0]);
    assert page[..0] == [];
  }

  /** Read as tag names, excluding "script" keeps a `p` element. */
  lemma {:induction false} ExcludeCorrectedKeepsOtherTags()
    ensures var page := [Element("p", "Body")];
      PolicyOf(Ok(None), TagsOf(AStr("script"))) == Ok(Exclude(Names(["script"]))) &&
      PageText(Exclude(Names(["script"])), page) == "Body "
  {
    var page := [Element("p", "Body")];
    var s := "script";
    assert !IsSpace(s[0]) && !IsSpace(s[1]) && !IsSpace(s[2]) && !IsSpace(s[3]) && !IsSpace(s[4]) && !IsSpace(s[5]);
    WordsNoSpace(s);
    assert "p" != "script";
    assert "p" !in SkipTags;
    assert page[..0] == [];
  }

  // ---------------------------------------------------------------------------
  // Bucketing

  /** `if lang not in d: d[lang] = list()` followed by `d[lang].append(text)`. */
  function FileText(d: Dict<string, seq<string>>, text: string, lang: string): Dict<string, seq<string>> {
    Put(d, lang, (if Get(d, lang).Some? then Get(d, lang).value else []) + [text])
  }

  /** The buckets after filing each (text, language) pair in turn. */
  function Bucketed(pairs: seq<(string, string)>): Dict<string, seq<string>> {
    if pairs == [] then []
    else FileText(Bucketed(pairs[..|pairs| - 1]), pairs[|pairs| - 1].0, pairs[|pairs| - 1].1)
  }

  /** The texts filed under `lang`, in page order. */
  function TextsIn(pairs: seq<(string, string)>, lang: string): seq<string> {
    if pairs == [] then []
    else TextsIn(pairs[..|pairs| - 1], lang) + (if pairs[|pairs| - 1].1 == lang then [pairs[|pairs| - 1].0] else [])
  }

  function Languages(pairs: seq<(string, string)>): set<string> {
    set i | 0 <= i < |pairs| :: pairs[i].1
  }

  lemma {:induction false} LanguagesSnoc(pairs: seq<(string, string)>)
    requires pairs != []
    ensures Languages(pairs) == Languages(pairs[..|pairs| - 1]) + {pairs[|pairs| - 1].1}
  {
    var init := pairs[..|pairs| - 1];
    forall k | k in Languages(pairs) ensures k in Languages(init) + {pairs[|pairs| - 1].1} {
      var i :| 0 <= i < |pairs| && pairs[i].1 == k;
      if i < |init| {
        assert init[i] == pairs[i];
      }
    }
    forall k | k in Languages(init) ensures k in Languages(pairs) {
      var i :| 0 <= i < |init| && init[i].1 == k;
      assert pairs[i] == init[i];
    }
    assert pairs[|pairs| - 1].1 in Languages(pairs);
  }

  /** `d` holds a bucket exactly for each language of `pairs`, with that
      language's texts in page order, and no key twice. */
  ghost predicate Buckets(d: Dict<string, seq<string>>, pairs: seq<(string, string)>) {
    Valid(d) && forall k :: Get(d, k) == if k in Languages(pairs) then Some(TextsIn(pairs, k)) else None
  }

  lemma {:induction false} FileTextStep(d: Dict<string, seq<string>>, pairs: seq<(string, string)>)
    requires pairs != [] && Buckets(d, pairs[..|pairs| - 1])
    ensures Buckets(FileText(d, pairs[|pairs| - 1].0, pairs[|pairs| - 1].1), pairs)
  {
    var (text, lang) := pairs[|pairs| - 1];
    var v := (if Get(d, lang).Some? then Get(d, lang).value else []) + [text];
    PutKeepsValid(d, lang, v);
    forall k ensures Get(FileText(d, text, lang), k) == if k in Languages(pairs) then Some(TextsIn(pairs, k)) else None {
      FileTextAt(d, pairs, k);
    }
  }

  /** Filing the last pair, seen at one language `k`. */
  lemma {:induction false} FileTextAt(d: Dict<string, seq<string>>, pairs: seq<(string, string)>, k: string)
    requires pairs != []
    requires Get(d, k) == if k in Languages(pairs[..|pairs| - 1]) then Some(TextsIn(pairs[..|pairs| - 1], k)) else None
    requires var lang := pairs[|pairs| - 1].1;
      Get(d, lang) == if lang in Languages(pairs[..|pairs| - 1]) then Some(TextsIn(pairs[..|pairs| - 1], lang)) else None
    ensures Get(FileText(d, pairs[|pairs| - 1].0, pairs[|pairs| - 1].1), k) ==
      if k in Languages(pairs) then Some(TextsIn(pairs, k)) else None
  {
    var init := pairs[..|pairs| - 1];
    var (text, lang) := pairs[|pairs| - 1];
    var v := (if Get(d, lang).Some? then Get(d, lang).value else []) + [text];
    LanguagesSnoc(pairs);
    PutSpec(d, lang, v);
    assert pairs[|pairs| - 1] == (text, lang);
    if k == lang {
      if lang !in Languages(init) {
        TextsInAbsent(init, lang);
      }
      assert v == TextsIn(pairs, lang);
      assert Get(FileText(d, text, lang), k) == Some(v);
      assert k in Languages(pairs);
    } else {
      assert TextsIn(pairs, k) == TextsIn(init, k) + [] == TextsIn(init, k);
      assert k in Languages(pairs) <==> k in Languages(init);
      assert Get(FileText(d, text, lang), k) == Get(d, k);
    }
  }

  /** A bucket exists exactly for each language that occurs, and holds that
      language's texts in page order; no key repeats. */
  lemma {:induction false} BucketedSpec(pairs: seq<(string, string)>)
    ensures Buckets(Bucketed(pairs), pairs)
  {
    if pairs != [] {
      BucketedSpec(pairs[..|pairs| - 1]);
      FileTextStep(Bucketed(pairs[..|pairs| - 1]), pairs);
    }
  }

  lemma {:induction false} TextsInAbsent(pairs: seq<(string, string)>, lang: string)
    requires lang !in Languages(pairs)
    ensures TextsIn(pairs, lang) == []
  {
    if pairs != [] {
      var init := pairs[..|pairs| - 1];
      assert pairs[|pairs| - 1].1 in Languages(pairs);
      assert Languages(init) <= Languages(pairs) by {
        forall k | k in Languages(init) ensures k in Languages(pairs) {
          var i :| 0 <= i < |init| && init[i].1 == k;
          assert pairs[i] == init[i];
        }
      }
      TextsInAbsent(init, lang);
    }
  }

  /** The total number of texts over all buckets. */
  function Size(d: Dict<string, seq<string>>): nat {
    if d == [] then 0 else |d[0].1| + Size(d[1..])
  }

  lemma {:induction false} SizeAppend(d: Dict<string, seq<string>>, e: (string, seq<string>))
    ensures Size(d + [e]) == Size(d) + |e.1|
  {
    if d != [] {
      assert (d + [e])[1..] == d[1..] + [e];
      SizeAppend(d[1..], e);
    }
  }

  lemma {:induction false} SizeUpdate(d: Dict<string, seq<string>>, i: nat, e: (string, seq<string>))
    requires i < |d|
    ensures Size(d[i := e]) == Size(d) - |d[i].1| + |e.1|
  {
    if i > 0 {
      assert d[i := e][1..] == d[1..][i - 1 := e];
      SizeUpdate(d[1..], i - 1, e);
    }
  }

  /** Bucketing keeps every text: the bucket sizes sum to the number of pages. */
  lemma {:induction false} BucketedSize(pairs: seq<(string, string)>)
    ensures Size(Bucketed(pairs)) == |pairs|
  {
    if pairs != [] {
      var init := pairs[..|pairs| - 1];
      var (text, lang) := pairs[|pairs| - 1];
      BucketedSize(init);
      BucketedSpec(init);
      var d := Bucketed(init);
      if Get(d, lang).Some? {
        var i :| 0 <= i < |d| && Keys(d)[i] == lang;
        GetEntry(d, i);
        PutExisting(d, i, d[i].1 + [text]);
        SizeUpdate(d, i, (lang, d[i].1 + [text]));
      } else {
        assert [] + [text] == [text];
        PutNew(d, lang, [text]);
        SizeAppend(d, (lang, [text]));
      }
    }
  }

  /** The provider of one run, holding the tag arguments it was constructed with. */
  class DataProvider {
    const includeTags: Arg
    const excludeTags: Arg
    const advisor: Advisor

    constructor (advisor: Advisor, includeTags: Arg, excludeTags: Arg)
      ensures this.advisor == advisor && this.includeTags == includeTags && this.excludeTags == excludeTags
    {
      this.advisor := advisor;
      this.includeTags := includeTags;
      this.excludeTags := excludeTags;
    }

    /** The policy of the two tag arguments as the code reads them. */
    function TagPolicy(): Result<Policy> {
      ArgPolicy(includeTags, excludeTags)
    }

    /** `_get_text_data_from_page`: the text chosen by the policy and the language
        detected for it, "None" when detection fails. */
    method GetTextDataFromPage(page: seq<Element>, c: Collaborators) returns (r: Result<(string, string)>)
      ensures TagPolicy().Err? ==> r == Err(TagPolicy().error)
      ensures TagPolicy().Ok? ==>
        r == Ok((PageText(TagPolicy().value, page), LanguageOf(PageText(TagPolicy().value, page), c)))
    {
      var policy := TagPolicy();
      if policy.Err? {
        return Err(policy.error);
      }
      var text: string;
      match policy.value {
        case Include(tags) =>
          text := GetIncludedTagData(page, tags);
        case Exclude(tags) =>
          text := GetNotExcludedTagData(page, tags);
        case Important =>
          text := GetImportantTagsData(page);
      }
      var lang := UndetectedLanguage;
      var detected := c.detect(text);
      if detected.Some? {
        lang := detected.value;
      }
      return Ok((text, lang));
    }

    /** `get_train_data_ready_to_work`: read the data file at the root, then file
        each page's text under its language. */
    method GetTrainDataReadyToWork(dataFileName: string, dataFileExtension: string, dataFileType: string,
                                   c: Collaborators)
      returns (r: Result<Dict<string, seq<string>>>)
      ensures r == TrainData(advisor.store.files, advisor.DataFoldersFilePath(dataFileName, dataFileExtension),
                             dataFileType, TagPolicy(), c)
    {
      var dataFilePath := advisor.DataFoldersFilePath(dataFileName, dataFileExtension);
      var textData :- GetRawDataFromPathFile(advisor.store, dataFileType, dataFilePath, c);
      if textData.None? {
        return Err(TypeError);
      }
      r := FilePages(textData.value, c);
    }

    /** The loop of `get_train_data_ready_to_work` over the pages. */
    method FilePages(pages: seq<string>, c: Collaborators) returns (r: Result<Dict<string, seq<string>>>)
      ensures r == FiledPages(pages, TagPolicy(), c)
    {
      var readyToTrainData: Dict<string, seq<string>> := [];
      ghost var policy := TagPolicy();
      for index := 0 to |pages|
        invariant policy.Ok? ==> readyToTrainData == Bucketed(Filed(pages[..index], policy.value, c))
        invariant policy.Err? ==> index == 0 && readyToTrainData == []
      {
        var filed := GetTextDataFromPage(c.parse(pages[index]), c);
        if filed.Err? {
          return Err(filed.error);
        }
        var (text, lang) := filed.value;
        assert Filed(pages[..index + 1], policy.value, c)[..index] == Filed(pages[..index], policy.value, c);
        readyToTrainData := AddText(readyToTrainData, text, lang);
      }
      assert pages[..|pages|] == pages;
      return Ok(readyToTrainData);
    }
  }

  /** The (text, language) pair of each page. */
  function Filed(pages: seq<string>, policy: Policy, c: Collaborators): (r: seq<(string, string)>)
    ensures |r| == |pages|
    ensures forall i :: 0 <= i < |pages| ==> r[i].0 == PageText(policy, c.parse(pages[i]))
    ensures forall i :: 0 <= i < |pages| ==> r[i].1 == LanguageOf(r[i].0, c)
  {
    seq(|pages|, i requires 0 <= i < |pages| =>
      (PageText(policy, c.parse(pages[i])), LanguageOf(PageText(policy, c.parse(pages[i])), c)))
  }

  /** The buckets of the pages; a tag argument the model does not interpret stops
      at the first page. */
  function FiledPages(pages: seq<string>, policy: Result<Policy>, c: Collaborators): Result<Dict<string, seq<string>>> {
    if policy.Ok? then Ok(Bucketed(Filed(pages, policy.value, c)))
    else if pages == [] then Ok([])
    else Err(policy.error)
  }

  /** What `get_train_data_ready_to_work` returns for the data file at `p`: an
      unknown file type gives `None`, which the loop cannot iterate. */
  function TrainData(files: map<string, Content>, p: string, fileType: string, policy: Result<Policy>,
                     c: Collaborators): Result<Dict<string, seq<string>>>
  {
    var raw := RawPages(files, fileType, p, c);
    if raw.Err? then Err(raw.error)
    else if raw.value.None? then Err(TypeError)
    else FiledPages(raw.value.value, policy, c)
  }

  /** An unknown file type fails; for a known one every page read is filed, each
      under its detected language ("None" when detection fails), each bucket in
      page order, and the bucket sizes add up to the number of pages. */
  lemma {:induction false} TrainDataSpec(files: map<string, Content>, p: string, fileType: string, policy: Policy, c: Collaborators)
    ensures fileType !in DataFileTypes ==> TrainData(files, p, fileType, Ok(policy), c) == Err(TypeError)
    ensures var raw := RawPages(files, fileType, p, c);
      raw.Ok? && raw.value.Some? ==>
        var r := TrainData(files, p, fileType, Ok(policy), c);
        var pairs := Filed(raw.value.value, policy, c);
        r.Ok? && Size(r.value) == |raw.value.value| && Buckets(r.value, pairs)
  {
    var raw := RawPages(files, fileType, p, c);
    if raw.Ok? && raw.value.Some? {
      var pairs := Filed(raw.value.value, policy, c);
      BucketedSize(pairs);
      BucketedSpec(pairs);
    }
  }

  /** One page filed under its language. */
  method AddText(d: Dict<string, seq<string>>, text: string, lang: string) returns (r: Dict<string, seq<string>>)
    ensures r == FileText(d, text, lang)
  {
    var bucket := Get(d, lang);
    if bucket.None? {
      var created := Put(d, lang, []);
      PutSpec(d, lang, []);
      var current := Get(created, lang).value;
      r := Put(created, lang, current + [text]);
      PutTwice(d, lang, [], [text]);
    } else {
      r := Put(d, lang, bucket.value + [text]);
    }
  }

  /** Creating an empty bucket and then appending to it is one assignment. */
  lemma {:induction false} PutTwice(d: Dict<string, seq<string>>, k: string, v: seq<string>, extra: seq<string>)
    requires Get(d, k).None?
    ensures Put(Put(d, k, v), k, v + extra) == Put(d, k, v + extra)
  {
    if d != [] {
      assert Get(d, k) == Get(d[1..], k);
      PutTwice(d[1..], k, v, extra);
    }
  }
}
