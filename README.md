# topic_extraction — a Dafny model of the experiment bookkeeping

`topic_extraction` runs topic-model experiments over crawled web text. One run goes through these steps:

1. It reads the command-line arguments and splits them into the data, dictionary, model, versionify and request groups.
2. It configures the data root of the `Advisor` path resolver.
3. It obtains the processed data. The data is either read back from the cache of an earlier run, or rebuilt:
   - the raw data file is read and framed into pages (CommonCrawl, JSON lines or semi-JSON);
   - each page's text is picked by a tag policy and filed under its detected language;
   - every supported language's texts are lemmatised token by token;
   - the result is cached per language, together with a meta file.
4. It expands the model hyper-parameters:
   - a `[start, stop, step]` argument becomes a range;
   - every parameter with more than one value is swept along its own one-at-a-time grid;
   - all other parameters are held at their best values.
5. For every requested model family, every language of the data that was requested, and every swept parameter, it builds or loads a model for each grid row:
   - the dictionary and corpus come from a process-wide holder;
   - the model comes from a family class (LDA, Mallet LDA, LSI, HDP);
   - evaluation metrics and parameters are written next to each model;
   - the metrics are regrouped into one column per metric for plotting.

The model keeps the program's structure: one Dafny module per source file.

- `Advisor` covers the path templates and their formatting. Its class holds the root template and the "is set" flag. The `*_file_path` getters create the folder when it is missing.
- `FileStore` is the filesystem: a set of existing folders plus a map from file path to stored content. It also defines the load-or-build step that the caches share.
- `ExeParams` and `ModelParams` cover the argument groups, the range expansion, the seven model parameters as objects, and the sweep grids.
- `DataProvider` covers line framing of the three file types, the tag policies, and the bucketing of page texts by language.
- `TextPreprocessor` covers:
  - the per-language registry of preprocessors;
  - the token-validity predicate;
  - in-place lemmatisation of a document list;
  - the cache write/read of processed data and the reload check of `get_processed_data`.
- `TopicModelEssential` covers the dictionary/corpus holder. It appears twice: as the source's singleton, which the program uses, and as a registry keyed by language and versions, the corrected form.
- `TopicModel` covers the base class plus the family-specific build, save, load and report logic, selected by a family tag. The modules `LdaTopicModel`, `LdaMalletTopicModel`, `HdpTopicModel` and `LsiTopicModel` hold each family's fit call, metric names and recorded parameters.
- `TopicExtractionHandler` covers:
  - the three nested loops of `get_topic_extraction`, one method per loop level;
  - the dispatch on the model name, as written and corrected;
  - the four metric collectors;
  - the reshaping of `{value: {metric: score}}` into `{metric: [[value, score], …]}`.

Supporting modules:

- `Basics`: Option/Result, Python's error kinds, string helpers.
- `OrderedMap`: Python's insertion-ordered `dict` as a list of pairs.
- `Artifacts`: argparse values, JSON documents, and free terms that stand for what gensim, spaCy and BeautifulSoup produce.

Foreign per-call behaviour is passed in as function-valued parameters:

- HTML parsing;
- language detection;
- `json.loads` of a line;
- spaCy tokenisation.

Fitted models, dictionaries, corpora and metric scores are terms that record how they were built. This is what lets the contracts say "the build ran on these inputs" or "nothing was built".

Points where the code's behaviour is easy to misread, which the model follows:

- **Swept parameters.** The code sets the iterable flag whenever the argument has more than one element (`model_params.py:10-14`), even when the expansion yields a single value.
- **Value types.** A range triple is expanded by repeated addition of the step. The model uses integers for the triple, and keeps other argument values as argparse gives them.
- **Path uniqueness.** Nothing in the code keeps two different keys apart in the path: names and values may contain `-` or `/`. The model proves the segment order, the prefix order, and that different languages get different cache files.
- **Class-level state.** `Advisor`, `ModelParams`, `TextPreprocessor` and `TopicModelEssential` keep their state in class attributes. The model passes each as an explicit object. The program uses the dictionary/corpus holder with the singleton's behaviour, so every language after the first reuses the first language's dictionary and corpus (see Findings).
- **Tag arguments.** argparse delivers `include_tags` and `exclude_tags` as strings. The provider iterates a string character by character and tests exclusion as a substring (`data_provider.py:185`, `:202`), and the model reads them the same way (see Findings).
- **HDP metrics.** `_get_hdp_model_metrics` trains every model of its sweep and then returns `None` (`topic_extraction_handler.py:172`), so every HDP plot receives `{}`. The model's dispatch does the same (see Findings).

## Model

| member | source | states |
|---|---|---|
| Advisor.FormatRoot | topic_extraction/advisor.py:7 | The initial root template `"{}/"` formats any argument `r` into `r + "/"`, braces inside `r` included. |
| Advisor.SecondSetKeepsRoot | topic_extraction/advisor.py:20-23 | Setting the root twice keeps the first root when that root had no braces; the second argument is ignored. |
| Advisor.SecondSetFormatsBracedRoot | topic_extraction/advisor.py:20-23 | A first root containing `{}` is formatted again by the second call, so the second argument then replaces it. |
| Advisor.SecondSetFormatsIndexedRoot | topic_extraction/advisor.py:20-23 | A first root containing `{0}` or `{!s}` is also formatted again, so the second argument replaces the field. |
| Advisor.FieldCases | topic_extraction/advisor.py:22 | In `str.format` with one argument, the field `{0}` and the conversion `{!s}` render the argument. |
| Advisor.MissingFieldCases | topic_extraction/advisor.py:22 | A second `{}` and `{1}` raise IndexError, as there is one argument; a named field raises KeyError. |
| Advisor.MalformedFieldCases | topic_extraction/advisor.py:22 | Switching between automatic and explicit numbering, and an unclosed `{`, raise ValueError. |
| Advisor.Advisor.constructor | topic_extraction/advisor.py:5-7 | A fresh resolver holds the template `"{}/"` as its root and is not configured. |
| Advisor.Advisor.SetDataFolderPath | topic_extraction/advisor.py:20-23 | The root becomes the old root formatted as `str.format` does with the argument, and the flag is set; a formatting error (lone brace, unclosed field, mixed numbering, an index beyond 0, a keyword field) leaves both unchanged. |
| Advisor.UnsetRootFails | topic_extraction/advisor.py:25-29 | Before configuration the root getter raises FileNotFoundError, and every language-rooted folder getter raises the same error. |
| Advisor.MetaPathIgnoresFlag | topic_extraction/advisor.py:31-40 | The meta path is root + `meta-of-data-file.json` whether or not the root was set; unset, it is the literal `{}/meta-of-data-file.json`. |
| Advisor.FolderChain | topic_extraction/advisor.py:42-131 | With the root set, each folder getter returns its parent getter's folder plus exactly one segment, in the order lang, data-version, dict-version, model-version, `{param}-{v}`, `{type}-model`, `visualization`. |
| Advisor.FolderPrefixOrder | topic_extraction/advisor.py:42-131 | Every shallower folder is a string prefix of every deeper one. |
| Advisor.FoldersEndInSlash | topic_extraction/advisor.py:7-15 | Every resolved folder, the topic-version ones included, ends in `/`. |
| Advisor.TopicVersionAgrees | topic_extraction/advisor.py:123-150 | From a parameter-version folder, the topic-version visualization folder equals the visualization getter's folder, and the topic folder adds `Topic-<id>/`. |
| Advisor.Advisor.FileIn | topic_extraction/advisor.py:53-58 | The file path is the resolved folder plus the file name. The folder is created when missing, no file changes, and an unresolvable folder changes nothing. |
| Advisor.Advisor.DataVersionFoldersFilePath | topic_extraction/advisor.py:53-58 | The data-version folder plus `name.ext`; the folder exists afterwards, files unchanged. |
| Advisor.Advisor.DictionaryVersionFolderFilePath | topic_extraction/advisor.py:66-72 | The dict-version folder plus `name.ext`; the folder exists afterwards, files unchanged. |
| Advisor.Advisor.ModelVersionFoldersFilePath | topic_extraction/advisor.py:80-87 | The model-version folder plus `name.ext`; the folder exists afterwards, files unchanged. |
| Advisor.Advisor.ParamVersionFoldersFilePath | topic_extraction/advisor.py:95-103 | The `{param}-{v}` folder plus `name.ext`; the folder exists afterwards, files unchanged. |
| Advisor.Advisor.ModelTypeFoldersFilePath | topic_extraction/advisor.py:112-121 | The `{type}-model` folder plus the bare name, without an extension; the folder exists afterwards, files unchanged. |
| Advisor.Advisor.VisualizationFilePathFromTopicVersion | topic_extraction/advisor.py:138-144 | The topic-version visualization folder plus `name.ext`, with that folder created when missing. |
| Advisor.Advisor.TopicFoldersFilePathFromTopicVersion | topic_extraction/advisor.py:152-159 | The `Topic-<id>/` folder below it plus `name.ext`, with that folder created when missing. |
| FileStore.FolderPrefixes | topic_extraction/advisor.py:56-57 | Every folder `makedirs` creates is a prefix of the path ending in `/`, and a path ending in `/` is created itself. |
| FileStore.EnsuredDirsSpec | topic_extraction/advisor.py:56-57 | After the guarded `makedirs` the folder exists and every earlier folder still does; a second time changes nothing. |
| FileStore.Loaded | topic_extraction/topic_model/topic_model_essential.py:62-64 | Loading succeeds exactly on a stored file of the right kind; anything else is a corrupt-artifact error. |
| FileStore.ResolvePresent | topic_extraction/topic_model/topic_model_essential.py:62-64 | A present path never triggers a build: the result and the store do not depend on what would have been built. |
| FileStore.ResolveAbsent | topic_extraction/topic_model/topic_model_essential.py:65-66 | A missing path is built and saved at exactly that path; the folder is created and the store gains that one path. |
| FileStore.ResolveTwice | topic_extraction/topic_model/topic_model_essential.py:62-66 | Resolving again after a successful resolve loads the same artifact and changes nothing more. |
| FileStore.Store.constructor | topic_extraction/advisor.py:56 | A store holds the given folders and files. |
| FileStore.Store.EnsureFolder | topic_extraction/advisor.py:56-57 | The folders become the ensured folders of the path; files do not change. |
| FileStore.Store.Write | topic_extraction/topic_model/topic_model.py:63-69 | Opening with `"w"` creates or replaces the file at that path only. |
| ExeParams.NameListsDistinct | topic_extraction/manager/interfaces/exe_params.py:8 | The five name lists have no repeated names. |
| ExeParams.FromPairsSpec | topic_extraction/manager/interfaces/exe_params.py:11-16 | The dict of all arguments holds every passed name, at the value of its last pair, and nothing else. |
| ExeParams.ExtractExeParametersAsDict | topic_extraction/manager/interfaces/exe_params.py:11-16 | The loop's dict is the one obtained by assigning the pairs in turn. |
| ExeParams.ProjectionGet | topic_extraction/manager/interfaces/exe_params.py:22-25 | A projection holds a name iff it is listed; the name maps to the passed value when present and to `None` otherwise. |
| ExeParams.ProjectionKeySet | topic_extraction/manager/interfaces/exe_params.py:22-25 | The key set of a projection is exactly the set of listed names. |
| ExeParams.ProjectionKeys | topic_extraction/manager/interfaces/exe_params.py:22-25 | For a list without repeats, the projection's keys are the list itself, in order. |
| ExeParams.Project | topic_extraction/manager/interfaces/exe_params.py:19-26 | The getter loop computes the projection of the passed dict onto the name list. |
| ExeParams.GetDataParameters | topic_extraction/manager/interfaces/exe_params.py:19-26 | Keys exactly the data names, in order, at the passed value or `None`. |
| ExeParams.GetDictionaryParameters | topic_extraction/manager/interfaces/exe_params.py:29-36 | Keys exactly the dictionary names, at the passed value or `None`. |
| ExeParams.GetVersionifyParameters | topic_extraction/manager/interfaces/exe_params.py:50-57 | Keys exactly the versionify names, at the passed value or `None`. |
| ExeParams.GetRequestParameters | topic_extraction/manager/interfaces/exe_params.py:60-67 | Keys exactly the request names, at the passed value or `None`. |
| ExeParams.ModelProjectionHasEveryName | topic_extraction/manager/interfaces/exe_params.py:39-47 | The model projection names all seven parameters, so the sweep setup never raises KeyError. |
| ExeParams.GetModelParameters | topic_extraction/manager/interfaces/exe_params.py:39-47 | It returns the projection onto the seven model names after `set_model_params_value` ran on it, whose state change and exception it reports. |
| ExeParams.GetParameters | topic_extraction/manager/interfaces/exe_params.py:70-77 | It returns the six groups in order, every one derived from the same dict of all arguments. |
| ModelParams.NamesDistinct | topic_extraction/manager/interfaces/model_params.py:50-57 | The seven parameter names are distinct. |
| ModelParams.ExpansionShape | topic_extraction/manager/interfaces/model_params.py:15-18 | The expansion starts with `start`; each later value is the previous plus `step` and is at most `stop`; one more step would pass `stop`. |
| ModelParams.ExpansionLength | topic_extraction/manager/interfaces/model_params.py:15-18 | For `step > 0` the expansion has `(stop - start) div step + 1` values when `start <= stop`, else one value. |
| ModelParams.ExpansionDiverges | topic_extraction/manager/interfaces/model_params.py:16-18 | With `step <= 0` and `start + step <= stop` the loop guard holds after every iteration, so the loop never ends. |
| ModelParams.StringRangeGuard | topic_extraction/manager/interfaces/model_params.py:10-18 | On a bare string the lexicographic guard holds forever when its first character is below its second, and fails at once otherwise. |
| ModelParams.SetSingleValue | topic_extraction/manager/interfaces/model_params.py:9-20 | A one-element list is stored unchanged and becomes the best value; the iterable flag keeps its value. |
| ModelParams.SetRangeValue | topic_extraction/manager/interfaces/model_params.py:10-21 | An integer triple that ends is expanded and marks the parameter iterable, with best value `start`; extra elements are ignored. |
| ModelParams.SetDivergingRange | topic_extraction/manager/interfaces/model_params.py:10-18 | A triple whose loop never ends is reported as non-terminating, with the parameter already marked iterable. |
| ModelParams.SetAlphaString | topic_extraction/manager/interfaces/model_params.py:10-18 | A bare string argument such as `symmetric` makes `set_value` loop forever. |
| ModelParams.SetValueInvariants | topic_extraction/manager/interfaces/model_params.py:9-21 | Whenever `set_value` returns, the best value is the first stored value, and the iterable flag is never cleared. |
| ModelParams.ModelParamType.constructor | topic_extraction/manager/interfaces/model_params.py:2-7 | A fresh parameter has its name, no value, no best value and is not iterable. |
| ModelParams.ModelParamType.SetValue | topic_extraction/manager/interfaces/model_params.py:9-21 | The new state and outcome are those of the function modelling `set_value`, whose properties are the lemmas above. |
| ModelParams.ModelParamType.Expand | topic_extraction/manager/interfaces/model_params.py:15-18 | The while loop yields exactly the expansion of the triple. |
| ModelParams.ModelParamType.UpdateBestValue | topic_extraction/manager/interfaces/model_params.py:23-24 | Only the best value changes. |
| ModelParams.SetAllKeeps | topic_extraction/manager/interfaces/model_params.py:60-67 | The walk over the parameters does not touch parameters before its start, and a set iterable flag stays set. |
| ModelParams.SetAllNamed | topic_extraction/manager/interfaces/model_params.py:60-67 | When every name has an argument the walk never raises KeyError. |
| ModelParams.SetValueNeverKeyError | topic_extraction/manager/interfaces/model_params.py:9-21 | `set_value` itself never raises KeyError. |
| ModelParams.SetAllAppends | topic_extraction/manager/interfaces/model_params.py:60-67 | The walk appends indices in parameter order, each at most once, and only of parameters iterable when the call returns. |
| ModelParams.SetAllAppendsEvery | topic_extraction/manager/interfaces/model_params.py:60-67 | A walk that succeeds appends every parameter from its start on that is iterable when it returns. |
| ModelParams.SetAllAppendsIterables | topic_extraction/manager/interfaces/model_params.py:60-67 | On a successful call, a parameter is appended to `_iterables` exactly when it is iterable afterwards. |
| ModelParams.SetAllStopped | topic_extraction/manager/interfaces/model_params.py:60-67 | A walk that stops at once appends nothing. |
| ModelParams.SetValueTwice | topic_extraction/manager/interfaces/model_params.py:9-21 | Repeating a successful `set_value` with the same argument gives the same state. |
| ModelParams.SecondCallAppendsAgain | topic_extraction/manager/interfaces/model_params.py:59-67 | A second successful call with the same arguments leaves the states as they are and appends the same indices again, since `_iterables` is never cleared. |
| ModelParams.BaseRow | topic_extraction/manager/interfaces/model_params.py:71-74 | The base dict has one entry per model parameter. |
| ModelParams.Grid | topic_extraction/manager/interfaces/model_params.py:70-81 | The grid has one row per stored value of the tested parameter. |
| ModelParams.GridRowSpec | topic_extraction/manager/interfaces/model_params.py:75-81 | Every row is keyed by exactly the seven names; the tested name maps to the row's value, every other name to its best value. |
| ModelParams.Dedup | topic_extraction/manager/interfaces/model_params.py:84-89 | The first occurrences of a list keep its elements, and only them. |
| ModelParams.DedupDistinct | topic_extraction/manager/interfaces/model_params.py:84-89 | The first occurrences contain no element twice. |
| ModelParams.PutDedup | topic_extraction/manager/interfaces/model_params.py:86-88 | Assigning in turn keeps the dict's keys equal to the first occurrences of the assigned names. |
| ModelParams.ModelParams.constructor | topic_extraction/manager/interfaces/model_params.py:28-36 | The seven parameters are fresh, distinct, named in order, unset, and `_iterables` is empty. |
| ModelParams.ModelParams.SetParam | topic_extraction/manager/interfaces/model_params.py:62-67 | `set_value` on one parameter; the other six are untouched. |
| ModelParams.ModelParams.SetModelParamsValue | topic_extraction/manager/interfaces/model_params.py:59-67 | The states, `_iterables` and the outcome are those of the walk: the old list plus the iterable parameters appended in order. |
| ModelParams.ModelParams.ApplyParam | topic_extraction/manager/interfaces/model_params.py:63-66 | One iteration keeps the walk's invariant: on success the rest of the walk from the next parameter yields the whole result; a missing name or a `set_value` exception yields the final state and outcome. |
| ModelParams.ModelParams.BaseParamsValue | topic_extraction/manager/interfaces/model_params.py:71-74 | The loop builds the base dict of best values. |
| ModelParams.ModelParams.GetParamsValues | topic_extraction/manager/interfaces/model_params.py:69-81 | The loop returns that parameter's grid; a parameter whose value was never set raises TypeError. |
| ModelParams.ModelParams.GetPossibleModelParamsValues | topic_extraction/manager/interfaces/model_params.py:83-89 | The keys are the distinct names of `_iterables` in first-listed order, each mapped to its grid; no iterables gives an empty dict. |
| DataProvider.LinesAt | topic_extraction/data/data_provider.py:85-93 | Opening a missing path raises; a stored text file yields its lines. |
| DataProvider.Frame | topic_extraction/data/data_provider.py:86-98 | The framing loop always returns at least one page. |
| DataProvider.FrameCount | topic_extraction/data/data_provider.py:91-98 | There is one page per header line, plus the page before the first header. |
| DataProvider.FrameConcat | topic_extraction/data/data_provider.py:94-98 | The pages concatenate to the stripped lines: framing loses and adds nothing. |
| DataProvider.FrameHeaders | topic_extraction/data/data_provider.py:94-98 | Every page after the first starts with the HTML header line that closed the previous one. |
| DataProvider.CommonCrawlSpec | topic_extraction/data/data_provider.py:76-104 | For a file: header count + 1 pages, concatenating to the stripped lines, every page but the first opening with a header. |
| DataProvider.ReadCommonCrawlFile | topic_extraction/data/data_provider.py:76-104 | The loop returns the framing of the file's stripped lines, or the open error. |
| DataProvider.SemiJsonPages | topic_extraction/data/data_provider.py:60-72 | The output is never longer than the file. |
| DataProvider.SemiJsonNeedsVersionOne | topic_extraction/data/data_provider.py:62-66 | A file without a three-piece line of storage version `1` yields no page. |
| DataProvider.SemiJsonKeepsDecoded | topic_extraction/data/data_provider.py:62-72 | When every line is well formed and decodes, every payload comes out, in line order. |
| DataProvider.ReadSemiJsonFile | topic_extraction/data/data_provider.py:48-74 | The loop skips malformed lines and raises nothing beyond the open error. |
| DataProvider.JsonPagesSpec | topic_extraction/data/data_provider.py:35-46 | One page per line when every line decodes; otherwise an error at the first line that does not, with its number. |
| DataProvider.JsonPagesErrPrefix | topic_extraction/data/data_provider.py:35-46 | A file fails the same way as its first failing prefix. |
| DataProvider.ReadJsonFile | topic_extraction/data/data_provider.py:35-46 | The loop computes those pages. |
| DataProvider.Spaced | topic_extraction/data/data_provider.py:106-111 | Each text followed by exactly one space, in order. |
| DataProvider.ConvertListOfStringToOneString | topic_extraction/data/data_provider.py:106-111 | The loop yields the concatenation of each element followed by one space. |
| DataProvider.RawPages | topic_extraction/data/data_provider.py:113-126 | Exactly the file types other than CommonCrawl, Json and SemiJson give `None`. |
| DataProvider.GetRawDataFromPathFile | topic_extraction/data/data_provider.py:113-126 | The dispatch runs the reader of the file type. |
| DataProvider.TagSequence | topic_extraction/data/data_provider.py:185 | A tag string is iterated character by character; a list of names as given. |
| DataProvider.PolicyPrecedence | topic_extraction/data/data_provider.py:161-167 | Included tags win whatever the excluded tags are; excluded tags win over the important tags, which are the default. |
| DataProvider.FindAll | topic_extraction/data/data_provider.py:185-187 | `find_all(name)` returns only elements of that name, no more than the page has. |
| DataProvider.IncludedTextNeedsTags | topic_extraction/data/data_provider.py:174-189 | A page whose elements carry none of the included tags yields no text. |
| DataProvider.NotExcludedTextNeedsKept | topic_extraction/data/data_provider.py:191-204 | A page whose elements are all excluded or skipped yields no text. |
| DataProvider.AppendTexts | topic_extraction/data/data_provider.py:186-188 | The inner loop appends each element's text followed by a space. |
| DataProvider.GetIncludedTagData | topic_extraction/data/data_provider.py:174-189 | The texts of the elements of each tag, tag by tag, each followed by a space. |
| DataProvider.GetImportantTagsData | topic_extraction/data/data_provider.py:206-217 | The included-tag extraction over the fixed important tags. |
| DataProvider.GetNotExcludedTagData | topic_extraction/data/data_provider.py:191-204 | The text of every kept element in document order, each followed by a space. |
| DataProvider.DataProvider.constructor | topic_extraction/data/data_provider.py:17-33 | The provider keeps the resolver and both tag arguments. |
| DataProvider.DataProvider.GetTextDataFromPage | topic_extraction/data/data_provider.py:155-172 | The text chosen by the policy of the tag arguments as the code reads them (a string iterated per character, exclusion a substring test), and the language detected for it, `"None"` when detection fails. |
| DataProvider.DataProvider.FilePages | topic_extraction/data/data_provider.py:145-150 | The loop's result is the bucketing of each page's (text, language) pair under that same policy. |
| DataProvider.DataProvider.GetTrainDataReadyToWork | topic_extraction/data/data_provider.py:128-153 | The data file at the root is read, and its pages are bucketed under the policy of the tag arguments as the code reads them; an unknown file type fails on iterating `None`. |
| DataProvider.Filed | topic_extraction/data/data_provider.py:145-150 | One (text, language) pair per page, in page order. |
| DataProvider.BucketedSpec | topic_extraction/data/data_provider.py:145-150 | There is a bucket exactly for each language that occurs, holding that language's texts in page order, with no key twice. |
| DataProvider.BucketedSize | topic_extraction/data/data_provider.py:145-150 | Bucketing keeps every text: the bucket sizes add up to the number of pages. |
| DataProvider.TrainDataSpec | topic_extraction/data/data_provider.py:128-153 | An unknown file type raises TypeError; otherwise the pages are bucketed by language in page order and every page is kept. |
| DataProvider.AddText | topic_extraction/data/data_provider.py:148-150 | One page filed under its language. |
| DataProvider.PutTwice | topic_extraction/data/data_provider.py:148-150 | Creating an empty bucket and appending to it equals one assignment. |
| DataProvider.IncludeAsWrittenSplitsTagName | topic_extraction/data/data_provider.py:185 | The provider's policy reads include argument `h1` as tags `h` and `1`, so an `h1`-only page yields no text. |
| DataProvider.IncludeCorrectedSelectsTag | topic_extraction/data/data_provider.py:174-189 | Read as tag names, include argument `h1` selects the `h1` element's text. |
| DataProvider.ExcludeAsWrittenDropsSubstrings | topic_extraction/data/data_provider.py:202 | The provider's policy tests exclusion of `script` as a substring, which also drops `p` elements. |
| DataProvider.ExcludeCorrectedKeepsOtherTags | topic_extraction/data/data_provider.py:191-204 | Read as tag names, excluding `script` keeps a `p` element's text. |
| TextPreprocessor.LangModelsSpec | topic_extraction/data/text_preprocessor.py:15-26 | The model table's keys are exactly the ten supported languages. |
| TextPreprocessor.LoadSuitableModel | topic_extraction/data/text_preprocessor.py:150-160 | A model name exists exactly for a supported language; otherwise the language is rejected. |
| TextPreprocessor.IsTokenValid | topic_extraction/data/text_preprocessor.py:133-148 | Valid iff not a stop word, space, currency or bracket, not URL-, email- or number-like, alphabetic, and not a `VERB`. |
| TextPreprocessor.ValidLemmasAppend | topic_extraction/data/text_preprocessor.py:264-277 | Filtering distributes over concatenation of token lists. |
| TextPreprocessor.ValidLemmasSingle | topic_extraction/data/text_preprocessor.py:264-277 | A single token contributes its lemma exactly when it is valid. |
| TextPreprocessor.LemmasOfValidTokens | topic_extraction/data/text_preprocessor.py:266-271 | The token loop returns the lemmas of the valid tokens in order. |
| TextPreprocessor.ProcessDocs | topic_extraction/data/text_preprocessor.py:245-256 | One lemma list per text, in order, each the valid lemmas of that text's tokens. |
| TextPreprocessor.Preprocessor.constructor | topic_extraction/data/text_preprocessor.py:99-107 | The preprocessor keeps its language and that language's model. |
| TextPreprocessor.Preprocessor.DocumentPreProcess | topic_extraction/data/text_preprocessor.py:258-277 | Both language branches return the valid lemmas of the document's tokens. |
| TextPreprocessor.Preprocessor.ProcessListOfDocs | topic_extraction/data/text_preprocessor.py:245-256 | Each element is replaced in place by its lemmas; length and order are kept. |
| TextPreprocessor.Registry.constructor | topic_extraction/data/text_preprocessor.py:28 | The registry starts empty. |
| TextPreprocessor.Registry.InitReplacement | topic_extraction/data/text_preprocessor.py:188-205 | An unsupported language raises and changes nothing; a supported one gets its own preprocessor, created on the first request only and returned again afterwards. |
| TextPreprocessor.Registry.Release | topic_extraction/data/text_preprocessor.py:180-186 | The registry is emptied. |
| TextPreprocessor.InitReplacementTwice | topic_extraction/data/text_preprocessor.py:200-205 | Two requests for the same language give the same result. |
| TextPreprocessor.Supported | topic_extraction/data/text_preprocessor.py:170-176 | Exactly the supported languages of a list. |
| TextPreprocessor.ProcessedSpec | topic_extraction/data/text_preprocessor.py:162-178 | The processed keys are exactly the supported input languages, in input order; each holds its texts preprocessed by that language's model. |
| TextPreprocessor.ProcessTexts | topic_extraction/data/text_preprocessor.py:172-174 | The in-place list processing yields the processed texts of the language. |
| TextPreprocessor.ProcessRawDataLanguageClassified | topic_extraction/data/text_preprocessor.py:162-178 | The result is the processed data of the raw data, and the registry is empty at the end. |
| TextPreprocessor.StrsRoundTrip | topic_extraction/data/text_preprocessor.py:30-97 | A token list written by `json.dump` reads back unchanged. |
| TextPreprocessor.DocsRoundTrip | topic_extraction/data/text_preprocessor.py:30-97 | A language's document list written by `json.dump` reads back unchanged. |
| TextPreprocessor.LangLength | topic_extraction/data/text_preprocessor.py:239 | The length record is an object keyed by the processed languages. |
| TextPreprocessor.LangLengthCounts | topic_extraction/data/text_preprocessor.py:239 | The record holds under each language its document count. |
| TextPreprocessor.MetaLanguagesOf | topic_extraction/data/text_preprocessor.py:69-77 | The meta file's `languages` entry reads back as the written language list. |
| TextPreprocessor.WritePerLanguage | topic_extraction/data/text_preprocessor.py:30-43 | The writing loop has the effect of writing each item in turn to its language's data-version file. |
| TextPreprocessor.WriteMetaData | topic_extraction/data/text_preprocessor.py:45-67 | The meta file is written at the root, then each language's processing record under `data-process-mata.json`. |
| TextPreprocessor.WriteProcessedData | topic_extraction/data/text_preprocessor.py:30-43 | Each language's documents are written as `<name>.json` in its data-version folder. |
| TextPreprocessor.ReadProcessed | topic_extraction/data/text_preprocessor.py:79-97 | Reading the cache changes no file. |
| TextPreprocessor.ReadDataMetaFile | topic_extraction/data/text_preprocessor.py:69-77 | A missing meta file gives `None`, otherwise its language list. |
| TextPreprocessor.ReadProcessedData | topic_extraction/data/text_preprocessor.py:79-97 | `None` when the meta file or any listed language file is missing, otherwise the documents of every listed language. |
| TextPreprocessor.LanguageFilesApart | topic_extraction/data/text_preprocessor.py:30-43 | Different languages have different cache files, and none of them is the meta file. |
| TextPreprocessor.WrittenPerLanguageSpec | topic_extraction/data/text_preprocessor.py:30-43 | With the root set, each item lands in its language's file and no other file changes. |
| TextPreprocessor.ReadBack | topic_extraction/data/text_preprocessor.py:86-97 | Reading the languages of a dict from files that hold each of them finds the dict again. |
| TextPreprocessor.RebuiltFiles | topic_extraction/data/text_preprocessor.py:236-240 | After a rebuild the meta file lists the processed languages with their counts, and each language file holds its documents. |
| TextPreprocessor.RebuiltReadsBack | topic_extraction/data/text_preprocessor.py:207-243 | After a rebuild the next read finds exactly the processed data, so it does not rebuild again. |
| TextPreprocessor.GetProcessedData | topic_extraction/data/text_preprocessor.py:207-243 | The cached data is returned, with no file written, when all of it is there; otherwise raw data is read under the provider's tag policy, processed, cached and returned. |
| TextPreprocessor.ProcessFreshData | topic_extraction/data/text_preprocessor.py:224-241 | Without cached data, a failed read of the raw pages (under the provider's tag policy) is the result; otherwise the pages are processed, the meta file and one file per language are written, and the processed data is returned unless a write fails. |
| TextPreprocessor.ProcessAndCacheData | topic_extraction/data/text_preprocessor.py:227-243 | The raw data is processed, cached, and returned when every write succeeds. |
| TextPreprocessor.CacheProcessedData | topic_extraction/data/text_preprocessor.py:235-242 | The meta file, then the processed data, stopping at the first failure. |
| TopicModelEssential.BuiltDictionary | topic_extraction/topic_model/topic_model_essential.py:43-52 | The dictionary is built from the documents, then `filter_n_most_frequent`, then `filter_extremes`. |
| TopicModelEssential.BuiltCorpus | topic_extraction/topic_model/topic_model_essential.py:86-87 | One bag of words per document, in document order. |
| TopicModelEssential.SavedArtifactsLoad | topic_extraction/topic_model/topic_model_essential.py:49-89 | A saved dictionary or corpus loads back as itself. |
| TopicModelEssential.ConstructionFromScratch | topic_extraction/topic_model/topic_model_essential.py:29-41 | In an empty dict-version folder the dictionary and then the corpus are built and saved as `dictionary.dict` and `corpus.mm`. |
| TopicModelEssential.ConstructionLoads | topic_extraction/topic_model/topic_model_essential.py:54-82 | When both files are stored, construction builds and writes nothing, whatever documents and thresholds it gets. |
| TopicModelEssential.Essentials.constructor | topic_extraction/topic_model/topic_model_essential.py:29-38 | A fresh holder has no dictionary and no corpus. |
| TopicModelEssential.Essentials.SetDictionary | topic_extraction/topic_model/topic_model_essential.py:43-52 | The built dictionary is saved at the path and kept; the corpus is unchanged. |
| TopicModelEssential.Essentials.GetDictionary | topic_extraction/topic_model/topic_model_essential.py:54-68 | Nothing happens when the dictionary is set; otherwise it is loaded if stored, else built and saved. |
| TopicModelEssential.Essentials.SetCorpus | topic_extraction/topic_model/topic_model_essential.py:84-91 | Without a dictionary it raises and changes nothing; otherwise the corpus is built, saved and kept. |
| TopicModelEssential.Essentials.GetCorpus | topic_extraction/topic_model/topic_model_essential.py:70-82 | Nothing happens when the corpus is set; otherwise it is loaded if stored, else built and saved. |
| TopicModelEssential.Essentials.Construct | topic_extraction/topic_model/topic_model_essential.py:29-41 | Both fields start empty, then the dictionary and then the corpus are resolved. |
| TopicModelEssential.BagsOfWords | topic_extraction/topic_model/topic_model_essential.py:86-87 | The comprehension yields the corpus. |
| TopicModelEssential.Registry.constructor | topic_extraction/topic_model/topic_model_essential.py:10 | No instance exists yet. |
| TopicModelEssential.Registry.Init | topic_extraction/topic_model/topic_model_essential.py:14-27 | An existing instance is returned, with nothing changed, whatever the language and versions; otherwise one is constructed and kept unless construction raises. A kept instance holds both artifacts. |
| TopicModelEssential.SecondLanguageReusesFirst | topic_extraction/topic_model/topic_model_essential.py:23-27 | After `en` is initialised, `de` gets the `en` instance, resolved from the `en` documents. |
| TopicModelEssential.KeyedRegistry.constructor | topic_extraction/topic_model/topic_model_essential.py:10 | The keyed registry starts empty. |
| TopicModelEssential.KeyedRegistry.Init | topic_extraction/topic_model/topic_model_essential.py:14-27 | An instance is reused only for the same language and versions; a new key gets its own construction. |
| TopicModel.MetricsShape | topic_extraction/topic_model/lda_topic_model.py:197-201 | Every family's metric record is an object with exactly its metric names, each holding the score computed under that name. |
| TopicModel.CommonParameters | topic_extraction/topic_model/topic_model.py:72-76 | Exactly `topic_number`, `no_below`, `no_above`, `n_most_frequent`, holding the stored values. |
| TopicModel.ParametersShape | topic_extraction/topic_model/topic_model.py:109-110 | Every family records the common parameters under `"common"` first, and its own settings under one family key. |
| TopicModel.ReportPathsDiffer | topic_extraction/topic_model/topic_model.py:55-62 | The model file, `evaluation` and `meta.json` are three different paths. |
| TopicModel.TrainingLoads | topic_extraction/topic_model/lda_topic_model.py:127-130 | A stored model is loaded and nothing is trained or written, whatever would have been fitted. |
| TopicModel.TrainingBuilds | topic_extraction/topic_model/lda_topic_model.py:88-118 | A missing model is fitted and saved; its metrics go to `evaluation` and its parameters to `meta.json`; only those three paths change. |
| TopicModel.TrainingAbsent | topic_extraction/topic_model/lda_topic_model.py:131-132 | A missing model path leads to a fit. |
| TopicModel.TrainingTwice | topic_extraction/topic_model/lda_topic_model.py:120-137 | Once a step produced a model, the same step again finds it and changes nothing. |
| TopicModel.TopicModel.constructor | topic_extraction/topic_model/topic_model.py:22-50 | The thresholds and number of topics are recorded, the shared essentials are kept, and there is no model. |
| TopicModel.TopicModel.SetModelType | topic_extraction/topic_model/lda_topic_model.py:84-86 | The model type becomes the family's name; nothing else changes. |
| TopicModel.TopicModel.GetCommonParameters | topic_extraction/topic_model/topic_model.py:72-76 | An object with exactly the four common keys. |
| TopicModel.TopicModel.GetModelEvaluationMetrics | topic_extraction/topic_model/lda_topic_model.py:143-201 | Defined exactly when a model exists; then keyed by the family's metric names. |
| TopicModel.TopicModel.WriteModelEvaluationMetrics | topic_extraction/topic_model/topic_model.py:52-70 | The folder is created, and both reports are written with `"w"` into the model-type folder; an unresolvable folder changes nothing. |
| TopicModel.TopicModel.SetModel | topic_extraction/topic_model/lda_topic_model.py:88-118 | The fitted model is kept and saved at the model path, then the reports are written. |
| TopicModel.TopicModel.GetModel | topic_extraction/topic_model/lda_topic_model.py:120-137 | A set model is returned and nothing changes; otherwise the load-or-build step at `<type>-model/<Name>-model`; with `model_view` the model is visualised. |
| TopicModel.NewTopicModel | topic_extraction/topic_model/lda_topic_model.py:67-82 | A family constructor. The instance holds its arguments, its family's model type, the param-version folder and the model `get_model` settled on, and its essentials are those the holder keeps. If the holder already had an instance, that instance is reused, whatever the language, and the store ends as the model step `Constructed` leaves it from the old store. Otherwise the holder's construction runs first: its error is raised as is, and on success the model step runs on the store it leaves, with the artifacts it built or loaded. |
| TopicModel.LaterTopicModel | topic_extraction/topic_model/topic_model.py:22-50 | The held instance is handed back unchanged, and the model step runs on the old store with its artifacts. |
| TopicModel.FirstTopicModel | topic_extraction/topic_model/topic_model.py:22-50 | The holder's construction runs. Its error is raised as is. On success the instance is kept, and the model step runs on the store the construction leaves, with the artifacts it produced. |
| TopicModel.Assemble | topic_extraction/topic_model/lda_topic_model.py:80-82 | After `init`: a fresh instance holding the arguments, the family's model type and the param-version folder. Its model, its store and the error it raises are those of the model step `Constructed` on the old store and the given artifacts. The model is handed to the visualization only with `model_view`. |
| TopicModel.Prepared | topic_extraction/topic_model/lda_topic_model.py:67-81 | The fields, `set_model_type` and the visualization's param-version folder. It raises the folder's error when the root is not set, and returns a fresh instance with no model and no views otherwise. |
| TopicModel.TrainingStoresModel | topic_extraction/topic_model/lda_topic_model.py:120-132 | Whenever the load-or-fit step yields a model, that model's file is at `<model-type folder><Name>-model` in the store it leaves. |
| LdaTopicModel.Fit | topic_extraction/topic_model/lda_topic_model.py:88-109 | The LDA fit receives the corpus, dictionary, topics, chunk size, alpha and beta as eta. |
| LdaTopicModel.Metrics | topic_extraction/topic_model/lda_topic_model.py:197-201 | Exactly `perplexity`, `c_v_coherence_lda`, `u_mass_coherence_lda`, `avg_topic_coherence_u_mass`, `avg_topic_coherence_c_v`. |
| LdaTopicModel.Parameters | topic_extraction/topic_model/lda_topic_model.py:227-234 | `common`, then `lda` with its six settings. |
| LdaMalletTopicModel.Fit | topic_extraction/topic_model/lda_mallet_topic_model.py:51-68 | Only the corpus, dictionary and number of topics reach the wrapper. |
| LdaMalletTopicModel.Metrics | topic_extraction/topic_model/lda_mallet_topic_model.py:93-107 | Exactly `c_v` and `u_mass`. |
| LdaMalletTopicModel.Parameters | topic_extraction/topic_model/lda_mallet_topic_model.py:109-116 | `common`, then `lda_Mallet` with six fields. |
| HdpTopicModel.Fit | topic_extraction/topic_model/hdp_topic_model.py:58-73 | The HDP fit gets only the corpus and the dictionary. |
| HdpTopicModel.Metrics | topic_extraction/topic_model/hdp_topic_model.py:104-117 | Exactly `c_v` and `u_mass`. |
| HdpTopicModel.Parameters | topic_extraction/topic_model/hdp_topic_model.py:119-123 | `common`, then `hdp` with `chunk_size`, `alpha`, `beta`. |
| LsiTopicModel.Fit | topic_extraction/topic_model/lsi_topic_model.py:46-62 | The LSI fit, on the tf-idf transform, with the corpus, dictionary and number of topics. |
| LsiTopicModel.Metrics | topic_extraction/topic_model/lsi_topic_model.py:91-103 | Exactly `c_v` and `u_mass`. |
| LsiTopicModel.Parameters | topic_extraction/topic_model/lsi_topic_model.py:105-107 | `common`, then `lsi` holding `{"tfidf": True}`. |
| TopicExtractionHandler.Item | topic_extraction/manager/topic_extraction_handler.py:51-58 | Lookup succeeds iff the key is present, else raises KeyError with that key. |
| TopicExtractionHandler.Iterated | topic_extraction/manager/topic_extraction_handler.py:34 | A list yields its items, a string its characters, anything else raises TypeError. |
| TopicExtractionHandler.Contains | topic_extraction/manager/topic_extraction_handler.py:36 | On a list, the membership of the language; `None` or a number raises TypeError. |
| TopicExtractionHandler.Entries | topic_extraction/manager/topic_extraction_handler.py:64-68 | A column has at most one pair per swept value. |
| TopicExtractionHandler.EntriesPresent | topic_extraction/manager/topic_extraction_handler.py:64-68 | A metric has a column iff some record names it. |
| TopicExtractionHandler.EntriesFrom | topic_extraction/manager/topic_extraction_handler.py:64-68 | Each pair of a column is a swept value and that record's score for the metric. |
| TopicExtractionHandler.MakeParamMetricsReadyToPlot | topic_extraction/manager/topic_extraction_handler.py:60-69 | `{}` for `None`; otherwise each metric's lookup is its column of `[value, score]` pairs, no key twice. |
| TopicExtractionHandler.PlottedNames | topic_extraction/manager/topic_extraction_handler.py:60-69 | When every record holds exactly the names, a non-empty sweep's columns are exactly those names. |
| TopicExtractionHandler.KindOf | topic_extraction/manager/topic_extraction_handler.py:71-85 | Dispatch covers exactly `lda`, `mallet`, `lsi` and `hdp`. |
| TopicExtractionHandler.KindMetricNamesDistinct | topic_extraction/manager/topic_extraction_handler.py:71-85 | Each family's metric names are distinct. |
| TopicExtractionHandler.SettingsFamily | topic_extraction/manager/topic_extraction_handler.py:87-172 | The model a collector builds from a row belongs to the collector's own family, so its metric record carries that family's metric names. |
| TopicExtractionHandler.TestValues | topic_extraction/manager/topic_extraction_handler.py:92-107 | One swept value per row, in row order: the row's value under the swept name whenever it has one. |
| TopicExtractionHandler.CollectedStep | topic_extraction/manager/topic_extraction_handler.py:92-107 | Storing one more row's record keeps the collected-metrics invariant. |
| TopicExtractionHandler.ModelMetrics | topic_extraction/manager/topic_extraction_handler.py:87-152 | Every row holds the swept name. The keys are the distinct swept values, in the order of their first row, each once. Every record holds exactly the family's metric names. |
| TopicExtractionHandler.MetricsStep | topic_extraction/manager/topic_extraction_handler.py:92-107 | One round of a collector's loop. The row builds a model of the collector's family, and the result is the old dict with, under the row's swept value, the evaluation record of some model of that family over the texts. The collected-metrics invariant then holds one row further. |
| TopicExtractionHandler.HdpModelMetricsAsWritten | topic_extraction/manager/topic_extraction_handler.py:154-172 | As written the HDP collector returns `None` whenever it returns. |
| TopicExtractionHandler.RequestedModelsMetrics | topic_extraction/manager/topic_extraction_handler.py:71-85 | An unknown model name returns `None` and changes nothing; `hdp` trains its sweep and returns `None`; `lda`, `mallet` and `lsi` return their family's collected metrics. |
| TopicExtractionHandler.ReturnedKind | topic_extraction/manager/topic_extraction_handler.py:71-85 | The names whose collector returns its dict are exactly the family names other than `hdp`. |
| TopicExtractionHandler.CorrectedRequestedModelsMetrics | topic_extraction/manager/topic_extraction_handler.py:71-85 | With an HDP collector that returns its dict, every family name, `hdp` included, gets its family's collected metrics. |
| TopicExtractionHandler.Slots | topic_extraction/manager/topic_extraction_handler.py:39-48 | The (model, language, parameter) triple of each plot, in order. |
| TopicExtractionHandler.ForLang | topic_extraction/manager/topic_extraction_handler.py:39-48 | One slot per swept parameter. |
| TopicExtractionHandler.AcceptedLangs | topic_extraction/manager/topic_extraction_handler.py:35-38 | The accepted languages of the data are at most the data's languages. |
| TopicExtractionHandler.ForModelMembers | topic_extraction/manager/topic_extraction_handler.py:35-48 | A model's slot exists iff its language is in the data and accepted and its parameter is swept. |
| TopicExtractionHandler.ForLangMembers | topic_extraction/manager/topic_extraction_handler.py:39-48 | A language's slots are exactly its swept parameters. |
| TopicExtractionHandler.ScheduleMembers | topic_extraction/manager/topic_extraction_handler.py:34-48 | A plot is planned iff the model is requested, the language is in the data and accepted, and the parameter is swept. |
| TopicExtractionHandler.ForModelLength | topic_extraction/manager/topic_extraction_handler.py:35-48 | A model has accepted languages × swept parameters plots. |
| TopicExtractionHandler.ScheduleLength | topic_extraction/manager/topic_extraction_handler.py:34-48 | Plots are called once per requested model, accepted language and swept parameter. |
| TopicExtractionHandler.ShapedPlot | topic_extraction/manager/topic_extraction_handler.py:39-48 | A plot made from what the dispatch returns has the shape the plotting receives: `{}` for `hdp` and unknown names, the family's columns otherwise. |
| TopicExtractionHandler.CollectedColumns | topic_extraction/manager/topic_extraction_handler.py:60-69 | The plot data of a collector's dict holds only the family's metric names, and all of them when there is a row; with the corrected dispatch this covers HDP too. |
| TopicExtractionHandler.TopicExtractionHandler.constructor | topic_extraction/manager/topic_extraction_handler.py:24-25 | No plots yet. |
| TopicExtractionHandler.RegroupedValuesSwept | topic_extraction/manager/topic_extraction_handler.py:60-69 | Every `[value, score]` pair in a column of a collected dict, which is what a plot regrouped from it holds, has one of the rows' swept values as its value. |
| TopicExtractionHandler.TopicExtractionHandler.PlotParam | topic_extraction/manager/topic_extraction_handler.py:39-48 | One plot is added for that model, language and parameter; failure adds none. Its data is `{}` for `hdp` and unknown names. For the other three families, every column equals that of one dict the collector can return for the rows: keys the distinct swept values, each record with exactly the family's metric names. |
| TopicExtractionHandler.TopicExtractionHandler.SweepParams | topic_extraction/manager/topic_extraction_handler.py:39-48 | The innermost loop adds one plot per swept parameter, in the order of the sweep dict. |
| TopicExtractionHandler.TopicExtractionHandler.SweepParam | topic_extraction/manager/topic_extraction_handler.py:40-48 | One round of the innermost loop adds the plot of the `c`-th swept parameter, so the plots follow the schedule one slot further. A failure keeps the earlier plots shaped. |
| TopicExtractionHandler.TopicExtractionHandler.SweepLanguages | topic_extraction/manager/topic_extraction_handler.py:35-48 | The middle loop takes the processed languages in order, skipping requested languages that are missing. |
| TopicExtractionHandler.TopicExtractionHandler.Sweep | topic_extraction/manager/topic_extraction_handler.py:34-48 | The new plots are, in order, exactly those of the schedule for the models, languages and parameters, each shaped as the dispatch makes it (`{}` for `hdp`). |
| TopicExtractionHandler.TopicExtractionHandler.GetProcessedData | topic_extraction/manager/topic_extraction_handler.py:51-58 | Forwards the data and version arguments to `get_processed_data`, keeping the preprocessor registry well formed. |
| TopicExtractionHandler.TopicExtractionHandler.Configure | topic_extraction/manager/topic_extraction_handler.py:28-29 | The parameter states are those setting the model group leaves, and the parameters are raised exactly when that fails. Otherwise `args` is the six groups projected from the keyword arguments, and the outcome is that of formatting the old root with `data_folder_path`. On success the root is that formatted string and is marked set. On failure the root is unchanged. |
| TopicExtractionHandler.TopicExtractionHandler.LoopInputs | topic_extraction/manager/topic_extraction_handler.py:32-36 | It succeeds exactly when every swept parameter has a value, `requested_models` is present and iterable, and `requested_lang` is present. Then the grids have the distinct swept names as keys, each mapped to its grid. The models are the items of `requested_models`, and the languages are `requested_lang`. |
| TopicExtractionHandler.TopicExtractionHandler.GetTopicExtraction | topic_extraction/manager/topic_extraction_handler.py:27-49 | The root is set before data is fetched, and plots are only appended. |
| TopicExtractionHandler.TopicExtractionHandler.Extract | topic_extraction/manager/topic_extraction_handler.py:30-49 | After the root is set: the processed data, the loop inputs, then the sweep. The registries stay well formed and plots are only appended. |

## Left out

- Plotting: `comparative_view` and `model_view` draw with matplotlib and wordcloud and write PNG files. The model only records each plot's metrics, and the models sent to visualisation when `model_view` is set. Every plot call is treated as succeeding. This includes a call that receives `{}` (for `hdp` or an unknown model name), which asks matplotlib for a figure of zero subplot rows; a matplotlib version that rejects zero rows would end the source run at that plot, where `Sweep` records it and goes on.
- Advisor.Advisor.SetDataFolderPath: a root holding a field with a format spec (`{:5}`), a `!r` or `!a` conversion, attribute or index access in a field name, or a nested field makes a later call a not-modelled error, where `str.format` would render it. Digits in a field name are ASCII digits.
- Logging throughout. This includes the `'%d' %` formatting of each row's `number_of_topics` in the collectors' log lines (topic_extraction/manager/topic_extraction_handler.py:93, 116, 141, 160). That formatting accepts integers and floats and raises TypeError for any other value, such as a string or `None`; the model never raises there.
- TopicExtractionHandler.Contains: the substring test of `lang in requested_lang`, when `requested_lang` is a plain string, is not interpreted. It gives an explicit not-modelled error.
- `get_documents_topic`, `hdp_to_lda` and `save_this_to_use_properly`. The last retrains a random model until its coherence reaches 0.97: it is nondeterministic, float-based and need not terminate.
- `get_model_params_as_list`, and the unused token tests `__is_adj`, `__is_adv` and `__is_name_entity`.
- spaCy's `max_length` setting and GPU selection.
- The exception counter of the CommonCrawl reader, and the readline exceptions it swallows.
- Float hyper-parameter values. Only integer range triples are expanded; other values are carried as argparse gives them, floats by their text.
- String escapes in Python's `repr` of list elements, used when a list value is formatted into a path.
- gensim, spaCy, BeautifulSoup, langdetect and `json` decoding. They are free terms or function-valued parameters; their internals and float metrics are outside the model.
- TopicExtractionHandler.ModelMetrics: does not say which grid row produced each stored record. It states only the key set (the distinct swept values, in first-row order) and the metric names of each record. The records are terms of the fitted models.
- TopicExtractionHandler.TopicExtractionHandler.GetProcessedData: its contract does not restate what is returned. The result is the one `TextPreprocessor.GetProcessedData` states, for the six looked-up arguments; a missing argument raises KeyError.
- TopicExtractionHandler.TopicExtractionHandler.GetTopicExtraction: its contract covers the data root and the plot list only. The plot schedule is stated by `Sweep`, which it calls with the inputs produced by `LoopInputs`.
- TopicExtractionHandler.TopicExtractionHandler.Extract: its contract covers the registries and the plot list only, for the same reason: the schedule is stated by `Sweep`, and the inputs by `GetProcessedData` and `LoopInputs`.
- The class-level state of `Advisor`, `ModelParams`, `TextPreprocessor` and `TopicModelEssential` is modelled as objects passed explicitly.
- The Mallet binary path and its environment.
- The default settings of the `LdaMalletTopicModel` constructor (topic_extraction/topic_model/lda_mallet_topic_model.py:20-28). The only constructor call (topic_extraction/manager/topic_extraction_handler.py:117-129) passes all seven of them, `model_view` included, by position, so the defaults never take effect.
- The name-constant tables of the parameter groups, which are fixed lists here, and `topic_model/interfaces`, which is unused.
- The `__main__` block of `execution.py` and its argparse configuration. Parsed arguments enter as a list of (name, value) pairs.
- FileStore.Store.Write: a write into a folder that does not exist succeeds here. `open(p, "w")` raises FileNotFoundError in that case. The versioned folders are created by their getters before every write into them. The data-root `meta` file written at topic_extraction/data/text_preprocessor.py:58 is not covered: when the root folder is missing, the source raises there and the model succeeds.
- Concurrency and partial writes: the program is single-threaded, and a write is modelled as atomic.

## Findings

| source | as written | input that shows it | evidently intended | confidence | as-written member | corrected member |
|---|---|---|---|---|---|---|
| topic_extraction/manager/topic_extraction_handler.py:154-172 | the HDP collector fills its dict, then ends with a bare `return` | any run with `-models hdp` | return the filled dict like the other three collectors | not executed | TopicExtractionHandler.HdpModelMetricsAsWritten | TopicExtractionHandler.CorrectedRequestedModelsMetrics |
| topic_extraction/data/data_provider.py:185 | `for tag in include_tags` iterates a string argument character by character | `-in-tags h1` on a page holding only an `h1` element | iterate the tag names | not executed | DataProvider.IncludeAsWrittenSplitsTagName | DataProvider.IncludeCorrectedSelectsTag |
| topic_extraction/data/data_provider.py:202 | `tag.name not in exclude_tags` is a substring test on a string argument | `-ex-tags script` on a page with a `p` element | test membership among the tag names | not executed | DataProvider.ExcludeAsWrittenDropsSubstrings | DataProvider.ExcludeCorrectedKeepsOtherTags |
| topic_extraction/topic_model/topic_model_essential.py:23-27 | the holder is created once and returned for every later language and version | `en` then `de` in one run: `de` gets the `en` dictionary and corpus | one holder per language and versions | not executed | TopicModelEssential.SecondLanguageReusesFirst | TopicModelEssential.KeyedRegistry.Init |
