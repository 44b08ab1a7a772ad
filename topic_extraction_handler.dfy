/** The driver of a topic-extraction run: it reads the parameters, sets the data
    root, fetches the processed data, and then, for every requested model family,
    every requested language present in the data and every swept parameter, trains
    one model per value of the sweep, collects each model's metrics and hands them,
    regrouped by metric, to the comparative plot. The plot itself is a sink and is
    recorded as a log of its calls. */
module TopicExtractionHandler {
  import opened Basics
  import opened Artifacts
  import opened OrderedMap
  import opened Advisor
  import opened TopicModelEssential
  import TopicModel
  import ExeParams
  import ModelParams
  import TextPreprocessor
  import DataProvider
  import Lda = LdaTopicModel
  import Mallet = LdaMalletTopicModel
  import Hdp = HdpTopicModel
  import Lsi = LsiTopicModel

  // ---------------------------------------------------------------------------
  // Python's operations on argparse values

  /** `d[key]`: a missing key raises KeyError. */
  function Item<V>(d: Dict<string, V>, key: string): (r: Result<V>)
    ensures r.Ok? <==> key in Keys(d)
    ensures r.Ok? ==> Get(d, key) == Some(r.value)
    ensures r.Err? ==> r.error == KeyError(key)
  {
    match Get(d, key)
    case Some(v) => Ok(v)
    case None => Err(KeyError(key))
  }

  /** `for x in a`: a list yields its items and a string its characters; any
      other value raises TypeError. */
  function Iterated(a: Arg): (r: Result<seq<Arg>>)
    ensures a.AList? ==> r == Ok(a.items)
    ensures a.AStr? ==> r.Ok? && |r.value| == |a.s| && forall i :: 0 <= i < |a.s| ==> r.value[i] == AStr([a.s[i]])
    ensures r.Err? <==> !(a.AList? || a.AStr?)
  {
    match a
    case AList(items) => Ok(items)
    case AStr(s) => Ok(seq(|s|, i requires 0 <= i < |s| => AStr([s[i]])))
    case _ => Err(TypeError)
  }

  /** `lang in a` for the list argparse builds with `nargs="*"`; `in` on `None` or
      a number raises TypeError, and the substring test on a string is not
      interpreted. */
  function Contains(a: Arg, lang: string): (r: Result<bool>)
    ensures a.AList? ==> r == Ok(AStr(lang) in a.items)
    ensures r.Ok? <==> a.AList?
  {
    match a
    case AList(items) => Ok(AStr(lang) in items)
    case AStr(_) => Err(NotModelled("substring test on a str"))
    case _ => Err(TypeError)
  }

  /** The languages a `requested_lang` value accepts. */
  function Accepted(a: Arg): seq<Arg> {
    if a.AList? then a.items else []
  }

  /** Python's truth value of an argparse value. */
  predicate Truthy(a: Arg) {
    match a
    case ANone => false
    case ABool(b) => b
    case AInt(i) => i != 0
    case AFloat(r) => !(r == "0.0" || r == "-0.0")
    case AStr(s) => s != ""
    case AList(items) => items != []
  }

  // ---------------------------------------------------------------------------
  // Regrouping the metrics for the plot

  /** What a collector returns: swept value -> {metric: score}. */
  type ParamMetrics = Dict<Arg, Dict<string, Json>>

  /** What the plot receives: metric -> [[swept value, score], ...]. */
  type PlotMetrics = Dict<string, seq<(Arg, Json)>>

  /** The `[value, score]` pair a record contributes to the column of `m`. */
  function EntryOf(v: Arg, record: Dict<string, Json>, m: string): seq<(Arg, Json)> {
    match Get(record, m)
    case Some(x) => [(v, x)]
    case None => []
  }

  /** The column of metric `m`: one `[value, score]` pair per record that holds
      `m`, in the order of the swept values. */
  function Entries(pm: ParamMetrics, m: string): (e: seq<(Arg, Json)>)
    ensures |e| <= |pm|
  {
    if pm == [] then []
    else
      var (v, record) := pm[|pm| - 1];
      Entries(pm[..|pm| - 1], m) + EntryOf(v, record, m)
  }

  /** A column is present in the plot data exactly when it is not empty. */
  function Column(pm: ParamMetrics, m: string): Option<seq<(Arg, Json)>> {
    if Entries(pm, m) == [] then None else Some(Entries(pm, m))
  }

  /** A metric has a column exactly when some record names it. */
  lemma {:induction false} EntriesPresent(pm: ParamMetrics, m: string)
    ensures Entries(pm, m) != [] <==> exists k :: 0 <= k < |pm| && m in Keys(pm[k].1)
  {
    if pm != [] {
      var init := pm[..|pm| - 1];
      EntriesPresent(init, m);
      assert Entries(pm, m) == Entries(init, m) + EntryOf(pm[|pm| - 1].0, pm[|pm| - 1].1, m);
      if exists k :: 0 <= k < |init| && m in Keys(init[k].1) {
        var k :| 0 <= k < |init| && m in Keys(init[k].1);
        assert pm[k] == init[k];
      }
      if exists k :: 0 <= k < |pm| && m in Keys(pm[k].1) {
        var k :| 0 <= k < |pm| && m in Keys(pm[k].1);
        if k < |init| {
          assert init[k] == pm[k];
        }
      }
    }
  }

  /** Each pair of a column comes from a record that holds the metric, under a
      swept value of the input. */
  lemma {:induction false} EntriesFrom(pm: ParamMetrics, m: string, t: nat)
    requires t < |Entries(pm, m)|
    ensures exists k :: 0 <= k < |pm| && pm[k].0 == Entries(pm, m)[t].0 && Get(pm[k].1, m) == Some(Entries(pm, m)[t].1)
  {
    var init := pm[..|pm| - 1];
    var last := pm[|pm| - 1];
    assert Entries(pm, m) == Entries(init, m) + EntryOf(last.0, last.1, m);
    if t < |Entries(init, m)| {
      EntriesFrom(init, m, t);
      var k :| 0 <= k < |init| && init[k].0 == Entries(init, m)[t].0 && Get(init[k].1, m) == Some(Entries(init, m)[t].1);
      assert pm[k] == init[k];
    } else {
      assert Entries(pm, m)[t] == (last.0, Get(last.1, m).value);
    }
  }

  /** `d + [(k, v)]` looks up like `d` on its keys and finds `v` under a new `k`. */
  lemma {:induction false} GetSnoc<K, V>(d: Dict<K, V>, k: K, v: V, k': K)
    ensures Get(d + [(k, v)], k') == if k' in Keys(d) then Get(d, k') else if k' == k then Some(v) else None
  {
    if d != [] {
      assert (d + [(k, v)])[1..] == d[1..] + [(k, v)];
      assert Keys(d) == [d[0].0] + Keys(d[1..]);
      GetSnoc(d[1..], k, v, k');
    }
  }

  /** The plot data after the records of `done` and the first members of the
      record of `v`. */
  function Partial(done: ParamMetrics, v: Arg, members: Dict<string, Json>, m: string): Option<seq<(Arg, Json)>> {
    var e := Entries(done, m) + EntryOf(v, members, m);
    if e == [] then None else Some(e)
  }

  ghost predicate PartialAt(metrics: PlotMetrics, done: ParamMetrics, v: Arg, members: Dict<string, Json>) {
    Valid(metrics) && forall m :: Get(metrics, m) == Partial(done, v, members, m)
  }

  /** One metric of a record appended to its column. */
  lemma {:induction false} ReshapeStep(metrics: PlotMetrics, done: ParamMetrics, v: Arg, record: Dict<string, Json>, j: nat)
    requires Valid(record) && j < |record|
    requires PartialAt(metrics, done, v, record[..j])
    ensures var (m, x) := record[j];
      var column := Get(metrics, m);
      PartialAt(Put(metrics, m, (if column.Some? then column.value else []) + [(v, x)]), done, v, record[..j + 1])
  {
    var (m, x) := record[j];
    var column := Get(metrics, m);
    var next := Put(metrics, m, (if column.Some? then column.value else []) + [(v, x)]);
    PutKeepsValid(metrics, m, (if column.Some? then column.value else []) + [(v, x)]);
    PutSpec(metrics, m, (if column.Some? then column.value else []) + [(v, x)]);
    KeysPrefix(record, j);
    assert m !in Keys(record[..j]) by {
      assert Keys(record)[j] == m;
    }
    assert record[..j + 1] == record[..j] + [(m, x)];
    forall m' ensures Get(next, m') == Partial(done, v, record[..j + 1], m') {
      ReshapeAt(done, v, record[..j], m, x, m');
      assert Get(metrics, m') == Partial(done, v, record[..j], m');
    }
  }

  /** The column of `m'` after the member `(m, x)` of the record of `v`. */
  lemma {:induction false} ReshapeAt(done: ParamMetrics, v: Arg, members: Dict<string, Json>, m: string, x: Json, m': string)
    requires m !in Keys(members)
    ensures m' != m ==> Partial(done, v, members + [(m, x)], m') == Partial(done, v, members, m')
    ensures m' == m ==> Partial(done, v, members + [(m, x)], m) == Some(Entries(done, m) + [(v, x)])
    ensures m' == m ==> Partial(done, v, members, m) == if Entries(done, m) == [] then None else Some(Entries(done, m))
  {
    GetSnoc(members, m, x, m');
    if m' == m {
      assert EntryOf(v, members, m) == [];
      assert EntryOf(v, members + [(m, x)], m) == [(v, x)];
      assert Entries(done, m) + [] == Entries(done, m);
    } else {
      assert EntryOf(v, members + [(m, x)], m') == EntryOf(v, members, m');
    }
  }

  /** `_make_param_metrics_ready_to_plot`: `{}` for `None`; otherwise one column
      per metric named by some record, holding that metric's `[value, score]`
      pairs in the order of the swept values. */
  method MakeParamMetricsReadyToPlot(paramMetrics: Option<ParamMetrics>) returns (metrics: PlotMetrics)
    requires paramMetrics.Some? ==> forall k :: 0 <= k < |paramMetrics.value| ==> Valid(paramMetrics.value[k].1)
    ensures Valid(metrics)
    ensures paramMetrics.None? ==> metrics == []
    ensures paramMetrics.Some? ==> forall m :: Get(metrics, m) == Column(paramMetrics.value, m)
  {
    metrics := [];
    if paramMetrics.None? {
      return;
    }
    var pm := paramMetrics.value;
    for i := 0 to |pm|
      invariant Valid(metrics)
      invariant forall m :: Get(metrics, m) == Column(pm[..i], m)
    {
      var (v, record) := pm[i];
      assert PartialAt(metrics, pm[..i], v, record[..0]) by {
        assert record[..0] == [];
        forall m ensures Get(metrics, m) == Partial(pm[..i], v, record[..0], m) {
          assert EntryOf(v, record[..0], m) == [];
          assert Entries(pm[..i], m) + [] == Entries(pm[..i], m);
        }
      }
      for j := 0 to |record|
        invariant PartialAt(metrics, pm[..i], v, record[..j])
      {
        ReshapeStep(metrics, pm[..i], v, record, j);
        var (m, x) := record[j];
        var column := Get(metrics, m);
        metrics := Put(metrics, m, (if column.Some? then column.value else []) + [(v, x)]);
      }
      assert record[..|record|] == record;
      assert pm[..i + 1][..i] == pm[..i] && pm[..i + 1][i] == (v, record);
      forall m ensures Get(metrics, m) == Column(pm[..i + 1], m) {
        assert Entries(pm[..i + 1], m) == Entries(pm[..i], m) + EntryOf(v, record, m);
      }
    }
    assert pm[..|pm|] == pm;
  }

  /** When every record holds exactly `names`, the plot data of a non-empty
      sweep has exactly the columns `names`. */
  lemma {:induction false} PlottedNames(pm: ParamMetrics, names: seq<string>, metrics: PlotMetrics)
    requires pm != []
    requires forall k :: 0 <= k < |pm| ==> Keys(pm[k].1) == names
    requires forall m :: Get(metrics, m) == Column(pm, m)
    ensures forall m :: m in Keys(metrics) <==> m in names
  {
    forall m ensures m in Keys(metrics) <==> m in names {
      EntriesPresent(pm, m);
      if m in Keys(metrics) {
        assert Column(pm, m).Some?;
        var k :| 0 <= k < |pm| && m in Keys(pm[k].1);
      }
      if m in names {
        assert m in Keys(pm[0].1);
        assert Column(pm, m).Some?;
      }
    }
  }

  // ---------------------------------------------------------------------------
  // The collectors and the dispatch

  /** The model families `_get_requested_models_metrics` serves. */
  datatype Kind = LdaKind | MalletKind | LsiKind | HdpKind

  /** The dispatch on the requested model name. */
  function KindOf(name: Arg): (k: Option<Kind>)
    ensures k.Some? <==> name in [AStr("lda"), AStr("mallet"), AStr("lsi"), AStr("hdp")]
    ensures k == Some(HdpKind) <==> name == AStr("hdp")
  {
    if name == AStr("lda") then Some(LdaKind)
    else if name == AStr("mallet") then Some(MalletKind)
    else if name == AStr("lsi") then Some(LsiKind)
    else if name == AStr("hdp") then Some(HdpKind)
    else None
  }

  /** The metric names of a family's evaluation record. */
  function KindMetricNames(k: Kind): seq<string> {
    match k
    case LdaKind => Lda.MetricNames
    case MalletKind => Mallet.MetricNames
    case LsiKind => Lsi.MetricNames
    case HdpKind => Hdp.MetricNames
  }

  lemma {:induction false} KindMetricNamesDistinct(k: Kind)
    ensures Distinct(KindMetricNames(k))
  {
    var ns := KindMetricNames(k);
    forall i, j | 0 <= i < j < |ns| ensures ns[i] != ns[j] {
      assert ns[i][|ns[i]| - 1] != ns[j][|ns[j]| - 1] || ns[i][0] != ns[j][0] || |ns[i]| != |ns[j]|;
    }
  }

  /** The family a collector builds for one row of the sweep, with the topic count
      it hands to the base class: the LDA and Mallet collectors pass all six model
      settings, the LSI one none, and the HDP class passes 0 topics. The row is
      read in the order of the constructor's arguments. */
  function Settings(k: Kind, row: Dict<string, Arg>): Result<(TopicModel.Family, Arg)> {
    var n :- Item(row, "number_of_topics");
    match k
    case LsiKind => Ok((TopicModel.LsiFamily, n))
    case HdpKind =>
      var c :- Item(row, "chunk_size");
      var a :- Item(row, "alpha");
      var b :- Item(row, "beta");
      Ok((TopicModel.HdpFamily(c, a, b), AInt(0)))
    case _ =>
      var c :- Item(row, "chunk_size");
      var a :- Item(row, "alpha");
      var b :- Item(row, "beta");
      var i :- Item(row, "iterations");
      var p :- Item(row, "passes");
      var e :- Item(row, "eval_every");
      if k == LdaKind then Ok((TopicModel.LdaFamily(c, a, b, i, p, e), n))
      else Ok((TopicModel.MalletFamily(c, a, b, i, p, e), n))
  }

  lemma {:induction false} SettingsFamily(k: Kind, row: Dict<string, Arg>)
    requires Settings(k, row).Ok?
    ensures TopicModel.MetricNamesOf(Settings(k, row).value.0) == KindMetricNames(k)
  {
    var f := Settings(k, row).value.0;
    match k
    case LdaKind => assert f.LdaFamily?;
    case MalletKind => assert f.MalletFamily?;
    case LsiKind => assert f.LsiFamily?;
    case HdpKind => assert f.HdpFamily?;
  }

  /** The swept value of every row; a row without the swept name gives `None`. */
  function TestValues(rows: seq<Dict<string, Arg>>, testParamName: string): (vs: seq<Arg>)
    ensures |vs| == |rows|
    ensures forall i :: 0 <= i < |rows| ==> Get(rows[i], testParamName) == Some(vs[i]) || Get(rows[i], testParamName).None?
  {
    if rows == [] then []
    else
      var last := Get(rows[|rows| - 1], testParamName);
      TestValues(rows[..|rows| - 1], testParamName) + [if last.Some? then last.value else ANone]
  }

  /** What a collector returns for `rows`: every row holds the swept name; the
      keys are the distinct swept values in the order of their first row, as a
      dict keeps them; every record holds exactly the family's metric names. */
  ghost predicate Collected(pm: ParamMetrics, rows: seq<Dict<string, Arg>>, testParamName: string, names: seq<string>) {
    Valid(pm) &&
    (forall i :: 0 <= i < |rows| ==> testParamName in Keys(rows[i])) &&
    Keys(pm) == ModelParams.Dedup(TestValues(rows, testParamName)) &&
    (forall k :: 0 <= k < |pm| ==> Keys(pm[k].1) == names)
  }

  lemma {:induction false} CollectedStep(pm: ParamMetrics, rows: seq<Dict<string, Arg>>, i: nat, testParamName: string,
                      names: seq<string>, v: Arg, record: Dict<string, Json>)
    requires i < |rows| && Get(rows[i], testParamName) == Some(v) && Keys(record) == names
    requires Collected(pm, rows[..i], testParamName, names)
    ensures Collected(Put(pm, v, record), rows[..i + 1], testParamName, names)
  {
    PutKeepsValid(pm, v, record);
    CollectedKeys(pm, rows, i, testParamName, v, record);
    CollectedRecords(pm, names, v, record);
    CollectedRows(rows, i, testParamName, v);
  }

  lemma {:induction false} CollectedRows(rows: seq<Dict<string, Arg>>, i: nat, testParamName: string, v: Arg)
    requires i < |rows| && Get(rows[i], testParamName) == Some(v)
    requires var ps := rows[..i]; forall i' :: 0 <= i' < |ps| ==> testParamName in Keys(ps[i'])
    ensures var rs := rows[..i + 1]; forall i' :: 0 <= i' < |rs| ==> testParamName in Keys(rs[i'])
  {
    var rs := rows[..i + 1];
    forall i' | 0 <= i' < |rs| ensures testParamName in Keys(rs[i']) {
      if i' < i {
        assert rs[i'] == rows[..i][i'];
      }
    }
  }

  lemma {:induction false} CollectedKeys(pm: ParamMetrics, rows: seq<Dict<string, Arg>>, i: nat, testParamName: string,
                      v: Arg, record: Dict<string, Json>)
    requires i < |rows| && Get(rows[i], testParamName) == Some(v)
    requires Keys(pm) == ModelParams.Dedup(TestValues(rows[..i], testParamName))
    ensures Keys(Put(pm, v, record)) == ModelParams.Dedup(TestValues(rows[..i + 1], testParamName))
  {
    assert rows[..i + 1][..i] == rows[..i];
    assert TestValues(rows[..i + 1], testParamName) == TestValues(rows[..i], testParamName) + [v];
    ModelParams.PutDedup(pm, TestValues(rows[..i], testParamName), v, record);
  }

  lemma {:induction false} CollectedRecords(pm: ParamMetrics, names: seq<string>, v: Arg, record: Dict<string, Json>)
    requires Keys(record) == names
    requires forall k :: 0 <= k < |pm| ==> Keys(pm[k].1) == names
    ensures forall k :: 0 <= k < |Put(pm, v, record)| ==> Keys(Put(pm, v, record)[k].1) == names
  {
    var next := Put(pm, v, record);
    PutEntries(pm, v, record);
    forall k | 0 <= k < |next| ensures Keys(next[k].1) == names {
      assert next[k] in next;
      if next[k] != (v, record) {
        var k' :| 0 <= k' < |pm| && pm[k'] == next[k];
      }
    }
  }

  /** The loop of the four `_get_*_model_metrics` of one family: a model per row
      of the sweep (trained, or loaded when its file exists), its evaluation record
      stored under the row's swept value, a later row with the same value replacing
      the earlier record. The result is the dict the loop fills. */
  method ModelMetrics(k: Kind, registry: Registry, lang: string, texts: seq<seq<string>>,
                      dictionaryArgs: Dict<string, Arg>, rows: seq<Dict<string, Arg>>,
                      versionArgs: Dict<string, Arg>, requestArgs: Dict<string, Arg>, testParamName: string)
    returns (r: Result<ParamMetrics>)
    requires registry.Valid()
    modifies registry, registry.advisor.store
    ensures registry.Valid()
    ensures r.Ok? ==> Collected(r.value, rows, testParamName, KindMetricNames(k))
  {
    var metrics: ParamMetrics := [];
    assert rows[..0] == [];
    for i := 0 to |rows|
      invariant registry.Valid()
      invariant Collected(metrics, rows[..i], testParamName, KindMetricNames(k))
    {
      metrics :- MetricsStep(k, registry, lang, texts, dictionaryArgs, rows, i, versionArgs, requestArgs,
                             testParamName, metrics);
    }
    assert rows[..|rows|] == rows;
    return Ok(metrics);
  }

  /** One round of that loop: the model for row `i`, its record stored under the
      row's swept value. */
  method MetricsStep(k: Kind, registry: Registry, lang: string, texts: seq<seq<string>>,
                     dictionaryArgs: Dict<string, Arg>, rows: seq<Dict<string, Arg>>, i: nat,
                     versionArgs: Dict<string, Arg>, requestArgs: Dict<string, Arg>, testParamName: string,
                     metrics: ParamMetrics)
    returns (r: Result<ParamMetrics>)
    requires registry.Valid() && i < |rows|
    requires Collected(metrics, rows[..i], testParamName, KindMetricNames(k))
    modifies registry, registry.advisor.store
    ensures registry.Valid()
    ensures r.Ok? ==> Collected(r.value, rows[..i + 1], testParamName, KindMetricNames(k))
    ensures r.Ok? ==>
      Settings(k, rows[i]).Ok? && Get(rows[i], testParamName).Some? &&
      exists m: Model :: r.value == Put(metrics, Get(rows[i], testParamName).value,
                                           TopicModel.Metrics(Settings(k, rows[i]).value.0, m, texts).members)
  {
    var row := rows[i];
    var settings :- Settings(k, row);
    SettingsFamily(k, row);
    var dataVersion :- Item(versionArgs, "data_version");
    var dictionaryVersion :- Item(versionArgs, "dictionary_version");
    var modelVersion :- Item(versionArgs, "model_version");
    var value :- Item(row, testParamName);
    var noBelow :- Item(dictionaryArgs, "no_below");
    var noAbove :- Item(dictionaryArgs, "no_above");
    var nMostFrequent :- Item(dictionaryArgs, "n_most_frequent");
    var modelView :- Item(requestArgs, "model_view");
    var model :- TopicModel.NewTopicModel(settings.0, registry, lang, settings.1, dataVersion, dictionaryVersion,
                                          modelVersion, testParamName, value, texts, noBelow, noAbove,
                                          nMostFrequent, Truthy(modelView));
    var record := model.GetModelEvaluationMetrics(texts).value;
    assert record == TopicModel.Metrics(settings.0, model.model.value, texts);
    CollectedStep(metrics, rows, i, testParamName, KindMetricNames(k), value, record.members);
    return Ok(Put(metrics, value, record.members));
  }

  /** `_get_hdp_model_metrics` as written: it trains and evaluates every model of
      the sweep, but its bare `return` hands back `None`, so the plot of an HDP
      sweep never has a column. */
  method HdpModelMetricsAsWritten(registry: Registry, lang: string, texts: seq<seq<string>>,
                                  dictionaryArgs: Dict<string, Arg>, rows: seq<Dict<string, Arg>>,
                                  versionArgs: Dict<string, Arg>, requestArgs: Dict<string, Arg>,
                                  testParamName: string)
    returns (r: Result<Option<ParamMetrics>>)
    requires registry.Valid()
    modifies registry, registry.advisor.store
    ensures registry.Valid()
    ensures r.Ok? ==> r.value.None?
  {
    var metrics :- ModelMetrics(HdpKind, registry, lang, texts, dictionaryArgs, rows, versionArgs, requestArgs,
                                testParamName);
    return Ok(None);
  }

  /** The families whose collector returns the dict it fills: all but HDP. */
  function ReturnedKind(name: Arg): (k: Option<Kind>)
    ensures k.Some? <==> KindOf(name).Some? && name != AStr("hdp")
    ensures k.Some? ==> k == KindOf(name)
  {
    if name == AStr("hdp") then None else KindOf(name)
  }

  /** `_get_requested_models_metrics`: a name other than the four families
      returns `None` and touches nothing; `hdp` trains its sweep and returns
      `None`; the other three return their collector's dict. */
  method RequestedModelsMetrics(modelName: Arg, registry: Registry, lang: string, texts: seq<seq<string>>,
                                dictionaryArgs: Dict<string, Arg>, rows: seq<Dict<string, Arg>>,
                                versionArgs: Dict<string, Arg>, requestArgs: Dict<string, Arg>,
                                testParamName: string)
    returns (r: Result<Option<ParamMetrics>>)
    requires registry.Valid()
    modifies registry, registry.advisor.store
    ensures registry.Valid()
    ensures KindOf(modelName).None? ==>
      r == Ok(None) && registry.instance == old(registry.instance) &&
      registry.advisor.store.files == old(registry.advisor.store.files) &&
      registry.advisor.store.dirs == old(registry.advisor.store.dirs)
    ensures modelName == AStr("hdp") && r.Ok? ==> r.value.None?
    ensures ReturnedKind(modelName).Some? && r.Ok? ==>
      r.value.Some? && Collected(r.value.value, rows, testParamName, KindMetricNames(ReturnedKind(modelName).value))
  {
    var kind := KindOf(modelName);
    if kind.None? {
      return Ok(None);
    }
    if kind.value == HdpKind {
      r := HdpModelMetricsAsWritten(registry, lang, texts, dictionaryArgs, rows, versionArgs, requestArgs,
                                    testParamName);
      return;
    }
    var metrics :- ModelMetrics(kind.value, registry, lang, texts, dictionaryArgs, rows, versionArgs, requestArgs,
                                testParamName);
    return Ok(Some(metrics));
  }

  /** The dispatch with an HDP collector that returns its dict, as the other three
      do: every family name gets its collector's dict. */
  method CorrectedRequestedModelsMetrics(modelName: Arg, registry: Registry, lang: string, texts: seq<seq<string>>,
                                         dictionaryArgs: Dict<string, Arg>, rows: seq<Dict<string, Arg>>,
                                         versionArgs: Dict<string, Arg>, requestArgs: Dict<string, Arg>,
                                         testParamName: string)
    returns (r: Result<Option<ParamMetrics>>)
    requires registry.Valid()
    modifies registry, registry.advisor.store
    ensures registry.Valid()
    ensures KindOf(modelName).None? ==> r == Ok(None)
    ensures KindOf(modelName).Some? && r.Ok? ==>
      r.value.Some? && Collected(r.value.value, rows, testParamName, KindMetricNames(KindOf(modelName).value))
  {
    var kind := KindOf(modelName);
    if kind.None? {
      return Ok(None);
    }
    var metrics :- ModelMetrics(kind.value, registry, lang, texts, dictionaryArgs, rows, versionArgs, requestArgs,
                                testParamName);
    return Ok(Some(metrics));
  }

  // ---------------------------------------------------------------------------
  // The sweep

  /** One call of `comparative_view.plot_metrics`. */
  datatype Plot = Plot(metrics: PlotMetrics, testParam: string, lang: string, modelName: Arg,
                       dataVersion: Arg, dictionaryVersion: Arg, modelVersion: Arg)

  /** (requested model, language, swept parameter) */
  type Slot = (Arg, string, string)

  function SlotOf(p: Plot): Slot {
    (p.modelName, p.lang, p.testParam)
  }

  function Slots(ps: seq<Plot>): (s: seq<Slot>)
    ensures |s| == |ps|
    ensures forall i :: 0 <= i < |ps| ==> s[i] == SlotOf(ps[i])
  {
    if ps == [] then [] else Slots(ps[..|ps| - 1]) + [SlotOf(ps[|ps| - 1])]
  }

  function ForLang(model: Arg, lang: string, params: seq<string>): (s: seq<Slot>)
    ensures |s| == |params|
  {
    seq(|params|, k requires 0 <= k < |params| => (model, lang, params[k]))
  }

  /** The plots of one requested model: the languages of the data in order,
      those not accepted skipped. */
  function ForModel(model: Arg, langs: seq<string>, accepted: seq<Arg>, params: seq<string>): seq<Slot> {
    if langs == [] then []
    else
      var lang := langs[|langs| - 1];
      ForModel(model, langs[..|langs| - 1], accepted, params) +
      (if AStr(lang) in accepted then ForLang(model, lang, params) else [])
  }

  /** The plots of a whole run, requested model by requested model. */
  function Schedule(models: seq<Arg>, langs: seq<string>, accepted: seq<Arg>, params: seq<string>): seq<Slot> {
    if models == [] then []
    else Schedule(models[..|models| - 1], langs, accepted, params) + ForModel(models[|models| - 1], langs, accepted, params)
  }

  lemma {:induction false} ForLangSnoc(model: Arg, lang: string, params: seq<string>, c: nat)
    requires c < |params|
    ensures ForLang(model, lang, params[..c + 1]) == ForLang(model, lang, params[..c]) + [(model, lang, params[c])]
  {
    var l := ForLang(model, lang, params[..c + 1]);
    var r := ForLang(model, lang, params[..c]) + [(model, lang, params[c])];
    forall k | 0 <= k < |l| ensures l[k] == r[k] {
    }
  }

  lemma {:induction false} Assoc<T>(a: seq<T>, b: seq<T>, c: seq<T>)
    ensures (a + b) + c == a + (b + c)
  {
  }

  lemma {:induction false} ScheduleStep(models: seq<Arg>, a: nat, langs: seq<string>, accepted: seq<Arg>, params: seq<string>)
    requires a < |models|
    ensures Schedule(models[..a + 1], langs, accepted, params)
         == Schedule(models[..a], langs, accepted, params) + ForModel(models[a], langs, accepted, params)
  {
    assert models[..a + 1][..a] == models[..a];
  }

  lemma {:induction false} ForModelStep(model: Arg, langs: seq<string>, b: nat, accepted: seq<Arg>, params: seq<string>)
    requires b < |langs|
    ensures ForModel(model, langs[..b + 1], accepted, params)
         == ForModel(model, langs[..b], accepted, params) +
            (if AStr(langs[b]) in accepted then ForLang(model, langs[b], params) else [])
  {
    assert langs[..b + 1][..b] == langs[..b];
  }

  /** The languages of the data that are accepted, in order. */
  function AcceptedLangs(langs: seq<string>, accepted: seq<Arg>): (r: seq<string>)
    ensures |r| <= |langs|
  {
    if langs == [] then []
    else
      AcceptedLangs(langs[..|langs| - 1], accepted) +
      (if AStr(langs[|langs| - 1]) in accepted then [langs[|langs| - 1]] else [])
  }

  lemma {:induction false} ForModelMembers(model: Arg, langs: seq<string>, accepted: seq<Arg>, params: seq<string>, t: Slot)
    ensures t in ForModel(model, langs, accepted, params) <==>
            t.0 == model && t.1 in langs && AStr(t.1) in accepted && t.2 in params
  {
    if langs != [] {
      var init := langs[..|langs| - 1];
      var lang := langs[|langs| - 1];
      ForModelMembers(model, init, accepted, params, t);
      ForLangMembers(model, lang, params, t);
      assert langs == init + [lang];
    }
  }

  lemma {:induction false} ForLangMembers(model: Arg, lang: string, params: seq<string>, t: Slot)
    ensures t in ForLang(model, lang, params) <==> t.0 == model && t.1 == lang && t.2 in params
  {
    var s := ForLang(model, lang, params);
    if t in s {
      var k :| 0 <= k < |s| && s[k] == t;
    }
    if t.0 == model && t.1 == lang && t.2 in params {
      var k :| 0 <= k < |params| && params[k] == t.2;
      assert s[k] == t;
    }
  }

  /** A slot is planned exactly when its model is requested, its language is in
      the data and accepted, and its parameter is swept. */
  lemma {:induction false} ScheduleMembers(models: seq<Arg>, langs: seq<string>, accepted: seq<Arg>, params: seq<string>, t: Slot)
    ensures t in Schedule(models, langs, accepted, params) <==>
            t.0 in models && t.1 in langs && AStr(t.1) in accepted && t.2 in params
  {
    if models != [] {
      var init := models[..|models| - 1];
      ScheduleMembers(init, langs, accepted, params, t);
      ForModelMembers(models[|models| - 1], langs, accepted, params, t);
      assert models == init + [models[|models| - 1]];
    }
  }

  lemma {:induction false} ForModelLength(model: Arg, langs: seq<string>, accepted: seq<Arg>, params: seq<string>)
    ensures |ForModel(model, langs, accepted, params)| == |AcceptedLangs(langs, accepted)| * |params|
  {
    if langs != [] {
      ForModelLength(model, langs[..|langs| - 1], accepted, params);
      var a := |AcceptedLangs(langs[..|langs| - 1], accepted)|;
      MulSucc(a, |params|);
    }
  }

  lemma {:induction false} MulSucc(n: nat, b: nat)
    ensures (n + 1) * b == n * b + b
  {
  }

  /** The plot is called once per requested model, accepted language of the data
      and swept parameter. */
  lemma {:induction false} ScheduleLength(models: seq<Arg>, langs: seq<string>, accepted: seq<Arg>, params: seq<string>)
    ensures |Schedule(models, langs, accepted, params)| == |models| * (|AcceptedLangs(langs, accepted)| * |params|)
  {
    if models != [] {
      ScheduleLength(models[..|models| - 1], langs, accepted, params);
      ForModelLength(models[|models| - 1], langs, accepted, params);
      MulSucc(|models| - 1, |AcceptedLangs(langs, accepted)| * |params|);
    }
  }

  /** What a plot of the sweep receives: nothing for a name outside the four
      families and nothing for `hdp`, whose collector returns `None`; otherwise
      only that family's metric names, and all of them when the swept parameter
      has at least one value. */
  ghost predicate PlotShaped(p: Plot, rows: seq<Dict<string, Arg>>) {
    Valid(p.metrics) &&
    match ReturnedKind(p.modelName)
    case None => p.metrics == []
    case Some(k) => HasColumns(p.metrics, k, rows)
  }

  /** The plot data holds only the family's metric names, and all of them when
      there is at least one row. */
  ghost predicate HasColumns(metrics: PlotMetrics, k: Kind, rows: seq<Dict<string, Arg>>) {
    (forall m :: m in Keys(metrics) ==> m in KindMetricNames(k)) &&
    (rows != [] ==> forall m :: m in KindMetricNames(k) ==> m in Keys(metrics))
  }

  /** The rows swept for a parameter of the run. */
  function RowsOf(grids: Dict<string, seq<Dict<string, Arg>>>, param: string): seq<Dict<string, Arg>> {
    match Get(grids, param)
    case Some(rows) => rows
    case None => []
  }

  lemma {:induction false} ShapedPlot(p: Plot, rows: seq<Dict<string, Arg>>, pm: Option<ParamMetrics>)
    requires Valid(p.metrics)
    requires ReturnedKind(p.modelName).None? ==> pm.None?
    requires pm.None? ==> p.metrics == []
    requires ReturnedKind(p.modelName).Some? ==>
      pm.Some? && Collected(pm.value, rows, p.testParam, KindMetricNames(ReturnedKind(p.modelName).value))
    requires pm.Some? ==> forall m :: Get(p.metrics, m) == Column(pm.value, m)
    ensures PlotShaped(p, rows)
  {
    if ReturnedKind(p.modelName).Some? {
      CollectedColumns(p.metrics, ReturnedKind(p.modelName).value, rows, p.testParam, pm.value);
    }
  }

  /** The plot data of a collector's dict has the family's columns: with the
      corrected dispatch this holds for HDP too. */
  lemma {:induction false} CollectedColumns(metrics: PlotMetrics, k: Kind, rows: seq<Dict<string, Arg>>,
                                            testParam: string, pm: ParamMetrics)
    requires Collected(pm, rows, testParam, KindMetricNames(k))
    requires forall m :: Get(metrics, m) == Column(pm, m)
    ensures HasColumns(metrics, k, rows)
  {
    forall m | m in Keys(metrics) ensures m in KindMetricNames(k) {
      EntriesPresent(pm, m);
      assert Column(pm, m).Some?;
      var j :| 0 <= j < |pm| && m in Keys(pm[j].1);
    }
    if rows != [] {
      assert TestValues(rows, testParam)[0] in Keys(pm);
      PlottedNames(pm, KindMetricNames(k), metrics);
    }
  }

  /** The plot data is the regrouping of a dict the family's collector can
      return for `rows`: its columns are those of some collected dict. */
  ghost predicate RegroupedFrom(metrics: PlotMetrics, k: Kind, rows: seq<Dict<string, Arg>>, testParam: string) {
    exists pm: ParamMetrics :: Collected(pm, rows, testParam, KindMetricNames(k)) && forall m :: Get(metrics, m) == Column(pm, m)
  }

  /** Every `[value, score]` pair in a column of a collected dict, and so in
      plot data regrouped from it, has a swept value of `rows` as its value. */
  lemma {:induction false} RegroupedValuesSwept(pm: ParamMetrics, k: Kind, rows: seq<Dict<string, Arg>>,
                                                testParam: string, m: string, t: nat)
    requires Collected(pm, rows, testParam, KindMetricNames(k))
    requires t < |Entries(pm, m)|
    ensures Entries(pm, m)[t].0 in TestValues(rows, testParam)
  {
    EntriesFrom(pm, m, t);
    var j :| 0 <= j < |pm| && pm[j].0 == Entries(pm, m)[t].0 && Get(pm[j].1, m) == Some(Entries(pm, m)[t].1);
    assert Keys(pm)[j] == pm[j].0;
  }

  class TopicExtractionHandler {
    /** The calls made to the comparative view, in order. */
    var plots: seq<Plot>

    constructor ()
      ensures plots == []
    {
      plots := [];
    }

    /** The body of the innermost loop: the metrics of one swept parameter,
        regrouped and plotted. */
    method PlotParam(modelName: Arg, lang: string, texts: seq<seq<string>>, testParam: string,
                     rows: seq<Dict<string, Arg>>, registry: Registry, dictionaryArgs: Dict<string, Arg>,
                     versionArgs: Dict<string, Arg>, requestArgs: Dict<string, Arg>)
      returns (o: Outcome)
      requires registry.Valid()
      modifies this, registry, registry.advisor.store
      ensures registry.Valid()
      ensures o.Fail? ==> plots == old(plots)
      ensures o.Pass? ==>
        |plots| == |old(plots)| + 1 && plots[..|old(plots)|] == old(plots) &&
        SlotOf(plots[|old(plots)|]) == (modelName, lang, testParam) && PlotShaped(plots[|old(plots)|], rows) &&
        (ReturnedKind(modelName).Some? ==>
           RegroupedFrom(plots[|old(plots)|].metrics, ReturnedKind(modelName).value, rows, testParam))
    {
      var pm := RequestedModelsMetrics(modelName, registry, lang, texts, dictionaryArgs, rows, versionArgs,
                                       requestArgs, testParam);
      if pm.Err? {
        return Fail(pm.error);
      }
      if pm.value.Some? {
        forall k | 0 <= k < |pm.value.value| ensures Valid(pm.value.value[k].1) {
          KindMetricNamesDistinct(ReturnedKind(modelName).value);
        }
      }
      var metrics := MakeParamMetricsReadyToPlot(pm.value);
      var dataVersion := Item(versionArgs, "data_version");
      var dictionaryVersion := Item(versionArgs, "dictionary_version");
      var modelVersion := Item(versionArgs, "model_version");
      if dataVersion.Err? || dictionaryVersion.Err? || modelVersion.Err? {
        return Fail(KeyError(if dataVersion.Err? then "data_version"
                             else if dictionaryVersion.Err? then "dictionary_version" else "model_version"));
      }
      var p := Plot(metrics, testParam, lang, modelName, dataVersion.value, dictionaryVersion.value, modelVersion.value);
      ShapedPlot(p, rows, pm.value);
      plots := plots + [p];
      return Pass;
    }

    /** Every plot from `start` on got what `PlotShaped` describes. */
    ghost predicate ShapedFrom(start: nat, grids: Dict<string, seq<Dict<string, Arg>>>)
      reads this
    {
      start <= |plots| && forall k :: start <= k < |plots| ==> PlotShaped(plots[k], RowsOf(grids, plots[k].testParam))
    }

    /** ... and the plots from `start` on are those of `planned`. */
    ghost predicate SweptFrom(start: nat, grids: Dict<string, seq<Dict<string, Arg>>>, planned: seq<Slot>)
      reads this
    {
      ShapedFrom(start, grids) && Slots(plots[start..]) == planned
    }

    lemma {:induction false} SweptStep(start: nat, grids: Dict<string, seq<Dict<string, Arg>>>, planned: seq<Slot>,
                    before: seq<Plot>, c: nat)
      requires Valid(grids) && c < |grids|
      requires start <= |before| && Slots(before[start..]) == planned
      requires forall k :: start <= k < |before| ==> PlotShaped(before[k], RowsOf(grids, before[k].testParam))
      requires |plots| == |before| + 1 && plots[..|before|] == before
      requires plots[|before|].testParam == grids[c].0 && PlotShaped(plots[|before|], grids[c].1)
      ensures SweptFrom(start, grids, planned + [SlotOf(plots[|before|])])
    {
      GetEntry(grids, c);
      assert plots[start..] == before[start..] + [plots[|before|]];
      forall k | start <= k < |plots| ensures PlotShaped(plots[k], RowsOf(grids, plots[k].testParam)) {
        if k < |before| {
          assert plots[k] == before[k];
        }
      }
    }

    /** The innermost loop of `get_topic_extraction`: one plot per swept
        parameter, in the order of the sweep dict. */
    method SweepParams(model: Arg, lang: string, texts: seq<seq<string>>,
                       grids: Dict<string, seq<Dict<string, Arg>>>, registry: Registry,
                       dictionaryArgs: Dict<string, Arg>, versionArgs: Dict<string, Arg>, requestArgs: Dict<string, Arg>,
                       ghost start: nat, ghost planned: seq<Slot>)
      returns (o: Outcome)
      requires registry.Valid() && Valid(grids) && SweptFrom(start, grids, planned)
      modifies this, registry, registry.advisor.store
      ensures registry.Valid() && old(plots) <= plots && ShapedFrom(start, grids)
      ensures o.Pass? ==> SweptFrom(start, grids, planned + ForLang(model, lang, Keys(grids)))
    {
      var params := Keys(grids);
      assert ForLang(model, lang, params[..0]) == [];
      assert planned + [] == planned;
      for c := 0 to |grids|
        invariant registry.Valid() && old(plots) <= plots
        invariant SweptFrom(start, grids, planned + ForLang(model, lang, params[..c]))
      {
        o := SweepParam(model, lang, texts, grids, c, registry, dictionaryArgs, versionArgs, requestArgs,
                        start, planned);
        if o.Fail? {
          return;
        }
      }
      assert params[..|grids|] == params;
      return Pass;
    }

    /** One round of the innermost loop: the plot for the `c`-th swept parameter. */
    method SweepParam(model: Arg, lang: string, texts: seq<seq<string>>,
                      grids: Dict<string, seq<Dict<string, Arg>>>, c: nat, registry: Registry,
                      dictionaryArgs: Dict<string, Arg>, versionArgs: Dict<string, Arg>, requestArgs: Dict<string, Arg>,
                      ghost start: nat, ghost planned: seq<Slot>)
      returns (o: Outcome)
      requires registry.Valid() && Valid(grids) && c < |grids|
      requires SweptFrom(start, grids, planned + ForLang(model, lang, Keys(grids)[..c]))
      modifies this, registry, registry.advisor.store
      ensures registry.Valid() && old(plots) <= plots && ShapedFrom(start, grids)
      ensures o.Pass? ==> SweptFrom(start, grids, planned + ForLang(model, lang, Keys(grids)[..c + 1]))
    {
      var (testParam, rows) := grids[c];
      ghost var before := plots;
      o := PlotParam(model, lang, texts, testParam, rows, registry, dictionaryArgs, versionArgs, requestArgs);
      if o.Pass? {
        SweptStep(start, grids, planned + ForLang(model, lang, Keys(grids)[..c]), before, c);
        ForLangSnoc(model, lang, Keys(grids), c);
        Assoc(planned, ForLang(model, lang, Keys(grids)[..c]), [(model, lang, testParam)]);
      }
    }

    /** The middle loop: the languages of the processed data in order, each
        tested for membership in the requested languages when it is reached. */
    method SweepLanguages(model: Arg, processed: Dict<string, seq<seq<string>>>, requestedLangs: Arg,
                          grids: Dict<string, seq<Dict<string, Arg>>>, registry: Registry,
                          dictionaryArgs: Dict<string, Arg>, versionArgs: Dict<string, Arg>, requestArgs: Dict<string, Arg>,
                          ghost start: nat, ghost planned: seq<Slot>)
      returns (o: Outcome)
      requires registry.Valid() && Valid(grids) && SweptFrom(start, grids, planned)
      modifies this, registry, registry.advisor.store
      ensures registry.Valid() && old(plots) <= plots && ShapedFrom(start, grids)
      ensures o.Pass? ==>
        SweptFrom(start, grids, planned + ForModel(model, Keys(processed), Accepted(requestedLangs), Keys(grids)))
    {
      var langs := Keys(processed);
      ghost var accepted := Accepted(requestedLangs);
      assert planned + [] == planned;
      for b := 0 to |processed|
        invariant registry.Valid() && old(plots) <= plots
        invariant SweptFrom(start, grids, planned + ForModel(model, langs[..b], accepted, Keys(grids)))
      {
        var (lang, texts) := processed[b];
        ghost var done := ForModel(model, langs[..b], accepted, Keys(grids));
        ForModelStep(model, langs, b, accepted, Keys(grids));
        assert langs[b] == lang;
        var wanted := Contains(requestedLangs, lang);
        if wanted.Err? {
          return Fail(wanted.error);
        }
        if wanted.value {
          o := SweepParams(model, lang, texts, grids, registry, dictionaryArgs, versionArgs, requestArgs,
                           start, planned + done);
          if o.Fail? {
            return;
          }
          Assoc(planned, done, ForLang(model, lang, Keys(grids)));
        } else {
          assert done + [] == done;
        }
      }
      assert langs[..|processed|] == langs;
      return Pass;
    }

    /** The nested loops of `get_topic_extraction`: requested model, then
        language, then swept parameter; one plot per step. A failure stops the
        run with the plots made so far. */
    method Sweep(models: seq<Arg>, processed: Dict<string, seq<seq<string>>>, requestedLangs: Arg,
                 grids: Dict<string, seq<Dict<string, Arg>>>, registry: Registry,
                 dictionaryArgs: Dict<string, Arg>, versionArgs: Dict<string, Arg>, requestArgs: Dict<string, Arg>)
      returns (o: Outcome)
      requires registry.Valid() && Valid(grids)
      modifies this, registry, registry.advisor.store
      ensures registry.Valid() && old(plots) <= plots && ShapedFrom(|old(plots)|, grids)
      ensures o.Pass? ==> Slots(plots[|old(plots)|..]) == Schedule(models, Keys(processed), Accepted(requestedLangs), Keys(grids))
    {
      ghost var start := |plots|;
      assert plots[start..] == [];
      for a := 0 to |models|
        invariant registry.Valid() && old(plots) <= plots
        invariant SweptFrom(start, grids, Schedule(models[..a], Keys(processed), Accepted(requestedLangs), Keys(grids)))
      {
        ScheduleStep(models, a, Keys(processed), Accepted(requestedLangs), Keys(grids));
        o := SweepLanguages(models[a], processed, requestedLangs, grids, registry, dictionaryArgs, versionArgs,
                            requestArgs, start, Schedule(models[..a], Keys(processed), Accepted(requestedLangs), Keys(grids)));
        if o.Fail? {
          return;
        }
      }
      assert models[..|models|] == models;
      return Pass;
    }

    /** `_get_processed_data`: the processed data of the run's data file. */
    static method GetProcessedData(data: Dict<string, Arg>, versionify: Dict<string, Arg>, advisor: Advisor,
                                   preprocessors: TextPreprocessor.Registry, c: DataProvider.Collaborators,
                                   nlp: TextPreprocessor.Nlp)
      returns (r: Result<Dict<string, seq<seq<string>>>>)
      requires preprocessors.Valid()
      modifies advisor.store, preprocessors
      ensures preprocessors.Valid()
    {
      var name :- Item(data, "data_file_name");
      var extension :- Item(data, "data_file_extension");
      var dataVersion :- Item(versionify, "data_version");
      var fileType :- Item(data, "data_file_type");
      var includeTags :- Item(data, "include_tags");
      var excludeTags :- Item(data, "exclude_tags");
      r := TextPreprocessor.GetProcessedData(advisor, preprocessors, Show(name), Show(extension), Show(dataVersion),
                                             Show(fileType), includeTags, excludeTags, c, nlp);
    }

    /** The first two lines of `get_topic_extraction`: the parameters, and the data
        root set from them. When the parameters are there, `args` is the six
        groups `get_parameters` projects from the keyword arguments, and the root
        is the old template formatted with the passed `data_folder_path`; a
        failure at either step leaves the root as it was. */
    static method Configure(kwargs: seq<(string, Arg)>, params: ModelParams.ModelParams, advisor: Advisor)
      returns (o: Outcome, args: ExeParams.Parameters)
      requires params.Valid()
      modifies params, params.ParamSet(), advisor
      ensures params.Valid()
      ensures var all := ExeParams.FromPairs(kwargs);
        var (s, added, out) := ModelParams.SetAllFrom(old(params.States()), ExeParams.Projection(ModelParams.Names, all), 0);
        var root := Format(old(advisor.dataFolder), Show(ExeParams.ValueOf(all, "data_folder_path")));
        params.States() == s && params.iterables == old(params.iterables) + added &&
        (out.Fail? ==> o.Fail?) &&
        (out.Pass? ==>
           o == OutcomeOf(root) &&
           args == ExeParams.Parameters(all, ExeParams.Projection(ExeParams.DataNames, all),
                                        ExeParams.Projection(ExeParams.DictionaryNames, all),
                                        ExeParams.Projection(ModelParams.Names, all),
                                        ExeParams.Projection(ExeParams.VersionifyNames, all),
                                        ExeParams.Projection(ExeParams.RequestNames, all)))
      ensures o.Pass? ==> advisor.dataFolderIsSet && advisor.dataFolder == Format(old(advisor.dataFolder),
                                                       Show(ExeParams.ValueOf(ExeParams.FromPairs(kwargs), "data_folder_path"))).value
      ensures o.Fail? ==> advisor.dataFolder == old(advisor.dataFolder) && advisor.dataFolderIsSet == old(advisor.dataFolderIsSet)
    {
      var parameters := ExeParams.GetParameters(kwargs, params);
      if parameters.Err? {
        return Fail(parameters.error), ExeParams.Parameters([], [], [], [], [], []);
      }
      args := parameters.value;
      ExeParams.ProjectionGet(ExeParams.DataNames, args.all);
      var root := Item(args.data, "data_folder_path");
      o := advisor.SetDataFolderPath(Show(root.value));
    }

    /** What the loops of `get_topic_extraction` iterate: the sweep grids of
        `get_possible_model_params_values`, one per swept name, the requested
        models and the requested languages. Each raises where the source does:
        a swept parameter without a value, a missing request entry, or
        requested models that cannot be iterated. */
    static method LoopInputs(args: ExeParams.Parameters, params: ModelParams.ModelParams)
      returns (r: Result<(Dict<string, seq<Dict<string, Arg>>>, seq<Arg>, Arg)>)
      requires params.Valid()
      ensures r.Ok? <==>
        (forall j :: 0 <= j < |params.iterables| ==> params.States()[params.iterables[j]].value.Some?) &&
        Item(args.request, "requested_models").Ok? && Iterated(Item(args.request, "requested_models").value).Ok? &&
        Item(args.request, "requested_lang").Ok?
      ensures r.Ok? ==>
        Valid(r.value.0) && Keys(r.value.0) == ModelParams.Dedup(ModelParams.NamesOf(params.iterables)) &&
        (forall j :: 0 <= j < |params.iterables| ==>
           Get(r.value.0, ModelParams.Names[params.iterables[j]]) == Some(ModelParams.Grid(params.States(), params.iterables[j]))) &&
        r.value.1 == Iterated(Item(args.request, "requested_models").value).value &&
        r.value.2 == Item(args.request, "requested_lang").value
    {
      var grids :- params.GetPossibleModelParamsValues();
      ModelParams.DedupDistinct(ModelParams.NamesOf(params.iterables));
      var requestedModels :- Item(args.request, "requested_models");
      var models :- Iterated(requestedModels);
      var requestedLangs :- Item(args.request, "requested_lang");
      return Ok((grids, models, requestedLangs));
    }

    /** `get_topic_extraction`: the parameters, the data root, the processed data
        and the sweep grids, in that order, then the sweep. */
    method GetTopicExtraction(kwargs: seq<(string, Arg)>, params: ModelParams.ModelParams, advisor: Advisor,
                              preprocessors: TextPreprocessor.Registry, registry: Registry,
                              c: DataProvider.Collaborators, nlp: TextPreprocessor.Nlp)
      returns (o: Outcome)
      requires params.Valid() && preprocessors.Valid() && registry.Valid() && registry.advisor == advisor
      modifies this, params, params.ParamSet(), advisor, advisor.store, preprocessors, registry
      ensures params.Valid() && preprocessors.Valid() && registry.Valid()
      ensures o.Pass? ==> advisor.dataFolderIsSet
      ensures old(plots) <= plots
    {
      var args;
      o, args := Configure(kwargs, params, advisor);
      if o.Pass? {
        o := Extract(args, params, advisor, preprocessors, registry, c, nlp);
      }
    }

    /** `get_topic_extraction` once the root is set: the processed data, the
        loop inputs, then the sweep, stopping at the first error. */
    method Extract(args: ExeParams.Parameters, params: ModelParams.ModelParams, advisor: Advisor,
                   preprocessors: TextPreprocessor.Registry, registry: Registry,
                   c: DataProvider.Collaborators, nlp: TextPreprocessor.Nlp)
      returns (o: Outcome)
      requires params.Valid() && preprocessors.Valid() && registry.Valid() && registry.advisor == advisor
      modifies this, advisor.store, preprocessors, registry
      ensures preprocessors.Valid() && registry.Valid()
      ensures old(plots) <= plots
    {
      var processed := GetProcessedData(args.data, args.versionify, advisor, preprocessors, c, nlp);
      if processed.Err? {
        return Fail(processed.error);
      }
      var inputs := LoopInputs(args, params);
      if inputs.Err? {
        return Fail(inputs.error);
      }
      var (grids, models, requestedLangs) := inputs.value;
      o := Sweep(models, processed.value, requestedLangs, grids, registry, args.dictionary, args.versionify,
                 args.request);
    }
  }
}
