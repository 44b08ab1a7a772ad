/** The command-line parameters of one run, split into the groups the program
    consumes: data, dictionary, model, versionify and request parameters. Each
    group is the projection of the parsed arguments onto that group's fixed list
    of names, a missing name standing for `None`. */
module ExeParams {
  import opened Basics
  import opened Artifacts
  import opened OrderedMap
  import ModelParams

  const DataNames: seq<string> :=
    ["data_folder_path", "data_file_name", "data_file_extension", "data_file_type", "include_tags", "exclude_tags"]
  const DictionaryNames: seq<string> := ["no_below", "no_above", "n_most_frequent"]
  const VersionifyNames: seq<string> := ["data_version", "dictionary_version", "model_version"]
  const RequestNames: seq<string> := ["model_view", "requested_lang", "requested_models"]

  lemma {:induction false} NameListsDistinct()
    ensures Distinct(DataNames) && Distinct(DictionaryNames)
    ensures Distinct(VersionifyNames) && Distinct(RequestNames)
    ensures Distinct(ModelParams.Names)
  {
    ModelParams.NamesDistinct();
  }

  // ---------------------------------------------------------------------------
  // The whole namespace

  /** The dict obtained by assigning the pairs in turn. */
  function FromPairs(kwargs: seq<(string, Arg)>): Dict<string, Arg> {
    if kwargs == [] then []
    else
      var last := kwargs[|kwargs| - 1];
      Put(FromPairs(kwargs[..|kwargs| - 1]), last.0, last.1)
  }

  /** The dict holds exactly the names of the namespace; since a namespace has each
      attribute once, it is the namespace's pair list itself, so every (name, value)
      pair is in it. */
  lemma {:induction false} FromPairsSpec(kwargs: seq<(string, Arg)>)
    ensures KeySet(FromPairs(kwargs)) == set p | p in kwargs :: p.0
    ensures Valid(FromPairs(kwargs))
    ensures Distinct(Keys(kwargs)) ==> FromPairs(kwargs) == kwargs
    ensures Distinct(Keys(kwargs)) ==> forall i :: 0 <= i < |kwargs| ==> Get(FromPairs(kwargs), kwargs[i].0) == Some(kwargs[i].1)
  {
    FromPairsKeys(kwargs);
    if Distinct(Keys(kwargs)) {
      FromPairsDistinct(kwargs);
      forall i | 0 <= i < |kwargs| ensures Get(kwargs, kwargs[i].0) == Some(kwargs[i].1) {
        GetEntry(kwargs, i);
      }
    }
  }

  lemma {:induction false} FromPairsKeys(kwargs: seq<(string, Arg)>)
    ensures KeySet(FromPairs(kwargs)) == set p | p in kwargs :: p.0
    ensures Valid(FromPairs(kwargs))
  {
    if kwargs != [] {
      var init, last := kwargs[..|kwargs| - 1], kwargs[|kwargs| - 1];
      assert kwargs == init + [last];
      FromPairsKeys(init);
      PutKeepsValid(FromPairs(init), last.0, last.1);
      assert (set p | p in kwargs :: p.0) == (set p | p in init :: p.0) + {last.0};
    }
  }

  lemma {:induction false} FromPairsDistinct(kwargs: seq<(string, Arg)>)
    requires Distinct(Keys(kwargs))
    ensures FromPairs(kwargs) == kwargs
  {
    if kwargs != [] {
      var init, last := kwargs[..|kwargs| - 1], kwargs[|kwargs| - 1];
      LastKeyNew(kwargs);
      FromPairsDistinct(init);
      PutNew(init, last.0, last.1);
      assert kwargs == init + [last];
    }
  }

  /** `extract_exe_parameters_as_dict(args)`, given `args._get_kwargs()`. */
  method ExtractExeParametersAsDict(kwargs: seq<(string, Arg)>) returns (passed: Dict<string, Arg>)
    ensures passed == FromPairs(kwargs)
  {
    passed := [];
    for i := 0 to |kwargs|
      invariant passed == FromPairs(kwargs[..i])
    {
      assert kwargs[..i + 1][..i] == kwargs[..i];
      passed := Put(passed, kwargs[i].0, kwargs[i].1);
    }
    assert kwargs[..|kwargs|] == kwargs;
  }

  // ---------------------------------------------------------------------------
  // Projections

  /** `passed_args[name]` when present, `None` otherwise. */
  function ValueOf(passed: Dict<string, Arg>, name: string): Arg {
    match Get(passed, name)
    case Some(v) => v
    case None => ANone
  }

  /** The dict a `get_*_parameters` loop fills for the name list `names`. */
  function Projection(names: seq<string>, passed: Dict<string, Arg>): Dict<string, Arg> {
    if names == [] then []
    else
      var last := names[|names| - 1];
      Put(Projection(names[..|names| - 1], passed), last, ValueOf(passed, last))
  }

  /** A projection holds a name iff it is listed, at the passed value or `None`;
      names outside the list never appear. */
  lemma {:induction false} ProjectionGet(names: seq<string>, passed: Dict<string, Arg>)
    ensures forall k :: Get(Projection(names, passed), k) == if k in names then Some(ValueOf(passed, k)) else None
  {
    if names != [] {
      var init, last := names[..|names| - 1], names[|names| - 1];
      assert names == init + [last];
      ProjectionGet(init, passed);
      PutSpec(Projection(init, passed), last, ValueOf(passed, last));
    }
  }

  /** The key set of a projection is the set of listed names. */
  lemma {:induction false} ProjectionKeySet(names: seq<string>, passed: Dict<string, Arg>)
    ensures KeySet(Projection(names, passed)) == set k | k in names
  {
    ProjectionGet(names, passed);
  }

  /** For a list without repeats, the keys are the list itself, in order. */
  lemma {:induction false} ProjectionKeys(names: seq<string>, passed: Dict<string, Arg>)
    requires Distinct(names)
    ensures Keys(Projection(names, passed)) == names
  {
    if names != [] {
      var init, last := names[..|names| - 1], names[|names| - 1];
      assert names == init + [last];
      assert Distinct(init) by {
        forall i, j | 0 <= i < j < |init| ensures init[i] != init[j] {
          assert names[i] != names[j];
        }
      }
      assert last !in init by {
        forall i | 0 <= i < |init| ensures init[i] != last {
          assert names[i] != names[|init|];
        }
      }
      ProjectionKeys(init, passed);
      PutSpec(Projection(init, passed), last, ValueOf(passed, last));
    }
  }

  /** The loop shared by the `get_*_parameters` getters. */
  method Project(names: seq<string>, passed: Dict<string, Arg>) returns (r: Dict<string, Arg>)
    ensures r == Projection(names, passed)
  {
    r := [];
    for i := 0 to |names|
      invariant r == Projection(names[..i], passed)
    {
      assert names[..i + 1][..i] == names[..i];
      if Get(passed, names[i]).Some? {
        r := Put(r, names[i], Get(passed, names[i]).value);
      } else {
        r := Put(r, names[i], ANone);
      }
    }
    assert names[..|names|] == names;
  }

  /** `get_data_parameters` */
  method GetDataParameters(passed: Dict<string, Arg>) returns (r: Dict<string, Arg>)
    ensures r == Projection(DataNames, passed)
  {
    r := Project(DataNames, passed);
  }

  /** `get_dictionary_parameters` */
  method GetDictionaryParameters(passed: Dict<string, Arg>) returns (r: Dict<string, Arg>)
    ensures r == Projection(DictionaryNames, passed)
  {
    r := Project(DictionaryNames, passed);
  }

  /** `get_versionify_parameters` */
  method GetVersionifyParameters(passed: Dict<string, Arg>) returns (r: Dict<string, Arg>)
    ensures r == Projection(VersionifyNames, passed)
  {
    r := Project(VersionifyNames, passed);
  }

  /** `get_request_parameters` */
  method GetRequestParameters(passed: Dict<string, Arg>) returns (r: Dict<string, Arg>)
    ensures r == Projection(RequestNames, passed)
  {
    r := Project(RequestNames, passed);
  }

  /** The model projection names all seven parameters, so the sweep never looks a
      name up in vain: an exception can only come from `set_value`. */
  lemma {:induction false} ModelProjectionHasEveryName(passed: Dict<string, Arg>, states: seq<ModelParams.ParamState>)
    requires |states| == ModelParams.Count
    ensures forall n :: ModelParams.SetAllFrom(states, Projection(ModelParams.Names, passed), 0).2 != Fail(KeyError(n))
  {
    ProjectionGet(ModelParams.Names, passed);
    ModelParams.SetAllNamed(states, Projection(ModelParams.Names, passed), 0);
  }

  /** `get_model_parameters`: the projection onto the seven model names, handed to
      `set_model_params_value`; an exception there propagates. */
  method GetModelParameters(passed: Dict<string, Arg>, params: ModelParams.ModelParams) returns (r: Result<Dict<string, Arg>>)
    requires params.Valid()
    modifies params, params.ParamSet()
    ensures params.Valid()
    ensures var (s, added, out) := ModelParams.SetAllFrom(old(params.States()), Projection(ModelParams.Names, passed), 0);
      params.States() == s && params.iterables == old(params.iterables) + added &&
      (if out.Pass? then r == Ok(Projection(ModelParams.Names, passed)) else r == Err(out.error))
  {
    var args := Project(ModelParams.Names, passed);
    var o := params.SetModelParamsValue(args);
    if o.Fail? {
      return Err(o.error);
    }
    return Ok(args);
  }

  /** The six results of `get_parameters`, in the order it returns them. */
  datatype Parameters = Parameters(
    all: Dict<string, Arg>,
    data: Dict<string, Arg>,
    dictionary: Dict<string, Arg>,
    model: Dict<string, Arg>,
    versionify: Dict<string, Arg>,
    request: Dict<string, Arg>)

  /** `get_parameters(args)`: every group is projected from the same dict of all
      arguments. */
  method GetParameters(kwargs: seq<(string, Arg)>, params: ModelParams.ModelParams) returns (r: Result<Parameters>)
    requires params.Valid()
    modifies params, params.ParamSet()
    ensures params.Valid()
    ensures var all := FromPairs(kwargs);
      var (s, added, out) := ModelParams.SetAllFrom(old(params.States()), Projection(ModelParams.Names, all), 0);
      params.States() == s && params.iterables == old(params.iterables) + added &&
      (out.Pass? <==> r.Ok?) &&
      (r.Ok? ==> r.value == Parameters(all, Projection(DataNames, all), Projection(DictionaryNames, all),
                                       Projection(ModelParams.Names, all), Projection(VersionifyNames, all),
                                       Projection(RequestNames, all)))
  {
    var all := ExtractExeParametersAsDict(kwargs);
    var data := GetDataParameters(all);
    var dictionary := GetDictionaryParameters(all);
    var model :- GetModelParameters(all, params);
    var versionify := GetVersionifyParameters(all);
    var request := GetRequestParameters(all);
    return Ok(Parameters(all, data, dictionary, model, versionify, request));
  }
}
