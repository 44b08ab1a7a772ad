/** The hyperparameter sweep. Each of the seven model parameters receives the list
    argparse produced for it: a single value is used as is, a `[start, stop, step]`
    triple is expanded into the values start, start+step, ... up to stop, and the
    parameter is then "iterable". For every iterable parameter a grid of argument
    dicts is built that varies that one parameter and holds every other one at its
    best value. */
module ModelParams {
  import opened Basics
  import opened Artifacts
  import opened OrderedMap

  /** The parameter names, in the order the class lists them. */
  const Names: seq<string> :=
    ["number_of_topics", "eval_every", "chunk_size", "iterations", "passes", "alpha", "beta"]
  const Count := 7

  lemma {:induction false} NamesDistinct()
    ensures |Names| == Count
    ensures forall i, j :: 0 <= i < j < Count ==> Names[i] != Names[j]
  {
  }

  // ---------------------------------------------------------------------------
  // Range expansion

  /** The values the loop of `set_value` appends for integers: `start`, then each
      previous value plus `step` for as long as that stays at most `stop`. Defined
      where the loop ends, that is unless `step <= 0` and `start + step <= stop`. */
  function Expansion(start: int, stop: int, step: int): seq<int>
    requires step > 0 || start + step > stop
    decreases stop - start
  {
    if start + step <= stop then [start] + Expansion(start + step, stop, step) else [start]
  }

  predicate Terminates(start: int, stop: int, step: int) {
    step > 0 || start + step > stop
  }

  /** The expansion starts at `start` even past `stop`, its `i`-th value is
      `start + i * step`, every later value is at most `stop`, and one more step
      would pass `stop`. */
  lemma {:induction false} ExpansionShape(start: int, stop: int, step: int)
    requires Terminates(start, stop, step)
    ensures |Expansion(start, stop, step)| >= 1
    ensures Expansion(start, stop, step)[0] == start
    ensures forall i :: 0 <= i < |Expansion(start, stop, step)| ==> Expansion(start, stop, step)[i] == start + i * step
    ensures forall i :: 0 < i < |Expansion(start, stop, step)| ==> Expansion(start, stop, step)[i] <= stop
    ensures Expansion(start, stop, step)[|Expansion(start, stop, step)| - 1] + step > stop
  {
    var e := Expansion(start, stop, step);
    forall i | 0 <= i < |e| ensures e[i] == start + i * step {
      ExpansionAt(start, stop, step, i);
    }
    forall i | 0 < i < |e| ensures e[i] <= stop {
      ExpansionBelow(start, stop, step, i);
    }
    ExpansionLast(start, stop, step);
  }

  lemma {:induction false} ExpansionAt(start: int, stop: int, step: int, i: nat)
    requires Terminates(start, stop, step) && i < |Expansion(start, stop, step)|
    ensures Expansion(start, stop, step)[i] == start + i * step
    decreases i
  {
    if i > 0 {
      var e := Expansion(start, stop, step);
      var r := Expansion(start + step, stop, step);
      assert e == [start] + r;
      ExpansionAt(start + step, stop, step, i - 1);
      assert e[i] == r[i - 1] == start + step + (i - 1) * step;
      MulSub(i, 1, step);
    }
  }

  lemma {:induction false} ExpansionBelow(start: int, stop: int, step: int, i: nat)
    requires Terminates(start, stop, step) && 0 < i < |Expansion(start, stop, step)|
    ensures Expansion(start, stop, step)[i] <= stop
    decreases i
  {
    var e := Expansion(start, stop, step);
    var r := Expansion(start + step, stop, step);
    assert e == [start] + r;
    if i > 1 {
      ExpansionBelow(start + step, stop, step, i - 1);
    }
    assert e[i] == r[i - 1];
  }

  lemma {:induction false} ExpansionLast(start: int, stop: int, step: int)
    requires Terminates(start, stop, step)
    ensures Expansion(start, stop, step)[|Expansion(start, stop, step)| - 1] + step > stop
    decreases stop - start
  {
    if start + step <= stop {
      var e := Expansion(start, stop, step);
      var r := Expansion(start + step, stop, step);
      assert e == [start] + r;
      ExpansionLast(start + step, stop, step);
      assert e[|e| - 1] == r[|r| - 1];
    }
  }

  /** For a positive step the expansion has `(stop - start) / step + 1` values when
      `start <= stop`, and the single value `start` otherwise. */
  lemma {:induction false} ExpansionLength(start: int, stop: int, step: int)
    requires step > 0
    ensures start <= stop ==> |Expansion(start, stop, step)| == (stop - start) / step + 1
    ensures start > stop ==> Expansion(start, stop, step) == [start]
    decreases stop - start
  {
    if start + step <= stop {
      ExpansionLength(start + step, stop, step);
      assert (stop - start) / step == (stop - (start + step)) / step + 1 by {
        DivShift(stop - start - step, step);
      }
    } else if start <= stop {
      assert 0 <= stop - start < step;
    }
  }

  lemma {:induction false} DivShift(n: int, d: int)
    requires n >= 0 && d > 0
    ensures (n + d) / d == n / d + 1
  {
    var q, r := n / d, n % d;
    assert n == q * d + r && 0 <= r < d;
    assert n + d == (q + 1) * d + r;
    DivUnique(n + d, d, q + 1, r);
  }

  /** Euclidean division is determined by quotient and remainder. */
  lemma {:induction false} DivUnique(n: int, d: int, q: int, r: int)
    requires d > 0 && 0 <= r < d && n == q * d + r
    ensures n / d == q
  {
    var q', r' := n / d, n % d;
    assert n == q' * d + r' && 0 <= r' < d;
    MulSub(q, q', d);
    if q > q' {
      MulAtLeast(q - q', d);
    } else if q < q' {
      MulSub(q', q, d);
      MulAtLeast(q' - q, d);
    }
  }

  lemma {:induction false} MulSub(a: int, b: int, d: int)
    ensures (a - b) * d == a * d - b * d
  {
  }

  lemma {:induction false} MulAtLeast(a: int, d: int)
    requires a >= 1 && d > 0
    ensures a * d >= d
    decreases a
  {
    if a > 1 {
      MulAtLeast(a - 1, d);
      MulSub(a, 1, d);
    }
  }

  /** With `step <= 0` and `start + step <= stop` the guard of the Python loop holds
      again after every iteration, so the loop never ends. */
  lemma {:induction false} ExpansionDiverges(start: int, stop: int, step: int, k: nat)
    requires step <= 0 && start + step <= stop
    ensures (start + k * step) + step <= stop
  {
    if k > 0 {
      ExpansionDiverges(start, stop, step, k - 1);
      assert start + k * step == start + (k - 1) * step + step;
    }
  }

  /** Python's `<` on strings: lexicographic by code point. */
  predicate StrLess(a: string, b: string)
    decreases |a|
  {
    if b == [] then false
    else if a == [] then true
    else if a[0] != b[0] then a[0] < b[0]
    else StrLess(a[1..], b[1..])
  }

  /** For one-character strings `a`, `b`, `c`: every string that starts with `a`
      followed by `c` compares at most `b` iff `a < b`. This is why a bare string
      given as a range runs forever when its first character is below its second
      and yields the single value `a` otherwise. */
  lemma {:induction false} StringRangeGuard(x: string, a: char, b: char, c: char)
    requires x != [] && x[0] == a
    ensures (StrLess(x + [c], [b]) || x + [c] == [b]) <==> a < b
  {
    assert (x + [c])[0] == a;
    if a == b {
      assert (x + [c])[1..] != [];
    }
  }

  // ---------------------------------------------------------------------------
  // One parameter

  /** The observable state of a `ModelParamType`. A string value is kept as the
      list of its one-character strings, which is what iterating it yields. */
  datatype ParamState = ParamState(value: Option<seq<Arg>>, iterable: bool, best: Arg)

  const Fresh := ParamState(None, false, ANone)

  function Ints(xs: seq<int>): (r: seq<Arg>)
    ensures |r| == |xs|
    ensures forall i :: 0 <= i < |xs| ==> r[i] == AInt(xs[i])
  {
    if xs == [] then [] else [AInt(xs[0])] + Ints(xs[1..])
  }

  /** `set_value(v)`: the new state and whether an exception was raised. */
  function SetValueSpec(st: ParamState, v: Arg): (ParamState, Outcome) {
    match v
    case AList(items) =>
      if |items| > 1 then
        var marked := st.(iterable := true);
        if |items| == 2 then (marked, Fail(IndexError))
        else if items[0].AInt? && items[1].AInt? && items[2].AInt? then
          var start, stop, step := items[0].i, items[1].i, items[2].i;
          if !Terminates(start, stop, step) then (marked, Fail(NonTerminating))
          else
            var values := Ints(Expansion(start, stop, step));
            (ParamState(Some(values), true, AInt(start)), Pass)
        else (marked, Fail(NotModelled("range over non-integer values")))
      else if |items| == 1 then (st.(value := Some(items), best := items[0]), Pass)
      else (st.(value := Some([])), Fail(IndexError))
    case AStr(s) =>
      if |s| > 1 then
        var marked := st.(iterable := true);
        if |s| == 2 then (marked, Fail(IndexError))
        else if s[0] < s[1] then (marked, Fail(NonTerminating))
        else (ParamState(Some([AStr([s[0]])]), true, AStr([s[0]])), Pass)
      else if |s| == 1 then (st.(value := Some([v]), best := v), Pass)
      else (st.(value := Some([])), Fail(IndexError))
    case _ => (st, Fail(TypeError))
  }

  /** A one-element list is stored unchanged, becomes the best value, and leaves the
      iterable flag as it was (False for a fresh parameter). */
  lemma {:induction false} SetSingleValue(st: ParamState, x: Arg)
    ensures SetValueSpec(st, AList([x])) == (st.(value := Some([x]), best := x), Pass)
    ensures SetValueSpec(Fresh, AList([x])).0.iterable == false
  {
  }

  /** An integer triple that ends is expanded, marks the parameter iterable, and
      starts the best value at `start`; elements after the third are ignored. */
  lemma {:induction false} SetRangeValue(st: ParamState, start: int, stop: int, step: int, more: seq<Arg>)
    requires Terminates(start, stop, step)
    ensures SetValueSpec(st, AList([AInt(start), AInt(stop), AInt(step)] + more))
         == (ParamState(Some(Ints(Expansion(start, stop, step))), true, AInt(start)), Pass)
  {
  }

  /** A triple whose loop would not end is reported instead of run forever; the
      parameter is already marked iterable at that point. */
  lemma {:induction false} SetDivergingRange(st: ParamState, start: int, stop: int, step: int)
    requires step <= 0 && start + step <= stop
    ensures SetValueSpec(st, AList([AInt(start), AInt(stop), AInt(step)])) == (st.(iterable := true), Fail(NonTerminating))
  {
  }

  /** `-a symmetric` hands a bare string to `set_value`, whose loop then never ends. */
  lemma {:induction false} SetAlphaString()
    ensures SetValueSpec(Fresh, AStr("symmetric")).1 == Fail(NonTerminating)
    ensures SetValueSpec(Fresh, AStr("auto")).1 == Fail(NonTerminating)
  {
  }

  /** Whenever `set_value` returns, the best value is the first stored value, and
      the iterable flag is never cleared. */
  lemma {:induction false} SetValueInvariants(st: ParamState, v: Arg)
    ensures SetValueSpec(st, v).0.iterable == (st.iterable || SetValueIterates(v))
    ensures SetValueSpec(st, v).1.Pass? ==>
      var s := SetValueSpec(st, v).0;
      s.value.Some? && |s.value.value| >= 1 && s.best == s.value.value[0]
  {
    if v.AList? && |v.items| > 2 && v.items[0].AInt? && v.items[1].AInt? && v.items[2].AInt? {
      var start, stop, step := v.items[0].i, v.items[1].i, v.items[2].i;
      if Terminates(start, stop, step) {
        ExpansionShape(start, stop, step);
      }
    }
  }

  /** Whether `set_value(v)` takes the range branch. */
  predicate SetValueIterates(v: Arg) {
    (v.AList? && |v.items| > 1) || (v.AStr? && |v.s| > 1)
  }

  class ModelParamType {
    const name: string
    var value: Option<seq<Arg>>
    var iterable: bool
    var best: Arg

    function State(): ParamState
      reads this
    {
      ParamState(value, iterable, best)
    }

    constructor (name: string)
      ensures this.name == name && State() == Fresh
    {
      this.name := name;
      value := None;
      iterable := false;
      best := ANone;
    }

    /** `set_value` */
    method SetValue(v: Arg) returns (o: Outcome)
      modifies this
      ensures (State(), o) == SetValueSpec(old(State()), v)
    {
      match v
      case AList(items) =>
        if |items| > 1 {
          iterable := true;
          if |items| == 2 {
            return Fail(IndexError);
          }
          if !(items[0].AInt? && items[1].AInt? && items[2].AInt?) {
            return Fail(NotModelled("range over non-integer values"));
          }
          var start, stop, step := items[0].i, items[1].i, items[2].i;
          if !Terminates(start, stop, step) {
            return Fail(NonTerminating);
          }
          var values := Expand(start, stop, step);
          value := Some(Ints(values));
          best := AInt(values[0]);
          return Pass;
        } else if |items| == 1 {
          value := Some(items);
          best := items[0];
          return Pass;
        } else {
          value := Some([]);
          return Fail(IndexError);
        }
      case AStr(s) =>
        if |s| > 1 {
          iterable := true;
          if |s| == 2 {
            return Fail(IndexError);
          }
          if s[0] < s[1] {
            return Fail(NonTerminating);
          }
          value := Some([AStr([s[0]])]);
          best := AStr([s[0]]);
          return Pass;
        } else if |s| == 1 {
          value := Some([v]);
          best := v;
          return Pass;
        } else {
          value := Some([]);
          return Fail(IndexError);
        }
      case _ =>
        return Fail(TypeError);
    }

    /** The `while (start + step) <= stop` loop. */
    static method Expand(start0: int, stop: int, step: int) returns (values: seq<int>)
      requires Terminates(start0, stop, step)
      ensures values == Expansion(start0, stop, step)
    {
      var start := start0;
      values := [start];
      while start + step <= stop
        invariant Terminates(start, stop, step)
        invariant |values| >= 1 && values[|values| - 1] == start
        invariant values + Expansion(start, stop, step)[1..] == Expansion(start0, stop, step)
        decreases stop - start
      {
        assert Expansion(start, stop, step) == [start] + Expansion(start + step, stop, step);
        assert Expansion(start + step, stop, step)[0] == start + step;
        assert Expansion(start, stop, step)[1..]
            == [start + step] + Expansion(start + step, stop, step)[1..];
        values := values + [start + step];
        start := start + step;
      }
    }

    /** `update_best_value` */
    method UpdateBestValue(v: Arg)
      modifies this
      ensures State() == old(State()).(best := v)
    {
      best := v;
    }
  }

  // ---------------------------------------------------------------------------
  // All parameters

  /** `set_model_params_value(args)` from parameter `i` on: each parameter in turn
      receives `args[name]`; the result is the new states, the indices appended to
      `_iterables` (each parameter that is iterable after its `set_value`), and
      the outcome. A missing key or an exception stops the walk. */
  function SetAllFrom(states: seq<ParamState>, args: Dict<string, Arg>, i: nat): (r: (seq<ParamState>, seq<nat>, Outcome))
    requires |states| == Count && i <= Count
    ensures |r.0| == Count
    decreases Count - i
  {
    if i == Count then (states, [], Pass)
    else
      var a := Get(args, Names[i]);
      if a.None? then (states, [], Fail(KeyError(Names[i])))
      else
        var (s, o) := SetValueSpec(states[i], a.value);
        if o.Fail? then (states[i := s], [], o)
        else
          var (rest, added, o2) := SetAllFrom(states[i := s], args, i + 1);
          (rest, (if s.iterable then [i] else []) + added, o2)
  }

  lemma {:induction false} AppendAssoc(a: seq<nat>, b: seq<nat>, c: seq<nat>)
    ensures a + (b + c) == (a + b) + c
  {
  }

  /** One step of the walk when parameter `i` accepts its argument. */
  lemma {:induction false} SetAllStep(states: seq<ParamState>, args: Dict<string, Arg>, i: nat, a: Arg)
    requires |states| == Count && i < Count
    requires Get(args, Names[i]) == Some(a) && SetValueSpec(states[i], a).1.Pass?
    ensures var s := SetValueSpec(states[i], a).0;
      var r := SetAllFrom(states[i := s], args, i + 1);
      SetAllFrom(states, args, i) == (r.0, (if s.iterable then [i] else []) + r.1, r.2)
  {
  }

  /** The loop invariant of `set_model_params_value`: continuing the walk from the
      current states at parameter `i` and adding what the loop already appended
      gives the result of the whole call `total`. */
  ghost predicate WalkAt(total: (seq<ParamState>, seq<nat>, Outcome), states: seq<ParamState>,
                         args: Dict<string, Arg>, i: nat, iters0: seq<nat>, iters: seq<nat>)
  {
    |states| == Count && i <= Count && iters0 <= iters &&
    var r := SetAllFrom(states, args, i);
    total == (r.0, iters[|iters0|..] + r.1, r.2)
  }

  lemma {:induction false} WalkStart(states: seq<ParamState>, args: Dict<string, Arg>, iters: seq<nat>)
    requires |states| == Count
    ensures WalkAt(SetAllFrom(states, args, 0), states, args, 0, iters, iters)
  {
    assert iters[|iters|..] == [];
    assert [] + SetAllFrom(states, args, 0).1 == SetAllFrom(states, args, 0).1;
  }

  /** Parameter `i` accepted its argument and is now in state `s`: the flag decides
      whether `i` is appended. */
  lemma {:induction false} WalkNext(total: (seq<ParamState>, seq<nat>, Outcome), states: seq<ParamState>,
                 args: Dict<string, Arg>, i: nat, a: Arg, s: ParamState, iters0: seq<nat>, iters: seq<nat>)
    requires WalkAt(total, states, args, i, iters0, iters) && i < Count
    requires Get(args, Names[i]) == Some(a) && SetValueSpec(states[i], a) == (s, Pass)
    ensures WalkAt(total, states[i := s], args, i + 1, iters0, iters + if s.iterable then [i] else [])
  {
    SetAllStep(states, args, i, a);
    var r := SetAllFrom(states[i := s], args, i + 1);
    AppendAssoc(iters[|iters0|..], if s.iterable then [i] else [], r.1);
    assert (iters + if s.iterable then [i] else [])[|iters0|..] == iters[|iters0|..] + if s.iterable then [i] else [];
  }

  /** The walk stopped at `i` with the given states and no further index: the loop
      has produced the whole result. */
  lemma {:induction false} WalkStop(total: (seq<ParamState>, seq<nat>, Outcome), states: seq<ParamState>,
                 args: Dict<string, Arg>, i: nat, iters0: seq<nat>, iters: seq<nat>,
                 last: seq<ParamState>, o: Outcome)
    requires WalkAt(total, states, args, i, iters0, iters)
    requires SetAllFrom(states, args, i) == (last, [], o)
    ensures total.0 == last && iters == iters0 + total.1 && total.2 == o
  {
    assert iters[|iters0|..] + [] == iters[|iters0|..];
    assert iters == iters0 + iters[|iters0|..];
  }

  /** Parameters before `i` are not touched by the rest of the walk, and an iterable
      flag stays set. */
  lemma {:induction false} SetAllKeeps(states: seq<ParamState>, args: Dict<string, Arg>, i: nat, k: nat)
    requires |states| == Count && i <= Count && k < Count
    ensures |SetAllFrom(states, args, i).0| == Count
    ensures k < i ==> SetAllFrom(states, args, i).0[k] == states[k]
    ensures states[k].iterable ==> SetAllFrom(states, args, i).0[k].iterable
    decreases Count - i
  {
    if i < Count {
      var a := Get(args, Names[i]);
      if a.Some? {
        SetValueInvariants(states[i], a.value);
        var (s, o) := SetValueSpec(states[i], a.value);
        if o.Pass? {
          SetAllKeeps(states[i := s], args, i + 1, k);
        }
      }
    }
  }

  /** When every name has an argument, the walk never raises KeyError. */
  lemma {:induction false} SetAllNamed(states: seq<ParamState>, args: Dict<string, Arg>, i: nat)
    requires |states| == Count && i <= Count
    requires forall j :: 0 <= j < Count ==> Get(args, Names[j]).Some?
    ensures forall n :: SetAllFrom(states, args, i).2 != Fail(KeyError(n))
    decreases Count - i
  {
    if i < Count {
      var a := Get(args, Names[i]).value;
      SetValueInvariants(states[i], a);
      var (s, o) := SetValueSpec(states[i], a);
      if o.Pass? {
        SetAllNamed(states[i := s], args, i + 1);
      } else {
        assert SetAllFrom(states, args, i).2 == o;
        SetValueNeverKeyError(states[i], a);
      }
    }
  }

  /** `set_value` itself raises no KeyError. */
  lemma {:induction false} SetValueNeverKeyError(st: ParamState, v: Arg)
    ensures !SetValueSpec(st, v).1.Fail? || !SetValueSpec(st, v).1.error.KeyError?
  {
  }

  /** What a walk from parameter `i` appends: indices from `i` on, in ascending
      order (so each at most once), each of a parameter that is iterable in the
      final states. */
  ghost predicate AppendsFrom(r: (seq<ParamState>, seq<nat>, Outcome), i: nat) {
    |r.0| == Count &&
    (forall j :: 0 <= j < |r.1| ==> i <= r.1[j] < Count && r.0[r.1[j]].iterable) &&
    (forall j, m :: 0 <= j < m < |r.1| ==> r.1[j] < r.1[m])
  }

  /** The walk appends to `_iterables` in parameter order, each index at most once,
      and only parameters that are iterable when the call returns. */
  lemma {:induction false} SetAllAppends(states: seq<ParamState>, args: Dict<string, Arg>, i: nat)
    requires |states| == Count && i <= Count
    ensures AppendsFrom(SetAllFrom(states, args, i), i)
    decreases Count - i
  {
    if i < Count {
      var a := Get(args, Names[i]);
      if a.None? {
        SetAllStopped(states, args, i);
      } else {
        var (s, o) := SetValueSpec(states[i], a.value);
        if o.Pass? {
          SetAllAppends(states[i := s], args, i + 1);
          SetAllAppendsStep(states, args, i, a.value);
        } else {
          SetAllStopped(states, args, i);
        }
      }
    }
  }

  /** Conversely, a walk from `i` that succeeds appends every parameter from `i`
      on that is iterable when it returns. */
  lemma {:induction false} SetAllAppendsEvery(states: seq<ParamState>, args: Dict<string, Arg>, i: nat, k: nat)
    requires |states| == Count && i <= k < Count
    requires SetAllFrom(states, args, i).2 == Pass && SetAllFrom(states, args, i).0[k].iterable
    ensures k in SetAllFrom(states, args, i).1
    decreases Count - i
  {
    var a := Get(args, Names[i]).value;
    var (s, o) := SetValueSpec(states[i], a);
    SetAllStep(states, args, i, a);
    if k == i {
      SetAllKeeps(states[i := s], args, i + 1, i);
    } else {
      SetAllAppendsEvery(states[i := s], args, i + 1, k);
    }
  }

  /** On a call of `set_model_params_value` that succeeds, a parameter is
      appended to `_iterables` exactly when it is iterable afterwards. */
  lemma {:induction false} SetAllAppendsIterables(states: seq<ParamState>, args: Dict<string, Arg>, k: nat)
    requires |states| == Count && k < Count
    requires SetAllFrom(states, args, 0).2 == Pass
    ensures k in SetAllFrom(states, args, 0).1 <==> SetAllFrom(states, args, 0).0[k].iterable
  {
    var r := SetAllFrom(states, args, 0);
    SetAllAppends(states, args, 0);
    if r.0[k].iterable {
      SetAllAppendsEvery(states, args, 0, k);
    }
    if k in r.1 {
      var j :| 0 <= j < |r.1| && r.1[j] == k;
    }
  }

  lemma {:induction false} SetAllAppendsStep(states: seq<ParamState>, args: Dict<string, Arg>, i: nat, a: Arg)
    requires |states| == Count && i < Count
    requires Get(args, Names[i]) == Some(a) && SetValueSpec(states[i], a).1.Pass?
    requires AppendsFrom(SetAllFrom(states[i := SetValueSpec(states[i], a).0], args, i + 1), i + 1)
    ensures AppendsFrom(SetAllFrom(states, args, i), i)
  {
    var s := SetValueSpec(states[i], a).0;
    var st := states[i := s];
    SetAllStep(states, args, i, a);
    SetAllKeeps(st, args, i + 1, i);
    PrependAdded(SetAllFrom(st, args, i + 1).0, i, s.iterable, SetAllFrom(st, args, i + 1).1);
  }

  /** A walk that stops at `i` appends nothing. */
  lemma {:induction false} SetAllStopped(states: seq<ParamState>, args: Dict<string, Arg>, i: nat)
    requires |states| == Count && i < Count
    requires Get(args, Names[i]).None? || SetValueSpec(states[i], Get(args, Names[i]).value).1.Fail?
    ensures SetAllFrom(states, args, i).1 == []
    ensures AppendsFrom(SetAllFrom(states, args, i), i)
  {
  }

  /** Putting `i` in front of the indices appended after it keeps them ascending. */
  lemma {:induction false} PrependAdded(rest: seq<ParamState>, i: nat, b: bool, added: seq<nat>)
    requires |rest| == Count && i < Count
    requires b ==> rest[i].iterable
    requires forall j :: 0 <= j < |added| ==> i + 1 <= added[j] < Count && rest[added[j]].iterable
    requires forall j, m :: 0 <= j < m < |added| ==> added[j] < added[m]
    ensures var all := (if b then [i] else []) + added;
      (forall j :: 0 <= j < |all| ==> i <= all[j] < Count && rest[all[j]].iterable) &&
      (forall j, m :: 0 <= j < m < |all| ==> all[j] < all[m])
  {
    var all := (if b then [i] else []) + added;
    if b {
      forall j | 0 < j < |all| ensures all[j] == added[j - 1] {}
    }
  }

  /** A successful `set_value`, repeated with the same argument, gives the same state. */
  lemma {:induction false} SetValueTwice(st: ParamState, v: Arg)
    requires SetValueSpec(st, v).1 == Pass
    ensures SetValueSpec(SetValueSpec(st, v).0, v) == SetValueSpec(st, v)
  {
  }

  /** `_iterables` is never cleared: when a call succeeds, a second call with the
      same arguments leaves every parameter as it is and appends the same indices
      once more. */
  lemma {:induction false} SecondCallAppendsAgain(states: seq<ParamState>, args: Dict<string, Arg>, i: nat)
    requires |states| == Count && i <= Count
    requires SetAllFrom(states, args, i).2 == Pass
    ensures var (s1, added, _) := SetAllFrom(states, args, i);
      SetAllFrom(s1, args, i) == (s1, added, Pass)
    decreases Count - i
  {
    if i < Count {
      var a := Get(args, Names[i]).value;
      var (s, o) := SetValueSpec(states[i], a);
      var (s1, added, _) := SetAllFrom(states, args, i);
      SecondCallAppendsAgain(states[i := s], args, i + 1);
      SetAllKeeps(states[i := s], args, i + 1, i);
      assert s1[i] == s;
      SetValueTwice(states[i], a);
      assert s1[i := s] == s1;
    }
  }

  /** The entry of the base dict for parameter `j`: its name and best value. */
  function BaseRow(states: seq<ParamState>): (row: Dict<string, Arg>)
    requires |states| == Count
    ensures |row| == Count
  {
    seq(Count, j requires 0 <= j < Count => (Names[j], states[j].best))
  }

  /** A row of `_get_params_values(test)`: every name held at its best value except
      the tested one, which takes `v`. */
  function GridRow(states: seq<ParamState>, k: nat, v: Arg): (row: Dict<string, Arg>)
    requires |states| == Count && k < Count
  {
    seq(Count, j requires 0 <= j < Count => (Names[j], if j == k then v else states[j].best))
  }

  /** `_get_params_values(test)`: one row per stored value of the tested parameter,
      in order. */
  function Grid(states: seq<ParamState>, k: nat): (g: seq<Dict<string, Arg>>)
    requires |states| == Count && k < Count && states[k].value.Some?
    ensures |g| == |states[k].value.value|
  {
    var values := states[k].value.value;
    seq(|values|, i requires 0 <= i < |values| => GridRow(states, k, values[i]))
  }

  /** Every row is keyed by exactly the seven names, in order; the tested name maps
      to the row's value and every other name to that parameter's best value. */
  lemma {:induction false} GridRowSpec(states: seq<ParamState>, k: nat, v: Arg)
    requires |states| == Count && k < Count
    ensures Keys(GridRow(states, k, v)) == Names
    ensures OrderedMap.Valid(GridRow(states, k, v))
    ensures Get(GridRow(states, k, v), Names[k]) == Some(v)
    ensures forall j :: 0 <= j < Count && j != k ==> Get(GridRow(states, k, v), Names[j]) == Some(states[j].best)
  {
    var row := GridRow(states, k, v);
    assert Keys(row) == Names;
    NamesDistinct();
    forall j | 0 <= j < Count ensures Get(row, Names[j]) == Some(row[j].1) {
      GetEntry(row, j);
    }
  }

  /** The names of a list of parameter indices. */
  function NamesOf(ks: seq<nat>): (ns: seq<string>)
    requires forall j :: 0 <= j < |ks| ==> ks[j] < Count
    ensures |ns| == |ks|
    ensures forall j :: 0 <= j < |ks| ==> ns[j] == Names[ks[j]]
  {
    if ks == [] then [] else [Names[ks[0]]] + NamesOf(ks[1..])
  }

  /** The distinct elements of a list, each at its first occurrence: the key order
      of a dict filled by assigning the list's elements in turn. */
  function Dedup<T(==,!new)>(s: seq<T>): (d: seq<T>)
    ensures forall x :: x in d <==> x in s
  {
    if s == [] then []
    else
      var d := Dedup(s[..|s| - 1]);
      assert forall x :: x in s <==> x in s[..|s| - 1] || x == s[|s| - 1] by {
        assert s == s[..|s| - 1] + [s[|s| - 1]];
      }
      if s[|s| - 1] in d then d else d + [s[|s| - 1]]
  }

  /** No element occurs twice among the first occurrences. */
  lemma {:induction false} DedupDistinct<T(!new)>(s: seq<T>)
    ensures Distinct(Dedup(s))
  {
    if s != [] {
      DedupDistinct(s[..|s| - 1]);
    }
  }

  /** Assigning a key to a dict whose keys are the first occurrences of `keys`
      leaves its keys the first occurrences of `keys + [k]`. */
  lemma {:induction false} PutDedup<K(!new), V>(d: Dict<K, V>, keys: seq<K>, k: K, v: V)
    requires Keys(d) == Dedup(keys)
    ensures Keys(Put(d, k, v)) == Dedup(keys + [k])
  {
    PutSpec(d, k, v);
    assert (keys + [k])[..|keys|] == keys;
  }

  /** The loop invariant of `get_possible_model_params_values` after the first `j`
      iterable indices: each has a stored value list, and `d` maps the names in
      first-listed order to their grids. */
  ghost predicate GridsAt(d: Dict<string, seq<Dict<string, Arg>>>, states: seq<ParamState>, its: seq<nat>, j: nat) {
    |states| == Count && j <= |its| && (forall m :: 0 <= m < |its| ==> its[m] < Count) &&
    (forall m :: 0 <= m < j ==> states[its[m]].value.Some?) &&
    Keys(d) == Dedup(NamesOf(its[..j])) &&
    (forall m :: 0 <= m < j ==> Get(d, Names[its[m]]) == Some(Grid(states, its[m])))
  }

  lemma {:induction false} GridsStart(states: seq<ParamState>, its: seq<nat>)
    requires |states| == Count && forall m :: 0 <= m < |its| ==> its[m] < Count
    ensures GridsAt([], states, its, 0)
  {
    assert its[..0] == [];
  }

  /** Storing the grid of `its[j]` keeps the grids stored for `its[..j]`. */
  lemma {:induction false} GridsNext(d: Dict<string, seq<Dict<string, Arg>>>, states: seq<ParamState>, its: seq<nat>, j: nat)
    requires GridsAt(d, states, its, j) && j < |its|
    requires states[its[j]].value.Some?
    ensures GridsAt(Put(d, Names[its[j]], Grid(states, its[j])), states, its, j + 1)
  {
    var g := Grid(states, its[j]);
    GridsKeysNext(d, its, j, g);
    GridsValuesNext(d, states, its, j, g);
  }

  lemma {:induction false} GridsKeysNext<V>(d: Dict<string, V>, its: seq<nat>, j: nat, g: V)
    requires j < |its| && forall m :: 0 <= m < |its| ==> its[m] < Count
    requires Keys(d) == Dedup(NamesOf(its[..j]))
    ensures Keys(Put(d, Names[its[j]], g)) == Dedup(NamesOf(its[..j + 1]))
  {
    var ks, k := its[..j], its[j];
    assert its[..j + 1] == ks + [k];
    assert forall m :: 0 <= m < |ks| ==> ks[m] < Count;
    NamesOfSnoc(ks, k);
    PutDedup(d, NamesOf(ks), Names[k], g);
  }

  lemma {:induction false} GridsValuesNext(d: Dict<string, seq<Dict<string, Arg>>>, states: seq<ParamState>, its: seq<nat>, j: nat,
                        g: seq<Dict<string, Arg>>)
    requires |states| == Count && j < |its| && forall m :: 0 <= m < |its| ==> its[m] < Count
    requires states[its[j]].value.Some? && g == Grid(states, its[j])
    requires forall m :: 0 <= m < j ==> states[its[m]].value.Some? && Get(d, Names[its[m]]) == Some(Grid(states, its[m]))
    ensures forall m :: 0 <= m < j + 1 ==> Get(Put(d, Names[its[j]], g), Names[its[m]]) == Some(Grid(states, its[m]))
  {
    forall m | 0 <= m < j + 1
      ensures Get(Put(d, Names[its[j]], g), Names[its[m]]) == Some(Grid(states, its[m]))
    {
      GridValueAt(d, its[j], its[m], g, if m < j then Get(d, Names[its[m]]) else Some(g));
    }
  }

  /** Storing under name `k` changes the lookup of that name only. */
  lemma {:induction false} GridValueAt<V>(d: Dict<string, V>, k: nat, k': nat, g: V, before: Option<V>)
    requires k < Count && k' < Count
    requires k' != k ==> Get(d, Names[k']) == before
    requires k' == k ==> before == Some(g)
    ensures Get(Put(d, Names[k], g), Names[k']) == before
  {
    PutSpec(d, Names[k], g);
    if k' != k {
      NamesDistinct();
      assert Names[k'] != Names[k];
    }
  }

  lemma {:induction false} GridsEnd(d: Dict<string, seq<Dict<string, Arg>>>, states: seq<ParamState>, its: seq<nat>)
    requires GridsAt(d, states, its, |its|)
    ensures Keys(d) == Dedup(NamesOf(its))
  {
    assert its[..|its|] == its;
  }

  lemma {:induction false} NamesOfSnoc(ks: seq<nat>, k: nat)
    requires forall j :: 0 <= j < |ks| ==> ks[j] < Count
    requires k < Count
    ensures NamesOf(ks + [k]) == NamesOf(ks) + [Names[k]]
  {
    var a, b := NamesOf(ks + [k]), NamesOf(ks) + [Names[k]];
    forall j | 0 <= j < |a| ensures a[j] == b[j] {
      if j < |ks| {
        assert (ks + [k])[j] == ks[j];
      }
    }
  }

  /** The seven parameters and the list of iterable ones. */
  class ModelParams {
    const numberOfTopics: ModelParamType
    const evalEvery: ModelParamType
    const chunkSize: ModelParamType
    const iterations: ModelParamType
    const passes: ModelParamType
    const alpha: ModelParamType
    const beta: ModelParamType
    /** `_iterables`, as indices into `Params()`. */
    var iterables: seq<nat>

    function Params(): seq<ModelParamType> {
      [numberOfTopics, evalEvery, chunkSize, iterations, passes, alpha, beta]
    }

    function ParamSet(): set<ModelParamType> {
      {numberOfTopics, evalEvery, chunkSize, iterations, passes, alpha, beta}
    }

    function States(): (s: seq<ParamState>)
      reads ParamSet()
      ensures |s| == Count
      ensures forall i :: 0 <= i < Count ==> s[i] == Params()[i].State()
    {
      [numberOfTopics.State(), evalEvery.State(), chunkSize.State(), iterations.State(),
       passes.State(), alpha.State(), beta.State()]
    }

    /** The seven parameters are distinct objects, named in the order of `Names`. */
    ghost predicate Wired() {
      (forall i, j :: 0 <= i < j < Count ==> Params()[i] != Params()[j]) &&
      (forall i :: 0 <= i < Count ==> Params()[i].name == Names[i])
    }

    ghost predicate Valid()
      reads this
    {
      Wired() && forall j :: 0 <= j < |iterables| ==> iterables[j] < Count
    }

    constructor ()
      ensures Valid() && fresh(ParamSet())
      ensures forall i :: 0 <= i < Count ==> States()[i] == Fresh
      ensures iterables == []
    {
      numberOfTopics := new ModelParamType("number_of_topics");
      evalEvery := new ModelParamType("eval_every");
      chunkSize := new ModelParamType("chunk_size");
      iterations := new ModelParamType("iterations");
      passes := new ModelParamType("passes");
      alpha := new ModelParamType("alpha");
      beta := new ModelParamType("beta");
      iterables := [];
    }

    /** `set_value` on the parameter at index `i`; the other six are untouched. */
    method SetParam(i: nat, v: Arg) returns (o: Outcome)
      requires Valid() && i < Count
      modifies ParamSet()
      ensures States() == old(States())[i := SetValueSpec(old(States())[i], v).0]
      ensures o == SetValueSpec(old(States())[i], v).1
    {
      var p := Params()[i];
      o := p.SetValue(v);
      forall j | 0 <= j < Count && j != i ensures Params()[j].State() == old(Params()[j].State()) {
        assert Params()[j] != p;
      }
    }

    /** `set_model_params_value` */
    method SetModelParamsValue(args: Dict<string, Arg>) returns (o: Outcome)
      requires Valid()
      modifies this, ParamSet()
      ensures Valid()
      ensures var (s, added, out) := SetAllFrom(old(States()), args, 0);
        States() == s && iterables == old(iterables) + added && o == out
    {
      ghost var total := SetAllFrom(States(), args, 0);
      WalkStart(States(), args, iterables);
      var i := 0;
      while i < Count
        invariant Valid()
        invariant WalkAt(total, States(), args, i, old(iterables), iterables)
        decreases Count - i
      {
        o := ApplyParam(args, i, total, old(iterables));
        if o.Fail? {
          return;
        }
        i := i + 1;
      }
      WalkStop(total, States(), args, i, old(iterables), iterables, States(), Pass);
      return Pass;
    }

    /** One iteration of `set_model_params_value`: look the name of parameter `i`
        up, hand the value to `set_value`, and append `i` when it is iterable. A
        failure ends the walk with the state the whole call leaves. */
    method ApplyParam(args: Dict<string, Arg>, i: nat, ghost total: (seq<ParamState>, seq<nat>, Outcome),
                      ghost iters0: seq<nat>)
      returns (o: Outcome)
      requires Valid() && i < Count
      requires WalkAt(total, States(), args, i, iters0, iterables)
      modifies this, ParamSet()
      ensures Valid()
      ensures o.Pass? ==> WalkAt(total, States(), args, i + 1, iters0, iterables)
      ensures o.Fail? ==> States() == total.0 && iterables == iters0 + total.1 && o == total.2
    {
      assert Params()[i].name == Names[i];
      var a := Get(args, Params()[i].name);
      if a.None? {
        WalkStop(total, States(), args, i, iters0, iterables, States(), Fail(KeyError(Names[i])));
        return Fail(KeyError(Names[i]));
      }
      ghost var before := States();
      o := SetParam(i, a.value);
      if o.Fail? {
        WalkStop(total, before, args, i, iters0, iterables, States(), o);
        return;
      }
      WalkNext(total, before, args, i, a.value, States()[i], iters0, iterables);
      if Params()[i].iterable {
        iterables := iterables + [i];
      } else {
        assert iterables + [] == iterables;
      }
    }

    /** The base dict of `_get_params_values`: every name with its best value. */
    method BaseParamsValue() returns (base: Dict<string, Arg>)
      requires Valid()
      ensures base == BaseRow(States())
    {
      NamesDistinct();
      base := [];
      for j := 0 to Count
        invariant |base| == j
        invariant forall m :: 0 <= m < j ==> base[m] == (Names[m], States()[m].best)
      {
        assert Keys(base) == Names[..j];
        assert Names[j] !in Names[..j];
        PutNew(base, Params()[j].name, Params()[j].best);
        base := Put(base, Params()[j].name, Params()[j].best);
      }
    }

    /** `_get_params_values(test)` for the parameter at index `k`. Iterating a value
        that was never set raises TypeError. */
    method GetParamsValues(k: nat) returns (r: Result<seq<Dict<string, Arg>>>)
      requires Valid() && k < Count
      ensures r.Ok? <==> States()[k].value.Some?
      ensures r.Ok? ==> r.value == Grid(States(), k)
    {
      ghost var st := States();
      var base := BaseParamsValue();
      var test := Params()[k];
      if test.value.None? {
        return Err(TypeError);
      }
      var values := test.value.value;
      assert values == st[k].value.value;
      var grid: seq<Dict<string, Arg>> := [];
      NamesDistinct();
      assert Keys(base) == Names;
      for i := 0 to |values|
        invariant |grid| == i
        invariant forall m :: 0 <= m < i ==> grid[m] == GridRow(st, k, values[m])
      {
        PutExisting(base, k, values[i]);
        var row := Put(base, test.name, values[i]);
        assert row == GridRow(st, k, values[i]);
        grid := grid + [row];
      }
      assert grid == Grid(st, k);
      return Ok(grid);
    }

    /** `get_possible_model_params_values`: one entry per iterable parameter name,
        in first-listed order, holding that parameter's grid. With no iterable
        parameter the result is empty. */
    method GetPossibleModelParamsValues() returns (r: Result<Dict<string, seq<Dict<string, Arg>>>>)
      requires Valid()
      ensures r.Ok? <==> forall j :: 0 <= j < |iterables| ==> States()[iterables[j]].value.Some?
      ensures r.Ok? ==> Keys(r.value) == Dedup(NamesOf(iterables))
      ensures r.Ok? ==> forall j :: 0 <= j < |iterables| ==>
        Get(r.value, Names[iterables[j]]) == Some(Grid(States(), iterables[j]))
      ensures iterables == [] ==> r == Ok([])
    {
      var d: Dict<string, seq<Dict<string, Arg>>> := [];
      GridsStart(States(), iterables);
      for j := 0 to |iterables|
        invariant GridsAt(d, States(), iterables, j)
      {
        var k := iterables[j];
        var grid := GetParamsValues(k);
        if grid.Err? {
          return Err(grid.error);
        }
        GridsNext(d, States(), iterables, j);
        d := Put(d, Params()[k].name, grid.value);
      }
      GridsEnd(d, States(), iterables);
      return Ok(d);
    }
  }
}
