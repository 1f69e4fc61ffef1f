// Which flows a gateway takes and how many tokens it waits for, said of the conditions and of the definition
// alone, whatever computes them.

module Choices {
  import opened Spec
  import opened Model
  import opened Machine

  // ---- Sublists ----

  // `part` lists, in order and once each, exactly the flows at the positions in `which`; `ix` says where they are.
  ghost predicate Sublist(flows: seq<Flow>, which: set<int>, part: seq<Flow>, ix: seq<int>) {
    && |ix| == |part|
    && (forall k :: 0 <= k < |ix| ==> 0 <= ix[k] < |flows| && part[k] == flows[ix[k]])
    && (forall j, k :: 0 <= j < k < |ix| ==> ix[j] < ix[k])
    && (forall i :: i in which <==> i in ix)
  }

  lemma SublistSome(flows: seq<Flow>, which: set<int>, part: seq<Flow>, ix: seq<int>)
    requires Sublist(flows, which, part, ix)
    ensures part != [] ==> which != {}
  {
    if part != [] {
      assert ix[0] in ix;
    }
  }

  lemma SublistSnoc(flows: seq<Flow>, which: set<int>, part: seq<Flow>, ix: seq<int>, f: Flow, taken: bool)
    requires Sublist(flows, which, part, ix)
    ensures Sublist(flows + [f], which + if taken then {|flows|} else {}, part + if taken then [f] else [],
        ix + if taken then [|flows|] else [])
  {
    var ix1 := ix + if taken then [|flows|] else [];
    forall i ensures i in which + (if taken then {|flows|} else {}) <==> i in ix1 {
      assert i in ix <==> i in which;
    }
  }

  // The flows that leave an element are those of the definition, in its order.
  lemma {:induction false} FlowsFromLists(flows: seq<Flow>, e: string) returns (ix: seq<int>)
    ensures Sublist(flows, (set i | 0 <= i < |flows| && flows[i].source == e), FlowsFrom(flows, e), ix)
  {
    if flows == [] {
      ix := [];
    } else {
      var last := |flows| - 1;
      var before := FlowsFromLists(flows[..last], e);
      var which := set i | 0 <= i < last && flows[..last][i].source == e;
      SublistSnoc(flows[..last], which, FlowsFrom(flows[..last], e), before, flows[last], flows[last].source == e);
      assert flows[..last] + [flows[last]] == flows;
      assert (set i | 0 <= i < |flows| && flows[i].source == e) ==
             which + if flows[last].source == e then {last} else {};
      ix := before + if flows[last].source == e then [last] else [];
    }
  }

  lemma {:induction false} FlowsIntoLists(flows: seq<Flow>, e: string) returns (ix: seq<int>)
    ensures Sublist(flows, (set i | 0 <= i < |flows| && flows[i].target == e), FlowsInto(flows, e), ix)
  {
    if flows == [] {
      ix := [];
    } else {
      var last := |flows| - 1;
      var before := FlowsIntoLists(flows[..last], e);
      var which := set i | 0 <= i < last && flows[..last][i].target == e;
      SublistSnoc(flows[..last], which, FlowsInto(flows[..last], e), before, flows[last], flows[last].target == e);
      assert flows[..last] + [flows[last]] == flows;
      assert (set i | 0 <= i < |flows| && flows[i].target == e) ==
             which + if flows[last].target == e then {last} else {};
      ix := before + if flows[last].target == e then [last] else [];
    }
  }

  // ---- Exclusive gateways ----

  // Flow i is the first whose condition is not false: it holds, or it cannot be evaluated.
  ghost predicate Decides(env: Env, flows: seq<Flow>, vars: Vars, i: int) {
    && 0 <= i < |flows| && flows[i].condition.Some? && env.cond(flows[i].condition.value, vars) != Some(false)
    && forall j :: 0 <= j < i && flows[j].condition.Some? ==> env.cond(flows[j].condition.value, vars) == Some(false)
  }

  // Flow i is the first whose ID is the default one.
  ghost predicate IsDefault(flows: seq<Flow>, id: string, i: int) {
    id != "" && 0 <= i < |flows| && flows[i].id == id && forall j :: 0 <= j < i ==> flows[j].id != id
  }

  // The answer of the choice, in every case.
  ghost predicate Answers(env: Env, flows: seq<Flow>, default: string, vars: Vars, choice: Choice) {
    && (forall i :: Decides(env, flows, vars, i) ==>
          choice == if env.cond(flows[i].condition.value, vars) == Some(true) then Chosen(flows[i]) else Bad)
    && ((forall i :: !Decides(env, flows, vars, i)) ==>
          && (forall i :: IsDefault(flows, default, i) ==> choice == Chosen(flows[i]))
          && ((forall i :: !IsDefault(flows, default, i)) ==> choice == Nothing))
  }

  lemma DecidesLater(env: Env, flows: seq<Flow>, vars: Vars, i: int)
    requires flows != []
    requires flows[0].condition.Some? ==> env.cond(flows[0].condition.value, vars) == Some(false)
    ensures Decides(env, flows, vars, i) <==> Decides(env, flows[1..], vars, i - 1)
  {
    if Decides(env, flows[1..], vars, i - 1) {
      forall j | 0 <= j < i && flows[j].condition.Some?
        ensures env.cond(flows[j].condition.value, vars) == Some(false) {
        assert j > 0 ==> flows[1..][j - 1] == flows[j];
      }
    }
    if Decides(env, flows, vars, i) {
      assert i > 0;
      assert forall j :: 0 <= j < i - 1 ==> flows[1..][j] == flows[j + 1];
    }
  }

  lemma {:induction false} FirstTrueAnswers(env: Env, flows: seq<Flow>, vars: Vars)
    ensures forall i :: Decides(env, flows, vars, i) ==>
              FirstTrue(env, flows, vars) ==
                if env.cond(flows[i].condition.value, vars) == Some(true) then Chosen(flows[i]) else Bad
    ensures FirstTrue(env, flows, vars) == Nothing <==> forall i :: !Decides(env, flows, vars, i)
  {
    if flows != [] {
      if flows[0].condition.None? || env.cond(flows[0].condition.value, vars) == Some(false) {
        FirstTrueAnswers(env, flows[1..], vars);
        forall i ensures Decides(env, flows, vars, i) <==> Decides(env, flows[1..], vars, i - 1) {
          DecidesLater(env, flows, vars, i);
        }
        forall i ensures Decides(env, flows[1..], vars, i) <==> Decides(env, flows, vars, i + 1) {
          assert i == (i + 1) - 1;
        }
      } else {
        assert Decides(env, flows, vars, 0);
        forall i | Decides(env, flows, vars, i) ensures i == 0 {}
      }
    }
  }

  lemma {:induction false} DefaultAnswers(flows: seq<Flow>, id: string)
    ensures forall i :: IsDefault(flows, id, i) ==> DefaultOf(flows, id) == Chosen(flows[i])
    ensures (forall i :: !IsDefault(flows, id, i)) ==> DefaultOf(flows, id) == Nothing
  {
    if flows != [] && id != "" {
      if flows[0].id == id {
        assert IsDefault(flows, id, 0);
      } else {
        DefaultAnswers(flows[1..], id);
        forall i ensures IsDefault(flows, id, i) <==> IsDefault(flows[1..], id, i - 1) {
          if IsDefault(flows[1..], id, i - 1) {
            forall j | 0 <= j < i ensures flows[j].id != id { assert j > 0 ==> flows[1..][j - 1] == flows[j]; }
          }
          if IsDefault(flows, id, i) { assert forall j :: 0 <= j < i - 1 ==> flows[1..][j] == flows[j + 1]; }
        }
        forall i ensures IsDefault(flows[1..], id, i) <==> IsDefault(flows, id, i + 1) { assert i == (i + 1) - 1; }
      }
    }
  }

  // The first flow whose condition is true; a refusal when one that cannot be evaluated comes before it; and only
  // when no condition is true or unevaluable the default flow, if there is one.
  lemma ExclusiveAnswers(env: Env, flows: seq<Flow>, default: string, vars: Vars)
    ensures Answers(env, flows, default, vars, ExclusiveChoice(env, flows, default, vars))
  {
    FirstTrueAnswers(env, flows, vars);
    DefaultAnswers(flows, default);
  }

  // Nothing else has that answer.
  lemma AnswersOnce(env: Env, flows: seq<Flow>, default: string, vars: Vars, c: Choice, d: Choice)
    requires Answers(env, flows, default, vars, c) && Answers(env, flows, default, vars, d)
    ensures c == d
  {
    if i :| Decides(env, flows, vars, i) {
    } else if i :| IsDefault(flows, default, i) {
    }
  }

  // Passing an exclusive gateway takes exactly that flow, with the gateway's tokens gone; without one it fails and
  // changes nothing.
  lemma ExclusiveTakes(env: Env, w: World, at: Place, default: string, out: seq<Flow>, choice: Choice)
    requires Answers(env, out, default, VarsOf(w, at.inst), choice)
    ensures var s := ExclusiveStep(env, w, at, default, out);
            if choice.Chosen? then
              && s.Go? && s.jobs == [Take(at.inst, choice.flow)]
              && s.w == w.(toks := w.toks[at := 0], log := w.log + [Follow(at)])
            else s == Stuck(w)
  {
    hide Answers;
    ExclusiveAnswers(env, out, default, VarsOf(w, at.inst));
    AnswersOnce(env, out, default, VarsOf(w, at.inst), choice,
        ExclusiveChoice(env, out, default, VarsOf(w, at.inst)));
  }

  // ---- Inclusive gateways ----

  // The flows without a condition and those whose condition is true.
  ghost function Enabled(env: Env, flows: seq<Flow>, vars: Vars): set<int> {
    set i | 0 <= i < |flows|
            && (flows[i].condition.None? || env.cond(flows[i].condition.value, vars) == Some(true))
  }

  lemma EnabledLater(env: Env, flows: seq<Flow>, vars: Vars)
    requires flows != []
    ensures forall i :: i in Enabled(env, flows, vars) <==>
              i - 1 in Enabled(env, flows[1..], vars)
              || (i == 0 && (flows[0].condition.None? || env.cond(flows[0].condition.value, vars) == Some(true)))
  {
    assert forall i :: 1 <= i < |flows| ==> flows[1..][i - 1] == flows[i];
  }

  // The condition of flow i cannot be evaluated.
  ghost predicate Unevaluable(env: Env, flows: seq<Flow>, vars: Vars, i: int) {
    0 <= i < |flows| && flows[i].condition.Some? && env.cond(flows[i].condition.value, vars).None?
  }

  lemma {:induction false} TrueFlowsRefuses(env: Env, flows: seq<Flow>, vars: Vars)
    ensures TrueFlows(env, flows, vars).None? <==> exists i :: Unevaluable(env, flows, vars, i)
  {
    if flows != [] {
      TrueFlowsRefuses(env, flows[1..], vars);
      forall i | i > 0 ensures Unevaluable(env, flows, vars, i) <==> Unevaluable(env, flows[1..], vars, i - 1) {
        assert i < |flows| ==> flows[1..][i - 1] == flows[i];
      }
      if i :| Unevaluable(env, flows[1..], vars, i) { assert Unevaluable(env, flows, vars, i + 1); }
      assert Unevaluable(env, flows, vars, 0) ==> TrueFlows(env, flows, vars).None?;
    }
  }

  // All of them, in order; a refusal exactly when some condition cannot be evaluated.
  lemma {:induction false} TrueFlowsLists(env: Env, flows: seq<Flow>, vars: Vars) returns (ix: seq<int>)
    ensures var r := TrueFlows(env, flows, vars);
            && (r.None? <==> exists i :: Unevaluable(env, flows, vars, i))
            && (r.Some? ==> Sublist(flows, Enabled(env, flows, vars), r.value, ix))
  {
    TrueFlowsRefuses(env, flows, vars);
    ix := [];
    if flows == [] {
      assert Enabled(env, flows, vars) == {};
    } else {
      hide Sublist, Enabled, Unevaluable;
      var here := flows[0].condition.None? || env.cond(flows[0].condition.value, vars) == Some(true);
      var rest := TrueFlowsLists(env, flows[1..], vars);
      ix := (if here then [0] else []) + seq(|rest|, k requires 0 <= k < |rest| => rest[k] + 1);
      EnabledLater(env, flows, vars);
      var r := TrueFlows(env, flows[1..], vars);
      if r.Some? {
        SublistCons(flows, Enabled(env, flows[1..], vars), r.value, rest, here, ix, Enabled(env, flows, vars));
      }
      assert TrueFlows(env, flows, vars).Some? ==>
          r.Some? && TrueFlows(env, flows, vars).value == (if here then [flows[0]] else []) + r.value;
    }
  }

  lemma SublistCons(flows: seq<Flow>, which: set<int>, part: seq<Flow>, ix: seq<int>, taken: bool, ix1: seq<int>,
      which1: set<int>)
    requires flows != [] && Sublist(flows[1..], which, part, ix)
    requires ix1 == (if taken then [0] else []) + seq(|ix|, k requires 0 <= k < |ix| => ix[k] + 1)
    requires forall i :: i in which1 <==> (i - 1 in which || (taken && i == 0))
    ensures Sublist(flows, which1, (if taken then [flows[0]] else []) + part, ix1)
  {
    ShiftedHas(ix, taken, ix1);
  }

  lemma ShiftedHas(ix: seq<int>, taken: bool, ix1: seq<int>)
    requires ix1 == (if taken then [0] else []) + seq(|ix|, k requires 0 <= k < |ix| => ix[k] + 1)
    ensures forall i :: i in ix1 <==> (i - 1 in ix || (taken && i == 0))
  {
    var d := if taken then 1 else 0;
    forall i ensures i in ix1 <==> (i - 1 in ix || (taken && i == 0)) {
      if i - 1 in ix {
        var k :| 0 <= k < |ix| && ix[k] == i - 1;
        assert ix1[k + d] == i;
      }
      if i in ix1 {
        var k :| 0 <= k < |ix1| && ix1[k] == i;
        if k >= d { assert ix[k - d] == i - 1; }
      }
    }
  }

  // What an inclusive gateway does: its tokens go first; then it takes the open flows, or the default one when
  // none is open; when a condition cannot be evaluated, or nothing can be taken, it fails.
  lemma InclusiveTakes(env: Env, w: World, at: Place, default: string, out: seq<Flow>) returns (ix: seq<int>)
    ensures var vars := VarsOf(w, at.inst);
            var s := InclusiveStep(env, w, at, default, out);
            var gone := w.(toks := w.toks[at := 0]);
            if exists i :: Unevaluable(env, out, vars, i)
            then s == Stuck(gone)
            else if Enabled(env, out, vars) != {} then
              && s.Go? && s.w == gone.(log := w.log + [Follow(at)])
              && |s.jobs| == |ix|
              && (forall k :: 0 <= k < |ix| ==> 0 <= ix[k] < |out| && s.jobs[k] == Take(at.inst, out[ix[k]]))
              && (forall j, k :: 0 <= j < k < |ix| ==> ix[j] < ix[k])
              && (forall i :: i in Enabled(env, out, vars) <==> i in ix)
            else
              && (forall i :: IsDefault(out, default, i) ==>
                    s == Go(gone.(log := w.log + [Follow(at)]), [Take(at.inst, out[i])]))
              && ((forall i :: !IsDefault(out, default, i)) ==> s == Stuck(gone))
  {
    var vars := VarsOf(w, at.inst);
    ix := TrueFlowsLists(env, out, vars);
    DefaultAnswers(out, default);
    hide TrueFlows, DefaultOf, IsDefault, Takes;
    var r := TrueFlows(env, out, vars);
    if r.Some? {
      if Enabled(env, out, vars) != {} {
        var i :| i in Enabled(env, out, vars);
        assert i in ix;
        assert r.value != [];
      } else {
        SublistSome(out, Enabled(env, out, vars), r.value, ix);
        forall f ensures Takes(at.inst, [f]) == [Take(at.inst, f)] {}
      }
    }
  }

  // ---- Joins ----

  // The flows of the definition that lead to e from a known element other than a service task.
  function Awaited(def: Definition, e: string): set<int> {
    set i | 0 <= i < |def.flows| && def.flows[i].target == e && def.flows[i].source in def.elements
            && !def.elements[def.flows[i].source].ServiceTask?
  }

  ghost function AwaitedIn(def: Definition, flows: seq<Flow>, e: string): set<int> {
    set i | 0 <= i < |flows| && flows[i].target == e && flows[i].source in def.elements
            && !def.elements[flows[i].source].ServiceTask?
  }

  lemma CountedSnoc(def: Definition, flows: seq<Flow>, f: Flow)
    ensures Counted(def, flows + [f]) ==
            Counted(def, flows) + if f.source in def.elements && !def.elements[f.source].ServiceTask? then 1 else 0
  {
    assert (flows + [f])[..|flows + [f]| - 1] == flows;
  }

  lemma AwaitedSnoc(def: Definition, flows: seq<Flow>, f: Flow, e: string)
    ensures |AwaitedIn(def, flows + [f], e)| == |AwaitedIn(def, flows, e)|
              + if f.target == e && f.source in def.elements && !def.elements[f.source].ServiceTask? then 1 else 0
  {
    var here := f.target == e && f.source in def.elements && !def.elements[f.source].ServiceTask?;
    assert AwaitedIn(def, flows + [f], e) == AwaitedIn(def, flows, e) + if here then {|flows|} else {};
  }

  lemma {:induction false} CountedAwaited(def: Definition, flows: seq<Flow>, e: string)
    ensures Counted(def, FlowsInto(flows, e)) == |AwaitedIn(def, flows, e)|
  {
    if flows == [] {
      assert AwaitedIn(def, flows, e) == {};
    } else {
      hide AwaitedIn, Counted;
      var last := |flows| - 1;
      assert flows[..last] + [flows[last]] == flows;
      CountedAwaited(def, flows[..last], e);
      CountedSnoc(def, FlowsInto(flows[..last], e), flows[last]);
      AwaitedSnoc(def, flows[..last], flows[last], e);
      assert FlowsInto(flows[..last], e) + [] == FlowsInto(flows[..last], e);
    }
  }

  // The fan-in of an element is the number of those flows, and at least one.
  lemma FanInAwaits(def: Definition, e: string)
    ensures FanIn(def, e) == if Awaited(def, e) == {} then 1 else |Awaited(def, e)|
  {
    CountedAwaited(def, def.flows, e);
    assert AwaitedIn(def, def.flows, e) == Awaited(def, e);
    assert Awaited(def, e) != {} ==> |Awaited(def, e)| > 0;
  }

  // The same of a list of incoming flows.
  ghost function Waited(def: Definition, flows: seq<Flow>): set<int> {
    set i | 0 <= i < |flows| && flows[i].source in def.elements && !def.elements[flows[i].source].ServiceTask?
  }

  lemma WaitedSnoc(def: Definition, flows: seq<Flow>, f: Flow)
    ensures |Waited(def, flows + [f])| == |Waited(def, flows)|
              + if f.source in def.elements && !def.elements[f.source].ServiceTask? then 1 else 0
  {
    var here := f.source in def.elements && !def.elements[f.source].ServiceTask?;
    assert Waited(def, flows + [f]) == Waited(def, flows) + if here then {|flows|} else {};
  }

  lemma {:induction false} CountedIs(def: Definition, flows: seq<Flow>)
    ensures Counted(def, flows) == |Waited(def, flows)|
  {
    if flows == [] {
      assert Waited(def, flows) == {};
    } else {
      hide Waited, Counted;
      var last := |flows| - 1;
      assert flows[..last] + [flows[last]] == flows;
      CountedIs(def, flows[..last]);
      CountedSnoc(def, flows[..last], flows[last]);
      WaitedSnoc(def, flows[..last], flows[last]);
    }
  }

  // ---- Multi-instance tasks ----

  // How many instances a loop has: as many as its collection lists, and none when the variable is absent or is no
  // list; otherwise what its cardinality evaluates to, but not below zero; otherwise one.
  ghost predicate HasSize(env: Env, loop: Loop, vars: Vars, size: Option<int>) {
    var name := User(loop.collection);
    && (loop.collection != "" && name in vars && vars[name].List? ==> size == Some(|vars[name].items|))
    && (loop.collection != "" && !(name in vars && vars[name].List?) ==> size == Some(0))
    && (loop.collection == "" && loop.cardinality != "" ==>
          && (size.None? <==> env.num(loop.cardinality, vars).None?)
          && (size.Some? && env.num(loop.cardinality, vars).value >= 0 ==> size == env.num(loop.cardinality, vars))
          && (size.Some? && env.num(loop.cardinality, vars).value < 0 ==> size == Some(0)))
    && (loop.collection == "" && loop.cardinality == "" ==> size == Some(1))
  }

  lemma SizeIs(env: Env, loop: Loop, vars: Vars, size: Option<int>)
    ensures HasSize(env, loop, vars, size) <==> LoopCount(env, loop, vars) == size
  {
  }

  // What a multi-instance task does when it is entered: it fails when its size cannot be evaluated, is passed at
  // once when there is nothing to do, and otherwise waits.
  lemma EnterBySize(env: Env, w: World, at: Place, el: Element, out: seq<Flow>, size: Option<int>)
    requires el.UserTask? && el.loop.Some? && HasSize(env, el.loop.value, VarsOf(w, at.inst), size)
    ensures var s := EnterLoop(env, w, at, el, out);
            && (size.None? ==> s == Stuck(w))
            && (size.Some? && size.value <= 0 ==> s == Leave(w, at, out))
            && (size.Some? && size.value >= 1 ==> s.Go? && s.jobs == [])
  {
    hide OpenLoop, LoopInstances, SequentialInstance, LoopItems, VarsOf, Leave;
    SizeIs(env, el.loop.value, VarsOf(w, at.inst), size);
  }
}
