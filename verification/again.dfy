// A multi-instance task that is entered again: how a later session begins, and a run in which it is cut short.

module Again {
  import opened Spec
  import opened Model
  import opened Machine
  import opened Operations
  import opened Lifecycle
  import opened TokenGame
  import opened TokenRuns
  import opened Frames
  import opened Names
  import opened Choices
  import opened Loops
  import Signs
  import Splits
  import Discipline

  // ---- Counters of other loops ----

  ghost predicate SameCounts(w: World, w1: World, p: nat, l: nat) {
    forall f :: NumAt(VarsOf(w1, p), LoopVar(l, f)) == NumAt(VarsOf(w, p), LoopVar(l, f))
  }

  lemma OpenLoopOthers(w: World, p: nat, n: int, l: nat)
    requires l != w.next
    ensures SameCounts(w, OpenLoop(w, p, n), p, l)
  {
    hide SetCount, VarsOf;
    var id := w.next;
    var w0 := w.(next := id + 1);
    SameVars(w, w0, p);
    var w1 := SetCount(w0, p, id, Total, "nrOfInstances", n);
    CountSet(w0, p, id, Total, "nrOfInstances", n);
    CountSet(w1, p, id, Live, "nrOfActiveInstances", n);
    CountSet(SetCount(w1, p, id, Live, "nrOfActiveInstances", n), p, id, Finished, "nrOfCompletedInstances", 0);
  }

  lemma SameVars(w: World, w1: World, p: nat)
    requires w1.vars == w.vars
    ensures VarsOf(w1, p) == VarsOf(w, p)
  {
  }

  lemma InstanceOthers(env: Env, w: World, at: Place, el: Element, id: nat, items: seq<Value>, i: nat, l: nat)
    requires el.UserTask? && el.loop.Some?
    ensures SameCounts(w, LoopInstance(env, w, at, el, id, items, i), at.inst, l)
  {
    hide Rendered, Snapshot;
  }

  lemma {:induction false} InstancesOthers(env: Env, w: World, at: Place, el: Element, id: nat, items: seq<Value>,
      n: nat, l: nat)
    requires el.UserTask? && el.loop.Some?
    ensures SameCounts(w, LoopInstances(env, w, at, el, id, items, n), at.inst, l)
  {
    hide LoopInstance, VarsOf, NumAt;
    if n > 0 {
      InstancesOthers(env, w, at, el, id, items, n - 1, l);
      InstanceOthers(env, LoopInstances(env, w, at, el, id, items, n - 1), at, el, id, items, n - 1, l);
    }
  }

  lemma SequentialOthers(env: Env, w: World, at: Place, el: Element, id: nat, items: seq<Value>, i: nat, n: int, l: nat)
    requires el.UserTask? && el.loop.Some? && l != id
    ensures SameCounts(w, SequentialInstance(env, w, at, el, id, items, i, n), at.inst, l)
  {
    hide LoopInstance, VarsOf, SetVar;
    var p := at.inst;
    var w1 := LoopInstance(env, w, at, el, id, items, i);
    InstanceOthers(env, w, at, el, id, items, i, l);
    VarsSet(w1, p, LoopVar(id, SeqIndex), Num(i));
    VarsSet(SetVar(w1, p, LoopVar(id, SeqIndex), Num(i)), p, LoopVar(id, SeqCount), Num(n));
  }

  // Opening a loop leaves the counters of the others alone.
  lemma EnterOthers(env: Env, w: World, at: Place, el: Element, out: seq<Flow>, n: int, l: nat)
    requires el.UserTask? && el.loop.Some? && l != w.next
    requires HasSize(env, el.loop.value, VarsOf(w, at.inst), Some(n)) && n >= 1
    ensures SameCounts(w, EnterLoop(env, w, at, el, out).w, at.inst, l)
  {
    hide LoopCount, HasSize, OpenLoop, VarsOf, LoopInstances, SequentialInstance, LoopItems, NumAt;
    var loop := el.loop.value;
    var vars := VarsOf(w, at.inst);
    SizeIs(env, loop, vars, Some(n));
    OpenLoopOthers(w, at.inst, n, l);
    SequentialOthers(env, OpenLoop(w, at.inst, n), at, el, w.next, LoopItems(loop, vars), 0, n, l);
    InstancesOthers(env, OpenLoop(w, at.inst, n), at, el, w.next, LoopItems(loop, vars), n, l);
  }

  // ---- One session after the other ----

  // Nobody has been asked to sign, and nothing has been delegated.
  ghost predicate Calm(w: World) {
    && (forall a :: a in w.acts ==> w.acts[a].adhoc.None?)
    && (forall q, b: nat :: DelegateTo(b) !in VarsOf(w, q))
  }

  lemma CalmFree(env: Env, w: World, p: nat, s: Session, ids: seq<nat>, done: set<nat>, i: nat)
    requires Calm(w) && InLoop(w, s, ids, done) && i < |ids| && i !in done && s.at.inst == p
    ensures FreeTask(env, w, p, ids[i])
  {
    hide Counters, LoopsAt;
    assert InstanceOk(w.acts[ids[i]], s, i, i in done);
  }

  lemma NearCalm(w: World, w1: World, at: Place)
    requires Calm(w) && Bounded(w) && Near(w, w1, at)
    ensures Calm(w1)
  {
    hide VarsOf, Arrived;
    forall a | a in w1.acts ensures w1.acts[a].adhoc.None? {
      assert a in w.acts ==> w.acts[a].adhoc.None?;
    }
    forall q, b: nat ensures DelegateTo(b) !in VarsOf(w1, q) {
      assert !Writable(DelegateTo(b), at);
    }
  }

  ghost predicate Nonempty(env: Env, loop: Loop, vars: Vars) {
    exists n :: n >= 1 && HasSize(env, loop, vars, Some(n))
  }

  // The flows of the task lead back to it, and its loop is never empty.
  ghost predicate Circles(env: Env, def: Definition, e: string, f: Flow) {
    && TaskAt(def, e) && def.elements[e].loop.Some? && FlowsFrom(def.flows, e) == [f] && f.target == e
    && forall vars :: Nonempty(env, def.elements[e].loop.value, vars)
  }

  // Two steps are enough for a completion there: leaving the task, and entering it again.
  lemma TwoSteps(env: Env, w: World, p: nat, def: Definition, s: Session, f: Flow, a: nat, vars: Vars)
    requires LoopPlace(env, w, p, def, s) && Circles(env, def, s.at.elem, f) && FreeTask(env, w, p, a)
    requires CallerVars(vars) && w.acts[a].at == s.at
    ensures Apply(env, w, Complete(a, vars), 2).Ended?
  {
    hide FlowsFrom, LoopStep, HasSize, FreeTask, PrepComplete, EnterLoop, Exec, FinishOne, Submit;
    var el := def.elements[s.at.elem];
    FreePrep(env, w, p, a, vars);
    SubmittedPlace(env, w, p, def, s, a, vars);
    var w0 := DropOne(Submit(FinishOne(w, a), p, vars), s.at);
    var step := LoopStep(env, w0, s.at, el, [f]);
    assert StepJob(env, w0, Nav(p, s.at.elem)) == step;
    LoopLeaves(env, w0, s.at, el, f);
    LoopStepLocal(env, w0, s.at, el, [f]);
    ExecSolo(env, w0, Nav(p, s.at.elem), step.w, step.jobs, 2);
    if step.jobs == [] {
      ExecNone(env, step.w, 1);
    } else {
      var step1 := EnterLoop(env, step.w, s.at, el, [f]);
      assert StepJob(env, step.w, Take(p, f)) == step1;
      assert Nonempty(env, el.loop.value, VarsOf(step.w, s.at.inst));
      var n :| n >= 1 && HasSize(env, el.loop.value, VarsOf(step.w, s.at.inst), Some(n));
      EnterBySize(env, step.w, s.at, el, [f], Some(n));
      ExecSolo(env, step.w, Take(p, f), step1.w, [], 1);
      ExecNone(env, step1.w, 0);
    }
  }

  lemma LoopLeaves(env: Env, w: World, at: Place, el: Element, f: Flow)
    requires el.UserTask? && el.loop.Some?
    ensures var s := LoopStep(env, w, at, el, [f]); s.Go? && (s.jobs == [] || s.jobs == [Take(at.inst, f)])
  {
    hide CountCompletion, SequentialInstance, ConditionMet, LoopItems, LoopsAt;
    assert Takes(at.inst, [f]) == [Take(at.inst, f)];
  }

  lemma DepartNamed(w: World, w1: World, s: Session, vars: Vars, a: nat)
    requires Named(w) && a in w.acts && w.acts[a].at == s.at && w.acts[a].loop == Some(s.id) && s.at.inst in w.insts
    requires CallerVars(vars) && OutsideLoop(Submit(FinishOne(w, a), s.at.inst, vars), w1, s)
    ensures Named(w1)
  {
    FinishOneNamed(w, a);
    MergeNamed(FinishOne(w, a), s.at.inst, vars);
    var w0 := Submit(FinishOne(w, a), s.at.inst, vars);
    FinishOneKeeps(w, a);
    MergeParts(w, FinishOne(w, a), s.at.inst, vars);
    assert s.id < w0.next;
    hide FinishOne, Submit;
    OutsideNamed(w0, w1, s);
  }

  lemma OutsideNamed(w: World, w1: World, s: Session)
    requires Named(w) && OutsideLoop(w, w1, s) && s.id < w.next
    ensures Named(w1)
  {
    forall q | q in w1.vars ensures AllBelow(w1.vars[q], w1.next) {
      VarsNamed(w, q);
      assert VarsOf(w1, q) == w1.vars[q];
      forall k | k in w1.vars[q] ensures Below(k, w1.next) {
        assert q == s.at.inst && !CounterOf(k, s) ==> k in VarsOf(w, q);
      }
    }
  }

  lemma DepartCalm(w: World, w1: World, s: Session, vars: Vars, a: nat)
    requires Calm(w) && a in w.acts && w.acts[a].at == s.at && s.at.inst in w.insts
    requires CallerVars(vars) && OutsideLoop(Submit(FinishOne(w, a), s.at.inst, vars), w1, s)
    ensures Calm(w1)
  {
    var p := s.at.inst;
    var w0 := Submit(FinishOne(w, a), p, vars);
    assert forall q :: VarsOf(w0, q) == if q == p then VarsOf(w, p) + vars else VarsOf(w, q);
    hide VarsOf, CounterOf;
    forall q, b: nat ensures DelegateTo(b) !in VarsOf(w1, q) {
      assert DelegateTo(b) !in VarsOf(w0, q);
      assert !CounterOf(DelegateTo(b), s) by { NoCounter(b, s); }
    }
  }

  lemma NoCounter(b: nat, s: Session)
    ensures !CounterOf(DelegateTo(b), s)
  {
  }

  lemma Everyone(n: nat, s: set<nat>)
    requires |s| >= n && forall i :: i in s ==> i < n
    ensures forall i :: 0 <= i < n ==> i in s
  {
    if j :| 0 <= j < n && j !in s {
      forall i ensures i in s + {j} ==> i < n {}
      Signs.AtMost(n, s + {j});
    }
  }

  // All instances are complete after the last completion.
  lemma NoneLeft(w: World, w1: World, s: Session, ids: seq<nat>, done: set<nat>, i: nat)
    requires InLoop(w, s, ids, done) && i < |ids| && i !in done && |done| + 1 == s.n
    requires w1.acts == FinishOne(w, ids[i]).acts && w1.next == w.next
    ensures LoopsAt(w1, s.at) == s.past + {s.id}
    ensures forall a :: a in w1.acts && w1.acts[a].at == s.at ==> w1.acts[a].state == Done
  {
    hide Counters, LoopsAt, FinishOne;
    FinishedInstance(w, w1, s, ids, done, i);
    LoopsOnRecord(w1, s, ids, done + {i});
    Everyone(|ids|, done + {i});
    forall a | a in w1.acts && w1.acts[a].at == s.at ensures w1.acts[a].state == Done {
      if a in ids {
        var j :| 0 <= j < |ids| && ids[j] == a;
        assert InstanceOk(w1.acts[ids[j]], s, j, j in done + {i});
      }
    }
  }

  // The counters of the session's own loop and of those before it say that they are exhausted, if they did.
  lemma StillExhausted(w: World, w1: World, s: Session, vars: Vars, a: nat)
    requires a in w.acts && s.at.inst in w.insts && CallerVars(vars) && s.id !in s.past
    requires OutsideLoop(Submit(FinishOne(w, a), s.at.inst, vars), w1, s)
    requires CountersAfter(VarsOf(w1, s.at.inst), s, s.n)
    requires forall l :: l in s.past ==> Exhausted(VarsOf(w, s.at.inst), l, s.sequential)
    ensures forall l :: l in s.past + {s.id} ==> Exhausted(VarsOf(w1, s.at.inst), l, s.sequential)
  {
    var p := s.at.inst;
    var w0 := Submit(FinishOne(w, a), p, vars);
    assert VarsOf(w0, p) == VarsOf(w, p) + vars;
    hide VarsOf, FinishOne;
    forall l | l in s.past ensures Exhausted(VarsOf(w1, p), l, s.sequential) {
      forall f ensures NumAt(VarsOf(w1, p), LoopVar(l, f)) == NumAt(VarsOf(w, p), LoopVar(l, f)) {
        assert !CounterOf(LoopVar(l, f), s) && LoopVar(l, f) !in vars;
      }
    }
  }

  // The last completion of a session enters the task again. The new session finds the old ones on record, and
  // their counters as they were.
  lemma Reenters(env: Env, w: World, p: nat, def: Definition, s: Session, ids: seq<nat>, done: set<nat>, i: nat,
      vars: Vars, stop: int -> bool, f: Flow) returns (w1: World, s1: Session, ids1: seq<nat>)
    requires LoopPlace(env, w, p, def, s) && InLoop(w, s, ids, done) && Found(env, w, s)
        && StopsAt(env, def.elements[s.at.elem].loop.value, stop)
    requires |done| + 1 == s.n && i < |ids| && FreeTask(env, w, p, ids[i]) && CallerVars(vars)
    requires Circles(env, def, s.at.elem, f) && Named(w) && Calm(w)
    requires forall l :: l in s.past ==> Exhausted(VarsOf(w, p), l, s.sequential)
    ensures var o := Apply(env, w, Complete(ids[i], vars), 2);
            && o.Ended? && LoopPlace(env, o.w, p, def, s1) && InLoop(o.w, s1, ids1, {}) && Named(o.w) && Calm(o.w)
            && s1.at == s.at && s1.past == s.past + {s.id} && s.id < s1.id
            && forall l :: l in s1.past ==> Exhausted(VarsOf(o.w, p), l, s1.sequential)
    ensures SameButCounters(VarsOf(w, p) + vars, VarsOf(w1, p), s)
        && HasSize(env, def.elements[s.at.elem].loop.value, VarsOf(w1, p), Some(s1.n))
  {
    hide FlowsFrom, FreeTask, PrepComplete, EnterLoop, Exec, FinishOne, Submit, Found, StopsAt, Instances, Counters,
        LoopsAt, Named, Calm, Exhausted, OutsideLoop, CountersAfter, VarsOf, HasSize, SameButCounters, Apply;
    var el := def.elements[s.at.elem];
    WhichFree(env, w, p, s, ids, done, i);
    TwoSteps(env, w, p, def, s, f, ids[i], vars);
    var same := LoopCompletes(env, w, p, def, s, ids, done, i, vars, stop, 2);
    var o := Apply(env, w, Complete(ids[i], vars), 2);
    w1 :| RunsOn(w, Exec(env, w1, LeftJobs(p, [f]), 1), o) && w1.log == w.log + [Follow(s.at)] && s.at !in w1.toks
      && OutsideLoop(Submit(FinishOne(w, ids[i]), p, vars), w1, s) && CountersAfter(VarsOf(w1, p), s, s.n);
    assert LeftJobs(p, [f]) == [Take(p, f)] by { OneTake(p, f); }
    ExecTake(env, w1, p, f, 1);
    DepartNamed(w, w1, s, vars, ids[i]);
    DepartCalm(w, w1, s, vars, ids[i]);
    DepartParts(env, w, w1, p, def, s, vars, ids[i]);
    NoneLeft(w, w1, s, ids, done, i);
    assert Nonempty(env, el.loop.value, VarsOf(w1, p));
    var n :| n >= 1 && HasSize(env, el.loop.value, VarsOf(w1, p), Some(n));
    s1, ids1 := LoopStarts(env, w1, s.at, el, [f], n);
    var w2 := EnterLoop(env, w1, s.at, el, [f]).w;
    ExecNone(env, w2, 0);
    EnterParts(env, w1, p, def, s1, f, [f]);
    StillExhausted(w, w1, s, vars, ids[i]);
    forall l | l in s1.past ensures Exhausted(VarsOf(w2, p), l, s1.sequential) {
      LoopsNamed(w1, s.at);
      EnterOthers(env, w1, s.at, el, [f], n, l);
      SameExhausted(w1, w2, p, l, s1.sequential);
    }
  }

  lemma SameExhausted(w: World, w1: World, p: nat, l: nat, sequential: bool)
    requires SameCounts(w, w1, p, l) && Exhausted(VarsOf(w, p), l, sequential)
    ensures Exhausted(VarsOf(w1, p), l, sequential)
  {
    hide VarsOf, NumAt;
  }

  lemma OneTake(p: nat, f: Flow)
    ensures LeftJobs(p, [f]) == [Take(p, f)]
  {
    assert [f][..0] == [];
  }

  lemma WhichFree(env: Env, w: World, p: nat, s: Session, ids: seq<nat>, done: set<nat>, i: nat)
    requires InLoop(w, s, ids, done) && i < |ids| && FreeTask(env, w, p, ids[i])
    ensures ids[i] in w.acts && w.acts[ids[i]].at == s.at && w.acts[ids[i]].loop == Some(s.id) && i !in done
    ensures s.id !in s.past && (Named(w) ==> s.id < w.next)
  {
    hide Counters, ActiveSigns, Delegated;
    assert InstanceOk(w.acts[ids[i]], s, i, i in done);
  }

  lemma DepartParts(env: Env, w: World, w1: World, p: nat, def: Definition, s: Session, vars: Vars, a: nat)
    requires LoopPlace(env, w, p, def, s) && a in w.acts && OutsideLoop(Submit(FinishOne(w, a), p, vars), w1, s)
    ensures LoopPlace(env, w1, p, def, s) && w1.acts == FinishOne(w, a).acts && w1.next == w.next
    ensures SameButCounters(VarsOf(w, p) + vars, VarsOf(w1, p), s)
  {
    FinishOneKeeps(w, a);
    MergeParts(w, FinishOne(w, a), p, vars);
    hide FinishOne;
    assert VarsOf(Submit(FinishOne(w, a), p, vars), p) == VarsOf(w, p) + vars;
  }

  // Entering the task.
  lemma EnterParts(env: Env, w: World, p: nat, def: Definition, s: Session, f: Flow, out: seq<Flow>)
    requires LoopPlace(env, w, p, def, s) && Named(w) && Calm(w) && f.target == s.at.elem
    requires FlowsFrom(def.flows, s.at.elem) == out
    ensures var step := EnterLoop(env, w, s.at, def.elements[s.at.elem], out);
            && StepJob(env, w, Take(p, f)) == step && Named(step.w) && Calm(step.w) && LoopPlace(env, step.w, p, def, s)
  {
    hide FlowsFrom, EnterLoop, HasSize, Named, Calm, Near;
    var el := def.elements[s.at.elem];
    EnterLoopNamed(env, w, s.at, el, out);
    EnterLoopNear(env, w, s.at, el, out);
    NamedBounded(w);
    NearCalm(w, EnterLoop(env, w, s.at, el, out).w, s.at);
    NearInsts(w, EnterLoop(env, w, s.at, el, out).w, s.at);
  }

  lemma NamedBounded(w: World)
    requires Named(w)
    ensures Bounded(w)
  {
  }

  // ---- A later session that is cut short ----

  // A task with as many instances as variable n says, whose flow leads back to it.
  const AGAIN := Definition("again", "a", 1,
    map["s" := StartEvent("s", ""), "e" := EndEvent("e", ""),
        "t" := UserTask("t", "", "", [], "", "", Some(Loop(false, "n", "", "", "")))],
    [Flow("f", "s", "t", None), Flow("g", "t", "t", None)], "s")

  ghost predicate NumbersByVariable(env: Env) {
    forall vars :: env.num("n", vars) ==
      Some(if NumAt(vars, User("n")) >= 1 then NumAt(vars, User("n")) else 1)
  }

  ghost predicate OldestFirst(env: Env) {
    forall s, now :: s != {} ==> IsLeast(s, env.pick(s, now))
  }

  lemma AgainFlows()
    ensures FlowsFrom(AGAIN.flows, "s") == [Flow("f", "s", "t", None)]
    ensures FlowsFrom(AGAIN.flows, "t") == [Flow("g", "t", "t", None)]
  {
    hide FlowsFrom;
    var f, g := Flow("f", "s", "t", None), Flow("g", "t", "t", None);
    assert AGAIN.flows == [] + [f] + [g];
    Splits.FlowsNone();
    Splits.FlowsSnoc([], f, "s");
    Splits.FlowsSnoc([] + [f], g, "s");
    Splits.FlowsSnoc([], f, "t");
    Splits.FlowsSnoc([] + [f], g, "t");
  }

  lemma AgainValid()
    ensures WellFormed(AGAIN)
  {
    assert AGAIN.flows[0] in AGAIN.flows && AGAIN.elements["e"].EndEvent?;
  }

  lemma AgainCircles(env: Env)
    requires NumbersByVariable(env)
    ensures Circles(env, AGAIN, "t", Flow("g", "t", "t", None))
    ensures StopsAt(env, AGAIN.elements["t"].loop.value, x => false)
    ensures forall vars, n :: HasSize(env, AGAIN.elements["t"].loop.value, vars, Some(n)) <==>
              n == if NumAt(vars, User("n")) >= 1 then NumAt(vars, User("n")) else 1
  {
    hide FlowsFrom, NumAt;
    AgainFlows();
    forall vars ensures Nonempty(env, AGAIN.elements["t"].loop.value, vars) {
      var n := if NumAt(vars, User("n")) >= 1 then NumAt(vars, User("n")) else 1;
      assert HasSize(env, AGAIN.elements["t"].loop.value, vars, Some(n));
    }
  }

  // The first session has one instance.
  lemma AgainStarts(env: Env) returns (w1: World, s: Session, ids: seq<nat>)
    requires env.defs == map["again" := AGAIN] && NumbersByVariable(env)
    ensures Apply(env, World(map[], multiset{}, map[], map[], 0, 0, []), Start("again", map[]), 2) == Ended(w1)
    ensures LoopPlace(env, w1, 0, AGAIN, s) && InLoop(w1, s, ids, {}) && Named(w1) && Calm(w1)
    ensures s.at == Place(0, "t") && s.n == 1 && s.past == {}
  {
    hide FlowsFrom, EnterLoop, Exec, HasSize, InLoop, LoopsAt, Named, Calm, VarsOf, Circles, LoopPlace;
    var f, g := Flow("f", "s", "t", None), Flow("g", "t", "t", None);
    AgainFlows();
    AgainCircles(env);
    var at, el := Place(0, "t"), AGAIN.elements["t"];
    var b1 := AgainLeaves(env);
    assert HasSize(env, el.loop.value, VarsOf(b1, 0), Some(1)) by { assert NumAt(VarsOf(b1, 0), User("n")) == 0; }
    s, ids := LoopStarts(env, b1, at, el, [g], 1);
    w1 := EnterLoop(env, b1, at, el, [g]).w;
    EnterParts(env, b1, 0, AGAIN, s, f, [g]);
    ExecSolo(env, b1, Take(0, f), w1, [], 1);
    ExecNone(env, w1, 0);
  }

  // Leaving the start event.
  lemma AgainLeaves(env: Env) returns (w1: World)
    requires env.defs == map["again" := AGAIN]
    ensures var f := Flow("f", "s", "t", None);
            Apply(env, World(map[], multiset{}, map[], map[], 0, 0, []), Start("again", map[]), 2) ==
            match Exec(env, w1, [Take(0, f)], 1)
            case Failed(_) => Failed(World(map[], multiset{}, map[], map[], 0, 0, []))
            case o => o
    ensures Named(w1) && Calm(w1) && VarsOf(w1, 0) == map[] && LoopsAt(w1, Place(0, "t")) == {}
    ensures forall a :: a in w1.acts ==> w1.acts[a].at != Place(0, "t")
    ensures forall s: Session :: s.at == Place(0, "t") && !s.sequential ==> LoopPlace(env, w1, 0, AGAIN, s)
  {
    hide FlowsFrom, Exec, WellFormed;
    var w := World(map[], multiset{}, map[], map[], 0, 0, []);
    var f := Flow("f", "s", "t", None);
    AgainFlows();
    AgainValid();
    var start := Place(0, "s");
    var b := Discipline.Begun(w, "again", map[], "s");
    assert PrepStart(env, w, "again", map[]) == Go(b, [Nav(0, "s")]);
    w1 := DropOne(Logged(b, Follow(start)), start);
    assert Takes(0, [f]) == [Take(0, f)] by { OneTake(0, f); }
    assert StepJob(env, b, Nav(0, "s")) == Go(w1, [Take(0, f)]);
    ExecSolo(env, b, Nav(0, "s"), w1, [Take(0, f)], 2);
  }

  // The first completion of the second session, which has two instances, is taken for one of the first session:
  // the flows are followed although the other instance is still to be done.
  lemma CutShort(env: Env) returns (w1: World, a: nat, w2: World, s: Session, ids: seq<nat>, w3: World)
    requires env.defs == map["again" := AGAIN] && NumbersByVariable(env) && OldestFirst(env)
    ensures Performs(env, World(map[], multiset{}, map[], map[], 0, 0, []), Start("again", map[]), w1)
    ensures Performs(env, w1, Complete(a, map[User("n") := Num(2)]), w2)
    ensures InLoop(w2, s, ids, {}) && s.n == 2 && !Found(env, w2, s) && 0 in w2.insts
    ensures Performs(env, w2, Complete(ids[0], map[]), w3)
    ensures FollowsNow(env, w2, 0, s, FlowsFrom(AGAIN.flows, "t"), Ended(w3), 2)
  {
    hide Apply, InLoop, LoopPlace, Named, Calm, FlowsFrom, FreeTask, Exhausted, HasSize, VarsOf, Circles, StopsAt;
    AgainFlows();
    AgainCircles(env);
    var g := Flow("g", "t", "t", None);
    var stop: int -> bool := x => false;
    var s0, ids0;
    w1, s0, ids0 := AgainStarts(env);
    SessionSize(w1, s0, ids0);
    a := ids0[0];
    CalmFree(env, w1, 0, s0, ids0, {}, 0);
    var vars := map[User("n") := Num(2)];
    OnlyOne(env, w1, s0);
    var v;
    v, s, ids := Reenters(env, w1, 0, AGAIN, s0, ids0, {}, 0, vars, stop, g);
    w2 := Apply(env, w1, Complete(a, vars), 2).w;
    TwoInstances(VarsOf(w1, 0), VarsOf(v, 0), s0);
    SessionSize(w2, s, ids);
    CalmFree(env, w2, 0, s, ids, {}, 0);
    OldOne(env, w2, s0, s);
    WhichFree(env, w2, 0, s, ids, {}, 0);
    TwoSteps(env, w2, 0, AGAIN, s, g, ids[0], map[]);
    PlaceExists(env, w2, 0, AGAIN, s);
    NextCompletion(env, w2, 0, AGAIN, s, ids, {}, 0, map[], stop, 2);
    w3 := Apply(env, w2, Complete(ids[0], map[]), 2).w;
  }

  lemma SessionSize(w: World, s: Session, ids: seq<nat>)
    requires InLoop(w, s, ids, {})
    ensures |ids| >= 1 && s.n >= 1
  {
  }

  lemma PlaceExists(env: Env, w: World, p: nat, def: Definition, s: Session)
    requires LoopPlace(env, w, p, def, s)
    ensures p in w.insts
  {
  }

  lemma OnlyOne(env: Env, w: World, s: Session)
    requires s.past == {}
    ensures Found(env, w, s)
  {
    assert s.past + {s.id} == {s.id};
  }

  lemma OldOne(env: Env, w: World, s0: Session, s: Session)
    requires OldestFirst(env) && s.past == {s0.id} && s0.id < s.id
    ensures !Found(env, w, s)
  {
    assert s0.id in s.past + {s.id};
    assert IsLeast(s.past + {s.id}, env.pick(s.past + {s.id}, w.clock + 1));
  }

  lemma TwoInstances(vars: Vars, vars1: Vars, s: Session)
    requires SameButCounters(vars + map[User("n") := Num(2)], vars1, s)
    ensures NumAt(vars1, User("n")) == 2
  {
    assert "n" != "nrOfCompletedInstances" && "n" != "nrOfActiveInstances" by {
      assert |"n"| == 1 && |"nrOfCompletedInstances"| > 1 && |"nrOfActiveInstances"| > 1;
    }
    assert !CounterOf(User("n"), s);
  }
}
