// Multi-instance user tasks: how many instances there are, and when the flows behind them are followed.

module Loops {
  import opened Spec
  import opened Model
  import opened Machine
  import opened Operations
  import opened Lifecycle
  import opened TokenGame
  import opened TokenRuns
  import opened Frames
  import opened Footprints
  import opened Names
  import opened Choices

  // A session of n instances at a place where completed instances of the `past` loops are on record.
  datatype Session = Session(at: Place, id: nat, n: nat, sequential: bool, past: set<nat>)

  // The loop's own counters after k completions.
  ghost predicate Counters(vars: Vars, s: Session, k: nat) {
    && NumAt(vars, LoopVar(s.id, Total)) == s.n
    && NumAt(vars, LoopVar(s.id, Live)) == s.n - k
    && NumAt(vars, LoopVar(s.id, Finished)) == k
    && (s.sequential ==> NumAt(vars, LoopVar(s.id, SeqIndex)) == k && NumAt(vars, LoopVar(s.id, SeqCount)) == s.n)
  }

  // The open activities at the place are among these, which have loop counters 0, 1, 2, ...; those in `done` are
  // complete.
  ghost predicate Instances(w: World, s: Session, ids: seq<nat>, done: set<nat>) {
    && (forall i, j :: 0 <= i < j < |ids| ==> ids[i] != ids[j])
    && (forall a :: a in ids ==> a in w.acts)
    && (forall a :: a in w.acts && w.acts[a].at == s.at && a !in ids ==>
          w.acts[a].state == Done && w.acts[a].loop != Some(s.id))
    && (forall i :: 0 <= i < |ids| ==> InstanceOk(w.acts[ids[i]], s, i, i in done))
    && (forall i :: i in done ==> i < |ids|)
  }

  predicate InstanceOk(b: Act, s: Session, i: nat, isDone: bool) {
    && b.at == s.at && b.kind == UserKind && b.loop == Some(s.id) && b.counter == i && b.adhoc.None?
    && b.state == if isDone then Done else Active
  }

  // A session with some instances completed and some not: in sequential mode one is active, and the ones
  // before it are complete; otherwise all are there from the start.
  ghost predicate InLoop(w: World, s: Session, ids: seq<nat>, done: set<nat>) {
    && Bounded(w) && Counters(VarsOf(w, s.at.inst), s, |done|) && Instances(w, s, ids, done)
    && |ids| == (if s.sequential then |done| + 1 else s.n) && |done| < s.n && LoopsAt(w, s.at) - {s.id} == s.past
    && (s.sequential ==> forall i: nat :: i in done <==> i < |done|)
  }

  // ---- Entering ----

  lemma CountSet(w: World, p: nat, id: nat, f: LoopField, name: string, n: int)
    ensures var w1 := SetCount(w, p, id, f, name, n);
            && VarsOf(w1, p) == VarsOf(w, p)[LoopVar(id, f) := Num(n)][User(name) := Num(n)]
            && w1.acts == w.acts && w1.next == w.next && w1.toks == w.toks && w1.log == w.log && w1.insts == w.insts
  {
    hide SetVar, VarsOf;
    VarsSet(w, p, LoopVar(id, f), Num(n));
    VarsSet(SetVar(w, p, LoopVar(id, f), Num(n)), p, User(name), Num(n));
  }

  lemma OpenLoopParts(w: World, p: nat, n: int)
    ensures var w1 := OpenLoop(w, p, n);
            && w1.acts == w.acts && w1.next == w.next + 1 && w1.toks == w.toks && w1.log == w.log && w1.insts == w.insts
            && NumAt(VarsOf(w1, p), LoopVar(w.next, Total)) == n && NumAt(VarsOf(w1, p), LoopVar(w.next, Live)) == n
            && NumAt(VarsOf(w1, p), LoopVar(w.next, Finished)) == 0
            && NumAt(VarsOf(w1, p), User("nrOfInstances")) == n
            && NumAt(VarsOf(w1, p), User("nrOfActiveInstances")) == n
            && NumAt(VarsOf(w1, p), User("nrOfCompletedInstances")) == 0
  {
    hide SetCount, VarsOf;
    var id := w.next;
    var w0 := w.(next := id + 1);
    var w1 := SetCount(w0, p, id, Total, "nrOfInstances", n);
    var w2 := SetCount(w1, p, id, Live, "nrOfActiveInstances", n);
    CountSet(w0, p, id, Total, "nrOfInstances", n);
    CountSet(w1, p, id, Live, "nrOfActiveInstances", n);
    CountSet(w2, p, id, Finished, "nrOfCompletedInstances", 0);
    NamesDiffer();
  }

  lemma LoopInstanceParts(env: Env, w: World, at: Place, el: Element, id: nat, items: seq<Value>, i: nat)
    requires el.UserTask? && el.loop.Some?
    ensures var w1 := LoopInstance(env, w, at, el, id, items, i);
            && w1.acts == w.acts[w.next := w1.acts[w.next]] && w1.next == w.next + 1
            && w1.toks == w.toks + multiset{at} && w1.log == w.log && w1.insts == w.insts
            && w.next in w1.acts && w1.acts[w.next] ==
                NewAct(at, UserKind, w1.acts[w.next].assignee).(loop := Some(id), counter := i)
            && forall f :: NumAt(VarsOf(w1, at.inst), LoopVar(id, f)) == NumAt(VarsOf(w, at.inst), LoopVar(id, f))
  {
    hide Rendered, Snapshot;
  }

  lemma ActiveAddsNoLoop(w: World, w1: World, at: Place)
    requires Bounded(w) && w.next in w1.acts && w1.acts == w.acts[w.next := w1.acts[w.next]]
    requires w1.acts[w.next].state == Active
    ensures LoopsAt(w1, at) == LoopsAt(w, at)
  {
    assert forall a :: a in w.acts ==> a in w1.acts && w1.acts[a] == w.acts[a];
    assert forall a :: a in w1.acts && w1.acts[a].state == Done ==> a in w.acts;
  }

  lemma AddInstance(w: World, w1: World, s: Session, ids: seq<nat>, done: set<nat>)
    requires Bounded(w) && Instances(w, s, ids, done) && |ids| !in done
    requires w.next in w1.acts && w1.acts == w.acts[w.next := w1.acts[w.next]] && w1.next == w.next + 1
    requires InstanceOk(w1.acts[w.next], s, |ids|, false)
    ensures Bounded(w1) && Instances(w1, s, ids + [w.next], done) && LoopsAt(w1, s.at) == LoopsAt(w, s.at)
  {
    ActiveAddsNoLoop(w, w1, s.at);
    hide InstanceOk, LoopsAt;
    var ids1 := ids + [w.next];
    forall i | 0 <= i < |ids1| ensures InstanceOk(w1.acts[ids1[i]], s, i, i in done) {
      if i < |ids| { assert ids1[i] == ids[i] && ids[i] in w.acts; }
    }
  }

  lemma {:induction false} LoopInstancesParts(env: Env, w: World, s: Session, el: Element, items: seq<Value>, m: nat)
      returns (ids: seq<nat>)
    requires el.UserTask? && el.loop.Some? && Bounded(w) && Instances(w, s, [], {})
    ensures var w1 := LoopInstances(env, w, s.at, el, s.id, items, m);
            && Bounded(w1) && Instances(w1, s, ids, {}) && |ids| == m && w1.log == w.log
            && w1.toks[s.at] == w.toks[s.at] + m && LoopsAt(w1, s.at) == LoopsAt(w, s.at)
            && forall f :: NumAt(VarsOf(w1, s.at.inst), LoopVar(s.id, f)) ==
                NumAt(VarsOf(w, s.at.inst), LoopVar(s.id, f))
  {
    hide LoopInstance, VarsOf, NumAt, Instances, LoopsAt;
    if m == 0 {
      ids := [];
    } else {
      var before := LoopInstancesParts(env, w, s, el, items, m - 1);
      var w0 := LoopInstances(env, w, s.at, el, s.id, items, m - 1);
      LoopInstanceParts(env, w0, s.at, el, s.id, items, m - 1);
      AddInstance(w0, LoopInstance(env, w0, s.at, el, s.id, items, m - 1), s, before, {});
      ids := before + [w0.next];
    }
  }

  lemma NoInstances(w: World, s: Session)
    requires forall a :: a in w.acts && w.acts[a].at == s.at ==> w.acts[a].state == Done && w.acts[a].loop != Some(s.id)
    ensures Instances(w, s, [], {})
  {
  }

  lemma SequentialParts(env: Env, w: World, s: Session, el: Element, items: seq<Value>, i: nat, ids: seq<nat>,
      done: set<nat>)
    requires el.UserTask? && el.loop.Some? && Bounded(w) && Instances(w, s, ids, done) && i == |ids| && |ids| !in done
    ensures var w1 := SequentialInstance(env, w, s.at, el, s.id, items, i, s.n);
            && Bounded(w1) && Instances(w1, s, ids + [w.next], done) && w1.log == w.log
            && w1.toks[s.at] == w.toks[s.at] + 1 && LoopsAt(w1, s.at) == LoopsAt(w, s.at)
            && NumAt(VarsOf(w1, s.at.inst), LoopVar(s.id, SeqIndex)) == i
                && NumAt(VarsOf(w1, s.at.inst), LoopVar(s.id, SeqCount)) == s.n
            && forall f :: f != SeqIndex && f != SeqCount ==>
                 NumAt(VarsOf(w1, s.at.inst), LoopVar(s.id, f)) == NumAt(VarsOf(w, s.at.inst), LoopVar(s.id, f))
  {
    hide LoopInstance, VarsOf, SetVar, Instances, LoopsAt;
    var p := s.at.inst;
    var w1 := LoopInstance(env, w, s.at, el, s.id, items, i);
    LoopInstanceParts(env, w, s.at, el, s.id, items, i);
    AddInstance(w, w1, s, ids, done);
    VarsSet(w1, p, LoopVar(s.id, SeqIndex), Num(i));
    var w2 := SetVar(w1, p, LoopVar(s.id, SeqIndex), Num(i));
    VarsSet(w2, p, LoopVar(s.id, SeqCount), Num(s.n));
    SameInstances(w1, SetVar(w2, p, LoopVar(s.id, SeqCount), Num(s.n)), s, ids + [w.next], done);
  }

  lemma SameInstances(w: World, w1: World, s: Session, ids: seq<nat>, done: set<nat>)
    requires Instances(w, s, ids, done) && w1.acts == w.acts
    ensures Instances(w1, s, ids, done) && LoopsAt(w1, s.at) == LoopsAt(w, s.at)
  {
  }

  // A session at a place without open activities: n instances, or in sequential mode the first of them.
  lemma LoopStarts(env: Env, w: World, at: Place, el: Element, out: seq<Flow>, n: int)
      returns (s: Session, ids: seq<nat>)
    requires el.UserTask? && el.loop.Some? && Named(w)
    requires forall a :: a in w.acts && w.acts[a].at == at ==> w.acts[a].state == Done
    requires HasSize(env, el.loop.value, VarsOf(w, at.inst), Some(n)) && n >= 1
    ensures var step := EnterLoop(env, w, at, el, out);
            && s == Session(at, w.next, n, el.loop.value.sequential, LoopsAt(w, at))
            && |ids| == (if el.loop.value.sequential then 1 else n)
            && step.Go? && step.jobs == [] && step.w.log == w.log
            && InLoop(step.w, s, ids, {}) && step.w.toks[at] == w.toks[at] + |ids|
  {
    hide LoopCount, HasSize, OpenLoop, VarsOf, LoopInstances, SequentialInstance, LoopItems, Instances, NumAt;
    NextNamesNothing(w, at.inst);
    hide Named;
    var loop := el.loop.value;
    var vars := VarsOf(w, at.inst);
    SizeIs(env, loop, vars, Some(n));
    s := Session(at, w.next, n, loop.sequential, LoopsAt(w, at));
    var w1 := OpenLoop(w, at.inst, n);
    OpenLoopParts(w, at.inst, n);
    NoInstances(w1, s);
    assert LoopsAt(w1, at) == LoopsAt(w, at);
    if loop.sequential {
      SequentialParts(env, w1, s, el, LoopItems(loop, vars), 0, [], {});
      ids := [] + [w1.next];
    } else {
      ids := LoopInstancesParts(env, w1, s, el, LoopItems(loop, vars), n);
    }
  }

  // ---- What an instance works on, and whose it is ----

  // The element variable holds this item.
  ghost predicate WorksOn(w: World, p: nat, name: string, item: Value) {
    name != "" ==> User(name) in VarsOf(w, p) && VarsOf(w, p)[User(name)] == item
  }

  // Instances created since are assigned to whom the task's expression names, of the variables the process
  // instance was started with and its completed tasks have submitted; what loops write is not among them.
  ghost predicate AssignedTo(env: Env, w: World, w1: World, p: nat, template: string) {
    forall a :: a in w1.acts && a !in w.acts ==>
      && (template == "" ==> w1.acts[a].assignee == "")
      && (template != "" ==>
            w1.acts[a].assignee == env.render(template, if p in w.insts then w.insts[p].snapshot else map[]))
  }

  lemma InstanceGives(env: Env, w: World, at: Place, el: Element, id: nat, items: seq<Value>, i: nat)
    requires el.UserTask? && el.loop.Some?
    ensures var w1 := LoopInstance(env, w, at, el, id, items, i);
            && AssignedTo(env, w, w1, at.inst, el.assignee) && w1.insts == w.insts && w1.acts.Keys >= w.acts.Keys
            && (i < |items| ==> WorksOn(w1, at.inst, el.loop.value.elementVariable, items[i]))
  {
  }

  lemma AssignedOn(env: Env, w: World, w1: World, w2: World, p: nat, template: string)
    requires AssignedTo(env, w, w1, p, template) && AssignedTo(env, w1, w2, p, template) && w1.insts == w.insts
    requires Extends(w, w1) && Extends(w1, w2)
    requires forall a :: a in w1.acts && a in w2.acts ==> w2.acts[a] == w1.acts[a]
    ensures AssignedTo(env, w, w2, p, template)
  {
  }

  lemma InstanceKeeps(env: Env, w: World, at: Place, el: Element, id: nat, items: seq<Value>, i: nat)
    requires el.UserTask? && el.loop.Some? && Bounded(w)
    ensures var w1 := LoopInstance(env, w, at, el, id, items, i);
            Bounded(w1) && forall a :: a in w.acts && a in w1.acts ==> w1.acts[a] == w.acts[a]
  {
    hide Rendered, Snapshot;
  }

  lemma {:induction false} InstancesGive(env: Env, w: World, at: Place, el: Element, id: nat, items: seq<Value>, n: nat)
    requires el.UserTask? && el.loop.Some? && Bounded(w)
    ensures var w1 := LoopInstances(env, w, at, el, id, items, n);
            && AssignedTo(env, w, w1, at.inst, el.assignee) && w1.insts == w.insts && Bounded(w1)
            && (0 < n <= |items| ==> WorksOn(w1, at.inst, el.loop.value.elementVariable, items[n - 1]))
  {
    hide LoopInstance, WorksOn;
    if n > 0 {
      InstancesGive(env, w, at, el, id, items, n - 1);
      var w1 := LoopInstances(env, w, at, el, id, items, n - 1);
      InstanceGives(env, w1, at, el, id, items, n - 1);
      InstanceKeeps(env, w1, at, el, id, items, n - 1);
      AssignedOn(env, w, w1, LoopInstance(env, w1, at, el, id, items, n - 1), at.inst, el.assignee);
    }
  }

  lemma SequentialGives(env: Env, w: World, at: Place, el: Element, id: nat, items: seq<Value>, i: nat, n: int)
    requires el.UserTask? && el.loop.Some?
    ensures var w1 := SequentialInstance(env, w, at, el, id, items, i, n);
            && AssignedTo(env, w, w1, at.inst, el.assignee)
            && (i < |items| ==> WorksOn(w1, at.inst, el.loop.value.elementVariable, items[i]))
  {
    hide LoopInstance, SetVar, VarsOf;
    var p := at.inst;
    InstanceGives(env, w, at, el, id, items, i);
    var w1 := LoopInstance(env, w, at, el, id, items, i);
    VarsSet(w1, p, LoopVar(id, SeqIndex), Num(i));
    var w2 := SetVar(w1, p, LoopVar(id, SeqIndex), Num(i));
    VarsSet(w2, p, LoopVar(id, SeqCount), Num(n));
    SetActs(w1, p, LoopVar(id, SeqIndex), Num(i));
    SetActs(w2, p, LoopVar(id, SeqCount), Num(n));
  }

  lemma SetActs(w: World, p: nat, k: VarName, v: Value)
    ensures SetVar(w, p, k, v).acts == w.acts
  {
  }

  // Entering a loop over a collection: a sequential one works on the first item. A parallel one creates all its
  // instances at once and writes every item to the same variable, so what is left there is the last one.
  lemma LoopGives(env: Env, w: World, at: Place, el: Element, out: seq<Flow>, n: int)
    requires el.UserTask? && el.loop.Some? && Bounded(w)
    requires HasSize(env, el.loop.value, VarsOf(w, at.inst), Some(n)) && n >= 1
    ensures var loop := el.loop.value;
            var w1 := EnterLoop(env, w, at, el, out).w;
            && AssignedTo(env, w, w1, at.inst, el.assignee)
            && (loop.collection != "" ==>
                  && User(loop.collection) in VarsOf(w, at.inst) && VarsOf(w, at.inst)[User(loop.collection)].List?
                  && |VarsOf(w, at.inst)[User(loop.collection)].items| == n
                  && WorksOn(w1, at.inst, loop.elementVariable,
                        VarsOf(w, at.inst)[User(loop.collection)].items[if loop.sequential then 0 else n - 1]))
  {
    hide OpenLoop, LoopInstances, SequentialInstance, VarsOf, WorksOn;
    var loop := el.loop.value;
    SizeIs(env, loop, VarsOf(w, at.inst), Some(n));
    OpenLoopParts(w, at.inst, n);
    var w0 := OpenLoop(w, at.inst, n);
    var items := LoopItems(loop, VarsOf(w, at.inst));
    SequentialGives(env, w0, at, el, w.next, items, 0, n);
    InstancesGive(env, w0, at, el, w.next, items, n);
  }

  // The next instance of a sequential loop works on the next item of the collection.
  lemma NextGives(env: Env, w: World, at: Place, el: Element, id: nat, out: seq<Flow>)
    requires el.UserTask? && el.loop.Some? && el.loop.value.sequential
    requires AdvanceLoop(env, w, at, el, id, out).Go? && AdvanceLoop(env, w, at, el, id, out).w.log == w.log
    requires NumAt(VarsOf(w, at.inst), LoopVar(id, SeqIndex)) >= 0
    requires NumAt(VarsOf(w, at.inst), LoopVar(id, SeqIndex)) + 1 < NumAt(VarsOf(w, at.inst), LoopVar(id, SeqCount))
    ensures var loop := el.loop.value;
            var w1 := AdvanceLoop(env, w, at, el, id, out).w;
            var next := NumAt(VarsOf(w, at.inst), LoopVar(id, SeqIndex)) + 1;
            && AssignedTo(env, w, w1, at.inst, el.assignee)
            && (loop.collection != "" && User(loop.collection) in VarsOf(w, at.inst)
                && VarsOf(w, at.inst)[User(loop.collection)].List?
                && next < |VarsOf(w, at.inst)[User(loop.collection)].items| ==>
                  WorksOn(w1, at.inst, loop.elementVariable, VarsOf(w, at.inst)[User(loop.collection)].items[next]))
  {
    hide CountCompletion, SequentialInstance, ConditionMet, SetVar, NumAt, VarsOf, WorksOn, Takes;
    var p := at.inst;
    var w1 := CountCompletion(w, p, id);
    CountCompletionParts(w, p, id);
    var next := NumAt(VarsOf(w, p), LoopVar(id, SeqIndex)) + 1;
    SequentialGives(env, w1, at, el, id, LoopItems(el.loop.value, VarsOf(w, p)), next,
        NumAt(VarsOf(w, p), LoopVar(id, SeqCount)));
    LogKept(w1, p, LoopVar(id, Live));
  }

  // ---- Completing an instance ----

  lemma FinishedInstance(w: World, w1: World, s: Session, ids: seq<nat>, done: set<nat>, i: nat)
    requires Bounded(w) && Instances(w, s, ids, done) && i < |ids| && w1.acts == FinishOne(w, ids[i]).acts
        && w1.next == w.next
    ensures Bounded(w1) && Instances(w1, s, ids, done + {i}) && LoopsAt(w1, s.at) - {s.id} == LoopsAt(w, s.at) - {s.id}
  {
    assert InstanceOk(w.acts[ids[i]], s, i, i in done);
  }

  lemma MergeNums(w: World, w1: World, p: nat, vars: Vars, k: VarName)
    requires CallerVars(vars) && w1.vars == MergeVars(w, p, vars).vars && !k.User?
    ensures NumAt(VarsOf(w1, p), k) == NumAt(VarsOf(w, p), k)
  {
  }

  lemma CountCompletionParts(w: World, p: nat, id: nat)
    ensures var w1 := CountCompletion(w, p, id);
            var before, after := VarsOf(w, p), VarsOf(w1, p);
            && w1.acts == w.acts && w1.next == w.next && w1.toks == w.toks && w1.log == w.log && w1.insts == w.insts
            && NumAt(after, LoopVar(id, Finished)) == NumAt(before, LoopVar(id, Finished)) + 1
            && NumAt(after, User("nrOfCompletedInstances")) == NumAt(before, LoopVar(id, Finished)) + 1
            && NumAt(after, User("nrOfActiveInstances")) == NumAt(before, LoopVar(id, Live)) - 1
            && NumAt(after, LoopVar(id, Live)) == NumAt(before, LoopVar(id, Live)) - 1
            && (forall f :: f != Finished && f != Live ==>
                NumAt(after, LoopVar(id, f)) == NumAt(before, LoopVar(id, f)))
  {
    hide SetCount, VarsOf;
    var vars := VarsOf(w, p);
    var k, live := NumAt(vars, LoopVar(id, Finished)) + 1, NumAt(vars, LoopVar(id, Live)) - 1;
    CountSet(w, p, id, Finished, "nrOfCompletedInstances", k);
    CountSet(SetCount(w, p, id, Finished, "nrOfCompletedInstances", k), p, id, Live, "nrOfActiveInstances", live);
    NamesDiffer();
  }

  lemma NamesDiffer()
    ensures "nrOfCompletedInstances" != "nrOfActiveInstances" && "nrOfInstances" != "nrOfActiveInstances"
    ensures "nrOfInstances" != "nrOfCompletedInstances"
  {
    assert "nrOfCompletedInstances"[4] != "nrOfActiveInstances"[4];
    assert "nrOfInstances"[4] != "nrOfActiveInstances"[4] && "nrOfInstances"[4] != "nrOfCompletedInstances"[4];
  }

  // With one completed instance the session's own loop is on record too.
  lemma LoopsOnRecord(w: World, s: Session, ids: seq<nat>, done: set<nat>)
    requires Instances(w, s, ids, done) && done != {} && LoopsAt(w, s.at) - {s.id} == s.past
    ensures LoopsAt(w, s.at) == s.past + {s.id}
  {
    var i :| i in done;
    assert InstanceOk(w.acts[ids[i]], s, i, true);
    assert s.id in LoopsAt(w, s.at);
  }

  // Of the loops on record, the engine finds the session's own when an instance is completed in this world.
  ghost predicate Found(env: Env, w: World, s: Session) {
    Pick(env, s.past + {s.id}, w.clock + 1) == s.id
  }

  // The completion condition, if there is one, looks at the number of completed instances only.
  ghost predicate StopsAt(env: Env, loop: Loop, stop: int -> bool) {
    forall vars: Vars ::
      loop.completionCondition != "" && env.cond(loop.completionCondition, vars) == Some(true) <==>
      stop(NumAt(vars, User("nrOfCompletedInstances")))
  }

  lemma ConditionStops(env: Env, loop: Loop, vars: Vars, stop: int -> bool)
    requires StopsAt(env, loop, stop)
    ensures ConditionMet(env, loop, vars) == stop(NumAt(vars, User("nrOfCompletedInstances")))
  {
  }

  // Nothing has changed but the loop's counters and the tokens at its task.
  ghost predicate OutsideLoop(w: World, w1: World, s: Session) {
    && w1.insts == w.insts && w1.acts == w.acts && w1.next == w.next
    && (forall x :: x != s.at ==> w1.toks[x] == w.toks[x])
    && (forall q :: q != s.at.inst ==> VarsOf(w1, q) == VarsOf(w, q))
    && SameButCounters(VarsOf(w, s.at.inst), VarsOf(w1, s.at.inst), s)
  }

  // The counters of a loop, under its own names and under the global ones.
  predicate CounterOf(k: VarName, s: Session) {
    || (k.LoopVar? && k.loop == s.id)
    || k == User("nrOfCompletedInstances") || k == User("nrOfActiveInstances")
  }

  ghost predicate SameButCounters(vars: Vars, vars1: Vars, s: Session) {
    forall k :: !CounterOf(k, s) ==> (k in vars1 <==> k in vars) && (k in vars ==> vars1[k] == vars[k])
  }

  lemma OutsideLoopTransitive(w: World, w1: World, w2: World, s: Session)
    requires OutsideLoop(w, w1, s) && OutsideLoop(w1, w2, s)
    ensures OutsideLoop(w, w2, s)
  {
    hide VarsOf, CounterOf;
  }

  lemma SetOutsideLoop(w: World, s: Session, k: VarName, v: Value)
    requires CounterOf(k, s)
    ensures OutsideLoop(w, SetVar(w, s.at.inst, k, v), s)
  {
    hide CounterOf;
  }

  lemma TokensOutsideLoop(w: World, w1: World, s: Session)
    requires w1 == w.(toks := w1.toks) && forall x :: x != s.at ==> w1.toks[x] == w.toks[x]
    ensures OutsideLoop(w, w1, s)
  {
    hide CounterOf;
  }

  lemma CountOutsideLoop(w: World, s: Session)
    ensures OutsideLoop(w, CountCompletion(w, s.at.inst, s.id), s)
  {
    hide OutsideLoop, SetVar, VarsOf, NumAt;
    var p := s.at.inst;
    var vars := VarsOf(w, p);
    var k := NumAt(vars, LoopVar(s.id, Finished)) + 1;
    var live := NumAt(vars, LoopVar(s.id, Live)) - 1;
    var w1 := SetVar(w, p, LoopVar(s.id, Finished), Num(k));
    SetOutsideLoop(w, s, LoopVar(s.id, Finished), Num(k));
    var w2 := SetVar(w1, p, User("nrOfCompletedInstances"), Num(k));
    SetOutsideLoop(w1, s, User("nrOfCompletedInstances"), Num(k));
    OutsideLoopTransitive(w, w1, w2, s);
    var w3 := SetVar(w2, p, LoopVar(s.id, Live), Num(live));
    SetOutsideLoop(w2, s, LoopVar(s.id, Live), Num(live));
    OutsideLoopTransitive(w, w2, w3, s);
    SetOutsideLoop(w3, s, User("nrOfActiveInstances"), Num(live));
    OutsideLoopTransitive(w, w3, CountCompletion(w, p, s.id), s);
  }

  // The loop lets all its tokens go.
  lemma LetGoOutsideLoop(w: World, s: Session)
    ensures var w1 := CountCompletion(w, s.at.inst, s.id);
            && OutsideLoop(w, DropAll(w1, s.at), s)
            && OutsideLoop(w, DropAll(SetVar(w1, s.at.inst, LoopVar(s.id, Live), Num(0)), s.at), s)
  {
    hide OutsideLoop, SetVar, CountCompletion;
    var w1 := CountCompletion(w, s.at.inst, s.id);
    CountOutsideLoop(w, s);
    TokensOutsideLoop(w1, DropAll(w1, s.at), s);
    OutsideLoopTransitive(w, w1, DropAll(w1, s.at), s);
    var w2 := SetVar(w1, s.at.inst, LoopVar(s.id, Live), Num(0));
    SetOutsideLoop(w1, s, LoopVar(s.id, Live), Num(0));
    OutsideLoopTransitive(w, w1, w2, s);
    TokensOutsideLoop(w2, DropAll(w2, s.at), s);
    OutsideLoopTransitive(w, w2, DropAll(w2, s.at), s);
  }

  // The counters after the k-th completion.
  ghost predicate CountersAfter(vars: Vars, s: Session, k: nat) {
    && NumAt(vars, LoopVar(s.id, Finished)) == k && NumAt(vars, LoopVar(s.id, Total)) == s.n
    && (s.sequential ==> NumAt(vars, LoopVar(s.id, SeqIndex)) == k - 1 && NumAt(vars, LoopVar(s.id, SeqCount)) == s.n)
  }

  lemma CountersAfterParts(w: World, s: Session, k: nat)
    requires k > 0 && Counters(VarsOf(w, s.at.inst), s, k - 1)
    ensures var w1 := CountCompletion(w, s.at.inst, s.id);
            && CountersAfter(VarsOf(DropAll(w1, s.at), s.at.inst), s, k)
            && CountersAfter(VarsOf(DropAll(SetVar(w1, s.at.inst, LoopVar(s.id, Live), Num(0)), s.at), s.at.inst), s, k)
  {
    hide CountCompletion, SetVar;
    var w1 := CountCompletion(w, s.at.inst, s.id);
    CountCompletionParts(w, s.at.inst, s.id);
    VarsSet(w1, s.at.inst, LoopVar(s.id, Live), Num(0));
  }

  // One more instance is complete, and the engine decides how to go on.
  lemma AdvanceDecides(env: Env, w: World, s: Session, el: Element, out: seq<Flow>, ids: seq<nat>, done: set<nat>,
      stop: int -> bool)
    returns (ids1: seq<nat>)
    requires el.UserTask? && el.loop.Some? && s.sequential == el.loop.value.sequential
        && StopsAt(env, el.loop.value, stop)
    requires Bounded(w) && Instances(w, s, ids, done) && done != {} && Counters(VarsOf(w, s.at.inst), s, |done| - 1)
    requires |ids| == (if s.sequential then |done| else s.n) && |done| <= s.n && LoopsAt(w, s.at) - {s.id} == s.past
    requires s.sequential ==> forall i: nat :: i in done <==> i < |done|
    ensures var p := s.at.inst;
            var step := AdvanceLoop(env, w, s.at, el, s.id, out);
            if stop(|done|) || |done| == s.n
            then exists w1 ::
              && step == Leave(w1, s.at, out) && s.at !in w1.toks && w1.log == w.log && OutsideLoop(w, w1, s)
              && CountersAfter(VarsOf(w1, p), s, |done|)
            else
              && step.Go? && step.jobs == [] && step.w.log == w.log && InLoop(step.w, s, ids1, done) && ids <= ids1
              && step.w.toks[s.at] == w.toks[s.at] + if s.sequential then 1 else 0
  {
    hide VarsOf, NumAt, CountCompletion, SequentialInstance, LoopItems, SetVar, ConditionMet, Leave, Instances,
        OutsideLoop, LoopsAt, CountersAfter;
    var p := s.at.inst;
    var vars := VarsOf(w, p);
    var loop := el.loop.value;
    var w1 := CountCompletion(w, p, s.id);
    LetGoOutsideLoop(w, s);
    CountersAfterParts(w, s, |done|);
    CountCompletionParts(w, p, s.id);
    ConditionStops(env, loop, VarsOf(w1, p), stop);
    hide StopsAt;
    SameInstances(w, w1, s, ids, done);
    ids1 := ids;
    if stop(|done|) {
      VarsSet(w1, p, LoopVar(s.id, Live), Num(0));
    } else if |done| < s.n && s.sequential {
      SequentialParts(env, w1, s, el, LoopItems(loop, vars), |done|, ids, done);
      ids1 := ids + [w1.next];
    }
  }

  // The world a completed instance leaves behind, before the loop advances.
  ghost function Uncounted(w: World, a: nat, vars: Vars): World
    requires a in w.acts && w.acts[a].at.inst in w.insts
  {
    var at := w.acts[a].at;
    DropOne(DropOne(Submit(FinishOne(w, a), at.inst, vars), at), at)
  }

  lemma UncountedParts(w: World, p: nat, a: nat, vars: Vars)
    requires a in w.acts && w.acts[a].at.inst == p && p in w.insts && CallerVars(vars)
    ensures var w1 := Uncounted(w, a, vars);
            && w1.acts == FinishOne(w, a).acts && w1.next == w.next && w1.log == w.log && w1.clock == w.clock + 1
                && w1.vars == MergeVars(w, p, vars).vars
            && p in w1.insts && w1.insts[p].state == w.insts[p].state && w1.insts[p].def == w.insts[p].def
  {
    hide FinishOne, MergeVars;
    FinishOneKeeps(w, a);
    MergeParts(w, FinishOne(w, a), p, vars);
  }

  // p runs a definition in which the session's element is a multi-instance task of the session's mode.
  ghost predicate LoopPlace(env: Env, w: World, p: nat, def: Definition, s: Session) {
    && s.at.inst == p && p in w.insts && w.insts[p].state == Running && w.insts[p].def in env.defs
        && env.defs[w.insts[p].def] == def
    && TaskAt(def, s.at.elem) && def.elements[s.at.elem].loop.Some?
        && def.elements[s.at.elem].loop.value.sequential == s.sequential
  }

  lemma CompleteAdvances(env: Env, w: World, p: nat, def: Definition, s: Session, ids: seq<nat>, done: set<nat>,
      i: nat, vars: Vars)
    requires LoopPlace(env, w, p, def, s) && InLoop(w, s, ids, done) && i < |ids| && FreeTask(env, w, p, ids[i])
        && CallerVars(vars)
    ensures ids[i] in w.acts && w.acts[ids[i]].at == s.at && i !in done && s.past + {s.id} != {}
    ensures var w0 := DropOne(Submit(FinishOne(w, ids[i]), p, vars), s.at);
            && PrepComplete(env, w, ids[i], vars) == Go(w0, [Nav(p, s.at.elem)])
            && NavStep(env, w0, p, s.at.elem)
               == AdvanceLoop(env, Uncounted(w, ids[i], vars), s.at, def.elements[s.at.elem],
                   Pick(env, s.past + {s.id}, w.clock + 1), FlowsFrom(def.flows, s.at.elem))
  {
    hide FlowsFrom, AdvanceLoop, PrepComplete, Counters, MergeVars, FinishOne, FreeTask, Submit, NavStep, LoopsAt;
    var a := ids[i];
    FreePrep(env, w, p, a, vars);
    assert InstanceOk(w.acts[ids[i]], s, i, i in done);
    FreeInst(env, w, p, a);
    var w4 := Uncounted(w, a, vars);
    UncountedParts(w, p, a, vars);
    FinishedInstance(w, w4, s, ids, done, i);
    LoopsOnRecord(w4, s, ids, done + {i});
    SubmittedPlace(env, w, p, def, s, a, vars);
    NavAdvances(env, DropOne(Submit(FinishOne(w, a), p, vars), s.at), p, def, s);
  }

  lemma SubmittedPlace(env: Env, w: World, p: nat, def: Definition, s: Session, a: nat, vars: Vars)
    requires LoopPlace(env, w, p, def, s) && a in w.acts
    ensures LoopPlace(env, DropOne(Submit(FinishOne(w, a), p, vars), s.at), p, def, s)
  {
    hide FinishOne, MergeVars;
    FinishOneKeeps(w, a);
    MergeParts(w, FinishOne(w, a), p, vars);
  }

  lemma NavAdvances(env: Env, w: World, p: nat, def: Definition, s: Session)
    requires LoopPlace(env, w, p, def, s) && LoopsAt(DropOne(w, s.at), s.at) == s.past + {s.id}
    ensures NavStep(env, w, p, s.at.elem)
            == AdvanceLoop(env, DropOne(w, s.at), s.at, def.elements[s.at.elem],
                Pick(env, s.past + {s.id}, w.clock), FlowsFrom(def.flows, s.at.elem))
  {
    hide FlowsFrom, AdvanceLoop, LoopsAt, Pick;
  }

  // One completion in a session: unless it is the last, or the condition stops the loop, the session goes on
  // and no flow is followed; otherwise all the tokens go and the flows are followed.
  lemma LoopCompletes(env: Env, w: World, p: nat, def: Definition, s: Session, ids: seq<nat>, done: set<nat>, i: nat,
                      vars: Vars, stop: int -> bool, n: nat) returns (ids1: seq<nat>)
    requires LoopPlace(env, w, p, def, s) && InLoop(w, s, ids, done) && Found(env, w, s)
        && StopsAt(env, def.elements[s.at.elem].loop.value, stop)
    requires i < |ids| && FreeTask(env, w, p, ids[i]) && CallerVars(vars)
        && Apply(env, w, Complete(ids[i], vars), n) != More
    ensures i !in done && ids[i] in w.acts && p in w.insts
    ensures var o := Apply(env, w, Complete(ids[i], vars), n);
            var out := FlowsFrom(def.flows, s.at.elem);
            var k := |done| + 1;
            if stop(k) || k == s.n then LoopDeparts(env, w, p, s, k, ids[i], vars, out, o, n)
            else
              && o.Ended? && LoopPlace(env, o.w, p, def, s) && o.w.log == w.log && InLoop(o.w, s, ids1, done + {i})
              && ids <= ids1
  {
    hide FlowsFrom, AdvanceLoop, PrepComplete, NavStep, Exec, FreeTask, Uncounted, Submit, FinishOne, StopsAt,
        Counters, Instances, Leave, LoopDeparts, OutsideLoop;
    var a := ids[i];
    var el := def.elements[s.at.elem];
    var out := FlowsFrom(def.flows, s.at.elem);
    CompleteAdvances(env, w, p, def, s, ids, done, i, vars);
    var w0 := DropOne(Submit(FinishOne(w, a), p, vars), s.at);
    ExecNav(env, w0, s.at, n);
    var w4 := Uncounted(w, a, vars);
    CountedUp(w, w4, p, s, ids, done, i, vars);
    ids1 := AdvanceDecides(env, w4, s, el, out, ids, done + {i}, stop);
    var step := AdvanceLoop(env, w4, s.at, el, s.id, out);
    if stop(|done| + 1) || |done| + 1 == s.n {
      var w5 :| step == Leave(w5, s.at, out) && s.at !in w5.toks && w5.log == w4.log && OutsideLoop(w4, w5, s)
        && CountersAfter(VarsOf(w5, p), s, |done| + 1);
      UncountedOutsideLoop(w, p, s, a, vars);
      OutsideLoopTransitive(Submit(FinishOne(w, a), p, vars), w4, w5, s);
      LeavesFor(env, w, w5, p, s, |done| + 1, a, vars, out, n);
    } else {
      ExecNone(env, step.w, n - 1);
      AdvanceLoopLocal(env, w4, s.at, el, s.id, out);
      SubmittedPlace(env, w, p, def, s, a, vars);
      UncountedInsts(w, a, vars);
    }
  }

  // Activity a has been completed with these variables. The tokens at the place are gone, its flows have been
  // followed once more, and they are taken next; the loop's counters are those of k completions, and all else is as
  // the completion has left it.
  ghost predicate LoopDeparts(env: Env, w: World, p: nat, s: Session, k: nat, a: nat, vars: Vars, out: seq<Flow>,
      o: Outcome, n: nat)
    requires a in w.acts && p in w.insts
  {
    exists w1: World ::
      && n > 0 && RunsOn(w, Exec(env, w1, LeftJobs(p, out), n - 1), o)
      && w1.log == w.log + [Follow(s.at)] && s.at !in w1.toks
      && OutsideLoop(Submit(FinishOne(w, a), p, vars), w1, s) && CountersAfter(VarsOf(w1, p), s, k)
  }

  lemma LeavesFor(env: Env, w: World, w5: World, p: nat, s: Session, k: nat, a: nat, vars: Vars, out: seq<Flow>, n: nat)
    requires s.at.inst == p && s.at !in w5.toks && w5.log == w.log && n > 0 && a in w.acts && p in w.insts
    requires OutsideLoop(Submit(FinishOne(w, a), p, vars), w5, s) && CountersAfter(VarsOf(w5, p), s, k)
    ensures forall o :: RunsOn(w, Finish(env, Leave(w5, s.at, out), n - 1), o) ==>
              LoopDeparts(env, w, p, s, k, a, vars, out, o, n)
  {
    hide Takes, Exec, OutsideLoop, Submit, FinishOne;
    var w1 := Leave(w5, s.at, out).w;
    assert Finish(env, Leave(w5, s.at, out), n - 1) == Exec(env, w1, LeftJobs(p, out), n - 1);
    LeaveOutsideLoop(w5, s, out);
    OutsideLoopTransitive(Submit(FinishOne(w, a), p, vars), w5, w1, s);
  }

  lemma LeaveOutsideLoop(w: World, s: Session, out: seq<Flow>)
    ensures OutsideLoop(w, Leave(w, s.at, out).w, s)
  {
    hide Takes, OutsideLoop;
    var w1 := Logged(w, Follow(s.at));
    LoggedOutsideLoop(w, s, Follow(s.at));
    TokensOutsideLoop(w1, DropOne(w1, s.at), s);
    OutsideLoopTransitive(w, w1, DropOne(w1, s.at), s);
  }

  lemma LoggedOutsideLoop(w: World, s: Session, e: Event)
    ensures OutsideLoop(w, Logged(w, e), s)
  {
    hide CounterOf;
  }

  lemma UncountedOutsideLoop(w: World, p: nat, s: Session, a: nat, vars: Vars)
    requires a in w.acts && w.acts[a].at == s.at && s.at.inst == p && p in w.insts
    ensures OutsideLoop(Submit(FinishOne(w, a), p, vars), Uncounted(w, a, vars), s)
  {
    hide OutsideLoop, Submit, FinishOne;
    TokensOutsideLoop(Submit(FinishOne(w, a), p, vars), Uncounted(w, a, vars), s);
  }

  lemma UncountedInsts(w: World, a: nat, vars: Vars)
    requires a in w.acts && w.acts[a].at.inst in w.insts
    ensures Uncounted(w, a, vars).insts == DropOne(Submit(FinishOne(w, a), w.acts[a].at.inst, vars), w.acts[a].at).insts
  {
    hide FinishOne, MergeVars;
  }

  lemma CountedUp(w: World, w4: World, p: nat, s: Session, ids: seq<nat>, done: set<nat>, i: nat, vars: Vars)
    requires InLoop(w, s, ids, done) && s.at.inst == p && p in w.insts && i < |ids| && ids[i] in w.acts
        && w.acts[ids[i]].at == s.at
    requires CallerVars(vars) && i !in done && w4 == Uncounted(w, ids[i], vars)
    ensures Bounded(w4) && Instances(w4, s, ids, done + {i}) && w4.log == w.log
    ensures Counters(VarsOf(w4, p), s, |done + {i}| - 1) && |done + {i}| == |done| + 1
    ensures |ids| == (if s.sequential then |done + {i}| else s.n) && LoopsAt(w4, s.at) - {s.id} == s.past
    ensures s.sequential ==> forall j: nat :: j in done + {i} <==> j < |done + {i}|
  {
    hide Uncounted, FinishOne, MergeVars, VarsOf, NumAt, Instances;
    UncountedParts(w, p, ids[i], vars);
    FinishedInstance(w, w4, s, ids, done, i);
    forall f ensures NumAt(VarsOf(w4, p), LoopVar(s.id, f)) == NumAt(VarsOf(w, p), LoopVar(s.id, f)) {
      MergeNums(w, w4, p, vars, LoopVar(s.id, f));
    }
  }

  // ---- Sessions after the first ----

  // A loop that has counted all its instances, as it has when a session ends with its last one (`CountersAfter`).
  ghost predicate Exhausted(vars: Vars, l: nat, sequential: bool) {
    && NumAt(vars, LoopVar(l, Finished)) >= NumAt(vars, LoopVar(l, Total))
    && (sequential ==> NumAt(vars, LoopVar(l, SeqIndex)) + 1 >= NumAt(vars, LoopVar(l, SeqCount)))
  }

  lemma AdvancePast(env: Env, w: World, at: Place, el: Element, l: nat, out: seq<Flow>)
    requires el.UserTask? && el.loop.Some? && Exhausted(VarsOf(w, at.inst), l, el.loop.value.sequential)
    ensures exists w1 :: AdvanceLoop(env, w, at, el, l, out) == Leave(w1, at, out) && at !in w1.toks && w1.log == w.log
  {
    hide VarsOf, SetCount, ConditionMet, SequentialInstance, LoopItems, Leave, SetVar;
    var w1 := CountCompletion(w, at.inst, l);
    CountCompletionParts(w, at.inst, l);
    assert at !in DropAll(w1, at).toks;
    var w2 := SetVar(w1, at.inst, LoopVar(l, Live), Num(0));
    LogKept(w1, at.inst, LoopVar(l, Live));
    assert at !in DropAll(w2, at).toks;
  }

  lemma LogKept(w: World, p: nat, k: VarName)
    ensures SetVar(w, p, k, Num(0)).log == w.log
  {
  }

  // A completion that is neither the last of its session nor stops it. When earlier loops at the task have counted
  // all their instances, the session goes on exactly when the engine finds the session's own loop on record this
  // time. Otherwise it takes the completion for one of an earlier loop, all tokens go and the flows behind the
  // task are followed with the other instances still to be done.
  lemma NextCompletion(env: Env, w: World, p: nat, def: Definition, s: Session, ids: seq<nat>, done: set<nat>, i: nat,
      vars: Vars, stop: int -> bool, n: nat)
    requires LoopPlace(env, w, p, def, s) && InLoop(w, s, ids, done) && |done| + 1 < s.n && !stop(|done| + 1)
        && StopsAt(env, def.elements[s.at.elem].loop.value, stop)
    requires forall l :: l in s.past ==> Exhausted(VarsOf(w, p), l, s.sequential)
    requires i < |ids| && FreeTask(env, w, p, ids[i]) && CallerVars(vars)
        && Apply(env, w, Complete(ids[i], vars), n) != More
    ensures p in w.insts
    ensures var o := Apply(env, w, Complete(ids[i], vars), n);
            if Found(env, w, s) then o.Ended? && o.w.log == w.log && exists ids1 :: InLoop(o.w, s, ids1, done + {i})
            else FollowsNow(env, w, p, s, FlowsFrom(def.flows, s.at.elem), o, n)
  {
    hide FlowsFrom, AdvanceLoop, PrepComplete, NavStep, Exec, FreeTask, Uncounted, Submit, FinishOne, StopsAt,
        Counters, Instances, Leave, LoopDeparts, OutsideLoop, InLoop, LoopsAt, Exhausted, Apply;
    if Found(env, w, s) {
      var ids1 := LoopCompletes(env, w, p, def, s, ids, done, i, vars, stop, n);
    } else {
      PastCompletion(env, w, p, def, s, ids, done, i, vars, n);
    }
  }

  // The flows of the session's task are followed at once, and no token is left there.
  ghost predicate FollowsNow(env: Env, w: World, p: nat, s: Session, out: seq<Flow>, o: Outcome, n: nat)
    requires p in w.insts
  {
    exists w1: World ::
      && n > 0 && RunsOn(w, Exec(env, w1, LeftJobs(p, out), n - 1), o)
      && w1.log == w.log + [Follow(s.at)] && s.at !in w1.toks
  }

  lemma PastCompletion(env: Env, w: World, p: nat, def: Definition, s: Session, ids: seq<nat>, done: set<nat>, i: nat,
      vars: Vars, n: nat)
    requires LoopPlace(env, w, p, def, s) && InLoop(w, s, ids, done) && !Found(env, w, s)
    requires forall l :: l in s.past ==> Exhausted(VarsOf(w, p), l, s.sequential)
    requires i < |ids| && FreeTask(env, w, p, ids[i]) && CallerVars(vars)
        && Apply(env, w, Complete(ids[i], vars), n) != More
    ensures FollowsNow(env, w, p, s, FlowsFrom(def.flows, s.at.elem), Apply(env, w, Complete(ids[i], vars), n), n)
  {
    hide FlowsFrom, AdvanceLoop, PrepComplete, NavStep, Exec, FreeTask, Uncounted, Submit, FinishOne, Counters,
        Instances, Leave, LoopsAt, NumAt, VarsOf, InLoop;
    var a := ids[i];
    var el := def.elements[s.at.elem];
    var out := FlowsFrom(def.flows, s.at.elem);
    CompleteAdvances(env, w, p, def, s, ids, done, i, vars);
    ExecNav(env, DropOne(Submit(FinishOne(w, a), p, vars), s.at), s.at, n);
    var w4 := Uncounted(w, a, vars);
    UncountedParts(w, p, a, vars);
    var l := Pick(env, s.past + {s.id}, w.clock + 1);
    assert l in s.past;
    forall f ensures NumAt(VarsOf(w4, p), LoopVar(l, f)) == NumAt(VarsOf(w, p), LoopVar(l, f)) {
      MergeNums(w, w4, p, vars, LoopVar(l, f));
    }
    AdvancePast(env, w4, s.at, el, l, out);
    var w5 :| AdvanceLoop(env, w4, s.at, el, l, out) == Leave(w5, s.at, out) && s.at !in w5.toks && w5.log == w4.log;
    LeavesNow(env, w, w5, p, s, out, n);
  }

  lemma LeavesNow(env: Env, w: World, w5: World, p: nat, s: Session, out: seq<Flow>, n: nat)
    requires s.at.inst == p && s.at !in w5.toks && w5.log == w.log && n > 0 && p in w.insts
    ensures forall o :: RunsOn(w, Finish(env, Leave(w5, s.at, out), n - 1), o) ==> FollowsNow(env, w, p, s, out, o, n)
  {
    hide Takes, Exec;
    var w1 := Leave(w5, s.at, out).w;
    assert Finish(env, Leave(w5, s.at, out), n - 1) == Exec(env, w1, LeftJobs(p, out), n - 1);
  }

  // ---- A whole session ----

  // How many instances are active: one in sequential mode, and otherwise all that are not complete.
  lemma ActiveCount(w: World, s: Session, ids: seq<nat>, done: set<nat>)
    requires InLoop(w, s, ids, done)
    ensures |ActiveAt(w, s.at)| == (if s.sequential then 1 else s.n - |done|)
    ensures s.sequential ==>
          ids[|done|] in w.acts && w.acts[ids[|done|]].state == Active
          && w.acts[ids[|done|]].counter == |done|
  {
    hide Counters;
    assert ActiveAt(w, s.at) == Others(ids, done) by {
      forall a ensures a in ActiveAt(w, s.at) <==> a in Others(ids, done) { IsOther(w, s, ids, done, a); }
    }
    OthersCount(ids, done);
    if s.sequential { assert InstanceOk(w.acts[ids[|done|]], s, |done|, false); }
  }

  ghost function Others(ids: seq<nat>, done: set<nat>): set<nat> {
    if ids == [] then {}
    else
      var last := |ids| - 1;
      Others(ids[..last], done - {last}) + (if last in done then {} else {ids[last]})
  }

  lemma {:induction false} InOthers(ids: seq<nat>, done: set<nat>, a: nat)
    ensures a in Others(ids, done) <==> exists i :: 0 <= i < |ids| && ids[i] == a && i !in done
  {
    if ids != [] {
      var last := |ids| - 1;
      InOthers(ids[..last], done - {last}, a);
      if last !in done && ids[last] == a {
      } else if exists i :: 0 <= i < |ids| && ids[i] == a && i !in done {
        var i :| 0 <= i < |ids| && ids[i] == a && i !in done;
        assert ids[..last][i] == a;
      }
    }
  }

  lemma IsOther(w: World, s: Session, ids: seq<nat>, done: set<nat>, a: nat)
    requires Instances(w, s, ids, done)
    ensures a in ActiveAt(w, s.at) <==> a in Others(ids, done)
  {
    hide Others;
    InOthers(ids, done, a);
    forall i | 0 <= i < |ids| ensures InstanceOk(w.acts[ids[i]], s, i, i in done) && ids[i] in ids {}
  }

  lemma {:induction false} OthersCount(ids: seq<nat>, done: set<nat>)
    requires forall i, j :: 0 <= i < j < |ids| ==> ids[i] != ids[j]
    requires forall i :: i in done ==> i < |ids|
    ensures |Others(ids, done)| == |ids| - |done|
  {
    if ids == [] {
      assert done == {};
    } else {
      var last := |ids| - 1;
      OthersCount(ids[..last], done - {last});
      InOthers(ids[..last], done - {last}, ids[last]);
    }
  }

  // A completion of one of the session's instances.
  ghost predicate CompletesOne(env: Env, w: World, p: nat, s: Session, op: Op, o: Outcome, n: nat) {
    && op.Complete? && CallerVars(op.vars) && FreeTask(env, w, p, op.act) && w.acts[op.act].at == s.at
    && o == Apply(env, w, op, n) && o != More
  }

  lemma WhichInstance(env: Env, w: World, p: nat, s: Session, ids: seq<nat>, done: set<nat>, a: nat) returns (i: nat)
    requires InLoop(w, s, ids, done) && FreeTask(env, w, p, a) && w.acts[a].at == s.at
    ensures i < |ids| && ids[i] == a
  {
    hide Counters, ActiveSigns, Delegated;
    i :| 0 <= i < |ids| && ids[i] == a;
  }

  // Operations on other instances leave a session alone.
  lemma SessionMeanwhile(env: Env, w: World, w1: World, p: nat, def: Definition, s: Session, ids: seq<nat>,
      done: set<nat>)
    requires LoopPlace(env, w, p, def, s) && InLoop(w, s, ids, done) && Meanwhile(env, w, w1, p)
    ensures LoopPlace(env, w1, p, def, s) && InLoop(w1, s, ids, done)
    ensures Count(w1.log, Follow(s.at)) == Count(w.log, Follow(s.at))
  {
    hide Untouched, InLoop, Meanwhile, Count, Known, Wf;
    MeanwhileUntouched(env, w, w1, p);
    if w1 != w {
      UntouchedLoop(env, w, w1, p, def, s, ids, done);
    }
  }

  lemma UntouchedLoop(env: Env, w: World, w1: World, p: nat, def: Definition, s: Session, ids: seq<nat>, done: set<nat>)
    requires LoopPlace(env, w, p, def, s) && InLoop(w, s, ids, done) && Untouched(w, w1, p) && Known(w1)
    ensures LoopPlace(env, w1, p, def, s) && InLoop(w1, s, ids, done)
    ensures Count(w1.log, Follow(s.at)) == Count(w.log, Follow(s.at))
  {
    hide Counters, Count, TokensKnown, VarsKnown, LogKnown, SignsBeside, VarsOf;
    assert Follow(s.at).at.inst == p;
    forall i | 0 <= i < |ids| ensures ids[i] in w1.acts && InstanceOk(w1.acts[ids[i]], s, i, i in done) {
      assert ids[i] in w.acts && InstanceOk(w.acts[ids[i]], s, i, i in done);
    }
  }

  // While no count up to j stops the loop, j completions in any order, with any operations on other instances in
  // between, leave the session open with j instances complete, and no flow of the task has been followed.
  lemma {:induction false} SessionRun(env: Env, ws: seq<World>, mids: seq<World>, ops: seq<Op>, ns: seq<nat>, p: nat,
      def: Definition, s: Session, ids: seq<nat>, stop: int -> bool, j: nat) returns (ids1: seq<nat>, done: set<nat>)
    requires |ws| == |ops| + 1 == |ns| + 1 == |mids| + 1 && j <= |ops|
    requires LoopPlace(env, ws[0], p, def, s) && InLoop(ws[0], s, ids, {})
        && StopsAt(env, def.elements[s.at.elem].loop.value, stop)
    requires forall i :: 0 <= i < j ==> Found(env, ws[i], s)
    requires forall i :: 0 <= i < j ==>
               CompletesOne(env, ws[i], p, s, ops[i], Ended(mids[i]), ns[i]) && Meanwhile(env, mids[i], ws[i + 1], p)
    requires j < s.n && forall k :: 1 <= k <= j ==> !stop(k)
    ensures LoopPlace(env, ws[j], p, def, s) && InLoop(ws[j], s, ids1, done) && |done| == j && ids <= ids1
    ensures Count(ws[j].log, Follow(s.at)) == Count(ws[0].log, Follow(s.at))
  {
    hide Apply, InLoop, StopsAt, FreeTask, LoopPlace, LoopDeparts, Meanwhile, Count;
    ids1, done := ids, {};
    if j > 0 {
      ids1, done := SessionRun(env, ws, mids, ops, ns, p, def, s, ids, stop, j - 1);
      var op := ops[j - 1];
      assert CompletesOne(env, ws[j - 1], p, s, op, Ended(mids[j - 1]), ns[j - 1])
          && Meanwhile(env, mids[j - 1], ws[j - 1 + 1], p);
      var i := WhichInstance(env, ws[j - 1], p, s, ids1, done, op.act);
      var before := ids1;
      ids1 := LoopCompletes(env, ws[j - 1], p, def, s, before, done, i, op.vars, stop, ns[j - 1]);
      done := done + {i};
      SessionMeanwhile(env, mids[j - 1], ws[j], p, def, s, ids1, done);
    }
  }

  // Let m be the first count that stops the loop, or else the number of instances. Then the flows behind the
  // task are followed with the m-th completion, in whatever order the instances are completed, and not before.
  lemma SessionLaw(env: Env, ws: seq<World>, mids: seq<World>, ops: seq<Op>, ns: seq<nat>, p: nat, def: Definition,
      s: Session, ids: seq<nat>, stop: int -> bool, m: nat, last: Outcome)
    requires 1 <= m == |ws| == |ops| == |ns| == |mids| + 1
    requires LoopPlace(env, ws[0], p, def, s) && InLoop(ws[0], s, ids, {})
        && StopsAt(env, def.elements[s.at.elem].loop.value, stop)
    requires m <= s.n && (stop(m) || m == s.n) && forall k :: 1 <= k < m ==> !stop(k)
    requires forall i :: 0 <= i < m - 1 ==>
               CompletesOne(env, ws[i], p, s, ops[i], Ended(mids[i]), ns[i]) && Meanwhile(env, mids[i], ws[i + 1], p)
    requires CompletesOne(env, ws[m - 1], p, s, ops[m - 1], last, ns[m - 1])
    requires forall i :: 0 <= i < m ==> Found(env, ws[i], s)
    ensures forall j :: 0 <= j < m ==> Count(ws[j].log, Follow(s.at)) == Count(ws[0].log, Follow(s.at))
    ensures LoopPlace(env, ws[m - 1], p, def, s)
    ensures ops[m - 1].Complete? && ops[m - 1].act in ws[m - 1].acts && p in ws[m - 1].insts
    ensures LoopDeparts(env, ws[m - 1], p, s, m, ops[m - 1].act, ops[m - 1].vars, FlowsFrom(def.flows, s.at.elem), last,
                    ns[m - 1])
  {
    hide Apply, InLoop, StopsAt, FreeTask, LoopPlace, LoopDeparts, FlowsFrom, Meanwhile, Count;
    forall j | 0 <= j < m ensures Count(ws[j].log, Follow(s.at)) == Count(ws[0].log, Follow(s.at)) {
      var ids1, done := SessionRun(env, ws, mids, ops[..m - 1], ns[..m - 1], p, def, s, ids, stop, j);
    }
    var ids1, done := SessionRun(env, ws, mids, ops[..m - 1], ns[..m - 1], p, def, s, ids, stop, m - 1);
    var op := ops[m - 1];
    var i := WhichInstance(env, ws[m - 1], p, s, ids1, done, op.act);
    var ids2 := LoopCompletes(env, ws[m - 1], p, def, s, ids1, done, i, op.vars, stop, ns[m - 1]);
  }
}
