// What a step, a navigation or an operation leaves alone: everything that is not at the place, or not of the
// instance, that it concerns.

module Frames {
  import opened Spec
  import opened Model
  import opened Machine
  import opened Lifecycle
  import opened TokenGame

  // ---- What a step touches ----

  predicate About(e: Event, at: Place) {
    e == Arrive(at) || e == Follow(at)
  }

  // Activities that were there stay as they are; new ones are at this place and sign for no other.
  ghost predicate ActsNear(w: World, w1: World, at: Place) {
    && (forall a :: a in w.acts && a < w.next ==> a in w1.acts && w1.acts[a] == w.acts[a])
    && (forall a :: a in w1.acts && (a in w.acts ==> w1.acts[a] != w.acts[a]) ==>
          w.next <= a && w1.acts[a].at == at && w1.acts[a].adhoc.None?)
  }

  // The variables a step may write: the counter of this join, who may claim a new task, the counters of loops,
  // and the caller's own, where a loop puts the item an instance works on.
  predicate Writable(k: VarName, at: Place) {
    k.User? || k.LoopVar? || k.Candidates? || k == GwArrived(at.elem)
  }

  // Variables of other instances, the counters of other joins, delegations, sign sessions, and what rejections
  // and other moves have noted stay as they are.
  ghost predicate VarsNear(w: World, w1: World, at: Place) {
    && (forall x :: x != at ==> Arrived(w1, x) == Arrived(w, x))
    && (forall k :: !Writable(k, at) ==>
          (k in VarsOf(w1, at.inst) <==> k in VarsOf(w, at.inst))
          && (k in VarsOf(w, at.inst) ==> VarsOf(w1, at.inst)[k] == VarsOf(w, at.inst)[k]))
    && (forall q :: q != at.inst ==> VarsOf(w1, q) == VarsOf(w, q))
  }

  // The history grows, and only by entries about this place.
  ghost predicate LogNear(log: seq<Event>, log1: seq<Event>, at: Place) {
    && |log| <= |log1| && log1[..|log|] == log
    && forall i :: |log| <= i < |log1| ==> About(log1[i], at)
  }

  // The step changes tokens and counters and creates activities at one place only, and records only that it
  // was reached or left.
  ghost predicate Near(w: World, w1: World, at: Place) {
    && w1.insts == w.insts && w.next <= w1.next
    && (forall x :: x != at ==> w1.toks[x] == w.toks[x])
    && ActsNear(w, w1, at) && VarsNear(w, w1, at) && LogNear(w.log, w1.log, at)
  }

  lemma NearTransitive(w: World, w1: World, w2: World, at: Place)
    requires Near(w, w1, at) && Near(w1, w2, at)
    ensures Near(w, w2, at)
  {
    hide VarsOf, Arrived;
    assert w2.log[..|w.log|] == w1.log[..|w.log|];
  }

  lemma SelfNear(w: World, at: Place)
    ensures Near(w, w, at)
  {
  }

  lemma TokensNear(w: World, w1: World, at: Place)
    requires w1 == w.(toks := w1.toks) && forall x :: x != at ==> w1.toks[x] == w.toks[x]
    ensures Near(w, w1, at)
  {
  }

  lemma DropNear(w: World, at: Place)
    ensures Near(w, DropOne(w, at), at) && Near(w, DropAll(w, at), at)
  {
    hide Near;
    TokensNear(w, DropOne(w, at), at);
    TokensNear(w, DropAll(w, at), at);
  }

  lemma SetNear(w: World, p: nat, k: VarName, v: Value, at: Place)
    requires p == at.inst && Writable(k, at)
    ensures Near(w, SetVar(w, p, k, v), at)
  {
  }

  lemma DelNear(w: World, p: nat, ks: set<VarName>, at: Place)
    requires p == at.inst && forall k :: k in ks ==> Writable(k, at)
    ensures Near(w, DelVars(w, p, ks), at)
  {
  }

  lemma LoggedNear(w: World, e: Event, at: Place)
    requires About(e, at)
    ensures Near(w, Logged(w, e), at)
  {
  }

  lemma LeaveNear(w: World, at: Place, out: seq<Flow>)
    ensures Near(w, Leave(w, at, out).w, at) && Near(w, Proceed(w, at, out).w, at)
  {
    hide Near, Takes, DropOne;
    var w1 := Logged(w, Follow(at));
    LoggedNear(w, Follow(at), at);
    DropNear(w1, at);
    NearTransitive(w, w1, DropOne(w1, at), at);
  }

  lemma PassNear(w: World, at: Place)
    ensures Near(w, Logged(DropAll(w, at), Follow(at)), at)
  {
    hide Near, DropAll;
    DropNear(w, at);
    LoggedNear(DropAll(w, at), Follow(at), at);
    NearTransitive(w, DropAll(w, at), Logged(DropAll(w, at), Follow(at)), at);
  }

  lemma ChoiceNear(env: Env, w: World, at: Place, default: string, out: seq<Flow>)
    ensures Near(w, ExclusiveStep(env, w, at, default, out).w, at)
    ensures Near(w, InclusiveStep(env, w, at, default, out).w, at)
  {
    hide Near, ExclusiveChoice, InclusiveFlows, DropAll, Takes;
    SelfNear(w, at);
    DropNear(w, at);
    PassNear(w, at);
  }

  lemma ParallelNear(w: World, at: Place, fanIn: nat, out: seq<Flow>)
    ensures Near(w, ParallelStep(w, at, fanIn, out).w, at)
  {
    hide Near, SetVar, DelVars, DropAll, Takes, NumAt, VarsOf;
    var p := at.inst;
    var arrived := NumAt(VarsOf(w, p), GwArrived(at.elem)) + 1;
    var w1 := SetVar(w, p, GwArrived(at.elem), Num(arrived));
    SetNear(w, p, GwArrived(at.elem), Num(arrived), at);
    var w2 := Logged(w1, Arrive(at));
    LoggedNear(w1, Arrive(at), at);
    NearTransitive(w, w1, w2, at);
    var w3 := DropAll(w2, at);
    DropNear(w2, at);
    NearTransitive(w, w2, w3, at);
    var w4 := DelVars(w3, p, {GwArrived(at.elem)});
    DelNear(w3, p, {GwArrived(at.elem)}, at);
    NearTransitive(w, w3, w4, at);
    LoggedNear(w4, Follow(at), at);
    NearTransitive(w, w4, Logged(w4, Follow(at)), at);
    PassNear(w, at);
  }

  lemma CountNear(w: World, p: nat, id: nat, f: LoopField, name: string, n: int, at: Place)
    requires p == at.inst
    ensures Near(w, SetCount(w, p, id, f, name, n), at)
  {
    hide Near, SetVar;
    var w1 := SetVar(w, p, LoopVar(id, f), Num(n));
    SetNear(w, p, LoopVar(id, f), Num(n), at);
    SetNear(w1, p, User(name), Num(n), at);
    NearTransitive(w, w1, SetVar(w1, p, User(name), Num(n)), at);
  }

  lemma CompletionNear(w: World, p: nat, id: nat, at: Place)
    requires p == at.inst
    ensures Near(w, CountCompletion(w, p, id), at)
  {
    hide Near, SetCount;
    var vars := VarsOf(w, p);
    var w1 := SetCount(w, p, id, Finished, "nrOfCompletedInstances", NumAt(vars, LoopVar(id, Finished)) + 1);
    CountNear(w, p, id, Finished, "nrOfCompletedInstances", NumAt(vars, LoopVar(id, Finished)) + 1, at);
    CountNear(w1, p, id, Live, "nrOfActiveInstances", NumAt(vars, LoopVar(id, Live)) - 1, at);
    NearTransitive(w, w1, CountCompletion(w, p, id), at);
  }

  lemma OpenLoopNear(w: World, p: nat, n: int, at: Place)
    requires p == at.inst
    ensures Near(w, OpenLoop(w, p, n), at)
  {
    hide Near, SetCount;
    var id := w.next;
    var w0 := w.(next := id + 1);
    NextNear(w, at);
    var w1 := SetCount(w0, p, id, Total, "nrOfInstances", n);
    CountNear(w0, p, id, Total, "nrOfInstances", n, at);
    NearTransitive(w, w0, w1, at);
    var w2 := SetCount(w1, p, id, Live, "nrOfActiveInstances", n);
    CountNear(w1, p, id, Live, "nrOfActiveInstances", n, at);
    NearTransitive(w, w1, w2, at);
    CountNear(w2, p, id, Finished, "nrOfCompletedInstances", 0, at);
    NearTransitive(w, w2, OpenLoop(w, p, n), at);
  }

  lemma NextNear(w: World, at: Place)
    ensures Near(w, w.(next := w.next + 1), at)
  {
  }

  lemma TokNear(w: World, at: Place)
    ensures Near(w, AddTok(w, at), at)
  {
    hide Near;
    TokensNear(w, AddTok(w, at), at);
  }

  lemma ActNear(w: World, a: Act, at: Place)
    requires a.at == at && a.adhoc.None?
    ensures Near(w, AddAct(w, a), at)
  {
  }

  lemma ClockNear(w: World, at: Place)
    ensures Near(w, w.(clock := w.clock + 1), at)
  {
  }

  lemma InstanceNear(env: Env, w: World, at: Place, el: Element, id: nat, items: seq<Value>, i: nat)
    requires el.UserTask? && el.loop.Some?
    ensures Near(w, LoopInstance(env, w, at, el, id, items, i), at)
  {
    hide Near, AddTok, AddAct, SetVar, Rendered, Snapshot;
    var w1 := AddTok(w, at);
    TokNear(w, at);
    var b := LoopAct(env, Snapshot(w, at.inst), at, el, id, i);
    var w2 := AddAct(w1, b);
    ActNear(w1, b, at);
    NearTransitive(w, w1, w2, at);
    if el.loop.value.elementVariable != "" && i < |items| {
      SetNear(w2, at.inst, User(el.loop.value.elementVariable), items[i], at);
      NearTransitive(w, w2, LoopInstance(env, w, at, el, id, items, i), at);
    }
  }

  lemma {:induction false} InstancesNear(env: Env, w: World, at: Place, el: Element, id: nat, items: seq<Value>, n: nat)
    requires el.UserTask? && el.loop.Some?
    ensures Near(w, LoopInstances(env, w, at, el, id, items, n), at)
  {
    hide Near, LoopInstance;
    if n == 0 {
      SelfNear(w, at);
    } else {
      InstancesNear(env, w, at, el, id, items, n - 1);
      var w1 := LoopInstances(env, w, at, el, id, items, n - 1);
      InstanceNear(env, w1, at, el, id, items, n - 1);
      NearTransitive(w, w1, LoopInstance(env, w1, at, el, id, items, n - 1), at);
    }
  }

  lemma SequentialNear(env: Env, w: World, at: Place, el: Element, id: nat, items: seq<Value>, i: nat, n: int)
    requires el.UserTask? && el.loop.Some?
    ensures Near(w, SequentialInstance(env, w, at, el, id, items, i, n), at)
  {
    hide Near, LoopInstance, SetVar;
    var p := at.inst;
    var w1 := LoopInstance(env, w, at, el, id, items, i);
    InstanceNear(env, w, at, el, id, items, i);
    var w2 := SetVar(w1, p, LoopVar(id, SeqIndex), Num(i));
    SetNear(w1, p, LoopVar(id, SeqIndex), Num(i), at);
    NearTransitive(w, w1, w2, at);
    SetNear(w2, p, LoopVar(id, SeqCount), Num(n), at);
    NearTransitive(w, w2, SequentialInstance(env, w, at, el, id, items, i, n), at);
  }

  lemma EnterLoopNear(env: Env, w: World, at: Place, el: Element, out: seq<Flow>)
    requires el.UserTask? && el.loop.Some?
    ensures Near(w, EnterLoop(env, w, at, el, out).w, at)
  {
    hide Near, Leave, LoopCount, OpenLoop, LoopItems, LoopInstances, SequentialInstance;
    var loop := el.loop.value;
    var vars := VarsOf(w, at.inst);
    SelfNear(w, at);
    if LoopCount(env, loop, vars).Some? {
      var n := LoopCount(env, loop, vars).value;
      if n <= 0 {
        LeaveNear(w, at, out);
      } else {
        var w1 := OpenLoop(w, at.inst, n);
        OpenLoopNear(w, at.inst, n, at);
        SequentialNear(env, w1, at, el, w.next, LoopItems(loop, vars), 0, n);
        InstancesNear(env, w1, at, el, w.next, LoopItems(loop, vars), n);
        NearTransitive(w, w1, EnterLoop(env, w, at, el, out).w, at);
      }
    }
  }

  lemma AdvanceNear(env: Env, w: World, at: Place, el: Element, id: nat, out: seq<Flow>)
    requires el.UserTask? && el.loop.Some?
    ensures Near(w, AdvanceLoop(env, w, at, el, id, out).w, at)
  {
    hide Near, Leave, CountCompletion, SequentialInstance, ConditionMet, LoopItems, SetVar, DropAll, VarsOf, NumAt;
    var p := at.inst;
    var w1 := CountCompletion(w, p, id);
    CompletionNear(w, p, id, at);
    var w2 := SetVar(w1, p, LoopVar(id, Live), Num(0));
    SetNear(w1, p, LoopVar(id, Live), Num(0), at);
    NearTransitive(w, w1, w2, at);
    DropNear(w1, at);
    DropNear(w2, at);
    NearTransitive(w, w1, DropAll(w1, at), at);
    NearTransitive(w, w2, DropAll(w2, at), at);
    LeaveNear(DropAll(w1, at), at, out);
    LeaveNear(DropAll(w2, at), at, out);
    NearTransitive(w, DropAll(w1, at), Leave(DropAll(w1, at), at, out).w, at);
    NearTransitive(w, DropAll(w2, at), Leave(DropAll(w2, at), at, out).w, at);
    var next := NumAt(VarsOf(w, p), LoopVar(id, SeqIndex)) + 1;
    if next >= 0 {
      var n := NumAt(VarsOf(w, p), LoopVar(id, SeqCount));
      SequentialNear(env, w1, at, el, id, LoopItems(el.loop.value, VarsOf(w, p)), next, n);
      NearTransitive(w, w1, SequentialInstance(env, w1, at, el, id, LoopItems(el.loop.value, VarsOf(w, p)), next, n),
          at);
    }
  }

  lemma LoopNear(env: Env, w: World, at: Place, el: Element, out: seq<Flow>)
    requires el.UserTask? && el.loop.Some?
    ensures Near(w, LoopStep(env, w, at, el, out).w, at)
  {
    hide Near, Leave, AdvanceLoop, LoopsAt, DropOne;
    var w1 := DropOne(w, at);
    DropNear(w, at);
    LeaveNear(w1, at, out);
    NearTransitive(w, w1, Leave(w1, at, out).w, at);
    if LoopsAt(w1, at) != {} {
      AdvanceNear(env, w1, at, el, Pick(env, LoopsAt(w1, at), w1.clock), out);
      NearTransitive(w, w1, LoopStep(env, w, at, el, out).w, at);
    }
  }

  lemma NavNear(env: Env, w: World, at: Place, def: Definition, el: Element, out: seq<Flow>)
    ensures Near(w, NavFrom(env, w, at, def, el, out).w, at)
  {
    hide Near, Leave, LoopStep, ExclusiveStep, InclusiveStep, ParallelStep, FanIn, DropAll;
    DropNear(w, at);
    LeaveNear(w, at, out);
    match el.Kind()
    case UserKind => if el.loop.Some? { LoopNear(env, w, at, el, out); }
    case ExclusiveKind => ChoiceNear(env, w, at, el.defaultFlow, out);
    case InclusiveKind => ChoiceNear(env, w, at, el.defaultFlow, out);
    case ParallelKind => ParallelNear(w, at, FanIn(def, at.elem), out);
    case _ =>
  }

  lemma EnterNear(env: Env, w: World, at: Place, el: Element, kind: Kind)
    ensures Near(w, AddDone(w, at, kind), at) && Near(w, AddTok(w, at), at)
    ensures el.UserTask? ==> Near(w, EnterTask(env, w, at, el), at)
  {
    hide Near, AddTok, AddAct, Rendered;
    TokNear(w, at);
    DoneNear(w, at, kind);
    if el.UserTask? { EnterTaskNear(env, w, at, el); }
  }

  lemma DoneNear(w: World, at: Place, kind: Kind)
    ensures Near(w, AddDone(w, at, kind), at)
  {
    hide Near;
    var w1 := AddAct(w, NewAct(at, kind, "").(state := Done, stamp := w.clock));
    ActNear(w, NewAct(at, kind, "").(state := Done, stamp := w.clock), at);
    ClockNear(w1, at);
    NearTransitive(w, w1, AddDone(w, at, kind), at);
  }

  lemma EnterTaskNear(env: Env, w: World, at: Place, el: Element)
    requires el.UserTask?
    ensures Near(w, EnterTask(env, w, at, el), at)
  {
    hide Near, AddTok, AddAct, SetVar, Rendered, Texts;
    var p := at.inst;
    var w1 := AddTok(w, at);
    TokNear(w, at);
    var cands := if el.assignee == "" && (el.candidateUsers != [] || el.candidateGroup != "")
                 then env.candidates(el.candidateUsers, el.candidateGroup) else [];
    if cands != [] {
      var w2 := SetVar(w1, p, Candidates(w1.next), List(Texts(cands)));
      SetNear(w1, p, Candidates(w1.next), List(Texts(cands)), at);
      NearTransitive(w, w1, w2, at);
      ActNear(w2, NewAct(at, UserKind, "").(state := Unclaimed), at);
      NearTransitive(w, w2, EnterTask(env, w, at, el), at);
    } else {
      var b := NewAct(at, UserKind, Rendered(env, el.assignee, VarsOf(w, p)));
      ActNear(w1, b, at);
      NearTransitive(w, w1, AddAct(w1, b), at);
    }
  }

  lemma TakeNear(env: Env, w: World, at: Place, el: Element, out: seq<Flow>)
    requires !el.CallActivity?
    ensures Near(w, TakeTo(env, w, at, el, out).w, at)
  {
    hide Near, EnterLoop, EnterTask, AddDone, AddTok, Proceed;
    SelfNear(w, at);
    EnterNear(env, w, at, el, el.Kind());
    LeaveNear(AddDone(w, at, ThrowKind), at, out);
    match el.Kind()
    case UserKind => if el.loop.Some? { EnterLoopNear(env, w, at, el, out); }
    case ThrowKind => NearTransitive(w, AddDone(w, at, ThrowKind), Proceed(AddDone(w, at, ThrowKind), at, out).w, at);
    case _ =>
  }

  // ---- Calling and returning ----

  // What a call changes: there is a new instance, with the caller's variables if they are inherited; its
  // caller has one more token and a waiting activity, and it has a completed activity at its start.
  ghost predicate CallsChild(env: Env, w: World, w1: World, at: Place, el: Element)
    requires el.CallActivity?
  {
    var child := w.next;
    && el.calledElement in env.latest && env.latest[el.calledElement] in env.defs && w.next <= w1.next
    && child in w1.insts && w1.insts == w.insts[child := w1.insts[child]]
    && w1.insts[child].def == env.latest[el.calledElement] && w1.insts[child].state == Running
    && w1.insts[child].parent == Some(at)
    && w1.toks == w.toks + multiset{at}
    && (w1.log == w.log || w1.log == w.log + [Overlap(at)])
    && (forall q :: q != child ==> VarsOf(w1, q) == VarsOf(w, q))
    && (VarsOf(w, child) == map[] ==>
          VarsOf(w1, child) == if el.inheritVariables then VarsOf(w, at.inst) else map[])
    && CallActs(w, w1, at, Place(child, env.defs[env.latest[el.calledElement]].start))
  }

  ghost predicate CallActs(w: World, w1: World, at: Place, start: Place) {
    && (forall a :: a in w.acts && a < w.next ==> a in w1.acts && w1.acts[a] == w.acts[a])
    && (forall a :: a in w1.acts && (a in w.acts ==> w1.acts[a] != w.acts[a]) ==>
          && w.next <= a && w1.acts[a].adhoc.None?
          && ((w1.acts[a].at == at && w1.acts[a].kind == CallKind)
              || (w1.acts[a].at == start && w1.acts[a].kind == StartKind)))
  }

  lemma CallCalls(env: Env, w: World, at: Place, el: Element)
    requires el.CallActivity? && CallStep(env, w, at, el).Go?
    ensures var s := CallStep(env, w, at, el);
            CallsChild(env, w, s.w, at, el) && s.jobs == [Nav(w.next, env.defs[env.latest[el.calledElement]].start)]
  {
    hide CallActs, VarsOf;
    CallVars(env, w, at, el);
    CallCreates(env, w, at, el);
  }

  lemma CallVars(env: Env, w: World, at: Place, el: Element)
    requires el.CallActivity? && CallStep(env, w, at, el).Go?
    ensures var w1 := CallStep(env, w, at, el).w;
            && (forall q :: q != w.next ==> VarsOf(w1, q) == VarsOf(w, q))
            && (VarsOf(w, w.next) == map[] ==>
                  VarsOf(w1, w.next) == if el.inheritVariables then VarsOf(w, at.inst) else map[])
  {
    var vars := if el.inheritVariables then VarsOf(w, at.inst) else map[];
    assert CallStep(env, w, at, el).w.vars == if vars == map[] then w.vars else w.vars[w.next := vars];
  }

  lemma CallCreates(env: Env, w: World, at: Place, el: Element)
    requires el.CallActivity? && CallStep(env, w, at, el).Go?
    ensures CallActs(w, CallStep(env, w, at, el).w, at,
                     Place(w.next, env.defs[env.latest[el.calledElement]].start))
  {
    hide VarsOf;
  }

  // What finding an instance complete changes: its state, and, if it was called, the token and the activities
  // of its caller.
  ghost predicate Finishes(w: World, w1: World, p: nat) {
    && p in w.insts && w1.insts == w.insts[p := w.insts[p].(state := Completed, ended := true)]
    && w1.next == w.next && w1.vars == w.vars
    && FinishActs(w, w1, w.insts[p].parent)
    && (|| (w1.toks == w.toks && w1.log == w.log)
        || (w.insts[p].parent.Some? && Returns(w, w1, w.insts[p].parent.value, p)))
  }

  // Activities keep their place; only those at `parent` may become complete.
  ghost predicate FinishActs(w: World, w1: World, parent: Option<Place>) {
    && w1.acts.Keys == w.acts.Keys
    && forall a :: a in w.acts ==>
         && w1.acts[a].at == w.acts[a].at && w1.acts[a].kind == w.acts[a].kind && w1.acts[a].adhoc == w.acts[a].adhoc
         && (w.acts[a].state == Done ==> w1.acts[a].state == Done)
         && (parent != Some(w.acts[a].at) ==> w1.acts[a] == w.acts[a])
  }

  ghost predicate Returns(w: World, w1: World, at: Place, p: nat) {
    && w1.toks == w.toks - multiset{at}
    && exists live :: w1.log == w.log + [Return(at, p, live)]
  }

  lemma CheckFinishes(w: World, p: nat)
    requires p in w.insts && !HasToken(w, p)
    ensures var s := CheckStep(w, p);
            && s.Go? && Finishes(w, s.w, p)
            && (s.jobs == [] || exists at :: w.insts[p].parent == Some(at) && s.jobs == [Nav(at.inst, at.elem)])
  {
    hide HasToken, ReturnStep, FinishActs, Returns;
    var w1 := MarkCompleted(w, p);
    ReturnSteps(w1, w.insts[p].parent, p);
    SameActsFinish(w, w1, CheckStep(w, p).w, w.insts[p].parent);
    if w.insts[p].parent.Some? { SameReturns(w, w1, CheckStep(w, p).w, w.insts[p].parent.value, p); }
  }

  lemma SameActsFinish(w: World, w1: World, w2: World, parent: Option<Place>)
    requires w1.acts == w.acts
    ensures FinishActs(w1, w2, parent) <==> FinishActs(w, w2, parent)
  {
  }

  lemma SameReturns(w: World, w1: World, w2: World, at: Place, p: nat)
    requires w1.toks == w.toks && w1.log == w.log
    ensures Returns(w1, w2, at, p) <==> Returns(w, w2, at, p)
  {
  }

  // The instance of this place is running.
  predicate RunsAt(w: World, at: Place) {
    at.inst in w.insts && w.insts[at.inst].state == Running
  }

  // The caller moves on.
  lemma ReturnTakes(w: World, at: Place, p: nat)
    requires at.elem != "" && at in w.toks
    ensures var s := ReturnStep(w, Some(at), p);
            && s.Go? && s.w.insts == w.insts && s.w.vars == w.vars && s.w.next == w.next
            && s.jobs == [Nav(at.inst, at.elem)] && s.w.toks == w.toks - multiset{at}
            && s.w.log == w.log + [Return(at, p, RunsAt(w, at))] && FinishActs(w, s.w, Some(at))
  {
    hide ActiveAt, FinishAll, FinishActs;
    var w1 := DropOne(w, at);
    AtPlace(w, at);
    FinishedActs(w1, ActiveAt(w, at), at);
    SameActsFinish(w, w1, FinishAll(w1, ActiveAt(w, at)), Some(at));
    SameActsAfter(w, FinishAll(w1, ActiveAt(w, at)), ReturnStep(w, Some(at), p).w, Some(at));
  }

  lemma SameActsAfter(w: World, w1: World, w2: World, parent: Option<Place>)
    requires w1.acts == w2.acts
    ensures FinishActs(w, w1, parent) <==> FinishActs(w, w2, parent)
  {
  }

  // The caller moves on, or there is none that waits.
  lemma ReturnSteps(w: World, parent: Option<Place>, p: nat)
    ensures var s := ReturnStep(w, parent, p);
            && s.Go? && s.w.insts == w.insts && s.w.vars == w.vars && s.w.next == w.next
            && FinishActs(w, s.w, parent)
            && (|| (s.jobs == [] && s.w == w)
                || (parent.Some? && s.jobs == [Nav(parent.value.inst, parent.value.elem)]
                    && Returns(w, s.w, parent.value, p)))
  {
    if parent.Some? && parent.value.elem != "" && parent.value in w.toks {
      hide ReturnStep, FinishActs;
      ReturnTakes(w, parent.value, p);
    }
  }

  lemma AtPlace(w: World, at: Place)
    ensures ActiveAt(w, at) <= w.acts.Keys && forall a :: a in ActiveAt(w, at) ==> a in w.acts && w.acts[a].at == at
  {
  }

  lemma FinishedActs(w: World, which: set<nat>, at: Place)
    requires forall a :: a in which ==> a in w.acts && w.acts[a].at == at
    ensures var w1 := FinishAll(w, which);
            && FinishActs(w, w1, Some(at)) && w1.insts == w.insts && w1.toks == w.toks && w1.log == w.log
            && w1.vars == w.vars && w1.next == w.next
  {
  }

  // ---- One step ----

  predicate Alive(i: Inst) {
    i.state == Running || i.state == Suspended
  }

  // The place of a call activity.
  ghost predicate IsCall(env: Env, w: World, at: Place) {
    && at.inst in w.insts && w.insts[at.inst].def in env.defs
    && at.elem in env.defs[w.insts[at.inst].def].elements
        && env.defs[w.insts[at.inst].def].elements[at.elem].CallActivity?
  }

  function JobPlace(job: Job): Place {
    match job
    case Nav(p, e) => Place(p, e)
    case Take(p, f) => Place(p, f.target)
    case Check(p) => Place(p, "")
  }

  // What a step may change: things at the place it is about; or it calls, or finds an instance complete.
  ghost predicate Frame(env: Env, w: World, job: Job, w1: World) {
    var at := JobPlace(job);
    || Near(w, w1, at)
    || (job.Take? && IsCall(env, w, at) && CallsChild(env, w, w1, at, env.defs[w.insts[at.inst].def].elements[at.elem]))
    || (job.Check? && !HasToken(w, job.inst) && Finishes(w, w1, job.inst))
  }

  // What a step may ask for: jobs of its own instance, or the start of the instance it has called, or the
  // call activity of the one it has found complete.
  ghost predicate Asks(env: Env, w: World, job: Job, s: Step) {
    s.Go? ==>
      && job.inst in w.insts
      && (|| (s.w.insts == w.insts && forall i :: 0 <= i < |s.jobs| ==> s.jobs[i].inst == job.inst)
          || (exists e :: w.next in s.w.insts && s.jobs == [Nav(w.next, e)])
          || (exists at :: w.insts[job.inst].parent == Some(at) && s.jobs == [Nav(at.inst, at.elem)])
          || s.jobs == [])
  }

  lemma NavFrames(env: Env, w: World, p: nat, e: string)
    ensures var s := NavStep(env, w, p, e);
            Near(w, s.w, Place(p, e)) && Asks(env, w, Nav(p, e), s)
  {
    hide Near, NavFrom, FlowsFrom, Extends;
    SelfNear(w, Place(p, e));
    if p in w.insts && w.insts[p].state == Running && w.insts[p].def in env.defs
        && e in env.defs[w.insts[p].def].elements {
      var def := env.defs[w.insts[p].def];
      NavNear(env, w, Place(p, e), def, def.elements[e], FlowsFrom(def.flows, e));
      NavFromLocal(env, w, Place(p, e), def, def.elements[e], FlowsFrom(def.flows, e));
      NearInsts(w, NavStep(env, w, p, e).w, Place(p, e));
    }
  }

  lemma NearInsts(w: World, w1: World, at: Place)
    requires Near(w, w1, at)
    ensures w1.insts == w.insts
  {
  }

  lemma TakeFrames(env: Env, w: World, p: nat, f: Flow)
    ensures var s := TakeStep(env, w, p, f);
            Frame(env, w, Take(p, f), s.w) && Asks(env, w, Take(p, f), s)
  {
    hide Near, CallsChild, TakeTo, FlowsFrom, Extends;
    var at := Place(p, f.target);
    SelfNear(w, at);
    if p in w.insts && w.insts[p].def in env.defs && f.target in env.defs[w.insts[p].def].elements {
      var def := env.defs[w.insts[p].def];
      var el := def.elements[f.target];
      if el.CallActivity? {
        TakeCalls(env, w, at, el, FlowsFrom(def.flows, f.target));
      } else {
        TakeNear(env, w, at, el, FlowsFrom(def.flows, f.target));
        TakeToLocal(env, w, at, el, FlowsFrom(def.flows, f.target));
        NearInsts(w, TakeStep(env, w, p, f).w, at);
      }
    }
  }

  lemma TakeCalls(env: Env, w: World, at: Place, el: Element, out: seq<Flow>)
    requires el.CallActivity?
    ensures TakeTo(env, w, at, el, out) == CallStep(env, w, at, el)
    ensures var s := CallStep(env, w, at, el);
            if s.Go? then
              CallsChild(env, w, s.w, at, el) && w.next in s.w.insts && exists e :: s.jobs == [Nav(w.next, e)]
            else s.w == w
  {
    hide CallsChild, CallActs;
    if CallStep(env, w, at, el).Go? {
      CallCalls(env, w, at, el);
      CalledExists(env, w, CallStep(env, w, at, el).w, at, el);
    }
  }

  lemma CalledExists(env: Env, w: World, w1: World, at: Place, el: Element)
    requires el.CallActivity? && CallsChild(env, w, w1, at, el)
    ensures w.next in w1.insts
  {
  }

  lemma CheckFrames(env: Env, w: World, p: nat)
    ensures var s := CheckStep(w, p);
            Frame(env, w, Check(p), s.w) && Asks(env, w, Check(p), s)
  {
    hide Near, Finishes, HasToken, ReturnStep;
    SelfNear(w, JobPlace(Check(p)));
    if p in w.insts && !HasToken(w, p) { CheckFinishes(w, p); }
  }

  lemma StepFrames(env: Env, w: World, job: Job)
    ensures Frame(env, w, job, StepJob(env, w, job).w) && Asks(env, w, job, StepJob(env, w, job))
  {
    hide Near, CallsChild, Finishes, Asks, HasToken, IsCall, NavStep, TakeStep, CheckStep;
    match job
    case Nav(p, e) => NavFrames(env, w, p, e);
    case Take(p, f) => TakeFrames(env, w, p, f);
    case Check(p) => CheckFrames(env, w, p);
  }

  // ---- What refers to what ----

  ghost predicate TokensKnown(w: World) {
    forall at :: at in w.toks ==> at.inst in w.insts
  }

  ghost predicate ActsKnown(w: World) {
    forall a :: a in w.acts ==> a < w.next && w.acts[a].at.inst in w.insts
  }

  ghost predicate VarsKnown(w: World) {
    forall q :: VarsOf(w, q) != map[] ==> q in w.insts
  }

  // The history is about instances that exist.
  ghost predicate LogKnown(w: World) {
    forall i :: 0 <= i < |w.log| ==> w.log[i].at.inst in w.insts
  }

  // A sign is at the place of the activity it was added to.
  ghost predicate SignsBeside(w: World) {
    forall a :: a in w.acts && w.acts[a].adhoc.Some? ==>
      w.acts[a].adhoc.value in w.acts && w.acts[w.acts[a].adhoc.value].at == w.acts[a].at
  }

  // Tokens, activities, variables and history are those of instances that exist.
  ghost predicate Known(w: World) {
    TokensKnown(w) && ActsKnown(w) && VarsKnown(w) && LogKnown(w) && SignsBeside(w)
  }

  lemma NearKnown(w: World, w1: World, at: Place)
    requires Known(w) && Near(w, w1, at) && at.inst in w.insts && (forall a :: a in w1.acts ==> a < w1.next)
    ensures Known(w1)
  {
    hide Arrived, VarsOf;
    assert TokensKnown(w1) by {
      forall x | x in w1.toks ensures x.inst in w1.insts { assert x != at ==> x in w.toks; }
    }
    assert LogKnown(w1) by { LogStays(w, w1, at); }
    assert ActsKnown(w1);
    assert VarsKnown(w1);
    assert SignsBeside(w1);
  }

  lemma LogStays(w: World, w1: World, at: Place)
    requires LogKnown(w) && LogNear(w.log, w1.log, at) && at.inst in w.insts && w1.insts == w.insts
    ensures LogKnown(w1)
  {
    forall i | 0 <= i < |w1.log| ensures w1.log[i].at.inst in w1.insts {
      if i < |w.log| { assert w1.log[i] == w1.log[..|w.log|][i]; } else { assert About(w1.log[i], at); }
    }
  }

  lemma CallsKnown(env: Env, w: World, w1: World, at: Place, el: Element)
    requires el.CallActivity? && Known(w) && CallsChild(env, w, w1, at, el) && at.inst in w.insts
    requires forall a :: a in w1.acts ==> a < w1.next
    ensures Known(w1)
  {
    hide VarsOf;
    assert TokensKnown(w1);
    assert ActsKnown(w1);
    assert VarsKnown(w1);
    assert LogKnown(w1);
    assert SignsBeside(w1);
  }

  lemma FinishesKnown(w: World, w1: World, p: nat)
    requires Known(w) && Wf(w) && Finishes(w, w1, p)
    ensures Known(w1)
  {
    hide TokensKnown, ActsKnown, VarsKnown, LogKnown, SignsBeside, Wf, FinishActs, Returns;
    assert w1.insts.Keys == w.insts.Keys;
    FinishedTokens(w, w1, p);
    FinishedRest(w, w1, w.insts[p].parent);
  }

  lemma FinishedTokens(w: World, w1: World, p: nat)
    requires TokensKnown(w) && LogKnown(w) && Wf(w) && p in w.insts && w1.insts.Keys == w.insts.Keys
    requires || (w1.toks == w.toks && w1.log == w.log)
             || (w.insts[p].parent.Some? && Returns(w, w1, w.insts[p].parent.value, p))
    ensures TokensKnown(w1) && LogKnown(w1)
  {
    forall x | x in w1.toks ensures x.inst in w1.insts { assert x in w.toks; }
    forall i | 0 <= i < |w1.log| ensures w1.log[i].at.inst in w1.insts {
      if i < |w.log| { assert w1.log[i] == w.log[i]; }
    }
  }

  lemma FinishedRest(w: World, w1: World, parent: Option<Place>)
    requires ActsKnown(w) && VarsKnown(w) && SignsBeside(w) && FinishActs(w, w1, parent)
    requires w1.insts.Keys == w.insts.Keys && w1.next == w.next && w1.vars == w.vars
    ensures ActsKnown(w1) && VarsKnown(w1) && SignsBeside(w1)
  {
    assert VarsKnown(w1) by { assert forall q :: VarsOf(w1, q) == VarsOf(w, q); }
  }

  // Navigation keeps it so.
  lemma StepKnown(env: Env, w: World, job: Job)
    requires Known(w) && Wf(w) && JobOk(w, job)
    ensures Known(StepJob(env, w, job).w)
  {
    hide Known, Near, CallsChild, Finishes, HasToken, StepJob, Drifts;
    var w1 := StepJob(env, w, job).w;
    var at := JobPlace(job);
    StepFrames(env, w, job);
    StepDrifts(env, w, job);
    if Near(w, w1, at) {
      if at.inst in w.insts { NearKnown(w, w1, at); } else { StuckThere(env, w, job); }
    } else if job.Take? {
      CallsKnown(env, w, w1, at, env.defs[w.insts[at.inst].def].elements[at.elem]);
    } else {
      FinishesKnown(w, w1, job.inst);
    }
  }

  lemma StuckThere(env: Env, w: World, job: Job)
    requires job.inst !in w.insts
    ensures StepJob(env, w, job) == Stuck(w)
  {
  }

  lemma {:induction false} ExecKnown(env: Env, w: World, agenda: seq<Job>, n: nat)
    requires Known(w) && Wf(w) && JobsOk(w, agenda)
    ensures var o := Exec(env, w, agenda, n); !o.More? ==> Known(o.w)
    decreases n
  {
    hide Known, Wf, StepJob, JobOk, Drifts;
    if agenda != [] && n > 0 {
      StepKnown(env, w, agenda[0]);
      StepDrifts(env, w, agenda[0]);
      match StepJob(env, w, agenda[0])
      case Stuck(_) =>
      case Go(w1, jobs) =>
        JobsOkLater(w, w1, jobs, agenda[1..]);
        ExecKnown(env, w1, jobs + agenda[1..], n - 1);
    }
  }

  // Nothing refers to identifier p.
  ghost predicate Unused(w: World, p: nat) {
    && (forall at :: at in w.toks ==> at.inst != p)
    && (forall a :: a in w.acts ==> w.acts[a].at.inst != p)
    && VarsOf(w, p) == map[]
    && (forall i :: 0 <= i < |w.log| ==> w.log[i].at.inst != p)
    && (forall q :: q in w.insts && w.insts[q].parent.Some? ==> w.insts[q].parent.value.inst != p)
  }

  lemma {:induction false} CountNone(log: seq<Event>, e: Event)
    requires forall i :: 0 <= i < |log| ==> log[i] != e
    ensures Count(log, e) == 0
  {
    if log != [] { CountNone(log[..|log| - 1], e); }
  }

  // ---- Other instances ----

  ghost predicate SameActsOf(w: World, w1: World, p: nat) {
    && (forall a :: a in w.acts && w.acts[a].at.inst == p ==> a in w1.acts && w1.acts[a] == w.acts[a])
    && (forall a :: a in w1.acts && w1.acts[a].at.inst == p ==> a in w.acts && w1.acts[a] == w.acts[a])
  }

  ghost predicate SameLogOf(log: seq<Event>, log1: seq<Event>, p: nat) {
    forall e: Event :: e.at.inst == p ==> Count(log1, e) == Count(log, e)
  }

  // Nothing of instance p has changed.
  ghost predicate Untouched(w: World, w1: World, p: nat) {
    && p in w.insts && p in w1.insts && w1.insts[p] == w.insts[p]
    && (forall e :: w1.toks[Place(p, e)] == w.toks[Place(p, e)])
    && VarsOf(w1, p) == VarsOf(w, p)
    && SameActsOf(w, w1, p) && SameLogOf(w.log, w1.log, p)
  }

  // No instance was called by p.
  ghost predicate Childless(w: World, p: nat) {
    forall q :: q in w.insts && w.insts[q].parent.Some? ==> w.insts[q].parent.value.inst != p
  }

  lemma UntouchedTransitive(w: World, w1: World, w2: World, p: nat)
    requires Untouched(w, w1, p) && Untouched(w1, w2, p)
    ensures Untouched(w, w2, p)
  {
    hide VarsOf, Count;
  }

  lemma {:induction false} CountElsewhere(log: seq<Event>, log1: seq<Event>, p: nat)
    requires |log| <= |log1| && log1[..|log|] == log && forall i :: |log| <= i < |log1| ==> log1[i].at.inst != p
    ensures SameLogOf(log, log1, p)
    decreases |log1|
  {
    if |log1| == |log| {
      assert log1 == log;
    } else {
      var last := |log1| - 1;
      assert log1[..last][..|log|] == log;
      CountElsewhere(log, log1[..last], p);
    }
  }

  lemma NearUntouched(w: World, w1: World, at: Place, p: nat)
    requires Near(w, w1, at) && at.inst != p && p in w.insts && Bounded(w)
    ensures Untouched(w, w1, p) && (Childless(w, p) ==> Childless(w1, p))
  {
    hide VarsOf, Arrived, Count, SameLogOf;
    forall i | |w.log| <= i < |w1.log| ensures w1.log[i].at.inst != p { assert About(w1.log[i], at); }
    CountElsewhere(w.log, w1.log, p);
  }

  lemma CallsUntouched(env: Env, w: World, w1: World, at: Place, el: Element, p: nat)
    requires el.CallActivity? && CallsChild(env, w, w1, at, el) && Bounded(w)
    requires at.inst != p && p in w.insts && p != w.next
    ensures Untouched(w, w1, p) && (Childless(w, p) ==> Childless(w1, p))
  {
    hide VarsOf, Count, SameLogOf;
    CountElsewhere(w.log, w1.log, p);
  }

  lemma FinishesUntouched(w: World, w1: World, q: nat, p: nat)
    requires Finishes(w, w1, q) && q != p && p in w.insts && Childless(w, p)
    ensures Untouched(w, w1, p) && Childless(w1, p)
  {
    hide Count, SameLogOf;
    FinishedOther(w, w1, q, p);
    assert VarsOf(w1, p) == VarsOf(w, p);
    hide VarsOf;
    assert SameActsOf(w, w1, p);
  }

  lemma FinishedOther(w: World, w1: World, q: nat, p: nat)
    requires Finishes(w, w1, q) && q != p && p in w.insts && Childless(w, p)
    ensures SameLogOf(w.log, w1.log, p) && forall e :: w1.toks[Place(p, e)] == w.toks[Place(p, e)]
  {
    hide Count, SameLogOf, FinishActs;
    CountElsewhere(w.log, w1.log, p);
  }

  // A step about another instance leaves p alone, when p has called nobody.
  lemma StepUntouched(env: Env, w: World, job: Job, p: nat)
    requires Wf(w) && JobOk(w, job) && job.inst != p && p in w.insts && Childless(w, p)
    ensures var s := StepJob(env, w, job);
            Untouched(w, s.w, p) && Childless(s.w, p)
            && (s.Go? ==> forall i :: 0 <= i < |s.jobs| ==> s.jobs[i].inst != p)
  {
    hide StepJob, Near, CallsChild, Finishes, HasToken, Untouched, Wf;
    var w1 := StepJob(env, w, job).w;
    var at := JobPlace(job);
    StepFrames(env, w, job);
    WfIds(w, p);
    if Near(w, w1, at) {
      NearUntouched(w, w1, at, p);
    } else if job.Take? {
      CallsUntouched(env, w, w1, at, env.defs[w.insts[at.inst].def].elements[at.elem], p);
    } else {
      FinishesUntouched(w, w1, job.inst, p);
    }
  }

  lemma WfIds(w: World, p: nat)
    requires Wf(w) && p in w.insts
    ensures p < w.next && Bounded(w)
  {
  }

  ghost predicate JobsElsewhere(jobs: seq<Job>, p: nat) {
    forall i :: 0 <= i < |jobs| ==> jobs[i].inst != p
  }

  // ... and so does a whole navigation that starts elsewhere, whether it succeeds or fails.
  lemma {:induction false} ExecUntouched(env: Env, w: World, agenda: seq<Job>, p: nat, n: nat)
    requires Wf(w) && JobsOk(w, agenda) && p in w.insts && Childless(w, p) && JobsElsewhere(agenda, p)
    ensures var o := Exec(env, w, agenda, n); !o.More? ==> Untouched(w, o.w, p) && Childless(o.w, p)
    decreases n
  {
    hide Wf, StepJob, JobOk, Drifts, Childless, Untouched;
    SelfUntouched(w, p);
    if agenda != [] && n > 0 {
      StepUntouched(env, w, agenda[0], p);
      StepDrifts(env, w, agenda[0]);
      var s := StepJob(env, w, agenda[0]);
      UntouchedInst(w, s.w, p);
      if s.Go? {
        JobsOkLater(w, s.w, s.jobs, agenda[1..]);
        ExecUntouched(env, s.w, s.jobs + agenda[1..], p, n - 1);
        var o := Exec(env, s.w, s.jobs + agenda[1..], n - 1);
        if !o.More? { UntouchedTransitive(w, s.w, o.w, p); }
      }
    }
  }

  lemma SelfUntouched(w: World, p: nat)
    requires p in w.insts
    ensures Untouched(w, w, p)
  {
  }

  lemma UntouchedInst(w: World, w1: World, p: nat)
    requires Untouched(w, w1, p)
    ensures p in w1.insts && w1.insts[p] == w.insts[p]
  {
  }

  // An instance whose definition has no call activities.
  ghost predicate Callless(env: Env, w: World, p: nat) {
    && p in w.insts && w.insts[p].def in env.defs
    && forall e :: e in env.defs[w.insts[p].def].elements ==> !env.defs[w.insts[p].def].elements[e].CallActivity?
  }

  // ... never calls anybody.
  lemma StepCallless(env: Env, w: World, job: Job, p: nat)
    requires Wf(w) && Callless(env, w, p) && Childless(w, p)
    ensures var w1 := StepJob(env, w, job).w; Callless(env, w1, p) && Childless(w1, p)
  {
    hide StepJob, HasToken, ActsNear, VarsNear, LogNear, CallActs, VarsOf, FinishActs, Returns;
    StepFrames(env, w, job);
  }

  lemma {:induction false} ExecCallless(env: Env, w: World, agenda: seq<Job>, p: nat, n: nat)
    requires Wf(w) && JobsOk(w, agenda) && Callless(env, w, p) && Childless(w, p)
    ensures var o := Exec(env, w, agenda, n); !o.More? ==> Callless(env, o.w, p) && Childless(o.w, p)
    decreases n
  {
    hide Wf, StepJob, JobOk, Drifts, Childless, Callless;
    if agenda != [] && n > 0 {
      StepCallless(env, w, agenda[0], p);
      StepDrifts(env, w, agenda[0]);
      var s := StepJob(env, w, agenda[0]);
      if s.Go? {
        JobsOkLater(w, s.w, s.jobs, agenda[1..]);
        ExecCallless(env, s.w, s.jobs + agenda[1..], p, n - 1);
      }
    }
  }
}
