// The engine's own identifiers are never reused: names of variables and loops mention identifiers that have been
// given out, so a new one is fresh.

module Names {
  import opened Spec
  import opened Model
  import opened Machine
  import opened Operations
  import opened TokenRuns

  // The identifier in a variable's name, if there is one, is below n.
  predicate Below(k: VarName, n: nat) {
    match k
    case LoopVar(id, _) => id < n
    case SignVar(id, _) => id < n
    case Candidates(a) => a < n
    case DelegateTo(a) => a < n
    case DelegateOrig(a) => a < n
    case DelegateReturn(a) => a < n
    case JumpFrom(a) => a < n
    case Reclaimed(a) => a < n
    case Transferred(a) => a < n
    case _ => true
  }

  predicate AllBelow(vars: Vars, n: nat) {
    forall k :: k in vars ==> Below(k, n)
  }

  ghost predicate Named(w: World) {
    && (forall q :: q in w.vars ==> AllBelow(w.vars[q], w.next))
    && (forall a :: a in w.acts ==> a < w.next && (w.acts[a].loop.Some? ==> w.acts[a].loop.value < w.next))
  }

  lemma VarsNamed(w: World, p: nat)
    requires Named(w)
    ensures AllBelow(VarsOf(w, p), w.next)
  {
  }

  // ---- Small changes ----

  lemma SetNamed(w: World, p: nat, k: VarName, v: Value)
    requires Named(w) && Below(k, w.next)
    ensures Named(SetVar(w, p, k, v)) && SetVar(w, p, k, v).next == w.next
  {
  }

  lemma DelNamed(w: World, p: nat, ks: set<VarName>)
    requires Named(w)
    ensures Named(DelVars(w, p, ks)) && DelVars(w, p, ks).next == w.next
  {
  }

  // Nothing new is named, and the activities keep their loops.
  lemma StillNamed(w: World, w1: World)
    requires Named(w) && w1.vars == w.vars && w.next <= w1.next && w1.acts.Keys == w.acts.Keys
    requires forall a :: a in w.acts ==> w1.acts[a].loop == w.acts[a].loop
    ensures Named(w1)
  {
  }

  lemma ActNamed(w: World, a: Act)
    requires Named(w) && (a.loop.Some? ==> a.loop.value < w.next)
    ensures Named(AddAct(w, a)) && AddAct(w, a).next == w.next + 1
  {
  }

  lemma TokensNamed(w: World, at: Place)
    requires Named(w)
    ensures Named(AddTok(w, at)) && Named(DropOne(w, at)) && Named(DropAll(w, at))
    ensures AddTok(w, at).next == w.next && DropOne(w, at).next == w.next && DropAll(w, at).next == w.next
  {
  }

  lemma LoggedNamed(w: World, e: Event)
    requires Named(w)
    ensures Named(Logged(w, e)) && Logged(w, e).next == w.next
  {
  }

  lemma DoneNamed(w: World, at: Place, kind: Kind)
    requires Named(w)
    ensures Named(AddDone(w, at, kind))
  {
    hide Named;
    var a := NewAct(at, kind, "").(state := Done, stamp := w.clock);
    ActNamed(w, a);
    StillNamed(AddAct(w, a), AddDone(w, at, kind));
  }

  lemma FinishNamed(w: World, which: set<nat>)
    requires Named(w)
    ensures Named(FinishAll(w, which)) && FinishAll(w, which).next == w.next
  {
  }

  lemma FinishOneNamed(w: World, a: nat)
    requires Named(w) && a in w.acts
    ensures Named(FinishOne(w, a)) && FinishOne(w, a).next == w.next && a < w.next
  {
  }

  // ---- One step ----

  lemma LeaveNamed(w: World, at: Place, out: seq<Flow>)
    requires Named(w)
    ensures Named(Leave(w, at, out).w) && Named(Proceed(w, at, out).w)
  {
    hide Named, Takes;
    LoggedNamed(w, Follow(at));
    TokensNamed(Logged(w, Follow(at)), at);
  }

  lemma CountNamed(w: World, p: nat, id: nat, f: LoopField, name: string, n: int)
    requires Named(w) && id < w.next
    ensures Named(SetCount(w, p, id, f, name, n)) && SetCount(w, p, id, f, name, n).next == w.next
  {
    hide Named, SetVar;
    SetNamed(w, p, LoopVar(id, f), Num(n));
    SetNamed(SetVar(w, p, LoopVar(id, f), Num(n)), p, User(name), Num(n));
  }

  lemma CompletionNamed(w: World, p: nat, id: nat)
    requires Named(w) && id < w.next
    ensures Named(CountCompletion(w, p, id)) && CountCompletion(w, p, id).next == w.next
  {
    hide Named, SetCount, VarsOf, NumAt;
    var vars := VarsOf(w, p);
    var k, live := NumAt(vars, LoopVar(id, Finished)) + 1, NumAt(vars, LoopVar(id, Live)) - 1;
    CountNamed(w, p, id, Finished, "nrOfCompletedInstances", k);
    CountNamed(SetCount(w, p, id, Finished, "nrOfCompletedInstances", k), p, id, Live, "nrOfActiveInstances", live);
  }

  lemma OpenLoopNamed(w: World, p: nat, n: int)
    requires Named(w)
    ensures Named(OpenLoop(w, p, n)) && OpenLoop(w, p, n).next == w.next + 1
  {
    hide Named, SetCount;
    var id := w.next;
    var w0 := w.(next := id + 1);
    StillNamed(w, w0);
    CountNamed(w0, p, id, Total, "nrOfInstances", n);
    var w1 := SetCount(w0, p, id, Total, "nrOfInstances", n);
    CountNamed(w1, p, id, Live, "nrOfActiveInstances", n);
    CountNamed(SetCount(w1, p, id, Live, "nrOfActiveInstances", n), p, id, Finished, "nrOfCompletedInstances", 0);
  }

  lemma InstanceNamed(env: Env, w: World, at: Place, el: Element, id: nat, items: seq<Value>, i: nat)
    requires Named(w) && id < w.next && el.UserTask? && el.loop.Some?
    ensures Named(LoopInstance(env, w, at, el, id, items, i))
  {
    hide Named, SetVar, Snapshot, Rendered, AddTok, AddAct;
    TokensNamed(w, at);
    var a := LoopAct(env, Snapshot(w, at.inst), at, el, id, i);
    ActNamed(AddTok(w, at), a);
    if el.loop.value.elementVariable != "" && i < |items| {
      SetNamed(AddAct(AddTok(w, at), a), at.inst, User(el.loop.value.elementVariable), items[i]);
    }
  }

  lemma {:induction false} InstancesNamed(env: Env, w: World, at: Place, el: Element, id: nat, items: seq<Value>,
      n: nat)
    requires Named(w) && id < w.next && el.UserTask? && el.loop.Some?
    ensures Named(LoopInstances(env, w, at, el, id, items, n))
  {
    hide Named, LoopInstance;
    if n > 0 {
      InstancesNamed(env, w, at, el, id, items, n - 1);
      InstanceNamed(env, LoopInstances(env, w, at, el, id, items, n - 1), at, el, id, items, n - 1);
    }
  }

  lemma SequentialNamed(env: Env, w: World, at: Place, el: Element, id: nat, items: seq<Value>, i: nat, n: int)
    requires Named(w) && id < w.next && el.UserTask? && el.loop.Some?
    ensures Named(SequentialInstance(env, w, at, el, id, items, i, n))
  {
    hide Named, LoopInstance, SetVar;
    InstanceNamed(env, w, at, el, id, items, i);
    var w1 := LoopInstance(env, w, at, el, id, items, i);
    SetNamed(w1, at.inst, LoopVar(id, SeqIndex), Num(i));
    SetNamed(SetVar(w1, at.inst, LoopVar(id, SeqIndex), Num(i)), at.inst, LoopVar(id, SeqCount), Num(n));
  }

  lemma EnterLoopNamed(env: Env, w: World, at: Place, el: Element, out: seq<Flow>)
    requires Named(w) && el.UserTask? && el.loop.Some?
    ensures Named(EnterLoop(env, w, at, el, out).w)
  {
    hide Named, Leave, LoopCount, OpenLoop, LoopItems, LoopInstances, SequentialInstance;
    var loop := el.loop.value;
    var vars := VarsOf(w, at.inst);
    if LoopCount(env, loop, vars).Some? {
      var n := LoopCount(env, loop, vars).value;
      if n <= 0 {
        LeaveNamed(w, at, out);
      } else {
        OpenLoopNamed(w, at.inst, n);
        SequentialNamed(env, OpenLoop(w, at.inst, n), at, el, w.next, LoopItems(loop, vars), 0, n);
        InstancesNamed(env, OpenLoop(w, at.inst, n), at, el, w.next, LoopItems(loop, vars), n);
      }
    }
  }

  lemma AdvanceNamed(env: Env, w: World, at: Place, el: Element, id: nat, out: seq<Flow>)
    requires Named(w) && id < w.next && el.UserTask? && el.loop.Some?
    ensures Named(AdvanceLoop(env, w, at, el, id, out).w)
  {
    hide Named, Leave, CountCompletion, SequentialInstance, ConditionMet, LoopItems, SetVar, DropAll, VarsOf, NumAt;
    var p := at.inst;
    var w1 := CountCompletion(w, p, id);
    CompletionNamed(w, p, id);
    SetNamed(w1, p, LoopVar(id, Live), Num(0));
    var w2 := SetVar(w1, p, LoopVar(id, Live), Num(0));
    TokensNamed(w1, at);
    TokensNamed(w2, at);
    LeaveNamed(DropAll(w1, at), at, out);
    LeaveNamed(DropAll(w2, at), at, out);
    var next := NumAt(VarsOf(w, p), LoopVar(id, SeqIndex)) + 1;
    if next >= 0 {
      SequentialNamed(env, w1, at, el, id, LoopItems(el.loop.value, VarsOf(w, p)), next,
          NumAt(VarsOf(w, p), LoopVar(id, SeqCount)));
    }
  }

  lemma LoopsNamed(w: World, at: Place)
    requires Named(w)
    ensures forall l :: l in LoopsAt(w, at) ==> l < w.next
  {
  }

  lemma LoopNamed(env: Env, w: World, at: Place, el: Element, out: seq<Flow>)
    requires Named(w) && el.UserTask? && el.loop.Some?
    ensures Named(LoopStep(env, w, at, el, out).w)
  {
    hide Named, Leave, AdvanceLoop, LoopsAt, DropOne;
    TokensNamed(w, at);
    var w1 := DropOne(w, at);
    LeaveNamed(w1, at, out);
    LoopsNamed(w1, at);
    if LoopsAt(w1, at) != {} {
      AdvanceNamed(env, w1, at, el, Pick(env, LoopsAt(w1, at), w1.clock), out);
    }
  }

  lemma ParallelNamed(w: World, at: Place, fanIn: nat, out: seq<Flow>)
    requires Named(w)
    ensures Named(ParallelStep(w, at, fanIn, out).w)
  {
    hide Named, SetVar, DelVars, DropAll, Takes, NumAt, VarsOf, Proceed;
    var p := at.inst;
    var arrived := NumAt(VarsOf(w, p), GwArrived(at.elem)) + 1;
    SetNamed(w, p, GwArrived(at.elem), Num(arrived));
    var w1 := SetVar(w, p, GwArrived(at.elem), Num(arrived));
    LoggedNamed(w1, Arrive(at));
    var w2 := Logged(w1, Arrive(at));
    TokensNamed(w, at);
    TokensNamed(w2, at);
    DelNamed(DropAll(w2, at), p, {GwArrived(at.elem)});
    LeaveNamed(DelVars(DropAll(w2, at), p, {GwArrived(at.elem)}), at, out);
    LeaveNamed(DropAll(w, at), at, out);
  }

  lemma ChoiceNamed(env: Env, w: World, at: Place, default: string, out: seq<Flow>)
    requires Named(w)
    ensures Named(ExclusiveStep(env, w, at, default, out).w) && Named(InclusiveStep(env, w, at, default, out).w)
  {
    hide Named, ExclusiveChoice, InclusiveFlows, DropAll, Takes;
    TokensNamed(w, at);
    LoggedNamed(DropAll(w, at), Follow(at));
  }

  lemma EnterTaskNamed(env: Env, w: World, at: Place, el: Element)
    requires Named(w) && el.UserTask?
    ensures Named(EnterTask(env, w, at, el))
  {
    hide Rendered, Texts;
  }

  lemma CallNamed(env: Env, w: World, at: Place, el: Element)
    requires Named(w) && el.CallActivity?
    ensures Named(CallStep(env, w, at, el).w)
  {
    VarsNamed(w, at.inst);
    hide Named, AddTok, AddAct, AddDone, Logged;
    if CallStep(env, w, at, el).Go? {
      var called := env.latest[el.calledElement];
      var w1 := NewInstance(w, called, Some(at), if el.inheritVariables then VarsOf(w, at.inst) else map[]);
      CopyNamed(w, called, Some(at), if el.inheritVariables then VarsOf(w, at.inst) else map[]);
      LoggedNamed(w1, Overlap(at));
      var w2 := if at in w.toks then Logged(w1, Overlap(at)) else w1;
      ActNamed(w2, NewAct(at, CallKind, ""));
      TokensNamed(AddAct(w2, NewAct(at, CallKind, "")), at);
      DoneNamed(AddTok(AddAct(w2, NewAct(at, CallKind, "")), at), Place(w.next, env.defs[called].start), StartKind);
    }
  }

  lemma CopyNamed(w: World, def: string, parent: Option<Place>, vars: Vars)
    requires Named(w) && AllBelow(vars, w.next)
    ensures Named(NewInstance(w, def, parent, vars))
  {
  }

  lemma CheckNamed(w: World, p: nat)
    requires Named(w)
    ensures Named(CheckStep(w, p).w)
  {
    hide HasToken, ActiveAt;
    if p in w.insts && !HasToken(w, p) {
      var w1 := MarkCompleted(w, p);
      StillNamed(w, w1);
      hide Named, FinishAll;
      match w.insts[p].parent
      case None =>
      case Some(at) =>
        TokensNamed(w1, at);
        FinishNamed(DropOne(w1, at), ActiveAt(w1, at));
        forall live ensures Named(Logged(FinishAll(DropOne(w1, at), ActiveAt(w1, at)), Return(at, p, live))) {
          LoggedNamed(FinishAll(DropOne(w1, at), ActiveAt(w1, at)), Return(at, p, live));
        }
    }
  }

  lemma NavNamed(env: Env, w: World, at: Place, def: Definition, el: Element, out: seq<Flow>)
    requires Named(w)
    ensures Named(NavFrom(env, w, at, def, el, out).w)
  {
    hide Named, Leave, LoopStep, ExclusiveStep, InclusiveStep, ParallelStep, FanIn, DropAll;
    TokensNamed(w, at);
    LeaveNamed(w, at, out);
    match el.Kind()
    case UserKind => if el.loop.Some? { LoopNamed(env, w, at, el, out); }
    case ExclusiveKind => ChoiceNamed(env, w, at, el.defaultFlow, out);
    case InclusiveKind => ChoiceNamed(env, w, at, el.defaultFlow, out);
    case ParallelKind => ParallelNamed(w, at, FanIn(def, at.elem), out);
    case _ =>
  }

  lemma TakeNamed(env: Env, w: World, at: Place, el: Element, out: seq<Flow>)
    requires Named(w)
    ensures Named(TakeTo(env, w, at, el, out).w)
  {
    hide Named, EnterLoop, EnterTask, AddDone, AddTok, Proceed, CallStep;
    TokensNamed(w, at);
    DoneNamed(w, at, el.Kind());
    match el.Kind()
    case UserKind => if el.loop.Some? { EnterLoopNamed(env, w, at, el, out); } else { EnterTaskNamed(env, w, at, el); }
    case ThrowKind => LeaveNamed(AddDone(w, at, ThrowKind), at, out);
    case CallKind => CallNamed(env, w, at, el);
    case _ =>
  }

  lemma StepNamed(env: Env, w: World, job: Job)
    requires Named(w)
    ensures Named(StepJob(env, w, job).w)
  {
    hide Named, NavFrom, TakeTo, CheckStep, FlowsFrom;
    match job
    case Check(p) => CheckNamed(w, p);
    case Nav(p, e) =>
      if p in w.insts && w.insts[p].def in env.defs && e in env.defs[w.insts[p].def].elements {
        var def := env.defs[w.insts[p].def];
        NavNamed(env, w, Place(p, e), def, def.elements[e], FlowsFrom(def.flows, e));
      }
    case Take(p, f) =>
      if p in w.insts && w.insts[p].def in env.defs && f.target in env.defs[w.insts[p].def].elements {
        var def := env.defs[w.insts[p].def];
        TakeNamed(env, w, Place(p, f.target), def.elements[f.target], FlowsFrom(def.flows, f.target));
      }
  }

  lemma {:induction false} ExecNamed(env: Env, w: World, agenda: seq<Job>, n: nat)
    requires Named(w)
    ensures var o := Exec(env, w, agenda, n); !o.More? ==> Named(o.w)
    decreases n
  {
    hide Named, StepJob;
    if agenda != [] && n > 0 {
      StepNamed(env, w, agenda[0]);
      match StepJob(env, w, agenda[0])
      case Stuck(_) =>
      case Go(w1, jobs) => ExecNamed(env, w1, jobs + agenda[1..], n - 1);
    }
  }

  // ---- One operation ----

  lemma MergeNamed(w: World, p: nat, vars: Vars)
    requires Named(w) && CallerVars(vars) && p in w.insts
    ensures Named(Submit(w, p, vars))
  {
  }

  lemma SessionsNamed(w: World, p: nat, parent: nat)
    requires Named(w)
    ensures forall id :: id in Sessions(VarsOf(w, p), parent) ==> id < w.next
  {
    VarsNamed(w, p);
    assert forall id, f :: SignVar(id, f) in VarsOf(w, p) ==> Below(SignVar(id, f), w.next);
  }

  lemma CloseNamed(w: World, p: nat, parent: nat, id: nat)
    requires Named(w) && parent in w.acts
    ensures Named(CloseSession(w, p, parent, id).w)
  {
    hide Named, FinishAll, DelVars, ActiveSigns, SessionVars;
    var at := Place(p, w.acts[parent].at.elem);
    var w1 := FinishAll(w, ActiveSigns(w, p, parent));
    FinishNamed(w, ActiveSigns(w, p, parent));
    forall toks, ks ensures Named(DelVars(w1.(toks := toks), p, ks))
        && Named(AddTok(DelVars(w1.(toks := toks), p, ks), at)) {
      StillNamed(w1, w1.(toks := toks));
      DelNamed(w1.(toks := toks), p, ks);
      TokensNamed(DelVars(w1.(toks := toks), p, ks), at);
    }
  }

  lemma AnswerNamed(env: Env, w: World, p: nat, parent: nat, approved: bool)
    requires Named(w)
    ensures Named(SignDoneStep(env, w, p, parent, approved).w)
  {
    hide Named, SetVar, CloseSession, Sessions, SessionOver, NumAt;
    var vars := VarsOf(w, p);
    if parent in w.acts && Sessions(vars, parent) != {} {
      SessionsNamed(w, p, parent);
      var id := Pick(env, Sessions(vars, parent), w.clock);
      var done := NumAt(vars, SignVar(id, SignDone)) + 1;
      var approvals := NumAt(vars, SignVar(id, Approved)) + (if approved then 1 else 0);
      SetNamed(w, p, SignVar(id, SignDone), Num(done));
      var w0 := SetVar(w, p, SignVar(id, SignDone), Num(done));
      SetNamed(w0, p, SignVar(id, Approved), Num(approvals));
      SameActsSet(w0, p, SignVar(id, Approved), Num(approvals));
      SameActsSet(w, p, SignVar(id, SignDone), Num(done));
      CloseNamed(SetVar(w0, p, SignVar(id, Approved), Num(approvals)), p, parent, id);
    }
  }

  lemma SameActsSet(w: World, p: nat, k: VarName, v: Value)
    ensures SetVar(w, p, k, v).acts == w.acts
  {
  }

  lemma ReturnNamed(env: Env, w: World, a: nat)
    requires Named(w) && a in w.acts && Delegated(env, w, a)
    ensures Named(ReturnToOwner(env, w, a))
  {
    assert a < w.next;
    hide Named, Rendered, SetVar, AddAct, AddTok;
    forall s, at ensures
        Named(SetVar(AddTok(AddAct(w, NewAct(at, UserKind, s)), at), at.inst, DelegateReturn(a), Flag(true))) {
      ActNamed(w, NewAct(at, UserKind, s));
      TokensNamed(AddAct(w, NewAct(at, UserKind, s)), at);
      SetNamed(AddTok(AddAct(w, NewAct(at, UserKind, s)), at), at.inst, DelegateReturn(a), Flag(true));
    }
  }

  lemma CompleteNamed(env: Env, w: World, a: nat, vars: Vars)
    requires Named(w) && CallerVars(vars)
    ensures Named(PrepComplete(env, w, a, vars).w)
  {
    hide Named, FinishOne, Submit, SignDoneStep, ReturnToOwner, ActiveSigns, Delegated, DropOne;
    if IsActiveTask(w, a) {
      var p := w.acts[a].at.inst;
      var w1 := FinishOne(w, a);
      FinishOneNamed(w, a);
      FinishInsts(w, a);
      if p in w.insts {
        MergeNamed(w1, p, vars);
        var w2 := Submit(w1, p, vars);
        SubmitActs(w1, p, vars);
        TokensNamed(w2, w2.acts[a].at);
        if w2.acts[a].adhoc.Some? { AnswerNamed(env, w2, p, w2.acts[a].adhoc.value, Approves(vars)); }
        DropActs(w2, w2.acts[a].at);
        if Delegated(env, DropOne(w2, w2.acts[a].at), a) { ReturnNamed(env, DropOne(w2, w2.acts[a].at), a); }
      }
    }
  }

  lemma FinishInsts(w: World, a: nat)
    requires a in w.acts
    ensures FinishOne(w, a).insts == w.insts
  {
  }

  lemma SubmitActs(w: World, p: nat, vars: Vars)
    requires p in w.insts
    ensures Submit(w, p, vars).acts == w.acts
  {
  }

  lemma DropActs(w: World, at: Place)
    ensures DropOne(w, at).acts == w.acts
  {
  }

  lemma OpenNamed(w: World, p: nat, a: nat, signType: string, strategy: string, n: nat)
    requires Named(w)
    ensures var w1 := OpenSession(w, p, a, signType, strategy, n); Named(w1) && w1.acts == w.acts
  {
    OpenActs(w, p, a, signType, strategy, n);
    hide Named, SetVar;
    var id := w.next;
    StillNamed(w, w.(next := id + 1));
    var w1 := SetVar(w.(next := id + 1), p, SignVar(id, SignType), Text(signType));
    SetNamed(w.(next := id + 1), p, SignVar(id, SignType), Text(signType));
    SetNamed(w1, p, SignVar(id, Strategy), Text(strategy));
    var w2 := SetVar(w1, p, SignVar(id, Strategy), Text(strategy));
    SetNamed(w2, p, SignVar(id, SignTotal), Num(n));
    var w3 := SetVar(w2, p, SignVar(id, SignTotal), Num(n));
    SetNamed(w3, p, SignVar(id, SignDone), Num(0));
    var w4 := SetVar(w3, p, SignVar(id, SignDone), Num(0));
    SetNamed(w4, p, SignVar(id, Approved), Num(0));
    SetNamed(SetVar(w4, p, SignVar(id, Approved), Num(0)), p, SignVar(id, Parent), Ref(a));
  }

  lemma OpenActs(w: World, p: nat, a: nat, signType: string, strategy: string, n: nat)
    ensures OpenSession(w, p, a, signType, strategy, n).acts == w.acts
  {
    hide VarsOf;
  }

  lemma {:induction false} SignsNamed(env: Env, w: World, at: Place, a: nat, assignees: seq<string>)
    requires Named(w)
    ensures Named(AddSigns(env, w, at, a, assignees))
  {
    hide Named, Rendered, AddAct, AddTok;
    if assignees != [] {
      var last := |assignees| - 1;
      SignsNamed(env, w, at, a, assignees[..last]);
      var w1 := AddSigns(env, w, at, a, assignees[..last]);
      var b := NewAct(at, UserKind, Rendered(env, assignees[last], VarsOf(w1, at.inst))).(adhoc := Some(a));
      ActNamed(w1, b);
      TokensNamed(AddAct(w1, b), at);
    }
  }

  lemma AddSignNamed(env: Env, w: World, a: nat, backward: bool, signType: string, strategy: string,
      assignees: seq<string>)
    requires Named(w)
    ensures Named(PrepAddSign(env, w, a, backward, signType, strategy, assignees).w)
  {
    hide Named, OpenSession, AddSigns, FinishOne, DropOne;
    if PrepAddSign(env, w, a, backward, signType, strategy, assignees).Go? {
      var at := w.acts[a].at;
      OpenNamed(w, at.inst, a, signType, strategy, |assignees|);
      var w1 := OpenSession(w, at.inst, a, signType, strategy, |assignees|);
      SignsNamed(env, w1, at, a, assignees);
      FinishOneNamed(AddSigns(env, w1, at, a, assignees), a);
      TokensNamed(FinishOne(AddSigns(env, w1, at, a, assignees), a), at);
    }
  }

  lemma RemoveSignNamed(env: Env, w: World, a: nat, child: Option<nat>)
    requires Named(w)
    ensures Named(PrepRemoveSign(env, w, a, child).w)
  {
    if PrepRemoveSign(env, w, a, child).Go? {
      var p := w.acts[a].at.inst;
      FinishOneNamed(w, child.value);
      SessionsNamed(w, p, a);
      hide Named, FinishOne, DropOne, SetVar, Sessions, NumAt, VarsOf;
      var w1 := DropOne(FinishOne(w, child.value), w.acts[a].at);
      TokensNamed(FinishOne(w, child.value), w.acts[a].at);
      if Sessions(VarsOf(w, p), a) != {} {
        var done := SignVar(Pick(env, Sessions(VarsOf(w, p), a), w1.clock), SignDone);
        SetNamed(w1, p, done, Num(NumAt(VarsOf(w, p), done) + 1));
      }
    }
  }

  lemma RevisitNamed(env: Env, w: World, at: Place, kind: Kind, def: Definition)
    requires Named(w)
    ensures Named(Revisit(env, w, at, kind, def))
  {
    hide Named, AddAct, AddTok, Rendered;
    TokensNamed(w, at);
    forall s ensures Named(AddAct(AddTok(w, at), NewAct(at, kind, s))) {
      ActNamed(AddTok(w, at), NewAct(at, kind, s));
    }
  }

  lemma RejectNamed(env: Env, w: World, a: nat, mode: RejectMode, target: string, reason: string)
    requires Named(w)
    ensures Named(PrepReject(env, w, a, mode, target, reason).w)
  {
    hide Named, FinishOne, DropOne, Revisit, SetVar, DelVars, SetState, DropAllOf, NumAt, VarsOf, RejectLimit;
    if PrepReject(env, w, a, mode, target, reason).Go? {
      var p := w.acts[a].at.inst;
      FinishOneNamed(w, a);
      if mode == ToEnd {
        EndNamed(w, a, p, reason);
      } else {
        var w0 := DropOne(FinishOne(w, a), w.acts[a].at);
        TokensNamed(FinishOne(w, a), w.acts[a].at);
        var def := DefOf(env, w, a);
        RevisitNamed(env, w0, Place(p, target), UserKind, def);
        var w1 := Revisit(env, w0, Place(p, target), UserKind, def);
        var count := Num(NumAt(VarsOf(w, p), RejectionCount) + 1);
        SetNamed(w1, p, RejectionCount, count);
        DelNamed(SetVar(w1, p, RejectionCount, count), p, DelegateVars(a));
        var w2 := DelVars(SetVar(w1, p, RejectionCount, count), p, DelegateVars(a));
        SetNamed(w2, p, RejectionReason, Text(reason));
        SetNamed(w2, p, RejectedToInitiator, Flag(true));
        SetNamed(SetVar(w2, p, RejectionReason, Text(reason)), p, RejectedToInitiator, Flag(true));
      }
    }
  }

  lemma EndNamed(w: World, a: nat, p: nat, reason: string)
    requires Named(w) && a in w.acts && p in w.insts
    ensures Named(RejectToEnd(w, a, p, reason))
  {
    FinishOneNamed(w, a);
    FinishInsts(w, a);
    hide Named, FinishOne, SetVar;
    var w1 := SetState(DropAllOf(FinishOne(w, a), p), p, Rejected, true);
    StillNamed(FinishOne(w, a), w1);
    SetNamed(w1, p, RejectionReason, Text(reason));
  }

  lemma ForgetNamed(w: World, p: nat, a: nat)
    requires Named(w)
    ensures Named(ForgetSigns(w, p, a)) && ForgetSigns(w, p, a).next == w.next
  {
    hide Named, FinishAll, DelVars, ActiveSigns, Sessions, SessionVars;
    FinishNamed(w, ActiveSigns(w, p, a));
    var w1 := FinishAll(w, ActiveSigns(w, p, a));
    DelNamed(w1, p, SessionVars(Sessions(VarsOf(w1, p), a), VarsOf(w1, p)));
  }

  lemma JumpNamed(env: Env, w: World, a: nat, target: string)
    requires Named(w)
    ensures Named(PrepJump(env, w, a, target).w)
  {
    hide Named, FinishOne, DropOne, ForgetSigns, Revisit, SetVar, DelVars, AddTok;
    if PrepJump(env, w, a, target).Go? {
      var p := w.acts[a].at.inst;
      var at := Place(p, target);
      FinishOneNamed(w, a);
      TokensNamed(FinishOne(w, a), w.acts[a].at);
      ForgetNamed(DropOne(FinishOne(w, a), w.acts[a].at), p, a);
      var w1 := ForgetSigns(DropOne(FinishOne(w, a), w.acts[a].at), p, a);
      DelNamed(w1, p, DelegateVars(a));
      var w2 := DelVars(w1, p, DelegateVars(a));
      TokensNamed(w2, at);
      RevisitNamed(env, w2, at, UserKind, DefOf(env, w, a));
      SetNamed(AddTok(w2, at), p, JumpFrom(a), Text(target));
      SetNamed(Revisit(env, w2, at, UserKind, DefOf(env, w, a)), p, JumpFrom(a), Text(target));
    }
  }

  lemma ReclaimNamed(env: Env, w: World, a: nat, target: string)
    requires Named(w)
    ensures Named(PrepReclaim(env, w, a, target).w)
  {
    hide Named, FinishOne, DropOne, ForgetSigns, Revisit, SetVar, DelVars, LatestElsewhere;
    if PrepReclaim(env, w, a, target).Go? {
      var p := w.acts[a].at.inst;
      FinishOneNamed(w, a);
      TokensNamed(FinishOne(w, a), w.acts[a].at);
      var w0 := DropOne(FinishOne(w, a), w.acts[a].at);
      RevisitNamed(env, w0, Place(p, target), w.acts[a].kind, DefOf(env, w, a));
      var w1 := Revisit(env, w0, Place(p, target), w.acts[a].kind, DefOf(env, w, a));
      ForgetNamed(w1, p, a);
      DelNamed(ForgetSigns(w1, p, a), p, DelegateVars(a));
      SetNamed(DelVars(ForgetSigns(w1, p, a), p, DelegateVars(a)), p, Reclaimed(a), Text(target));
    }
  }

  lemma NamedActs(w: World)
    requires Named(w)
    ensures forall a :: a in w.acts ==> a < w.next
  {
  }

  lemma AssignNamed(env: Env, w: World, op: Op)
    requires Named(w) && (op.Delegate? || op.Transfer? || op.Claim? || op.Unclaim?)
    ensures Named(Prep(env, w, op).w)
  {
    hide SetVar, CandidateList, VarsOf, Named;
    if Prep(env, w, op).Go? {
      var a := op.act;
      var p := w.acts[a].at.inst;
      NamedActs(w);
      var w1 := SetVar(w, p, DelegateOrig(a), Text(w.acts[a].assignee));
      SetNamed(w, p, DelegateOrig(a), Text(w.acts[a].assignee));
      SameActsSet(w, p, DelegateOrig(a), Text(w.acts[a].assignee));
      match op {
        case Delegate(_, to) =>
          SetNamed(w1, p, DelegateTo(a), Text(to));
          SameActsSet(w1, p, DelegateTo(a), Text(to));
          StillNamed(SetVar(w1, p, DelegateTo(a), Text(to)), Prep(env, w, op).w);
        case Transfer(_, to) =>
          SetNamed(w, p, Transferred(a), Text(w.acts[a].assignee + "->" + to));
          SameActsSet(w, p, Transferred(a), Text(w.acts[a].assignee + "->" + to));
          StillNamed(SetVar(w, p, Transferred(a), Text(w.acts[a].assignee + "->" + to)), Prep(env, w, op).w);
        case _ =>
          StillNamed(w, Prep(env, w, op).w);
      }
    }
  }

  lemma StateNamed(env: Env, w: World, op: Op)
    requires Named(w) && (op.Suspend? || op.Resume? || op.Terminate?)
    ensures Named(Prep(env, w, op).w)
  {
    hide Named;
    StillNamed(w, Prep(env, w, op).w);
  }

  lemma StartNamed(env: Env, w: World, def: string, vars: Vars)
    requires Named(w) && CallerVars(vars)
    ensures Named(PrepStart(env, w, def, vars).w)
  {
    hide Named, WellFormed, AddDone, NewInstance;
    if PrepStart(env, w, def, vars).Go? {
      CopyNamed(w, def, None, vars);
      DoneNamed(NewInstance(w, def, None, vars), Place(w.next, env.defs[def].start), StartKind);
    }
  }

  // Callers write no variables of the engine.
  predicate Polite(op: Op) {
    op.Start? || op.Complete? ==> CallerVars(op.vars)
  }

  lemma PrepNamed(env: Env, w: World, op: Op)
    requires Named(w) && Polite(op)
    ensures Named(Prep(env, w, op).w)
  {
    hide Named, PrepStart, PrepComplete, PrepAddSign, PrepRemoveSign, PrepReject, PrepJump, PrepReclaim, PrepDelegate,
        PrepTransfer, PrepClaim, PrepUnclaim, PrepSuspend, PrepResume, PrepTerminate, CallerVars;
    match op
    case Start(def, vars) => StartNamed(env, w, def, vars);
    case Complete(a, vars) => CompleteNamed(env, w, a, vars);
    case AddSign(a, backward, signType, strategy, assignees) =>
      AddSignNamed(env, w, a, backward, signType, strategy, assignees);
    case RemoveSign(a, child) => RemoveSignNamed(env, w, a, child);
    case Reject(a, mode, target, reason) => RejectNamed(env, w, a, mode, target, reason);
    case Jump(a, target) => JumpNamed(env, w, a, target);
    case Reclaim(a, target) => ReclaimNamed(env, w, a, target);
    case Suspend(_) => StateNamed(env, w, op);
    case Resume(_) => StateNamed(env, w, op);
    case Terminate(_) => StateNamed(env, w, op);
    case _ => AssignNamed(env, w, op);
  }

  lemma OperationNamed(env: Env, w: World, op: Op, n: nat)
    requires Named(w) && Polite(op) && !Apply(env, w, op, n).More?
    ensures Named(Apply(env, w, op, n).w)
  {
    hide Prep, Named, Polite;
    PrepNamed(env, w, op);
    match Prep(env, w, op)
    case Stuck(_) =>
    case Go(w1, jobs) => ExecNamed(env, w1, jobs, n);
  }

  // Over every run of operations, failed ones included.
  lemma {:induction false} NamedLaw(env: Env, ws: seq<World>, ops: seq<Op>, j: nat)
    requires History(env, ws, ops) && Named(ws[0]) && (forall i :: 0 <= i < |ops| ==> Polite(ops[i])) && j < |ws|
    ensures Named(ws[j])
  {
    hide Named, Apply, Polite;
    if j > 0 {
      NamedLaw(env, ws, ops, j - 1);
      assert Performs(env, ws[j - 1], ops[j - 1], ws[j - 1 + 1]);
      var n: nat :| !Apply(env, ws[j - 1], ops[j - 1], n).More? && Apply(env, ws[j - 1], ops[j - 1], n).w == ws[j];
      OperationNamed(env, ws[j - 1], ops[j - 1], n);
    }
  }

  lemma NothingNamed(clock: nat)
    ensures Named(World(map[], multiset{}, map[], map[], 0, clock, []))
  {
  }

  // So the next identifier is new: no variable and no loop on record has it.
  lemma NextNamesNothing(w: World, q: nat)
    requires Named(w)
    ensures forall k :: k in VarsOf(w, q) && k.SignVar? ==> k.sign < w.next
    ensures forall k :: k in VarsOf(w, q) && k.LoopVar? ==> k.loop < w.next
    ensures forall a :: a in w.acts && w.acts[a].loop.Some? ==> w.acts[a].loop.value < w.next
    ensures forall a: nat :: DelegateTo(a) in VarsOf(w, q) ==> a < w.next
  {
    VarsNamed(w, q);
    assert forall a: nat :: DelegateTo(a) in VarsOf(w, q) ==> Below(DelegateTo(a), w.next);
  }
}
