// Token discipline over runs of operations: starting an instance establishes it, and completions, moves,
// assignments, suspensions and resumptions keep it.

module Discipline {
  import opened Spec
  import opened Model
  import opened Bags
  import opened Machine
  import opened Operations
  import opened Lifecycle
  import opened TokenGame
  import opened TokenRuns
  import opened Moves
  import opened Frames
  import opened Footprints

  // ---- Starting an instance ----

  ghost function Begun(w: World, defId: string, vars: Vars, start: string): World {
    AddDone(NewInstance(w, defId, None, vars), Place(w.next, start), StartKind)
  }

  lemma BegunParts(w: World, defId: string, vars: Vars, start: string)
    requires CallerVars(vars) && Unused(w, w.next) && Bounded(w)
    ensures var w1 := Begun(w, defId, vars, start);
            && w1.toks == w.toks && w1.log == w.log && Bounded(w1)
            && w1.insts == w.insts[w.next := Inst(defId, Running, false, None, vars)]
            && (forall e :: Opens(w1)[Place(w.next, e)] == 0 && Arrived(w1, Place(w.next, e)) == 0)
  {
    hide Bag;
    var w0 := NewInstance(w, defId, None, vars);
    var w1 := Begun(w, defId, vars, start);
    var b := w1.acts[w0.next];
    assert w1.acts == AddAct(w0, b).acts;
    OpensAdd(w0, b);
    SameActs(AddAct(w0, b), w1);
    SameActs(w, w0);
    forall e ensures Opens(w1)[Place(w.next, e)] == 0 {
      BagHas(w.acts, Open, Place(w.next, e));
      assert Place(w.next, e) !in Opens(w);
    }
  }

  lemma BegunGood(env: Env, w: World, defId: string, vars: Vars, def: Definition)
    requires CallerVars(vars) && Unused(w, w.next) && Bounded(w)
    requires defId in env.defs && env.defs[defId] == def && def.start in def.elements
        && def.elements[def.start].StartEvent?
    ensures Good(env, Begun(w, defId, vars, def.start), w.next, def, [Nav(w.next, def.start)], "", 0)
  {
    hide Opens, Arrived, Begun, Count;
    var p := w.next;
    var w1 := Begun(w, defId, vars, def.start);
    BegunParts(w, defId, vars, def.start);
    forall e ensures CountOk(w1, p, def, [Nav(p, def.start)], "", 0, e) {
      CountNone(w.log, Arrive(Place(p, e)));
      CountNone(w.log, Follow(Place(p, e)));
      assert w.toks[Place(p, e)] == 0;
    }
  }

  lemma BegunWf(w: World, defId: string, vars: Vars, start: string)
    requires Wf(w)
    ensures Wf(Begun(w, defId, vars, start))
  {
    hide Wf, NewInstance;
    NewInstanceDrifts(w, defId, None, vars);
    ExtendsDrifts(NewInstance(w, defId, None, vars), Begun(w, defId, vars, start));
  }

  // Starting an instance plays the token game from one token at the start event.
  ghost predicate StartFine(env: Env, w: World, p: nat, def: Definition, w1: World, fired: seq<string>) {
    && p in w1.insts && (w1.insts[p].state == Running || w1.insts[p].state == Completed)
    && (w1.insts[p].state == Running ==> HasToken(w1, p))
    && (PlainSplit(def) ==> (w1.insts[p].state == Completed <==> !HasToken(w1, p)))
    && (w1.insts[p].state == Running || PlainSplit(def) ==>
          && Steady(env, w1, p, def)
          && Reaches(def, p, w.toks + multiset{Place(p, def.start)}, fired, w1.toks)
              && Follows(def, p, w.log, w1.log, fired))
  }

  lemma StartPlaysTheGame(env: Env, w: World, defId: string, vars: Vars, n: nat) returns (fired: seq<string>)
    requires Wf(w) && Known(w) && CallerVars(vars) && Apply(env, w, Start(defId, vars), n).Ended?
    requires defId in env.defs && BasicDef(env.defs[defId])
    ensures StartFine(env, w, w.next, env.defs[defId], Apply(env, w, Start(defId, vars), n).w, fired)
  {
    hide Good, Exec, FlowsFrom, HasToken, Wf, Known, Unused, Reaches, Follows, PlainSplit, PlainAgenda, BasicDef,
        Marking, Begun, NewInstance;
    NextUnused(w);
    var def := env.defs[defId];
    var p := w.next;
    var agenda := [Nav(p, def.start)];
    StartPrep(env, w, defId, vars);
    var w0 := Begun(w, defId, vars, def.start);
    WfBounded(w);
    BegunGood(env, w, defId, vars, def);
    BegunParts(w, defId, vars, def.start);
    BegunWf(w, defId, vars, def.start);
    fired := NavigationFine(env, w0, p, def, agenda, "", 0, n);
    ExecDrifts(env, w0, agenda, n);
    PlainOne(def, agenda);
    StartMarking(w0, p, def);
  }

  lemma StartPrep(env: Env, w: World, defId: string, vars: Vars)
    requires PrepStart(env, w, defId, vars).Go?
    ensures defId in env.defs && env.defs[defId].start in env.defs[defId].elements
            && env.defs[defId].elements[env.defs[defId].start].StartEvent?
    ensures var start := env.defs[defId].start;
            PrepStart(env, w, defId, vars) ==
            Go(Begun(w, defId, vars, start), [Nav(w.next, start)])
  {
    hide NewInstance, AddDone;
  }

  lemma WfBounded(w: World)
    requires Wf(w)
    ensures Bounded(w)
  {
  }

  lemma PlainOne(def: Definition, agenda: seq<Job>)
    requires |agenda| <= 1
    ensures PlainAgenda(def, agenda)
  {
  }

  lemma StartMarking(w: World, p: nat, def: Definition)
    requires def.start in def.elements && def.elements[def.start].StartEvent?
    ensures Marking(w, def, [Nav(p, def.start)]) == w.toks + multiset{Place(p, def.start)}
  {
    PendingOne(def, Nav(p, def.start));
  }

  // ---- What a run of operations keeps ----

  // The tokens of p add up, and p is complete exactly when it has none.
  ghost predicate Settled(env: Env, w: World, p: nat, def: Definition) {
    && Steady(env, w, p, def)
    && (w.insts[p].state == Running || w.insts[p].state == Suspended || w.insts[p].state == Completed)
    && (w.insts[p].state == Completed <==> !HasToken(w, p))
  }

  // An activity of p at a user task, without open signs.
  ghost predicate AtTask(w: World, p: nat, def: Definition, a: nat) {
    a in w.acts && w.acts[a].at.inst == p && TaskAt(def, w.acts[a].at.elem) && ActiveSigns(w, p, a) == {}
  }

  // The operations that keep the discipline of p: completing a task that holds one token of a running instance
  // (or that a delegate returns), moving a task to a user task, assigning, suspending, resuming, and whatever
  // concerns other instances.
  ghost predicate Tame(env: Env, w: World, p: nat, def: Definition, op: Op) {
    p in w.insts && (Elsewhere(w, op, p) || TameHere(env, w, p, def, op))
  }

  ghost predicate TameHere(env: Env, w: World, p: nat, def: Definition, op: Op)
    requires p in w.insts
  {
    match op
    case Complete(a, vars) =>
      && CallerVars(vars) && AtTask(w, p, def, a)
      && (|| DelegatedTask(env, w, a)
          || (w.insts[p].state == Running && PlainTask(env, w, p, def, a)
              && Shortfall(w, w.acts[a].at, FlowsFrom(def.flows, w.acts[a].at.elem)) == 0))
    case Reject(a, mode, target, _) => AtTask(w, p, def, a) && mode != ToEnd && TaskAt(def, target)
    case Jump(a, target) => AtTask(w, p, def, a) && TaskAt(def, target)
    case Reclaim(a, target) => AtTask(w, p, def, a) && TaskAt(def, target)
    case Delegate(_, _) => true
    case Transfer(_, _) => true
    case Claim(_, _) => true
    case Unclaim(_) => true
    case Suspend(q) => q == p
    case Resume(q) => q == p
    case _ => false
  }

  // Nothing has happened to the joins.
  ghost predicate Quiet(w: World, w1: World) {
    && w1.log == w.log
    && forall at :: Arrived(w1, at) == Arrived(w, at)
  }

  lemma QuietVars(w: World, w1: World)
    requires w1.vars == w.vars && w1.log == w.log
    ensures Quiet(w, w1)
  {
  }

  lemma QuietSet(w: World, p: nat, k: VarName, v: Value)
    requires !k.GwArrived?
    ensures Quiet(w, SetVar(w, p, k, v))
  {
  }

  lemma QuietDel(w: World, p: nat, ks: set<VarName>)
    requires forall k :: k in ks ==> !k.GwArrived?
    ensures Quiet(w, DelVars(w, p, ks))
  {
  }

  lemma QuietTransitive(w: World, w1: World, w2: World)
    requires Quiet(w, w1) && Quiet(w1, w2)
    ensures Quiet(w, w2)
  {
    hide Arrived;
  }

  lemma QuietRevisit(env: Env, w: World, at: Place, kind: Kind, def: Definition)
    ensures Quiet(w, Revisit(env, w, at, kind, def))
  {
    hide Rendered;
    QuietVars(w, Revisit(env, w, at, kind, def));
  }

  lemma QuietReject(env: Env, w: World, a: nat, mode: RejectMode, target: string, reason: string, def: Definition)
    requires a in w.acts
    ensures Quiet(w, RejectTo(env, w, a, mode, target, reason, def))
  {
    hide Quiet, Revisit, FinishOne, SetVar, DelVars;
    var p := w.acts[a].at.inst;
    var count := NumAt(VarsOf(w, p), RejectionCount);
    FinishOneKeeps(w, a);
    var w0 := DropOne(FinishOne(w, a), w.acts[a].at);
    QuietVars(w, w0);
    var w1 := Revisit(env, w0, Place(p, target), UserKind, def);
    QuietRevisit(env, w0, Place(p, target), UserKind, def);
    QuietTransitive(w, w0, w1);
    var w2 := SetVar(w1, p, RejectionCount, Num(count + 1));
    QuietSet(w1, p, RejectionCount, Num(count + 1));
    QuietTransitive(w, w1, w2);
    var w3 := DelVars(w2, p, DelegateVars(a));
    QuietDel(w2, p, DelegateVars(a));
    QuietTransitive(w, w2, w3);
    var w4 := if reason == "" then w3 else SetVar(w3, p, RejectionReason, Text(reason));
    QuietVars(w3, w3);
    QuietSet(w3, p, RejectionReason, Text(reason));
    QuietTransitive(w, w3, w4);
    QuietSet(w4, p, RejectedToInitiator, Flag(true));
    QuietTransitive(w, w4, SetVar(w4, p, RejectedToInitiator, Flag(true)));
  }

  lemma QuietForget(w: World, p: nat, a: nat)
    ensures Quiet(w, ForgetSigns(w, p, a))
  {
    hide Quiet, DelVars, FinishAll, ActiveSigns, Sessions;
    var w1 := FinishAll(w, ActiveSigns(w, p, a));
    FinishAllKeeps(w, ActiveSigns(w, p, a));
    QuietVars(w, w1);
    QuietDel(w1, p, SessionVars(Sessions(VarsOf(w1, p), a), VarsOf(w1, p)));
    QuietTransitive(w, w1, ForgetSigns(w, p, a));
  }

  lemma FinishAllKeeps(w: World, which: set<nat>)
    ensures var w1 := FinishAll(w, which);
            w1.vars == w.vars && w1.insts == w.insts && w1.log == w.log
            && w1.toks == w.toks
  {
  }

  lemma QuietJump(env: Env, w: World, a: nat, target: string, def: Definition)
    requires a in w.acts
    ensures var to := Place(w.acts[a].at.inst, target);
            Quiet(w, SetVar(Revisit(env, Uprooted(w, a), to, UserKind, def), to.inst, JumpFrom(a), Text(target)))
  {
    hide Quiet, Revisit, FinishOne, SetVar, DelVars, ForgetSigns;
    var p := w.acts[a].at.inst;
    var to := Place(p, target);
    FinishOneKeeps(w, a);
    var w0 := DropOne(FinishOne(w, a), w.acts[a].at);
    QuietVars(w, w0);
    var w1 := ForgetSigns(w0, p, a);
    QuietForget(w0, p, a);
    QuietTransitive(w, w0, w1);
    var w2 := DelVars(w1, p, DelegateVars(a));
    QuietDel(w1, p, DelegateVars(a));
    QuietTransitive(w, w1, w2);
    var w3 := Revisit(env, w2, to, UserKind, def);
    QuietRevisit(env, w2, to, UserKind, def);
    QuietTransitive(w, w2, w3);
    QuietSet(w3, p, JumpFrom(a), Text(target));
    QuietTransitive(w, w3, SetVar(w3, p, JumpFrom(a), Text(target)));
  }

  lemma QuietReclaim(env: Env, w: World, a: nat, target: string, def: Definition)
    requires a in w.acts
    ensures Quiet(w, ReclaimTo(env, w, a, target, def))
  {
    hide Quiet, Revisit, FinishOne, SetVar, DelVars, ForgetSigns;
    var p := w.acts[a].at.inst;
    var kind := w.acts[a].kind;
    FinishOneKeeps(w, a);
    var w0 := DropOne(FinishOne(w, a), w.acts[a].at);
    QuietVars(w, w0);
    var w1 := Revisit(env, w0, Place(p, target), kind, def);
    QuietRevisit(env, w0, Place(p, target), kind, def);
    QuietTransitive(w, w0, w1);
    var w2 := ForgetSigns(w1, p, a);
    QuietForget(w1, p, a);
    QuietTransitive(w, w1, w2);
    var w3 := DelVars(w2, p, DelegateVars(a));
    QuietDel(w2, p, DelegateVars(a));
    QuietTransitive(w, w2, w3);
    QuietSet(w3, p, Reclaimed(a), Text(target));
    QuietTransitive(w, w3, SetVar(w3, p, Reclaimed(a), Text(target)));
  }

  lemma QuietReturn(env: Env, w: World, a: nat, vars: Vars)
    requires a in w.acts && w.acts[a].at.inst in w.insts && CallerVars(vars)
    requires Delegated(env, DropOne(Submit(FinishOne(w, a), w.acts[a].at.inst, vars), w.acts[a].at), a)
    ensures Quiet(w, ReturnToOwner(env, DropOne(Submit(FinishOne(w, a), w.acts[a].at.inst, vars), w.acts[a].at), a))
  {
    hide Quiet, FinishOne, MergeVars, Delegated, Rendered, SetVar;
    var at := w.acts[a].at;
    var p := at.inst;
    FinishOneKeeps(w, a);
    MergeParts(w, FinishOne(w, a), p, vars);
    var w0 := DropOne(Submit(FinishOne(w, a), p, vars), at);
    QuietMerge(w, p, vars);
    QuietVars(MergeVars(w, p, vars), w0);
    QuietTransitive(w, MergeVars(w, p, vars), w0);
    SubmitParts(w, p, a, vars);
    ReturnVars(env, w0, a);
    QuietSet(w0, p, DelegateReturn(a), Flag(true));
    QuietTransitive(w, w0, SetVar(w0, p, DelegateReturn(a), Flag(true)));
    QuietVars(SetVar(w0, p, DelegateReturn(a), Flag(true)), ReturnToOwner(env, w0, a));
    QuietTransitive(w, SetVar(w0, p, DelegateReturn(a), Flag(true)), ReturnToOwner(env, w0, a));
  }

  lemma QuietMerge(w: World, p: nat, vars: Vars)
    requires CallerVars(vars)
    ensures Quiet(w, MergeVars(w, p, vars)) && MergeVars(w, p, vars).log == w.log
  {
  }

  // ---- Each operation keeps the discipline ----

  ghost predicate SameInst(w: World, w1: World, p: nat) {
    && p in w.insts && p in w1.insts && w1.insts[p].state == w.insts[p].state
    && w1.insts[p].def == w.insts[p].def && w1.insts[p].parent == w.insts[p].parent
  }

  lemma QuietKeeps(env: Env, w: World, w1: World, p: nat, def: Definition)
    requires Settled(env, w, p, def) && Wf(w1) && Quiet(w, w1) && w1.toks == w.toks && Opens(w1) == Opens(w)
    requires p in w1.insts && w1.insts[p].def == w.insts[p].def && w1.insts[p].parent == w.insts[p].parent
    requires w1.insts[p].state == w.insts[p].state
        || (w.insts[p].state != Completed && (w1.insts[p].state == Running || w1.insts[p].state == Suspended))
    ensures Settled(env, w1, p, def)
  {
    hide Opens, Arrived, Count, HasToken, CountOk;
    forall e ensures CountOk(w1, p, def, [], "", 0, e) {
      CountsAt(w, p, def, [], "", 0, e);
      assert SameAt(w, w1, Place(p, e));
      CountOkSame(w, w1, p, def, [], [], "", 0, e);
    }
    SameTokens(w, w1, p);
  }

  lemma MoveKeeps(env: Env, w: World, w1: World, p: nat, def: Definition, from: Place, to: Place)
    requires Settled(env, w, p, def) && Wf(w1) && Quiet(w, w1) && Moved(w, w1, from, to) && SameInst(w, w1, p)
    requires from.inst == p && to.inst == p && TaskAt(def, from.elem) && TaskAt(def, to.elem)
    ensures Settled(env, w1, p, def)
  {
    hide Opens, Arrived, Count, HasToken, CountOk, SameAt;
    CountsAt(w, p, def, [], "", 0, from.elem);
    TokenAtTask(w, p, def, from);
    forall e ensures CountOk(w1, p, def, [], "", 0, e) {
      CountsAt(w, p, def, [], "", 0, e);
      MoveCount(w, w1, p, def, from, to, e);
    }
    MoveTokens(w, w1, p, from, to);
  }

  lemma TokenAtTask(w: World, p: nat, def: Definition, at: Place)
    requires CountOk(w, p, def, [], "", 0, at.elem) && at.inst == p && TaskAt(def, at.elem)
    ensures w.toks[at] == Opens(w)[at]
  {
    hide Opens, Arrived, Count;
  }

  lemma MoveTokens(w: World, w1: World, p: nat, from: Place, to: Place)
    requires Moved(w, w1, from, to) && from in w.toks && from.inst == p && to.inst == p
    ensures HasToken(w, p) && HasToken(w1, p)
  {
    hide Opens;
    assert to in w1.toks;
  }

  lemma MoveCount(w: World, w1: World, p: nat, def: Definition, from: Place, to: Place, e: string)
    requires CountOk(w, p, def, [], "", 0, e) && Quiet(w, w1) && Moved(w, w1, from, to) && from in w.toks
    requires from.inst == p && to.inst == p && TaskAt(def, from.elem) && TaskAt(def, to.elem)
    ensures CountOk(w1, p, def, [], "", 0, e)
  {
    hide Opens, Arrived, Count;
  }

  lemma CompleteKeeps(env: Env, w: World, p: nat, def: Definition, a: nat, vars: Vars, n: nat)
    requires Settled(env, w, p, def) && BasicDef(def) && PlainSplit(def) && p in w.insts
    requires TameHere(env, w, p, def, Complete(a, vars))
    requires Apply(env, w, Complete(a, vars), n).Ended?
    ensures Settled(env, Apply(env, w, Complete(a, vars), n).w, p, def)
  {
    hide Steady, Apply, PlainTask, DelegatedTask, FlowsFrom, HasToken, PlainSplit, BasicDef, ActiveSigns, Wf;
    if DelegatedTask(env, w, a) {
      hide Settled;
      ReturnKeepsAll(env, w, p, def, a, vars, n);
    } else {
      var fired := CompletionPlaysTheGame(env, w, p, def, a, vars, n);
    }
  }

  lemma ReturnKeepsAll(env: Env, w: World, p: nat, def: Definition, a: nat, vars: Vars, n: nat)
    requires Settled(env, w, p, def) && AtTask(w, p, def, a) && DelegatedTask(env, w, a) && CallerVars(vars)
    ensures Apply(env, w, Complete(a, vars), n).Ended? && Settled(env, Apply(env, w, Complete(a, vars), n).w, p, def)
  {
    hide Settled, Opens, Quiet, Moved, FinishOne, Submit, ReturnToOwner, Delegated, ActiveSigns, Wf, PrepComplete,
        Owner;
    SettledWf(env, w, p, def);
    WfBounded(w);
    DelegationReturns(env, w, a, vars, n);
    ReturnTaskActive(env, w, a);
    ReturnPrep(env, w, a, vars);
    var at := w.acts[a].at;
    var w2 := DropOne(Submit(FinishOne(w, a), p, vars), at);
    SubmitParts(w, p, a, vars);
    var w1 := ReturnToOwner(env, w2, a);
    ExecNone(env, w1, n);
    QuietReturn(env, w, a, vars);
    ReturnVars(env, w2, a);
    OperationMoves(env, w, Complete(a, vars), n);
    MoveKeeps(env, w, w1, p, def, at, at);
  }

  lemma SettledWf(env: Env, w: World, p: nat, def: Definition)
    requires Settled(env, w, p, def)
    ensures Wf(w) && p in w.insts && w.insts[p].def in env.defs && env.defs[w.insts[p].def] == def
  {
    hide Counts, HasToken;
  }

  lemma RejectKeeps(env: Env, w: World, p: nat, def: Definition, op: Op, n: nat)
    requires op.Reject? && Settled(env, w, p, def) && p in w.insts && TameHere(env, w, p, def, op)
        && Apply(env, w, op, n).Ended?
    ensures Settled(env, Apply(env, w, op, n).w, p, def)
  {
    hide Settled, Quiet, Moved, RejectTo, ActiveSigns, Wf, RejectLimit;
    SettledWf(env, w, p, def);
    WfBounded(w);
    var w1 := RejectTo(env, w, op.act, op.mode, op.target, op.reason, def);
    RejectMoves(env, w, op.act, op.mode, op.target, op.reason, n);
    QuietReject(env, w, op.act, op.mode, op.target, op.reason, def);
    ExtendsDrifts(w, w1);
    assert Apply(env, w, op, n) == Ended(w1);
    MoveKeeps(env, w, w1, p, def, w.acts[op.act].at, Place(p, op.target));
  }

  lemma ReclaimKeeps(env: Env, w: World, p: nat, def: Definition, op: Op, n: nat)
    requires op.Reclaim? && Settled(env, w, p, def) && p in w.insts && TameHere(env, w, p, def, op)
        && Apply(env, w, op, n).Ended?
    ensures Settled(env, Apply(env, w, op, n).w, p, def)
  {
    hide Settled, Quiet, Moved, ReclaimTo, ActiveSigns, Wf, LatestElsewhere, IsLatest;
    SettledWf(env, w, p, def);
    WfBounded(w);
    var w1 := ReclaimTo(env, w, op.act, op.target, def);
    ReclaimMoves(env, w, op.act, op.target, n);
    QuietReclaim(env, w, op.act, op.target, def);
    ExtendsDrifts(w, w1);
    assert Apply(env, w, op, n) == Ended(w1);
    MoveKeeps(env, w, w1, p, def, w.acts[op.act].at, Place(p, op.target));
  }

  lemma JumpKeeps(env: Env, w: World, p: nat, def: Definition, op: Op, n: nat)
    requires op.Jump? && Settled(env, w, p, def) && p in w.insts && TameHere(env, w, p, def, op)
        && Apply(env, w, op, n).Ended?
    ensures Settled(env, Apply(env, w, op, n).w, p, def)
  {
    hide Settled, Quiet, Moved, PrepJump, ActiveSigns, Wf, Uprooted, Revisit, SetVar;
    SettledWf(env, w, p, def);
    WfBounded(w);
    var to := Place(p, op.target);
    JumpPrep(env, w, op.act, op.target);
    var w1 := SetVar(Revisit(env, Uprooted(w, op.act), to, UserKind, def), p, JumpFrom(op.act), Text(op.target));
    JumpToTask(env, w, op.act, op.target, def);
    QuietJump(env, w, op.act, op.target, def);
    MoveOpExtends(env, w, op);
    ExtendsDrifts(w, w1);
    ExecNone(env, w1, n);
    MoveKeeps(env, w, w1, p, def, w.acts[op.act].at, to);
  }

  // Assigning changes no token, and no activity ceases to be open.
  lemma AssignKeeps(env: Env, w: World, p: nat, def: Definition, op: Op, n: nat)
    requires (op.Delegate? || op.Transfer? || op.Claim? || op.Unclaim?) && Settled(env, w, p, def)
        && Apply(env, w, op, n).Ended?
    ensures Settled(env, Apply(env, w, op, n).w, p, def)
  {
    hide Settled, Quiet, Wf, Opens, Prep;
    SettledWf(env, w, p, def);
    var w1 := Prep(env, w, op).w;
    AssignParts(env, w, op);
    AssigneeOpExtends(env, w, op);
    ExtendsDrifts(w, w1);
    ExecNone(env, w1, n);
    AssignSettled(env, w, w1, p, def);
  }

  lemma AssignSettled(env: Env, w: World, w1: World, p: nat, def: Definition)
    requires Settled(env, w, p, def) && Wf(w1) && Quiet(w, w1) && w1.toks == w.toks && Opens(w1) == Opens(w)
        && w1.insts == w.insts
    ensures Settled(env, w1, p, def)
  {
    hide Opens, Quiet, Counts, HasToken;
    QuietKeeps(env, w, w1, p, def);
  }

  lemma AssignParts(env: Env, w: World, op: Op)
    requires (op.Delegate? || op.Transfer? || op.Claim? || op.Unclaim?) && Prep(env, w, op).Go?
    ensures var s := Prep(env, w, op); s.jobs == [] && s.w.toks == w.toks && Opens(s.w) == Opens(w) && Quiet(w, s.w)
  {
    hide Opens, CandidateList;
    var s := Prep(env, w, op);
    SameOpen(w, s.w, op.act);
  }

  lemma SameOpen(w: World, w1: World, a: nat)
    requires a in w.acts && w.acts[a].state != Done
    requires exists b: Act :: b.at == w.acts[a].at && b.state != Done && w1.acts == w.acts[a := b]
    ensures Opens(w1) == Opens(w)
  {
    hide Bag;
    BagPut(w.acts, Open, a, w1.acts[a]);
  }

  lemma PauseKeeps(env: Env, w: World, p: nat, def: Definition, op: Op, n: nat)
    requires ((op.Suspend? && op.inst == p) || (op.Resume? && op.inst == p)) && Settled(env, w, p, def)
        && Apply(env, w, op, n).Ended?
    ensures Settled(env, Apply(env, w, op, n).w, p, def)
  {
    hide Settled, Wf, Opens;
    SettledWf(env, w, p, def);
    OperationMoves(env, w, op, n);
    var w1 := Prep(env, w, op).w;
    ExecNone(env, w1, n);
    SameActs(w, w1);
    QuietVars(w, w1);
    QuietKeeps(env, w, w1, p, def);
  }

  // Whatever fails leaves the world as it was.
  lemma TameFails(env: Env, w: World, p: nat, def: Definition, op: Op, n: nat)
    requires Settled(env, w, p, def) && p in w.insts && TameHere(env, w, p, def, op) && Apply(env, w, op, n).Failed?
    ensures Apply(env, w, op, n).w == w
  {
    hide AtTask, PlainTask, FlowsFrom, DelegatedTask, LatestElsewhere, CandidateList, RejectTo, ReclaimTo, Exec,
        Settled, PrepJump, PrepComplete;
    if op.Jump? {
      JumpFails(env, w, p, def, op.act, op.target, n);
    } else if !op.Complete? {
      ExecNone(env, Prep(env, w, op).w, n);
    }
  }

  lemma JumpFails(env: Env, w: World, p: nat, def: Definition, a: nat, target: string, n: nat)
    requires Settled(env, w, p, def) && AtTask(w, p, def, a) && TaskAt(def, target)
        && Apply(env, w, Op.Jump(a, target), n).Failed?
    ensures Apply(env, w, Op.Jump(a, target), n).w == w
  {
    hide Settled, ActiveSigns, Exec, Uprooted, Revisit, SetVar;
    SettledWf(env, w, p, def);
    if PrepJump(env, w, a, target).Go? {
      JumpPrep(env, w, a, target);
      ExecNone(env, PrepJump(env, w, a, target).w, n);
    }
  }

  lemma HereKeeps(env: Env, w: World, p: nat, def: Definition, op: Op, n: nat)
    requires Settled(env, w, p, def) && BasicDef(def) && PlainSplit(def) && p in w.insts && TameHere(env, w, p, def, op)
    requires !Apply(env, w, op, n).More?
    ensures Settled(env, Apply(env, w, op, n).w, p, def)
  {
    hide Settled, BasicDef, PlainSplit, Apply, AtTask, PlainTask, DelegatedTask, FlowsFrom;
    if Apply(env, w, op, n).Failed? {
      TameFails(env, w, p, def, op, n);
    } else {
      match op
      case Complete(a, vars) => CompleteKeeps(env, w, p, def, a, vars, n);
      case Reject(_, _, _, _) => RejectKeeps(env, w, p, def, op, n);
      case Jump(_, _) => JumpKeeps(env, w, p, def, op, n);
      case Reclaim(_, _) => ReclaimKeeps(env, w, p, def, op, n);
      case Suspend(_) => PauseKeeps(env, w, p, def, op, n);
      case Resume(_) => PauseKeeps(env, w, p, def, op, n);
      case _ => AssignKeeps(env, w, p, def, op, n);
    }
  }

  lemma UntouchedSettled(env: Env, w: World, w1: World, p: nat, def: Definition)
    requires Settled(env, w, p, def) && Untouched(w, w1, p) && Wf(w1)
    ensures Settled(env, w1, p, def)
  {
    hide Opens, Arrived, Count, HasToken, CountOk, SameAt;
    forall e ensures CountOk(w1, p, def, [], "", 0, e) {
      CountsAt(w, p, def, [], "", 0, e);
      UntouchedAt(w, w1, p, e);
      CountOkSame(w, w1, p, def, [], [], "", 0, e);
    }
    UntouchedTokens(w, w1, p);
  }

  lemma UntouchedAt(w: World, w1: World, p: nat, e: string)
    requires Untouched(w, w1, p)
    ensures SameAt(w, w1, Place(p, e))
  {
    hide Bag, Count;
    BagAgree(w.acts, w1.acts, Open, Place(p, e));
    assert Arrive(Place(p, e)).at.inst == p && Follow(Place(p, e)).at.inst == p;
  }

  lemma UntouchedTokens(w: World, w1: World, p: nat)
    requires Untouched(w, w1, p)
    ensures HasToken(w1, p) <==> HasToken(w, p)
  {
    hide SameActsOf, SameLogOf, VarsOf;
    if HasToken(w, p) {
      var at :| at in w.toks && at.inst == p;
      assert w1.toks[Place(p, at.elem)] == w.toks[Place(p, at.elem)] && at == Place(p, at.elem);
      assert at in w1.toks;
    }
    if HasToken(w1, p) {
      var at :| at in w1.toks && at.inst == p;
      assert w1.toks[Place(p, at.elem)] == w.toks[Place(p, at.elem)] && at == Place(p, at.elem);
      assert at in w.toks;
    }
  }

  // An operation on another instance, with all its navigation.
  lemma ElsewhereKeeps(env: Env, w: World, p: nat, def: Definition, op: Op, n: nat)
    requires Settled(env, w, p, def) && Known(w) && Childless(w, p) && p in w.insts && Elsewhere(w, op, p)
    requires !Apply(env, w, op, n).More?
    ensures Settled(env, Apply(env, w, op, n).w, p, def)
  {
    hide Settled, Untouched, Known, Childless, Apply, Wf;
    SettledWf(env, w, p, def);
    OperationUntouched(env, w, op, p, n);
    OperationKnown(env, w, op, n);
    UntouchedSettled(env, w, Apply(env, w, op, n).w, p, def);
  }

  // What the discipline of p stands on: it is settled, everything refers to what exists, and p has called nobody.
  ghost predicate Disciplined(env: Env, w: World, p: nat, def: Definition) {
    Settled(env, w, p, def) && Known(w) && Childless(w, p)
  }

  // One operation, whether it succeeds or fails.
  lemma TameKeeps(env: Env, w: World, p: nat, def: Definition, op: Op, w1: World)
    requires Disciplined(env, w, p, def) && BasicDef(def) && PlainSplit(def)
    requires Tame(env, w, p, def, op) && Performs(env, w, op, w1)
    ensures Disciplined(env, w1, p, def)
  {
    hide Settled, BasicDef, PlainSplit, Apply, TameHere, Known, Childless, Callless, Wf;
    SettledWf(env, w, p, def);
    BasicCallless(env, w, p, def);
    var n: nat :| !Apply(env, w, op, n).More? && Apply(env, w, op, n).w == w1;
    OperationKnown(env, w, op, n);
    OperationCallless(env, w, op, p, n);
    if Elsewhere(w, op, p) {
      ElsewhereKeeps(env, w, p, def, op, n);
    } else {
      HereKeeps(env, w, p, def, op, n);
    }
  }

  lemma BasicCallless(env: Env, w: World, p: nat, def: Definition)
    requires p in w.insts && w.insts[p].def in env.defs && env.defs[w.insts[p].def] == def && BasicDef(def)
    ensures Callless(env, w, p)
  {
    forall e | e in def.elements ensures !def.elements[e].CallActivity? { assert Basic(def.elements[e]); }
  }

  // Every run of such operations, of any length, with operations on other instances anywhere in between.
  lemma {:induction false} TokenDiscipline(env: Env, ws: seq<World>, ops: seq<Op>, p: nat, def: Definition, j: nat)
    requires History(env, ws, ops) && Disciplined(env, ws[0], p, def) && BasicDef(def) && PlainSplit(def)
    requires forall i :: 0 <= i < |ops| ==> Tame(env, ws[i], p, def, ops[i])
    requires j < |ws|
    ensures Disciplined(env, ws[j], p, def)
  {
    hide Disciplined, BasicDef, PlainSplit, Performs, Tame;
    if j > 0 {
      TokenDiscipline(env, ws, ops, p, def, j - 1);
      TameKeeps(env, ws[j - 1], p, def, ops[j - 1], ws[j]);
    }
  }

  // What that says: after each of these operations p is complete exactly when it has no token, each of its
  // tokens is at a user task, a catch event or a join that is not full, and a user task has as many tokens as open
  // activities.
  lemma SettledTokens(env: Env, ws: seq<World>, ops: seq<Op>, p: nat, def: Definition, j: nat, e: string)
    requires History(env, ws, ops) && Disciplined(env, ws[0], p, def) && BasicDef(def) && PlainSplit(def)
    requires forall i :: 0 <= i < |ops| ==> Tame(env, ws[i], p, def, ops[i])
    requires j < |ws|
    ensures p in ws[j].insts && (ws[j].insts[p].state == Completed <==> !HasToken(ws[j], p))
    ensures var at := Place(p, e);
            at in ws[j].toks ==>
              && e in def.elements
              && (Waits(def, e) || (def.elements[e].ParallelGateway? && ws[j].toks[at] < FanIn(def, e)))
    ensures TaskAt(def, e) ==> ws[j].toks[Place(p, e)] == Opens(ws[j])[Place(p, e)]
  {
    hide Counts, Opens, Arrived, FanIn, Count, HasToken, Performs, Tame, BasicDef, PlainSplit, Known, Childless, Wf;
    TokenDiscipline(env, ws, ops, p, def, j);
    CountsAt(ws[j], p, def, [], "", 0, e);
  }

  // The discipline begins with the instance.
  lemma StartSettles(env: Env, w: World, defId: string, vars: Vars, n: nat)
    requires Wf(w) && Known(w) && CallerVars(vars) && Apply(env, w, Start(defId, vars), n).Ended?
    requires defId in env.defs && BasicDef(env.defs[defId]) && PlainSplit(env.defs[defId])
    ensures Disciplined(env, Apply(env, w, Start(defId, vars), n).w, w.next, env.defs[defId])
  {
    hide Steady, HasToken, Wf, Known, Reaches, Follows, PlainSplit, BasicDef, Childless, Exec, Begun, Callless;
    var def := env.defs[defId];
    var fired := StartPlaysTheGame(env, w, defId, vars, n);
    OperationKnown(env, w, Start(defId, vars), n);
    StartPrep(env, w, defId, vars);
    var w0 := Begun(w, defId, vars, def.start);
    BegunAlone(env, w, defId, vars, def.start);
    BasicCallless(env, w0, w.next, def);
    NavsOk(w0, [Nav(w.next, def.start)]);
    BegunWf(w, defId, vars, def.start);
    ExecCallless(env, w0, [Nav(w.next, def.start)], w.next, n);
  }

  lemma BegunAlone(env: Env, w: World, defId: string, vars: Vars, start: string)
    requires Known(w) && Wf(w)
    ensures var w1 := Begun(w, defId, vars, start);
            w.next in w1.insts && w1.insts[w.next].def == defId && Childless(w1, w.next)
  {
  }

  // ---- Suspended instances ----

  // Completing a task of an instance that does not run is accepted: the token and the activity are gone and no
  // flow is followed. Resuming a suspended instance afterwards makes it run as it is: nothing comes back, and no
  // flow is followed then either.
  lemma SuspendedCompletion(env: Env, w: World, p: nat, a: nat, vars: Vars, n: nat, m: nat)
    requires p in w.insts && w.insts[p].state != Running && FreeTask(env, w, p, a) && CallerVars(vars) && n > 0
    ensures a in w.acts && Apply(env, w, Complete(a, vars), n).Ended?
    ensures var w1 := Apply(env, w, Complete(a, vars), n).w;
            && w1.toks == w.toks - multiset{w.acts[a].at} && w1.acts == FinishOne(w, a).acts && w1.log == w.log
            && p in w1.insts && w1.insts[p].state == w.insts[p].state
    ensures var w1 := Apply(env, w, Complete(a, vars), n).w;
            w.insts[p].state == Suspended ==>
              var o := Apply(env, w1, Op.Resume(p), m);
              && o.Ended? && p in o.w.insts && o.w.insts[p].state == Running
              && o.w.toks == w1.toks && o.w.acts == w1.acts && o.w.log == w1.log
  {
    hide PrepComplete, FreeTask, Submit, FinishOne, Exec;
    FreePrep(env, w, p, a, vars);
    SubmitParts(w, p, a, vars);
    SubmitLog(w, p, a, vars);
    var w1 := DropOne(Submit(FinishOne(w, a), p, vars), w.acts[a].at);
    ExecSolo(env, w1, Nav(p, w.acts[a].at.elem), w1, [], n);
    ExecNone(env, w1, n - 1);
    ExecNone(env, SetState(w1, p, Running, w1.insts[p].ended), m);
  }

  lemma SubmitLog(w: World, p: nat, a: nat, vars: Vars)
    requires a in w.acts && p in w.insts
    ensures Submit(FinishOne(w, a), p, vars).log == w.log
  {
    hide MergeVars;
    FinishOneKeeps(w, a);
    MergeParts(w, FinishOne(w, a), p, vars);
  }
}
