// The life of a process instance, over navigation of any depth and over every public operation.

module Lifecycle {
  import opened Spec
  import opened Model
  import opened Machine
  import opened Operations

  // Identifiers below `next` are the only ones in use, callers exist and are older than the instances they
  // call, and an instance has an end time exactly when it has ended.
  ghost predicate Wf(w: World) {
    && (forall p :: p in w.insts ==> p < w.next && (w.insts[p].ended <==> HasEnded(w.insts[p].state)))
    && (forall p :: p in w.insts && w.insts[p].parent.Some? ==>
          w.insts[p].parent.value.inst < p && w.insts[p].parent.value.inst in w.insts)
    && (forall a :: a in w.acts ==> a < w.next)
  }

  predicate HasEnded(s: InstState) {
    s == Completed || s == Terminated || s == Rejected
  }

  // What navigation may do to the state of an instance.
  predicate Drift(s: InstState, t: InstState) {
    t == s || (s == Running && t == Completed)
  }

  ghost predicate Drifts(w: World, w1: World) {
    forall p :: p in w.insts ==>
      && p in w1.insts
      && w1.insts[p].def == w.insts[p].def && w1.insts[p].parent == w.insts[p].parent
      && Drift(w.insts[p].state, w1.insts[p].state)
  }

  // Flows are only taken, and completion only checked, for an instance that was running when the job
  // was put on the agenda.
  ghost predicate JobOk(w: World, job: Job) {
    !job.Nav? ==> job.inst in w.insts && (w.insts[job.inst].state == Running || w.insts[job.inst].state == Completed)
  }

  ghost predicate JobsOk(w: World, jobs: seq<Job>) {
    forall i :: 0 <= i < |jobs| ==> JobOk(w, jobs[i])
  }

  // A step that leaves the instances alone and whose jobs all concern instance p.
  ghost predicate StepLocal(w: World, p: nat, s: Step) {
    && Extends(w, s.w)
    && (s.Go? ==> forall i :: 0 <= i < |s.jobs| ==> s.jobs[i].inst == p)
  }

  lemma ExtendsDrifts(w: World, w1: World)
    requires Extends(w, w1)
    ensures Drifts(w, w1) && (Wf(w) ==> Wf(w1))
  {
  }

  lemma DriftsTransitive(w: World, w1: World, w2: World)
    requires Drifts(w, w1) && Drifts(w1, w2)
    ensures Drifts(w, w2)
  {
  }

  lemma MarkCompletedDrifts(w: World, p: nat)
    requires Wf(w) && JobOk(w, Check(p))
    ensures Wf(MarkCompleted(w, p)) && Drifts(w, MarkCompleted(w, p))
  {
  }

  lemma LeaveLocal(w: World, at: Place, out: seq<Flow>)
    ensures StepLocal(w, at.inst, Leave(w, at, out)) && StepLocal(w, at.inst, Proceed(w, at, out))
  {
  }

  lemma EnterLoopLocal(env: Env, w: World, at: Place, el: Element, out: seq<Flow>)
    requires el.UserTask? && el.loop.Some?
    ensures StepLocal(w, at.inst, EnterLoop(env, w, at, el, out))
  {
    hide LoopCount, OpenLoop, LoopItems, LoopInstances, SequentialInstance, Leave;
    LeaveLocal(w, at, out);
  }

  lemma AdvanceLoopLocal(env: Env, w: World, at: Place, el: Element, id: nat, out: seq<Flow>)
    requires el.UserTask? && el.loop.Some?
    ensures StepLocal(w, at.inst, AdvanceLoop(env, w, at, el, id, out))
  {
    hide CountCompletion, SequentialInstance, ConditionMet, LoopItems, Leave;
    var w1 := CountCompletion(w, at.inst, id);
    LeaveLocal(DropAll(SetVar(w1, at.inst, LoopVar(id, Live), Num(0)), at), at, out);
    LeaveLocal(DropAll(w1, at), at, out);
  }

  lemma LoopStepLocal(env: Env, w: World, at: Place, el: Element, out: seq<Flow>)
    requires el.UserTask? && el.loop.Some?
    ensures StepLocal(w, at.inst, LoopStep(env, w, at, el, out))
  {
    hide LoopsAt, AdvanceLoop, Leave;
    var w1 := DropOne(w, at);
    LeaveLocal(w1, at, out);
    if LoopsAt(w1, at) != {} {
      AdvanceLoopLocal(env, w1, at, el, Pick(env, LoopsAt(w1, at), w1.clock), out);
    }
  }

  lemma GatewaysLocal(env: Env, w: World, at: Place, fanIn: nat, default: string, out: seq<Flow>)
    ensures StepLocal(w, at.inst, ExclusiveStep(env, w, at, default, out))
    ensures StepLocal(w, at.inst, InclusiveStep(env, w, at, default, out))
    ensures StepLocal(w, at.inst, ParallelStep(w, at, fanIn, out))
  {
    hide ExclusiveChoice, InclusiveFlows;
  }

  lemma NavFromLocal(env: Env, w: World, at: Place, def: Definition, el: Element, out: seq<Flow>)
    ensures StepLocal(w, at.inst, NavFrom(env, w, at, def, el, out))
  {
    hide LoopStep, FanIn, ExclusiveStep, InclusiveStep, ParallelStep, Leave;
    LeaveLocal(w, at, out);
    match el.Kind()
    case UserKind => if el.loop.Some? { LoopStepLocal(env, w, at, el, out); }
    case ExclusiveKind => GatewaysLocal(env, w, at, 0, el.defaultFlow, out);
    case InclusiveKind => GatewaysLocal(env, w, at, 0, el.defaultFlow, out);
    case ParallelKind => GatewaysLocal(env, w, at, FanIn(def, at.elem), "", out);
    case _ =>
  }

  lemma NewInstanceDrifts(w: World, def: string, parent: Option<Place>, vars: Vars)
    requires Wf(w) && (parent.Some? ==> parent.value.inst in w.insts)
    ensures Wf(NewInstance(w, def, parent, vars)) && Drifts(w, NewInstance(w, def, parent, vars))
  {
  }

  lemma CallStepDrifts(env: Env, w: World, at: Place, el: Element)
    requires el.CallActivity? && Wf(w) && at.inst in w.insts
    ensures var s := CallStep(env, w, at, el); Wf(s.w) && Drifts(w, s.w) && (s.Go? ==> JobsOk(s.w, s.jobs))
  {
    hide Wf, Drifts, NewInstance;
    var s := CallStep(env, w, at, el);
    ExtendsDrifts(w, w);
    if s.Go? {
      var vars := if el.inheritVariables then VarsOf(w, at.inst) else map[];
      var w1 := NewInstance(w, env.latest[el.calledElement], Some(at), vars);
      NewInstanceDrifts(w, env.latest[el.calledElement], Some(at), vars);
      assert Extends(w1, s.w);
      ExtendsDrifts(w1, s.w);
      DriftsTransitive(w, w1, s.w);
    }
  }

  // Staying at a place, or leaving it next.
  lemma StayLocal(w: World, w1: World, at: Place)
    requires Extends(w, w1)
    ensures StepLocal(w, at.inst, Go(w1, [])) && StepLocal(w, at.inst, Go(w1, [Nav(at.inst, at.elem)]))
    ensures StepLocal(w, at.inst, Stuck(w1))
  {
  }

  lemma AddExtends(w: World, at: Place, kind: Kind)
    ensures Extends(w, w) && Extends(w, AddDone(w, at, kind)) && Extends(w, AddTok(w, at))
  {
  }

  lemma ThrowLocal(w: World, at: Place, out: seq<Flow>)
    ensures StepLocal(w, at.inst, Proceed(AddDone(w, at, ThrowKind), at, out))
  {
    hide Proceed, AddDone;
    var w1 := AddDone(w, at, ThrowKind);
    AddExtends(w, at, ThrowKind);
    LeaveLocal(w1, at, out);
  }

  lemma TakeToLocal(env: Env, w: World, at: Place, el: Element, out: seq<Flow>)
    requires !el.CallActivity?
    ensures StepLocal(w, at.inst, TakeTo(env, w, at, el, out))
  {
    hide EnterLoop, EnterTask, AddDone, AddTok, Proceed, StepLocal, Extends;
    AddExtends(w, at, el.Kind());
    StayLocal(w, w, at);
    StayLocal(w, AddDone(w, at, el.Kind()), at);
    StayLocal(w, AddTok(w, at), at);
    match el.Kind()
    case UserKind =>
      if el.loop.Some? { EnterLoopLocal(env, w, at, el, out); } else { StayLocal(w, EnterTask(env, w, at, el), at); }
    case ThrowKind => ThrowLocal(w, at, out);
    case _ =>
  }

  lemma LocalDrifts(w: World, p: nat, s: Step)
    requires Wf(w) && JobOk(w, Check(p)) && StepLocal(w, p, s)
    ensures Wf(s.w) && Drifts(w, s.w) && (s.Go? ==> JobsOk(s.w, s.jobs))
  {
    ExtendsDrifts(w, s.w);
  }

  lemma CheckStepDrifts(w: World, p: nat)
    requires Wf(w) && JobOk(w, Check(p))
    ensures var s := CheckStep(w, p); Wf(s.w) && Drifts(w, s.w) && (s.Go? ==> JobsOk(s.w, s.jobs))
  {
    hide Wf, Drifts, FinishAll, ActiveAt, HasToken;
    var w1 := MarkCompleted(w, p);
    var s := CheckStep(w, p);
    MarkCompletedDrifts(w, p);
    ExtendsDrifts(w, w);
    if s.w != w {
      assert Extends(w1, s.w);
      ExtendsDrifts(w1, s.w);
      DriftsTransitive(w, w1, s.w);
    }
  }

  lemma TakeToDrifts(env: Env, w: World, at: Place, el: Element, out: seq<Flow>)
    requires Wf(w) && JobOk(w, Check(at.inst))
    ensures var s := TakeTo(env, w, at, el, out); Wf(s.w) && Drifts(w, s.w) && (s.Go? ==> JobsOk(s.w, s.jobs))
  {
    hide Wf, Drifts, JobsOk, EnterLoop, EnterTask, CallStep;
    if el.CallActivity? {
      CallStepDrifts(env, w, at, el);
    } else {
      TakeToLocal(env, w, at, el, out);
      LocalDrifts(w, at.inst, TakeTo(env, w, at, el, out));
    }
  }

  // One step of the machine.
  lemma StepDrifts(env: Env, w: World, job: Job)
    requires Wf(w) && JobOk(w, job)
    ensures var s := StepJob(env, w, job); Wf(s.w) && Drifts(w, s.w) && (s.Go? ==> JobsOk(s.w, s.jobs))
  {
    hide NavFrom, TakeTo, CheckStep, FlowsFrom, Wf, Drifts;
    ExtendsDrifts(w, w);
    match job
    case Check(p) =>
      CheckStepDrifts(w, p);
    case Nav(p, e) =>
      if p in w.insts && w.insts[p].state == Running && w.insts[p].def in env.defs
          && e in env.defs[w.insts[p].def].elements {
        var def := env.defs[w.insts[p].def];
        NavFromLocal(env, w, Place(p, e), def, def.elements[e], FlowsFrom(def.flows, e));
        LocalDrifts(w, p, StepJob(env, w, job));
      }
    case Take(p, f) =>
      if w.insts[p].def in env.defs && f.target in env.defs[w.insts[p].def].elements {
        var def := env.defs[w.insts[p].def];
        TakeToDrifts(env, w, Place(p, f.target), def.elements[f.target], FlowsFrom(def.flows, f.target));
      }
  }

  lemma JobsOkLater(w: World, w1: World, jobs: seq<Job>, rest: seq<Job>)
    requires Drifts(w, w1) && JobsOk(w, rest) && JobsOk(w1, jobs)
    ensures JobsOk(w1, jobs + rest)
  {
  }

  // Any navigation, however deep, and also one that ends in an error.
  lemma {:induction false} ExecDrifts(env: Env, w: World, agenda: seq<Job>, n: nat)
    requires Wf(w) && JobsOk(w, agenda)
    ensures var o := Exec(env, w, agenda, n); !o.More? ==> Wf(o.w) && Drifts(w, o.w)
    decreases n
  {
    hide StepJob, Wf, Drifts, JobOk;
    ExtendsDrifts(w, w);
    if agenda != [] && n > 0 {
      StepDrifts(env, w, agenda[0]);
      match StepJob(env, w, agenda[0])
      case Stuck(_) =>
      case Go(w1, jobs) =>
        JobsOkLater(w, w1, jobs, agenda[1..]);
        ExecDrifts(env, w1, jobs + agenda[1..], n - 1);
        var o := Exec(env, w1, jobs + agenda[1..], n - 1);
        if !o.More? { DriftsTransitive(w, w1, o.w); }
    }
  }

  // What one public operation may do to the state of an instance.
  predicate Move(s: InstState, t: InstState) {
    || t == s
    || (s == Running && (t == Completed || t == Suspended || t == Rejected || t == Terminated))
    || (s == Suspended && (t == Running || t == Terminated))
    || (s == Rejected && t == Terminated)
  }

  ghost predicate Moves(w: World, w1: World) {
    forall p :: p in w.insts ==> p in w1.insts && Move(w.insts[p].state, w1.insts[p].state)
  }

  ghost predicate NavsOnly(s: Step) {
    s.Go? ==> forall i :: 0 <= i < |s.jobs| ==> s.jobs[i].Nav?
  }

  lemma SignDoneExtends(env: Env, w: World, p: nat, parent: nat, approved: bool)
    ensures var s := SignDoneStep(env, w, p, parent, approved); Extends(w, s.w) && NavsOnly(s)
  {
    hide Sessions, SessionOver, FinishAll, ActiveSigns, SessionVars;
  }

  lemma CompleteExtends(env: Env, w: World, p: nat, a: nat, approved: bool)
    requires a in w.acts
    ensures var s := CompleteRest(env, w, p, a, approved); Extends(w, s.w) && NavsOnly(s)
  {
    hide SignDoneStep, ActiveSigns, Delegated, ReturnToOwner;
    if w.acts[a].adhoc.Some? { SignDoneExtends(env, w, p, w.acts[a].adhoc.value, approved); }
  }

  lemma CompleteDrifts(env: Env, w: World, a: nat, vars: Vars)
    requires Wf(w)
    ensures var s := PrepComplete(env, w, a, vars); Wf(s.w) && Drifts(w, s.w) && NavsOnly(s)
  {
    hide FinishOne, CompleteRest, Wf, Drifts;
    ExtendsDrifts(w, w);
    if IsActiveTask(w, a) {
      var p := w.acts[a].at.inst;
      var w1 := FinishOne(w, a);
      ExtendsDrifts(w, w1);
      if p in w.insts {
        var w2 := Submit(w1, p, vars);
        SnapshotDrifts(w1, w2, p);
        DriftsTransitive(w, w1, w2);
        var s := PrepComplete(env, w, a, vars);
        CompleteExtends(env, w2, p, a, Approves(vars));
        ExtendsDrifts(w2, s.w);
        DriftsTransitive(w, w2, s.w);
      }
    }
  }

  lemma SnapshotDrifts(w: World, w1: World, p: nat)
    requires Wf(w) && p in w.insts && w1.acts == w.acts && w1.next == w.next
    requires exists vars :: w1.insts == w.insts[p := w.insts[p].(snapshot := vars)]
    ensures Wf(w1) && Drifts(w, w1)
  {
  }

  predicate ChangesState(op: Op) {
    op.Start? || op.Suspend? || op.Resume? || op.Terminate? || (op.Reject? && op.mode == ToEnd)
  }

  lemma SignOpExtends(env: Env, w: World, op: Op)
    requires op.AddSign? || op.RemoveSign?
    ensures Extends(w, Prep(env, w, op).w) && NavsOnly(Prep(env, w, op))
  {
    hide FinishOne, OpenSession, AddSigns, ActiveSigns, Sessions;
  }

  lemma MoveOpExtends(env: Env, w: World, op: Op)
    requires (op.Reject? && op.mode != ToEnd) || op.Jump? || op.Reclaim?
    ensures Extends(w, Prep(env, w, op).w) && NavsOnly(Prep(env, w, op))
  {
    hide FinishOne, Located, Revisit, ForgetSigns, LatestElsewhere, DelegateVars, RejectLimit, DelVars, RejectTo,
        ReclaimTo;
  }

  lemma AssigneeOpExtends(env: Env, w: World, op: Op)
    requires op.Delegate? || op.Transfer? || op.Claim? || op.Unclaim?
    ensures Extends(w, Prep(env, w, op).w) && NavsOnly(Prep(env, w, op))
  {
    hide CandidateList;
  }

  // The operations on a task other than completion leave the instances alone.
  lemma TaskOpExtends(env: Env, w: World, op: Op)
    requires !ChangesState(op) && !op.Complete?
    ensures Extends(w, Prep(env, w, op).w) && NavsOnly(Prep(env, w, op))
  {
    hide Prep;
    if op.AddSign? || op.RemoveSign? { SignOpExtends(env, w, op); }
    else if op.Reject? || op.Jump? || op.Reclaim? { MoveOpExtends(env, w, op); }
    else { AssigneeOpExtends(env, w, op); }
  }

  lemma SetStateMoves(w: World, p: nat, s: InstState, ended: bool)
    requires Wf(w) && p in w.insts && Move(w.insts[p].state, s) && ended == HasEnded(s)
    ensures Wf(SetState(w, p, s, ended)) && Moves(w, SetState(w, p, s, ended))
  {
  }

  lemma DriftsAreMoves(w: World, w1: World)
    requires Drifts(w, w1)
    ensures Moves(w, w1)
  {
  }

  lemma PrepMoves(env: Env, w: World, op: Op)
    requires Wf(w)
    ensures var s := Prep(env, w, op);
            Wf(s.w) && Moves(w, s.w) && NavsOnly(s) && (Drifts(w, s.w) || s.Stuck? || s.jobs == [])
  {
    hide Wf, Drifts, Moves;
    var s := Prep(env, w, op);
    ExtendsDrifts(w, w);
    DriftsAreMoves(w, w);
    if !ChangesState(op) {
      hide Prep;
      if op.Complete? {
        CompletePrepDrifts(env, w, op);
      } else {
        TaskOpExtends(env, w, op);
        ExtendsDrifts(w, s.w);
      }
      DriftsAreMoves(w, s.w);
    } else if op.Start? {
      StartDrifts(env, w, op);
      DriftsAreMoves(w, s.w);
    } else {
      hide Prep;
      StateOpMoves(env, w, op);
    }
  }

  lemma CompletePrepDrifts(env: Env, w: World, op: Op)
    requires Wf(w) && op.Complete?
    ensures var s := Prep(env, w, op); Wf(s.w) && Drifts(w, s.w) && NavsOnly(s)
  {
    hide PrepComplete, Wf, Drifts;
    CompleteDrifts(env, w, op.act, op.vars);
  }

  lemma StartDrifts(env: Env, w: World, op: Op)
    requires Wf(w) && op.Start?
    ensures var s := Prep(env, w, op); Wf(s.w) && Drifts(w, s.w) && NavsOnly(s)
  {
    hide Wf, Drifts, NewInstance, WellFormed;
    ExtendsDrifts(w, w);
    var w1 := NewInstance(w, op.def, None, op.vars);
    NewInstanceDrifts(w, op.def, None, op.vars);
    var s := Prep(env, w, op);
    if s.Go? {
      assert Extends(w1, s.w);
      ExtendsDrifts(w1, s.w);
      DriftsTransitive(w, w1, s.w);
    }
  }

  lemma StateOpMoves(env: Env, w: World, op: Op)
    requires Wf(w) && ChangesState(op) && !op.Start?
    ensures var s := Prep(env, w, op); Wf(s.w) && Moves(w, s.w) && (s.Go? ==> s.jobs == [])
  {
    hide Wf, Moves, Drifts, FinishAll, DropAllOf, RejectToEnd, RejectTo, RejectLimit;
    ExtendsDrifts(w, w);
    DriftsAreMoves(w, w);
    match op
    case Suspend(p) => if p in w.insts
        && w.insts[p].state == Running { WfEnded(w, p); SetStateMoves(w, p, Suspended, w.insts[p].ended); }
    case Resume(p) => if p in w.insts
        && w.insts[p].state == Suspended { WfEnded(w, p); SetStateMoves(w, p, Running, w.insts[p].ended); }
    case Terminate(p) =>
      if PrepTerminate(w, p).Go? {
        var active := set a | a in w.acts && w.acts[a].at.inst == p && w.acts[a].state == Active;
        var w1 := FinishAll(DropAllOf(w, p), active);
        SetStateAfter(w, w1, p, Terminated);
      }
    case Reject(a, mode, target, reason) =>
      if PrepReject(env, w, a, mode, target, reason).Go? { RejectToEndMoves(w, a, w.acts[a].at.inst, reason); }
    case _ => assert false;
  }

  lemma RejectToEndMoves(w: World, a: nat, p: nat, reason: string)
    requires Wf(w) && a in w.acts && p in w.insts && w.insts[p].state == Running
    ensures Wf(RejectToEnd(w, a, p, reason)) && Moves(w, RejectToEnd(w, a, p, reason))
  {
    hide Wf, Moves, FinishOne, DropAllOf;
    SetStateAfter(w, DropAllOf(FinishOne(w, a), p), p, Rejected);
    var w1 := SetState(DropAllOf(FinishOne(w, a), p), p, Rejected, true);
    ExtendsDrifts(w1, RejectToEnd(w, a, p, reason));
    SameInstsMoves(w, w1, RejectToEnd(w, a, p, reason));
  }

  lemma WfEnded(w: World, p: nat)
    requires Wf(w) && p in w.insts
    ensures w.insts[p].ended <==> HasEnded(w.insts[p].state)
  {
  }

  lemma SetStateAfter(w: World, w1: World, p: nat, s: InstState)
    requires Wf(w) && Extends(w, w1) && p in w.insts && Move(w.insts[p].state, s) && HasEnded(s)
    ensures Wf(SetState(w1, p, s, true)) && Moves(w, SetState(w1, p, s, true))
  {
    ExtendsDrifts(w, w1);
    SetStateMoves(w1, p, s, true);
  }

  lemma SameInstsMoves(w: World, w1: World, w2: World)
    requires Moves(w, w1) && Extends(w1, w2)
    ensures Moves(w, w2)
  {
  }

  // One public operation, with all the navigation it causes: whether it succeeds or fails part-way,
  // states move only along `Move`, and an instance has an end time exactly when it has ended.
  lemma OperationMoves(env: Env, w: World, op: Op, n: nat)
    requires Wf(w)
    ensures var o := Apply(env, w, op, n); !o.More? ==> Wf(o.w) && Moves(w, o.w)
  {
    hide Prep, Wf, Moves, Drifts;
    PrepMoves(env, w, op);
    ExtendsDrifts(w, w);
    DriftsAreMoves(w, w);
    match Prep(env, w, op)
    case Stuck(_) =>
    case Go(w1, jobs) =>
      ExecDrifts(env, w1, jobs, n);
      if jobs != [] && !Exec(env, w1, jobs, n).More? {
        DriftsTransitive(w, w1, Exec(env, w1, jobs, n).w);
        DriftsAreMoves(w, Exec(env, w1, jobs, n).w);
      }
  }

  lemma PerformsMoves(env: Env, w: World, op: Op, w1: World)
    requires Wf(w) && Performs(env, w, op, w1)
    ensures Wf(w1) && Moves(w, w1)
  {
    hide Apply, Wf, Moves;
    var n: nat :| !Apply(env, w, op, n).More? && Apply(env, w, op, n).w == w1;
    OperationMoves(env, w, op, n);
  }

  // Over any number of steps: only Running and Suspended can be left for something else and come back.
  predicate Leads(s: InstState, t: InstState) {
    s == t || s == Running || s == Suspended || (s == Rejected && t == Terminated)
  }

  // Over every sequence of public operations: Completed and Terminated are final, Rejected can only become
  // Terminated, and the end time is set exactly in the three ended states.
  lemma {:induction false} LifecycleLaw(env: Env, ws: seq<World>, ops: seq<Op>, p: nat, i: nat, j: nat)
    requires History(env, ws, ops) && Wf(ws[0])
    requires i <= j < |ws| && p in ws[i].insts
    ensures Wf(ws[j]) && p in ws[j].insts
    ensures Leads(ws[i].insts[p].state, ws[j].insts[p].state)
    ensures ws[j].insts[p].ended <==> HasEnded(ws[j].insts[p].state)
    decreases j
  {
    hide Performs;
    if j > 0 {
      if i < j {
        LifecycleLaw(env, ws, ops, p, i, j - 1);
      } else {
        HistoryWf(env, ws, ops, j - 1);
      }
      PerformsMoves(env, ws[j - 1], ops[j - 1], ws[j]);
    }
  }

  lemma {:induction false} HistoryWf(env: Env, ws: seq<World>, ops: seq<Op>, j: nat)
    requires History(env, ws, ops) && Wf(ws[0]) && j < |ws|
    ensures Wf(ws[j])
  {
    hide Performs, Wf;
    if j > 0 {
      HistoryWf(env, ws, ops, j - 1);
      PerformsMoves(env, ws[j - 1], ops[j - 1], ws[j]);
    }
  }
}
