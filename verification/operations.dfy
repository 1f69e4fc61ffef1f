// The public operations. Each one prepares a world and an agenda; the agenda is then run by the machine.

module Operations {
  import opened Spec
  import opened Model
  import opened Machine

  datatype RejectMode = Previous | Initiator | Specific | ToEnd | OtherMode

  // Where an operation depends on a search (the target of a rejection, the task to reclaim to, the sign
  // activity to remove), the result of that search is an argument here.
  datatype Op =
    | Start(def: string, vars: Vars)
    | Complete(act: nat, vars: Vars)
    | AddSign(act: nat, backward: bool, signType: string, strategy: string, assignees: seq<string>)
    | RemoveSign(act: nat, child: Option<nat>)
    | Reject(act: nat, mode: RejectMode, target: string, reason: string)
    | Jump(act: nat, target: string)
    | Reclaim(act: nat, target: string)
    | Delegate(act: nat, to: string)
    | Transfer(act: nat, to: string)
    | Claim(act: nat, user: string)
    | Unclaim(act: nat)
    | Suspend(inst: nat)
    | Resume(inst: nat)
    | Terminate(inst: nat)

  // ---- Small steps shared by the operations ----

  ghost function FinishOne(w: World, a: nat): (r: World)
    requires a in w.acts
    ensures Extends(w, r) && r.acts.Keys == w.acts.Keys
  {
    w.(acts := w.acts[a := w.acts[a].(state := Done, stamp := w.clock)], clock := w.clock + 1)
  }

  function SetState(w: World, p: nat, s: InstState, ended: bool): World
    requires p in w.insts
  {
    w.(insts := w.insts[p := w.insts[p].(state := s, ended := ended)])
  }

  ghost function DropAllOf(w: World, p: nat): (r: World)
    ensures Extends(w, r)
  {
    w.(toks := TokensElsewhere(w.toks, p))
  }

  // The tokens that are not tokens of instance p.
  ghost function TokensElsewhere(toks: multiset<Place>, p: nat): (rest: multiset<Place>)
    ensures forall at :: rest[at] == if at.inst == p then 0 else toks[at]
    decreases |toks|
  {
    if forall at :: at in toks ==> at.inst != p then toks
    else
      var at :| at in toks && at.inst == p;
      TokensElsewhere(toks[at := 0], p)
  }

  function MergeVars(w: World, p: nat, vars: Vars): World {
    if vars == map[] then w else w.(vars := w.vars[p := VarsOf(w, p) + vars])
  }

  // The open sign sessions of an activity.
  function Sessions(vars: Vars, parent: nat): set<nat> {
    set k | k in vars && k.SignVar? && k.signField == Parent && vars[k] == Ref(parent) :: k.sign
  }

  function SessionVars(sessions: set<nat>, vars: Vars): set<VarName> {
    set k | k in vars && k.SignVar? && k.sign in sessions
  }

  function DelegateVars(a: nat): set<VarName> {
    {DelegateTo(a), DelegateOrig(a), DelegateReturn(a)}
  }

  // A fresh activity and token at a user task, as rejection, jump and reclaim create them.
  ghost function Revisit(env: Env, w: World, at: Place, kind: Kind, def: Definition): (r: World)
    ensures Extends(w, r)
  {
    var assignee := if at.elem in def.elements && def.elements[at.elem].UserTask?
                    then Rendered(env, def.elements[at.elem].assignee, VarsOf(w, at.inst)) else "";
    AddAct(AddTok(w, at), NewAct(at, kind, assignee))
  }

  ghost predicate IsActive(w: World, a: nat) {
    a in w.acts && w.acts[a].state == Active
  }

  ghost predicate IsActiveTask(w: World, a: nat) {
    IsActive(w, a) && w.acts[a].kind == UserKind
  }

  // The definition of the instance that activity a belongs to is known.
  ghost predicate Located(env: Env, w: World, a: nat) {
    && a in w.acts
    && w.acts[a].at.inst in w.insts
    && w.insts[w.acts[a].at.inst].def in env.defs
  }

  ghost function DefOf(env: Env, w: World, a: nat): Definition
    requires Located(env, w, a)
  {
    env.defs[w.insts[w.acts[a].at.inst].def]
  }

  // ---- Starting and completing ----

  ghost function PrepStart(env: Env, w: World, def: string, vars: Vars): Step {
    if def !in env.defs || !WellFormed(env.defs[def]) then Stuck(w)
    else StartFrom(env, NewInstance(w, def, None, vars), w.next, env.defs[def].start)
  }

  // The caller's variables are merged into the store and into the instance's own record.
  ghost function Submit(w: World, p: nat, vars: Vars): World
    requires p in w.insts
  {
    MergeVars(w, p, vars).(insts := w.insts[p := w.insts[p].(snapshot := w.insts[p].snapshot + vars)])
  }

  predicate Approves(vars: Vars) {
    User("approved") in vars && vars[User("approved")] == Flag(true)
  }

  ghost function PrepComplete(env: Env, w: World, a: nat, vars: Vars): Step {
    if !IsActiveTask(w, a) then Stuck(w)
    else
      var p := w.acts[a].at.inst;
      var w1 := FinishOne(w, a);
      if p !in w.insts then Stuck(w1) else CompleteRest(env, Submit(w1, p, vars), p, a, Approves(vars))
  }

  // What follows once activity a is done: a sign activity reports to its session, a task with open signs
  // waits for them, a delegated task goes back to its owner, and any other task's token moves on.
  ghost function CompleteRest(env: Env, w: World, p: nat, a: nat, approved: bool): Step
    requires a in w.acts
  {
    var at := w.acts[a].at;
    if w.acts[a].adhoc.Some? then SignDoneStep(env, w, p, w.acts[a].adhoc.value, approved)
    else if ActiveSigns(w, p, a) != {} then Go(w, [])
    else
      var w1 := DropOne(w, at);
      if Delegated(env, w1, a) then Go(ReturnToOwner(env, w1, a), []) else Go(w1, [Nav(p, at.elem)])
  }

  // ---- Sign sessions ----

  ghost function OpenSession(w: World, p: nat, a: nat, signType: string, strategy: string, n: nat): (r: World)
    ensures Extends(w, r)
  {
    var id := w.next;
    var w1 := SetVar(w.(next := id + 1), p, SignVar(id, SignType), Text(signType));
    var w2 := SetVar(w1, p, SignVar(id, Strategy), Text(strategy));
    var w3 := SetVar(w2, p, SignVar(id, SignTotal), Num(n));
    var w4 := SetVar(w3, p, SignVar(id, SignDone), Num(0));
    var w5 := SetVar(w4, p, SignVar(id, Approved), Num(0));
    SetVar(w5, p, SignVar(id, Parent), Ref(a))
  }

  // One sign activity and one token, at the parent's element, for each assignee.
  ghost function AddSigns(env: Env, w: World, at: Place, a: nat, assignees: seq<string>): (r: World)
    ensures Extends(w, r) && w.acts.Keys <= r.acts.Keys
  {
    if assignees == [] then w
    else
      var last := |assignees| - 1;
      var w1 := AddSigns(env, w, at, a, assignees[..last]);
      AddTok(AddAct(w1, NewAct(at, UserKind,
          Rendered(env, assignees[last], VarsOf(w1, at.inst))).(adhoc := Some(a))), at)
  }

  ghost function PrepAddSign(env: Env, w: World, a: nat, backward: bool, signType: string, strategy: string,
      assignees: seq<string>): Step {
    if assignees == [] || !IsActiveTask(w, a) || w.acts[a].adhoc.Some? then Stuck(w)
    else
      var at := w.acts[a].at;
      if at.inst !in w.insts || w.insts[at.inst].state != Running then Stuck(w)
      else
        var w1 := OpenSession(w, at.inst, a, signType, strategy, |assignees|);
        var w2 := AddSigns(env, w1, at, a, assignees);
        Go(if backward then DropOne(FinishOne(w2, a), at) else w2, [])
  }

  // A sign activity is done: count it, and close the session when the strategy says so.
  ghost function SignDoneStep(env: Env, w: World, p: nat, parent: nat, approved: bool): Step {
    if parent !in w.acts then Stuck(w)
    else
      var vars := VarsOf(w, p);
      if Sessions(vars, parent) == {} then Go(w, [])
      else
        var id := Pick(env, Sessions(vars, parent), w.clock);
        var done := NumAt(vars, SignVar(id, SignDone)) + 1;
        var approvals := NumAt(vars, SignVar(id, Approved)) + (if approved then 1 else 0);
        var w1 := SetVar(SetVar(w, p, SignVar(id, SignDone), Num(done)), p, SignVar(id, Approved), Num(approvals));
        if SessionOver(vars, id, done, approvals) then CloseSession(w1, p, parent, id) else Go(w1, [])
  }

  predicate SessionOver(vars: Vars, id: nat, done: int, approvals: int) {
    var strategy := SignVar(id, Strategy);
    && strategy in vars
    && (|| (vars[strategy] == Text("or") && approvals >= 1)
        || (vars[strategy] == Text("and") && done >= NumAt(vars, SignVar(id, SignTotal))))
  }

  ghost function CloseSession(w: World, p: nat, parent: nat, id: nat): Step
    requires parent in w.acts
  {
    var at := Place(p, w.acts[parent].at.elem);
    var over := w.acts[parent].state == Done;
    var w1 := FinishAll(w, ActiveSigns(w, p, parent));
    var keep := if over || w1.toks[at] == 0 then 0 else 1;
    var w2 := DelVars(w1.(toks := w1.toks[at := keep]), p, SessionVars({id}, VarsOf(w1, p)));
    if over then Go(AddTok(w2, at), [Nav(p, at.elem)]) else Go(w2, [])
  }

  ghost function PrepRemoveSign(env: Env, w: World, a: nat, child: Option<nat>): Step {
    if !IsActive(w, a) || child.None? || child.value !in ActiveSigns(w, w.acts[a].at.inst, a) then Stuck(w)
    else
      var p := w.acts[a].at.inst;
      var vars := VarsOf(w, p);
      var w1 := DropOne(FinishOne(w, child.value), w.acts[a].at);
      if Sessions(vars, a) == {} then Go(w1, [])
      else
        var done := SignVar(Pick(env, Sessions(vars, a), w1.clock), SignDone);
        Go(SetVar(w1, p, done, Num(NumAt(vars, done) + 1)), [])
  }

  // ---- Delegation ----

  ghost function PrepDelegate(w: World, a: nat, to: string): Step {
    if !IsActiveTask(w, a) then Stuck(w)
    else
      var p := w.acts[a].at.inst;
      var w1 := SetVar(SetVar(w, p, DelegateOrig(a), Text(w.acts[a].assignee)), p, DelegateTo(a), Text(to));
      Go(w1.(acts := w1.acts[a := w1.acts[a].(assignee := to)]), [])
  }

  ghost predicate Delegated(env: Env, w: World, a: nat)
    requires a in w.acts
  {
    var vars := VarsOf(w, w.acts[a].at.inst);
    Located(env, w, a) && DelegateTo(a) in vars && DelegateOrig(a) in vars
  }

  // The delegate is done: a new activity and token at the same element, for the task's own assignee.
  ghost function ReturnToOwner(env: Env, w: World, a: nat): (r: World)
    requires a in w.acts && Delegated(env, w, a)
    ensures Extends(w, r)
  {
    var at := w.acts[a].at;
    var def := DefOf(env, w, a);
    var vars := VarsOf(w, at.inst);
    var assignee :=
      if at.elem in def.elements && def.elements[at.elem].UserTask?
      then Rendered(env, def.elements[at.elem].assignee, vars)
      else if vars[DelegateOrig(a)].Text? then vars[DelegateOrig(a)].s else "";
    SetVar(AddTok(AddAct(w, NewAct(at, UserKind, assignee)), at), at.inst, DelegateReturn(a), Flag(true))
  }

  // ---- Moving a task: rejection, jump, reclaim ----

  function RejectLimit(vars: Vars): int {
    if NumAt(vars, MaxRejection) > 0 then NumAt(vars, MaxRejection) else 5
  }

  ghost function PrepReject(env: Env, w: World, a: nat, mode: RejectMode, target: string, reason: string): Step {
    if !IsActiveTask(w, a) || !Located(env, w, a) || w.insts[w.acts[a].at.inst].state != Running then Stuck(w)
    else
      var p := w.acts[a].at.inst;
      var vars := VarsOf(w, p);
      var count := NumAt(vars, RejectionCount);
      if count >= RejectLimit(vars) || mode == OtherMode then Stuck(w)
      else if mode == ToEnd then Go(RejectToEnd(w, a, p, reason), [])
      else if target == "" || (mode == Specific && target !in DefOf(env, w, a).elements) then Stuck(w)
      else Go(RejectTo(env, w, a, mode, target, reason, DefOf(env, w, a)), [])
  }

  ghost function RejectToEnd(w: World, a: nat, p: nat, reason: string): World
    requires a in w.acts && p in w.insts
  {
    SetVar(SetState(DropAllOf(FinishOne(w, a), p), p, Rejected, true), p, RejectionReason, Text(reason))
  }

  ghost function RejectTo(env: Env, w: World, a: nat, mode: RejectMode, target: string, reason: string,
      def: Definition): (r: World)
    requires a in w.acts
    ensures Extends(w, r)
  {
    var p := w.acts[a].at.inst;
    var count := NumAt(VarsOf(w, p), RejectionCount);
    var w1 := Revisit(env, DropOne(FinishOne(w, a), w.acts[a].at), Place(p, target), UserKind, def);
    var w2 := DelVars(SetVar(w1, p, RejectionCount, Num(count + 1)), p, DelegateVars(a));
    var w3 := if reason == "" then w2 else SetVar(w2, p, RejectionReason, Text(reason));
    if mode == Initiator then SetVar(w3, p, RejectedToInitiator, Flag(true)) else w3
  }

  // The sign activities of a task that is moved are completed and its sessions forgotten.
  ghost function ForgetSigns(w: World, p: nat, a: nat): (r: World)
    ensures Extends(w, r)
  {
    var w1 := FinishAll(w, ActiveSigns(w, p, a));
    DelVars(w1, p, SessionVars(Sessions(VarsOf(w1, p), a), VarsOf(w1, p)))
  }

  ghost function PrepJump(env: Env, w: World, a: nat, target: string): Step {
    if !IsActiveTask(w, a) || w.acts[a].adhoc.Some? || !Located(env, w, a) || target !in DefOf(env, w, a).elements
        then Stuck(w)
    else
      var p := w.acts[a].at.inst;
      var at := Place(p, target);
      var def := DefOf(env, w, a);
      var w1 := ForgetSigns(DropOne(FinishOne(w, a), w.acts[a].at), p, a);
      var w2 := DelVars(w1, p, DelegateVars(a));
      if def.elements[target].EndEvent? then Go(AddTok(w2, at), [Nav(p, target)])
      else
        var w3 := if def.elements[target].UserTask? then Revisit(env, w2, at, UserKind, def) else AddTok(w2, at);
        Go(SetVar(w3, p, JumpFrom(a), Text(target)), [])
  }

  // `target` is the element of the most recently completed user task elsewhere in the instance.
  ghost predicate LatestElsewhere(w: World, a: nat, target: string)
    requires a in w.acts
  {
    exists b :: IsLatest(w, a, b) && w.acts[b].at.elem == target
  }

  ghost predicate IsLatest(w: World, a: nat, b: nat)
    requires a in w.acts
  {
    CompletedElsewhere(w, a, b) && forall c :: CompletedElsewhere(w, a, c) ==> w.acts[c].stamp <= w.acts[b].stamp
  }

  ghost predicate CompletedElsewhere(w: World, a: nat, b: nat)
    requires a in w.acts
  {
    && b in w.acts && w.acts[b].state == Done && w.acts[b].kind == UserKind
    && w.acts[b].at.inst == w.acts[a].at.inst && w.acts[b].at.elem != w.acts[a].at.elem
  }

  ghost function PrepReclaim(env: Env, w: World, a: nat, target: string): Step {
    if !IsActive(w, a) || w.acts[a].adhoc.Some? || !Located(env, w, a) || target == ""
        || !LatestElsewhere(w, a, target) then Stuck(w)
    else Go(ReclaimTo(env, w, a, target, DefOf(env, w, a)), [])
  }

  ghost function ReclaimTo(env: Env, w: World, a: nat, target: string, def: Definition): (r: World)
    requires a in w.acts
    ensures Extends(w, r)
  {
    var p := w.acts[a].at.inst;
    var w1 := DropOne(FinishOne(w, a), w.acts[a].at);
    var w2 := ForgetSigns(Revisit(env, w1, Place(p, target), w.acts[a].kind, def), p, a);
    SetVar(DelVars(w2, p, DelegateVars(a)), p, Reclaimed(a), Text(target))
  }

  // ---- Assignment ----

  function CandidateList(w: World, p: nat, a: nat): seq<Value> {
    var vars := VarsOf(w, p);
    if Candidates(a) in vars && vars[Candidates(a)].List? then vars[Candidates(a)].items else []
  }

  ghost function PrepTransfer(w: World, a: nat, to: string): Step {
    if !IsActiveTask(w, a) then Stuck(w)
    else
      var w1 := SetVar(w, w.acts[a].at.inst, Transferred(a), Text(w.acts[a].assignee + "->" + to));
      Go(w1.(acts := w1.acts[a := w1.acts[a].(assignee := to)]), [])
  }

  ghost function PrepClaim(w: World, a: nat, user: string): Step {
    if a !in w.acts || w.acts[a].state != Unclaimed || w.acts[a].kind != UserKind then Stuck(w)
    else
      var cands := CandidateList(w, w.acts[a].at.inst, a);
      if cands != [] && Text(user) !in cands then Stuck(w)
      else Go(w.(acts := w.acts[a := w.acts[a].(assignee := user, state := Active)]), [])
  }

  ghost function PrepUnclaim(w: World, a: nat): Step {
    if !IsActive(w, a) || CandidateList(w, w.acts[a].at.inst, a) == [] then Stuck(w)
    else Go(w.(acts := w.acts[a := w.acts[a].(assignee := "", state := Unclaimed)]), [])
  }

  // ---- Lifecycle ----

  ghost function PrepSuspend(w: World, p: nat): Step {
    if p !in w.insts || w.insts[p].state != Running then Stuck(w)
    else Go(SetState(w, p, Suspended, w.insts[p].ended), [])
  }

  ghost function PrepResume(w: World, p: nat): Step {
    if p !in w.insts || w.insts[p].state != Suspended then Stuck(w)
    else Go(SetState(w, p, Running, w.insts[p].ended), [])
  }

  ghost function PrepTerminate(w: World, p: nat): Step {
    if p !in w.insts || w.insts[p].state == Completed || w.insts[p].state == Terminated then Stuck(w)
    else
      var active := set a | a in w.acts && w.acts[a].at.inst == p && w.acts[a].state == Active;
      Go(SetState(FinishAll(DropAllOf(w, p), active), p, Terminated, true), [])
  }

  // ---- One operation ----

  ghost function Prep(env: Env, w: World, op: Op): Step {
    match op
    case Start(def, vars) => PrepStart(env, w, def, vars)
    case Complete(a, vars) => PrepComplete(env, w, a, vars)
    case AddSign(a, backward, signType, strategy, assignees) => PrepAddSign(env, w, a, backward, signType, strategy,
        assignees)
    case RemoveSign(a, child) => PrepRemoveSign(env, w, a, child)
    case Reject(a, mode, target, reason) => PrepReject(env, w, a, mode, target, reason)
    case Jump(a, target) => PrepJump(env, w, a, target)
    case Reclaim(a, target) => PrepReclaim(env, w, a, target)
    case Delegate(a, to) => PrepDelegate(w, a, to)
    case Transfer(a, to) => PrepTransfer(w, a, to)
    case Claim(a, user) => PrepClaim(w, a, user)
    case Unclaim(a) => PrepUnclaim(w, a)
    case Suspend(p) => PrepSuspend(w, p)
    case Resume(p) => PrepResume(w, p)
    case Terminate(p) => PrepTerminate(w, p)
  }

  // Starting and completing run in a transaction: when they fail, the world is as it was.
  predicate Transactional(op: Op) {
    op.Start? || op.Complete?
  }

  ghost function Apply(env: Env, w: World, op: Op, n: nat): Outcome {
    match Finish(env, Prep(env, w, op), n)
    case Failed(w1) => Failed(if Transactional(op) then w else w1)
    case o => o
  }

  // The operation can take the engine from w to w1, by succeeding or by failing.
  ghost predicate Performs(env: Env, w: World, op: Op, w1: World) {
    exists n: nat :: !Apply(env, w, op, n).More? && Apply(env, w, op, n).w == w1
  }

  // The worlds the engine goes through while it performs some operations, one after the other.
  ghost predicate History(env: Env, ws: seq<World>, ops: seq<Op>) {
    |ws| == |ops| + 1 && forall i :: 0 <= i < |ops| ==> Performs(env, ws[i], ops[i], ws[i + 1])
  }
}
