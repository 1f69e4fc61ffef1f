// When each operation is accepted and what it leaves behind, said of the tables alone.

module Guards {
  import opened Spec
  import opened Model
  import opened Machine
  import opened Operations
  import opened Choices
  import Optimistic

  // ---- What the operations speak of ----

  // A user task that somebody is working on.
  ghost predicate Todo(w: World, a: nat) {
    a in w.acts && w.acts[a].state == Active && w.acts[a].kind == UserKind
  }

  // The process instance of an activity and its definition are known.
  ghost predicate Placed(env: Env, w: World, a: nat) {
    a in w.acts && w.acts[a].at.inst in w.insts && w.insts[w.acts[a].at.inst].def in env.defs
  }

  ghost predicate RunningAt(w: World, a: nat) {
    a in w.acts && w.acts[a].at.inst in w.insts && w.insts[w.acts[a].at.inst].state == Running
  }

  // Activity b is a new one at this place, for whom the element's expression names of these variables.
  ghost predicate Fresh(env: Env, b: Act, at: Place, kind: Kind, def: Definition, vars: Vars) {
    && b.at == at && b.kind == kind && b.state == Active && b.adhoc.None? && b.loop.None?
    && (at.elem in def.elements && def.elements[at.elem].UserTask? && def.elements[at.elem].assignee != "" ==>
          b.assignee == env.render(def.elements[at.elem].assignee, vars))
    && (at.elem in def.elements && def.elements[at.elem].UserTask? && def.elements[at.elem].assignee == "" ==>
          b.assignee == "")
    && (at.elem in def.elements && !def.elements[at.elem].UserTask? ==> b.assignee == "")
    && (at.elem !in def.elements ==> b.assignee == "")
  }

  // Nothing is remembered of a delegation of activity a.
  predicate NotDelegated(vars: Vars, a: nat) {
    DelegateTo(a) !in vars && DelegateOrig(a) !in vars && DelegateReturn(a) !in vars
  }

  // No session of activity a is open.
  ghost predicate NoSession(vars: Vars, a: nat) {
    forall id: nat :: SignVar(id, Parent) in vars ==> vars[SignVar(id, Parent)] != Ref(a)
  }

  // ---- Suspending, resuming, terminating ----

  lemma SuspendAccepted(env: Env, w: World, p: nat, n: nat)
    ensures Apply(env, w, Op.Suspend(p), n).Ended? <==> p in w.insts && w.insts[p].state == Running
    ensures var o := Apply(env, w, Op.Suspend(p), n);
            if o.Ended? then o.w == w.(insts := w.insts[p := w.insts[p].(state := Suspended)]) else o == Failed(w)
  {
  }

  lemma ResumeAccepted(env: Env, w: World, p: nat, n: nat)
    ensures Apply(env, w, Op.Resume(p), n).Ended? <==> p in w.insts && w.insts[p].state == Suspended
    ensures var o := Apply(env, w, Op.Resume(p), n);
            if o.Ended? then o.w == w.(insts := w.insts[p := w.insts[p].(state := Running)]) else o == Failed(w)
  {
  }

  // Resuming takes a suspension back.
  lemma SuspendThenResume(env: Env, w: World, p: nat, n: nat)
    requires p in w.insts && w.insts[p].state == Running
    ensures var o := Apply(env, w, Op.Suspend(p), n);
            o.Ended? && Apply(env, o.w, Op.Resume(p), n) == Ended(w)
  {
    SuspendAccepted(env, w, p, n);
    var w1 := Apply(env, w, Op.Suspend(p), n).w;
    ResumeAccepted(env, w1, p, n);
    assert w1.insts[p := w1.insts[p].(state := Running)] == w.insts;
  }

  // Terminating refuses Completed and Terminated instances only, and leaves the instance without tokens and
  // active activities; everything of other instances stays.
  lemma TerminateEnds(env: Env, w: World, p: nat, n: nat)
    ensures Apply(env, w, Op.Terminate(p), n).Ended? <==>
            p in w.insts && w.insts[p].state != Completed && w.insts[p].state != Terminated
    ensures var o := Apply(env, w, Op.Terminate(p), n);
            && (o.Ended? ==>
                  && o.w.insts == w.insts[p := w.insts[p].(state := Terminated, ended := true)]
                  && (forall at :: o.w.toks[at] == if at.inst == p then 0 else w.toks[at])
                  && o.w.acts.Keys == w.acts.Keys && o.w.vars == w.vars && o.w.log == w.log
                  && (forall a :: a in w.acts && w.acts[a].at.inst == p ==> o.w.acts[a].state != Active)
                  && (forall a :: a in w.acts && w.acts[a].at.inst == p && w.acts[a].state == Active ==>
                        o.w.acts[a] == w.acts[a].(state := Done, stamp := o.w.acts[a].stamp))
                  && (forall a :: a in w.acts && (w.acts[a].at.inst != p || w.acts[a].state != Active) ==>
                        o.w.acts[a] == w.acts[a]))
            && (!o.Ended? ==> o == Failed(w))
  {
  }

  // ---- Assignment ----

  lemma TransferAccepted(env: Env, w: World, a: nat, to: string, n: nat)
    ensures Apply(env, w, Op.Transfer(a, to), n).Ended? <==> Todo(w, a)
    ensures var o := Apply(env, w, Op.Transfer(a, to), n);
            && (o.Ended? ==>
                  && o.w.acts == w.acts[a := w.acts[a].(assignee := to)] && o.w.toks == w.toks && o.w.insts == w.insts
                  && VarsOf(o.w, w.acts[a].at.inst) ==
                       VarsOf(w, w.acts[a].at.inst)[Transferred(a) := Text(w.acts[a].assignee + "->" + to)])
            && (!o.Ended? ==> o == Failed(w))
  {
  }

  // Delegating remembers both names and gives the task to the delegate.
  lemma DelegateAccepted(env: Env, w: World, a: nat, to: string, n: nat)
    ensures Apply(env, w, Op.Delegate(a, to), n).Ended? <==> Todo(w, a)
    ensures var o := Apply(env, w, Op.Delegate(a, to), n);
            && (o.Ended? ==>
                  && o.w.acts == w.acts[a := w.acts[a].(assignee := to)] && o.w.toks == w.toks && o.w.insts == w.insts
                  && VarsOf(o.w, w.acts[a].at.inst) ==
                       VarsOf(w, w.acts[a].at.inst)[DelegateOrig(a) := Text(w.acts[a].assignee)]
                           [DelegateTo(a) := Text(to)])
            && (!o.Ended? ==> o == Failed(w))
  {
  }

  // The users stored as candidates of activity a are these: none when nothing is stored, or no list is.
  ghost predicate CandidatesAre(w: World, a: nat, users: seq<Value>) {
    a in w.acts &&
    var vars := VarsOf(w, w.acts[a].at.inst);
    if Candidates(a) in vars && vars[Candidates(a)].List? then vars[Candidates(a)] == List(users) else users == []
  }

  // Only an unclaimed user task can be claimed, and where candidates are stored only by one of them.
  lemma ClaimAccepted(env: Env, w: World, a: nat, user: string, users: seq<Value>, n: nat)
    requires a in w.acts ==> CandidatesAre(w, a, users)
    ensures Apply(env, w, Op.Claim(a, user), n).Ended? <==>
            && a in w.acts && w.acts[a].state == Unclaimed && w.acts[a].kind == UserKind
            && (users == [] || exists i :: 0 <= i < |users| && users[i] == Text(user))
    ensures var o := Apply(env, w, Op.Claim(a, user), n);
            && (o.Ended? ==> o.w == w.(acts := w.acts[a := w.acts[a].(assignee := user, state := Active)]))
            && (!o.Ended? ==> o == Failed(w))
  {
  }

  // An active activity goes back to its candidates, if it has any.
  lemma UnclaimAccepted(env: Env, w: World, a: nat, users: seq<Value>, n: nat)
    requires a in w.acts ==> CandidatesAre(w, a, users)
    ensures Apply(env, w, Op.Unclaim(a), n).Ended? <==> a in w.acts && w.acts[a].state == Active && users != []
    ensures var o := Apply(env, w, Op.Unclaim(a), n);
            && (o.Ended? ==> o.w == w.(acts := w.acts[a := w.acts[a].(assignee := "", state := Unclaimed)]))
            && (!o.Ended? ==> o == Failed(w))
  {
  }

  // What one candidate claims and gives back, another can claim.
  lemma ClaimThenUnclaim(env: Env, w: World, a: nat, user: string, users: seq<Value>, n: nat)
    requires a in w.acts && CandidatesAre(w, a, users) && users != [] && w.acts[a].assignee == ""
    requires Apply(env, w, Op.Claim(a, user), n).Ended?
    ensures Apply(env, Apply(env, w, Op.Claim(a, user), n).w, Op.Unclaim(a), n) == Ended(w)
  {
    ClaimAccepted(env, w, a, user, users, n);
    var w1 := Apply(env, w, Op.Claim(a, user), n).w;
    UnclaimAccepted(env, w1, a, users, n);
    assert w1.acts[a := w1.acts[a].(assignee := "", state := Unclaimed)] == w.acts;
  }

  // ---- The versioned rows of the same activities ----

  // An activity as a row of the versioned table.
  ghost predicate RowOf(w: World, a: nat, row: Optimistic.Row) {
    && a in w.acts && row.kind == w.acts[a].kind && row.state == w.acts[a].state
    && row.assignee == w.acts[a].assignee && CandidatesAre(w, a, Texts(row.candidates))
  }

  ghost function OpOf(a: nat, intent: Optimistic.Intent): Option<Op> {
    match intent
    case Transfer(to) => Some(Op.Transfer(a, to))
    case Delegate(to) => Some(Op.Delegate(a, to))
    case Claim(user) => Some(Op.Claim(a, user))
    case Unclaim => Some(Op.Unclaim(a))
    case _ => None
  }

  // What a client of the table may do with a row is what the engine accepts of the activity, and it leaves the row
  // of the activity as the engine leaves it.
  lemma AllowedIsAccepted(env: Env, w: World, a: nat, row: Optimistic.Row, intent: Optimistic.Intent, n: nat)
    requires RowOf(w, a, row)
    ensures intent.Complete? ==> (Optimistic.Allowed(intent, row) <==> Todo(w, a))
    ensures OpOf(a, intent).Some? ==>
            var o := Apply(env, w, OpOf(a, intent).value, n);
            && (Optimistic.Allowed(intent, row) <==> o.Ended?)
            && (o.Ended? ==> RowOf(o.w, a, Optimistic.Changed(intent, row)))
  {
    var users := Texts(row.candidates);
    match intent
    case Transfer(to) => TransferAccepted(env, w, a, to, n);
    case Delegate(to) => DelegateAccepted(env, w, a, to, n);
    case Claim(user) =>
      ClaimAccepted(env, w, a, user, users, n);
      assert (exists i :: 0 <= i < |users| && users[i] == Text(user)) <==> user in row.candidates by {
        if user in row.candidates {
          var i :| 0 <= i < |row.candidates| && row.candidates[i] == user;
          assert users[i] == Text(user);
        }
      }
    case Unclaim => UnclaimAccepted(env, w, a, users, n);
    case _ =>
  }

  // ---- Moving a task ----

  // A rejection is accepted below the limit only: the one configured when it is positive, and otherwise five.
  lemma RejectAccepted(env: Env, w: World, a: nat, mode: RejectMode, target: string, reason: string, n: nat)
    ensures Apply(env, w, Op.Reject(a, mode, target, reason), n).Ended? <==>
            && Todo(w, a) && Placed(env, w, a) && RunningAt(w, a)
            && var vars := VarsOf(w, w.acts[a].at.inst);
               && (NumAt(vars, MaxRejection) > 0 ==> NumAt(vars, RejectionCount) < NumAt(vars, MaxRejection))
               && (NumAt(vars, MaxRejection) <= 0 ==> NumAt(vars, RejectionCount) < 5)
               && mode != OtherMode
               && (mode != ToEnd ==> target != "")
               && (mode == Specific ==> target in env.defs[w.insts[w.acts[a].at.inst].def].elements)
    ensures var o := Apply(env, w, Op.Reject(a, mode, target, reason), n); !o.Ended? ==> o == Failed(w)
  {
    hide RejectTo, RejectToEnd, VarsOf, NumAt, Exec;
    ExecNone(env, Prep(env, w, Op.Reject(a, mode, target, reason)).w, n);
  }

  // What a rejection to a task notes: it is counted, the reason is kept unless there is none, the delegation is
  // forgotten, and the target is for whom its own expression names.
  lemma RejectNotes(env: Env, w: World, a: nat, mode: RejectMode, target: string, reason: string, n: nat)
    requires mode != ToEnd && Apply(env, w, Op.Reject(a, mode, target, reason), n).Ended?
    ensures Todo(w, a) && Placed(env, w, a)
    ensures var w1 := Apply(env, w, Op.Reject(a, mode, target, reason), n).w;
            var p := w.acts[a].at.inst;
            var before, after := VarsOf(w, p), VarsOf(w1, p);
            && NumAt(after, RejectionCount) == NumAt(before, RejectionCount) + 1 && NotDelegated(after, a)
            && (reason != "" ==> RejectionReason in after && after[RejectionReason] == Text(reason))
            && (mode == Initiator ==> RejectedToInitiator in after && after[RejectedToInitiator] == Flag(true))
            && (forall k :: k in before && k !in RejectNames(a) ==> k in after && after[k] == before[k])
            && w.next in w1.acts && (a < w.next ==> w1.acts[a] == w.acts[a].(state := Done, stamp := w.clock))
            && Fresh(env, w1.acts[w.next], Place(p, target), UserKind, env.defs[w.insts[p].def], before)
  {
    RejectAccepted(env, w, a, mode, target, reason, n);
    MovedBy(env, w, a, mode, target, reason, n);
    hide Apply, RejectTo, NumAt, VarsOf, Fresh, RejectNames, NotDelegated;
    var def := env.defs[w.insts[w.acts[a].at.inst].def];
    RejectVars(env, w, a, mode, target, reason, def);
    RejectActs(env, w, a, mode, target, reason, def);
  }

  lemma RejectVars(env: Env, w: World, a: nat, mode: RejectMode, target: string, reason: string, def: Definition)
    requires a in w.acts
    ensures var w1 := RejectTo(env, w, a, mode, target, reason, def);
            var p := w.acts[a].at.inst;
            var before, after := VarsOf(w, p), VarsOf(w1, p);
            && NumAt(after, RejectionCount) == NumAt(before, RejectionCount) + 1 && NotDelegated(after, a)
            && (reason != "" ==> RejectionReason in after && after[RejectionReason] == Text(reason))
            && (mode == Initiator ==> RejectedToInitiator in after && after[RejectedToInitiator] == Flag(true))
            && (forall k :: k in before && k !in RejectNames(a) ==> k in after && after[k] == before[k])
  {
    hide RejectTo, VarsOf, NumAt, NotDelegated, RejectNames, DelegateVars;
    RejectVarsAre(env, w, a, mode, target, reason, def);
    var p := w.acts[a].at.inst;
    NotesRead(VarsOf(w, p), a, mode, reason, VarsOf(RejectTo(env, w, a, mode, target, reason, def), p));
  }

  lemma NotesRead(before: Vars, a: nat, mode: RejectMode, reason: string, after: Vars)
    requires var noted := before[RejectionCount := Num(NumAt(before, RejectionCount) + 1)] - DelegateVars(a);
             var told := if reason == "" then noted else noted[RejectionReason := Text(reason)];
             after == if mode == Initiator then told[RejectedToInitiator := Flag(true)] else told
    ensures NumAt(after, RejectionCount) == NumAt(before, RejectionCount) + 1 && NotDelegated(after, a)
    ensures reason != "" ==> RejectionReason in after && after[RejectionReason] == Text(reason)
    ensures mode == Initiator ==> RejectedToInitiator in after && after[RejectedToInitiator] == Flag(true)
    ensures forall k :: k in before && k !in RejectNames(a) ==> k in after && after[k] == before[k]
  {
  }

  lemma RejectVarsAre(env: Env, w: World, a: nat, mode: RejectMode, target: string, reason: string, def: Definition)
    requires a in w.acts
    ensures var p := w.acts[a].at.inst;
            var before := VarsOf(w, p);
            var noted := before[RejectionCount := Num(NumAt(before, RejectionCount) + 1)] - DelegateVars(a);
            var told := if reason == "" then noted else noted[RejectionReason := Text(reason)];
            VarsOf(RejectTo(env, w, a, mode, target, reason, def), p) ==
            if mode == Initiator then told[RejectedToInitiator := Flag(true)] else told
  {
    hide NumAt, Rendered;
  }

  lemma RejectActs(env: Env, w: World, a: nat, mode: RejectMode, target: string, reason: string, def: Definition)
    requires a in w.acts
    ensures var w1 := RejectTo(env, w, a, mode, target, reason, def);
            var p := w.acts[a].at.inst;
            && w.next in w1.acts && (a < w.next ==> w1.acts[a] == w.acts[a].(state := Done, stamp := w.clock))
            && Fresh(env, w1.acts[w.next], Place(p, target), UserKind, def, VarsOf(w, p))
  {
    hide NumAt, DelegateVars;
  }

  // The variables a rejection may change.
  function RejectNames(a: nat): set<VarName> {
    {DelegateTo(a), DelegateOrig(a), DelegateReturn(a), RejectionCount, RejectionReason, RejectedToInitiator}
  }

  lemma MovedBy(env: Env, w: World, a: nat, mode: RejectMode, target: string, reason: string, n: nat)
    requires mode != ToEnd && Apply(env, w, Op.Reject(a, mode, target, reason), n).Ended?
    ensures Placed(env, w, a)
    ensures Apply(env, w, Op.Reject(a, mode, target, reason), n).w ==
            RejectTo(env, w, a, mode, target, reason, env.defs[w.insts[w.acts[a].at.inst].def])
  {
    hide RejectTo, RejectToEnd, VarsOf, NumAt, RejectLimit;
  }

  // A rejection that ends the instance leaves it Rejected, without tokens.
  lemma RejectEnds(env: Env, w: World, a: nat, target: string, reason: string, n: nat)
    requires Apply(env, w, Op.Reject(a, ToEnd, target, reason), n).Ended?
    ensures Todo(w, a) && Placed(env, w, a)
    ensures var w1 := Apply(env, w, Op.Reject(a, ToEnd, target, reason), n).w;
            var p := w.acts[a].at.inst;
            && w1.insts == w.insts[p := w.insts[p].(state := Rejected, ended := true)]
            && (forall at :: w1.toks[at] == if at.inst == p then 0 else w.toks[at])
            && w1.acts == w.acts[a := w.acts[a].(state := Done, stamp := w.clock)]
            && VarsOf(w1, p) == VarsOf(w, p)[RejectionReason := Text(reason)]
  {
    hide RejectLimit, NumAt;
  }

  // A jump is accepted to any element of the definition.
  lemma JumpAccepted(env: Env, w: World, a: nat, target: string)
    ensures Prep(env, w, Op.Jump(a, target)).Go? <==>
            && Todo(w, a) && w.acts[a].adhoc.None? && Placed(env, w, a)
            && target in env.defs[w.insts[w.acts[a].at.inst].def].elements
    ensures !Prep(env, w, Op.Jump(a, target)).Go? ==> Prep(env, w, Op.Jump(a, target)) == Stuck(w)
  {
    hide ForgetSigns, FinishOne, DropOne, DelVars, Revisit, SetVar;
  }

  // Its sessions and its delegation are forgotten; the jump is noted unless it leads to an end event, and a user
  // task it leads to is for whom its own expression names of what is left.
  lemma JumpNotes(env: Env, w: World, a: nat, target: string)
    requires Prep(env, w, Op.Jump(a, target)).Go?
    ensures Todo(w, a) && Placed(env, w, a)
    ensures var w1 := Prep(env, w, Op.Jump(a, target)).w;
            var p := w.acts[a].at.inst;
            var el := env.defs[w.insts[p].def].elements;
            var before, after := VarsOf(w, p), VarsOf(w1, p);
            && NotDelegated(after, a) && NoSession(after, a) && target in el
            && (!el[target].EndEvent? ==> JumpFrom(a) in after && after[JumpFrom(a)] == Text(target))
            && (el[target].EndEvent? ==>
                  Prep(env, w, Op.Jump(a, target)).jobs == [Nav(p, target)] && Place(p, target) in w1.toks)
            && (!el[target].EndEvent? ==> Prep(env, w, Op.Jump(a, target)).jobs == [])
  {
    hide FinishAll;
    var p := w.acts[a].at.inst;
    var w0 := DropOne(FinishOne(w, a), w.acts[a].at);
    ForgetsSessions(w0, p, a);
    hide ForgetSigns, FinishOne, DropOne, ActiveSigns;
    var w1 := ForgetSigns(w0, p, a);
    DeletesNames(w1, p, a);
    var w2 := DelVars(w1, p, DelegateVars(a));
    hide DelVars, VarsOf, NoSession;
    var at := Place(p, target);
    var def := env.defs[w.insts[p].def];
    SameNotes(w2, AddTok(w2, at), p, a);
    SameNotes(w2, Revisit(env, w2, at, UserKind, def), p, a);
    NotedJump(AddTok(w2, at), p, a, target);
    NotedJump(Revisit(env, w2, at, UserKind, def), p, a, target);
  }

  lemma ForgetsSessions(w: World, p: nat, a: nat)
    ensures NoSession(VarsOf(ForgetSigns(w, p, a), p), a)
    ensures ForgetSigns(w, p, a).insts == w.insts
  {
    var w1 := FinishAll(w, ActiveSigns(w, p, a));
    var vars := VarsOf(w, p);
    hide FinishAll, ActiveSigns;
    SameVarsFinish(w, ActiveSigns(w, p, a), p);
    forall id: nat | SignVar(id, Parent) in vars && vars[SignVar(id, Parent)] == Ref(a)
      ensures SignVar(id, Parent) in SessionVars(Sessions(vars, a), vars) {
      assert id in Sessions(vars, a);
    }
  }

  lemma SameVarsFinish(w: World, which: set<nat>, p: nat)
    ensures FinishAll(w, which).vars == w.vars && FinishAll(w, which).insts == w.insts
        && VarsOf(FinishAll(w, which), p) == VarsOf(w, p)
  {
  }

  lemma DeletesNames(w: World, p: nat, a: nat)
    requires NoSession(VarsOf(w, p), a)
    ensures var after := VarsOf(DelVars(w, p, DelegateVars(a)), p); NotDelegated(after, a) && NoSession(after, a)
  {
  }

  lemma SameNotes(w: World, w1: World, p: nat, a: nat)
    requires w1.vars == w.vars && NotDelegated(VarsOf(w, p), a) && NoSession(VarsOf(w, p), a)
    ensures NotDelegated(VarsOf(w1, p), a) && NoSession(VarsOf(w1, p), a)
  {
  }

  lemma NotedJump(w: World, p: nat, a: nat, target: string)
    requires NotDelegated(VarsOf(w, p), a) && NoSession(VarsOf(w, p), a)
    ensures var after := VarsOf(SetVar(w, p, JumpFrom(a), Text(target)), p);
            && NotDelegated(after, a) && NoSession(after, a)
            && JumpFrom(a) in after && after[JumpFrom(a)] == Text(target)
  {
  }

  // The user task that was completed last of those elsewhere in the instance of activity a.
  ghost predicate LastElsewhere(w: World, a: nat, b: nat) {
    && a in w.acts && b in w.acts && w.acts[b].state == Done && w.acts[b].kind == UserKind
    && w.acts[b].at.inst == w.acts[a].at.inst && w.acts[b].at.elem != w.acts[a].at.elem
    && forall c :: c in w.acts && w.acts[c].state == Done && w.acts[c].kind == UserKind
                   && w.acts[c].at.inst == w.acts[a].at.inst && w.acts[c].at.elem != w.acts[a].at.elem ==>
         w.acts[c].stamp <= w.acts[b].stamp
  }

  lemma ReclaimAccepted(env: Env, w: World, a: nat, target: string, n: nat)
    ensures Apply(env, w, Op.Reclaim(a, target), n).Ended? <==>
            && a in w.acts && w.acts[a].state == Active && w.acts[a].adhoc.None? && Placed(env, w, a) && target != ""
            && exists b :: LastElsewhere(w, a, b) && w.acts[b].at.elem == target
    ensures var o := Apply(env, w, Op.Reclaim(a, target), n); !o.Ended? ==> o == Failed(w)
  {
    hide ReclaimTo, Exec;
    ExecNone(env, Prep(env, w, Op.Reclaim(a, target)).w, n);
    if a in w.acts {
      forall b ensures IsLatest(w, a, b) <==> LastElsewhere(w, a, b) {}
    }
  }

  lemma ReclaimNotes(env: Env, w: World, a: nat, target: string, n: nat)
    requires Apply(env, w, Op.Reclaim(a, target), n).Ended?
    ensures Placed(env, w, a)
    ensures var w1 := Apply(env, w, Op.Reclaim(a, target), n).w;
            var p := w.acts[a].at.inst;
            var after := VarsOf(w1, p);
            && NotDelegated(after, a) && NoSession(after, a)
            && Reclaimed(a) in after && after[Reclaimed(a)] == Text(target)
            && w.next in w1.acts
            && Fresh(env, w1.acts[w.next], Place(p, target), w.acts[a].kind, env.defs[w.insts[p].def], VarsOf(w, p))
  {
    ReclaimAccepted(env, w, a, target, n);
    ReclaimsTo(env, w, a, target, n);
    hide Apply, ReclaimTo, Fresh, NoSession, NotDelegated, VarsOf;
    ReclaimParts(env, w, a, target, env.defs[w.insts[w.acts[a].at.inst].def]);
  }

  lemma ReclaimsTo(env: Env, w: World, a: nat, target: string, n: nat)
    requires Apply(env, w, Op.Reclaim(a, target), n).Ended?
    ensures Placed(env, w, a)
    ensures Apply(env, w, Op.Reclaim(a, target), n).w ==
            ReclaimTo(env, w, a, target, env.defs[w.insts[w.acts[a].at.inst].def])
  {
    hide ReclaimTo, LatestElsewhere;
  }

  lemma ReclaimParts(env: Env, w: World, a: nat, target: string, def: Definition)
    requires a in w.acts
    ensures var w1 := ReclaimTo(env, w, a, target, def);
            var p := w.acts[a].at.inst;
            && NotDelegated(VarsOf(w1, p), a) && NoSession(VarsOf(w1, p), a)
            && Reclaimed(a) in VarsOf(w1, p) && VarsOf(w1, p)[Reclaimed(a)] == Text(target)
            && w.next in w1.acts && Fresh(env, w1.acts[w.next], Place(p, target), w.acts[a].kind, def, VarsOf(w, p))
  {
    hide FinishAll, ActiveSigns, Revisit, ForgetSigns, Fresh, NoSession, NotDelegated;
    var p := w.acts[a].at.inst;
    var w0 := DropOne(FinishOne(w, a), w.acts[a].at);
    var w1 := Revisit(env, w0, Place(p, target), w.acts[a].kind, def);
    RevisitFresh(env, w0, Place(p, target), w.acts[a].kind, def);
    SameVarsHere(w, w0, p);
    assert w0.next == w.next;
    hide FinishOne, DropOne;
    FreshPlain(env, w1.acts[w.next], Place(p, target), w.acts[a].kind, def, VarsOf(w, p));
    ForgetsSessions(w1, p, a);
    ForgetsOthers(w1, p, a, w.next);
    DeletesNames(ForgetSigns(w1, p, a), p, a);
    var w2 := DelVars(ForgetSigns(w1, p, a), p, DelegateVars(a));
    SameActsDel(ForgetSigns(w1, p, a), p, DelegateVars(a));
    NotedReclaim(w2, p, a, target);
    hide DelVars, VarsOf;
  }

  lemma FreshPlain(env: Env, b: Act, at: Place, kind: Kind, def: Definition, vars: Vars)
    requires Fresh(env, b, at, kind, def, vars)
    ensures b.adhoc.None?
  {
  }

  lemma SameActsDel(w: World, p: nat, ks: set<VarName>)
    ensures DelVars(w, p, ks).acts == w.acts
  {
  }

  lemma SameVarsHere(w: World, w1: World, p: nat)
    requires w1.vars == w.vars
    ensures VarsOf(w1, p) == VarsOf(w, p)
  {
  }

  lemma RevisitFresh(env: Env, w: World, at: Place, kind: Kind, def: Definition)
    ensures var w1 := Revisit(env, w, at, kind, def);
            w.next in w1.acts && Fresh(env, w1.acts[w.next], at, kind, def, VarsOf(w, at.inst))
  {
  }

  // Only signs of the task are touched.
  lemma ForgetsOthers(w: World, p: nat, a: nat, b: nat)
    requires b in w.acts && w.acts[b].adhoc.None?
    ensures b in ForgetSigns(w, p, a).acts && ForgetSigns(w, p, a).acts[b] == w.acts[b]
  {
  }

  lemma NotedReclaim(w: World, p: nat, a: nat, target: string)
    requires NotDelegated(VarsOf(w, p), a) && NoSession(VarsOf(w, p), a)
    ensures var after := VarsOf(SetVar(w, p, Reclaimed(a), Text(target)), p);
            && NotDelegated(after, a) && NoSession(after, a)
            && Reclaimed(a) in after && after[Reclaimed(a)] == Text(target)
  {
  }

  // ---- Signs ----

  lemma AddSignAccepted(env: Env, w: World, a: nat, backward: bool, signType: string, strategy: string,
      assignees: seq<string>, n: nat)
    ensures Apply(env, w, Op.AddSign(a, backward, signType, strategy, assignees), n).Ended? <==>
            assignees != [] && Todo(w, a) && w.acts[a].adhoc.None? && RunningAt(w, a)
    ensures var o := Apply(env, w, Op.AddSign(a, backward, signType, strategy, assignees), n);
            !o.Ended? ==> o == Failed(w)
  {
    hide OpenSession, AddSigns, FinishOne, DropOne, Exec;
    ExecNone(env, Prep(env, w, Op.AddSign(a, backward, signType, strategy, assignees)).w, n);
  }

  // Removing a sign completes it, takes one token at the task, and counts the sign as done in an open session.
  lemma RemoveSignAccepted(env: Env, w: World, a: nat, child: Option<nat>, n: nat)
    ensures Apply(env, w, Op.RemoveSign(a, child), n).Ended? <==>
            && a in w.acts && w.acts[a].state == Active && child.Some? && child.value in w.acts
            && w.acts[child.value].adhoc == Some(a) && w.acts[child.value].state == Active
            && w.acts[child.value].at.inst == w.acts[a].at.inst
    ensures var o := Apply(env, w, Op.RemoveSign(a, child), n);
            && (o.Ended? ==>
                  && o.w.acts == w.acts[child.value := w.acts[child.value].(state := Done, stamp := w.clock)]
                  && o.w.toks == w.toks - multiset{w.acts[a].at} && o.w.insts == w.insts && o.w.log == w.log
                  && (NoSession(VarsOf(w, w.acts[a].at.inst), a) ==> o.w.vars == w.vars)
                  && (forall id: nat :: OnlySession(VarsOf(w, w.acts[a].at.inst), a, id) ==>
                        VarsOf(o.w, w.acts[a].at.inst) ==
                        VarsOf(w, w.acts[a].at.inst)[SignVar(id, SignDone) :=
                            Num(NumAt(VarsOf(w, w.acts[a].at.inst), SignVar(id, SignDone)) + 1)]))
            && (!o.Ended? ==> o == Failed(w))
  {
    hide Exec, SetVar, Sessions, VarsOf, NumAt;
    ExecNone(env, Prep(env, w, Op.RemoveSign(a, child)).w, n);
    if Apply(env, w, Op.RemoveSign(a, child), n).Ended? {
      var p := w.acts[a].at.inst;
      var w1 := DropOne(FinishOne(w, child.value), w.acts[a].at);
      SameVarsHere(w, w1, p);
      NoneOpen(VarsOf(w, p), a);
      forall id: nat | OnlySession(VarsOf(w, p), a, id)
        ensures Sessions(VarsOf(w, p), a) == {id} && Pick(env, {id}, w1.clock) == id {
        OneOpen(VarsOf(w, p), a, id);
      }
      forall k, v ensures VarsOf(SetVar(w1, p, k, v), p) == VarsOf(w, p)[k := v]
          && SetVar(w1, p, k, v) == w1.(vars := SetVar(w1, p, k, v).vars) {
        SetHere(w1, p, k, v);
      }
    }
  }

  // The one open session of activity a.
  ghost predicate OnlySession(vars: Vars, a: nat, id: nat) {
    forall x: nat :: (SignVar(x, Parent) in vars && vars[SignVar(x, Parent)] == Ref(a)) <==> x == id
  }

  lemma NoneOpen(vars: Vars, a: nat)
    ensures NoSession(vars, a) ==> Sessions(vars, a) == {}
  {
  }

  lemma OneOpen(vars: Vars, a: nat, id: nat)
    requires OnlySession(vars, a, id)
    ensures Sessions(vars, a) == {id}
  {
    assert SignVar(id, Parent) in vars;
    forall x ensures x in Sessions(vars, a) <==> x == id {}
  }

  lemma SetHere(w: World, p: nat, k: VarName, v: Value)
    ensures VarsOf(SetVar(w, p, k, v), p) == VarsOf(w, p)[k := v]
    ensures SetVar(w, p, k, v) == w.(vars := SetVar(w, p, k, v).vars)
  {
  }

  // ---- Starting and completing ----

  // A definition that can be started: it has an ID; its start is one of its start events and some flow leaves that;
  // it has an end event; elements are filed under their own IDs; and flows connect known elements.
  ghost predicate Startable(def: Definition) {
    && def.id != "" && def.start != "" && def.start in def.elements && def.elements[def.start].StartEvent?
    && (forall e :: e in def.elements ==> def.elements[e].id == e)
    && (forall i :: 0 <= i < |def.flows| ==>
          def.flows[i].source in def.elements && def.flows[i].target in def.elements)
    && (exists i :: 0 <= i < |def.flows| && def.flows[i].source == def.start)
    && (exists e :: e in def.elements && def.elements[e].EndEvent?)
  }

  lemma StartAccepted(env: Env, w: World, id: string, vars: Vars)
    ensures Prep(env, w, Start(id, vars)).Go? <==> id in env.defs && Startable(env.defs[id])
    ensures !Prep(env, w, Start(id, vars)).Go? ==> Prep(env, w, Start(id, vars)) == Stuck(w)
  {
    hide AddDone, NewInstance, WellFormed, Startable;
    if id in env.defs { ValidIs(env.defs[id]); }
  }

  lemma ValidIs(def: Definition)
    ensures WellFormed(def) <==> Startable(def)
  {
    if f :| f in def.flows && f.source == def.start {
      var i :| 0 <= i < |def.flows| && def.flows[i] == f;
      assert def.flows[i].source == def.start;
    }
    if i :| 0 <= i < |def.flows| && def.flows[i].source == def.start { assert def.flows[i] in def.flows; }
    assert forall i :: 0 <= i < |def.flows| ==> def.flows[i] in def.flows;
  }

  // The new instance runs, has no caller, and has the variables it was given; its start event is complete, and
  // navigation begins there.
  lemma StartGives(env: Env, w: World, id: string, vars: Vars)
    requires Prep(env, w, Start(id, vars)).Go? && w.next !in w.vars
    ensures id in env.defs
    ensures var s := Prep(env, w, Start(id, vars));
            var start := env.defs[id].start;
            && s.jobs == [Nav(w.next, start)]
            && s.w.insts == w.insts[w.next := Inst(id, Running, false, None, vars)]
            && VarsOf(s.w, w.next) == vars && (forall q :: q != w.next ==> VarsOf(s.w, q) == VarsOf(w, q))
            && s.w.toks == w.toks && s.w.log == w.log
            && w.next + 1 in s.w.acts && s.w.acts[w.next + 1].at == Place(w.next, start)
            && s.w.acts[w.next + 1].state == Done && s.w.acts[w.next + 1].kind == StartKind
            && (forall a :: a in s.w.acts && a != w.next + 1 ==> a in w.acts && s.w.acts[a] == w.acts[a])
  {
    hide WellFormed;
  }

  // A failed start or completion leaves the world as it was.
  lemma FailureUndone(env: Env, w: World, op: Op, n: nat)
    requires (op.Start? || op.Complete?) && Apply(env, w, op, n).Failed?
    ensures Apply(env, w, op, n).w == w
  {
    hide Prep, Exec;
  }

  // Only an active user task can be completed.
  lemma CompleteAccepted(env: Env, w: World, a: nat, vars: Vars, n: nat)
    requires Apply(env, w, Complete(a, vars), n).Ended?
    ensures Todo(w, a) && w.acts[a].at.inst in w.insts
  {
    hide FinishOne, Submit, CompleteRest, Exec;
  }

  // The task is done and what it submits is merged over the instance's variables and record.
  ghost predicate Submitted(w: World, w1: World, a: nat, vars: Vars)
    requires a in w.acts && w.acts[a].at.inst in w.insts
  {
    var p := w.acts[a].at.inst;
    && w1.acts == w.acts[a := w.acts[a].(state := Done, stamp := w.clock)]
    && w1.insts == w.insts[p := w.insts[p].(snapshot := w.insts[p].snapshot + vars)]
    && VarsOf(w1, p) == VarsOf(w, p) + vars && (forall q :: q != p ==> VarsOf(w1, q) == VarsOf(w, q))
    && w1.log == w.log && w1.next == w.next
  }

  // Some sign of the task is active, besides the task itself.
  ghost predicate SignsOpen(w: World, a: nat) {
    exists b :: b in w.acts && b != a && a in w.acts && w.acts[b].adhoc == Some(a) && w.acts[b].state == Active
                && w.acts[b].at.inst == w.acts[a].at.inst
  }

  // A task that is no sign waits for its open signs; without any, one token leaves it, and the task comes back if
  // it was delegated and moves on otherwise.
  lemma CompletionGoes(env: Env, w: World, a: nat, vars: Vars)
    requires Todo(w, a) && w.acts[a].adhoc.None? && w.acts[a].at.inst in w.insts
    requires forall k :: k in vars ==> k.User?
    ensures var s := Prep(env, w, Complete(a, vars));
            var at := w.acts[a].at;
            var before := VarsOf(w, at.inst);
            && s.Go?
            && (SignsOpen(w, a) ==> s.jobs == [] && s.w.toks == w.toks && Submitted(w, s.w, a, vars))
            && (!SignsOpen(w, a) && !(Placed(env, w, a) && DelegateTo(a) in before && DelegateOrig(a) in before) ==>
                  s.jobs == [Nav(at.inst, at.elem)] && s.w.toks == w.toks - multiset{at} && Submitted(w, s.w, a, vars))
            && (!SignsOpen(w, a) && Placed(env, w, a) && DelegateTo(a) in before && DelegateOrig(a) in before ==>
                  s.jobs == [] && s.w.toks == w.toks - multiset{at} + multiset{at}
                  && w.next in s.w.acts && s.w.acts[w.next].at == at && s.w.acts[w.next].state == Active
                  && DelegateReturn(a) in VarsOf(s.w, at.inst)
                  && VarsOf(s.w, at.inst)[DelegateReturn(a)] == Flag(true))
  {
    hide ReturnToOwner, ActiveSigns, Delegated, Approves, SignDoneStep;
    var p := w.acts[a].at.inst;
    var w1 := Submit(FinishOne(w, a), p, vars);
    SubmitsSo(w, a, vars);
    SignsStillOpen(w, w1, a);
    assert Prep(env, w, Complete(a, vars)) == CompleteRest(env, w1, p, a, Approves(vars));
    DelegatedSo(env, w, a, vars);
    hide Submit, FinishOne, VarsOf, SignsOpen, Prep;
    if Delegated(env, DropOne(w1, w.acts[a].at), a) { ReturnsHere(env, DropOne(w1, w.acts[a].at), a); }
  }

  lemma SubmitsSo(w: World, a: nat, vars: Vars)
    requires a in w.acts && w.acts[a].at.inst in w.insts
    ensures var w1 := Submit(FinishOne(w, a), w.acts[a].at.inst, vars);
            Submitted(w, w1, a, vars) && w1.toks == w.toks
  {
  }

  lemma DelegatedSo(env: Env, w: World, a: nat, vars: Vars)
    requires a in w.acts && w.acts[a].at.inst in w.insts && forall k :: k in vars ==> k.User?
    ensures var p := w.acts[a].at.inst;
            Delegated(env, DropOne(Submit(FinishOne(w, a), p, vars), w.acts[a].at), a) <==>
            Placed(env, w, a) && DelegateTo(a) in VarsOf(w, p) && DelegateOrig(a) in VarsOf(w, p)
  {
  }

  lemma SignsStillOpen(w: World, w1: World, a: nat)
    requires a in w.acts && w1.acts == w.acts[a := w.acts[a].(state := Done, stamp := w.clock)]
    ensures ActiveSigns(w1, w.acts[a].at.inst, a) != {} <==> SignsOpen(w, a)
  {
    if SignsOpen(w, a) {
      var b :| b in w.acts && b != a && w.acts[b].adhoc == Some(a) && w.acts[b].state == Active
        && w.acts[b].at.inst == w.acts[a].at.inst;
      assert b in ActiveSigns(w1, w.acts[a].at.inst, a);
    }
    if ActiveSigns(w1, w.acts[a].at.inst, a) != {} {
      var b :| b in ActiveSigns(w1, w.acts[a].at.inst, a);
      assert w.acts[b].adhoc == Some(a);
    }
  }

  lemma ReturnsHere(env: Env, w: World, a: nat)
    requires a in w.acts && Delegated(env, w, a)
    ensures var w1 := ReturnToOwner(env, w, a);
            && w1.toks == w.toks + multiset{w.acts[a].at} && w.next in w1.acts
            && w1.acts[w.next].at == w.acts[a].at && w1.acts[w.next].state == Active
            && DelegateReturn(a) in VarsOf(w1, w.acts[a].at.inst)
            && VarsOf(w1, w.acts[a].at.inst)[DelegateReturn(a)] == Flag(true)
    ensures Placed(env, w, a)
    ensures var at := w.acts[a].at;
            var el := env.defs[w.insts[at.inst].def].elements;
            var vars := VarsOf(w, at.inst);
            var b := ReturnToOwner(env, w, a).acts[w.next];
            && (at.elem in el && el[at.elem].UserTask? ==>
                  b.assignee == if el[at.elem].assignee == "" then "" else env.render(el[at.elem].assignee, vars))
            && (!(at.elem in el && el[at.elem].UserTask?) && vars[DelegateOrig(a)].Text? ==>
                  b.assignee == vars[DelegateOrig(a)].s)
  {
  }

  // ---- When a sign reports ----

  // An answer to the one open session of a task whose strategy is neither "or" nor "and", or is not a text, is
  // counted and never closes it; without a session nothing happens; and an unknown task is an error.
  lemma OtherStrategy(env: Env, w: World, p: nat, a: nat, id: nat, approved: bool)
    ensures a !in w.acts ==> SignDoneStep(env, w, p, a, approved) == Stuck(w)
    ensures a in w.acts && NoSession(VarsOf(w, p), a) ==> SignDoneStep(env, w, p, a, approved) == Go(w, [])
    ensures var vars := VarsOf(w, p);
            var strategy := SignVar(id, Strategy);
            var s := SignDoneStep(env, w, p, a, approved);
            a in w.acts && OnlySession(vars, a, id)
            && (strategy in vars ==> vars[strategy] != Text("or") && vars[strategy] != Text("and")) ==>
              && s.Go? && s.jobs == [] && s.w == w.(vars := s.w.vars)
              && VarsOf(s.w, p) ==
                   vars[SignVar(id, SignDone) := Num(NumAt(vars, SignVar(id, SignDone)) + 1)]
                       [SignVar(id, Approved) :=
                           Num(NumAt(vars, SignVar(id, Approved)) + (if approved then 1 else 0))]
  {
    hide SetVar, Sessions, VarsOf, NumAt, CloseSession, NoSession, OnlySession;
    var vars := VarsOf(w, p);
    NoneOpen(vars, a);
    if OnlySession(vars, a, id) {
      OneOpen(vars, a, id);
      forall v, x, y ensures VarsOf(SetVar(v, p, x, y), p) == VarsOf(v, p)[x := y]
          && SetVar(v, p, x, y) == v.(vars := SetVar(v, p, x, y).vars) {
        SetHere(v, p, x, y);
      }
    }
  }

  // ---- Taking a flow ----

  // A flow can be taken if and only if its target is an element of the definition, other than a start or boundary
  // event, whose size can be evaluated if it is a loop, and whose called definition is known if it is a call.
  lemma TakeAccepted(env: Env, w: World, p: nat, f: Flow)
    ensures TakeStep(env, w, p, f).Go? <==>
            && p in w.insts && w.insts[p].def in env.defs && f.target in env.defs[w.insts[p].def].elements
            && var el := env.defs[w.insts[p].def].elements[f.target];
               && !el.StartEvent? && !el.BoundaryEvent?
               && (el.UserTask? && el.loop.Some? ==> !HasSize(env, el.loop.value, VarsOf(w, p), None))
               && (el.CallActivity? ==> el.calledElement in env.latest && env.latest[el.calledElement] in env.defs)
    ensures !TakeStep(env, w, p, f).Go? ==> TakeStep(env, w, p, f) == Stuck(w)
  {
    hide FlowsFrom, EnterTask, OpenLoop, LoopInstances, SequentialInstance, LoopItems, VarsOf, NewInstance, LoopCount,
        HasSize, AddDone, AddTok, AddAct;
    if p in w.insts && w.insts[p].def in env.defs && f.target in env.defs[w.insts[p].def].elements {
      var el := env.defs[w.insts[p].def].elements[f.target];
      if el.UserTask? && el.loop.Some? { SizeIs(env, el.loop.value, VarsOf(w, p), None); }
    }
  }

  // Navigation goes on from an element of a running instance only; an unknown instance or element is an error.
  lemma NavAccepted(env: Env, w: World, p: nat, e: string)
    ensures p !in w.insts ==> NavStep(env, w, p, e) == Stuck(w)
    ensures p in w.insts && w.insts[p].state != Running ==> NavStep(env, w, p, e) == Go(w, [])
    ensures p in w.insts && w.insts[p].state == Running
            && (w.insts[p].def !in env.defs || e !in env.defs[w.insts[p].def].elements) ==>
              NavStep(env, w, p, e) == Stuck(w)
  {
    hide NavFrom, FlowsFrom;
  }

  // ---- Entering a task, and returning to a caller ----

  // A user task that is reached: with an assignee expression it is active and for whom that names; otherwise, if
  // the identity service finds candidates, it waits to be claimed by one of them; otherwise it is active and
  // nobody's.
  lemma TaskCreated(env: Env, w: World, at: Place, el: Element)
    requires el.UserTask?
    ensures var w1 := EnterTask(env, w, at, el);
            var found := env.candidates(el.candidateUsers, el.candidateGroup);
            var claimable := el.assignee == "" && (el.candidateUsers != [] || el.candidateGroup != "") && found != [];
            && w.next in w1.acts && w1.acts == w.acts[w.next := w1.acts[w.next]]
            && w1.acts[w.next].at == at && w1.acts[w.next].kind == UserKind
            && w1.acts[w.next].state == (if claimable then Unclaimed else Active)
            && w1.acts[w.next].assignee ==
                 (if el.assignee == "" then "" else env.render(el.assignee, VarsOf(w, at.inst)))
            && (claimable ==>
                  && Candidates(w.next) in VarsOf(w1, at.inst) && VarsOf(w1, at.inst)[Candidates(w.next)].List?
                  && var users := VarsOf(w1, at.inst)[Candidates(w.next)].items;
                     |users| == |found| && forall i :: 0 <= i < |users| ==> users[i] == Text(found[i]))
            && (!claimable ==> w1.vars == w.vars)
  {
  }

  // A called instance runs the latest definition of its key; it knows who called it, and has its caller's variables
  // if the call activity says so and none otherwise.
  lemma CallGives(env: Env, w: World, at: Place, el: Element)
    requires el.CallActivity? && w.next !in w.vars
    ensures var s := CallStep(env, w, at, el);
            var known := el.calledElement in env.latest && env.latest[el.calledElement] in env.defs;
            && (s.Go? <==> known) && (!s.Go? ==> s == Stuck(w))
            && (known ==>
                  var vars := if el.inheritVariables then VarsOf(w, at.inst) else map[];
                  && s.w.insts == w.insts[w.next := Inst(env.latest[el.calledElement], Running, false, Some(at), vars)]
                  && VarsOf(s.w, w.next) == vars
                  && s.jobs == [Nav(w.next, env.defs[env.latest[el.calledElement]].start)]
                  && s.w.toks == w.toks + multiset{at}
                  && w.next + 1 in s.w.acts && s.w.acts[w.next + 1].at == at
                  && s.w.acts[w.next + 1].kind == CallKind && s.w.acts[w.next + 1].state == Active)
  {
    hide NewInstance, VarsOf;
    var vars := if el.inheritVariables then VarsOf(w, at.inst) else map[];
    if el.calledElement in env.latest && env.latest[el.calledElement] in env.defs {
      NewInstanceIs(w, env.latest[el.calledElement], Some(at), vars);
      var w1 := NewInstance(w, env.latest[el.calledElement], Some(at), vars);
      SameVarsHere(w1, CallStep(env, w, at, el).w, w.next);
    }
  }

  lemma NewInstanceIs(w: World, def: string, parent: Option<Place>, vars: Vars)
    requires w.next !in w.vars
    ensures var w1 := NewInstance(w, def, parent, vars);
            && w1.insts == w.insts[w.next := Inst(def, Running, false, parent, vars)] && VarsOf(w1, w.next) == vars
            && w1.next == w.next + 1 && w1.acts == w.acts && w1.toks == w.toks
  {
  }

  // An element that does nothing by itself leaves a completed activity of its kind.
  lemma PassedRecorded(env: Env, w: World, at: Place, el: Element, out: seq<Flow>)
    requires el.ServiceTask? || el.EndEvent? || el.ThrowEvent?
    ensures var w1 := TakeTo(env, w, at, el, out).w;
            && w.next in w1.acts && w1.acts == w.acts[w.next := w1.acts[w.next]] && w1.acts[w.next].at == at
            && w1.acts[w.next].state == Done && w1.acts[w.next].kind == el.Kind()
  {
    hide Takes;
  }

  // When a called instance is complete, its caller's waiting activity is too: one token leaves the call activity
  // and no activity stays active there.
  lemma CallerReturns(w: World, at: Place, child: nat)
    requires at.elem != "" && at in w.toks
    ensures var s := ReturnStep(w, Some(at), child);
            && s.Go? && s.jobs == [Nav(at.inst, at.elem)] && s.w.toks == w.toks - multiset{at}
            && s.w.acts.Keys == w.acts.Keys
            && (forall a :: a in w.acts && w.acts[a].at == at ==> s.w.acts[a].state != Active)
            && (forall a :: a in w.acts && (w.acts[a].at != at || w.acts[a].state != Active) ==>
                  s.w.acts[a] == w.acts[a])
  {
  }

  // A called instance whose caller's call activity has the empty ID, or holds no token any more, is complete and
  // nothing follows.
  lemma NobodyReturns(env: Env, w: World, p: nat)
    requires p in w.insts && w.insts[p].parent.Some? && !HasToken(w, p)
    requires w.insts[p].parent.value.elem == "" || w.insts[p].parent.value !in w.toks
    ensures CheckStep(w, p) == Go(w.(insts := w.insts[p := w.insts[p].(state := Completed, ended := true)]), [])
  {
  }
}
