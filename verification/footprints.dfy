// The footprint of each public operation, before any navigation: it changes one instance only, and of that one
// only what is at the elements it is about.

module Footprints {
  import opened Spec
  import opened Model
  import opened Machine
  import opened Operations
  import opened Lifecycle
  import opened TokenGame
  import opened TokenRuns
  import opened Frames

  predicate SameRole(b: Act, b1: Act) {
    b1.at == b.at && b1.kind == b.kind && b1.adhoc == b.adhoc
  }

  // A new activity is at one of these elements, and a sign is where its task is.
  ghost predicate NewRole(w: World, b: Act, q: nat, elems: iset<string>) {
    && b.at.inst == q && b.at.elem in elems
    && (b.adhoc.Some? ==> b.adhoc.value in w.acts && w.acts[b.adhoc.value].at == b.at)
  }

  ghost predicate ActsWithin(w: World, w1: World, q: nat, elems: iset<string>) {
    && (forall a :: a in w.acts ==>
          a in w1.acts && SameRole(w.acts[a], w1.acts[a]) && (w.acts[a].at.inst != q ==> w1.acts[a] == w.acts[a]))
    && (forall a :: a in w1.acts && a !in w.acts ==> w.next <= a < w1.next && NewRole(w1, w1.acts[a], q, elems))
  }

  ghost predicate InstsWithin(w: World, w1: World, q: nat) {
    && q in w.insts && w1.insts.Keys == w.insts.Keys
    && (forall r :: r in w.insts && r != q ==> w1.insts[r] == w.insts[r])
    && w1.insts[q].def == w.insts[q].def && w1.insts[q].parent == w.insts[q].parent
  }

  ghost predicate TokensWithin(w: World, w1: World, q: nat, elems: iset<string>) {
    forall x :: w1.toks[x] != w.toks[x] ==> x.inst == q && x.elem in elems
  }

  ghost predicate VarsWithin(w: World, w1: World, q: nat) {
    forall r :: r != q ==> VarsOf(w1, r) == VarsOf(w, r)
  }

  ghost predicate Within(w: World, w1: World, q: nat, elems: iset<string>) {
    && w.next <= w1.next && w1.log == w.log
    && InstsWithin(w, w1, q) && TokensWithin(w, w1, q, elems) && VarsWithin(w, w1, q) && ActsWithin(w, w1, q, elems)
  }

  // No arrival at a join has been forgotten or made up.
  ghost predicate SameCounters(w: World, w1: World) {
    forall x :: Arrived(w1, x) == Arrived(w, x)
  }

  // ---- Small steps ----

  lemma WithinTransitive(w: World, w1: World, w2: World, q: nat, elems: iset<string>)
    requires Within(w, w1, q, elems) && Within(w1, w2, q, elems)
    ensures Within(w, w2, q, elems)
    ensures SameCounters(w, w1) && SameCounters(w1, w2) ==> SameCounters(w, w2)
  {
    hide InstsWithin, VarsWithin, ActsWithin, Arrived;
    InstsTwice(w, w1, w2, q);
    VarsTwice(w, w1, w2, q);
    ActsTwice(w, w1, w2, q, elems);
  }

  lemma InstsTwice(w: World, w1: World, w2: World, q: nat)
    requires InstsWithin(w, w1, q) && InstsWithin(w1, w2, q)
    ensures InstsWithin(w, w2, q)
  {
  }

  lemma VarsTwice(w: World, w1: World, w2: World, q: nat)
    requires VarsWithin(w, w1, q) && VarsWithin(w1, w2, q)
    ensures VarsWithin(w, w2, q)
  {
    hide VarsOf;
  }

  lemma ActsTwice(w: World, w1: World, w2: World, q: nat, elems: iset<string>)
    requires ActsWithin(w, w1, q, elems) && ActsWithin(w1, w2, q, elems) && w.next <= w1.next <= w2.next
    ensures ActsWithin(w, w2, q, elems)
  {
  }

  lemma SelfWithin(w: World, q: nat, elems: iset<string>)
    requires q in w.insts
    ensures Within(w, w, q, elems) && SameCounters(w, w)
  {
  }

  lemma FinishOneWithin(w: World, a: nat, q: nat, elems: iset<string>)
    requires a in w.acts && w.acts[a].at.inst == q && q in w.insts
    ensures Within(w, FinishOne(w, a), q, elems) && SameCounters(w, FinishOne(w, a))
  {
  }

  lemma FinishAllWithin(w: World, which: set<nat>, q: nat, elems: iset<string>)
    requires q in w.insts && forall a :: a in which && a in w.acts ==> w.acts[a].at.inst == q
    ensures Within(w, FinishAll(w, which), q, elems) && SameCounters(w, FinishAll(w, which))
  {
  }

  lemma TokensChange(w: World, w1: World, q: nat, elems: iset<string>)
    requires q in w.insts && w1 == w.(toks := w1.toks) && TokensWithin(w, w1, q, elems)
    ensures Within(w, w1, q, elems) && SameCounters(w, w1)
  {
  }

  lemma TokenWithin(w: World, at: Place, elems: iset<string>)
    requires at.inst in w.insts && at.elem in elems
    ensures Within(w, DropOne(w, at), at.inst, elems) && SameCounters(w, DropOne(w, at))
    ensures Within(w, AddTok(w, at), at.inst, elems) && SameCounters(w, AddTok(w, at))
  {
    hide Within, SameCounters;
    TokensChange(w, DropOne(w, at), at.inst, elems);
    TokensChange(w, AddTok(w, at), at.inst, elems);
  }

  lemma ActWithin(w: World, b: Act, q: nat, elems: iset<string>)
    requires q in w.insts && w.next !in w.acts && NewRole(w, b, q, elems)
    ensures Within(w, AddAct(w, b), q, elems) && SameCounters(w, AddAct(w, b))
  {
  }

  lemma SetWithin(w: World, q: nat, k: VarName, v: Value, elems: iset<string>)
    requires q in w.insts
    ensures Within(w, SetVar(w, q, k, v), q, elems) && (!k.GwArrived? ==> SameCounters(w, SetVar(w, q, k, v)))
  {
  }

  lemma DelWithin(w: World, q: nat, ks: set<VarName>, elems: iset<string>)
    requires q in w.insts
    ensures Within(w, DelVars(w, q, ks), q, elems)
    ensures (forall k :: k in ks ==> !k.GwArrived?) ==> SameCounters(w, DelVars(w, q, ks))
  {
  }

  lemma SubmitWithin(w: World, q: nat, vars: Vars, elems: iset<string>)
    requires q in w.insts
    ensures Within(w, Submit(w, q, vars), q, elems) && (CallerVars(vars) ==> SameCounters(w, Submit(w, q, vars)))
  {
    hide Within, SameCounters, MergeVars;
    var w1 := MergeVars(w, q, vars);
    MergeWithin(w, q, vars, elems);
    assert w1.insts == w.insts by { MergeInsts(w, q, vars); }
    SnapshotWithin(w1, q, w.insts[q].snapshot + vars, elems);
    WithinTransitive(w, w1, Submit(w, q, vars), q, elems);
  }

  lemma MergeWithin(w: World, q: nat, vars: Vars, elems: iset<string>)
    requires q in w.insts
    ensures Within(w, MergeVars(w, q, vars), q, elems)
    ensures CallerVars(vars) ==> SameCounters(w, MergeVars(w, q, vars))
  {
  }

  lemma MergeInsts(w: World, q: nat, vars: Vars)
    ensures MergeVars(w, q, vars).insts == w.insts
  {
  }

  lemma SnapshotWithin(w: World, q: nat, snapshot: Vars, elems: iset<string>)
    requires q in w.insts
    ensures var w1 := w.(insts := w.insts[q := w.insts[q].(snapshot := snapshot)]);
            Within(w, w1, q, elems) && SameCounters(w, w1)
  {
  }

  lemma StateWithin(w: World, q: nat, s: InstState, ended: bool, elems: iset<string>)
    requires q in w.insts
    ensures Within(w, SetState(w, q, s, ended), q, elems) && SameCounters(w, SetState(w, q, s, ended))
  {
  }

  // An activity that is there is rewritten, in its place.
  lemma RewriteWithin(w: World, a: nat, b: Act, q: nat, elems: iset<string>)
    requires q in w.insts && a in w.acts && w.acts[a].at.inst == q && SameRole(w.acts[a], b)
    ensures Within(w, w.(acts := w.acts[a := b]), q, elems) && SameCounters(w, w.(acts := w.acts[a := b]))
  {
  }

  lemma NextWithin(w: World, q: nat, elems: iset<string>)
    requires q in w.insts
    ensures Within(w, w.(next := w.next + 1), q, elems) && SameCounters(w, w.(next := w.next + 1))
  {
  }

  lemma WithinInst(w: World, w1: World, q: nat, elems: iset<string>)
    requires Within(w, w1, q, elems)
    ensures q in w1.insts && (Bounded(w) ==> Bounded(w1))
    ensures forall a :: a in w.acts ==> a in w1.acts && SameRole(w.acts[a], w1.acts[a])
  {
  }

  // ---- The operations ----

  // The instance an operation concerns, and the elements of it; all of them if it ends the instance.
  function Subject(w: World, op: Op): Option<nat> {
    if op.Start? then None
    else if op.Suspend? || op.Resume? || op.Terminate? then Some(op.inst)
    else if op.act in w.acts then Some(w.acts[op.act].at.inst)
    else None
  }

  ghost function Elems(w: World, op: Op): iset<string> {
    if op.Start? || op.Suspend? || op.Resume? then iset{}
    else if op.Terminate? || (op.Reject? && op.mode == ToEnd) || op.act !in w.acts then iset e: string | 0 <= |e|
    else ElemsOfTask(w, op.act) + if op.Reject? || op.Jump? || op.Reclaim? then iset{op.target} else iset{}
  }

  // Where a task is, and where the task is that it signs for.
  ghost function ElemsOfTask(w: World, a: nat): iset<string>
    requires a in w.acts
  {
    var b := w.acts[a];
    iset{b.at.elem} + if b.adhoc.Some? && b.adhoc.value in w.acts then iset{w.acts[b.adhoc.value].at.elem} else iset{}
  }

  // What an operation does before any navigation.
  ghost predicate Footprint(w: World, op: Op, w1: World) {
    && Subject(w, op).Some? && Within(w, w1, Subject(w, op).value, Elems(w, op))
    && ((op.Complete? ==> CallerVars(op.vars)) ==> SameCounters(w, w1))
  }

  // The operation is not refused at once.
  ghost predicate Effective(env: Env, w: World, op: Op) {
    Prep(env, w, op).Go? || Prep(env, w, op).w != w
  }

  lemma SignsOf(w: World, p: nat, a: nat)
    ensures forall b :: b in ActiveSigns(w, p, a) ==> b in w.acts && w.acts[b].at.inst == p
  {
  }

  lemma RevisitWithin(env: Env, w: World, at: Place, kind: Kind, def: Definition, elems: iset<string>)
    requires at.inst in w.insts && at.elem in elems && Bounded(w)
    ensures Within(w, Revisit(env, w, at, kind, def), at.inst, elems)
    ensures SameCounters(w, Revisit(env, w, at, kind, def))
  {
    hide Within, SameCounters, AddTok, AddAct, Rendered;
    var w1 := AddTok(w, at);
    TokenWithin(w, at, elems);
    WithinInst(w, w1, at.inst, elems);
    var assignee := if at.elem in def.elements && def.elements[at.elem].UserTask?
                    then Rendered(env, def.elements[at.elem].assignee, VarsOf(w, at.inst)) else "";
    assert w1.next !in w1.acts;
    ActWithin(w1, NewAct(at, kind, assignee), at.inst, elems);
    WithinTransitive(w, w1, AddAct(w1, NewAct(at, kind, assignee)), at.inst, elems);
  }

  lemma ForgetWithin(w: World, p: nat, a: nat, elems: iset<string>)
    requires p in w.insts
    ensures Within(w, ForgetSigns(w, p, a), p, elems) && SameCounters(w, ForgetSigns(w, p, a))
  {
    hide Within, SameCounters, DelVars, ActiveSigns, FinishAll, Sessions;
    var w1 := FinishAll(w, ActiveSigns(w, p, a));
    SignsOf(w, p, a);
    FinishAllWithin(w, ActiveSigns(w, p, a), p, elems);
    WithinInst(w, w1, p, elems);
    DelWithin(w1, p, SessionVars(Sessions(VarsOf(w1, p), a), VarsOf(w1, p)), elems);
    WithinTransitive(w, w1, ForgetSigns(w, p, a), p, elems);
  }

  // The task is finished and gives up a token.
  lemma LeftWithin(w: World, a: nat, elems: iset<string>)
    requires a in w.acts && w.acts[a].at.inst in w.insts && w.acts[a].at.elem in elems
    ensures var w1 := DropOne(FinishOne(w, a), w.acts[a].at);
            Within(w, w1, w.acts[a].at.inst, elems) && SameCounters(w, w1)
  {
    hide Within, SameCounters, DropOne;
    var at := w.acts[a].at;
    FinishOneWithin(w, a, at.inst, elems);
    TokenWithin(FinishOne(w, a), at, elems);
    WithinTransitive(w, FinishOne(w, a), DropOne(FinishOne(w, a), at), at.inst, elems);
  }

  lemma RejectToWithin(env: Env, w: World, a: nat, mode: RejectMode, target: string, reason: string,
      def: Definition, elems: iset<string>)
    requires a in w.acts && w.acts[a].at.inst in w.insts && Bounded(w)
    requires w.acts[a].at.elem in elems && target in elems
    ensures var w1 := RejectTo(env, w, a, mode, target, reason, def);
            Within(w, w1, w.acts[a].at.inst, elems) && SameCounters(w, w1)
  {
    hide Within, SameCounters, DropOne, FinishOne, Revisit, SetVar, DelVars;
    var p := w.acts[a].at.inst;
    var count := NumAt(VarsOf(w, p), RejectionCount);
    var w0 := DropOne(FinishOne(w, a), w.acts[a].at);
    LeftWithin(w, a, elems);
    WithinInst(w, w0, p, elems);
    var w1 := Revisit(env, w0, Place(p, target), UserKind, def);
    RevisitWithin(env, w0, Place(p, target), UserKind, def, elems);
    WithinTransitive(w, w0, w1, p, elems);
    WithinInst(w, w1, p, elems);
    NotedWithin(w1, p, a, count + 1, reason, mode == Initiator, elems);
    WithinTransitive(w, w1, Noted(w1, p, a, count + 1, reason, mode == Initiator), p, elems);
  }

  // What a rejection writes down.
  ghost function Noted(w: World, p: nat, a: nat, count: int, reason: string, initiator: bool): World {
    var w2 := DelVars(SetVar(w, p, RejectionCount, Num(count)), p, DelegateVars(a));
    var w3 := if reason == "" then w2 else SetVar(w2, p, RejectionReason, Text(reason));
    if initiator then SetVar(w3, p, RejectedToInitiator, Flag(true)) else w3
  }

  lemma NotedWithin(w: World, p: nat, a: nat, count: int, reason: string, initiator: bool, elems: iset<string>)
    requires p in w.insts
    ensures var w1 := Noted(w, p, a, count, reason, initiator); Within(w, w1, p, elems) && SameCounters(w, w1)
  {
    hide Within, SameCounters, SetVar, DelVars;
    var w1 := SetVar(w, p, RejectionCount, Num(count));
    SetWithin(w, p, RejectionCount, Num(count), elems);
    WithinInst(w, w1, p, elems);
    var w2 := DelVars(w1, p, DelegateVars(a));
    DelWithin(w1, p, DelegateVars(a), elems);
    WithinTransitive(w, w1, w2, p, elems);
    WithinInst(w, w2, p, elems);
    var w3 := if reason == "" then w2 else SetVar(w2, p, RejectionReason, Text(reason));
    SetWithin(w2, p, RejectionReason, Text(reason), elems);
    SelfWithin(w2, p, elems);
    WithinTransitive(w, w2, w3, p, elems);
    WithinInst(w, w3, p, elems);
    SetWithin(w3, p, RejectedToInitiator, Flag(true), elems);
    WithinTransitive(w, w3, SetVar(w3, p, RejectedToInitiator, Flag(true)), p, elems);
  }

  lemma RejectToEndWithin(w: World, a: nat, p: nat, reason: string, elems: iset<string>)
    requires a in w.acts && w.acts[a].at.inst == p && p in w.insts && forall e :: e in elems
    ensures var w1 := RejectToEnd(w, a, p, reason); Within(w, w1, p, elems) && SameCounters(w, w1)
  {
    hide Within, SameCounters, DropAllOf, FinishOne, SetState, SetVar;
    var w1 := FinishOne(w, a);
    FinishOneWithin(w, a, p, elems);
    WithinInst(w, w1, p, elems);
    var w2 := DropAllOf(w1, p);
    AllGone(w1, p, elems);
    WithinTransitive(w, w1, w2, p, elems);
    WithinInst(w, w2, p, elems);
    var w3 := SetState(w2, p, Rejected, true);
    StateWithin(w2, p, Rejected, true, elems);
    WithinTransitive(w, w2, w3, p, elems);
    WithinInst(w, w3, p, elems);
    SetWithin(w3, p, RejectionReason, Text(reason), elems);
    WithinTransitive(w, w3, SetVar(w3, p, RejectionReason, Text(reason)), p, elems);
  }

  lemma AllGone(w: World, p: nat, elems: iset<string>)
    requires p in w.insts && forall e :: e in elems
    ensures Within(w, DropAllOf(w, p), p, elems) && SameCounters(w, DropAllOf(w, p))
  {
    hide Within, SameCounters;
    TokensChange(w, DropAllOf(w, p), p, elems);
  }

  lemma RejectFootprint(env: Env, w: World, op: Op)
    requires op.Reject? && ActsKnown(w) && Effective(env, w, op)
    ensures Footprint(w, op, Prep(env, w, op).w)
  {
    hide Within, SameCounters, RejectTo, RejectToEnd, RejectLimit, NumAt, VarsOf, ElemsOfTask;
    TaskElem(w, op.act);
    if op.mode == ToEnd {
      RejectToEndWithin(w, op.act, w.acts[op.act].at.inst, op.reason, Elems(w, op));
    } else {
      RejectToWithin(env, w, op.act, op.mode, op.target, op.reason, DefOf(env, w, op.act), Elems(w, op));
    }
  }

  lemma TaskElem(w: World, a: nat)
    requires a in w.acts
    ensures w.acts[a].at.elem in ElemsOfTask(w, a)
  {
  }

  lemma JumpFootprint(env: Env, w: World, op: Op)
    requires op.Jump? && ActsKnown(w) && Effective(env, w, op)
    ensures Footprint(w, op, Prep(env, w, op).w)
  {
    hide Within, SameCounters, DropOne, FinishOne, Revisit, SetVar, DelVars, ForgetSigns, AddTok, ElemsOfTask;
    var elems := Elems(w, op);
    TaskElem(w, op.act);
    var a := op.act;
    var p := w.acts[a].at.inst;
    var to := Place(p, op.target);
    var def := DefOf(env, w, a);
    var w0 := DropOne(FinishOne(w, a), w.acts[a].at);
    LeftWithin(w, a, elems);
    WithinInst(w, w0, p, elems);
    var w1 := ForgetSigns(w0, p, a);
    ForgetWithin(w0, p, a, elems);
    WithinTransitive(w, w0, w1, p, elems);
    WithinInst(w, w1, p, elems);
    var w2 := DelVars(w1, p, DelegateVars(a));
    DelWithin(w1, p, DelegateVars(a), elems);
    WithinTransitive(w, w1, w2, p, elems);
    WithinInst(w, w2, p, elems);
    TokenWithin(w2, to, elems);
    RevisitWithin(env, w2, to, UserKind, def, elems);
    var w3 := if def.elements[op.target].UserTask? then Revisit(env, w2, to, UserKind, def) else AddTok(w2, to);
    WithinTransitive(w, w2, w3, p, elems);
    WithinInst(w, w3, p, elems);
    SetWithin(w3, p, JumpFrom(a), Text(op.target), elems);
    WithinTransitive(w, w3, SetVar(w3, p, JumpFrom(a), Text(op.target)), p, elems);
  }

  lemma ReclaimFootprint(env: Env, w: World, op: Op)
    requires op.Reclaim? && ActsKnown(w) && Effective(env, w, op)
    ensures Footprint(w, op, Prep(env, w, op).w)
  {
    hide Within, SameCounters, DropOne, FinishOne, Revisit, SetVar, DelVars, ForgetSigns, LatestElsewhere, ElemsOfTask;
    var elems := Elems(w, op);
    TaskElem(w, op.act);
    var a := op.act;
    var p := w.acts[a].at.inst;
    var w0 := DropOne(FinishOne(w, a), w.acts[a].at);
    LeftWithin(w, a, elems);
    WithinInst(w, w0, p, elems);
    var w1 := Revisit(env, w0, Place(p, op.target), w.acts[a].kind, DefOf(env, w, a));
    RevisitWithin(env, w0, Place(p, op.target), w.acts[a].kind, DefOf(env, w, a), elems);
    WithinTransitive(w, w0, w1, p, elems);
    WithinInst(w, w1, p, elems);
    var w2 := ForgetSigns(w1, p, a);
    ForgetWithin(w1, p, a, elems);
    WithinTransitive(w, w1, w2, p, elems);
    WithinInst(w, w2, p, elems);
    var w3 := DelVars(w2, p, DelegateVars(a));
    DelWithin(w2, p, DelegateVars(a), elems);
    WithinTransitive(w, w2, w3, p, elems);
    WithinInst(w, w3, p, elems);
    SetWithin(w3, p, Reclaimed(a), Text(op.target), elems);
    WithinTransitive(w, w3, SetVar(w3, p, Reclaimed(a), Text(op.target)), p, elems);
  }

  lemma AssignFootprint(env: Env, w: World, op: Op)
    requires (op.Delegate? || op.Transfer? || op.Claim? || op.Unclaim?) && ActsKnown(w) && Effective(env, w, op)
    ensures Footprint(w, op, Prep(env, w, op).w)
  {
    hide Within, SameCounters, SetVar, CandidateList, ElemsOfTask;
    var elems := Elems(w, op);
    var a := op.act;
    var p := w.acts[a].at.inst;
    var b := Prep(env, w, op).w.acts[a];
    if op.Delegate? {
      var w1 := SetVar(w, p, DelegateOrig(a), Text(w.acts[a].assignee));
      SetWithin(w, p, DelegateOrig(a), Text(w.acts[a].assignee), elems);
      WithinInst(w, w1, p, elems);
      var w2 := SetVar(w1, p, DelegateTo(a), Text(op.to));
      SetWithin(w1, p, DelegateTo(a), Text(op.to), elems);
      WithinTransitive(w, w1, w2, p, elems);
      WithinInst(w, w2, p, elems);
      RewriteWithin(w2, a, b, p, elems);
      WithinTransitive(w, w2, Prep(env, w, op).w, p, elems);
    } else if op.Transfer? {
      var note := Text(w.acts[a].assignee + "->" + op.to);
      var w1 := SetVar(w, p, Transferred(a), note);
      SetWithin(w, p, Transferred(a), note, elems);
      WithinInst(w, w1, p, elems);
      RewriteWithin(w1, a, b, p, elems);
      WithinTransitive(w, w1, Prep(env, w, op).w, p, elems);
    } else {
      RewriteWithin(w, a, b, p, elems);
    }
  }

  lemma StateFootprint(env: Env, w: World, op: Op)
    requires (op.Suspend? || op.Resume? || op.Terminate?) && Effective(env, w, op)
    ensures Footprint(w, op, Prep(env, w, op).w)
  {
    hide Within, SameCounters, SetState, DropAllOf, FinishAll;
    var elems := Elems(w, op);
    var p := op.inst;
    if op.Terminate? {
      var w1 := DropAllOf(w, p);
      AllGone(w, p, elems);
      WithinInst(w, w1, p, elems);
      var active := set a | a in w.acts && w.acts[a].at.inst == p && w.acts[a].state == Active;
      var w2 := FinishAll(w1, active);
      assert w1.acts == w.acts by { SameActivities(w, p); }
      FinishAllWithin(w1, active, p, elems);
      WithinTransitive(w, w1, w2, p, elems);
      WithinInst(w, w2, p, elems);
      StateWithin(w2, p, Terminated, true, elems);
      WithinTransitive(w, w2, SetState(w2, p, Terminated, true), p, elems);
    } else {
      StateWithin(w, p, if op.Suspend? then InstState.Suspended else Running, w.insts[p].ended, elems);
    }
  }

  lemma SameActivities(w: World, p: nat)
    ensures DropAllOf(w, p).acts == w.acts
  {
  }

  // ---- Sign sessions ----

  lemma OpenSessionWithin(w: World, p: nat, a: nat, signType: string, strategy: string, n: nat, elems: iset<string>)
    requires p in w.insts
    ensures var w1 := OpenSession(w, p, a, signType, strategy, n); Within(w, w1, p, elems) && SameCounters(w, w1)
  {
    hide Within, SameCounters, SetVar;
    var id := w.next;
    var w0 := w.(next := id + 1);
    NextWithin(w, p, elems);
    var w1 := SetTwice(w0, p, SignVar(id, SignType), Text(signType), SignVar(id, Strategy), Text(strategy), elems);
    WithinTransitive(w, w0, w1, p, elems);
    WithinInst(w, w1, p, elems);
    var w2 := SetTwice(w1, p, SignVar(id, SignTotal), Num(n), SignVar(id, SignDone), Num(0), elems);
    WithinTransitive(w, w1, w2, p, elems);
    WithinInst(w, w2, p, elems);
    var w3 := SetTwice(w2, p, SignVar(id, Approved), Num(0), SignVar(id, Parent), Ref(a), elems);
    WithinTransitive(w, w2, w3, p, elems);
  }

  lemma SetTwice(w: World, p: nat, k: VarName, v: Value, k1: VarName, v1: Value, elems: iset<string>)
      returns (w1: World)
    requires p in w.insts && !k.GwArrived? && !k1.GwArrived?
    ensures w1 == SetVar(SetVar(w, p, k, v), p, k1, v1) && Within(w, w1, p, elems) && SameCounters(w, w1)
  {
    hide Within, SameCounters, SetVar;
    var w0 := SetVar(w, p, k, v);
    SetWithin(w, p, k, v, elems);
    WithinInst(w, w0, p, elems);
    w1 := SetVar(w0, p, k1, v1);
    SetWithin(w0, p, k1, v1, elems);
    WithinTransitive(w, w0, w1, p, elems);
  }

  lemma {:induction false} AddSignsWithin(env: Env, w: World, at: Place, a: nat, assignees: seq<string>,
      elems: iset<string>)
    requires at.inst in w.insts && at.elem in elems && Bounded(w) && a in w.acts && w.acts[a].at == at
    ensures var w1 := AddSigns(env, w, at, a, assignees); Within(w, w1, at.inst, elems) && SameCounters(w, w1)
  {
    hide Within, SameCounters, AddAct, AddTok, Rendered;
    if assignees == [] {
      SelfWithin(w, at.inst, elems);
    } else {
      var last := |assignees| - 1;
      var w0 := AddSigns(env, w, at, a, assignees[..last]);
      AddSignsWithin(env, w, at, a, assignees[..last], elems);
      WithinInst(w, w0, at.inst, elems);
      var b := NewAct(at, UserKind, Rendered(env, assignees[last], VarsOf(w0, at.inst))).(adhoc := Some(a));
      assert w0.next !in w0.acts;
      var w1 := AddAct(w0, b);
      ActWithin(w0, b, at.inst, elems);
      WithinTransitive(w, w0, w1, at.inst, elems);
      WithinInst(w, w1, at.inst, elems);
      TokenWithin(w1, at, elems);
      WithinTransitive(w, w1, AddTok(w1, at), at.inst, elems);
    }
  }

  lemma AddSignFootprint(env: Env, w: World, op: Op)
    requires op.AddSign? && ActsKnown(w) && Effective(env, w, op)
    ensures Footprint(w, op, Prep(env, w, op).w)
  {
    hide Within, SameCounters, OpenSession, AddSigns, FinishOne, DropOne, ElemsOfTask;
    var elems := Elems(w, op);
    var a := op.act;
    TaskElem(w, a);
    var at := w.acts[a].at;
    var w1 := OpenSession(w, at.inst, a, op.signType, op.strategy, |op.assignees|);
    OpenSessionWithin(w, at.inst, a, op.signType, op.strategy, |op.assignees|, elems);
    WithinInst(w, w1, at.inst, elems);
    var w2 := AddSigns(env, w1, at, a, op.assignees);
    AddSignsWithin(env, w1, at, a, op.assignees, elems);
    WithinTransitive(w, w1, w2, at.inst, elems);
    WithinInst(w, w2, at.inst, elems);
    if op.backward {
      LeftWithin(w2, a, elems);
      WithinTransitive(w, w2, DropOne(FinishOne(w2, a), at), at.inst, elems);
    }
  }

  lemma RemoveSignFootprint(env: Env, w: World, op: Op)
    requires op.RemoveSign? && ActsKnown(w) && Effective(env, w, op)
    ensures Footprint(w, op, Prep(env, w, op).w)
  {
    hide Within, SameCounters, FinishOne, DropOne, ElemsOfTask, SetVar, Sessions, ActiveSigns, NumAt, Pick;
    var elems := Elems(w, op);
    var a := op.act;
    TaskElem(w, a);
    var p := w.acts[a].at.inst;
    SignsOf(w, p, a);
    var w0 := FinishOne(w, op.child.value);
    FinishOneWithin(w, op.child.value, p, elems);
    WithinInst(w, w0, p, elems);
    var w1 := DropOne(w0, w.acts[a].at);
    TokenWithin(w0, w.acts[a].at, elems);
    WithinTransitive(w, w0, w1, p, elems);
    WithinInst(w, w1, p, elems);
    if Sessions(VarsOf(w, p), a) != {} {
      var done := SignVar(Pick(env, Sessions(VarsOf(w, p), a), w1.clock), SignDone);
      SetWithin(w1, p, done, Num(NumAt(VarsOf(w, p), done) + 1), elems);
      WithinTransitive(w, w1, Prep(env, w, op).w, p, elems);
    }
  }

  lemma CloseSessionWithin(w: World, p: nat, parent: nat, id: nat, elems: iset<string>)
    requires parent in w.acts && p in w.insts && w.acts[parent].at.elem in elems
    ensures var w1 := CloseSession(w, p, parent, id).w; Within(w, w1, p, elems) && SameCounters(w, w1)
  {
    hide Within, SameCounters, FinishAll, ActiveSigns, DelVars, SessionVars, AddTok;
    var at := Place(p, w.acts[parent].at.elem);
    var w1 := FinishAll(w, ActiveSigns(w, p, parent));
    SignsOf(w, p, parent);
    FinishAllWithin(w, ActiveSigns(w, p, parent), p, elems);
    WithinInst(w, w1, p, elems);
    var keep := if w.acts[parent].state == Done || w1.toks[at] == 0 then 0 else 1;
    var w2 := w1.(toks := w1.toks[at := keep]);
    TokensChange(w1, w2, p, elems);
    WithinTransitive(w, w1, w2, p, elems);
    WithinInst(w, w2, p, elems);
    assert VarsOf(w2, p) == VarsOf(w1, p) by { SameVarsOf(w1, w2, p); }
    var w3 := DelVars(w2, p, SessionVars({id}, VarsOf(w1, p)));
    NoCounters(id, VarsOf(w1, p));
    DelWithin(w2, p, SessionVars({id}, VarsOf(w1, p)), elems);
    WithinTransitive(w, w2, w3, p, elems);
    WithinInst(w, w3, p, elems);
    TokenWithin(w3, at, elems);
    WithinTransitive(w, w3, AddTok(w3, at), p, elems);
  }

  lemma NoCounters(id: nat, vars: Vars)
    ensures forall k :: k in SessionVars({id}, vars) ==> !k.GwArrived?
  {
  }

  lemma SignDoneWithin(env: Env, w: World, p: nat, parent: nat, approved: bool, elems: iset<string>)
    requires p in w.insts && (parent in w.acts ==> w.acts[parent].at.elem in elems)
    ensures var w1 := SignDoneStep(env, w, p, parent, approved).w; Within(w, w1, p, elems) && SameCounters(w, w1)
  {
    hide Within, SameCounters, SetVar, Sessions, SessionOver, CloseSession, NumAt, Pick;
    SelfWithin(w, p, elems);
    var vars := VarsOf(w, p);
    if parent in w.acts && Sessions(vars, parent) != {} {
      var id := Pick(env, Sessions(vars, parent), w.clock);
      var done := NumAt(vars, SignVar(id, SignDone)) + 1;
      var approvals := NumAt(vars, SignVar(id, Approved)) + (if approved then 1 else 0);
      var w1 := SetTwice(w, p, SignVar(id, SignDone), Num(done), SignVar(id, Approved), Num(approvals), elems);
      WithinInst(w, w1, p, elems);
      CloseSessionWithin(w1, p, parent, id, elems);
      WithinTransitive(w, w1, CloseSession(w1, p, parent, id).w, p, elems);
    }
  }

  lemma ReturnWithin(env: Env, w: World, a: nat, elems: iset<string>)
    requires a in w.acts && Delegated(env, w, a) && w.acts[a].at.elem in elems && Bounded(w)
    ensures var w1 := ReturnToOwner(env, w, a); Within(w, w1, w.acts[a].at.inst, elems) && SameCounters(w, w1)
  {
    hide Within, SameCounters, SetVar, AddTok, AddAct, Rendered;
    var at := w.acts[a].at;
    ReturnParts(env, w, a);
    var b := ReturnToOwner(env, w, a).acts[w.next];
    assert w.next !in w.acts;
    var w1 := AddAct(w, b);
    ActWithin(w, b, at.inst, elems);
    WithinInst(w, w1, at.inst, elems);
    var w2 := AddTok(w1, at);
    TokenWithin(w1, at, elems);
    WithinTransitive(w, w1, w2, at.inst, elems);
    WithinInst(w, w2, at.inst, elems);
    SetWithin(w2, at.inst, DelegateReturn(a), Flag(true), elems);
    WithinTransitive(w, w2, SetVar(w2, at.inst, DelegateReturn(a), Flag(true)), at.inst, elems);
  }

  lemma ReturnParts(env: Env, w: World, a: nat)
    requires a in w.acts && Delegated(env, w, a)
    ensures var at := w.acts[a].at;
            var w1 := ReturnToOwner(env, w, a);
            && w.next in w1.acts && w1.acts[w.next].at == at && w1.acts[w.next].adhoc.None?
            && w1 == SetVar(AddTok(AddAct(w, w1.acts[w.next]), at), at.inst, DelegateReturn(a), Flag(true))
  {
    hide Rendered;
  }

  lemma RestWithin(env: Env, w: World, p: nat, a: nat, approved: bool, elems: iset<string>)
    requires a in w.acts && w.acts[a].at.inst == p && p in w.insts && Bounded(w) && ElemsOfTask(w, a) <= elems
    ensures var w1 := CompleteRest(env, w, p, a, approved).w; Within(w, w1, p, elems) && SameCounters(w, w1)
  {
    hide Within, SameCounters, SignDoneStep, ActiveSigns, DropOne, Delegated, ReturnToOwner;
    var at := w.acts[a].at;
    SelfWithin(w, p, elems);
    assert at.elem in elems;
    if w.acts[a].adhoc.Some? {
      var parent := w.acts[a].adhoc.value;
      assert parent in w.acts ==> w.acts[parent].at.elem in ElemsOfTask(w, a);
      SignDoneWithin(env, w, p, parent, approved, elems);
    } else {
      var w1 := DropOne(w, at);
      TokenWithin(w, at, elems);
      WithinInst(w, w1, p, elems);
      if Delegated(env, w1, a) {
        assert w1.acts[a].at == at;
        ReturnWithin(env, w1, a, elems);
        WithinTransitive(w, w1, ReturnToOwner(env, w1, a), p, elems);
      }
    }
  }

  lemma CompleteFootprint(env: Env, w: World, op: Op)
    requires op.Complete? && ActsKnown(w) && Effective(env, w, op)
    ensures Footprint(w, op, Prep(env, w, op).w)
  {
    hide Within, SameCounters, FinishOne, Submit, CompleteRest, ElemsOfTask;
    var elems := Elems(w, op);
    var a := op.act;
    var p := w.acts[a].at.inst;
    var w1 := FinishOne(w, a);
    FinishOneWithin(w, a, p, elems);
    WithinInst(w, w1, p, elems);
    var w2 := Submit(w1, p, op.vars);
    SubmitWithin(w1, p, op.vars, elems);
    WithinTransitive(w, w1, w2, p, elems);
    WithinInst(w, w2, p, elems);
    SubmitActs(w, a, p, op.vars);
    SameElems(w, w2, a);
    RestWithin(env, w2, p, a, Approves(op.vars), elems);
    WithinTransitive(w, w2, CompleteRest(env, w2, p, a, Approves(op.vars)).w, p, elems);
  }

  lemma SubmitActs(w: World, a: nat, p: nat, vars: Vars)
    requires a in w.acts && p in w.insts
    ensures Submit(FinishOne(w, a), p, vars).acts.Keys == w.acts.Keys
  {
  }

  lemma SameElems(w: World, w1: World, a: nat)
    requires a in w.acts && w1.acts.Keys == w.acts.Keys
    requires forall b :: b in w.acts ==> b in w1.acts && SameRole(w.acts[b], w1.acts[b])
    ensures ElemsOfTask(w1, a) == ElemsOfTask(w, a)
  {
  }

  // Every operation but a start changes one instance, at the elements it is about, or nothing at all.
  lemma OperationFootprint(env: Env, w: World, op: Op)
    requires !op.Start? && ActsKnown(w)
    ensures Effective(env, w, op) ==> Footprint(w, op, Prep(env, w, op).w)
    ensures !Effective(env, w, op) ==> Prep(env, w, op) == Stuck(w)
  {
    hide Prep, Footprint;
    if Effective(env, w, op) {
      match op {
        case Complete(_, _) => CompleteFootprint(env, w, op);
        case AddSign(_, _, _, _, _) => AddSignFootprint(env, w, op);
        case RemoveSign(_, _) => RemoveSignFootprint(env, w, op);
        case Reject(_, _, _, _) => RejectFootprint(env, w, op);
        case Jump(_, _) => JumpFootprint(env, w, op);
        case Reclaim(_, _) => ReclaimFootprint(env, w, op);
        case Suspend(_) => StateFootprint(env, w, op);
        case Resume(_) => StateFootprint(env, w, op);
        case Terminate(_) => StateFootprint(env, w, op);
        case _ => AssignFootprint(env, w, op);
      }
    }
  }

  // ---- Runs ----

  lemma WithinKnown(w: World, w1: World, q: nat, elems: iset<string>)
    requires Known(w) && Within(w, w1, q, elems)
    ensures Known(w1)
  {
    hide VarsOf;
    assert TokensKnown(w1) by {
      forall x | x in w1.toks ensures x.inst in w1.insts { assert x.inst != q ==> x in w.toks; }
    }
    assert VarsKnown(w1);
    assert LogKnown(w1);
    hide VarsKnown, LogKnown, TokensKnown;
    assert ActsKnown(w1);
    assert SignsBeside(w1);
  }

  lemma StartKnown(env: Env, w: World, def: string, vars: Vars)
    requires Known(w) && Wf(w)
    ensures Known(PrepStart(env, w, def, vars).w)
  {
    hide WellFormed;
    if PrepStart(env, w, def, vars).Go? {
      var w0 := NewInstance(w, def, None, vars);
      var start := Place(w.next, env.defs[def].start);
      BornKnown(w, def, vars);
      DoneNear(w0, start, StartKind);
      NearKnown(w0, AddDone(w0, start, StartKind), start);
    }
  }

  lemma BornKnown(w: World, def: string, vars: Vars)
    requires Known(w)
    ensures Known(NewInstance(w, def, None, vars))
  {
    var w1 := NewInstance(w, def, None, vars);
    assert forall q :: q != w.next ==> VarsOf(w1, q) == VarsOf(w, q);
    hide VarsOf;
    assert TokensKnown(w1);
    assert VarsKnown(w1);
    assert ActsKnown(w1);
    assert LogKnown(w1);
    assert SignsBeside(w1);
  }

  lemma PrepKnown(env: Env, w: World, op: Op)
    requires Known(w) && Wf(w)
    ensures Known(Prep(env, w, op).w)
  {
    hide Prep, Known, Within, Wf;
    if op.Start? {
      StartPrepIs(env, w, op);
      StartKnown(env, w, op.def, op.vars);
    } else {
      KnownParts(w);
      OperationFootprint(env, w, op);
      if Prep(env, w, op).w != w { WithinKnown(w, Prep(env, w, op).w, Subject(w, op).value, Elems(w, op)); }
    }
  }

  lemma StartPrepIs(env: Env, w: World, op: Op)
    requires op.Start?
    ensures Prep(env, w, op) == PrepStart(env, w, op.def, op.vars)
  {
  }

  lemma KnownParts(w: World)
    requires Known(w)
    ensures ActsKnown(w) && SignsBeside(w) && Bounded(w)
  {
  }

  // One operation with all its navigation, whether it succeeds or fails.
  lemma OperationKnown(env: Env, w: World, op: Op, n: nat)
    requires Known(w) && Wf(w) && !Apply(env, w, op, n).More?
    ensures Known(Apply(env, w, op, n).w) && Wf(Apply(env, w, op, n).w)
  {
    hide Prep, Known, Wf, Moves, Drifts;
    PrepKnown(env, w, op);
    PrepMoves(env, w, op);
    OperationMoves(env, w, op, n);
    match Prep(env, w, op)
    case Stuck(_) =>
    case Go(w1, jobs) =>
      NavsOk(w1, jobs);
      ExecKnown(env, w1, jobs, n);
  }

  lemma NavsOk(w: World, jobs: seq<Job>)
    requires forall i :: 0 <= i < |jobs| ==> jobs[i].Nav?
    ensures JobsOk(w, jobs)
  {
  }

  // Over every run of operations.
  lemma {:induction false} KnownLaw(env: Env, ws: seq<World>, ops: seq<Op>, j: nat)
    requires History(env, ws, ops) && Known(ws[0]) && Wf(ws[0]) && j < |ws|
    ensures Known(ws[j]) && Wf(ws[j])
  {
    hide Known, Wf, Apply;
    if j > 0 {
      KnownLaw(env, ws, ops, j - 1);
      assert Performs(env, ws[j - 1], ops[j - 1], ws[j - 1 + 1]);
      var n: nat :| !Apply(env, ws[j - 1], ops[j - 1], n).More? && Apply(env, ws[j - 1], ops[j - 1], n).w == ws[j];
      OperationKnown(env, ws[j - 1], ops[j - 1], n);
    }
  }

  lemma NothingKnown(clock: nat)
    ensures Known(World(map[], multiset{}, map[], map[], 0, clock, []))
    ensures Wf(World(map[], multiset{}, map[], map[], 0, clock, []))
  {
  }

  // So the identifier of a new instance is one that nothing refers to.
  lemma NextUnused(w: World)
    requires Known(w) && Wf(w)
    ensures Unused(w, w.next)
  {
    hide VarsOf, SignsBeside;
  }

  // ---- Other instances ----

  lemma WithinUntouched(w: World, w1: World, q: nat, elems: iset<string>, p: nat)
    requires Within(w, w1, q, elems) && p in w.insts
    ensures q != p ==> Untouched(w, w1, p)
    ensures Childless(w, p) ==> Childless(w1, p)
  {
    hide VarsOf;
    if q != p {
      CountElsewhere(w.log, w1.log, p);
      hide SameLogOf;
      forall e ensures w1.toks[Place(p, e)] == w.toks[Place(p, e)] {}
    }
  }

  // What an operation asks for: to leave one of the elements it is about, or nothing.
  ghost predicate AsksThere(w: World, op: Op, jobs: seq<Job>) {
    jobs == [] || (Subject(w, op).Some? && exists e :: e in Elems(w, op) && jobs == [Nav(Subject(w, op).value, e)])
  }

  lemma PrepJobs(env: Env, w: World, op: Op)
    requires !op.Start?
    ensures var s := Prep(env, w, op); s.Go? ==> AsksThere(w, op, s.jobs)
  {
    hide CompleteRest, FinishOne, Submit, SetState, Revisit, ForgetSigns, RejectTo, RejectToEnd, ReclaimTo,
        LatestElsewhere, ActiveSigns, CandidateList, RejectLimit, ElemsOfTask;
    match op
    case Complete(a, vars) =>
      if PrepComplete(env, w, a, vars).Go? { CompleteJobs(env, w, a, vars); }
    case Jump(a, target) =>
      assert target in Elems(w, op);
    case _ =>
  }

  lemma CompleteJobs(env: Env, w: World, a: nat, vars: Vars)
    requires PrepComplete(env, w, a, vars).Go?
    ensures AsksThere(w, Complete(a, vars), PrepComplete(env, w, a, vars).jobs)
  {
    hide CompleteRest, FinishOne, Submit, ElemsOfTask, Within, SameCounters;
    var p := w.acts[a].at.inst;
    FinishKeys(w, a);
    var w2 := Submit(FinishOne(w, a), p, vars);
    SubmitActs(w, a, p, vars);
    FinishOneWithin(w, a, p, iset{});
    WithinInst(w, FinishOne(w, a), p, iset{});
    SubmitWithin(FinishOne(w, a), p, vars, iset{});
    WithinInst(FinishOne(w, a), w2, p, iset{});
    SameElems(w, w2, a);
    RestJobs(env, w2, p, a, Approves(vars));
    assert PrepComplete(env, w, a, vars) == CompleteRest(env, w2, p, a, Approves(vars));
    assert Elems(w, Complete(a, vars)) == ElemsOfTask(w, a);
  }

  lemma StartJobs(env: Env, w: World, def: string, vars: Vars)
    ensures var s := PrepStart(env, w, def, vars); s.Go? ==> exists e :: s.jobs == [Nav(w.next, e)]
  {
    hide WellFormed;
  }

  lemma RestJobs(env: Env, w: World, p: nat, a: nat, approved: bool)
    requires a in w.acts
    ensures var s := CompleteRest(env, w, p, a, approved);
            s.Go? ==> s.jobs == [] || exists e :: e in ElemsOfTask(w, a) && s.jobs == [Nav(p, e)]
  {
    hide ActiveSigns, Delegated, ReturnToOwner, SignDoneStep;
    var b := w.acts[a];
    assert b.at.elem in ElemsOfTask(w, a);
    if b.adhoc.Some? {
      SignJobs(env, w, p, b.adhoc.value, approved);
      assert b.adhoc.value in w.acts ==> w.acts[b.adhoc.value].at.elem in ElemsOfTask(w, a);
    }
  }

  lemma SignJobs(env: Env, w: World, p: nat, parent: nat, approved: bool)
    ensures var s := SignDoneStep(env, w, p, parent, approved);
            s.Go? ==> parent in w.acts && (s.jobs == [] || s.jobs == [Nav(p, w.acts[parent].at.elem)])
  {
    hide ActiveSigns, Sessions, SessionOver, FinishAll;
  }

  // The operation concerns another instance than p, or starts a new one.
  ghost predicate Elsewhere(w: World, op: Op, p: nat) {
    op.Start? || Subject(w, op) != Some(p)
  }

  lemma StartUntouched(env: Env, w: World, def: string, vars: Vars, p: nat)
    requires Wf(w) && p in w.insts
    ensures var w1 := PrepStart(env, w, def, vars).w; Untouched(w, w1, p) && (Childless(w, p) ==> Childless(w1, p))
  {
    hide WellFormed;
    SelfUntouched(w, p);
    if PrepStart(env, w, def, vars).Go? {
      var w0 := NewInstance(w, def, None, vars);
      var start := Place(w.next, env.defs[def].start);
      BornUntouched(w, def, vars, p);
      DoneNear(w0, start, StartKind);
      NearUntouched(w0, AddDone(w0, start, StartKind), start, p);
      UntouchedTransitive(w, w0, AddDone(w0, start, StartKind), p);
    }
  }

  lemma BornUntouched(w: World, def: string, vars: Vars, p: nat)
    requires Wf(w) && p in w.insts
    ensures var w1 := NewInstance(w, def, None, vars);
            Bounded(w1) && p in w1.insts && Untouched(w, w1, p) && (Childless(w, p) ==> Childless(w1, p))
  {
  }

  lemma PrepUntouched(env: Env, w: World, op: Op, p: nat)
    requires Known(w) && Wf(w) && p in w.insts
    ensures Elsewhere(w, op, p) ==> Untouched(w, Prep(env, w, op).w, p)
    ensures Childless(w, p) ==> Childless(Prep(env, w, op).w, p)
  {
    hide Prep, Untouched, Within, Known, Wf, Childless;
    SelfUntouched(w, p);
    if op.Start? {
      StartPrepIs(env, w, op);
      StartUntouched(env, w, op.def, op.vars, p);
    } else {
      KnownParts(w);
      OperationFootprint(env, w, op);
      if Prep(env, w, op).w != w {
        WithinUntouched(w, Prep(env, w, op).w, Subject(w, op).value, Elems(w, op), p);
      }
    }
  }

  lemma JobsThere(env: Env, w: World, op: Op, p: nat)
    requires Elsewhere(w, op, p) && Wf(w) && p in w.insts
    ensures Prep(env, w, op).Go? ==> JobsElsewhere(Prep(env, w, op).jobs, p)
  {
    hide Prep, Elems;
    WfIds(w, p);
    if op.Start? {
      StartPrepIs(env, w, op);
      StartJobs(env, w, op.def, op.vars);
    } else {
      PrepJobs(env, w, op);
    }
  }

  // One operation elsewhere, with all its navigation, whether it succeeds or fails.
  lemma OperationUntouched(env: Env, w: World, op: Op, p: nat, n: nat)
    requires Known(w) && Wf(w) && p in w.insts && Childless(w, p) && Elsewhere(w, op, p)
    requires !Apply(env, w, op, n).More?
    ensures Untouched(w, Apply(env, w, op, n).w, p)
  {
    hide Prep, Known, Wf, Moves, Drifts, Untouched, Childless;
    var s := Prep(env, w, op);
    PrepUntouched(env, w, op, p);
    UntouchedInst(w, s.w, p);
    PrepMoves(env, w, op);
    JobsThere(env, w, op, p);
    SelfUntouched(w, p);
    if s.Go? {
      NavsOk(s.w, s.jobs);
      ExecUntouched(env, s.w, s.jobs, p, n);
      if !Exec(env, s.w, s.jobs, n).More? { UntouchedTransitive(w, s.w, Exec(env, s.w, s.jobs, n).w, p); }
    }
  }

  lemma PrepCallless(env: Env, w: World, op: Op, p: nat)
    requires Known(w) && Wf(w) && Callless(env, w, p)
    ensures Callless(env, Prep(env, w, op).w, p)
  {
    hide Prep, Within, Known, Wf, Untouched;
    if op.Start? {
      StartPrepIs(env, w, op);
      StartUntouched(env, w, op.def, op.vars, p);
      UntouchedInst(w, Prep(env, w, op).w, p);
    } else {
      KnownParts(w);
      OperationFootprint(env, w, op);
      if Prep(env, w, op).w != w {
        WithinDef(w, Prep(env, w, op).w, Subject(w, op).value, Elems(w, op), p);
      }
    }
  }

  lemma WithinDef(w: World, w1: World, q: nat, elems: iset<string>, p: nat)
    requires Within(w, w1, q, elems) && p in w.insts
    ensures p in w1.insts && w1.insts[p].def == w.insts[p].def && w1.insts[p].parent == w.insts[p].parent
  {
  }

  lemma OperationCallless(env: Env, w: World, op: Op, p: nat, n: nat)
    requires Known(w) && Wf(w) && Callless(env, w, p) && Childless(w, p) && !Apply(env, w, op, n).More?
    ensures Callless(env, Apply(env, w, op, n).w, p) && Childless(Apply(env, w, op, n).w, p)
  {
    hide Prep, Known, Wf, Moves, Drifts, Childless, Untouched;
    var s := Prep(env, w, op);
    PrepUntouched(env, w, op, p);
    PrepCallless(env, w, op, p);
    PrepMoves(env, w, op);
    if s.Go? {
      NavsOk(s.w, s.jobs);
      ExecCallless(env, s.w, s.jobs, p, n);
    }
  }

  lemma ActExists(env: Env, w: World, op: Op)
    requires !op.Start? && !op.Suspend? && !op.Resume? && !op.Terminate? && Prep(env, w, op).Go?
    ensures op.act in w.acts
  {
    hide FinishOne, SetState, RejectTo, ReclaimTo, LatestElsewhere, ActiveSigns, CandidateList, RejectLimit,
        CompleteRest, Submit, Revisit, ForgetSigns, OpenSession, AddSigns;
  }

  lemma WithinInsts(w: World, w1: World, q: nat, elems: iset<string>)
    requires Within(w, w1, q, elems)
    ensures q in w.insts && w1.insts.Keys == w.insts.Keys
  {
  }

  // A refusal changes nothing; a completion that fails is taken back.
  lemma RefusedStays(env: Env, w: World, op: Op)
    ensures !op.Complete? && Prep(env, w, op).Stuck? ==> Prep(env, w, op).w == w
  {
    hide FinishOne, SetState, RejectTo, ReclaimTo, LatestElsewhere, ActiveSigns, CandidateList, RejectLimit,
        Revisit, ForgetSigns, OpenSession, AddSigns, PrepComplete, WellFormed;
  }

  // ---- Meanwhile ----

  // p can be told apart from all other instances: it neither was called through, nor calls.
  ghost predicate Alone(env: Env, w: World, p: nat) {
    Known(w) && Wf(w) && Callless(env, w, p) && Childless(w, p)
  }

  // While p rests, any number of operations may be performed on other instances.
  ghost predicate Meanwhile(env: Env, w: World, w1: World, p: nat) {
    w1 == w || (Alone(env, w, p) && exists vs, os :: Others(env, w, w1, p, vs, os))
  }

  ghost predicate Others(env: Env, w: World, w1: World, p: nat, vs: seq<World>, os: seq<Op>) {
    && History(env, vs, os) && vs[0] == w && vs[|os|] == w1
    && forall i :: 0 <= i < |os| ==> Elsewhere(vs[i], os[i], p)
  }

  lemma {:induction false} OthersUntouched(env: Env, vs: seq<World>, os: seq<Op>, p: nat, j: nat)
    requires History(env, vs, os) && j <= |os| && Alone(env, vs[0], p)
    requires forall i :: 0 <= i < |os| ==> Elsewhere(vs[i], os[i], p)
    ensures Untouched(vs[0], vs[j], p) && Alone(env, vs[j], p)
  {
    hide Untouched, Known, Wf, Childless, Apply, Elsewhere;
    if j == 0 {
      SelfUntouched(vs[0], p);
    } else {
      OthersUntouched(env, vs, os, p, j - 1);
      assert Performs(env, vs[j - 1], os[j - 1], vs[j - 1 + 1]) && Elsewhere(vs[j - 1], os[j - 1], p);
      var n: nat :| !Apply(env, vs[j - 1], os[j - 1], n).More? && Apply(env, vs[j - 1], os[j - 1], n).w == vs[j];
      OperationUntouched(env, vs[j - 1], os[j - 1], p, n);
      OperationKnown(env, vs[j - 1], os[j - 1], n);
      OperationCallless(env, vs[j - 1], os[j - 1], p, n);
      UntouchedTransitive(vs[0], vs[j - 1], vs[j], p);
    }
  }

  // Nothing of p changes meanwhile.
  lemma MeanwhileUntouched(env: Env, w: World, w1: World, p: nat)
    requires Meanwhile(env, w, w1, p) && p in w.insts
    ensures Untouched(w, w1, p) && (w1 == w || (Known(w1) && Wf(w1)))
  {
    hide Untouched, Known, Wf, Callless, Childless, History;
    SelfUntouched(w, p);
    if w1 != w {
      var vs, os :| Others(env, w, w1, p, vs, os);
      OthersUntouched(env, vs, os, p, |os|);
    }
  }
}
