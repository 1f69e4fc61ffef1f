// Sign sessions: extra approvers of a task. All of them must answer (strategy "and"), or one must approve
// ("or"). With "and" the task's flows are followed once, when the last child and the task itself are complete,
// in whatever order that happens; with "or" the session closes with the first approval.

module Signs {
  import opened Spec
  import opened Model
  import opened Machine
  import opened Operations
  import opened Lifecycle
  import opened TokenGame
  import opened TokenRuns
  import opened Moves
  import opened Frames
  import opened Footprints
  import opened Names

  datatype Session = Session(at: Place, parent: nat, id: nat, total: nat, strategy: string)

  // An answer approves when it submits the variable `approved` with the value true.
  predicate Approving(vars: Vars) {
    User("approved") in vars && vars[User("approved")] == Flag(true)
  }

  // The session's variables after k answers, y of them approvals.
  ghost predicate Tally(vars: Vars, s: Session, k: nat, y: nat) {
    && Sessions(vars, s.parent) == {s.id}
    && SignVar(s.id, Strategy) in vars && vars[SignVar(s.id, Strategy)] == Text(s.strategy)
    && NumAt(vars, SignVar(s.id, SignTotal)) == s.total && NumAt(vars, SignVar(s.id, SignDone)) == k
    && NumAt(vars, SignVar(s.id, Approved)) == y
  }

  // The strategy is satisfied.
  predicate Enough(s: Session, k: nat, y: nat) {
    (s.strategy == "and" && k >= s.total) || (s.strategy == "or" && y >= 1)
  }

  predicate ChildOk(b: Act, s: Session, isDone: bool) {
    b.at == s.at && b.kind == UserKind && b.adhoc == Some(s.parent) && b.state == if isDone then Done else Active
  }

  // The active signs of the task are among these children; those in `done` are complete. Signs of earlier sessions
  // may be on record, complete.
  ghost predicate Children(w: World, s: Session, ids: seq<nat>, done: set<nat>) {
    && (forall i, j :: 0 <= i < j < |ids| ==> ids[i] != ids[j])
    && (forall a :: a in ids ==> a in w.acts)
    && (forall a :: a in w.acts && w.acts[a].adhoc == Some(s.parent) && w.acts[a].state == Active ==> a in ids)
    && (forall i :: 0 <= i < |ids| ==> ChildOk(w.acts[ids[i]], s, i in done))
    && (forall i :: i in done ==> i < |ids|)
  }

  ghost predicate ParentIs(w: World, s: Session, parentDone: bool) {
    && s.parent in w.acts && w.acts[s.parent].at == s.at && w.acts[s.parent].kind == UserKind
        && w.acts[s.parent].adhoc.None?
    && w.acts[s.parent].state == if parentDone then Done else Active
  }

  // The session is open.
  ghost predicate InSession(w: World, s: Session, ids: seq<nat>, done: set<nat>, y: nat, parentDone: bool) {
    && Bounded(w) && Tally(VarsOf(w, s.at.inst), s, |done|, y) && Children(w, s, ids, done)
    && ParentIs(w, s, parentDone) && |ids| == s.total && !Enough(s, |done|, y)
  }

  // The session is closed: no child is active and no variable of it is left.
  ghost predicate Closed(w: World, s: Session) {
    && ActiveSigns(w, s.at.inst, s.parent) == {}
    && Sessions(VarsOf(w, s.at.inst), s.parent) == {}
    && forall k :: k in VarsOf(w, s.at.inst) && k.SignVar? ==> k.sign != s.id
  }

  // ---- Opening ----

  ghost predicate FreshSign(w: World, p: nat) {
    forall k :: k in VarsOf(w, p) && k.SignVar? ==> k.sign < w.next
  }

  lemma NamedFresh(w: World, p: nat)
    requires Named(w)
    ensures FreshSign(w, p) && Bounded(w)
  {
    NextNamesNothing(w, p);
  }

  // The variables of an instance with those of a new session.
  function SessionOpened(vars: Vars, s: Session, signType: string): Vars {
    vars + map[SignVar(s.id, SignType) := Text(signType), SignVar(s.id, Strategy) := Text(s.strategy),
               SignVar(s.id, SignTotal) := Num(s.total), SignVar(s.id, SignDone) := Num(0),
               SignVar(s.id, Approved) := Num(0), SignVar(s.id, Parent) := Ref(s.parent)]
  }

  lemma OpenSessionParts(w: World, s: Session, signType: string)
    requires FreshSign(w, s.at.inst) && Sessions(VarsOf(w, s.at.inst), s.parent) == {} && s.id == w.next
    ensures var w1 := OpenSession(w, s.at.inst, s.parent, signType, s.strategy, s.total);
            && w1.acts == w.acts && w1.next == w.next + 1 && w1.toks == w.toks && w1.log == w.log && w1.insts == w.insts
            && Tally(VarsOf(w1, s.at.inst), s, 0, 0)
  {
    hide SetVar, VarsOf, Tally;
    var p, id, a := s.at.inst, s.id, s.parent;
    var vars := VarsOf(w, p);
    var w0 := w.(next := id + 1);
    assert VarsOf(w0, p) == vars by { SameVarsOf(w, w0, p); }
    VarsSet(w0, p, SignVar(id, SignType), Text(signType));
    var w1 := SetVar(w0, p, SignVar(id, SignType), Text(signType));
    VarsSet(w1, p, SignVar(id, Strategy), Text(s.strategy));
    var w2 := SetVar(w1, p, SignVar(id, Strategy), Text(s.strategy));
    VarsSet(w2, p, SignVar(id, SignTotal), Num(s.total));
    var w3 := SetVar(w2, p, SignVar(id, SignTotal), Num(s.total));
    VarsSet(w3, p, SignVar(id, SignDone), Num(0));
    var w4 := SetVar(w3, p, SignVar(id, SignDone), Num(0));
    VarsSet(w4, p, SignVar(id, Approved), Num(0));
    var w5 := SetVar(w4, p, SignVar(id, Approved), Num(0));
    VarsSet(w5, p, SignVar(id, Parent), Ref(a));
    TallyOpens(vars, s, signType);
  }

  lemma OpenSessionVars(w: World, s: Session, signType: string)
    requires s.id == w.next
    ensures VarsOf(OpenSession(w, s.at.inst, s.parent, signType, s.strategy, s.total), s.at.inst) ==
            SessionOpened(VarsOf(w, s.at.inst), s, signType)
  {
  }

  lemma TallyOpens(vars: Vars, s: Session, signType: string)
    requires Sessions(vars, s.parent) == {} && forall k :: k in vars && k.SignVar? ==> k.sign < s.id
    ensures Tally(vars[SignVar(s.id, SignType) := Text(signType)][SignVar(s.id,
        Strategy) := Text(s.strategy)][SignVar(s.id, SignTotal) := Num(s.total)]
                  [SignVar(s.id, SignDone) := Num(0)][SignVar(s.id, Approved) := Num(0)][SignVar(s.id,
                      Parent) := Ref(s.parent)], s, 0, 0)
  {
    var after := vars[SignVar(s.id, SignType) := Text(signType)][SignVar(s.id,
        Strategy) := Text(s.strategy)][SignVar(s.id, SignTotal) := Num(s.total)]
                 [SignVar(s.id, SignDone) := Num(0)][SignVar(s.id, Approved) := Num(0)][SignVar(s.id,
                     Parent) := Ref(s.parent)];
    forall k ensures k in Sessions(after, s.parent) <==> k == s.id {
      assert k in Sessions(after, s.parent) && k != s.id ==> k in Sessions(vars, s.parent);
      assert after[SignVar(s.id, Parent)] == Ref(s.parent);
    }
  }

  lemma AddChild(w: World, w1: World, s: Session, ids: seq<nat>, c: nat)
    requires Bounded(w) && Children(w, s, ids, {}) && c == w.next && w1.next == w.next + 1
    requires c in w1.acts && w1.acts == w.acts[c := w1.acts[c]] && ChildOk(w1.acts[c], s, false)
    ensures Bounded(w1) && Children(w1, s, ids + [c], {})
  {
    var ids1 := ids + [c];
    forall i | 0 <= i < |ids1| ensures ChildOk(w1.acts[ids1[i]], s, false) {
      if i < |ids| { assert ids1[i] == ids[i] && ids[i] in w.acts && ChildOk(w.acts[ids[i]], s, false); }
    }
  }

  // The activity is for whom this name, rendered with these variables, names.
  ghost predicate SignedBy(env: Env, b: Act, name: string, vars: Vars) {
    (name == "" ==> b.assignee == "") && (name != "" ==> b.assignee == env.render(name, vars))
  }

  lemma OneSign(env: Env, w: World, s: Session, name: string)
    ensures var w1 := AddTok(AddAct(w, NewAct(s.at, UserKind,
                          Rendered(env, name, VarsOf(w, s.at.inst))).(adhoc := Some(s.parent))), s.at);
            && w1.log == w.log && w1.insts == w.insts && w1.vars == w.vars && w1.next == w.next + 1
            && w1.toks[s.at] == w.toks[s.at] + 1 && w.next in w1.acts && w1.acts == w.acts[w.next := w1.acts[w.next]]
            && ChildOk(w1.acts[w.next], s, false) && SignedBy(env, w1.acts[w.next], name, VarsOf(w, s.at.inst))
  {
  }

  lemma {:induction false} AddSignsParts(env: Env, w: World, s: Session, assignees: seq<string>) returns (ids: seq<nat>)
    requires Bounded(w) && forall a :: a in w.acts && w.acts[a].state == Active ==> w.acts[a].adhoc != Some(s.parent)
    ensures var w1 := AddSigns(env, w, s.at, s.parent, assignees);
            && Bounded(w1) && Children(w1, s, ids, {}) && |ids| == |assignees| && w1.log == w.log
                && w1.insts == w.insts && w1.vars == w.vars
            && w1.toks[s.at] == w.toks[s.at] + |assignees|
            && (forall a :: a in w.acts ==> a in w1.acts && w1.acts[a] == w.acts[a])
            && (forall i :: 0 <= i < |ids| ==> ids[i] in w1.acts && ids[i] !in w.acts)
            && (forall i :: 0 <= i < |ids| ==> SignedBy(env, w1.acts[ids[i]], assignees[i], VarsOf(w, s.at.inst)))
  {
    hide Children, AddTok, AddAct, NewAct, Rendered, SignedBy, ChildOk, VarsOf;
    if assignees == [] {
      ids := [];
      NoChildren(w, s);
    } else {
      var last := |assignees| - 1;
      var before := AddSignsParts(env, w, s, assignees[..last]);
      var w0 := AddSigns(env, w, s.at, s.parent, assignees[..last]);
      var w1 := AddSigns(env, w, s.at, s.parent, assignees);
      SameVarsOf(w, w0, s.at.inst);
      OneSign(env, w0, s, assignees[last]);
      AddChild(w0, w1, s, before, w0.next);
      ids := before + [w0.next];
    }
  }

  lemma NoChildren(w: World, s: Session)
    requires forall a :: a in w.acts && w.acts[a].state == Active ==> w.acts[a].adhoc != Some(s.parent)
    ensures Children(w, s, [], {})
  {
  }

  // Asking for signatures, whether or not the task has had a session before: one child for each assignee. Asked
  // backward, the task itself is complete at once.
  lemma SignOpens(env: Env, w: World, a: nat, backward: bool, signType: string, strategy: string,
      assignees: seq<string>) returns (s: Session, ids: seq<nat>)
    requires Named(w) && PrepAddSign(env, w, a, backward, signType, strategy, assignees).Go?
    requires Sessions(VarsOf(w, w.acts[a].at.inst), a) == {}
    requires forall b :: b in w.acts && w.acts[b].state == Active ==> w.acts[b].adhoc != Some(a)
    ensures var step := PrepAddSign(env, w, a, backward, signType, strategy, assignees);
            && a in w.acts && s == Session(w.acts[a].at, a, w.next, |assignees|, strategy) && step.jobs == []
            && InSession(step.w, s, ids, {}, 0, backward) && step.w.log == w.log && step.w.insts == w.insts
            && step.w.toks[s.at] == (if backward
                then w.toks[s.at] + |assignees| - (if w.toks[s.at] + |assignees| > 0 then 1 else 0)
                else w.toks[s.at] + |assignees|)
            && VarsOf(step.w, s.at.inst) == SessionOpened(VarsOf(w, s.at.inst), s, signType)
            && forall i :: 0 <= i < |assignees| ==>
                 SignedBy(env, step.w.acts[ids[i]], assignees[i], SessionOpened(VarsOf(w, s.at.inst), s, signType))
  {
    hide OpenSession, AddSigns, FinishOne, Children, Tally, Sessions, Named, FreshSign, SignedBy, SessionOpened, VarsOf;
    var at := w.acts[a].at;
    NamedFresh(w, at.inst);
    s := Session(at, a, w.next, |assignees|, strategy);
    var w1 := OpenSession(w, at.inst, a, signType, strategy, |assignees|);
    OpenSessionParts(w, s, signType);
    OpenSessionVars(w, s, signType);
    ids := AddSignsParts(env, w1, s, assignees);
    var w2 := AddSigns(env, w1, at, a, assignees);
    assert VarsOf(w2, at.inst) == VarsOf(w1, at.inst) by { SameVarsOf(w1, w2, at.inst); }
    if backward {
      FinishOneKeeps(w2, a);
      FinishBounded(w2, a);
      ParentFinished(w2, DropOne(FinishOne(w2, a), at), s, ids, {});
      SameVarsOf(w2, DropOne(FinishOne(w2, a), at), at.inst);
    }
    var w3 := PrepAddSign(env, w, a, backward, signType, strategy, assignees).w;
    forall i | 0 <= i < |assignees|
      ensures SignedBy(env, w3.acts[ids[i]], assignees[i], SessionOpened(VarsOf(w, at.inst), s, signType)) {
      assert ids[i] != a;
      OtherKept(w2, a, ids[i]);
    }
  }

  lemma OtherKept(w: World, a: nat, b: nat)
    requires a in w.acts && b in w.acts && a != b
    ensures b in FinishOne(w, a).acts && FinishOne(w, a).acts[b] == w.acts[b]
  {
  }

  // The task itself is completed.
  lemma ParentFinished(w: World, w1: World, s: Session, ids: seq<nat>, done: set<nat>)
    requires ParentIs(w, s, false) && Children(w, s, ids, done) && w1.acts == FinishOne(w, s.parent).acts
    ensures ParentIs(w1, s, true) && Children(w1, s, ids, done)
  {
  }

  // ---- Answers ----

  lemma MergeTally(w: World, w1: World, s: Session, vars: Vars, k: nat, y: nat)
    requires CallerVars(vars) && w1.vars == MergeVars(w, s.at.inst, vars).vars && Tally(VarsOf(w, s.at.inst), s, k, y)
    ensures Tally(VarsOf(w1, s.at.inst), s, k, y)
  {
    var before, after := VarsOf(w, s.at.inst), VarsOf(w1, s.at.inst);
    forall x ensures x in Sessions(after, s.parent) <==> x in Sessions(before, s.parent) {
      assert SignVar(x, Parent) in before <==> SignVar(x, Parent) in after;
    }
  }

  lemma ChildFinished(w: World, w1: World, s: Session, ids: seq<nat>, done: set<nat>, i: nat, parentDone: bool)
    requires Bounded(w) && Children(w, s, ids, done) && ParentIs(w, s, parentDone) && i < |ids|
    requires w1.acts == FinishOne(w, ids[i]).acts && w1.next == w.next
    ensures Bounded(w1) && Children(w1, s, ids, done + {i}) && ParentIs(w1, s, parentDone)
  {
  }

  // What a submitted completion does before anything else happens.
  lemma SubmittedParts(w: World, p: nat, a: nat, vars: Vars)
    requires a in w.acts && p in w.insts
    ensures var w1 := Submit(FinishOne(w, a), p, vars);
            && w1.acts == FinishOne(w, a).acts && w1.next == w.next && w1.log == w.log && w1.toks == w.toks
            && w1.vars == MergeVars(w, p, vars).vars
            && p in w1.insts && w1.insts[p].state == w.insts[p].state && w1.insts[p].def == w.insts[p].def
  {
    hide FinishOne, MergeVars;
    FinishOneKeeps(w, a);
    MergeParts(w, FinishOne(w, a), p, vars);
  }

  lemma ChildPrep(env: Env, w: World, s: Session, ids: seq<nat>, done: set<nat>, y: nat, parentDone: bool, i: nat,
      vars: Vars)
    requires InSession(w, s, ids, done, y, parentDone) && s.at.inst in w.insts && i < |ids| && i !in done
    ensures ids[i] in w.acts && w.acts[ids[i]].at == s.at && w.acts[ids[i]].state == Active
    ensures PrepComplete(env, w, ids[i], vars) ==
        SignDoneStep(env, Submit(FinishOne(w, ids[i]), s.at.inst, vars), s.at.inst, s.parent, Approving(vars))
  {
    hide Tally, SignDoneStep, MergeVars, ActiveSigns;
    SubmittedParts(w, s.at.inst, ids[i], vars);
    assert ChildOk(w.acts[ids[i]], s, false);
  }

  function Vote(approved: bool): nat {
    if approved then 1 else 0
  }

  // The world in which a child's answer has been counted.
  ghost function Answered(w: World, s: Session, approved: bool): World {
    var p := s.at.inst;
    var vars := VarsOf(w, p);
    var done := NumAt(vars, SignVar(s.id, SignDone)) + 1;
    var approvals := NumAt(vars, SignVar(s.id, Approved)) + (if approved then 1 else 0);
    SetVar(SetVar(w, p, SignVar(s.id, SignDone), Num(done)), p, SignVar(s.id, Approved), Num(approvals))
  }

  lemma AnswerCounts(env: Env, w: World, s: Session, k: nat, y: nat, approved: bool)
    requires Tally(VarsOf(w, s.at.inst), s, k, y) && s.parent in w.acts
    ensures var w1 := Answered(w, s, approved);
            && w1.acts == w.acts && w1.next == w.next && w1.toks == w.toks && w1.log == w.log && w1.insts == w.insts
            && Tally(VarsOf(w1, s.at.inst), s, k + 1, y + Vote(approved))
    ensures SignDoneStep(env, w, s.at.inst, s.parent, approved)
            == if Enough(s, k + 1, y + Vote(approved))
                then CloseSession(Answered(w, s, approved), s.at.inst, s.parent, s.id)
                else Go(Answered(w, s, approved), [])
  {
    hide SetVar, VarsOf, CloseSession;
    var p := s.at.inst;
    var vars := VarsOf(w, p);
    var done := NumAt(vars, SignVar(s.id, SignDone)) + 1;
    var approvals := NumAt(vars, SignVar(s.id, Approved)) + (if approved then 1 else 0);
    VarsSet(w, p, SignVar(s.id, SignDone), Num(done));
    VarsSet(SetVar(w, p, SignVar(s.id, SignDone), Num(done)), p, SignVar(s.id, Approved), Num(approvals));
    TallyCounts(vars, s, k, y, Num(done), Num(approvals), approved);
    assert Pick(env, {s.id}, w.clock) == s.id;
  }

  lemma TallyCounts(vars: Vars, s: Session, k: nat, y: nat, done: Value, approvals: Value, approved: bool)
    requires Tally(vars, s, k, y) && done == Num(k + 1) && approvals == Num(y + Vote(approved))
    ensures Tally(vars[SignVar(s.id, SignDone) := done][SignVar(s.id, Approved) := approvals], s, k + 1,
                  y + Vote(approved))
  {
    var after := vars[SignVar(s.id, SignDone) := done][SignVar(s.id, Approved) := approvals];
    forall x ensures x in Sessions(after, s.parent) <==> x in Sessions(vars, s.parent) {
      assert SignVar(x, Parent) in vars <==> SignVar(x, Parent) in after;
    }
  }

  // ---- One operation in a session ----

  // p runs a definition in which the session's task is a plain user task.
  ghost predicate SignPlace(env: Env, w: World, p: nat, def: Definition, s: Session) {
    && s.at.inst == p && p in w.insts && w.insts[p].state == Running && w.insts[p].def in env.defs
        && env.defs[w.insts[p].def] == def
    && TaskAt(def, s.at.elem) && def.elements[s.at.elem].loop.None?
  }

  // Nothing has changed but the session's own variables, the tokens at its task, and that its active signs may
  // be finished.
  ghost predicate OutsideSession(w: World, w1: World, s: Session) {
    && w1.insts == w.insts
    && (forall x :: x != s.at ==> w1.toks[x] == w.toks[x])
    && SameButSession(w, w1, s) && SignsFinished(w, w1, s)
  }

  ghost predicate SameButSession(w: World, w1: World, s: Session) {
    && (forall q :: q != s.at.inst ==> VarsOf(w1, q) == VarsOf(w, q))
    && (forall k: VarName :: !(k.SignVar? && k.sign == s.id) ==>
          (k in VarsOf(w1, s.at.inst) <==> k in VarsOf(w, s.at.inst))
          && (k in VarsOf(w, s.at.inst) ==> VarsOf(w1, s.at.inst)[k] == VarsOf(w, s.at.inst)[k]))
  }

  ghost predicate SignsFinished(w: World, w1: World, s: Session) {
    && w1.acts.Keys == w.acts.Keys
    && forall a :: a in w.acts ==>
         || w1.acts[a] == w.acts[a]
         || (w.acts[a].adhoc == Some(s.parent) && w.acts[a].state == Active
             && w1.acts[a] == w.acts[a].(state := Done, stamp := w1.acts[a].stamp))
  }

  lemma OutsideSessionTransitive(w: World, w1: World, w2: World, s: Session)
    requires OutsideSession(w, w1, s) && OutsideSession(w1, w2, s)
    ensures OutsideSession(w, w2, s)
  {
    hide VarsOf;
  }

  lemma SetOutsideSession(w: World, s: Session, f: SignField, v: Value)
    ensures OutsideSession(w, SetVar(w, s.at.inst, SignVar(s.id, f), v), s)
  {
  }

  lemma AnsweredOutside(w: World, s: Session, approved: bool)
    ensures OutsideSession(w, Answered(w, s, approved), s)
  {
    hide OutsideSession, SetVar, VarsOf, NumAt;
    var p := s.at.inst;
    var vars := VarsOf(w, p);
    var done := NumAt(vars, SignVar(s.id, SignDone)) + 1;
    var approvals := NumAt(vars, SignVar(s.id, Approved)) + (if approved then 1 else 0);
    var w1 := SetVar(w, p, SignVar(s.id, SignDone), Num(done));
    SetOutsideSession(w, s, SignDone, Num(done));
    SetOutsideSession(w1, s, Approved, Num(approvals));
    OutsideSessionTransitive(w, w1, Answered(w, s, approved), s);
  }

  // Activity a has been completed with these variables. The task's flows have been followed once more, and are
  // taken next; the session is closed; and all else is as the completion has left it.
  ghost predicate SessionDeparts(env: Env, w: World, p: nat, s: Session, a: nat, vars: Vars, out: seq<Flow>, o: Outcome,
      n: nat)
    requires a in w.acts && p in w.insts
  {
    exists w1: World ::
      && n > 0 && RunsOn(w, Exec(env, w1, LeftJobs(p, out), n - 1), o)
      && w1.log == w.log + [Follow(s.at)] && Closed(w1, s)
      && OutsideSession(Submit(FinishOne(w, a), p, vars), w1, s)
  }

  // ---- Closing ----

  lemma DelTally(w: World, p: nat, s: Session, k: nat, y: nat)
    requires s.at.inst == p && Tally(VarsOf(w, p), s, k, y) && ActiveSigns(w, p, s.parent) == {}
    ensures Closed(DelVars(w, p, SessionVars({s.id}, VarsOf(w, p))), s)
  {
    var w1 := DelVars(w, p, SessionVars({s.id}, VarsOf(w, p)));
    assert ActiveSigns(w1, p, s.parent) == ActiveSigns(w, p, s.parent);
    var before, after := VarsOf(w, p), VarsOf(w1, p);
    assert forall k :: k in after ==> k in before && after[k] == before[k];
    assert forall k :: k in after && k.SignVar? ==> k.sign != s.id;
    forall x ensures x !in Sessions(after, s.parent) {
      assert x in Sessions(after, s.parent) ==> x in Sessions(before, s.parent);
    }
  }

  lemma FinishSigns(w: World, s: Session)
    ensures var w1 := FinishAll(w, ActiveSigns(w, s.at.inst, s.parent));
            && w1.vars == w.vars && w1.log == w.log && w1.toks == w.toks && w1.insts == w.insts && w1.next == w.next
            && ActiveSigns(w1, s.at.inst, s.parent) == {} && OutsideSession(w, w1, s)
            && (forall parentDone :: ParentIs(w, s, parentDone) ==> ParentIs(w1, s, parentDone))
  {
    var w1 := FinishAll(w, ActiveSigns(w, s.at.inst, s.parent));
    assert forall q :: VarsOf(w1, q) == VarsOf(w, q);
    hide VarsOf;
  }

  lemma DelOutsideSession(w: World, s: Session)
    ensures OutsideSession(w, DelVars(w, s.at.inst, SessionVars({s.id}, VarsOf(w, s.at.inst))), s)
  {
  }

  lemma TokensOutsideSession(w: World, w1: World, s: Session)
    requires w1 == w.(toks := w1.toks) && forall x :: x != s.at ==> w1.toks[x] == w.toks[x]
    ensures OutsideSession(w, w1, s)
  {
  }

  lemma ClosedParts(w: World, p: nat, s: Session, k: nat, y: nat, parentDone: bool)
    requires s.at.inst == p && Tally(VarsOf(w, p), s, k, y) && ParentIs(w, s, parentDone)
    ensures var step := CloseSession(w, p, s.parent, s.id);
            && step.Go? && step.jobs == (if parentDone then [Nav(p, s.at.elem)] else [])
            && step.w.log == w.log && step.w.insts == w.insts && step.w.next == w.next
            && Closed(step.w, s) && ParentIs(step.w, s, parentDone) && OutsideSession(w, step.w, s)
            && step.w.toks == w.toks[s.at := if parentDone then 1 else if w.toks[s.at] == 0 then 0 else 1]
  {
    hide DelVars, VarsOf, Tally, Closed, SessionVars, ActiveSigns, FinishAll, OutsideSession, ParentIs;
    ParentPlace(w, s, parentDone);
    FinishSigns(w, s);
    var w1 := FinishAll(w, ActiveSigns(w, p, s.parent));
    var keep := if parentDone || w1.toks[s.at] == 0 then 0 else 1;
    var w2 := w1.(toks := w1.toks[s.at := keep]);
    TokensOutsideSession(w1, w2, s);
    OutsideSessionTransitive(w, w1, w2, s);
    SameVarsOf(w, w1, p);
    SameVarsOf(w, w2, p);
    SameSigns(w1, w2, p, s.parent);
    DelTally(w2, p, s, k, y);
    var ks := SessionVars({s.id}, VarsOf(w2, p));
    DelVarsKeeps(w2, p, ks);
    DelVarsNext(w2, p, ks);
    DelVarsLog(w2, p, ks);
    var w3 := DelVars(w2, p, ks);
    DelOutsideSession(w2, s);
    OutsideSessionTransitive(w, w2, w3, s);
    ClosedStays(w3, AddTok(w3, s.at), s);
    TokensOutsideSession(w3, AddTok(w3, s.at), s);
    OutsideSessionTransitive(w, w3, AddTok(w3, s.at), s);
    ParentStays(w1, w3, s, parentDone);
    ParentStays(w1, AddTok(w3, s.at), s, parentDone);
  }

  lemma ParentPlace(w: World, s: Session, parentDone: bool)
    requires ParentIs(w, s, parentDone)
    ensures s.parent in w.acts && w.acts[s.parent].at == s.at
    ensures w.acts[s.parent].state == if parentDone then Done else Active
  {
  }

  lemma ParentStays(w: World, w1: World, s: Session, parentDone: bool)
    requires ParentIs(w, s, parentDone) && w1.acts == w.acts
    ensures ParentIs(w1, s, parentDone)
  {
  }

  lemma DelVarsLog(w: World, p: nat, ks: set<VarName>)
    ensures DelVars(w, p, ks).log == w.log
  {
  }

  lemma SameSigns(w: World, w1: World, p: nat, a: nat)
    requires w1.acts == w.acts
    ensures ActiveSigns(w1, p, a) == ActiveSigns(w, p, a)
  {
  }

  lemma ClosedStays(w: World, w1: World, s: Session)
    requires Closed(w, s) && w1.acts == w.acts && w1.vars == w.vars
    ensures Closed(w1, s)
  {
  }

  lemma NavLeaves(env: Env, w: World, p: nat, def: Definition, s: Session)
    requires SignPlace(env, w, p, def, s)
    ensures NavStep(env, w, p, s.at.elem) == Leave(w, s.at, FlowsFrom(def.flows, s.at.elem))
  {
    hide FlowsFrom, Leave;
  }

  lemma LeaveParts(w: World, at: Place, out: seq<Flow>)
    ensures var step := Leave(w, at, out);
            step.Go? && step.jobs == LeftJobs(at.inst, out) && step.w.log == w.log + [Follow(at)]
                && step.w.acts == w.acts && step.w.vars == w.vars
    ensures forall s: Session :: s.at == at ==> OutsideSession(w, Leave(w, at, out).w, s)
  {
    hide Takes;
    var w1 := Logged(w, Follow(at));
    if out == [] {
      assert Leave(w, at, out) == Go(w1, [Check(at.inst)]);
    } else {
      assert Leave(w, at, out) == Go(DropOne(w1, at), Takes(at.inst, out));
    }
    assert forall q :: VarsOf(Leave(w, at, out).w, q) == VarsOf(w, q);
    hide VarsOf;
  }

  // Leaving the task from w0 departs from w.
  lemma LeavingSession(env: Env, w: World, w0: World, p: nat, s: Session, a: nat, vars: Vars, out: seq<Flow>, n: nat)
    requires s.at.inst == p && w0.log == w.log && Closed(w0, s) && n > 0 && a in w.acts && p in w.insts
    requires OutsideSession(Submit(FinishOne(w, a), p, vars), w0, s)
    ensures forall o :: RunsOn(w, Finish(env, Leave(w0, s.at, out), n - 1), o) ==>
              SessionDeparts(env, w, p, s, a, vars, out, o, n)
  {
    hide Exec, Closed, Leave, OutsideSession, Submit, FinishOne;
    LeaveParts(w0, s.at, out);
    var w1 := Leave(w0, s.at, out).w;
    ClosedStays(w0, w1, s);
    OutsideSessionTransitive(Submit(FinishOne(w, a), p, vars), w0, w1, s);
    assert Finish(env, Leave(w0, s.at, out), n - 1) == Exec(env, w1, LeftJobs(p, out), n - 1);
  }

  // ---- Answers to a session ----

  // The world after a child's answer, before the session is looked at.
  ghost function Heard(w: World, p: nat, s: Session, a: nat, vars: Vars): World
    requires a in w.acts && p in w.insts
  {
    Answered(Submit(FinishOne(w, a), p, vars), s, Approving(vars))
  }

  lemma ChildHeard(env: Env, w: World, p: nat, def: Definition, s: Session, ids: seq<nat>, done: set<nat>, y: nat,
      parentDone: bool, i: nat, vars: Vars)
    requires SignPlace(env, w, p, def, s) && InSession(w, s, ids, done, y, parentDone) && i < |ids| && i !in done
        && CallerVars(vars)
    ensures ids[i] in w.acts
    ensures var w1 := Heard(w, p, s, ids[i], vars);
            && PrepComplete(env, w, ids[i], vars) ==
                (if Enough(s, |done| + 1, y + Vote(Approving(vars))) then CloseSession(w1, p, s.parent, s.id)
                 else Go(w1, []))
            && Bounded(w1) && Tally(VarsOf(w1, p), s, |done| + 1, y + Vote(Approving(vars)))
            && Children(w1, s, ids, done + {i}) && ParentIs(w1, s, parentDone)
            && w1.log == w.log && w1.toks == w.toks && SignPlace(env, w1, p, def, s)
            && OutsideSession(Submit(FinishOne(w, ids[i]), p, vars), w1, s)
  {
    hide FlowsFrom, Children, Tally, PrepComplete, SignDoneStep, CloseSession, FinishOne, Submit, Answered, VarsOf,
        ParentIs, OutsideSession;
    var a := ids[i];
    ChildPrep(env, w, s, ids, done, y, parentDone, i, vars);
    SubmittedParts(w, p, a, vars);
    var w1 := Submit(FinishOne(w, a), p, vars);
    MergeTally(w, w1, s, vars, |done|, y);
    ChildFinished(w, w1, s, ids, done, i, parentDone);
    ParentExists(w1, s, parentDone);
    AnswerCounts(env, w1, s, |done|, y, Approving(vars));
    SameChildren(w1, Answered(w1, s, Approving(vars)), s, ids, done + {i}, parentDone);
    AnsweredOutside(w1, s, Approving(vars));
  }

  lemma ParentExists(w: World, s: Session, parentDone: bool)
    requires ParentIs(w, s, parentDone)
    ensures s.parent in w.acts
  {
  }

  // A child answers. Unless that is enough, the session stays open. If it is, the session closes: the other
  // signs are finished, and if the task is complete by then its flows are followed; otherwise it waits, with
  // one token, to be completed.
  lemma ChildAnswers(env: Env, w: World, p: nat, def: Definition, s: Session, ids: seq<nat>, done: set<nat>, y: nat,
      parentDone: bool, i: nat, vars: Vars, n: nat)
    requires SignPlace(env, w, p, def, s) && InSession(w, s, ids, done, y, parentDone) && i < |ids| && i !in done
    requires CallerVars(vars) && Apply(env, w, Complete(ids[i], vars), n) != More
    ensures ids[i] in w.acts
    ensures var o := Apply(env, w, Complete(ids[i], vars), n);
            var y1 := y + Vote(Approving(vars));
            if !Enough(s, |done| + 1, y1) then o.Ended? && InSession(o.w, s, ids, done + {i}, y1, parentDone)
                && o.w.log == w.log && SignPlace(env, o.w, p, def, s)
            else if parentDone then SessionDeparts(env, w, p, s, ids[i], vars, FlowsFrom(def.flows, s.at.elem), o, n)
            else o.Ended? && Waits(o.w, s) && o.w.log == w.log && SignPlace(env, o.w, p, def, s)
                 && o.w.toks == w.toks[s.at := if w.toks[s.at] == 0 then 0 else 1]
                 && OutsideSession(Submit(FinishOne(w, ids[i]), p, vars), o.w, s)
  {
    hide FlowsFrom, Exec, Children, Tally, PrepComplete, CloseSession, Heard, NavStep, Closed, SessionDeparts, Leave,
        VarsOf, OutsideSession, Submit, FinishOne;
    ChildHeard(env, w, p, def, s, ids, done, y, parentDone, i, vars);
    var y1 := y + Vote(Approving(vars));
    var w2 := Heard(w, p, s, ids[i], vars);
    if !Enough(s, |done| + 1, y1) {
      ExecNone(env, w2, n);
    } else {
      ClosedParts(w2, p, s, |done| + 1, y1, parentDone);
      var w3 := CloseSession(w2, p, s.parent, s.id).w;
      OutsideSessionTransitive(Submit(FinishOne(w, ids[i]), p, vars), w2, w3, s);
      if parentDone {
        ExecNav(env, w3, s.at, n);
        NavLeaves(env, w3, p, def, s);
        LeavingSession(env, w, w3, p, s, ids[i], vars, FlowsFrom(def.flows, s.at.elem), n);
      } else {
        ExecNone(env, w3, n);
      }
    }
  }

  lemma SameChildren(w: World, w1: World, s: Session, ids: seq<nat>, done: set<nat>, parentDone: bool)
    requires Bounded(w) && Children(w, s, ids, done) && ParentIs(w, s, parentDone) && w1.acts == w.acts
        && w1.next == w.next
    ensures Bounded(w1) && Children(w1, s, ids, done) && ParentIs(w1, s, parentDone)
  {
  }

  // The session is closed and the task still to be completed.
  ghost predicate Waits(w: World, s: Session) {
    Closed(w, s) && ParentIs(w, s, false)
  }

  lemma SomeActive(w: World, s: Session, ids: seq<nat>, done: set<nat>)
    requires Children(w, s, ids, done) && |done| < |ids|
    ensures ActiveSigns(w, s.at.inst, s.parent) != {}
  {
    assert exists i :: 0 <= i < |ids| && i !in done by {
      if forall i :: 0 <= i < |ids| ==> i in done { AllIn(|ids|, done); }
    }
    var i :| 0 <= i < |ids| && i !in done;
    assert ChildOk(w.acts[ids[i]], s, false);
    assert ids[i] in ActiveSigns(w, s.at.inst, s.parent);
  }

  lemma {:induction false} AllIn(n: nat, s: set<nat>)
    requires forall i :: 0 <= i < n ==> i in s
    ensures |s| >= n
  {
    if n > 0 {
      AllIn(n - 1, s - {n - 1});
    }
  }

  // The task is completed while a child is active: it waits for the children.
  lemma ParentAnswersEarly(env: Env, w: World, p: nat, def: Definition, s: Session, ids: seq<nat>, done: set<nat>,
      y: nat, vars: Vars, n: nat)
    requires SignPlace(env, w, p, def, s) && InSession(w, s, ids, done, y, false) && CallerVars(vars)
    requires |done| < s.total
    ensures var o := Apply(env, w, Complete(s.parent, vars), n);
            o.Ended? && InSession(o.w, s, ids, done, y, true) && o.w.log == w.log && SignPlace(env, o.w, p, def, s)
  {
    hide FinishOne, Submit, Children, Tally, Exec, ActiveSigns;
    SubmittedParts(w, p, s.parent, vars);
    FinishBounded(w, s.parent);
    FinishKeys(w, s.parent);
    var w1 := Submit(FinishOne(w, s.parent), p, vars);
    ParentFinished(w, w1, s, ids, done);
    MergeTally(w, w1, s, vars, |done|, y);
    SomeActive(w1, s, ids, done);
    ExecNone(env, w1, n);
  }

  // The task is completed after the session has closed: its flows are followed.
  lemma ParentAnswersLast(env: Env, w: World, p: nat, def: Definition, s: Session, vars: Vars, n: nat)
    requires SignPlace(env, w, p, def, s) && Waits(w, s) && !Delegated(env, w, s.parent)
    requires CallerVars(vars) && Apply(env, w, Complete(s.parent, vars), n) != More
    ensures SessionDeparts(env, w, p, s, s.parent, vars, FlowsFrom(def.flows, s.at.elem),
                    Apply(env, w, Complete(s.parent, vars), n), n)
  {
    hide FlowsFrom, Exec, Closed, PrepComplete, FinishOne, Submit, NavStep, SessionDeparts, Leave, Delegated,
        OutsideSession;
    var a := s.parent;
    ClosedFree(env, w, p, s);
    FreePrep(env, w, p, a, vars);
    SubmittedParts(w, p, a, vars);
    var w0 := DropOne(Submit(FinishOne(w, a), p, vars), s.at);
    TokensOutsideSession(Submit(FinishOne(w, a), p, vars), w0, s);
    ExecNav(env, w0, s.at, n);
    NavLeaves(env, w0, p, def, s);
    ClosedLater(w, w0, s, vars);
    LeavingSession(env, w, w0, p, s, a, vars, FlowsFrom(def.flows, s.at.elem), n);
  }

  lemma ClosedFree(env: Env, w: World, p: nat, s: Session)
    requires s.at.inst == p && Waits(w, s) && !Delegated(env, w, s.parent)
    ensures FreeTask(env, w, p, s.parent)
  {
  }

  lemma ClosedLater(w: World, w1: World, s: Session, vars: Vars)
    requires Closed(w, s) && ParentIs(w, s, false) && CallerVars(vars)
    requires w1.acts == FinishOne(w, s.parent).acts && w1.vars == MergeVars(w, s.at.inst, vars).vars
    ensures Closed(w1, s)
  {
    var before, after := VarsOf(w, s.at.inst), VarsOf(w1, s.at.inst);
    assert forall k :: k in after && k.SignVar? ==> k in before && after[k] == before[k];
    assert ActiveSigns(w1, s.at.inst, s.parent) == ActiveSigns(w, s.at.inst, s.parent);
    forall x ensures x !in Sessions(after, s.parent) {
      assert x in Sessions(after, s.parent) ==> x in Sessions(before, s.parent);
    }
  }

  // ---- Every order of answers: all must answer ----

  // The session as a whole: open, or closed with the task still to be completed.
  ghost predicate Pending(w: World, s: Session, ids: seq<nat>, done: set<nat>, y: nat, parentDone: bool) {
    if |done| < s.total then InSession(w, s, ids, done, y, parentDone)
    else Waits(w, s) && !parentDone && |done| == s.total
  }

  // An answer: a child that has not answered completes, or the task itself does.
  ghost predicate Answers(env: Env, w: World, s: Session, op: Op, o: Outcome, n: nat) {
    && op.Complete? && CallerVars(op.vars) && IsActiveTask(w, op.act) && s.parent in w.acts && s.at.inst in w.insts
    && (op.act == s.parent || (w.acts[op.act].adhoc == Some(s.parent) && w.acts[op.act].at.inst == s.at.inst))
    && !Delegated(env, w, s.parent)
    && o == Apply(env, w, op, n) && o != More
  }

  // How many answers there have been.
  function Given(done: set<nat>, parentDone: bool): nat {
    |done| + (if parentDone then 1 else 0)
  }

  lemma OneAnswer(env: Env, w: World, p: nat, def: Definition, s: Session, ids: seq<nat>, done: set<nat>, y: nat,
      parentDone: bool, op: Op, o: Outcome, n: nat)
    returns (done1: set<nat>, y1: nat, parentDone1: bool)
    requires s.strategy == "and" && SignPlace(env, w, p, def, s) && Pending(w, s, ids, done, y, parentDone)
    requires Answers(env, w, s, op, o, n)
    ensures Given(done1, parentDone1) == Given(done, parentDone) + 1
    ensures if Given(done1, parentDone1) == s.total + 1 then
              SessionDeparts(env, w, p, s, op.act, op.vars, FlowsFrom(def.flows, s.at.elem), o, n)
            else
              && o.Ended? && Pending(o.w, s, ids, done1, y1, parentDone1) && o.w.log == w.log
              && SignPlace(env, o.w, p, def, s)
  {
    hide SignPlace, FlowsFrom, Apply, SessionDeparts, Delegated, Tally, Children, Closed, OutsideSession, Submit,
        FinishOne;
    PlaceInst(env, w, p, def, s);
    NotOr();
    y1 := y;
    if op.act == s.parent {
      done1, parentDone1 := done, true;
      if |done| < s.total {
        ParentAnswersEarly(env, w, p, def, s, ids, done, y, op.vars, n);
      } else {
        ParentAnswersLast(env, w, p, def, s, op.vars, n);
      }
    } else {
      PendingOpen(w, s, ids, done, y, parentDone, op.act);
      var i := WhichChild(w, s, ids, done, y, parentDone, op.act);
      done1, parentDone1, y1 := done + {i}, parentDone, y + Vote(Approving(op.vars));
      ChildAnswers(env, w, p, def, s, ids, done, y, parentDone, i, op.vars, n);
    }
  }

  lemma PlaceInst(env: Env, w: World, p: nat, def: Definition, s: Session)
    requires SignPlace(env, w, p, def, s)
    ensures s.at.inst == p && p in w.insts
  {
  }

  lemma NotOr()
    ensures "and" != "or"
  {
    assert "and"[0] != "or"[0];
  }

  // As long as a sign is active, the session is open.
  lemma PendingOpen(w: World, s: Session, ids: seq<nat>, done: set<nat>, y: nat, parentDone: bool, a: nat)
    requires Pending(w, s, ids, done, y, parentDone) && IsActiveTask(w, a) && w.acts[a].adhoc == Some(s.parent)
    requires w.acts[a].at.inst == s.at.inst
    ensures |done| < s.total && InSession(w, s, ids, done, y, parentDone)
  {
    hide Tally, Sessions, VarsOf;
    assert a in ActiveSigns(w, s.at.inst, s.parent);
  }

  lemma WhichChild(w: World, s: Session, ids: seq<nat>, done: set<nat>, y: nat, parentDone: bool, a: nat)
      returns (i: nat)
    requires InSession(w, s, ids, done, y, parentDone) && IsActiveTask(w, a) && w.acts[a].adhoc == Some(s.parent)
    ensures i < |ids| && ids[i] == a && i !in done
  {
    hide Tally, Sessions, VarsOf;
    i :| 0 <= i < |ids| && ids[i] == a;
    assert ChildOk(w.acts[ids[i]], s, i in done);
  }

  // Operations on other instances leave a session alone.
  lemma SessionMeanwhile(env: Env, w: World, w1: World, p: nat, def: Definition, s: Session, ids: seq<nat>,
      done: set<nat>, y: nat, parentDone: bool)
    requires SignPlace(env, w, p, def, s) && Meanwhile(env, w, w1, p)
    ensures SignPlace(env, w1, p, def, s) && Count(w1.log, Follow(s.at)) == Count(w.log, Follow(s.at))
    ensures InSession(w, s, ids, done, y, parentDone) ==> InSession(w1, s, ids, done, y, parentDone)
    ensures Waits(w, s) ==> Waits(w1, s)
  {
    hide Untouched, InSession, Waits, Meanwhile, Count, Known, Wf;
    MeanwhileUntouched(env, w, w1, p);
    UntouchedPlace(env, w, w1, p, def, s);
    if w1 != w {
      if InSession(w, s, ids, done, y, parentDone) { UntouchedSession(w, w1, s, ids, done, y, parentDone); }
      if Waits(w, s) { UntouchedWaits(w, w1, s); }
    }
  }

  lemma UntouchedPlace(env: Env, w: World, w1: World, p: nat, def: Definition, s: Session)
    requires SignPlace(env, w, p, def, s) && Untouched(w, w1, p)
    ensures SignPlace(env, w1, p, def, s) && Count(w1.log, Follow(s.at)) == Count(w.log, Follow(s.at))
  {
    hide Count, SameActsOf;
    assert Follow(s.at).at.inst == p;
  }

  lemma UntouchedSession(w: World, w1: World, s: Session, ids: seq<nat>, done: set<nat>, y: nat, parentDone: bool)
    requires InSession(w, s, ids, done, y, parentDone) && Untouched(w, w1, s.at.inst) && Known(w1)
    ensures InSession(w1, s, ids, done, y, parentDone)
  {
    hide Tally, SameLogOf, TokensKnown, VarsKnown, LogKnown, VarsOf;
    forall i | 0 <= i < |ids| ensures ids[i] in w1.acts && ChildOk(w1.acts[ids[i]], s, i in done) {
      assert ids[i] in w.acts && ChildOk(w.acts[ids[i]], s, i in done);
    }
  }

  lemma UntouchedWaits(w: World, w1: World, s: Session)
    requires Waits(w, s) && Untouched(w, w1, s.at.inst) && Known(w1)
    ensures Waits(w1, s)
  {
    hide SameLogOf, TokensKnown, VarsKnown, LogKnown, VarsOf, Sessions;
    forall a ensures a !in ActiveSigns(w1, s.at.inst, s.parent) {
      assert a in ActiveSigns(w1, s.at.inst, s.parent) ==> a in ActiveSigns(w, s.at.inst, s.parent);
    }
  }

  // The children's answers and the task's own may come in any order, with any operations on other instances in
  // between: from ws[i] an answer leads to mids[i], and those to ws[i + 1]. With T children there are T + 1 answers
  // (T when the task was complete from the start): until the last, no flow of the task is followed and the
  // session is open as long as a child is missing; with the last, the flows are followed, once.
  lemma {:induction false} AnswersRun(env: Env, ws: seq<World>, mids: seq<World>, ops: seq<Op>, ns: seq<nat>, p: nat,
      def: Definition, s: Session, ids: seq<nat>, backward: bool, j: nat)
      returns (done: set<nat>, y: nat, parentDone: bool)
    requires |ws| == |ops| + 1 == |ns| + 1 == |mids| + 1 && j <= |ops| && s.strategy == "and"
    requires SignPlace(env, ws[0], p, def, s) && InSession(ws[0], s, ids, {}, 0, backward)
    requires j + Given({}, backward) <= s.total
    requires forall i :: 0 <= i < j ==>
               Answers(env, ws[i], s, ops[i], Ended(mids[i]), ns[i]) && Meanwhile(env, mids[i], ws[i + 1], p)
    ensures Given(done, parentDone) == j + Given({}, backward)
    ensures Pending(ws[j], s, ids, done, y, parentDone) && SignPlace(env, ws[j], p, def, s)
    ensures Count(ws[j].log, Follow(s.at)) == Count(ws[0].log, Follow(s.at))
  {
    hide Apply, SignPlace, SessionDeparts, Answers, Given, InSession, Waits, Meanwhile, Count;
    done, y, parentDone := {}, 0, backward;
    NotOr();
    if j == 0 {
      FirstPending(ws[0], s, ids, backward);
    } else {
      var done0, y0, parent0 := AnswersRun(env, ws, mids, ops, ns, p, def, s, ids, backward, j - 1);
      assert Answers(env, ws[j - 1], s, ops[j - 1], Ended(mids[j - 1]), ns[j - 1])
          && Meanwhile(env, mids[j - 1], ws[j - 1 + 1], p);
      done, y, parentDone := OneAnswer(env, ws[j - 1], p, def, s, ids, done0, y0, parent0, ops[j - 1],
          Ended(mids[j - 1]), ns[j - 1]);
      SessionMeanwhile(env, mids[j - 1], ws[j], p, def, s, ids, done, y, parentDone);
    }
  }

  lemma FirstPending(w: World, s: Session, ids: seq<nat>, backward: bool)
    requires InSession(w, s, ids, {}, 0, backward) && s.strategy == "and"
    ensures Pending(w, s, ids, {}, 0, backward)
  {
    hide Tally, Children, ParentIs;
  }

  // Every session of a task in which all must answer: the first one, or one opened after others have closed.
  lemma SignLaw(env: Env, ws: seq<World>, mids: seq<World>, ops: seq<Op>, ns: seq<nat>, p: nat, def: Definition,
      s: Session, ids: seq<nat>, backward: bool, last: Outcome)
    requires |ws| == |ops| == |ns| == |mids| + 1 == s.total + 1 - Given({}, backward)
    requires s.total >= 1 && s.strategy == "and"
    requires SignPlace(env, ws[0], p, def, s) && InSession(ws[0], s, ids, {}, 0, backward)
    requires forall i :: 0 <= i < |mids| ==>
               Answers(env, ws[i], s, ops[i], Ended(mids[i]), ns[i]) && Meanwhile(env, mids[i], ws[i + 1], p)
    requires Answers(env, ws[|mids|], s, ops[|mids|], last, ns[|mids|])
    ensures forall j :: 0 <= j < |ws| ==> Count(ws[j].log, Follow(s.at)) == Count(ws[0].log, Follow(s.at))
    ensures var m := |mids|;
            && ops[m].Complete? && ops[m].act in ws[m].acts && p in ws[m].insts
            && SessionDeparts(env, ws[m], p, s, ops[m].act, ops[m].vars, FlowsFrom(def.flows, s.at.elem), last, ns[m])
  {
    hide Apply, SignPlace, SessionDeparts, InSession, FlowsFrom, Waits, Delegated, Meanwhile, Count;
    var m := |mids|;
    forall j | 0 <= j <= m ensures Count(ws[j].log, Follow(s.at)) == Count(ws[0].log, Follow(s.at)) {
      var done, y, parentDone := AnswersRun(env, ws, mids, ops[..m], ns[..m], p, def, s, ids, backward, j);
    }
    var done, y, parentDone := AnswersRun(env, ws, mids, ops[..m], ns[..m], p, def, s, ids, backward, m);
    PlaceInst(env, ws[m], p, def, s);
    var done1, y1, parentDone1 := OneAnswer(env, ws[m], p, def, s, ids, done, y, parentDone, ops[m], last, ns[m]);
  }

  // ---- Every order of answers: one must approve ----

  // A child declines, or the task itself is completed while a sign is active.
  ghost predicate Declines(env: Env, w: World, s: Session, op: Op, o: Outcome, n: nat) {
    && Answers(env, w, s, op, o, n)
    && if op.act == s.parent then ActiveSigns(w, s.at.inst, s.parent) != {} else !Approving(op.vars)
  }

  // However many decline, and whenever the task itself is completed, the session stays open and no flow is
  // followed.
  lemma {:induction false} DeclinesRun(env: Env, ws: seq<World>, mids: seq<World>, ops: seq<Op>, ns: seq<nat>, p: nat,
      def: Definition, s: Session, ids: seq<nat>, backward: bool, j: nat) returns (done: set<nat>, parentDone: bool)
    requires |ws| == |ops| + 1 == |ns| + 1 == |mids| + 1 && j <= |ops| && s.strategy == "or"
    requires SignPlace(env, ws[0], p, def, s) && InSession(ws[0], s, ids, {}, 0, backward)
    requires forall i :: 0 <= i < j ==>
               Declines(env, ws[i], s, ops[i], Ended(mids[i]), ns[i]) && Meanwhile(env, mids[i], ws[i + 1], p)
    ensures Given(done, parentDone) == j + Given({}, backward)
    ensures InSession(ws[j], s, ids, done, 0, parentDone) && SignPlace(env, ws[j], p, def, s)
    ensures Count(ws[j].log, Follow(s.at)) == Count(ws[0].log, Follow(s.at))
  {
    hide Apply, SignPlace, SessionDeparts, InSession, Waits, Delegated, Meanwhile, Count, Declines;
    NotOr();
    done, parentDone := {}, backward;
    if j > 0 {
      var done0, parent0 := DeclinesRun(env, ws, mids, ops, ns, p, def, s, ids, backward, j - 1);
      assert Declines(env, ws[j - 1], s, ops[j - 1], Ended(mids[j - 1]), ns[j - 1])
          && Meanwhile(env, mids[j - 1], ws[j - 1 + 1], p);
      done, parentDone := OneDecline(env, ws[j - 1], mids[j - 1], p, def, s, ids, done0, parent0, ops[j - 1],
          ns[j - 1]);
      SessionMeanwhile(env, mids[j - 1], ws[j], p, def, s, ids, done, 0, parentDone);
    }
  }

  lemma OneDecline(env: Env, w: World, w1: World, p: nat, def: Definition, s: Session, ids: seq<nat>, done: set<nat>,
      parentDone: bool, op: Op, n: nat) returns (done1: set<nat>, parentDone1: bool)
    requires SignPlace(env, w, p, def, s) && InSession(w, s, ids, done, 0, parentDone) && s.strategy == "or"
    requires Declines(env, w, s, op, Ended(w1), n)
    ensures Given(done1, parentDone1) == Given(done, parentDone) + 1
    ensures InSession(w1, s, ids, done1, 0, parentDone1) && w1.log == w.log && SignPlace(env, w1, p, def, s)
  {
    hide Apply, SignPlace, SessionDeparts, Tally, Children, Delegated;
    NotOr();
    PlaceInst(env, w, p, def, s);
    if op.act == s.parent {
      done1, parentDone1 := done, true;
      NotAllDone(w, s, ids, done, 0, parentDone);
      ParentAnswersEarly(env, w, p, def, s, ids, done, 0, op.vars, n);
    } else {
      var i := WhichChild(w, s, ids, done, 0, parentDone, op.act);
      done1, parentDone1 := done + {i}, parentDone;
      ChildAnswers(env, w, p, def, s, ids, done, 0, parentDone, i, op.vars, n);
    }
  }

  lemma NotAllDone(w: World, s: Session, ids: seq<nat>, done: set<nat>, y: nat, parentDone: bool)
    requires InSession(w, s, ids, done, y, parentDone) && ActiveSigns(w, s.at.inst, s.parent) != {}
    ensures |done| < s.total
  {
    hide Tally, Sessions, VarsOf;
    var a :| a in ActiveSigns(w, s.at.inst, s.parent);
    var i :| 0 <= i < |ids| && ids[i] == a;
    assert ChildOk(w.acts[ids[i]], s, i in done);
    Below(|ids|, done, i);
  }

  // A set of numbers below n that misses one has fewer than n.
  lemma {:induction false} Below(n: nat, s: set<nat>, i: nat)
    requires i < n && i !in s && forall k :: k in s ==> k < n
    ensures |s| < n
  {
    if n - 1 in s {
      Below(n - 1, s - {n - 1}, i);
    } else {
      AtMost(n - 1, s);
    }
  }

  lemma {:induction false} AtMost(n: nat, s: set<nat>)
    requires forall k :: k in s ==> k < n
    ensures |s| <= n
  {
    if n == 0 {
      assert s == {};
    } else {
      AtMost(n - 1, s - {n - 1});
    }
  }

  // The session closes exactly with the first approval: the other signs are finished and its variables gone. A
  // task that is complete by then moves on; any other waits to be completed.
  lemma OrLaw(env: Env, ws: seq<World>, mids: seq<World>, ops: seq<Op>, ns: seq<nat>, p: nat, def: Definition,
      s: Session, ids: seq<nat>, backward: bool, op: Op, last: Outcome, n: nat) returns (parentDone: bool)
    requires |ws| == |ops| + 1 == |ns| + 1 == |mids| + 1 && s.strategy == "or"
    requires SignPlace(env, ws[0], p, def, s) && InSession(ws[0], s, ids, {}, 0, backward)
    requires forall i :: 0 <= i < |ops| ==>
               Declines(env, ws[i], s, ops[i], Ended(mids[i]), ns[i]) && Meanwhile(env, mids[i], ws[i + 1], p)
    requires Answers(env, ws[|ops|], s, op, last, n) && op.act != s.parent && Approving(op.vars)
    ensures forall j :: 0 <= j < |ws| ==>
              && Count(ws[j].log, Follow(s.at)) == Count(ws[0].log, Follow(s.at))
              && Sessions(VarsOf(ws[j], p), s.parent) == {s.id}
    ensures op.act in ws[|ops|].acts && p in ws[|ops|].insts && ParentIs(ws[|ops|], s, parentDone)
    ensures if parentDone then
              SessionDeparts(env, ws[|ops|], p, s, op.act, op.vars, FlowsFrom(def.flows, s.at.elem), last, n)
            else last.Ended? && Waits(last.w, s) && last.w.log == ws[|ops|].log
  {
    hide Apply, SignPlace, SessionDeparts, FlowsFrom, Waits, Delegated, Children, OutsideSession, Submit, FinishOne,
        Declines, Meanwhile, Count;
    var m := |ops|;
    PlaceInst(env, ws[0], p, def, s);
    forall j | 0 <= j <= m ensures Count(ws[j].log, Follow(s.at)) == Count(ws[0].log, Follow(s.at))
        && Sessions(VarsOf(ws[j], p), s.parent) == {s.id} {
      var done, pd := DeclinesRun(env, ws, mids, ops, ns, p, def, s, ids, backward, j);
    }
    var done;
    done, parentDone := DeclinesRun(env, ws, mids, ops, ns, p, def, s, ids, backward, m);
    var i := WhichChild(ws[m], s, ids, done, 0, parentDone, op.act);
    ChildAnswers(env, ws[m], p, def, s, ids, done, 0, parentDone, i, op.vars, n);
    PlaceInst(env, ws[m], p, def, s);
  }
}
