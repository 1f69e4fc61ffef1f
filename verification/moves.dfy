// Operations that move a task elsewhere: jump, rejection, reclaim, and the return of a delegated task.
// One token and one open activity go from the task to the target, and nothing else moves.

module Moves {
  import opened Spec
  import opened Model
  import opened Bags
  import opened Machine
  import opened Operations
  import opened Lifecycle
  import opened TokenGame
  import opened TokenRuns

  // One occurrence of `from` has become one of `to`, both among the tokens and among the open activities.
  ghost predicate Moved(w: World, w1: World, from: Place, to: Place) {
    && w1.toks == w.toks - multiset{from} + multiset{to}
    && from in Opens(w) && Opens(w1) == Opens(w) - multiset{from} + multiset{to}
  }

  lemma OpensAfter(w: World, a: nat, b: Act)
    requires a in w.acts && w.acts[a].state == Active && Bounded(w) && b.state != Done
    ensures w.acts[a].at in Opens(w)
    ensures Opens(AddAct(FinishOne(w, a), b)) == Opens(w) - multiset{w.acts[a].at} + multiset{b.at}
  {
    hide Opens, FinishOne, AddAct;
    OpensFinish(w, a);
    OpensHere(w, a);
    assert Bounded(FinishOne(w, a)) by { FinishBounded(w, a); }
    OpensAdd(FinishOne(w, a), b);
  }

  lemma FinishBounded(w: World, a: nat)
    requires Bounded(w) && a in w.acts
    ensures Bounded(FinishOne(w, a))
  {
  }

  // ---- Rejection ----

  // Conservation: the number of open activities stays the same, and the number of tokens exactly when the task
  // had one.
  lemma RejectMoves(env: Env, w: World, a: nat, mode: RejectMode, target: string, reason: string, n: nat)
    requires mode != ToEnd && Bounded(w) && Apply(env, w, Reject(a, mode, target, reason), n).Ended?
    ensures a in w.acts && Moved(w, Apply(env, w, Reject(a, mode, target, reason), n).w, w.acts[a].at,
        Place(w.acts[a].at.inst, target))
    ensures var w1 := Apply(env, w, Reject(a, mode, target, reason), n).w;
            |Opens(w1)| == |Opens(w)| && (|w1.toks| == |w.toks| <==> w.acts[a].at in w.toks)
  {
    hide Opens, RejectTo;
    var at := w.acts[a].at;
    var to := Place(at.inst, target);
    var w1 := RejectTo(env, w, a, mode, target, reason, DefOf(env, w, a));
    assert Apply(env, w, Reject(a, mode, target, reason), n) == Ended(w1);
    RejectToParts(env, w, a, mode, target, reason, DefOf(env, w, a));
    var b: Act :| b.at == to && b.state == Active && w1.acts == AddAct(FinishOne(w, a), b).acts;
    OpensAfter(w, a, b);
    SameActs(AddAct(FinishOne(w, a), b), w1);
    assert Opens(w) == (Opens(w) - multiset{at}) + multiset{at};
    assert w.toks == (w.toks - multiset{at}) + if at in w.toks then multiset{at} else multiset{};
  }

  lemma RejectToParts(env: Env, w: World, a: nat, mode: RejectMode, target: string, reason: string, def: Definition)
    requires a in w.acts
    ensures var w1 := RejectTo(env, w, a, mode, target, reason, def);
            var to := Place(w.acts[a].at.inst, target);
            && w1.toks == w.toks - multiset{w.acts[a].at} + multiset{to}
            && exists b: Act :: b.at == to && b.state == Active && w1.acts == AddAct(FinishOne(w, a), b).acts
  {
    hide Rendered, DelegateVars;
    var w1 := RejectTo(env, w, a, mode, target, reason, def);
    var b := w1.acts[w.next];
    assert w1.acts == AddAct(FinishOne(w, a), b).acts;
  }

  // ---- Reclaim ----

  // The open signs of a task that stand at x.
  ghost function SignsAt(w: World, a: nat, x: Place): set<nat>
    requires a in w.acts
  {
    set c | c in ActiveSigns(w, w.acts[a].at.inst, a) && w.acts[c].at == x
  }

  // The task and its open signs are done, and nothing else has changed among the activities.
  ghost predicate Closes(w: World, acts: map<nat, Act>, a: nat)
    requires a in w.acts
  {
    && acts.Keys == w.acts.Keys && acts[a].state == Done
    && (forall c :: c in ActiveSigns(w, w.acts[a].at.inst, a) ==> acts[c].state == Done)
    && (forall c :: c in w.acts && c != a && c !in ActiveSigns(w, w.acts[a].at.inst, a) ==> acts[c] == w.acts[c])
  }

  lemma ClosesOpens(w: World, acts: map<nat, Act>, a: nat, x: Place)
    requires a in w.acts && w.acts[a].state == Active && w.acts[a].adhoc.None? && Closes(w, acts, a)
    ensures Bag(acts, Open)[x] == Opens(w)[x] - Hit(Some(w.acts[a].at), x) - |SignsAt(w, a, x)|
  {
    hide Bag;
    var gone := ActiveSigns(w, w.acts[a].at.inst, a) + {a};
    BagLoses(w.acts, acts, Open, gone, x);
    var here := Holders(w.acts, Open, gone, x);
    assert here - {a} == SignsAt(w, a, x);
    assert a in here <==> w.acts[a].at == x;
  }

  // One token has moved; the task has closed with its signs, and an activity opened where the token went.
  ghost predicate Shifted(w: World, w1: World, a: nat, to: Place)
    requires a in w.acts
  {
    && w1.toks == w.toks - multiset{w.acts[a].at} + multiset{to} && w.acts[a].at in Opens(w)
    && forall x :: Opens(w1)[x] ==
        Opens(w)[x] - Hit(Some(w.acts[a].at), x) - |SignsAt(w, a, x)| + Hit(Some(to), x)
  }

  // That is a move of one token and one activity exactly when the task has no open signs: the tokens of the
  // signs stay behind without an activity.
  lemma ShiftedMoves(w: World, w1: World, a: nat, to: Place)
    requires a in w.acts && Shifted(w, w1, a, to)
    ensures Moved(w, w1, w.acts[a].at, to) <==> ActiveSigns(w, w.acts[a].at.inst, a) == {}
  {
    hide Opens;
    var signs := ActiveSigns(w, w.acts[a].at.inst, a);
    if signs == {} {
      forall x ensures SignsAt(w, a, x) == {} {}
      assert Opens(w1) == Opens(w) - multiset{w.acts[a].at} + multiset{to};
    } else {
      var c :| c in signs;
      assert c in SignsAt(w, a, w.acts[c].at);
    }
  }

  lemma FinishThenForget(w: World, w1: World, p: nat, a: nat)
    requires a in w.acts && w.acts[a].at.inst == p && w.acts[a].adhoc.None? && w1.acts == FinishOne(w, a).acts
    ensures Closes(w, ForgetSigns(w1, p, a).acts, a)
  {
    hide Sessions, SessionVars, DelVars;
    assert ActiveSigns(w1, p, a) == ActiveSigns(w, p, a);
    DelVarsKeeps(FinishAll(w1, ActiveSigns(w1, p, a)), p,
        SessionVars(Sessions(VarsOf(FinishAll(w1, ActiveSigns(w1, p, a)), p), a),
            VarsOf(FinishAll(w1, ActiveSigns(w1, p, a)), p)));
  }

  // The same with a new activity b in between.
  lemma AddThenForget(w: World, w1: World, p: nat, a: nat, b: Act)
    requires a in w.acts && w.acts[a].at.inst == p && w.acts[a].adhoc.None? && Bounded(w)
    requires b.adhoc.None? && w1.acts == FinishOne(w, a).acts[w.next := b]
    ensures var acts := ForgetSigns(w1, p, a).acts;
            w.next in acts && acts[w.next] == b && Closes(w, acts - {w.next}, a)
  {
    hide Sessions, SessionVars, DelVars;
    assert ActiveSigns(w1, p, a) == ActiveSigns(w, p, a);
    var w2 := FinishAll(w1, ActiveSigns(w1, p, a));
    DelVarsKeeps(w2, p, SessionVars(Sessions(VarsOf(w2, p), a), VarsOf(w2, p)));
  }

  lemma DelVarsKeeps(w: World, p: nat, ks: set<VarName>)
    ensures DelVars(w, p, ks).acts == w.acts && DelVars(w, p, ks).toks == w.toks
  {
  }

  lemma RevisitParts(env: Env, w: World, at: Place, kind: Kind, def: Definition)
    ensures exists b: Act ::
          b.at == at && b.kind == kind && b.state == Active && b.adhoc.None?
          && Revisit(env, w, at, kind, def) == AddAct(AddTok(w, at), b)
  {
    hide Rendered;
    var b := Revisit(env, w, at, kind, def).acts[w.next];
    assert Revisit(env, w, at, kind, def) == AddAct(AddTok(w, at), b);
  }

  lemma ReclaimToParts(env: Env, w: World, a: nat, target: string, def: Definition)
    requires a in w.acts && w.acts[a].adhoc.None? && Bounded(w)
    ensures var w1 := ReclaimTo(env, w, a, target, def);
            var to := Place(w.acts[a].at.inst, target);
            && w1.toks == w.toks - multiset{w.acts[a].at} + multiset{to}
            && w.next in w1.acts && Open(w1.acts[w.next]) == Some(to) && Closes(w, w1.acts - {w.next}, a)
  {
    hide FinishOne, Revisit, ForgetSigns, DelVars, DelegateVars, ActiveSigns;
    var p := w.acts[a].at.inst;
    var to := Place(p, target);
    FinishOneKeeps(w, a);
    var w0 := DropOne(FinishOne(w, a), w.acts[a].at);
    RevisitParts(env, w0, to, w.acts[a].kind, def);
    var b: Act :| b.at == to && b.kind == w.acts[a].kind && b.state == Active && b.adhoc.None?
                  && Revisit(env, w0, to, w.acts[a].kind, def) == AddAct(AddTok(w0, to), b);
    var w1 := AddAct(AddTok(w0, to), b);
    AddThenForget(w, w1, p, a, b);
    ForgetNext(w1, p, a);
    DelVarsKeeps(ForgetSigns(w1, p, a), p, DelegateVars(a));
  }

  // The task goes to the most recently completed user task elsewhere in the instance, without its signs.
  lemma ReclaimMoves(env: Env, w: World, a: nat, target: string, n: nat)
    requires Bounded(w) && a in w.acts && Apply(env, w, Op.Reclaim(a, target), n).Ended?
    ensures var w1 := Apply(env, w, Op.Reclaim(a, target), n).w;
            var to := Place(w.acts[a].at.inst, target);
            && Shifted(w, w1, a, to)
            && (Moved(w, w1, w.acts[a].at, to) <==> ActiveSigns(w, w.acts[a].at.inst, a) == {})
    ensures exists b :: IsLatest(w, a, b) && w.acts[b].at.elem == target
  {
    hide Bag, ReclaimTo, ActiveSigns, IsLatest, Closes, Moved, SignsAt;
    var to := Place(w.acts[a].at.inst, target);
    var w1 := ReclaimTo(env, w, a, target, DefOf(env, w, a));
    assert Apply(env, w, Op.Reclaim(a, target), n) == Ended(w1);
    ReclaimToParts(env, w, a, target, DefOf(env, w, a));
    OpensHere(w, a);
    forall x ensures Opens(w1)[x] ==
        Opens(w)[x] - Hit(Some(w.acts[a].at), x) - |SignsAt(w, a, x)| + Hit(Some(to), x) {
      ClosesOpens(w, w1.acts - {w.next}, a, x);
      BagPut(w1.acts - {w.next}, Open, w.next, w1.acts[w.next]);
      assert (w1.acts - {w.next})[w.next := w1.acts[w.next]] == w1.acts;
    }
    ShiftedMoves(w, w1, a, to);
  }

  // ---- Delegation ----

  // A delegated task without signs.
  ghost predicate DelegatedTask(env: Env, w: World, a: nat) {
    && IsActiveTask(w, a) && w.acts[a].adhoc.None? && Delegated(env, w, a)
    && ActiveSigns(w, w.acts[a].at.inst, a) == {}
  }

  lemma ReturnPrep(env: Env, w: World, a: nat, vars: Vars)
    requires DelegatedTask(env, w, a) && CallerVars(vars) && Bounded(w)
    ensures var at := w.acts[a].at;
            var w2 := DropOne(Submit(FinishOne(w, a), at.inst, vars), at);
            Delegated(env, w2, a) && PrepComplete(env, w, a, vars) == Go(ReturnToOwner(env, w2, a), [])
  {
    hide ReturnToOwner;
    var p := w.acts[a].at.inst;
    var w2 := Submit(FinishOne(w, a), p, vars);
    assert ActiveSigns(w2, p, a) == ActiveSigns(w, p, a);
    assert Delegated(env, DropOne(w2, w.acts[a].at), a);
  }

  // Whom the returned task goes to.
  function OwnerOf(env: Env, a: nat, e: string, def: Definition, vars: Vars): string
    requires DelegateOrig(a) in vars
  {
    if TaskAt(def, e) then Rendered(env, def.elements[e].assignee, vars)
    else if vars[DelegateOrig(a)].Text? then vars[DelegateOrig(a)].s else ""
  }

  ghost function Owner(env: Env, w: World, a: nat, vars: Vars): string
    requires Located(env, w, a) && DelegateOrig(a) in VarsOf(w, w.acts[a].at.inst)
  {
    OwnerOf(env, a, w.acts[a].at.elem, DefOf(env, w, a), VarsOf(w, w.acts[a].at.inst) + vars)
  }

  lemma OwnerParts(env: Env, w: World, a: nat)
    requires a in w.acts && Delegated(env, w, a)
    ensures var at := w.acts[a].at;
            var w1 := ReturnToOwner(env, w, a);
            var b := NewAct(at, UserKind, OwnerOf(env, a, at.elem, DefOf(env, w, a), VarsOf(w, at.inst)));
            w1.toks == w.toks + multiset{at} && w1.acts == AddAct(w, b).acts
  {
    hide Rendered;
  }

  lemma ReturnVars(env: Env, w: World, a: nat)
    requires a in w.acts && Delegated(env, w, a)
    ensures w.acts[a].at.inst in w.insts
    ensures ReturnToOwner(env, w, a).vars == SetVar(w, w.acts[a].at.inst, DelegateReturn(a), Flag(true)).vars
    ensures ReturnToOwner(env, w, a).log == w.log && ReturnToOwner(env, w, a).insts == w.insts
  {
    hide Rendered;
  }

  lemma SubmitParts(w: World, p: nat, a: nat, vars: Vars)
    requires a in w.acts && w.acts[a].at.inst == p && p in w.insts
    ensures var w1 := DropOne(Submit(FinishOne(w, a), p, vars), w.acts[a].at);
            && w1.acts == FinishOne(w, a).acts && a in w1.acts && w1.acts[a].at == w.acts[a].at && w1.next == w.next
            && w1.toks == w.toks - multiset{w.acts[a].at}
            && VarsOf(w1, p) == VarsOf(w, p) + vars
            && w1.insts == w.insts[p := w.insts[p].(snapshot := w.insts[p].snapshot + vars)]
  {
    FinishOneKeeps(w, a);
  }

  lemma ReturnParts(env: Env, w: World, a: nat, vars: Vars)
    requires DelegatedTask(env, w, a) && CallerVars(vars) && Bounded(w)
    ensures var at := w.acts[a].at;
            var w2 := DropOne(Submit(FinishOne(w, a), at.inst, vars), at);
            && Delegated(env, w2, a)
            && ReturnToOwner(env, w2, a).toks == w.toks - multiset{at} + multiset{at}
            && ReturnToOwner(env, w2, a).acts ==
                AddAct(FinishOne(w, a), NewAct(at, UserKind, Owner(env, w, a, vars))).acts
  {
    hide FinishOne, ActiveSigns, ReturnToOwner, Submit, VarsOf, OwnerOf, Delegated, PrepComplete;
    FinishOneKeeps(w, a);
    ReturnTaskActive(env, w, a);
    ReturnPrep(env, w, a, vars);
    var at := w.acts[a].at;
    SubmitParts(w, at.inst, a, vars);
    OwnerParts(env, DropOne(Submit(FinishOne(w, a), at.inst, vars), at), a);
  }

  // When the delegate completes the task, it comes back at the same place, with nothing else moved. It comes
  // back to its original assignee exactly when that is who the task's own assignee expression names now.
  lemma DelegationReturns(env: Env, w: World, a: nat, vars: Vars, n: nat)
    requires DelegatedTask(env, w, a) && CallerVars(vars) && Bounded(w)
    ensures Apply(env, w, Complete(a, vars), n).Ended?
    ensures var w1 := Apply(env, w, Complete(a, vars), n).w;
            var at := w.acts[a].at;
            && Moved(w, w1, at, at)
            && w1.acts.Keys == w.acts.Keys + {w.next} && w.next !in w.acts
            && w1.acts[w.next] == NewAct(at, UserKind, Owner(env, w, a, vars))
  {
    hide Opens, ReturnToOwner, PrepComplete, Owner, FinishOne, Submit, DelegatedTask;
    ReturnTaskActive(env, w, a);
    ReturnPrep(env, w, a, vars);
    ReturnParts(env, w, a, vars);
    var at := w.acts[a].at;
    var w2 := DropOne(Submit(FinishOne(w, a), at.inst, vars), at);
    var w1 := ReturnToOwner(env, w2, a);
    var b := NewAct(at, UserKind, Owner(env, w, a, vars));
    ExecNone(env, w1, n);
    OpensAfter(w, a, b);
    SameActs(AddAct(FinishOne(w, a), b), w1);
    FinishOneKeeps(w, a);
    FinishKeys(w, a);
  }

  lemma ReturnTaskActive(env: Env, w: World, a: nat)
    requires DelegatedTask(env, w, a)
    ensures a in w.acts && w.acts[a].state == Active && Located(env, w, a)
        && DelegateOrig(a) in VarsOf(w, w.acts[a].at.inst)
  {
    hide ActiveSigns;
  }

  // Delegating and completing again: the owner gets the task back if and only if the assignee expression
  // still names them.
  lemma DelegationRoundTrip(env: Env, w: World, a: nat, to: string, vars: Vars, n: nat)
    requires IsActiveTask(w, a) && w.acts[a].adhoc.None? && ActiveSigns(w, w.acts[a].at.inst, a) == {}
    requires Bounded(w) && Located(env, w, a) && TaskAt(DefOf(env, w, a), w.acts[a].at.elem) && CallerVars(vars)
    ensures var w1 := PrepDelegate(w, a, to).w;
            var el := DefOf(env, w, a).elements[w.acts[a].at.elem];
            && Apply(env, w1, Complete(a, vars), n).Ended?
            && var w2 := Apply(env, w1, Complete(a, vars), n).w;
               w1.acts[a].assignee == to && w.next in w2.acts && Opens(w2) == Opens(w)
                   && w2.acts[w.next].at == w.acts[a].at
               && (w2.acts[w.next].assignee == w.acts[a].assignee <==>
                   Rendered(env, el.assignee, VarsOf(w1, w.acts[a].at.inst) + vars) == w.acts[a].assignee)
  {
    hide Opens, Rendered, PrepComplete;
    var w1 := PrepDelegate(w, a, to).w;
    assert ActiveSigns(w1, w.acts[a].at.inst, a) == ActiveSigns(w, w.acts[a].at.inst, a);
    assert DelegatedTask(env, w1, a);
    DelegationReturns(env, w1, a, vars, n);
    assert Opens(w1) == Opens(w) by { SameOpens(w, w1, a); }
  }

  lemma SameOpens(w: World, w1: World, a: nat)
    requires a in w.acts && w.acts[a].state == Active && exists s :: w1.acts == w.acts[a := w.acts[a].(assignee := s)]
    ensures Opens(w1) == Opens(w)
  {
    hide Bag;
    BagPut(w.acts, Open, a, w1.acts[a]);
  }

  // ---- Jump ----

  // The world a jump leaves before it arrives anywhere.
  ghost function Uprooted(w: World, a: nat): World
    requires a in w.acts
  {
    var p := w.acts[a].at.inst;
    DelVars(ForgetSigns(DropOne(FinishOne(w, a), w.acts[a].at), p, a), p, DelegateVars(a))
  }

  lemma UprootedParts(w: World, a: nat)
    requires a in w.acts && w.acts[a].adhoc.None? && Bounded(w)
    ensures var w1 := Uprooted(w, a);
            Closes(w, w1.acts, a) && w1.next == w.next && w1.toks == w.toks - multiset{w.acts[a].at} && Bounded(w1)
  {
    hide FinishOne, ForgetSigns, DelVars, DelegateVars, ActiveSigns;
    var p := w.acts[a].at.inst;
    FinishOneKeeps(w, a);
    var w0 := DropOne(FinishOne(w, a), w.acts[a].at);
    FinishThenForget(w, w0, p, a);
    ForgetNext(w0, p, a);
    DelVarsKeeps(ForgetSigns(w0, p, a), p, DelegateVars(a));
    DelVarsNext(ForgetSigns(w0, p, a), p, DelegateVars(a));
  }

  lemma ForgetNext(w: World, p: nat, a: nat)
    ensures ForgetSigns(w, p, a).next == w.next && ForgetSigns(w, p, a).toks == w.toks
        && ForgetSigns(w, p, a).insts == w.insts
  {
    hide ActiveSigns, SessionVars, Sessions;
  }

  lemma DelVarsNext(w: World, p: nat, ks: set<VarName>)
    ensures DelVars(w, p, ks).next == w.next && DelVars(w, p, ks).insts == w.insts
  {
  }

  // A jump to anything but an end event moves the token; the activity moves along to a user task, and is
  // gone otherwise. The signs of the task close and their tokens stay.
  lemma JumpMoves(env: Env, w: World, a: nat, target: string, n: nat)
    requires Bounded(w) && a in w.acts && Located(env, w, a)
    requires target in DefOf(env, w, a).elements && !DefOf(env, w, a).elements[target].EndEvent?
    requires Apply(env, w, Op.Jump(a, target), n).Ended?
    ensures var w1 := Apply(env, w, Op.Jump(a, target), n).w;
            var from := w.acts[a].at;
            var to := Place(from.inst, target);
            if TaskAt(DefOf(env, w, a), target) then
              Shifted(w, w1, a, to) && (Moved(w, w1, from, to) <==> ActiveSigns(w, from.inst, a) == {})
            else
              && w1.toks == w.toks - multiset{from} + multiset{to} && from in Opens(w)
              && forall x :: Opens(w1)[x] == Opens(w)[x] - Hit(Some(from), x) - |SignsAt(w, a, x)|
  {
    hide Opens, ActiveSigns, Uprooted, FinishOne, Revisit, PrepJump, SetVar, Moved, Shifted;
    JumpPrep(env, w, a, target);
    var p := w.acts[a].at.inst;
    ExecNone(env, PrepJump(env, w, a, target).w, n);
    if TaskAt(DefOf(env, w, a), target) {
      JumpToTask(env, w, a, target, DefOf(env, w, a));
    } else {
      JumpElsewhere(w, a, target);
    }
  }

  lemma JumpToTask(env: Env, w: World, a: nat, target: string, def: Definition)
    requires Bounded(w) && a in w.acts && w.acts[a].state == Active && w.acts[a].adhoc.None?
    ensures var to := Place(w.acts[a].at.inst, target);
            var w1 := SetVar(Revisit(env, Uprooted(w, a), to, UserKind, def), to.inst, JumpFrom(a), Text(target));
            && Shifted(w, w1, a, to)
            && (Moved(w, w1, w.acts[a].at, to) <==> ActiveSigns(w, w.acts[a].at.inst, a) == {})
  {
    hide Bag, ActiveSigns, Uprooted, FinishOne, Revisit, Closes, Moved, SignsAt;
    UprootedParts(w, a);
    var w0 := Uprooted(w, a);
    var to := Place(w.acts[a].at.inst, target);
    RevisitParts(env, w0, to, UserKind, def);
    var b: Act :| b.at == to && b.kind == UserKind && b.state == Active && b.adhoc.None?
                  && Revisit(env, w0, to, UserKind, def) == AddAct(AddTok(w0, to), b);
    OpensHere(w, a);
    var w1 := SetVar(AddAct(AddTok(w0, to), b), to.inst, JumpFrom(a), Text(target));
    assert w1.acts == w0.acts[w.next := b];
    forall x ensures Opens(w1)[x] ==
        Opens(w)[x] - Hit(Some(w.acts[a].at), x) - |SignsAt(w, a, x)| + Hit(Some(to), x) {
      ClosesOpens(w, w0.acts, a, x);
      BagPut(w0.acts, Open, w.next, b);
    }
    ShiftedMoves(w, w1, a, to);
  }

  lemma JumpElsewhere(w: World, a: nat, target: string)
    requires Bounded(w) && a in w.acts && w.acts[a].state == Active && w.acts[a].adhoc.None?
    ensures var from := w.acts[a].at;
            var to := Place(from.inst, target);
            var w1 := SetVar(AddTok(Uprooted(w, a), to), to.inst, JumpFrom(a), Text(target));
            && w1.toks == w.toks - multiset{from} + multiset{to} && from in Opens(w)
            && forall x :: Opens(w1)[x] == Opens(w)[x] - Hit(Some(from), x) - |SignsAt(w, a, x)|
  {
    hide Bag, ActiveSigns, Uprooted, FinishOne, Closes, SignsAt;
    UprootedParts(w, a);
    OpensHere(w, a);
    forall x ensures Bag(Uprooted(w, a).acts, Open)[x] ==
        Opens(w)[x] - Hit(Some(w.acts[a].at), x) - |SignsAt(w, a, x)| {
      ClosesOpens(w, Uprooted(w, a).acts, a, x);
    }
  }

  lemma JumpPrep(env: Env, w: World, a: nat, target: string)
    requires a in w.acts && Located(env, w, a) && target in DefOf(env, w, a).elements && PrepJump(env, w, a, target).Go?
    ensures w.acts[a].state == Active && w.acts[a].adhoc.None?
    ensures var def := DefOf(env, w, a);
            var to := Place(w.acts[a].at.inst, target);
            var w0 := Uprooted(w, a);
            PrepJump(env, w, a, target) ==
              if def.elements[target].EndEvent? then Go(AddTok(w0, to), [Nav(to.inst, target)])
              else Go(SetVar(if TaskAt(def, target) then Revisit(env, w0, to, UserKind, def)
                  else AddTok(w0, to), to.inst, JumpFrom(a), Text(target)), [])
  {
    hide FinishOne, ForgetSigns, DelVars, DelegateVars, Revisit;
  }

  // A jump to an end event completes the instance exactly when the task held its last token.
  lemma JumpToEnd(env: Env, w: World, a: nat, target: string, n: nat)
    requires Wf(w) && a in w.acts && Located(env, w, a) && w.insts[w.acts[a].at.inst].state == Running
    requires target in DefOf(env, w, a).elements && DefOf(env, w, a).elements[target].EndEvent?
    requires Apply(env, w, Op.Jump(a, target), n).Ended?
    ensures var w1 := Apply(env, w, Op.Jump(a, target), n).w;
            var p := w.acts[a].at.inst;
            && p in w1.insts && (w1.insts[p].state == Running || w1.insts[p].state == Completed)
            && (w1.insts[p].state == Completed <==>
                forall at :: at in w.toks - multiset{w.acts[a].at} && at.inst == p ==> at.elem == target)
  {
    hide Uprooted, Wf, Exec, PrepJump, CheckStep, FlowsFrom, HasToken, MarkCompleted;
    JumpPrep(env, w, a, target);
    var p := w.acts[a].at.inst;
    var to := Place(p, target);
    UprootedKeeps(w, a);
    var w0 := AddTok(Uprooted(w, a), to);
    ExecNav(env, w0, to, n);
    var w1 := DropAll(w0, to);
    assert NavStep(env, w0, p, target) == Go(w1, [Check(p)]);
    ExecCheck(env, w1, p, n - 1);
    TokensButEnd(w, w.acts[a].at, w1, p, target);
    UprootedWf(w, w1, a);
    CheckEnds(env, w1, p, n - 2);
  }

  lemma UprootedKeeps(w: World, a: nat)
    requires a in w.acts
    ensures var w1 := Uprooted(w, a);
            w1.insts == w.insts && w1.toks == w.toks - multiset{w.acts[a].at}
            && Extends(w, w1)
  {
    hide FinishOne, ForgetSigns, DelVars, DelegateVars;
    var p := w.acts[a].at.inst;
    FinishOneKeeps(w, a);
    var w0 := DropOne(FinishOne(w, a), w.acts[a].at);
    ForgetNext(w0, p, a);
    DelVarsKeeps(ForgetSigns(w0, p, a), p, DelegateVars(a));
  }

  lemma UprootedWf(w: World, w1: World, a: nat)
    requires Wf(w) && a in w.acts && w1.insts == w.insts && w1.acts == Uprooted(w, a).acts
        && w1.next == Uprooted(w, a).next
    ensures Wf(w1)
  {
    hide Uprooted, Wf;
    UprootedKeeps(w, a);
    ExtendsDrifts(w, w1);
  }

  lemma TokensButEnd(w: World, at: Place, w1: World, p: nat, target: string)
    requires w1.toks == (w.toks - multiset{at} + multiset{Place(p, target)})[Place(p, target) := 0]
    ensures !HasToken(w1, p) <==> forall x :: x in w.toks - multiset{at} && x.inst == p ==> x.elem == target
  {
    var m := w.toks - multiset{at};
    if !HasToken(w1, p) {
      forall x | x in m && x.inst == p ensures x.elem == target {
        assert x.elem != target ==> x in w1.toks;
      }
    } else {
      var x :| x in w1.toks && x.inst == p;
      assert x in m && x != Place(p, target);
    }
  }

  // After the check, the instance is complete exactly when no token was left.
  lemma CheckEnds(env: Env, w: World, p: nat, n: nat)
    requires Wf(w) && p in w.insts && w.insts[p].state == Running && Finish(env, CheckStep(w, p), n).Ended?
    ensures var w1 := Finish(env, CheckStep(w, p), n).w;
            p in w1.insts && w1.insts[p].state == if HasToken(w, p) then Running else Completed
  {
    hide Wf, HasToken, ReturnStep, MarkCompleted;
    if HasToken(w, p) {
    } else {
      CheckStepDrifts(w, p);
      var s := CheckStep(w, p);
      ReturnKeeps(w, p);
      ExecDrifts(env, s.w, s.jobs, n);
    }
  }

  lemma ReturnKeeps(w: World, p: nat)
    requires p in w.insts
    ensures var s := ReturnStep(MarkCompleted(w, p), w.insts[p].parent, p);
            p in s.w.insts
            && s.w.insts[p].state == Completed
  {
    hide FinishAll, ActiveAt;
  }
}