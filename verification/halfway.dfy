// The tokens of a multi-instance task. Each completion takes two of them, so that a parallel session has none left
// once half of its instances are complete; a check in the second half takes the process instance for complete.

module Halfway {
  import opened Spec
  import opened Model
  import opened Machine
  import opened Operations
  import opened TokenGame
  import opened TokenRuns
  import opened Frames
  import opened Footprints
  import opened Loops

  lemma UncountedTokens(w: World, a: nat, vars: Vars)
    requires a in w.acts && w.acts[a].at.inst in w.insts
    ensures Uncounted(w, a, vars).toks == w.toks - multiset{w.acts[a].at} - multiset{w.acts[a].at}
  {
  }

  // A completion that is neither the last of its session nor stops it.
  lemma OneTakesTwo(env: Env, w: World, p: nat, def: Definition, s: Session, ids: seq<nat>, done: set<nat>, i: nat,
      vars: Vars, stop: int -> bool, n: nat)
    requires LoopPlace(env, w, p, def, s) && InLoop(w, s, ids, done) && Found(env, w, s)
        && StopsAt(env, def.elements[s.at.elem].loop.value, stop)
    requires i < |ids| && FreeTask(env, w, p, ids[i]) && CallerVars(vars)
        && Apply(env, w, Complete(ids[i], vars), n) != More
    requires |done| + 1 < s.n && !stop(|done| + 1)
    ensures var o := Apply(env, w, Complete(ids[i], vars), n);
            && o.Ended?
            && o.w.toks[s.at] ==
                 (if w.toks[s.at] >= 2 then w.toks[s.at] - 2 else 0) + (if s.sequential then 1 else 0)
  {
    hide FlowsFrom, AdvanceLoop, PrepComplete, NavStep, Exec, FreeTask, Uncounted, Submit, FinishOne, StopsAt,
        Counters, Instances, Leave, LoopPlace, InLoop, LoopsAt, VarsOf;
    var a := ids[i];
    CompleteAdvances(env, w, p, def, s, ids, done, i, vars);
    PlaceIs(env, w, p, def, s);
    var el := def.elements[s.at.elem];
    var out := FlowsFrom(def.flows, s.at.elem);
    ExecNav(env, DropOne(Submit(FinishOne(w, a), p, vars), s.at), s.at, n);
    var w4 := Uncounted(w, a, vars);
    UncountedTokens(w, a, vars);
    CountedUp(w, w4, p, s, ids, done, i, vars);
    var ids1 := AdvanceDecides(env, w4, s, el, out, ids, done + {i}, stop);
    ExecNone(env, AdvanceLoop(env, w4, s.at, el, s.id, out).w, n - 1);
  }

  lemma PlaceIs(env: Env, w: World, p: nat, def: Definition, s: Session)
    requires LoopPlace(env, w, p, def, s)
    ensures s.at.inst == p && p in w.insts && s.at.elem in def.elements && def.elements[s.at.elem].UserTask?
    ensures def.elements[s.at.elem].loop.Some? && def.elements[s.at.elem].loop.value.sequential == s.sequential
  {
  }

  // The tokens of a session that began with one for each of its instances.
  function TokensAfter(s: Session, j: nat): nat {
    if s.sequential then 1 else if 2 * j <= s.n then s.n - 2 * j else 0
  }

  // After j completions, in any order and with any operations on other instances in between.
  lemma {:induction false} TokensRun(env: Env, ws: seq<World>, mids: seq<World>, ops: seq<Op>, ns: seq<nat>, p: nat,
      def: Definition, s: Session, ids: seq<nat>, stop: int -> bool, j: nat) returns (ids1: seq<nat>, done: set<nat>)
    requires |ws| == |ops| + 1 == |ns| + 1 == |mids| + 1 && j <= |ops|
    requires LoopPlace(env, ws[0], p, def, s) && InLoop(ws[0], s, ids, {})
        && StopsAt(env, def.elements[s.at.elem].loop.value, stop)
    requires forall i :: 0 <= i < j ==> Found(env, ws[i], s)
    requires forall i :: 0 <= i < j ==>
               CompletesOne(env, ws[i], p, s, ops[i], Ended(mids[i]), ns[i]) && Meanwhile(env, mids[i], ws[i + 1], p)
    requires j < s.n && forall k :: 1 <= k <= j ==> !stop(k)
    requires ws[0].toks[s.at] == |ids|
    ensures InLoop(ws[j], s, ids1, done) && |done| == j && ws[j].toks[s.at] == TokensAfter(s, j)
    ensures |ActiveAt(ws[j], s.at)| == if s.sequential then 1 else s.n - j
  {
    hide Apply, InLoop, StopsAt, FreeTask, LoopPlace, LoopDeparts, Meanwhile, Count, Untouched, ActiveAt;
    ids1, done := SessionRun(env, ws, mids, ops, ns, p, def, s, ids, stop, j);
    ActiveCount(ws[j], s, ids1, done);
    if j == 0 {
      IdsAtFirst(ws[0], s, ids);
    } else {
      var ids0, done0 := TokensRun(env, ws, mids, ops, ns, p, def, s, ids, stop, j - 1);
      var op := ops[j - 1];
      assert CompletesOne(env, ws[j - 1], p, s, op, Ended(mids[j - 1]), ns[j - 1])
          && Meanwhile(env, mids[j - 1], ws[j - 1 + 1], p);
      var ids2, done2 := SessionRun(env, ws, mids, ops, ns, p, def, s, ids, stop, j - 1);
      var i := WhichInstance(env, ws[j - 1], p, s, ids2, done2, op.act);
      OneTakesTwo(env, ws[j - 1], p, def, s, ids2, done2, i, op.vars, stop, ns[j - 1]);
      var ids3 := LoopCompletes(env, ws[j - 1], p, def, s, ids2, done2, i, op.vars, stop, ns[j - 1]);
      PlaceIs(env, mids[j - 1], p, def, s);
      MeanwhileUntouched(env, mids[j - 1], ws[j], p);
      TokenKept(mids[j - 1], ws[j], s.at);
    }
  }

  lemma IdsAtFirst(w: World, s: Session, ids: seq<nat>)
    requires InLoop(w, s, ids, {})
    ensures |ids| == if s.sequential then 1 else s.n
  {
  }

  lemma TokenKept(w: World, w1: World, at: Place)
    requires Untouched(w, w1, at.inst)
    ensures w1.toks[at] == w.toks[at]
  {
    hide VarsOf;
    assert at == Place(at.inst, at.elem);
  }

  // A parallel session, with no token of the process instance elsewhere but at an end event: when that is reached,
  // the process instance is Completed if and only if half of the session's instances are complete, and those that
  // are left are still active.
  lemma EndComesEarly(env: Env, w: World, p: nat, def: Definition, s: Session, ids: seq<nat>, done: set<nat>,
      e: string, n: nat)
    requires LoopPlace(env, w, p, def, s) && InLoop(w, s, ids, done) && !s.sequential
    requires w.toks[s.at] == TokensAfter(s, |done|) && w.insts[p].parent.None?
    requires e in def.elements && def.elements[e].EndEvent? && n >= 2
    requires forall at :: at in w.toks && at.inst == p && at != s.at ==> at.elem == e
    ensures var o := Exec(env, w, [Nav(p, e)], n);
            && o.Ended? && p in o.w.insts && o.w.log == w.log && o.w.acts == w.acts
            && o.w.insts[p].state == (if 2 * |done| >= s.n then Completed else Running)
            && |ActiveAt(o.w, s.at)| == s.n - |done| > 0
  {
    hide Counters, Instances, Exec, ActiveAt, FlowsFrom;
    ActiveCount(w, s, ids, done);
    var w1 := DropAll(w, Place(p, e));
    assert NavStep(env, w, p, e) == Go(w1, [Check(p)]);
    assert s.at in w1.toks <==> 2 * |done| < s.n;
    assert HasToken(w1, p) <==> s.at in w1.toks;
    ExecsTwo(env, w, p, e, n);
    SameActive(w, CheckStep(w1, p).w, s.at);
  }

  lemma ExecsTwo(env: Env, w: World, p: nat, e: string, n: nat)
    requires n >= 2 && NavStep(env, w, p, e).Go? && NavStep(env, w, p, e).jobs == [Check(p)]
    requires var s := CheckStep(NavStep(env, w, p, e).w, p); s.Go? && s.jobs == []
    ensures Exec(env, w, [Nav(p, e)], n) == Ended(CheckStep(NavStep(env, w, p, e).w, p).w)
  {
    hide NavStep, CheckStep;
    var w1 := NavStep(env, w, p, e).w;
    var jobs := [Check(p)];
    assert jobs[1..] == [] && [Nav(p, e)][1..] == [] && jobs + [] == jobs;
    ExecNone(env, CheckStep(w1, p).w, n - 2);
    assert Exec(env, w1, jobs, n - 1) == Machine.Resume(env, CheckStep(w1, p), jobs[1..], n - 2);
    var none: seq<Job> := [];
    assert none + jobs[1..] == [];
    assert Exec(env, w, [Nav(p, e)], n) == Machine.Resume(env, NavStep(env, w, p, e), [Nav(p, e)][1..], n - 1);
  }

  lemma SameActive(w: World, w1: World, at: Place)
    requires w1.acts == w.acts
    ensures ActiveAt(w1, at) == ActiveAt(w, at)
  {
  }

  // Those that are left can still be completed, and nothing follows.
  lemma TooLate(env: Env, w: World, p: nat, a: nat, vars: Vars, n: nat)
    requires FreeTask(env, w, p, a) && p in w.insts && w.insts[p].state == Completed && CallerVars(vars) && n >= 1
    ensures var o := Apply(env, w, Complete(a, vars), n);
            && o.Ended? && o.w.log == w.log && p in o.w.insts && o.w.insts[p].state == Completed
            && a in o.w.acts && o.w.acts[a].state == Done
  {
    hide PrepComplete, Exec, FreeTask, FinishOne, MergeVars;
    FreePrep(env, w, p, a, vars);
    FreeInst(env, w, p, a);
    var w0 := DropOne(Submit(FinishOne(w, a), p, vars), w.acts[a].at);
    FinishOneKeeps(w, a);
    MergeParts(w, FinishOne(w, a), p, vars);
    assert NavStep(env, w0, p, w.acts[a].at.elem) == Go(w0, []);
    FinishOneDone(w, a);
    ExecsOne(env, w0, p, w.acts[a].at.elem, n);
  }

  lemma FinishOneDone(w: World, a: nat)
    requires a in w.acts
    ensures a in FinishOne(w, a).acts && FinishOne(w, a).acts[a].state == Done && FinishOne(w, a).log == w.log
  {
  }

  lemma ExecsOne(env: Env, w: World, p: nat, e: string, n: nat)
    requires n >= 1 && NavStep(env, w, p, e) == Go(w, [])
    ensures Exec(env, w, [Nav(p, e)], n) == Ended(w)
  {
    hide NavStep;
    ExecNone(env, w, n - 1);
    assert [Nav(p, e)][1..] == [];
    var none: seq<Job> := [];
    assert none + none == none;
  }
}
