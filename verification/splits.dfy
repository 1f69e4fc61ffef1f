// What the conditions on splits are for. When an element sends its token along several flows, the first of them
// is followed to its end before the token of the next one exists. So an instance with no other token completes
// exactly when the first flow leads to an end event, whatever the others go on to open.

module Splits {
  import opened Spec
  import opened Model
  import opened Machine
  import opened Operations
  import opened Lifecycle
  import opened TokenGame
  import opened TokenRuns
  import opened Frames
  import opened Footprints
  import opened Discipline
  import Termination

  // ---- Branches ----

  predicate ToEnd(def: Definition, f: Flow) {
    f.target in def.elements && def.elements[f.target].EndEvent?
  }

  // To a call activity whose definition begins with a user task.
  ghost predicate ToCall(env: Env, def: Definition, f: Flow) {
    && f.target in def.elements && def.elements[f.target].CallActivity?
    && var key := def.elements[f.target].calledElement;
       key in env.latest && env.latest[key] in env.defs && exists g :: ChildDef(env.defs[env.latest[key]], g)
  }

  // A definition that starts with a user task.
  ghost predicate ChildDef(def: Definition, f: Flow) {
    && def.start in def.elements && def.elements[def.start].StartEvent? && FlowsFrom(def.flows, def.start) == [f]
    && PlainUser(def, f.target)
  }

  ghost predicate Branch(env: Env, def: Definition, f: Flow) {
    ToEnd(def, f) || PlainUser(def, f.target) || ToCall(env, def, f)
  }

  ghost predicate Branches(env: Env, def: Definition, flows: seq<Flow>) {
    forall i :: 0 <= i < |flows| ==> Branch(env, def, flows[i])
  }

  // A running or completed root instance, none of whose tokens is at an end event.
  ghost predicate Splitting(env: Env, w: World, p: nat, def: Definition) {
    && Wf(w) && p in w.insts && w.insts[p].parent.None?
    && w.insts[p].def in env.defs && env.defs[w.insts[p].def] == def
    && (w.insts[p].state == Running || w.insts[p].state == Completed)
    && forall at :: at in w.toks && at.inst == p ==> at.elem in def.elements && !def.elements[at.elem].EndEvent?
  }

  // A child that p has called since the identifier `from`, and that is running.
  ghost predicate Called(w: World, p: nat, from: nat) {
    exists c :: RunsFor(w, c, p, from)
  }

  ghost predicate RunsFor(w: World, c: nat, p: nat, from: nat) {
    && from <= c && c in w.insts && w.insts[c].state == Running
    && w.insts[c].parent.Some? && w.insts[c].parent.value.inst == p
  }

  // What following some flows has done: the instance is complete if it was, or if it had no token and the
  // first flow led to an end event; it has a token if it had, or if some flow led elsewhere; and a child of
  // its runs if one did, or if some flow led to a call.
  ghost predicate Decided(env: Env, w: World, w1: World, p: nat, def: Definition, flows: seq<Flow>, from: nat)
    requires p in w.insts
  {
    && Splitting(env, w1, p, def) && w.next <= w1.next
    && (w1.insts[p].state == Completed <==>
          w.insts[p].state == Completed || (!HasToken(w, p) && flows != [] && ToEnd(def, flows[0])))
    && (HasToken(w1, p) <==> HasToken(w, p) || exists i :: 0 <= i < |flows| && !ToEnd(def, flows[i]))
    && (Called(w1, p, from) <==> Called(w, p, from) || exists i :: 0 <= i < |flows| && ToCall(env, def, flows[i]))
  }

  // ---- One flow ----

  ghost predicate DecidedOne(env: Env, w: World, w1: World, p: nat, def: Definition, f: Flow, from: nat)
    requires p in w.insts
  {
    && Splitting(env, w1, p, def) && w.next <= w1.next
    && (w1.insts[p].state == Completed <==>
          w.insts[p].state == Completed || (!HasToken(w, p) && ToEnd(def, f)))
    && (HasToken(w1, p) <==> HasToken(w, p) || !ToEnd(def, f))
    && (Called(w1, p, from) <==> Called(w, p, from) || ToCall(env, def, f))
  }

  lemma OneDecides(env: Env, w: World, w1: World, p: nat, def: Definition, f: Flow, from: nat)
    requires p in w.insts && DecidedOne(env, w, w1, p, def, f, from)
    ensures Decided(env, w, w1, p, def, [f], from)
  {
    hide Splitting, HasToken, Called, ToCall, ToEnd;
    assert [f][0] == f;
  }

  lemma TaskDecides(env: Env, w: World, p: nat, def: Definition, f: Flow, from: nat, n: nat)
    requires Splitting(env, w, p, def) && PlainUser(def, f.target)
    ensures var o := Finish(env, TakeStep(env, w, p, f), n); o.Ended? && Decided(env, w, o.w, p, def, [f], from)
  {
    hide EnterTask, FlowsFrom, Wf, Exec;
    var el := def.elements[f.target];
    var at := Place(p, f.target);
    var w1 := EnterTask(env, w, at, el);
    EnterTaskToks(env, w, at, el);
    ExecNone(env, w1, n);
    ExtendsDrifts(w, w1);
    assert [f][0] == f && at in w1.toks;
    SameCalled(w, w1, p, from);
  }

  lemma SameCalled(w: World, w1: World, p: nat, from: nat)
    requires forall c :: c in w.insts || c in w1.insts ==>
               c in w.insts && c in w1.insts && w1.insts[c].parent == w.insts[c].parent
               && (w1.insts[c].parent.Some? ==> w1.insts[c].state == w.insts[c].state)
    ensures Called(w1, p, from) <==> Called(w, p, from)
  {
    forall c ensures RunsFor(w1, c, p, from) <==> RunsFor(w, c, p, from) {}
  }

  lemma EndDecides(env: Env, w: World, p: nat, def: Definition, f: Flow, from: nat, n: nat)
    requires Splitting(env, w, p, def) && ToEnd(def, f) && Finish(env, TakeStep(env, w, p, f), n) != More
    ensures var o := Finish(env, TakeStep(env, w, p, f), n); o.Ended? && Decided(env, w, o.w, p, def, [f], from)
  {
    hide FlowsFrom, Wf, Exec, HasToken, CheckStep, Decided, NavStep, TakeStep, ToEnd, Splitting;
    EndTaken(env, w, p, def, f);
    var w1 := AddDone(w, Place(p, f.target), EndKind);
    ExecNav(env, w1, Place(p, f.target), n);
    if w.insts[p].state == Running {
      EndChecks(env, w, w1, p, def, f, from, n - 1);
    } else {
      ExecNone(env, w1, n - 1);
      EndParts(env, w, w1, w1, p, def, f, from);
    }
  }

  lemma EndTaken(env: Env, w: World, p: nat, def: Definition, f: Flow)
    requires Splitting(env, w, p, def) && ToEnd(def, f)
    ensures var w1 := AddDone(w, Place(p, f.target), EndKind);
            && TakeStep(env, w, p, f) == Go(w1, [Nav(p, f.target)]) && Wf(w1) && p in w.insts
            && NavStep(env, w1, p, f.target) == Go(w1, if w.insts[p].state == Running then [Check(p)] else [])
  {
    hide FlowsFrom, Wf, HasToken, NavStep;
    var at := Place(p, f.target);
    var w1 := AddDone(w, at, EndKind);
    ExtendsDrifts(w, w1);
    assert at !in w.toks;
    EndNav(env, w1, p, def, f.target);
  }

  lemma EndChecks(env: Env, w: World, w1: World, p: nat, def: Definition, f: Flow, from: nat, n: nat)
    requires Splitting(env, w, p, def) && ToEnd(def, f) && w1.insts == w.insts && w1.toks == w.toks && Wf(w1)
    requires w.next <= w1.next && w.insts[p].state == Running && Exec(env, w1, [Check(p)], n) != More
    ensures var o := Exec(env, w1, [Check(p)], n); o.Ended? && Decided(env, w, o.w, p, def, [f], from)
  {
    hide Exec, HasToken, CheckStep, Decided, ToEnd, Wf;
    ExecCheck(env, w1, p, n);
    SameTokens(w, w1, p);
    RootCheck(w1, p);
    ExecNone(env, CheckStep(w1, p).w, n - 1);
    EndParts(env, w, w1, CheckStep(w1, p).w, p, def, f, from);
  }

  lemma EndNav(env: Env, w: World, p: nat, def: Definition, e: string)
    requires p in w.insts && w.insts[p].def in env.defs && env.defs[w.insts[p].def] == def
    requires e in def.elements && def.elements[e].EndEvent? && Place(p, e) !in w.toks
    ensures NavStep(env, w, p, e) == Go(w, if w.insts[p].state == Running then [Check(p)] else [])
  {
    hide FlowsFrom;
    assert w.toks[Place(p, e) := 0] == w.toks;
  }

  lemma RootCheck(w: World, p: nat)
    requires p in w.insts && w.insts[p].parent.None?
    ensures CheckStep(w, p) == Go(if HasToken(w, p) then w else MarkCompleted(w, p), [])
  {
    hide HasToken;
  }

  lemma EndParts(env: Env, w: World, w1: World, w2: World, p: nat, def: Definition, f: Flow, from: nat)
    requires Splitting(env, w, p, def) && ToEnd(def, f) && w1.insts == w.insts && w1.toks == w.toks && Wf(w1)
    requires w.next <= w1.next
    requires w2 == if w.insts[p].state == Running && !HasToken(w, p) then MarkCompleted(w1, p) else w1
    ensures Decided(env, w, w2, p, def, [f], from)
  {
    hide Wf;
    SameTokens(w, w2, p);
    hide HasToken;
    if w2 != w1 { MarkWf(w1, p); }
    SameCalled(w, w2, p, from);
    hide Called;
    assert !ToCall(env, def, f);
    hide ToCall;
    assert DecidedOne(env, w, w2, p, def, f, from);
    OneDecides(env, w, w2, p, def, f, from);
  }

  lemma MarkWf(w: World, p: nat)
    requires Wf(w) && p in w.insts && w.insts[p].state == Running
    ensures Wf(MarkCompleted(w, p))
  {
  }

  lemma CallDecides(env: Env, w: World, p: nat, def: Definition, f: Flow, from: nat, n: nat)
    requires Splitting(env, w, p, def) && ToCall(env, def, f) && Finish(env, TakeStep(env, w, p, f), n) != More
    requires from <= w.next
    ensures var o := Finish(env, TakeStep(env, w, p, f), n); o.Ended? && Decided(env, w, o.w, p, def, [f], from)
  {
    hide FlowsFrom, Wf, Exec, HasToken, Decided, CallStep, ChildDef, CallsChild;
    var at := Place(p, f.target);
    var el := def.elements[f.target];
    var d := env.latest[el.calledElement];
    var g :| ChildDef(env.defs[d], g);
    var w1 := CallStep(env, w, at, el).w;
    assert TakeStep(env, w, p, f) == CallStep(env, w, at, el);
    CallGoes(env, w, at, el);
    CallCalls(env, w, at, el);
    CalledInst(env, w, w1, at, el);
    ChildWaits(env, w1, w.next, env.defs[d], g, n);
    CallStepDrifts(env, w, at, el);
    var w2 := Exec(env, w1, [Nav(w.next, env.defs[d].start)], n).w;
    CallParts(env, w, w1, w2, p, def, f, el, from);
  }

  lemma CallGoes(env: Env, w: World, at: Place, el: Element)
    requires el.CallActivity? && el.calledElement in env.latest && env.latest[el.calledElement] in env.defs
    ensures CallStep(env, w, at, el).Go?
  {
  }

  lemma CalledInst(env: Env, w: World, w1: World, at: Place, el: Element)
    requires el.CallActivity? && CallsChild(env, w, w1, at, el)
    ensures w.next in w1.insts && w1.insts == w.insts[w.next := w1.insts[w.next]]
    ensures w1.insts[w.next].state == Running && w1.insts[w.next].parent == Some(at)
    ensures w1.insts[w.next].def == env.latest[el.calledElement] && w1.toks == w.toks + multiset{at}
    ensures w.next <= w1.next
  {
  }

  // An instance that starts with a user task goes there and waits.
  lemma ChildWaits(env: Env, w: World, c: nat, def: Definition, g: Flow, n: nat)
    requires c in w.insts && w.insts[c].state == Running && w.insts[c].def in env.defs
    requires env.defs[w.insts[c].def] == def && ChildDef(def, g) && Exec(env, w, [Nav(c, def.start)], n) != More
    ensures var o := Exec(env, w, [Nav(c, def.start)], n);
            && o.Ended? && Extends(w, o.w)
            && forall at: Place :: at.inst != c ==> o.w.toks[at] == w.toks[at]
  {
    hide Exec, FlowsFrom, EnterTask;
    var start := Place(c, def.start);
    var a := Leave(w, start, [g]).w;
    assert NavStep(env, w, c, def.start) == Go(a, [Take(c, g)]) by {
      assert Takes(c, [g]) == [Take(c, g)];
    }
    ExecNav(env, w, start, n);
    ExecTake(env, a, c, g, n - 1);
    var at := Place(c, g.target);
    var w1 := EnterTask(env, a, at, def.elements[g.target]);
    EnterTaskToks(env, a, at, def.elements[g.target]);
    assert TakeStep(env, a, c, g) == Go(w1, []);
    ExecNone(env, w1, n - 2);
  }

  lemma CallParts(env: Env, w: World, w1: World, w2: World, p: nat, def: Definition, f: Flow, el: Element, from: nat)
    requires Splitting(env, w, p, def) && ToCall(env, def, f) && from <= w.next && el == def.elements[f.target]
    requires w.next in w1.insts && w1.insts == w.insts[w.next := w1.insts[w.next]] && w.next <= w1.next
    requires w1.insts[w.next].state == Running && w1.insts[w.next].parent == Some(Place(p, f.target))
    requires w1.toks == w.toks + multiset{Place(p, f.target)} && Wf(w1) && Extends(w1, w2)
    requires forall at: Place :: at.inst != w.next ==> w2.toks[at] == w1.toks[at]
    ensures Decided(env, w, w2, p, def, [f], from)
  {
    ExtendsDrifts(w1, w2);
    WfIds(w, p);
    hide Wf, ChildDef;
    assert Place(p, f.target) in w2.toks;
    assert RunsFor(w2, w.next, p, from);
    OneDecides(env, w, w2, p, def, f, from) by {
      CallSplitting(env, w, w1, w2, p, def, f);
    }
  }

  lemma CallSplitting(env: Env, w: World, w1: World, w2: World, p: nat, def: Definition, f: Flow)
    requires Splitting(env, w, p, def) && f.target in def.elements && def.elements[f.target].CallActivity? && p < w.next
    requires w.next in w1.insts && w1.insts == w.insts[w.next := w1.insts[w.next]] && w2.insts == w1.insts && Wf(w2)
    requires w1.toks == w.toks + multiset{Place(p, f.target)}
    requires forall at: Place :: at.inst != w.next ==> w2.toks[at] == w1.toks[at]
    ensures Splitting(env, w2, p, def)
  {
    hide Wf;
    forall at | at in w2.toks && at.inst == p ensures at.elem in def.elements && !def.elements[at.elem].EndEvent? {
      assert at in w1.toks;
    }
  }

  lemma FlowDecides(env: Env, w: World, p: nat, def: Definition, f: Flow, from: nat, n: nat)
    requires Splitting(env, w, p, def) && Branch(env, def, f) && from <= w.next
    requires Finish(env, TakeStep(env, w, p, f), n) != More
    ensures var o := Finish(env, TakeStep(env, w, p, f), n); o.Ended? && Decided(env, w, o.w, p, def, [f], from)
  {
    hide Splitting, Decided, TakeStep, Exec, PlainUser, ToEnd, ToCall;
    if ToEnd(def, f) {
      EndDecides(env, w, p, def, f, from, n);
    } else if PlainUser(def, f.target) {
      TaskDecides(env, w, p, def, f, from, n);
    } else {
      CallDecides(env, w, p, def, f, from, n);
    }
  }

  // ---- Several flows ----

  lemma DecidedNone(env: Env, w: World, p: nat, def: Definition, from: nat)
    requires Splitting(env, w, p, def)
    ensures Decided(env, w, w, p, def, [], from)
  {
    hide Splitting, HasToken, Called;
  }

  lemma DecidedOn(env: Env, w: World, w1: World, w2: World, p: nat, def: Definition, flows: seq<Flow>, from: nat)
    requires flows != [] && p in w.insts && p in w1.insts
    requires Decided(env, w, w1, p, def, [flows[0]], from) && Decided(env, w1, w2, p, def, flows[1..], from)
    ensures Decided(env, w, w2, p, def, flows, from)
  {
    hide Splitting, HasToken, Called, ToCall, ToEnd;
    assert [flows[0]][0] == flows[0];
    assert forall i :: 1 <= i < |flows| ==> flows[i] == flows[1..][i - 1];
    assert forall i :: 0 <= i < |flows[1..]| ==> flows[1..][i] == flows[i + 1];
  }

  lemma SplittingInst(env: Env, w: World, p: nat, def: Definition)
    requires Splitting(env, w, p, def)
    ensures p in w.insts
  {
  }

  lemma {:induction false} FlowsDecide(env: Env, w: World, p: nat, def: Definition, flows: seq<Flow>, from: nat, n: nat)
    requires Splitting(env, w, p, def) && Branches(env, def, flows) && from <= w.next
    requires Exec(env, w, Takes(p, flows), n) != More
    ensures p in w.insts
    ensures var o := Exec(env, w, Takes(p, flows), n); o.Ended? && Decided(env, w, o.w, p, def, flows, from)
    decreases |flows|
  {
    hide Splitting, TakeStep, Exec, Branch, ToCall, ToEnd, HasToken, Called;
    SplittingInst(env, w, p, def);
    if flows == [] {
      ExecNone(env, w, n);
      DecidedNone(env, w, p, def, from);
    } else {
      ExecTakes(env, w, p, flows, n);
      FlowDecides(env, w, p, def, flows[0], from, n - 1);
      var w1 := Finish(env, TakeStep(env, w, p, flows[0]), n - 1).w;
      SplittingInst(env, w1, p, def);
      FlowsDecide(env, w1, p, def, flows[1..], from, n);
      DecidedOn(env, w, w1, Exec(env, w, Takes(p, flows), n).w, p, def, flows, from);
    }
  }

  // ---- Starting an instance, and completing its task ----

  // An element sends its token along these flows, directly or by way of a parallel gateway that only splits.
  ghost predicate Leads(def: Definition, e: string, out: seq<Flow>) {
    FlowsFrom(def.flows, e) == out || exists g :: SplitsAt(def, e, g, out)
  }

  ghost predicate SplitsAt(def: Definition, e: string, g: Flow, out: seq<Flow>) {
    && FlowsFrom(def.flows, e) == [g] && g.target in def.elements && def.elements[g.target].ParallelGateway?
    && FanIn(def, g.target) == 1 && FlowsFrom(def.flows, g.target) == out
  }

  // A running root instance without tokens, and without children younger than `from`.
  ghost predicate Bare(env: Env, w: World, p: nat, def: Definition, from: nat) {
    && Splitting(env, w, p, def) && w.insts[p].state == Running && !HasToken(w, p)
    && from <= w.next && !Called(w, p, from)
  }

  lemma ThroughGateway(env: Env, w: World, p: nat, def: Definition, e: string, g: Flow, out: seq<Flow>,
      from: nat, n: nat) returns (w1: World)
    requires Bare(env, w, p, def, from) && SplitsAt(def, e, g, out) && out != []
    requires Exec(env, w, [Take(p, g)], n) != More
    ensures n >= 2 && Exec(env, w, [Take(p, g)], n) == Exec(env, w1, Takes(p, out), n - 2)
    ensures Bare(env, w1, p, def, from)
  {
    hide FlowsFrom, Exec, Takes, FanIn, Wf, HasToken, Called;
    var at := Place(p, g.target);
    ExecTake(env, w, p, g, n);
    assert TakeStep(env, w, p, g) == Go(AddTok(w, at), [Nav(p, g.target)]);
    ExecNav(env, AddTok(w, at), at, n - 1);
    w1 := Logged(DropAll(AddTok(w, at), at), Follow(at));
    assert NavStep(env, AddTok(w, at), p, g.target) == Go(w1, Takes(p, out));
    GatewayBare(env, w, w1, p, def, at, from);
  }

  lemma GatewayBare(env: Env, w: World, w1: World, p: nat, def: Definition, at: Place, from: nat)
    requires Bare(env, w, p, def, from) && at.inst == p && w1.insts == w.insts && w1.acts == w.acts && w1.next == w.next
    requires w1.toks == (w.toks + multiset{at})[at := 0]
    ensures Bare(env, w1, p, def, from)
  {
    assert forall x :: x in w1.toks ==> x in w.toks;
    SameCalled(w, w1, p, from);
  }

  // How the flows decide: the instance is complete exactly when the first one leads to an end event; it has a
  // token exactly when some flow leads elsewhere, and a running child exactly when some flow leads to a call.
  // So it is Completed with a token, or before its child, exactly when the first flow leads to an end event
  // and a later one to a task or call, or to a call.
  ghost predicate FirstDecides(env: Env, w1: World, p: nat, def: Definition, out: seq<Flow>, from: nat)
    requires out != []
  {
    && p in w1.insts
    && (w1.insts[p].state == Completed <==> ToEnd(def, out[0]))
    && (HasToken(w1, p) <==> exists i :: 0 <= i < |out| && !ToEnd(def, out[i]))
    && (Called(w1, p, from) <==> exists i :: 0 <= i < |out| && ToCall(env, def, out[i]))
  }

  lemma BareDecides(env: Env, w: World, p: nat, def: Definition, out: seq<Flow>, from: nat, n: nat)
    requires Bare(env, w, p, def, from) && out != [] && Branches(env, def, out)
    requires Exec(env, w, Takes(p, out), n) != More
    ensures var o := Exec(env, w, Takes(p, out), n); o.Ended? && FirstDecides(env, o.w, p, def, out, from)
  {
    hide Exec, ToEnd, ToCall, HasToken, Branch, Wf, Called;
    FlowsDecide(env, w, p, def, out, from, n);
  }

  // The element's flows are taken from a world in which p has no token.
  lemma LeadsDecide(env: Env, w: World, p: nat, def: Definition, e: string, out: seq<Flow>, from: nat, n: nat)
    requires Bare(env, w, p, def, from) && Leads(def, e, out) && out != [] && Branches(env, def, out)
    requires Exec(env, w, Takes(p, FlowsFrom(def.flows, e)), n) != More
    ensures var o := Exec(env, w, Takes(p, FlowsFrom(def.flows, e)), n);
            o.Ended? && FirstDecides(env, o.w, p, def, out, from)
  {
    hide Bare, Exec, Branches, FirstDecides, FlowsFrom, SplitsAt, Takes;
    if FlowsFrom(def.flows, e) == out {
      BareDecides(env, w, p, def, out, from, n);
    } else {
      var g :| SplitsAt(def, e, g, out);
      assert FlowsFrom(def.flows, e) == [g] by { SplitFlow(def, e, g, out); }
      OneTake(p, g);
      var w1 := ThroughGateway(env, w, p, def, e, g, out, from, n);
      BareDecides(env, w1, p, def, out, from, n - 2);
    }
  }

  lemma SplitFlow(def: Definition, e: string, g: Flow, out: seq<Flow>)
    requires SplitsAt(def, e, g, out)
    ensures FlowsFrom(def.flows, e) == [g]
  {
  }

  lemma OneTake(p: nat, g: Flow)
    ensures Takes(p, [g]) == [Take(p, g)]
  {
  }

  lemma LeadsSomewhere(def: Definition, e: string, out: seq<Flow>)
    requires Leads(def, e, out) && out != []
    ensures FlowsFrom(def.flows, e) != []
  {
    hide FlowsFrom;
  }

  // Starting an instance whose start event leads to such flows.
  lemma StartDecides(env: Env, w: World, defId: string, vars: Vars, out: seq<Flow>, n: nat)
    requires Wf(w) && Known(w) && defId in env.defs && WellFormed(env.defs[defId])
    requires Leads(env.defs[defId], env.defs[defId].start, out) && out != [] && Branches(env, env.defs[defId], out)
    requires !Apply(env, w, Start(defId, vars), n).More?
    ensures var o := Apply(env, w, Start(defId, vars), n);
            o.Ended? && FirstDecides(env, o.w, w.next, env.defs[defId], out, 0)
  {
    hide Exec, FlowsFrom, Takes, Bare, FirstDecides, Branches, Wf, Known, Begun, Leads, StartFrom;
    var def := env.defs[defId];
    var p := w.next;
    var flows := FlowsFrom(def.flows, def.start);
    StartGoes(env, w, defId, vars);
    StartPrep(env, w, defId, vars);
    var w0 := Begun(w, defId, vars, def.start);
    var start := Place(p, def.start);
    ExecNav(env, w0, start, n);
    LeadsSomewhere(def, def.start, out);
    BegunInst(w, defId, vars, def.start);
    var w1 := DropOne(Logged(w0, Follow(start)), start);
    assert NavStep(env, w0, p, def.start) == Go(w1, Takes(p, flows));
    BegunBare(env, w, w1, defId, vars, def);
    LeadsDecide(env, w1, p, def, def.start, out, 0, n - 1);
  }

  lemma StartGoes(env: Env, w: World, defId: string, vars: Vars)
    requires defId in env.defs && WellFormed(env.defs[defId])
    ensures PrepStart(env, w, defId, vars).Go?
  {
    hide WellFormed;
  }

  lemma BegunInst(w: World, defId: string, vars: Vars, start: string)
    ensures var w1 := Begun(w, defId, vars, start);
            w.next in w1.insts && w1.insts[w.next] == Inst(defId, Running, false, None, vars) && w1.toks == w.toks
  {
  }

  lemma BegunBare(env: Env, w: World, w1: World, defId: string, vars: Vars, def: Definition)
    requires Wf(w) && Known(w) && defId in env.defs && env.defs[defId] == def
    requires w1 == DropOne(Logged(Begun(w, defId, vars, def.start), Follow(Place(w.next, def.start))),
                           Place(w.next, def.start))
    ensures Bare(env, w1, w.next, def, 0)
  {
    hide Begun, Known;
    var w0 := Begun(w, defId, vars, def.start);
    BegunInst(w, defId, vars, def.start);
    BegunWf(w, defId, vars, def.start);
    BegunAlone(env, w, defId, vars, def.start);
    NextUnused(w);
    assert Wf(w1);
    hide Wf;
    assert forall x :: x in w1.toks ==> x in w.toks;
  }

  // Completing a task that leads to such flows, when the instance has no token but the task's (one, or the two
  // that a completion takes).
  lemma CompleteDecides(env: Env, w: World, p: nat, def: Definition, a: nat, vars: Vars, out: seq<Flow>, n: nat)
    requires Wf(w) && Root(env, w, p, def) && w.insts[p].state == Running && PlainTask(env, w, p, def, a)
    requires CallerVars(vars) && !Apply(env, w, Complete(a, vars), n).More?
    requires forall x :: x in w.toks - multiset{w.acts[a].at} - multiset{w.acts[a].at} ==> x.inst != p
    requires Leads(def, w.acts[a].at.elem, out) && out != [] && Branches(env, def, out)
    ensures var o := Apply(env, w, Complete(a, vars), n); o.Ended? && FirstDecides(env, o.w, p, def, out, w.next)
  {
    hide Exec, FlowsFrom, Takes, Bare, FirstDecides, Branches, Wf, Left, Leads, PlainTask, Apply;
    TaskInst(env, w, p, def, a);
    var e := w.acts[a].at.elem;
    var flows := FlowsFrom(def.flows, e);
    CompleteRuns(env, w, p, def, a, vars, n);
    LeadsSomewhere(def, e, out);
    var w1 := Left(w, a, vars, flows);
    LeftWf(env, w, p, def, a, vars, flows);
    LeftParts(w, p, a, vars, flows);
    LeftBare(env, w, w1, p, def, a, vars);
    LeadsDecide(env, w1, p, def, e, out, w.next, n - 1);
  }

  lemma LeftBare(env: Env, w: World, w1: World, p: nat, def: Definition, a: nat, vars: Vars)
    requires Wf(w) && Wf(w1) && Root(env, w, p, def) && w.insts[p].state == Running && a in w.acts
    requires w1.insts == w.insts[p := w.insts[p].(snapshot := w.insts[p].snapshot + vars)] && w1.next == w.next
    requires w1.toks == w.toks - multiset{w.acts[a].at} - multiset{w.acts[a].at}
    requires forall x :: x in w1.toks ==> x.inst != p
    ensures Bare(env, w1, p, def, w.next)
  {
    NoneCalled(w1, p);
    hide Wf;
  }

  lemma NoneCalled(w: World, p: nat)
    requires Wf(w)
    ensures !Called(w, p, w.next)
  {
  }

  // ---- Several tokens at one task ----

  lemma {:induction false} TasksOpen(env: Env, w: World, p: nat, def: Definition, flows: seq<Flow>, n: nat)
    requires p in w.insts && w.insts[p].def in env.defs && env.defs[w.insts[p].def] == def
    requires forall i :: 0 <= i < |flows| ==> PlainUser(def, flows[i].target)
    requires Exec(env, w, Takes(p, flows), n) != More
    ensures var o := Exec(env, w, Takes(p, flows), n);
            o.Ended? && forall at :: o.w.toks[at] == w.toks[at] + Targets(p, flows)[at]
    decreases |flows|
  {
    hide Exec, EnterTask, FlowsFrom, Targets;
    if flows == [] {
      ExecNone(env, w, n);
      NoTargets(p);
    } else {
      ExecTakes(env, w, p, flows, n);
      var at := Place(p, flows[0].target);
      var w1 := EnterTask(env, w, at, def.elements[flows[0].target]);
      EnterTaskToks(env, w, at, def.elements[flows[0].target]);
      assert TakeStep(env, w, p, flows[0]) == Go(w1, []);
      ExecNone(env, w1, n - 1);
      TasksOpen(env, w1, p, def, flows[1..], n);
      TargetsFirst(p, flows);
    }
  }

  lemma NoTargets(p: nat)
    ensures Targets(p, []) == multiset{}
  {
  }

  lemma {:induction false} TargetsFirst(p: nat, flows: seq<Flow>)
    requires flows != []
    ensures Targets(p, flows) == multiset{Place(p, flows[0].target)} + Targets(p, flows[1..])
  {
    if |flows| > 1 {
      var last := |flows| - 1;
      assert flows[..last][1..] == flows[1..][..last - 1];
      TargetsFirst(p, flows[..last]);
    }
  }

  // A start event with two flows to one task puts two tokens there. If flows follow, completing the task once
  // will take both.
  lemma TwoTokens(env: Env, w: World, defId: string, vars: Vars, f: Flow, g: Flow, n: nat)
    requires Wf(w) && Known(w) && defId in env.defs && WellFormed(env.defs[defId])
    requires FlowsFrom(env.defs[defId].flows, env.defs[defId].start) == [f, g] && f.target == g.target
    requires PlainUser(env.defs[defId], f.target) && FlowsFrom(env.defs[defId].flows, f.target) != []
    requires !Apply(env, w, Start(defId, vars), n).More?
    ensures var o := Apply(env, w, Start(defId, vars), n);
            var at := Place(w.next, f.target);
            o.Ended? && o.w.toks[at] == 2 && Shortfall(o.w, at, FlowsFrom(env.defs[defId].flows, f.target)) == 1
  {
    hide Exec, FlowsFrom, Takes, Wf, Known, Begun, StartFrom, Targets;
    var def := env.defs[defId];
    var p := w.next;
    StartGoes(env, w, defId, vars);
    StartPrep(env, w, defId, vars);
    var w0 := Begun(w, defId, vars, def.start);
    var start := Place(p, def.start);
    ExecNav(env, w0, start, n);
    BegunInst(w, defId, vars, def.start);
    var w1 := DropOne(Logged(w0, Follow(start)), start);
    assert NavStep(env, w0, p, def.start) == Go(w1, Takes(p, [f, g]));
    TasksOpen(env, w1, p, def, [f, g], n - 1);
    NextUnused(w);
    TwoTargets(p, f, g);
    assert Place(p, f.target) !in w.toks;
  }

  lemma TwoTargets(p: nat, f: Flow, g: Flow)
    ensures Targets(p, [f, g]) == multiset{Place(p, f.target), Place(p, g.target)}
  {
    TargetsFirst(p, [f, g]);
    TargetsFirst(p, [g]);
    assert [f, g][1..] == [g] && [g][1..] == [];
  }

  // ---- Such definitions exist ----

  const CHILD := Definition("child", "k", 1,
    map["s" := StartEvent("s", ""), "t" := UserTask("t", "", "", [], "", "", None)],
    [Flow("f", "s", "t", None)], "s")

  // A start event that leads to an end event, to a user task, and to a call activity, in this order.
  const PARENT := Definition("parent", "p", 1,
    map["s" := StartEvent("s", ""), "e" := EndEvent("e", ""), "t" := UserTask("t", "", "", [], "", "", None),
        "c" := CallActivity("c", "", "k", false)],
    [Flow("f", "s", "e", None), Flow("g", "s", "t", None), Flow("h", "s", "c", None)], "s")

  lemma FlowsSnoc(flows: seq<Flow>, f: Flow, e: string)
    ensures FlowsFrom(flows + [f], e) == FlowsFrom(flows, e) + if f.source == e then [f] else []
  {
    assert (flows + [f])[..|flows + [f]| - 1] == flows;
  }

  lemma ParentFlows()
    ensures FlowsFrom(PARENT.flows, "s") == PARENT.flows && FlowsFrom(PARENT.flows, "c") == []
    ensures FlowsFrom(CHILD.flows, "s") == CHILD.flows
  {
    hide FlowsFrom;
    var f, g, h := Flow("f", "s", "e", None), Flow("g", "s", "t", None), Flow("h", "s", "c", None);
    assert PARENT.flows == [] + [f] + [g] + [h] && CHILD.flows == [] + CHILD.flows;
    FlowsNone();
    FlowsSnoc([], CHILD.flows[0], "s");
    FlowsSnoc([], f, "s");
    FlowsSnoc([] + [f], g, "s");
    FlowsSnoc([] + [f] + [g], h, "s");
    FlowsSnoc([], f, "c");
    FlowsSnoc([] + [f], g, "c");
    FlowsSnoc([] + [f] + [g], h, "c");
  }

  lemma FlowsNone()
    ensures forall e :: FlowsFrom([], e) == []
  {
  }

  lemma ParentValid()
    ensures WellFormed(PARENT)
  {
    assert PARENT.flows[0] in PARENT.flows && PARENT.elements["e"].EndEvent?;
  }

  // In the empty store, starting the first one leaves an instance that is Completed, with tokens, while a child
  // of it is running.
  lemma SplitsHappen(env: Env) returns (w1: World)
    requires env.defs == map["parent" := PARENT, "child" := CHILD] && env.latest == map["k" := "child"]
    ensures Performs(env, World(map[], multiset{}, map[], map[], 0, 0, []), Start("parent", map[]), w1)
    ensures 0 in w1.insts && w1.insts[0].state == Completed && HasToken(w1, 0) && Called(w1, 0, 0)
  {
    hide Apply, HasToken, Wf, Known, FlowsFrom;
    var w := World(map[], multiset{}, map[], map[], 0, 0, []);
    NothingKnown(0);
    ParentFlows();
    ParentValid();
    var r: Termination.Rank := (d, e) => if d == "child" then 0 else if e == "s" then 2 else 1;
    assert Termination.Ranked(env, r) by { ParentRanked(env, r); }
    var n := Termination.OperationEnds(env, r, w, Start("parent", map[]));
    var out := PARENT.flows;
    assert Branches(env, PARENT, out) && ToCall(env, PARENT, out[2]) by { ParentBranches(env); }
    StartDecides(env, w, "parent", map[], out, n);
    w1 := Apply(env, w, Start("parent", map[]), n).w;
    assert !ToEnd(PARENT, out[1]);
  }

  lemma ParentBranches(env: Env)
    requires env.defs == map["parent" := PARENT, "child" := CHILD] && env.latest == map["k" := "child"]
    ensures Branches(env, PARENT, PARENT.flows) && ToCall(env, PARENT, PARENT.flows[2])
  {
    hide FlowsFrom;
    ParentFlows();
    var fs := PARENT.flows;
    assert ChildDef(CHILD, CHILD.flows[0]);
    assert ToEnd(PARENT, fs[0]) && PlainUser(PARENT, fs[1].target);
    assert ToCall(env, PARENT, fs[2]) by {
      assert PARENT.elements["c"].calledElement == "k" && env.defs[env.latest["k"]] == CHILD;
    }
    hide ToEnd, PlainUser, ToCall;
    forall i | 0 <= i < |fs| ensures Branch(env, PARENT, fs[i]) { assert i == 0 || i == 1 || i == 2; }
  }

  lemma ParentRanked(env: Env, r: Termination.Rank)
    requires env.defs == map["parent" := PARENT, "child" := CHILD] && env.latest == map["k" := "child"]
    requires forall d, e :: r(d, e) == if d == "child" then 0 else if e == "s" then 2 else 1
    ensures Termination.Ranked(env, r)
  {
    hide FlowsFrom, Termination.Passes;
    ParentFlows();
    ParentPasses();
  }

  // What can be passed: the start events and the call activity.
  lemma ParentPasses()
    ensures forall e :: Termination.Passes(PARENT, e) <==> e == "s" || e == "c"
    ensures forall e :: Termination.Passes(CHILD, e) <==> e == "s"
  {
  }
}
