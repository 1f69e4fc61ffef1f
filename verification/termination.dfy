// Why a navigation ends: the elements it can pass without waiting are ranked, and every step lowers the
// total cost of the jobs that are still to run.

module Termination {
  import opened Spec
  import opened Model
  import opened Machine
  import opened Operations
  import opened Lifecycle
  import opened Routes

  type Rank = (string, string) -> nat

  // A token that enters such an element may move on in the same navigation: automatic elements, multi-instance
  // tasks, which may turn out to be empty, call activities, whose child may complete at once, and the start.
  predicate Passes(def: Definition, e: string) {
    e in def.elements &&
    (e == def.start ||
     match def.elements[e].Kind()
     case UserKind => def.elements[e].loop.Some?
     case EndKind => false
     case CatchKind => false
     case BoundaryKind => false
     case _ => true)
  }

  // The definition that a call activity calls.
  predicate Calls(env: Env, el: Element, d: string) {
    el.CallActivity? && el.calledElement in env.latest && env.latest[el.calledElement] == d && d in env.defs
  }

  // The rank decreases along every flow, and every call, between elements that can be passed.
  ghost predicate Ranked(env: Env, r: Rank) {
    && (forall d, e, i :: (d in env.defs && Passes(env.defs[d], e)
                           && 0 <= i < |FlowsFrom(env.defs[d].flows, e)|
                           && Passes(env.defs[d], FlowsFrom(env.defs[d].flows, e)[i].target))
          ==> r(d, FlowsFrom(env.defs[d].flows, e)[i].target) < r(d, e))
    && (forall d, e, d1 :: (d in env.defs && e in env.defs[d].elements && Calls(env, env.defs[d].elements[e], d1)
                            && Passes(env.defs[d1], env.defs[d1].start))
          ==> r(d1, env.defs[d1].start) < r(d, e))
  }

  // ---- Costs ----

  // What it costs to leave element e along its first k flows, in an instance whose completion costs c.
  ghost function FlowsCost(env: Env, r: Rank, d: string, e: string, k: nat, c: nat): nat
    requires Ranked(env, r) && d in env.defs && k <= |FlowsFrom(env.defs[d].flows, e)|
    decreases if Passes(env.defs[d], e) then 0 else 1, r(d, e), 0, k
  {
    if k == 0 then 0
    else
      var t := FlowsFrom(env.defs[d].flows, e)[k - 1].target;
      FlowsCost(env, r, d, e, k - 1, c) + (if Passes(env.defs[d], t) then PassCost(env, r, d, t, c) else 2 + c)
  }

  // What it costs to enter an element that can be passed.
  ghost function PassCost(env: Env, r: Rank, d: string, t: string, c: nat): nat
    requires Ranked(env, r) && d in env.defs && Passes(env.defs[d], t)
    decreases 0, r(d, t), 1, 0
  {
    var def := env.defs[d];
    var here := 1 + c + FlowsCost(env, r, d, t, |FlowsFrom(def.flows, t)|, c);
    if def.elements[t].CallActivity? && def.elements[t].calledElement in env.latest
        && env.latest[def.elements[t].calledElement] in env.defs then
      var d1 := env.latest[def.elements[t].calledElement];
      var start := env.defs[d1].start;
      if Passes(env.defs[d1], start)
          then 3 + here + FlowsCost(env, r, d1, start, |FlowsFrom(env.defs[d1].flows, start)|, 1 + here)
      else 3 + here
    else 1 + here
  }

  ghost function EnterCost(env: Env, r: Rank, d: string, t: string, c: nat): (n: nat)
    requires Ranked(env, r) && d in env.defs
    ensures n >= 1
  {
    if Passes(env.defs[d], t) then PassCost(env, r, d, t, c) else 2 + c
  }

  // What it costs to leave an element.
  ghost function NavCost(env: Env, r: Rank, d: string, e: string, c: nat): (n: nat)
    requires Ranked(env, r) && d in env.defs
    ensures n >= 1
  {
    if e !in env.defs[d].elements then 1
    else if env.defs[d].elements[e].EndEvent? then 1 + c
    else 1 + c + FlowsCost(env, r, d, e, |FlowsFrom(env.defs[d].flows, e)|, c)
  }

  // What it costs to check instance p for completion: its caller may then move on.
  ghost function CheckCost(env: Env, r: Rank, w: World, p: nat): (n: nat)
    requires Ranked(env, r) && Wf(w) && p in w.insts
    ensures n >= 1
    decreases p
  {
    match w.insts[p].parent
    case None => 1
    case Some(at) =>
      if w.insts[at.inst].def in env.defs
          then 1 + NavCost(env, r, w.insts[at.inst].def, at.elem, CheckCost(env, r, w, at.inst))
      else 2
  }

  ghost function JobCost(env: Env, r: Rank, w: World, job: Job): (n: nat)
    requires Ranked(env, r) && Wf(w) && job.inst in w.insts
    ensures n >= 1
  {
    var d := w.insts[job.inst].def;
    var c := CheckCost(env, r, w, job.inst);
    match job
    case Nav(p, e) => if d in env.defs then NavCost(env, r, d, e, c) else 1
    case Take(p, f) => if d in env.defs then EnterCost(env, r, d, f.target, c) else 1
    case Check(p) => c
  }

  ghost predicate Known(w: World, agenda: seq<Job>) {
    forall i :: 0 <= i < |agenda| ==> agenda[i].inst in w.insts
  }

  ghost function AgendaCost(env: Env, r: Rank, w: World, agenda: seq<Job>): nat
    requires Ranked(env, r) && Wf(w) && Known(w, agenda)
  {
    if agenda == [] then 0 else JobCost(env, r, w, agenda[0]) + AgendaCost(env, r, w, agenda[1..])
  }

  lemma {:induction false} AgendaAppend(env: Env, r: Rank, w: World, a: seq<Job>, b: seq<Job>)
    requires Ranked(env, r) && Wf(w) && Known(w, a) && Known(w, b)
    ensures Known(w, a + b) && AgendaCost(env, r, w, a + b) == AgendaCost(env, r, w, a) + AgendaCost(env, r, w, b)
  {
    hide Ranked, Wf, JobCost;
    if a == [] {
      assert a + b == b;
    } else {
      assert (a + b)[0] == a[0] && (a + b)[1..] == a[1..] + b;
      AgendaAppend(env, r, w, a[1..], b);
    }
  }

  // ---- Costs do not change as the world does ----

  ghost predicate Later(w: World, w1: World) {
    forall p :: p in w.insts ==>
          p in w1.insts && w1.insts[p].def == w.insts[p].def
          && w1.insts[p].parent == w.insts[p].parent
  }

  lemma {:induction false} CheckCostLater(env: Env, r: Rank, w: World, w1: World, p: nat)
    requires Ranked(env, r) && Wf(w) && Wf(w1) && Later(w, w1) && p in w.insts
    ensures p in w1.insts && CheckCost(env, r, w1, p) == CheckCost(env, r, w, p)
    decreases p
  {
    hide Ranked, NavCost;
    match w.insts[p].parent
    case None =>
    case Some(at) => CheckCostLater(env, r, w, w1, at.inst);
  }

  lemma {:induction false} AgendaCostLater(env: Env, r: Rank, w: World, w1: World, agenda: seq<Job>)
    requires Ranked(env, r) && Wf(w) && Wf(w1) && Later(w, w1) && Known(w, agenda)
    ensures Known(w1, agenda) && AgendaCost(env, r, w1, agenda) == AgendaCost(env, r, w, agenda)
  {
    hide Ranked, Wf, NavCost, EnterCost, CheckCost;
    if agenda != [] {
      CheckCostLater(env, r, w, w1, agenda[0].inst);
      AgendaCostLater(env, r, w, w1, agenda[1..]);
    }
  }

  // ---- The cost of taking some flows ----

  ghost function ListCost(env: Env, r: Rank, d: string, flows: seq<Flow>, c: nat): nat
    requires Ranked(env, r) && d in env.defs
  {
    if flows == [] then 0
    else ListCost(env, r, d, flows[..|flows| - 1], c) + EnterCost(env, r, d, flows[|flows| - 1].target, c)
  }

  lemma {:induction false} ListIsFlows(env: Env, r: Rank, d: string, e: string, k: nat, c: nat)
    requires Ranked(env, r) && d in env.defs && k <= |FlowsFrom(env.defs[d].flows, e)|
    ensures ListCost(env, r, d, FlowsFrom(env.defs[d].flows, e)[..k], c) == FlowsCost(env, r, d, e, k, c)
  {
    hide Ranked, PassCost, FlowsFrom;
    if k > 0 {
      var out := FlowsFrom(env.defs[d].flows, e);
      assert out[..k][..k - 1] == out[..k - 1];
      ListIsFlows(env, r, d, e, k - 1, c);
    }
  }

  lemma OutCost(env: Env, r: Rank, d: string, e: string, c: nat)
    requires Ranked(env, r) && d in env.defs && e in env.defs[d].elements && !env.defs[d].elements[e].EndEvent?
    ensures var out := FlowsFrom(env.defs[d].flows, e); NavCost(env, r, d, e, c) == 1 + c + ListCost(env, r, d, out, c)
  {
    hide Ranked, ListCost, FlowsCost;
    var out := FlowsFrom(env.defs[d].flows, e);
    ListIsFlows(env, r, d, e, |out|, c);
    assert out[..|out|] == out;
  }

  lemma {:induction false} ListFront(env: Env, r: Rank, d: string, f: Flow, flows: seq<Flow>, c: nat)
    requires Ranked(env, r) && d in env.defs
    ensures ListCost(env, r, d, [f] + flows, c) == EnterCost(env, r, d, f.target, c) + ListCost(env, r, d, flows, c)
  {
    hide Ranked, EnterCost;
    if flows == [] {
      assert [f] + flows == [f] && [f][..0] == [];
    } else {
      var last := |flows| - 1;
      assert ([f] + flows)[..|[f] + flows| - 1] == [f] + flows[..last];
      ListFront(env, r, d, f, flows[..last], c);
    }
  }

  lemma {:induction false} SelectionCost(env: Env, r: Rank, d: string, fs: seq<Flow>, out: seq<Flow>, c: nat)
    requires Ranked(env, r) && d in env.defs && Selection(fs, out)
    ensures ListCost(env, r, d, fs, c) <= ListCost(env, r, d, out, c)
    decreases |out|
  {
    hide Ranked, EnterCost, ListCost;
    if fs == [] {
      assert ListCost(env, r, d, [], c) == 0 by { NoFlowsCost(env, r, d, c); }
    } else {
      ListFront(env, r, d, out[0], out[1..], c);
      assert out == [out[0]] + out[1..];
      if fs[0] == out[0] && Selection(fs[1..], out[1..]) {
        SelectionCost(env, r, d, fs[1..], out[1..], c);
        ListFront(env, r, d, fs[0], fs[1..], c);
        assert fs == [fs[0]] + fs[1..];
      } else {
        SelectionCost(env, r, d, fs, out[1..], c);
      }
    }
  }

  lemma NoFlowsCost(env: Env, r: Rank, d: string, c: nat)
    requires Ranked(env, r) && d in env.defs
    ensures ListCost(env, r, d, [], c) == 0
  {
    hide Ranked, EnterCost;
  }

  lemma {:induction false} TakesCost(env: Env, r: Rank, w: World, p: nat, flows: seq<Flow>)
    requires Ranked(env, r) && Wf(w) && p in w.insts && w.insts[p].def in env.defs
    ensures Known(w, Takes(p, flows))
    ensures AgendaCost(env, r, w, Takes(p, flows)) == ListCost(env, r, w.insts[p].def, flows, CheckCost(env, r, w, p))
  {
    hide Ranked, Wf, EnterCost, CheckCost;
    if flows != [] {
      var last := |flows| - 1;
      TakesCost(env, r, w, p, flows[..last]);
      AgendaAppend(env, r, w, Takes(p, flows[..last]), [Take(p, flows[last])]);
      AgendaOne(env, r, w, Take(p, flows[last]));
    }
  }

  lemma AgendaOne(env: Env, r: Rank, w: World, job: Job)
    requires Ranked(env, r) && Wf(w) && job.inst in w.insts
    ensures Known(w, [job]) && AgendaCost(env, r, w, [job]) == JobCost(env, r, w, job)
  {
    hide Ranked, Wf, JobCost;
    assert [job][1..] == [];
  }

  // ---- One step ----

  lemma OnwardCost(env: Env, r: Rank, w: World, p: nat, out: seq<Flow>, s: Step)
    requires Ranked(env, r) && Wf(w) && Wf(s.w) && Later(w, s.w) && p in w.insts && w.insts[p].def in env.defs
    requires s.Go? && Onward(p, out, s)
    ensures Known(s.w, s.jobs)
    ensures AgendaCost(env, r, s.w, s.jobs) <= CheckCost(env, r, w, p) + ListCost(env, r, w.insts[p].def, out,
        CheckCost(env, r, w, p))
  {
    hide Ranked, Wf, ListCost, CheckCost, Takes, EnterCost, NavCost, Selection;
    var d := w.insts[p].def;
    var c := CheckCost(env, r, w, p);
    CheckCostLater(env, r, w, s.w, p);
    if s.jobs == [Check(p)] {
      AgendaOne(env, r, s.w, Check(p));
    } else if s.jobs != [] {
      var fs :| s.jobs == Takes(p, fs) && Selection(fs, out);
      SelectionCost(env, r, d, fs, out, c);
      TakesCost(env, r, s.w, p, fs);
    }
  }

  // The step makes progress: what it asks for costs less than the job it has done.
  ghost predicate Cheaper(env: Env, r: Rank, w: World, job: Job, s: Step)
    requires Ranked(env, r) && Wf(w) && job.inst in w.insts
  {
    s.Go? ==>
          Wf(s.w) && Later(w, s.w) && Known(s.w, s.jobs)
          && AgendaCost(env, r, s.w, s.jobs) < JobCost(env, r, w, job)
  }

  lemma ExtendsLater(w: World, w1: World)
    requires Wf(w) && Extends(w, w1)
    ensures Wf(w1) && Later(w, w1)
  {
    ExtendsDrifts(w, w1);
  }

  lemma NavCheaper(env: Env, r: Rank, w: World, p: nat, e: string)
    requires Ranked(env, r) && Wf(w) && p in w.insts
    ensures Cheaper(env, r, w, Nav(p, e), NavStep(env, w, p, e))
  {
    hide Ranked, Wf, Onward, NavFrom, FlowsFrom, CheckCost, NavCost, ListCost, Later, Extends;
    var s := NavStep(env, w, p, e);
    var d := w.insts[p].def;
    if w.insts[p].state != Running {
      SameLater(w);
    } else if d in env.defs && e in env.defs[d].elements {
      var def := env.defs[d];
      var out := FlowsFrom(def.flows, e);
      var c := CheckCost(env, r, w, p);
      NavFromLocal(env, w, Place(p, e), def, def.elements[e], out);
      ExtendsLater(w, s.w);
      NavOnward(env, w, Place(p, e), def.elements[e], def, out);
      if def.elements[e].EndEvent? {
        EndCheaper(env, r, w, p, e);
      } else if s.Go? {
        OnwardCost(env, r, w, p, out, s);
        OutCost(env, r, d, e, c);
      }
    }
  }

  lemma SameLater(w: World)
    requires Wf(w)
    ensures Later(w, w)
  {
  }

  lemma EndCheaper(env: Env, r: Rank, w: World, p: nat, e: string)
    requires Ranked(env, r) && Wf(w) && p in w.insts && w.insts[p].state == Running && w.insts[p].def in env.defs
    requires e in env.defs[w.insts[p].def].elements && env.defs[w.insts[p].def].elements[e].EndEvent?
    ensures Cheaper(env, r, w, Nav(p, e), NavStep(env, w, p, e))
  {
    hide Ranked, Wf, CheckCost, FlowsFrom, FlowsCost;
    var w1 := DropAll(w, Place(p, e));
    ExtendsLater(w, w1);
    CheckCostLater(env, r, w, w1, p);
    AgendaOne(env, r, w1, Check(p));
  }

  // Entering an element and leaving it again at once.
  lemma PassCovers(env: Env, r: Rank, d: string, t: string, c: nat)
    requires Ranked(env, r) && d in env.defs && t in env.defs[d].elements
    ensures Passes(env.defs[d], t) || env.defs[d].elements[t].EndEvent? ==>
        NavCost(env, r, d, t, c) < EnterCost(env, r, d, t, c)
  {
    hide Ranked;
  }

  // Navigating on from the element just entered, in a world with the same instances.
  lemma OnFromHere(env: Env, r: Rank, w: World, f: Flow, p: nat, s: Step)
    requires Ranked(env, r) && Wf(w) && p in w.insts && w.insts[p].def in env.defs
        && f.target in env.defs[w.insts[p].def].elements
    requires var def := env.defs[w.insts[p].def]; Passes(def, f.target) || def.elements[f.target].EndEvent?
    requires Extends(w, s.w) && s.Go? && s.jobs == [Nav(p, f.target)]
    ensures Cheaper(env, r, w, Take(p, f), s)
  {
    hide Ranked, Wf, CheckCost, NavCost, EnterCost, FlowsFrom, Passes;
    ExtendsLater(w, s.w);
    CheckCostLater(env, r, w, s.w, p);
    AgendaOne(env, r, s.w, Nav(p, f.target));
    PassCovers(env, r, w.insts[p].def, f.target, CheckCost(env, r, w, p));
  }

  // Going on along the flows of the element just entered.
  lemma OnwardFromHere(env: Env, r: Rank, w: World, f: Flow, p: nat, s: Step)
    requires Ranked(env, r) && Wf(w) && p in w.insts && w.insts[p].def in env.defs
        && f.target in env.defs[w.insts[p].def].elements
    requires var def := env.defs[w.insts[p].def]; Passes(def, f.target) && !def.elements[f.target].EndEvent?
    requires Extends(w, s.w) && s.Go?
    requires Onward(p, FlowsFrom(env.defs[w.insts[p].def].flows, f.target), s)
    ensures Cheaper(env, r, w, Take(p, f), s)
  {
    hide Ranked, Wf, CheckCost, NavCost, EnterCost, FlowsFrom, Passes, Onward, ListCost;
    ExtendsLater(w, s.w);
    OnwardCost(env, r, w, p, FlowsFrom(env.defs[w.insts[p].def].flows, f.target), s);
    OutCost(env, r, w.insts[p].def, f.target, CheckCost(env, r, w, p));
    PassCovers(env, r, w.insts[p].def, f.target, CheckCost(env, r, w, p));
  }

  lemma WaitsCheaper(env: Env, r: Rank, w: World, job: Job, s: Step)
    requires Ranked(env, r) && Wf(w) && job.inst in w.insts && Extends(w, s.w) && (s.Go? ==> s.jobs == [])
    ensures Cheaper(env, r, w, job, s)
  {
    hide Ranked, Wf, JobCost;
    ExtendsLater(w, s.w);
  }

  lemma TakeCheaper(env: Env, r: Rank, w: World, p: nat, f: Flow)
    requires Ranked(env, r) && Wf(w) && p in w.insts && JobOk(w, Take(p, f))
    ensures Cheaper(env, r, w, Take(p, f), TakeStep(env, w, p, f))
  {
    hide Ranked, Wf, Cheaper, FlowsFrom, CheckCost, Onward, EnterLoop, Takes, EnterTask, CallStep;
    var s := TakeStep(env, w, p, f);
    var d := w.insts[p].def;
    if d in env.defs && f.target in env.defs[d].elements {
      var def := env.defs[d];
      var el := def.elements[f.target];
      var at := Place(p, f.target);
      var out := FlowsFrom(def.flows, f.target);
      var c := CheckCost(env, r, w, p);
      match el.Kind()
      case UserKind =>
        if el.loop.Some? {
          EnterLoopOnward(env, w, at, el, out);
          EnterLoopLocal(env, w, at, el, out);
          if s.Go? { OnwardFromHere(env, r, w, f, p, s); } else { WaitsCheaper(env, r, w, Take(p, f), s); }
        } else {
          WaitsCheaper(env, r, w, Take(p, f), s);
        }
      case ThrowKind =>
        LeaveOnward(env, AddDone(w, at, ThrowKind), at, out);
        LeaveLocal(AddDone(w, at, ThrowKind), at, out);
        OnwardFromHere(env, r, w, f, p, s);
      case CallKind => CallCheaper(env, r, w, p, f);
      case CatchKind => WaitsCheaper(env, r, w, Take(p, f), s);
      case BoundaryKind => WaitsCheaper(env, r, w, Take(p, f), s);
      case StartKind => WaitsCheaper(env, r, w, Take(p, f), s);
      case _ => OnFromHere(env, r, w, f, p, s);
    } else {
      WaitsCheaper(env, r, w, Take(p, f), s);
    }
  }

  lemma CallParts(env: Env, w: World, at: Place, el: Element)
    requires el.CallActivity? && Wf(w) && at.inst in w.insts && CallStep(env, w, at, el).Go?
    ensures el.calledElement in env.latest
    ensures var s := CallStep(env, w, at, el);
            var d1 := env.latest[el.calledElement];
            && Wf(s.w) && Later(w, s.w) && d1 in env.defs && s.jobs == [Nav(w.next, env.defs[d1].start)]
            && w.next in s.w.insts && s.w.insts[w.next].def == d1 && s.w.insts[w.next].parent == Some(at)
  {
    CallStepDrifts(env, w, at, el);
  }

  lemma CallCheaper(env: Env, r: Rank, w: World, p: nat, f: Flow)
    requires Ranked(env, r) && Wf(w) && p in w.insts && w.insts[p].def in env.defs
        && f.target in env.defs[w.insts[p].def].elements
    requires env.defs[w.insts[p].def].elements[f.target].CallActivity?
    ensures Cheaper(env, r, w, Take(p, f),
        CallStep(env, w, Place(p, f.target), env.defs[w.insts[p].def].elements[f.target]))
  {
    hide Ranked, Wf, CallStep, FlowsFrom, CheckCost, NavCost, EnterCost, Later;
    var d := w.insts[p].def;
    var at := Place(p, f.target);
    var el := env.defs[d].elements[f.target];
    var s := CallStep(env, w, at, el);
    if s.Go? {
      CallParts(env, w, at, el);
      ChildCost(env, r, w, s.w, at);
      CallCovers(env, r, d, f.target, CheckCost(env, r, w, p));
      AgendaOne(env, r, s.w, s.jobs[0]);
    }
  }

  // Entering a call activity covers the child's navigation, and leaving the activity after it.
  lemma CallCovers(env: Env, r: Rank, d: string, t: string, c: nat)
    requires Ranked(env, r) && d in env.defs && t in env.defs[d].elements
    requires var el := env.defs[d].elements[t];
             el.CallActivity? && el.calledElement in env.latest && env.latest[el.calledElement] in env.defs
    ensures var d1 := env.latest[env.defs[d].elements[t].calledElement];
            NavCost(env, r, d1, env.defs[d1].start, 1 + NavCost(env, r, d, t, c)) < EnterCost(env, r, d, t, c)
  {
    hide Ranked, FlowsFrom, FlowsCost;
  }

  lemma ChildCost(env: Env, r: Rank, w: World, w1: World, at: Place)
    requires Ranked(env, r) && Wf(w) && Wf(w1) && Later(w, w1) && at.inst in w.insts && w.insts[at.inst].def in env.defs
    requires w.next in w1.insts && w1.insts[w.next].parent == Some(at)
    ensures CheckCost(env, r, w1, w.next) ==
        1 + NavCost(env, r, w.insts[at.inst].def, at.elem, CheckCost(env, r, w, at.inst))
  {
    hide Ranked, NavCost;
    CheckCostLater(env, r, w, w1, at.inst);
  }

  lemma CheckCheaper(env: Env, r: Rank, w: World, p: nat)
    requires Ranked(env, r) && Wf(w) && p in w.insts && JobOk(w, Check(p))
    ensures Cheaper(env, r, w, Check(p), CheckStep(w, p))
  {
    hide Ranked, HasToken, FinishAll, ActiveAt, NavCost;
    var s := CheckStep(w, p);
    CheckStepDrifts(w, p);
    if s.jobs != [] {
      var at := w.insts[p].parent.value;
      CheckCostLater(env, r, w, s.w, at.inst);
      AgendaOne(env, r, s.w, Nav(at.inst, at.elem));
    }
  }

  lemma StepCheaper(env: Env, r: Rank, w: World, job: Job)
    requires Ranked(env, r) && Wf(w) && job.inst in w.insts && JobOk(w, job)
    ensures Cheaper(env, r, w, job, StepJob(env, w, job))
  {
    hide Ranked, Wf, Cheaper, NavStep, TakeStep, CheckStep;
    match job
    case Nav(p, e) => NavCheaper(env, r, w, p, e);
    case Take(p, f) => TakeCheaper(env, r, w, p, f);
    case Check(p) => CheckCheaper(env, r, w, p);
  }

  // ---- Every navigation ends ----

  // The cost of an agenda bounds the number of steps it takes.
  lemma {:induction false} NavigationEnds(env: Env, r: Rank, w: World, agenda: seq<Job>, n: nat)
    requires Ranked(env, r) && Wf(w) && Known(w, agenda) && JobsOk(w, agenda) && AgendaCost(env, r, w, agenda) <= n
    ensures Exec(env, w, agenda, n) != More
    decreases n
  {
    hide Ranked, Wf, StepJob, JobCost, JobOk, Wf, Later;
    if agenda != [] {
      StepCheaper(env, r, w, agenda[0]);
      StepDrifts(env, w, agenda[0]);
      match StepJob(env, w, agenda[0])
      case Stuck(_) =>
      case Go(w1, jobs) =>
        AgendaCostLater(env, r, w, w1, agenda[1..]);
        AgendaAppend(env, r, w1, jobs, agenda[1..]);
        JobsOkLater(w, w1, jobs, agenda[1..]);
        NavigationEnds(env, r, w1, jobs + agenda[1..], n - 1);
    }
  }

  // Operations that navigate start from an instance that exists.
  lemma PrepKnown(env: Env, w: World, op: Op)
    requires Wf(w) && Prep(env, w, op).Go? && Prep(env, w, op).jobs != []
    ensures var s := Prep(env, w, op); Wf(s.w) && Known(s.w, s.jobs) && JobsOk(s.w, s.jobs)
  {
    hide Wf, PrepStart, PrepComplete, PrepJump;
    PrepMoves(env, w, op);
    PrepNavigates(env, w, op);
    match op
    case Start(def, vars) => StartKnown(env, w, def, vars);
    case Complete(a, vars) => CompleteKnown(env, w, a, vars);
    case Jump(a, target) => JumpKnown(env, w, a, target);
    case _ => assert false;
  }

  // Only starting, completing and jumping navigate.
  lemma PrepNavigates(env: Env, w: World, op: Op)
    requires Prep(env, w, op).Go? && Prep(env, w, op).jobs != []
    ensures op.Start? || op.Complete? || op.Jump?
  {
    hide PrepStart, PrepComplete, PrepJump, RejectTo, RejectToEnd, ReclaimTo, LatestElsewhere, CandidateList,
        AddSigns, OpenSession, Sessions, ActiveSigns, FinishOne;
  }

  lemma StartKnown(env: Env, w: World, def: string, vars: Vars)
    requires Wf(w) && PrepStart(env, w, def, vars).Go? && Wf(PrepStart(env, w, def, vars).w)
    ensures var s := PrepStart(env, w, def, vars); Wf(s.w) && Known(s.w, s.jobs)
  {
    hide Wf, WellFormed;
    NewIsFresh(w);
  }

  lemma NewIsFresh(w: World)
    requires Wf(w)
    ensures w.next !in w.insts
  {
  }

  lemma CompleteKnown(env: Env, w: World, a: nat, vars: Vars)
    requires Wf(w) && PrepComplete(env, w, a, vars).Go? && Wf(PrepComplete(env, w, a, vars).w)
    ensures var s := PrepComplete(env, w, a, vars); Wf(s.w) && Known(s.w, s.jobs)
  {
    hide Wf, CompleteRest, FinishOne;
    var s := PrepComplete(env, w, a, vars);
    var p := w.acts[a].at.inst;
    var w2 := Submit(FinishOne(w, a), p, vars);
    CompleteExtends(env, w2, p, a, Approves(vars));
    CompleteJobs(env, w2, p, a, Approves(vars));
  }

  lemma CompleteJobs(env: Env, w: World, p: nat, a: nat, approved: bool)
    requires a in w.acts
    ensures var s := CompleteRest(env, w, p, a, approved); s.Go? ==> forall i :: 0 <= i < |s.jobs| ==>
        s.jobs[i].inst == p
  {
    hide ActiveSigns, Delegated, ReturnToOwner, Sessions, SessionOver, FinishAll, SessionVars;
  }

  lemma JumpKnown(env: Env, w: World, a: nat, target: string)
    requires Wf(w) && PrepJump(env, w, a, target).Go? && PrepJump(env, w, a, target).jobs != []
    ensures var s := PrepJump(env, w, a, target); Wf(s.w) && Known(s.w, s.jobs)
  {
    hide Wf, FinishOne, ForgetSigns, Revisit, DelVars, DelegateVars;
    ExtendsLater(w, PrepJump(env, w, a, target).w);
  }

  // Every public operation ends: there is a number of steps that is enough for all it sets in motion.
  lemma OperationEnds(env: Env, r: Rank, w: World, op: Op) returns (n: nat)
    requires Ranked(env, r) && Wf(w)
    ensures !Apply(env, w, op, n).More?
  {
    hide Ranked, Wf, Prep, Exec;
    n := 0;
    match Prep(env, w, op)
    case Stuck(_) =>
    case Go(w1, jobs) =>
      if jobs == [] {
        ExecNone(env, w1, 0);
      } else {
        PrepKnown(env, w, op);
        n := AgendaCost(env, r, w1, jobs);
        NavigationEnds(env, r, w1, jobs, n);
      }
  }

  // ---- The rank is needed ----

  // A service task whose only flow leads back to itself.
  ghost predicate SelfLoop(env: Env, w: World, p: nat, e: string, f: Flow) {
    && p in w.insts && w.insts[p].state == Running && w.insts[p].def in env.defs
    && e in env.defs[w.insts[p].def].elements && env.defs[w.insts[p].def].elements[e].ServiceTask?
    && FlowsFrom(env.defs[w.insts[p].def].flows, e) == [f] && f.target == e
  }

  lemma {:induction false} SelfLoopNeverEnds(env: Env, w: World, p: nat, e: string, f: Flow, n: nat)
    requires SelfLoop(env, w, p, e, f)
    ensures Exec(env, w, [Nav(p, e)], n) == More
    ensures forall r: Rank :: !Ranked(env, r)
    decreases n
  {
    hide Ranked, FlowsFrom, Exec;
    NotRanked(env, w, p, e, f);
    var w1 := Leave(w, Place(p, e), [f]).w;
    var w2 := AddDone(w1, Place(p, e), ServiceKind);
    SelfLoopSteps(env, w, p, e, f);
    ExecZero(env, w, Nav(p, e));
    ExecZero(env, w1, Take(p, f));
    if n >= 1 { ExecSolo(env, w, Nav(p, e), w1, [Take(p, f)], n); }
    if n >= 2 {
      ExecSolo(env, w1, Take(p, f), w2, [Nav(p, e)], n - 1);
      SelfLoopNeverEnds(env, w2, p, e, f, n - 2);
    }
  }

  lemma ExecZero(env: Env, w: World, a: Job)
    ensures Exec(env, w, [a], 0) == More
  {
  }

  lemma SelfLoopSteps(env: Env, w: World, p: nat, e: string, f: Flow)
    requires SelfLoop(env, w, p, e, f)
    ensures var w1 := Leave(w, Place(p, e), [f]).w;
            StepJob(env, w, Nav(p, e)) == Go(w1, [Take(p, f)])
                && StepJob(env, w1, Take(p, f)) == Go(AddDone(w1, Place(p, e), ServiceKind), [Nav(p, e)])
  {
    hide FlowsFrom;
    assert Takes(p, [f]) == [Take(p, f)];
  }

  lemma NotRanked(env: Env, w: World, p: nat, e: string, f: Flow)
    requires SelfLoop(env, w, p, e, f)
    ensures forall r: Rank :: !Ranked(env, r)
  {
    forall r: Rank ensures !Ranked(env, r) {
      var d := w.insts[p].def;
      assert FlowsFrom(env.defs[d].flows, e)[0].target == e && Passes(env.defs[d], e);
    }
  }
}