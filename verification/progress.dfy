// Why a process with rejections ends: over an acyclic definition, every completion takes weight off the
// open work, and every rejection uses up one of a limited number.

module Progress {
  import opened Spec
  import opened Model
  import opened Bags
  import opened Machine
  import opened Operations
  import opened Lifecycle
  import opened Routes
  import opened TokenGame
  import opened TokenRuns
  import opened Moves
  import opened Frames
  import opened Footprints
  import opened Names

  type Weight = string -> nat

  // ---- Weights ----

  function FlowsWeight(flows: seq<Flow>, wt: Weight): nat {
    if flows == [] then 0 else wt(flows[0].target) + FlowsWeight(flows[1..], wt)
  }

  // Each element weighs one more than all its successors together.
  ghost predicate Weighted(def: Definition, wt: Weight) {
    forall e :: wt(e) == 1 + FlowsWeight(FlowsFrom(def.flows, e), wt)
  }

  ghost predicate Acyclic(def: Definition, r: string -> nat) {
    forall f :: f in def.flows ==> r(f.target) < r(f.source)
  }

  lemma WeightHas(def: Definition, wt: Weight, e: string)
    requires Weighted(def, wt)
    ensures wt(e) == 1 + FlowsWeight(FlowsFrom(def.flows, e), wt)
  {
  }

  lemma {:induction false} FlowsWeightHas(flows: seq<Flow>, wt: Weight, f: Flow)
    requires f in flows
    ensures wt(f.target) <= FlowsWeight(flows, wt)
  {
    if flows[0] != f { FlowsWeightHas(flows[1..], wt, f); }
  }

  // A definition with weights is acyclic.
  lemma WeightedIsAcyclic(def: Definition, wt: Weight)
    requires Weighted(def, wt)
    ensures Acyclic(def, wt)
  {
    hide Weighted, FlowsFrom;
    forall f | f in def.flows ensures wt(f.target) < wt(f.source) {
      FlowsFromHas(def.flows, f);
      WeightHas(def, wt, f.source);
      FlowsWeightHas(FlowsFrom(def.flows, f.source), wt, f);
    }
  }

  ghost function WeightOf(def: Definition, r: string -> nat, e: string): nat
    requires Acyclic(def, r)
    decreases r(e), 1, 0
  {
    1 + SuccessorWeight(def, r, e, FlowsFrom(def.flows, e))
  }

  ghost function SuccessorWeight(def: Definition, r: string -> nat, e: string, flows: seq<Flow>): nat
    requires Acyclic(def, r) && forall f :: f in flows ==> f in def.flows && f.source == e
    decreases r(e), 0, |flows|
  {
    if flows == [] then 0
    else
      assert flows[0] in flows;
      WeightOf(def, r, flows[0].target) + SuccessorWeight(def, r, e, flows[1..])
  }

  // An acyclic definition has weights.
  lemma AcyclicIsWeighted(def: Definition, r: string -> nat) returns (wt: Weight)
    requires Acyclic(def, r)
    ensures Weighted(def, wt)
  {
    wt := e => if Acyclic(def, r) then WeightOf(def, r, e) else 0;
    forall e ensures wt(e) == 1 + FlowsWeight(FlowsFrom(def.flows, e), wt) {
      SuccessorsWeigh(def, r, e, FlowsFrom(def.flows, e), wt);
    }
  }

  lemma {:induction false} SuccessorsWeigh(def: Definition, r: string -> nat, e: string, flows: seq<Flow>, wt: Weight)
    requires Acyclic(def, r) && forall f :: f in flows ==> f in def.flows && f.source == e
    requires forall e1 :: wt(e1) == WeightOf(def, r, e1)
    ensures FlowsWeight(flows, wt) == SuccessorWeight(def, r, e, flows)
  {
    hide Acyclic, FlowsFrom;
    if flows != [] { SuccessorsWeigh(def, r, e, flows[1..], wt); }
  }

  // The heaviest element, or one more.
  function MaxWeight(flows: seq<Flow>, wt: Weight): nat {
    if flows == [] then 1
    else
      var rest := MaxWeight(flows[1..], wt);
      if wt(flows[0].source) > rest then wt(flows[0].source) else rest
  }

  lemma {:induction false} MaxHas(flows: seq<Flow>, wt: Weight, f: Flow)
    requires f in flows
    ensures wt(f.source) <= MaxWeight(flows, wt)
  {
    if flows[0] != f { MaxHas(flows[1..], wt, f); }
  }

  lemma {:induction false} MaxPositive(flows: seq<Flow>, wt: Weight)
    ensures MaxWeight(flows, wt) >= 1
  {
    if flows != [] { MaxPositive(flows[1..], wt); }
  }

  lemma MaxBounds(def: Definition, wt: Weight, e: string)
    requires Weighted(def, wt)
    ensures wt(e) <= MaxWeight(def.flows, wt)
  {
    hide Weighted, FlowsFrom;
    WeightHas(def, wt, e);
    var out := FlowsFrom(def.flows, e);
    if out == [] {
      MaxPositive(def.flows, wt);
    } else {
      assert out[0].source == e;
      MaxHas(def.flows, wt, out[0]);
    }
  }

  // ---- Sums over positions ----

  ghost function Sum(m: multiset<Place>, g: Place -> nat): nat {
    if m == multiset{} then 0
    else
      var x :| x in m;
      g(x) + Sum(m - multiset{x}, g)
  }

  lemma {:induction false} SumRemove(m: multiset<Place>, g: Place -> nat, x: Place)
    requires x in m
    ensures Sum(m, g) == g(x) + Sum(m - multiset{x}, g)
    decreases |m|
  {
    var y :| y in m && Sum(m, g) == g(y) + Sum(m - multiset{y}, g);
    if y != x {
      SumRemove(m - multiset{y}, g, x);
      SumRemove(m - multiset{x}, g, y);
      assert m - multiset{y} - multiset{x} == m - multiset{x} - multiset{y};
    }
  }

  lemma SumAdd(m: multiset<Place>, g: Place -> nat, x: Place)
    ensures Sum(m + multiset{x}, g) == Sum(m, g) + g(x)
  {
    hide Sum;
    SumRemove(m + multiset{x}, g, x);
    assert m + multiset{x} - multiset{x} == m;
  }

  lemma {:induction false} SumLess(m: multiset<Place>, m1: multiset<Place>, g: Place -> nat)
    requires m1 <= m
    ensures Sum(m1, g) <= Sum(m, g)
    decreases |m|
  {
    hide Sum;
    if m1 != m {
      assert (forall x :: x in m ==> m1[x] >= m[x]) ==> m1 == m;
      var x :| x in m && m1[x] < m[x];
      SumRemove(m, g, x);
      SumLess(m - multiset{x}, m1, g);
    }
  }

  // ---- The weight of a world and of what is still to run ----

  // The weight of a position, if it is one of p that counts.
  function WeightAt(p: nat, wt: Weight, counts: bool, at: Place): nat {
    if at.inst == p && counts then wt(at.elem) else 0
  }

  ghost function OpenWeight(p: nat, wt: Weight): Place -> nat {
    (at: Place) => WeightAt(p, wt, true, at)
  }

  ghost function GateWeight(p: nat, def: Definition, wt: Weight): Place -> nat {
    (at: Place) => WeightAt(p, wt, Gate(def, at.elem), at)
  }

  predicate Gate(def: Definition, e: string) {
    e in def.elements && IsGateway(def.elements[e])
  }

  // The open activities of p and its gateway tokens.
  ghost function Load(w: World, p: nat, def: Definition, wt: Weight): nat {
    Sum(Opens(w), OpenWeight(p, wt)) + Sum(w.toks, GateWeight(p, def, wt))
  }

  // What leaving an element may still add: nothing for a gateway whose token is already counted.
  ghost function JobLoad(w: World, def: Definition, wt: Weight, job: Job): nat {
    match job
    case Nav(p, e) => if (Gate(def, e) && Place(p, e) in w.toks) || wt(e) == 0 then 0 else wt(e) - 1
    case Take(_, f) => wt(f.target)
    case Check(_) => 0
  }

  ghost function TakesLoad(jobs: seq<Job>, wt: Weight): nat {
    if jobs == [] then 0
    else (if jobs[0].Take? then wt(jobs[0].flow.target) else 0) + TakesLoad(jobs[1..], wt)
  }

  ghost function AgendaLoad(w: World, def: Definition, wt: Weight, agenda: seq<Job>): nat {
    if agenda == [] then 0 else JobLoad(w, def, wt, agenda[0]) + TakesLoad(agenda[1..], wt)
  }

  lemma {:induction false} TakesLoadAppend(a: seq<Job>, b: seq<Job>, wt: Weight)
    ensures TakesLoad(a + b, wt) == TakesLoad(a, wt) + TakesLoad(b, wt)
  {
    if a == [] {
      assert a + b == b;
    } else {
      assert (a + b)[0] == a[0] && (a + b)[1..] == a[1..] + b;
      TakesLoadAppend(a[1..], b, wt);
    }
  }

  lemma AgendaLoadAppend(w: World, p: nat, def: Definition, wt: Weight, jobs: seq<Job>, rest: seq<Job>)
    requires AllTakes(p, rest)
    ensures AgendaLoad(w, def, wt, jobs + rest) == AgendaLoad(w, def, wt, jobs) + TakesLoad(rest, wt)
  {
    if jobs == [] {
      assert jobs + rest == rest;
    } else {
      assert (jobs + rest)[0] == jobs[0] && (jobs + rest)[1..] == jobs[1..] + rest;
      TakesLoadAppend(jobs[1..], rest, wt);
    }
  }

  lemma {:induction false} FlowsLoad(w: World, p: nat, def: Definition, wt: Weight, flows: seq<Flow>)
    ensures TakesLoad(Takes(p, flows), wt) == FlowsWeight(flows, wt)
    ensures AgendaLoad(w, def, wt, Takes(p, flows)) == FlowsWeight(flows, wt)
  {
    hide Takes;
    if flows != [] {
      TakesFront(p, flows);
      FlowsLoad(w, p, def, wt, flows[1..]);
      assert Takes(p, flows)[1..] == Takes(p, flows[1..]);
    }
  }

  // ---- One step ----

  // No multi-instance tasks and no call activities: a token that enters an element comes out once.
  ghost predicate Stepwise(def: Definition) {
    forall k :: k in def.elements ==> !def.elements[k].CallActivity? && !(TaskAt(def, k) && def.elements[k].loop.Some?)
  }

  // Jobs all about p, at most the first of which is not a flow to be taken.
  ghost predicate Lined(p: nat, agenda: seq<Job>) {
    agenda == [] || (agenda[0].inst == p && AllTakes(p, agenda[1..]))
  }

  ghost predicate SameLimit(w: World, w1: World, p: nat) {
    && NumAt(VarsOf(w1, p), RejectionCount) == NumAt(VarsOf(w, p), RejectionCount)
    && NumAt(VarsOf(w1, p), MaxRejection) == NumAt(VarsOf(w, p), MaxRejection)
  }

  ghost predicate Lighter(env: Env, w: World, p: nat, def: Definition, wt: Weight, job: Job, s: Step) {
    s.Go? ==>
      && Root(env, s.w, p, def) && Lined(p, s.jobs) && SameLimit(w, s.w, p)
      && Load(s.w, p, def, wt) + AgendaLoad(s.w, def, wt, s.jobs) <= Load(w, p, def, wt) + JobLoad(w, def, wt, job)
  }

  // Leaving e along some of its flows: its tokens are gone if it is a gateway, and nothing else is added.
  lemma LeavingIsLighter(w: World, w1: World, p: nat, def: Definition, wt: Weight, e: string, fs: seq<Flow>,
      jobs: seq<Job>)
    requires Weighted(def, wt) && Opens(w1) == Opens(w) && w1.toks <= w.toks
    requires Gate(def, e) ==> w1.toks[Place(p, e)] == 0
    requires FlowsWeight(fs, wt) + 1 <= wt(e) && AgendaLoad(w1, def, wt, jobs) <= FlowsWeight(fs, wt)
    ensures Load(w1, p, def, wt) + AgendaLoad(w1, def, wt, jobs) <= Load(w, p, def, wt) + JobLoad(w, def, wt, Nav(p, e))
  {
    hide Sum, Opens, Weighted, FlowsWeight, AgendaLoad;
    var at := Place(p, e);
    SumLess(w.toks, w1.toks, GateWeight(p, def, wt));
    if Gate(def, e) && at in w.toks {
      assert w1.toks + multiset{at} <= w.toks;
      SumLess(w.toks, w1.toks + multiset{at}, GateWeight(p, def, wt));
      SumAdd(w1.toks, GateWeight(p, def, wt), at);
    }
  }

  // Going on along some flows, or checking for completion when there are none.
  lemma OnwardLoad(w: World, p: nat, def: Definition, wt: Weight, out: seq<Flow>)
    ensures AgendaLoad(w, def, wt, if out == [] then [Check(p)] else Takes(p, out)) <= FlowsWeight(out, wt)
  {
    hide Takes;
    if out != [] { FlowsLoad(w, p, def, wt, out); }
  }

  lemma LeaveLighter(env: Env, w: World, p: nat, def: Definition, wt: Weight, e: string)
    requires Root(env, w, p, def) && Weighted(def, wt) && !Gate(def, e)
    ensures Lighter(env, w, p, def, wt, Nav(p, e), Leave(w, Place(p, e), FlowsFrom(def.flows, e)))
  {
    hide Sum, Bag, Load, FlowsWeight, FlowsFrom, Takes, Weighted, AgendaLoad;
    var out := FlowsFrom(def.flows, e);
    var s := Leave(w, Place(p, e), out);
    WeightHas(def, wt, e);
    OnwardLoad(s.w, p, def, wt, out);
    LeavingIsLighter(w, s.w, p, def, wt, e, out, s.jobs);
  }

  // A gateway that lets its tokens go along some of its flows.
  lemma GateLighter(env: Env, w: World, w1: World, p: nat, def: Definition, wt: Weight, e: string, fs: seq<Flow>,
      jobs: seq<Job>)
    requires Root(env, w, p, def) && Weighted(def, wt)
    requires w1.insts == w.insts && w1.acts == w.acts && w1.next == w.next && w1.toks == w.toks[Place(p, e) := 0]
        && SameLimit(w, w1, p)
    requires FlowsWeight(fs, wt) + 1 <= wt(e) && (jobs == Takes(p, fs) || jobs == [Check(p)])
    ensures Lighter(env, w, p, def, wt, Nav(p, e), Go(w1, jobs))
  {
    hide Sum, Bag, Load, FlowsWeight, Takes, Weighted;
    FlowsLoad(w1, p, def, wt, fs);
    LeavingIsLighter(w, w1, p, def, wt, e, fs, jobs);
  }

  lemma ExclusiveLighter(env: Env, w: World, p: nat, def: Definition, wt: Weight, e: string, default: string)
    requires Root(env, w, p, def) && Weighted(def, wt)
    ensures Lighter(env, w, p, def, wt, Nav(p, e), ExclusiveStep(env, w, Place(p, e), default, FlowsFrom(def.flows, e)))
  {
    hide Load, FlowsWeight, FlowsFrom, Weighted, FirstTrue, DefaultOf, Bounded, AgendaLoad;
    var out := FlowsFrom(def.flows, e);
    var choice := ExclusiveChoice(env, out, default, VarsOf(w, p));
    if choice.Chosen? {
      ChosenListed(env, out, default, VarsOf(w, p));
      WeightHas(def, wt, e);
      FlowsWeightHas(out, wt, choice.flow);
      OneFlow(p, choice.flow, wt);
      GateLighter(env, w, Logged(DropAll(w, Place(p, e)), Follow(Place(p, e))), p, def, wt, e, [choice.flow],
          [Take(p, choice.flow)]);
    }
  }

  lemma OneFlow(p: nat, f: Flow, wt: Weight)
    ensures FlowsWeight([f], wt) == wt(f.target) && Takes(p, [f]) == [Take(p, f)]
  {
    assert [f][1..] == [];
  }

  lemma {:induction false} TrueLighter(env: Env, flows: seq<Flow>, vars: Vars, wt: Weight)
    requires TrueFlows(env, flows, vars).Some?
    ensures FlowsWeight(TrueFlows(env, flows, vars).value, wt) <= FlowsWeight(flows, wt)
  {
    if flows != [] {
      TrueLighter(env, flows[1..], vars, wt);
      var fs := TrueFlows(env, flows[1..], vars).value;
      assert ([flows[0]] + fs)[1..] == fs;
    }
  }

  lemma InclusiveLighter(env: Env, w: World, p: nat, def: Definition, wt: Weight, e: string, default: string)
    requires Root(env, w, p, def) && Weighted(def, wt)
    ensures Lighter(env, w, p, def, wt, Nav(p, e), InclusiveStep(env, w, Place(p, e), default, FlowsFrom(def.flows, e)))
  {
    hide Load, FlowsWeight, FlowsFrom, Weighted, TrueFlows, DefaultOf, Bounded, AgendaLoad, Takes;
    var out := FlowsFrom(def.flows, e);
    var vars := VarsOf(w, p);
    var fs := InclusiveFlows(env, out, default, vars);
    if fs.Some? {
      WeightHas(def, wt, e);
      ChosenListed(env, out, default, vars);
      if TrueFlows(env, out, vars).value != [] {
        TrueLighter(env, out, vars, wt);
      } else {
        FlowsWeightHas(out, wt, fs.value[0]);
        OneFlow(p, fs.value[0], wt);
      }
      GateLighter(env, w, Logged(DropAll(w, Place(p, e)), Follow(Place(p, e))), p, def, wt, e, fs.value,
          Takes(p, fs.value));
    }
  }

  lemma ParallelLighter(env: Env, w: World, p: nat, def: Definition, wt: Weight, e: string, fanIn: nat)
    requires Root(env, w, p, def) && Weighted(def, wt)
    ensures Lighter(env, w, p, def, wt, Nav(p, e), ParallelStep(w, Place(p, e), fanIn, FlowsFrom(def.flows, e)))
  {
    hide Load, FlowsWeight, FlowsFrom, Weighted, Bounded, AgendaLoad, Takes, SetVar, DelVars, NumAt, VarsOf, Lighter;
    var at := Place(p, e);
    var out := FlowsFrom(def.flows, e);
    var jobs := if out == [] then [Check(p)] else Takes(p, out);
    WeightHas(def, wt, e);
    if fanIn > 1 {
      var arrived := NumAt(VarsOf(w, p), GwArrived(e)) + 1;
      var w1 := Logged(SetVar(w, p, GwArrived(e), Num(arrived)), Arrive(at));
      CounterParts(w, at, arrived);
      if arrived < fanIn {
        ParkLighter(env, w, w1, p, def, wt, e);
      } else {
        GateLighter(env, w, Logged(DelVars(DropAll(w1, at), p, {GwArrived(e)}), Follow(at)), p, def, wt, e, out, jobs);
      }
    } else {
      SameLimitItself(w, Logged(DropAll(w, at), Follow(at)), p);
      GateLighter(env, w, Logged(DropAll(w, at), Follow(at)), p, def, wt, e, out, jobs);
    }
  }

  lemma SameLimitItself(w: World, w1: World, p: nat)
    requires w1.vars == w.vars
    ensures SameLimit(w, w1, p)
  {
  }

  lemma CounterParts(w: World, at: Place, k: int)
    ensures var w1 := Logged(SetVar(w, at.inst, GwArrived(at.elem), Num(k)), Arrive(at));
            && w1.insts == w.insts && w1.acts == w.acts && w1.next == w.next && w1.toks == w.toks
                && SameLimit(w, w1, at.inst)
            && var w2 := Logged(DelVars(DropAll(w1, at), at.inst, {GwArrived(at.elem)}), Follow(at));
               w2.insts == w.insts && w2.acts == w.acts && w2.next == w.next && w2.toks == w.toks[at := 0]
                   && SameLimit(w, w2, at.inst)
  {
  }

  lemma ParkLighter(env: Env, w: World, w1: World, p: nat, def: Definition, wt: Weight, e: string)
    requires Root(env, w, p, def) && w1.insts == w.insts && w1.acts == w.acts && w1.next == w.next
        && w1.toks == w.toks && SameLimit(w, w1, p)
    ensures Lighter(env, w, p, def, wt, Nav(p, e), Go(w1, []))
  {
    hide Sum, Bag;
  }

  lemma NavLighter(env: Env, w: World, p: nat, def: Definition, wt: Weight, e: string)
    requires Root(env, w, p, def) && Stepwise(def) && Weighted(def, wt)
    ensures Lighter(env, w, p, def, wt, Nav(p, e), NavStep(env, w, p, e))
  {
    hide Load, FlowsFrom, Weighted, Lighter, ParallelStep, InclusiveStep, ExclusiveStep, FanIn, Leave;
    if w.insts[p].state != Running {
      StillLighter(env, w, p, def, wt, Nav(p, e));
    } else if e in def.elements {
      match def.elements[e].Kind()
      case EndKind => EndLighter(env, w, p, def, wt, e);
      case ExclusiveKind => ExclusiveLighter(env, w, p, def, wt, e, def.elements[e].defaultFlow);
      case InclusiveKind => InclusiveLighter(env, w, p, def, wt, e, def.elements[e].defaultFlow);
      case ParallelKind => ParallelLighter(env, w, p, def, wt, e, FanIn(def, e));
      case _ => LeaveLighter(env, w, p, def, wt, e);
    } else {
      StuckLighter(env, w, p, def, wt, Nav(p, e));
    }
  }

  lemma StuckLighter(env: Env, w: World, p: nat, def: Definition, wt: Weight, job: Job)
    ensures Lighter(env, w, p, def, wt, job, Stuck(w))
  {
  }

  lemma StillLighter(env: Env, w: World, p: nat, def: Definition, wt: Weight, job: Job)
    requires Root(env, w, p, def)
    ensures Lighter(env, w, p, def, wt, job, Go(w, []))
  {
    hide Load;
  }

  lemma EndLighter(env: Env, w: World, p: nat, def: Definition, wt: Weight, e: string)
    requires Root(env, w, p, def) && Weighted(def, wt) && e in def.elements && def.elements[e].EndEvent?
    ensures Lighter(env, w, p, def, wt, Nav(p, e), Go(DropAll(w, Place(p, e)), [Check(p)]))
  {
    hide Load, FlowsFrom, Weighted, FlowsWeight;
    WeightHas(def, wt, e);
    NoFlows(wt);
    GateLighter(env, w, DropAll(w, Place(p, e)), p, def, wt, e, [], [Check(p)]);
  }

  lemma NoFlows(wt: Weight)
    ensures FlowsWeight([], wt) == 0
  {
  }

  // Entering an element adds its weight, as an open activity, as a gateway token, or still to be run.
  lemma EnteringIsLighter(w: World, w1: World, p: nat, def: Definition, wt: Weight, f: Flow, jobs: seq<Job>)
    requires || (Opens(w1) == Opens(w) + multiset{Place(p, f.target)}
        && w1.toks == w.toks + multiset{Place(p, f.target)} && !Gate(def, f.target) && jobs == [])
             || (Opens(w1) == Opens(w) && w1.toks == w.toks && jobs == [Nav(p, f.target)])
             || (Opens(w1) == Opens(w) && w1.toks == w.toks + multiset{Place(p, f.target)} && Gate(def, f.target)
                 && jobs == [Nav(p, f.target)])
    ensures Load(w1, p, def, wt) + AgendaLoad(w1, def, wt, jobs) <= Load(w, p, def, wt) + JobLoad(w, def, wt,
        Take(p, f))
  {
    hide Sum, Opens;
    SumAdd(Opens(w), OpenWeight(p, wt), Place(p, f.target));
    SumAdd(w.toks, GateWeight(p, def, wt), Place(p, f.target));
  }

  lemma EnterTaskLighter(env: Env, w: World, p: nat, def: Definition, wt: Weight, f: Flow)
    requires Root(env, w, p, def) && TaskAt(def, f.target)
    ensures Lighter(env, w, p, def, wt, Take(p, f),
        Go(EnterTask(env, w, Place(p, f.target), def.elements[f.target]), []))
  {
    hide Load, Opens, Touches, AgendaLoad, EnterTask, SameLimit, Count;
    var at := Place(p, f.target);
    var w1 := EnterTask(env, w, at, def.elements[f.target]);
    EnterTaskTouches(env, w, at, def.elements[f.target]);
    EnterTaskParts(env, w, at, def.elements[f.target]);
    TouchedOpens(w, w1, at);
    EnteringIsLighter(w, w1, p, def, wt, f, []);
  }

  lemma TouchedOpens(w: World, w1: World, at: Place)
    requires Touches(w, w1, at) && Opens(w1)[at] == Opens(w)[at] + 1
    ensures Opens(w1) == Opens(w) + multiset{at} && Bounded(w1) && w1.insts == w.insts
  {
    hide Opens, Count, Arrived;
  }

  lemma EnterTaskParts(env: Env, w: World, at: Place, el: Element)
    requires el.UserTask?
    ensures var w1 := EnterTask(env, w, at, el); w1.toks == w.toks + multiset{at} && SameLimit(w, w1, at.inst)
  {
    hide Texts, Rendered;
  }

  lemma TakeLighter(env: Env, w: World, p: nat, def: Definition, wt: Weight, f: Flow)
    requires Root(env, w, p, def) && Stepwise(def) && Weighted(def, wt)
    ensures Lighter(env, w, p, def, wt, Take(p, f), TakeStep(env, w, p, f))
  {
    hide Load, FlowsFrom, Weighted, Lighter, EnterTask, Bounded, AddDone, AddTok, Proceed;
    if f.target in def.elements {
      match def.elements[f.target].Kind()
      case UserKind => EnterTaskLighter(env, w, p, def, wt, f);
      case StartKind => StuckLighter(env, w, p, def, wt, Take(p, f));
      case BoundaryKind => StuckLighter(env, w, p, def, wt, Take(p, f));
      case ServiceKind => DoneLighter(env, w, p, def, wt, f, ServiceKind);
      case EndKind => DoneLighter(env, w, p, def, wt, f, EndKind);
      case ThrowKind => ThrowLighter(env, w, p, def, wt, f);
      case CatchKind => CatchLighter(env, w, p, def, wt, f);
      case _ => TokenLighter(env, w, p, def, wt, f);
    } else {
      StuckLighter(env, w, p, def, wt, Take(p, f));
    }
  }

  // A throw event goes on at once.
  lemma ThrowLighter(env: Env, w: World, p: nat, def: Definition, wt: Weight, f: Flow)
    requires Root(env, w, p, def) && Weighted(def, wt)
    ensures var at := Place(p, f.target);
            Lighter(env, w, p, def, wt, Take(p, f),
                    Proceed(AddDone(w, at, ThrowKind), at, FlowsFrom(def.flows, f.target)))
  {
    hide Sum, Opens, FlowsWeight, FlowsFrom, Takes, Weighted, AddDone, Touches, Count;
    var at := Place(p, f.target);
    var out := FlowsFrom(def.flows, f.target);
    var w0 := AddDone(w, at, ThrowKind);
    var s := Proceed(w0, at, out);
    AddDoneTouches(w, at, ThrowKind);
    DoneParts(w, at, ThrowKind);
    SameActs(w0, s.w);
    WeightHas(def, wt, f.target);
    FlowsLoad(s.w, p, def, wt, out);
  }

  lemma DoneParts(w: World, at: Place, kind: Kind)
    ensures var w1 := AddDone(w, at, kind); w1.insts == w.insts && w1.vars == w.vars && (Bounded(w) ==> Bounded(w1))
  {
  }

  // A catch event holds the token.
  lemma CatchLighter(env: Env, w: World, p: nat, def: Definition, wt: Weight, f: Flow)
    requires Root(env, w, p, def) && f.target in def.elements && def.elements[f.target].CatchEvent?
    ensures Lighter(env, w, p, def, wt, Take(p, f), Go(AddTok(w, Place(p, f.target)), []))
  {
    hide Sum, Bag;
    SumAdd(w.toks, GateWeight(p, def, wt), Place(p, f.target));
  }

  lemma DoneLighter(env: Env, w: World, p: nat, def: Definition, wt: Weight, f: Flow, kind: Kind)
    requires Root(env, w, p, def)
    ensures Lighter(env, w, p, def, wt, Take(p, f), Go(AddDone(w, Place(p, f.target), kind), [Nav(p, f.target)]))
  {
    hide Load, Opens, Count;
    AddDoneTouches(w, Place(p, f.target), kind);
    EnteringIsLighter(w, AddDone(w, Place(p, f.target), kind), p, def, wt, f, [Nav(p, f.target)]);
  }

  lemma TokenLighter(env: Env, w: World, p: nat, def: Definition, wt: Weight, f: Flow)
    requires Root(env, w, p, def) && Gate(def, f.target)
    ensures Lighter(env, w, p, def, wt, Take(p, f), Go(AddTok(w, Place(p, f.target)), [Nav(p, f.target)]))
  {
    hide Load, Bag;
    EnteringIsLighter(w, AddTok(w, Place(p, f.target)), p, def, wt, f, [Nav(p, f.target)]);
  }

  lemma CheckLighter(env: Env, w: World, p: nat, def: Definition, wt: Weight)
    requires Root(env, w, p, def)
    ensures Lighter(env, w, p, def, wt, Check(p), CheckStep(w, p))
  {
    hide Sum, Bag, HasToken;
  }

  lemma StepLighter(env: Env, w: World, p: nat, def: Definition, wt: Weight, job: Job)
    requires Root(env, w, p, def) && Stepwise(def) && Weighted(def, wt) && job.inst == p
    ensures Lighter(env, w, p, def, wt, job, StepJob(env, w, job))
  {
    hide Root, Stepwise, Weighted, Lighter, NavStep, TakeStep, CheckStep;
    match job
    case Nav(_, e) => NavLighter(env, w, p, def, wt, e);
    case Take(_, f) => TakeLighter(env, w, p, def, wt, f);
    case Check(_) => CheckLighter(env, w, p, def, wt);
  }

  // A whole navigation adds no load.
  lemma {:induction false} NavigationIsLighter(env: Env, w: World, p: nat, def: Definition, wt: Weight,
      agenda: seq<Job>, n: nat)
    requires Root(env, w, p, def) && Stepwise(def) && Weighted(def, wt) && Lined(p, agenda)
        && Exec(env, w, agenda, n).Ended?
    ensures var w1 := Exec(env, w, agenda, n).w;
            Root(env, w1, p, def) && SameLimit(w, w1, p)
                && Load(w1, p, def, wt) <= Load(w, p, def, wt) + AgendaLoad(w, def, wt, agenda)
    decreases n
  {
    hide Root, Stepwise, Weighted, StepJob, Load, JobLoad;
    if agenda != [] {
      var s := StepJob(env, w, agenda[0]);
      StepLighter(env, w, p, def, wt, agenda[0]);
      AgendaLoadAppend(s.w, p, def, wt, s.jobs, agenda[1..]);
      LinedAppend(p, s.jobs, agenda[1..]);
      NavigationIsLighter(env, s.w, p, def, wt, s.jobs + agenda[1..], n - 1);
    }
  }

  lemma LinedAppend(p: nat, jobs: seq<Job>, rest: seq<Job>)
    requires Lined(p, jobs) && AllTakes(p, rest)
    ensures Lined(p, jobs + rest)
  {
    if jobs == [] {
      assert jobs + rest == rest;
    } else {
      assert (jobs + rest)[1..] == jobs[1..] + rest;
    }
  }

  // ---- Signs and delegated tasks ----

  // An open activity of p that signs for another, or is delegated: completing it need not move anything on.
  ghost predicate Special(w: World, p: nat, a: nat) {
    && a in w.acts && w.acts[a].at.inst == p && w.acts[a].state != Done
    && (w.acts[a].adhoc.Some? || DelegateTo(a) in VarsOf(w, p))
  }

  ghost function Specials(w: World, p: nat): set<nat> {
    set a | a in w.acts && Special(w, p, a)
  }

  // Only activities that exist have been delegated.
  ghost predicate NamesOld(w: World, p: nat) {
    forall a: nat :: DelegateTo(a) in VarsOf(w, p) ==> a < w.next
  }

  // Activities are completed, and new ones are neither signs nor delegated.
  ghost predicate Fewer(w: World, w1: World, p: nat) {
    && w.next <= w1.next
    && (forall a :: DelegateTo(a) in VarsOf(w1, p) ==> DelegateTo(a) in VarsOf(w, p))
    && (forall a :: a in w1.acts && a in w.acts ==>
          && w1.acts[a].at == w.acts[a].at && w1.acts[a].adhoc == w.acts[a].adhoc
          && (w.acts[a].state == Done ==> w1.acts[a].state == Done))
    && (forall a :: a in w1.acts && a !in w.acts ==> w.next <= a && w1.acts[a].adhoc.None?)
  }

  lemma FewerSpecials(w: World, w1: World, p: nat)
    requires Fewer(w, w1, p) && NamesOld(w, p)
    ensures Specials(w1, p) <= Specials(w, p) && NamesOld(w1, p)
  {
    hide VarsOf;
  }

  lemma FewerTransitive(w: World, w1: World, w2: World, p: nat)
    requires Fewer(w, w1, p) && Fewer(w1, w2, p) && w.acts.Keys <= w1.acts.Keys
    ensures Fewer(w, w2, p)
  {
    hide VarsOf;
  }

  lemma StepFewer(env: Env, w: World, job: Job, p: nat)
    requires Bounded(w) && p in w.insts && p != w.next
    ensures var w1 := StepJob(env, w, job).w; Fewer(w, w1, p) && w.acts.Keys <= w1.acts.Keys
  {
    hide StepJob, HasToken, Arrived, VarsOf, Returns;
    StepFrames(env, w, job);
    var w1 := StepJob(env, w, job).w;
    if !Near(w, w1, JobPlace(job)) && job.Check? {
      assert forall q :: VarsOf(w1, q) == VarsOf(w, q) by { SameVariables(w, w1); }
    }
  }

  lemma SameVariables(w: World, w1: World)
    requires w1.vars == w.vars
    ensures forall q :: VarsOf(w1, q) == VarsOf(w, q)
  {
  }

  // A whole navigation leaves no more of them.
  lemma {:induction false} NavigationFewer(env: Env, w: World, agenda: seq<Job>, p: nat, n: nat)
    requires Wf(w) && JobsOk(w, agenda) && p in w.insts && Exec(env, w, agenda, n).Ended?
    ensures var w1 := Exec(env, w, agenda, n).w; Fewer(w, w1, p) && w.acts.Keys <= w1.acts.Keys
    decreases n
  {
    hide Wf, StepJob, JobOk, Fewer;
    SelfFewer(w, p);
    if agenda != [] {
      var s := StepJob(env, w, agenda[0]);
      WfIds(w, p);
      StepFewer(env, w, agenda[0], p);
      StepDrifts(env, w, agenda[0]);
      JobsOkLater(w, s.w, s.jobs, agenda[1..]);
      NavigationFewer(env, s.w, s.jobs + agenda[1..], p, n - 1);
      FewerTransitive(w, s.w, Exec(env, w, agenda, n).w, p);
    }
  }

  lemma SelfFewer(w: World, p: nat)
    ensures Fewer(w, w, p)
  {
  }

  // ---- One operation ----

  function Rejections(w: World, p: nat): int {
    NumAt(VarsOf(w, p), RejectionCount)
  }

  // How often p may be rejected: as often as configured, if that is positive, and otherwise five times.
  function Limit(w: World, p: nat): int {
    if NumAt(VarsOf(w, p), MaxRejection) > 0 then NumAt(VarsOf(w, p), MaxRejection) else 5
  }

  lemma LimitIs(w: World, p: nat)
    ensures RejectLimit(VarsOf(w, p)) == Limit(w, p)
  {
  }

  // Completing or rejecting a task of p.
  ghost predicate Ordinary(w: World, p: nat, op: Op) {
    match op
    case Complete(a, vars) => CallerVars(vars) && a in w.acts && w.acts[a].at.inst == p
    case Reject(a, _, _, _) => a in w.acts && w.acts[a].at.inst == p
    case _ => false
  }

  // What is still to be done: the load, and for each sign and delegated task more than any element weighs.
  ghost function Toil(w: World, p: nat, def: Definition, wt: Weight): nat {
    Load(w, p, def, wt) + (MaxWeight(def.flows, wt) + 1) * |Specials(w, p)|
  }

  // A completion takes toil off; a rejection is counted, and only below the limit, and adds at most what the
  // target weighs, twice if it is a gateway.
  ghost predicate Descends(w: World, w1: World, p: nat, def: Definition, wt: Weight) {
    && Limit(w1, p) == Limit(w, p)
    && (|| (Rejections(w1, p) == Rejections(w, p) && Toil(w1, p, def, wt) < Toil(w, p, def, wt))
        || (Rejections(w1, p) == Rejections(w, p) + 1 && Rejections(w, p) < Limit(w, p)
            && Toil(w1, p, def, wt) <= Toil(w, p, def, wt) + 2 * MaxWeight(def.flows, wt)))
  }

  // The state of p between operations: a root instance, of which only existing activities are delegated.
  ghost predicate Ready(env: Env, w: World, p: nat, def: Definition) {
    Root(env, w, p, def) && Wf(w) && NamesOld(w, p)
  }

  // One activity of p fewer, and no more tokens than before.
  lemma FinishedLoad(w: World, w1: World, p: nat, def: Definition, wt: Weight, at: Place)
    requires at in Opens(w) && at.inst == p && Opens(w1) == Opens(w) - multiset{at} && w1.toks <= w.toks
    ensures Load(w1, p, def, wt) + wt(at.elem) <= Load(w, p, def, wt)
  {
    hide Sum, Opens;
    SumRemove(Opens(w), OpenWeight(p, wt), at);
    SumLess(w.toks, w1.toks, GateWeight(p, def, wt));
  }

  lemma MergeLimit(w: World, w1: World, p: nat, vars: Vars)
    requires CallerVars(vars) && w1.vars == MergeVars(w, p, vars).vars
    ensures SameLimit(w, w1, p)
  {
  }

  lemma FinishedOpens(w: World, w1: World, a: nat)
    requires a in w.acts && w.acts[a].state == Active && w1.acts == FinishOne(w, a).acts
    ensures w.acts[a].at in Opens(w) && Opens(w1) == Opens(w) - multiset{w.acts[a].at}
  {
    hide Opens, FinishOne;
    OpensFinish(w, a);
    OpensHere(w, a);
    SameActs(FinishOne(w, a), w1);
  }

  lemma RootLater(env: Env, w: World, w1: World, p: nat, def: Definition)
    requires Root(env, w, p, def) && w1.acts.Keys == w.acts.Keys && w1.next == w.next
    requires p in w1.insts && w1.insts[p].def == w.insts[p].def && w1.insts[p].parent == w.insts[p].parent
    ensures Root(env, w1, p, def)
  {
  }

  lemma FinishFewer(w: World, w1: World, p: nat, a: nat, vars: Vars)
    requires a in w.acts && CallerVars(vars) && w1.vars == MergeVars(w, p, vars).vars
    requires w1.acts == FinishOne(w, a).acts && w1.next == w.next
    ensures Fewer(w, w1, p) && a in w1.acts && w1.acts[a].state == Done && w1.acts.Keys == w.acts.Keys
  {
  }

  // ---- Completing a task ----

  // What the submission of a completion changes.
  lemma SubmittedLoad(w: World, p: nat, def: Definition, wt: Weight, a: nat, vars: Vars)
    requires a in w.acts && w.acts[a].state == Active && w.acts[a].at.inst == p && p in w.insts && CallerVars(vars)
    ensures var w1 := Submit(FinishOne(w, a), p, vars);
            && Load(w1, p, def, wt) + wt(w.acts[a].at.elem) <= Load(w, p, def, wt)
            && SameLimit(w, w1, p) && Fewer(w, w1, p) && w1.acts.Keys == w.acts.Keys && w1.next == w.next
            && a in w1.acts && w1.acts[a].state == Done && w1.toks == w.toks && w1.insts.Keys == w.insts.Keys
            && w1.insts[p].def == w.insts[p].def && w1.insts[p].parent == w.insts[p].parent
  {
    hide FinishOne, MergeVars, Load, Opens, SameLimit, Fewer;
    var w1 := Submit(FinishOne(w, a), p, vars);
    FinishOneKeeps(w, a);
    MergeParts(w, FinishOne(w, a), p, vars);
    MergeLimit(w, w1, p, vars);
    FinishFewer(w, w1, p, a, vars);
    FinishedOpens(w, w1, a);
    FinishedLoad(w, w1, p, def, wt, w.acts[a].at);
  }

  // Taking tokens away makes it lighter.
  lemma DropLoad(w: World, w1: World, p: nat, def: Definition, wt: Weight)
    requires w1.acts == w.acts && w1.toks <= w.toks
    ensures Load(w1, p, def, wt) <= Load(w, p, def, wt)
  {
    hide Sum, Bag;
    SumLess(w.toks, w1.toks, GateWeight(p, def, wt));
  }

  lemma Smaller(s: set<nat>, s1: set<nat>, a: nat)
    requires s1 <= s
    ensures |s1| <= |s| && (a in s && a !in s1 ==> |s1| < |s|)
  {
    assert s == s1 + (s - s1);
  }

  lemma {:induction false} Scaled(m: nat, k: nat, k1: nat)
    requires k1 <= k
    ensures m * k1 <= m * k && (k1 < k ==> m * k1 + m <= m * k)
    decreases k
  {
    if k1 < k {
      assert m * k == m * (k - 1) + m;
      Scaled(m, k - 1, k1);
    }
  }

  // Less load, and no more signs and delegated tasks; or one of these fewer, for at most what an element weighs.
  lemma ToilLess(w: World, w1: World, p: nat, def: Definition, wt: Weight, a: nat)
    requires Specials(w1, p) <= Specials(w, p)
    requires || Load(w1, p, def, wt) < Load(w, p, def, wt)
             || (a in Specials(w, p) && a !in Specials(w1, p)
                 && Load(w1, p, def, wt) <= Load(w, p, def, wt) + MaxWeight(def.flows, wt))
    ensures Toil(w1, p, def, wt) < Toil(w, p, def, wt)
  {
    hide Load, Specials, MaxWeight;
    Smaller(Specials(w, p), Specials(w1, p), a);
    Scaled(MaxWeight(def.flows, wt) + 1, |Specials(w, p)|, |Specials(w1, p)|);
  }

  // What is left for a navigation once the operation is prepared, and what it has changed so far.
  ghost predicate Prepared(env: Env, w: World, s: Step, p: nat, def: Definition, a: nat)
    requires a in w.acts
  {
    && s.Go? && SameLimit(w, s.w, p) && Root(env, s.w, p, def) && Lined(p, s.jobs)
    && Fewer(w, s.w, p) && a in s.w.acts && s.w.acts[a].state == Done
  }

  lemma PreparedDescends(env: Env, w: World, s: Step, p: nat, def: Definition, wt: Weight, a: nat, n: nat)
    requires Ready(env, w, p, def) && Stepwise(def) && Weighted(def, wt) && a in w.acts && Wf(s.w) && NavsOnly(s)
    requires Prepared(env, w, s, p, def, a) && Finish(env, s, n).Ended? && w.acts.Keys <= s.w.acts.Keys
    requires var load := Load(s.w, p, def, wt) + AgendaLoad(s.w, def, wt, s.jobs);
             || load < Load(w, p, def, wt)
             || (a in Specials(w, p) && load <= Load(w, p, def, wt) + MaxWeight(def.flows, wt))
    ensures var w1 := Finish(env, s, n).w;
            && Ready(env, w1, p, def) && Descends(w, w1, p, def, wt)
            && Load(w1, p, def, wt) <= Load(s.w, p, def, wt) + AgendaLoad(s.w, def, wt, s.jobs)
  {
    hide Stepwise, Weighted, Load, AgendaLoad, Exec, Specials, Wf, Fewer, Lined, NamesOld, VarsOf, NumAt, MaxWeight,
        Toil, Root;
    RootInst(env, s.w, p, def);
    NavsOk(s.w, s.jobs);
    NavigationIsLighter(env, s.w, p, def, wt, s.jobs, n);
    NavigationFewer(env, s.w, s.jobs, p, n);
    ExecDrifts(env, s.w, s.jobs, n);
    var w1 := Finish(env, s, n).w;
    FewerTransitive(w, s.w, w1, p);
    FewerSpecials(w, w1, p);
    DoneStays(s.w, w1, p, a);
    ToilLess(w, w1, p, def, wt, a);
  }

  lemma RootInst(env: Env, w: World, p: nat, def: Definition)
    requires Root(env, w, p, def)
    ensures p in w.insts
  {
  }

  lemma DoneStays(w: World, w1: World, p: nat, a: nat)
    requires Fewer(w, w1, p) && w.acts.Keys <= w1.acts.Keys && a in w.acts && w.acts[a].state == Done
    ensures a !in Specials(w1, p)
  {
    hide VarsOf;
  }

  // A task whose token moves on, or that waits for its open signs.
  lemma PlainDescends(env: Env, w: World, p: nat, def: Definition, wt: Weight, a: nat, vars: Vars, n: nat)
    requires Ready(env, w, p, def) && Stepwise(def) && Weighted(def, wt) && Ordinary(w, p, Complete(a, vars))
    requires w.acts[a].adhoc.None? && !DelegatedTask(env, w, a) && Apply(env, w, Complete(a, vars), n).Ended?
    ensures var w1 := Apply(env, w, Complete(a, vars), n).w;
            && Ready(env, w1, p, def) && Descends(w, w1, p, def, wt)
            && Load(w1, p, def, wt) < Load(w, p, def, wt)
  {
    hide Stepwise, Weighted, PrepComplete, Load, Exec, Wf, Fewer, NamesOld, Submit, FinishOne, FlowsWeight, FlowsFrom,
        DelegatedTask, SameLimit, Descends, Specials;
    var s := PrepComplete(env, w, a, vars);
    CompleteDrifts(env, w, a, vars);
    PlainParts(env, w, p, a, vars);
    SubmittedLoad(w, p, def, wt, a, vars);
    var w2 := Submit(FinishOne(w, a), p, vars);
    DropLoad(w2, s.w, p, def, wt);
    SameFewer(w, w2, s.w, p);
    RootLater(env, w, s.w, p, def);
    WeightHas(def, wt, w.acts[a].at.elem);
    PlainLoad(s.w, p, def, wt, w.acts[a].at.elem, s.jobs);
    PreparedDescends(env, w, s, p, def, wt, a, n);
  }

  lemma PlainParts(env: Env, w: World, p: nat, a: nat, vars: Vars)
    requires Ordinary(w, p, Complete(a, vars)) && PrepComplete(env, w, a, vars).Go?
    requires w.acts[a].adhoc.None? && !DelegatedTask(env, w, a)
    ensures var s := PrepComplete(env, w, a, vars);
            && w.acts[a].state == Active && p in w.insts
            && var w2 := Submit(FinishOne(w, a), p, vars);
               && (s.jobs == [] || s.jobs == [Nav(p, w.acts[a].at.elem)])
               && s.w.acts == w2.acts && s.w.next == w2.next && s.w.toks <= w2.toks && s.w.vars == w2.vars
               && s.w.insts == w2.insts
  {
    hide FinishOne, MergeVars, ReturnToOwner;
    FinishOneKeeps(w, a);
    MergeParts(w, FinishOne(w, a), p, vars);
    FinishedAct(w, a);
    var w2 := Submit(FinishOne(w, a), p, vars);
    SignsLater(w, w2, p, a);
    if !Delegated(env, w, a) { NotDelegated(env, w, DropOne(w2, w.acts[a].at), p, a, vars); }
  }

  lemma SignsLater(w: World, w1: World, p: nat, a: nat)
    requires a in w.acts && w.acts[a].adhoc.None? && w1.acts == FinishOne(w, a).acts
    ensures ActiveSigns(w1, p, a) == ActiveSigns(w, p, a)
  {
  }

  lemma FinishedAct(w: World, a: nat)
    requires a in w.acts
    ensures a in FinishOne(w, a).acts && FinishOne(w, a).acts[a] == w.acts[a].(state := Done, stamp := w.clock)
  {
  }

  lemma NotDelegated(env: Env, w: World, w1: World, p: nat, a: nat, vars: Vars)
    requires a in w.acts && w.acts[a].at.inst == p && a in w1.acts && w1.acts[a].at == w.acts[a].at && CallerVars(vars)
    requires w1.vars == MergeVars(w, p, vars).vars && p in w.insts && p in w1.insts && w1.insts[p].def == w.insts[p].def
    requires !Delegated(env, w, a)
    ensures !Delegated(env, w1, a)
  {
  }

  lemma SameFewer(w: World, w1: World, w2: World, p: nat)
    requires Fewer(w, w1, p) && SameLimit(w, w1, p) && w2.acts == w1.acts && w2.next == w1.next && w2.vars == w1.vars
    ensures Fewer(w, w2, p) && SameLimit(w, w2, p)
  {
  }

  lemma PlainLoad(w: World, p: nat, def: Definition, wt: Weight, e: string, jobs: seq<Job>)
    requires wt(e) >= 1 && (jobs == [] || jobs == [Nav(p, e)])
    ensures AgendaLoad(w, def, wt, jobs) + 1 <= wt(e) && Lined(p, jobs)
  {
  }

  // A delegated task comes back: the load stays, or grows by a token at a gateway that had none, but one
  // delegation has been used up.
  lemma ReturnDescends(env: Env, w: World, p: nat, def: Definition, wt: Weight, a: nat, vars: Vars, n: nat)
    requires Ready(env, w, p, def) && Weighted(def, wt) && Ordinary(w, p, Complete(a, vars)) && DelegatedTask(env, w, a)
    requires Apply(env, w, Complete(a, vars), n).Ended?
    ensures var w1 := Apply(env, w, Complete(a, vars), n).w;
            && Ready(env, w1, p, def) && Descends(w, w1, p, def, wt)
            && Load(w1, p, def, wt) >= Load(w, p, def, wt)
  {
    hide Weighted, PrepComplete, Load, Exec, Wf, Fewer, NamesOld, Submit, FinishOne, Specials, Opens, Toil, MaxWeight,
        DelegatedTask, ReturnToOwner, Delegated, VarsOf, NumAt, Owner, Moved;
    var at := w.acts[a].at;
    ReturnPrep(env, w, a, vars);
    ReturnTaskActive(env, w, a);
    SubmitParts(w, p, a, vars);
    DelegationReturns(env, w, a, vars, n);
    var w2 := DropOne(Submit(FinishOne(w, a), p, vars), at);
    var w1 := ReturnToOwner(env, w2, a);
    ExecNone(env, w1, n);
    CompleteDrifts(env, w, a, vars);
    DriftsRoot(env, w, w1, p, def);
    ReturnedLoad(w, w1, p, def, wt, at);
    ReturnedFewer(env, w, p, a, vars);
    FewerSpecials(w, w1, p);
    ToilLess(w, w1, p, def, wt, a);
  }

  lemma DriftsRoot(env: Env, w: World, w1: World, p: nat, def: Definition)
    requires Root(env, w, p, def) && Drifts(w, w1) && Wf(w1)
    ensures Root(env, w1, p, def)
  {
  }

  lemma ReturnedLoad(w: World, w1: World, p: nat, def: Definition, wt: Weight, at: Place)
    requires Moved(w, w1, at, at) && Weighted(def, wt)
    ensures Load(w, p, def, wt) <= Load(w1, p, def, wt) <= Load(w, p, def, wt) + MaxWeight(def.flows, wt)
  {
    hide Sum, Opens, Weighted, MaxWeight;
    assert Opens(w1) == Opens(w);
    SumLess(w1.toks, w.toks, GateWeight(p, def, wt));
    assert w1.toks <= w.toks + multiset{at};
    SumLess(w.toks + multiset{at}, w1.toks, GateWeight(p, def, wt));
    SumAdd(w.toks, GateWeight(p, def, wt), at);
    MaxBounds(def, wt, at.elem);
  }

  lemma ReturnedFewer(env: Env, w: World, p: nat, a: nat, vars: Vars)
    requires DelegatedTask(env, w, a) && w.acts[a].at.inst == p && CallerVars(vars) && Bounded(w) && p in w.insts
    ensures var at := w.acts[a].at;
            var w2 := DropOne(Submit(FinishOne(w, a), p, vars), at);
            && Delegated(env, w2, a)
            && var w1 := ReturnToOwner(env, w2, a);
               Fewer(w, w1, p) && SameLimit(w, w1, p) && a in Specials(w, p) && a !in Specials(w1, p)
  {
    hide FinishOne, ReturnToOwner, ActiveSigns, Owner, MergeVars;
    var at := w.acts[a].at;
    var w2 := DropOne(Submit(FinishOne(w, a), p, vars), at);
    FinishOneKeeps(w, a);
    MergeParts(w, FinishOne(w, a), p, vars);
    SubmitParts(w, p, a, vars);
    Moves.ReturnParts(env, w, a, vars);
    ReturnVars(env, w2, a);
    var w1 := ReturnToOwner(env, w2, a);
    assert w1.acts == AddAct(FinishOne(w, a), NewAct(at, UserKind, Owner(env, w, a, vars))).acts;
    NoteReturn(w, w2, w1, p, a, vars);
    ReturnedActs(w, w1, p, a, NewAct(at, UserKind, Owner(env, w, a, vars)));
    DelegatedSpecial(env, w, p, a);
  }

  lemma NoteReturn(w: World, w2: World, w1: World, p: nat, a: nat, vars: Vars)
    requires CallerVars(vars) && w2.vars == MergeVars(w, p, vars).vars
    requires w1.vars == SetVar(w2, p, DelegateReturn(a), Flag(true)).vars
    ensures SameLimit(w, w1, p) && forall b :: DelegateTo(b) in VarsOf(w1, p) <==> DelegateTo(b) in VarsOf(w, p)
  {
  }

  lemma ReturnedActs(w: World, w1: World, p: nat, a: nat, b: Act)
    requires a in w.acts && Bounded(w) && b.adhoc.None? && w1.acts == AddAct(FinishOne(w, a), b).acts
    requires w.next <= w1.next && forall c :: DelegateTo(c) in VarsOf(w1, p) <==> DelegateTo(c) in VarsOf(w, p)
    ensures Fewer(w, w1, p) && a !in Specials(w1, p)
  {
    hide VarsOf;
  }

  lemma DelegatedSpecial(env: Env, w: World, p: nat, a: nat)
    requires DelegatedTask(env, w, a) && w.acts[a].at.inst == p
    ensures a in Specials(w, p)
  {
  }

  // ---- Answering a sign ----

  // What answering a sign may change besides the activity itself: other signs are finished, tokens at the task
  // are taken away and, if it moves on, one is put there.
  ghost predicate Answered(w: World, s: Step, p: nat, e: string) {
    && s.Go? && s.w.next == w.next && s.w.insts == w.insts && s.w.acts.Keys == w.acts.Keys
    && Fewer(w, s.w, p) && SameLimit(w, s.w, p)
    && (forall a :: a in w.acts ==> Open(s.w.acts[a]) == Open(w.acts[a]) || s.w.acts[a].state == Done)
    && if s.jobs == [] then s.w.toks <= w.toks
       else
         && s.jobs == [Nav(p, e)] && Place(p, e) in s.w.toks && s.w.toks <= w.toks + multiset{Place(p, e)}
         && (Place(p, e) in w.toks ==> s.w.toks <= w.toks)
  }

  lemma AnsweredOpens(w: World, s: Step, p: nat, e: string)
    requires Answered(w, s, p, e)
    ensures Opens(s.w) <= Opens(w)
  {
    hide Fewer, SameLimit, Bag;
    forall x ensures Opens(s.w)[x] <= Opens(w)[x] { BagLess(w.acts, s.w.acts, Open, x); }
  }

  // Some activities are finished, in their places.
  ghost predicate SomeFinished(w: World, w1: World) {
    && w1.acts.Keys == w.acts.Keys
    && forall a :: a in w.acts ==>
         && w1.acts[a].at == w.acts[a].at && w1.acts[a].adhoc == w.acts[a].adhoc
         && (w1.acts[a] == w.acts[a] || w1.acts[a].state == Done)
  }

  lemma FinishSome(w: World, which: set<nat>)
    ensures var w1 := FinishAll(w, which);
            && SomeFinished(w, w1) && w1.toks == w.toks && w1.vars == w.vars && w1.insts == w.insts && w1.next == w.next
  {
  }

  lemma FinishedAnswers(w: World, w1: World, jobs: seq<Job>, p: nat, e: string)
    requires SomeFinished(w, w1) && w1.next == w.next && w1.insts == w.insts && SameLimit(w, w1, p)
    requires forall a :: DelegateTo(a) in VarsOf(w1, p) <==> DelegateTo(a) in VarsOf(w, p)
    requires var at := Place(p, e);
             if jobs == [] then w1.toks <= w.toks
             else
               && jobs == [Nav(p, e)] && at in w1.toks && w1.toks <= w.toks + multiset{at}
               && (at in w.toks ==> w1.toks <= w.toks)
    ensures Answered(w, Go(w1, jobs), p, e)
  {
    hide VarsOf;
  }

  lemma CloseAnswers(w: World, p: nat, parent: nat, id: nat)
    requires parent in w.acts
    ensures Answered(w, CloseSession(w, p, parent, id), p, w.acts[parent].at.elem)
  {
    hide ActiveSigns, SessionVars, DelVars, FinishAll, Answered, SomeFinished, SameLimit, VarsOf;
    var e := w.acts[parent].at.elem;
    var at := Place(p, e);
    var over := w.acts[parent].state == Done;
    var w1 := FinishAll(w, ActiveSigns(w, p, parent));
    FinishSome(w, ActiveSigns(w, p, parent));
    var keep := if over || w1.toks[at] == 0 then 0 else 1;
    var w2 := w1.(toks := w1.toks[at := keep]);
    var ks := SessionVars({id}, VarsOf(w1, p));
    var w3 := DelVars(w2, p, ks);
    DelVarsKeeps(w2, p, ks);
    DelVarsNext(w2, p, ks);
    SessionNotes(w, w2, p, id, VarsOf(w1, p));
    var s := CloseSession(w, p, parent, id);
    SomeFinishedLater(w, w1, s.w);
    SameNotes(w, w3, s.w, p);
    assert s.jobs == if over then [Nav(p, e)] else [];
    FinishedAnswers(w, s.w, s.jobs, p, e);
  }

  lemma SomeFinishedLater(w: World, w1: World, w2: World)
    requires SomeFinished(w, w1) && w2.acts == w1.acts
    ensures SomeFinished(w, w2)
  {
  }

  lemma SameNotes(w: World, w1: World, w2: World, p: nat)
    requires w2.vars == w1.vars && SameLimit(w, w1, p)
    requires forall a :: DelegateTo(a) in VarsOf(w1, p) <==> DelegateTo(a) in VarsOf(w, p)
    ensures SameLimit(w, w2, p) && forall a :: DelegateTo(a) in VarsOf(w2, p) <==> DelegateTo(a) in VarsOf(w, p)
  {
  }

  lemma SessionNotes(w: World, w2: World, p: nat, id: nat, vars: Vars)
    requires w2.vars == w.vars
    ensures var w3 := DelVars(w2, p, SessionVars({id}, vars));
            SameLimit(w, w3, p) && forall a :: DelegateTo(a) in VarsOf(w3, p) <==> DelegateTo(a) in VarsOf(w, p)
  {
  }

  lemma SignAnswers(env: Env, w: World, p: nat, parent: nat, approved: bool)
    requires Bounded(w) && SignDoneStep(env, w, p, parent, approved).Go?
    ensures parent in w.acts && Answered(w, SignDoneStep(env, w, p, parent, approved), p, w.acts[parent].at.elem)
  {
    hide CloseSession, Sessions, SessionOver, SetVar, NumAt, Pick, Answered;
    var vars := VarsOf(w, p);
    NothingAnswered(w, w, p, w.acts[parent].at.elem);
    if Sessions(vars, parent) != {} {
      var id := Pick(env, Sessions(vars, parent), w.clock);
      var done := NumAt(vars, SignVar(id, SignDone)) + 1;
      var approvals := NumAt(vars, SignVar(id, Approved)) + (if approved then 1 else 0);
      var w1 := SetVar(SetVar(w, p, SignVar(id, SignDone), Num(done)), p, SignVar(id, Approved), Num(approvals));
      CountNotes(w, p, id, done, approvals);
      NothingAnswered(w, w1, p, w.acts[parent].at.elem);
      CloseAnswers(w1, p, parent, id);
      AnswersLater(w, w1, CloseSession(w1, p, parent, id), p, w.acts[parent].at.elem);
    }
  }

  lemma CountNotes(w: World, p: nat, id: nat, done: int, approvals: int)
    ensures var w1 := SetVar(SetVar(w, p, SignVar(id, SignDone), Num(done)), p, SignVar(id, Approved), Num(approvals));
            && w1.acts == w.acts && w1.toks == w.toks && w1.next == w.next && w1.insts == w.insts && SameLimit(w, w1, p)
            && forall a :: DelegateTo(a) in VarsOf(w1, p) <==> DelegateTo(a) in VarsOf(w, p)
  {
  }

  // The answer has only been counted.
  lemma NothingAnswered(w: World, w1: World, p: nat, e: string)
    requires w1.acts == w.acts && w1.toks == w.toks && w1.next == w.next && w1.insts == w.insts && SameLimit(w, w1, p)
    requires forall a :: DelegateTo(a) in VarsOf(w1, p) <==> DelegateTo(a) in VarsOf(w, p)
    ensures Answered(w, Go(w1, []), p, e)
  {
    hide VarsOf;
  }

  lemma AnswersLater(w: World, w1: World, s: Step, p: nat, e: string)
    requires w1.acts == w.acts && w1.toks == w.toks && w1.next == w.next && w1.insts == w.insts && SameLimit(w, w1, p)
    requires forall a :: DelegateTo(a) in VarsOf(w1, p) <==> DelegateTo(a) in VarsOf(w, p)
    requires Answered(w1, s, p, e)
    ensures Answered(w, s, p, e)
  {
    hide VarsOf;
  }

  // The load of what is left, and of moving on: at most one element's weight more than before.
  lemma AnsweredLoad(w: World, s: Step, p: nat, def: Definition, wt: Weight, e: string)
    requires Answered(w, s, p, e) && Weighted(def, wt)
    ensures Load(s.w, p, def, wt) + AgendaLoad(s.w, def, wt, s.jobs) <= Load(w, p, def, wt) + MaxWeight(def.flows, wt)
    ensures (Gate(def, e) ==> Place(p, e) in w.toks) ==>
              Load(s.w, p, def, wt) + AgendaLoad(s.w, def, wt, s.jobs) + 1 <= Load(w, p, def, wt) + wt(e)
    ensures Lined(p, s.jobs)
  {
    hide Sum, Opens, Weighted, MaxWeight, FlowsFrom, FlowsWeight, Fewer, SameLimit;
    AnsweredOpens(w, s, p, e);
    SumLess(Opens(w), Opens(s.w), OpenWeight(p, wt));
    WeightHas(def, wt, e);
    MaxBounds(def, wt, e);
    var at := Place(p, e);
    if s.w.toks <= w.toks { SumLess(w.toks, s.w.toks, GateWeight(p, def, wt)); }
    if s.jobs != [] {
      SumLess(w.toks + multiset{at}, s.w.toks, GateWeight(p, def, wt));
      SumAdd(w.toks, GateWeight(p, def, wt), at);
    }
  }

  // A sign's answer: one sign fewer. When the task holds its token (which matters at a gateway only), the load
  // falls.
  lemma SignDescends(env: Env, w: World, p: nat, def: Definition, wt: Weight, a: nat, vars: Vars, n: nat)
    requires Ready(env, w, p, def) && Stepwise(def) && Weighted(def, wt) && Ordinary(w, p, Complete(a, vars))
    requires w.acts[a].adhoc.Some? && Apply(env, w, Complete(a, vars), n).Ended?
    ensures var w1 := Apply(env, w, Complete(a, vars), n).w;
            && Ready(env, w1, p, def) && Descends(w, w1, p, def, wt)
            && (SignsBeside(w) && (Gate(def, w.acts[a].at.elem) ==> w.acts[a].at in w.toks) ==>
                  Load(w1, p, def, wt) < Load(w, p, def, wt))
  {
    hide Stepwise, Weighted, Load, Exec, Wf, Fewer, NamesOld, Submit, FinishOne, Descends, Specials, SignDoneStep,
        Answered, AgendaLoad, SameLimit, MaxWeight, Bounded;
    var at := w.acts[a].at;
    var parent := w.acts[a].adhoc.value;
    var s := PrepComplete(env, w, a, vars);
    CompleteDrifts(env, w, a, vars);
    SubmittedLoad(w, p, def, wt, a, vars);
    var w2 := Submit(FinishOne(w, a), p, vars);
    SubmittedActs(w, p, a, vars);
    assert s == SignDoneStep(env, w2, p, parent, Approves(vars));
    SignAnswers(env, w2, p, parent, Approves(vars));
    var e := w2.acts[parent].at.elem;
    AnsweredLoad(w2, s, p, def, wt, e);
    AnsweredPrepared(env, w, w2, s, p, def, a, e);
    SpecialSign(w, p, a);
    PreparedDescends(env, w, s, p, def, wt, a, n);
    if SignsBeside(w) { assert e == at.elem; }
  }

  lemma SpecialSign(w: World, p: nat, a: nat)
    requires a in w.acts && w.acts[a].at.inst == p && w.acts[a].state != Done && w.acts[a].adhoc.Some?
    ensures a in Specials(w, p)
  {
  }

  lemma SubmittedActs(w: World, p: nat, a: nat, vars: Vars)
    requires a in w.acts && p in w.insts && Bounded(w)
    ensures var w1 := Submit(FinishOne(w, a), p, vars);
            && Bounded(w1) && w1.acts.Keys == w.acts.Keys
            && forall b :: b in w.acts ==> w1.acts[b].at == w.acts[b].at && w1.acts[b].adhoc == w.acts[b].adhoc
  {
  }

  lemma AnsweredPrepared(env: Env, w: World, w2: World, s: Step, p: nat, def: Definition, a: nat, e: string)
    requires Root(env, w, p, def) && a in w.acts && Fewer(w, w2, p) && SameLimit(w, w2, p)
    requires w2.acts.Keys == w.acts.Keys && w2.next == w.next && a in w2.acts && w2.acts[a].state == Done
    requires p in w2.insts && w2.insts[p].def == w.insts[p].def && w2.insts[p].parent == w.insts[p].parent
    requires Answered(w2, s, p, e)
    ensures Prepared(env, w, s, p, def, a) && s.w.acts.Keys == w.acts.Keys
  {
    hide SameLimit, VarsOf;
    FewerTransitive(w, w2, s.w, p);
    hide Fewer;
    SameLimitTwice(w, w2, s.w, p);
  }

  lemma SameLimitTwice(w: World, w1: World, w2: World, p: nat)
    requires SameLimit(w, w1, p) && SameLimit(w1, w2, p)
    ensures SameLimit(w, w2, p)
  {
  }

  // ---- Which completions lower the load ----

  // Every completion of a task or sign of p descends. The load itself falls exactly when the task is not a
  // delegated one that comes back.
  lemma CompleteDescends(env: Env, w: World, p: nat, def: Definition, wt: Weight, a: nat, vars: Vars, n: nat)
    requires Ready(env, w, p, def) && Stepwise(def) && Weighted(def, wt) && Ordinary(w, p, Complete(a, vars))
    requires Apply(env, w, Complete(a, vars), n).Ended?
    ensures var w1 := Apply(env, w, Complete(a, vars), n).w;
            && Ready(env, w1, p, def) && Descends(w, w1, p, def, wt)
            && (SignsBeside(w) && (w.acts[a].adhoc.Some? && Gate(def, w.acts[a].at.elem) ==> w.acts[a].at in w.toks) ==>
                  (Load(w1, p, def, wt) < Load(w, p, def, wt) <==> !DelegatedTask(env, w, a)))
  {
    hide Ready, Stepwise, Weighted, Load, Apply, Descends, Delegated, ActiveSigns, SignsBeside;
    if w.acts[a].adhoc.Some? {
      SignDescends(env, w, p, def, wt, a, vars, n);
    } else if DelegatedTask(env, w, a) {
      ReturnDescends(env, w, p, def, wt, a, vars, n);
    } else {
      PlainDescends(env, w, p, def, wt, a, vars, n);
    }
  }

  // ---- Rejecting a task ----

  // A task moved elsewhere.
  lemma MovedLoad(w: World, w1: World, p: nat, def: Definition, wt: Weight, from: Place, to: Place)
    requires Weighted(def, wt) && Moved(w, w1, from, to) && from.inst == p
    ensures Load(w1, p, def, wt) <= Load(w, p, def, wt) + 2 * MaxWeight(def.flows, wt)
  {
    hide Opens, Weighted, MaxWeight, Sum;
    SumLess(Opens(w), Opens(w) - multiset{from}, OpenWeight(p, wt));
    SumLess(w.toks, w.toks - multiset{from}, GateWeight(p, def, wt));
    SumAdd(Opens(w) - multiset{from}, OpenWeight(p, wt), to);
    SumAdd(w.toks - multiset{from}, GateWeight(p, def, wt), to);
    MaxBounds(def, wt, to.elem);
  }

  lemma NotedParts(w: World, p: nat, a: nat, count: int, reason: string, initiator: bool)
    ensures var w1 := Noted(w, p, a, count, reason, initiator);
            && Rejections(w1, p) == count && Limit(w1, p) == Limit(w, p)
            && w1.acts == w.acts && w1.next == w.next
            && forall b :: DelegateTo(b) in VarsOf(w1, p) ==> DelegateTo(b) in VarsOf(w, p)
  {
  }

  lemma RejectToNoted(env: Env, w: World, a: nat, mode: RejectMode, target: string, reason: string, def: Definition)
    requires a in w.acts
    ensures var p := w.acts[a].at.inst;
            RejectTo(env, w, a, mode, target, reason, def)
            == Noted(Revisit(env, DropOne(FinishOne(w, a), w.acts[a].at), Place(p, target), UserKind, def), p, a,
                     Rejections(w, p) + 1, reason, mode == Initiator)
  {
    hide Revisit, FinishOne, DelegateVars, DropOne, SetVar, DelVars;
  }

  lemma RevisitActs(env: Env, w: World, w0: World, a: nat, at: Place, def: Definition)
    requires a in w.acts && w0.acts == FinishOne(w, a).acts && w0.next == w.next && w0.vars == w.vars && Bounded(w)
    ensures var w1 := Revisit(env, w0, at, UserKind, def);
            && Fewer(w, w1, at.inst) && VarsOf(w1, at.inst) == VarsOf(w, at.inst) && w.acts.Keys <= w1.acts.Keys
  {
    hide Revisit;
    RevisitAdds(env, w0, at, def);
  }

  lemma RevisitAdds(env: Env, w: World, at: Place, def: Definition)
    ensures var w1 := Revisit(env, w, at, UserKind, def);
            && w1.vars == w.vars && VarsOf(w1, at.inst) == VarsOf(w, at.inst) && w1.next == w.next + 1
            && w.next in w1.acts && w1.acts[w.next].adhoc.None? && w1.acts == w.acts[w.next := w1.acts[w.next]]
  {
    hide Rendered;
  }

  lemma RejectToLimit(env: Env, w: World, a: nat, mode: RejectMode, target: string, reason: string, def: Definition)
    requires a in w.acts && Bounded(w)
    ensures var w1 := RejectTo(env, w, a, mode, target, reason, def);
            var p := w.acts[a].at.inst;
            && Rejections(w1, p) == Rejections(w, p) + 1 && Limit(w1, p) == Limit(w, p)
            && Fewer(w, w1, p)
  {
    hide Revisit, RejectTo, Noted, FinishOne, VarsOf, NumAt;
    var p := w.acts[a].at.inst;
    var w0 := DropOne(FinishOne(w, a), w.acts[a].at);
    FinishOneKeeps(w, a);
    RejectToNoted(env, w, a, mode, target, reason, def);
    RevisitActs(env, w, w0, a, Place(p, target), def);
    var w1 := Revisit(env, w0, Place(p, target), UserKind, def);
    NotedParts(w1, p, a, Rejections(w, p) + 1, reason, mode == Initiator);
    hide Rejections;
    assert Fewer(w, RejectTo(env, w, a, mode, target, reason, def), p);
  }

  lemma RejectDescends(env: Env, w: World, p: nat, def: Definition, wt: Weight, op: Op, n: nat)
    requires op.Reject? && Ready(env, w, p, def) && Weighted(def, wt) && Ordinary(w, p, op)
        && Apply(env, w, op, n).Ended?
    ensures var w1 := Apply(env, w, op, n).w; Ready(env, w1, p, def) && Descends(w, w1, p, def, wt)
  {
    hide Load, Opens, RejectTo, RejectToEnd, Weighted, Limit, Moved, FlowsFrom, FlowsWeight, Bounded, MaxWeight,
        Fewer, Specials, Toil, Wf, NamesOld, Moves.Moved;
    var a := op.act;
    OperationMoves(env, w, op, n);
    LimitIs(w, p);
    if op.mode == ToEnd {
      var w1 := RejectToEnd(w, a, p, op.reason);
      assert Apply(env, w, op, n) == Ended(w1);
      RejectToEndParts(w, a, p, op.reason);
      RootLater(env, w, w1, p, def);
      FinishedOpens(w, w1, a);
      FinishedLoad(w, w1, p, def, wt, w.acts[a].at);
      WeightHas(def, wt, w.acts[a].at.elem);
      FewerSpecials(w, w1, p);
      ToilLess(w, w1, p, def, wt, a);
    } else {
      var w1 := RejectTo(env, w, a, op.mode, op.target, op.reason, def);
      assert Apply(env, w, op, n) == Ended(w1);
      RejectMoves(env, w, a, op.mode, op.target, op.reason, n);
      RejectToLimit(env, w, a, op.mode, op.target, op.reason, def);
      MovedLoad(w, w1, p, def, wt, w.acts[a].at, Place(p, op.target));
      ExtendsRoot(env, w, w1, p, def);
      FewerSpecials(w, w1, p);
      ToilMoves(w, w1, p, def, wt);
    }
  }

  lemma ToilMoves(w: World, w1: World, p: nat, def: Definition, wt: Weight)
    requires Specials(w1, p) <= Specials(w, p)
    requires Load(w1, p, def, wt) <= Load(w, p, def, wt) + 2 * MaxWeight(def.flows, wt)
    ensures Toil(w1, p, def, wt) <= Toil(w, p, def, wt) + 2 * MaxWeight(def.flows, wt)
  {
    hide Load, Specials, MaxWeight;
    Smaller(Specials(w, p), Specials(w1, p), 0);
    Scaled(MaxWeight(def.flows, wt) + 1, |Specials(w, p)|, |Specials(w1, p)|);
  }

  lemma ExtendsRoot(env: Env, w: World, w1: World, p: nat, def: Definition)
    requires Root(env, w, p, def) && Extends(w, w1)
    ensures Root(env, w1, p, def)
  {
  }

  lemma RejectToEndParts(w: World, a: nat, p: nat, reason: string)
    requires a in w.acts && p in w.insts
    ensures var w1 := RejectToEnd(w, a, p, reason);
            && w1.acts == FinishOne(w, a).acts && w1.acts.Keys == w.acts.Keys && w1.next == w.next && w1.toks <= w.toks
            && p in w1.insts && w1.insts[p].def == w.insts[p].def && w1.insts[p].parent == w.insts[p].parent
            && Rejections(w1, p) == Rejections(w, p) && Limit(w1, p) == Limit(w, p)
            && Fewer(w, w1, p)
  {
    hide TokensElsewhere;
    var rest := TokensElsewhere(FinishOne(w, a).toks, p);
  }

  // Every successful completion or rejection descends, and the count of rejections never passes the limit.
  lemma OperationDescends(env: Env, w: World, p: nat, def: Definition, wt: Weight, op: Op, n: nat)
    requires Ready(env, w, p, def) && Stepwise(def) && Weighted(def, wt)
    requires Ordinary(w, p, op) && Apply(env, w, op, n).Ended?
    ensures var w1 := Apply(env, w, op, n).w;
            Ready(env, w1, p, def) && Descends(w, w1, p, def, wt)
            && (Rejections(w, p) <= Limit(w, p) ==> Rejections(w1, p) <= Limit(w1, p))
  {
    hide Ready, Stepwise, Weighted, Apply, Toil, Limit;
    match op {
      case Complete(a, vars) => CompleteDescends(env, w, p, def, wt, a, vars, n);
      case Reject(_, _, _, _) => RejectDescends(env, w, p, def, wt, op, n);
    }
  }

  // ---- Runs ----

  // What the rejections that are left can still add.
  function Allowance(left: int, unit: nat): nat {
    if left <= 0 then 0 else unit + Allowance(left - 1, unit)
  }


  // How many completions and rejections there can still be.
  ghost function Budget(w: World, p: nat, def: Definition, wt: Weight): nat {
    Toil(w, p, def, wt) + Allowance(Limit(w, p) - Rejections(w, p), 2 * MaxWeight(def.flows, wt) + 1)
  }

  lemma DescendsBudget(w: World, w1: World, p: nat, def: Definition, wt: Weight)
    requires Descends(w, w1, p, def, wt)
    ensures Budget(w1, p, def, wt) < Budget(w, p, def, wt)
  {
    hide Toil, MaxWeight, Limit, VarsOf, NumAt;
  }

  ghost predicate Succeeds(env: Env, w: World, op: Op, w1: World) {
    exists n: nat :: Apply(env, w, op, n) == Ended(w1)
  }

  // Such a run may begin at any moment in the life of the engine.
  lemma ReadyAnytime(env: Env, ws: seq<World>, ops: seq<Op>, j: nat, p: nat, def: Definition)
    requires History(env, ws, ops) && Known(ws[0]) && Wf(ws[0]) && Named(ws[0]) && j < |ws|
    requires forall i :: 0 <= i < |ops| ==> Polite(ops[i])
    requires p in ws[j].insts && ws[j].insts[p].parent.None?
        && ws[j].insts[p].def in env.defs && env.defs[ws[j].insts[p].def] == def
    ensures Ready(env, ws[j], p, def)
  {
    hide Known, Wf, Named, Polite, Performs, VarsOf;
    KnownLaw(env, ws, ops, j);
    KnownParts(ws[j]);
    NamedLaw(env, ws, ops, j);
    NextNamesNothing(ws[j], p);
  }

  // Any run of completions (of tasks, delegated ones and signs included) and rejections over an acyclic
  // definition is finite: its length is bounded by what the first world weighs.
  lemma {:induction false} RunsAreFinite(env: Env, ws: seq<World>, ops: seq<Op>, p: nat, def: Definition, wt: Weight,
      j: nat)
    requires |ws| == |ops| + 1 && j <= |ops| && Ready(env, ws[0], p, def) && Stepwise(def) && Weighted(def, wt)
    requires forall i :: 0 <= i < |ops| ==> Ordinary(ws[i], p, ops[i]) && Succeeds(env, ws[i], ops[i], ws[i + 1])
    ensures Ready(env, ws[j], p, def) && j + Budget(ws[j], p, def, wt) <= Budget(ws[0], p, def, wt)
  {
    hide Ready, Stepwise, Weighted, Ordinary, Apply, Budget;
    if j > 0 {
      RunsAreFinite(env, ws, ops, p, def, wt, j - 1);
      assert Ordinary(ws[j - 1], p, ops[j - 1]) && Succeeds(env, ws[j - 1], ops[j - 1], ws[j - 1 + 1]);
      var n: nat :| Apply(env, ws[j - 1], ops[j - 1], n) == Ended(ws[j]);
      OperationDescends(env, ws[j - 1], p, def, wt, ops[j - 1], n);
      DescendsBudget(ws[j - 1], ws[j], p, def, wt);
    }
  }
}
