// Token discipline on definitions without multi-instance tasks and call activities: which tokens there can be,
// how joins count, and the token game that navigation plays.

module TokenGame {
  import opened Spec
  import opened Model
  import opened Bags
  import opened Machine
  import opened Routes

  predicate Basic(el: Element) {
    !el.CallActivity? && (el.UserTask? ==> el.loop.None?)
  }

  ghost predicate BasicDef(def: Definition) {
    forall k :: k in def.elements ==> Basic(def.elements[k])
  }

  predicate IsGateway(el: Element) {
    el.ExclusiveGateway? || el.ParallelGateway? || el.InclusiveGateway?
  }

  predicate TaskAt(def: Definition, e: string) {
    e in def.elements && def.elements[e].UserTask?
  }

  // A user task without a loop.
  predicate PlainUser(def: Definition, e: string) {
    TaskAt(def, e) && def.elements[e].loop.None?
  }

  // Where a token stays until something happens to it from outside.
  predicate Waits(def: Definition, e: string) {
    TaskAt(def, e) || (e in def.elements && def.elements[e].CatchEvent?)
  }

  // An element that a token passes at once, other than a gateway and an end event.
  predicate Passes(def: Definition, e: string) {
    && e in def.elements && !IsGateway(def.elements[e]) && !Waits(def, e) && !def.elements[e].EndEvent?
    && !def.elements[e].CallActivity?
  }

  // Every target of an element that can follow several flows is a place to wait.
  ghost predicate PlainSplit(def: Definition) {
    forall e, i :: (e in def.elements && !def.elements[e].ExclusiveGateway?
                    && |FlowsFrom(def.flows, e)| >= 2 && 0 <= i < |FlowsFrom(def.flows, e)|)
      ==> Waits(def, FlowsFrom(def.flows, e)[i].target)
  }

  // p is an instance of def that no other instance called.
  ghost predicate Root(env: Env, w: World, p: nat, def: Definition) {
    && p in w.insts && w.insts[p].parent.None?
    && w.insts[p].def in env.defs && env.defs[w.insts[p].def] == def
    && Bounded(w)
  }

  ghost predicate Bounded(w: World) {
    forall a :: a in w.acts ==> a < w.next
  }

  // ---- History ----

  function Count(log: seq<Event>, e: Event): nat {
    if log == [] then 0 else Count(log[..|log| - 1], e) + (if log[|log| - 1] == e then 1 else 0)
  }

  lemma CountLogged(log: seq<Event>, x: Event, e: Event)
    ensures Count(log + [x], e) == Count(log, e) + (if x == e then 1 else 0)
  {
    assert (log + [x])[..|log + [x]| - 1] == log;
  }

  // ---- What the tokens at one element amount to ----

  function Arrived(w: World, at: Place): int {
    NumAt(VarsOf(w, at.inst), GwArrived(at.elem))
  }

  predicate HeadAt(agenda: seq<Job>, at: Place) {
    agenda != [] && agenda[0] == Nav(at.inst, at.elem)
  }

  function Entering(agenda: seq<Job>, at: Place): nat {
    if HeadAt(agenda, at) then 1 else 0
  }

  // A join of fan-in k has as many tokens as its counter says, and one more while it is being entered; fewer
  // than it waits for are parked; and its history adds up: arrivals are k times firings plus what is parked.
  ghost predicate JoinAdds(w: World, at: Place, k: nat, entering: nat) {
    && w.toks[at] == Arrived(w, at) + entering
    && 0 <= Arrived(w, at) < k
    && Count(w.log, Arrive(at)) == k * Count(w.log, Follow(at)) + Arrived(w, at)
  }

  // A user task has as many tokens as open activities, but for a debt of d at element x. At a join things add
  // up. A catch event holds any number. Any other element holds a token only while it is entered.
  ghost predicate CountOk(w: World, p: nat, def: Definition, agenda: seq<Job>, x: string, d: nat, e: string) {
    var at := Place(p, e);
    if e !in def.elements then w.toks[at] == 0
    else
      var el := def.elements[e];
      if el.UserTask? then w.toks[at] + (if e == x then d else 0) == Opens(w)[at]
      else if el.ParallelGateway? && FanIn(def, e) > 1 then JoinAdds(w, at, FanIn(def, e), Entering(agenda, at))
      else if IsGateway(el) then w.toks[at] == Entering(agenda, at)
      else if el.CatchEvent? then true
      else w.toks[at] == 0
  }

  ghost predicate Counts(w: World, p: nat, def: Definition, agenda: seq<Job>, x: string, d: nat) {
    forall e :: CountOk(w, p, def, agenda, x, d, e)
  }

  ghost predicate AllTakes(p: nat, jobs: seq<Job>) {
    forall i :: 0 <= i < |jobs| ==> jobs[i].Take? && jobs[i].inst == p
  }

  // The agendas that occur: at most one element is being entered or checked, the rest are flows of p.
  ghost predicate Shape(p: nat, def: Definition, agenda: seq<Job>) {
    agenda == [] || (agenda[0].inst == p && (agenda[0].Nav? ==> !Waits(def, agenda[0].elem))
        && AllTakes(p, agenda[1..]))
  }

  // Nothing that matters at this element has changed.
  ghost predicate SameAt(w: World, w1: World, at: Place) {
    && w1.toks[at] == w.toks[at] && Opens(w1)[at] == Opens(w)[at]
    && Arrived(w1, at) == Arrived(w, at)
    && Count(w1.log, Arrive(at)) == Count(w.log, Arrive(at)) && Count(w1.log, Follow(at)) == Count(w.log, Follow(at))
  }

  lemma CountOkSame(w: World, w1: World, p: nat, def: Definition, agenda: seq<Job>, agenda1: seq<Job>, x: string,
      d: nat, e: string)
    requires CountOk(w, p, def, agenda, x, d, e) && SameAt(w, w1, Place(p, e))
    requires Entering(agenda, Place(p, e)) == Entering(agenda1, Place(p, e))
    ensures CountOk(w1, p, def, agenda1, x, d, e)
  {
    hide Opens, Arrived, Count;
  }

  lemma OpensAdd(w: World, a: Act)
    requires Bounded(w)
    ensures forall at :: Opens(AddAct(w, a))[at] == Opens(w)[at] + Hit(Open(a), at)
  {
    hide Bag;
    BagPut(w.acts, Open, w.next, a);
  }

  lemma SameActs(w: World, w1: World)
    requires w1.acts == w.acts
    ensures Opens(w1) == Opens(w)
  {
  }

  // ---- One step ----

  // The picture between two steps: the tokens add up, and the agenda is one of those that occur.
  ghost predicate Good(env: Env, w: World, p: nat, def: Definition, agenda: seq<Job>, x: string, d: nat) {
    Root(env, w, p, def) && Shape(p, def, agenda) && Counts(w, p, def, agenda, x, d)
  }

  lemma CountsAt(w: World, p: nat, def: Definition, agenda: seq<Job>, x: string, d: nat, e: string)
    requires Counts(w, p, def, agenda, x, d)
    ensures CountOk(w, p, def, agenda, x, d, e)
  {
  }

  // Only element e is affected, and it is in order: then all is in order.
  lemma CountsOnly(w: World, w1: World, p: nat, def: Definition, agenda: seq<Job>, agenda1: seq<Job>, x: string,
      d: nat, e: string)
    requires Counts(w, p, def, agenda, x, d) && CountOk(w1, p, def, agenda1, x, d, e)
    requires forall e1 :: e1 != e ==> SameAt(w, w1, Place(p, e1))
    requires forall e1 :: e1 != e ==> Entering(agenda, Place(p, e1)) == Entering(agenda1, Place(p, e1))
    ensures Counts(w1, p, def, agenda1, x, d)
  {
    hide CountOk, SameAt, Entering;
    forall e1 ensures CountOk(w1, p, def, agenda1, x, d, e1) {
      if e1 != e {
        CountsAt(w, p, def, agenda, x, d, e1);
        CountOkSame(w, w1, p, def, agenda, agenda1, x, d, e1);
      }
    }
  }

  // A step at element e that touches nothing but its tokens, its counter and its history.
  ghost predicate Touches(w: World, w1: World, at: Place) {
    && w1.insts == w.insts && Bounded(w1)
    && (forall at1 :: at1 != at ==> w1.toks[at1] == w.toks[at1] && Opens(w1)[at1] == Opens(w)[at1])
    && (forall at1 :: at1 != at ==> Arrived(w1, at1) == Arrived(w, at1))
    && (forall e :: e != Arrive(at) && e != Follow(at) ==> Count(w1.log, e) == Count(w.log, e))
  }

  lemma TouchesSame(w: World, w1: World, p: nat, e: string)
    requires Touches(w, w1, Place(p, e))
    ensures forall e1 :: e1 != e ==> SameAt(w, w1, Place(p, e1))
  {
    hide Opens, Arrived, Count;
  }

  lemma TakesShape(p: nat, def: Definition, flows: seq<Flow>)
    ensures AllTakes(p, Takes(p, flows)) && Shape(p, def, Takes(p, flows))
    ensures forall at :: Entering(Takes(p, flows), at) == 0
  {
    hide Takes;
  }

  lemma LogTouches(w: World, w1: World, at: Place, x: Event)
    requires Touches(w, w1, at) && (x == Arrive(at) || x == Follow(at))
    ensures Touches(w, Logged(w1, x), at)
    ensures forall e :: Count(Logged(w1, x).log, e) == Count(w1.log, e) + (if x == e then 1 else 0)
  {
    hide Bag, Count;
    forall e ensures Count(Logged(w1, x).log, e) == Count(w1.log, e) + (if x == e then 1 else 0) {
      CountLogged(w1.log, x, e);
    }
  }

  // What a step has to establish at the element it concerns.
  lemma StepGood(env: Env, w: World, w1: World, p: nat, def: Definition, job: Job, jobs: seq<Job>, x: string, d: nat,
      e: string)
    requires Good(env, w, p, def, [job], x, d)
    requires Touches(w, w1, Place(p, e)) && CountOk(w1, p, def, jobs, x, d, e) && Shape(p, def, jobs)
    requires forall e1 :: e1 != e ==> !HeadAt([job], Place(p, e1)) && !HeadAt(jobs, Place(p, e1))
    ensures Good(env, w1, p, def, jobs, x, d)
  {
    hide Counts, CountOk, Arrived, Count, Opens, Shape;
    TouchesSame(w, w1, p, e);
    CountsOnly(w, w1, p, def, [job], jobs, x, d, e);
  }

  // Leaving an element that a token passes.
  lemma LeaveGood(env: Env, w: World, p: nat, def: Definition, e: string, x: string, d: nat, out: seq<Flow>)
    requires Good(env, w, p, def, [Nav(p, e)], x, d)
    requires Passes(def, e)
    ensures var s := Leave(w, Place(p, e), out); Good(env, s.w, p, def, s.jobs, x, d)
  {
    hide Counts, Takes, Arrived, Count, Opens;
    var at := Place(p, e);
    var s := Leave(w, at, out);
    TakesShape(p, def, out);
    CountsAt(w, p, def, [Nav(p, e)], x, d, e);
    assert DropOne(w, at) == w;
    LogTouches(w, w, at, Follow(at));
    StepGood(env, w, s.w, p, def, Nav(p, e), s.jobs, x, d, e);
  }

  lemma EndGood(env: Env, w: World, p: nat, def: Definition, e: string, x: string, d: nat)
    requires Good(env, w, p, def, [Nav(p, e)], x, d) && e in def.elements && def.elements[e].EndEvent?
    ensures DropAll(w, Place(p, e)) == w && Good(env, w, p, def, [Check(p)], x, d)
  {
    hide Counts, Arrived, Count, Opens;
    CountsAt(w, p, def, [Nav(p, e)], x, d, e);
    assert w.toks[Place(p, e) := 0] == w.toks;
    StepGood(env, w, w, p, def, Nav(p, e), [Check(p)], x, d, e);
  }

  lemma DropAllTouches(w: World, at: Place)
    requires Bounded(w)
    ensures Touches(w, DropAll(w, at), at)
  {
    hide Bag, Count;
  }

  // Passing a gateway that waits for nothing: an exclusive or inclusive one, or a parallel one of fan-in 1.
  lemma PassGood(env: Env, w: World, p: nat, def: Definition, e: string, x: string, d: nat, jobs: seq<Job>)
    requires Good(env, w, p, def, [Nav(p, e)], x, d) && e in def.elements && IsGateway(def.elements[e])
    requires def.elements[e].ParallelGateway? ==> FanIn(def, e) <= 1
    requires Shape(p, def, jobs) && forall at :: Entering(jobs, at) == 0
    ensures Good(env, Logged(DropAll(w, Place(p, e)), Follow(Place(p, e))), p, def, jobs, x, d)
  {
    hide Counts, Shape, Arrived, Count, Opens, FanIn;
    var at := Place(p, e);
    DropAllTouches(w, at);
    LogTouches(w, DropAll(w, at), at, Follow(at));
    forall e1 ensures !HeadAt(jobs, Place(p, e1)) { assert Entering(jobs, Place(p, e1)) == 0; }
    StepGood(env, w, Logged(DropAll(w, at), Follow(at)), p, def, Nav(p, e), jobs, x, d, e);
  }

  // Setting a join's counter, and deleting it.
  lemma CounterTouches(w: World, at: Place, k: int)
    requires Bounded(w)
    ensures var w1 := SetVar(w, at.inst, GwArrived(at.elem), Num(k));
            Touches(w, w1, at) && Arrived(w1, at) == k
            && w1.toks == w.toks && w1.log == w.log
    ensures var w1 := DelVars(w, at.inst, {GwArrived(at.elem)});
            Touches(w, w1, at) && Arrived(w1, at) == 0
            && w1.toks == w.toks && w1.log == w.log
  {
    hide Bag, Count;
  }

  lemma TouchesTransitive(w: World, w1: World, w2: World, at: Place)
    requires Touches(w, w1, at) && Touches(w1, w2, at)
    ensures Touches(w, w2, at)
  {
    hide Arrived, Count, Opens;
  }

  // One arrival at a join: it parks, or it is the last one and the join fires. Either way things add up.
  lemma JoinStep(w: World, at: Place, k: nat, out: seq<Flow>)
    requires Bounded(w) && k > 1 && JoinAdds(w, at, k, 1)
    ensures var s := ParallelStep(w, at, k, out);
            s.Go? && Touches(w, s.w, at) && JoinAdds(s.w, at, k, 0)
  {
    hide Takes, Arrived, Count, Opens, SetVar, DelVars;
    var arrived := Arrived(w, at) + 1;
    var s := ParallelStep(w, at, k, out);
    assert arrived == NumAt(VarsOf(w, at.inst), GwArrived(at.elem)) + 1 by { ArrivedIs(w, at); }
    var w1 := SetVar(w, at.inst, GwArrived(at.elem), Num(arrived));
    var w2 := Logged(w1, Arrive(at));
    CounterTouches(w, at, arrived);
    LogTouches(w, w1, at, Arrive(at));
    LogArrived(w1, Arrive(at), at);
    if arrived == k {
      JoinFires(w, w2, at);
      var w3 := Logged(DelVars(DropAll(w2, at), at.inst, {GwArrived(at.elem)}), Follow(at));
      assert k * (Count(w.log, Follow(at)) + 1) == k * Count(w.log, Follow(at)) + k;
      assert s.w == w3;
    }
  }

  lemma JoinGood(env: Env, w: World, p: nat, def: Definition, e: string, x: string, d: nat, out: seq<Flow>)
    requires Good(env, w, p, def, [Nav(p, e)], x, d)
    requires e in def.elements && def.elements[e].ParallelGateway? && FanIn(def, e) > 1
    ensures var s := ParallelStep(w, Place(p, e), FanIn(def, e), out); Good(env, s.w, p, def, s.jobs, x, d)
  {
    hide Counts, Takes, Arrived, Count, Opens, FanIn, Touches, ParallelStep;
    var at := Place(p, e);
    CountsAt(w, p, def, [Nav(p, e)], x, d, e);
    JoinStep(w, at, FanIn(def, e), out);
    var s := ParallelStep(w, at, FanIn(def, e), out);
    ParallelJobs(w, at, FanIn(def, e), out);
    TakesShape(p, def, out);
    StepGood(env, w, s.w, p, def, Nav(p, e), s.jobs, x, d, e);
  }

  lemma ParallelJobs(w: World, at: Place, k: nat, out: seq<Flow>)
    ensures var s := ParallelStep(w, at, k, out);
            s.Go? && (s.jobs == [] || s.jobs == [Check(at.inst)] || s.jobs == Takes(at.inst, out))
  {
    hide Takes;
  }

  lemma ArrivedIs(w: World, at: Place)
    ensures Arrived(w, at) == NumAt(VarsOf(w, at.inst), GwArrived(at.elem))
  {
  }

  lemma LogArrived(w: World, x: Event, at: Place)
    ensures Arrived(Logged(w, x), at) == Arrived(w, at)
  {
  }

  lemma JoinFires(w: World, w2: World, at: Place)
    requires Touches(w, w2, at)
    ensures var w3 := Logged(DelVars(DropAll(w2, at), at.inst, {GwArrived(at.elem)}), Follow(at));
            && Touches(w, w3, at) && w3.toks[at] == 0 && Arrived(w3, at) == 0
            && Count(w3.log, Arrive(at)) == Count(w2.log, Arrive(at))
            && Count(w3.log, Follow(at)) == Count(w2.log, Follow(at)) + 1
  {
    hide Arrived, Count, Opens, DelVars, Touches, DropAll;
    assert Bounded(w2) by { TouchesBounded(w, w2, at); }
    var w3 := DropAll(w2, at);
    DropAllTouches(w2, at);
    TouchesTransitive(w, w2, w3, at);
    TouchesBounded(w, w3, at);
    CounterTouches(w3, at, 0);
    var w4 := DelVars(w3, at.inst, {GwArrived(at.elem)});
    TouchesTransitive(w, w3, w4, at);
    LogTouches(w, w4, at, Follow(at));
    LogArrived(w4, Follow(at), at);
    assert w4.log == w2.log by { DropDelLog(w2, at); }
    assert w4.toks[at] == 0 by { DropDelLog(w2, at); }
  }

  lemma DropDelLog(w: World, at: Place)
    ensures var w1 := DelVars(DropAll(w, at), at.inst, {GwArrived(at.elem)}); w1.log == w.log && w1.toks[at] == 0
  {
  }

  lemma TouchesBounded(w: World, w1: World, at: Place)
    requires Touches(w, w1, at)
    ensures Bounded(w1)
  {
  }

  // ---- Taking a flow ----

  // Entering a user task adds a token and an open activity there.
  lemma EnterTaskGood(env: Env, w: World, p: nat, def: Definition, f: Flow, x: string, d: nat)
    requires Good(env, w, p, def, [Take(p, f)], x, d) && TaskAt(def, f.target)
    ensures var w1 := EnterTask(env, w, Place(p, f.target), def.elements[f.target]);
            Good(env, w1, p, def, [], x, d) && Place(p, f.target) in w1.toks
  {
    hide Counts, Arrived, Count, Opens;
    var e := f.target;
    var w1 := EnterTask(env, w, Place(p, e), def.elements[e]);
    CountsAt(w, p, def, [Take(p, f)], x, d, e);
    EnterTaskTouches(env, w, Place(p, e), def.elements[e]);
    StepGood(env, w, w1, p, def, Take(p, f), [], x, d, e);
  }

  lemma EnterTaskTouches(env: Env, w: World, at: Place, el: Element)
    requires el.UserTask? && Bounded(w)
    ensures var w1 := EnterTask(env, w, at, el);
            Touches(w, w1, at) && w1.toks[at] == w.toks[at] + 1 && Opens(w1)[at] == Opens(w)[at] + 1
  {
    hide Opens, Count, EnterTask, Arrived;
    EnterTaskAdds(env, w, at, el);
    EnterTaskCounters(env, w, at, el);
    var w1 := EnterTask(env, w, at, el);
    var a := w1.acts[w.next];
    OpensAdd(w, a);
    SameActs(AddAct(w, a), w1);
  }

  lemma EnterTaskAdds(env: Env, w: World, at: Place, el: Element)
    requires el.UserTask?
    ensures var w1 := EnterTask(env, w, at, el);
            && w1.insts == w.insts && w1.log == w.log && w1.toks == w.toks + multiset{at} && w1.next == w.next + 1
            && w.next in w1.acts && w1.acts == AddAct(w, w1.acts[w.next]).acts && Open(w1.acts[w.next]) == Some(at)
  {
    hide Texts, Rendered;
  }

  lemma EnterTaskCounters(env: Env, w: World, at: Place, el: Element)
    requires el.UserTask?
    ensures forall x :: Arrived(EnterTask(env, w, at, el), x) == Arrived(w, x)
  {
    hide Texts, Rendered;
  }

  // Entering an end event or an element that a token passes leaves a completed activity and no token.
  lemma EnterDoneGood(env: Env, w: World, p: nat, def: Definition, f: Flow, kind: Kind, x: string, d: nat)
    requires Good(env, w, p, def, [Take(p, f)], x, d)
    requires Passes(def, f.target) || (f.target in def.elements && def.elements[f.target].EndEvent?)
    ensures var w1 := AddDone(w, Place(p, f.target), kind);
            Good(env, w1, p, def, [Nav(p, f.target)], x, d) && w1.toks == w.toks
  {
    hide Counts, Arrived, Count, Opens;
    var e := f.target;
    CountsAt(w, p, def, [Take(p, f)], x, d, e);
    AddDoneTouches(w, Place(p, e), kind);
    StepGood(env, w, AddDone(w, Place(p, e), kind), p, def, Take(p, f), [Nav(p, e)], x, d, e);
  }

  lemma AddDoneTouches(w: World, at: Place, kind: Kind)
    requires Bounded(w)
    ensures var w1 := AddDone(w, at, kind);
            Touches(w, w1, at) && w1.toks == w.toks && Opens(w1) == Opens(w)
  {
    hide Bag, Opens, Count;
    var w1 := AddDone(w, at, kind);
    var a := w1.acts[w.next];
    OpensAdd(w, a);
    SameActs(AddAct(w, a), w1);
  }

  lemma EnterCatchGood(env: Env, w: World, p: nat, def: Definition, f: Flow, x: string, d: nat)
    requires Good(env, w, p, def, [Take(p, f)], x, d)
    requires f.target in def.elements && def.elements[f.target].CatchEvent?
    ensures Good(env, AddTok(w, Place(p, f.target)), p, def, [], x, d)
  {
    hide Counts, Arrived, Count, Opens, FanIn;
    var at := Place(p, f.target);
    CountsAt(w, p, def, [Take(p, f)], x, d, f.target);
    AddTokTouches(w, at);
    StepGood(env, w, AddTok(w, at), p, def, Take(p, f), [], x, d, f.target);
  }

  // Going on from an element without taking a token from it.
  lemma ProceedGood(env: Env, w: World, p: nat, def: Definition, e: string, x: string, d: nat, out: seq<Flow>)
    requires Good(env, w, p, def, [Nav(p, e)], x, d) && Passes(def, e)
    ensures var s := Proceed(w, Place(p, e), out); Good(env, s.w, p, def, s.jobs, x, d)
  {
    hide Counts, Takes, Arrived, Count, Opens;
    var at := Place(p, e);
    var s := Proceed(w, at, out);
    TakesShape(p, def, out);
    CountsAt(w, p, def, [Nav(p, e)], x, d, e);
    LogTouches(w, w, at, Follow(at));
    StepGood(env, w, s.w, p, def, Nav(p, e), s.jobs, x, d, e);
  }

  lemma EnterGatewayGood(env: Env, w: World, p: nat, def: Definition, f: Flow, x: string, d: nat)
    requires Good(env, w, p, def, [Take(p, f)], x, d)
    requires f.target in def.elements && IsGateway(def.elements[f.target])
    ensures Good(env, AddTok(w, Place(p, f.target)), p, def, [Nav(p, f.target)], x, d)
  {
    hide Counts, Arrived, Count, Opens, FanIn;
    var at := Place(p, f.target);
    CountsAt(w, p, def, [Take(p, f)], x, d, f.target);
    AddTokTouches(w, at);
    StepGood(env, w, AddTok(w, at), p, def, Take(p, f), [Nav(p, f.target)], x, d, f.target);
  }

  lemma AddTokTouches(w: World, at: Place)
    requires Bounded(w)
    ensures var w1 := AddTok(w, at);
            Touches(w, w1, at) && w1.toks[at] == w.toks[at] + 1
            && Arrived(w1, at) == Arrived(w, at)
    ensures AddTok(w, at).log == w.log
  {
    hide Bag, Count;
  }

  // ---- The token game ----

  // The flows an element may send tokens along: all of them, or, for an exclusive gateway, one, or,
  // for an inclusive gateway, at least one.
  ghost predicate MayFollow(def: Definition, e: string, chosen: seq<Flow>)
    requires e in def.elements
  {
    var out := FlowsFrom(def.flows, e);
    var el := def.elements[e];
    if el.ExclusiveGateway? then |chosen| == 1 && chosen[0] in out
    else if el.InclusiveGateway? then chosen != [] && forall f :: f in chosen ==> f in out
    else if el.EndEvent? then chosen == []
    else chosen == out
  }

  // How many tokens an element needs before it can fire.
  function Need(def: Definition, e: string): nat
    requires e in def.elements
  {
    if def.elements[e].ParallelGateway? then FanIn(def, e) else 1
  }

  ghost function Targets(p: nat, flows: seq<Flow>): multiset<Place> {
    if flows == [] then multiset{}
    else Targets(p, flows[..|flows| - 1]) + multiset{Place(p, flows[|flows| - 1].target)}
  }

  // Element e takes the tokens it needs and puts one at the end of each chosen flow.
  ghost predicate FiresBy(def: Definition, p: nat, m: multiset<Place>, m1: multiset<Place>, e: string,
      chosen: seq<Flow>) {
    var at := Place(p, e);
    && e in def.elements && MayFollow(def, e, chosen)
    && m[at] >= Need(def, e)
    && m1 == m[at := m[at] - Need(def, e)] + Targets(p, chosen)
  }

  // An element where no token waits fires; the others need somebody to complete a task or trigger an event.
  ghost predicate Fires(def: Definition, p: nat, m: multiset<Place>, m1: multiset<Place>, e: string) {
    !Waits(def, e) && exists chosen :: FiresBy(def, p, m, m1, e, chosen)
  }

  // A run of the token game that fires these elements, in this order.
  ghost predicate Reaches(def: Definition, p: nat, m: multiset<Place>, fired: seq<string>, m1: multiset<Place>)
    decreases |fired|
  {
    if fired == [] then m1 == m
    else exists m0 :: Fires(def, p, m, m0, fired[0]) && Reaches(def, p, m0, fired[1..], m1)
  }

  lemma FiresMore(def: Definition, p: nat, m: multiset<Place>, m1: multiset<Place>, e: string, more: multiset<Place>)
    requires Fires(def, p, m, m1, e)
    ensures Fires(def, p, m + more, m1 + more, e)
  {
    hide MayFollow, Need, Targets;
    var chosen :| FiresBy(def, p, m, m1, e, chosen);
    assert FiresBy(def, p, m + more, m1 + more, e, chosen);
  }

  lemma ReachesStep(def: Definition, p: nat, m: multiset<Place>, e: string, m1: multiset<Place>, fired: seq<string>,
      m2: multiset<Place>)
    requires Fires(def, p, m, m1, e) && Reaches(def, p, m1, fired, m2)
    ensures Reaches(def, p, m, [e] + fired, m2)
  {
    hide Fires;
    assert ([e] + fired)[1..] == fired;
  }

  // The history has grown by one entry for each firing; end events have no flows to follow.
  ghost predicate Follows(def: Definition, p: nat, log: seq<Event>, log1: seq<Event>, fired: seq<string>) {
    forall e :: (e in def.elements ==> !def.elements[e].EndEvent?) ==>
      Count(log1, Follow(Place(p, e))) == Count(log, Follow(Place(p, e))) + multiset(fired)[e]
  }

  lemma FollowsNone(def: Definition, p: nat, log: seq<Event>)
    ensures Follows(def, p, log, log, [])
    ensures forall at :: Follows(def, p, log, log + [Arrive(at)], [])
  {
    hide Count;
    forall at, e ensures Count(log + [Arrive(at)], Follow(Place(p, e))) == Count(log, Follow(Place(p, e))) {
      CountLogged(log, Arrive(at), Follow(Place(p, e)));
    }
  }

  lemma FollowsOne(def: Definition, p: nat, log: seq<Event>, e: string)
    ensures Follows(def, p, log, log + [Follow(Place(p, e))], [e])
  {
    hide Count;
    forall e1 ensures Count(log + [Follow(Place(p, e))], Follow(Place(p, e1))) ==
        Count(log, Follow(Place(p, e1))) + multiset([e])[e1] {
      CountLogged(log, Follow(Place(p, e)), Follow(Place(p, e1)));
    }
  }

  lemma FollowsEnd(def: Definition, p: nat, log: seq<Event>, e: string)
    requires e in def.elements && def.elements[e].EndEvent?
    ensures Follows(def, p, log, log, [e])
  {
    hide Count;
  }

  lemma FollowsOn(def: Definition, p: nat, log: seq<Event>, log1: seq<Event>, log2: seq<Event>, fired: seq<string>,
      fired1: seq<string>)
    requires Follows(def, p, log, log1, fired) && Follows(def, p, log1, log2, fired1)
    ensures Follows(def, p, log, log2, fired + fired1)
  {
    hide Count;
    assert multiset(fired + fired1) == multiset(fired) + multiset(fired1);
  }

  // The tokens that an agenda is about to place.
  ghost function Pending(def: Definition, job: Job): multiset<Place> {
    match job
    case Nav(p, e) => if e in def.elements && IsGateway(def.elements[e]) then multiset{} else multiset{Place(p, e)}
    case Take(p, f) => multiset{Place(p, f.target)}
    case Check(_) => multiset{}
  }

  ghost function PendingAll(def: Definition, agenda: seq<Job>): multiset<Place> {
    if agenda == [] then multiset{} else PendingAll(def, agenda[..|agenda| - 1]) + Pending(def, agenda[|agenda| - 1])
  }

  // The marking a navigation is in: the tokens in the store and those about to be placed.
  ghost function Marking(w: World, def: Definition, agenda: seq<Job>): multiset<Place> {
    w.toks + PendingAll(def, agenda)
  }

  lemma {:induction false} PendingAppend(def: Definition, a: seq<Job>, b: seq<Job>)
    ensures PendingAll(def, a + b) == PendingAll(def, a) + PendingAll(def, b)
  {
    hide Pending;
    if b == [] {
      assert a + b == a;
    } else {
      assert (a + b)[..|a + b| - 1] == a + b[..|b| - 1];
      PendingAppend(def, a, b[..|b| - 1]);
    }
  }

  lemma {:induction false} PendingTakes(def: Definition, p: nat, flows: seq<Flow>)
    ensures PendingAll(def, Takes(p, flows)) == Targets(p, flows)
  {
    if flows != [] {
      PendingTakes(def, p, flows[..|flows| - 1]);
      assert Takes(p, flows)[..|flows| - 1] == Takes(p, flows[..|flows| - 1]);
    }
  }

  lemma PendingOne(def: Definition, job: Job)
    ensures PendingAll(def, [job]) == Pending(def, job)
  {
    assert [job][..0] == [];
  }

  // A step either leaves the marking alone or fires one element, and the history says so.
  ghost predicate Plays(def: Definition, p: nat, m: multiset<Place>, m1: multiset<Place>, log: seq<Event>,
      log1: seq<Event>, fired: seq<string>) {
    && Follows(def, p, log, log1, fired)
    && if fired == [] then m1 == m else |fired| == 1 && Fires(def, p, m, m1, fired[0])
  }

  predicate ThrowAt(def: Definition, e: string) {
    e in def.elements && def.elements[e].ThrowEvent?
  }

  // What a step fires: an element that is left, unless its token parks; a throw event is left as it is entered.
  function Fired(def: Definition, job: Job, jobs: seq<Job>): seq<string> {
    if job.Nav? && jobs != [] then [job.elem]
    else if job.Take? && ThrowAt(def, job.flow.target) then [job.flow.target]
    else []
  }

  // Firing an element whose tokens are in the store, or whose one token is pending.
  lemma FiringPlays(def: Definition, p: nat, w: World, w1: World, e: string, chosen: seq<Flow>, jobs: seq<Job>)
    requires e in def.elements && MayFollow(def, e, chosen) && PendingAll(def, jobs) == Targets(p, chosen)
    requires IsGateway(def.elements[e]) ==> w.toks[Place(p, e)] == Need(def, e) && w1.toks == w.toks[Place(p, e) := 0]
    requires !IsGateway(def.elements[e]) ==> w1.toks == w.toks
    requires !Waits(def, e) && jobs != [] && Follows(def, p, w.log, w1.log, [e])
    ensures Plays(def, p, Marking(w, def, [Nav(p, e)]), Marking(w1, def, jobs), w.log, w1.log,
        Fired(def, Nav(p, e), jobs))
  {
    hide MayFollow, Targets, FanIn, Follows;
    PendingOne(def, Nav(p, e));
    assert FiresBy(def, p, Marking(w, def, [Nav(p, e)]), Marking(w1, def, jobs), e, chosen);
  }

  // ---- One step of any kind ----

  // With plain splits, several flows are pending only when all of them lead to places to wait.
  ghost predicate PlainAgenda(def: Definition, agenda: seq<Job>) {
    |agenda| <= 1 || forall i :: 0 <= i < |agenda| ==> agenda[i].Take? && Waits(def, agenda[i].flow.target)
  }

  // A step keeps the picture in order, is a move of the token game, and does not fizzle out: when it
  // asks for nothing more, some token is waiting.
  ghost predicate StepFine(env: Env, w: World, p: nat, def: Definition, job: Job, s: Step, x: string, d: nat) {
    s.Go? ==>
      && s.w.insts == w.insts
      && Good(env, s.w, p, def, s.jobs, x, d)
      && Plays(def, p, Marking(w, def, [job]), Marking(s.w, def, s.jobs), w.log, s.w.log,
          Fired(def, job, s.jobs))
      && (s.jobs == [] ==> HasToken(s.w, p))
      && (PlainSplit(def) ==> PlainAgenda(def, s.jobs))
  }

  lemma InclusiveListed(env: Env, flows: seq<Flow>, default: string, vars: Vars)
    ensures var fs := InclusiveFlows(env, flows, default, vars);
            fs.Some? ==> fs.value != [] && |fs.value| <= |flows| && forall f :: f in fs.value ==> f in flows
  {
    hide TrueFlows, Selection;
    ChosenListed(env, flows, default, vars);
    if TrueFlows(env, flows, vars).Some? {
      SelectTrue(env, flows, vars);
      SelectionIn(TrueFlows(env, flows, vars).value, flows);
    }
  }

  // Several flows chosen among the outgoing ones of an element in a plain-split definition.
  lemma ChosenPlain(p: nat, def: Definition, e: string, chosen: seq<Flow>)
    requires e in def.elements && !def.elements[e].ExclusiveGateway?
    requires |chosen| <= |FlowsFrom(def.flows, e)| && forall f :: f in chosen ==> f in FlowsFrom(def.flows, e)
    ensures PlainSplit(def) ==> PlainAgenda(def, Takes(p, chosen))
  {
    hide Takes, FlowsFrom;
    var out := FlowsFrom(def.flows, e);
    if PlainSplit(def) && |chosen| >= 2 {
      forall i | 0 <= i < |chosen| ensures Waits(def, chosen[i].target) {
        assert chosen[i] in out;
        var j :| 0 <= j < |out| && out[j] == chosen[i];
        assert Waits(def, out[j].target);
      }
    }
  }

  lemma LeaveFine(env: Env, w: World, p: nat, def: Definition, e: string, x: string, d: nat)
    requires Good(env, w, p, def, [Nav(p, e)], x, d)
    requires Passes(def, e)
    ensures StepFine(env, w, p, def, Nav(p, e), Leave(w, Place(p, e), FlowsFrom(def.flows, e)), x, d)
  {
    hide Counts, Takes, FlowsFrom, Plays, Marking, PlainSplit, Follows;
    var out := FlowsFrom(def.flows, e);
    var s := Leave(w, Place(p, e), out);
    LeaveGood(env, w, p, def, e, x, d, out);
    CountsAt(w, p, def, [Nav(p, e)], x, d, e);
    assert s.w.toks == w.toks;
    ChosenPlain(p, def, e, out);
    JobsPending(def, p, out);
    FollowsOne(def, p, w.log, e);
    NoJobs(p, out);
    FiringPlays(def, p, w, s.w, e, out, s.jobs);
  }

  // The jobs that follow some flows, or check for completion when there are none, pend as the flows do.
  lemma JobsPending(def: Definition, p: nat, out: seq<Flow>)
    ensures PendingAll(def, if out == [] then [Check(p)] else Takes(p, out)) == Targets(p, out)
  {
    hide Takes;
    PendingTakes(def, p, out);
    PendingOne(def, Check(p));
  }

  lemma EndFine(env: Env, w: World, p: nat, def: Definition, e: string, x: string, d: nat)
    requires Good(env, w, p, def, [Nav(p, e)], x, d) && e in def.elements && def.elements[e].EndEvent?
    ensures StepFine(env, w, p, def, Nav(p, e), Go(DropAll(w, Place(p, e)), [Check(p)]), x, d)
  {
    hide Counts, Plays, Marking, PlainSplit, DropAll, Follows;
    EndGood(env, w, p, def, e, x, d);
    JobsPending(def, p, []);
    FollowsEnd(def, p, w.log, e);
    FiringPlays(def, p, w, w, e, [], [Check(p)]);
  }

  lemma ExclusiveFine(env: Env, w: World, p: nat, def: Definition, e: string, x: string, d: nat)
    requires Good(env, w, p, def, [Nav(p, e)], x, d) && e in def.elements && def.elements[e].ExclusiveGateway?
    ensures StepFine(env, w, p, def, Nav(p, e),
                     ExclusiveStep(env, w, Place(p, e), def.elements[e].defaultFlow, FlowsFrom(def.flows, e)), x, d)
  {
    hide Counts, FlowsFrom, Plays, Marking, PlainSplit, FirstTrue, DefaultOf, Good, Follows;
    var out := FlowsFrom(def.flows, e);
    var at := Place(p, e);
    var s := ExclusiveStep(env, w, at, def.elements[e].defaultFlow, out);
    if s.Go? {
      ChosenListed(env, out, def.elements[e].defaultFlow, VarsOf(w, p));
      var f := s.jobs[0].flow;
      GoodAt(env, w, p, def, [Nav(p, e)], x, d, e);
      PassGood(env, w, p, def, e, x, d, s.jobs);
      PendingOne(def, Take(p, f));
      TargetsOne(p, f);
      FollowsOne(def, p, w.log, e);
      FiringPlays(def, p, w, s.w, e, [f], s.jobs);
    }
  }

  lemma TargetsOne(p: nat, f: Flow)
    ensures Targets(p, [f]) == multiset{Place(p, f.target)}
  {
    assert [f][..0] == [];
  }

  lemma GoodAt(env: Env, w: World, p: nat, def: Definition, agenda: seq<Job>, x: string, d: nat, e: string)
    requires Good(env, w, p, def, agenda, x, d)
    ensures CountOk(w, p, def, agenda, x, d, e)
  {
    hide CountOk;
    CountsAt(w, p, def, agenda, x, d, e);
  }

  lemma InclusiveFine(env: Env, w: World, p: nat, def: Definition, e: string, x: string, d: nat)
    requires Good(env, w, p, def, [Nav(p, e)], x, d) && e in def.elements && def.elements[e].InclusiveGateway?
    ensures StepFine(env, w, p, def, Nav(p, e),
                     InclusiveStep(env, w, Place(p, e), def.elements[e].defaultFlow, FlowsFrom(def.flows, e)), x, d)
  {
    hide Counts, FlowsFrom, Plays, Marking, PlainSplit, InclusiveFlows, Good, Takes, Follows;
    var out := FlowsFrom(def.flows, e);
    var at := Place(p, e);
    var s := InclusiveStep(env, w, at, def.elements[e].defaultFlow, out);
    if s.Go? {
      var vars := VarsOf(w, p);
      InclusiveListed(env, out, def.elements[e].defaultFlow, vars);
      var fs := InclusiveFlows(env, out, def.elements[e].defaultFlow, vars).value;
      GoodAt(env, w, p, def, [Nav(p, e)], x, d, e);
      TakesShape(p, def, fs);
      PassGood(env, w, p, def, e, x, d, s.jobs);
      PendingTakes(def, p, fs);
      ChosenPlain(p, def, e, fs);
      FollowsOne(def, p, w.log, e);
      FiringPlays(def, p, w, s.w, e, fs, s.jobs);
    }
  }

  // A join that is not full yet: the token parks.
  lemma ParkFine(env: Env, w: World, p: nat, def: Definition, e: string, x: string, d: nat)
    requires Good(env, w, p, def, [Nav(p, e)], x, d) && e in def.elements && def.elements[e].ParallelGateway?
    requires FanIn(def, e) > 1 && Arrived(w, Place(p, e)) + 1 < FanIn(def, e)
    ensures StepFine(env, w, p, def, Nav(p, e), ParallelStep(w, Place(p, e), FanIn(def, e), FlowsFrom(def.flows, e)),
        x, d)
  {
    hide Counts, FlowsFrom, Marking, PlainSplit, Good, FanIn, Opens, Count, Proceed, Follows;
    var out := FlowsFrom(def.flows, e);
    var at := Place(p, e);
    ArrivedIs(w, at);
    var s := ParallelStep(w, at, FanIn(def, e), out);
    assert s.jobs == [] && s.w.toks == w.toks && s.w.insts == w.insts && s.w.log == w.log + [Arrive(at)];
    FollowsNone(def, p, w.log);
    GoodAt(env, w, p, def, [Nav(p, e)], x, d, e);
    JoinGood(env, w, p, def, e, x, d, out);
    ParkedMarking(def, p, w, s.w, e);
    assert at in s.w.toks;
  }

  // A parallel gateway that fires.
  lemma FireFine(env: Env, w: World, p: nat, def: Definition, e: string, x: string, d: nat)
    requires Good(env, w, p, def, [Nav(p, e)], x, d) && e in def.elements && def.elements[e].ParallelGateway?
    requires FanIn(def, e) <= 1 || Arrived(w, Place(p, e)) + 1 >= FanIn(def, e)
    ensures StepFine(env, w, p, def, Nav(p, e), ParallelStep(w, Place(p, e), FanIn(def, e), FlowsFrom(def.flows, e)),
        x, d)
  {
    hide Counts, FlowsFrom, Plays, Marking, PlainSplit, Good, Takes, FanIn, Opens, Count, Arrived, ParallelStep,
        Follows;
    var out := FlowsFrom(def.flows, e);
    var at := Place(p, e);
    var n := FanIn(def, e);
    var s := ParallelStep(w, at, n, out);
    GoodAt(env, w, p, def, [Nav(p, e)], x, d, e);
    FiringStep(w, at, n, out);
    ParallelGood(env, w, p, def, e, x, d, out);
    JobsPending(def, p, out);
    ChosenPlain(p, def, e, out);
    NoJobs(p, out);
    FollowsFiring(def, p, w.log, s.w.log, e);
    FiringPlays(def, p, w, s.w, e, out, s.jobs);
  }

  lemma FollowsFiring(def: Definition, p: nat, log: seq<Event>, log1: seq<Event>, e: string)
    requires log1 == log + [Arrive(Place(p, e))] + [Follow(Place(p, e))] || log1 == log + [Follow(Place(p, e))]
    ensures Follows(def, p, log, log1, [e])
  {
    hide Follows;
    FollowsNone(def, p, log);
    FollowsOne(def, p, log, e);
    FollowsOne(def, p, log + [Arrive(Place(p, e))], e);
    FollowsOn(def, p, log, log + [Arrive(Place(p, e))], log + [Arrive(Place(p, e))] + [Follow(Place(p, e))], [], [e]);
    assert [] + [e] == [e];
  }

  lemma NoJobs(p: nat, out: seq<Flow>)
    ensures (if out == [] then [Check(p)] else Takes(p, out)) != []
  {
  }

  lemma FiringStep(w: World, at: Place, n: nat, out: seq<Flow>)
    requires n <= 1 || Arrived(w, at) + 1 >= n
    ensures var s := ParallelStep(w, at, n, out);
            s.Go? && s.jobs == (if out == [] then [Check(at.inst)] else Takes(at.inst, out))
            && s.w.toks == w.toks[at := 0] && s.w.insts == w.insts
            && (s.w.log == w.log + [Arrive(at)] + [Follow(at)] || s.w.log == w.log + [Follow(at)])
  {
    hide Takes;
  }

  lemma ParallelGood(env: Env, w: World, p: nat, def: Definition, e: string, x: string, d: nat, out: seq<Flow>)
    requires Good(env, w, p, def, [Nav(p, e)], x, d) && e in def.elements && def.elements[e].ParallelGateway?
    ensures var s := ParallelStep(w, Place(p, e), FanIn(def, e), out); Good(env, s.w, p, def, s.jobs, x, d)
  {
    hide Good, Takes, FanIn;
    if FanIn(def, e) > 1 {
      JoinGood(env, w, p, def, e, x, d, out);
    } else {
      ProceedShape(p, def, out);
      PassGood(env, w, p, def, e, x, d, if out == [] then [Check(p)] else Takes(p, out));
    }
  }

  lemma ParallelFine(env: Env, w: World, p: nat, def: Definition, e: string, x: string, d: nat)
    requires Good(env, w, p, def, [Nav(p, e)], x, d) && e in def.elements && def.elements[e].ParallelGateway?
    ensures StepFine(env, w, p, def, Nav(p, e), ParallelStep(w, Place(p, e), FanIn(def, e), FlowsFrom(def.flows, e)),
        x, d)
  {
    hide *;
    if FanIn(def, e) <= 1 || Arrived(w, Place(p, e)) + 1 >= FanIn(def, e) {
      FireFine(env, w, p, def, e, x, d);
    } else {
      ParkFine(env, w, p, def, e, x, d);
    }
  }

  lemma ParkedMarking(def: Definition, p: nat, w: World, w1: World, e: string)
    requires w1.toks == w.toks && e in def.elements && IsGateway(def.elements[e])
    ensures Marking(w1, def, []) == Marking(w, def, [Nav(p, e)])
  {
    PendingOne(def, Nav(p, e));
  }

  lemma ProceedShape(p: nat, def: Definition, out: seq<Flow>)
    ensures var jobs := if out == [] then [Check(p)] else Takes(p, out);
            Shape(p, def, jobs) && forall at :: Entering(jobs, at) == 0
  {
    hide Takes;
    TakesShape(p, def, out);
  }
}
