// Join arithmetic, on every definition and over every run: whatever else happens in the engine, with m arrivals
// at a join of fan-in k it has fired m / k times, and m % k tokens are parked there.

module Joins {
  import opened Spec
  import opened Model
  import opened Machine
  import opened Operations
  import opened Lifecycle
  import opened Choices
  import opened Routes
  import opened TokenGame
  import opened TokenRuns
  import opened Frames
  import opened Footprints
  import TaskMoves = Moves

  // A parallel gateway that waits for several tokens, and that no instance begins with.
  ghost predicate JoinIn(def: Definition, e: string): (join: bool)
    ensures join <==> e in def.elements && def.elements[e].ParallelGateway? && FanIn(def, e) > 1 && def.start != e
  {
    FanInAwaits(def, e);
    e in def.elements && def.elements[e].ParallelGateway? && |Awaited(def, e)| > 1 && def.start != e
  }

  ghost predicate IsJoin(env: Env, w: World, at: Place) {
    && at.inst in w.insts && w.insts[at.inst].def in env.defs
    && JoinIn(env.defs[w.insts[at.inst].def], at.elem)
  }

  // How many tokens it waits for: one for each flow from a known element other than a service task.
  ghost function Wants(env: Env, w: World, at: Place): (k: nat)
    requires IsJoin(env, w, at)
    ensures k > 1 && k == FanIn(env.defs[w.insts[at.inst].def], at.elem)
  {
    FanInAwaits(env.defs[w.insts[at.inst].def], at.elem);
    |Awaited(env.defs[w.insts[at.inst].def], at.elem)|
  }

  // ---- What is kept at a join ----

  // No activity is at the join and no instance returns to it.
  ghost predicate Vacant(w: World, at: Place) {
    && (forall a :: a in w.acts ==> w.acts[a].at != at)
    && (forall q :: q in w.insts ==> w.insts[q].parent != Some(at))
  }

  // While its instance has not ended, things add up at the join, and it is entered only while the instance runs.
  ghost predicate JoinSound(env: Env, w: World, agenda: seq<Job>, at: Place) {
    IsJoin(env, w, at) && Alive(w.insts[at.inst]) ==>
      && Vacant(w, at)
      && JoinAdds(w, at, Wants(env, w, at), Entering(agenda, at))
      && (HeadAt(agenda, at) ==> w.insts[at.inst].state == Running)
  }

  // Only the job in front may leave an element.
  ghost predicate TakesBehind(agenda: seq<Job>) {
    forall i :: 1 <= i < |agenda| ==> agenda[i].Take?
  }

  // No definition with a join of this name is called with its caller's variables.
  ghost predicate Uninherited(env: Env, e: string) {
    forall d, c :: d in env.defs && c in env.defs[d].elements && env.defs[d].elements[c].CallActivity? ==>
      Untainted(env, env.defs[d].elements[c], e)
  }

  ghost predicate Untainted(env: Env, el: Element, e: string)
    requires el.CallActivity?
  {
    el.inheritVariables && el.calledElement in env.latest && env.latest[el.calledElement] in env.defs ==>
      !JoinIn(env.defs[env.latest[el.calledElement]], e)
  }

  // ---- Steps elsewhere ----

  // Nothing that matters at this place has changed.
  ghost predicate Spared(w: World, w1: World, at: Place) {
    && w1.toks[at] == w.toks[at] && Arrived(w1, at) == Arrived(w, at)
    && Count(w1.log, Arrive(at)) == Count(w.log, Arrive(at)) && Count(w1.log, Follow(at)) == Count(w.log, Follow(at))
  }

  lemma SparedAdds(w: World, w1: World, at: Place, k: nat, entering: nat)
    requires JoinAdds(w, at, k, entering) && Spared(w, w1, at)
    ensures JoinAdds(w1, at, k, entering)
  {
    hide Arrived, Count;
  }

  lemma {:induction false} CountOther(log: seq<Event>, log1: seq<Event>, e: Event)
    requires |log| <= |log1| && log1[..|log|] == log && forall i :: |log| <= i < |log1| ==> log1[i] != e
    ensures Count(log1, e) == Count(log, e)
    decreases |log1|
  {
    if |log1| == |log| {
      assert log1 == log;
    } else {
      var last := |log1| - 1;
      assert log1[..last][..|log|] == log;
      CountOther(log, log1[..last], e);
    }
  }

  lemma NearSpared(w: World, w1: World, x: Place, at: Place)
    requires Near(w, w1, x) && x != at && Bounded(w)
    ensures Spared(w, w1, at) && (Vacant(w, at) ==> Vacant(w1, at))
  {
    hide Arrived, Count, VarsOf;
    forall i | |w.log| <= i < |w1.log| ensures w1.log[i] != Arrive(at) && w1.log[i] != Follow(at) {
      assert About(w1.log[i], x);
    }
    CountOther(w.log, w1.log, Arrive(at));
    CountOther(w.log, w1.log, Follow(at));
  }

  lemma CallsSpared(env: Env, w: World, w1: World, x: Place, el: Element, at: Place)
    requires el.CallActivity? && CallsChild(env, w, w1, x, el) && x != at && Bounded(w)
    requires at.inst != w.next
    ensures Spared(w, w1, at) && (Vacant(w, at) ==> Vacant(w1, at))
  {
    hide Count;
    CountOther(w.log, w1.log, Arrive(at));
    CountOther(w.log, w1.log, Follow(at));
    assert Arrived(w1, at) == Arrived(w, at);
    hide Arrived, VarsOf;
  }

  lemma FinishesSpared(w: World, w1: World, p: nat, at: Place)
    requires Finishes(w, w1, p) && Vacant(w, at)
    ensures Spared(w, w1, at) && Vacant(w1, at)
  {
    hide Count;
    CountOther(w.log, w1.log, Arrive(at));
    CountOther(w.log, w1.log, Follow(at));
  }

  // A change elsewhere, before and after which the join is not being entered.
  lemma SparedSound(env: Env, w: World, w1: World, agenda: seq<Job>, agenda1: seq<Job>, at: Place)
    requires JoinSound(env, w, agenda, at) && !HeadAt(agenda, at) && !HeadAt(agenda1, at)
    requires at.inst in w.insts && at.inst in w1.insts && w1.insts[at.inst].def == w.insts[at.inst].def
    requires Alive(w1.insts[at.inst]) ==> Alive(w.insts[at.inst])
    requires Alive(w1.insts[at.inst]) && Vacant(w, at) ==> Spared(w, w1, at) && Vacant(w1, at)
    ensures JoinSound(env, w1, agenda1, at)
  {
    hide Arrived, Count, Vacant, Spared, FanIn, JoinAdds;
    if IsJoin(env, w1, at) && Alive(w1.insts[at.inst]) {
      SparedAdds(w, w1, at, Wants(env, w, at), 0);
    }
  }

  // ---- Steps at the join ----

  // The join is reached: its token is there, and it is about to be entered.
  lemma ReachSound(env: Env, w: World, p: nat, f: Flow, rest: seq<Job>)
    requires JoinSound(env, w, [Take(p, f)] + rest, Place(p, f.target)) && IsJoin(env, w, Place(p, f.target))
    requires Alive(w.insts[p]) ==> w.insts[p].state == Running
    ensures var s := TakeStep(env, w, p, f);
            s.Go? && s.jobs == [Nav(p, f.target)] && JoinSound(env, s.w, s.jobs + rest, Place(p, f.target))
  {
    hide FanIn, Count, Arrived, FlowsFrom;
    var at := Place(p, f.target);
    var w1 := AddTok(w, at);
    assert Arrived(w1, at) == Arrived(w, at) by { SameVars(w, w1, at); }
    assert !HeadAt([Take(p, f)] + rest, at);
    assert HeadAt([Nav(p, f.target)] + rest, at);
  }

  // The join is entered.
  lemma EnterSound(env: Env, w: World, at: Place, rest: seq<Job>)
    requires JoinSound(env, w, [Nav(at.inst, at.elem)] + rest, at) && IsJoin(env, w, at) && Bounded(w)
    requires TakesBehind([Nav(at.inst, at.elem)] + rest)
    ensures var s := NavStep(env, w, at.inst, at.elem); s.Go? && JoinSound(env, s.w, s.jobs + rest, at)
  {
    hide FanIn, FlowsFrom, ParallelStep, JoinAdds, Vacant, Takes;
    var s := NavStep(env, w, at.inst, at.elem);
    assert HeadAt([Nav(at.inst, at.elem)] + rest, at);
    RestTakes(Nav(at.inst, at.elem), rest);
    if w.insts[at.inst].state == Running {
      var def := env.defs[w.insts[at.inst].def];
      var out := FlowsFrom(def.flows, at.elem);
      var k := FanIn(def, at.elem);
      JoinStep(w, at, k, out);
      ParallelJobs(w, at, k, out);
      assert !HeadAt(s.jobs + rest, at);
      ParallelVacant(w, at, k, out);
    }
  }

  lemma RestTakes(job: Job, rest: seq<Job>)
    requires TakesBehind([job] + rest)
    ensures forall i :: 0 <= i < |rest| ==> rest[i].Take?
  {
    forall i | 0 <= i < |rest| ensures rest[i].Take? { assert ([job] + rest)[i + 1] == rest[i]; }
  }

  lemma ParallelVacant(w: World, at: Place, k: nat, out: seq<Flow>)
    ensures var s := ParallelStep(w, at, k, out);
            s.w.insts == w.insts && s.w.acts == w.acts && (Vacant(w, at) ==> Vacant(s.w, at))
  {
    hide Takes;
  }

  // ---- Any step ----

  lemma NavSound(env: Env, w: World, p: nat, e: string, rest: seq<Job>, at: Place)
    requires JoinSound(env, w, [Nav(p, e)] + rest, at) && TakesBehind([Nav(p, e)] + rest) && Bounded(w)
    ensures var s := NavStep(env, w, p, e);
            JoinSound(env, s.w, if s.Go? then s.jobs + rest else [], at) && (s.Go? ==> TakesBehind(s.jobs + rest))
  {
    hide JoinSound, NavStep, Near, Vacant, Spared, FlowsFrom;
    var s := NavStep(env, w, p, e);
    RestTakes(Nav(p, e), rest);
    NavAsks(env, w, p, e);
    if s.Go? { BehindTakes(s.jobs, rest); }
    if at == Place(p, e) && IsJoin(env, w, at) {
      EnterSound(env, w, at, rest);
    } else {
      NavFrames(env, w, p, e);
      NearInsts(w, s.w, Place(p, e));
      if at == Place(p, e) || at.inst !in w.insts {
        NotJoin(env, w, s.w, if s.Go? then s.jobs + rest else [], at);
      } else {
        NearSpared(w, s.w, Place(p, e), at);
        assert !HeadAt([Nav(p, e)] + rest, at);
        SparedSound(env, w, s.w, [Nav(p, e)] + rest, if s.Go? then s.jobs + rest else [], at);
      }
    }
  }

  lemma NotJoin(env: Env, w: World, w1: World, agenda: seq<Job>, at: Place)
    requires !IsJoin(env, w, at) && w1.insts == w.insts
    ensures JoinSound(env, w1, agenda, at)
  {
  }

  // Leaving an element asks for a check or for flows to be taken.
  ghost predicate Forward(jobs: seq<Job>) {
    forall i :: 0 <= i < |jobs| ==> !jobs[i].Nav? && (i > 0 ==> jobs[i].Take?)
  }

  lemma NavAsks(env: Env, w: World, p: nat, e: string)
    ensures NavStep(env, w, p, e).Go? ==> Forward(NavStep(env, w, p, e).jobs)
  {
    hide NavFrom, FlowsFrom, Selection, Takes;
    if p in w.insts && w.insts[p].state == Running && w.insts[p].def in env.defs
        && e in env.defs[w.insts[p].def].elements {
      var def := env.defs[w.insts[p].def];
      NavOnward(env, w, Place(p, e), def.elements[e], def, FlowsFrom(def.flows, e));
    }
  }

  lemma BehindTakes(jobs: seq<Job>, rest: seq<Job>)
    requires (Forward(jobs) || |jobs| == 1) && forall i :: 0 <= i < |rest| ==> rest[i].Take?
    ensures TakesBehind(jobs + rest) && (Forward(jobs) ==> forall at :: !HeadAt(jobs + rest, at))
    ensures forall at :: HeadAt(jobs + rest, at) ==> jobs == [Nav(at.inst, at.elem)]
  {
    forall i | 1 <= i < |jobs + rest| ensures (jobs + rest)[i].Take? {
      if i < |jobs| { assert (jobs + rest)[i] == jobs[i]; } else { assert (jobs + rest)[i] == rest[i - |jobs|]; }
    }
    if jobs != [] { assert (jobs + rest)[0] == jobs[0]; } else { assert jobs + rest == rest; }
  }

  // An instance is born with its joins untouched, unless it inherits the counter of a join of the same name.
  lemma BornSound(env: Env, w: World, x: Place, el: Element, rest: seq<Job>, e: string)
    requires el.CallActivity? && CallStep(env, w, x, el).Go? && Known(w) && Wf(w) && x.inst in w.insts
    requires JoinIn(env.defs[env.latest[el.calledElement]], e)
    ensures var s := CallStep(env, w, x, el);
            JoinSound(env, s.w, s.jobs + rest, Place(w.next, e)) <==>
            (!el.inheritVariables || Arrived(w, Place(x.inst, e)) == 0)
  {
    hide FanIn, CallStep, Count, VarsOf, CallActs, Known, Wf;
    var s := CallStep(env, w, x, el);
    var at := Place(w.next, e);
    CallCalls(env, w, x, el);
    NextUnused(w);
    WfIds(w, x.inst);
    BornNothing(w, s.w, x, el, at, env);
    var start := env.defs[env.latest[el.calledElement]].start;
    assert (s.jobs + rest)[0] == Nav(w.next, start);
    assert !HeadAt(s.jobs + rest, at);
    assert IsJoin(env, s.w, at);
  }

  lemma BornNothing(w: World, w1: World, x: Place, el: Element, at: Place, env: Env)
    requires el.CallActivity? && CallsChild(env, w, w1, x, el) && Unused(w, w.next) && Bounded(w) && at.inst == w.next
    requires at.elem != env.defs[env.latest[el.calledElement]].start && x.inst != w.next
    ensures Vacant(w1, at) && w1.toks[at] == 0
    ensures Count(w1.log, Arrive(at)) == 0 && Count(w1.log, Follow(at)) == 0
    ensures Arrived(w1, at) == if el.inheritVariables then Arrived(w, Place(x.inst, at.elem)) else 0
  {
    hide Count;
    assert at !in w.toks;
    CountNone(w1.log, Arrive(at));
    CountNone(w1.log, Follow(at));
    InheritedCounter(w, w1, x, at, el.inheritVariables);
    hide Arrived, VarsOf;
  }

  lemma InheritedCounter(w: World, w1: World, x: Place, at: Place, inherit: bool)
    requires VarsOf(w1, at.inst) == if inherit then VarsOf(w, x.inst) else map[]
    ensures Arrived(w1, at) == if inherit then Arrived(w, Place(x.inst, at.elem)) else 0
  {
  }

  lemma TakeAsks(env: Env, w: World, p: nat, f: Flow)
    ensures var s := TakeStep(env, w, p, f);
            s.Go? ==>
              || Forward(s.jobs) || s.jobs == [Nav(p, f.target)]
              || (IsCall(env, w, Place(p, f.target)) && |s.jobs| == 1)
  {
    hide TakeTo, FlowsFrom, Selection, Takes;
    if p in w.insts && w.insts[p].def in env.defs && f.target in env.defs[w.insts[p].def].elements {
      var def := env.defs[w.insts[p].def];
      var el := def.elements[f.target];
      if el.CallActivity? {
        TakeCalls(env, w, Place(p, f.target), el, FlowsFrom(def.flows, f.target));
      } else {
        EnterOnward(env, w, Place(p, f.target), el, FlowsFrom(def.flows, f.target));
      }
    }
  }

  // Taking a flow to anything but a call activity.
  lemma TakeSound(env: Env, w: World, p: nat, f: Flow, rest: seq<Job>, at: Place)
    requires JoinSound(env, w, [Take(p, f)] + rest, at) && TakesBehind([Take(p, f)] + rest) && Bounded(w)
    requires JobOk(w, Take(p, f)) && !IsCall(env, w, Place(p, f.target))
    ensures var s := TakeStep(env, w, p, f);
            JoinSound(env, s.w, if s.Go? then s.jobs + rest else [], at) && (s.Go? ==> TakesBehind(s.jobs + rest))
  {
    hide JoinSound, TakeStep, Near, Vacant, Spared, CallsChild, IsCall;
    var s := TakeStep(env, w, p, f);
    var x := Place(p, f.target);
    RestTakes(Take(p, f), rest);
    TakeAsks(env, w, p, f);
    if s.Go? { BehindTakes(s.jobs, rest); }
    if at == x && IsJoin(env, w, at) {
      ReachSound(env, w, p, f, rest);
    } else {
      TakeFrames(env, w, p, f);
      NearInsts(w, s.w, x);
      if at == x || at.inst !in w.insts {
        NotJoin(env, w, s.w, if s.Go? then s.jobs + rest else [], at);
      } else {
        NearSpared(w, s.w, x, at);
        SparedSound(env, w, s.w, [Take(p, f)] + rest, if s.Go? then s.jobs + rest else [], at);
      }
    }
  }

  // Taking a flow to a call activity.
  lemma CallSound(env: Env, w: World, p: nat, f: Flow, rest: seq<Job>, at: Place)
    requires JoinSound(env, w, [Take(p, f)] + rest, at) && TakesBehind([Take(p, f)] + rest) && Known(w) && Wf(w)
    requires IsCall(env, w, Place(p, f.target)) && Uninherited(env, at.elem)
    ensures var s := TakeStep(env, w, p, f);
            JoinSound(env, s.w, if s.Go? then s.jobs + rest else [], at) && (s.Go? ==> TakesBehind(s.jobs + rest))
  {
    hide JoinSound, CallStep, Vacant, Spared, CallsChild, FlowsFrom, Known, Wf, Uninherited, JoinIn;
    var s := TakeStep(env, w, p, f);
    var x := Place(p, f.target);
    var el := env.defs[w.insts[p].def].elements[f.target];
    RestTakes(Take(p, f), rest);
    assert s == CallStep(env, w, x, el);
    if s.Go? {
      CallCalls(env, w, x, el);
      BehindTakes(s.jobs, rest);
      CalledInsts(env, w, s.w, x, el);
      KnownParts(w);
      if at.inst == w.next {
        UninheritedHere(env, w.insts[p].def, f.target, at.elem);
        if JoinIn(env.defs[env.latest[el.calledElement]], at.elem) {
          BornSound(env, w, x, el, rest, at.elem);
        } else {
          NoJoin(env, s.w, s.jobs + rest, at);
        }
      } else if at.inst in w.insts && IsJoin(env, w, at) {
        CallNotJoin(env, w, x, at);
        CallsSpared(env, w, s.w, x, el, at);
        SparedSound(env, w, s.w, [Take(p, f)] + rest, s.jobs + rest, at);
      } else {
        NoJoin(env, s.w, s.jobs + rest, at);
      }
    } else {
      StuckCall(env, w, x, el);
      Forget(env, w, [Take(p, f)] + rest, at);
    }
  }

  lemma CallNotJoin(env: Env, w: World, x: Place, at: Place)
    requires IsCall(env, w, x) && IsJoin(env, w, at)
    ensures x != at
  {
  }

  lemma StuckCall(env: Env, w: World, x: Place, el: Element)
    requires el.CallActivity? && !CallStep(env, w, x, el).Go?
    ensures CallStep(env, w, x, el).w == w
  {
  }

  // Jobs that do not enter the join may be dropped.
  lemma Forget(env: Env, w: World, agenda: seq<Job>, at: Place)
    requires JoinSound(env, w, agenda, at) && !HeadAt(agenda, at)
    ensures JoinSound(env, w, [], at)
  {
    hide FanIn, Arrived, Count, Vacant;
  }

  lemma NoJoin(env: Env, w: World, agenda: seq<Job>, at: Place)
    requires !IsJoin(env, w, at)
    ensures JoinSound(env, w, agenda, at)
  {
  }

  lemma UninheritedHere(env: Env, d: string, c: string, e: string)
    requires Uninherited(env, e) && d in env.defs && c in env.defs[d].elements && env.defs[d].elements[c].CallActivity?
    ensures Untainted(env, env.defs[d].elements[c], e)
  {
  }

  lemma CalledInsts(env: Env, w: World, w1: World, x: Place, el: Element)
    requires el.CallActivity? && CallsChild(env, w, w1, x, el)
    ensures el.calledElement in env.latest && env.latest[el.calledElement] in env.defs
    ensures w.next in w1.insts && w1.insts == w.insts[w.next := w1.insts[w.next]]
    ensures w1.insts[w.next].def == env.latest[el.calledElement]
  {
  }

  lemma CheckSound(env: Env, w: World, p: nat, rest: seq<Job>, at: Place)
    requires JoinSound(env, w, [Check(p)] + rest, at) && TakesBehind([Check(p)] + rest) && p in w.insts
    ensures var s := CheckStep(w, p);
            s.Go? && JoinSound(env, s.w, s.jobs + rest, at) && TakesBehind(s.jobs + rest)
  {
    hide JoinSound, Vacant, Spared, HasToken, FinishActs, Returns, ReturnStep;
    var s := CheckStep(w, p);
    RestTakes(Check(p), rest);
    if HasToken(w, p) {
      assert s.jobs + rest == rest;
      Forget(env, w, [Check(p)] + rest, at);
      Remember(env, w, rest, at);
    } else {
      CheckFinishes(w, p);
      BehindTakes(s.jobs, rest);
      if at.inst in w.insts && Vacant(w, at) {
        FinishesSpared(w, s.w, p, at);
        NotCaller(w, p, at);
        SparedSound(env, w, s.w, [Check(p)] + rest, s.jobs + rest, at);
      } else {
        NotVacant(env, w, s.w, [Check(p)] + rest, s.jobs + rest, p, at);
      }
    }
  }

  lemma Remember(env: Env, w: World, rest: seq<Job>, at: Place)
    requires JoinSound(env, w, [], at) && !HeadAt(rest, at)
    ensures JoinSound(env, w, rest, at)
  {
    hide FanIn, Arrived, Count, Vacant;
  }

  lemma NotCaller(w: World, p: nat, at: Place)
    requires Vacant(w, at) && p in w.insts
    ensures w.insts[p].parent != Some(at)
  {
  }

  lemma NotVacant(env: Env, w: World, w1: World, agenda: seq<Job>, agenda1: seq<Job>, p: nat, at: Place)
    requires JoinSound(env, w, agenda, at) && (at.inst in w.insts ==> !Vacant(w, at))
    requires p in w.insts && w1.insts == w.insts[p := w.insts[p].(state := Completed, ended := true)]
    ensures JoinSound(env, w1, agenda1, at)
  {
    hide Vacant, JoinAdds, FanIn;
  }

  // One step of any navigation.
  lemma StepSound(env: Env, w: World, job: Job, rest: seq<Job>, at: Place)
    requires JoinSound(env, w, [job] + rest, at) && TakesBehind([job] + rest)
    requires Known(w) && Wf(w) && JobOk(w, job) && Uninherited(env, at.elem)
    ensures var s := StepJob(env, w, job);
            JoinSound(env, s.w, if s.Go? then s.jobs + rest else [], at) && (s.Go? ==> TakesBehind(s.jobs + rest))
  {
    hide JoinSound, TakesBehind, Known, Wf, NavStep, TakeStep, CheckStep, IsCall, Uninherited;
    KnownParts(w);
    match job
    case Nav(p, e) => NavSound(env, w, p, e, rest, at);
    case Take(p, f) =>
      if IsCall(env, w, Place(p, f.target)) {
        CallSound(env, w, p, f, rest, at);
      } else {
        TakeSound(env, w, p, f, rest, at);
      }
    case Check(p) => CheckSound(env, w, p, rest, at);
  }

  // ---- Moments of a navigation ----

  // After i steps of this agenda the engine is in world w1, with this much still to do.
  ghost predicate After(env: Env, w: World, agenda: seq<Job>, i: nat, w1: World, agenda1: seq<Job>)
    decreases i
  {
    if i == 0 then w1 == w && agenda1 == agenda
    else
      && agenda != [] && StepJob(env, w, agenda[0]).Go?
      && var s := StepJob(env, w, agenda[0]); After(env, s.w, s.jobs + agenda[1..], i - 1, w1, agenda1)
  }

  // What is true of every such moment.
  ghost predicate Moment(env: Env, w: World, agenda: seq<Job>, at: Place) {
    Known(w) && Wf(w) && JobsOk(w, agenda) && TakesBehind(agenda) && JoinSound(env, w, agenda, at)
  }

  lemma StepMoment(env: Env, w: World, agenda: seq<Job>, at: Place)
    requires Moment(env, w, agenda, at) && Uninherited(env, at.elem) && agenda != []
    ensures var s := StepJob(env, w, agenda[0]);
            && Known(s.w) && Wf(s.w)
            && if s.Go? then Moment(env, s.w, s.jobs + agenda[1..], at) else JoinSound(env, s.w, [], at)
  {
    hide Known, Wf, JoinSound, TakesBehind, Uninherited, StepJob, Drifts, JobOk;
    assert agenda == [agenda[0]] + agenda[1..];
    StepKnown(env, w, agenda[0]);
    StepDrifts(env, w, agenda[0]);
    StepSound(env, w, agenda[0], agenda[1..], at);
    var s := StepJob(env, w, agenda[0]);
    if s.Go? { JobsOkLater(w, s.w, s.jobs, agenda[1..]); }
  }

  lemma {:induction false} EveryMoment(env: Env, w: World, agenda: seq<Job>, i: nat, w1: World, agenda1: seq<Job>,
      at: Place)
    requires Moment(env, w, agenda, at) && Uninherited(env, at.elem) && After(env, w, agenda, i, w1, agenda1)
    ensures Moment(env, w1, agenda1, at)
    decreases i
  {
    hide Moment, Uninherited, StepJob;
    if i > 0 {
      var s := StepJob(env, w, agenda[0]);
      StepMoment(env, w, agenda, at);
      EveryMoment(env, s.w, s.jobs + agenda[1..], i - 1, w1, agenda1, at);
    }
  }

  lemma {:induction false} ExecSound(env: Env, w: World, agenda: seq<Job>, n: nat, at: Place)
    requires Moment(env, w, agenda, at) && Uninherited(env, at.elem) && !Exec(env, w, agenda, n).More?
    ensures JoinSound(env, Exec(env, w, agenda, n).w, [], at)
    decreases n
  {
    hide JoinSound, Uninherited, StepJob, Known, Wf, JobsOk, TakesBehind;
    if agenda != [] {
      StepMoment(env, w, agenda, at);
      var s := StepJob(env, w, agenda[0]);
      if s.Go? { ExecSound(env, s.w, s.jobs + agenda[1..], n - 1, at); }
    }
  }

  // ---- Operations ----

  // Any operation, but callers write no variables of the engine, and no task is moved to the join itself by
  // rejection or jump, where it would park without having arrived.
  ghost predicate Spares(w: World, op: Op, at: Place) {
    && (op.Start? || op.Complete? ==> CallerVars(op.vars))
    && ((op.Reject? || op.Jump?) && Subject(w, op) == Some(at.inst) ==> op.target != at.elem)
  }

  lemma StartSound(env: Env, w: World, def: string, vars: Vars, at: Place)
    requires JoinSound(env, w, [], at) && Known(w) && Wf(w) && CallerVars(vars) && PrepStart(env, w, def, vars).Go?
    ensures var s := PrepStart(env, w, def, vars); TakesBehind(s.jobs) && JoinSound(env, s.w, s.jobs, at)
  {
    hide JoinSound, WellFormed, FanIn, Vacant, Spared, Untouched;
    var s := PrepStart(env, w, def, vars);
    var start := Place(w.next, env.defs[def].start);
    assert !HeadAt([], at);
    if at.inst in w.insts {
      StartUntouched(env, w, def, vars, at.inst);
      UntouchedInst(w, s.w, at.inst);
      UntouchedSpared(w, s.w, at);
      WfIds(w, at.inst);
      StartVacant(env, w, def, vars, at);
      assert !HeadAt(s.jobs, at);
      SparedSound(env, w, s.w, [], s.jobs, at);
    } else if at.inst == w.next {
      NextUnused(w);
      FirstSound(env, w, def, vars, at);
    } else {
      NoJoin(env, s.w, s.jobs, at);
    }
  }

  lemma UntouchedSpared(w: World, w1: World, at: Place)
    requires Untouched(w, w1, at.inst)
    ensures Spared(w, w1, at)
  {
    hide SameActsOf, Count;
    assert Arrive(at).at.inst == at.inst && Follow(at).at.inst == at.inst && at == Place(at.inst, at.elem);
  }

  lemma StartVacant(env: Env, w: World, def: string, vars: Vars, at: Place)
    requires Wf(w) && at.inst in w.insts && PrepStart(env, w, def, vars).Go?
    ensures Vacant(w, at) ==> Vacant(PrepStart(env, w, def, vars).w, at)
  {
    hide WellFormed;
  }

  // A new root instance has its joins untouched.
  lemma FirstSound(env: Env, w: World, def: string, vars: Vars, at: Place)
    requires Unused(w, w.next) && Wf(w) && CallerVars(vars) && PrepStart(env, w, def, vars).Go? && at.inst == w.next
    ensures var s := PrepStart(env, w, def, vars); JoinSound(env, s.w, s.jobs, at)
  {
    hide WellFormed, FanIn, Count;
    var s := PrepStart(env, w, def, vars);
    CountNone(w.log, Arrive(at));
    CountNone(w.log, Follow(at));
    assert at !in w.toks;
    assert s.w.toks == w.toks && s.w.log == w.log;
    assert Arrived(s.w, at) == 0;
  }

  lemma PrepSound(env: Env, w: World, op: Op, at: Place)
    requires JoinSound(env, w, [], at) && Known(w) && Wf(w) && Spares(w, op, at) && !op.Start? && Prep(env, w, op).Go?
    ensures var s := Prep(env, w, op); TakesBehind(s.jobs) && JoinSound(env, s.w, s.jobs, at)
  {
    hide JoinSound, Prep, Within, Elems, SameCounters, Vacant, Spared, Known, Wf, Moves, Untouched;
    var s := Prep(env, w, op);
    KnownParts(w);
    OperationFootprint(env, w, op);
    PrepJobs(env, w, op);
    var q := Subject(w, op).value;
    WithinInsts(w, s.w, q, Elems(w, op));
    if at.inst !in w.insts {
      NoJoin(env, s.w, s.jobs, at);
    } else {
      WithinDef(w, s.w, q, Elems(w, op), at.inst);
      PrepMoves(env, w, op);
      AliveBefore(w, s.w, at.inst);
      if Alive(s.w.insts[at.inst]) && Vacant(w, at) {
        NotConcerned(env, w, op, at);
        ElsewhereSpared(w, s.w, q, Elems(w, op), at);
        assert !HeadAt(s.jobs, at);
        assert !HeadAt([], at);
        SparedSound(env, w, s.w, [], s.jobs, at);
      } else {
        EndedThere(env, w, s.w, s.jobs, at);
      }
    }
  }

  lemma AliveBefore(w: World, w1: World, p: nat)
    requires Moves(w, w1) && p in w.insts
    ensures p in w1.insts && (Alive(w1.insts[p]) ==> Alive(w.insts[p]))
  {
  }

  lemma EndedThere(env: Env, w: World, w1: World, jobs: seq<Job>, at: Place)
    requires JoinSound(env, w, [], at) && at.inst in w.insts && at.inst in w1.insts
    requires w1.insts[at.inst].def == w.insts[at.inst].def
    requires Alive(w1.insts[at.inst]) ==> Alive(w.insts[at.inst]) && !Vacant(w, at)
    ensures JoinSound(env, w1, jobs, at)
  {
    hide Vacant, JoinAdds, FanIn;
  }

  // The operation is not about the join.
  lemma NotConcerned(env: Env, w: World, op: Op, at: Place)
    requires Spares(w, op, at) && Vacant(w, at) && SignsBeside(w) && !op.Start? && Prep(env, w, op).Go?
    requires at.inst in Prep(env, w, op).w.insts && Alive(Prep(env, w, op).w.insts[at.inst])
    ensures Subject(w, op) == Some(at.inst) ==> at.elem !in Elems(w, op)
  {
    hide Prep, Alive;
    if Subject(w, op) == Some(at.inst) && !op.Suspend? && !op.Resume? {
      if op.Terminate? || (op.Reject? && op.mode == ToEnd) {
        EndingEnds(env, w, op);
      } else {
        ActExists(env, w, op);
        assert w.acts[op.act].at == Place(at.inst, w.acts[op.act].at.elem);
        if op.Reclaim? { ReclaimedElem(env, w, op); }
      }
    }
  }

  lemma EndingEnds(env: Env, w: World, op: Op)
    requires (op.Terminate? || (op.Reject? && op.mode == ToEnd)) && Prep(env, w, op).Go?
    ensures Subject(w, op).Some? && Subject(w, op).value in Prep(env, w, op).w.insts
    ensures !Alive(Prep(env, w, op).w.insts[Subject(w, op).value])
  {
    hide FinishAll, DropAllOf, FinishOne;
  }

  lemma ReclaimedElem(env: Env, w: World, op: Op)
    requires op.Reclaim? && Prep(env, w, op).Go?
    ensures op.act in w.acts
    ensures exists b :: b in w.acts && w.acts[b].at == Place(w.acts[op.act].at.inst, op.target)
  {
    hide ReclaimTo;
    var b :| IsLatest(w, op.act, b) && w.acts[b].at.elem == op.target;
    assert w.acts[b].at == Place(w.acts[op.act].at.inst, op.target);
  }

  lemma ElsewhereSpared(w: World, w1: World, q: nat, elems: iset<string>, at: Place)
    requires Within(w, w1, q, elems) && SameCounters(w, w1) && (at.inst == q ==> at.elem !in elems)
    requires Vacant(w, at)
    ensures Spared(w, w1, at) && Vacant(w1, at)
  {
    hide Count, Arrived, VarsWithin;
  }

  // One operation with all its navigation, whether it succeeds or fails.
  lemma OperationSound(env: Env, w: World, op: Op, n: nat, at: Place)
    requires JoinSound(env, w, [], at) && Known(w) && Wf(w) && Spares(w, op, at) && Uninherited(env, at.elem)
    requires !Apply(env, w, op, n).More?
    ensures JoinSound(env, Apply(env, w, op, n).w, [], at)
  {
    hide JoinSound, Prep, Spares, Known, Wf, Uninherited, Moment;
    var s := Prep(env, w, op);
    if s.Go? {
      FirstMoment(env, w, op, at);
      ExecSound(env, s.w, s.jobs, n, at);
    } else {
      RefusedStays(env, w, op);
    }
  }

  lemma FirstMoment(env: Env, w: World, op: Op, at: Place)
    requires JoinSound(env, w, [], at) && Known(w) && Wf(w) && Spares(w, op, at) && Prep(env, w, op).Go?
    ensures Moment(env, Prep(env, w, op).w, Prep(env, w, op).jobs, at)
  {
    hide JoinSound, Prep, Known, Wf, Moves, Drifts, TakesBehind, JobsOk;
    var s := Prep(env, w, op);
    PrepKnown(env, w, op);
    PrepMoves(env, w, op);
    NavsOk(s.w, s.jobs);
    if op.Start? {
      StartPrepIs(env, w, op);
      StartSound(env, w, op.def, op.vars, at);
    } else {
      PrepSound(env, w, op, at);
    }
  }

  // A run of such operations that begins before the join's instance exists.
  ghost predicate JoinRun(env: Env, ws: seq<World>, ops: seq<Op>, at: Place) {
    && History(env, ws, ops) && Known(ws[0]) && Wf(ws[0]) && at.inst !in ws[0].insts && Uninherited(env, at.elem)
    && forall i :: 0 <= i < |ops| ==> Spares(ws[i], ops[i], at)
  }

  lemma {:induction false} RunSound(env: Env, ws: seq<World>, ops: seq<Op>, at: Place, j: nat)
    requires JoinRun(env, ws, ops, at) && j < |ws|
    ensures JoinSound(env, ws[j], [], at) && Known(ws[j]) && Wf(ws[j])
  {
    hide JoinSound, Apply, Known, Wf, Uninherited, Spares;
    if j == 0 {
      NoJoin(env, ws[0], [], at);
    } else {
      RunSound(env, ws, ops, at, j - 1);
      assert Performs(env, ws[j - 1], ops[j - 1], ws[j - 1 + 1]) && Spares(ws[j - 1], ops[j - 1], at);
      var n: nat :| !Apply(env, ws[j - 1], ops[j - 1], n).More? && Apply(env, ws[j - 1], ops[j - 1], n).w == ws[j];
      OperationSound(env, ws[j - 1], ops[j - 1], n, at);
      OperationKnown(env, ws[j - 1], ops[j - 1], n);
    }
  }

  // ---- The law ----

  // With m arrivals at a join of fan-in k, it has fired m / k times and m % k tokens are parked, as its counter
  // says; one more token is there while it is being entered.
  ghost predicate JoinArithmetic(w: World, at: Place, k: nat, entering: nat)
    requires k > 0
  {
    var m := Count(w.log, Arrive(at));
    && Count(w.log, Follow(at)) == m / k
    && Arrived(w, at) == m % k
    && w.toks[at] == m % k + entering
  }

  lemma Divides(w: World, at: Place, k: nat, entering: nat)
    requires k > 0 && JoinAdds(w, at, k, entering)
    ensures JoinArithmetic(w, at, k, entering)
  {
    hide Count, Arrived;
    Quotient(Count(w.log, Arrive(at)), k, Count(w.log, Follow(at)), Arrived(w, at));
  }

  lemma Quotient(m: int, k: int, q: int, r: int)
    requires k > 0 && m == k * q + r && 0 <= r < k
    ensures m / k == q && m % k == r
  {
    var q1 := m / k;
    if q1 > q { Monotone(k, q + 1, q1); }
    if q1 < q { Monotone(k, q1 + 1, q); }
  }

  lemma Monotone(k: int, a: int, b: int)
    requires k > 0 && a <= b
    ensures k * a <= k * b
  {
    assert k * (b - a) >= 0;
  }

  // Over every run, on every definition, after every operation: at each join of an instance that has not ended.
  lemma JoinLaw(env: Env, ws: seq<World>, ops: seq<Op>, at: Place, j: nat)
    requires JoinRun(env, ws, ops, at) && j < |ws| && IsJoin(env, ws[j], at) && Alive(ws[j].insts[at.inst])
    ensures JoinArithmetic(ws[j], at, Wants(env, ws[j], at), 0)
  {
    hide JoinRun, Known, Wf, FanIn, Vacant, JoinArithmetic, JoinAdds;
    RunSound(env, ws, ops, at, j);
    assert !HeadAt([], at);
    Divides(ws[j], at, Wants(env, ws[j], at), 0);
  }

  // ... and at every moment in the middle of the next operation, also when firing the join has led back to it.
  lemma JoinLawWithin(env: Env, ws: seq<World>, ops: seq<Op>, at: Place, op: Op, i: nat, w1: World,
      agenda1: seq<Job>)
    requires JoinRun(env, ws, ops, at) && Spares(ws[|ops|], op, at) && Prep(env, ws[|ops|], op).Go?
    requires After(env, Prep(env, ws[|ops|], op).w, Prep(env, ws[|ops|], op).jobs, i, w1, agenda1)
    requires IsJoin(env, w1, at) && Alive(w1.insts[at.inst])
    ensures JoinArithmetic(w1, at, Wants(env, w1, at), Entering(agenda1, at))
  {
    hide Known, Wf, FanIn, Vacant, JoinArithmetic, JoinAdds, Prep, After, TakesBehind, JobsOk, Spares, Uninherited,
        Performs;
    var w := ws[|ops|];
    RunSound(env, ws, ops, at, |ops|);
    FirstMoment(env, w, op, at);
    EveryMoment(env, Prep(env, w, op).w, Prep(env, w, op).jobs, i, w1, agenda1, at);
    Divides(w1, at, Wants(env, w1, at), Entering(agenda1, at));
  }

  // ---- Why moves to a join are left out ----

  // A task that jumps to a join leaves a token there that has not arrived: the arithmetic no longer holds.
  lemma JumpBreaksJoin(env: Env, w: World, a: nat, target: string, n: nat)
    requires Known(w) && a in w.acts && w.acts[a].at.elem != target
    requires Apply(env, w, Op.Jump(a, target), n).Ended?
    requires var at := Place(w.acts[a].at.inst, target);
             IsJoin(env, w, at) && JoinArithmetic(w, at, Wants(env, w, at), 0)
    ensures var at := Place(w.acts[a].at.inst, target);
            !JoinArithmetic(Apply(env, w, Op.Jump(a, target), n).w, at, Wants(env, w, at), 0)
  {
    hide Known, FanIn, Count, JoinArithmetic, Apply, ActiveSigns, TaskMoves.Shifted, TaskMoves.SignsAt;
    var at := Place(w.acts[a].at.inst, target);
    JoinLocated(env, w, a, target);
    KnownParts(w);
    TaskMoves.JumpMoves(env, w, a, target, n);
    var w1 := Apply(env, w, Op.Jump(a, target), n).w;
    JumpLog(env, w, a, target, n);
    assert w1.toks[at] == w.toks[at] + 1;
    OneTooMany(w, w1, at, Wants(env, w, at));
  }

  // A rejection to a join, by any mode that names it, does the same.
  lemma RejectBreaksJoin(env: Env, w: World, a: nat, mode: RejectMode, target: string, reason: string, n: nat)
    requires Known(w) && a in w.acts && w.acts[a].at.elem != target && mode != ToEnd
    requires Apply(env, w, Op.Reject(a, mode, target, reason), n).Ended?
    requires var at := Place(w.acts[a].at.inst, target);
             IsJoin(env, w, at) && JoinArithmetic(w, at, Wants(env, w, at), 0)
    ensures var at := Place(w.acts[a].at.inst, target);
            !JoinArithmetic(Apply(env, w, Op.Reject(a, mode, target, reason), n).w, at, Wants(env, w, at), 0)
  {
    hide Known, FanIn, Count, JoinArithmetic, Apply;
    var at := Place(w.acts[a].at.inst, target);
    KnownParts(w);
    TaskMoves.RejectMoves(env, w, a, mode, target, reason, n);
    var w1 := Apply(env, w, Op.Reject(a, mode, target, reason), n).w;
    RejectLog(env, w, a, mode, target, reason, n);
    assert w1.toks[at] == w.toks[at] + 1;
    OneTooMany(w, w1, at, Wants(env, w, at));
  }

  lemma RejectLog(env: Env, w: World, a: nat, mode: RejectMode, target: string, reason: string, n: nat)
    requires ActsKnown(w) && a in w.acts && mode != ToEnd
    requires Apply(env, w, Op.Reject(a, mode, target, reason), n).Ended?
    ensures Apply(env, w, Op.Reject(a, mode, target, reason), n).w.log == w.log
  {
    hide Within, PrepReject, Elems, SameCounters, Exec;
    var op := Op.Reject(a, mode, target, reason);
    RejectStays(env, w, a, mode, target, reason);
    OperationFootprint(env, w, op);
    ExecNone(env, Prep(env, w, op).w, n);
    SameLog(w, Prep(env, w, op).w, w.acts[a].at.inst, Elems(w, op));
  }

  lemma RejectStays(env: Env, w: World, a: nat, mode: RejectMode, target: string, reason: string)
    ensures PrepReject(env, w, a, mode, target, reason).Go? ==>
              PrepReject(env, w, a, mode, target, reason).jobs == []
  {
    hide RejectTo, RejectToEnd, RejectLimit, NumAt, VarsOf;
  }

  lemma JoinLocated(env: Env, w: World, a: nat, target: string)
    requires a in w.acts && IsJoin(env, w, Place(w.acts[a].at.inst, target))
    ensures Located(env, w, a) && target in DefOf(env, w, a).elements
    ensures DefOf(env, w, a).elements[target].ParallelGateway?
  {
    hide FanIn;
  }

  lemma OneTooMany(w: World, w1: World, at: Place, k: nat)
    requires k > 0 && JoinArithmetic(w, at, k, 0) && w1.log == w.log && w1.toks[at] == w.toks[at] + 1
    ensures !JoinArithmetic(w1, at, k, 0)
  {
    hide Count, Arrived;
  }

  lemma JumpLog(env: Env, w: World, a: nat, target: string, n: nat)
    requires ActsKnown(w) && a in w.acts && Located(env, w, a) && target in DefOf(env, w, a).elements
    requires !DefOf(env, w, a).elements[target].EndEvent? && Apply(env, w, Op.Jump(a, target), n).Ended?
    ensures Apply(env, w, Op.Jump(a, target), n).w.log == w.log
  {
    hide Within, PrepJump, Elems, SameCounters, Exec;
    var op := Op.Jump(a, target);
    JumpStays(env, w, a, target);
    OperationFootprint(env, w, op);
    ExecNone(env, Prep(env, w, op).w, n);
    SameLog(w, Prep(env, w, op).w, w.acts[a].at.inst, Elems(w, op));
  }

  lemma JumpStays(env: Env, w: World, a: nat, target: string)
    requires a in w.acts && Located(env, w, a) && target in DefOf(env, w, a).elements
    requires !DefOf(env, w, a).elements[target].EndEvent?
    ensures PrepJump(env, w, a, target).Go? ==> PrepJump(env, w, a, target).jobs == []
  {
    hide FinishOne, ForgetSigns, Revisit;
  }

  lemma SameLog(w: World, w1: World, q: nat, elems: iset<string>)
    requires Within(w, w1, q, elems)
    ensures w1.log == w.log
  {
  }
}
