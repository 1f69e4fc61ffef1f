// Call activities: a child instance runs while a token waits for it at the call activity of its parent. As
// long as a call activity is not entered again while it waits, no parent completes before its children.

module Calls {
  import opened Spec
  import opened Model
  import opened Machine
  import opened Operations
  import opened Lifecycle
  import opened Routes
  import opened Frames
  import opened Footprints
  import opened TokenGame
  import opened TokenRuns

  // ---- The world of callers and children ----

  // c is a child that was called from this place and has not ended.
  ghost predicate ChildAt(w: World, c: nat, at: Place) {
    c in w.insts && Alive(w.insts[c]) && w.insts[c].parent == Some(at)
  }

  // While a child has not ended, a token waits for it at its call activity, and its parent is not Completed.
  ghost predicate Backed(env: Env, w: World) {
    forall c, at :: ChildAt(w, c, at) ==> at in w.toks && IsCall(env, w, at) && w.insts[at.inst].state != Completed
  }

  // At most one child at a place.
  ghost predicate Apart(w: World) {
    forall c, c1, at :: ChildAt(w, c, at) && ChildAt(w, c1, at) ==> c == c1
  }

  // User activities are not at call activities.
  ghost predicate TasksApart(env: Env, w: World) {
    forall a :: a in w.acts ==>
          w.acts[a].at.inst in w.insts
          && (w.acts[a].kind == UserKind ==> !IsCall(env, w, w.acts[a].at))
  }

  // Where an instance returns to when it completes. A call activity with the empty ID is never returned to.
  function Caller(i: Inst): Option<Place> {
    if i.parent.Some? && i.parent.value.elem != "" then i.parent else None
  }

  // How often children of this place have returned to a running parent, and how often child c has returned.
  function ReturnsTo(log: seq<Event>, at: Place): nat {
    if log == [] then 0
    else
      var e := log[|log| - 1];
      ReturnsTo(log[..|log| - 1], at) + (if e.Return? && e.at == at && e.live then 1 else 0)
  }

  function ReturnsOf(log: seq<Event>, c: nat): nat {
    if log == [] then 0
    else
      var e := log[|log| - 1];
      ReturnsOf(log[..|log| - 1], c) + (if e.Return? && e.child == c then 1 else 0)
  }

  // A child has returned once if it is Completed, and not before.
  ghost predicate Returned(w: World) {
    forall c :: ReturnsOf(w.log, c) == if c in w.insts && Caller(w.insts[c]).Some? && w.insts[c].state == Completed
        then 1 else 0
  }

  // At a call activity, flows are followed once for each return to a running parent; one that has just
  // happened is still due.
  ghost predicate Ledger(env: Env, w: World, agenda: seq<Job>) {
    forall at :: IsCall(env, w, at) ==> Count(w.log, Follow(at)) + Due(w, agenda, at) == ReturnsTo(w.log, at)
  }

  ghost function Due(w: World, agenda: seq<Job>, at: Place): nat {
    if HeadAt(agenda, at) && at.inst in w.insts && w.insts[at.inst].state == Running then 1 else 0
  }

  ghost predicate Sound(env: Env, w: World) {
    Wf(w) && Backed(env, w) && Apart(w) && TasksApart(env, w) && LogKnown(w) && Returned(w)
  }

  // ---- Agendas ----

  ghost predicate PlainTake(env: Env, w: World, job: Job) {
    && job.Take? && job.inst in w.insts && w.insts[job.inst].def in env.defs
    && PlainUser(env.defs[w.insts[job.inst].def], job.flow.target)
  }

  // Flows are taken, and completion checked, for a running instance; an element is left at a call activity
  // only when no child is there.
  ghost predicate JobSound(env: Env, w: World, job: Job) {
    && job.inst in w.insts
    && (job.Nav? ==> forall c :: !ChildAt(w, c, Place(job.inst, job.elem)))
    && (!job.Nav? ==> w.insts[job.inst].state == Running)
  }

  // One job, or several flows that all lead to plain user tasks.
  ghost predicate AgendaSound(env: Env, w: World, agenda: seq<Job>) {
    && (forall i :: 0 <= i < |agenda| ==> JobSound(env, w, agenda[i]))
    && (|agenda| <= 1 || forall i :: 0 <= i < |agenda| ==> PlainTake(env, w, agenda[i]))
  }

  // Definitions whose elements, if they can follow several flows, lead to plain user tasks, and whose start
  // is a start event.
  ghost predicate PlainDefs(env: Env) {
    && (forall d, e, i :: (d in env.defs && e in env.defs[d].elements && !env.defs[d].elements[e].ExclusiveGateway?
                           && |FlowsFrom(env.defs[d].flows, e)| >= 2 && 0 <= i < |FlowsFrom(env.defs[d].flows, e)|)
          ==> PlainUser(env.defs[d], FlowsFrom(env.defs[d].flows, e)[i].target))
    && (forall d :: d in env.defs && env.defs[d].start in env.defs[d].elements ==>
        env.defs[d].elements[env.defs[d].start].StartEvent?)
  }

  // ---- Steps that stay at one place ----

  lemma {:induction false} NearCounts(log: seq<Event>, log1: seq<Event>, at: Place)
    requires |log| <= |log1| && log1[..|log|] == log && forall i :: |log| <= i < |log1| ==> About(log1[i], at)
    ensures forall x :: ReturnsTo(log1, x) == ReturnsTo(log, x)
    ensures forall c :: ReturnsOf(log1, c) == ReturnsOf(log, c)
    ensures forall x :: x != at ==> Count(log1, Follow(x)) == Count(log, Follow(x))
    decreases |log1|
  {
    if |log1| == |log| {
      assert log1 == log;
    } else {
      var last := |log1| - 1;
      assert log1[..last][..|log|] == log;
      assert About(log1[last], at);
      NearCounts(log, log1[..last], at);
    }
  }

  // A step at one place, where no child is, keeps the world sound.
  lemma NearSound(env: Env, w: World, w1: World, at: Place)
    requires Sound(env, w) && Near(w, w1, at) && Wf(w1) && at.inst in w.insts
    requires forall c :: !ChildAt(w, c, at)
    requires IsCall(env, w, at) ==> w1.acts == w.acts
    ensures Sound(env, w1) && (forall x :: IsCall(env, w1, x) <==> IsCall(env, w, x))
    ensures forall c, x :: ChildAt(w1, c, x) <==> ChildAt(w, c, x)
  {
    hide Wf, ReturnsOf;
    NearCounts(w.log, w1.log, at);
    forall c, x ensures ChildAt(w1, c, x) <==> ChildAt(w, c, x) {}
    forall x ensures IsCall(env, w1, x) <==> IsCall(env, w, x) {}
    assert Apart(w1);
    assert Returned(w1);
    assert Backed(env, w1);
    LogStays(w, w1, at);
    NearTasks(env, w, w1, at);
  }

  lemma NearTasks(env: Env, w: World, w1: World, at: Place)
    requires TasksApart(env, w) && Near(w, w1, at) && at.inst in w.insts && (IsCall(env, w, at) ==> w1.acts == w.acts)
    ensures TasksApart(env, w1)
  {
    forall a | a in w1.acts ensures w1.acts[a].at.inst in w1.insts
        && (w1.acts[a].kind == UserKind ==> !IsCall(env, w1, w1.acts[a].at)) {
      if a in w.acts && w1.acts[a].at == w.acts[a].at && w1.acts[a].kind == w.acts[a].kind {
        assert w.acts[a].at.inst in w.insts;
      } else {
        assert w1.acts[a].at == at;
      }
    }
  }

  // ... and so do the jobs behind it.
  lemma NearLedger(env: Env, w: World, w1: World, at: Place, agenda: seq<Job>, agenda1: seq<Job>)
    requires Near(w, w1, at) && Ledger(env, w, agenda)
    requires forall x :: x != at ==> !HeadAt(agenda, x) && !HeadAt(agenda1, x)
    requires IsCall(env, w, at) ==>
        Count(w1.log, Follow(at)) + Due(w1, agenda1, at) == Count(w.log, Follow(at)) + Due(w, agenda, at)
    ensures Ledger(env, w1, agenda1)
  {
    hide Count;
    NearCounts(w.log, w1.log, at);
    forall x | IsCall(env, w1, x) ensures Count(w1.log, Follow(x)) + Due(w1, agenda1, x) == ReturnsTo(w1.log, x) {
      assert IsCall(env, w, x);
    }
  }

  // ---- Steps ----

  ghost predicate Config(env: Env, w: World, agenda: seq<Job>) {
    Sound(env, w) && AgendaSound(env, w, agenda) && Ledger(env, w, agenda)
  }

  // No call activity has been entered while it waited.
  ghost predicate NoOverlap(log: seq<Event>) {
    forall i :: 0 <= i < |log| ==> !log[i].Overlap?
  }

  // Several flows that follow one element lead to plain user tasks.
  lemma OnwardSound(env: Env, w: World, w1: World, p: nat, e: string, s: Step)
    requires PlainDefs(env) && p in w.insts && w.insts[p].state == Running && w.insts[p].def in env.defs
        && e in env.defs[w.insts[p].def].elements
    requires w1.insts == w.insts && s.Go? && Onward(p, FlowsFrom(env.defs[w.insts[p].def].flows, e), s)
    requires env.defs[w.insts[p].def].elements[e].ExclusiveGateway? ==> |s.jobs| <= 1
    ensures AgendaSound(env, w1, s.jobs) && forall x :: !HeadAt(s.jobs, x)
  {
    hide FlowsFrom, Selection, Takes, ChildAt, PlainUser;
    var out := FlowsFrom(env.defs[w.insts[p].def].flows, e);
    if s.jobs != [] && s.jobs != [Check(p)] {
      var fs :| s.jobs == Takes(p, fs) && Selection(fs, out);
      SelectionIn(fs, out);
      if |fs| >= 2 {
        forall i | 0 <= i < |fs| ensures PlainTake(env, w1, s.jobs[i]) {
          assert fs[i] in out;
          var j :| 0 <= j < |out| && out[j] == fs[i];
        }
      }
    }
  }

  lemma NavConfig(env: Env, w: World, p: nat, e: string)
    requires Config(env, w, [Nav(p, e)]) && PlainDefs(env)
    ensures var s := NavStep(env, w, p, e); s.Go? ==> Config(env, s.w, s.jobs)
  {
    hide Sound, Ledger, PlainDefs, FlowsFrom, NavFrom, Near, Onward, ChildAt, Wf;
    var s := NavStep(env, w, p, e);
    assert JobSound(env, w, [Nav(p, e)][0]);
    if w.insts[p].state != Running {
      StillConfig(env, w, p, e);
    } else if s.Go? {
      var d := w.insts[p].def;
      var def := env.defs[d];
      var at := Place(p, e);
      var out := FlowsFrom(def.flows, e);
      SoundWf(env, w);
      NavNear(env, w, at, def, def.elements[e], out);
      NavFromLocal(env, w, at, def, def.elements[e], out);
      ExtendsDrifts(w, s.w);
      NavCallActs(env, w, at, def, def.elements[e], out);
      NearSound(env, w, s.w, at);
      NavOnward(env, w, at, def.elements[e], def, out);
      ExclusiveOne(env, w, at, def, def.elements[e], out);
      OnwardSound(env, w, s.w, p, e, s);
      NearLedger(env, w, s.w, at, [Nav(p, e)], s.jobs);
    }
  }

  lemma SoundWf(env: Env, w: World)
    requires Sound(env, w)
    ensures Wf(w)
  {
  }

  lemma StillConfig(env: Env, w: World, p: nat, e: string)
    requires Config(env, w, [Nav(p, e)]) && p in w.insts && w.insts[p].state != Running
    ensures Config(env, w, [])
  {
    hide Sound, Count, IsCall;
    assert forall x :: Due(w, [Nav(p, e)], x) == 0 && Due(w, [], x) == 0;
  }

  lemma ExclusiveOne(env: Env, w: World, at: Place, def: Definition, el: Element, out: seq<Flow>)
    ensures el.ExclusiveGateway? ==> var s := NavFrom(env, w, at, def, el, out); s.Go? ==> |s.jobs| <= 1
  {
    hide ExclusiveChoice;
  }

  // Leaving a call activity creates no activity and records that its flows are followed.
  lemma NavCallActs(env: Env, w: World, at: Place, def: Definition, el: Element, out: seq<Flow>)
    ensures el.CallActivity? ==>
              var s := NavFrom(env, w, at, def, el, out);
              s.w.acts == w.acts && Count(s.w.log, Follow(at)) == Count(w.log, Follow(at)) + 1
  {
    hide Count, Takes;
    CountLogged(w.log, Follow(at), Follow(at));
  }

  lemma NoChild(env: Env, w: World, at: Place)
    requires Sound(env, w) && !IsCall(env, w, at)
    ensures forall c :: !ChildAt(w, c, at)
  {
    hide Wf;
  }

  // Taking a flow to anything but a call activity.
  lemma TakeConfig(env: Env, w: World, p: nat, f: Flow, rest: seq<Job>)
    requires Config(env, w, [Take(p, f)] + rest) && PlainDefs(env) && TakeStep(env, w, p, f).Go?
    requires !IsCall(env, w, Place(p, f.target))
    ensures var s := TakeStep(env, w, p, f); Config(env, s.w, s.jobs + rest)
  {
    hide Sound, Ledger, PlainDefs, FlowsFrom, TakeTo, Near, Onward, ChildAt, Wf, AgendaSound;
    var s := TakeStep(env, w, p, f);
    HeadSound(env, w, Take(p, f), rest);
    var def := env.defs[w.insts[p].def];
    var at := Place(p, f.target);
    var out := FlowsFrom(def.flows, f.target);
    SoundWf(env, w);
    TakeNear(env, w, at, def.elements[f.target], out);
    TakeToLocal(env, w, at, def.elements[f.target], out);
    ExtendsDrifts(w, s.w);
    NoChild(env, w, at);
    NearSound(env, w, s.w, at);
    TakeJobs(env, w, p, f);
    assert forall x :: x != at ==> !HeadAt(s.jobs, x);
    if rest == [] {
      assert s.jobs + rest == s.jobs;
    } else {
      assert s.jobs + rest == rest;
      RestSound(env, w, s.w, Take(p, f), rest);
    }
    NearLedger(env, w, s.w, at, [Take(p, f)] + rest, s.jobs + rest);
  }

  lemma HeadSound(env: Env, w: World, job: Job, rest: seq<Job>)
    requires AgendaSound(env, w, [job] + rest)
    ensures JobSound(env, w, job) && (rest != [] ==> PlainTake(env, w, job))
    ensures !job.Take? ==> rest == []
  {
    assert ([job] + rest)[0] == job;
  }

  lemma RestSound(env: Env, w: World, w1: World, job: Job, rest: seq<Job>)
    requires AgendaSound(env, w, [job] + rest) && rest != [] && w1.insts == w.insts
    ensures AgendaSound(env, w1, rest) && forall x :: !HeadAt(rest, x)
  {
    hide ChildAt, PlainUser;
    forall i | 0 <= i < |rest| ensures JobSound(env, w1, rest[i]) && PlainTake(env, w1, rest[i]) {
      assert ([job] + rest)[i + 1] == rest[i];
      assert JobSound(env, w, rest[i]) && PlainTake(env, w, rest[i]);
    }
  }

  lemma TakeJobs(env: Env, w: World, p: nat, f: Flow)
    requires PlainDefs(env) && TakeStep(env, w, p, f).Go? && p in w.insts && w.insts[p].state == Running
    requires !IsCall(env, w, Place(p, f.target)) && forall c :: !ChildAt(w, c, Place(p, f.target))
    requires TakeStep(env, w, p, f).w.insts == w.insts
    ensures var s := TakeStep(env, w, p, f);
            && AgendaSound(env, s.w, s.jobs)
            && (forall x :: x != Place(p, f.target) ==> !HeadAt(s.jobs, x))
            && (PlainTake(env, w, Take(p, f)) ==> s.jobs == [])
  {
    hide PlainDefs, FlowsFrom, TakeTo, Onward, ChildAt, AgendaSound;
    var s := TakeStep(env, w, p, f);
    var def := env.defs[w.insts[p].def];
    var at := Place(p, f.target);
    var out := FlowsFrom(def.flows, f.target);
    OneNavLater(env, w, s.w, p, f.target);
    NoneSound(env, s.w);
    EnterOnward(env, w, at, def.elements[f.target], out);
    if s.jobs != [] && s.jobs != [Nav(p, f.target)] {
      OnwardSound(env, w, s.w, p, f.target, s);
    }
  }

  lemma OneNavLater(env: Env, w: World, w1: World, p: nat, e: string)
    requires p in w.insts && w1.insts == w.insts && forall c :: !ChildAt(w, c, Place(p, e))
    ensures AgendaSound(env, w1, [Nav(p, e)]) && forall x :: x != Place(p, e) ==> !HeadAt([Nav(p, e)], x)
  {
    forall c ensures !ChildAt(w1, c, Place(p, e)) { assert !ChildAt(w, c, Place(p, e)); }
  }

  lemma NoneSound(env: Env, w: World)
    ensures AgendaSound(env, w, [])
  {
  }

  // ---- Calling ----

  // What a new instance changes: it runs, nothing else does, and the token of its caller, if it has one, is
  // put where none was.
  ghost predicate Called(env: Env, w: World, w1: World, caller: Option<Place>, d: string) {
    var child := w.next;
    && d in env.defs && child !in w.insts
    && child in w1.insts && w1.insts == w.insts[child := w1.insts[child]]
    && w1.insts[child].def == d && w1.insts[child].state == Running && w1.insts[child].parent == caller
    && w1.log == w.log
    && (match caller
        case None => w1.toks == w.toks
        case Some(at) => at !in w.toks && at.inst in w.insts && w1.toks == w.toks + multiset{at})
    && (forall a :: a in w1.acts && (a in w.acts ==> w1.acts[a] != w.acts[a]) ==>
          w1.acts[a].kind != UserKind
          && w1.acts[a].at.inst in w1.insts)
  }

  lemma OverlapShows(log: seq<Event>, at: Place)
    ensures !NoOverlap(log + [Overlap(at)])
  {
    assert (log + [Overlap(at)])[|log|].Overlap?;
  }

  lemma CallParts(env: Env, w: World, at: Place, el: Element)
    requires el.CallActivity? && Wf(w) && at.inst in w.insts
    requires CallStep(env, w, at, el).Go? && NoOverlap(CallStep(env, w, at, el).w.log)
    ensures el.calledElement in env.latest
    ensures var s := CallStep(env, w, at, el);
            var d := env.latest[el.calledElement];
            Called(env, w, s.w, Some(at), d) && s.jobs == [Nav(w.next, env.defs[d].start)]
  {
    hide VarsOf, NoOverlap;
    OverlapShows(w.log, at);
  }

  lemma CalledPlaces(env: Env, w: World, w1: World, caller: Option<Place>, d: string)
    requires Called(env, w, w1, caller, d)
    ensures forall x: Place :: x.inst in w.insts ==> (IsCall(env, w1, x) <==> IsCall(env, w, x))
    ensures forall c, x :: ChildAt(w1, c, x) <==> ChildAt(w, c, x) || (c == w.next && caller == Some(x))
  {
    forall x: Place | x.inst in w.insts ensures IsCall(env, w1, x) <==> IsCall(env, w, x) {}
    forall c, x ensures ChildAt(w1, c, x) <==> ChildAt(w, c, x) || (c == w.next && caller == Some(x)) {}
  }

  lemma CalledSound(env: Env, w: World, w1: World, caller: Option<Place>, d: string)
    requires Sound(env, w) && Called(env, w, w1, caller, d) && Wf(w1)
    requires caller.Some? ==> IsCall(env, w, caller.value) && w.insts[caller.value.inst].state == Running
    ensures Sound(env, w1)
  {
    hide Wf, ReturnsOf;
    CalledPlaces(env, w, w1, caller, d);
    assert Backed(env, w1) by { CalledBacked(env, w, w1, caller, d); }
    assert Apart(w1) by { CalledApart(env, w, w1, caller, d); }
    assert TasksApart(env, w1) by { CalledTasks(env, w, w1, caller, d); }
    assert Returned(w1) by { CalledReturned(w, w1, w.next); }
  }

  lemma CalledReturned(w: World, w1: World, child: nat)
    requires Returned(w) && w1.log == w.log && child !in w.insts && child in w1.insts
        && w1.insts == w.insts[child := w1.insts[child]]
    requires w1.insts[child].state == Running
    ensures Returned(w1)
  {
    hide ReturnsOf;
  }

  lemma CalledBacked(env: Env, w: World, w1: World, caller: Option<Place>, d: string)
    requires Backed(env, w) && Called(env, w, w1, caller, d)
    requires caller.Some? ==> IsCall(env, w, caller.value) && w.insts[caller.value.inst].state == Running
    ensures Backed(env, w1)
  {
    CalledPlaces(env, w, w1, caller, d);
    hide IsCall, ChildAt;
    forall c, x | ChildAt(w1, c, x) ensures x in w1.toks && IsCall(env, w1, x) && w1.insts[x.inst].state != Completed {
      assert IsCall(env, w, x) && x.inst in w.insts && w.insts[x.inst].state != Completed by { CallInst(env, w, x); }
      assert w1.insts[x.inst] == w.insts[x.inst];
    }
  }

  lemma CallInst(env: Env, w: World, at: Place)
    ensures IsCall(env, w, at) ==> at.inst in w.insts
  {
  }

  lemma CalledApart(env: Env, w: World, w1: World, caller: Option<Place>, d: string)
    requires Backed(env, w) && Apart(w) && Called(env, w, w1, caller, d)
    ensures Apart(w1)
  {
    CalledPlaces(env, w, w1, caller, d);
    forall c, c1, x | ChildAt(w1, c, x) && ChildAt(w1, c1, x) ensures c == c1 {
      assert ChildAt(w, c, x) ==> x in w.toks;
      assert ChildAt(w, c1, x) ==> x in w.toks;
    }
  }

  lemma CalledTasks(env: Env, w: World, w1: World, caller: Option<Place>, d: string)
    requires TasksApart(env, w) && Called(env, w, w1, caller, d)
    ensures TasksApart(env, w1)
  {
    CalledPlaces(env, w, w1, caller, d);
    hide IsCall;
  }

  lemma {:induction false} NoEvents(log: seq<Event>, at: Place)
    requires forall i :: 0 <= i < |log| ==> log[i].at != at
    ensures Count(log, Follow(at)) == 0 && ReturnsTo(log, at) == 0
  {
    if log != [] { NoEvents(log[..|log| - 1], at); }
  }

  lemma CalledLedger(env: Env, w: World, w1: World, caller: Option<Place>, d: string, agenda: seq<Job>)
    requires PlainDefs(env) && LogKnown(w) && Called(env, w, w1, caller, d) && Ledger(env, w, agenda)
        && (agenda == [] || !agenda[0].Nav?)
    ensures Ledger(env, w1, [Nav(w.next, env.defs[d].start)])
  {
    hide Count, ReturnsTo;
    CalledPlaces(env, w, w1, caller, d);
    var agenda1 := [Nav(w.next, env.defs[d].start)];
    forall x | IsCall(env, w1, x) ensures Count(w1.log, Follow(x)) + Due(w1, agenda1, x) == ReturnsTo(w1.log, x) {
      if x.inst == w.next {
        NoEvents(w.log, x);
      } else {
        assert IsCall(env, w, x);
      }
    }
  }

  lemma CallConfig(env: Env, w: World, p: nat, f: Flow)
    requires Config(env, w, [Take(p, f)]) && PlainDefs(env) && IsCall(env, w, Place(p, f.target))
    requires TakeStep(env, w, p, f).Go? && NoOverlap(TakeStep(env, w, p, f).w.log)
    ensures var s := TakeStep(env, w, p, f); Config(env, s.w, s.jobs)
  {
    hide Sound, Ledger, PlainDefs, FlowsFrom, CallStep, Wf, NoOverlap, Called;
    var at := Place(p, f.target);
    var el := env.defs[w.insts[p].def].elements[f.target];
    var s := TakeStep(env, w, p, f);
    assert JobSound(env, w, [Take(p, f)][0]);
    SoundWf(env, w);
    CallParts(env, w, at, el);
    CallStepDrifts(env, w, at, el);
    var d := env.latest[el.calledElement];
    CalledSound(env, w, s.w, Some(at), d);
    SoundLog(env, w);
    CalledLedger(env, w, s.w, Some(at), d, [Take(p, f)]);
    NewbornAlone(env, w, s.w, Some(at), d);
  }

  lemma SoundLog(env: Env, w: World)
    requires Sound(env, w)
    ensures LogKnown(w)
  {
  }

  // Nobody has been called from the new instance.
  lemma NewbornAlone(env: Env, w: World, w1: World, caller: Option<Place>, d: string)
    requires Wf(w) && Called(env, w, w1, caller, d)
    ensures AgendaSound(env, w1, [Nav(w.next, env.defs[d].start)])
  {
    CalledPlaces(env, w, w1, caller, d);
    forall c ensures !ChildAt(w1, c, Place(w.next, env.defs[d].start)) {}
  }

  // ---- Completing ----

  // An instance without tokens has no children: it may complete.
  lemma NoTokensNoChildren(env: Env, w: World, p: nat)
    requires Backed(env, w) && !HasToken(w, p)
    ensures forall c, x :: ChildAt(w, c, x) ==> x.inst != p
  {
    forall c, x | ChildAt(w, c, x) ensures x.inst != p { assert x in w.toks; }
  }

  // The world once p is complete and its token at `at`, if it had a caller, is taken.
  ghost predicate Ends(w: World, w1: World, p: nat) {
    && p in w.insts && w.insts[p].state == Running
    && w1.insts == w.insts[p := w.insts[p].(state := Completed, ended := true)]
    && (forall a :: a in w1.acts ==> a in w.acts && w1.acts[a].at == w.acts[a].at && w1.acts[a].kind == w.acts[a].kind)
    && match Caller(w.insts[p])
       case None => w1.toks == w.toks && w1.log == w.log
       case Some(at) => w1.toks == w.toks - multiset{at} && w1.log == w.log + [Return(at, p, RunsAt(w, at))]
  }

  lemma EndsPlaces(env: Env, w: World, w1: World, p: nat)
    requires Ends(w, w1, p)
    ensures forall x :: IsCall(env, w1, x) <==> IsCall(env, w, x)
    ensures forall c, x :: ChildAt(w1, c, x) <==> ChildAt(w, c, x) && c != p
  {
    forall x ensures IsCall(env, w1, x) <==> IsCall(env, w, x) {}
    forall c, x ensures ChildAt(w1, c, x) <==> ChildAt(w, c, x) && c != p {}
  }

  lemma EndsSound(env: Env, w: World, w1: World, p: nat)
    requires Sound(env, w) && Ends(w, w1, p) && !HasToken(w, p) && Wf(w1)
    ensures Sound(env, w1)
  {
    hide Wf, ReturnsOf, HasToken;
    EndsPlaces(env, w, w1, p);
    assert Backed(env, w1) by { EndsBacked(env, w, w1, p); }
    assert Returned(w1) by { EndsReturned(env, w, w1, p); }
    assert LogKnown(w1) by { EndsLog(env, w, w1, p); }
  }

  lemma EndsBacked(env: Env, w: World, w1: World, p: nat)
    requires Backed(env, w) && Apart(w) && Ends(w, w1, p) && !HasToken(w, p)
    ensures Backed(env, w1)
  {
    EndsPlaces(env, w, w1, p);
    NoTokensNoChildren(env, w, p);
    hide IsCall, HasToken;
    forall c, x | ChildAt(w1, c, x) ensures x in w1.toks && IsCall(env, w1, x) && w1.insts[x.inst].state != Completed {
      assert ChildAt(w, c, x) && IsCall(env, w, x);
      CallInst(env, w, x);
      assert w.insts[p].parent == Some(x) ==> ChildAt(w, p, x);
    }
  }

  lemma EndsReturned(env: Env, w: World, w1: World, p: nat)
    requires Returned(w) && Ends(w, w1, p)
    ensures Returned(w1)
  {
    hide ReturnsOf;
    forall c ensures ReturnsOf(w1.log, c) == if c in w1.insts && Caller(w1.insts[c]).Some?
        && w1.insts[c].state == Completed then 1 else 0 {
      assert ReturnsOf(w.log, c) == if c in w.insts && Caller(w.insts[c]).Some? && w.insts[c].state == Completed
          then 1 else 0;
      if Caller(w.insts[p]).Some? { ReturnsLogged(w.log, w1.log[|w.log|], c); }
    }
  }

  lemma ReturnsLogged(log: seq<Event>, e: Event, c: nat)
    ensures ReturnsOf(log + [e], c) == ReturnsOf(log, c) + if e.Return? && e.child == c then 1 else 0
  {
    assert (log + [e])[..|log + [e]| - 1] == log;
  }

  lemma EndsLog(env: Env, w: World, w1: World, p: nat)
    requires LogKnown(w) && Backed(env, w) && Ends(w, w1, p)
    ensures LogKnown(w1)
  {
    if Caller(w.insts[p]).Some? {
      assert ChildAt(w, p, Caller(w.insts[p]).value);
    }
  }

  lemma EndsLedger(env: Env, w: World, w1: World, p: nat)
    requires Ledger(env, w, [Check(p)]) && Ends(w, w1, p)
        && (Caller(w.insts[p]).Some? ==> Caller(w.insts[p]).value.inst != p)
    ensures Ledger(env, w1, match Caller(w.insts[p]) case None => [] case Some(at) => [Nav(at.inst, at.elem)])
  {
    hide Count;
    EndsPlaces(env, w, w1, p);
    forall x | IsCall(env, w1, x)
      ensures Count(w1.log, Follow(x)) + Due(w1,
          match Caller(w.insts[p]) case None => [] case Some(at) => [Nav(at.inst, at.elem)], x) == ReturnsTo(w1.log, x)
    {
      assert IsCall(env, w, x);
      if Caller(w.insts[p]).Some? {
        CountLogged(w.log, w1.log[|w.log|], Follow(x));
        assert w1.log[..|w1.log| - 1] == w.log;
      }
    }
  }

  lemma CheckEnds(env: Env, w: World, p: nat)
    requires Sound(env, w) && p in w.insts && w.insts[p].state == Running && !HasToken(w, p)
    ensures var s := CheckStep(w, p);
            s.Go? && Ends(w, s.w, p)
                && s.jobs == match Caller(w.insts[p]) case None => [] case Some(at) => [Nav(at.inst, at.elem)]
  {
    hide Wf, Apart, TasksApart, Returned, LogKnown, HasToken, ReturnStep;
    var w1 := MarkCompleted(w, p);
    if Caller(w.insts[p]).Some? {
      var at := Caller(w.insts[p]).value;
      assert ChildAt(w, p, at);
      assert at in w.toks;
      ParentOther(w, p, at);
      ReturnTakes(w1, at, p);
    } else {
      ReturnNothing(w1, w.insts[p].parent, p);
    }
  }

  lemma ReturnNothing(w: World, parent: Option<Place>, p: nat)
    requires parent.Some? ==> parent.value.elem == ""
    ensures ReturnStep(w, parent, p) == Go(w, [])
  {
  }

  lemma FinishKeeps(w: World, which: set<nat>)
    ensures var w1 := FinishAll(w, which);
            && w1.insts == w.insts && w1.toks == w.toks && w1.log == w.log
            && forall a :: a in w1.acts ==>
                  a in w.acts && w1.acts[a].at == w.acts[a].at
                  && w1.acts[a].kind == w.acts[a].kind
  {
  }

  lemma ParentOther(w: World, p: nat, at: Place)
    requires p in w.insts && w.insts[p].parent == Some(at)
    ensures Wf(w) ==> at.inst != p
  {
  }

  lemma CheckConfig(env: Env, w: World, p: nat)
    requires Config(env, w, [Check(p)])
    ensures var s := CheckStep(w, p); s.Go? ==> Config(env, s.w, s.jobs)
  {
    hide Sound, Ledger, CheckStep, Wf, HasToken, Ends, ChildAt;
    assert JobSound(env, w, [Check(p)][0]);
    var s := CheckStep(w, p);
    if HasToken(w, p) {
      assert s == Go(w, []) by { CheckStays(w, p); }
      CheckNothing(env, w, p);
    } else {
      SoundWf(env, w);
      CheckStepDrifts(w, p);
      CheckEnds(env, w, p);
      EndsSound(env, w, s.w, p);
      if Caller(w.insts[p]).Some? { ParentOther(w, p, Caller(w.insts[p]).value); }
      EndsLedger(env, w, s.w, p);
      ReturnSound(env, w, s.w, p);
    }
  }

  lemma CheckStays(w: World, p: nat)
    requires HasToken(w, p) && p in w.insts
    ensures CheckStep(w, p) == Go(w, [])
  {
    hide HasToken;
  }

  lemma CheckNothing(env: Env, w: World, p: nat)
    requires Config(env, w, [Check(p)])
    ensures Config(env, w, [])
  {
    hide Sound, Count, IsCall;
    assert forall x :: Due(w, [Check(p)], x) == 0 && Due(w, [], x) == 0;
  }

  // When the caller moves on, no child is at the call activity any more.
  lemma ReturnSound(env: Env, w: World, w1: World, p: nat)
    requires Sound(env, w) && Ends(w, w1, p)
    ensures AgendaSound(env, w1, match Caller(w.insts[p]) case None => [] case Some(at) => [Nav(at.inst, at.elem)])
  {
    hide Wf, TasksApart, Returned, LogKnown;
    EndsPlaces(env, w, w1, p);
    if Caller(w.insts[p]).Some? {
      var at := Caller(w.insts[p]).value;
      assert ChildAt(w, p, at);
      forall c ensures !ChildAt(w1, c, at) { assert ChildAt(w, c, at) ==> c == p; }
    }
  }

  // ---- Whole navigations ----

  lemma StepConfig(env: Env, w: World, job: Job, rest: seq<Job>)
    requires Config(env, w, [job] + rest) && PlainDefs(env) && StepJob(env, w, job).Go?
        && NoOverlap(StepJob(env, w, job).w.log)
    ensures var s := StepJob(env, w, job); Config(env, s.w, s.jobs + rest)
  {
    hide Config, PlainDefs, NoOverlap, NavStep, TakeStep, CheckStep, IsCall;
    ConfigHead(env, w, job, rest);
    match job
    case Nav(p, e) =>
      NavConfig(env, w, p, e);
      assert StepJob(env, w, job).jobs + [] == StepJob(env, w, job).jobs;
    case Take(p, f) =>
      if IsCall(env, w, Place(p, f.target)) {
        CallConfig(env, w, p, f);
        assert StepJob(env, w, job).jobs + [] == StepJob(env, w, job).jobs;
      } else {
        TakeConfig(env, w, p, f, rest);
      }
    case Check(p) =>
      CheckConfig(env, w, p);
      assert StepJob(env, w, job).jobs + [] == StepJob(env, w, job).jobs;
  }

  lemma ConfigHead(env: Env, w: World, job: Job, rest: seq<Job>)
    requires Config(env, w, [job] + rest)
    ensures (job.Take? && !IsCall(env, w, Place(job.inst, job.flow.target))) || (rest == [] && Config(env, w, [job]))
  {
    hide Sound, Ledger, ChildAt;
    HeadSound(env, w, job, rest);
    if rest == [] { assert [job] + rest == [job]; }
  }

  // The history only grows.
  lemma StepLog(env: Env, w: World, job: Job)
    ensures w.log <= StepJob(env, w, job).w.log
  {
    hide NavFrom, TakeTo, FlowsFrom, CheckStep, Near;
    match job
    case Nav(p, e) =>
      if p in w.insts && w.insts[p].state == Running && w.insts[p].def in env.defs
          && e in env.defs[w.insts[p].def].elements {
        var def := env.defs[w.insts[p].def];
        NavNear(env, w, Place(p, e), def, def.elements[e], FlowsFrom(def.flows, e));
        NearLog(w, NavStep(env, w, p, e).w, Place(p, e));
      }
    case Take(p, f) =>
      if p in w.insts && w.insts[p].def in env.defs && f.target in env.defs[w.insts[p].def].elements {
        var def := env.defs[w.insts[p].def];
        TakeLog(env, w, Place(p, f.target), def.elements[f.target], FlowsFrom(def.flows, f.target));
      }
    case Check(p) => CheckLog(w, p);
  }

  lemma NearLog(w: World, w1: World, at: Place)
    requires Near(w, w1, at)
    ensures w.log <= w1.log
  {
  }

  lemma TakeLog(env: Env, w: World, at: Place, el: Element, out: seq<Flow>)
    ensures w.log <= TakeTo(env, w, at, el, out).w.log
  {
    hide TakeTo, Near, CallStep;
    if el.CallActivity? {
      TakeCalls(env, w, at, el, out);
      CallLog(env, w, at, el);
    } else {
      TakeNear(env, w, at, el, out);
      NearLog(w, TakeTo(env, w, at, el, out).w, at);
    }
  }

  lemma CallLog(env: Env, w: World, at: Place, el: Element)
    requires el.CallActivity?
    ensures w.log <= CallStep(env, w, at, el).w.log
  {
    hide VarsOf;
  }

  lemma CheckLog(w: World, p: nat)
    ensures w.log <= CheckStep(w, p).w.log
  {
    hide HasToken, ActiveAt;
    if p in w.insts && w.insts[p].parent.Some? {
      var at := w.insts[p].parent.value;
      FinishKeeps(DropOne(MarkCompleted(w, p), at), ActiveAt(MarkCompleted(w, p), at));
    }
  }

  lemma {:induction false} ExecLog(env: Env, w: World, agenda: seq<Job>, n: nat)
    ensures var o := Exec(env, w, agenda, n); !o.More? ==> w.log <= o.w.log
    decreases n
  {
    hide StepJob;
    if agenda != [] && n > 0 {
      StepLog(env, w, agenda[0]);
      match StepJob(env, w, agenda[0])
      case Stuck(_) =>
      case Go(w1, jobs) => ExecLog(env, w1, jobs + agenda[1..], n - 1);
    }
  }

  lemma {:induction false} ExecConfig(env: Env, w: World, agenda: seq<Job>, n: nat)
    requires Config(env, w, agenda) && PlainDefs(env) && Exec(env, w, agenda, n).Ended?
        && NoOverlap(Exec(env, w, agenda, n).w.log)
    ensures Config(env, Exec(env, w, agenda, n).w, [])
    decreases n
  {
    hide Config, PlainDefs, StepJob, NoOverlap;
    if agenda != [] {
      var s := StepJob(env, w, agenda[0]);
      ExecLog(env, s.w, s.jobs + agenda[1..], n - 1);
      OverlapEarlier(s.w.log, Exec(env, w, agenda, n).w.log);
      assert agenda == [agenda[0]] + agenda[1..];
      StepConfig(env, w, agenda[0], agenda[1..]);
      ExecConfig(env, s.w, s.jobs + agenda[1..], n - 1);
    }
  }

  lemma OverlapEarlier(log: seq<Event>, log1: seq<Event>)
    requires log <= log1 && NoOverlap(log1)
    ensures NoOverlap(log)
  {
    forall i | 0 <= i < |log| ensures !log[i].Overlap? { assert log[i] == log1[i]; }
  }

  // ---- Operations ----

  ghost predicate AtRest(env: Env, w: World) {
    Config(env, w, [])
  }

  // Every operation except those that end an instance without telling its caller or its children (terminating,
  // rejecting to the end), a jump to an end event, which may fail part-way outside any transaction, and moves
  // of, or to, a call activity.
  ghost predicate Simple(env: Env, w: World, op: Op) {
    if op.Start? || op.Suspend? || op.Resume? then true
    else if op.Terminate? || (op.Reject? && op.mode == ToEnd) then false
    else
      op.act in w.acts ==>
        && w.acts[op.act].kind == UserKind
        && (op.Reject? || op.Jump? || op.Reclaim? ==> Enterable(env, w, Place(w.acts[op.act].at.inst, op.target)))
  }

  // A place to which a task may be moved.
  ghost predicate Enterable(env: Env, w: World, at: Place) {
    && !IsCall(env, w, at)
    && (at.inst in w.insts && w.insts[at.inst].def in env.defs
        && at.elem in env.defs[w.insts[at.inst].def].elements ==>
          !env.defs[w.insts[at.inst].def].elements[at.elem].EndEvent?)
  }

  lemma StartConfig(env: Env, w: World, def: string, vars: Vars)
    requires AtRest(env, w) && PlainDefs(env) && PrepStart(env, w, def, vars).Go?
    ensures var s := PrepStart(env, w, def, vars); Config(env, s.w, s.jobs)
  {
    hide Sound, Ledger, PlainDefs, Called, WellFormed, Wf, ChildAt;
    var s := PrepStart(env, w, def, vars);
    SoundWf(env, w);
    StartParts(env, w, def, vars);
    StartDrifts(env, w, Start(def, vars));
    CalledSound(env, w, s.w, None, def);
    SoundLog(env, w);
    CalledLedger(env, w, s.w, None, def, []);
    NewbornAlone(env, w, s.w, None, def);
  }

  lemma StartParts(env: Env, w: World, def: string, vars: Vars)
    requires Wf(w) && PrepStart(env, w, def, vars).Go?
    ensures var s := PrepStart(env, w, def, vars);
            Called(env, w, s.w, None, def)
            && s.jobs == [Nav(w.next, env.defs[def].start)]
  {
    hide WellFormed;
  }

  // What an operation on an instance may change without anybody noticing: nothing at a call activity, and its
  // state only between Running and Suspended.
  ghost predicate Unnoticed(env: Env, w: World, w1: World, q: nat, elems: iset<string>) {
    && Within(w, w1, q, elems) && (forall e :: e in elems ==> !IsCall(env, w, Place(q, e)))
    && (w1.insts[q].state == w.insts[q].state || (Alive(w.insts[q]) && Alive(w1.insts[q])))
  }

  lemma UnnoticedPlaces(env: Env, w: World, w1: World, q: nat, elems: iset<string>)
    requires Unnoticed(env, w, w1, q, elems)
    ensures forall x :: IsCall(env, w1, x) <==> IsCall(env, w, x)
    ensures forall c, x :: ChildAt(w1, c, x) <==> ChildAt(w, c, x)
  {
    hide TokensWithin, VarsWithin, ActsWithin;
    forall x ensures IsCall(env, w1, x) <==> IsCall(env, w, x) {}
    forall c, x ensures ChildAt(w1, c, x) <==> ChildAt(w, c, x) {}
  }

  lemma UnnoticedSound(env: Env, w: World, w1: World, q: nat, elems: iset<string>)
    requires Sound(env, w) && Unnoticed(env, w, w1, q, elems) && Wf(w1)
    ensures Sound(env, w1)
  {
    hide Wf, ReturnsOf, VarsWithin;
    UnnoticedPlaces(env, w, w1, q, elems);
    assert Backed(env, w1) by { UnnoticedBacked(env, w, w1, q, elems); }
    assert TasksApart(env, w1) by { UnnoticedTasks(env, w, w1, q, elems); }
    hide IsCall, ChildAt;
    assert Apart(w1);
    assert Returned(w1);
  }

  lemma UnnoticedBacked(env: Env, w: World, w1: World, q: nat, elems: iset<string>)
    requires Backed(env, w) && Unnoticed(env, w, w1, q, elems)
    ensures Backed(env, w1)
  {
    hide VarsWithin, ActsWithin;
    UnnoticedPlaces(env, w, w1, q, elems);
    hide IsCall, ChildAt;
    forall c, x | ChildAt(w1, c, x) ensures x in w1.toks && IsCall(env, w1, x) && w1.insts[x.inst].state != Completed {
      assert ChildAt(w, c, x) && IsCall(env, w, x);
      CallInst(env, w, x);
      assert x == Place(x.inst, x.elem);
    }
  }

  lemma UnnoticedTasks(env: Env, w: World, w1: World, q: nat, elems: iset<string>)
    requires TasksApart(env, w) && Unnoticed(env, w, w1, q, elems)
    ensures TasksApart(env, w1)
  {
    hide VarsWithin, TokensWithin;
    UnnoticedPlaces(env, w, w1, q, elems);
    hide IsCall;
    forall a | a in w1.acts ensures w1.acts[a].at.inst in w1.insts
        && (w1.acts[a].kind == UserKind ==> !IsCall(env, w1, w1.acts[a].at)) {
      if a !in w.acts { assert w1.acts[a].at == Place(q, w1.acts[a].at.elem); }
    }
  }

  lemma UnnoticedConfig(env: Env, w: World, w1: World, q: nat, elems: iset<string>, jobs: seq<Job>)
    requires AtRest(env, w) && Unnoticed(env, w, w1, q, elems) && Wf(w1)
    requires jobs == [] || exists e :: e in elems && jobs == [Nav(q, e)]
    ensures Config(env, w1, jobs)
  {
    hide Sound, Count, Wf, IsCall, ChildAt, Within, ReturnsTo;
    UnnoticedSound(env, w, w1, q, elems);
    UnnoticedPlaces(env, w, w1, q, elems);
    UnnoticedInst(env, w, w1, q, elems);
    forall x | IsCall(env, w1, x) ensures Count(w1.log, Follow(x)) + Due(w1, jobs, x) == ReturnsTo(w1.log, x) {
      assert IsCall(env, w, x);
      if jobs != [] {
        var e :| e in elems && jobs == [Nav(q, e)];
        assert x != Place(q, e);
      }
    }
    if jobs != [] {
      var e :| e in elems && jobs == [Nav(q, e)];
      NoChild(env, w1, Place(q, e));
    }
  }

  lemma UnnoticedInst(env: Env, w: World, w1: World, q: nat, elems: iset<string>)
    requires Unnoticed(env, w, w1, q, elems)
    ensures q in w1.insts && w1.log == w.log
  {
  }

  // The elements that an operation is about are not call activities.
  lemma SimpleElems(env: Env, w: World, op: Op)
    requires TasksApart(env, w) && SignsBeside(w) && Simple(env, w, op) && !op.Start? && Prep(env, w, op).Go?
    ensures Subject(w, op).Some? && forall e :: e in Elems(w, op) ==> !IsCall(env, w, Place(Subject(w, op).value, e))
  {
    hide IsCall, Prep;
    if !op.Suspend? && !op.Resume? {
      ActExists(env, w, op);
      var at := w.acts[op.act].at;
      assert at == Place(at.inst, at.elem);
    }
  }

  lemma SimpleState(env: Env, w: World, op: Op)
    requires Simple(env, w, op) && !op.Start? && Prep(env, w, op).Go?
    ensures forall q :: q in w.insts && q in Prep(env, w, op).w.insts ==>
              var i, i1 := w.insts[q], Prep(env, w, op).w.insts[q];
              i1.state == i.state || (Alive(i) && Alive(i1))
  {
    hide IsCall;
    if op.Suspend? || op.Resume? {
    } else if op.Complete? {
      hide PrepComplete;
      CompleteState(env, w, op.act, op.vars);
    } else {
      hide Prep;
      NotEnding(env, w, op);
      TaskOpExtends(env, w, op);
    }
  }

  lemma NotEnding(env: Env, w: World, op: Op)
    requires Simple(env, w, op) && !op.Start? && !op.Suspend? && !op.Resume? && !op.Complete?
    ensures !ChangesState(op)
  {
  }

  lemma CompleteState(env: Env, w: World, a: nat, vars: Vars)
    ensures var w1 := PrepComplete(env, w, a, vars).w;
            forall q :: q in w.insts && q in w1.insts ==> w1.insts[q].state == w.insts[q].state
  {
    hide FinishOne, CompleteRest, MergeVars;
    if IsActiveTask(w, a) {
      var p := w.acts[a].at.inst;
      FinishOneKeeps(w, a);
      FinishKeys(w, a);
      if p in w.insts {
        SubmitActs(w, a, p, vars);
        MergeParts(w, FinishOne(w, a), p, vars);
        CompleteExtends(env, Submit(FinishOne(w, a), p, vars), p, a, Approves(vars));
      }
    }
  }

  lemma PrepConfig(env: Env, w: World, op: Op)
    requires AtRest(env, w) && Known(w) && Simple(env, w, op) && !op.Start? && Prep(env, w, op).Go?
    ensures Config(env, Prep(env, w, op).w, Prep(env, w, op).jobs)
  {
    hide AtRest, Config, Prep, Known, Wf, Simple, Elems, Within, IsCall;
    var s := Prep(env, w, op);
    RestParts(env, w);
    KnownParts(w);
    PrepMoves(env, w, op);
    OperationFootprint(env, w, op);
    WithinInst(w, s.w, Subject(w, op).value, Elems(w, op));
    SimpleElems(env, w, op);
    SimpleState(env, w, op);
    PrepJobs(env, w, op);
    WithinInsts(w, s.w, Subject(w, op).value, Elems(w, op));
    UnnoticedConfig(env, w, s.w, Subject(w, op).value, Elems(w, op), s.jobs);
  }

  lemma RestParts(env: Env, w: World)
    requires AtRest(env, w)
    ensures Wf(w) && TasksApart(env, w)
  {
    hide Ledger, Backed, Apart, LogKnown, Returned;
  }

  // Operations other than starts and completions ask for nothing.
  lemma NothingAsked(env: Env, w: World, op: Op)
    requires Simple(env, w, op) && !op.Start? && !op.Complete?
    ensures var s := Prep(env, w, op); if s.Go? then s.jobs == [] else s.w == w
  {
    hide FinishOne, SetState, RejectTo, ReclaimTo, LatestElsewhere, ActiveSigns, CandidateList, RejectLimit,
        Revisit, ForgetSigns, OpenSession, AddSigns;
  }

  // One operation, whether it succeeds or fails.
  lemma OperationConfig(env: Env, w: World, op: Op, n: nat)
    requires AtRest(env, w) && Known(w) && PlainDefs(env) && Simple(env, w, op) && !Apply(env, w, op, n).More?
        && NoOverlap(Apply(env, w, op, n).w.log)
    ensures AtRest(env, Apply(env, w, op, n).w)
  {
    hide AtRest, PlainDefs, Simple, NoOverlap, Prep, Known, Exec;
    var s := Prep(env, w, op);
    if !op.Start? && !op.Complete? { NothingAsked(env, w, op); }
    if s.Go? {
      if op.Start? {
        StartPrepIs(env, w, op);
        StartConfig(env, w, op.def, op.vars);
      } else {
        PrepConfig(env, w, op);
      }
      if Apply(env, w, op, n).Ended? {
        ExecRest(env, s, n);
      } else if !Transactional(op) {
        ExecNone(env, s.w, n);
      }
    }
  }

  lemma ExecRest(env: Env, s: Step, n: nat)
    requires s.Go? && Config(env, s.w, s.jobs) && PlainDefs(env) && Finish(env, s, n).Ended?
        && NoOverlap(Finish(env, s, n).w.log)
    ensures AtRest(env, Finish(env, s, n).w)
  {
    hide Config, PlainDefs, NoOverlap, Exec;
    ExecConfig(env, s.w, s.jobs, n);
  }

  // ---- Runs ----

  // A run of such operations on plain-split definitions in which no call activity is entered while it waits.
  ghost predicate CallsRun(env: Env, ws: seq<World>, ops: seq<Op>) {
    && History(env, ws, ops) && AtRest(env, ws[0]) && Known(ws[0]) && PlainDefs(env)
    && (forall i :: 0 <= i < |ops| ==> Simple(env, ws[i], ops[i]))
    && (forall i :: 0 <= i < |ws| ==> NoOverlap(ws[i].log))
  }

  lemma {:induction false} CallsLaw(env: Env, ws: seq<World>, ops: seq<Op>, j: nat)
    requires CallsRun(env, ws, ops) && j < |ws|
    ensures AtRest(env, ws[j]) && Known(ws[j])
  {
    hide AtRest, PlainDefs, Simple, NoOverlap, Apply, Known;
    if j > 0 {
      CallsLaw(env, ws, ops, j - 1);
      RestParts(env, ws[j - 1]);
      assert Performs(env, ws[j - 1], ops[j - 1], ws[j - 1 + 1]);
      var n: nat :| !Apply(env, ws[j - 1], ops[j - 1], n).More? && Apply(env, ws[j - 1], ops[j - 1], n).w == ws[j];
      assert Simple(env, ws[j - 1], ops[j - 1]);
      OperationConfig(env, ws[j - 1], ops[j - 1], n);
      OperationKnown(env, ws[j - 1], ops[j - 1], n);
    }
  }

  // No parent is Completed before its children have ended: after every operation of such a run, a child that
  // is Running or Suspended is waited for by a token, and its parent is not Completed.
  lemma ParentsOutlive(env: Env, ws: seq<World>, ops: seq<Op>, j: nat, c: nat)
    requires CallsRun(env, ws, ops) && j < |ws| && c in ws[j].insts && ws[j].insts[c].parent.Some?
    requires Alive(ws[j].insts[c])
    ensures var at := ws[j].insts[c].parent.value;
            at in ws[j].toks && at.inst in ws[j].insts && ws[j].insts[at.inst].state != Completed
  {
    hide CallsRun, Ledger, Wf, TasksApart, Returned, Known;
    CallsLaw(env, ws, ops, j);
    assert ChildAt(ws[j], c, ws[j].insts[c].parent.value);
  }

  // After every operation of such a run, the flows of a call activity have been followed as often as children
  // returned to it while its instance was running, and each child has returned once if it is Completed, and
  // not before.
  lemma FollowedOncePerChild(env: Env, ws: seq<World>, ops: seq<Op>, j: nat, at: Place, c: nat)
    requires CallsRun(env, ws, ops) && j < |ws| && IsCall(env, ws[j], at)
    ensures Count(ws[j].log, Follow(at)) == ReturnsTo(ws[j].log, at)
    ensures ReturnsOf(ws[j].log, c) == if c in ws[j].insts && Caller(ws[j].insts[c]).Some?
        && ws[j].insts[c].state == Completed then 1 else 0
  {
    hide CallsRun, Backed, Wf, TasksApart, LogKnown, IsCall, Known, Apart;
    CallsLaw(env, ws, ops, j);
  }

  // Such runs may begin with an empty store.
  lemma NothingAtRest(env: Env, clock: nat)
    ensures var w := World(map[], multiset{}, map[], map[], 0, clock, []); AtRest(env, w) && Known(w)
  {
  }
}
