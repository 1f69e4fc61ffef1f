// Whole navigations of the token game: what starting an instance and completing a task do to the tokens.

module TokenRuns {
  import opened Spec
  import opened Model
  import opened Bags
  import opened Machine
  import opened Operations
  import opened Lifecycle
  import opened TokenGame

  // ---- One step of any job ----

  lemma NavFine(env: Env, w: World, p: nat, def: Definition, e: string, x: string, d: nat)
    requires Good(env, w, p, def, [Nav(p, e)], x, d) && BasicDef(def) && w.insts[p].state == Running
    ensures StepFine(env, w, p, def, Nav(p, e), NavStep(env, w, p, e), x, d)
  {
    hide Counts, FlowsFrom, Leave, StepFine, ParallelStep, InclusiveStep, ExclusiveStep, FanIn, DropAll, Bounded;
    if e in def.elements {
      assert Basic(def.elements[e]);
      match def.elements[e].Kind()
      case StartKind => LeaveFine(env, w, p, def, e, x, d);
      case ServiceKind => LeaveFine(env, w, p, def, e, x, d);
      case EndKind => EndFine(env, w, p, def, e, x, d);
      case ExclusiveKind => ExclusiveFine(env, w, p, def, e, x, d);
      case InclusiveKind => InclusiveFine(env, w, p, def, e, x, d);
      case ParallelKind => ParallelFine(env, w, p, def, e, x, d);
      case UserKind => NotTask(p, def, e);
      case CatchKind => NotTask(p, def, e);
      case CallKind => NotBasic(def, e);
      case ThrowKind => LeaveFine(env, w, p, def, e, x, d);
      case BoundaryKind => LeaveFine(env, w, p, def, e, x, d);
    } else {
      StuckFine(env, w, p, def, Nav(p, e), x, d);
    }
  }

  lemma NotTask(p: nat, def: Definition, e: string)
    requires Shape(p, def, [Nav(p, e)])
    ensures !Waits(def, e)
  {
  }

  lemma NotBasic(def: Definition, e: string)
    requires BasicDef(def) && e in def.elements
    ensures !def.elements[e].CallActivity?
  {
    assert Basic(def.elements[e]);
  }

  lemma StuckFine(env: Env, w: World, p: nat, def: Definition, job: Job, x: string, d: nat)
    ensures StepFine(env, w, p, def, job, Stuck(w), x, d)
  {
  }

  lemma TakeTaskFine(env: Env, w: World, p: nat, def: Definition, f: Flow, x: string, d: nat)
    requires Good(env, w, p, def, [Take(p, f)], x, d) && TaskAt(def, f.target)
    ensures StepFine(env, w, p, def, Take(p, f),
        Go(EnterTask(env, w, Place(p, f.target), def.elements[f.target]), []), x, d)
  {
    hide Counts, Opens, PlainSplit, EnterTask, Plays, Marking, Good, Follows;
    var at := Place(p, f.target);
    var w1 := EnterTask(env, w, at, def.elements[f.target]);
    EnterTaskGood(env, w, p, def, f, x, d);
    EnterTaskToks(env, w, at, def.elements[f.target]);
    assert HasToken(w1, p) by { assert at in w1.toks; }
    TakePlays(def, p, w, w1, f, []);
  }

  lemma EnterTaskToks(env: Env, w: World, at: Place, el: Element)
    requires el.UserTask?
    ensures EnterTask(env, w, at, el).toks == w.toks + multiset{at} && EnterTask(env, w, at, el).log == w.log
  {
  }

  // Taking a flow turns a pending token into one in the store, or leaves it pending.
  lemma TakePlays(def: Definition, p: nat, w: World, w1: World, f: Flow, jobs: seq<Job>)
    requires w1.toks + PendingAll(def, jobs) == w.toks + multiset{Place(p, f.target)} && w1.log == w.log
    requires !ThrowAt(def, f.target)
    ensures Plays(def, p, Marking(w, def, [Take(p, f)]), Marking(w1, def, jobs), w.log, w1.log,
        Fired(def, Take(p, f), jobs))
  {
    hide Follows, PendingAll;
    FollowsNone(def, p, w.log);
    PendingOne(def, Take(p, f));
  }

  lemma TakeDoneFine(env: Env, w: World, p: nat, def: Definition, f: Flow, kind: Kind, x: string, d: nat)
    requires Good(env, w, p, def, [Take(p, f)], x, d)
    requires f.target in def.elements && (def.elements[f.target].ServiceTask? || def.elements[f.target].EndEvent?)
    ensures StepFine(env, w, p, def, Take(p, f), Go(AddDone(w, Place(p, f.target), kind), [Nav(p, f.target)]), x, d)
  {
    hide Counts, Opens, PlainSplit, Plays, Marking, Good, Follows;
    EnterDoneGood(env, w, p, def, f, kind, x, d);
    PendingOne(def, Nav(p, f.target));
    TakePlays(def, p, w, AddDone(w, Place(p, f.target), kind), f, [Nav(p, f.target)]);
  }

  lemma TakeGatewayFine(env: Env, w: World, p: nat, def: Definition, f: Flow, x: string, d: nat)
    requires Good(env, w, p, def, [Take(p, f)], x, d)
    requires f.target in def.elements && IsGateway(def.elements[f.target])
    ensures StepFine(env, w, p, def, Take(p, f), Go(AddTok(w, Place(p, f.target)), [Nav(p, f.target)]), x, d)
  {
    hide Counts, Opens, PlainSplit, Plays, Marking, Good, Follows;
    EnterGatewayGood(env, w, p, def, f, x, d);
    PendingOne(def, Nav(p, f.target));
    TakePlays(def, p, w, AddTok(w, Place(p, f.target)), f, [Nav(p, f.target)]);
  }

  // A catch event holds the token.
  lemma TakeCatchFine(env: Env, w: World, p: nat, def: Definition, f: Flow, x: string, d: nat)
    requires Good(env, w, p, def, [Take(p, f)], x, d)
    requires f.target in def.elements && def.elements[f.target].CatchEvent?
    ensures StepFine(env, w, p, def, Take(p, f), Go(AddTok(w, Place(p, f.target)), []), x, d)
  {
    hide Counts, Opens, PlainSplit, Plays, Marking, Good, Follows;
    var at := Place(p, f.target);
    EnterCatchGood(env, w, p, def, f, x, d);
    assert HasToken(AddTok(w, at), p) by { assert at in AddTok(w, at).toks; }
    TakePlays(def, p, w, AddTok(w, at), f, []);
  }

  // A throw event is passed in the same step.
  lemma TakeThrowFine(env: Env, w: World, p: nat, def: Definition, f: Flow, x: string, d: nat)
    requires Good(env, w, p, def, [Take(p, f)], x, d) && ThrowAt(def, f.target)
    ensures var at := Place(p, f.target);
            StepFine(env, w, p, def, Take(p, f), Proceed(AddDone(w, at, ThrowKind), at, FlowsFrom(def.flows, f.target)),
                x, d)
  {
    hide Counts, Takes, FlowsFrom, Opens, PlainSplit, Plays, Marking, Good, Follows;
    var e := f.target;
    var out := FlowsFrom(def.flows, e);
    var w0 := AddDone(w, Place(p, e), ThrowKind);
    var s := Proceed(w0, Place(p, e), out);
    EnterDoneGood(env, w, p, def, f, ThrowKind, x, d);
    ProceedGood(env, w0, p, def, e, x, d, out);
    ChosenPlain(p, def, e, out);
    JobsPending(def, p, out);
    FollowsOne(def, p, w.log, e);
    NoJobs(p, out);
    PendingOne(def, Take(p, f));
    PendingOne(def, Nav(p, e));
    FiringPlays(def, p, w0, s.w, e, out, s.jobs);
    assert Plays(def, p, Marking(w, def, [Take(p, f)]), Marking(s.w, def, s.jobs), w.log, s.w.log,
        Fired(def, Take(p, f), s.jobs)) by { SameMarking(w, w0, p, def, f); }
  }

  lemma SameMarking(w: World, w0: World, p: nat, def: Definition, f: Flow)
    requires w0.toks == w.toks && ThrowAt(def, f.target)
    ensures Marking(w0, def, [Nav(p, f.target)]) == Marking(w, def, [Take(p, f)])
  {
    hide PendingAll;
    PendingOne(def, Take(p, f));
    PendingOne(def, Nav(p, f.target));
  }

  lemma TakeFine(env: Env, w: World, p: nat, def: Definition, f: Flow, x: string, d: nat)
    requires Good(env, w, p, def, [Take(p, f)], x, d) && BasicDef(def)
    ensures var s := TakeStep(env, w, p, f);
            StepFine(env, w, p, def, Take(p, f), s, x, d) && (Waits(def, f.target) && s.Go? ==> s.jobs == [])
  {
    hide Counts, FlowsFrom, StepFine, EnterTask, AddDone, AddTok, Bounded;
    var e := f.target;
    if e in def.elements {
      assert Basic(def.elements[e]);
      match def.elements[e].Kind()
      case UserKind => TakeTaskFine(env, w, p, def, f, x, d);
      case ServiceKind => TakeDoneFine(env, w, p, def, f, ServiceKind, x, d);
      case EndKind => TakeDoneFine(env, w, p, def, f, EndKind, x, d);
      case StartKind => StuckFine(env, w, p, def, Take(p, f), x, d);
      case ExclusiveKind => TakeGatewayFine(env, w, p, def, f, x, d);
      case InclusiveKind => TakeGatewayFine(env, w, p, def, f, x, d);
      case ParallelKind => TakeGatewayFine(env, w, p, def, f, x, d);
      case CatchKind => TakeCatchFine(env, w, p, def, f, x, d);
      case ThrowKind => TakeThrowFine(env, w, p, def, f, x, d);
      case BoundaryKind => StuckFine(env, w, p, def, Take(p, f), x, d);
      case CallKind => NotBasic(def, e);
    } else {
      StuckFine(env, w, p, def, Take(p, f), x, d);
    }
  }

  // ---- The rest of the agenda ----

  // A step of the job in front, seen from the whole agenda.
  ghost predicate AgendaFine(env: Env, w: World, p: nat, def: Definition, agenda: seq<Job>, s: Step, x: string, d: nat)
    requires agenda != []
  {
    s.Go? ==>
      var agenda1 := s.jobs + agenda[1..];
      && Good(env, s.w, p, def, agenda1, x, d)
      && Plays(def, p, Marking(w, def, agenda), Marking(s.w, def, agenda1), w.log, s.w.log,
          Fired(def, agenda[0], s.jobs))
      && (agenda1 == [] ==> HasToken(s.w, p))
      && (PlainSplit(def) && PlainAgenda(def, agenda) ==> PlainAgenda(def, agenda1))
  }

  lemma GoodAgenda(env: Env, w: World, p: nat, def: Definition, agenda: seq<Job>, agenda1: seq<Job>, x: string, d: nat)
    requires Root(env, w, p, def) && Counts(w, p, def, agenda, x, d) && Shape(p, def, agenda1)
    requires forall at :: Entering(agenda, at) == Entering(agenda1, at)
    ensures Good(env, w, p, def, agenda1, x, d)
  {
    hide SameAt, CountOk, Entering;
    forall e ensures CountOk(w, p, def, agenda1, x, d, e) {
      CountsAt(w, p, def, agenda, x, d, e);
      SameItself(w, Place(p, e));
      CountOkSame(w, w, p, def, agenda, agenda1, x, d, e);
    }
  }

  lemma SameItself(w: World, at: Place)
    ensures SameAt(w, w, at)
  {
  }

  // The job in front alone.
  lemma GoodFront(env: Env, w: World, p: nat, def: Definition, agenda: seq<Job>, x: string, d: nat)
    requires agenda != [] && Good(env, w, p, def, agenda, x, d)
    ensures Good(env, w, p, def, [agenda[0]], x, d) && AllTakes(p, agenda[1..])
  {
    hide Counts;
    GoodAgenda(env, w, p, def, agenda, [agenda[0]], x, d);
  }

  // The jobs of a step with the flows still to be taken behind them.
  lemma GoodBehind(env: Env, w: World, p: nat, def: Definition, jobs: seq<Job>, rest: seq<Job>, x: string, d: nat)
    requires Good(env, w, p, def, jobs, x, d) && AllTakes(p, rest)
    ensures Good(env, w, p, def, jobs + rest, x, d)
  {
    hide Counts;
    if jobs != [] {
      assert (jobs + rest)[1..] == jobs[1..] + rest;
    } else {
      assert jobs + rest == rest;
    }
    GoodAgenda(env, w, p, def, jobs, jobs + rest, x, d);
  }

  lemma MarkingBehind(w: World, def: Definition, jobs: seq<Job>, rest: seq<Job>)
    ensures Marking(w, def, jobs + rest) == Marking(w, def, jobs) + PendingAll(def, rest)
  {
    hide PendingAll;
    PendingAppend(def, jobs, rest);
  }

  lemma PlaysMore(def: Definition, p: nat, m: multiset<Place>, m1: multiset<Place>, log: seq<Event>,
      log1: seq<Event>, fired: seq<string>,
                  more: multiset<Place>)
    requires Plays(def, p, m, m1, log, log1, fired)
    ensures Plays(def, p, m + more, m1 + more, log, log1, fired)
  {
    hide Fires, Follows;
    if fired != [] { FiresMore(def, p, m, m1, fired[0], more); }
  }

  lemma StepBehind(env: Env, w: World, p: nat, def: Definition, agenda: seq<Job>, s: Step, x: string, d: nat)
    requires agenda != [] && AllTakes(p, agenda[1..]) && StepFine(env, w, p, def, agenda[0], s, x, d)
    requires s.Go? && agenda[0].Take? && Waits(def, agenda[0].flow.target) ==> s.jobs == []
    ensures AgendaFine(env, w, p, def, agenda, s, x, d)
  {
    hide Good, Plays, Marking, PlainSplit, HasToken;
    if s.Go? {
      var rest := agenda[1..];
      var agenda1 := s.jobs + rest;
      GoodBehind(env, s.w, p, def, s.jobs, rest, x, d);
      assert agenda == [agenda[0]] + rest;
      MarkingBehind(w, def, [agenda[0]], rest);
      MarkingBehind(s.w, def, s.jobs, rest);
      PlaysMore(def, p, Marking(w, def, [agenda[0]]), Marking(s.w, def, s.jobs), w.log, s.w.log,
          Fired(def, agenda[0], s.jobs),
                PendingAll(def, rest));
      if PlainSplit(def) && PlainAgenda(def, agenda) { PlainBehind(def, agenda, s.jobs); }
    }
  }

  lemma PlainBehind(def: Definition, agenda: seq<Job>, jobs: seq<Job>)
    requires agenda != [] && (agenda[0].Take? && Waits(def, agenda[0].flow.target) ==> jobs == [])
    requires PlainAgenda(def, agenda) && PlainAgenda(def, jobs)
    ensures PlainAgenda(def, jobs + agenda[1..])
  {
    if |agenda| == 1 {
      assert jobs + agenda[1..] == jobs;
    } else {
      assert jobs + agenda[1..] == agenda[1..];
    }
  }

  // One step of an agenda of a running instance, other than finding that it is complete.
  lemma AgendaStep(env: Env, w: World, p: nat, def: Definition, agenda: seq<Job>, x: string, d: nat)
    requires agenda != [] && Good(env, w, p, def, agenda, x, d) && BasicDef(def) && w.insts[p].state == Running
    requires agenda[0].Check? ==> HasToken(w, p)
    ensures var s := StepJob(env, w, agenda[0]);
            AgendaFine(env, w, p, def, agenda, s, x, d) && (s.Go? ==> s.w.insts == w.insts)
  {
    hide Good, StepFine, AgendaFine, NavStep, TakeStep, CheckStep, HasToken, BasicDef;
    var job := agenda[0];
    GoodFront(env, w, p, def, agenda, x, d);
    FrontInst(env, w, p, def, agenda, x, d);
    match job {
      case Nav(_, e) => NavFine(env, w, p, def, e, x, d);
      case Take(_, f) => TakeFine(env, w, p, def, f, x, d);
      case Check(_) => CheckFine(env, w, p, def, x, d);
    }
    StepInsts(env, w, p, def, job, StepJob(env, w, job), x, d);
    StepBehind(env, w, p, def, agenda, StepJob(env, w, job), x, d);
  }

  lemma StepInsts(env: Env, w: World, p: nat, def: Definition, job: Job, s: Step, x: string, d: nat)
    requires StepFine(env, w, p, def, job, s, x, d)
    ensures s.Go? ==> s.w.insts == w.insts
  {
    hide Good, Plays, Marking, PlainSplit, PlainAgenda, HasToken;
  }

  lemma FrontInst(env: Env, w: World, p: nat, def: Definition, agenda: seq<Job>, x: string, d: nat)
    requires agenda != [] && Good(env, w, p, def, agenda, x, d)
    ensures agenda[0].inst == p && p in w.insts
  {
    hide Counts;
  }

  lemma CheckFine(env: Env, w: World, p: nat, def: Definition, x: string, d: nat)
    requires Good(env, w, p, def, [Check(p)], x, d) && HasToken(w, p)
    ensures StepFine(env, w, p, def, Check(p), CheckStep(w, p), x, d)
  {
    hide Counts, HasToken, PlainSplit;
    GoodAgenda(env, w, p, def, [Check(p)], [], x, d);
    PendingOne(def, Check(p));
    assert Marking(w, def, [Check(p)]) == Marking(w, def, []);
  }

  // ---- A whole navigation ----

  // What a successful navigation from w over an agenda does. While the instance runs, some token waits; with
  // plain splits it is complete exactly when none does. The tokens left are those of a run of the token game,
  // and what was fired in it is what the history has grown by.
  ghost predicate RunFine(env: Env, w: World, p: nat, def: Definition, agenda: seq<Job>, w1: World, x: string,
      d: nat, fired: seq<string>) {
    && p in w1.insts && (w1.insts[p].state == Running || w1.insts[p].state == Completed)
    && (w1.insts[p].state == Running ==> HasToken(w1, p))
    && (PlainSplit(def) && PlainAgenda(def, agenda) ==> (w1.insts[p].state == Running <==> HasToken(w1, p)))
    && (w1.insts[p].state == Running || (PlainSplit(def) && PlainAgenda(def, agenda)) ==>
          && Good(env, w1, p, def, [], x, d)
          && Reaches(def, p, Marking(w, def, agenda), fired, w1.toks) && Follows(def, p, w.log, w1.log, fired))
  }

  lemma RunFineNone(env: Env, w: World, p: nat, def: Definition, x: string, d: nat)
    requires Good(env, w, p, def, [], x, d) && w.insts[p].state == Running && HasToken(w, p)
    ensures RunFine(env, w, p, def, [], w, x, d, [])
  {
    hide Good, Follows, HasToken, PlainSplit, PlainAgenda, Marking;
    FrontRoot(env, w, p, def, [], x, d);
    assert Marking(w, def, []) == w.toks by { MarkingNone(w, def); }
    FollowsNone(def, p, w.log);
  }

  lemma MarkingNone(w: World, def: Definition)
    ensures Marking(w, def, []) == w.toks && Marking(w, def, [Check(0)]) == w.toks
  {
    PendingOne(def, Check(0));
  }

  lemma FrontRoot(env: Env, w: World, p: nat, def: Definition, agenda: seq<Job>, x: string, d: nat)
    requires Good(env, w, p, def, agenda, x, d)
    ensures p in w.insts
  {
    hide Counts;
  }

  lemma RunFineStep(env: Env, w: World, w1: World, p: nat, def: Definition, agenda: seq<Job>, s: Step, x: string,
      d: nat, fired: seq<string>)
    requires agenda != [] && s.Go? && AgendaFine(env, w, p, def, agenda, s, x, d)
    requires RunFine(env, s.w, p, def, s.jobs + agenda[1..], w1, x, d, fired)
    ensures RunFine(env, w, p, def, agenda, w1, x, d, Fired(def, agenda[0], s.jobs) + fired)
  {
    hide Good, Fires, Reaches, Follows, HasToken, PlainSplit, PlainAgenda, Marking;
    var first := Fired(def, agenda[0], s.jobs);
    if Reaches(def, p, Marking(s.w, def, s.jobs + agenda[1..]), fired, w1.toks)
        && Follows(def, p, s.w.log, w1.log, fired) {
      FollowsOn(def, p, w.log, s.w.log, w1.log, first, fired);
      if first == [] {
        assert first + fired == fired;
      } else {
        assert first == [first[0]];
        ReachesStep(def, p, Marking(w, def, agenda), first[0], Marking(s.w, def, s.jobs + agenda[1..]), fired, w1.toks);
      }
    }
  }

  // The instance is found to be complete.
  lemma RunFineCompleted(env: Env, w: World, p: nat, def: Definition, agenda: seq<Job>, x: string, d: nat, n: nat)
    requires agenda != [] && agenda[0] == Check(p) && Good(env, w, p, def, agenda, x, d) && Wf(w)
    requires w.insts[p].state == Running && !HasToken(w, p)
    requires Exec(env, MarkCompleted(w, p), agenda[1..], n).Ended?
    ensures RunFine(env, w, p, def, agenda, Exec(env, MarkCompleted(w, p), agenda[1..], n).w, x, d, [])
  {
    hide Good, HasToken, PlainSplit, Follows, Marking, Wf;
    FrontRoot(env, w, p, def, agenda, x, d);
    var w1 := MarkCompleted(w, p);
    var rest := agenda[1..];
    GoodFront(env, w, p, def, agenda, x, d);
    MarkCompletedDrifts(w, p);
    ExecDrifts(env, w1, rest, n);
    if PlainAgenda(def, agenda) {
      assert agenda == [Check(p)] && rest == [];
      CompletedGood(env, w, p, def, x, d);
      assert Marking(w, def, agenda) == w.toks by { PendingOne(def, Check(p)); CheckMarking(w, p, def); }
      FollowsNone(def, p, w.log);
      assert HasToken(w1, p) == HasToken(w, p) by { SameTokens(w, w1, p); }
    }
  }

  lemma SameTokens(w: World, w1: World, p: nat)
    requires w1.toks == w.toks
    ensures HasToken(w1, p) == HasToken(w, p)
  {
  }

  lemma CheckMarking(w: World, p: nat, def: Definition)
    ensures Marking(w, def, [Check(p)]) == w.toks
  {
    PendingOne(def, Check(p));
  }

  lemma CompletedGood(env: Env, w: World, p: nat, def: Definition, x: string, d: nat)
    requires Good(env, w, p, def, [Check(p)], x, d)
    ensures Good(env, MarkCompleted(w, p), p, def, [], x, d)
  {
    hide CountOk, SameAt;
    var w1 := MarkCompleted(w, p);
    forall e ensures CountOk(w1, p, def, [], x, d, e) {
      CountsAt(w, p, def, [Check(p)], x, d, e);
      assert SameAt(w, w1, Place(p, e)) by { SameInsts(w, w1, Place(p, e)); }
      CountOkSame(w, w1, p, def, [Check(p)], [], x, d, e);
    }
  }

  lemma SameInsts(w: World, w1: World, at: Place)
    requires w1.toks == w.toks && w1.acts == w.acts && w1.vars == w.vars && w1.log == w.log
    ensures SameAt(w, w1, at)
  {
    hide Bag;
  }

  // Every navigation of a root instance, however deep.
  lemma {:induction false} NavigationFine(env: Env, w: World, p: nat, def: Definition, agenda: seq<Job>, x: string,
      d: nat, n: nat)
    returns (fired: seq<string>)
    requires Good(env, w, p, def, agenda, x, d) && BasicDef(def) && Wf(w) && w.insts[p].state == Running
    requires (agenda == [] ==> HasToken(w, p)) && Exec(env, w, agenda, n).Ended?
    ensures RunFine(env, w, p, def, agenda, Exec(env, w, agenda, n).w, x, d, fired)
    decreases n
  {
    hide Good, StepJob, HasToken, Wf, RunFine, BasicDef, AgendaFine;
    FrontRoot(env, w, p, def, agenda, x, d);
    fired := [];
    if agenda == [] {
      RunFineNone(env, w, p, def, x, d);
    } else {
      FrontInst(env, w, p, def, agenda, x, d);
      var s := StepJob(env, w, agenda[0]);
      if agenda[0].Check? && !HasToken(w, p) {
        CheckCompletes(env, w, p, def, agenda, x, d);
        assert [] + agenda[1..] == agenda[1..];
        RunFineCompleted(env, w, p, def, agenda, x, d, n - 1);
      } else {
        AgendaStep(env, w, p, def, agenda, x, d);
        StepDrifts(env, w, agenda[0]);
        AgendaLeaves(env, w, p, def, agenda, s, x, d);
        var later := NavigationFine(env, s.w, p, def, s.jobs + agenda[1..], x, d, n - 1);
        RunFineStep(env, w, Exec(env, w, agenda, n).w, p, def, agenda, s, x, d, later);
        fired := Fired(def, agenda[0], s.jobs) + later;
      }
    }
  }

  lemma CheckCompletes(env: Env, w: World, p: nat, def: Definition, agenda: seq<Job>, x: string, d: nat)
    requires Good(env, w, p, def, agenda, x, d) && !HasToken(w, p)
    ensures StepJob(env, w, Check(p)) == Go(MarkCompleted(w, p), [])
  {
    hide Counts, HasToken;
  }

  lemma AgendaLeaves(env: Env, w: World, p: nat, def: Definition, agenda: seq<Job>, s: Step, x: string, d: nat)
    requires agenda != [] && s.Go? && AgendaFine(env, w, p, def, agenda, s, x, d)
    ensures Good(env, s.w, p, def, s.jobs + agenda[1..], x, d) && (s.jobs + agenda[1..] == [] ==> HasToken(s.w, p))
  {
    hide Good, HasToken, Plays, PlainSplit, PlainAgenda, Marking;
  }

  // ---- Variables ----

  lemma VarsSet(w: World, p: nat, k: VarName, v: Value)
    ensures VarsOf(SetVar(w, p, k, v), p) == VarsOf(w, p)[k := v]
    ensures var w1 := SetVar(w, p, k, v);
            w1.acts == w.acts && w1.next == w.next && w1.toks == w.toks && w1.log == w.log && w1.insts == w.insts
  {
  }

  lemma SameVarsOf(w: World, w1: World, p: nat)
    requires w1.vars == w.vars
    ensures VarsOf(w1, p) == VarsOf(w, p)
  {
  }

  // The outcome of a completion in w is that of running an agenda, or, should that fail, w as it was.
  predicate RunsOn(w: World, run: Outcome, o: Outcome) {
    o == if run.Failed? then Failed(w) else run
  }

  // ---- Completing a task ----

  // Between operations: the tokens of p add up, with no debt anywhere.
  ghost predicate Steady(env: Env, w: World, p: nat, def: Definition) {
    Wf(w) && Good(env, w, p, def, [], "", 0)
  }

  // Variables that a caller may write: none of the engine's own.
  predicate CallerVars(vars: Vars) {
    forall k :: k in vars ==> k.User?
  }

  // Activity a is an active task of p with nothing outstanding: no sign session, no delegation.
  ghost predicate FreeTask(env: Env, w: World, p: nat, a: nat) {
    && IsActiveTask(w, a) && w.acts[a].at.inst == p
    && w.acts[a].adhoc.None? && ActiveSigns(w, p, a) == {} && !Delegated(env, w, a)
  }

  // ... and a user task without a loop.
  ghost predicate PlainTask(env: Env, w: World, p: nat, def: Definition, a: nat) {
    FreeTask(env, w, p, a) && TaskAt(def, w.acts[a].at.elem) && def.elements[w.acts[a].at.elem].loop.None?
  }

  // The world in which the outgoing flows of the completed task are taken.
  ghost function Left(w: World, a: nat, vars: Vars, out: seq<Flow>): World
    requires a in w.acts && w.acts[a].at.inst in w.insts
  {
    var at := w.acts[a].at;
    Leave(DropOne(Submit(FinishOne(w, a), at.inst, vars), at), at, out).w
  }

  function LeftJobs(p: nat, out: seq<Flow>): seq<Job> {
    if out == [] then [Check(p)] else Takes(p, out)
  }

  lemma PlainPrep(env: Env, w: World, p: nat, def: Definition, a: nat, vars: Vars)
    requires p in w.insts && PlainTask(env, w, p, def, a) && CallerVars(vars)
    ensures PrepComplete(env, w, a, vars) ==
            Go(DropOne(Submit(FinishOne(w, a), p, vars), w.acts[a].at), [Nav(p, w.acts[a].at.elem)])
  {
    hide FreeTask;
    FreePrep(env, w, p, a, vars);
    FreeInst(env, w, p, a);
  }

  lemma FreeInst(env: Env, w: World, p: nat, a: nat)
    requires FreeTask(env, w, p, a)
    ensures a in w.acts && w.acts[a].at.inst == p && w.acts[a].state == Active
  {
    hide ActiveSigns, Delegated;
  }

  lemma FreePrep(env: Env, w: World, p: nat, a: nat, vars: Vars)
    requires p in w.insts && FreeTask(env, w, p, a) && CallerVars(vars)
    ensures a in w.acts && w.acts[a].at.inst == p
    ensures PrepComplete(env, w, a, vars) ==
            Go(DropOne(Submit(FinishOne(w, a), p, vars), w.acts[a].at), [Nav(p, w.acts[a].at.elem)])
  {
    var w2 := Submit(FinishOne(w, a), p, vars);
    assert ActiveSigns(w2, p, a) == ActiveSigns(w, p, a);
    assert !Delegated(env, DropOne(w2, w.acts[a].at), a);
  }

  lemma LeaveNav(env: Env, w: World, p: nat, def: Definition, a: nat, vars: Vars)
    requires p in w.insts && w.insts[p].def in env.defs && env.defs[w.insts[p].def] == def
    requires PlainTask(env, w, p, def, a) && w.insts[p].state == Running
    ensures var e := w.acts[a].at.elem;
            NavStep(env, DropOne(Submit(FinishOne(w, a), p, vars), w.acts[a].at), p, e) ==
            Go(Left(w, a, vars, FlowsFrom(def.flows, e)), LeftJobs(p, FlowsFrom(def.flows, e)))
  {
    hide FlowsFrom, ActiveSigns, Delegated, Takes, MergeVars;
  }

  // Completing a task is leaving its element and going on from there.
  lemma CompleteRuns(env: Env, w: World, p: nat, def: Definition, a: nat, vars: Vars, n: nat)
    requires Root(env, w, p, def) && PlainTask(env, w, p, def, a) && CallerVars(vars) && w.insts[p].state == Running
    requires !Apply(env, w, Complete(a, vars), n).More?
    ensures var out := FlowsFrom(def.flows, w.acts[a].at.elem);
            && n > 0
            && RunsOn(w, Exec(env, Left(w, a, vars, out), LeftJobs(p, out), n - 1), Apply(env, w, Complete(a, vars), n))
  {
    hide PrepComplete, Exec, FlowsFrom, PlainTask, NavStep, Left, LeftJobs, Submit, FinishOne;
    PlainPrep(env, w, p, def, a, vars);
    TaskInst(env, w, p, def, a);
    var w3 := DropOne(Submit(FinishOne(w, a), p, vars), w.acts[a].at);
    ExecNav(env, w3, w.acts[a].at, n);
    LeaveNav(env, w, p, def, a, vars);
  }

  lemma TaskInst(env: Env, w: World, p: nat, def: Definition, a: nat)
    requires PlainTask(env, w, p, def, a)
    ensures a in w.acts && w.acts[a].at.inst == p && w.acts[a].state == Active && TaskAt(def, w.acts[a].at.elem)
  {
    hide ActiveSigns, Delegated;
  }

  lemma OpensFinish(w: World, a: nat)
    requires a in w.acts && w.acts[a].state != Done
    ensures forall at :: Opens(FinishOne(w, a))[at] == Opens(w)[at] - Hit(Some(w.acts[a].at), at)
  {
    hide Bag;
    BagPut(w.acts, Open, a, w.acts[a].(state := Done, stamp := w.clock));
  }

  lemma MergeArrived(w: World, p: nat, vars: Vars, at: Place)
    requires CallerVars(vars)
    ensures Arrived(MergeVars(w, p, vars), at) == Arrived(w, at)
  {
  }

  // What becomes of each part of the world.
  lemma LeftParts(w: World, p: nat, a: nat, vars: Vars, out: seq<Flow>)
    requires a in w.acts && w.acts[a].at.inst == p && p in w.insts
    ensures var w1 := Left(w, a, vars, out);
            var at := w.acts[a].at;
            && w1.acts == FinishOne(w, a).acts && w1.vars == MergeVars(w, p, vars).vars
            && w1.log == w.log + [Follow(at)] && w1.next == w.next
            && w1.insts == w.insts[p := w.insts[p].(snapshot := w.insts[p].snapshot + vars)]
            && w1.toks == (if out == [] then w.toks - multiset{at} else w.toks - multiset{at} - multiset{at})
  {
    hide Takes, MergeVars, FinishOne;
    var w1 := FinishOne(w, a);
    FinishOneKeeps(w, a);
    MergeParts(w, w1, p, vars);
  }

  lemma FinishOneKeeps(w: World, a: nat)
    requires a in w.acts
    ensures var w1 := FinishOne(w, a);
            w1.insts == w.insts && w1.toks == w.toks && w1.vars == w.vars && w1.log == w.log && w1.next == w.next
                && w1.clock == w.clock + 1
  {
  }

  lemma MergeParts(w: World, w1: World, p: nat, vars: Vars)
    requires w1.vars == w.vars
    ensures var w2 := MergeVars(w1, p, vars);
            && w2.vars == MergeVars(w, p, vars).vars
            && w2.insts == w1.insts && w2.toks == w1.toks && w2.log == w1.log && w2.acts == w1.acts
                && w2.next == w1.next && w2.clock == w1.clock
  {
  }

  // What changes: the task's tokens and activities, and that its flows were followed.
  lemma LeftSame(w: World, w1: World, p: nat, a: nat, vars: Vars, out: seq<Flow>)
    requires a in w.acts && w.acts[a].state == Active && w.acts[a].at.inst == p && p in w.insts && CallerVars(vars)
    requires w1 == Left(w, a, vars, out)
    ensures var at := w.acts[a].at;
            && (forall e :: e != at.elem ==> SameAt(w, w1, Place(p, e)))
            && w1.toks == (if out == [] then w.toks - multiset{at} else w.toks - multiset{at} - multiset{at})
            && Opens(w1)[at] + 1 == Opens(w)[at]
  {
    hide Opens, Count, Arrived, MergeVars, FinishOne, Left;
    var at := w.acts[a].at;
    LeftParts(w, p, a, vars, out);
    OpensFinish(w, a);
    SameActs(FinishOne(w, a), w1);
    forall e | e != at.elem ensures SameAt(w, w1, Place(p, e)) {
      CountLogged(w.log, Follow(at), Arrive(Place(p, e)));
      CountLogged(w.log, Follow(at), Follow(Place(p, e)));
      MergeArrived(w, p, vars, Place(p, e));
      SameVars(MergeVars(w, p, vars), w1, Place(p, e));
    }
  }

  lemma SameVars(w: World, w1: World, at: Place)
    requires w1.vars == w.vars
    ensures Arrived(w1, at) == Arrived(w, at)
  {
  }

  // How much the tokens at the task fall short once it is left: two are taken where there are several.
  function Shortfall(w: World, at: Place, out: seq<Flow>): nat {
    if w.toks[at] >= 2 && out != [] then 1 else 0
  }

  lemma OtherDebt(w: World, p: nat, def: Definition, x: string, d: nat, e: string)
    requires CountOk(w, p, def, [], "", 0, e) && (e == x ==> d == 0)
    ensures CountOk(w, p, def, [], x, d, e)
  {
    hide Opens, Arrived, Count;
  }

  lemma JobsShape(p: nat, def: Definition, out: seq<Flow>)
    ensures Shape(p, def, LeftJobs(p, out)) && forall at :: Entering(LeftJobs(p, out), at) == 0
  {
    hide Takes;
    TakesShape(p, def, out);
  }

  lemma LeftGood(env: Env, w: World, p: nat, def: Definition, a: nat, vars: Vars)
    requires Good(env, w, p, def, [], "", 0) && PlainTask(env, w, p, def, a) && CallerVars(vars)
    ensures p in w.insts && a in w.acts && w.acts[a].at.inst == p && w.acts[a].at in w.toks
    ensures var at := w.acts[a].at;
            var out := FlowsFrom(def.flows, at.elem);
            Good(env, Left(w, a, vars, out), p, def, LeftJobs(p, out), at.elem, Shortfall(w, at, out))
  {
    hide Opens, Arrived, Count, FlowsFrom, SameAt, Left, PlainTask, Entering, LeftJobs, CountOk, Shape;
    FrontRoot(env, w, p, def, [], "", 0);
    TaskInst(env, w, p, def, a);
    var at := w.acts[a].at;
    var e := at.elem;
    var out := FlowsFrom(def.flows, e);
    var w1 := Left(w, a, vars, out);
    LeftSame(w, w1, p, a, vars, out);
    JobsShape(p, def, out);
    forall e1 ensures CountOk(w1, p, def, LeftJobs(p, out), e, Shortfall(w, at, out), e1) {
      CountsAt(w, p, def, [], "", 0, e1);
      assert Entering([], Place(p, e1)) == 0 by { NoEntering(Place(p, e1)); }
      if e1 != e {
        OtherDebt(w, p, def, e, Shortfall(w, at, out), e1);
        CountOkSame(w, w1, p, def, [], LeftJobs(p, out), e, Shortfall(w, at, out), e1);
      } else {
        TaskCount(w, w1, p, def, a, out);
      }
    }
    CountsAt(w, p, def, [], "", 0, e);
    TaskHasToken(w, p, def, a);
    LeftRoot(env, w, p, def, a, vars, out);
  }

  lemma NoEntering(at: Place)
    ensures Entering([], at) == 0
  {
  }

  lemma TaskHasToken(w: World, p: nat, def: Definition, a: nat)
    requires a in w.acts && w.acts[a].state == Active && w.acts[a].at.inst == p && TaskAt(def, w.acts[a].at.elem)
    requires CountOk(w, p, def, [], "", 0, w.acts[a].at.elem)
    ensures w.acts[a].at in w.toks
  {
    hide Opens, Arrived, Count;
    OpensHere(w, a);
  }

  lemma OpensHere(w: World, a: nat)
    requires a in w.acts && w.acts[a].state != Done
    ensures Opens(w)[w.acts[a].at] >= 1
  {
    hide Bag;
    BagHas(w.acts, Open, w.acts[a].at);
  }

  lemma TaskCount(w: World, w1: World, p: nat, def: Definition, a: nat, out: seq<Flow>)
    requires a in w.acts && w.acts[a].state == Active && w.acts[a].at.inst == p && TaskAt(def, w.acts[a].at.elem)
    requires CountOk(w, p, def, [], "", 0, w.acts[a].at.elem)
    requires var at := w.acts[a].at;
             && w1.toks == (if out == [] then w.toks - multiset{at} else w.toks - multiset{at} - multiset{at})
             && Opens(w1)[at] + 1 == Opens(w)[at]
    ensures CountOk(w1, p, def, LeftJobs(p, out), w.acts[a].at.elem, Shortfall(w, w.acts[a].at, out), w.acts[a].at.elem)
  {
    hide Opens, Arrived, Count, LeftJobs;
    TaskHasToken(w, p, def, a);
  }

  lemma LeftRoot(env: Env, w: World, p: nat, def: Definition, a: nat, vars: Vars, out: seq<Flow>)
    requires Root(env, w, p, def) && a in w.acts && w.acts[a].at.inst == p
    ensures Root(env, Left(w, a, vars, out), p, def) && Left(w, a, vars, out).insts[p].state == w.insts[p].state
  {
    hide Left;
    LeftParts(w, p, a, vars, out);
    FinishKeys(w, a);
  }

  lemma FinishKeys(w: World, a: nat)
    requires a in w.acts
    ensures FinishOne(w, a).acts.Keys == w.acts.Keys
  {
  }

  // When one token is taken, leaving the task is one firing of the token game.
  lemma LeftFires(w: World, p: nat, def: Definition, a: nat, vars: Vars)
    requires a in w.acts && w.acts[a].at.inst == p && p in w.insts && TaskAt(def, w.acts[a].at.elem)
        && w.acts[a].at in w.toks
    requires Shortfall(w, w.acts[a].at, FlowsFrom(def.flows, w.acts[a].at.elem)) == 0
    ensures var out := FlowsFrom(def.flows, w.acts[a].at.elem);
            FiresBy(def, p, w.toks, Marking(Left(w, a, vars, out), def, LeftJobs(p, out)), w.acts[a].at.elem, out)
  {
    hide Left, FlowsFrom, Targets, PendingAll, FinishOne, MergeVars, FiresBy;
    var at := w.acts[a].at;
    var out := FlowsFrom(def.flows, at.elem);
    LeftParts(w, p, a, vars, out);
    JobsPending(def, p, out);
    TaskFires(def, p, w.toks, at.elem);
    assert Left(w, a, vars, out).toks == w.toks - multiset{at};
  }

  lemma TaskFires(def: Definition, p: nat, m: multiset<Place>, e: string)
    requires TaskAt(def, e) && Place(p, e) in m
    ensures FiresBy(def, p, m, m - multiset{Place(p, e)} + Targets(p, FlowsFrom(def.flows, e)), e,
        FlowsFrom(def.flows, e))
  {
    hide Targets, FlowsFrom;
  }

  lemma LeftWf(env: Env, w: World, p: nat, def: Definition, a: nat, vars: Vars, out: seq<Flow>)
    requires Wf(w) && Root(env, w, p, def) && PlainTask(env, w, p, def, a) && CallerVars(vars)
    ensures Wf(Left(w, a, vars, out))
  {
    hide PrepComplete, Wf, Leave, Submit, FinishOne, PlainTask;
    TaskInst(env, w, p, def, a);
    CompleteDrifts(env, w, a, vars);
    PlainPrep(env, w, p, def, a, vars);
    var w3 := DropOne(Submit(FinishOne(w, a), p, vars), w.acts[a].at);
    LeaveLocal(w3, w.acts[a].at, out);
    ExtendsDrifts(w3, Left(w, a, vars, out));
  }

  lemma PlainJobs(p: nat, def: Definition, e: string)
    requires TaskAt(def, e)
    ensures PlainSplit(def) ==> PlainAgenda(def, LeftJobs(p, FlowsFrom(def.flows, e)))
  {
    hide FlowsFrom, Takes, PlainSplit;
    ChosenPlain(p, def, e, FlowsFrom(def.flows, e));
  }

  // The task fires, along all its flows, and then these automatic elements do.
  ghost predicate TaskPlays(def: Definition, p: nat, m: multiset<Place>, e: string, fired: seq<string>,
      m1: multiset<Place>) {
    exists m0 :: FiresBy(def, p, m, m0, e, FlowsFrom(def.flows, e)) && Reaches(def, p, m0, fired, m1)
  }

  // What completing a task of a running instance does to its tokens, on any definition of basic elements.
  // The tokens stay in step with the open activities exactly when the completion takes one token.
  ghost predicate CompletionFine(env: Env, w: World, p: nat, def: Definition, at: Place, w1: World,
      fired: seq<string>) {
    var short := Shortfall(w, at, FlowsFrom(def.flows, at.elem));
    && Wf(w1) && p in w1.insts && (w1.insts[p].state == Running || w1.insts[p].state == Completed)
    && (w1.insts[p].state == Running ==> HasToken(w1, p))
    && (PlainSplit(def) ==> (w1.insts[p].state == Completed <==> !HasToken(w1, p)))
    && (w1.insts[p].state == Running || PlainSplit(def) ==>
          && Good(env, w1, p, def, [], at.elem, short)
          && (Steady(env, w1, p, def) <==> short == 0)
          && Follows(def, p, w.log, w1.log, [at.elem] + fired)
          && (short == 0 ==> TaskPlays(def, p, w.toks, at.elem, fired, w1.toks)))
  }

  lemma CompletionPlaysTheGame(env: Env, w: World, p: nat, def: Definition, a: nat, vars: Vars, n: nat)
      returns (fired: seq<string>)
    requires Steady(env, w, p, def) && BasicDef(def) && w.insts[p].state == Running
    requires PlainTask(env, w, p, def, a) && CallerVars(vars) && Apply(env, w, Complete(a, vars), n).Ended?
    ensures CompletionFine(env, w, p, def, w.acts[a].at, Apply(env, w, Complete(a, vars), n).w, fired)
  {
    hide Good, Apply, PlainTask, FlowsFrom, HasToken, Wf, Exec, Left, Reaches, FiresBy, Follows, PlainSplit,
        LeftJobs, PlainAgenda, BasicDef, Marking;
    SteadyRoot(env, w, p, def);
    TaskInst(env, w, p, def, a);
    var at := w.acts[a].at;
    var out := FlowsFrom(def.flows, at.elem);
    var short := Shortfall(w, at, out);
    CompleteRuns(env, w, p, def, a, vars, n);
    var w0 := Left(w, a, vars, out);
    LeftGood(env, w, p, def, a, vars);
    LeftWf(env, w, p, def, a, vars, out);
    LeftRoot(env, w, p, def, a, vars, out);
    PlainJobs(p, def, at.elem);
    NoLeftJobs(p, out);
    fired := NavigationFine(env, w0, p, def, LeftJobs(p, out), at.elem, short, n - 1);
    LeftJobsOk(w0, p, def, out);
    ExecDrifts(env, w0, LeftJobs(p, out), n - 1);
    var w1 := Apply(env, w, Complete(a, vars), n).w;
    if w1.insts[p].state == Running || PlainSplit(def) {
      DebtSteady(env, w1, p, def, at.elem, short);
      LeftParts(w, p, a, vars, out);
      FollowsOne(def, p, w.log, at.elem);
      FollowsOn(def, p, w.log, w0.log, w1.log, [at.elem], fired);
      if short == 0 { LeftFires(w, p, def, a, vars); }
    }
  }

  lemma NoLeftJobs(p: nat, out: seq<Flow>)
    ensures LeftJobs(p, out) != []
  {
  }

  lemma LeftJobsOk(w: World, p: nat, def: Definition, out: seq<Flow>)
    requires p in w.insts && w.insts[p].state == Running
    ensures JobsOk(w, LeftJobs(p, out))
  {
    hide Takes;
  }

  lemma SteadyRoot(env: Env, w: World, p: nat, def: Definition)
    requires Steady(env, w, p, def)
    ensures Root(env, w, p, def) && Wf(w) && Good(env, w, p, def, [], "", 0)
  {
    hide Counts;
  }

  lemma DebtSteady(env: Env, w: World, p: nat, def: Definition, x: string, d: nat)
    requires Wf(w) && TaskAt(def, x) && Good(env, w, p, def, [], x, d)
    ensures Steady(env, w, p, def) <==> d == 0
  {
    hide CountOk;
    CountsAt(w, p, def, [], x, d, x);
    if d == 0 {
      forall e ensures CountOk(w, p, def, [], "", 0,
          e) { CountsAt(w, p, def, [], x, 0, e); SameDebt(w, p, def, x, "", e); }
    } else if Steady(env, w, p, def) {
      CountsAt(w, p, def, [], "", 0, x);
      DebtClash(w, p, def, x, d);
    }
  }

  lemma SameDebt(w: World, p: nat, def: Definition, x: string, y: string, e: string)
    ensures CountOk(w, p, def, [], x, 0, e) == CountOk(w, p, def, [], y, 0, e)
  {
    hide Opens, Arrived, Count;
  }

  lemma DebtClash(w: World, p: nat, def: Definition, x: string, d: nat)
    requires TaskAt(def, x) && CountOk(w, p, def, [], x, d, x) && CountOk(w, p, def, [], "", 0, x)
    ensures d == 0
  {
    hide Opens, Arrived, Count;
  }
}