// Navigation as a stack machine. The recursive calls of the engine (navigate from an element, take a
// flow, check for completion) are jobs on an agenda; one step runs the job in front.

module Machine {
  import opened Spec
  import opened Model

  datatype Job =
    | Nav(inst: nat, elem: string)
    | Take(inst: nat, flow: Flow)
    | Check(inst: nat)

  // The outcome of one job: a new world and the jobs it asks for next, or an error.
  datatype Step = Go(w: World, jobs: seq<Job>) | Stuck(w: World)

  function Takes(p: nat, flows: seq<Flow>): (jobs: seq<Job>)
    ensures |jobs| == |flows| && forall i :: 0 <= i < |flows| ==> jobs[i] == Take(p, flows[i])
  {
    if flows == [] then [] else Takes(p, flows[..|flows| - 1]) + [Take(p, flows[|flows| - 1])]
  }

  // ---- Leaving an element ----

  function Leave(w: World, at: Place, out: seq<Flow>): Step {
    var w1 := Logged(w, Follow(at));
    if out == [] then Go(w1, [Check(at.inst)]) else Go(DropOne(w1, at), Takes(at.inst, out))
  }

  function Proceed(w: World, at: Place, out: seq<Flow>): Step {
    Go(Logged(w, Follow(at)), if out == [] then [Check(at.inst)] else Takes(at.inst, out))
  }

  // ---- Gateways ----

  datatype Choice = Bad | Nothing | Chosen(flow: Flow)

  function FirstTrue(env: Env, flows: seq<Flow>, vars: Vars): Choice {
    if flows == [] then Nothing
    else if flows[0].condition.None? then FirstTrue(env, flows[1..], vars)
    else
      match env.cond(flows[0].condition.value, vars)
      case None => Bad
      case Some(true) => Chosen(flows[0])
      case Some(false) => FirstTrue(env, flows[1..], vars)
  }

  function DefaultOf(flows: seq<Flow>, id: string): Choice {
    if flows == [] || id == "" then Nothing
    else if flows[0].id == id then Chosen(flows[0])
    else DefaultOf(flows[1..], id)
  }

  function ExclusiveChoice(env: Env, flows: seq<Flow>, default: string, vars: Vars): Choice {
    match FirstTrue(env, flows, vars)
    case Nothing => DefaultOf(flows, default)
    case choice => choice
  }

  function ExclusiveStep(env: Env, w: World, at: Place, default: string, out: seq<Flow>): Step {
    match ExclusiveChoice(env, out, default, VarsOf(w, at.inst))
    case Chosen(f) => Go(Logged(DropAll(w, at), Follow(at)), [Take(at.inst, f)])
    case _ => Stuck(w)
  }

  // The flows an inclusive gateway activates, or None when a condition cannot be evaluated.
  function TrueFlows(env: Env, flows: seq<Flow>, vars: Vars): Option<seq<Flow>> {
    if flows == [] then Some([])
    else
      var here := if flows[0].condition.None? then Some(true) else env.cond(flows[0].condition.value, vars);
      match (here, TrueFlows(env, flows[1..], vars))
      case (Some(b), Some(fs)) => Some(if b then [flows[0]] + fs else fs)
      case _ => None
  }

  function InclusiveFlows(env: Env, flows: seq<Flow>, default: string, vars: Vars): Option<seq<Flow>> {
    match TrueFlows(env, flows, vars)
    case None => None
    case Some(fs) =>
      if fs != [] then Some(fs)
      else
        match DefaultOf(flows, default)
        case Chosen(f) => Some([f])
        case _ => None
  }

  function InclusiveStep(env: Env, w: World, at: Place, default: string, out: seq<Flow>): Step {
    var w1 := DropAll(w, at);
    match InclusiveFlows(env, out, default, VarsOf(w, at.inst))
    case None => Stuck(w1)
    case Some(fs) => Go(Logged(w1, Follow(at)), Takes(at.inst, fs))
  }

  // How many of these flows come from an element that is known and not a service task.
  function Counted(def: Definition, flows: seq<Flow>): nat {
    if flows == [] then 0
    else
      var last := |flows| - 1;
      Counted(def, flows[..last])
      + (if flows[last].source in def.elements && !def.elements[flows[last].source].ServiceTask? then 1 else 0)
  }

  function FanIn(def: Definition, e: string): (n: nat)
    ensures n >= 1
  {
    var n := Counted(def, FlowsInto(def.flows, e));
    if n == 0 then 1 else n
  }

  function ParallelStep(w: World, at: Place, fanIn: nat, out: seq<Flow>): Step {
    if fanIn > 1 then
      var arrived := NumAt(VarsOf(w, at.inst), GwArrived(at.elem)) + 1;
      var w1 := Logged(SetVar(w, at.inst, GwArrived(at.elem), Num(arrived)), Arrive(at));
      if arrived < fanIn then Go(w1, [])
      else Proceed(DelVars(DropAll(w1, at), at.inst, {GwArrived(at.elem)}), at, out)
    else Proceed(DropAll(w, at), at, out)
  }

  // ---- User tasks ----

  function Rendered(env: Env, template: string, vars: Vars): string {
    if template == "" then "" else env.render(template, vars)
  }

  function EnterTask(env: Env, w: World, at: Place, el: Element): (r: World)
    requires el.UserTask?
    ensures Extends(w, r)
  {
    var w1 := AddTok(w, at);
    var cands := if el.assignee == "" && (el.candidateUsers != [] || el.candidateGroup != "")
                 then env.candidates(el.candidateUsers, el.candidateGroup) else [];
    if cands != [] then
      AddAct(SetVar(w1, at.inst, Candidates(w1.next), List(Texts(cands))),
             NewAct(at, UserKind, "").(state := Unclaimed))
    else
      AddAct(w1, NewAct(at, UserKind, Rendered(env, el.assignee, VarsOf(w, at.inst))))
  }

  function Texts(ss: seq<string>): seq<Value> {
    seq(|ss|, i requires 0 <= i < |ss| => Text(ss[i]))
  }

  // ---- Multi-instance user tasks ----

  function LoopItems(loop: Loop, vars: Vars): seq<Value> {
    if loop.collection != "" && User(loop.collection) in vars && vars[User(loop.collection)].List?
    then vars[User(loop.collection)].items else []
  }

  // How many instances to create, or None when the cardinality cannot be evaluated.
  function LoopCount(env: Env, loop: Loop, vars: Vars): Option<int> {
    if loop.collection != "" then Some(|LoopItems(loop, vars)|)
    else if loop.cardinality != "" then
      match env.num(loop.cardinality, vars)
      case None => None
      case Some(n) => Some(if n < 0 then 0 else n)
    else Some(1)
  }

  function SetCount(w: World, p: nat, loopId: nat, f: LoopField, name: string, n: int): (w1: World)
    ensures Extends(w, w1)
  {
    SetVar(SetVar(w, p, LoopVar(loopId, f), Num(n)), p, User(name), Num(n))
  }

  function LoopAct(env: Env, snapshot: Vars, at: Place, el: Element, loopId: nat, i: nat): Act
    requires el.UserTask?
  {
    NewAct(at, UserKind, Rendered(env, el.assignee, snapshot)).(loop := Some(loopId), counter := i)
  }

  function Snapshot(w: World, p: nat): Vars {
    if p in w.insts then w.insts[p].snapshot else map[]
  }

  // One more instance of the loop: its token, its activity, and the item it works on.
  function LoopInstance(env: Env, w: World, at: Place, el: Element, loopId: nat, items: seq<Value>, i: nat): (w1: World)
    requires el.UserTask? && el.loop.Some?
    ensures Extends(w, w1)
  {
    var w1 := AddAct(AddTok(w, at), LoopAct(env, Snapshot(w, at.inst), at, el, loopId, i));
    if el.loop.value.elementVariable != "" && i < |items|
    then SetVar(w1, at.inst, User(el.loop.value.elementVariable), items[i]) else w1
  }

  function LoopInstances(env: Env, w: World, at: Place, el: Element, loopId: nat, items: seq<Value>,
      n: nat): (w1: World)
    requires el.UserTask? && el.loop.Some?
    ensures Extends(w, w1)
  {
    if n == 0 then w
    else LoopInstance(env, LoopInstances(env, w, at, el, loopId, items, n - 1), at, el, loopId, items, n - 1)
  }

  function SequentialInstance(env: Env, w: World, at: Place, el: Element, loopId: nat, items: seq<Value>, i: nat,
      n: int): (w1: World)
    requires el.UserTask? && el.loop.Some?
    ensures Extends(w, w1)
  {
    var w1 := LoopInstance(env, w, at, el, loopId, items, i);
    SetVar(SetVar(w1, at.inst, LoopVar(loopId, SeqIndex), Num(i)), at.inst, LoopVar(loopId, SeqCount), Num(n))
  }

  // A new loop of n instances: its counters, both under the loop's own names and under the global ones.
  function OpenLoop(w: World, p: nat, n: int): (r: World)
    ensures Extends(w, r)
  {
    var id := w.next;
    var w1 := SetCount(w.(next := id + 1), p, id, Total, "nrOfInstances", n);
    var w2 := SetCount(w1, p, id, Live, "nrOfActiveInstances", n);
    SetCount(w2, p, id, Finished, "nrOfCompletedInstances", 0)
  }

  function EnterLoop(env: Env, w: World, at: Place, el: Element, out: seq<Flow>): Step
    requires el.UserTask? && el.loop.Some?
  {
    var loop := el.loop.value;
    var vars := VarsOf(w, at.inst);
    match LoopCount(env, loop, vars)
    case None => Stuck(w)
    case Some(n) =>
      if n <= 0 then Leave(w, at, out)
      else
        var w1 := OpenLoop(w, at.inst, n);
        var items := LoopItems(loop, vars);
        Go(if loop.sequential then SequentialInstance(env, w1, at, el, w.next, items, 0, n)
           else LoopInstances(env, w1, at, el, w.next, items, n), [])
  }

  // The loops that have a completed instance at this element.
  function LoopsAt(w: World, at: Place): set<nat> {
    set a | a in w.acts && w.acts[a].at == at && w.acts[a].state == Done && w.acts[a].loop.Some? :: w.acts[a].loop.value
  }

  function CountCompletion(w: World, p: nat, loopId: nat): (w1: World)
    ensures Extends(w, w1)
  {
    var vars := VarsOf(w, p);
    var w1 := SetCount(w, p, loopId, Finished, "nrOfCompletedInstances", NumAt(vars, LoopVar(loopId, Finished)) + 1);
    SetCount(w1, p, loopId, Live, "nrOfActiveInstances", NumAt(vars, LoopVar(loopId, Live)) - 1)
  }

  // Does the completion condition hold? An evaluation error counts as no.
  function ConditionMet(env: Env, loop: Loop, vars: Vars): bool {
    loop.completionCondition != "" && env.cond(loop.completionCondition, vars) == Some(true)
  }

  function AdvanceLoop(env: Env, w: World, at: Place, el: Element, loopId: nat, out: seq<Flow>): Step
    requires el.UserTask? && el.loop.Some?
  {
    var loop := el.loop.value;
    var vars := VarsOf(w, at.inst);
    var w1 := CountCompletion(w, at.inst, loopId);
    var next := NumAt(vars, LoopVar(loopId, SeqIndex)) + 1;
    var n := NumAt(vars, LoopVar(loopId, SeqCount));
    if ConditionMet(env, loop, VarsOf(w1, at.inst)) then
      Leave(DropAll(SetVar(w1, at.inst, LoopVar(loopId, Live), Num(0)), at), at, out)
    else if loop.sequential && 0 <= next < n then
      Go(SequentialInstance(env, w1, at, el, loopId, LoopItems(loop, vars), next, n), [])
    else if NumAt(vars, LoopVar(loopId, Live)) - 1 <= 0
         || NumAt(vars, LoopVar(loopId, Finished)) + 1 >= NumAt(vars, LoopVar(loopId, Total)) then
      Leave(DropAll(w1, at), at, out)
    else Go(w1, [])
  }

  function LoopStep(env: Env, w: World, at: Place, el: Element, out: seq<Flow>): Step
    requires el.UserTask? && el.loop.Some?
  {
    var w1 := DropOne(w, at);
    var loops := LoopsAt(w1, at);
    if loops == {} then Leave(w1, at, out) else AdvanceLoop(env, w1, at, el, Pick(env, loops, w1.clock), out)
  }

  // ---- Call activities ----

  function CallStep(env: Env, w: World, at: Place, el: Element): Step
    requires el.CallActivity?
  {
    if el.calledElement !in env.latest || env.latest[el.calledElement] !in env.defs then Stuck(w)
    else
      var called := env.latest[el.calledElement];
      var child := w.next;
      var vars := if el.inheritVariables then VarsOf(w, at.inst) else map[];
      var w1 := NewInstance(w, called, Some(at), vars);
      var w2 := if at in w.toks then Logged(w1, Overlap(at)) else w1;
      var w3 := AddTok(AddAct(w2, NewAct(at, CallKind, "")), at);
      StartFrom(env, w3, child, env.defs[called].start)
  }

  function NewInstance(w: World, def: string, parent: Option<Place>, vars: Vars): World {
    w.(insts := w.insts[w.next := Inst(def, Running, false, parent, vars)],
       vars := if vars == map[] then w.vars else w.vars[w.next := vars],
       next := w.next + 1)
  }

  function StartFrom(env: Env, w: World, p: nat, start: string): Step {
    Go(AddDone(w, Place(p, start), StartKind), [Nav(p, start)])
  }

  // ---- The three jobs ----

  function NavStep(env: Env, w: World, p: nat, e: string): Step {
    if p !in w.insts then Stuck(w)
    else if w.insts[p].state != Running then Go(w, [])
    else if w.insts[p].def !in env.defs || e !in env.defs[w.insts[p].def].elements then Stuck(w)
    else
      var def := env.defs[w.insts[p].def];
      NavFrom(env, w, Place(p, e), def, def.elements[e], FlowsFrom(def.flows, e))
  }

  function NavFrom(env: Env, w: World, at: Place, def: Definition, el: Element, out: seq<Flow>): Step {
    match el.Kind()
    case EndKind => Go(DropAll(w, at), [Check(at.inst)])
    case UserKind => if el.loop.Some? then LoopStep(env, w, at, el, out) else Leave(w, at, out)
    case ExclusiveKind => ExclusiveStep(env, w, at, el.defaultFlow, out)
    case ParallelKind => ParallelStep(w, at, FanIn(def, at.elem), out)
    case InclusiveKind => InclusiveStep(env, w, at, el.defaultFlow, out)
    case _ => Leave(w, at, out)
  }

  function TakeStep(env: Env, w: World, p: nat, f: Flow): Step {
    if p !in w.insts || w.insts[p].def !in env.defs then Stuck(w)
    else
      var def := env.defs[w.insts[p].def];
      if f.target !in def.elements then Stuck(w)
      else TakeTo(env, w, Place(p, f.target), def.elements[f.target], FlowsFrom(def.flows, f.target))
  }

  function TakeTo(env: Env, w: World, at: Place, el: Element, out: seq<Flow>): Step {
    match el.Kind()
    case UserKind => if el.loop.Some? then EnterLoop(env, w, at, el, out) else Go(EnterTask(env, w, at, el), [])
    case ServiceKind => Go(AddDone(w, at, ServiceKind), [Nav(at.inst, at.elem)])
    case EndKind => Go(AddDone(w, at, EndKind), [Nav(at.inst, at.elem)])
    case ExclusiveKind => Go(AddTok(w, at), [Nav(at.inst, at.elem)])
    case ParallelKind => Go(AddTok(w, at), [Nav(at.inst, at.elem)])
    case InclusiveKind => Go(AddTok(w, at), [Nav(at.inst, at.elem)])
    case CatchKind => Go(AddTok(w, at), [])
    case ThrowKind => Proceed(AddDone(w, at, ThrowKind), at, out)
    case CallKind => CallStep(env, w, at, el)
    case BoundaryKind => Stuck(w)
    case StartKind => Stuck(w)
  }

  function MarkCompleted(w: World, p: nat): World
    requires p in w.insts
  {
    w.(insts := w.insts[p := w.insts[p].(state := Completed, ended := true)])
  }

  // A process instance without active tokens is complete; its caller, if it has one, moves on. A caller whose
  // call activity has the empty ID counts as none.
  ghost function CheckStep(w: World, p: nat): Step {
    if p !in w.insts then Stuck(w)
    else if HasToken(w, p) then Go(w, [])
    else ReturnStep(MarkCompleted(w, p), w.insts[p].parent, p)
  }

  ghost function ReturnStep(w: World, parent: Option<Place>, child: nat): Step {
    match parent
    case None => Go(w, [])
    case Some(at) =>
      if at.elem == "" || at !in w.toks then Go(w, [])
      else
        var live := at.inst in w.insts && w.insts[at.inst].state == Running;
        Go(Logged(FinishAll(DropOne(w, at), ActiveAt(w, at)), Return(at, child, live)), [Nav(at.inst, at.elem)])
  }

  ghost function StepJob(env: Env, w: World, job: Job): Step {
    match job
    case Nav(p, e) => NavStep(env, w, p, e)
    case Take(p, f) => TakeStep(env, w, p, f)
    case Check(p) => CheckStep(w, p)
  }

  // ---- Running an agenda ----

  // `More` means that the given number of steps was not enough.
  datatype Outcome = Ended(w: World) | Failed(w: World) | More

  ghost function Exec(env: Env, w: World, agenda: seq<Job>, n: nat): Outcome
    decreases n, 0
  {
    if agenda == [] then Ended(w)
    else if n == 0 then More
    else Resume(env, StepJob(env, w, agenda[0]), agenda[1..], n - 1)
  }

  ghost function Resume(env: Env, s: Step, rest: seq<Job>, n: nat): Outcome
    decreases n, 1
  {
    match s
    case Stuck(w) => Failed(w)
    case Go(w, jobs) => Exec(env, w, jobs + rest, n)
  }

  // Running what one step asks for, and nothing after it.
  ghost function Finish(env: Env, s: Step, n: nat): Outcome {
    match s
    case Stuck(w) => Failed(w)
    case Go(w, jobs) => Exec(env, w, jobs, n)
  }

  lemma ExecOne(env: Env, w: World, job: Job, n: nat)
    requires Exec(env, w, [job], n) != More
    ensures n > 0 && Exec(env, w, [job], n) == Finish(env, StepJob(env, w, job), n - 1)
  {
    hide StepJob;
    assert [job][1..] == [];
    match StepJob(env, w, job)
    case Stuck(_) =>
    case Go(w1, jobs) => assert jobs + [] == jobs;
  }

  lemma ExecNav(env: Env, w: World, at: Place, n: nat)
    requires Exec(env, w, [Nav(at.inst, at.elem)], n) != More
    ensures n > 0 && Exec(env, w, [Nav(at.inst, at.elem)], n) == Finish(env, NavStep(env, w, at.inst, at.elem), n - 1)
  {
    hide Exec, NavStep;
    ExecOne(env, w, Nav(at.inst, at.elem), n);
  }

  lemma ExecTake(env: Env, w: World, p: nat, f: Flow, n: nat)
    requires Exec(env, w, [Take(p, f)], n) != More
    ensures n > 0 && Exec(env, w, [Take(p, f)], n) == Finish(env, TakeStep(env, w, p, f), n - 1)
  {
    hide Exec, TakeStep;
    ExecOne(env, w, Take(p, f), n);
  }

  lemma ExecCheck(env: Env, w: World, p: nat, n: nat)
    requires Exec(env, w, [Check(p)], n) != More
    ensures n > 0 && Exec(env, w, [Check(p)], n) == Finish(env, CheckStep(w, p), n - 1)
  {
    hide Exec, CheckStep;
    ExecOne(env, w, Check(p), n);
  }

  lemma ExecNone(env: Env, w: World, n: nat)
    ensures Exec(env, w, [], n) == Ended(w)
  {
  }

  // More steps than enough change nothing.
  lemma {:induction false} ExecStable(env: Env, w: World, agenda: seq<Job>, n: nat, m: nat)
    requires n <= m && Exec(env, w, agenda, n) != More
    ensures Exec(env, w, agenda, m) == Exec(env, w, agenda, n)
    decreases n
  {
    hide StepJob;
    if agenda != [] {
      match StepJob(env, w, agenda[0])
      case Stuck(_) =>
      case Go(w1, jobs) => ExecStable(env, w1, jobs + agenda[1..], n - 1, m - 1);
    }
  }

  // Running two agendas one after the other is running their concatenation: the jobs behind the ones
  // being run are never touched, which is what makes an agenda a call stack.
  lemma {:induction false} ExecSplit(env: Env, w: World, a: seq<Job>, b: seq<Job>, n: nat)
    requires Exec(env, w, a + b, n) != More
    ensures Exec(env, w, a, n) != More
    ensures Exec(env, w, a, n).Failed? ==> Exec(env, w, a + b, n) == Exec(env, w, a, n)
    ensures Exec(env, w, a, n).Ended? ==> Exec(env, Exec(env, w, a, n).w, b, n) == Exec(env, w, a + b, n)
    decreases n
  {
    hide StepJob;
    if a == [] {
      assert a + b == b;
    } else {
      assert (a + b)[0] == a[0] && (a + b)[1..] == a[1..] + b;
      match StepJob(env, w, a[0])
      case Stuck(_) =>
      case Go(w1, jobs) =>
        assert jobs + (a[1..] + b) == (jobs + a[1..]) + b;
        ExecSplit(env, w1, jobs + a[1..], b, n - 1);
        var first := Exec(env, w1, jobs + a[1..], n - 1);
        assert Exec(env, w, a, n) == first;
        if first.Ended? {
          ExecStable(env, first.w, b, n - 1, n);
        }
    }
  }

  // One step of the job in front.
  lemma ExecOn(env: Env, w: World, job: Job, rest: seq<Job>, w1: World, jobs: seq<Job>, n: nat)
    requires StepJob(env, w, job) == Go(w1, jobs) && n > 0
    ensures Exec(env, w, [job] + rest, n) == Exec(env, w1, jobs + rest, n - 1)
  {
    hide StepJob;
    assert ([job] + rest)[1..] == rest;
  }

  lemma ExecSolo(env: Env, w: World, job: Job, w1: World, jobs: seq<Job>, n: nat)
    requires StepJob(env, w, job) == Go(w1, jobs) && n > 0
    ensures Exec(env, w, [job], n) == Exec(env, w1, jobs, n - 1)
  {
    hide StepJob, Exec;
    ExecOn(env, w, job, [], w1, jobs, n);
    assert [job] + [] == [job] && jobs + [] == jobs;
  }

  // The outcome is a success or a failure, as `ok` says, in world w.
  ghost predicate Yields(o: Outcome, ok: bool, w: World) {
    o == if ok then Ended(w) else Failed(w)
  }

  lemma {:induction false} TakesFront(p: nat, flows: seq<Flow>)
    requires flows != []
    ensures Takes(p, flows) == [Take(p, flows[0])] + Takes(p, flows[1..])
  {
  }

  // Taking several flows: the first one with all that follows from it, and then the others.
  lemma ExecTakes(env: Env, w: World, p: nat, flows: seq<Flow>, n: nat)
    requires flows != [] && Exec(env, w, Takes(p, flows), n) != More
    ensures n > 0
    ensures var first := Finish(env, TakeStep(env, w, p, flows[0]), n - 1);
            && first != More
            && (first.Failed? ==> Exec(env, w, Takes(p, flows), n) == first)
            && (first.Ended? ==> Exec(env, first.w, Takes(p, flows[1..]), n) == Exec(env, w, Takes(p, flows), n))
  {
    hide TakeStep, Exec;
    TakesFront(p, flows);
    ExecSplit(env, w, [Take(p, flows[0])], Takes(p, flows[1..]), n);
    ExecTake(env, w, p, flows[0], n);
  }
}
