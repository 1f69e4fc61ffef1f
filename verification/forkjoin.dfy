// A fork to any number of user tasks, joined and then ended: the tasks may be completed in any order, the
// join fires once, and the instance completes exactly with the last of them.

module ForkJoin {
  import opened Spec
  import opened Model
  import opened Bags
  import opened Machine
  import opened Operations
  import opened Lifecycle
  import opened TokenGame
  import opened TokenRuns
  import opened Frames
  import opened Footprints
  import opened Discipline

  datatype Fork = Fork(split: string, tasks: seq<string>, join: string, end: string)

  predicate LeadsTo(def: Definition, e: string, target: string) {
    var out := FlowsFrom(def.flows, e);
    |out| == 1 && out[0].target == target
  }

  // start -> split -> tasks -> join -> end, and nothing else.
  ghost predicate IsFork(def: Definition, k: Fork) {
    && k.tasks != []
    && (forall i, j :: 0 <= i < j < |k.tasks| ==> k.tasks[i] != k.tasks[j])
    && def.start in def.elements && def.elements[def.start].StartEvent?
    && k.split in def.elements && def.elements[k.split].ParallelGateway?
    && k.join in def.elements && def.elements[k.join].ParallelGateway? && k.join != k.split
    && k.end in def.elements && def.elements[k.end].EndEvent?
    && (forall i :: 0 <= i < |k.tasks| ==> PlainUser(def, k.tasks[i]))
    && (forall e :: e in def.elements ==> e == def.start || e == k.split || e == k.join || e == k.end || e in k.tasks)
    && LeadsTo(def, def.start, k.split)
    && (var out := FlowsFrom(def.flows, k.split);
        |out| == |k.tasks| && forall i :: 0 <= i < |out| ==> out[i].target == k.tasks[i])
    && (forall i :: 0 <= i < |k.tasks| ==> LeadsTo(def, k.tasks[i], k.join))
    && LeadsTo(def, k.join, k.end)
    && FlowsFrom(def.flows, k.end) == []
    && (var into := FlowsInto(def.flows, k.split); |into| == 1 && into[0].source == def.start)
    && (var into := FlowsInto(def.flows, k.join);
        |into| == |k.tasks| && forall i :: 0 <= i < |into| ==> into[i].source in k.tasks)
  }

  lemma {:induction false} AllCounted(def: Definition, flows: seq<Flow>)
    requires forall i :: 0 <= i < |flows| ==>
          flows[i].source in def.elements
          && !def.elements[flows[i].source].ServiceTask?
    ensures Counted(def, flows) == |flows|
  {
    if flows != [] { AllCounted(def, flows[..|flows| - 1]); }
  }

  // The split waits for one token, the join for one from each task.
  lemma ForkFanIn(def: Definition, k: Fork)
    requires IsFork(def, k)
    ensures FanIn(def, k.split) == 1 && FanIn(def, k.join) == |k.tasks|
  {
    hide FlowsInto, FlowsFrom;
    AllCounted(def, FlowsInto(def.flows, k.split));
    AllCounted(def, FlowsInto(def.flows, k.join));
  }

  lemma ForkIsPlain(def: Definition, k: Fork)
    requires IsFork(def, k)
    ensures BasicDef(def) && PlainSplit(def)
  {
    hide FlowsInto, FlowsFrom;
    forall e, i | e in def.elements && !def.elements[e].ExclusiveGateway?
                  && |FlowsFrom(def.flows, e)| >= 2 && 0 <= i < |FlowsFrom(def.flows, e)|
      ensures TaskAt(def, FlowsFrom(def.flows, e)[i].target)
    {
      assert e == k.split;
    }
  }

  // ---- Stages ----

  datatype Stage = AtStart | AtSplit | Waiting(left: set<nat>) | AtEnd | Over

  // Where the tokens of p are at a stage: at the tasks that are left, with those of the others at the join.
  ghost predicate In(def: Definition, k: Fork, p: nat, m: multiset<Place>, s: Stage) {
    && m[Place(p, def.start)] == (if s == AtStart then 1 else 0)
    && m[Place(p, k.split)] == (if s == AtSplit then 1 else 0)
    && m[Place(p, k.end)] == (if s == AtEnd then 1 else 0)
    && (forall i :: 0 <= i < |k.tasks| ==> m[Place(p, k.tasks[i])] == (if s.Waiting? && i in s.left then 1 else 0))
    && (s.Waiting? ==> s.left <= Below(|k.tasks|) && |s.left| <= |k.tasks|)
    && m[Place(p, k.join)] == (if s.Waiting? then |k.tasks| - |s.left| else 0)
  }

  function Below(n: nat): (s: set<nat>)
    ensures |s| == n && forall i: nat :: i in s <==> i < n
  {
    if n == 0 then {} else Below(n - 1) + {n - 1}
  }

  // The stage that follows by itself, and the element that fires to get there.
  ghost function Next(def: Definition, k: Fork, s: Stage): Option<(string, Stage)> {
    match s
    case AtStart => Some((def.start, AtSplit))
    case AtSplit => Some((k.split, Waiting(Below(|k.tasks|))))
    case Waiting(left) => if left == {} then Some((k.join, AtEnd)) else None
    case AtEnd => Some((k.end, Over))
    case Over => None
  }

  lemma {:induction false} TargetsAt(p: nat, flows: seq<Flow>, names: seq<string>)
    requires |flows| == |names| && (forall i :: 0 <= i < |flows| ==> flows[i].target == names[i])
    requires forall i, j :: 0 <= i < j < |names| ==> names[i] != names[j]
    ensures forall i :: 0 <= i < |names| ==> Targets(p, flows)[Place(p, names[i])] == 1
    ensures forall e :: e !in names ==> Targets(p, flows)[Place(p, e)] == 0
  {
    if flows != [] {
      var last := |flows| - 1;
      assert names == names[..last] + [names[last]];
      TargetsAt(p, flows[..last], names[..last]);
      forall i | 0 <= i < |names| ensures Targets(p, flows)[Place(p, names[i])] == 1 {
        if i < last {
          assert names[i] == names[..last][i];
        } else {
          assert names[last] !in names[..last];
        }
      }
    }
  }

  lemma StartFires(def: Definition, k: Fork, p: nat, m: multiset<Place>, m1: multiset<Place>, chosen: seq<Flow>)
    requires IsFork(def, k) && In(def, k, p, m, AtStart) && FiresBy(def, p, m, m1, def.start, chosen)
    ensures In(def, k, p, m1, AtSplit)
  {
    hide FlowsFrom, FlowsInto, Targets, FanIn;
    TargetsAt(p, chosen, [k.split]);
  }

  lemma SplitFires(def: Definition, k: Fork, p: nat, m: multiset<Place>, m1: multiset<Place>, chosen: seq<Flow>)
    requires IsFork(def, k) && In(def, k, p, m, AtSplit) && FiresBy(def, p, m, m1, k.split, chosen)
    ensures In(def, k, p, m1, Waiting(Below(|k.tasks|)))
  {
    hide FlowsFrom, FlowsInto, Targets, FanIn, Below;
    ForkFanIn(def, k);
    TargetsAt(p, chosen, k.tasks);
  }

  // What firing e does to the tokens at x.
  lemma FiredAt(def: Definition, p: nat, m: multiset<Place>, m1: multiset<Place>, e: string, chosen: seq<Flow>,
      x: string)
    requires FiresBy(def, p, m, m1, e, chosen)
    ensures e in def.elements && MayFollow(def, e, chosen) && m[Place(p, e)] >= Need(def, e)
    ensures m1[Place(p, x)] == m[Place(p, x)] - (if x == e then Need(def, e) else 0) + Targets(p, chosen)[Place(p, x)]
  {
    hide MayFollow, Need, Targets;
  }

  // The elements are all different.
  lemma Names(def: Definition, k: Fork)
    requires IsFork(def, k)
    ensures k.join != def.start && k.join != k.split && k.join != k.end && k.end != def.start && k.end != k.split
    ensures forall i :: 0 <= i < |k.tasks| ==>
              k.tasks[i] != def.start && k.tasks[i] != k.split && k.tasks[i] != k.join && k.tasks[i] != k.end
    ensures forall i, j :: 0 <= i < j < |k.tasks| ==> k.tasks[i] != k.tasks[j]
  {
    hide FlowsFrom, FlowsInto, LeadsTo;
  }

  lemma JoinLeads(def: Definition, k: Fork, chosen: seq<Flow>)
    requires IsFork(def, k)
    ensures k.join in def.elements && Need(def, k.join) == |k.tasks|
    ensures MayFollow(def, k.join, chosen) ==> |chosen| == 1 && chosen[0].target == k.end
  {
    hide FlowsFrom, FlowsInto;
    ForkFanIn(def, k);
  }

  lemma JoinFires(def: Definition, k: Fork, p: nat, m: multiset<Place>, m1: multiset<Place>, chosen: seq<Flow>)
    requires IsFork(def, k) && In(def, k, p, m, Waiting({})) && FiresBy(def, p, m, m1, k.join, chosen)
    ensures In(def, k, p, m1, AtEnd)
  {
    hide FlowsFrom, FlowsInto, Targets, FanIn, FiresBy, IsFork, MayFollow, Need;
    Names(def, k);
    JoinLeads(def, k, chosen);
    FiredAt(def, p, m, m1, k.join, chosen, k.join);
    TargetsAt(p, chosen, [k.end]);
    FiredAt(def, p, m, m1, k.join, chosen, def.start);
    FiredAt(def, p, m, m1, k.join, chosen, k.split);
    FiredAt(def, p, m, m1, k.join, chosen, k.end);
    forall i | 0 <= i < |k.tasks| ensures m1[Place(p, k.tasks[i])] == 0 {
      FiredAt(def, p, m, m1, k.join, chosen, k.tasks[i]);
    }
  }

  lemma EndFires(def: Definition, k: Fork, p: nat, m: multiset<Place>, m1: multiset<Place>, chosen: seq<Flow>)
    requires IsFork(def, k) && In(def, k, p, m, AtEnd) && FiresBy(def, p, m, m1, k.end, chosen)
    ensures In(def, k, p, m1, Over)
  {
    hide FlowsFrom, FlowsInto, Targets, FanIn;
    TargetsAt(p, chosen, []);
  }

  // At each stage only one element can fire by itself, or none.
  lemma OnlyNext(def: Definition, k: Fork, p: nat, m: multiset<Place>, s: Stage, e: string, m1: multiset<Place>)
    requires IsFork(def, k) && In(def, k, p, m, s) && Fires(def, p, m, m1, e)
    ensures Next(def, k, s).Some? && Next(def, k, s).value.0 == e
  {
    hide FlowsFrom, FlowsInto, Targets, FanIn, MayFollow;
    ForkFanIn(def, k);
    var chosen :| FiresBy(def, p, m, m1, e, chosen);
    assert m[Place(p, e)] >= Need(def, e);
    assert e !in k.tasks;
    if e == k.join { assert s.Waiting? && s.left == {}; }
  }

  lemma StageStep(def: Definition, k: Fork, p: nat, m: multiset<Place>, s: Stage, e: string, m1: multiset<Place>)
    requires IsFork(def, k) && In(def, k, p, m, s) && Fires(def, p, m, m1, e)
    ensures Next(def, k, s).Some? && Next(def, k, s).value.0 == e && In(def, k, p, m1, Next(def, k, s).value.1)
  {
    hide IsFork, In, FiresBy;
    OnlyNext(def, k, p, m, s, e, m1);
    var chosen :| FiresBy(def, p, m, m1, e, chosen);
    match s
    case AtStart => StartFires(def, k, p, m, m1, chosen);
    case AtSplit => SplitFires(def, k, p, m, m1, chosen);
    case Waiting(_) => JoinFires(def, k, p, m, m1, chosen);
    case AtEnd => EndFires(def, k, p, m, m1, chosen);
    case Over =>
  }

  // The stage after firing these elements one after the other.
  ghost function Through(def: Definition, k: Fork, s: Stage, fired: seq<string>): Option<Stage>
    decreases |fired|
  {
    if fired == [] then Some(s)
    else
      match Next(def, k, s)
      case None => None
      case Some(next) => if next.0 == fired[0] then Through(def, k, next.1, fired[1..]) else None
  }

  lemma {:induction false} StageRun(def: Definition, k: Fork, p: nat, m: multiset<Place>, s: Stage,
      fired: seq<string>, m1: multiset<Place>)
    requires IsFork(def, k) && In(def, k, p, m, s) && Reaches(def, p, m, fired, m1)
    ensures Through(def, k, s, fired).Some? && In(def, k, p, m1, Through(def, k, s, fired).value)
    decreases |fired|
  {
    hide IsFork, In, Fires, Next;
    if fired != [] {
      var m0 :| Fires(def, p, m, m0, fired[0]) && Reaches(def, p, m0, fired[1..], m1);
      StageStep(def, k, p, m, s, fired[0], m0);
      StageRun(def, k, p, m0, Next(def, k, s).value.1, fired[1..], m1);
    }
  }

  lemma ThroughStart(def: Definition, k: Fork, fired: seq<string>)
    requires k.tasks != [] && Through(def, k, AtStart, fired).Some?
    ensures var s := Through(def, k, AtStart, fired).value;
            s == AtStart || s == AtSplit || (s == Waiting(Below(|k.tasks|)) && fired == [def.start, k.split])
  {
    hide Below;
    if fired != [] && fired[1..] != [] {
      assert Below(|k.tasks|) != {} by { assert 0 in Below(|k.tasks|); }
      assert Through(def, k, AtStart, fired) == Through(def, k, AtSplit, fired[1..]);
      assert Through(def, k, AtSplit, fired[1..]) == Through(def, k, Waiting(Below(|k.tasks|)), fired[1..][1..]);
      assert fired[1..][1..] == [];
      assert fired == [fired[0]] + [fired[1..][0]];
    }
  }

  lemma ThroughWaiting(def: Definition, k: Fork, left: set<nat>, fired: seq<string>)
    requires left != {} && Through(def, k, Waiting(left), fired).Some?
    ensures fired == [] && Through(def, k, Waiting(left), fired).value == Waiting(left)
  {
  }

  lemma ThroughJoin(def: Definition, k: Fork, fired: seq<string>)
    requires Through(def, k, Waiting({}), fired).Some?
    ensures var s := Through(def, k, Waiting({}), fired).value;
            s == Waiting({}) || s == AtEnd || (s == Over && fired == [k.join, k.end])
  {
    if fired != [] && fired[1..] != [] {
      assert Through(def, k, Waiting({}), fired) == Through(def, k, AtEnd, fired[1..]);
      assert Through(def, k, AtEnd, fired[1..]) == Through(def, k, Over, fired[1..][1..]);
      assert fired[1..][1..] == [];
      assert fired == [fired[0]] + [fired[1..][0]];
    }
  }

  // ---- The instance at rest ----

  // The tasks in `left` are still to be completed.
  ghost predicate Stands(env: Env, w: World, p: nat, def: Definition, k: Fork, left: set<nat>) {
    && Settled(env, w, p, def)
    && In(def, k, p, w.toks, if left == {} then Over else Waiting(left))
    && w.insts[p].state == (if left == {} then Completed else Running)
    && Count(w.log, Follow(Place(p, k.join))) == (if left == {} then 1 else 0)
  }

  // Only two stages are at rest: waiting for tasks, and over.
  lemma RestingStage(env: Env, w: World, p: nat, def: Definition, k: Fork, s: Stage)
    requires IsFork(def, k) && Steady(env, w, p, def) && In(def, k, p, w.toks, s)
    ensures (s.Waiting? && s.left != {}) || s == Over
    ensures HasToken(w, p) <==> s != Over
  {
    hide FlowsFrom, FlowsInto, FanIn, Counts, Opens, Arrived, Count;
    ForkFanIn(def, k);
    CountsAt(w, p, def, [], "", 0, def.start);
    CountsAt(w, p, def, [], "", 0, k.split);
    CountsAt(w, p, def, [], "", 0, k.join);
    CountsAt(w, p, def, [], "", 0, k.end);
    if s == Over {
      if HasToken(w, p) {
        var at :| at in w.toks && at.inst == p;
        NoneLeft(w, p, def, k, at);
        assert false;
      }
    } else {
      var i :| i in s.left;
      assert Place(p, k.tasks[i]) in w.toks;
    }
  }

  lemma NoneLeft(w: World, p: nat, def: Definition, k: Fork, at: Place)
    requires IsFork(def, k) && In(def, k, p, w.toks, Over) && Counts(w, p, def, [], "", 0) && at.inst == p
    ensures at !in w.toks
  {
    hide FlowsFrom, FlowsInto, FanIn, Counts, Opens, Arrived, Count;
    CountsAt(w, p, def, [], "", 0, at.elem);
  }

  // Starting the process opens all the tasks.
  lemma ForkStarts(env: Env, w: World, defId: string, vars: Vars, k: Fork, n: nat)
    requires Wf(w) && Known(w) && CallerVars(vars) && Apply(env, w, Start(defId, vars), n).Ended?
    requires defId in env.defs && IsFork(env.defs[defId], k)
    ensures Stands(env, Apply(env, w, Start(defId, vars), n).w, w.next, env.defs[defId], k, Below(|k.tasks|))
  {
    hide IsFork, Apply, Steady, HasToken, Reaches, Follows, PlainSplit, BasicDef, Through, Below, Wf, In, Known,
        Unused;
    NextUnused(w);
    var def := env.defs[defId];
    var p := w.next;
    ForkIsPlain(def, k);
    var fired := StartPlaysTheGame(env, w, defId, vars, n);
    var w1 := Apply(env, w, Start(defId, vars), n).w;
    FirstStage(w, p, def, k);
    StageRun(def, k, p, w.toks + multiset{Place(p, def.start)}, AtStart, fired, w1.toks);
    ForkNonempty(def, k);
    ThroughStart(def, k, fired);
    RestingStage(env, w1, p, def, k, Through(def, k, AtStart, fired).value);
    JoinUnfired(w, w1, p, def, k, fired);
  }

  lemma ForkNonempty(def: Definition, k: Fork)
    requires IsFork(def, k)
    ensures k.tasks != [] && Below(|k.tasks|) != {} && k.join in def.elements && def.elements[k.join].ParallelGateway?
    ensures k.join != def.start && k.join != k.split && k.end != k.join
  {
    hide FlowsFrom, FlowsInto;
    assert 0 in Below(|k.tasks|);
  }

  lemma FirstStage(w: World, p: nat, def: Definition, k: Fork)
    requires IsFork(def, k) && Unused(w, p)
    ensures In(def, k, p, w.toks + multiset{Place(p, def.start)}, AtStart)
  {
    hide FlowsFrom, FlowsInto;
    forall e ensures w.toks[Place(p, e)] == 0 { assert Place(p, e) !in w.toks; }
  }

  lemma JoinUnfired(w: World, w1: World, p: nat, def: Definition, k: Fork, fired: seq<string>)
    requires IsFork(def, k) && Unused(w, p) && Follows(def, p, w.log, w1.log, fired) && fired == [def.start, k.split]
    ensures Count(w1.log, Follow(Place(p, k.join))) == 0
  {
    hide Count, IsFork;
    ForkNonempty(def, k);
    CountNone(w.log, Follow(Place(p, k.join)));
    assert k.join !in fired;
  }

  // A task fires: it has left, and its token is at the join.
  lemma TaskLeaves(def: Definition, k: Fork, p: nat, m: multiset<Place>, m0: multiset<Place>, left: set<nat>, i: nat)
    requires IsFork(def, k) && In(def, k, p, m, Waiting(left)) && i in left && i < |k.tasks|
    requires FiresBy(def, p, m, m0, k.tasks[i], FlowsFrom(def.flows, k.tasks[i]))
    ensures In(def, k, p, m0, Waiting(left - {i}))
  {
    hide FlowsFrom, FlowsInto, Targets, FanIn, FiresBy, IsFork, MayFollow, Need;
    var e := k.tasks[i];
    var out := FlowsFrom(def.flows, e);
    Names(def, k);
    TaskLeads(def, k, i);
    TargetsAt(p, out, [k.join]);
    FiredAt(def, p, m, m0, e, out, def.start);
    FiredAt(def, p, m, m0, e, out, k.split);
    FiredAt(def, p, m, m0, e, out, k.join);
    FiredAt(def, p, m, m0, e, out, k.end);
    forall j | 0 <= j < |k.tasks| ensures m0[Place(p, k.tasks[j])] == if j in left - {i} then 1 else 0 {
      FiredAt(def, p, m, m0, e, out, k.tasks[j]);
    }
  }

  lemma TaskLeads(def: Definition, k: Fork, i: nat)
    requires IsFork(def, k) && i < |k.tasks|
    ensures k.tasks[i] in def.elements && Need(def, k.tasks[i]) == 1
    ensures var out := FlowsFrom(def.flows, k.tasks[i]); |out| == 1 && out[0].target == k.join
  {
    hide FlowsFrom, FlowsInto;
    assert LeadsTo(def, k.tasks[i], k.join) && PlainUser(def, k.tasks[i]);
  }

  // Which task activity a belongs to.
  lemma TaskLeft(env: Env, w: World, p: nat, def: Definition, k: Fork, left: set<nat>, a: nat) returns (i: nat)
    requires IsFork(def, k) && Stands(env, w, p, def, k, left) && PlainTask(env, w, p, def, a)
    ensures i < |k.tasks| && k.tasks[i] == w.acts[a].at.elem && i in left && w.toks[w.acts[a].at] == 1
  {
    hide FlowsFrom, FlowsInto, Counts, Opens, Arrived, Count, FanIn, HasToken, PlainTask;
    TaskInst(env, w, p, def, a);
    CountsAt(w, p, def, [], "", 0, w.acts[a].at.elem);
    OpensHere(w, a);
    i :| 0 <= i < |k.tasks| && k.tasks[i] == w.acts[a].at.elem;
    assert w.acts[a].at == Place(p, k.tasks[i]);
  }

  // Completing one of the tasks that are left: with the last one the join fires and the instance completes.
  lemma ForkCompletes(env: Env, w: World, p: nat, def: Definition, k: Fork, left: set<nat>, a: nat, vars: Vars,
      n: nat) returns (i: nat)
    requires IsFork(def, k) && Stands(env, w, p, def, k, left) && PlainTask(env, w, p, def, a) && CallerVars(vars)
    requires Apply(env, w, Complete(a, vars), n).Ended?
    ensures i in left && Stands(env, Apply(env, w, Complete(a, vars), n).w, p, def, k, left - {i})
  {
    hide IsFork, Apply, Steady, HasToken, Reaches, Follows, PlainSplit, BasicDef, Through, PlainTask, FlowsFrom,
        Count, In, Good;
    i := TaskLeft(env, w, p, def, k, left, a);
    TaskInst(env, w, p, def, a);
    ForkIsPlain(def, k);
    ForkNonempty(def, k);
    var fired := CompletionPlaysTheGame(env, w, p, def, a, vars, n);
    var w1 := Apply(env, w, Complete(a, vars), n).w;
    var m0 :| FiresBy(def, p, w.toks, m0, k.tasks[i], FlowsFrom(def.flows, k.tasks[i]))
        && Reaches(def, p, m0, fired, w1.toks);
    TaskLeaves(def, k, p, w.toks, m0, left, i);
    StageRun(def, k, p, m0, Waiting(left - {i}), fired, w1.toks);
    RestingStage(env, w1, p, def, k, Through(def, k, Waiting(left - {i}), fired).value);
    FollowsAt(def, p, w.log, w1.log, [k.tasks[i]] + fired, k.join);
    TaskNotJoin(def, k, i);
    if left - {i} != {} {
      ThroughWaiting(def, k, left - {i}, fired);
    } else {
      ThroughJoin(def, k, fired);
    }
  }

  lemma TaskNotJoin(def: Definition, k: Fork, i: nat)
    requires IsFork(def, k) && i < |k.tasks|
    ensures multiset([k.tasks[i]] + [])[k.join] == 0 && multiset([k.tasks[i]] + [k.join, k.end])[k.join] == 1
  {
    hide FlowsFrom, FlowsInto;
    assert [k.tasks[i]] + [] == [k.tasks[i]];
    assert [k.tasks[i]] + [k.join, k.end] == [k.tasks[i], k.join, k.end];
  }

  lemma FollowsAt(def: Definition, p: nat, log: seq<Event>, log1: seq<Event>, fired: seq<string>, e: string)
    requires Follows(def, p, log, log1, fired) && e in def.elements && !def.elements[e].EndEvent?
    ensures Count(log1, Follow(Place(p, e))) == Count(log, Follow(Place(p, e))) + multiset(fired)[e]
  {
  }

  // ---- Every order of completions ----

  ghost predicate CompletesPlainly(env: Env, w: World, p: nat, def: Definition, op: Op, w1: World) {
    && op.Complete? && PlainTask(env, w, p, def, op.act) && CallerVars(op.vars)
    && exists n: nat :: Apply(env, w, op, n) == Ended(w1)
  }

  // Operations on other instances leave the fork alone.
  lemma StandsMeanwhile(env: Env, w: World, w1: World, p: nat, def: Definition, k: Fork, left: set<nat>)
    requires Stands(env, w, p, def, k, left) && Meanwhile(env, w, w1, p)
    ensures Stands(env, w1, p, def, k, left)
  {
    hide Settled, Untouched, In, Meanwhile, Count, Known, Wf;
    SettledWf(env, w, p, def);
    MeanwhileUntouched(env, w, w1, p);
    if w1 != w {
      UntouchedSettled(env, w, w1, p, def);
      UntouchedIn(w, w1, p, def, k, if left == {} then Over else Waiting(left));
    }
  }

  lemma UntouchedIn(w: World, w1: World, p: nat, def: Definition, k: Fork, s: Stage)
    requires In(def, k, p, w.toks, s) && Untouched(w, w1, p)
    ensures In(def, k, p, w1.toks, s) && w1.insts[p] == w.insts[p]
    ensures Count(w1.log, Follow(Place(p, k.join))) == Count(w.log, Follow(Place(p, k.join)))
  {
    hide Count, SameActsOf, VarsOf;
    assert Follow(Place(p, k.join)).at.inst == p;
  }

  // After j completions, in any order and with any operations on other instances in between, n - j tasks are
  // left. So the instance is Running before the n-th completion and Completed after it, the join fires once,
  // with the last, and there are no more than n.
  lemma {:induction false} ForkJoinLaw(env: Env, ws: seq<World>, mids: seq<World>, ops: seq<Op>, p: nat,
      def: Definition, k: Fork, j: nat) returns (left: set<nat>)
    requires IsFork(def, k) && |ws| == |ops| + 1 == |mids| + 1 && Stands(env, ws[0], p, def, k, Below(|k.tasks|))
    requires forall i :: 0 <= i < |ops| ==>
               CompletesPlainly(env, ws[i], p, def, ops[i], mids[i]) && Meanwhile(env, mids[i], ws[i + 1], p)
    requires j <= |ops|
    ensures Stands(env, ws[j], p, def, k, left) && |left| == |k.tasks| - j
    ensures ws[j].insts[p].state == (if j < |k.tasks| then Running else Completed)
    ensures Count(ws[j].log, Follow(Place(p, k.join))) == (if j < |k.tasks| then 0 else 1)
  {
    hide IsFork, Settled, In, Apply, PlainTask, Count, Below, Meanwhile;
    left := Below(|k.tasks|);
    if j > 0 {
      var before := ForkJoinLaw(env, ws, mids, ops, p, def, k, j - 1);
      assert CompletesPlainly(env, ws[j - 1], p, def, ops[j - 1], mids[j - 1])
          && Meanwhile(env, mids[j - 1], ws[j - 1 + 1], p);
      var n: nat :| Apply(env, ws[j - 1], ops[j - 1], n) == Ended(mids[j - 1]);
      var i := ForkCompletes(env, ws[j - 1], p, def, k, before, ops[j - 1].act, ops[j - 1].vars, n);
      left := before - {i};
      StandsMeanwhile(env, mids[j - 1], ws[j], p, def, k, left);
    }
  }
}
