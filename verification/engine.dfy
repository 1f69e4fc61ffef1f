// The engine as it is written: tables updated in place, and navigation as mutually recursive methods.
// Every method is proved to compute what the machine computes.

module EngineImpl {
  import opened Spec
  import opened Model
  import opened Bags
  import opened Machine
  import opened Operations
  import opened Search
  import opened Choices

  // The target of a rejection to the previous task, and of one to the initiator's task.
  ghost predicate PreviousOf(env: Env, w: World, a: nat, target: string) {
    Located(env, w, a) && IsPrevious(DefOf(env, w, a), target, w.acts[a].at.elem)
  }

  ghost predicate FirstOf(env: Env, w: World, a: nat, target: string) {
    && Located(env, w, a) && Begins(DefOf(env, w, a))
    && IsNext(DefOf(env, w, a), target, FlowsFrom(DefOf(env, w, a).flows, DefOf(env, w, a).start)[0].target)
  }

  // A task that may be rejected, as far as its state and the limit go.
  ghost predicate Rejectable(env: Env, w: World, a: nat) {
    && IsActiveTask(w, a) && Located(env, w, a) && w.insts[w.acts[a].at.inst].state == Running
    && var vars := VarsOf(w, w.acts[a].at.inst);
       if NumAt(vars, MaxRejection) > 0 then NumAt(vars, RejectionCount) < NumAt(vars, MaxRejection)
       else NumAt(vars, RejectionCount) < 5
  }

  class Engine {
    const env: Env

    var instances: map<nat, Inst>
    var tokens: map<nat, Token>
    var activities: map<nat, Act>
    var variables: map<nat, Vars>
    var next: nat
    var nextToken: nat
    var clock: nat
    ghost var log: seq<Event>

    ghost predicate Valid()
      reads this
    {
      forall t :: t in tokens ==> t < nextToken
    }

    // The abstract state: which token stands where no longer shows, only how many do.
    ghost function Abs(): World
      reads this
    {
      World(instances, Bag(tokens, Standing), activities, variables, next, clock, log)
    }

    constructor (env: Env)
      ensures Valid() && this.env == env
      ensures Abs() == World(map[], multiset{}, map[], map[], 0, 0, [])
    {
      this.env := env;
      instances, tokens, activities, variables := map[], map[], map[], map[];
      next, nextToken, clock := 0, 0, 0;
      log := [];
    }

    // ---- The store ----

    function GetAllVariables(p: nat): Vars
      reads this
    {
      if p in variables then variables[p] else map[]
    }

    method SetVariable(p: nat, k: VarName, v: Value)
      modifies this`variables
      ensures Abs() == SetVar(old(Abs()), p, k, v)
    {
      variables := variables[p := GetAllVariables(p)[k := v]];
    }

    method DeleteVariables(p: nat, ks: set<VarName>)
      modifies this`variables
      ensures Abs() == DelVars(old(Abs()), p, ks)
    {
      if p in variables {
        variables := variables[p := variables[p] - ks];
      }
    }

    method CreateActivity(a: Act)
      modifies this`activities, this`next
      ensures Abs() == AddAct(old(Abs()), a)
    {
      activities := activities[next := a];
      next := next + 1;
    }

    method CreateDoneActivity(at: Place, kind: Kind)
      modifies this`activities, this`next, this`clock
      ensures Abs() == AddDone(old(Abs()), at, kind)
    {
      CreateActivity(NewAct(at, kind, "").(state := Done, stamp := clock));
      clock := clock + 1;
    }

    method CreateToken(at: Place)
      requires Valid()
      modifies this`tokens, this`nextToken
      ensures Valid() && Abs() == AddTok(old(Abs()), at)
    {
      hide Bag;
      TokenAdded(tokens, nextToken, at);
      tokens := tokens[nextToken := Token(at, true)];
      nextToken := nextToken + 1;
    }

    // UpdateToken with the state set to consumed.
    method ConsumeToken(t: nat)
      requires Valid() && t in tokens && tokens[t].active
      modifies this`tokens
      ensures Valid() && tokens == old(tokens)[t := old(tokens)[t].(active := false)]
      ensures Abs() == DropOne(old(Abs()), old(tokens)[t].at)
    {
      hide Bag;
      TokenConsumed(tokens, t);
      tokens := tokens[t := tokens[t].(active := false)];
    }

    // ListActiveTokens: the active tokens of an instance, in no particular order.
    method ListActiveTokens(p: nat) returns (ids: seq<nat>)
      ensures forall t :: t in ids <==> t in tokens && tokens[t].active && tokens[t].at.inst == p
      ensures forall i, j :: 0 <= i < j < |ids| ==> ids[i] != ids[j]
    {
      ids := [];
      var rest := tokens.Keys;
      while rest != {}
        invariant rest <= tokens.Keys
        invariant forall t :: t in ids <==> t in tokens.Keys - rest && tokens[t].active && tokens[t].at.inst == p
        invariant forall i, j :: 0 <= i < j < |ids| ==> ids[i] != ids[j]
      {
        var t :| t in rest;
        if tokens[t].active && tokens[t].at.inst == p {
          ids := ids + [t];
        }
        rest := rest - {t};
      }
    }

    // Consume the first active token found at an element, if there is one.
    method ConsumeFirst(at: Place)
      requires Valid()
      modifies this`tokens
      ensures Valid() && Abs() == DropOne(old(Abs()), at)
    {
      var ids := ListActiveTokens(at.inst);
      for i := 0 to |ids|
        invariant forall j :: 0 <= j < i ==> tokens[ids[j]].at != at
        invariant tokens == old(tokens)
      {
        if tokens[ids[i]].at == at {
          ConsumeToken(ids[i]);
          return;
        }
      }
      BagHas(tokens, Standing, at);
      assert at !in Bag(tokens, Standing);
      assert Bag(tokens, Standing) - multiset{at} == Bag(tokens, Standing);
    }

    // Those of the listed tokens that stand at one element.
    method Select(ids: seq<nat>, at: Place) returns (found: seq<nat>)
      requires forall t :: t in ids <==> t in tokens && tokens[t].active && tokens[t].at.inst == at.inst
      requires forall i, j :: 0 <= i < j < |ids| ==> ids[i] != ids[j]
      ensures forall t :: t in found <==> t in tokens && Standing(tokens[t]) == Some(at)
      ensures forall i, j :: 0 <= i < j < |found| ==> found[i] != found[j]
    {
      found := [];
      for i := 0 to |ids|
        invariant forall t :: t in found <==> t in ids[..i] && tokens[t].at == at
        invariant forall i, j :: 0 <= i < j < |found| ==> found[i] != found[j]
      {
        assert ids[i] !in ids[..i];
        if tokens[ids[i]].at == at {
          found := found + [ids[i]];
        }
      }
      assert ids[..|ids|] == ids;
    }

    method ConsumeEach(ids: seq<nat>)
      requires Valid()
      requires forall t :: t in ids ==> t in tokens && tokens[t].active
      requires forall i, j :: 0 <= i < j < |ids| ==> ids[i] != ids[j]
      modifies this`tokens
      ensures Valid() && tokens.Keys == old(tokens).Keys
      ensures forall t :: t in tokens ==>
                tokens[t] == if t in ids then old(tokens)[t].(active := false) else old(tokens)[t]
    {
      hide Bag;
      for i := 0 to |ids|
        invariant Valid() && tokens.Keys == old(tokens).Keys
        invariant forall t :: t in tokens ==>
                    tokens[t] == if t in ids[..i] then old(tokens)[t].(active := false) else old(tokens)[t]
      {
        assert ids[i] !in ids[..i];
        ConsumeToken(ids[i]);
      }
      assert ids[..|ids|] == ids;
    }

    // Consume every active token at an element.
    method ConsumeAt(at: Place)
      requires Valid()
      modifies this`tokens
      ensures Valid() && Abs() == DropAll(old(Abs()), at)
    {
      hide Bag;
      var ids := ListActiveTokens(at.inst);
      var found := Select(ids, at);
      ConsumeEach(found);
      forall x ensures Bag(tokens, Standing)[x] == old(Bag(tokens, Standing))[at := 0][x] {
        TokensConsumed(old(tokens), tokens, {at}, x);
      }
    }

    // Consume every active token of an instance.
    method ConsumeAllOf(p: nat)
      requires Valid()
      modifies this`tokens
      ensures Valid() && Abs() == DropAllOf(old(Abs()), p)
    {
      hide Bag;
      var ids := ListActiveTokens(p);
      ConsumeEach(ids);
      forall x ensures Bag(tokens, Standing)[x] == DropAllOf(old(Abs()), p).toks[x] {
        if x.inst == p {
          BagHas(tokens, Standing, x);
        } else {
          BagSame(old(tokens), tokens, Standing, x);
        }
      }
    }

    method FinishActivities(which: set<nat>)
      requires which <= activities.Keys
      modifies this`activities, this`clock
      ensures Abs() == FinishAll(old(Abs()), which)
    {
      hide Bag, Extends;
      var rest := which;
      while rest != {}
        invariant rest <= which && clock == old(clock) && activities.Keys == old(activities).Keys
        invariant forall a :: a in activities ==>
          activities[a] == if a in which - rest then old(activities)[a].(state := Done, stamp := clock)
              else old(activities)[a]
      {
        var a :| a in rest;
        activities := activities[a := activities[a].(state := Done, stamp := clock)];
        rest := rest - {a};
      }
      assert which - rest == which;
      assert activities == FinishAll(old(Abs()), which).acts;
      clock := clock + 1;
    }

    // ---- Navigation ----
    // The ghost argument n bounds the machine's steps; every method terminates because it decreases.

    method NavigateFrom(p: nat, e: string, ghost n: nat) returns (ok: bool)
      requires Valid() && Finish(env, NavStep(env, Abs(), p, e), n) != More
      modifies this
      ensures Valid() && Yields(Finish(env, NavStep(env, old(Abs()), p, e), n), ok, Abs())
      decreases n, 7
    {
      hide Exec, NavFrom;
      ExecNone(env, Abs(), n);
      if p !in instances { return false; }
      if instances[p].state != Running { return true; }
      if instances[p].def !in env.defs { return false; }
      var def := env.defs[instances[p].def];
      if e !in def.elements { return false; }
      var out := FindOutgoingFlows(def.flows, e);
      ok := NavigateElement(Place(p, e), def, def.elements[e], out, n);
    }

    method NavigateElement(at: Place, def: Definition, el: Element, out: seq<Flow>, ghost n: nat) returns (ok: bool)
      requires Valid() && Finish(env, NavFrom(env, Abs(), at, def, el, out), n) != More
      modifies this
      ensures Valid() && Yields(Finish(env, NavFrom(env, old(Abs()), at, def, el, out), n), ok, Abs())
      decreases n, 6
    {
      hide Leave, LoopStep, ExclusiveStep, InclusiveStep, ParallelStep, FanIn, StepJob, CheckStep, Exec;
      match el.Kind() {
        case EndKind => ok := HandleEndEvent(at, n);
        case UserKind =>
          if el.loop.Some? {
            ok := AdvanceMultiInstance(at, el, out, n);
          } else {
            ok := HandleOutgoingFlows(at, out, n);
          }
        case ExclusiveKind => ok := HandleExclusiveGateway(at, el.defaultFlow, out, n);
        case ParallelKind => ok := HandleParallelGateway(at, def, out, n);
        case InclusiveKind => ok := HandleInclusiveGateway(at, el.defaultFlow, out, n);
        case _ => ok := HandleOutgoingFlows(at, out, n);
      }
    }

    method HandleOutgoingFlows(at: Place, out: seq<Flow>, ghost n: nat) returns (ok: bool)
      requires Valid() && Finish(env, Leave(Abs(), at, out), n) != More
      modifies this
      ensures Valid() && Yields(Finish(env, Leave(old(Abs()), at, out), n), ok, Abs())
      decreases n, 1
    {
      hide Exec, CheckStep, Takes;
      log := log + [Follow(at)];
      if |out| == 0 {
        ExecCheck(env, Abs(), at.inst, n);
        ok := CheckComplete(at.inst, n - 1);
      } else {
        ConsumeFirst(at);
        ok := TakeFlows(at.inst, out, n);
      }
    }

    method TakeFlows(p: nat, flows: seq<Flow>, ghost n: nat) returns (ok: bool)
      requires Valid() && Exec(env, Abs(), Takes(p, flows), n) != More
      modifies this
      ensures Valid() && Yields(Exec(env, old(Abs()), Takes(p, flows), n), ok, Abs())
      decreases n, 0
    {
      hide Takes, TakeStep, StepJob;
      for i := 0 to |flows|
        invariant Valid() && Exec(env, Abs(), Takes(p, flows[i..]), n) == Exec(env, old(Abs()), Takes(p, flows), n)
      {
        ExecTakes(env, Abs(), p, flows[i..], n);
        assert flows[i..][1..] == flows[i + 1..];
        ok := TakeSequenceFlow(p, flows[i], n - 1);
        if !ok { return; }
      }
      assert Takes(p, flows[|flows|..]) == [];
      ok := true;
    }

    method HandleEndEvent(at: Place, ghost n: nat) returns (ok: bool)
      requires Valid() && Finish(env, Go(DropAll(Abs(), at), [Check(at.inst)]), n) != More
      modifies this
      ensures Valid() && Yields(Finish(env, Go(DropAll(old(Abs()), at), [Check(at.inst)]), n), ok, Abs())
      decreases n, 2
    {
      hide Exec, CheckStep;
      ConsumeAt(at);
      ExecCheck(env, Abs(), at.inst, n);
      ok := CheckComplete(at.inst, n - 1);
    }

    method CheckComplete(p: nat, ghost n: nat) returns (ok: bool)
      requires Valid() && Finish(env, CheckStep(Abs(), p), n) != More
      modifies this
      ensures Valid() && Yields(Finish(env, CheckStep(old(Abs()), p), n), ok, Abs())
      decreases n, 4
    {
      hide Exec, Bag, HasToken, ReturnStep;
      ExecNone(env, Abs(), n);
      if p !in instances { return false; }
      var active := ListActiveTokens(p);
      TokenListed(p, active);
      if |active| > 0 { return true; }
      instances := instances[p := instances[p].(state := Completed, ended := true)];
      ok := CheckParentCompletion(instances[p].parent, p, n);
    }

    // An instance holds a token exactly when one is listed.
    lemma TokenListed(p: nat, ids: seq<nat>)
      requires forall t :: t in ids <==> t in tokens && tokens[t].active && tokens[t].at.inst == p
      ensures HasToken(Abs(), p) <==> |ids| > 0
    {
      hide Bag;
      if |ids| > 0 {
        BagHas(tokens, Standing, tokens[ids[0]].at);
        assert Standing(tokens[ids[0]]) == Some(tokens[ids[0]].at);
      }
      if HasToken(Abs(), p) {
        var at :| at in Bag(tokens, Standing) && at.inst == p;
        BagHas(tokens, Standing, at);
        var t :| t in tokens && Standing(tokens[t]) == Some(at);
        assert t in ids;
      }
    }

    method CheckParentCompletion(parent: Option<Place>, child: nat, ghost n: nat) returns (ok: bool)
      requires Valid() && Finish(env, ReturnStep(Abs(), parent, child), n) != More
      modifies this
      ensures Valid() && Yields(Finish(env, ReturnStep(old(Abs()), parent, child), n), ok, Abs())
      decreases n, 3
    {
      hide Exec, NavStep, Bag, FinishAll;
      ExecNone(env, Abs(), n);
      if parent.None? || parent.value.elem == "" { return true; }
      var at := parent.value;
      var found := FindToken(at);
      if !found { return true; }
      ghost var live := at.inst in instances && instances[at.inst].state == Running;
      ConsumeFirst(at);
      FinishActivities(set a | a in activities && activities[a].at == at && activities[a].state == Active);
      log := log + [Return(at, child, live)];
      ExecNav(env, Abs(), at, n);
      ok := NavigateFrom(at.inst, at.elem, n - 1);
    }

    method FindToken(at: Place) returns (found: bool)
      ensures found <==> at in Abs().toks
    {
      hide Bag;
      BagHas(tokens, Standing, at);
      var ids := ListActiveTokens(at.inst);
      for i := 0 to |ids|
        invariant forall j :: 0 <= j < i ==> tokens[ids[j]].at != at
      {
        if tokens[ids[i]].at == at {
          assert Standing(tokens[ids[i]]) == Some(at);
          return true;
        }
      }
      return false;
    }

    // ---- Gateways ----

    method ChooseFlow(flows: seq<Flow>, default: string, vars: Vars) returns (choice: Choice)
      ensures choice == ExclusiveChoice(env, flows, default, vars) && Answers(env, flows, default, vars, choice)
    {
      ExclusiveAnswers(env, flows, default, vars);
      hide Answers;
      for i := 0 to |flows|
        invariant FirstTrue(env, flows[i..], vars) == FirstTrue(env, flows, vars)
      {
        if flows[i].condition.Some? {
          match env.cond(flows[i].condition.value, vars) {
            case None => return Bad;
            case Some(matched) => if matched { return Chosen(flows[i]); }
          }
        }
      }
      choice := FindDefault(flows, default);
    }

    method FindDefault(flows: seq<Flow>, id: string) returns (choice: Choice)
      ensures choice == DefaultOf(flows, id)
      ensures forall i :: IsDefault(flows, id, i) ==> choice == Chosen(flows[i])
      ensures (forall i :: !IsDefault(flows, id, i)) ==> choice == Nothing
    {
      DefaultAnswers(flows, id);
      hide IsDefault;
      if id != "" {
        for i := 0 to |flows|
          invariant DefaultOf(flows[i..], id) == DefaultOf(flows, id)
        {
          if flows[i].id == id { return Chosen(flows[i]); }
        }
      }
      return Nothing;
    }

    method HandleExclusiveGateway(at: Place, default: string, out: seq<Flow>, ghost n: nat) returns (ok: bool)
      requires Valid() && Finish(env, ExclusiveStep(env, Abs(), at, default, out), n) != More
      modifies this
      ensures Valid() && Yields(Finish(env, ExclusiveStep(env, old(Abs()), at, default, out), n), ok, Abs())
      decreases n, 2
    {
      hide Exec, ExclusiveChoice, TakeStep;
      var choice := ChooseFlow(out, default, GetAllVariables(at.inst));
      if !choice.Chosen? { return false; }
      ConsumeAt(at);
      log := log + [Follow(at)];
      ExecTake(env, Abs(), at.inst, choice.flow, n);
      ok := TakeSequenceFlow(at.inst, choice.flow, n - 1);
    }

    method CountEffectiveIncoming(def: Definition, incoming: seq<Flow>) returns (count: nat)
      ensures count == if Counted(def, incoming) == 0 then 1 else Counted(def, incoming)
      ensures var from := set i | 0 <= i < |incoming| && incoming[i].source in def.elements
                                  && !def.elements[incoming[i].source].ServiceTask?;
              count == if from == {} then 1 else |from|
    {
      count := 0;
      for i := 0 to |incoming|
        invariant count == Counted(def, incoming[..i])
      {
        assert incoming[..i + 1][..i] == incoming[..i];
        if incoming[i].source in def.elements && !def.elements[incoming[i].source].ServiceTask? {
          count := count + 1;
        }
      }
      assert incoming[..|incoming|] == incoming;
      CountedIs(def, incoming);
      if count == 0 { count := 1; }
    }

    method HandleParallelGateway(at: Place, def: Definition, out: seq<Flow>, ghost n: nat) returns (ok: bool)
      requires Valid() && Finish(env, ParallelStep(Abs(), at, FanIn(def, at.elem), out), n) != More
      modifies this
      ensures Valid() && Yields(Finish(env, ParallelStep(old(Abs()), at, FanIn(def, at.elem), out), n), ok, Abs())
      decreases n, 2
    {
      hide Exec, Proceed, DropAll, DelVars, Counted, FlowsInto, SetVar, NumAt, Bag;
      var incoming := FindIncomingFlows(def.flows, at.elem);
      var fanIn := CountEffectiveIncoming(def, incoming);
      if fanIn > 1 {
        var arrived := NumAt(GetAllVariables(at.inst), GwArrived(at.elem)) + 1;
        SetVariable(at.inst, GwArrived(at.elem), Num(arrived));
        log := log + [Arrive(at)];
        if arrived < fanIn {
          ExecNone(env, Abs(), n);
          return true;
        }
        ConsumeAt(at);
        DeleteVariables(at.inst, {GwArrived(at.elem)});
      } else {
        ConsumeAt(at);
      }
      ok := ProceedFrom(at, out, n);
    }

    // Follow all the flows of an element whose token is already consumed.
    method ProceedFrom(at: Place, out: seq<Flow>, ghost n: nat) returns (ok: bool)
      requires Valid() && Finish(env, Proceed(Abs(), at, out), n) != More
      modifies this
      ensures Valid() && Yields(Finish(env, Proceed(old(Abs()), at, out), n), ok, Abs())
      decreases n, 1
    {
      hide Exec, CheckStep, Takes;
      log := log + [Follow(at)];
      if |out| == 0 {
        ExecCheck(env, Abs(), at.inst, n);
        ok := CheckComplete(at.inst, n - 1);
      } else {
        ok := TakeFlows(at.inst, out, n);
      }
    }

    static function After(taken: seq<Flow>, rest: Option<seq<Flow>>): Option<seq<Flow>> {
      if rest.None? then None else Some(taken + rest.value)
    }

    method EvaluateConditions(flows: seq<Flow>, vars: Vars) returns (activated: Option<seq<Flow>>)
      ensures activated == TrueFlows(env, flows, vars)
      ensures activated.None? <==> exists i :: 0 <= i < |flows| && flows[i].condition.Some?
                                               && env.cond(flows[i].condition.value, vars).None?
      ensures activated.Some? ==> exists ix :: Sublist(flows, Enabled(env, flows, vars), activated.value, ix)
    {
      ghost var ix := TrueFlowsLists(env, flows, vars);
      assert forall i :: Unevaluable(env, flows, vars, i) <==>
               0 <= i < |flows| && flows[i].condition.Some? && env.cond(flows[i].condition.value, vars).None?;
      hide Sublist, Enabled;
      var taken: seq<Flow> := [];
      assert flows[0..] == flows && forall fs: seq<Flow> :: [] + fs == fs;
      for i := 0 to |flows|
        invariant TrueFlows(env, flows, vars) == After(taken, TrueFlows(env, flows[i..], vars))
      {
        assert flows[i..][0] == flows[i] && flows[i..][1..] == flows[i + 1..];
        ghost var rest := TrueFlows(env, flows[i + 1..], vars);
        assert rest.Some? ==> taken + ([flows[i]] + rest.value) == (taken + [flows[i]]) + rest.value;
        if flows[i].condition.Some? {
          match env.cond(flows[i].condition.value, vars) {
            case None => return None;
            case Some(matched) =>
              if matched { taken := taken + [flows[i]]; }
          }
        } else {
          taken := taken + [flows[i]];
        }
      }
      assert flows[|flows|..] == [] && taken + [] == taken;
      return Some(taken);
    }

    method HandleInclusiveGateway(at: Place, default: string, out: seq<Flow>, ghost n: nat) returns (ok: bool)
      requires Valid() && Finish(env, InclusiveStep(env, Abs(), at, default, out), n) != More
      modifies this
      ensures Valid() && Yields(Finish(env, InclusiveStep(env, old(Abs()), at, default, out), n), ok, Abs())
      decreases n, 2
    {
      hide Exec, TrueFlows;
      ConsumeAt(at);
      var activated := EvaluateConditions(out, GetAllVariables(at.inst));
      if activated.None? { return false; }
      var flows := activated.value;
      if flows == [] {
        var choice := FindDefault(out, default);
        if !choice.Chosen? { return false; }
        flows := [choice.flow];
      }
      log := log + [Follow(at)];
      ok := TakeFlows(at.inst, flows, n);
    }

    // ---- Taking a flow ----

    method TakeSequenceFlow(p: nat, f: Flow, ghost n: nat) returns (ok: bool)
      requires Valid() && Finish(env, TakeStep(env, Abs(), p, f), n) != More
      modifies this
      ensures Valid() && Yields(Finish(env, TakeStep(env, old(Abs()), p, f), n), ok, Abs())
      decreases n, 7
    {
      hide Exec, TakeTo;
      if p !in instances || instances[p].def !in env.defs { return false; }
      var def := env.defs[instances[p].def];
      if f.target !in def.elements { return false; }
      var out := FindOutgoingFlows(def.flows, f.target);
      ok := EnterElement(Place(p, f.target), def.elements[f.target], out, n);
    }

    method EnterElement(at: Place, el: Element, out: seq<Flow>, ghost n: nat) returns (ok: bool)
      requires Valid() && Finish(env, TakeTo(env, Abs(), at, el, out), n) != More
      modifies this
      ensures Valid() && Yields(Finish(env, TakeTo(env, old(Abs()), at, el, out), n), ok, Abs())
      decreases n, 6
    {
      hide Exec, EnterLoop, EnterTask, CallStep, Proceed;
      match el.Kind() {
        case UserKind =>
          if el.loop.Some? {
            ok := HandleMultiInstanceTask(at, el, out, n);
          } else {
            CreateTask(at, el);
            ExecNone(env, Abs(), n);
            ok := true;
          }
        case ServiceKind => CreateDoneActivity(at, ServiceKind); ok := NavigateOn(at, n);
        case EndKind => CreateDoneActivity(at, EndKind); ok := NavigateOn(at, n);
        case ExclusiveKind => CreateToken(at); ok := NavigateOn(at, n);
        case ParallelKind => CreateToken(at); ok := NavigateOn(at, n);
        case InclusiveKind => CreateToken(at); ok := NavigateOn(at, n);
        case CatchKind => CreateToken(at); ExecNone(env, Abs(), n); ok := true;
        case ThrowKind => CreateDoneActivity(at, ThrowKind); ok := ProceedFrom(at, out, n);
        case CallKind => ok := HandleCallActivity(at, el, n);
        case BoundaryKind => ok := false;
        case StartKind => ok := false;
      }
    }

    method NavigateOn(at: Place, ghost n: nat) returns (ok: bool)
      requires Valid() && Exec(env, Abs(), [Nav(at.inst, at.elem)], n) != More
      modifies this
      ensures Valid() && Yields(Exec(env, old(Abs()), [Nav(at.inst, at.elem)], n), ok, Abs())
      decreases n, 0
    {
      hide Exec, NavStep;
      ExecNav(env, Abs(), at, n);
      ok := NavigateFrom(at.inst, at.elem, n - 1);
    }

    method CreateTask(at: Place, el: Element)
      requires Valid() && el.UserTask?
      modifies this
      ensures Valid() && Abs() == EnterTask(env, old(Abs()), at, el)
    {
      hide Bag, Texts;
      CreateToken(at);
      var vars := GetAllVariables(at.inst);
      if el.assignee != "" {
        CreateActivity(NewAct(at, UserKind, env.render(el.assignee, vars)));
      } else {
        var a := NewAct(at, UserKind, "");
        if el.candidateUsers != [] || el.candidateGroup != "" {
          var candidates := env.candidates(el.candidateUsers, el.candidateGroup);
          if candidates != [] {
            a := a.(state := Unclaimed);
            SetVariable(at.inst, Candidates(next), List(Texts(candidates)));
          }
        }
        CreateActivity(a);
      }
    }

    // ---- Multi-instance tasks ----

    method SetCounter(p: nat, id: nat, f: LoopField, name: string, k: int)
      requires Valid()
      modifies this`variables
      ensures Valid() && Abs() == SetCount(old(Abs()), p, id, f, name, k)
    {
      SetVariable(p, LoopVar(id, f), Num(k));
      SetVariable(p, User(name), Num(k));
    }

    method ResolveLoopCount(loop: Loop, vars: Vars) returns (count: Option<int>)
      ensures count == LoopCount(env, loop, vars) && HasSize(env, loop, vars, count)
    {
      if loop.collection != "" {
        return Some(|LoopItems(loop, vars)|);
      }
      if loop.cardinality != "" {
        var k := env.num(loop.cardinality, vars);
        return if k.Some? && k.value < 0 then Some(0) else k;
      }
      return Some(1);
    }

    method HandleMultiInstanceTask(at: Place, el: Element, out: seq<Flow>, ghost n: nat) returns (ok: bool)
      requires el.UserTask? && el.loop.Some?
      requires Valid() && Finish(env, EnterLoop(env, Abs(), at, el, out), n) != More
      modifies this
      ensures Valid() && Yields(Finish(env, EnterLoop(env, old(Abs()), at, el, out), n), ok, Abs())
      decreases n, 3
    {
      hide Exec, LoopCount, LoopItems, Leave, LoopInstances, SequentialInstance, SetCount;
      var loop := el.loop.value;
      var vars := GetAllVariables(at.inst);
      var count := ResolveLoopCount(loop, vars);
      if count.None? { return false; }
      if count.value <= 0 {
        ok := HandleOutgoingFlows(at, out, n);
        return;
      }
      var items := LoopItems(loop, vars);
      var id := next;
      next := next + 1;
      SetCounter(at.inst, id, Total, "nrOfInstances", count.value);
      SetCounter(at.inst, id, Live, "nrOfActiveInstances", count.value);
      SetCounter(at.inst, id, Finished, "nrOfCompletedInstances", 0);
      if loop.sequential {
        StartSequentialInstance(at, el, id, items, 0, count.value);
      } else {
        StartParallelInstances(at, el, id, items, count.value);
      }
      ExecNone(env, Abs(), n);
      ok := true;
    }

    method StartInstance(at: Place, el: Element, id: nat, items: seq<Value>, i: nat)
      requires el.UserTask? && el.loop.Some? && Valid()
      modifies this
      ensures Valid() && Abs() == LoopInstance(env, old(Abs()), at, el, id, items, i)
    {
      var snapshot := if at.inst in instances then instances[at.inst].snapshot else map[];
      var a := LoopAct(env, snapshot, at, el, id, i);
      CreateToken(at);
      CreateActivity(a);
      if el.loop.value.elementVariable != "" && i < |items| {
        SetVariable(at.inst, User(el.loop.value.elementVariable), items[i]);
      }
    }

    method StartParallelInstances(at: Place, el: Element, id: nat, items: seq<Value>, count: nat)
      requires el.UserTask? && el.loop.Some? && Valid()
      modifies this
      ensures Valid() && Abs() == LoopInstances(env, old(Abs()), at, el, id, items, count)
    {
      for i := 0 to count
        invariant Valid() && Abs() == LoopInstances(env, old(Abs()), at, el, id, items, i)
      {
        StartInstance(at, el, id, items, i);
      }
    }

    method StartSequentialInstance(at: Place, el: Element, id: nat, items: seq<Value>, i: nat, count: int)
      requires el.UserTask? && el.loop.Some? && Valid()
      modifies this
      ensures Valid() && Abs() == SequentialInstance(env, old(Abs()), at, el, id, items, i, count)
    {
      StartInstance(at, el, id, items, i);
      SetVariable(at.inst, LoopVar(id, SeqIndex), Num(i));
      SetVariable(at.inst, LoopVar(id, SeqCount), Num(count));
    }

    // The multi-instance branch of navigateFrom together with advanceMultiInstance.
    method AdvanceMultiInstance(at: Place, el: Element, out: seq<Flow>, ghost n: nat) returns (ok: bool)
      requires el.UserTask? && el.loop.Some?
      requires Valid() && Finish(env, LoopStep(env, Abs(), at, el, out), n) != More
      modifies this
      ensures Valid() && Yields(Finish(env, LoopStep(env, old(Abs()), at, el, out), n), ok, Abs())
      decreases n, 5
    {
      hide Exec, Leave, AdvanceLoop;
      ConsumeFirst(at);
      var loops := set a | a in activities && activities[a].at == at && activities[a].state == Done
                           && activities[a].loop.Some? :: activities[a].loop.value;
      assert loops == LoopsAt(Abs(), at);
      if loops == {} {
        ok := HandleOutgoingFlows(at, out, n);
      } else {
        ok := AdvanceLoopInstance(at, el, Pick(env, loops, clock), out, n);
      }
    }

    method AdvanceLoopInstance(at: Place, el: Element, id: nat, out: seq<Flow>, ghost n: nat) returns (ok: bool)
      requires el.UserTask? && el.loop.Some?
      requires Valid() && Finish(env, AdvanceLoop(env, Abs(), at, el, id, out), n) != More
      modifies this
      ensures Valid() && Yields(Finish(env, AdvanceLoop(env, old(Abs()), at, el, id, out), n), ok, Abs())
      decreases n, 2
    {
      hide Exec, Leave, SequentialInstance, SetCount, ConditionMet, LoopItems, DropAll, Extends, Bag, NumAt, SetVar;
      var loop := el.loop.value;
      var vars := GetAllVariables(at.inst);
      var completed := NumAt(vars, LoopVar(id, Finished)) + 1;
      var active := NumAt(vars, LoopVar(id, Live)) - 1;
      SetCounter(at.inst, id, Finished, "nrOfCompletedInstances", completed);
      SetCounter(at.inst, id, Live, "nrOfActiveInstances", active);
      if ConditionMet(env, loop, GetAllVariables(at.inst)) {
        SetVariable(at.inst, LoopVar(id, Live), Num(0));
        ConsumeAt(at);
        ok := HandleOutgoingFlows(at, out, n);
        return;
      }
      if loop.sequential {
        var index := NumAt(vars, LoopVar(id, SeqIndex)) + 1;
        var count := NumAt(vars, LoopVar(id, SeqCount));
        if 0 <= index < count {
          StartSequentialInstance(at, el, id, LoopItems(loop, vars), index, count);
          ExecNone(env, Abs(), n);
          return true;
        }
      }
      if active <= 0 || completed >= NumAt(vars, LoopVar(id, Total)) {
        ConsumeAt(at);
        ok := HandleOutgoingFlows(at, out, n);
      } else {
        ExecNone(env, Abs(), n);
        ok := true;
      }
    }

    // ---- Call activities ----

    method HandleCallActivity(at: Place, el: Element, ghost n: nat) returns (ok: bool)
      requires el.CallActivity?
      requires Valid() && Finish(env, CallStep(env, Abs(), at, el), n) != More
      modifies this
      ensures Valid() && Yields(Finish(env, CallStep(env, old(Abs()), at, el), n), ok, Abs())
      decreases n, 3
    {
      hide Exec, NewInstance, AddTok, AddDone, AddAct, Bag, NavStep;
      if el.calledElement !in env.latest || env.latest[el.calledElement] !in env.defs { return false; }
      var called := env.latest[el.calledElement];
      var vars := if el.inheritVariables then GetAllVariables(at.inst) else map[];
      var waiting := FindToken(at);
      var child := CreateInstance(called, Some(at), vars);
      if waiting {
        log := log + [Overlap(at)];
      }
      CreateActivity(NewAct(at, CallKind, ""));
      CreateToken(at);
      CreateDoneActivity(Place(child, env.defs[called].start), StartKind);
      ok := NavigateOn(Place(child, env.defs[called].start), n);
    }

    method CreateInstance(def: string, parent: Option<Place>, vars: Vars) returns (p: nat)
      requires Valid()
      modifies this
      ensures Valid() && p == old(next) && Abs() == NewInstance(old(Abs()), def, parent, vars)
    {
      p := next;
      instances := instances[p := Inst(def, Running, false, parent, vars)];
      if vars != map[] {
        variables := variables[p := vars];
      }
      next := next + 1;
    }

    // ---- Starting and completing ----

    // RunInTransaction: what a failed step has written is taken back.
    method Rollback(instances: map<nat, Inst>, tokens: map<nat, Token>, activities: map<nat, Act>,
                    variables: map<nat, Vars>, next: nat, nextToken: nat, clock: nat, ghost log: seq<Event>)
      requires forall t :: t in tokens ==> t < nextToken
      modifies this
      ensures Valid() && Abs() == World(instances, Bag(tokens, Standing), activities, variables, next, clock, log)
    {
      this.instances, this.tokens, this.activities, this.variables := instances, tokens, activities, variables;
      this.next, this.nextToken, this.clock := next, nextToken, clock;
      this.log := log;
    }

    method StartProcessInstance(defId: string, vars: Vars, ghost n: nat) returns (ok: bool)
      requires Valid() && Apply(env, Abs(), Start(defId, vars), n) != More
      modifies this
      ensures Valid() && Yields(Apply(env, old(Abs()), Start(defId, vars), n), ok, Abs())
    {
      hide Exec, NewInstance, AddDone, WellFormed, Bag;
      if defId !in env.defs { return false; }
      var valid := Validate(env.defs[defId]);
      if !valid { return false; }
      var insts, toks, acts, vs, nx, nt, ck := instances, tokens, activities, variables, next, nextToken, clock;
      ghost var lg := log;
      var start := env.defs[defId].start;
      var p := CreateInstance(defId, None, vars);
      CreateDoneActivity(Place(p, start), StartKind);
      ok := NavigateOn(Place(p, start), n);
      if !ok {
        Rollback(insts, toks, acts, vs, nx, nt, ck, lg);
      }
    }

    method CompleteTask(a: nat, vars: Vars, ghost n: nat) returns (ok: bool)
      requires Valid() && Apply(env, Abs(), Complete(a, vars), n) != More
      modifies this
      ensures Valid() && Yields(Apply(env, old(Abs()), Complete(a, vars), n), ok, Abs())
    {
      hide Exec, FinishOne, Submit, CompleteRest, Bag;
      if a !in activities || activities[a].state != Active || activities[a].kind != UserKind { return false; }
      var insts, toks, acts, vs, nx, nt, ck := instances, tokens, activities, variables, next, nextToken, clock;
      ghost var lg := log;
      var p := activities[a].at.inst;
      FinishActivity(a);
      ok := p in instances;
      if ok {
        MergeVariables(p, vars);
        ok := CompleteInTransaction(p, a, Approves(vars), n);
      }
      if !ok {
        Rollback(insts, toks, acts, vs, nx, nt, ck, lg);
      }
    }

    method FinishActivity(a: nat)
      requires Valid() && a in activities
      modifies this`activities, this`clock
      ensures Valid() && Abs() == FinishOne(old(Abs()), a) && a in activities
    {
      activities := activities[a := activities[a].(state := Done, stamp := clock)];
      clock := clock + 1;
    }

    method MergeVariables(p: nat, vars: Vars)
      requires Valid() && p in instances
      modifies this`instances, this`variables
      ensures Valid() && Abs() == Submit(old(Abs()), p, vars)
    {
      if vars != map[] {
        variables := variables[p := GetAllVariables(p) + vars];
      }
      instances := instances[p := instances[p].(snapshot := instances[p].snapshot + vars)];
    }

    method CompleteInTransaction(p: nat, a: nat, approved: bool, ghost n: nat) returns (ok: bool)
      requires a in activities
      requires Valid() && Finish(env, CompleteRest(env, Abs(), p, a, approved), n) != More
      modifies this
      ensures Valid() && Yields(Finish(env, CompleteRest(env, old(Abs()), p, a, approved), n), ok, Abs())
    {
      hide Exec, SignDoneStep, Bag, ReturnToOwner, Delegated;
      var act := activities[a];
      if act.adhoc.Some? {
        ok := HandleSignCompletion(p, act.adhoc.value, approved, n);
        return;
      }
      var pending := HasPendingSigns(p, a);
      if pending {
        ExecNone(env, Abs(), n);
        return true;
      }
      ConsumeFirst(act.at);
      var returned := HandleDelegateCompletion(a);
      if returned {
        ExecNone(env, Abs(), n);
        return true;
      }
      ok := NavigateOn(Place(p, act.at.elem), n);
    }

    // Has the task an active sign? The first one found settles it, in whatever order the activities are visited.
    method HasPendingSigns(p: nat, parent: nat) returns (pending: bool)
      ensures pending <==> ActiveSigns(Abs(), p, parent) != {}
    {
      var rest := activities.Keys;
      while rest != {}
        invariant rest <= activities.Keys
        invariant ActiveSigns(Abs(), p, parent) <= rest
      {
        var b :| b in rest;
        if activities[b].at.inst == p && activities[b].state == Active && activities[b].adhoc == Some(parent) {
          assert b in ActiveSigns(Abs(), p, parent);
          return true;
        }
        rest := rest - {b};
      }
      return false;
    }

    // The loops that act on every active sign of a task pick them out of the activities of the instance.
    method PendingSigns(p: nat, parent: nat) returns (pending: set<nat>)
      ensures pending == ActiveSigns(Abs(), p, parent)
    {
      pending := {};
      var rest := activities.Keys;
      while rest != {}
        invariant rest <= activities.Keys && pending <= activities.Keys - rest
        invariant ActiveSigns(Abs(), p, parent) <= pending + rest && pending <= ActiveSigns(Abs(), p, parent)
      {
        var b :| b in rest;
        if activities[b].at.inst == p && activities[b].state == Active && activities[b].adhoc == Some(parent) {
          pending := pending + {b};
        }
        rest := rest - {b};
      }
    }

    // ---- Sign sessions ----

    method AddSign(a: nat, backward: bool, signType: string, strategy: string, assignees: seq<string>)
        returns (ok: bool)
      requires Valid()
      modifies this
      ensures Valid() && Yields(Apply(env, old(Abs()), Op.AddSign(a, backward, signType, strategy, assignees), 0),
          ok, Abs())
    {
      hide Exec, OpenSession, AddSigns, FinishOne, Bag, Extends, DropOne;
      if assignees == [] || a !in activities || activities[a].state != Active || activities[a].kind != UserKind
         || activities[a].adhoc.Some? {
        return false;
      }
      var at := activities[a].at;
      if at.inst !in instances || instances[at.inst].state != Running { return false; }
      CreateSession(at.inst, a, signType, strategy, |assignees|);
      CreateSigns(at, a, assignees);
      if backward {
        FinishActivity(a);
        ConsumeFirst(at);
      }
      ExecNone(env, Abs(), 0);
      ok := true;
    }

    method CreateSession(p: nat, a: nat, signType: string, strategy: string, count: nat)
      requires Valid()
      modifies this`variables, this`next
      ensures Valid() && Abs() == OpenSession(old(Abs()), p, a, signType, strategy, count)
    {
      hide SetVar, Bag;
      var id := next;
      next := next + 1;
      SetVariable(p, SignVar(id, SignType), Text(signType));
      SetVariable(p, SignVar(id, Strategy), Text(strategy));
      SetVariable(p, SignVar(id, SignTotal), Num(count));
      SetVariable(p, SignVar(id, SignDone), Num(0));
      SetVariable(p, SignVar(id, Approved), Num(0));
      SetVariable(p, SignVar(id, Parent), Ref(a));
    }

    method CreateSigns(at: Place, a: nat, assignees: seq<string>)
      requires Valid()
      modifies this
      ensures Valid() && Abs() == AddSigns(env, old(Abs()), at, a, assignees)
    {
      hide AddAct, AddTok, Bag, Extends;
      for i := 0 to |assignees|
        invariant Valid() && Abs() == AddSigns(env, old(Abs()), at, a, assignees[..i])
      {
        assert assignees[..i + 1][..i] == assignees[..i];
        var assignee := Rendered(env, assignees[i], GetAllVariables(at.inst));
        CreateActivity(NewAct(at, UserKind, assignee).(adhoc := Some(a)));
        CreateToken(at);
      }
      assert assignees[..|assignees|] == assignees;
    }

    method HandleSignCompletion(p: nat, parent: nat, approved: bool, ghost n: nat) returns (ok: bool)
      requires Valid() && Finish(env, SignDoneStep(env, Abs(), p, parent, approved), n) != More
      modifies this
      ensures Valid() && Yields(Finish(env, SignDoneStep(env, old(Abs()), p, parent, approved), n), ok, Abs())
    {
      hide Exec, Sessions, SetVar, SessionOver, CloseSession, Bag;
      ExecNone(env, Abs(), n);
      if parent !in activities { return false; }
      var vars := GetAllVariables(p);
      var sessions := Sessions(vars, parent);
      if sessions == {} { return true; }
      var id := Pick(env, sessions, clock);
      var done := NumAt(vars, SignVar(id, SignDone)) + 1;
      var approvals := NumAt(vars, SignVar(id, Approved)) + (if approved then 1 else 0);
      SetVariable(p, SignVar(id, SignDone), Num(done));
      SetVariable(p, SignVar(id, Approved), Num(approvals));
      if !SessionOver(vars, id, done, approvals) {
        ExecNone(env, Abs(), n);
        return true;
      }
      ok := FinishSession(p, parent, id, n);
    }

    method FinishSession(p: nat, parent: nat, id: nat, ghost n: nat) returns (ok: bool)
      requires parent in activities
      requires Valid() && Finish(env, CloseSession(Abs(), p, parent, id), n) != More
      modifies this
      ensures Valid() && Yields(Finish(env, CloseSession(old(Abs()), p, parent, id), n), ok, Abs())
    {
      hide Exec, FinishAll, Bag, SessionVars, DelVars;
      var at := Place(p, activities[parent].at.elem);
      var over := activities[parent].state == Done;
      var signs := PendingSigns(p, parent);
      FinishActivities(signs);
      KeepTokens(at, if over then 0 else 1);
      DeleteVariables(p, SessionVars({id}, GetAllVariables(p)));
      if over {
        CreateToken(at);
        ok := NavigateOn(at, n);
      } else {
        ExecNone(env, Abs(), n);
        ok := true;
      }
    }

    // Delete tokens at an element until no more than `keep` are left.
    method KeepTokens(at: Place, keep: nat)
      requires Valid()
      modifies this`tokens
      ensures Valid() && Abs() ==
          old(Abs()).(toks := old(Abs()).toks[at := if old(Abs()).toks[at] < keep then old(Abs()).toks[at] else keep])
    {
      hide Bag;
      var ids := ListActiveTokens(at.inst);
      var excess := Select(ids, at);
      BagCount(tokens, Standing, at, excess);
      ghost var was := Bag(tokens, Standing);
      while |excess| > keep
        invariant Valid()
        invariant forall i, j :: 0 <= i < j < |excess| ==> excess[i] != excess[j]
        invariant forall t :: t in excess <==> t in tokens && Standing(tokens[t]) == Some(at)
        invariant Bag(tokens, Standing) == was[at := |excess|]
        invariant |excess| == was[at] || |excess| >= keep
        invariant |excess| <= was[at]
      {
        BagRemove(tokens, Standing, excess[0]);
        assert forall t :: t in excess <==> t == excess[0] || t in excess[1..];
        tokens := tokens - {excess[0]};
        excess := excess[1..];
      }
    }

    method RemoveSign(a: nat, assignee: string) returns (ok: bool, ghost child: Option<nat>)
      requires Valid()
      modifies this
      ensures Valid() && Yields(Apply(env, old(Abs()), Op.RemoveSign(a, child), 0), ok, Abs())
      ensures ok ==> child.Some? && child.value in old(activities) && old(activities)[child.value].assignee == assignee
      ensures !ok && IsActive(old(Abs()), a) ==>
                forall b :: b in ActiveSigns(old(Abs()), old(activities)[a].at.inst, a) ==>
                    old(activities)[b].assignee != assignee
    {
      hide Exec, Sessions, SetVar, FinishOne, DropOne, NumAt, Bag, Pick, Extends;
      if a !in activities || activities[a].state != Active { return false, None; }
      var p := activities[a].at.inst;
      var signs := PendingSigns(p, a);
      var matching := set b | b in signs && activities[b].assignee == assignee;
      if matching == {} {
        forall b | b in signs ensures activities[b].assignee != assignee { assert b !in matching; }
        return false, None;
      }
      var b :| b in matching;
      var at := activities[a].at;
      var vars := GetAllVariables(p);
      FinishActivity(b);
      ConsumeFirst(at);
      var sessions := Sessions(vars, a);
      if sessions != {} {
        var done := SignVar(Pick(env, sessions, clock), SignDone);
        SetVariable(p, done, Num(NumAt(vars, done) + 1));
      }
      ExecNone(env, Abs(), 0);
      return true, Some(b);
    }

    // ---- Delegation and assignment ----

    method DelegateTask(a: nat, to: string) returns (ok: bool)
      requires Valid()
      modifies this
      ensures Valid() && Yields(Apply(env, old(Abs()), Op.Delegate(a, to), 0), ok, Abs())
    {
      hide Exec, SetVar, Bag;
      if a !in activities || activities[a].state != Active || activities[a].kind != UserKind { return false; }
      var p := activities[a].at.inst;
      SetVariable(p, DelegateOrig(a), Text(activities[a].assignee));
      SetVariable(p, DelegateTo(a), Text(to));
      activities := activities[a := activities[a].(assignee := to)];
      ExecNone(env, Abs(), 0);
      return true;
    }

    method HandleDelegateCompletion(a: nat) returns (returned: bool)
      requires Valid() && a in activities
      modifies this
      ensures Valid() && returned == Delegated(env, old(Abs()), a)
      ensures Abs() == if returned then ReturnToOwner(env, old(Abs()), a) else old(Abs())
    {
      hide AddAct, AddTok, SetVar, Bag, Extends;
      var at := activities[a].at;
      var vars := GetAllVariables(at.inst);
      if DelegateTo(a) !in vars || DelegateOrig(a) !in vars { return false; }
      if at.inst !in instances || instances[at.inst].def !in env.defs { return false; }
      var def := env.defs[instances[at.inst].def];
      var assignee := if vars[DelegateOrig(a)].Text? then vars[DelegateOrig(a)].s else "";
      if at.elem in def.elements && def.elements[at.elem].UserTask? {
        assignee := Rendered(env, def.elements[at.elem].assignee, vars);
      }
      CreateActivity(NewAct(at, UserKind, assignee));
      CreateToken(at);
      SetVariable(at.inst, DelegateReturn(a), Flag(true));
      return true;
    }

    method TransferTask(a: nat, to: string) returns (ok: bool)
      requires Valid()
      modifies this
      ensures Valid() && Yields(Apply(env, old(Abs()), Op.Transfer(a, to), 0), ok, Abs())
    {
      hide Exec, SetVar, Bag;
      if a !in activities || activities[a].state != Active || activities[a].kind != UserKind { return false; }
      SetVariable(activities[a].at.inst, Transferred(a), Text(activities[a].assignee + "->" + to));
      activities := activities[a := activities[a].(assignee := to)];
      ExecNone(env, Abs(), 0);
      return true;
    }

    function GetCandidates(a: nat): seq<Value>
      requires a in activities
      reads this
    {
      var vars := GetAllVariables(activities[a].at.inst);
      if Candidates(a) in vars && vars[Candidates(a)].List? then vars[Candidates(a)].items else []
    }

    method ClaimTask(a: nat, user: string) returns (ok: bool)
      requires Valid()
      modifies this
      ensures Valid() && Yields(Apply(env, old(Abs()), Op.Claim(a, user), 0), ok, Abs())
    {
      hide Exec, Bag;
      if a !in activities || activities[a].state != Unclaimed || activities[a].kind != UserKind { return false; }
      var candidates := GetCandidates(a);
      if candidates != [] {
        var found := false;
        for i := 0 to |candidates|
          invariant found <==> Text(user) in candidates[..i]
        {
          found := found || candidates[i] == Text(user);
        }
        assert candidates[..|candidates|] == candidates;
        if !found { return false; }
      }
      activities := activities[a := activities[a].(assignee := user, state := Active)];
      ExecNone(env, Abs(), 0);
      return true;
    }

    method UnclaimTask(a: nat) returns (ok: bool)
      requires Valid()
      modifies this
      ensures Valid() && Yields(Apply(env, old(Abs()), Op.Unclaim(a), 0), ok, Abs())
    {
      hide Exec, Bag;
      if a !in activities || activities[a].state != Active || GetCandidates(a) == [] { return false; }
      activities := activities[a := activities[a].(assignee := "", state := Unclaimed)];
      ExecNone(env, Abs(), 0);
      return true;
    }

    // ---- Moving a task ----

    method RejectTask(a: nat, mode: RejectMode, reason: string, targetNode: string)
        returns (ok: bool, ghost target: string)
      requires Valid()
      modifies this
      ensures Valid() && Yields(Apply(env, old(Abs()), Op.Reject(a, mode, target, reason), 0), ok, Abs())
      ensures mode == Specific ==> target == targetNode
      ensures ok && mode == Previous ==> PreviousOf(env, old(Abs()), a, target)
      ensures ok && mode == Initiator ==> FirstOf(env, old(Abs()), a, target)
      ensures !ok && mode == Previous && Rejectable(env, old(Abs()), a) && !Stop(DefOf(env, old(Abs()), a), "") ==>
                forall x :: !PreviousOf(env, old(Abs()), a, x)
      ensures !ok && mode == Initiator && Rejectable(env, old(Abs()), a) && !IsTask(DefOf(env, old(Abs()), a), "") ==>
                forall x :: !FirstOf(env, old(Abs()), a, x)
    {
      hide Exec, RejectTo, RejectToEnd, Bag, PreviousOf, FirstOf, NumAt;
      ok, target := false, targetNode;
      if a !in activities || activities[a].state != Active || activities[a].kind != UserKind { return; }
      var p := activities[a].at.inst;
      if p !in instances || instances[p].state != Running || instances[p].def !in env.defs { return; }
      var def := env.defs[instances[p].def];
      var vars := GetAllVariables(p);
      if NumAt(vars, RejectionCount) >= RejectLimit(vars) || mode == OtherMode { return; }
      if mode == ToEnd {
        EndRejected(a, p, reason);
      } else {
        var node := ResolveTarget(a, mode, def, targetNode);
        target := node;
        if node == "" || (mode == Specific && node !in def.elements) { return; }
        MoveRejected(a, mode, node, reason, def);
      }
      ExecNone(env, Abs(), 0);
      ok := true;
    }

    method ResolveTarget(a: nat, mode: RejectMode, def: Definition, targetNode: string) returns (node: string)
      requires Located(env, Abs(), a) && def == DefOf(env, Abs(), a)
      ensures mode != Previous && mode != Initiator ==> node == targetNode
      ensures mode == Previous && node != "" ==> PreviousOf(env, Abs(), a, node)
      ensures mode == Initiator && node != "" ==> FirstOf(env, Abs(), a, node)
      ensures mode == Previous && node == "" && !Stop(def, "") ==> forall x :: !PreviousOf(env, Abs(), a, x)
      ensures mode == Initiator && node == "" && !IsTask(def, "") ==> forall x :: !FirstOf(env, Abs(), a, x)
    {
      node := targetNode;
      if mode == Previous {
        node := PreviousUserTask(def, activities[a].at.elem);
      } else if mode == Initiator {
        node := InitiatorTask(def);
      }
    }

    method EndRejected(a: nat, p: nat, reason: string)
      requires Valid() && a in activities && p in instances
      modifies this
      ensures Valid() && Abs() == RejectToEnd(old(Abs()), a, p, reason)
    {
      hide SetVar, FinishOne, DropAllOf, Bag;
      FinishActivity(a);
      ConsumeAllOf(p);
      instances := instances[p := instances[p].(state := Rejected, ended := true)];
      SetVariable(p, RejectionReason, Text(reason));
    }

    method MoveRejected(a: nat, mode: RejectMode, target: string, reason: string, def: Definition)
      requires Valid() && a in activities
      modifies this
      ensures Valid() && Abs() == RejectTo(env, old(Abs()), a, mode, target, reason, def)
    {
      hide SetVar, DelVars, DropOne, NumAt, Revisit, FinishOne, Bag, Extends, DelegateVars;
      var at := activities[a].at;
      var p := at.inst;
      var count := NumAt(GetAllVariables(p), RejectionCount);
      FinishActivity(a);
      ConsumeFirst(at);
      Recreate(Place(p, target), UserKind, def);
      SetVariable(p, RejectionCount, Num(count + 1));
      DeleteVariables(p, DelegateVars(a));
      if reason != "" {
        SetVariable(p, RejectionReason, Text(reason));
      }
      if mode == Initiator {
        SetVariable(p, RejectedToInitiator, Flag(true));
      }
    }

    method Recreate(at: Place, kind: Kind, def: Definition)
      requires Valid()
      modifies this
      ensures Valid() && Abs() == Revisit(env, old(Abs()), at, kind, def)
    {
      hide AddAct, AddTok, Bag, Extends;
      var assignee := "";
      if at.elem in def.elements && def.elements[at.elem].UserTask? {
        assignee := Rendered(env, def.elements[at.elem].assignee, GetAllVariables(at.inst));
      }
      CreateToken(at);
      CreateActivity(NewAct(at, kind, assignee));
    }

    method ForgetSignSessions(p: nat, a: nat)
      requires Valid()
      modifies this`activities, this`variables, this`clock
      ensures Valid() && Abs() == ForgetSigns(old(Abs()), p, a)
    {
      hide Bag, FinishAll, SessionVars, Sessions, DelVars;
      var signs := PendingSigns(p, a);
      FinishActivities(signs);
      var vars := GetAllVariables(p);
      DeleteVariables(p, SessionVars(Sessions(vars, a), vars));
    }

    method JumpTask(a: nat, target: string, ghost n: nat) returns (ok: bool)
      requires Valid() && Apply(env, Abs(), Op.Jump(a, target), n) != More
      modifies this
      ensures Valid() && Yields(Apply(env, old(Abs()), Op.Jump(a, target), n), ok, Abs())
    {
      hide Exec, SetVar, DelVars, Revisit, ForgetSigns, FinishOne, AddTok, Bag;
      if a !in activities || activities[a].state != Active || activities[a].kind != UserKind
          || activities[a].adhoc.Some? {
        return false;
      }
      var at := activities[a].at;
      var p := at.inst;
      if p !in instances || instances[p].def !in env.defs { return false; }
      var def := env.defs[instances[p].def];
      if target !in def.elements { return false; }
      FinishActivity(a);
      ConsumeFirst(at);
      ForgetSignSessions(p, a);
      DeleteVariables(p, DelegateVars(a));
      if def.elements[target].EndEvent? {
        CreateToken(Place(p, target));
        ok := NavigateOn(Place(p, target), n);
        return;
      }
      if def.elements[target].UserTask? {
        Recreate(Place(p, target), UserKind, def);
      } else {
        CreateToken(Place(p, target));
      }
      SetVariable(p, JumpFrom(a), Text(target));
      ExecNone(env, Abs(), n);
      ok := true;
    }

    method ReclaimTask(a: nat) returns (ok: bool, ghost target: string)
      requires Valid()
      modifies this
      ensures Valid() && Yields(Apply(env, old(Abs()), Op.Reclaim(a, target), 0), ok, Abs())
      ensures ok ==> a in old(activities) && LatestElsewhere(old(Abs()), a, target)
      ensures !ok && IsActive(old(Abs()), a) && old(activities)[a].adhoc.None? && Located(env, old(Abs()), a) ==>
                LatestElsewhere(old(Abs()), a, "") || forall t :: !LatestElsewhere(old(Abs()), a, t)
    {
      hide Exec, ReclaimTo, LatestElsewhere, Bag;
      ok, target := false, "";
      if a !in activities || activities[a].state != Active || activities[a].adhoc.Some? { return; }
      var p := activities[a].at.inst;
      if p !in instances || instances[p].def !in env.defs { return; }
      var found := FindLatest(a);
      target := found.0;
      if !found.1 || found.0 == "" { return; }
      MoveReclaimed(a, found.0, env.defs[instances[p].def]);
      ExecNone(env, Abs(), 0);
      ok := true;
    }

    method MoveReclaimed(a: nat, target: string, def: Definition)
      requires Valid() && a in activities
      modifies this
      ensures Valid() && Abs() == ReclaimTo(env, old(Abs()), a, target, def)
    {
      hide SetVar, DelVars, Revisit, ForgetSigns, FinishOne, Bag, Extends, DelegateVars;
      var at := activities[a].at;
      var kind := activities[a].kind;
      FinishActivity(a);
      ConsumeFirst(at);
      Recreate(Place(at.inst, target), kind, def);
      ForgetSignSessions(at.inst, a);
      DeleteVariables(at.inst, DelegateVars(a));
      SetVariable(at.inst, Reclaimed(a), Text(target));
    }

    // The most recently completed user task at another element, over the activities in any order.
    method FindLatest(a: nat) returns (found: (string, bool))
      requires a in activities
      ensures found.1 ==> LatestElsewhere(Abs(), a, found.0)
      ensures !found.1 ==> forall target :: !LatestElsewhere(Abs(), a, target)
    {
      hide Bag;
      var latest: Option<nat> := None;
      var rest := activities.Keys;
      while rest != {}
        invariant rest <= activities.Keys
        invariant latest.Some? ==> CompletedElsewhere(Abs(), a, latest.value)
        invariant forall c :: CompletedElsewhere(Abs(), a, c) && c !in rest ==>
                    latest.Some? && activities[c].stamp <= activities[latest.value].stamp
      {
        var b :| b in rest;
        rest := rest - {b};
        var act := activities[b];
        if act.state == Done && act.kind == UserKind && act.at.inst == activities[a].at.inst
           && act.at.elem != activities[a].at.elem
           && (latest.None? || act.stamp > activities[latest.value].stamp) {
          latest := Some(b);
        }
      }
      if latest.None? { return ("", false); }
      assert IsLatest(Abs(), a, latest.value);
      return (activities[latest.value].at.elem, true);
    }

    // ---- Lifecycle ----

    method SuspendProcessInstance(p: nat) returns (ok: bool)
      requires Valid()
      modifies this
      ensures Valid() && Yields(Apply(env, old(Abs()), Op.Suspend(p), 0), ok, Abs())
    {
      hide Exec, Bag;
      if p !in instances || instances[p].state != Running { return false; }
      instances := instances[p := instances[p].(state := Suspended)];
      ExecNone(env, Abs(), 0);
      return true;
    }

    method ResumeProcessInstance(p: nat) returns (ok: bool)
      requires Valid()
      modifies this
      ensures Valid() && Yields(Apply(env, old(Abs()), Op.Resume(p), 0), ok, Abs())
    {
      hide Exec, Bag;
      if p !in instances || instances[p].state != Suspended { return false; }
      instances := instances[p := instances[p].(state := Running)];
      ExecNone(env, Abs(), 0);
      return true;
    }

    method TerminateProcessInstance(p: nat) returns (ok: bool)
      requires Valid()
      modifies this
      ensures Valid() && Yields(Apply(env, old(Abs()), Op.Terminate(p), 0), ok, Abs())
    {
      hide Exec, Bag, FinishAll, DropAllOf;
      if p !in instances || instances[p].state == Completed || instances[p].state == Terminated { return false; }
      ConsumeAllOf(p);
      FinishActivities(set b | b in activities && activities[b].at.inst == p && activities[b].state == Active);
      instances := instances[p := instances[p].(state := Terminated, ended := true)];
      ExecNone(env, Abs(), 0);
      return true;
    }
  }
}
