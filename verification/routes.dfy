// Which way a step sends the token: what follows an element is always a selection of its outgoing flows.

module Routes {
  import opened Spec
  import opened Model
  import opened Machine

  // `fs` is `out` with some flows left out.
  ghost predicate Selection(fs: seq<Flow>, out: seq<Flow>)
    decreases |out|
  {
    || fs == []
    || (out != [] && ((fs[0] == out[0] && Selection(fs[1..], out[1..])) || Selection(fs, out[1..])))
  }

  lemma {:induction false} SelectAll(out: seq<Flow>)
    ensures Selection(out, out)
  {
    if out != [] { SelectAll(out[1..]); }
  }

  lemma {:induction false} SelectOne(f: Flow, out: seq<Flow>)
    requires f in out
    ensures Selection([f], out)
  {
    if out[0] == f {
      assert [f][1..] == [];
    } else {
      SelectOne(f, out[1..]);
    }
  }

  lemma {:induction false} SelectTrue(env: Env, out: seq<Flow>, vars: Vars)
    requires TrueFlows(env, out, vars).Some?
    ensures Selection(TrueFlows(env, out, vars).value, out)
  {
    if out != [] {
      SelectTrue(env, out[1..], vars);
      var fs := TrueFlows(env, out[1..], vars).value;
      assert ([out[0]] + fs)[1..] == fs;
    }
  }

  lemma {:induction false} SelectionIn(fs: seq<Flow>, out: seq<Flow>)
    requires Selection(fs, out)
    ensures |fs| <= |out| && forall f :: f in fs ==> f in out
    decreases |out|
  {
    if fs == [] {
    } else if fs[0] == out[0] && Selection(fs[1..], out[1..]) {
      SelectionIn(fs[1..], out[1..]);
      assert fs == [fs[0]] + fs[1..];
    } else {
      SelectionIn(fs, out[1..]);
    }
  }

  // Jobs that leave an element with outgoing flows `out`: none, a check, or some of the flows.
  ghost predicate Onward(p: nat, out: seq<Flow>, s: Step) {
    s.Go? ==>
      || s.jobs == [] || s.jobs == [Check(p)]
      || exists fs :: s.jobs == Takes(p, fs) && Selection(fs, out)
  }

  lemma LeaveOnward(env: Env, w: World, at: Place, out: seq<Flow>)
    ensures Onward(at.inst, out, Leave(w, at, out)) && Onward(at.inst, out, Proceed(w, at, out))
  {
    hide Takes, Selection;
    SelectAll(out);
  }

  lemma {:induction false} ChosenListed(env: Env, flows: seq<Flow>, default: string, vars: Vars)
    ensures FirstTrue(env, flows, vars).Chosen? ==> FirstTrue(env, flows, vars).flow in flows
    ensures DefaultOf(flows, default).Chosen? ==> DefaultOf(flows, default).flow in flows
  {
    if flows != [] { ChosenListed(env, flows[1..], default, vars); }
  }

  lemma ExclusiveOnward(env: Env, w: World, at: Place, default: string, out: seq<Flow>)
    ensures Onward(at.inst, out, ExclusiveStep(env, w, at, default, out))
  {
    hide FirstTrue, DefaultOf, Selection;
    var choice := ExclusiveChoice(env, out, default, VarsOf(w, at.inst));
    if choice.Chosen? {
      ChosenListed(env, out, default, VarsOf(w, at.inst));
      SelectOne(choice.flow, out);
      assert Takes(at.inst, [choice.flow]) == [Take(at.inst, choice.flow)];
    }
  }

  lemma InclusiveOnward(env: Env, w: World, at: Place, default: string, out: seq<Flow>)
    ensures Onward(at.inst, out, InclusiveStep(env, w, at, default, out))
  {
    hide TrueFlows, DefaultOf, Takes, Selection;
    var vars := VarsOf(w, at.inst);
    var fs := InclusiveFlows(env, out, default, vars);
    if fs.Some? {
      ChosenListed(env, out, default, vars);
      if TrueFlows(env, out, vars).value != [] {
        SelectTrue(env, out, vars);
      } else {
        SelectOne(DefaultOf(out, default).flow, out);
      }
      assert Selection(fs.value, out);
    }
  }

  lemma ParallelOnward(env: Env, w: World, at: Place, fanIn: nat, out: seq<Flow>)
    ensures Onward(at.inst, out, ParallelStep(w, at, fanIn, out))
  {
    hide Onward, Proceed, SetVar, DelVars;
    if fanIn > 1 {
      var arrived := NumAt(VarsOf(w, at.inst), GwArrived(at.elem)) + 1;
      var w1 := Logged(SetVar(w, at.inst, GwArrived(at.elem), Num(arrived)), Arrive(at));
      NothingOnward(env, w1, at.inst, out);
      LeaveOnward(env, DelVars(DropAll(w1, at), at.inst, {GwArrived(at.elem)}), at, out);
    } else {
      LeaveOnward(env, DropAll(w, at), at, out);
    }
  }

  lemma NothingOnward(env: Env, w: World, p: nat, out: seq<Flow>)
    ensures Onward(p, out, Go(w, []))
  {
    hide Selection;
  }

  lemma StuckOnward(env: Env, w: World, p: nat, out: seq<Flow>)
    ensures Onward(p, out, Stuck(w)) && Onward(p, out, Go(w, [Check(p)]))
  {
    hide Selection;
  }

  lemma LoopOnward(env: Env, w: World, at: Place, el: Element, out: seq<Flow>)
    requires el.UserTask? && el.loop.Some?
    ensures Onward(at.inst, out, LoopStep(env, w, at, el, out))
  {
    hide Onward, Leave, AdvanceLoop, LoopsAt;
    var w1 := DropOne(w, at);
    if LoopsAt(w1, at) == {} {
      LeaveOnward(env, w1, at, out);
    } else {
      AdvanceOnward(env, w1, at, el, Pick(env, LoopsAt(w1, at), w1.clock), out);
    }
  }

  lemma AdvanceOnward(env: Env, w: World, at: Place, el: Element, id: nat, out: seq<Flow>)
    requires el.UserTask? && el.loop.Some?
    ensures Onward(at.inst, out, AdvanceLoop(env, w, at, el, id, out))
  {
    hide Onward, Leave, CountCompletion, SequentialInstance, ConditionMet, LoopItems, SetVar;
    var w1 := CountCompletion(w, at.inst, id);
    LeaveOnward(env, DropAll(SetVar(w1, at.inst, LoopVar(id, Live), Num(0)), at), at, out);
    LeaveOnward(env, DropAll(w1, at), at, out);
    var s := AdvanceLoop(env, w, at, el, id, out);
    if s.Go? && s.jobs == [] { NothingOnward(env, s.w, at.inst, out); }
  }

  lemma EnterLoopOnward(env: Env, w: World, at: Place, el: Element, out: seq<Flow>)
    requires el.UserTask? && el.loop.Some?
    ensures Onward(at.inst, out, EnterLoop(env, w, at, el, out))
  {
    hide Onward, Leave, LoopCount, OpenLoop, LoopInstances, SequentialInstance, LoopItems;
    LeaveOnward(env, w, at, out);
    var s := EnterLoop(env, w, at, el, out);
    StuckOnward(env, s.w, at.inst, out);
    NothingOnward(env, s.w, at.inst, out);
  }

  lemma NavOnward(env: Env, w: World, at: Place, el: Element, def: Definition, out: seq<Flow>)
    ensures Onward(at.inst, out, NavFrom(env, w, at, def, el, out))
  {
    hide Onward, Leave, LoopStep, ExclusiveStep, InclusiveStep, ParallelStep, FanIn;
    match el.Kind()
    case EndKind => StuckOnward(env, DropAll(w, at), at.inst, out);
    case UserKind => if el.loop.Some? { LoopOnward(env, w, at, el, out); } else { LeaveOnward(env, w, at, out); }
    case ExclusiveKind => ExclusiveOnward(env, w, at, el.defaultFlow, out);
    case ParallelKind => ParallelOnward(env, w, at, FanIn(def, at.elem), out);
    case InclusiveKind => InclusiveOnward(env, w, at, el.defaultFlow, out);
    case _ => LeaveOnward(env, w, at, out);
  }

  // Entering an element that is not a call activity: the token waits there, is about to leave, or has gone on.
  lemma EnterOnward(env: Env, w: World, at: Place, el: Element, out: seq<Flow>)
    requires !el.CallActivity?
    ensures var s := TakeTo(env, w, at, el, out);
            s.Go? && s.jobs != [] && s.jobs != [Nav(at.inst, at.elem)] ==>
                  Onward(at.inst, out, s)
                  && !el.ExclusiveGateway?
    ensures var s := TakeTo(env, w, at, el, out);
            el.UserTask? && el.loop.None? ==> s.Go? && s.jobs == []
  {
    hide Onward, EnterLoop, EnterTask, Takes;
    match el.Kind()
    case UserKind => if el.loop.Some? { EnterLoopOnward(env, w, at, el, out); }
    case ThrowKind => LeaveOnward(env, AddDone(w, at, ThrowKind), at, out);
    case _ =>
  }
}
