// The runtime state of the engine: process instances, active tokens, activity instances and
// process variables, gathered into one value.

module Model {
  import opened Spec

  datatype InstState = Running | Suspended | Completed | Terminated | Rejected

  datatype ActState = Active | Unclaimed | Done

  // An element of one instance: where a token stands, or who called a child instance.
  datatype Place = Place(inst: nat, elem: string)

  datatype LoopField = Total | Live | Finished | SeqIndex | SeqCount

  datatype SignField = SignType | Strategy | SignTotal | SignDone | Approved | Parent

  // Variable names. The engine's own names are constructors, so a caller's name is never one of them.
  datatype VarName =
    | User(name: string)
    | GwArrived(gateway: string)
    | LoopVar(loop: nat, loopField: LoopField)
    | SignVar(sign: nat, signField: SignField)
    | Candidates(act: nat)
    | DelegateTo(act: nat) | DelegateOrig(act: nat) | DelegateReturn(act: nat)
    | RejectionCount | MaxRejection | RejectionReason | RejectedToInitiator
    | JumpFrom(act: nat) | Reclaimed(act: nat) | Transferred(act: nat)

  datatype Value = Num(n: int) | Flag(b: bool) | Text(s: string) | Ref(id: nat) | List(items: seq<Value>)

  type Vars = map<VarName, Value>

  datatype Inst = Inst(def: string, state: InstState, ended: bool, parent: Option<Place>, snapshot: Vars)

  datatype Act = Act(at: Place, kind: Kind, state: ActState, assignee: string, stamp: nat,
                     loop: Option<nat>, counter: nat, adhoc: Option<nat>)

  // What happened, in order. Nothing in the engine reads this history.
  datatype Event =
    | Arrive(at: Place)                          // a token reached a joining gateway
    | Follow(at: Place)                          // the outgoing flows of an element were followed
    | Return(at: Place, child: nat, live: bool)  // a child completed and took its caller's token
    | Overlap(at: Place)                         // a call element was entered while it still waited

  // `toks` holds the active tokens only: a consumed token is simply gone.
  datatype World = World(insts: map<nat, Inst>, toks: multiset<Place>, acts: map<nat, Act>,
                         vars: map<nat, Vars>, next: nat, clock: nat, log: seq<Event>)

  // The parts of the system that are not modelled, as arbitrary functions: the expression language,
  // template rendering, the identity service, and the order in which a map is iterated.
  datatype Env = Env(defs: map<string, Definition>, latest: map<string, string>,
                     cond: (string, Vars) -> Option<bool>, num: (string, Vars) -> Option<int>,
                     render: (string, Vars) -> string, candidates: (seq<string>, string) -> seq<string>,
                     pick: (set<nat>, nat) -> nat)

  // A change that leaves the instances alone and creates only fresh activities.
  ghost predicate Extends(w: World, w1: World) {
    && w1.insts == w.insts && w.next <= w1.next
    && forall a :: a in w1.acts ==> a in w.acts || w.next <= a < w1.next
  }

  // ---- Variables ----

  function VarsOf(w: World, p: nat): Vars {
    if p in w.vars then w.vars[p] else map[]
  }

  function NumAt(vars: Vars, k: VarName): int {
    if k in vars && vars[k].Num? then vars[k].n else 0
  }

  function SetVar(w: World, p: nat, k: VarName, v: Value): World {
    w.(vars := w.vars[p := VarsOf(w, p)[k := v]])
  }

  function DelVars(w: World, p: nat, ks: set<VarName>): (r: World)
    ensures Extends(w, r)
  {
    if p in w.vars then w.(vars := w.vars[p := w.vars[p] - ks]) else w
  }

  // ---- Tokens ----

  function AddTok(w: World, at: Place): World {
    w.(toks := w.toks + multiset{at})
  }

  function DropOne(w: World, at: Place): World {
    w.(toks := w.toks - multiset{at})
  }

  function DropAll(w: World, at: Place): World {
    w.(toks := w.toks[at := 0])
  }

  ghost predicate HasToken(w: World, p: nat) {
    exists at <- w.toks :: at.inst == p
  }

  // ---- Activities ----

  function NewAct(at: Place, kind: Kind, assignee: string): Act {
    Act(at, kind, Active, assignee, 0, None, 0, None)
  }

  function AddAct(w: World, a: Act): World {
    w.(acts := w.acts[w.next := a], next := w.next + 1)
  }

  // An activity that is complete as soon as it exists.
  function AddDone(w: World, at: Place, kind: Kind): World {
    AddAct(w, NewAct(at, kind, "").(state := Done, stamp := w.clock)).(clock := w.clock + 1)
  }

  ghost function FinishAll(w: World, which: set<nat>): (w1: World)
    ensures Extends(w, w1) && w1.acts.Keys == w.acts.Keys
  {
    w.(acts := map a | a in w.acts ::
                 if a in which then w.acts[a].(state := Done, stamp := w.clock) else w.acts[a],
       clock := w.clock + 1)
  }

  ghost function ActiveAt(w: World, at: Place): set<nat> {
    set a | a in w.acts && w.acts[a].at == at && w.acts[a].state == Active
  }

  // The active sign activities that were added to activity `parent`.
  ghost function ActiveSigns(w: World, p: nat, parent: nat): set<nat> {
    set a | a in w.acts && w.acts[a].at.inst == p && w.acts[a].adhoc == Some(parent) && w.acts[a].state == Active
  }

  function Logged(w: World, e: Event): World {
    w.(log := w.log + [e])
  }

  // ---- Iteration order ----

  // Some element of a nonempty set: which one is up to the environment, and may change from one time to the next.
  function Pick(env: Env, s: set<nat>, now: nat): (x: nat)
    requires s != {}
    ensures x in s
  {
    if env.pick(s, now) in s then env.pick(s, now) else Least(s)
  }

  predicate IsLeast(s: set<nat>, x: nat) {
    x in s && forall y :: y in s ==> x <= y
  }

  lemma {:induction false} LeastExists(s: set<nat>) returns (x: nat)
    requires s != {}
    ensures IsLeast(s, x)
  {
    x :| x in s;
    if s != {x} {
      var z := LeastExists(s - {x});
      assert forall y :: y in s ==> y == x || y in s - {x};
      x := if z < x then z else x;
    }
  }

  function Least(s: set<nat>): (x: nat)
    requires s != {}
    ensures x in s
  {
    assert exists x :: IsLeast(s, x) by { var x := LeastExists(s); }
    var x :| IsLeast(s, x);
    x
  }
}
