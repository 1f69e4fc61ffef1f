// The in-process locker: one mutex for each key, taken by helper goroutines, and a record of the keys that
// are held. Each call is split into its atomic steps, which may interleave in any order.

module MemLock {

  // ---- Calls in progress ----

  // The goroutine that Lock starts: waiting for the mutex, holding it, and having said so.
  datatype Helper = Blocked | Locked | Sent

  datatype Phase =
    | Waiting(helper: Helper)                    // Lock waits for its helper or for cancellation
    | Received                                   // Lock has heard from its helper
    | Cancelled(helper: Helper, cleaned: bool)   // Lock has given up; its cleanup looks once for a message
    | Trying                                     // TryLock is about to try the mutex
    | Tried                                      // TryLock has the mutex
    | Holding                                    // Lock or TryLock has succeeded
    | Unlocking                                  // Unlock has struck the key off, the mutex is still locked
    | Refused                                    // TryLock's second look failed
    | Over

  datatype Call = Call(key: string, phase: Phase)

  // `owner` says which call locked the mutex of a key that is locked.
  datatype State = State(locks: set<string>, owner: map<string, nat>, holders: set<string>, calls: map<nat, Call>)

  datatype Event =
    | StartLock(key: string) | StartTryLock(key: string)
    | HelperLocks | HelperSends | Receive | Register | Cancel | Cleanup
    | TryMutex | LookAgain | Unregister | Release

  function Enter(s: State, c: nat, phase: Phase): State
    requires c in s.calls
  {
    s.(calls := s.calls[c := s.calls[c].(phase := phase)])
  }

  function Lock(s: State, c: nat): State
    requires c in s.calls
  {
    s.(owner := s.owner[s.calls[c].key := c])
  }

  function Free(s: State, c: nat): State
    requires c in s.calls
  {
    s.(owner := s.owner - {s.calls[c].key})
  }

  // One atomic step of call c. A step that is not possible changes nothing.
  function Next(s: State, c: nat, e: Event): State {
    if e.StartLock? || e.StartTryLock? then
      if c in s.calls then s
      else s.(locks := s.locks + {e.key},
          calls := s.calls[c := Call(e.key, if e.StartLock? then Waiting(Blocked) else Trying)])
    else if c !in s.calls then s
    else
      var key := s.calls[c].key;
      match (e, s.calls[c].phase)
      case (HelperLocks, Waiting(Blocked)) => if key in s.owner then s else Enter(Lock(s, c), c, Waiting(Locked))
      case (HelperLocks, Cancelled(Blocked, cleaned)) => if key in s.owner then s
          else Enter(Lock(s, c), c, Cancelled(Locked, cleaned))
      case (HelperSends, Waiting(Locked)) => Enter(s, c, Waiting(Sent))
      case (HelperSends, Cancelled(Locked, cleaned)) => Enter(s, c, Cancelled(Sent, cleaned))
      case (Receive, Waiting(Sent)) => Enter(s, c, Received)
      case (Register, Received) => Enter(s.(holders := s.holders + {key}), c, Holding)
      case (Cancel, Waiting(helper)) => Enter(s, c, Cancelled(helper, false))
      case (Cleanup, Cancelled(helper, false)) => if helper == Sent then Enter(Free(s, c), c, Over)
          else Enter(s, c, Cancelled(helper, true))
      case (TryMutex, Trying) => if key in s.owner then Enter(s, c, Over) else Enter(Lock(s, c), c, Tried)
      case (LookAgain, Tried) =>
        if key in s.holders then Enter(Free(s, c), c, Refused) else Enter(s.(holders := s.holders + {key}), c, Holding)
      case (Unregister, Holding) => if key in s.holders then Enter(s.(holders := s.holders - {key}), c, Unlocking)
          else s
      case (Release, Unlocking) => Enter(Free(s, c), c, Over)
      case _ => s
  }

  // ---- The locker itself ----

  // The locker's two tables, and its critical sections: each one is one of the atomic steps above.
  class MemoryLocker {
    var locks: set<string>      // keys that have a mutex
    var holders: set<string>    // keys that are held

    // The tables are those of state s.
    ghost predicate Mirrors(s: State)
      reads this
    {
      locks == s.locks && holders == s.holders
    }

    constructor ()
      ensures Mirrors(State({}, map[], {}, map[]))
    {
      locks, holders := {}, {};
    }

    // How Lock and TryLock begin.
    method GetOrCreate(key: string, ghost s: State, ghost c: nat, ghost e: Event)
      requires Mirrors(s) && c !in s.calls && (e == StartLock(key) || e == StartTryLock(key))
      modifies this`locks
      ensures Mirrors(Next(s, c, e))
    {
      if key !in locks {
        locks := locks + {key};
      }
    }

    // What Lock does once its helper has the mutex.
    method Register(key: string, ghost s: State, ghost c: nat)
      requires Mirrors(s) && c in s.calls && s.calls[c] == Call(key, Received)
      modifies this`holders
      ensures Mirrors(Next(s, c, Event.Register)) && Next(s, c, Event.Register).calls[c].phase == Holding
    {
      holders := holders + {key};
    }

    // TryLock's second look, with the mutex already taken.
    method RegisterIfFree(key: string, ghost s: State, ghost c: nat) returns (ok: bool)
      requires Mirrors(s) && c in s.calls && s.calls[c] == Call(key, Tried)
      modifies this`holders
      ensures Mirrors(Next(s, c, LookAgain))
      ensures Next(s, c, LookAgain).calls[c].phase == if ok then Holding else Refused
    {
      if key in holders { return false; }
      holders := holders + {key};
      return true;
    }

    // How Unlock begins; it fails when the key is not on record.
    method Unregister(key: string, ghost s: State, ghost c: nat) returns (ok: bool)
      requires Mirrors(s) && c in s.calls && s.calls[c] == Call(key, Holding)
      modifies this`holders
      ensures Mirrors(Next(s, c, Event.Unregister))
      ensures Next(s, c, Event.Unregister).calls[c].phase == if ok then Unlocking else Holding
    {
      if key !in holders { return false; }
      holders := holders - {key};
      return true;
    }
  }

  // The call has its key's mutex locked.
  predicate Owns(phase: Phase) {
    match phase
    case Waiting(helper) => helper != Blocked
    case Cancelled(helper, _) => helper != Blocked
    case Received => true
    case Tried => true
    case Holding => true
    case Unlocking => true
    case _ => false
  }

  ghost predicate Valid(s: State) {
    && (forall c :: c in s.calls ==> s.calls[c].key in s.locks && s.calls[c].phase != Refused)
    && (forall c :: c in s.calls && Owns(s.calls[c].phase) ==>
          s.calls[c].key in s.owner
          && s.owner[s.calls[c].key] == c)
    && (forall key :: key in s.owner ==>
          s.owner[key] in s.calls && s.calls[s.owner[key]].key == key
          && Owns(s.calls[s.owner[key]].phase))
    && (forall key :: key in s.holders ==> key in s.owner && s.calls[s.owner[key]].phase == Holding)
    && (forall c :: c in s.calls && s.calls[c].phase == Holding ==> s.calls[c].key in s.holders)
  }

  lemma EnterValid(s: State, c: nat, phase: Phase)
    requires Valid(s) && c in s.calls && Owns(phase) == Owns(s.calls[c].phase)
    requires phase != Holding && s.calls[c].phase != Holding && phase != Refused
    ensures Valid(Enter(s, c, phase))
  {
  }

  lemma LockValid(s: State, c: nat, phase: Phase)
    requires Valid(s) && c in s.calls && Owns(phase) && !Owns(s.calls[c].phase) && phase != Holding
        && s.calls[c].key !in s.owner
    ensures Valid(Enter(Lock(s, c), c, phase))
  {
  }

  lemma FreeValid(s: State, c: nat)
    requires Valid(s) && c in s.calls && Owns(s.calls[c].phase) && s.calls[c].phase != Holding
    ensures Valid(Enter(Free(s, c), c, Over))
  {
  }

  lemma RegisterValid(s: State, c: nat)
    requires Valid(s) && c in s.calls && Owns(s.calls[c].phase)
    ensures Valid(Enter(s.(holders := s.holders + {s.calls[c].key}), c, Holding))
  {
  }

  lemma UnregisterValid(s: State, c: nat)
    requires Valid(s) && c in s.calls && s.calls[c].phase == Holding
    ensures Valid(Enter(s.(holders := s.holders - {s.calls[c].key}), c, Unlocking))
  {
  }

  lemma StartValid(s: State, c: nat, key: string, phase: Phase)
    requires Valid(s) && c !in s.calls && (phase == Waiting(Blocked) || phase == Trying)
    ensures Valid(s.(locks := s.locks + {key}, calls := s.calls[c := Call(key, phase)]))
  {
  }

  lemma TriedIsFree(s: State, c: nat)
    requires Valid(s) && c in s.calls && s.calls[c].phase == Tried
    ensures s.calls[c].key !in s.holders
  {
  }

  lemma NextValid(s: State, c: nat, e: Event)
    requires Valid(s)
    ensures Valid(Next(s, c, e))
  {
    hide Valid, Enter, Lock, Free;
    if e.StartLock? || e.StartTryLock? {
      if c !in s.calls { StartValid(s, c, e.key, if e.StartLock? then Waiting(Blocked) else Trying); }
    } else if c in s.calls {
      var key := s.calls[c].key;
      match (e, s.calls[c].phase)
      case (HelperLocks, Waiting(Blocked)) => if key !in s.owner { LockValid(s, c, Waiting(Locked)); }
      case (HelperLocks, Cancelled(Blocked, cleaned)) => if key !in s.owner { LockValid(s, c,
          Cancelled(Locked, cleaned)); }
      case (HelperSends, Waiting(Locked)) => EnterValid(s, c, Waiting(Sent));
      case (HelperSends, Cancelled(Locked, cleaned)) => EnterValid(s, c, Cancelled(Sent, cleaned));
      case (Receive, Waiting(Sent)) => EnterValid(s, c, Received);
      case (Register, Received) => RegisterValid(s, c);
      case (Cancel, Waiting(helper)) => EnterValid(s, c, Cancelled(helper, false));
      case (Cleanup, Cancelled(helper, false)) =>
        if helper == Sent { FreeValid(s, c); } else { EnterValid(s, c, Cancelled(helper, true)); }
      case (TryMutex, Trying) => if key in s.owner { EnterValid(s, c, Over); } else { LockValid(s, c, Tried); }
      case (LookAgain, Tried) => TriedIsFree(s, c); RegisterValid(s, c);
      case (Unregister, Holding) => UnregisterValid(s, c);
      case (Release, Unlocking) => FreeValid(s, c);
      case _ =>
    }
  }

  ghost predicate Run(ss: seq<State>, cs: seq<nat>, es: seq<Event>) {
    && |ss| == |es| + 1 == |cs| + 1 && ss[0] == State({}, map[], {}, map[])
    && forall i :: 0 <= i < |es| ==> ss[i + 1] == Next(ss[i], cs[i], es[i])
  }

  lemma {:induction false} RunValid(ss: seq<State>, cs: seq<nat>, es: seq<Event>, j: nat)
    requires Run(ss, cs, es) && j < |ss|
    ensures Valid(ss[j])
  {
    hide Next;
    if j > 0 {
      RunValid(ss, cs, es, j - 1);
      assert ss[j - 1 + 1] == Next(ss[j - 1], cs[j - 1], es[j - 1]);
      NextValid(ss[j - 1], cs[j - 1], es[j - 1]);
    }
  }

  // Under every interleaving, at most one call holds a key, and a key on record has its mutex locked by the
  // call that holds it.
  lemma MutualExclusion(ss: seq<State>, cs: seq<nat>, es: seq<Event>, j: nat, a: nat, b: nat)
    requires Run(ss, cs, es) && j < |ss| && a in ss[j].calls && b in ss[j].calls
    requires ss[j].calls[a].phase == Holding && ss[j].calls[b].phase == Holding
        && ss[j].calls[a].key == ss[j].calls[b].key
    ensures a == b
    ensures ss[j].calls[a].key in ss[j].holders && ss[j].calls[a].key in ss[j].owner
        && ss[j].owner[ss[j].calls[a].key] == a
  {
    hide Next;
    RunValid(ss, cs, es, j);
  }

  lemma HeldIsLocked(ss: seq<State>, cs: seq<nat>, es: seq<Event>, j: nat, key: string)
    requires Run(ss, cs, es) && j < |ss| && key in ss[j].holders
    ensures key in ss[j].owner && ss[j].owner[key] in ss[j].calls
    ensures ss[j].calls[ss[j].owner[key]] == Call(key, Holding)
  {
    hide Next;
    RunValid(ss, cs, es, j);
  }

  // TryLock never fails after it has taken the mutex, and the holder's Unlock never fails.
  lemma NoLateRefusal(ss: seq<State>, cs: seq<nat>, es: seq<Event>, j: nat, c: nat)
    requires Run(ss, cs, es) && j < |ss| && c in ss[j].calls
    ensures ss[j].calls[c].phase != Refused
    ensures ss[j].calls[c].phase == Tried ==> ss[j].calls[c].key !in ss[j].holders
    ensures ss[j].calls[c].phase == Holding ==> ss[j].calls[c].key in ss[j].holders
  {
    hide Next;
    RunValid(ss, cs, es, j);
  }

  // Unlocking gives the key up altogether.
  lemma UnlockFrees(s: State, c: nat)
    requires Valid(s) && c in s.calls && s.calls[c].phase == Holding
    ensures var s1 := Next(Next(s, c, Unregister), c, Release);
            && s.calls[c].key !in s1.owner && s.calls[c].key !in s1.holders && s1.calls[c].phase == Over
            && s1.owner == s.owner - {s.calls[c].key} && s1.holders == s.holders - {s.calls[c].key}
  {
  }

  // A key that nobody has is had by the next call that asks for it, in either way.
  lemma FreeIsTaken(s: State, c: nat, key: string)
    requires Valid(s) && c !in s.calls && key !in s.owner
    ensures var s1 := Next(Next(Next(s, c, StartTryLock(key)), c, TryMutex), c, LookAgain);
            c in s1.calls && s1.calls[c] == Call(key, Holding) && key in s1.holders
  {
    var s1 := Next(s, c, StartTryLock(key));
    assert s1.calls[c] == Call(key, Trying) && s1.owner == s.owner && s1.holders == s.holders;
    var s2 := Next(s1, c, TryMutex);
    assert s2.calls[c] == Call(key, Tried) && s2.holders == s.holders;
  }

  lemma FreeIsWaitedFor(s: State, c: nat, key: string)
    requires Valid(s) && c !in s.calls && key !in s.owner
    ensures var s1 := Next(Next(Next(s, c, StartLock(key)), c, HelperLocks), c, HelperSends);
            var s2 := Next(Next(s1, c, Receive), c, Register);
            c in s2.calls && s2.calls[c] == Call(key, Holding) && key in s2.holders
  {
    var s1 := Next(s, c, StartLock(key));
    assert s1.calls[c] == Call(key, Waiting(Blocked)) && s1.owner == s.owner;
    var s2 := Next(s1, c, HelperLocks);
    assert s2.calls[c] == Call(key, Waiting(Locked));
    hide Valid;
    var s3 := Next(s2, c, HelperSends);
    assert s3.calls[c] == Call(key, Waiting(Sent));
    var s4 := Next(s3, c, Receive);
    assert s4.calls[c] == Call(key, Received);
  }

  // A wait that is cancelled before its helper gets the mutex, and whose cleanup has already looked, leaks
  // the mutex: once the helper has it, nobody ever unlocks it.
  ghost predicate Leaked(s: State, c: nat) {
    c in s.calls && s.calls[c].phase.Cancelled? && s.calls[c].phase.cleaned && s.calls[c].phase.helper != Blocked
  }

  lemma {:induction false} LeakIsForever(ss: seq<State>, cs: seq<nat>, es: seq<Event>, i: nat, j: nat, c: nat)
    requires Run(ss, cs, es) && i <= j < |ss| && Leaked(ss[i], c)
    ensures Leaked(ss[j], c) && ss[j].calls[c].key == ss[i].calls[c].key && ss[j].calls[c].key !in ss[j].holders
    ensures ss[j].calls[c].key in ss[j].owner && ss[j].owner[ss[j].calls[c].key] == c
  {
    hide Next;
    RunValid(ss, cs, es, j);
    if i < j {
      LeakIsForever(ss, cs, es, i, j - 1, c);
      assert ss[j - 1 + 1] == Next(ss[j - 1], cs[j - 1], es[j - 1]);
      NextLeaked(ss[j - 1], cs[j - 1], es[j - 1], c);
    }
  }

  lemma NextLeaked(s: State, c1: nat, e: Event, c: nat)
    requires Leaked(s, c)
    ensures Leaked(Next(s, c1, e), c) && Next(s, c1, e).calls[c].key == s.calls[c].key
  {
  }

  // Such a leak is reachable.
  lemma LeakHappens(key: string) returns (ss: seq<State>, cs: seq<nat>, es: seq<Event>)
    ensures Run(ss, cs, es) && Leaked(ss[|ss| - 1], 0) && ss[|ss| - 1].calls[0].key == key
  {
    var s0 := State({}, map[], {}, map[]);
    var s1 := Next(s0, 0, StartLock(key));
    var s2 := Next(s1, 0, Cancel);
    var s3 := Next(s2, 0, Cleanup);
    var s4 := Next(s3, 0, HelperLocks);
    ss, cs, es := [s0, s1, s2, s3, s4], [0, 0, 0, 0], [StartLock(key), Cancel, Cleanup, HelperLocks];
  }
}
