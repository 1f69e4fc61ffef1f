// The two graph searches behind rejection: backwards to the previous task, and forwards from the start
// event to the first one. Both are depth-first, and the branches of a search share one visited set.

module Search {
  import opened Spec

  ghost predicate Link(def: Definition, x: string, y: string) {
    exists f :: f in def.flows && f.source == x && f.target == y
  }

  // Where the backward search stops: a user task or the start event.
  predicate Stop(def: Definition, x: string) {
    x in def.elements && (def.elements[x].UserTask? || def.elements[x].StartEvent?)
  }

  // A way along the flows from a stop to `path`'s last element, through other kinds of element only.
  ghost predicate BackRoute(def: Definition, path: seq<string>) {
    && |path| >= 2 && Stop(def, path[0])
    && (forall i :: 0 <= i < |path| - 1 ==> Link(def, path[i], path[i + 1]))
    && (forall i :: 0 < i < |path| - 1 ==> path[i] in def.elements && !Stop(def, path[i]))
  }

  ghost predicate IsPrevious(def: Definition, x: string, current: string) {
    exists path :: BackRoute(def, path) && path[0] == x && path[|path| - 1] == current
  }

  // A way along the flows from `path`'s first element to a user task, none of the others being one.
  ghost predicate ForwardRoute(def: Definition, path: seq<string>) {
    && |path| >= 1 && IsTask(def, path[|path| - 1])
    && (forall i :: 0 <= i < |path| - 1 ==> Link(def, path[i], path[i + 1]))
    && (forall i :: 0 <= i < |path| - 1 ==> path[i] in def.elements && !IsTask(def, path[i]))
  }

  predicate IsTask(def: Definition, x: string) {
    x in def.elements && def.elements[x].UserTask?
  }

  ghost predicate IsNext(def: Definition, x: string, from: string) {
    exists path :: ForwardRoute(def, path) && path[0] == from && path[|path| - 1] == x
  }

  // v was searched in vain: everything before it was visited, and nothing before it is a stop.
  ghost predicate DeadBack(def: Definition, visited: set<string>, v: string) {
    forall x :: Link(def, x, v) && x in def.elements ==> x in visited && !Stop(def, x)
  }

  ghost predicate DeadForward(def: Definition, visited: set<string>, v: string) {
    && !IsTask(def, v)
    && (v in def.elements ==> forall y :: Link(def, v, y) ==> y in visited)
  }

  lemma BackRouteExtend(def: Definition, x: string, y: string, z: string)
    requires IsPrevious(def, x, y) && y in def.elements && !Stop(def, y) && Link(def, y, z)
    ensures IsPrevious(def, x, z)
  {
    var path :| BackRoute(def, path) && path[0] == x && path[|path| - 1] == y;
    assert BackRoute(def, path + [z]) && (path + [z])[0] == x && (path + [z])[|path + [z]| - 1] == z;
  }

  lemma StopBefore(def: Definition, x: string, y: string)
    requires Stop(def, x) && Link(def, x, y)
    ensures IsPrevious(def, x, y)
  {
    assert BackRoute(def, [x, y]) && [x, y][0] == x && [x, y][1] == y;
  }

  lemma ForwardRouteExtend(def: Definition, x: string, y: string, z: string)
    requires IsNext(def, x, y) && z in def.elements && !IsTask(def, z) && Link(def, z, y)
    ensures IsNext(def, x, z)
  {
    var path :| ForwardRoute(def, path) && path[0] == y && path[|path| - 1] == x;
    assert ForwardRoute(def, [z] + path) && ([z] + path)[0] == z && ([z] + path)[|[z] + path| - 1] == x;
  }

  ghost predicate AllDeadBack(def: Definition, visited: set<string>, which: set<string>) {
    forall v :: v in which ==> DeadBack(def, visited, v)
  }

  ghost predicate AllDeadForward(def: Definition, visited: set<string>, which: set<string>) {
    forall v :: v in which ==> DeadForward(def, visited, v)
  }

  lemma DeadGrows(def: Definition, visited: set<string>, more: set<string>, a: set<string>, b: set<string>,
      c: set<string>)
    requires visited <= more && c <= a + b
    ensures AllDeadBack(def, visited, a) && AllDeadBack(def, more, b) ==> AllDeadBack(def, more, c)
    ensures AllDeadForward(def, visited, a) && AllDeadForward(def, more, b) ==> AllDeadForward(def, more, c)
  {
  }

  // If the whole visited set is dead, no stop leads to any of its elements.
  lemma {:induction false} NoBackRoute(def: Definition, visited: set<string>, path: seq<string>)
    requires AllDeadBack(def, visited, visited) && BackRoute(def, path)
    ensures path[|path| - 1] !in visited
  {
    assert Link(def, path[|path| - 2], path[|path| - 1]);
    if |path| > 2 {
      var shorter := path[..|path| - 1];
      assert BackRoute(def, shorter) by {
        forall i | 0 <= i < |shorter| - 1 ensures Link(def, shorter[i], shorter[i + 1]) {
          assert shorter[i] == path[i] && shorter[i + 1] == path[i + 1];
        }
      }
      NoBackRoute(def, visited, shorter);
    }
  }

  lemma {:induction false} NoForwardRoute(def: Definition, visited: set<string>, path: seq<string>)
    requires AllDeadForward(def, visited, visited) && ForwardRoute(def, path)
    ensures path[0] !in visited
  {
    if |path| > 1 {
      assert Link(def, path[0], path[1]);
      assert ForwardRoute(def, path[1..]) by {
        forall i | 0 <= i < |path[1..]| - 1 ensures Link(def, path[1..][i], path[1..][i + 1]) {
          assert path[1..][i] == path[i + 1] && path[1..][i + 1] == path[i + 2];
        }
      }
      NoForwardRoute(def, visited, path[1..]);
    }
  }

  class Searcher {
    const def: Definition
    var visited: set<string>
    ghost const universe: set<string>

    constructor (def: Definition, current: string)
      ensures this.def == def && visited == {} && current in universe
      ensures def.elements.Keys <= universe
      ensures forall f :: f in def.flows ==> f.target in universe
    {
      this.def := def;
      visited := {};
      universe := def.elements.Keys + {current} + (set f | f in def.flows :: f.target);
    }

    ghost predicate Valid()
      reads this
    {
      && visited <= universe && def.elements.Keys <= universe
      && forall f :: f in def.flows ==> f.target in universe
    }

    method FindPreviousUserTask(current: string) returns (found: string)
      requires Valid() && current in universe
      modifies this`visited
      ensures Valid() && old(visited) + {current} <= visited
      ensures found != "" ==> IsPrevious(def, found, current)
      ensures found == "" && !Stop(def, "") ==> AllDeadBack(def, visited, visited - old(visited))
      decreases universe - visited
    {
      if current in visited { return ""; }
      visited := visited + {current};
      var incoming := FindIncomingFlows(def.flows, current);
      for i := 0 to |incoming|
        invariant Valid() && old(visited) + {current} <= visited
        invariant !Stop(def, "") ==> AllDeadBack(def, visited, visited - old(visited) - {current})
        invariant !Stop(def, "") ==>
          forall j :: 0 <= j < i && incoming[j].source in def.elements ==>
            incoming[j].source in visited && !Stop(def, incoming[j].source)
      {
        var source := incoming[i].source;
        if source in def.elements {
          assert Link(def, source, current);
          if def.elements[source].UserTask? || def.elements[source].StartEvent? {
            assert BackRoute(def, [source, current]);
            return source;
          }
          ghost var before := visited;
          found := FindPreviousUserTask(source);
          DeadGrows(def, before, visited, before - old(visited) - {current}, visited - before,
              visited - old(visited) - {current});
          if found != "" {
            BackRouteExtend(def, found, source, current);
            return;
          }
        }
      }
      if !Stop(def, "") {
        forall x | Link(def, x, current) && x in def.elements ensures x in visited && !Stop(def, x) {
          var f :| f in def.flows && f.source == x && f.target == current;
          FlowsIntoHas(def.flows, f);
        }
      }
      return "";
    }

    method FindFirstUserTaskForward(current: string) returns (found: string)
      requires Valid() && current in universe
      modifies this`visited
      ensures Valid() && old(visited) + {current} <= visited
      ensures found != "" ==> IsNext(def, found, current)
      ensures found == "" && !IsTask(def, "") ==> AllDeadForward(def, visited, visited - old(visited))
      decreases universe - visited
    {
      if current in visited { return ""; }
      visited := visited + {current};
      if current !in def.elements { return ""; }
      if def.elements[current].UserTask? {
        assert ForwardRoute(def, [current]);
        return current;
      }
      var outgoing := FindOutgoingFlows(def.flows, current);
      for i := 0 to |outgoing|
        invariant Valid() && old(visited) + {current} <= visited
        invariant !IsTask(def, "") ==> AllDeadForward(def, visited, visited - old(visited) - {current})
        invariant forall j :: 0 <= j < i ==> outgoing[j].target in visited
      {
        assert Link(def, current, outgoing[i].target);
        ghost var before := visited;
        found := FindFirstUserTaskForward(outgoing[i].target);
        DeadGrows(def, before, visited, before - old(visited) - {current}, visited - before,
            visited - old(visited) - {current});
        if found != "" {
          ForwardRouteExtend(def, found, outgoing[i].target, current);
          return;
        }
      }
      forall y | Link(def, current, y) ensures y in visited {
        var f :| f in def.flows && f.source == current && f.target == y;
        FlowsFromHas(def.flows, f);
      }
      return "";
    }
  }

  // The whole backward search, on any graph, with or without cycles: a nonempty answer is a previous
  // task or start event, and an empty one means that there is none. (The empty string doubles as "not
  // found", so the second half needs that it is not the ID of a user task or the start event.)
  method PreviousUserTask(def: Definition, current: string) returns (found: string)
    ensures found != "" ==> IsPrevious(def, found, current)
    ensures found == "" && !Stop(def, "") ==> forall x :: !IsPrevious(def, x, current)
    ensures found != "" ==> found in def.elements && (def.elements[found].UserTask? || def.elements[found].StartEvent?)
    ensures found == "" && !Stop(def, "") ==>
              forall f :: f in def.flows && f.target == current && f.source in def.elements ==>
                !def.elements[f.source].UserTask? && !def.elements[f.source].StartEvent?
  {
    var s := new Searcher(def, current);
    found := s.FindPreviousUserTask(current);
    if found == "" && !Stop(def, "") {
      forall x ensures !IsPrevious(def, x, current) {
        if IsPrevious(def, x, current) {
          var path :| BackRoute(def, path) && path[0] == x && path[|path| - 1] == current;
          NoBackRoute(def, s.visited, path);
        }
      }
      forall f | f in def.flows && f.target == current && f.source in def.elements
        ensures !def.elements[f.source].UserTask? && !def.elements[f.source].StartEvent? {
        assert Link(def, f.source, current);
        if Stop(def, f.source) { StopBefore(def, f.source, current); }
      }
    }
  }

  // Where the empty string is the only stop, the search finds it and cannot say so.
  method EmptyIdIsLost(def: Definition, current: string) returns (found: string)
    requires Stop(def, "") && Link(def, "", current) && forall x :: Stop(def, x) ==> x == ""
    ensures found == "" && IsPrevious(def, "", current)
  {
    found := PreviousUserTask(def, current);
    assert BackRoute(def, ["", current]) && ["", current][0] == "" && ["", current][1] == current;
    forall x | IsPrevious(def, x, current) ensures x == "" {
      var path :| BackRoute(def, path) && path[0] == x && path[|path| - 1] == current;
    }
  }

  // The initiator's task: the first user task on the way from the start event's first flow.
  method InitiatorTask(def: Definition) returns (found: string)
    ensures found != "" ==> Begins(def) && IsNext(def, found, FlowsFrom(def.flows, def.start)[0].target)
    ensures found == "" && !IsTask(def, "") && Begins(def) ==>
              forall x :: !IsNext(def, x, FlowsFrom(def.flows, def.start)[0].target)
    ensures found != "" ==> found in def.elements && def.elements[found].UserTask?
  {
    if def.start !in def.elements { return ""; }
    var outgoing := FindOutgoingFlows(def.flows, def.start);
    if |outgoing| == 0 { return ""; }
    var first := outgoing[0].target;
    var s := new Searcher(def, first);
    found := s.FindFirstUserTaskForward(first);
    if found == "" && !IsTask(def, "") {
      forall x ensures !IsNext(def, x, first) {
        if IsNext(def, x, first) {
          var path :| ForwardRoute(def, path) && path[0] == first && path[|path| - 1] == x;
          NoForwardRoute(def, s.visited, path);
        }
      }
    }
  }

  predicate Begins(def: Definition) {
    def.start in def.elements && FlowsFrom(def.flows, def.start) != []
  }
}
