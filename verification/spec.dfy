// Process definitions: the eleven kinds of flow element, sequence flows, the flow finders,
// structural validation, and the record form in which a definition is stored.

module Spec {

  datatype Option<+T> = None | Some(value: T)

  datatype Loop = Loop(sequential: bool, cardinality: string, collection: string,
                       elementVariable: string, completionCondition: string)

  datatype Timer = Timer(duration: string, date: string, cycle: string)

  // The values of ElementType in the source.
  datatype Kind =
    | StartKind | EndKind | UserKind | ServiceKind
    | ExclusiveKind | ParallelKind | InclusiveKind
    | BoundaryKind | CatchKind | ThrowKind | CallKind

  datatype Element =
    | StartEvent(id: string, name: string)
    | EndEvent(id: string, name: string)
    | UserTask(id: string, name: string, assignee: string, candidateUsers: seq<string>,
               candidateGroup: string, formKey: string, loop: Option<Loop>)
    | ServiceTask(id: string, name: string, serviceType: string)
    | ExclusiveGateway(id: string, name: string, defaultFlow: string)
    | ParallelGateway(id: string, name: string)
    | InclusiveGateway(id: string, name: string, defaultFlow: string)
    | BoundaryEvent(id: string, name: string, attachedTo: string, cancel: bool,
                    timer: Option<Timer>, signal: Option<string>, message: Option<string>)
    | CatchEvent(id: string, name: string,
                 timer: Option<Timer>, signal: Option<string>, message: Option<string>)
    | ThrowEvent(id: string, name: string, signal: Option<string>, message: Option<string>)
    | CallActivity(id: string, name: string, calledElement: string, inheritVariables: bool)
  {
    function Kind(): Kind {
      match this
      case StartEvent(_, _) => StartKind
      case EndEvent(_, _) => EndKind
      case UserTask(_, _, _, _, _, _, _) => UserKind
      case ServiceTask(_, _, _) => ServiceKind
      case ExclusiveGateway(_, _, _) => ExclusiveKind
      case ParallelGateway(_, _) => ParallelKind
      case InclusiveGateway(_, _, _) => InclusiveKind
      case BoundaryEvent(_, _, _, _, _, _, _) => BoundaryKind
      case CatchEvent(_, _, _, _, _) => CatchKind
      case ThrowEvent(_, _, _, _) => ThrowKind
      case CallActivity(_, _, _, _) => CallKind
    }
  }

  datatype Flow = Flow(id: string, source: string, target: string, condition: Option<string>)

  datatype Definition = Definition(id: string, key: string, version: int,
                                   elements: map<string, Element>, flows: seq<Flow>, start: string)

  // ---- The flow finders ----

  function FlowsFrom(flows: seq<Flow>, e: string): (out: seq<Flow>)
    ensures forall i :: 0 <= i < |out| ==> out[i].source == e && out[i] in flows
  {
    if flows == [] then []
    else
      var last := |flows| - 1;
      FlowsFrom(flows[..last], e) + (if flows[last].source == e then [flows[last]] else [])
  }

  function FlowsInto(flows: seq<Flow>, e: string): (into: seq<Flow>)
    ensures forall i :: 0 <= i < |into| ==> into[i].target == e && into[i] in flows
  {
    if flows == [] then []
    else
      var last := |flows| - 1;
      FlowsInto(flows[..last], e) + (if flows[last].target == e then [flows[last]] else [])
  }

  lemma {:induction false} FlowsFromHas(flows: seq<Flow>, f: Flow)
    requires f in flows
    ensures f in FlowsFrom(flows, f.source)
  {
    var last := |flows| - 1;
    if flows[last] != f {
      FlowsFromHas(flows[..last], f);
    }
  }

  lemma {:induction false} FlowsIntoHas(flows: seq<Flow>, f: Flow)
    requires f in flows
    ensures f in FlowsInto(flows, f.target)
  {
    var last := |flows| - 1;
    if flows[last] != f {
      FlowsIntoHas(flows[..last], f);
    }
  }

  // FindOutgoingFlows: the flows leaving an element, in the order of the definition.
  method FindOutgoingFlows(flows: seq<Flow>, e: string) returns (result: seq<Flow>)
    ensures result == FlowsFrom(flows, e)
  {
    result := [];
    for i := 0 to |flows|
      invariant result == FlowsFrom(flows[..i], e)
    {
      assert flows[..i + 1][..i] == flows[..i];
      if flows[i].source == e {
        result := result + [flows[i]];
      }
    }
    assert flows[..|flows|] == flows;
  }

  // FindIncomingFlows: the flows entering an element, in the order of the definition.
  method FindIncomingFlows(flows: seq<Flow>, e: string) returns (result: seq<Flow>)
    ensures result == FlowsInto(flows, e)
  {
    result := [];
    for i := 0 to |flows|
      invariant result == FlowsInto(flows[..i], e)
    {
      assert flows[..i + 1][..i] == flows[..i];
      if flows[i].target == e {
        result := result + [flows[i]];
      }
    }
    assert flows[..|flows|] == flows;
  }

  // ---- Validation ----

  predicate KeyedById(elements: map<string, Element>) {
    forall k <- elements :: elements[k].id == k
  }

  predicate FlowsConnected(def: Definition) {
    forall f <- def.flows :: f.source in def.elements && f.target in def.elements
  }

  // What a definition must satisfy before an instance of it can be started.
  predicate WellFormed(def: Definition) {
    && def.id != "" && def.start != ""
    && def.start in def.elements && def.elements[def.start].StartEvent?
    && KeyedById(def.elements)
    && FlowsConnected(def)
    && (exists f <- def.flows :: f.source == def.start)
    && (exists k <- def.elements :: def.elements[k].EndEvent?)
  }

  // Validate: the checks in the source's order, each of them a loop or a test that can refuse.
  method Validate(def: Definition) returns (ok: bool)
    ensures ok <==> WellFormed(def)
  {
    if def.id == "" || def.start == "" || def.start !in def.elements || !def.elements[def.start].StartEvent? {
      return false;
    }
    var rest := def.elements.Keys;
    while rest != {}
      invariant rest <= def.elements.Keys
      invariant forall k <- def.elements.Keys - rest :: def.elements[k].id == k
    {
      var k :| k in rest;
      if k != def.elements[k].id {
        return false;
      }
      rest := rest - {k};
    }
    for i := 0 to |def.flows|
      invariant forall j :: 0 <= j < i ==> def.flows[j].source in def.elements && def.flows[j].target in def.elements
    {
      if def.flows[i].source !in def.elements || def.flows[i].target !in def.elements {
        return false;
      }
    }
    var outgoing := FindOutgoingFlows(def.flows, def.start);
    if |outgoing| == 0 {
      forall f | f in def.flows ensures f.source != def.start {
        if f.source == def.start { FlowsFromHas(def.flows, f); }
      }
      return false;
    }
    assert outgoing[0] in def.flows;
    var hasEnd := false;
    rest := def.elements.Keys;
    while rest != {} && !hasEnd
      invariant rest <= def.elements.Keys
      invariant hasEnd ==> exists k <- def.elements :: def.elements[k].EndEvent?
      invariant !hasEnd ==> forall k <- def.elements.Keys - rest :: !def.elements[k].EndEvent?
      decreases |rest|
    {
      var k :| k in rest;
      hasEnd := def.elements[k].EndEvent?;
      rest := rest - {k};
    }
    return hasEnd;
  }

}

// The stored form of a definition: one flat record per element, tagged with the kind's name.
module Records {
  import opened Spec

  // The type field holds the name of a kind, or some other text.
  datatype Tag = Known(kind: Kind) | Other(text: string)

  datatype Record = Record(id: string, name: string, typ: Tag, defaultFlow: string,
                           assignee: string, candidateUsers: seq<string>, candidateGroup: string,
                           formKey: string, loop: Option<Loop>, serviceType: string,
                           attachedTo: string, cancel: bool, timer: Option<Timer>,
                           signal: Option<string>, message: Option<string>,
                           calledElement: string, inheritVariables: bool)

  datatype Result<+T> = Ok(value: T) | UnknownType(text: string)

  function Blank(id: string, name: string, typ: Tag): Record {
    Record(id, name, typ, "", "", [], "", "", None, "", "", false, None, None, None, "", false)
  }

  function ToRecord(el: Element): Record {
    var rec := Blank(el.id, el.name, Known(el.Kind()));
    match el
    case ExclusiveGateway(_, _, d) => rec.(defaultFlow := d)
    case InclusiveGateway(_, _, d) => rec.(defaultFlow := d)
    case UserTask(_, _, a, us, g, k, l) =>
      rec.(assignee := a, candidateUsers := us, candidateGroup := g, formKey := k, loop := l)
    case ServiceTask(_, _, t) => rec.(serviceType := t)
    case BoundaryEvent(_, _, a, c, t, s, m) =>
      rec.(attachedTo := a, cancel := c, timer := t, signal := s, message := m)
    case CatchEvent(_, _, t, s, m) => rec.(timer := t, signal := s, message := m)
    case ThrowEvent(_, _, s, m) => rec.(signal := s, message := m)
    case CallActivity(_, _, c, i) => rec.(calledElement := c, inheritVariables := i)
    case StartEvent(_, _) => rec
    case EndEvent(_, _) => rec
    case ParallelGateway(_, _) => rec
  }

  function FromRecord(r: Record): Result<Element> {
    match r.typ
    case Other(text) => UnknownType(text)
    case Known(StartKind) => Ok(StartEvent(r.id, r.name))
    case Known(EndKind) => Ok(EndEvent(r.id, r.name))
    case Known(UserKind) =>
      Ok(UserTask(r.id, r.name, r.assignee, r.candidateUsers, r.candidateGroup, r.formKey, r.loop))
    case Known(ServiceKind) => Ok(ServiceTask(r.id, r.name, r.serviceType))
    case Known(ExclusiveKind) => Ok(ExclusiveGateway(r.id, r.name, r.defaultFlow))
    case Known(ParallelKind) => Ok(ParallelGateway(r.id, r.name))
    case Known(InclusiveKind) => Ok(InclusiveGateway(r.id, r.name, r.defaultFlow))
    case Known(BoundaryKind) =>
      Ok(BoundaryEvent(r.id, r.name, r.attachedTo, r.cancel, r.timer, r.signal, r.message))
    case Known(CatchKind) => Ok(CatchEvent(r.id, r.name, r.timer, r.signal, r.message))
    case Known(ThrowKind) => Ok(ThrowEvent(r.id, r.name, r.signal, r.message))
    case Known(CallKind) => Ok(CallActivity(r.id, r.name, r.calledElement, r.inheritVariables))
  }

  // Every one of the eleven kinds survives the trip through its record.
  lemma RecordRoundTrip(el: Element)
    ensures FromRecord(ToRecord(el)) == Ok(el)
  {
  }

  // `records` lists the records of the elements once each, in some order: `order` is that order.
  ghost predicate Lists(elements: map<string, Element>, order: seq<string>, records: seq<Record>) {
    && |records| == |order|
    && (forall i, j :: 0 <= i < j < |order| ==> order[i] != order[j])
    && (forall k :: k in order <==> k in elements)
    && (forall i :: 0 <= i < |order| ==> records[i] == ToRecord(elements[order[i]]))
  }

  ghost function Listed(elements: map<string, Element>, order: seq<string>): seq<Element>
    requires forall k <- order :: k in elements
  {
    seq(|order|, i requires 0 <= i < |order| => elements[order[i]])
  }

  // MarshalJSON up to the text: the elements are visited in whatever order the map yields them.
  method Marshal(elements: map<string, Element>) returns (records: seq<Record>)
    ensures exists order :: Lists(elements, order, records)
  {
    ghost var order := [];
    records := [];
    var rest := elements.Keys;
    while rest != {}
      invariant rest <= elements.Keys
      invariant |records| == |order|
      invariant forall i, j :: 0 <= i < j < |order| ==> order[i] != order[j]
      invariant forall k :: k in order <==> k in elements.Keys - rest
      invariant forall i :: 0 <= i < |order| ==> order[i] in elements && records[i] == ToRecord(elements[order[i]])
    {
      var k :| k in rest;
      assert k !in order;
      records, order, rest := records + [ToRecord(elements[k])], order + [k], rest - {k};
    }
    assert Lists(elements, order, records);
  }

  // The element map rebuilt from records: a later record overwrites an earlier one with its ID.
  ghost function Rebuilt(records: seq<Record>): Result<map<string, Element>> {
    if records == [] then Ok(map[])
    else
      match Rebuilt(records[..|records| - 1])
      case UnknownType(t) => UnknownType(t)
      case Ok(m) =>
        var rec := records[|records| - 1];
        match FromRecord(rec)
        case UnknownType(t) => UnknownType(t)
        case Ok(el) => Ok(m[rec.id := el])
  }

  // Once a record has been refused, those behind it change nothing.
  lemma {:induction false} RefusalStays(records: seq<Record>, n: nat)
    requires n <= |records| && Rebuilt(records[..n]).UnknownType?
    ensures Rebuilt(records) == Rebuilt(records[..n])
  {
    hide FromRecord;
    if n == |records| {
      assert records[..n] == records;
    } else {
      assert records[..|records| - 1][..n] == records[..n];
      RefusalStays(records[..|records| - 1], n);
    }
  }

  // UnmarshalJSON down from the decoded records; the first unknown type refuses the whole definition.
  method Unmarshal(records: seq<Record>) returns (r: Result<map<string, Element>>)
    ensures r.Ok? <==> forall rec <- records :: FromRecord(rec).Ok?
    ensures r == Rebuilt(records)
  {
    var elements: map<string, Element> := map[];
    for i := 0 to |records|
      invariant Rebuilt(records[..i]) == Ok(elements)
      invariant forall j :: 0 <= j < i ==> FromRecord(records[j]).Ok?
    {
      assert records[..i + 1][..i] == records[..i];
      match FromRecord(records[i]) {
        case UnknownType(t) =>
          assert !FromRecord(records[i]).Ok?;
          RefusalStays(records, i + 1);
          return UnknownType(t);
        case Ok(el) =>
          elements := elements[records[i].id := el];
      }
    }
    assert records[..|records|] == records;
    return Ok(elements);
  }

  // Elements filed one after the other under their own IDs.
  ghost function Filed(els: seq<Element>): map<string, Element> {
    if els == [] then map[] else Filed(els[..|els| - 1])[els[|els| - 1].id := els[|els| - 1]]
  }

  lemma {:induction false} FiledHas(els: seq<Element>)
    ensures forall x :: x in Filed(els) ==> Filed(els)[x].id == x && Filed(els)[x] in els
    ensures forall i :: 0 <= i < |els| ==> els[i].id in Filed(els)
  {
    if els != [] {
      FiledHas(els[..|els| - 1]);
    }
  }

  lemma {:induction false} RebuiltIsFiled(els: seq<Element>, records: seq<Record>)
    requires |records| == |els|
    requires forall i :: 0 <= i < |els| ==> records[i] == ToRecord(els[i])
    ensures Rebuilt(records) == Ok(Filed(els))
  {
    hide Filed, ToRecord, FromRecord, Rebuilt;
    RebuiltNone();
    if records != [] {
      var n := |records| - 1;
      RebuiltIsFiled(els[..n], records[..n]);
      RebuiltLast(els, records);
    } else {
      assert els == [];
    }
  }

  lemma RebuiltNone()
    ensures Rebuilt([]) == Ok(Filed([]))
  {
  }

  lemma RebuiltLast(els: seq<Element>, records: seq<Record>)
    requires |records| == |els| != 0 && records[|records| - 1] == ToRecord(els[|els| - 1])
    requires Rebuilt(records[..|records| - 1]) == Ok(Filed(els[..|els| - 1]))
    ensures Rebuilt(records) == Ok(Filed(els))
  {
    hide ToRecord, FromRecord;
    var el := els[|els| - 1];
    RecordRoundTrip(el);
    RecordId(el);
  }

  lemma RecordId(el: Element)
    ensures ToRecord(el).id == el.id
  {
  }

  // Filing the elements of a map in any order gives back that map exactly when each is keyed by its own ID.
  lemma FiledAnyOrder(elements: map<string, Element>, order: seq<string>)
    requires forall k :: k in order <==> k in elements
    ensures Filed(Listed(elements, order)) == elements <==> KeyedById(elements)
  {
    var els := Listed(elements, order);
    var m := Filed(els);
    FiledHas(els);
    if KeyedById(elements) {
      forall x | x in m ensures x in elements && m[x] == elements[x] {
        var i :| 0 <= i < |els| && els[i] == m[x];
        assert order[i] in elements;
      }
      forall x | x in elements ensures x in m {
        var i :| 0 <= i < |order| && order[i] == x;
        assert els[i].id == x;
      }
      assert m == elements;
    }
  }

  // Turning the elements into records in any order and rebuilding them gives the same element map
  // exactly when every element is keyed by its own ID, which is what validation demands.
  lemma MarshalRoundTrip(elements: map<string, Element>, order: seq<string>, records: seq<Record>)
    requires Lists(elements, order, records)
    ensures Rebuilt(records) == Ok(elements) <==> KeyedById(elements)
  {
    RebuiltIsFiled(Listed(elements, order), records);
    FiledAnyOrder(elements, order);
  }

  // So storing a definition and reading it back cannot change the verdict on one keyed by ID, and cannot
  // produce one that is not.
  lemma ValidationSurvivesStorage(def: Definition, order: seq<string>, records: seq<Record>)
    requires Lists(def.elements, order, records)
    ensures Rebuilt(records).Ok? && KeyedById(Rebuilt(records).value)
    ensures KeyedById(def.elements) ==>
              (WellFormed(def.(elements := Rebuilt(records).value)) <==> WellFormed(def))
  {
    var els := Listed(def.elements, order);
    RebuiltIsFiled(els, records);
    FiledHas(els);
    MarshalRoundTrip(def.elements, order, records);
  }
}
