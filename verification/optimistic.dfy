// Optimistic locking of activity rows: clients read a row, check its state, and write it back under the
// condition that its version has not changed. Any interleaving amounts to doing the committed changes one
// after the other, each in one piece.

module Optimistic {
  import opened Spec
  import opened Model

  // `candidates` are those stored for the activity when it was created.
  datatype Row = Row(kind: Kind, candidates: seq<string>, state: ActState, assignee: string, expire: Option<int>,
                     version: nat)

  // What a client wants to do with an activity.
  datatype Intent =
    | Complete | Transfer(to: string) | Delegate(to: string) | Claim(user: string) | Unclaim | SetTimeout(at: int)

  // What each operation checks of the activity it has read.
  predicate Allowed(intent: Intent, row: Row) {
    match intent
    case Claim(user) =>
      row.state == Unclaimed && row.kind == UserKind && (row.candidates != [] ==> user in row.candidates)
    case Unclaim => row.state == Active && row.candidates != []
    case SetTimeout(_) => row.state == Active
    case _ => row.state == Active && row.kind == UserKind
  }

  // The row as the client changes it in its copy.
  function Changed(intent: Intent, row: Row): Row {
    match intent
    case Complete => row.(state := Done)
    case Transfer(to) => row.(assignee := to)
    case Delegate(to) => row.(assignee := to)
    case Claim(user) => row.(assignee := user, state := Active)
    case Unclaim => row.(assignee := "", state := Unclaimed)
    case SetTimeout(at) => row.(expire := Some(at))
  }

  // ---- The versioned update ----

  // A write takes effect only on the version it was made from, and makes the next one.
  function Updated(rows: map<nat, Row>, id: nat, row: Row): map<nat, Row> {
    if id in rows && rows[id].version == row.version then rows[id := row.(version := row.version + 1)] else rows
  }

  class Table {
    var rows: map<nat, Row>

    constructor ()
      ensures rows == map[]
    {
      rows := map[];
    }

    method GetActivityInstance(id: nat) returns (row: Option<Row>)
      ensures row == if id in rows then Some(rows[id]) else None
    {
      row := if id in rows then Some(rows[id]) else None;
    }

    // Fails when the version has moved on, and then changes nothing.
    method UpdateActivityInstance(id: nat, row: Row) returns (ok: bool)
      modifies this
      ensures rows == Updated(old(rows), id, row)
      ensures ok <==> id in old(rows) && old(rows)[id].version == row.version
    {
      ok := false;
      if id in rows {
        if rows[id].version == row.version {
          rows := rows[id := row.(version := row.version + 1)];
          ok := true;
        }
      }
    }

    // An operation of the engine on one activity: read, check, write.
    method Perform(id: nat, intent: Intent) returns (ok: bool)
      modifies this
      ensures ok <==> id in old(rows) && Allowed(intent, old(rows)[id])
      ensures if ok then Applies(old(rows), Committed(id, intent)) && rows == Apply(old(rows), Committed(id, intent))
          else rows == old(rows)
    {
      var found := GetActivityInstance(id);
      if found.None? || !Allowed(intent, found.value) { return false; }
      ok := UpdateActivityInstance(id, Changed(intent, found.value));
    }
  }

  // ---- Serial execution ----

  datatype Change = Created(id: nat, row: Row) | Committed(id: nat, intent: Intent)

  predicate Applies(rows: map<nat, Row>, c: Change) {
    match c
    case Created(id, row) => id !in rows
    case Committed(id, intent) => id in rows && Allowed(intent, rows[id])
  }

  // Doing a change in one piece.
  function Apply(rows: map<nat, Row>, c: Change): map<nat, Row>
    requires Applies(rows, c)
  {
    match c
    case Created(id, row) => rows[id := row]
    case Committed(id, intent) => rows[id := Changed(intent, rows[id]).(version := rows[id].version + 1)]
  }

  // Doing these changes in order turns `rows` into `rows1`.
  ghost predicate Serial(rows: map<nat, Row>, changes: seq<Change>, rows1: map<nat, Row>)
    decreases |changes|
  {
    if changes == [] then rows1 == rows
    else
      var last := |changes| - 1;
      exists before :: Serial(rows, changes[..last], before) && Applies(before, changes[last])
          && Apply(before, changes[last]) == rows1
  }

  // ---- Interleaved clients ----

  datatype Client = Idle | Holding(id: nat, copy: Row, intent: Intent)

  // `changes` records what has taken effect.
  datatype System = System(rows: map<nat, Row>, clients: map<nat, Client>, changes: seq<Change>)

  datatype Event = Insert(id: nat, row: Row) | Begin(client: nat, target: nat,
      intent: Intent) | Write(client: nat) | GiveUp(client: nat)

  function ClientOf(s: System, c: nat): Client {
    if c in s.clients then s.clients[c] else Idle
  }

  // One atomic step: a read with its check, a write, or giving up in between.
  function Next(s: System, e: Event): System {
    match e
    case Insert(id, row) =>
      if id in s.rows then s else s.(rows := s.rows[id := row], changes := s.changes + [Created(id, row)])
    case Begin(c, id, intent) =>
      if ClientOf(s, c) != Idle || id !in s.rows || !Allowed(intent, s.rows[id]) then s
      else s.(clients := s.clients[c := Holding(id, s.rows[id], intent)])
    case Write(c) =>
      (match ClientOf(s, c)
       case Idle => s
       case Holding(id, copy, intent) =>
         var rows := Updated(s.rows, id, Changed(intent, copy));
         var done := if rows == s.rows then [] else [Committed(id, intent)];
         System(rows, s.clients[c := Idle], s.changes + done))
    case GiveUp(c) => s.(clients := s.clients[c := Idle])
  }

  ghost predicate Run(ss: seq<System>, es: seq<Event>) {
    |ss| == |es| + 1 && forall i :: 0 <= i < |es| ==> ss[i + 1] == Next(ss[i], es[i])
  }

  // A copy is never newer than its row, and is the row itself while the version has not moved on.
  ghost predicate CopyOk(s: System, c: nat) {
    match ClientOf(s, c)
    case Idle => true
    case Holding(id, copy, intent) =>
      && id in s.rows && copy.version <= s.rows[id].version
      && (copy.version == s.rows[id].version ==> copy == s.rows[id])
      && Allowed(intent, copy)
  }

  ghost predicate Sound(s0: System, s: System) {
    && (forall c :: CopyOk(s, c))
    && Serial(s0.rows, s.changes, s.rows)
  }

  lemma SerialMore(rows: map<nat, Row>, changes: seq<Change>, rows1: map<nat, Row>, c: Change)
    requires Serial(rows, changes, rows1) && Applies(rows1, c)
    ensures Serial(rows, changes + [c], Apply(rows1, c))
  {
    hide Apply, Applies;
    assert (changes + [c])[..|changes + [c]| - 1] == changes;
  }

  // A write takes effect exactly when the client's copy is the row, and then as if it were done in one piece.
  lemma WriteCommits(s: System, c: nat)
    requires CopyOk(s, c) && ClientOf(s, c).Holding?
    ensures var h := ClientOf(s, c);
            var change := Committed(h.id, h.intent);
            var s1 := Next(s, Write(c));
            if h.copy == s.rows[h.id]
            then Applies(s.rows, change) && s1.rows == Apply(s.rows, change) && s1.changes == s.changes + [change]
            else s1.rows == s.rows && s1.changes == s.changes
  {
    var h := ClientOf(s, c);
    assert Changed(h.intent, h.copy).version == h.copy.version;
    if h.copy == s.rows[h.id] {
      assert Updated(s.rows, h.id, Changed(h.intent, h.copy))[h.id].version == s.rows[h.id].version + 1;
    } else {
      assert s.changes + [] == s.changes;
    }
  }

  lemma NextSound(s0: System, s: System, e: Event)
    requires Sound(s0, s)
    ensures Sound(s0, Next(s, e))
  {
    hide Serial;
    var s1 := Next(s, e);
    match e {
      case Insert(id, row) => if id !in s.rows { SerialMore(s0.rows, s.changes, s.rows, Created(id, row)); }
      case Write(c) =>
        assert CopyOk(s, c);
        if ClientOf(s, c).Holding? {
          WriteCommits(s, c);
          var h := ClientOf(s, c);
          if h.copy == s.rows[h.id] { SerialMore(s0.rows, s.changes, s.rows, Committed(h.id, h.intent)); }
        }
      case _ =>
    }
    forall c ensures CopyOk(s1, c) {
      assert CopyOk(s, c);
      NextCopy(s, e, c);
    }
  }

  lemma NextCopy(s: System, e: Event, c: nat)
    requires CopyOk(s, c) && (e.Write? ==> CopyOk(s, e.client))
    ensures CopyOk(Next(s, e), c)
  {
    if e.Write? && ClientOf(s, e.client).Holding? {
      WriteCommits(s, e.client);
    }
  }

  // Every interleaving of any number of clients is equivalent to doing the changes that took effect one
  // after the other, each in one piece and in a state that allows it.
  lemma {:induction false} Serializable(ss: seq<System>, es: seq<Event>, j: nat)
    requires Run(ss, es) && ss[0].clients == map[] && ss[0].changes == [] && j < |ss|
    ensures Sound(ss[0], ss[j])
  {
    hide Next, CopyOk;
    if j == 0 {
      forall c ensures CopyOk(ss[0], c) { NoClient(ss[0], c); }
    } else {
      Serializable(ss, es, j - 1);
      assert ss[j - 1 + 1] == Next(ss[j - 1], es[j - 1]);
      NextSound(ss[0], ss[j - 1], es[j - 1]);
    }
  }

  lemma NoClient(s: System, c: nat)
    requires s.clients == map[]
    ensures CopyOk(s, c)
  {
  }

  // ---- What follows for completions ----

  function Completions(changes: seq<Change>, id: nat): nat {
    if changes == [] then 0
    else
      var last := |changes| - 1;
      Completions(changes[..last], id) + (if changes[last] == Committed(id, Complete) then 1 else 0)
  }

  lemma {:induction false} SerialCompletions(rows: map<nat, Row>, changes: seq<Change>, rows1: map<nat, Row>, id: nat)
    requires Serial(rows, changes, rows1)
    ensures Completions(changes, id) <= 1
    ensures Completions(changes, id) == 1 ==> id in rows1 && rows1[id].state == Done
    ensures id in rows && rows[id].state == Done ==> id in rows1 && rows1[id] == rows[id]
    decreases |changes|
  {
    if changes != [] {
      var last := |changes| - 1;
      var before :| Serial(rows, changes[..last], before) && Applies(before, changes[last])
          && Apply(before, changes[last]) == rows1;
      SerialCompletions(rows, changes[..last], before, id);
    }
  }

  // At most one completion of an activity commits.
  lemma AtMostOneCompletion(ss: seq<System>, es: seq<Event>, j: nat, id: nat)
    requires Run(ss, es) && ss[0].clients == map[] && ss[0].changes == [] && j < |ss|
    ensures Completions(ss[j].changes, id) <= 1
  {
    hide Serial, Completions;
    Serializable(ss, es, j);
    SerialCompletions(ss[0].rows, ss[j].changes, ss[j].rows, id);
  }

  // A completed activity never changes again.
  lemma {:induction false} DoneIsFinal(ss: seq<System>, es: seq<Event>, i: nat, j: nat, id: nat)
    requires Run(ss, es) && ss[0].clients == map[] && ss[0].changes == [] && i <= j < |ss|
    requires id in ss[i].rows && ss[i].rows[id].state == Done
    ensures id in ss[j].rows && ss[j].rows[id] == ss[i].rows[id]
  {
    hide Serial;
    if i < j {
      DoneIsFinal(ss, es, i, j - 1, id);
      Serializable(ss, es, j - 1);
      assert ss[j - 1 + 1] == Next(ss[j - 1], es[j - 1]);
      var e := es[j - 1];
      if e.Write? {
        assert CopyOk(ss[j - 1], e.client);
        if ClientOf(ss[j - 1], e.client).Holding? { WriteCommits(ss[j - 1], e.client); }
      }
    }
  }
}
