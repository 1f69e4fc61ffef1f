// The multiset of positions held by the entries of a table: which entry holds which position, and in
// what order they are visited, does not matter.

module Bags {
  import opened Spec
  import opened Model

  // One entry's share of the multiset.
  function Hit(x: Option<Place>, at: Place): nat {
    if x == Some(at) then 1 else 0
  }

  ghost function With(s: multiset<Place>, x: Option<Place>): (r: multiset<Place>)
    ensures forall at :: r[at] == s[at] + Hit(x, at)
  {
    match x
    case None => s
    case Some(at) => s + multiset{at}
  }

  lemma WithSwap(s: multiset<Place>, x: Option<Place>, y: Option<Place>)
    ensures With(With(s, x), y) == With(With(s, y), x)
  {
  }

  ghost function First(s: set<nat>): (k: nat)
    requires s != {}
    ensures k in s
  {
    var k :| k in s; k
  }

  ghost function Bag<T>(m: map<nat, T>, f: T -> Option<Place>): multiset<Place> {
    if m.Keys == {} then multiset{}
    else
      var k := First(m.Keys);
      With(Bag(m - {k}, f), f(m[k]))
  }

  lemma BagUnfold<T>(m: map<nat, T>, f: T -> Option<Place>)
    requires m.Keys != {}
    ensures Bag(m, f) == With(Bag(m - {First(m.Keys)}, f), f(m[First(m.Keys)]))
  {
  }

  // Any entry may be taken out first.
  lemma {:induction false} BagRemove<T>(m: map<nat, T>, f: T -> Option<Place>, k: nat)
    requires k in m
    ensures Bag(m, f) == With(Bag(m - {k}, f), f(m[k]))
    decreases |m.Keys|
  {
    hide Bag, With;
    var j := First(m.Keys);
    BagUnfold(m, f);
    if j != k {
      assert (m - {j}).Keys == m.Keys - {j} && (m - {k}).Keys == m.Keys - {k};
      BagRemove(m - {j}, f, k);
      BagRemove(m - {k}, f, j);
      assert m - {j} - {k} == m - {k} - {j};
      WithSwap(Bag(m - {j} - {k}, f), f(m[k]), f(m[j]));
    }
  }

  // Overwriting an entry moves its share from where it was to where it is now.
  lemma BagPut<T>(m: map<nat, T>, f: T -> Option<Place>, k: nat, v: T)
    ensures forall at :: Bag(m[k := v], f)[at] ==
                         Bag(m, f)[at] + Hit(f(v), at) - (if k in m then Hit(f(m[k]), at) else 0)
  {
    hide With, Bag, Hit;
    BagRemove(m[k := v], f, k);
    assert m[k := v] - {k} == m - {k};
    if k in m {
      BagRemove(m, f, k);
    } else {
      assert m - {k} == m;
    }
  }

  lemma {:induction false} BagHas<T>(m: map<nat, T>, f: T -> Option<Place>, at: Place)
    ensures at in Bag(m, f) <==> exists k :: k in m && f(m[k]) == Some(at)
    decreases m.Keys
  {
    if exists k :: k in m && f(m[k]) == Some(at) {
      var k :| k in m && f(m[k]) == Some(at);
      BagRemove(m, f, k);
    } else if m.Keys != {} {
      var j :| j in m;
      BagRemove(m, f, j);
      BagHas(m - {j}, f, at);
    }
  }

  // ---- The two tables of the engine ----

  datatype Token = Token(at: Place, active: bool)

  function Standing(t: Token): Option<Place> {
    if t.active then Some(t.at) else None
  }

  // An activity that is still to be done: it is active or waits to be claimed.
  function Open(a: Act): Option<Place> {
    if a.state == Done then None else Some(a.at)
  }

  // Where open activities are, as a multiset of positions.
  ghost function Opens(w: World): multiset<Place> {
    Bag(w.acts, Open)
  }

  lemma TokenAdded(m: map<nat, Token>, t: nat, at: Place)
    requires t !in m
    ensures Bag(m[t := Token(at, true)], Standing) == Bag(m, Standing) + multiset{at}
  {
    hide Bag;
    BagPut(m, Standing, t, Token(at, true));
  }

  lemma TokenConsumed(m: map<nat, Token>, t: nat)
    requires t in m && m[t].active
    ensures Bag(m[t := m[t].(active := false)], Standing) == Bag(m, Standing) - multiset{m[t].at}
  {
    hide Bag;
    BagPut(m, Standing, t, m[t].(active := false));
  }

  // Tables that agree on who holds x hold it equally often.
  lemma {:induction false} BagSame<T>(m: map<nat, T>, m1: map<nat, T>, f: T -> Option<Place>, x: Place)
    requires m1.Keys == m.Keys
    requires forall k :: k in m ==> Hit(f(m[k]), x) == Hit(f(m1[k]), x)
    ensures Bag(m1, f)[x] == Bag(m, f)[x]
    decreases m.Keys
  {
    hide Bag;
    if m.Keys == {} {
      BagEmpty(m, f);
      BagEmpty(m1, f);
    } else {
      var k := First(m.Keys);
      BagRemove(m, f, k);
      BagRemove(m1, f, k);
      BagSame(m - {k}, m1 - {k}, f, x);
    }
  }

  // Tables with the same holders of x hold it equally often, whatever else is in them.
  lemma {:induction false} BagAgree<T>(m: map<nat, T>, m1: map<nat, T>, f: T -> Option<Place>, x: Place)
    requires forall k :: k in m && f(m[k]) == Some(x) ==> k in m1 && f(m1[k]) == Some(x)
    requires forall k :: k in m1 && f(m1[k]) == Some(x) ==> k in m && f(m[k]) == Some(x)
    ensures Bag(m1, f)[x] == Bag(m, f)[x]
    decreases m.Keys
  {
    hide Bag;
    if m.Keys == {} {
      BagEmpty(m, f);
      BagHas(m1, f, x);
    } else {
      var k := First(m.Keys);
      BagRemove(m, f, k);
      if f(m[k]) == Some(x) {
        BagRemove(m1, f, k);
        BagAgree(m - {k}, m1 - {k}, f, x);
      } else {
        BagAgree(m - {k}, m1, f, x);
      }
    }
  }

  // When entries only lose what they hold, every position is held at most as often.
  lemma {:induction false} BagLess<T>(m: map<nat, T>, m1: map<nat, T>, f: T -> Option<Place>, x: Place)
    requires m1.Keys == m.Keys
    requires forall k :: k in m ==> f(m1[k]) == f(m[k]) || f(m1[k]) == None
    ensures Bag(m1, f)[x] <= Bag(m, f)[x]
    decreases m.Keys
  {
    hide Bag;
    if m.Keys == {} {
      BagEmpty(m, f);
      BagEmpty(m1, f);
    } else {
      var k := First(m.Keys);
      BagRemove(m, f, k);
      BagRemove(m1, f, k);
      BagLess(m - {k}, m1 - {k}, f, x);
    }
  }

  // Those of `ids` that hold x.
  ghost function Holders<T>(m: map<nat, T>, f: T -> Option<Place>, ids: set<nat>, x: Place): set<nat>
    requires ids <= m.Keys
  {
    set k | k in ids && f(m[k]) == Some(x)
  }

  // Entries that lose what they hold leave every position by as many as they were there.
  lemma {:induction false} BagLoses<T>(m: map<nat, T>, m1: map<nat, T>, f: T -> Option<Place>, gone: set<nat>, x: Place)
    requires m1.Keys == m.Keys && gone <= m.Keys
    requires forall k :: k in gone ==> f(m1[k]) == None
    requires forall k :: k in m && k !in gone ==> f(m1[k]) == f(m[k])
    ensures Bag(m, f)[x] == Bag(m1, f)[x] + |Holders(m, f, gone, x)|
    decreases gone
  {
    hide Bag;
    if gone == {} {
      BagSame(m, m1, f, x);
    } else {
      var j :| j in gone;
      BagRemove(m, f, j);
      BagRemove(m1, f, j);
      BagLoses(m - {j}, m1 - {j}, f, gone - {j}, x);
      assert Holders(m - {j}, f, gone - {j}, x) == Holders(m, f, gone, x) - {j};
    }
  }

  lemma BagEmpty<T>(m: map<nat, T>, f: T -> Option<Place>)
    requires m.Keys == {}
    ensures Bag(m, f) == multiset{}
  {
  }

  // Consuming every token of some positions empties those positions and no others.
  lemma TokensConsumed(m: map<nat, Token>, m1: map<nat, Token>, gone: set<Place>, x: Place)
    requires m1.Keys == m.Keys
    requires forall t :: t in m ==> m1[t] == m[t] || (m[t].at in gone && m1[t].at == m[t].at && !m1[t].active)
    requires forall t :: t in m && m[t].at in gone ==> !m1[t].active
    ensures Bag(m1, Standing)[x] == if x in gone then 0 else Bag(m, Standing)[x]
  {
    hide Bag;
    if x in gone {
      BagHas(m1, Standing, x);
    } else {
      BagSame(m, m1, Standing, x);
    }
  }

  // If `ids` lists the holders of x once each, x is held that often.
  lemma {:induction false} BagCount<T>(m: map<nat, T>, f: T -> Option<Place>, x: Place, ids: seq<nat>)
    requires forall i, j :: 0 <= i < j < |ids| ==> ids[i] != ids[j]
    requires forall k :: k in ids <==> k in m && f(m[k]) == Some(x)
    ensures Bag(m, f)[x] == |ids|
    decreases |ids|
  {
    hide Bag;
    if ids == [] {
      BagHas(m, f, x);
    } else {
      BagRemove(m, f, ids[0]);
      assert forall k :: k in ids <==> k == ids[0] || k in ids[1..];
      BagCount(m - {ids[0]}, f, x, ids[1..]);
    }
  }
}
