/** The `shipments` collection as the dashboards see it through `updateDoc`, `addDoc` and
    `deleteDoc`: a sequence of documents with distinct ids, in the order queries return them.
    Whether the network call succeeds is an input (`transportOk`). */
module Store {
  import opened Wrappers
  import opened Seqs
  import opened Text
  import opened Shipments

  function Ids(docs: seq<Shipment>): set<string> {
    set d | d in docs :: d.id
  }

  predicate UniqueIds(docs: seq<Shipment>) {
    forall i, j :: 0 <= i < j < |docs| ==> docs[i].id != docs[j].id
  }

  /** A document with id `id`, if there is one. */
  function Find(docs: seq<Shipment>, id: string): (r: Option<Shipment>)
    ensures r.Some? ==> r.value in docs && r.value.id == id
    ensures r.None? <==> id !in Ids(docs)
  {
    if docs == [] then None
    else if docs[0].id == id then Some(docs[0])
    else
      assert docs == [docs[0]] + docs[1..];
      Find(docs[1..], id)
  }

  /** `where('shipmentId', '==', code.toUpperCase())`, the code lookup of the driver's and
      the receiver's manual forms. */
  function CodeQuery(docs: seq<Shipment>, input: string): (r: seq<Shipment>)
    ensures forall x :: x in r <==> x in docs && x.shipmentId == Upper(input)
  {
    Filter(docs, (s: Shipment) => s.shipmentId == Upper(input))
  }

  /** `updateDoc(doc(db, 'shipments', id), fields)` applied to every document with that id. */
  function UpdateById(docs: seq<Shipment>, id: string, p: Patch): (r: seq<Shipment>)
    ensures |r| == |docs|
    ensures forall i :: 0 <= i < |docs| ==> r[i] == if docs[i].id == id then Apply(p, docs[i]) else docs[i]
  {
    seq(|docs|, i requires 0 <= i < |docs| => if docs[i].id == id then Apply(p, docs[i]) else docs[i])
  }

  /** An update touches only the document it names: it keeps the ids, their order and
      their uniqueness, patches that document and leaves every other one as it was. */
  lemma UpdateTouchesOnlyItsDocument(docs: seq<Shipment>, id: string, p: Patch)
    requires UniqueIds(docs)
    ensures UniqueIds(UpdateById(docs, id, p)) && Ids(UpdateById(docs, id, p)) == Ids(docs)
    ensures forall i :: 0 <= i < |docs| ==> UpdateById(docs, id, p)[i].id == docs[i].id
    ensures forall i :: 0 <= i < |docs| && docs[i].id != id ==> UpdateById(docs, id, p)[i] == docs[i]
    ensures Find(docs, id).Some? ==> Find(UpdateById(docs, id, p), id) == Some(Apply(p, Find(docs, id).value))
  {
    var r := UpdateById(docs, id, p);
    SameIdsSameSet(r, docs);
    if Find(docs, id).Some? {
      FindAt(docs, id);
      var k :| 0 <= k < |docs| && docs[k].id == id && Find(docs, id) == Some(docs[k]);
      FindUnique(r, id, k);
    }
  }

  /** Two sequences with the same id at every index have the same id set. */
  lemma SameIdsSameSet(a: seq<Shipment>, b: seq<Shipment>)
    requires |a| == |b| && forall i :: 0 <= i < |a| ==> a[i].id == b[i].id
    ensures Ids(a) == Ids(b)
  {
    forall x | x in Ids(a) ensures x in Ids(b) {
      var d :| d in a && d.id == x;
      var i :| 0 <= i < |a| && a[i] == d;
      assert b[i] in b;
    }
    forall x | x in Ids(b) ensures x in Ids(a) {
      var d :| d in b && d.id == x;
      var i :| 0 <= i < |b| && b[i] == d;
      assert a[i] in a;
    }
  }

  /** The first match sits at some index. */
  lemma {:induction false} FindAt(docs: seq<Shipment>, id: string)
    requires Find(docs, id).Some?
    ensures exists k :: 0 <= k < |docs| && docs[k].id == id && Find(docs, id) == Some(docs[k])
  {
    if docs[0].id != id {
      FindAt(docs[1..], id);
      var k :| 0 <= k < |docs[1..]| && docs[1..][k].id == id && Find(docs[1..], id) == Some(docs[1..][k]);
      assert docs[k + 1] == docs[1..][k];
    }
  }

  /** With unique ids, the match is the document at its index. */
  lemma {:induction false} FindUnique(docs: seq<Shipment>, id: string, k: int)
    requires UniqueIds(docs) && 0 <= k < |docs| && docs[k].id == id
    ensures Find(docs, id) == Some(docs[k])
  {
    if k > 0 {
      FindUnique(docs[1..], id, k - 1);
    }
  }

  /** `deleteDoc`: the document with that id is gone, the others stay in order. */
  function RemoveId(docs: seq<Shipment>, id: string): (r: seq<Shipment>)
    ensures id !in Ids(r)
    ensures forall d :: d in r <==> d in docs && d.id != id
  {
    Filter(docs, (d: Shipment) => d.id != id)
  }

  class ShipmentStore {
    var docs: seq<Shipment>

    ghost predicate Valid()
      reads this
    {
      UniqueIds(docs)
    }

    constructor (initial: seq<Shipment>)
      requires UniqueIds(initial)
      ensures Valid() && docs == initial
    {
      docs := initial;
    }

    /** `updateDoc`: fails, changing nothing, on a network failure or a missing document. */
    method Update(id: string, p: Patch, transportOk: bool) returns (ok: bool)
      requires Valid()
      modifies this
      ensures Valid()
      ensures ok <==> transportOk && id in Ids(old(docs))
      ensures docs == if ok then UpdateById(old(docs), id, p) else old(docs)
    {
      ok := transportOk && id in Ids(docs);
      if ok {
        UpdateTouchesOnlyItsDocument(docs, id, p);
        docs := UpdateById(docs, id, p);
      }
    }

    /** `addDoc`: the store chooses a fresh document id. */
    method Add(rec: Shipment, transportOk: bool) returns (ok: bool)
      requires Valid() && rec.id !in Ids(docs)
      modifies this
      ensures Valid()
      ensures ok == transportOk
      ensures docs == if ok then old(docs) + [rec] else old(docs)
    {
      ok := transportOk;
      if ok {
        docs := docs + [rec];
      }
    }

    /** `deleteDoc`: removing a document that is not there succeeds. */
    method Delete(id: string, transportOk: bool) returns (ok: bool)
      requires Valid()
      modifies this
      ensures Valid()
      ensures ok == transportOk
      ensures docs == if ok then RemoveId(old(docs), id) else old(docs)
    {
      ok := transportOk;
      if ok {
        RemoveKeepsUnique(docs, id);
        docs := RemoveId(docs, id);
      }
    }
  }

  lemma {:induction false} RemoveKeepsUnique(docs: seq<Shipment>, id: string)
    requires UniqueIds(docs)
    ensures UniqueIds(RemoveId(docs, id))
  {
    FilterKeepsUniqueIds(docs, (d: Shipment) => d.id != id);
  }

  /** Two documents of a store with the same id are the same document. */
  lemma SameIdSameDoc(docs: seq<Shipment>, x: Shipment, y: Shipment)
    requires UniqueIds(docs) && x in docs && y in docs && x.id == y.id
    ensures x == y
  {
    var i :| 0 <= i < |docs| && docs[i] == x;
    var j :| 0 <= j < |docs| && docs[j] == y;
    assert !(i < j) && !(j < i);
  }

  /** An id is present exactly when some position holds it. */
  lemma IdsAt(docs: seq<Shipment>, id: string)
    ensures id in Ids(docs) <==> exists k :: 0 <= k < |docs| && docs[k].id == id
  {
    if id in Ids(docs) {
      var d :| d in docs && d.id == id;
      var k :| 0 <= k < |docs| && docs[k] == d;
      assert docs[k].id == id;
    }
    if exists k :: 0 <= k < |docs| && docs[k].id == id {
      var k :| 0 <= k < |docs| && docs[k].id == id;
      assert docs[k] in docs;
    }
  }

  lemma HeadIdNotInTail(docs: seq<Shipment>)
    requires UniqueIds(docs) && docs != []
    ensures docs[0].id !in Ids(docs[1..])
  {
    IdsAt(docs[1..], docs[0].id);
    forall k | 0 <= k < |docs[1..]| ensures docs[1..][k].id != docs[0].id {
      assert docs[1..][k] == docs[k + 1];
    }
  }

  lemma ConsUnique(x: Shipment, docs: seq<Shipment>)
    requires UniqueIds(docs) && x.id !in Ids(docs)
    ensures UniqueIds([x] + docs)
  {
    IdsAt(docs, x.id);
    var s := [x] + docs;
    forall i, j | 0 <= i < j < |s| ensures s[i].id != s[j].id {
      assert s[j] == docs[j - 1];
      if i > 0 {
        assert s[i] == docs[i - 1];
      }
    }
  }

  /** A query (a filter) over a store returns no id twice. */
  lemma {:induction false} FilterKeepsUniqueIds(docs: seq<Shipment>, p: Shipment -> bool)
    requires UniqueIds(docs)
    ensures UniqueIds(Filter(docs, p))
  {
    if docs != [] {
      var rest := Filter(docs[1..], p);
      assert Filter(docs, p) == (if p(docs[0]) then [docs[0]] else []) + rest;
      assert UniqueIds(docs[1..]) by {
        forall i, j | 0 <= i < j < |docs[1..]| ensures docs[1..][i].id != docs[1..][j].id {
          assert docs[1..][i] == docs[i + 1] && docs[1..][j] == docs[j + 1];
        }
      }
      FilterKeepsUniqueIds(docs[1..], p);
      HeadIdNotInTail(docs);
      assert Ids(rest) <= Ids(docs[1..]);
      if p(docs[0]) {
        ConsUnique(docs[0], rest);
      } else {
        assert [] + rest == rest;
      }
    }
  }

  /** A reordering keeps the set of ids. */
  lemma PermutationIds(a: seq<Shipment>, b: seq<Shipment>)
    requires multiset(a) == multiset(b)
    ensures Ids(a) == Ids(b)
  {
    forall x | x in a ensures x in b {
      assert x in multiset(a);
    }
    forall x | x in b ensures x in a {
      assert x in multiset(b);
    }
  }

  /** A reordering keeps the members. */
  lemma PermutationMembers(a: seq<Shipment>, b: seq<Shipment>)
    requires multiset(a) == multiset(b)
    ensures forall x :: x in a <==> x in b
  {
    forall x ensures x in a <==> x in b {
      assert x in a <==> x in multiset(a);
      assert x in b <==> x in multiset(b);
    }
  }

  lemma TailUnique(s: seq<Shipment>)
    requires UniqueIds(s) && s != []
    ensures UniqueIds(s[1..])
  {
    forall i, j | 0 <= i < j < |s[1..]| ensures s[1..][i].id != s[1..][j].id {
      assert s[1..][i] == s[i + 1] && s[1..][j] == s[j + 1];
    }
  }

  lemma TailNewestFirst(s: seq<Shipment>, f: TimeField)
    requires NewestFirst(s, f) && s != []
    ensures NewestFirst(s[1..], f)
  {
    var tail := s[1..];
    forall i | 0 < i < |tail| ensures SortKey(tail[i - 1], f) >= SortKey(tail[i], f) {
      assert tail[i - 1] == s[i] && tail[i] == s[i + 1];
    }
  }

  lemma IdsSnoc(s: seq<Shipment>, x: Shipment)
    ensures Ids(s + [x]) == Ids(s) + {x.id}
  {
    assert forall d :: d in s + [x] <==> d in s || d == x;
  }

  lemma {:induction false} InsertKeepsUniqueIds(x: Shipment, s: seq<Shipment>, f: TimeField)
    requires NewestFirst(s, f) && UniqueIds(s) && x.id !in Ids(s)
    ensures UniqueIds(InsertNewest(x, s, f))
  {
    if s == [] {
      ConsUnique(x, s);
    } else if SortKey(x, f) >= SortKey(s[0], f) {
      ConsUnique(x, s);
    } else {
      var tail := s[1..];
      TailNewestFirst(s, f);
      assert forall d :: d in tail ==> d in s;
      TailUnique(s);
      InsertKeepsUniqueIds(x, tail, f);
      var r := InsertNewest(x, tail, f);
      assert InsertNewest(x, s, f) == [s[0]] + r;
      PermutationIds(r, tail + [x]);
      HeadIdNotInTail(s);
      assert s[0] in s;
      IdsSnoc(tail, x);
      ConsUnique(s[0], r);
    }
  }

  /** Sorting a list with distinct ids keeps them distinct. */
  lemma {:induction false} SortKeepsUniqueIds(s: seq<Shipment>, f: TimeField)
    requires UniqueIds(s)
    ensures UniqueIds(SortNewest(s, f))
  {
    if s != [] {
      TailUnique(s);
      SortKeepsUniqueIds(s[1..], f);
      var t := SortNewest(s[1..], f);
      PermutationIds(t, s[1..]);
      HeadIdNotInTail(s);
      InsertKeepsUniqueIds(s[0], t, f);
    }
  }
}
