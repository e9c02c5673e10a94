/** The two list transforms the controller applies to its local facts after
    a successful write: the merge-by-id of an update (`facts.map`) and the
    removal-by-id of a delete (`facts.filter`). Ids are compared the way
    `===` compares them, so an absent id equals an absent id. */
module FactList {
  import opened Records

  /** `facts.map(f => f.id === id ? {...f, ...updated} : f)` */
  function UpdateById(facts: seq<Fact>, id: Option<Id>, updated: Fact): (r: seq<Fact>)
    ensures |r| == |facts|
    ensures forall i :: 0 <= i < |facts| && facts[i].id == id ==> r[i] == Merge(facts[i], updated)
    ensures forall i :: 0 <= i < |facts| && facts[i].id != id ==> r[i] == facts[i]
  {
    if facts == [] then []
    else
      var head := if facts[0].id == id then Merge(facts[0], updated) else facts[0];
      [head] + UpdateById(facts[1..], id, updated)
  }

  /** `facts.filter(f => f.id !== id)` */
  function RemoveById(facts: seq<Fact>, id: Option<Id>): (r: seq<Fact>)
    ensures |r| <= |facts|
    ensures forall f :: f in r <==> f in facts && f.id != id
  {
    if facts == [] then []
    else if facts[0].id == id then RemoveById(facts[1..], id)
    else [facts[0]] + RemoveById(facts[1..], id)
  }

  /** A delete keeps every other fact as often as it occurred, and no
      copy of a fact carrying the id. */
  lemma {:induction false} RemoveByIdCounts(facts: seq<Fact>, id: Option<Id>)
    ensures forall f: Fact :: f.id != id ==> multiset(RemoveById(facts, id))[f] == multiset(facts)[f]
    ensures forall f: Fact :: f.id == id ==> multiset(RemoveById(facts, id))[f] == 0
  {
    if facts != [] {
      RemoveByIdCounts(facts[1..], id);
      assert facts == [facts[0]] + facts[1..];
    }
  }

  /** `sub` is `s` with some elements left out and the rest in order. */
  ghost predicate IsSubsequence(sub: seq<Fact>, s: seq<Fact>)
    decreases |s|
  {
    if sub == [] then true
    else if s == [] then false
    else (sub[0] == s[0] && IsSubsequence(sub[1..], s[1..])) || IsSubsequence(sub, s[1..])
  }

  /** The facts a delete keeps stay in their relative order. */
  lemma {:induction false} RemoveByIdKeepsOrder(facts: seq<Fact>, id: Option<Id>)
    ensures IsSubsequence(RemoveById(facts, id), facts)
  {
    if facts != [] {
      var rest := RemoveById(facts[1..], id);
      RemoveByIdKeepsOrder(facts[1..], id);
      if facts[0].id != id {
        assert ([facts[0]] + rest)[1..] == rest;
      }
    }
  }

  /** Filtering a concatenation filters each part: the transform works
      element by element and never reorders. */
  lemma {:induction false} RemoveByIdConcat(a: seq<Fact>, b: seq<Fact>, id: Option<Id>)
    ensures RemoveById(a + b, id) == RemoveById(a, id) + RemoveById(b, id)
  {
    if a == [] {
      assert a + b == b;
    } else {
      var ab := a + b;
      assert ab[0] == a[0] && ab[1..] == a[1..] + b;
      RemoveByIdConcat(a[1..], b, id);
      var tail := RemoveById(a[1..], id) + RemoveById(b, id);
      assert RemoveById(ab[1..], id) == tail;
      if a[0].id == id {
        assert RemoveById(ab, id) == RemoveById(ab[1..], id);
        assert RemoveById(a, id) == RemoveById(a[1..], id);
      } else {
        assert RemoveById(ab, id) == [a[0]] + tail;
        assert RemoveById(a, id) == [a[0]] + RemoveById(a[1..], id);
        assert [a[0]] + tail == ([a[0]] + RemoveById(a[1..], id)) + RemoveById(b, id);
      }
    }
  }

  /** Deleting an id no fact carries leaves the list as it was. */
  lemma {:induction false} RemoveByIdAbsent(facts: seq<Fact>, id: Option<Id>)
    requires forall i :: 0 <= i < |facts| ==> facts[i].id != id
    ensures RemoveById(facts, id) == facts
  {
    if facts != [] {
      RemoveByIdAbsent(facts[1..], id);
    }
  }

  /** Removing an id twice is removing it once. */
  lemma {:induction false} RemoveByIdIdempotent(facts: seq<Fact>, id: Option<Id>)
    ensures RemoveById(RemoveById(facts, id), id) == RemoveById(facts, id)
  {
    var r := RemoveById(facts, id);
    forall i | 0 <= i < |r| ensures r[i].id != id {
      assert r[i] in r;
    }
    RemoveByIdAbsent(r, id);
  }

  /** An update whose returned record keeps the id (or omits it) followed
      by a delete of that id is the delete alone. */
  lemma {:induction false} RemoveAfterUpdate(facts: seq<Fact>, id: Option<Id>, updated: Fact)
    requires updated.id.None? || updated.id == id
    ensures RemoveById(UpdateById(facts, id, updated), id) == RemoveById(facts, id)
  {
    if facts != [] {
      var u := UpdateById(facts, id, updated);
      assert u[1..] == UpdateById(facts[1..], id, updated);
      assert u[0].id == facts[0].id;
      RemoveAfterUpdate(facts[1..], id, updated);
    }
  }

  /** An update whose returned record keeps the id (or omits it) leaves
      every id where it was, so the list's ids are those of before. */
  lemma UpdateByIdKeepsIds(facts: seq<Fact>, id: Option<Id>, updated: Fact)
    requires updated.id.None? || updated.id == id
    ensures forall i :: 0 <= i < |facts| ==> UpdateById(facts, id, updated)[i].id == facts[i].id
  {
  }
}
