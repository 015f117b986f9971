/** The document collection behind one route's model, seen through the few
    operations the route performs on it: insert, find by id, save, remove,
    remove all, find matching, find first. */
module Storage {
  import opened Values

  /** The documents of one collection by `_id`, and the ids in the store's
      natural (insertion) order, which fixes the order of listed results. */
  datatype Store = Store(docs: map<Value, Fields>, order: seq<Value>)

  const Empty := Store(map[], [])

  predicate NoDuplicates(ids: seq<Value>)
  {
    forall i, j :: 0 <= i < j < |ids| ==> ids[i] != ids[j]
  }

  /** The order lists every stored id exactly once. */
  ghost predicate Valid(s: Store)
  {
    && (forall k :: k in s.docs <==> k in s.order)
    && NoDuplicates(s.order)
  }

  /** Inserting a new document, or saving an existing one under its id. */
  function Put(s: Store, id: Value, doc: Fields): Store
  {
    Store(s.docs[id := doc], if id in s.docs then s.order else s.order + [id])
  }

  /** A save replaces the document under its id and nothing else; an insert
      appends the new id to the order; both keep the store well formed. */
  lemma PutKeepsValid(s: Store, id: Value, doc: Fields)
    requires Valid(s)
    ensures var r := Put(s, id, doc);
      && r.docs == s.docs[id := doc]
      && (id in s.docs ==> r.order == s.order)
      && Valid(r)
  {
    var r := Put(s, id, doc);
    if id !in s.docs {
      forall i, j | 0 <= i < j < |r.order| ensures r.order[i] != r.order[j] {
        if j == |s.order| {
          assert r.order[i] == s.order[i];
          assert s.order[i] in s.docs;
        }
      }
    }
  }

  /** The ids of `ids` other than `x`, in order. */
  function Without(ids: seq<Value>, x: Value): seq<Value>
  {
    if ids == [] then []
    else if ids[0] == x then Without(ids[1..], x)
    else [ids[0]] + Without(ids[1..], x)
  }

  /** Dropping `x` keeps every other id and their distinctness. */
  lemma {:induction false} WithoutDropsOnly(ids: seq<Value>, x: Value)
    ensures forall y :: y in Without(ids, x) <==> y in ids && y != x
    ensures NoDuplicates(ids) ==> NoDuplicates(Without(ids, x))
    decreases |ids|
  {
    if ids != [] {
      WithoutDropsOnly(ids[1..], x);
      var rest := Without(ids[1..], x);
      assert forall y :: y in ids <==> y == ids[0] || y in ids[1..] by {
        assert ids == [ids[0]] + ids[1..];
      }
      if ids[0] != x && NoDuplicates(ids) {
        assert NoDuplicates(ids[1..]) by {
          forall i, j | 0 <= i < j < |ids[1..]| ensures ids[1..][i] != ids[1..][j] {
            assert ids[1..][i] == ids[i + 1] && ids[1..][j] == ids[j + 1];
          }
        }
        assert ids[0] !in ids[1..] by {
          forall j | 0 <= j < |ids[1..]| ensures ids[1..][j] != ids[0] {
            assert ids[1..][j] == ids[j + 1];
          }
        }
        var r := [ids[0]] + rest;
        forall i, j | 0 <= i < j < |r| ensures r[i] != r[j] {
          if i == 0 {
            assert r[j] == rest[j - 1] && rest[j - 1] in rest;
          } else {
            assert r[i] == rest[i - 1] && r[j] == rest[j - 1];
          }
        }
      } else if NoDuplicates(ids) {
        assert NoDuplicates(ids[1..]) by {
          forall i, j | 0 <= i < j < |ids[1..]| ensures ids[1..][i] != ids[1..][j] {
            assert ids[1..][i] == ids[i + 1] && ids[1..][j] == ids[j + 1];
          }
        }
      }
    }
  }

  /** `model.remove({_id: id})`: whether or not a document has that id. */
  function Remove(s: Store, id: Value): Store
  {
    Store(s.docs - {id}, Without(s.order, id))
  }

  /** A removal drops exactly the document under `id`, if any, and keeps the
      store well formed. */
  lemma RemoveKeepsValid(s: Store, id: Value)
    requires Valid(s)
    ensures Remove(s, id).docs == s.docs - {id}
    ensures Valid(Remove(s, id))
  {
    WithoutDropsOnly(s.order, id);
  }

  /** The largest number among the generated ids in `ids`, or 0. */
  function MaxOid(ids: seq<Value>): nat
  {
    if ids == [] then 0
    else
      var rest := MaxOid(ids[1..]);
      if ids[0].Oid? && ids[0].id > rest then ids[0].id else rest
  }

  lemma {:induction false} MaxOidBounds(ids: seq<Value>)
    ensures forall k :: k in ids && k.Oid? ==> k.id <= MaxOid(ids)
    decreases |ids|
  {
    if ids != [] {
      MaxOidBounds(ids[1..]);
      assert forall k :: k in ids ==> k == ids[0] || k in ids[1..] by {
        assert ids == [ids[0]] + ids[1..];
      }
    }
  }

  /** The id the store generates for a new document without an `_id`. */
  function FreshId(s: Store): Value
  {
    Oid(MaxOid(s.order) + 1)
  }

  /** A generated id is never one already in use. */
  lemma FreshIdIsUnused(s: Store)
    requires Valid(s)
    ensures FreshId(s).Oid? && FreshId(s) !in s.docs
  {
    MaxOidBounds(s.order);
  }

  /** The stored documents listed along `ids`. */
  function Listed(docs: map<Value, Fields>, ids: seq<Value>): seq<Fields>
  {
    if ids == [] then []
    else (if ids[0] in docs then [docs[ids[0]]] else []) + Listed(docs, ids[1..])
  }

  /** Every document of the collection, in the store's order (`model.find()`). */
  function All(s: Store): seq<Fields>
  {
    Listed(s.docs, s.order)
  }

  /** `model.find()` lists every stored document once, and nothing else. */
  lemma AllListsEveryDocument(s: Store)
    requires Valid(s)
    ensures |All(s)| == |s.docs|
    ensures forall k :: k in s.docs ==> s.docs[k] in All(s)
    ensures forall d :: d in All(s) ==> d in s.docs.Values
  {
    ListedCount(s.docs, s.order);
    ListedMembers(s.docs, s.order);
  }

  lemma {:induction false} ListedMembers(docs: map<Value, Fields>, ids: seq<Value>)
    ensures forall k :: k in ids && k in docs ==> docs[k] in Listed(docs, ids)
    ensures forall d :: d in Listed(docs, ids) ==> d in docs.Values
    decreases |ids|
  {
    if ids != [] {
      ListedMembers(docs, ids[1..]);
      var head := if ids[0] in docs then [docs[ids[0]]] else [];
      assert Listed(docs, ids) == head + Listed(docs, ids[1..]);
      assert forall k :: k in ids ==> k == ids[0] || k in ids[1..] by {
        assert ids == [ids[0]] + ids[1..];
      }
    }
  }

  lemma {:induction false} ListedCount(docs: map<Value, Fields>, ids: seq<Value>)
    requires forall k :: k in docs <==> k in ids
    requires NoDuplicates(ids)
    ensures |Listed(docs, ids)| == |ids| == |docs|
    decreases |ids|
  {
    if ids != [] {
      var rest := docs - {ids[0]};
      assert forall k :: k in rest <==> k in ids[1..] by {
        forall k ensures k in rest <==> k in ids[1..] {
          if k in ids[1..] {
            var j :| 0 <= j < |ids[1..]| && ids[1..][j] == k;
            assert ids[j + 1] == k;
          }
          if k in ids && k != ids[0] {
            var j :| 0 <= j < |ids| && ids[j] == k;
            assert ids[1..][j - 1] == k;
          }
        }
      }
      assert NoDuplicates(ids[1..]) by {
        forall i, j | 0 <= i < j < |ids[1..]| ensures ids[1..][i] != ids[1..][j] {
          assert ids[1..][i] == ids[i + 1] && ids[1..][j] == ids[j + 1];
        }
      }
      ListedCount(rest, ids[1..]);
      assert Listed(docs, ids[1..]) == Listed(rest, ids[1..]) by {
        ListedIgnoresUnlisted(docs, ids[0], ids[1..]);
      }
      assert |rest| == |docs| - 1;
    } else {
      assert docs == map[];
    }
  }

  lemma {:induction false} ListedIgnoresUnlisted(docs: map<Value, Fields>, x: Value, ids: seq<Value>)
    requires x !in ids
    ensures Listed(docs, ids) == Listed(docs - {x}, ids)
    decreases |ids|
  {
    if ids != [] {
      ListedIgnoresUnlisted(docs, x, ids[1..]);
    }
  }

  /** Whether a stored value satisfies one query condition: a `Contains`
      pattern finds its text inside a string field; any other condition is
      exact equality. */
  predicate FieldMatches(v: Value, condition: Value)
  {
    match condition
    case Contains(p) => v.Str? && Occurs(Text(p), v.s)
    case _ => v == condition
  }

  /** Whether a document satisfies a query object: every queried field is
      present and matches. A query that is not an object selects everything. */
  predicate Matches(doc: Fields, query: Value)
  {
    query.Obj? ==> forall k :: k in query.fields ==> k in doc && FieldMatches(doc[k], query.fields[k])
  }

  /** The documents of `docs` that match `query`, in order. */
  function Select(docs: seq<Fields>, query: Value): seq<Fields>
  {
    if docs == [] then []
    else if Matches(docs[0], query) then [docs[0]] + Select(docs[1..], query)
    else Select(docs[1..], query)
  }

  /** Selecting keeps exactly the matching documents, and no more of them
      than there were documents. */
  lemma {:induction false} SelectKeepsMatches(docs: seq<Fields>, query: Value)
    ensures |Select(docs, query)| <= |docs|
    ensures forall d :: d in Select(docs, query) <==> d in docs && Matches(d, query)
    decreases |docs|
  {
    if docs != [] {
      SelectKeepsMatches(docs[1..], query);
      assert forall d :: d in docs <==> d == docs[0] || d in docs[1..] by {
        assert docs == [docs[0]] + docs[1..];
      }
    }
  }

  /** The first document selected is the first match in `docs`. */
  lemma {:induction false} SelectStartsAtFirstMatch(docs: seq<Fields>, query: Value)
    ensures Select(docs, query) != [] ==>
      exists i :: 0 <= i < |docs| && docs[i] == Select(docs, query)[0] && Matches(docs[i], query)
                  && forall j :: 0 <= j < i ==> !Matches(docs[j], query)
    decreases |docs|
  {
    if docs != [] && !Matches(docs[0], query) {
      SelectStartsAtFirstMatch(docs[1..], query);
      var rest := Select(docs[1..], query);
      if rest != [] {
        var i :| 0 <= i < |docs[1..]| && docs[1..][i] == rest[0] && Matches(docs[1..][i], query)
                 && forall j :: 0 <= j < i ==> !Matches(docs[1..][j], query);
        assert docs[i + 1] == rest[0];
        forall j | 0 <= j < i + 1 ensures !Matches(docs[j], query) {
          if j > 0 { assert docs[j] == docs[1..][j - 1]; }
        }
      }
    }
  }

  /** `model.find(query)`: the matching documents in the store's order. */
  function Matching(s: Store, query: Value): seq<Fields>
  {
    Select(All(s), query)
  }

  /** The documents as the object values a query hands back. */
  function AsValues(docs: seq<Fields>): seq<Value>
  {
    if docs == [] then [] else [Obj(docs[0])] + AsValues(docs[1..])
  }

  lemma {:induction false} AsValuesWraps(docs: seq<Fields>)
    ensures |AsValues(docs)| == |docs|
    ensures forall i :: 0 <= i < |docs| ==> AsValues(docs)[i] == Obj(docs[i])
    decreases |docs|
  {
    if docs != [] {
      AsValuesWraps(docs[1..]);
      forall i | 0 <= i < |docs| ensures AsValues(docs)[i] == Obj(docs[i]) {
        if i > 0 { assert AsValues(docs)[i] == AsValues(docs[1..])[i - 1]; }
      }
    }
  }
}
