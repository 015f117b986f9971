/** The action bodies of a route (the functions each route method hands to
    `run`), over the abstract store of its model. */
module Actions {
  import opened Values
  import opened Storage
  import Patterns

  /** How an action body, or a listener, ends: it calls `next` after leaving
      `data` in `event.data`, it calls `fail(message)`, it never calls back,
      or it throws (for instance a TypeError). */
  datatype Outcome = Next(data: Value) | Fail(message: string) | Stall | Throw

  /** One action, with what it captured from the route method's arguments.
      `CreateDoc.now` stands for `new Date()`. */
  datatype Action =
    | CreateDoc(now: Value)
    | GetDoc(id: Value)
    | UpdateDoc(item: Fields, id: Value)
    | DeleteDoc(id: Value)
    | ClearAll
    | ListAll
    | FindDocs(query: Value)
    | FilterDocs(options: Value)
    | PageDocs(page: Value, length: Value)
    | FindFirst(query: Value)

  /** What an action does: how it ends (after setting `event.data` when it
      calls `next`) and the store it leaves behind. */
  datatype Effect = Effect(outcome: Outcome, store: Store)

  /** The error the store reports when a new document reuses an `_id`. */
  const DuplicateKey := "E11000 duplicate key error"

  const FilterNeedsQuery := "filter on route requires a query object"

  function NotFound(routeName: string, id: Value): string
  {
    "cannot find " + routeName + " with id " + Text(id)
  }

  /** `for (var m in item) dbItem[m] = item[m]`: every field of the item
      overwrites the stored one; fields the item lacks keep their value. */
  function Merged(stored: Fields, item: Fields): Fields
  {
    stored + item
  }

  /** `new RegExp('.*' + v + '.*')` returns a pattern: the source built
      from `String(v)` is a well-formed regular expression. */
  predicate PatternCompiles(v: Value)
  {
    Patterns.Compiles(Patterns.Surrounded(Text(v)))
  }

  /** The rewrite loop of a non-strict filter throws a SyntaxError: it
      visits a value whose pattern `new RegExp` refuses. The loop visits
      the fields of an object query and the characters of a string query
      (whose assignments back into the string are ignored); it visits
      nothing of a number or a boolean. */
  predicate RewriteThrows(options: Value)
  {
    && !Truthy(Field(options, "strict"))
    && match Field(options, "query")
       case Obj(f) => exists k :: k in f && !PatternCompiles(f[k])
       case Str(t) => exists i :: 0 <= i < |t| && !PatternCompiles(Str([t[i]]))
       case _ => false
  }

  /** A non-strict filter's query: every field `v` becomes the pattern
      `'.*' + v + '.*'`, whatever the type of `v`. */
  function AsContains(query: Fields): Fields
  {
    map k | k in query :: Contains(query[k])
  }

  /** The query a filter runs: rewritten to patterns unless `strict` is set. */
  function FilterQuery(options: Value): Value
  {
    var query := Field(options, "query");
    if !Truthy(Field(options, "strict")) && query.Obj? then Obj(AsContains(query.fields)) else query
  }

  /** A filter runs its query as given when `strict` is truthy or the query
      is not an object; otherwise it runs the same fields, each turned into
      a substring pattern of its value. */
  lemma FilterQueryRewritesUnlessStrict(options: Value)
    ensures var query := Field(options, "query");
      var q := FilterQuery(options);
      && (Truthy(Field(options, "strict")) || !query.Obj? ==> q == query)
      && (!Truthy(Field(options, "strict")) && query.Obj? ==>
            q.Obj? && q.fields.Keys == query.fields.Keys
            && forall k :: k in query.fields ==> q.fields[k] == Contains(query.fields[k]))
  {
  }

  /** `new model(data)` stamped with `createDate`: the data's fields, and the
      data's `_id` when it has one, else the id the store generates. */
  function NewDocument(s: Store, data: Value, now: Value): Fields
  {
    var f := if data.Obj? then data.fields else map[];
    var id := if "_id" in f && f["_id"] != Undefined then f["_id"] else FreshId(s);
    f["createDate" := now]["_id" := id]
  }

  /** The new document keeps every field of the data, carries `createDate`,
      and takes the data's `_id` when it has one, else a generated id. */
  lemma NewDocumentFields(s: Store, data: Value, now: Value)
    ensures var doc := NewDocument(s, data, now);
      var f := if data.Obj? then data.fields else map[];
      && "_id" in doc && "createDate" in doc && doc["createDate"] == now
      && doc.Keys == f.Keys + {"_id", "createDate"}
      && (forall k :: k in f && k != "_id" && k != "createDate" ==> doc[k] == f[k])
      && ("_id" in f && f["_id"] != Undefined ==> doc["_id"] == f["_id"])
      && (!("_id" in f && f["_id"] != Undefined) ==> doc["_id"] == FreshId(s))
  {
  }

  /** `{count, items}`: the number of matches, and the matches themselves,
      paged only when both `page` and `length` are truthy. */
  function FilterResult(options: Value, matches: seq<Fields>): Value
  {
    var page := Field(options, "page");
    var length := Field(options, "length");
    var items := if Truthy(page) && Truthy(length) then Page(AsValues(matches), page, length, map[])
                 else Arr(AsValues(matches), map[]);
    Obj(map["count" := Num(|matches|), "items" := items])
  }

  /** The action `a` of route `routeName` run on store `s` with `event.data`
      equal to `d`. Only `create` and `get` read `event.data`; the other
      actions use the arguments their route method captured. */
  function Perform(a: Action, s: Store, routeName: string, d: Value): (e: Effect)
    ensures e.outcome.Next? || e.outcome.Fail? || (a.FilterDocs? && e.outcome.Throw?)
    ensures !e.outcome.Next? ==> e.store == s
  {
    match a
    case CreateDoc(now) =>
      var doc := NewDocument(s, d, now);
      if doc["_id"] in s.docs then Effect(Fail(DuplicateKey), s)
      else Effect(Next(Obj(doc)), Put(s, doc["_id"], doc))
    case GetDoc(id) =>
      if d in s.docs then Effect(Next(Obj(s.docs[d])), s) else Effect(Fail(NotFound(routeName, id)), s)
    case UpdateDoc(item, id) =>
      if id in s.docs then
        var merged := Merged(s.docs[id], item);
        Effect(Next(Obj(merged)), Put(s, id, merged))
      else Effect(Fail(NotFound(routeName, id)), s)
    case DeleteDoc(id) =>
      Effect(Next(Obj(map["_id" := id, "ok" := Num(1)])), Remove(s, id))
    case ClearAll =>
      Effect(Next(Num(|s.order|)), Empty)
    case ListAll =>
      Effect(Next(Arr(AsValues(All(s)), map[])), s)
    case FindDocs(query) =>
      Effect(Next(Arr(AsValues(Matching(s, query)), map[])), s)
    case FilterDocs(options) =>
      if !Truthy(Field(options, "query")) then Effect(Fail(FilterNeedsQuery), s)
      else if RewriteThrows(options) then Effect(Throw, s)
      else Effect(Next(FilterResult(options, Matching(s, FilterQuery(options)))), s)
    case PageDocs(page, length) =>
      Effect(Next(Page(AsValues(All(s)), page, length, map[])), s)
    case FindFirst(query) =>
      var matches := Matching(s, query);
      Effect(Next(if matches == [] then Null else Obj(matches[0])), s)
  }

  /** Every action keeps the store well formed: a new document gets an id
      not yet in use, a save keeps the order, a removal drops the id. */
  lemma PerformKeepsStoreValid(a: Action, s: Store, routeName: string, d: Value)
    requires Valid(s)
    ensures Valid(Perform(a, s, routeName, d).store)
  {
    match a
    case CreateDoc(now) =>
      var doc := NewDocument(s, d, now);
      PutKeepsValid(s, doc["_id"], doc);
    case UpdateDoc(item, id) =>
      if id in s.docs { PutKeepsValid(s, id, Merged(s.docs[id], item)); }
    case DeleteDoc(id) =>
      RemoveKeepsValid(s, id);
    case _ =>
  }

  /** A new document never silently overwrites a stored one: without an
      `_id` of its own it gets a fresh id, and with a used `_id` the insert
      fails and the store is unchanged. */
  lemma CreateNeverOverwrites(s: Store, d: Value, now: Value)
    requires Valid(s)
    ensures var e := Perform(CreateDoc(now), s, "", d);
      var doc := NewDocument(s, d, now);
      && (doc["_id"] in s.docs <==> e.outcome.Fail?)
      && (e.outcome.Next? ==> e.store.docs == s.docs[doc["_id"] := doc] && doc["_id"] !in s.docs)
      && ((!d.Obj? || "_id" !in d.fields || d.fields["_id"] == Undefined) ==> e.outcome == Next(Obj(doc)))
  {
    var doc := NewDocument(s, d, now);
    NewDocumentFields(s, d, now);
    FreshIdIsUnused(s);
    if doc["_id"] !in s.docs {
      PutKeepsValid(s, doc["_id"], doc);
    }
  }

  /** `update` merges the item captured by `update` onto the stored record:
      every field of the item overwrites the stored field, every other
      stored field and every other document is unchanged; a missing record
      fails with a not-found message. What `event.data` holds when the
      action runs plays no part. */
  lemma UpdateMergesOntoStoredRecord(item: Fields, id: Value, s: Store, routeName: string, d: Value)
    ensures var e := Perform(UpdateDoc(item, id), s, routeName, d);
      && (id !in s.docs ==> e == Effect(Fail(NotFound(routeName, id)), s))
      && (id in s.docs ==>
            && e.outcome.Next? && e.outcome.data.Obj?
            && var updated := e.outcome.data.fields;
            && e.store.docs.Keys == s.docs.Keys
            && e.store.docs[id] == updated
            && (forall k :: k in item ==> updated[k] == item[k])
            && (forall k :: k in s.docs[id] && k !in item ==> updated[k] == s.docs[id][k])
            && (forall other :: other in s.docs && other != id ==> e.store.docs[other] == s.docs[other]))
  {
  }

  /** The callbacks the update action as written (Route.js:120-129)
      makes, in order, when it ends: with no record under `id`, `fail` is
      called without a `return`, so the body goes on and the first
      `dbItem[m] = ...`, or `dbItem.save` for an item without properties,
      throws a TypeError on the missing record. With a record it behaves
      as `Perform` says. */
  function UpdateCallbacksAsWritten(item: Fields, id: Value, s: Store, routeName: string): seq<Outcome>
  {
    if id in s.docs then [Next(Obj(Merged(s.docs[id], item)))]
    else [Fail(NotFound(routeName, id)), Throw]
  }

  /** As written, an update of a missing record reports the failure and
      then throws; the corrected action, `Perform`, stops at the failure,
      and with a record the two agree. */
  lemma UpdateAsWrittenThrowsAfterFailing(item: Fields, id: Value, s: Store, routeName: string, d: Value)
    ensures id !in s.docs ==>
      && UpdateCallbacksAsWritten(item, id, s, routeName) == [Fail(NotFound(routeName, id)), Throw]
      && Perform(UpdateDoc(item, id), s, routeName, d).outcome == Fail(NotFound(routeName, id))
    ensures id in s.docs ==>
      UpdateCallbacksAsWritten(item, id, s, routeName) == [Perform(UpdateDoc(item, id), s, routeName, d).outcome]
  {
  }

  /** `delete` acknowledges with `{_id: id, ok: 1}` whether or not a
      document had that id, and no document with that id is left. */
  lemma DeleteAcknowledgesAnyId(id: Value, s: Store, routeName: string, d: Value)
    ensures var e := Perform(DeleteDoc(id), s, routeName, d);
      && e.outcome == Next(Obj(map["_id" := id, "ok" := Num(1)]))
      && id !in e.store.docs
      && (forall other :: other in s.docs && other != id ==> other in e.store.docs && e.store.docs[other] == s.docs[other])
  {
  }

  /** `filter` fails inside the action when the options carry no query,
      and throws, with the collection unchanged, when its rewrite loop
      meets a value whose pattern does not compile; otherwise `count` is
      the number of matches of the (possibly rewritten) query and `items`
      lists exactly those matches, as a page when both `page` and `length`
      are truthy. */
  lemma FilterCountsAndLists(options: Value, s: Store, routeName: string, d: Value)
    ensures var e := Perform(FilterDocs(options), s, routeName, d);
      && (!Truthy(Field(options, "query")) ==> e == Effect(Fail(FilterNeedsQuery), s))
      && (Truthy(Field(options, "query")) && RewriteThrows(options) ==> e == Effect(Throw, s))
      && (Truthy(Field(options, "query")) && !RewriteThrows(options) ==>
            var matches := Matching(s, FilterQuery(options));
            && e.store == s
            && e.outcome.Next? && e.outcome.data.Obj?
            && e.outcome.data.fields.Keys == {"count", "items"}
            && e.outcome.data.fields["count"] == Num(|matches|)
            && var items := e.outcome.data.fields["items"];
            && (Truthy(Field(options, "page")) && Truthy(Field(options, "length")) ==> items.Page?)
            && (!(Truthy(Field(options, "page")) && Truthy(Field(options, "length"))) ==> items.Arr?)
            && var listed := if items.Page? then items.entries else items.items;
            && |listed| == |matches|
            && forall doc :: Obj(doc) in listed <==> doc in All(s) && Matches(doc, FilterQuery(options)))
  {
    if Truthy(Field(options, "query")) && !RewriteThrows(options) {
      var matches := Matching(s, FilterQuery(options));
      assert Perform(FilterDocs(options), s, routeName, d) == Effect(Next(FilterResult(options, matches)), s);
      var listed := AsValues(matches);
      SelectKeepsMatches(All(s), FilterQuery(options));
      AsValuesWraps(matches);
      forall doc ensures Obj(doc) in listed <==> doc in matches {
        if doc in matches {
          var i :| 0 <= i < |matches| && matches[i] == doc;
          assert listed[i] == Obj(doc);
        }
      }
    }
  }

  /** The substring filter of a non-strict query: `{name: "Al"}` selects
      "Alice" and "Albert" but not "Bob". */
  lemma ContainsPatternSelectsSubstrings()
    ensures var q := Obj(AsContains(map["name" := Str("Al")]));
      && Matches(map["name" := Str("Alice")], q)
      && Matches(map["name" := Str("Albert")], q)
      && !Matches(map["name" := Str("Bob")], q)
  {
    var q := Obj(AsContains(map["name" := Str("Al")]));
    assert q.fields == map["name" := Contains(Str("Al"))];
    assert Occurs("Al", "Alice") by { assert "Al" <= "Alice"; }
    assert Occurs("Al", "Albert") by { assert "Al" <= "Albert"; }
    assert !Occurs("Al", "Bob") by {
      assert "Bob"[1..] == "ob" && "ob"[1..] == "b" && "b"[1..] == "";
      assert "Bob"[0] != "Al"[0] && "ob"[0] != "Al"[0] && "b"[0] != "Al"[0];
      assert !Occurs("Al", "");
      assert !Occurs("Al", "b");
      assert !Occurs("Al", "ob");
    }
    assert Text(Str("Al")) == "Al";
    assert !FieldMatches(Str("Bob"), q.fields["name"]);
  }

  /** A non-strict filter throws, with the collection unchanged, as soon
      as one value of its object query has a pattern that does not
      compile. */
  lemma FilterThrowsOnField(query: Fields, k: string, s: Store, routeName: string, d: Value)
    requires k in query && !PatternCompiles(query[k])
    ensures Perform(FilterDocs(Obj(map["query" := Obj(query)])), s, routeName, d) == Effect(Throw, s)
  {
    var options := Obj(map["query" := Obj(query)]);
    assert Field(options, "query") == Obj(query) && Field(options, "strict") == Undefined;
    assert RewriteThrows(options);
  }

  /** A non-strict filter throws, with the collection unchanged, on an
      ordinary phone number `{phone: "+1 555"}` (`.*+1 555.*` repeats the
      `*` quantifier) and on `{name: "(a"}` (an unterminated group). */
  lemma FilterThrowsOnPatternSyntax(s: Store, routeName: string, d: Value)
    ensures Perform(FilterDocs(Obj(map["query" := Obj(map["phone" := Str("+1 555")])])), s, routeName, d)
            == Effect(Throw, s)
    ensures Perform(FilterDocs(Obj(map["query" := Obj(map["name" := Str("(a")])])), s, routeName, d)
            == Effect(Throw, s)
  {
    assert Text(Str("+1 555")) == ['+'] + "1 555";
    Patterns.LeadingRepeatFails('+', "1 555");
    FilterThrowsOnField(map["phone" := Str("+1 555")], "phone", s, routeName, d);
    assert Text(Str("(a")) == "(" + "a";
    assert Patterns.Plain('a');
    Patterns.UnclosedGroupFails("a");
    FilterThrowsOnField(map["name" := Str("(a")], "name", s, routeName, d);
  }

  /** A non-strict filter on a string query throws exactly when the string
      holds one of `(`, `)`, `[`, `*` and `+`: the rewrite loop visits
      its characters one by one. */
  lemma StringQueryThrowsOnSpecialCharacters(options: Value, t: string)
    requires Field(options, "query") == Str(t) && !Truthy(Field(options, "strict"))
    ensures RewriteThrows(options) <==> exists i :: 0 <= i < |t| && t[i] in "()[*+"
  {
    forall i | 0 <= i < |t|
      ensures PatternCompiles(Str([t[i]])) <==> t[i] !in "()[*+"
    {
      Patterns.SingleCharacterPatterns(t[i]);
    }
  }

  /** A filter whose query values are all strings of ordinary characters
      (none of `\ ^ $ | ? * + ( ) [ {`) never throws, strict or not. */
  lemma FilterOfPlainTextNeverThrows(options: Value)
    requires Field(options, "query").Obj?
    requires forall k :: k in Field(options, "query").fields ==>
      && Field(options, "query").fields[k].Str?
      && forall i :: 0 <= i < |Field(options, "query").fields[k].s| ==> Patterns.Plain(Field(options, "query").fields[k].s[i])
    ensures !RewriteThrows(options)
  {
    var f := Field(options, "query").fields;
    forall k | k in f ensures PatternCompiles(f[k]) {
      Patterns.PlainPatternCompiles(f[k].s);
    }
  }

  /** `pager` hands on a page object of every stored document, once each,
      tagged with the page and length it was asked for, and leaves the
      collection unchanged. */
  lemma PagerListsEveryDocument(page: Value, length: Value, s: Store, routeName: string, d: Value)
    requires Valid(s)
    ensures var e := Perform(PageDocs(page, length), s, routeName, d);
      && e.store == s
      && e.outcome.Next? && e.outcome.data.Page?
      && e.outcome.data.page == page && e.outcome.data.length == length
      && e.outcome.data.props == map[]
      && |e.outcome.data.entries| == |s.docs|
      && (forall k :: k in s.docs ==> Obj(s.docs[k]) in e.outcome.data.entries)
      && (forall v :: v in e.outcome.data.entries ==> v.Obj? && v.fields in s.docs.Values)
  {
    var docs := All(s);
    var entries := AsValues(docs);
    AllListsEveryDocument(s);
    AsValuesWraps(docs);
    forall k | k in s.docs ensures Obj(s.docs[k]) in entries {
      var i :| 0 <= i < |docs| && docs[i] == s.docs[k];
      assert entries[i] == Obj(s.docs[k]);
    }
    forall v | v in entries ensures v.Obj? && v.fields in s.docs.Values {
      var i :| 0 <= i < |entries| && entries[i] == v;
      assert docs[i] in docs;
    }
  }

  /** `findOne` hands back the first matching document in store order, or
      `null` when nothing matches, which is not an error. */
  lemma FindFirstIsFirstMatch(query: Value, s: Store, routeName: string, d: Value)
    ensures var e := Perform(FindFirst(query), s, routeName, d);
      var docs := All(s);
      && e.store == s
      && ((forall doc :: doc in docs ==> !Matches(doc, query)) <==> e.outcome == Next(Null))
      && (e.outcome != Next(Null) ==>
            exists i :: 0 <= i < |docs| && e.outcome == Next(Obj(docs[i])) && Matches(docs[i], query)
                        && forall j :: 0 <= j < i ==> !Matches(docs[j], query))
  {
    var docs := All(s);
    var matches := Matching(s, query);
    SelectKeepsMatches(docs, query);
    SelectStartsAtFirstMatch(docs, query);
    if matches != [] {
      assert matches[0] in matches;
    }
  }
}
