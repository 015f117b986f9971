/** The route methods `create`, `get`, `update`, `delete`, `clear`,
    `getAll`, `find`, `filter`, `pager` and `findOne`: the checks each makes
    on its arguments, then a run of the pipeline around its action. */
module Operations {
  import opened Values
  import opened Storage
  import opened Pipeline
  import opened Actions

  /** What a route's runs depend on besides their arguments: the api's
      listeners, the route's own listeners, and the route's name. */
  datatype Env = Env(api: Listeners, local: Listeners, name: string)

  /** What one call of a route method does: its trace, and the store after it. */
  datatype Result = Result(trace: Trace, store: Store)

  /** A call refused before `run` starts: `fail(message)` and nothing else. */
  function Rejected(message: string, s: Store): Result
  {
    Result(Trace([], Failed(message)), s)
  }

  /** The run entered the action phase (which is always its third phase). */
  predicate ActionRan(t: Trace)
  {
    |t.visits| > 2 && t.visits[2].phase == Act
  }

  /** The action body on store `s`, as the effect it has for each payload. */
  ghost function Behaviour(a: Action, s: Store, routeName: string): imap<Value, Effect>
  {
    imap d :: Perform(a, s, routeName, d)
  }

  ghost function ConfigFor(e: Env, s: Store, eventName: string, a: Action, user: Value): Config
  {
    Config(e.api, e.local, e.name, eventName, "before." + eventName, "after." + eventName, user, Behaviour(a, s, e.name))
  }

  /** `run(eventName, data, action, success, fail, user)` on store `s`: the
      store changes only through the action, and only when the run gets as
      far as the action. */
  ghost function Execute(e: Env, s: Store, eventName: string, data: Value, a: Action, user: Value): Result
  {
    var t := Run(ConfigFor(e, s, eventName, a, user), data);
    Result(t, if ActionRan(t) then Perform(a, s, e.name, t.visits[2].input).store else s)
  }

  /** Neither the api nor the route has a listener on the events emitted
      around the action of `eventName`. */
  predicate Quiet(e: Env, eventName: string)
  {
    && ListenersFor(e.api, "before." + eventName) == [] && ListenersFor(e.local, "before." + eventName) == []
    && ListenersFor(e.api, "after." + eventName) == [] && ListenersFor(e.local, "after." + eventName) == []
  }

  /** The configuration of a call runs the action body on the store the
      call started from, whatever the payload. */
  lemma ConfigForActs(e: Env, s: Store, eventName: string, a: Action, user: Value)
    ensures var c := ConfigFor(e, s, eventName, a, user);
      && c.api == e.api && c.local == e.local && c.routeName == e.name
      && c.eventName == eventName && c.user == user
      && c.beforeEvent == "before." + eventName && c.afterEvent == "after." + eventName
      && (forall d :: d in c.action)
      && (forall d {:trigger Perform(a, s, e.name, d)} :: c.action[d] == Perform(a, s, e.name, d))
  {
  }

  /** A call that passes the user guard and the read of `data.uuid` is the
      chain of phases, and the store is the one the action left, if it ran. */
  lemma ExecuteDrives(e: Env, s: Store, eventName: string, data: Value, a: Action, user: Value)
    requires Truthy(user) && !data.Null? && !data.Undefined?
    ensures var c := ConfigFor(e, s, eventName, a, user);
      var t := Drive(c, Field(data, "uuid"), 0, data);
      Execute(e, s, eventName, data, a, user)
        == Result(t, if |t.visits| > 2 then c.action[t.visits[2].input].store else s)
  {
    var c := ConfigFor(e, s, eventName, a, user);
    DriveFollowsPhases(c, Field(data, "uuid"), 0, data);
  }

  /** Whatever the listeners do, a call keeps the collection well formed,
      and a run that never reaches the action leaves it as it was. */
  lemma ExecuteKeepsStoreValid(e: Env, s: Store, eventName: string, data: Value, a: Action, user: Value)
    requires Valid(s)
    ensures var r := Execute(e, s, eventName, data, a, user);
      && Valid(r.store)
      && (!ActionRan(r.trace) ==> r.store == s)
  {
    var t := Run(ConfigFor(e, s, eventName, a, user), data);
    if ActionRan(t) {
      PerformKeepsStoreValid(a, s, e.name, t.visits[2].input);
    }
  }

  /** `route.create(item, success, fail, user)`: a falsy item becomes `{}`. */
  ghost function Create(e: Env, s: Store, item: Value, user: Value, now: Value): (r: Result)
    ensures !Truthy(item) ==> r.trace == Run(ConfigFor(e, s, "create", CreateDoc(now), user), Obj(map[]))
  {
    Execute(e, s, "create", if Truthy(item) then item else Obj(map[]), CreateDoc(now), user)
  }

  /** `if(!item) item = {}`: creating a falsy item is in every respect,
      trace and collection alike, creating the empty object. */
  lemma CreateOfFalsyItemIsCreateOfEmpty(e: Env, s: Store, item: Value, user: Value, now: Value)
    requires !Truthy(item)
    ensures Create(e, s, item, user, now) == Create(e, s, Obj(map[]), user, now)
  {
  }

  const GetWithoutId := "id parameter is missing for route.get"
  const UpdateWithoutItem := "item is missing for route.update"
  const UpdateWithoutId := "item._id is missing for route.update"
  const DeleteWithoutId := "item._id is missing for route.delete"

  /** `route.get(id, success, fail, user)`: a falsy id fails before the run,
      whoever the user. */
  ghost function Get(e: Env, s: Store, id: Value, user: Value): (r: Result)
    ensures !Truthy(id) ==> r == Rejected(GetWithoutId, s)
    ensures r.store == s
  {
    if !Truthy(id) then Rejected(GetWithoutId, s) else Execute(e, s, "get", id, GetDoc(id), user)
  }

  /** `route.update(item, success, fail, user)`: a falsy item, or an item
      without a truthy `_id`, fails before the run, whoever the user. */
  ghost function Update(e: Env, s: Store, item: Value, user: Value): (r: Result)
    ensures !Truthy(item) ==> r == Rejected(UpdateWithoutItem, s)
    ensures Truthy(item) && !Truthy(Field(item, "_id")) ==> r == Rejected(UpdateWithoutId, s)
  {
    if !Truthy(item) then Rejected(UpdateWithoutItem, s)
    else
      var id := Field(item, "_id");
      if !Truthy(id) then Rejected(UpdateWithoutId, s)
      else Execute(e, s, "update", item, UpdateDoc(OwnProperties(item), id), user)
  }

  /** `route.delete(id, success, fail, user)`: a falsy id fails before the run. */
  ghost function Delete(e: Env, s: Store, id: Value, user: Value): (r: Result)
    ensures !Truthy(id) ==> r == Rejected(DeleteWithoutId, s)
  {
    if !Truthy(id) then Rejected(DeleteWithoutId, s) else Execute(e, s, "delete", id, DeleteDoc(id), user)
  }

  /** `route.clear(success, fail, user)`: removes every document. */
  ghost function Clear(e: Env, s: Store, user: Value): (r: Result)
    ensures ActionRan(r.trace) ==> r.store == Empty
  {
    Execute(e, s, "clear", Str(e.name), ClearAll, user)
  }

  /** `route.getAll(success, fail, user)`. */
  ghost function GetAll(e: Env, s: Store, user: Value): (r: Result)
    ensures r.store == s
  {
    Execute(e, s, "getAll", Str(e.name), ListAll, user)
  }

  /** `route.find(object, success, fail, user)`. */
  ghost function Find(e: Env, s: Store, query: Value, user: Value): (r: Result)
    ensures r.store == s
  {
    Execute(e, s, "find", query, FindDocs(query), user)
  }

  /** `route.filter(options, success, fail, user)`: no check before the run. */
  ghost function Filter(e: Env, s: Store, options: Value, user: Value): (r: Result)
    ensures r.store == s
  {
    Execute(e, s, "filter", options, FilterDocs(options), user)
  }

  /** `route.pager(page, length, success, fail, user)`. */
  ghost function Pager(e: Env, s: Store, page: Value, length: Value, user: Value): (r: Result)
    ensures r.store == s
  {
    Execute(e, s, "pager", Str(e.name), PageDocs(page, length), user)
  }

  /** `route.findOne(obj, success, fail, user)`. */
  ghost function FindOne(e: Env, s: Store, query: Value, user: Value): (r: Result)
    ensures r.store == s
  {
    Execute(e, s, "findOne", query, FindFirst(query), user)
  }

  /** An update that gets as far as its action writes the merge of the
      item captured by `update` onto the stored record under `item._id` and
      leaves every other document alone, whatever the before-listeners put
      in `event.data`; a before-listener that stops the run leaves the store
      untouched. */
  lemma UpdateWritesMergeOfTheItem(e: Env, s: Store, item: Value, user: Value)
    requires Truthy(item) && Truthy(Field(item, "_id"))
    ensures var r := Update(e, s, item, user);
      var id := Field(item, "_id");
      && (ActionRan(r.trace) && id in s.docs ==>
            r.store.docs == s.docs[id := Merged(s.docs[id], OwnProperties(item))])
      && (ActionRan(r.trace) && id !in s.docs ==>
            r.store == s && r.trace.ending == Failed(NotFound(e.name, id)))
      && (!ActionRan(r.trace) ==> r.store == s)
  {
    var id := Field(item, "_id");
    var a := UpdateDoc(OwnProperties(item), id);
    var c := ConfigFor(e, s, "update", a, user);
    var t := Run(c, item);
    assert Update(e, s, item, user) == Execute(e, s, "update", item, a, user);
    if ActionRan(t) {
      if id in s.docs {
        assert Perform(a, s, e.name, t.visits[2].input).store == Put(s, id, Merged(s.docs[id], OwnProperties(item)));
      } else {
        var m := NotFound(e.name, id);
        forall d ensures Acted(c, d) == Fail(m) {
          assert Perform(a, s, e.name, d).outcome == Fail(m);
        }
        FailingActionEndsTheRun(c, item, m);
      }
    }
  }

  /** A `get` that gets as far as its action looks up what the
      before-listeners left in `event.data`: when a document is stored under
      it, the run goes on to the route's `after` phase with that document
      (and the caller's token, if any); otherwise the run ends in the action
      with "cannot find <name> with id <id>", naming the id `get` was
      called with. */
  lemma GetFindsOrFails(e: Env, s: Store, id: Value, user: Value)
    requires Truthy(id)
    ensures var t := Get(e, s, id, user).trace;
      ActionRan(t) ==>
        var key := t.visits[2].input;
        && (key in s.docs ==>
              && |t.visits| > 3 && t.visits[3].phase == RouteAfter
              && Next(t.visits[3].input) == Attach(Next(Obj(s.docs[key])), Field(id, "uuid")))
        && (key !in s.docs ==>
              && PhasesOf(t.visits) == [ApiBefore, RouteBefore, Act]
              && t.ending == Failed(NotFound(e.name, id)))
  {
    var a := GetDoc(id);
    var c := ConfigFor(e, s, "get", a, user);
    assert Get(e, s, id, user).trace == Run(c, id);
    if Truthy(user) && !id.Null? && !id.Undefined? {
      var t := Run(c, id);
      ActionDecidesTheRest(c, id);
      if |t.visits| > 2 {
        var key := t.visits[2].input;
        if key in s.docs {
          assert Acted(c, key) == Next(Obj(s.docs[key]));
        } else {
          assert Acted(c, key) == Fail(NotFound(e.name, id));
        }
      }
    }
  }

  /** A filter without a query fails only inside its action: never with
      success, and once it reaches the action it ends there with the
      missing-query message. */
  lemma FilterWithoutQueryFailsInTheAction(e: Env, s: Store, options: Value, user: Value)
    requires !Truthy(Field(options, "query"))
    ensures var t := Filter(e, s, options, user).trace;
      && !t.ending.Succeeded?
      && (ActionRan(t) ==>
            PhasesOf(t.visits) == [ApiBefore, RouteBefore, Act] && t.ending == Failed(FilterNeedsQuery))
  {
    var c := ConfigFor(e, s, "filter", FilterDocs(options), user);
    assert Filter(e, s, options, user).trace == Run(c, options);
    forall d ensures Acted(c, d) == Fail(FilterNeedsQuery) {
      assert Perform(FilterDocs(options), s, e.name, d).outcome == Fail(FilterNeedsQuery);
    }
    FailingActionEndsTheRun(c, options, FilterNeedsQuery);
  }

  /** When neither emitter listens to `before.filter` or `after.filter`, a
      filter without a query by a user enters exactly the two before phases
      and the action, and fails with the missing-query message. */
  lemma UnlistenedFilterWithoutQueryFails(e: Env, s: Store, options: Value, user: Value)
    requires !Truthy(Field(options, "query"))
    requires Truthy(user) && !options.Null? && !options.Undefined?
    requires Quiet(e, "filter")
    ensures Filter(e, s, options, user).trace
              == Trace([Visit(ApiBefore, options), Visit(RouteBefore, options), Visit(Act, options)],
                       Failed(FilterNeedsQuery))
  {
    var c := ConfigFor(e, s, "filter", FilterDocs(options), user);
    assert Filter(e, s, options, user).trace == Run(c, options);
    ConfigForActs(e, s, "filter", FilterDocs(options), user);
    UnlistenedRunIsTheAction(c, options);
    assert Acted(c, options) == Fail(FilterNeedsQuery);
  }

  /** A delete that gets as far as its action removes the document under
      `id`, if there is one, and no other; a missing id leaves the documents
      as they were. */
  lemma DeleteRemovesOnlyThatId(e: Env, s: Store, id: Value, user: Value)
    requires Truthy(id)
    ensures var r := Delete(e, s, id, user);
      && (ActionRan(r.trace) ==> r.store.docs == s.docs - {id})
      && (!ActionRan(r.trace) ==> r.store == s)
      && (id !in s.docs ==> r.store.docs == s.docs)
  {
    var a := DeleteDoc(id);
    assert Delete(e, s, id, user) == Execute(e, s, "delete", id, a, user);
    var t := Run(ConfigFor(e, s, "delete", a, user), id);
    if ActionRan(t) {
      assert Perform(a, s, e.name, t.visits[2].input).store == Remove(s, id);
    }
  }

  /** `delete` with an id that gets as far as its action acknowledges with
      `{_id: id, ok: 1}` whether or not a document had that id. */
  lemma DeleteAcknowledgesMissingDocuments(e: Env, s: Store, id: Value, user: Value)
    requires Truthy(id) && Truthy(user) && id !in s.docs
    requires Quiet(e, "delete")
    ensures var ending := Delete(e, s, id, user).trace.ending;
      && ending.Succeeded? && ending.data.Obj?
      && Field(ending.data, "_id") == id && Field(ending.data, "ok") == Num(1)
  {
    var c := ConfigFor(e, s, "delete", DeleteDoc(id), user);
    ConfigForActs(e, s, "delete", DeleteDoc(id), user);
    UnlistenedRunIsTheAction(c, id);
    var acked := Next(Obj(map["_id" := id, "ok" := Num(1)]));
    assert Acted(c, id) == acked;
    AttachSetsTheToken(acked, Field(id, "uuid"));
    assert Delete(e, s, id, user).trace == Run(c, id);
  }
}
