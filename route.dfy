/** The objects `module.exports(name, router, schema, api)` builds and
    mutates: the registry of models shared by every route, the emitters that
    hold listeners, the event object a run hands along, the records the
    update and filter actions rewrite field by field, and the route object
    whose methods run the pipeline around their actions. Each method is
    proved to do exactly what the function of the same name in `Operations`
    (or `Actions`, `Pipeline`) describes. */
module Route {
  import opened Values
  import opened Storage
  import opened Pipeline
  import opened Actions
  import Operations

  /** Entering phase `i` with payload `d` with outcome `o`: the run is that
      visit followed by the rest of the run when `o` calls `next`, or that
      visit alone when it does not. */
  lemma PhaseThen(c: Config, uuid: Value, i: nat, d: Value, o: Outcome, rest: Trace)
    requires i < |Phases|
    requires o == StepAt(c, uuid, Phases[i], d)
    requires o.Next? ==> rest == Drive(c, uuid, i + 1, o.data)
    ensures Drive(c, uuid, i, d) == if o.Next? then Trace([Visit(Phases[i], d)] + rest.visits, rest.ending)
                                    else Trace([Visit(Phases[i], d)], Halt(o))
  {
  }

  /** An event emitter: its listeners by event name, in registration order. */
  class Emitter {
    var listeners: Listeners

    constructor()
      ensures listeners == map[]
    {
      listeners := map[];
    }

    /** `on(eventName, listener)`: adds the listener after those already
        registered for that name. */
    method On(eventName: string, h: Hook)
      modifies this
      ensures listeners == old(listeners)[eventName := ListenersFor(old(listeners), eventName) + [h]]
      ensures |ListenersFor(listeners, eventName)| == |ListenersFor(old(listeners), eventName)| + 1
      ensures forall other :: other != eventName ==> ListenersFor(listeners, other) == ListenersFor(old(listeners), other)
    {
      listeners := listeners[eventName := ListenersFor(listeners, eventName) + [h]];
    }
  }

  /** The model a route is built on: the collection it reads and writes. */
  class Model {
    var store: Store

    constructor(collection: Store)
      ensures store == collection
    {
      store := collection;
    }
  }

  /** The event object of one run: `data` is what the next phase gets. */
  class Event {
    var data: Value
    const name: string
    const action: string
    const user: Value

    constructor(data: Value, name: string, action: string, user: Value)
      ensures this.data == data && this.name == name && this.action == action && this.user == user
    {
      this.data := data;
      this.name := name;
      this.action := action;
      this.user := user;
    }

    /** `if(uuid) event.data.uuid = uuid` once the phase before handed on
        `o`: the token is set on an object, an array or a page object,
        ignored on a boolean, number or string, and setting it on `null` or
        `undefined` throws. */
    method CopyToken(o: Outcome, uuid: Value) returns (r: Outcome)
      requires o.Next? ==> data == o.data
      modifies this
      ensures r == Attach(o, uuid)
      ensures r.Next? ==> data == r.data
      ensures !o.Next? ==> data == old(data)
      ensures r.Throw? ==> data == old(data)
    {
      r := o;
      if o.Next? && Truthy(uuid) {
        if data.Null? || data.Undefined? {
          r := Throw;
        } else if data.Obj? {
          data := Obj(data.fields["uuid" := uuid]);
          r := Next(data);
        } else if data.Arr? {
          data := Arr(data.items, data.props["uuid" := uuid]);
          r := Next(data);
        } else if data.Page? {
          data := Page(data.entries, data.page, data.length, data.props["uuid" := uuid]);
          r := Next(data);
        }
      }
    }

    /** The event as a listener sees it. */
    function View(): EventView
      reads this
    {
      EventView(data, name, action, user)
    }
  }

  /** An object whose properties an action rewrites one by one: the record
      loaded for an update, or the query object of a filter. */
  class Record {
    var fields: Fields

    constructor(fields: Fields)
      ensures this.fields == fields
    {
      this.fields := fields;
    }

    /** `for (var m in item) dbItem[m] = item[m]`. */
    method Assign(item: Fields)
      modifies this
      ensures fields == Merged(old(fields), item)
    {
      var pending := item.Keys;
      while pending != {}
        invariant pending <= item.Keys
        invariant fields.Keys == old(fields).Keys + (item.Keys - pending)
        invariant forall k :: k in item && k !in pending ==> fields[k] == item[k]
        invariant forall k :: k in old(fields) && (k !in item || k in pending) ==> fields[k] == old(fields)[k]
        decreases pending
      {
        var m :| m in pending;
        fields := fields[m := item[m]];
        pending := pending - {m};
      }
    }

    /** `for (var m in options.query) options.query[m] = new RegExp('.*' +
        options.query[m] + '.*')`: every value becomes its pattern, and the
        first value whose pattern does not compile throws a SyntaxError,
        leaving the values visited so far rewritten and the rest as they
        were. */
    method MakePatterns() returns (compiled: bool)
      modifies this
      ensures compiled <==> forall k :: k in old(fields) ==> PatternCompiles(old(fields)[k])
      ensures compiled ==> fields == AsContains(old(fields))
      ensures fields.Keys == old(fields).Keys
      ensures forall k :: k in fields ==> fields[k] == old(fields)[k] || fields[k] == Contains(old(fields)[k])
    {
      var pending := fields.Keys;
      while pending != {}
        invariant pending <= old(fields).Keys
        invariant fields == PartlyRewritten(old(fields), pending)
        invariant forall k :: k in old(fields) && k !in pending ==> PatternCompiles(old(fields)[k])
        decreases pending
      {
        var m :| m in pending;
        var v := fields[m];
        if !PatternCompiles(v) {
          return false;
        }
        fields := fields[m := Contains(v)];
        pending := pending - {m};
      }
      return true;
    }
  }

  /** A query whose values outside `pending` are rewritten to patterns. */
  ghost function PartlyRewritten(query: Fields, pending: set<string>): Fields
  {
    map k | k in query :: if k in pending then query[k] else Contains(query[k])
  }

  /** The same loop over a string query: `for (var m in query)` visits its
      characters, whose patterns are built and thrown away (assigning to a
      character of a string has no effect); the first character whose
      pattern does not compile throws. */
  method CharacterPatterns(query: string) returns (compiled: bool)
    ensures compiled <==> forall i :: 0 <= i < |query| ==> PatternCompiles(Str([query[i]]))
  {
    for m := 0 to |query|
      invariant forall i :: 0 <= i < m ==> PatternCompiles(Str([query[i]]))
    {
      if !PatternCompiles(Str([query[m]])) {
        return false;
      }
    }
    return true;
  }

  /** The body of `filter`'s action: the query check, the rewrite loop
      unless `strict` is set, then the count and the listing. */
  method FilterAction(options: Value, s: Store) returns (o: Outcome)
    ensures o == Perform(FilterDocs(options), s, "", Null).outcome
  {
    var query := Field(options, "query");
    if !Truthy(query) {
      return Fail(FilterNeedsQuery);
    }
    var compiled := true;
    if !Truthy(Field(options, "strict")) {
      if query.Obj? {
        var rewritten := new Record(query.fields);
        compiled := rewritten.MakePatterns();
        query := Obj(rewritten.fields);
      } else if query.Str? {
        compiled := CharacterPatterns(query.s);
      }
    }
    if compiled {
      assert query == FilterQuery(options);
      o := Next(FilterResult(options, Matching(s, query)));
    } else {
      o := Throw;
    }
  }

  /** The object a route definition returns: an emitter of its own, the
      model it was built on, and the api emitter every route shares. */
  class Route {
    const name: string
    const model: Model
    const events: Emitter
    const api: Emitter

    /** The collection stays well formed. */
    ghost predicate Valid()
      reads model
    {
      Storage.Valid(model.store)
    }

    constructor(name: string, api: Emitter, collection: Store)
      requires Storage.Valid(collection)
      ensures this.name == name && this.api == api
      ensures fresh(model) && fresh(events)
      ensures model.store == collection && events.listeners == map[]
      ensures Valid()
    {
      this.name := name;
      this.api := api;
      model := new Model(collection);
      events := new Emitter();
    }

    /** What the route's runs depend on besides their arguments. */
    function Context(): Operations.Env
      reads api, events
    {
      Operations.Env(api.listeners, events.listeners, name)
    }

    /** `route.before(event, listener)`. */
    method Before(eventName: string, h: Hook)
      modifies events
      ensures events.listeners == old(events.listeners)["before." + eventName :=
                ListenersFor(old(events.listeners), "before." + eventName) + [h]]
    {
      events.On("before." + eventName, h);
    }

    /** `route.after(event, listener)`. */
    method After(eventName: string, h: Hook)
      modifies events
      ensures events.listeners == old(events.listeners)["after." + eventName :=
                ListenersFor(old(events.listeners), "after." + eventName) + [h]]
    {
      events.On("after." + eventName, h);
    }

    /** The action body: works on the model and sets `event.data` before
        calling `next`; a failing action leaves `event.data` alone. */
    method PerformAction(a: Action, event: Event) returns (o: Outcome)
      modifies model, event
      ensures var e := Perform(a, old(model.store), name, old(event.data));
        && o == e.outcome && model.store == e.store
        && (o.Next? ==> event.data == o.data)
        && (!o.Next? ==> event.data == old(event.data))
    {
      var s := model.store;
      match a
      case CreateDoc(now) =>
        var doc := NewDocument(s, event.data, now);
        if doc["_id"] in s.docs {
          o := Fail(DuplicateKey);
        } else {
          model.store := Put(s, doc["_id"], doc);
          event.data := Obj(doc);
          o := Next(event.data);
        }
      case GetDoc(id) =>
        if event.data in s.docs {
          event.data := Obj(s.docs[event.data]);
          o := Next(event.data);
        } else {
          o := Fail(NotFound(name, id));
        }
      case UpdateDoc(item, id) =>
        if id in s.docs {
          var dbItem := new Record(s.docs[id]);
          dbItem.Assign(item);
          model.store := Put(s, id, dbItem.fields);
          event.data := Obj(dbItem.fields);
          o := Next(event.data);
        } else {
          o := Fail(NotFound(name, id));
        }
      case DeleteDoc(id) =>
        model.store := Remove(s, id);
        event.data := Obj(map["_id" := id, "ok" := Num(1)]);
        o := Next(event.data);
      case ClearAll =>
        model.store := Empty;
        event.data := Num(|s.order|);
        o := Next(event.data);
      case ListAll =>
        event.data := Arr(AsValues(All(s)), map[]);
        o := Next(event.data);
      case FindDocs(query) =>
        event.data := Arr(AsValues(Matching(s, query)), map[]);
        o := Next(event.data);
      case FilterDocs(options) =>
        o := FilterAction(options, s);
        if o.Next? {
          event.data := o.data;
        }
      case PageDocs(page, length) =>
        event.data := Page(AsValues(All(s)), page, length, map[]);
        o := Next(event.data);
      case FindFirst(query) =>
        var matches := Matching(s, query);
        event.data := if matches == [] then Null else Obj(matches[0]);
        o := Next(event.data);
    }

    /** `run(eventName, data, action, success, fail, user)`: the user guard,
        the read of `data.uuid`, then the chain of phases. */
    method Run(eventName: string, data: Value, a: Action, user: Value) returns (t: Trace)
      modifies model
      ensures Operations.Result(t, model.store)
              == Operations.Execute(Context(), old(model.store), eventName, data, a, user)
    {
      ghost var s := model.store;
      ghost var c := Operations.ConfigFor(Context(), s, eventName, a, user);
      if !Truthy(user) {
        t := Trace([], Failed(NoUserMessage(name, eventName)));
        return;
      }
      if data.Null? || data.Undefined? {
        t := Trace([], Crashed);
        return;
      }
      var uuid := Field(data, "uuid");
      var event := new Event(data, name, eventName, user);
      Operations.ConfigForActs(Context(), s, eventName, a, user);
      t := ApiBeforePhase(a, event, uuid, "before." + eventName, "after." + eventName, c);
      Operations.ExecuteDrives(Context(), s, eventName, data, a, user);
    }

    /** `before` on the api, then on the route, then the action and what
        follows it, each phase handing `event.data` on to the next. */
    method ApiBeforePhase(a: Action, event: Event, uuid: Value, before: string, after: string, ghost c: Config)
      returns (t: Trace)
      requires forall d :: d in c.action
      requires forall d {:trigger Perform(a, model.store, name, d)} :: c.action[d] == Perform(a, model.store, name, d)
      requires c.api == api.listeners && c.local == events.listeners
      requires c.routeName == event.name && c.eventName == event.action && c.user == event.user
      requires before == c.beforeEvent && after == c.afterEvent
      modifies model, event
      ensures t == Drive(c, uuid, 0, old(event.data))
      ensures |t.visits| > 2 ==> model.store == c.action[t.visits[2].input].store
      ensures |t.visits| <= 2 ==> model.store == old(model.store)
    {
      var d := event.data;
      var o := Emit(api.listeners, before, event.View());
      var rest := Trace([], Stalled);
      if o.Next? {
        event.data := o.data;
        rest := RouteBeforePhase(a, event, uuid, before, after, c);
        t := Trace([Visit(ApiBefore, d)] + rest.visits, rest.ending);
        if |rest.visits| > 1 {
          assert t.visits[2] == rest.visits[1];
        }
      } else {
        t := Trace([Visit(ApiBefore, d)], Halt(o));
      }
      PhaseThen(c, uuid, 0, d, o, rest);
    }

    /** `before` on the route, then the action and what follows it. */
    method RouteBeforePhase(a: Action, event: Event, uuid: Value, before: string, after: string, ghost c: Config)
      returns (t: Trace)
      requires forall d :: d in c.action
      requires forall d {:trigger Perform(a, model.store, name, d)} :: c.action[d] == Perform(a, model.store, name, d)
      requires c.api == api.listeners && c.local == events.listeners
      requires c.routeName == event.name && c.eventName == event.action && c.user == event.user
      requires before == c.beforeEvent && after == c.afterEvent
      modifies model, event
      ensures t == Drive(c, uuid, 1, old(event.data))
      ensures |t.visits| > 1 ==> t.visits[1].phase == Act
      ensures |t.visits| > 1 ==> model.store == c.action[t.visits[1].input].store
      ensures |t.visits| <= 1 ==> model.store == old(model.store)
    {
      var d := event.data;
      var o := Emit(events.listeners, before, event.View());
      var rest := Trace([], Stalled);
      if o.Next? {
        event.data := o.data;
        rest := ActPhase(a, event, uuid, after, c);
        t := Trace([Visit(RouteBefore, d)] + rest.visits, rest.ending);
      } else {
        t := Trace([Visit(RouteBefore, d)], Halt(o));
      }
      PhaseThen(c, uuid, 1, d, o, rest);
    }

    /** The action phase, then the after phases when it calls `next`. */
    method ActPhase(a: Action, event: Event, uuid: Value, after: string, ghost c: Config) returns (t: Trace)
      requires forall d :: d in c.action
      requires forall d {:trigger Perform(a, model.store, name, d)} :: c.action[d] == Perform(a, model.store, name, d)
      requires c.api == api.listeners && c.local == events.listeners
      requires c.routeName == event.name && c.eventName == event.action && c.user == event.user
      requires after == c.afterEvent
      modifies model, event
      ensures t == Drive(c, uuid, 2, old(event.data))
      ensures t.visits != [] && t.visits[0] == Visit(Act, old(event.data))
      ensures model.store == c.action[old(event.data)].store
    {
      var d := event.data;
      var o := ActAndCopyToken(a, event, uuid, c);
      var rest := Trace([], Stalled);
      if !o.Next? {
        t := Trace([Visit(Act, d)], Halt(o));
      } else {
        rest := AfterPhases(event, uuid, after, c);
        t := Trace([Visit(Act, d)] + rest.visits, rest.ending);
      }
      PhaseThen(c, uuid, 2, d, o, rest);
    }

    /** The action, then the token copied back onto its result. */
    method ActAndCopyToken(a: Action, event: Event, uuid: Value, ghost c: Config) returns (o: Outcome)
      requires forall d :: d in c.action
      requires forall d {:trigger Perform(a, model.store, name, d)} :: c.action[d] == Perform(a, model.store, name, d)
      modifies model, event
      ensures o == StepAt(c, uuid, Act, old(event.data))
      ensures o.Next? ==> event.data == o.data
      ensures model.store == c.action[old(event.data)].store
    {
      var acted := PerformAction(a, event);
      o := event.CopyToken(acted, uuid);
    }

    /** `after` on the route, then on the api, then `success(event.data)`. */
    method AfterPhases(event: Event, uuid: Value, after: string, ghost c: Config) returns (t: Trace)
      requires c.api == api.listeners && c.local == events.listeners
      requires c.routeName == event.name && c.eventName == event.action && c.user == event.user
      requires after == c.afterEvent
      modifies event
      ensures t == Drive(c, uuid, 3, old(event.data))
    {
      var d3 := event.data;
      var o := Emit(events.listeners, after, event.View());
      var rest := Trace([], Stalled);
      if !o.Next? {
        t := Trace([Visit(RouteAfter, d3)], Halt(o));
      } else {
        event.data := o.data;
        var d4 := event.data;
        var o4 := Emit(api.listeners, after, event.View());
        if o4.Next? {
          event.data := o4.data;
        }
        PhaseThen(c, uuid, 4, d4, o4, Trace([], Succeeded(event.data)));
        rest := if o4.Next? then Trace([Visit(ApiAfter, d4)], Succeeded(event.data))
                else Trace([Visit(ApiAfter, d4)], Halt(o4));
        t := Trace([Visit(RouteAfter, d3)] + rest.visits, rest.ending);
      }
      PhaseThen(c, uuid, 3, d3, o, rest);
    }

    /** `route.create(item, success, fail, user)`. */
    method Create(item: Value, user: Value, now: Value) returns (t: Trace)
      requires Valid()
      modifies model
      ensures Valid()
      ensures Operations.Result(t, model.store) == Operations.Create(Context(), old(model.store), item, user, now)
    {
      var data := if Truthy(item) then item else Obj(map[]);
      t := Run("create", data, CreateDoc(now), user);
      Operations.ExecuteKeepsStoreValid(Context(), old(model.store), "create", data, CreateDoc(now), user);
    }

    /** `route.get(id, success, fail, user)`. */
    method Get(id: Value, user: Value) returns (t: Trace)
      requires Valid()
      modifies model
      ensures Valid()
      ensures Operations.Result(t, model.store) == Operations.Get(Context(), old(model.store), id, user)
    {
      if !Truthy(id) {
        t := Trace([], Failed(Operations.GetWithoutId));
        return;
      }
      t := Run("get", id, GetDoc(id), user);
      Operations.ExecuteKeepsStoreValid(Context(), old(model.store), "get", id, GetDoc(id), user);
    }

    /** `route.update(item, success, fail, user)`. */
    method Update(item: Value, user: Value) returns (t: Trace)
      requires Valid()
      modifies model
      ensures Valid()
      ensures Operations.Result(t, model.store) == Operations.Update(Context(), old(model.store), item, user)
    {
      if !Truthy(item) {
        t := Trace([], Failed(Operations.UpdateWithoutItem));
        return;
      }
      var id := Field(item, "_id");
      if !Truthy(id) {
        t := Trace([], Failed(Operations.UpdateWithoutId));
        return;
      }
      t := Run("update", item, UpdateDoc(OwnProperties(item), id), user);
      Operations.ExecuteKeepsStoreValid(Context(), old(model.store), "update", item, UpdateDoc(OwnProperties(item), id), user);
    }

    /** `route.delete(id, success, fail, user)`. */
    method Delete(id: Value, user: Value) returns (t: Trace)
      requires Valid()
      modifies model
      ensures Valid()
      ensures Operations.Result(t, model.store) == Operations.Delete(Context(), old(model.store), id, user)
    {
      if !Truthy(id) {
        t := Trace([], Failed(Operations.DeleteWithoutId));
        return;
      }
      t := Run("delete", id, DeleteDoc(id), user);
      Operations.ExecuteKeepsStoreValid(Context(), old(model.store), "delete", id, DeleteDoc(id), user);
    }

    /** `route.clear(success, fail, user)`. */
    method Clear(user: Value) returns (t: Trace)
      requires Valid()
      modifies model
      ensures Valid()
      ensures Operations.Result(t, model.store) == Operations.Clear(Context(), old(model.store), user)
    {
      t := Run("clear", Str(name), ClearAll, user);
      Operations.ExecuteKeepsStoreValid(Context(), old(model.store), "clear", Str(name), ClearAll, user);
    }

    /** `route.getAll(success, fail, user)`. */
    method GetAll(user: Value) returns (t: Trace)
      requires Valid()
      modifies model
      ensures Valid()
      ensures Operations.Result(t, model.store) == Operations.GetAll(Context(), old(model.store), user)
    {
      t := Run("getAll", Str(name), ListAll, user);
      Operations.ExecuteKeepsStoreValid(Context(), old(model.store), "getAll", Str(name), ListAll, user);
    }

    /** `route.find(object, success, fail, user)`. */
    method Find(query: Value, user: Value) returns (t: Trace)
      requires Valid()
      modifies model
      ensures Valid()
      ensures Operations.Result(t, model.store) == Operations.Find(Context(), old(model.store), query, user)
    {
      t := Run("find", query, FindDocs(query), user);
      Operations.ExecuteKeepsStoreValid(Context(), old(model.store), "find", query, FindDocs(query), user);
    }

    /** `route.filter(options, success, fail, user)`. */
    method Filter(options: Value, user: Value) returns (t: Trace)
      requires Valid()
      modifies model
      ensures Valid()
      ensures Operations.Result(t, model.store) == Operations.Filter(Context(), old(model.store), options, user)
    {
      t := Run("filter", options, FilterDocs(options), user);
      Operations.ExecuteKeepsStoreValid(Context(), old(model.store), "filter", options, FilterDocs(options), user);
    }

    /** `route.pager(page, length, success, fail, user)`. */
    method Pager(page: Value, length: Value, user: Value) returns (t: Trace)
      requires Valid()
      modifies model
      ensures Valid()
      ensures Operations.Result(t, model.store) == Operations.Pager(Context(), old(model.store), page, length, user)
    {
      t := Run("pager", Str(name), PageDocs(page, length), user);
      Operations.ExecuteKeepsStoreValid(Context(), old(model.store), "pager", Str(name), PageDocs(page, length), user);
    }

    /** `route.findOne(obj, success, fail, user)`. */
    method FindOne(query: Value, user: Value) returns (t: Trace)
      requires Valid()
      modifies model
      ensures Valid()
      ensures Operations.Result(t, model.store) == Operations.FindOne(Context(), old(model.store), query, user)
    {
      t := Run("findOne", query, FindFirst(query), user);
      Operations.ExecuteKeepsStoreValid(Context(), old(model.store), "findOne", query, FindFirst(query), user);
    }
  }

  /** The names every plain object such as `models = {}` inherits from
      `Object.prototype`. Reading `models[name]` for one of them gives a
      function (or, for `__proto__`, the prototype itself), which is truthy. */
  const InheritedNames: set<string> := {
    "constructor", "hasOwnProperty", "isPrototypeOf", "propertyIsEnumerable",
    "toLocaleString", "toString", "valueOf", "__proto__",
    "__defineGetter__", "__defineSetter__", "__lookupGetter__", "__lookupSetter__"
  }

  /** The models defined so far, by route name, shared by every route
      definition. */
  class Registry {
    var models: map<string, Model>

    /** No model is ever registered under an inherited name. */
    predicate Valid()
      reads this
    {
      forall n :: n in models ==> n !in InheritedNames
    }

    constructor()
      ensures models == map[]
      ensures Valid()
    {
      models := map[];
    }

    /** Whether `models[name]` is truthy: a model of that name exists, or
        the name is one the registry object inherits. */
    predicate Taken(name: string)
      reads this
    {
      name in models || name in InheritedNames
    }

    /** Defining the route `name` over `collection`: refused, with nothing
        defined, when `models[name]` is truthy, which is the case both for a
        name already defined and for a name inherited from
        `Object.prototype` such as `constructor`; otherwise a new route with
        no listeners of its own, whose model is registered under `name`. */
    method Define(name: string, api: Emitter, collection: Store) returns (route: Route?)
      requires Storage.Valid(collection)
      requires Valid()
      modifies this
      ensures Valid()
      ensures old(Taken(name)) ==> route == null && models == old(models)
      ensures name in InheritedNames ==> route == null && models == old(models)
      ensures !old(Taken(name)) ==>
        && route != null && fresh(route) && fresh(route.model) && fresh(route.events)
        && route.name == name && route.api == api
        && route.model.store == collection && route.events.listeners == map[]
        && route.Valid()
        && models == old(models)[name := route.model]
    {
      if name in models || name in InheritedNames {
        return null;
      }
      route := new Route(name, api, collection);
      models := models[name := route.model];
    }
  }
}
