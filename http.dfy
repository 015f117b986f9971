/** The HTTP handlers a route registers on its router: what each one reads
    from the request, which route method it calls with which arguments, and
    when it answers with the error envelope `{success: false, message}`
    without calling any. Writing the response is left out; the route
    method's own outcome is what `Dispatch` hands back. */
module Http {
  import opened Values
  import opened Storage
  import opened Pipeline
  import opened Actions
  import opened Operations

  /** A request body: none at all (no body parser ran), or a parsed JSON object. */
  datatype Body = Absent | Parsed(fields: Fields)

  /** What the handlers read from a request: the path parameters, the
      parsed query string (always an object), the body and `req.user`. */
  datatype Request = Request(params: Fields, query: Fields, body: Body, user: Value)

  /** The body as the value `req.body` holds. */
  function BodyValue(b: Body): Value
  {
    match b
    case Absent => Undefined
    case Parsed(f) => Obj(f)
  }

  /** What a handler does with a request: call one route method with these
      arguments, answer with the error envelope carrying `message` at once,
      or throw a TypeError before calling anything. */
  datatype Call =
    | CallPager(page: Value, length: Value)
    | CallGetAll
    | CallFind(query: Value)
    | CallCreate(item: Value)
    | CallFilter(options: Value)
    | CallGet(id: Value)
    | CallUpdate(item: Value)
    | CallDelete(id: Value)
    | Refuse(message: string)
    | Throws

  /** `GET /<name>` as written: with a truthy `page` and `length` in the
      query string it pages, with an empty query string it lists
      everything, and otherwise it calls `route.query`, which a route does
      not have, so the handler throws. */
  function ListAsWritten(req: Request): Call
  {
    var page := Field(Obj(req.query), "page");
    var length := Field(Obj(req.query), "length");
    if Truthy(page) && Truthy(length) then CallPager(page, length)
    else if |req.query.Keys| < 1 then CallGetAll
    else Throws
  }

  /** `GET /<name>` as intended: the last branch runs the query string as a
      `find` query. */
  function List(req: Request): Call
  {
    var page := Field(Obj(req.query), "page");
    var length := Field(Obj(req.query), "length");
    if Truthy(page) && Truthy(length) then CallPager(page, length)
    else if |req.query.Keys| < 1 then CallGetAll
    else CallFind(Obj(req.query))
  }

  /** Every query string that names anything but a page makes the handler
      as written throw: `?name=ann` never reaches the store. */
  lemma ListAsWrittenThrowsOnQueries(req: Request)
    requires |req.query.Keys| > 0
    requires !(Truthy(Field(Obj(req.query), "page")) && Truthy(Field(Obj(req.query), "length")))
    ensures ListAsWritten(req) == Throws
    ensures List(req) == CallFind(Obj(req.query))
  {
  }

  /** A request that shows it: `GET /items?name=ann`. */
  lemma ListAsWrittenThrowsOnName()
    ensures var req := Request(map[], map["name" := Str("ann")], Absent, Str("u"));
      ListAsWritten(req) == Throws && List(req) == CallFind(Obj(map["name" := Str("ann")]))
  {
    var req := Request(map[], map["name" := Str("ann")], Absent, Str("u"));
    assert "name" in req.query.Keys;
  }

  /** The listing dispatch: a page exactly when both `page` and `length`
      are truthy, everything exactly when the query string is otherwise
      empty, and a `find` on the query string in every other case; the
      handler never refuses and never throws, and the pager gets the
      query string's own `page` and `length`. */
  lemma ListDispatch(req: Request)
    ensures var page := Field(Obj(req.query), "page");
      var length := Field(Obj(req.query), "length");
      var call := List(req);
      && (call.CallPager? <==> Truthy(page) && Truthy(length))
      && (call.CallPager? ==> call == CallPager(page, length))
      && (call == CallGetAll <==> !(Truthy(page) && Truthy(length)) && req.query == map[])
      && (call.CallFind? <==> !(Truthy(page) && Truthy(length)) && req.query != map[])
      && (call.CallFind? ==> call.query == Obj(req.query))
      && (call.CallPager? || call == CallGetAll || call.CallFind?)
  {
    if req.query != map[] {
      var k :| k in req.query;
      assert k in req.query.Keys;
    }
  }

  /** `POST /<name>`: creates the body as it came. */
  function Post(req: Request): (call: Call)
    ensures call.CallCreate? && (req.body.Parsed? ==> call.item == Obj(req.body.fields))
  {
    CallCreate(BodyValue(req.body))
  }

  /** `POST /<name>/filter`: the body is the query, and `page` and `length`
      come from the query string. */
  function PostFilter(req: Request): Call
  {
    CallFilter(Obj(map["page" := Field(Obj(req.query), "page"),
                       "length" := Field(Obj(req.query), "length"),
                       "query" := BodyValue(req.body)]))
  }

  /** The filter options carry the body as their query and the query
      string's `page` and `length` (undefined when it lacks them), and
      nothing else is read from them. */
  lemma PostFilterBuildsOptions(req: Request)
    ensures PostFilter(req).CallFilter?
    ensures var options := PostFilter(req).options;
      && options.Obj? && options.fields.Keys == {"page", "length", "query"}
      && Field(options, "query") == BodyValue(req.body)
      && Field(options, "page") == Field(Obj(req.query), "page")
      && Field(options, "length") == Field(Obj(req.query), "length")
      && Field(options, "strict") == Undefined
  {
    var options := PostFilter(req).options;
    assert "strict" !in options.fields;
  }

  /** Reading an id from a request either yields a value or throws. */
  datatype Lookup = Found(value: Value) | TypeError

  /** `req.params.id || req.query.id || req.body.id`: reading the body's
      `id` throws when there is no body, and the body is only read when
      neither the path nor the query string has a truthy id. */
  function IdFrom(req: Request): Lookup
  {
    var fromPath := Field(Obj(req.params), "id");
    var fromQuery := Field(Obj(req.query), "id");
    if Truthy(fromPath) then Found(fromPath)
    else if Truthy(fromQuery) then Found(fromQuery)
    else match req.body
      case Absent => TypeError
      case Parsed(f) => Found(Field(Obj(f), "id"))
  }

  /** The id precedence: the path wins over the query string, which wins
      over the body; an id is found exactly when one of the three is
      truthy, and it is then the first truthy one. */
  lemma IdPrecedence(req: Request)
    ensures var fromPath := Field(Obj(req.params), "id");
      var fromQuery := Field(Obj(req.query), "id");
      var fromBody := Field(BodyValue(req.body), "id");
      var r := IdFrom(req);
      && (Truthy(fromPath) ==> r == Found(fromPath))
      && (!Truthy(fromPath) && Truthy(fromQuery) ==> r == Found(fromQuery))
      && (r.TypeError? <==> !Truthy(fromPath) && !Truthy(fromQuery) && req.body.Absent?)
      && ((r.Found? && Truthy(r.value)) <==> Truthy(fromPath) || Truthy(fromQuery) || Truthy(fromBody))
      && (r.Found? && !Truthy(fromPath) && !Truthy(fromQuery) ==> r.value == fromBody)
      && (req.body.Parsed? ==> r == Found(Or(Or(fromPath, fromQuery), fromBody)))
  {
  }

  /** `GET /<name>/:id`: gets the first truthy id, or refuses without one. */
  function GetById(name: string, req: Request): Call
  {
    match IdFrom(req)
    case TypeError => Throws
    case Found(id) =>
      if Truthy(id) then CallGet(id) else Refuse("you must pass an id parameter to GET:" + name + ":id")
  }

  /** `DELETE /<name>/:id`: deletes the first truthy id, or refuses without one. */
  function DeleteById(name: string, req: Request): Call
  {
    match IdFrom(req)
    case TypeError => Throws
    case Found(id) =>
      if Truthy(id) then CallDelete(id) else Refuse("you must pass an id parameter to DELETE:" + name + ":id")
  }

  /** Reading and deleting by id pick the same id by the same rule, and
      refuse the same requests, each naming its own verb. */
  lemma GetAndDeletePickTheSameId(name: string, req: Request)
    ensures GetById(name, req).CallGet? <==> DeleteById(name, req).CallDelete?
    ensures GetById(name, req).CallGet? ==> GetById(name, req).id == DeleteById(name, req).id
    ensures GetById(name, req).Throws? <==> DeleteById(name, req).Throws?
    ensures GetById(name, req).Refuse? <==> DeleteById(name, req).Refuse?
    ensures GetById(name, req).Refuse? ==>
      && GetById(name, req).message == "you must pass an id parameter to GET:" + name + ":id"
      && DeleteById(name, req).message == "you must pass an id parameter to DELETE:" + name + ":id"
  {
  }

  /** A path id is always the one used, whatever the query string or body say. */
  lemma PathIdWins(name: string, req: Request)
    requires Truthy(Field(Obj(req.params), "id"))
    ensures GetById(name, req) == CallGet(req.params["id"])
    ensures DeleteById(name, req) == CallDelete(req.params["id"])
  {
  }

  /** `PUT /<name>/:id` as written: the path id is copied into the body
      first (a TypeError without a body), so the body has at least the key
      `_id` when the empty-body guard looks at it. */
  function PutAsWritten(name: string, req: Request): Call
  {
    match req.body
    case Absent => Throws
    case Parsed(f) =>
      var item := f["_id" := Field(Obj(req.params), "id")];
      if |item.Keys| == 0 then Refuse("you must pass an item to PUT:" + name)
      else CallUpdate(Obj(item))
  }

  /** The guard of the handler as written never fires: a missing body
      throws and an empty one is sent on as `{_id: id}`. */
  lemma PutAsWrittenNeverRefuses(name: string, req: Request)
    ensures !PutAsWritten(name, req).Refuse?
    ensures req.body.Absent? ==> PutAsWritten(name, req) == Throws
    ensures req.body == Parsed(map[]) ==>
      PutAsWritten(name, req) == CallUpdate(Obj(map["_id" := Field(Obj(req.params), "id")]))
  {
    if req.body.Parsed? {
      assert "_id" in req.body.fields["_id" := Field(Obj(req.params), "id")].Keys;
    }
  }

  /** `PUT /<name>/:id` as intended: a missing or empty body is refused,
      and any other body is updated under the path id. */
  function Put(name: string, req: Request): Call
  {
    match req.body
    case Absent => Refuse("you must pass an item to PUT:" + name)
    case Parsed(f) =>
      if |f.Keys| == 0 then Refuse("you must pass an item to PUT:" + name)
      else CallUpdate(Obj(f["_id" := Field(Obj(req.params), "id")]))
  }

  /** The intended PUT refuses exactly the requests without a non-empty
      body, never throws, and otherwise updates an item that is the body
      with its `_id` replaced by the path id. */
  lemma PutCopiesThePathId(name: string, req: Request)
    ensures Put(name, req).Refuse? <==> req.body.Absent? || req.body.fields == map[]
    ensures Put(name, req).Refuse? ==> Put(name, req).message == "you must pass an item to PUT:" + name
    ensures !Put(name, req).Throws?
    ensures Put(name, req).CallUpdate? ==>
      var item := Put(name, req).item;
      && item.Obj?
      && Field(item, "_id") == Field(Obj(req.params), "id")
      && item.fields.Keys == req.body.fields.Keys + {"_id"}
      && forall k :: k in req.body.fields && k != "_id" ==> item.fields[k] == req.body.fields[k]
  {
    if req.body.Parsed? && req.body.fields != map[] {
      var k :| k in req.body.fields;
      assert k in req.body.fields.Keys;
    }
  }

  /** The two PUT handlers differ only on an empty or missing body. */
  lemma PutAgreesWithAsWrittenOnNonEmptyBodies(name: string, req: Request)
    requires req.body.Parsed? && req.body.fields != map[]
    ensures Put(name, req) == PutAsWritten(name, req)
  {
    var k :| k in req.body.fields;
    assert k in req.body.fields.Keys;
  }

  /** The route method a handler's decision calls, on the route `e` whose
      collection is `s`; a refusal or a throw leaves the collection alone
      and enters no phase. `now` stands for the clock `create` reads. */
  ghost function Dispatch(e: Env, s: Store, call: Call, user: Value, now: Value): Result
  {
    match call
    case CallPager(page, length) => Pager(e, s, page, length, user)
    case CallGetAll => GetAll(e, s, user)
    case CallFind(query) => Find(e, s, query, user)
    case CallCreate(item) => Create(e, s, item, user, now)
    case CallFilter(options) => Filter(e, s, options, user)
    case CallGet(id) => Get(e, s, id, user)
    case CallUpdate(item) => Update(e, s, item, user)
    case CallDelete(id) => Delete(e, s, id, user)
    case Refuse(message) => Rejected(message, s)
    case Throws => Result(Trace([], Crashed), s)
  }

  /** A PUT with a non-empty body and a truthy path id calls `update` with
      an item that passes both of its checks, the body with `_id` set to
      the path id, so what `update` then does happens to the document under
      the path id. */
  lemma PutReachesUpdateOfThePathId(e: Env, s: Store, name: string, req: Request, now: Value)
    requires req.body.Parsed? && req.body.fields != map[]
    requires Truthy(Field(Obj(req.params), "id"))
    ensures var item := Obj(req.body.fields["_id" := Field(Obj(req.params), "id")]);
      && Truthy(item) && Field(item, "_id") == Field(Obj(req.params), "id")
      && Dispatch(e, s, Put(name, req), req.user, now) == Update(e, s, item, req.user)
  {
    var item := Obj(req.body.fields["_id" := Field(Obj(req.params), "id")]);
    var k :| k in req.body.fields;
    assert k in req.body.fields.Keys;
    assert Put(name, req) == CallUpdate(item);
  }
}
