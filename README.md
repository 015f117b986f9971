# Route: hooked REST routes over a document collection, in Dafny

This project models the route object that `Route.js` of attentive-api builds
for each schema name. The route has ten methods: `create`, `get`, `update`,
`delete`, `clear`, `getAll`, `find`, `filter`, `pager` and `findOne`. Each
method first makes its own argument checks. It then hands an action body to
`run`, which wraps the action in a fixed chain of listener emissions:

1. `before.<action>` on the api emitter;
2. `before.<action>` on the route's own emitter;
3. the action itself;
4. `after.<action>` on the route;
5. `after.<action>` on the api;
6. `success(event.data)`.

Any phase may rewrite `event.data` for the phases after it, or stop the run
by calling `fail`, by never calling back, or by throwing. The model also
covers three more pieces:

- the registry that refuses a second route of the same name;
- the `before`/`after` registration helpers;
- the decisions that the HTTP handlers registered for a route make before
  they call a route method.

Modules, one per file:

- `Values` (values.dfy) has the JavaScript values a route handles. It gives
  truthiness, property reads, `||` and `String(v)`. Arrays and page objects
  carry the named properties assigned to them, as JavaScript objects do.
- `Storage` (storage.dfy) is the collection behind the model, kept abstract:
  documents by `_id`, plus the insertion order that fixes the order of
  listed results. It covers insert, save, remove, find, and generated ids
  that are never in use.
- `Actions` (actions.dfy) holds the action bodies as one function,
  `Perform`. Every action body calls `next` with a payload or calls
  `fail`, except that `filter` throws a SyntaxError when it builds a
  pattern that `new RegExp` refuses. `Perform` gives that outcome and the
  collection after the action. (Listeners can also stay silent or throw;
  see `Outcome`.)
- `Patterns` (patterns.dfy) decides whether `new RegExp(source)` accepts
  a pattern source or throws. It follows the grammar of ECMAScript regular
  expressions without flags (ECMA-262, with the web-compatibility grammar
  of its Annex B, as V8 implements it).
- `Pipeline` (pipeline.dfy) is `run` and `emit` as a chain of five phases.
  A run is described by its trace: the phases it entered, each with the
  payload it saw, and how it ended.
- `Operations` (operations.dfy) has the ten route methods as functions. Each
  one is a set of guards, then a run, then the collection the action left.
- `Route` (route.dfy) is the imperative object graph: emitters, the model,
  the event of a run, the records that the update and filter loops rewrite,
  the route, and the registry. Each route method is a `method` proved equal
  to its function in `Operations`, and it keeps the collection well formed.
- `Http` (http.dfy) has the request handlers: the GET dispatch, the id
  precedence, the PUT id copy and the filter options. It states both the
  code as written and the intended behaviour where the two differ (see
  Findings).

Three behaviours of the code differ from what a caller might expect. The
model follows the code in each case:

- The correlation token `uuid` is copied back onto the action's result
  before the after-listeners run (Route.js:78). The comment there says the
  token is for tracking optimistic updates in the client, so a caller might
  expect it to reach `success` whatever the listeners do. An after-listener
  that replaces `event.data` drops it.
- `delete` acknowledges with `{_id: id, ok: 1}` (Route.js:140). The number
  `1` is sent, not a boolean `ok: true`, and the acknowledgement is sent
  whether or not a document had that id.
- The GET handler for a collection with a query string that is not a page
  calls `route.query` (Route.js:253). A caller might expect a find on the
  query string, but no route defines `query`, so the handler throws (see
  Findings).

The route's own emitter is Node's `events.EventEmitter` (Route.js:3,
Route.js:91). Its `emit` calls the listeners registered for a name and
reports whether there were any. The api emitter is handed in by the caller.
In the repository it is built by `Emitter()` from `./Emitter` (index.js:4,
index.js:38), a file that is not part of this model. The model assumes that
its `emit` behaves like Node's.

The clock read by `create` is a parameter (`now`). The ids that the store
generates are modelled as `Oid(n)`, one more than the largest generated id
in use.

## Model

| member | source | states |
|---|---|---|
| Values.Or | Route.js:302 | `a \|\| b` is truthy iff either operand is; it is `a` when `a` is truthy and `b` otherwise |
| Values.OccursAtSomePosition | Route.js:190 | the substring test used by the `.*v.*` pattern agrees with "p sits in s at some index i" |
| Values.ArrayTextLeavesMissingElementsEmpty | Route.js:190 | `'.*' + v + '.*'` renders an array value `v` by joining its elements with commas, a `null` or `undefined` element as the empty string, so `[null, s]` gives `,s` |
| Storage.PutKeepsValid | Route.js:98-99 | a save replaces only the document under its id and keeps the order when the id was stored; the store stays well formed |
| Storage.RemoveKeepsValid | Route.js:137-140 | `remove({_id: id})` drops exactly that id's document, if any, and keeps the store well formed |
| Storage.FreshIdIsUnused | Route.js:96 | the id generated for a new document without `_id` is never one already stored |
| Storage.AllListsEveryDocument | Route.js:158 | `model.find()` lists as many documents as are stored, every stored document, and nothing else |
| Storage.ListedMembers | Route.js:158 | the documents listed along a sequence of ids are exactly the stored documents of those ids |
| Storage.ListedCount | Route.js:158 | with every stored id listed once, the listing has one entry per stored document |
| Storage.SelectKeepsMatches | Route.js:168 | `find(query)` returns exactly the documents that match, never more than the collection holds |
| Storage.SelectStartsAtFirstMatch | Route.js:220 | the first selected document is the earliest matching one in store order |
| Storage.AsValuesWraps | Route.js:160 | the documents handed back as values are the same documents, one for one, in order |
| Actions.Perform | Route.js:95-224 | every action calls `next` or fails, except that `filter` may also throw; an action that does not call `next` leaves the collection unchanged |
| Actions.PerformKeepsStoreValid | Route.js:95-224 | no action body breaks the collection's well-formedness |
| Actions.CreateNeverOverwrites | Route.js:95-101 | the insert fails iff the new document's `_id` is already stored; otherwise exactly that id is added; without an `_id` of its own it succeeds with the new document |
| Actions.NewDocumentFields | Route.js:96-97 | the new document keeps the data's fields, gets `createDate`, and uses the data's `_id` if present, else a generated one |
| Actions.UpdateMergesOntoStoredRecord | Route.js:120-129 | a missing record fails with "cannot find ... with id ..." and leaves the store unchanged; otherwise item fields overwrite, other stored fields and all other documents stay |
| Actions.UpdateCallbacksAsWritten | Route.js:120-129 | the update action as written calls `fail` for a missing record and then throws on the missing record; with a record it hands on the merge |
| Actions.UpdateAsWrittenThrowsAfterFailing | Route.js:122-125 | as written a missing record gives `fail` followed by a TypeError, while the corrected action stops at the `fail`; with a record both hand on the same merge |
| Actions.DeleteAcknowledgesAnyId | Route.js:136-142 | `delete` answers `{_id: id, ok: 1}` whatever was stored; the id is gone and every other document stays |
| Actions.FilterQueryRewritesUnlessStrict | Route.js:188-192 | without `strict` an object query keeps its keys and each value becomes a `.*v.*` pattern; otherwise the query is used as given |
| Actions.FilterCountsAndLists | Route.js:176-206 | no query fails with the fixed message; a rewrite loop that meets a value whose pattern does not compile throws, with the collection unchanged; otherwise `count` is the number of matches, `items` lists exactly the matches, paged iff `page` and `length` are both truthy |
| Actions.FilterThrowsOnField | Route.js:188-192 | a non-strict filter throws, with the collection unchanged, as soon as one value of its object query has a pattern that does not compile |
| Actions.FilterThrowsOnPatternSyntax | Route.js:188-192 | the non-strict queries `{phone: "+1 555"}` and `{name: "(a"}` make the filter throw, with the collection unchanged |
| Actions.StringQueryThrowsOnSpecialCharacters | Route.js:188-192 | a non-strict string query throws iff it holds one of `(`, `)`, `[`, `*`, `+`, since the loop builds a pattern from each character |
| Actions.FilterOfPlainTextNeverThrows | Route.js:188-192 | an object query whose values are strings of ordinary characters never makes the rewrite throw |
| Actions.PagerListsEveryDocument | Route.js:210-216 | `pager` hands on a page object holding every stored document once, tagged with the page and length asked for, and the collection stays as it was |
| Actions.ContainsPatternSelectsSubstrings | Route.js:188-192 | the non-strict query `{name: "Al"}` matches "Alice" and "Albert" but not "Bob" |
| Actions.FindFirstIsFirstMatch | Route.js:218-224 | `findOne` gives `null` iff nothing matches, otherwise the first match in store order |
| Pipeline.Emit | Route.js:59-62 | `emit` hands the event on unchanged when nobody listens to the name, and otherwise takes the (first) listener's outcome; the run lemmas below state what follows from it |
| Pipeline.Attach | Route.js:78 | `if(uuid) event.data.uuid = uuid`; what it does to each kind of value is stated by `Pipeline.AttachSetsTheToken` |
| Pipeline.AttachSetsTheToken | Route.js:78 | with a truthy token, `uuid` reads back as the token on an object, array or page result and every other property and element stays; `null` and `undefined` throw; primitives, a falsy token and a non-`next` outcome are left alone |
| Pipeline.Run | Route.js:65-87 | `run`: the user guard, the read of `data.uuid` (which throws on `null` and `undefined`), then the five phases; its behaviour is stated by the lemmas that follow |
| Pipeline.ChainFollowsPhases | Route.js:75-86 | a chain from phase i enters phases i, i+1, … in order without skipping, the first one with the input payload |
| Pipeline.ChainHandsOn | Route.js:75-86 | each entered phase after the first sees exactly the payload the previous one handed to `next` |
| Pipeline.ChainSucceedsOnlyAtTheEnd | Route.js:80-81 | a chain succeeds only after entering every remaining phase |
| Pipeline.ChainSucceedsWithTheLastHandOn | Route.js:81 | success carries what the last phase handed on |
| Pipeline.ChainStopsAtTheLastPhase | Route.js:59-86 | a chain that does not succeed ends the way its last entered phase stopped |
| Pipeline.ChainSucceedsWhenEveryPhaseHandsOn | Route.js:75-86 | conversely, a chain in which every phase calls `next` succeeds with the last payload |
| Pipeline.DriveFollowsPhases | Route.js:75-86 | the same ordering fact for the phases of a route's run |
| Pipeline.DriveHandsOn | Route.js:70-86 | each phase of a run sees what the previous phase left in `event.data` |
| Pipeline.DriveSucceedsAtTheEnd | Route.js:80-81 | a run from phase i succeeds only after all remaining phases, with what the last one handed on |
| Pipeline.DriveStopsAtTheLastPhase | Route.js:59-86 | a run that does not succeed was stopped by its last entered phase |
| Pipeline.NoUserNoPhase | Route.js:66-69 | without a user the run fails with "cannot find user in <name>.<action>" and enters no phase |
| Pipeline.SuccessRunsEveryPhaseInOrder | Route.js:75-86 | a successful run entered api before, route before, action, route after, api after, each fed by the previous one |
| Pipeline.RunSucceedsWhenEveryPhaseHandsOn | Route.js:59-86 | conversely, a run in which every phase calls `next` succeeds with the api `after` phase's payload |
| Pipeline.FailureStopsTheRun | Route.js:75-86 | a failed run was failed by its last entered phase after every earlier phase called `next` |
| Pipeline.PhasesRunOnlyAfterTheirPredecessors | Route.js:75-79 | the action runs only after both `before` emissions called `next`, and after-listeners only after the action did |
| Pipeline.ActionDecidesTheRest | Route.js:77-84 | once the action is entered, its outcome with the token re-attached decides the rest: `next` leads into the route's `after` phase with that payload, anything else ends the run there the same way |
| Pipeline.ApiBeforeFailureSkipsAction | Route.js:75-86 | a failing api `before` listener ends the run at once, with its message |
| Pipeline.UuidReattachedBeforeAfterListeners | Route.js:74-78 | the route `after` phase gets the action's result with the input's `uuid` re-attached, and on an object, array or page result `uuid` then reads as the input's token |
| Pipeline.FailingActionEndsTheRun | Route.js:77-84 | an action that fails ends a run that reaches it right there, with its message; no after phase runs |
| Pipeline.UnlistenedRunIsTheAction | Route.js:59-86 | with no listeners, the run is the action alone, plus the re-attached token when it calls `next` |
| Pipeline.AfterListenerCanDropUuid | Route.js:78-81 | a route `after` listener that replaces `event.data` removes `uuid` from what `success` receives |
| Operations.Execute | Route.js:65-87 | a route method's call of `run`: its trace, and the collection the action left if the run entered it, else the collection as it was; `Operations.ExecuteKeepsStoreValid` states what it keeps |
| Operations.ExecuteKeepsStoreValid | Route.js:65-87 | any call keeps the collection well formed, and leaves it unchanged when the action never ran |
| Operations.Create | Route.js:93-95 | a falsy item is created as `{}` |
| Operations.CreateOfFalsyItemIsCreateOfEmpty | Route.js:93-95 | `if(!item) item = {}`: a call with a falsy item has exactly the trace and collection of a call with `{}` |
| Operations.Get | Route.js:105-106 | a falsy id is refused with "id parameter is missing for route.get" before `run`, whatever the user; `get` never changes the collection |
| Operations.Update | Route.js:116-119 | a falsy item, or one without a truthy `_id`, is refused with its message before `run` |
| Operations.Delete | Route.js:134-135 | a falsy id is refused with "item._id is missing for route.delete" before `run` |
| Operations.Clear | Route.js:146-152 | once the action runs the collection is empty |
| Operations.GetAll | Route.js:156-163 | listing never changes the collection |
| Operations.Find | Route.js:166-173 | finding never changes the collection |
| Operations.Filter | Route.js:176-206 | filtering never changes the collection |
| Operations.Pager | Route.js:210-216 | paging never changes the collection |
| Operations.FindOne | Route.js:218-224 | `findOne` never changes the collection |
| Operations.UpdateWritesMergeOfTheItem | Route.js:116-132 | when the action runs, the stored record becomes the merge of the captured item, or a missing record fails with not-found and nothing changes; a run stopped earlier changes nothing |
| Operations.GetFindsOrFails | Route.js:105-114 | once `get` enters its action, a document stored under what `event.data` holds is handed to the `after` phase (with the caller's token), and a missing one ends the run in the action with "cannot find <name> with id <id>" naming the id `get` was called with |
| Operations.FilterWithoutQueryFailsInTheAction | Route.js:177-179 | a filter without a query never succeeds; once it reaches the action it ends there with "filter on route requires a query object" |
| Operations.UnlistenedFilterWithoutQueryFails | Route.js:177-179 | with no listeners such a filter enters exactly api before, route before and action, then fails with that message |
| Operations.DeleteRemovesOnlyThatId | Route.js:134-144 | a delete that runs its action removes that id's document and no other; a missing id leaves the documents as they were |
| Operations.DeleteAcknowledgesMissingDocuments | Route.js:134-144 | with no listeners, deleting an id that is not stored still succeeds with `{_id: id, ok: 1}` |
| Route.Emitter.constructor | Route.js:91 | a new emitter has no listeners |
| Route.Emitter.On | Route.js:227-232 | a listener is appended after the others for its event name; other names are untouched |
| Route.Model.constructor | Route.js:90 | the model works on the given collection |
| Route.Event.constructor | Route.js:73 | the event starts with the call's data, route name, action name and user |
| Route.Event.CopyToken | Route.js:78 | `if(uuid) event.data.uuid = uuid` gives `Attach`: set on objects, arrays and page objects, ignored on primitives, a throw on null or undefined; a throw leaves `event.data` as it was |
| Route.Record.constructor | Route.js:121 | the record starts with the loaded fields |
| Route.Record.Assign | Route.js:123-125 | the for-in loop leaves the record equal to the stored fields overwritten by the item's |
| Route.Record.MakePatterns | Route.js:189-191 | the for-in loop succeeds iff every value's pattern compiles, and then turns every query value into its `.*v.*` pattern; when it throws, the keys are kept and each value is either as it was or already rewritten |
| Route.FilterAction | Route.js:177-206 | the filter action body (query check, rewrite loop unless `strict`, count and listing) ends as `Perform` says |
| Route.CharacterPatterns | Route.js:189-191 | on a string query the loop visits each character, and throws iff some character's pattern does not compile |
| Patterns.PlainTextParses | Route.js:190 | ordinary text (none of `\ ^ $ \| ? * + ( ) [ {`) followed by `.*` parses exactly when no group is left open |
| Patterns.PlainPatternCompiles | Route.js:190 | `new RegExp('.*' + t + '.*')` accepts ordinary text `t` |
| Patterns.LeadingRepeatFails | Route.js:190 | a `*` or `+` at the start of `t` follows the leading `.*` and has nothing to repeat, so the constructor throws |
| Patterns.UnclosedGroupFails | Route.js:190 | a `(` that ordinary text never closes throws as an unterminated group |
| Patterns.UnclosedClassFails | Route.js:190 | a `[` that ordinary text without `]` never closes throws as an unterminated class |
| Patterns.BackwardsRangeFails | Route.js:190 | a class range between two ordinary characters that runs backwards, such as `[z-a]`, throws |
| Patterns.SingleCharacterPatterns | Route.js:190 | the pattern of one character throws exactly for `(`, `)`, `[`, `*` and `+` |
| Route.Route.constructor | Route.js:89-91 | a new route has its name, the shared api emitter, a fresh model and an emitter with no listeners |
| Route.Route.Before | Route.js:227-229 | `before(e, h)` registers `h` under `before.<e>` on the route |
| Route.Route.After | Route.js:230-232 | `after(e, h)` registers `h` under `after.<e>` on the route |
| Route.Route.PerformAction | Route.js:95-224 | running an action body changes the collection and `event.data` exactly as `Perform` says; a failure or a throw leaves `event.data` alone |
| Route.Route.Run | Route.js:65-87 | the imperative `run` produces exactly the trace and collection of `Operations.Execute` |
| Route.Route.ApiBeforePhase | Route.js:75-86 | from the api `before` emission on, the method is the run from phase 0 |
| Route.Route.RouteBeforePhase | Route.js:76-85 | from the route `before` emission on, the method is the run from phase 1 |
| Route.Route.ActPhase | Route.js:77-84 | from the action on, the method is the run from phase 2 and the collection is the action's |
| Route.Route.ActAndCopyToken | Route.js:77-78 | the action followed by the token copy has the action phase's outcome |
| Route.Route.AfterPhases | Route.js:79-83 | the two after emissions and `success` are the run from phase 3 |
| Route.Route.Create | Route.js:93-103 | `route.create` is `Operations.Create`, and the collection stays well formed |
| Route.Route.Get | Route.js:105-114 | `route.get` is `Operations.Get`, and the collection stays well formed |
| Route.Route.Update | Route.js:116-132 | `route.update` is `Operations.Update`, and the collection stays well formed |
| Route.Route.Delete | Route.js:134-144 | `route.delete` is `Operations.Delete`, and the collection stays well formed |
| Route.Route.Clear | Route.js:146-154 | `route.clear` is `Operations.Clear`, and the collection stays well formed |
| Route.Route.GetAll | Route.js:156-164 | `route.getAll` is `Operations.GetAll`, and the collection stays well formed |
| Route.Route.Find | Route.js:166-174 | `route.find` is `Operations.Find`, and the collection stays well formed |
| Route.Route.Filter | Route.js:176-208 | `route.filter` is `Operations.Filter`, and the collection stays well formed |
| Route.Route.Pager | Route.js:210-217 | `route.pager` is `Operations.Pager`, and the collection stays well formed |
| Route.Route.FindOne | Route.js:218-225 | `route.findOne` is `Operations.FindOne`, and the collection stays well formed |
| Route.Registry.constructor | Route.js:30 | no model is defined at first |
| Route.Registry.Define | Route.js:55-90 | a name for which `models[name]` is truthy, an existing one or one every object inherits such as `constructor`, is refused with nothing defined; otherwise exactly that name is registered, with a fresh route that has no listeners, and no inherited name is ever registered |
| Http.ListAsWritten | Route.js:236-259 | `GET /<name>` as written: pages, lists everything, or calls the missing `route.query`; stated by `Http.ListAsWrittenThrowsOnQueries` |
| Http.List | Route.js:236-259 | `GET /<name>` as intended, with a find on the query string in the last branch; stated by `Http.ListDispatch` |
| Http.ListAsWrittenThrowsOnQueries | Route.js:238-258 | as written, any query string other than a page makes `GET /<name>` throw; the intended handler runs it as a find |
| Http.ListAsWrittenThrowsOnName | Route.js:253 | `GET /<name>?name=ann` throws as written |
| Http.ListDispatch | Route.js:238-258 | GET pages iff `page` and `length` are both truthy, lists all iff the query string is otherwise empty, else finds by the query string; it never refuses or throws |
| Http.Post | Route.js:263-269 | `POST /<name>` creates the body as it came |
| Http.PostFilter | Route.js:285-297 | `POST /<name>/filter` calls `filter` with options built from the body and the query string; stated by `Http.PostFilterBuildsOptions` |
| Http.PostFilterBuildsOptions | Route.js:285-292 | the filter options are `{page, length, query}`: the body is the query, page and length come from the query string, `strict` is unset |
| Http.IdFrom | Route.js:302 | `req.params.id \|\| req.query.id \|\| req.body.id`, with the TypeError of a missing body; stated by `Http.IdPrecedence` |
| Http.GetById | Route.js:301-313 | `GET /<name>/:id` gets the id `IdFrom` finds, or refuses without a truthy one; stated by `Http.GetAndDeletePickTheSameId` and `Http.PathIdWins` |
| Http.DeleteById | Route.js:329-341 | `DELETE /<name>/:id` deletes the id `IdFrom` finds, or refuses without a truthy one; stated by the same two lemmas |
| Http.IdPrecedence | Route.js:302 | for GET and DELETE (Route.js:330 alike) the path id wins over the query string, which wins over the body; the body is read only when it has to be, and the id is truthy iff one of the three is; with a body, the id is exactly `Or(Or(path, query), body)`, JavaScript's `\|\|` chain |
| Http.GetAndDeletePickTheSameId | Route.js:301-340 | GET and DELETE by id pick the same id and refuse the same requests, each with its own message |
| Http.PathIdWins | Route.js:302 | a truthy path id is the id used, whatever the query string or body say |
| Http.PutAsWritten | Route.js:315-327 | `PUT /<name>/:id` as written, copying the path id before the empty-body guard; stated by `Http.PutAsWrittenNeverRefuses` |
| Http.Put | Route.js:315-327 | `PUT /<name>/:id` as its guard's message intends; stated by `Http.PutCopiesThePathId` |
| Http.PutAsWrittenNeverRefuses | Route.js:315-320 | as written the empty-item guard never fires: no body throws, and `{}` is sent to `update` as `{_id: id}` |
| Http.PutCopiesThePathId | Route.js:315-326 | the intended PUT refuses exactly a missing or empty body with "you must pass an item to PUT:<name>", and otherwise updates the body with `_id` set to the path id |
| Http.PutAgreesWithAsWrittenOnNonEmptyBodies | Route.js:315-326 | both PUT handlers agree on every non-empty body |
| Http.Dispatch | Route.js:236-341 | the route method each handler decision calls, with `req.user` as the user; a refusal or a throw enters no phase and leaves the collection alone |
| Http.PutReachesUpdateOfThePathId | Route.js:315-326 | a PUT with a non-empty body and a path id calls `update` with an item that passes both its checks and carries the path id as `_id` |

## Left out

- Storage driver errors (`if(err) return fail(err)`, Route.js:42) are left out. The collection is assumed reliable, so only a duplicate `_id` on insert fails. Driver behaviour belongs to the database, not to the route.
- Pipeline.Emit: the api emitter comes from `./Emitter` (index.js:4), which is not part of this model. Its `emit` is assumed to call the listeners of a name and to return whether there were any, as Node's `events.EventEmitter` does, so that Route.js:59-62 moves on by itself when nobody listens.
- Pipeline.Emit: with several listeners on one event name, Node's emitter calls every one of them. Each may call `next` or `fail`, so `next` can run more than once. The model takes the first listener's outcome. This is exact for one listener per name. Fan-out belongs to the emitter library.
- Listeners are functions of the event they see. A listener that keeps `next` for later and calls it after some asynchronous work has the same effect as calling it at once. A listener that never calls back is `Stall`.
- Listeners that write to the collection, and listeners of one run affecting another run, are left out. The action sees the collection as it was when the run began.
- Actions.Perform: the `if(!items) fail(...)` at Route.js:159 and 169 has no `return`, but `find` never hands back a missing list, so it cannot fire. The same fall-through in update (Route.js:122) is under Findings.
- Actions.Perform: the result of `model.remove().exec()` for `clear` is modelled as the number of removed documents. The page object of `mongoose-pager` keeps the page and length it was asked for and, in `entries`, the whole unsliced listing: the slicing to one page and the page metadata are left to that library.
- Schema casting (a string `_id` against an ObjectId) is left out. So are the Mongo operators inside queries. These belong to the database driver.
- Storage.FieldMatches: a pattern that compiles is matched as the substring test of its value's text. The regular-expression meaning of characters such as `.` or `|` in a non-strict filter value is left to the database driver, which runs the pattern.
- Patterns.Compiles: it refuses unterminated groups and classes, a `)` with no group, a `\` that ends the pattern, a quantifier with nothing to repeat, a braced quantifier out of order, a backwards range between two ordinary characters, and a `(?` opener that the grammar does not have. V8 also refuses some patterns that the model accepts: a backwards range with an escape at either end (`[\x7a-a]`), a named group declared twice, and a malformed `\k<name>` in a pattern with named groups. It refuses a group name with characters other than ASCII letters, digits, `_` and `$`, which V8 accepts. Characters outside the Basic Multilingual Plane count as one character, not as two UTF-16 code units.
- Actions.RewriteThrows: an array query is run as given, with no patterns built from its elements, and never throws.
- Aliasing is left out. The filter's rewrite works on a copy of `options.query`, not in place on the caller's object, so a rewrite that throws part way does not leave the caller's query half rewritten. Likewise `update` keeps the item it captured at the call, while listeners can only replace `event.data`.
- Writing the response (`res.end`, `res.send`, the JSON error envelope of Route.js:32-38) and `console.error` are I/O, so they are left out. The handlers are modelled up to the route method they call.
- `route.route(url)`, `route.model` and `route.schema` (Route.js:342-346) are plain exports, so they are left out.
- index.js is not part of this model.
- Pipeline.Attach: an ObjectId or a RegExp value would also take the `uuid` property in JavaScript. No action hands one on as its result, so the model leaves them unchanged.
- Operations.Update: when the item is an array, the `for (var m in item)` loop also copies its indices. The model copies only the item's named properties. Request bodies are modelled as JSON objects, so only a server-side caller could pass an array.
- Http: a request body that is a JSON array or a scalar is left out. A body is either absent or a parsed JSON object.
- Property reads see own properties only. Names inherited from `Object.prototype` are modelled only where the code looks up a name it does not choose, which is the registry (`Route.Registry.Define`).
- Numbers are integers. Floating point values and their `String()` forms are left out.

## Findings

| source | as written | input that shows it | evidently intended | confidence | as-written member | corrected member |
|---|---|---|---|---|---|---|
| Route.js:253 | `GET /<name>` with any query string other than a truthy `page` and `length` calls `route.query`, which no route defines, so the handler throws a TypeError | `GET /items?name=ann` | run the query string as a find query (`route.find`) | not executed | Http.ListAsWrittenThrowsOnQueries | Http.ListDispatch |
| Route.js:316-318 | PUT copies the path id into the body before checking the body. A missing body throws, and an empty body `{}` passes the guard as `{_id: id}`, so "you must pass an item to PUT" is never sent | `PUT /items/7` with body `{}` | check the body before copying the id, refusing a missing or empty body | not executed | Http.PutAsWrittenNeverRefuses | Http.PutCopiesThePathId |
| Route.js:122 | when no record has the id, `update` calls `fail` without `return`, so the body goes on and `dbItem[m] = item[m]` (or `dbItem.save`) throws a TypeError on the missing record | `route.update({_id: 7}, ...)` on a collection without id 7 | return after `fail`, ending the action with the not-found message | not executed | Actions.UpdateAsWrittenThrowsAfterFailing | Actions.UpdateMergesOntoStoredRecord |
