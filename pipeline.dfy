/** The hook pipeline of a route (`emit` and `run` in Route.js): a guard on
    the user, then five phases in a fixed order, each of which either hands
    the event on, with its payload possibly rewritten, or stops the run. */
module Pipeline {
  import opened Values
  import opened Storage
  import opened Actions

  /** What a listener is handed: the live event of the run. */
  datatype EventView = EventView(data: Value, name: string, action: string, user: Value)

  /** A listener, reduced to the outcome it produces from the event it sees. */
  type Hook = EventView -> Outcome

  /** The listeners an emitter holds, by event name, in registration order. */
  type Listeners = map<string, seq<Hook>>

  /** The listeners registered for `eventName`. */
  function ListenersFor(target: Listeners, eventName: string): seq<Hook>
  {
    if eventName in target then target[eventName] else []
  }

  /** `emit(target, eventName, event, next, fail)`: with no listener the
      emission hands the event on unchanged at once; otherwise the
      listeners decide, and the model takes the outcome of the first one. */
  function Emit(target: Listeners, eventName: string, event: EventView): Outcome
  {
    var hooks := ListenersFor(target, eventName);
    if hooks == [] then Next(event.data) else hooks[0](event)
  }

  /** The phases of a run, in the order `run` chains them. */
  datatype Phase = ApiBefore | RouteBefore | Act | RouteAfter | ApiAfter

  const Phases: seq<Phase> := [ApiBefore, RouteBefore, Act, RouteAfter, ApiAfter]

  /** A phase that was entered, with the payload `event.data` held on entry. */
  datatype Visit = Visit(phase: Phase, input: Value)

  /** How a run ends: `success(event.data)`, `fail(message)`, never, or by an exception. */
  datatype Ending = Succeeded(data: Value) | Failed(message: string) | Stalled | Crashed

  /** What one run does: the phases it entered in order, and how it ended. */
  datatype Trace = Trace(visits: seq<Visit>, ending: Ending)

  /** Everything a run depends on besides its input: the api's and the
      route's listeners, the route's name, the action's name, the names of
      the events emitted around the action (`'before.' + eventName` and
      `'after.' + eventName` for every route method), the user, and
      the action body on the route's collection, as the effect (outcome and
      collection after it) it has for each payload `event.data` may hold
      when the action starts. Listeners never touch the collection, so the
      action finds it as it was when the run began. */
  datatype Config = Config(
    api: Listeners,
    local: Listeners,
    routeName: string,
    eventName: string,
    beforeEvent: string,
    afterEvent: string,
    user: Value,
    action: imap<Value, Effect>)

  /** How the action body ends when `event.data` holds `d`. */
  function Acted(c: Config, d: Value): Outcome
  {
    if d in c.action then c.action[d].outcome else Throw
  }

  /** The ending a phase that did not call `next` gives the whole run. */
  function Halt(o: Outcome): Ending
    requires !o.Next?
  {
    match o
    case Fail(m) => Failed(m)
    case Stall => Stalled
    case Throw => Crashed
  }

  /** Re-attaching the caller's correlation token to the action's result
      (`if(uuid) event.data.uuid = uuid`): set on an object, an array or a
      page object, silently ignored on a boolean, number or string, and a
      TypeError on `null` or `undefined`. */
  function Attach(o: Outcome, uuid: Value): Outcome
  {
    match o
    case Next(d) =>
      if !Truthy(uuid) then o
      else (match d
            case Obj(f) => Next(Obj(f["uuid" := uuid]))
            case Arr(items, p) => Next(Arr(items, p["uuid" := uuid]))
            case Page(entries, page, length, p) => Next(Page(entries, page, length, p["uuid" := uuid]))
            case Null => Throw
            case Undefined => Throw
            case _ => o)
    case _ => o
  }

  /** Re-attaching a truthy token to a result that holds properties makes
      `uuid` read back as the token and leaves every other property, and
      the elements of an array or page, as they were; `null` and
      `undefined` throw; a falsy token, a primitive result or an outcome
      other than `next` is left alone. */
  lemma AttachSetsTheToken(o: Outcome, uuid: Value)
    ensures !o.Next? || !Truthy(uuid) ==> Attach(o, uuid) == o
    ensures o.Next? && Truthy(uuid) && (o.data.Null? || o.data.Undefined?) ==> Attach(o, uuid) == Throw
    ensures o.Next? && Truthy(uuid) && (o.data.Bool? || o.data.Num? || o.data.Str?) ==> Attach(o, uuid) == o
    ensures o.Next? && Truthy(uuid) && HoldsProperties(o.data) ==>
      var r := Attach(o, uuid);
      && r.Next? && HoldsProperties(r.data)
      && Field(r.data, "uuid") == uuid
      && (forall k :: k != "uuid" ==> Field(r.data, k) == Field(o.data, k))
      && (r.data.Obj? <==> o.data.Obj?) && (r.data.Arr? <==> o.data.Arr?) && (r.data.Page? <==> o.data.Page?)
      && (r.data.Arr? ==> r.data.items == o.data.items)
      && (r.data.Page? ==> r.data.entries == o.data.entries)
  {
  }

  /** The event as the listeners of a phase see it. */
  function View(c: Config, d: Value): EventView
  {
    EventView(d, c.routeName, c.eventName, c.user)
  }

  /** The outcome of phase `p` entered with payload `d`. */
  function StepAt(c: Config, uuid: Value, p: Phase, d: Value): Outcome
  {
    match p
    case ApiBefore => Emit(c.api, c.beforeEvent, View(c, d))
    case RouteBefore => Emit(c.local, c.beforeEvent, View(c, d))
    case Act => Attach(Acted(c, d), uuid)
    case RouteAfter => Emit(c.local, c.afterEvent, View(c, d))
    case ApiAfter => Emit(c.api, c.afterEvent, View(c, d))
  }

  /** The outcome each phase has for each payload it may be entered with. */
  type Steps = imap<(Phase, Value), Outcome>

  /** The outcome of phase `p` entered with `d`, as `steps` gives it. */
  function Step(steps: Steps, p: Phase, d: Value): Outcome
  {
    if (p, d) in steps then steps[(p, d)] else Throw
  }

  /** The chain of phases from phase `i` on, entered with payload `d`: each
      phase that calls `next` hands its payload to the following one, the
      first that does not ends the run, and calling `next` after the last
      one is success. */
  function Chain(steps: Steps, i: nat, d: Value): Trace
    requires i <= |Phases|
    decreases |Phases| - i
  {
    if i == |Phases| then Trace([], Succeeded(d))
    else
      var o := Step(steps, Phases[i], d);
      if o.Next? then
        var rest := Chain(steps, i + 1, o.data);
        Trace([Visit(Phases[i], d)] + rest.visits, rest.ending)
      else Trace([Visit(Phases[i], d)], Halt(o))
  }

  /** The phases of a run of `c` whose input carried the token `uuid`. */
  ghost function StepsOf(c: Config, uuid: Value): Steps
  {
    imap x: (Phase, Value) :: StepAt(c, uuid, x.0, x.1)
  }

  /** The run from phase `i` on, entered with payload `d`. */
  ghost function Drive(c: Config, uuid: Value, i: nat, d: Value): Trace
    requires i <= |Phases|
  {
    Chain(StepsOf(c, uuid), i, d)
  }

  function NoUserMessage(routeName: string, eventName: string): string
  {
    "cannot find user in " + routeName + "." + eventName
  }

  /** `run(eventName, data, action, success, fail, user)`. Reading
      `data.uuid` throws when `data` is `null` or `undefined`. */
  ghost function Run(c: Config, data: Value): Trace
  {
    if !Truthy(c.user) then Trace([], Failed(NoUserMessage(c.routeName, c.eventName)))
    else if data.Null? || data.Undefined? then Trace([], Crashed)
    else Drive(c, Field(data, "uuid"), 0, data)
  }

  /** The phases a trace entered, in order. */
  function PhasesOf(visits: seq<Visit>): (r: seq<Phase>)
    ensures |r| == |visits|
    ensures forall k :: 0 <= k < |visits| ==> r[k] == visits[k].phase
  {
    seq(|visits|, k requires 0 <= k < |visits| => visits[k].phase)
  }

  /** `visits` entered the phases in their order from phase `i` on,
      skipping none. */
  predicate InOrderFrom(visits: seq<Visit>, i: nat)
  {
    && |visits| <= |Phases| - i
    && forall k :: 0 <= k < |visits| ==> visits[k].phase == Phases[i + k]
  }

  /** Each visit after the first saw exactly the payload the visit before
      it handed on with `next`, the phases' outcomes being those of `steps`. */
  predicate HandsOn(steps: Steps, visits: seq<Visit>)
  {
    forall k :: 0 <= k < |visits| - 1 ==>
      Step(steps, visits[k].phase, visits[k].input) == Next(visits[k + 1].input)
  }

  /** The same for a run of `c` whose input carried the token `uuid`. */
  predicate PassesOn(c: Config, uuid: Value, visits: seq<Visit>)
  {
    forall k :: 0 <= k < |visits| - 1 ==>
      StepAt(c, uuid, visits[k].phase, visits[k].input) == Next(visits[k + 1].input)
  }

  /** Every chain from phase `i` enters the phases in their order, from
      phase `i` on and without skipping any, and the first one sees the
      payload the chain was entered with. */
  lemma {:induction false} ChainFollowsPhases(steps: Steps, i: nat, d: Value)
    requires i <= |Phases|
    ensures InOrderFrom(Chain(steps, i, d).visits, i)
    ensures i < |Phases| ==> |Chain(steps, i, d).visits| > 0 && Chain(steps, i, d).visits[0].input == d
    decreases |Phases| - i
  {
    if i < |Phases| {
      var o := Step(steps, Phases[i], d);
      if o.Next? {
        ChainFollowsPhases(steps, i + 1, o.data);
      }
    }
  }

  /** In every chain, each entered phase after the first sees exactly the
      payload the phase before it handed on with `next`. */
  lemma {:induction false} ChainHandsOn(steps: Steps, i: nat, d: Value)
    requires i <= |Phases|
    ensures HandsOn(steps, Chain(steps, i, d).visits)
    decreases |Phases| - i
  {
    if i < |Phases| {
      var o := Step(steps, Phases[i], d);
      if o.Next? {
        ChainHandsOn(steps, i + 1, o.data);
        ChainFollowsPhases(steps, i + 1, o.data);
        var rest := Chain(steps, i + 1, o.data);
        var t := Chain(steps, i, d);
        assert t.visits == [Visit(Phases[i], d)] + rest.visits;
        forall k | 0 <= k < |t.visits| - 1
          ensures Step(steps, t.visits[k].phase, t.visits[k].input) == Next(t.visits[k + 1].input)
        {
          if k > 0 {
            assert t.visits[k] == rest.visits[k - 1] && t.visits[k + 1] == rest.visits[k];
          }
        }
      }
    }
  }

  /** A chain from phase `i` that succeeds entered every phase from `i` on,
      and one that entered no phase succeeded with its input. */
  lemma {:induction false} ChainSucceedsOnlyAtTheEnd(steps: Steps, i: nat, d: Value)
    requires i <= |Phases|
    ensures var t := Chain(steps, i, d);
      && (t.ending.Succeeded? ==> |t.visits| == |Phases| - i)
      && (|t.visits| == 0 ==> t.ending == Succeeded(d))
    decreases |Phases| - i
  {
    if i < |Phases| {
      var o := Step(steps, Phases[i], d);
      if o.Next? {
        ChainSucceedsOnlyAtTheEnd(steps, i + 1, o.data);
      }
    }
  }

  /** A chain that succeeds after entering some phase succeeds with what
      the last of them handed on. */
  lemma {:induction false} ChainSucceedsWithTheLastHandOn(steps: Steps, i: nat, d: Value)
    requires i <= |Phases|
    ensures var t := Chain(steps, i, d);
      |t.visits| > 0 && t.ending.Succeeded? ==>
        Step(steps, t.visits[|t.visits| - 1].phase, t.visits[|t.visits| - 1].input) == Next(t.ending.data)
    decreases |Phases| - i
  {
    if i < |Phases| {
      var o := Step(steps, Phases[i], d);
      if o.Next? {
        var rest := Chain(steps, i + 1, o.data);
        assert Chain(steps, i, d) == Trace([Visit(Phases[i], d)] + rest.visits, rest.ending);
        ChainSucceedsWithTheLastHandOn(steps, i + 1, o.data);
        ChainSucceedsOnlyAtTheEnd(steps, i + 1, o.data);
        if |rest.visits| > 0 {
          assert Chain(steps, i, d).visits[|rest.visits|] == rest.visits[|rest.visits| - 1];
        }
      }
    }
  }

  /** A chain that does not succeed entered some phase, and ends the way
      the last of them stopped. */
  lemma {:induction false} ChainStopsAtTheLastPhase(steps: Steps, i: nat, d: Value)
    requires i <= |Phases|
    ensures var t := Chain(steps, i, d);
      !t.ending.Succeeded? ==>
        var o := Step(steps, t.visits[|t.visits| - 1].phase, t.visits[|t.visits| - 1].input);
        |t.visits| > 0 && !o.Next? && t.ending == Halt(o)
    decreases |Phases| - i
  {
    if i < |Phases| {
      var o := Step(steps, Phases[i], d);
      if o.Next? {
        var rest := Chain(steps, i + 1, o.data);
        assert Chain(steps, i, d) == Trace([Visit(Phases[i], d)] + rest.visits, rest.ending);
        ChainStopsAtTheLastPhase(steps, i + 1, o.data);
        if |rest.visits| > 0 {
          assert Chain(steps, i, d).visits[|rest.visits|] == rest.visits[|rest.visits| - 1];
        }
      }
    }
  }

  /** A chain in which every phase from `i` on hands on the next payload of
      `ins` succeeds with the last of them. */
  lemma {:induction false} ChainSucceedsWhenEveryPhaseHandsOn(steps: Steps, i: nat, ins: seq<Value>)
    requires i <= |Phases| && |ins| == |Phases| + 1
    requires forall k :: i <= k < |Phases| ==> Step(steps, Phases[k], ins[k]) == Next(ins[k + 1])
    ensures Chain(steps, i, ins[i]).ending == Succeeded(ins[|Phases|])
    decreases |Phases| - i
  {
    if i < |Phases| {
      ChainSucceedsWhenEveryPhaseHandsOn(steps, i + 1, ins);
    }
  }

  /** Every run from phase `i` enters the phases in their order, from phase
      `i` on and without skipping any, and the first one sees the payload
      the run was entered with. */
  lemma DriveFollowsPhases(c: Config, uuid: Value, i: nat, d: Value)
    requires i <= |Phases|
    ensures InOrderFrom(Drive(c, uuid, i, d).visits, i)
    ensures i < |Phases| ==> |Drive(c, uuid, i, d).visits| > 0 && Drive(c, uuid, i, d).visits[0].input == d
  {
    ChainFollowsPhases(StepsOf(c, uuid), i, d);
  }

  /** In every run, each entered phase after the first sees exactly the
      payload the phase before it handed on with `next`. */
  lemma DriveHandsOn(c: Config, uuid: Value, i: nat, d: Value)
    requires i <= |Phases|
    ensures PassesOn(c, uuid, Drive(c, uuid, i, d).visits)
  {
    var steps := StepsOf(c, uuid);
    ChainHandsOn(steps, i, d);
    var t := Chain(steps, i, d);
    forall k | 0 <= k < |t.visits| - 1
      ensures StepAt(c, uuid, t.visits[k].phase, t.visits[k].input) == Next(t.visits[k + 1].input)
    {
      assert Step(steps, t.visits[k].phase, t.visits[k].input) == Next(t.visits[k + 1].input);
    }
  }

  /** Every run ends in success only after the last phase, with the payload
      that phase handed on. */
  lemma DriveSucceedsAtTheEnd(c: Config, uuid: Value, i: nat, d: Value)
    requires i <= |Phases|
    ensures var t := Drive(c, uuid, i, d);
      && (t.ending.Succeeded? ==> |t.visits| == |Phases| - i)
      && (|t.visits| == 0 ==> t.ending == Succeeded(d))
      && (|t.visits| > 0 && t.ending.Succeeded? ==>
            StepAt(c, uuid, t.visits[|t.visits| - 1].phase, t.visits[|t.visits| - 1].input) == Next(t.ending.data))
  {
    var steps := StepsOf(c, uuid);
    ChainSucceedsOnlyAtTheEnd(steps, i, d);
    ChainSucceedsWithTheLastHandOn(steps, i, d);
  }

  /** Every run that does not succeed ends the way its last entered phase
      stopped. */
  lemma DriveStopsAtTheLastPhase(c: Config, uuid: Value, i: nat, d: Value)
    requires i <= |Phases|
    ensures var t := Drive(c, uuid, i, d);
      !t.ending.Succeeded? ==>
        && |t.visits| > 0
        && !StepAt(c, uuid, t.visits[|t.visits| - 1].phase, t.visits[|t.visits| - 1].input).Next?
        && t.ending == Halt(StepAt(c, uuid, t.visits[|t.visits| - 1].phase, t.visits[|t.visits| - 1].input))
  {
    ChainStopsAtTheLastPhase(StepsOf(c, uuid), i, d);
  }

  /** Without a user the run fails at once, naming the route and the action,
      and enters no phase: no listener and no action runs. */
  lemma NoUserNoPhase(c: Config, data: Value)
    requires !Truthy(c.user)
    ensures Run(c, data) == Trace([], Failed("cannot find user in " + c.routeName + "." + c.eventName))
  {
  }

  /** A run that succeeds entered every phase exactly once, in the order
      api `before`, route `before`, action, route `after`, api `after`; each
      phase saw what the previous one left in `event.data`, and `success`
      received what the api's `after` phase left there. */
  lemma SuccessRunsEveryPhaseInOrder(c: Config, data: Value)
    requires Run(c, data).ending.Succeeded?
    ensures var t := Run(c, data);
      && Truthy(c.user)
      && PhasesOf(t.visits) == [ApiBefore, RouteBefore, Act, RouteAfter, ApiAfter]
      && t.visits[0].input == data
      && PassesOn(c, Field(data, "uuid"), t.visits)
      && StepAt(c, Field(data, "uuid"), ApiAfter, t.visits[4].input) == Next(t.ending.data)
  {
    DriveFollowsPhases(c, Field(data, "uuid"), 0, data);
    DriveHandsOn(c, Field(data, "uuid"), 0, data);
    DriveSucceedsAtTheEnd(c, Field(data, "uuid"), 0, data);
    DriveStopsAtTheLastPhase(c, Field(data, "uuid"), 0, data);
  }

  /** Conversely, a run past the guards in which every phase calls `next`,
      each on what the one before it handed on, succeeds with what the
      api's `after` phase handed on. */
  lemma RunSucceedsWhenEveryPhaseHandsOn(c: Config, data: Value, ins: seq<Value>)
    requires Truthy(c.user) && !data.Null? && !data.Undefined?
    requires |ins| == |Phases| + 1 && ins[0] == data
    requires forall k :: 0 <= k < |Phases| ==> StepAt(c, Field(data, "uuid"), Phases[k], ins[k]) == Next(ins[k + 1])
    ensures Run(c, data).ending == Succeeded(ins[|Phases|])
  {
    var steps := StepsOf(c, Field(data, "uuid"));
    forall k | 0 <= k < |Phases| ensures Step(steps, Phases[k], ins[k]) == Next(ins[k + 1]) {
      assert StepAt(c, Field(data, "uuid"), Phases[k], ins[k]) == Next(ins[k + 1]);
    }
    ChainSucceedsWhenEveryPhaseHandsOn(steps, 0, ins);
  }

  /** A run that fails was failed by the last phase it entered, after every
      earlier phase had called `next`; no later phase is entered and
      `success` is never called. This holds for a failing listener, a
      failing action and a failing after-listener alike. */
  lemma FailureStopsTheRun(c: Config, data: Value)
    requires Truthy(c.user)
    requires Run(c, data).ending.Failed?
    ensures var t := Run(c, data);
      && 0 < |t.visits| <= |Phases|
      && PhasesOf(t.visits) == Phases[..|t.visits|]
      && PassesOn(c, Field(data, "uuid"), t.visits)
      && StepAt(c, Field(data, "uuid"), t.visits[|t.visits| - 1].phase, t.visits[|t.visits| - 1].input)
           == Fail(t.ending.message)
  {
    DriveFollowsPhases(c, Field(data, "uuid"), 0, data);
    DriveHandsOn(c, Field(data, "uuid"), 0, data);
    DriveSucceedsAtTheEnd(c, Field(data, "uuid"), 0, data);
    DriveStopsAtTheLastPhase(c, Field(data, "uuid"), 0, data);
  }

  /** The action runs only once both `before` emissions have called `next`,
      and the after-listeners run only once the action has. */
  lemma PhasesRunOnlyAfterTheirPredecessors(c: Config, data: Value)
    ensures var t := Run(c, data);
      var u := Field(data, "uuid");
      && (|t.visits| > 2 ==>
            && t.visits[2].phase == Act
            && StepAt(c, u, ApiBefore, t.visits[0].input) == Next(t.visits[1].input)
            && StepAt(c, u, RouteBefore, t.visits[1].input) == Next(t.visits[2].input))
      && (|t.visits| > 3 ==>
            && t.visits[3].phase == RouteAfter
            && StepAt(c, u, Act, t.visits[2].input) == Next(t.visits[3].input))
  {
    if Truthy(c.user) && !data.Null? && !data.Undefined? {
      DriveFollowsPhases(c, Field(data, "uuid"), 0, data);
      DriveHandsOn(c, Field(data, "uuid"), 0, data);
    }
  }

  /** Once a run has entered the action, the action's outcome with the
      token re-attached decides what follows: when it calls `next` the
      route's `after` phase is entered with its payload, and otherwise the
      run ends right there, the way the action stopped. */
  lemma ActionDecidesTheRest(c: Config, data: Value)
    requires Truthy(c.user) && !data.Null? && !data.Undefined?
    ensures var t := Run(c, data);
      |t.visits| > 2 ==>
        var o := Attach(Acted(c, t.visits[2].input), Field(data, "uuid"));
        && t.visits[2].phase == Act
        && (o.Next? ==> |t.visits| > 3 && t.visits[3].phase == RouteAfter && t.visits[3].input == o.data)
        && (!o.Next? ==> PhasesOf(t.visits) == [ApiBefore, RouteBefore, Act] && t.ending == Halt(o))
  {
    var u := Field(data, "uuid");
    var t := Drive(c, u, 0, data);
    DriveFollowsPhases(c, u, 0, data);
    DriveHandsOn(c, u, 0, data);
    DriveSucceedsAtTheEnd(c, u, 0, data);
    DriveStopsAtTheLastPhase(c, u, 0, data);
    if |t.visits| > 2 {
      assert t.visits[2].phase == Phases[2];
      var o := StepAt(c, u, Act, t.visits[2].input);
      if !o.Next? {
        assert |t.visits| == 3;
        assert PhasesOf(t.visits) == [Phases[0], Phases[1], Phases[2]];
      }
    }
  }

  /** A failing `before` listener on the api stops the run before anything
      else: the action and every later listener are skipped. */
  lemma ApiBeforeFailureSkipsAction(c: Config, data: Value, m: string)
    requires Truthy(c.user) && !data.Null? && !data.Undefined?
    requires Emit(c.api, c.beforeEvent, View(c, data)) == Fail(m)
    ensures Run(c, data) == Trace([Visit(ApiBefore, data)], Failed(m))
  {
  }

  /** The correlation token of the input is put back on the action's result
      before the after-listeners see it: the route's `after` listeners are
      handed exactly the action's result with `uuid` re-attached, and on an
      object, an array or a page object `uuid` then reads as the token. */
  lemma UuidReattachedBeforeAfterListeners(c: Config, data: Value)
    requires Truthy(Field(data, "uuid"))
    ensures var t := Run(c, data);
      |t.visits| >= 4 ==>
        && t.visits[3].phase == RouteAfter
        && Next(t.visits[3].input) == Attach(Acted(c, t.visits[2].input), Field(data, "uuid"))
        && (Acted(c, t.visits[2].input).Next? && HoldsProperties(Acted(c, t.visits[2].input).data) ==>
              Field(t.visits[3].input, "uuid") == Field(data, "uuid"))
  {
    if Truthy(c.user) && !data.Null? && !data.Undefined? {
      var t := Run(c, data);
      ActionDecidesTheRest(c, data);
      if |t.visits| >= 4 {
        AttachSetsTheToken(Acted(c, t.visits[2].input), Field(data, "uuid"));
      }
    }
  }

  /** An action that always fails stops the run where it is entered: the
      run never succeeds, and once it reaches the action it ends there with
      the action's message, entering no after phase. */
  lemma FailingActionEndsTheRun(c: Config, data: Value, m: string)
    requires forall d :: Acted(c, d) == Fail(m)
    ensures var t := Run(c, data);
      && !t.ending.Succeeded?
      && (|t.visits| > 2 ==> PhasesOf(t.visits) == [ApiBefore, RouteBefore, Act] && t.ending == Failed(m))
  {
    if Truthy(c.user) && !data.Null? && !data.Undefined? {
      var u := Field(data, "uuid");
      ActionDecidesTheRest(c, data);
      DriveSucceedsAtTheEnd(c, u, 0, data);
      DriveFollowsPhases(c, u, 0, data);
      DriveHandsOn(c, u, 0, data);
    }
  }

  /** With no listener on either emitter, a run is just its action: it
      enters both before phases with the input unchanged, then the action;
      when the action calls `next` the after phases see its result with the
      token re-attached and `success` receives it, otherwise the run ends
      the way the action did. */
  lemma UnlistenedRunIsTheAction(c: Config, data: Value)
    requires Truthy(c.user) && !data.Null? && !data.Undefined?
    requires ListenersFor(c.api, c.beforeEvent) == [] && ListenersFor(c.local, c.beforeEvent) == []
    requires ListenersFor(c.api, c.afterEvent) == [] && ListenersFor(c.local, c.afterEvent) == []
    ensures var o := Attach(Acted(c, data), Field(data, "uuid"));
      var entered := [Visit(ApiBefore, data), Visit(RouteBefore, data), Visit(Act, data)];
      Run(c, data) == if o.Next? then Trace(entered + [Visit(RouteAfter, o.data), Visit(ApiAfter, o.data)], Succeeded(o.data))
                      else Trace(entered, Halt(o))
  {
    var u := Field(data, "uuid");
    assert StepAt(c, u, ApiBefore, data) == Next(data);
    assert StepAt(c, u, RouteBefore, data) == Next(data);
    var o := StepAt(c, u, Act, data);
    if o.Next? {
      assert StepAt(c, u, RouteAfter, o.data) == Next(o.data);
      assert StepAt(c, u, ApiAfter, o.data) == Next(o.data);
    }
  }

  /** The token is re-attached before the after-listeners, not after them:
      a route `after` listener that replaces `event.data` with a value
      lacking `uuid` drops the token from the payload `success` receives,
      even though the action handed back the input with its token. */
  lemma AfterListenerCanDropUuid(c: Config, token: Value, replacement: Value)
    requires Truthy(c.user) && Truthy(token) && Field(replacement, "uuid") == Undefined
    requires ListenersFor(c.api, c.beforeEvent) == [] && ListenersFor(c.local, c.beforeEvent) == []
    requires ListenersFor(c.api, c.afterEvent) == []
    requires forall d :: Acted(c, d) == Next(d)
    requires forall v :: Emit(c.local, c.afterEvent, v) == Next(replacement)
    ensures var data := Obj(map["uuid" := token]);
      && Run(c, data).ending == Succeeded(replacement)
      && Field(Run(c, data).ending.data, "uuid") == Undefined
  {
    var data := Obj(map["uuid" := token]);
    var ins := [data, data, data, data, replacement, replacement];
    forall k | 0 <= k < |Phases| ensures StepAt(c, token, Phases[k], ins[k]) == Next(ins[k + 1]) {
      if k == 2 {
        assert map["uuid" := token]["uuid" := token] == map["uuid" := token];
      }
    }
    RunSucceedsWhenEveryPhaseHandsOn(c, data, ins);
  }
}
