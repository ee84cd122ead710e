/**
 * The event front of OonoAkira (oono_akira/oono.py): the duplicate-event
 * tracker kept in fields, the dispatch of an `events_api` payload to the
 * first constructor that claims it, and the gate in the read loop that lets
 * every event id through at most once.
 *
 * The session store is the map `workspaces` (`get_workspace`); the
 * constructors are applied through `apply`, the model's stand-in for calling
 * a registered Python constructor on the context.
 */
module Oono {
  import opened Wrappers
  import opened Json
  import opened Slack
  import opened Tracker
  import opened Registry
  import opened Manager

  /** One entry of `_ack_queue`: envelope id, event id and the ack body (None is JNull). */
  datatype Ack = Ack(envelopeId: string, eventId: string, body: Json)

  /** What `_process_event` decides: the returned name, whether it acked, and the job it enqueued under which queue. */
  datatype Decision = Decision(name: string, acked: bool, job: Option<(string, Job)>)

  /** The name of the queue a handler's job goes to. */
  function QueueName(h: Handler): string {
    h.fn.moduleName + "/" + h.option.queue.GetOr("__default__")
  }

  /** The context `_process_event` builds for an event: API bound to the workspace token, no data yet. */
  function EventContext(envelopeId: string, workspace: Workspace, event: Event): Context {
    Context(envelopeId, workspace.token, workspace, Some(event), None, JNull)
  }

  /**
   * The for/else scan: the answer of the first constructor that does not
   * decline, a handler or the exception it raised; `Ok(None)` when all decline.
   */
  function FirstHandler(ctors: seq<Ctor>, ctx: Context, apply: (Ctor, Context) -> Result<Option<Handler>, string>): Result<Option<Handler>, string>
    decreases |ctors|
  {
    if ctors == [] then Ok(None)
    else if apply(ctors[0], ctx) != Ok(None) then apply(ctors[0], ctx)
    else FirstHandler(ctors[1..], ctx, apply)
  }

  /**
   * FirstHandler is `Ok(None)` exactly when every constructor declines, and
   * otherwise the answer of one constructor all of whose predecessors declined.
   */
  lemma {:induction false} FirstHandlerIsFirst(ctors: seq<Ctor>, ctx: Context, apply: (Ctor, Context) -> Result<Option<Handler>, string>)
    ensures FirstHandler(ctors, ctx, apply) == Ok(None) <==> forall i :: 0 <= i < |ctors| ==> apply(ctors[i], ctx) == Ok(None)
    ensures FirstHandler(ctors, ctx, apply) != Ok(None) ==>
      exists i :: 0 <= i < |ctors| && apply(ctors[i], ctx) == FirstHandler(ctors, ctx, apply)
        && forall j :: 0 <= j < i ==> apply(ctors[j], ctx) == Ok(None)
    decreases |ctors|
  {
    if ctors != [] && apply(ctors[0], ctx) == Ok(None) {
      FirstHandlerIsFirst(ctors[1..], ctx, apply);
      if FirstHandler(ctors, ctx, apply) != Ok(None) {
        var i :| 0 <= i < |ctors[1..]| && apply(ctors[1..][i], ctx) == FirstHandler(ctors, ctx, apply)
          && forall j :: 0 <= j < i ==> apply(ctors[1..][j], ctx) == Ok(None);
        assert apply(ctors[i + 1], ctx) == FirstHandler(ctors, ctx, apply);
        forall j | 0 <= j < i + 1 ensures apply(ctors[j], ctx) == Ok(None) {
          if j > 0 {
            assert ctors[j] == ctors[1..][j - 1];
          }
        }
      }
      if forall i :: 0 <= i < |ctors[1..]| ==> apply(ctors[1..][i], ctx) == Ok(None) {
        forall i | 0 <= i < |ctors| ensures apply(ctors[i], ctx) == Ok(None) {
          if i > 0 {
            assert ctors[i] == ctors[1..][i - 1];
          }
        }
      } else {
        var i :| 0 <= i < |ctors[1..]| && apply(ctors[1..][i], ctx) != Ok(None);
        assert apply(ctors[i + 1], ctx) != Ok(None);
      }
    } else if ctors != [] {
      assert apply(ctors[0], ctx) == FirstHandler(ctors, ctx, apply);
    }
  }

  /** The for/else loop of `_process_event` over the constructors; an exception a constructor raises propagates. */
  method FindHandler(ctors: seq<Ctor>, ctx: Context, apply: (Ctor, Context) -> Result<Option<Handler>, string>)
    returns (r: Result<Option<Handler>, string>)
    ensures r == FirstHandler(ctors, ctx, apply)
  {
    var i := 0;
    while i < |ctors|
      invariant 0 <= i <= |ctors|
      invariant FirstHandler(ctors[i..], ctx, apply) == FirstHandler(ctors, ctx, apply)
    {
      assert ctors[i..][1..] == ctors[i + 1..];
      var handler := apply(ctors[i], ctx);
      if handler.Err? {
        return handler;
      }
      if handler.value.Some? {
        return handler;
      }
      i := i + 1;
    }
    return Ok(None);
  }

  /**
   * `_process_event`, as a decision over the workspace lookup and the
   * constructors for the event's type; Err when a constructor raises, which
   * happens before any ack.
   */
  function Decide(envelopeId: string, payload: EventsApiPayload, workspace: Option<Workspace>,
                  ctors: seq<Ctor>, apply: (Ctor, Context) -> Result<Option<Handler>, string>): Result<Decision, string>
  {
    if workspace.None? then Ok(Decision("unknown_workspace", true, None))
    else if payload.event.user == workspace.value.botId then Ok(Decision("ignore_self", true, None))
    else
      var ctx := EventContext(envelopeId, workspace.value, payload.event);
      var handler :- FirstHandler(ctors, ctx, apply);
      if handler.None? then Ok(Decision("no_handler", true, None))
      else Ok(Decision(handler.value.fn.moduleName, false, Some((QueueName(handler.value), Job(ctx, handler.value.fn, None)))))
  }

  /**
   * The dispatch outcomes: an unknown workspace, the bot's own event and an
   * event no constructor claims each give one empty ack and nothing queued;
   * a constructor that raises before any other claims the event ends the
   * dispatch with its exception; otherwise the first claiming constructor's
   * function is queued without an ack, under `module + "/" + (queue or
   * "__default__")`, and the module is returned.
   */
  lemma DecideOutcomes(envelopeId: string, payload: EventsApiPayload, workspace: Option<Workspace>,
                       ctors: seq<Ctor>, apply: (Ctor, Context) -> Result<Option<Handler>, string>)
    ensures var d := Decide(envelopeId, payload, workspace, ctors, apply);
      && (d.Ok? ==> (d.value.acked <==> d.value.job.None?))
      && (workspace.None? ==> d == Ok(Decision("unknown_workspace", true, None)))
      && (workspace.Some? && payload.event.user == workspace.value.botId ==> d == Ok(Decision("ignore_self", true, None)))
      && (workspace.Some? && payload.event.user != workspace.value.botId ==>
            var ctx := EventContext(envelopeId, workspace.value, payload.event);
            && ((forall i :: 0 <= i < |ctors| ==> apply(ctors[i], ctx) == Ok(None)) <==> d == Ok(Decision("no_handler", true, None)))
            && (d.Err? ==>
                  exists i :: 0 <= i < |ctors| && apply(ctors[i], ctx) == Err(d.error)
                    && forall j :: 0 <= j < i ==> apply(ctors[j], ctx) == Ok(None))
            && (d.Ok? && d.value.job.Some? ==>
                  exists i :: 0 <= i < |ctors| && apply(ctors[i], ctx).Ok? && apply(ctors[i], ctx).value.Some?
                    && (forall j :: 0 <= j < i ==> apply(ctors[j], ctx) == Ok(None))
                    && var h := apply(ctors[i], ctx).value.value;
                    && d.value.name == h.fn.moduleName
                    && d.value.job.value == (h.fn.moduleName + "/" + h.option.queue.GetOr("__default__"), Job(ctx, h.fn, None))))
  {
    if workspace.Some? && payload.event.user != workspace.value.botId {
      FirstHandlerIsFirst(ctors, EventContext(envelopeId, workspace.value, payload.event), apply);
    }
  }

  /**
   * The `events_api` branch of the read loop: the id is tracked; only a
   * `True` answer lets the payload through, and then the id is re-marked
   * with the handler name `_process_event` returned.
   */
  function Gate(st: TrackerState, eventId: string, handlerName: string): (TrackerState, bool) {
    var (st1, r) := Track(st, eventId, None, false);
    if r == Flag(true) then (Track(st1, eventId, Some(handlerName), true).0, true)
    else (st1, false)
  }

  /**
   * A payload gets through exactly when its id is not being tracked; the id
   * is then tracked with the handler's name, and the same id delivered again
   * is held back and reports that name.
   */
  lemma GateOnce(st: TrackerState, eventId: string, name: string, name2: string)
    requires TrackerValid(st)
    ensures Gate(st, eventId, name).1 <==> eventId !in st.mapping
    ensures Gate(st, eventId, name).1 ==> var st' := Gate(st, eventId, name).0;
      && TrackerValid(st')
      && eventId in st'.mapping && st'.mapping[eventId] == Some(name)
      && Gate(st', eventId, name2) == (st', false)
      && Track(st', eventId, None, false).1 == Previous(Some(name))
    ensures !Gate(st, eventId, name).1 ==> Gate(st, eventId, name).0 == st
  {
    if eventId !in st.mapping {
      FirstSighting(st, eventId, None);
      var st1 := Track(st, eventId, None, false).0;
      TrackKeepsValid(st, eventId, None, false);
      TrackKeepsValid(st1, eventId, Some(name), true);
    }
  }

  /**
   * Redelivery window: once a payload got through, a redelivery of its id is
   * held back for as long as at most 1023 other new ids have been tracked since.
   */
  lemma RedeliveryHeldBack(st: TrackerState, eventId: string, name: string, calls: seq<Call>, name2: string)
    requires TrackerValid(st) && eventId !in st.mapping
    requires Insertions(Gate(st, eventId, name).0, calls) <= PayloadTrackerSize - 1
    ensures !Gate(TrackAll(Gate(st, eventId, name).0, calls), eventId, name2).1
  {
    GateOnce(st, eventId, name, name2);
    var st' := Gate(st, eventId, name).0;
    FirstSighting(st, eventId, None);
    var i := |st'.queue| - 1;
    assert st'.queue[i] == eventId;
    StaysTracked(st', calls, i);
    TrackAllValid(st', calls);
    GateOnce(TrackAll(st', calls), eventId, name2, name2);
  }

  /**
   * A dispatch that raises leaves its id tracked with no handler name, so the
   * redelivered envelope is held back as a duplicate with no processor.
   */
  lemma RaisedHeldBack(st: TrackerState, eventId: string, name: string)
    requires TrackerValid(st) && eventId !in st.mapping
    ensures var st1 := Track(st, eventId, None, false).0;
      && TrackerValid(st1)
      && eventId in st1.mapping && st1.mapping[eventId] == None
      && Gate(st1, eventId, name) == (st1, false)
      && Track(st1, eventId, None, false).1 == Previous(None)
  {
    FirstSighting(st, eventId, None);
    TrackKeepsValid(st, eventId, None, false);
  }

  class OonoAkira {
    /** `_payload_queue` */
    var payloadQueue: seq<string>
    /** `_payload_mapping` */
    var payloadMapping: map<string, Option<string>>
    /** `_ack_queue`: acks waiting to be sent back, oldest first. */
    var acks: seq<Ack>
    /** `_modules` */
    const modules: ModulesManager

    function State(): TrackerState
      reads this
    {
      TrackerState(payloadQueue, payloadMapping)
    }

    ghost predicate Valid()
      reads this, modules
    {
      TrackerValid(State()) && modules.Valid()
    }

    /** `__init__` and `__aenter__`: empty tracker, empty ack queue. */
    constructor (modules: ModulesManager)
      requires modules.Valid()
      ensures Valid() && State() == Empty && acks == [] && this.modules == modules
    {
      payloadQueue := [];
      payloadMapping := map[];
      acks := [];
      this.modules := modules;
    }

    /** `_track_payload`, updating the deque and the dict in place. */
    method TrackPayload(trackId: string, processor: Option<string>, update: bool) returns (r: TrackResult)
      modifies this
      ensures (State(), r) == Track(old(State()), trackId, processor, update)
      ensures acks == old(acks)
    {
      if update {
        if trackId !in payloadMapping {
          return Flag(false);
        }
        payloadMapping := payloadMapping[trackId := processor];
        return Flag(true);
      }
      if trackId in payloadMapping {
        return Previous(payloadMapping[trackId]);
      }
      payloadQueue := payloadQueue + [trackId];
      payloadMapping := payloadMapping[trackId := processor];
      if |payloadQueue| > PayloadTrackerSize {
        var item := payloadQueue[0];
        payloadQueue := payloadQueue[1..];
        payloadMapping := payloadMapping - {item};
      }
      return Flag(true);
    }

    /** Acks and queues are as the decision `d` says, from the acks and queues given. */
    ghost predicate Dispatched(d: Decision, envelopeId: string, eventId: string,
                               acks0: seq<Ack>, queues0: map<string, seq<Item>>, log0: map<string, seq<Step>>)
      reads this, modules
    {
      && acks == acks0 + (if d.acked then [Ack(envelopeId, eventId, JNull)] else [])
      && (d.job.None? ==> modules.queues == queues0 && modules.log == log0)
      && (d.job.Some? ==>
            && modules.queues.Keys == queues0.Keys + {d.job.value.0}
            && modules.queues[d.job.value.0] == Lookup(queues0, d.job.value.0) + [Work(d.job.value.1)]
            && (forall n :: n in modules.queues && n != d.job.value.0 ==> n in queues0 && modules.queues[n] == queues0[n])
            && modules.log == if d.job.value.0 in log0 then log0 else log0[d.job.value.0 := []])
    }

    /**
     * `_process_event`: acks or queues a job, and returns the handler name;
     * an exception from a constructor escapes with nothing acked or queued.
     */
    method ProcessEvent(envelopeId: string, payload: EventsApiPayload, workspaces: map<string, Workspace>,
                        registry: CapabilityTable, apply: (Ctor, Context) -> Result<Option<Handler>, string>)
      returns (r: Result<string, string>)
      requires Valid()
      requires forall c :: c in Lookup(registry.capabilities, payload.event.kind) ==> c.moduleName in modules.modulesMapping
      modifies this, modules
      ensures Valid()
      ensures var workspace := if payload.teamId in workspaces then Some(workspaces[payload.teamId]) else None;
        var d := Decide(envelopeId, payload, workspace, Lookup(registry.capabilities, payload.event.kind), apply);
        && (d.Err? ==> r == Err(d.error) && acks == old(acks) && modules.queues == old(modules.queues) && modules.log == old(modules.log))
        && (d.Ok? ==> r == Ok(d.value.name) && Dispatched(d.value, envelopeId, payload.eventId, old(acks), old(modules.queues), old(modules.log)))
      ensures State() == old(State()) && modules.finished == old(modules.finished)
      ensures modules.modulesMapping == old(modules.modulesMapping)
    {
      var workspace := if payload.teamId in workspaces then Some(workspaces[payload.teamId]) else None;
      if workspace.None? {
        acks := acks + [Ack(envelopeId, payload.eventId, JNull)];
        return Ok("unknown_workspace");
      }
      var event := payload.event;
      if event.user == workspace.value.botId {
        acks := acks + [Ack(envelopeId, payload.eventId, JNull)];
        return Ok("ignore_self");
      }
      var context := EventContext(envelopeId, workspace.value, event);
      var pairs := IterateModules(registry.capabilities, modules.modulesMapping, event.kind);
      var ctors := seq(|pairs|, i requires 0 <= i < |pairs| => pairs[i].1);
      assert ctors == Lookup(registry.capabilities, event.kind);
      var handler := FindHandler(ctors, context, apply);
      if handler.Err? {
        return Err(handler.error);
      }
      if handler.value.None? {
        acks := acks + [Ack(envelopeId, payload.eventId, JNull)];
        return Ok("no_handler");
      }
      var h := handler.value.value;
      modules.Queue(QueueName(h), context, h.fn, None);
      return Ok(h.fn.moduleName);
    }

    /**
     * The `events_api` branch of the read loop for one frame: `Ok(None)` when
     * the frame is a duplicate, `Ok(Some(name))` when it was dispatched, and
     * Err when the dispatch raised, which ends the connection loop with the
     * id still marked None.
     */
    method OnEventsApi(envelopeId: string, payload: EventsApiPayload, workspaces: map<string, Workspace>,
                       registry: CapabilityTable, apply: (Ctor, Context) -> Result<Option<Handler>, string>)
      returns (r: Result<Option<string>, string>)
      requires Valid()
      requires forall c :: c in Lookup(registry.capabilities, payload.event.kind) ==> c.moduleName in modules.modulesMapping
      modifies this, modules
      ensures Valid()
      ensures r == Ok(None) <==> payload.eventId in old(payloadMapping)
      ensures r == Ok(None) ==>
        State() == old(State()) && acks == old(acks) && modules.queues == old(modules.queues) && modules.log == old(modules.log)
      ensures modules.modulesMapping == old(modules.modulesMapping) && modules.finished == old(modules.finished)
      ensures var workspace := if payload.teamId in workspaces then Some(workspaces[payload.teamId]) else None;
        var d := Decide(envelopeId, payload, workspace, Lookup(registry.capabilities, payload.event.kind), apply);
        payload.eventId !in old(payloadMapping) ==>
          && (d.Err? ==>
                && r == Err(d.error)
                && State() == Track(old(State()), payload.eventId, None, false).0
                && acks == old(acks) && modules.queues == old(modules.queues) && modules.log == old(modules.log))
          && (d.Ok? ==>
                && r == Ok(Some(d.value.name))
                && State() == Gate(old(State()), payload.eventId, d.value.name).0
                && Dispatched(d.value, envelopeId, payload.eventId, old(acks), old(modules.queues), old(modules.log)))
    {
      GateOnce(State(), payload.eventId, "", "");
      var track := TrackPayload(payload.eventId, None, false);
      if track != Flag(true) {
        return Ok(None);
      }
      ghost var st1 := State();
      var name := ProcessEvent(envelopeId, payload, workspaces, registry, apply);
      if name.Err? {
        return Err(name.error);
      }
      GateOnce(old(State()), payload.eventId, name.value, name.value);
      var _ := TrackPayload(payload.eventId, Some(name.value), true);
      assert State() == Track(st1, payload.eventId, Some(name.value), true).0;
      return Ok(Some(name.value));
    }
  }
}
