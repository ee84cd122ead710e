/**
 * Typed records of the chat platform: the tenant a bot is installed in, an
 * event, a slash command, and the per-frame dispatch context handed to a
 * handler (oono_akira/slack/recv.py, oono_akira/slack/context.py).
 */
module Slack {
  import opened Wrappers
  import opened Json

  /** One installed workspace, as the session store returns it. */
  datatype Workspace = Workspace(id: string, name: string, botId: string, adminId: string, token: string)

  /** A user-activity event (SlackEventPayload). `kind` is the event's `type`. */
  datatype Event = Event(
    kind: string,
    user: string,
    channel: string,
    ts: string,
    text: Option<string>,
    botId: Option<string>,
    threadTs: Option<string>,
    blocks: Option<Json>)

  /** A slash-command invocation (SlackSlashCommandsPayload). */
  datatype Command = Command(
    teamId: string,
    channelId: string,
    userId: string,
    command: string,
    text: string,
    responseUrl: string)

  /** The `payload` of an `events_api` frame (SlackEventsApiPayload). */
  datatype EventsApiPayload = EventsApiPayload(kind: string, teamId: string, eventId: string, event: Event)

  /**
   * The dispatch context built per inbound frame.  `token` is the token the
   * context's API client is bound to; `data` is the handler's scratch slot.
   */
  datatype Context = Context(
    id: string,
    token: string,
    workspace: Workspace,
    event: Option<Event>,
    command: Option<Command>,
    data: Json)

  /** A call a handler's `process` makes: the ack of its frame, or a Web API method with its body. */
  datatype ApiCall = Acknowledge | Call(apiMethod: string, body: map<string, Json>)

  /** `if event.thread_ts: body["thread_ts"] = event.thread_ts` */
  function WithThread(body: map<string, Json>, event: Event): (r: map<string, Json>)
    ensures "thread_ts" in r <==> "thread_ts" in body || (event.threadTs.Some? && event.threadTs.value != "")
    ensures event.threadTs.Some? && event.threadTs.value != "" ==> r["thread_ts"] == JStr(event.threadTs.value)
    ensures forall k :: k in body && k != "thread_ts" ==> k in r && r[k] == body[k]
    ensures r.Keys <= body.Keys + {"thread_ts"}
  {
    if event.threadTs.Some? && event.threadTs.value != "" then body["thread_ts" := JStr(event.threadTs.value)]
    else body
  }
}
