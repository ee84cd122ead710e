/**
 * The greeting module (oono_akira/modules/_01_moyu.py): the hour-bucket
 * greeting and weekday of `get_message`, the guards of the `message` and
 * `app_mention` handlers, and the calls `process` makes.
 */
module Moyu {
  import opened Wrappers
  import opened Json
  import opened Slack

  /** The if/elif chain on `now.hour`. */
  function Greeting(hour: int): string {
    if hour <= 3 then "深夜好"
    else if hour <= 6 then "凌晨好"
    else if hour <= 10 then "早上好"
    else if hour <= 14 then "中午好"
    else if hour <= 18 then "下午好"
    else if hour <= 22 then "晚上好"
    else "深夜好"
  }

  /** The buckets as the comments of the chain give them: first hour, last hour, greeting. */
  const Buckets: seq<(int, int, string)> := [
    (0, 3, "深夜好"),
    (4, 6, "凌晨好"),
    (7, 10, "早上好"),
    (11, 14, "中午好"),
    (15, 18, "下午好"),
    (19, 22, "晚上好"),
    (23, 23, "深夜好")
  ]

  predicate InBucket(hour: int, i: int)
    requires 0 <= i < |Buckets|
  {
    Buckets[i].0 <= hour <= Buckets[i].1
  }

  /** Every hour of the day falls in exactly one bucket, and the chain answers that bucket's greeting. */
  lemma GreetingByBucket(hour: int)
    requires 0 <= hour < 24
    ensures exists i :: 0 <= i < |Buckets| && InBucket(hour, i)
    ensures forall i, j :: 0 <= i < |Buckets| && 0 <= j < |Buckets| && InBucket(hour, i) && InBucket(hour, j) ==> i == j
    ensures forall i :: 0 <= i < |Buckets| && InBucket(hour, i) ==> Greeting(hour) == Buckets[i].2
  {
    var i := if hour <= 3 then 0 else if hour <= 6 then 1 else if hour <= 10 then 2
      else if hour <= 14 then 3 else if hour <= 18 then 4 else if hour <= 22 then 5 else 6;
    assert InBucket(hour, i);
  }

  const WeekdayNames: string := "一二三四五六日"

  /** `weekday_cn[weekday]` for `datetime.weekday()`, Monday being 0. */
  function WeekdayName(weekday: int): (c: char)
    requires 0 <= weekday < 7
    ensures c in WeekdayNames
  {
    WeekdayNames[weekday]
  }

  /** Monday to Sunday get seven different characters, Sunday being 日. */
  lemma WeekdayNamesDistinct()
    ensures forall i, j :: 0 <= i < j < 7 ==> WeekdayName(i) != WeekdayName(j)
    ensures WeekdayName(0) == '一' && WeekdayName(6) == '日'
  {
  }

  /**
   * The first line of `get_message`; `date` is the `strftime` rendering of
   * the current time.
   */
  function Headline(hour: int, date: string, weekday: int): string
    requires 0 <= weekday < 7
  {
    Greeting(hour) + "，现在是 " + date + "，星期" + [WeekdayName(weekday)] + " (CST)"
  }

  /** The headline opens with the hour's greeting and names the weekday. */
  lemma HeadlineParts(hour: int, date: string, weekday: int)
    requires 0 <= weekday < 7
    ensures var h := Headline(hour, date, weekday);
      && h[..|Greeting(hour)|] == Greeting(hour)
      && h[|h| - 7] == WeekdayName(weekday)
  {
  }

  /** What a handler constructor returns. */
  datatype Choice = NoHandler | AckOnly | Greet

  /** `<@botId>`, the text of a message that only mentions the bot. */
  function Mention(botId: string): string {
    "<@" + botId + ">"
  }

  /**
   * The guards both handlers share: a bot's message or an empty text gets
   * nothing, a bare mention of this bot gets `hit`, and so does nothing else.
   * The handlers read `context.event` without `must_event`, so a missing
   * event raises.
   */
  function Guard(event: Option<Event>, botId: string, hit: Choice): (r: Result<Choice, string>)
    requires hit != NoHandler
    ensures r.Err? <==> event.None?
    ensures r.Ok? ==> (r.value == hit <==>
      && (event.value.botId.None? || event.value.botId.value == "")
      && event.value.text == Some(Mention(botId)))
    ensures r.Ok? ==> r.value == hit || r.value == NoHandler
  {
    if event.None? then Err("AttributeError: 'NoneType' object has no attribute 'bot_id'")
    else
      var e := event.value;
      if e.botId.Some? && e.botId.value != "" then Ok(NoHandler)
      else if e.text.None? || e.text.value == "" then Ok(NoHandler)
      else if e.text.value == Mention(botId) then Ok(hit)
      else Ok(NoHandler)
  }

  /** `message_handler`: a bare mention gets a handler that only acks. */
  function MessageHandler(ctx: Context): (r: Result<Choice, string>)
    ensures r.Ok? ==> r.value != Greet
    ensures r.Ok? && r.value == AckOnly ==> ctx.event.Some? && ctx.event.value.text == Some(Mention(ctx.workspace.botId))
  {
    Guard(ctx.event, ctx.workspace.botId, AckOnly)
  }

  /** `app_mention_handler`: a bare mention gets `process`. */
  function AppMentionHandler(ctx: Context): (r: Result<Choice, string>)
    ensures r.Ok? ==> r.value != AckOnly
    ensures r.Ok? && r.value == Greet ==> ctx.event.Some? && ctx.event.value.text == Some(Mention(ctx.workspace.botId))
  {
    Guard(ctx.event, ctx.workspace.botId, Greet)
  }

  /** The two handlers answer the same messages, with the ack-only handler and `process` respectively. */
  lemma HandlersAgree(ctx: Context)
    ensures MessageHandler(ctx).Err? <==> AppMentionHandler(ctx).Err?
    ensures MessageHandler(ctx).Ok? ==>
      (MessageHandler(ctx).value == AckOnly <==> AppMentionHandler(ctx).value == Greet)
  {
  }

  /** The calls of the ack-only handler `ignore`. */
  const AckOnlyCalls: seq<ApiCall> := [Acknowledge]

  /**
   * The calls `process` makes: the ack first, then `chat.postMessage` with
   * `message` (what `get_message` returns) in the event's channel, and in
   * its thread when it has one.
   */
  function Process(event: Event, message: string): (r: seq<ApiCall>)
    ensures |r| == 2 && r[0] == Acknowledge
    ensures r[1].Call? && r[1].apiMethod == "chat.postMessage"
    ensures r[1].body.Keys == {"channel", "text"} + (if event.threadTs.Some? && event.threadTs.value != "" then {"thread_ts"} else {})
    ensures r[1].body["channel"] == JStr(event.channel) && r[1].body["text"] == JStr(message)
    ensures "thread_ts" in r[1].body ==> r[1].body["thread_ts"] == JStr(event.threadTs.value)
  {
    var body := map["channel" := JStr(event.channel), "text" := JStr(message)];
    [Acknowledge, Call("chat.postMessage", WithThread(body, event))]
  }
}
