/**
 * The strikethrough reactor (oono_akira/modules/_04_strike.py): the
 * `message` handler accepts a message whose only block holds a single
 * rich-text element with a single struck-through span, keeps the span's
 * text in `context.data`, and `process` tells the channel what was said.
 */
module Strike {
  import opened Wrappers
  import opened Json
  import opened Slack

  /**
   * `if not xs or len(xs) != 1: return`, then `xs[0]`: None when the guard
   * returns.  A one-entry dict has no key 0, and a number or bool that gets
   * past `not xs` has no length.
   */
  function Only(j: Json): (r: Result<Option<Json>, string>)
    ensures j.JArr? ==> r == Ok(if |j.items| == 1 then Some(j.items[0]) else None)
    ensures r.Ok? && r.value.Some? ==> j.JArr? || j.JStr?
  {
    match j
    case JNull => Ok(None)
    case JBool(b) => if b then Err("TypeError: object of type 'bool' has no len()") else Ok(None)
    case JNum(n) => if n != 0 then Err("TypeError: object of type 'int' has no len()") else Ok(None)
    case JStr(s) => if |s| == 1 then Ok(Some(j)) else Ok(None)
    case JArr(items) => if |items| == 1 then Ok(Some(items[0])) else Ok(None)
    case JObj(fields) => if |fields| == 1 then Err("KeyError: 0") else Ok(None)
  }

  /** `j.get(key, default)`: only a dict has `get`. */
  function Get(j: Json, key: string, default: Json): (r: Result<Json, string>)
    ensures r.Ok? <==> j.JObj?
    ensures j.JObj? ==> r.value == if key in j.fields then j.fields[key] else default
  {
    if !j.JObj? then Err("AttributeError: object has no attribute 'get'")
    else if key in j.fields then Ok(j.fields[key])
    else Ok(default)
  }

  /** `j[key]` on a dict. */
  function At(j: Json, key: string): (r: Result<Json, string>)
    ensures r.Ok? <==> j.JObj? && key in j.fields
    ensures r.Ok? ==> r.value == j.fields[key]
  {
    if j.JObj? && key in j.fields then Ok(j.fields[key]) else Err("KeyError: " + key)
  }

  /** `if event.bot_id:` */
  predicate FromBot(event: Event) {
    event.botId.Some? && event.botId.value != ""
  }

  /** `event.blocks`, None standing for Python's None. */
  function Blocks(event: Event): Json {
    if event.blocks.Some? then event.blocks.value else JNull
  }

  /**
   * The guard chain of `handler`: Ok(None) when it returns nothing, Ok(Some(t))
   * when it accepts with the span text t, Err when an access raises.
   */
  function Detect(event: Event): Result<Option<Json>, string> {
    if FromBot(event) then Ok(None)
    else
      var block :- Only(Blocks(event));
      if block.None? then Ok(None)
      else
        var elements :- Get(block.value, "elements", JNull);
        var element :- Only(elements);
        if element.None? then Ok(None)
        else
          var spans :- Get(element.value, "elements", JNull);
          var span :- Only(spans);
          if span.None? then Ok(None)
          else
            var style :- Get(span.value, "style", JObj(map[]));
            var strike :- Get(style, "strike", JNull);
            if !Truthy(strike) then Ok(None)
            else
              var text :- At(span.value, "text");
              Ok(Some(text))
  }

  /** The one-element list `[JObj(o)]`, if that is what j is. */
  predicate IsSingleObj(j: Json) {
    j.JArr? && |j.items| == 1 && j.items[0].JObj?
  }

  function SingleObj(j: Json): map<string, Json>
    requires IsSingleObj(j)
  {
    j.items[0].fields
  }

  /**
   * The shape the handler accepts, written out: not from a bot; exactly one
   * block, whose `elements` is exactly one element, whose `elements` is
   * exactly one span; the span's style has a truthy `strike`; t is its text.
   */
  predicate StruckSpan(event: Event, t: Json) {
    && !FromBot(event)
    && IsSingleObj(Blocks(event))
    && var block := SingleObj(Blocks(event));
    && "elements" in block && IsSingleObj(block["elements"])
    && var element := SingleObj(block["elements"]);
    && "elements" in element && IsSingleObj(element["elements"])
    && var span := SingleObj(element["elements"]);
    && var style := if "style" in span then span["style"] else JObj(map[]);
    && style.JObj? && "strike" in style.fields && Truthy(style.fields["strike"])
    && "text" in span && t == span["text"]
  }

  /** The handler accepts with text t exactly on the struck-span shape. */
  lemma AcceptsExactly(event: Event, t: Json)
    ensures Detect(event) == Ok(Some(t)) <==> StruckSpan(event, t)
  {
    if Detect(event) == Ok(Some(t)) {
      var block := Only(Blocks(event)).value.value;
      assert block.JObj?;
      var element := Only(Get(block, "elements", JNull).value).value.value;
      assert element.JObj?;
      var span := Only(Get(element, "elements", JNull).value).value.value;
      assert span.JObj?;
    }
  }

  /** A message from a bot is never accepted. */
  lemma BotRejected(event: Event)
    requires FromBot(event)
    ensures Detect(event) == Ok(None)
  {
  }

  /**
   * `handler`: the new context and whether it returns `process`.  Only an
   * accepted message writes `context.data`; a missing event raises.
   */
  function Handler(ctx: Context): (r: Result<(Context, bool), string>)
    ensures ctx.event.None? ==> r.Err?
    ensures ctx.event.Some? ==> (r.Err? <==> Detect(ctx.event.value).Err?)
    ensures r.Ok? ==> (r.value.1 <==> exists t :: StruckSpan(ctx.event.value, t))
    ensures r.Ok? && !r.value.1 ==> r.value.0 == ctx
    ensures r.Ok? && r.value.1 ==>
      && StruckSpan(ctx.event.value, r.value.0.data)
      && r.value.0 == ctx.(data := r.value.0.data)
  {
    if ctx.event.None? then Err("RuntimeError: event is None")
    else
      var found := Detect(ctx.event.value);
      if found.Err? then Err(found.error)
      else if found.value.None? then
        assert forall t :: !StruckSpan(ctx.event.value, t) by {
          forall t ensures !StruckSpan(ctx.event.value, t) {
            AcceptsExactly(ctx.event.value, t);
          }
        }
        Ok((ctx, false))
      else
        AcceptsExactly(ctx.event.value, found.value.value);
        Ok((ctx.(data := found.value.value), true))
  }

  /** The reply text of `process` for the poster's display name and the kept text. */
  function Message(displayName: string, said: string): string {
    "( ｣ﾟДﾟ)｣＜ " + displayName + " 刚才说了 " + said + "！"
  }

  /**
   * The calls `process` makes: the ack, then, unless the poster is Slackbot,
   * `users.info` for the poster and `chat.postMessage` with the reply, in the
   * thread when the event has one.  `displayName` is what `users.info`
   * answers and `said` is `str(context.data)`.
   */
  function Process(event: Event, displayName: string, said: string): (r: seq<ApiCall>)
    ensures |r| >= 1 && r[0] == Acknowledge
    ensures event.user == "USLACKBOT" <==> r == [Acknowledge]
    ensures event.user != "USLACKBOT" ==>
      && |r| == 3
      && r[1] == Call("users.info", map["user" := JStr(event.user)])
      && r[2].Call? && r[2].apiMethod == "chat.postMessage"
      && r[2].body.Keys == {"channel", "text"} + (if event.threadTs.Some? && event.threadTs.value != "" then {"thread_ts"} else {})
      && r[2].body["channel"] == JStr(event.channel)
      && r[2].body["text"] == JStr(Message(displayName, said))
      && ("thread_ts" in r[2].body ==> r[2].body["thread_ts"] == JStr(event.threadTs.value))
  {
    if event.user == "USLACKBOT" then [Acknowledge]
    else
      var body := map["channel" := JStr(event.channel), "text" := JStr(Message(displayName, said))];
      [Acknowledge, Call("users.info", map["user" := JStr(event.user)]), Call("chat.postMessage", WithThread(body, event))]
  }

  /** The reply names the poster and quotes the struck text word for word. */
  lemma MessageQuotes(displayName: string, said: string)
    ensures var m := Message(displayName, said);
      && m[..|"( ｣ﾟДﾟ)｣＜ "|] == "( ｣ﾟДﾟ)｣＜ "
      && m[|"( ｣ﾟДﾟ)｣＜ "|..|"( ｣ﾟДﾟ)｣＜ "| + |displayName|] == displayName
      && m[|m| - 1 - |said|..|m| - 1] == said
  {
  }
}
