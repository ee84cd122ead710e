/**
 * The `access` admin command (oono_akira/admin/_cmd_access.py): only the
 * workspace admin may use it; the channel and user arguments are checked
 * against the mention syntax `<([@#])([A-Z0-9]+)\|.*?>` and replaced by the
 * captured id; then access is granted, revoked, checked or listed through
 * the session store, and a message describes the result.
 */
module Access {
  import opened Wrappers
  import opened Slack

  // ---------------------------------------------------------------------
  // `MENTION.match`
  // ---------------------------------------------------------------------

  /** `[A-Z0-9]` */
  predicate IsIdChar(c: char) {
    'A' <= c <= 'Z' || '0' <= c <= '9'
  }

  predicate AllIdChars(s: string) {
    forall i :: 0 <= i < |s| ==> IsIdChar(s[i])
  }

  /** The length of the run of id characters that starts s. */
  function IdRun(s: string): (n: nat)
    ensures n <= |s| && AllIdChars(s[..n])
    ensures n < |s| ==> !IsIdChar(s[n])
  {
    if s == [] || !IsIdChar(s[0]) then 0
    else
      var n := 1 + IdRun(s[1..]);
      assert s[..n] == [s[0]] + s[1..][..n - 1];
      n
  }

  /** `.*?>`: whether a `>` comes before the first newline (`.` does not match one). */
  predicate ClosesOnLine(s: string) {
    s != [] && s[0] != '\n' && (s[0] == '>' || ClosesOnLine(s[1..]))
  }

  /**
   * `MENTION.match(s)` (anchored at the start, not at the end): None, or
   * group 1 (the sigil) and group 2 (the id).  The id run is maximal, since
   * it must be followed by `|`, which is not an id character.
   */
  function MentionMatch(s: string): Option<(char, string)> {
    if |s| < 2 || s[0] != '<' || (s[1] != '@' && s[1] != '#') then None
    else
      var n := IdRun(s[2..]);
      if n == 0 || 2 + n >= |s| || s[2 + n] != '|' || !ClosesOnLine(s[3 + n..]) then None
      else Some((s[1], s[2..2 + n]))
  }

  predicate NoNewline(s: string) {
    forall i :: 0 <= i < |s| ==> s[i] != '\n'
  }

  /** The shape the pattern describes, written out, with whatever follows the match. */
  predicate IsMention(s: string, sigil: char, id: string, caption: string, tail: string) {
    && (sigil == '@' || sigil == '#')
    && |id| > 0 && AllIdChars(id)
    && NoNewline(caption)
    && s == "<" + [sigil] + id + "|" + caption + ">" + tail
  }

  lemma {:induction false} ClosesOnLineOf(caption: string, tail: string)
    requires NoNewline(caption)
    ensures ClosesOnLine(caption + ">" + tail)
    decreases |caption|
  {
    if caption != [] {
      assert (caption + ">" + tail)[1..] == caption[1..] + ">" + tail;
      ClosesOnLineOf(caption[1..], tail);
    }
  }

  lemma {:induction false} ClosesOnLineSplit(s: string) returns (caption: string, tail: string)
    requires ClosesOnLine(s)
    ensures NoNewline(caption) && s == caption + ">" + tail
    decreases |s|
  {
    if s[0] == '>' {
      caption, tail := "", s[1..];
    } else {
      var l, t := ClosesOnLineSplit(s[1..]);
      caption, tail := [s[0]] + l, t;
    }
  }

  lemma {:induction false} IdRunOf(id: string, tail: string)
    requires AllIdChars(id)
    requires tail != [] && !IsIdChar(tail[0])
    ensures IdRun(id + tail) == |id|
    decreases |id|
  {
    if id == [] {
      assert id + tail == tail;
    } else {
      assert (id + tail)[1..] == id[1..] + tail;
      IdRunOf(id[1..], tail);
    }
  }

  /** Every match has the pattern's shape, with the groups it reports. */
  lemma MentionSound(s: string) returns (caption: string, tail: string)
    requires MentionMatch(s).Some?
    ensures IsMention(s, MentionMatch(s).value.0, MentionMatch(s).value.1, caption, tail)
  {
    var n := IdRun(s[2..]);
    assert s[2..][..n] == s[2..2 + n];
    caption, tail := ClosesOnLineSplit(s[3 + n..]);
    assert s == "<" + [s[1]] + s[2..2 + n] + "|" + s[3 + n..];
  }

  /** Every string of the pattern's shape matches, with exactly those groups. */
  lemma MentionComplete(s: string, sigil: char, id: string, caption: string, tail: string)
    requires IsMention(s, sigil, id, caption, tail)
    ensures MentionMatch(s) == Some((sigil, id))
  {
    var rest := caption + ">" + tail;
    assert s[2..] == id + "|" + rest;
    IdRunOf(id, "|" + rest);
    assert s[2 + |id|] == '|';
    assert s[3 + |id|..] == rest;
    ClosesOnLineOf(caption, tail);
    assert s[2..2 + |id|] == id;
  }

  // ---------------------------------------------------------------------
  // Validation and descriptions
  // ---------------------------------------------------------------------

  /**
   * The check of one argument against the mention syntax with `sigil`:
   * `""` and `*` pass unchanged, a mention passes as its id, and anything
   * else is refused with the message the command answers.
   */
  function Resolve(value: string, sigil: char, what: string): (r: Result<string, string>)
    ensures value == "" || value == "*" ==> r == Ok(value)
    ensures value != "" && value != "*" ==> match MentionMatch(value) {
      case None => r == Err("Invalid " + what + " syntax: " + value)
      case Some(g) => r == if g.0 == sigil then Ok(g.1) else Err("Not a " + what + ": " + value)
    }
  {
    if value == "" || value == "*" then Ok(value)
    else
      match MentionMatch(value)
      case None => Err("Invalid " + what + " syntax: " + value)
      case Some(g) => if g.0 != sigil then Err("Not a " + what + ": " + value) else Ok(g.1)
  }

  /** Whether the action refuses `*` arguments. */
  predicate TakesNoWildcard(action: string) {
    action == "grant" || action == "check"
  }

  /** The validation of `handler`, in its order: wildcard, then channel, then user. */
  function Validate(action: string, channel: string, user: string): Result<(string, string), string> {
    if TakesNoWildcard(action) && (channel == "*" || user == "*") then
      Err("Wildcard is not supported in this action")
    else
      var c :- Resolve(channel, '#', "channel");
      var u :- Resolve(user, '@', "user");
      Ok((c, u))
  }

  /** `channel_desc` */
  function ChannelDesc(channel: string): string {
    if channel == "*" then "`*`" else if channel == "" then "*all channels*" else "<#" + channel + ">"
  }

  /** `user_desc` */
  function UserDesc(user: string): string {
    if user == "*" then "`*`" else if user == "" then "*all users*" else "<@" + user + ">"
  }

  /**
   * Validation refuses in its order: the wildcard rule first, then the
   * channel, then the user; a validated pair is `""`, `*` or a mention's id
   * in each place, and `*` only for `revoke` and `list`.
   */
  lemma ValidateOrder(action: string, channel: string, user: string)
    ensures TakesNoWildcard(action) && (channel == "*" || user == "*") ==>
      Validate(action, channel, user) == Err("Wildcard is not supported in this action")
    ensures !(TakesNoWildcard(action) && (channel == "*" || user == "*")) && Resolve(channel, '#', "channel").Err? ==>
      Validate(action, channel, user) == Err(Resolve(channel, '#', "channel").error)
    ensures !(TakesNoWildcard(action) && (channel == "*" || user == "*")) && Resolve(channel, '#', "channel").Ok? ==>
      Validate(action, channel, user) ==
        (if Resolve(user, '@', "user").Err? then Err(Resolve(user, '@', "user").error)
         else Ok((Resolve(channel, '#', "channel").value, Resolve(user, '@', "user").value)))
    ensures Validate(action, channel, user).Ok? ==>
      var (c, u) := Validate(action, channel, user).value;
      && (c == "*" <==> channel == "*") && (u == "*" <==> user == "*")
      && (c == "" <==> channel == "") && (u == "" <==> user == "")
      && (TakesNoWildcard(action) ==> c != "*" && u != "*")
  {
    if Validate(action, channel, user).Ok? {
      var c := Resolve(channel, '#', "channel").value;
      var u := Resolve(user, '@', "user").value;
      if channel != "" && channel != "*" {
        var l, t := MentionSound(channel);
      }
      if user != "" && user != "*" {
        var l, t := MentionSound(user);
      }
    }
  }

  /** A channel mention is accepted as its id; a user mention in the channel place is refused. */
  lemma ChannelMention(id: string, caption: string)
    requires |id| > 0 && AllIdChars(id) && NoNewline(caption)
    ensures Resolve("<#" + id + "|" + caption + ">", '#', "channel") == Ok(id)
    ensures Resolve("<@" + id + "|" + caption + ">", '#', "channel")
      == Err("Not a channel: " + ("<@" + id + "|" + caption + ">"))
  {
    var c := "<#" + id + "|" + caption + ">";
    var u := "<@" + id + "|" + caption + ">";
    assert c == "<" + ['#'] + id + "|" + caption + ">" + "";
    assert u == "<" + ['@'] + id + "|" + caption + ">" + "";
    MentionComplete(c, '#', id, caption, "");
    MentionComplete(u, '@', id, caption, "");
    assert u != "" && u != "*";
    assert "Not a " + "channel" + ": " + u == "Not a channel: " + u;
  }

  /** The three descriptions of each argument are different texts. */
  lemma DescriptionsDistinct(id: string)
    requires id != "" && id != "*"
    ensures ChannelDesc("*") != ChannelDesc("") && ChannelDesc("") != ChannelDesc(id) && ChannelDesc("*") != ChannelDesc(id)
    ensures UserDesc("*") != UserDesc("") && UserDesc("") != UserDesc(id) && UserDesc("*") != UserDesc(id)
  {
    assert ChannelDesc(id)[0] == '<' && UserDesc(id)[0] == '<';
    assert ChannelDesc("*")[0] == '`' && UserDesc("*")[0] == '`';
    assert ChannelDesc("")[0] == '*' && UserDesc("")[0] == '*';
  }

  // ---------------------------------------------------------------------
  // The handler
  // ---------------------------------------------------------------------

  /** One row `list_accesses` answers. */
  datatype Grant = Grant(moduleName: string, channel: string, user: string)

  /** The session-store call the handler makes; None where `*` passes as Python's None. */
  datatype StoreCall =
    | GrantAccess(workspace: string, channel: string, user: string, moduleName: string)
    | RevokeAccess(workspace: string, channelOrAll: Option<string>, userOrAll: Option<string>, moduleName: string)
    | GetAccesses(workspace: string, channel: string, user: string)
    | ListAccesses(workspace: string, channelOrAll: Option<string>, userOrAll: Option<string>, moduleName: string)

  /** What `handler` returns: nothing, or a message, with the store call it made first. */
  datatype Response = NoResponse | Message(text: string, call: Option<StoreCall>)

  /** `channel if channel != "*" else None` */
  function Wild(value: string): (r: Option<string>)
    ensures r.None? <==> value == "*"
    ensures r.Some? ==> r.value == value
  {
    if value == "*" then None else Some(value)
  }

  function Scope(channel: string, user: string): string {
    ", channel: " + ChannelDesc(channel) + ", user: " + UserDesc(user)
  }

  /** One line of the `list` answer. */
  function GrantLine(g: Grant): string {
    "Found access to `" + g.moduleName + "`"
      + ", channel: " + (if g.channel != "" then "<#" + g.channel + ">" else "*all channels*")
      + ", user: " + (if g.user != "" then "<@" + g.user + ">" else "*all users*")
  }

  /** `"\n".join(lines)` */
  function JoinLines(lines: seq<string>): string {
    if lines == [] then ""
    else if |lines| == 1 then lines[0]
    else lines[0] + "\n" + JoinLines(lines[1..])
  }

  /** The lines of the `list` answer: one per row, or the single "Found no accesses" line. */
  function ListLines(rows: seq<Grant>, moduleName: string, channel: string, user: string): (r: seq<string>)
    ensures rows == [] ==> r == ["Found no accesses to `" + moduleName + "`" + Scope(channel, user)]
    ensures rows != [] ==> |r| == |rows| && forall i :: 0 <= i < |rows| ==> r[i] == GrantLine(rows[i])
  {
    if rows == [] then ["Found no accesses to `" + moduleName + "`" + Scope(channel, user)]
    else seq(|rows|, i requires 0 <= i < |rows| => GrantLine(rows[i]))
  }

  /** The loop of the `list` branch, appending one line per row. */
  method DescribeRows(rows: seq<Grant>, moduleName: string, channel: string, user: string) returns (desc: seq<string>)
    ensures desc == ListLines(rows, moduleName, channel, user)
  {
    desc := [];
    for i := 0 to |rows|
      invariant |desc| == i
      invariant forall j :: 0 <= j < i ==> desc[j] == GrantLine(rows[j])
    {
      desc := desc + [GrantLine(rows[i])];
    }
    if |desc| == 0 {
      desc := desc + ["Found no accesses to `" + moduleName + "`" + Scope(channel, user)];
    }
  }

  /**
   * `handler`.  `modules` is what `get_accesses` answers and `rows` what
   * `list_accesses` answers; the other store calls answer nothing.
   */
  method Handler(context: Option<Context>, action: string, channel: string, user: string, moduleName: string,
                 modules: set<string>, rows: seq<Grant>) returns (r: Result<Response, string>)
    ensures context.None? ==> r == Ok(NoResponse)
    ensures context.Some? && context.value.command.None? ==> r.Err?
    ensures context.Some? && context.value.command.Some? ==>
      var ws := context.value.workspace;
      if context.value.command.value.userId != ws.adminId then
        r == Ok(Message("No permission to manage accesses", None))
      else match Validate(action, channel, user) {
        case Err(m) => r == Ok(Message(m, None))
        case Ok((c, u)) =>
          if action == "grant" then
            r == Ok(Message("Granted access to `" + moduleName + "`" + Scope(c, u), Some(GrantAccess(ws.id, c, u, moduleName))))
          else if action == "revoke" then
            r == Ok(Message("Revoked access to `" + moduleName + "`" + Scope(c, u), Some(RevokeAccess(ws.id, Wild(c), Wild(u), moduleName))))
          else if action == "check" then
            r == Ok(Message((if moduleName in modules then "Found" else "Found no") + " access to `" + moduleName + "`" + Scope(c, u),
                            Some(GetAccesses(ws.id, c, u))))
          else if action == "list" then
            r == Ok(Message(JoinLines(ListLines(rows, moduleName, c, u)), Some(ListAccesses(ws.id, Wild(c), Wild(u), moduleName))))
          else
            r == Ok(NoResponse)
      }
  {
    if context.None? {
      return Ok(NoResponse);
    }
    if context.value.command.None? {
      return Err("RuntimeError: command is None");
    }
    var command := context.value.command.value;
    var ws := context.value.workspace;
    if command.userId != ws.adminId {
      return Ok(Message("No permission to manage accesses", None));
    }
    var channel, user := channel, user;
    if TakesNoWildcard(action) && (channel == "*" || user == "*") {
      return Ok(Message("Wildcard is not supported in this action", None));
    }
    var resolved := Resolve(channel, '#', "channel");
    if resolved.Err? {
      return Ok(Message(resolved.error, None));
    }
    channel := resolved.value;
    resolved := Resolve(user, '@', "user");
    if resolved.Err? {
      return Ok(Message(resolved.error, None));
    }
    user := resolved.value;
    var scope := Scope(channel, user);
    if action == "grant" {
      return Ok(Message("Granted access to `" + moduleName + "`" + scope, Some(GrantAccess(ws.id, channel, user, moduleName))));
    }
    if action == "revoke" {
      var call := RevokeAccess(ws.id, Wild(channel), Wild(user), moduleName);
      return Ok(Message("Revoked access to `" + moduleName + "`" + scope, Some(call)));
    }
    if action == "check" {
      var found := if moduleName in modules then "Found" else "Found no";
      return Ok(Message(found + " access to `" + moduleName + "`" + scope, Some(GetAccesses(ws.id, channel, user))));
    }
    if action == "list" {
      var desc := DescribeRows(rows, moduleName, channel, user);
      return Ok(Message(JoinLines(desc), Some(ListAccesses(ws.id, Wild(channel), Wild(user), moduleName))));
    }
    return Ok(NoResponse);
  }
}
