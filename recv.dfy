/**
 * The schema-driven payload parser (oono_akira/slack/recv.py).
 *
 * `SlackPayloadParser._parse` walks the fields of a dataclass and builds the
 * keyword arguments of its constructor from a decoded JSON object.  The
 * dataclasses become explicit schemas: each field has a declared type (plain,
 * `Optional[...]`, or a nested dataclass), an optional default, and an
 * optional list of discriminating cases (the field metadata).
 */
module Recv {
  import opened Wrappers
  import opened Json

  /** A field's declared type, as far as `_parse` looks at it. */
  datatype Ty = Plain | Data(schema: Schema) | Optional(inner: Ty)

  /** One metadata entry `(key, value): candidate`. */
  datatype Case = Case(key: string, value: string, schema: Schema)

  datatype Field = Field(name: string, ty: Ty, default: Option<Json>, cases: seq<Case>)

  /** A dataclass: its name and its fields in declaration order. */
  datatype Schema = Schema(name: string, fields: seq<Field>)

  /** A parsed value: a verbatim copy of the input, or a constructed dataclass instance. */
  datatype Value = Raw(json: Json) | Record(schema: string, values: map<string, Value>)

  /**
   * Why construction failed: the constructor's TypeError for a missing
   * required argument (the first such field is named), or a value that is not
   * a JSON object where a dataclass was expected.
   */
  datatype ParseError = MissingField(schema: string, field: string) | NotAnObject(schema: string)

  /** The first case whose key was parsed already and holds the case's string value. */
  function FirstCase(cases: seq<Case>, kwargs: map<string, Value>): (r: Option<Case>)
    ensures r.Some? ==> r.value in cases
    decreases |cases|
  {
    if cases == [] then None
    else if cases[0].key in kwargs && kwargs[cases[0].key] == Raw(JStr(cases[0].value)) then Some(cases[0])
    else FirstCase(cases[1..], kwargs)
  }

  /** `t(**kwargs)`: every field takes its keyword argument or its default; a required field without one fails. */
  function Construct(schema: Schema, kwargs: map<string, Value>, i: nat, acc: map<string, Value>): (r: Result<Value, ParseError>)
    requires i <= |schema.fields|
    ensures r.Ok? ==> r.value.Record? && r.value.schema == schema.name
    decreases |schema.fields| - i
  {
    if i == |schema.fields| then Ok(Record(schema.name, acc))
    else
      var f := schema.fields[i];
      if f.name in kwargs then Construct(schema, kwargs, i + 1, acc[f.name := kwargs[f.name]])
      else if f.default.Some? then Construct(schema, kwargs, i + 1, acc[f.name := Raw(f.default.value)])
      else Err(MissingField(schema.name, f.name))
  }

  /** `_parse(t, d)` */
  function Parsed(schema: Schema, d: Json): Result<Value, ParseError>
    decreases schema, 1
  {
    if !d.JObj? then Err(NotAnObject(schema.name))
    else
      var kwargs :- ParsedFields(schema, 0, d.fields, map[]);
      Construct(schema, kwargs, 0, map[])
  }

  /** The loop of `_parse` over the fields from the i-th on, with the keyword arguments gathered so far. */
  function ParsedFields(schema: Schema, i: nat, d: map<string, Json>, kwargs: map<string, Value>): Result<map<string, Value>, ParseError>
    requires i <= |schema.fields|
    decreases schema, 0, |schema.fields| - i
  {
    if i == |schema.fields| then Ok(kwargs)
    else
      var f := schema.fields[i];
      if f.name !in d then ParsedFields(schema, i + 1, d, kwargs)
      else if f.cases != [] then
        var c := FirstCase(f.cases, kwargs);
        if c.None? then ParsedFields(schema, i + 1, d, kwargs)
        else
          var v :- Parsed(c.value.schema, d[f.name]);
          ParsedFields(schema, i + 1, d, kwargs[f.name := v])
      else
        var ty := if f.ty.Optional? then f.ty.inner else f.ty;
        if ty.Data? then
          var v :- Parsed(ty.schema, d[f.name]);
          ParsedFields(schema, i + 1, d, kwargs[f.name := v])
        else ParsedFields(schema, i + 1, d, kwargs[f.name := Raw(d[f.name])])
  }

  /** `_parse`, with its loop over the fields and its recursion into nested dataclasses. */
  method Parse(schema: Schema, d: Json) returns (r: Result<Value, ParseError>)
    ensures r == Parsed(schema, d)
    decreases schema
  {
    if !d.JObj? {
      return Err(NotAnObject(schema.name));
    }
    var obj := d.fields;
    var kwargs: map<string, Value> := map[];
    var i := 0;
    while i < |schema.fields|
      invariant 0 <= i <= |schema.fields|
      invariant ParsedFields(schema, i, obj, kwargs) == ParsedFields(schema, 0, obj, map[])
    {
      var f := schema.fields[i];
      i := i + 1;
      if f.name !in obj {
        continue;
      }
      var realTy := f.ty;
      if f.cases != [] {
        var found := FirstCase(f.cases, kwargs);
        if found.None? {
          continue;
        }
        realTy := Data(found.value.schema);
      } else if f.ty.Optional? {
        realTy := f.ty.inner;
      }
      if realTy.Data? {
        var v := Parse(realTy.schema, obj[f.name]);
        if v.Err? {
          return Err(v.error);
        }
        kwargs := kwargs[f.name := v.value];
      } else {
        kwargs := kwargs[f.name := Raw(obj[f.name])];
      }
    }
    r := Construct(schema, kwargs, 0, map[]);
  }

  /** A field absent from the input is never given a keyword argument. */
  lemma {:induction false} ParsedFieldsKeys(schema: Schema, i: nat, d: map<string, Json>, kwargs: map<string, Value>)
    requires i <= |schema.fields|
    requires ParsedFields(schema, i, d, kwargs).Ok?
    ensures forall k :: k in ParsedFields(schema, i, d, kwargs).value ==>
      k in kwargs || (k in d && exists j :: i <= j < |schema.fields| && schema.fields[j].name == k)
    ensures forall k :: k in kwargs ==> k in ParsedFields(schema, i, d, kwargs).value
    decreases |schema.fields| - i
  {
    if i < |schema.fields| {
      var f := schema.fields[i];
      if f.name !in d {
        ParsedFieldsKeys(schema, i + 1, d, kwargs);
      } else if f.cases != [] {
        var c := FirstCase(f.cases, kwargs);
        if c.None? {
          ParsedFieldsKeys(schema, i + 1, d, kwargs);
        } else {
          var v := Parsed(c.value.schema, d[f.name]).value;
          ParsedFieldsKeys(schema, i + 1, d, kwargs[f.name := v]);
        }
      } else {
        var ty := if f.ty.Optional? then f.ty.inner else f.ty;
        if ty.Data? {
          var v := Parsed(ty.schema, d[f.name]).value;
          ParsedFieldsKeys(schema, i + 1, d, kwargs[f.name := v]);
        } else {
          ParsedFieldsKeys(schema, i + 1, d, kwargs[f.name := Raw(d[f.name])]);
        }
      }
    }
  }

  /** Construction succeeds exactly when every required field has a keyword argument. */
  lemma {:induction false} ConstructOk(schema: Schema, kwargs: map<string, Value>, i: nat, acc: map<string, Value>)
    requires i <= |schema.fields|
    ensures Construct(schema, kwargs, i, acc).Ok? <==>
      forall j :: i <= j < |schema.fields| && schema.fields[j].default.None? ==> schema.fields[j].name in kwargs
    decreases |schema.fields| - i
  {
    if i < |schema.fields| {
      var f := schema.fields[i];
      if f.name in kwargs {
        ConstructOk(schema, kwargs, i + 1, acc[f.name := kwargs[f.name]]);
      } else if f.default.Some? {
        ConstructOk(schema, kwargs, i + 1, acc[f.name := Raw(f.default.value)]);
      }
    }
  }

  /** The argument a field receives: its keyword argument, else its default. */
  function Argument(f: Field, kwargs: map<string, Value>): Value
    requires f.name in kwargs || f.default.Some?
  {
    if f.name in kwargs then kwargs[f.name] else Raw(f.default.value)
  }

  /** A constructed instance holds, for every field, its keyword argument or else its default. */
  lemma {:induction false} ConstructValues(schema: Schema, kwargs: map<string, Value>, i: nat, acc: map<string, Value>)
    requires i <= |schema.fields| && DistinctNames(schema)
    requires Construct(schema, kwargs, i, acc).Ok?
    ensures var r := Construct(schema, kwargs, i, acc).value;
      forall j :: i <= j < |schema.fields| ==>
        && schema.fields[j].name in r.values
        && (schema.fields[j].name in kwargs || schema.fields[j].default.Some?)
        && r.values[schema.fields[j].name] == Argument(schema.fields[j], kwargs)
    decreases |schema.fields| - i
  {
    if i < |schema.fields| {
      var f := schema.fields[i];
      var acc' := acc[f.name := Argument(f, kwargs)];
      ConstructValues(schema, kwargs, i + 1, acc');
      ConstructKeeps(schema, kwargs, i + 1, acc', f.name);
    }
  }

  /** A value placed in the accumulator stays unless a later field of the same name replaces it. */
  lemma {:induction false} ConstructKeeps(schema: Schema, kwargs: map<string, Value>, i: nat, acc: map<string, Value>, k: string)
    requires i <= |schema.fields| && k in acc
    requires Construct(schema, kwargs, i, acc).Ok?
    ensures k in Construct(schema, kwargs, i, acc).value.values
    ensures (forall j :: i <= j < |schema.fields| ==> schema.fields[j].name != k) ==>
      Construct(schema, kwargs, i, acc).value.values[k] == acc[k]
    decreases |schema.fields| - i
  {
    if i < |schema.fields| {
      var f := schema.fields[i];
      if f.name in kwargs {
        ConstructKeeps(schema, kwargs, i + 1, acc[f.name := kwargs[f.name]], k);
      } else {
        ConstructKeeps(schema, kwargs, i + 1, acc[f.name := Raw(f.default.value)], k);
      }
    }
  }

  /** Field names within a schema are distinct, as they are in a dataclass. */
  predicate DistinctNames(schema: Schema) {
    forall i, j :: 0 <= i < j < |schema.fields| ==> schema.fields[i].name != schema.fields[j].name
  }

  /**
   * A successful parse gives an instance of the schema with a value for
   * every field, and a field absent from the input keeps its default.
   */
  lemma AbsentKeepsDefault(schema: Schema, d: map<string, Json>, j: nat)
    requires DistinctNames(schema) && j < |schema.fields|
    requires Parsed(schema, JObj(d)).Ok?
    requires schema.fields[j].name !in d
    ensures var r := Parsed(schema, JObj(d)).value;
      && r.Record? && r.schema == schema.name
      && schema.fields[j].default.Some?
      && schema.fields[j].name in r.values
      && r.values[schema.fields[j].name] == Raw(schema.fields[j].default.value)
  {
    var kwargs := ParsedFields(schema, 0, d, map[]).value;
    ParsedFieldsKeys(schema, 0, d, map[]);
    ConstructValues(schema, kwargs, 0, map[]);
  }

  /** A required field missing from the input makes construction fail. */
  lemma RequiredAbsentFails(schema: Schema, d: map<string, Json>, j: nat)
    requires j < |schema.fields| && schema.fields[j].default.None? && schema.fields[j].name !in d
    ensures Parsed(schema, JObj(d)).Err?
  {
    if ParsedFields(schema, 0, d, map[]).Ok? {
      var kwargs := ParsedFields(schema, 0, d, map[]).value;
      ParsedFieldsKeys(schema, 0, d, map[]);
      ConstructOk(schema, kwargs, 0, map[]);
    }
  }

  /** Two inputs that agree on the schema's field names. */
  predicate AgreeOn(schema: Schema, d1: map<string, Json>, d2: map<string, Json>) {
    forall f :: f in schema.fields ==> (f.name in d1 <==> f.name in d2) && (f.name in d1 ==> d1[f.name] == d2[f.name])
  }

  /** Only declared fields are read: keys outside the schema do not change the result. */
  lemma {:induction false} ExtraKeysIgnored(schema: Schema, i: nat, d1: map<string, Json>, d2: map<string, Json>, kwargs: map<string, Value>)
    requires i <= |schema.fields| && AgreeOn(schema, d1, d2)
    ensures ParsedFields(schema, i, d1, kwargs) == ParsedFields(schema, i, d2, kwargs)
    decreases |schema.fields| - i
  {
    if i < |schema.fields| {
      var f := schema.fields[i];
      assert f in schema.fields;
      if f.name !in d1 {
        ExtraKeysIgnored(schema, i + 1, d1, d2, kwargs);
      } else if f.cases != [] {
        var c := FirstCase(f.cases, kwargs);
        if c.None? {
          ExtraKeysIgnored(schema, i + 1, d1, d2, kwargs);
        } else if Parsed(c.value.schema, d1[f.name]).Ok? {
          ExtraKeysIgnored(schema, i + 1, d1, d2, kwargs[f.name := Parsed(c.value.schema, d1[f.name]).value]);
        }
      } else {
        var ty := if f.ty.Optional? then f.ty.inner else f.ty;
        if ty.Data? {
          if Parsed(ty.schema, d1[f.name]).Ok? {
            ExtraKeysIgnored(schema, i + 1, d1, d2, kwargs[f.name := Parsed(ty.schema, d1[f.name]).value]);
          }
        } else {
          ExtraKeysIgnored(schema, i + 1, d1, d2, kwargs[f.name := Raw(d1[f.name])]);
        }
      }
    }
  }

  /** The same for whole objects. */
  lemma ParsedIgnoresExtraKeys(schema: Schema, d1: map<string, Json>, d2: map<string, Json>)
    requires AgreeOn(schema, d1, d2)
    ensures Parsed(schema, JObj(d1)) == Parsed(schema, JObj(d2))
  {
    ExtraKeysIgnored(schema, 0, d1, d2, map[]);
  }

  /** FirstCase picks the earliest matching case. */
  lemma {:induction false} FirstCaseIsFirst(cases: seq<Case>, kwargs: map<string, Value>)
    ensures FirstCase(cases, kwargs).None? <==>
      forall k :: 0 <= k < |cases| ==> !(cases[k].key in kwargs && kwargs[cases[k].key] == Raw(JStr(cases[k].value)))
    ensures FirstCase(cases, kwargs).Some? ==>
      exists k :: 0 <= k < |cases| && cases[k] == FirstCase(cases, kwargs).value
        && cases[k].key in kwargs && kwargs[cases[k].key] == Raw(JStr(cases[k].value))
        && forall m :: 0 <= m < k ==> !(cases[m].key in kwargs && kwargs[cases[m].key] == Raw(JStr(cases[m].value)))
    decreases |cases|
  {
    if cases != [] {
      FirstCaseIsFirst(cases[1..], kwargs);
      if !(cases[0].key in kwargs && kwargs[cases[0].key] == Raw(JStr(cases[0].value))) {
        if FirstCase(cases, kwargs).Some? {
          var k :| 0 <= k < |cases[1..]| && cases[1..][k] == FirstCase(cases, kwargs).value
            && cases[1..][k].key in kwargs && kwargs[cases[1..][k].key] == Raw(JStr(cases[1..][k].value))
            && forall m :: 0 <= m < k ==> !(cases[1..][m].key in kwargs && kwargs[cases[1..][m].key] == Raw(JStr(cases[1..][m].value)));
          assert cases[k + 1] == cases[1..][k];
          forall m | 0 <= m < k + 1
            ensures !(cases[m].key in kwargs && kwargs[cases[m].key] == Raw(JStr(cases[m].value)))
          {
            if m > 0 {
              assert cases[m] == cases[1..][m - 1];
            }
          }
        } else {
          forall k | 0 <= k < |cases|
            ensures !(cases[k].key in kwargs && kwargs[cases[k].key] == Raw(JStr(cases[k].value)))
          {
            if k > 0 {
              assert cases[k] == cases[1..][k - 1];
            }
          }
        }
      } else {
        assert cases[0] == FirstCase(cases, kwargs).value;
      }
    }
  }

  // The dataclasses of oono_akira/slack/recv.py.

  function Str(name: string): Field {
    Field(name, Plain, None, [])
  }

  function OptField(name: string): Field {
    Field(name, Optional(Plain), Some(JNull), [])
  }

  const SlackEventPayload := Schema("SlackEventPayload", [
    Str("type"), Str("user"), Str("channel"), Str("ts"),
    OptField("text"), OptField("bot_id"), OptField("thread_ts"), OptField("blocks")])

  const SlackEventsApiPayload := Schema("SlackEventsApiPayload", [
    Str("type"), Str("team_id"), Str("event_id"), Field("event", Data(SlackEventPayload), None, [])])

  const SlackSlashCommandsPayload := Schema("SlackSlashCommandsPayload", [
    Str("team_id"), Str("channel_id"), Str("user_id"), Str("command"), Str("text"), Str("response_url")])

  const SlackWebSocketEventPayload := Schema("SlackWebSocketEventPayload", [
    Str("type"),
    OptField("envelope_id"),
    Field("payload", Optional(Plain), Some(JNull), [
      Case("type", "events_api", SlackEventsApiPayload),
      Case("type", "slash_commands", SlackSlashCommandsPayload)]),
    OptField("accepts_response_payload"),
    OptField("connection_info"),
    OptField("debug_info"),
    OptField("reason")])

  /** `SlackPayloadParser.parse` */
  function ParseFrame(data: Json): Result<Value, ParseError> {
    Parsed(SlackWebSocketEventPayload, data)
  }

  /**
   * The frame's `type` picks the payload schema: "events_api" gives a
   * SlackEventsApiPayload, "slash_commands" a SlackSlashCommandsPayload, and
   * any other type leaves `payload` at None.
   */
  lemma FramePayloadByType(d: map<string, Json>, t: string)
    requires "type" in d && d["type"] == JStr(t)
    requires ParseFrame(JObj(d)).Ok?
    ensures var r := ParseFrame(JObj(d)).value;
      && r.Record? && "payload" in r.values
      && (t == "events_api" && "payload" in d ==>
            Parsed(SlackEventsApiPayload, d["payload"]).Ok? && r.values["payload"] == Parsed(SlackEventsApiPayload, d["payload"]).value)
      && (t == "slash_commands" && "payload" in d ==>
            Parsed(SlackSlashCommandsPayload, d["payload"]).Ok? && r.values["payload"] == Parsed(SlackSlashCommandsPayload, d["payload"]).value)
      && (t != "events_api" && t != "slash_commands" ==> r.values["payload"] == Raw(JNull))
  {
    var s := SlackWebSocketEventPayload;
    var k1 := FramePrefix(d, t);
    var kwargs := ParsedFields(s, 0, d, map[]).value;
    ConstructValues(s, kwargs, 0, map[]);
    assert s.fields[2].name == "payload";
    if "payload" in d && (t == "events_api" || t == "slash_commands") {
      FrameSelected(d, t, k1);
    } else {
      FrameUnselected(d, t, k1);
    }
  }

  /** The first two fields of a frame: `type`, then `envelope_id` if present. */
  lemma FramePrefix(d: map<string, Json>, t: string) returns (k1: map<string, Value>)
    requires "type" in d && d["type"] == JStr(t)
    ensures ParsedFields(SlackWebSocketEventPayload, 0, d, map[]) == ParsedFields(SlackWebSocketEventPayload, 2, d, k1)
    ensures "type" in k1 && k1["type"] == Raw(JStr(t)) && "payload" !in k1
  {
    var s := SlackWebSocketEventPayload;
    var k0: map<string, Value> := map["type" := Raw(JStr(t))];
    assert ParsedFields(s, 0, d, map[]) == ParsedFields(s, 1, d, k0);
    k1 := if "envelope_id" in d then k0["envelope_id" := Raw(d["envelope_id"])] else k0;
    assert ParsedFields(s, 1, d, k0) == ParsedFields(s, 2, d, k1);
  }

  /** A known frame type parses `payload` with the schema its case names. */
  lemma FrameSelected(d: map<string, Json>, t: string, k1: map<string, Value>)
    requires "payload" in d && (t == "events_api" || t == "slash_commands")
    requires "type" in k1 && k1["type"] == Raw(JStr(t))
    requires ParsedFields(SlackWebSocketEventPayload, 2, d, k1).Ok?
    ensures var sub := if t == "events_api" then SlackEventsApiPayload else SlackSlashCommandsPayload;
      var r := ParsedFields(SlackWebSocketEventPayload, 2, d, k1).value;
      && Parsed(sub, d["payload"]).Ok?
      && "payload" in r && r["payload"] == Parsed(sub, d["payload"]).value
  {
    var s := SlackWebSocketEventPayload;
    var sub := if t == "events_api" then SlackEventsApiPayload else SlackSlashCommandsPayload;
    assert FirstCase(s.fields[2].cases, k1) == Some(Case("type", t, sub));
    var v := Parsed(sub, d["payload"]).value;
    var k2 := k1["payload" := v];
    assert ParsedFields(s, 2, d, k1) == ParsedFields(s, 3, d, k2);
    AfterPayload(d, k2);
  }

  /** Any other frame type, or an absent `payload`, gives `payload` no keyword argument. */
  lemma FrameUnselected(d: map<string, Json>, t: string, k1: map<string, Value>)
    requires !("payload" in d && (t == "events_api" || t == "slash_commands"))
    requires "type" in k1 && k1["type"] == Raw(JStr(t)) && "payload" !in k1
    requires ParsedFields(SlackWebSocketEventPayload, 2, d, k1).Ok?
    ensures "payload" !in ParsedFields(SlackWebSocketEventPayload, 2, d, k1).value
  {
    var s := SlackWebSocketEventPayload;
    if "payload" in d {
      assert FirstCase(s.fields[2].cases, k1).None?;
      assert ParsedFields(s, 2, d, k1) == ParsedFields(s, 3, d, k1);
    }
    AfterPayload(d, k1);
  }

  /** The fields after `payload` never add or change a `payload` keyword argument. */
  lemma AfterPayload(d: map<string, Json>, kwargs: map<string, Value>)
    requires ParsedFields(SlackWebSocketEventPayload, 3, d, kwargs).Ok?
    ensures var r := ParsedFields(SlackWebSocketEventPayload, 3, d, kwargs).value;
      ("payload" in r <==> "payload" in kwargs) && ("payload" in kwargs ==> r["payload"] == kwargs["payload"])
  {
    var s := SlackWebSocketEventPayload;
    var k := kwargs;
    var i := 3;
    while i < 7
      invariant 3 <= i <= 7
      invariant ParsedFields(s, i, d, k) == ParsedFields(s, 3, d, kwargs)
      invariant ("payload" in k <==> "payload" in kwargs) && ("payload" in kwargs ==> k["payload"] == kwargs["payload"])
    {
      var f := s.fields[i];
      if f.name in d {
        k := k[f.name := Raw(d[f.name])];
      }
      i := i + 1;
    }
  }

  /** The `event` of an events_api payload is a SlackEventPayload parsed recursively from the nested object. */
  lemma NestedEventParsed(d: map<string, Json>)
    requires "event" in d && Parsed(SlackEventsApiPayload, JObj(d)).Ok?
    ensures Parsed(SlackEventPayload, d["event"]).Ok?
    ensures var r := Parsed(SlackEventsApiPayload, JObj(d)).value;
      "event" in r.values && r.values["event"] == Parsed(SlackEventPayload, d["event"]).value
  {
    var s := SlackEventsApiPayload;
    var k := map[];
    var i := 0;
    while i < 3
      invariant 0 <= i <= 3
      invariant ParsedFields(s, i, d, k) == ParsedFields(s, 0, d, map[])
      invariant "event" !in k
    {
      var f := s.fields[i];
      if f.name in d {
        k := k[f.name := Raw(d[f.name])];
      }
      i := i + 1;
    }
    var kwargs := ParsedFields(s, 0, d, map[]).value;
    ConstructValues(s, kwargs, 0, map[]);
    assert s.fields[3].name == "event";
  }
}
