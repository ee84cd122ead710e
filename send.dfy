/**
 * The outbound half of the chat client (oono_akira/slack/send.py): the
 * payload dumper that turns dataclass instances into plain dictionaries, and
 * the request that `SlackAPI.__call__` prepares for a method path.  The HTTP
 * request itself is not part of this model.
 */
module Send {
  import opened Wrappers

  /** A Python value as the dumper sees it: plain data, a list, a dict, or a dataclass instance. */
  datatype Py =
    | PNone
    | PBool(b: bool)
    | PInt(n: int)
    | PStr(s: string)
    | PList(items: seq<Py>)
    | PDict(entries: map<string, Py>)
    | PData(cls: string, fields: seq<(string, Py)>)

  /** Field names of a dataclass instance are distinct. */
  predicate DistinctFields(fields: seq<(string, Py)>) {
    forall i, j :: 0 <= i < j < |fields| ==> fields[i].0 != fields[j].0
  }

  /** `SlackPayloadDumper.dump` */
  function Dumped(v: Py): (r: Py)
    ensures !v.PData? ==> r == v
    ensures v.PData? ==> r.PDict?
    decreases v, 1
  {
    if !v.PData? then v else PDict(DumpedFields(v, 0, map[]))
  }

  /** What one non-None field value is dumped to: a list element by element, anything else as a whole. */
  function DumpedValue(v: Py, x: Py): Py
    requires x < v
    decreases v, 0, 0
  {
    if x.PList? then PList(seq(|x.items|, k requires 0 <= k < |x.items| => Dumped(x.items[k])))
    else Dumped(x)
  }

  /** The field loop of `dump` from the i-th field on, with the dictionary built so far. */
  function DumpedFields(v: Py, i: nat, result: map<string, Py>): map<string, Py>
    requires v.PData? && i <= |v.fields|
    decreases v, 0, |v.fields| - i
  {
    if i == |v.fields| then result
    else
      var (name, x) := v.fields[i];
      assert v.fields[i] in v.fields;
      if x == PNone then DumpedFields(v, i + 1, result)
      else DumpedFields(v, i + 1, result[name := DumpedValue(v, x)])
  }

  /** `dump`, with its loop over the fields and its inner loop over a list field. */
  method Dump(d: Py) returns (r: Py)
    ensures r == Dumped(d)
    decreases d
  {
    if !d.PData? {
      return d;
    }
    var result: map<string, Py> := map[];
    var i := 0;
    while i < |d.fields|
      invariant 0 <= i <= |d.fields|
      invariant DumpedFields(d, i, result) == DumpedFields(d, 0, map[])
    {
      var (name, value) := d.fields[i];
      assert d.fields[i] in d.fields;
      i := i + 1;
      if value == PNone {
        continue;
      }
      var pending: Py;
      if value.PList? {
        var items: seq<Py> := [];
        var k := 0;
        while k < |value.items|
          invariant 0 <= k <= |value.items|
          invariant |items| == k
          invariant forall m :: 0 <= m < k ==> items[m] == Dumped(value.items[m])
        {
          var item := Dump(value.items[k]);
          items := items + [item];
          k := k + 1;
        }
        pending := PList(items);
      } else {
        pending := Dump(value);
      }
      assert pending == DumpedValue(d, value);
      result := result[name := pending];
    }
    return PDict(result);
  }

  /** The dumped dictionary holds exactly the names of the fields whose value is not None. */
  lemma {:induction false} DumpedFieldsKeys(v: Py, i: nat, result: map<string, Py>)
    requires v.PData? && i <= |v.fields|
    ensures DumpedFields(v, i, result).Keys ==
      result.Keys + set j | i <= j < |v.fields| && v.fields[j].1 != PNone :: v.fields[j].0
    decreases |v.fields| - i
  {
    if i < |v.fields| {
      var (name, x) := v.fields[i];
      var next := if x == PNone then result else result[name := DumpedValue(v, x)];
      DumpedFieldsKeys(v, i + 1, next);
      var later := set j | i + 1 <= j < |v.fields| && v.fields[j].1 != PNone :: v.fields[j].0;
      var here := set j | i <= j < |v.fields| && v.fields[j].1 != PNone :: v.fields[j].0;
      assert here == later + (if x == PNone then {} else {name}) by {
        forall n | n in here ensures n in later + (if x == PNone then {} else {name}) {
          var j :| i <= j < |v.fields| && v.fields[j].1 != PNone && v.fields[j].0 == n;
          if j > i {
            assert n in later;
          }
        }
      }
    }
  }

  /** `dump` omits exactly the fields whose value is None. */
  lemma DumpOmitsNone(cls: string, fields: seq<(string, Py)>)
    ensures Dumped(PData(cls, fields)).entries.Keys == set j | 0 <= j < |fields| && fields[j].1 != PNone :: fields[j].0
  {
    DumpedFieldsKeys(PData(cls, fields), 0, map[]);
  }

  /** An entry written for a field is not touched by the later fields, whose names differ. */
  lemma {:induction false} DumpedFieldsKeeps(v: Py, i: nat, result: map<string, Py>, name: string)
    requires v.PData? && i <= |v.fields| && name in result
    requires forall j :: i <= j < |v.fields| ==> v.fields[j].0 != name
    ensures name in DumpedFields(v, i, result) && DumpedFields(v, i, result)[name] == result[name]
    decreases |v.fields| - i
  {
    if i < |v.fields| {
      var (n, x) := v.fields[i];
      DumpedFieldsKeeps(v, i + 1, if x == PNone then result else result[n := DumpedValue(v, x)], name);
    }
  }

  /**
   * A list-valued field is dumped element by element, keeping its length
   * and order; any other non-None field value is dumped as a whole.
   */
  lemma {:induction false} DumpField(cls: string, fields: seq<(string, Py)>, j: nat)
    requires DistinctFields(fields) && j < |fields| && fields[j].1 != PNone
    ensures var out := Dumped(PData(cls, fields)).entries;
      && fields[j].0 in out
      && (fields[j].1.PList? ==>
            && out[fields[j].0].PList?
            && |out[fields[j].0].items| == |fields[j].1.items|
            && forall k :: 0 <= k < |fields[j].1.items| ==> out[fields[j].0].items[k] == Dumped(fields[j].1.items[k]))
      && (!fields[j].1.PList? ==> out[fields[j].0] == Dumped(fields[j].1))
  {
    var v := PData(cls, fields);
    var result := DumpedFieldsUpTo(v, j);
    assert DumpedFields(v, 0, map[]) == DumpedFields(v, j, result);
    var (name, x) := fields[j];
    assert fields[j] in fields;
    DumpedFieldsKeeps(v, j + 1, result[name := DumpedValue(v, x)], name);
  }

  /** The dictionary the loop has built before reaching the j-th field. */
  function DumpedFieldsUpTo(v: Py, j: nat): (result: map<string, Py>)
    requires v.PData? && j <= |v.fields|
    ensures DumpedFields(v, 0, map[]) == DumpedFields(v, j, result)
  {
    if j == 0 then map[]
    else
      var prev := DumpedFieldsUpTo(v, j - 1);
      var (name, x) := v.fields[j - 1];
      assert v.fields[j - 1] in v.fields;
      if x == PNone then prev else prev[name := DumpedValue(v, x)]
  }

  // SlackAPI: attribute access builds a method path; a call prepares one request.

  /** A `SlackAPI` object: its token and its path (the session is not modelled). */
  datatype Api = Api(token: Option<string>, path: seq<string>)

  /** `__getattr__(key)`: one more path segment, same token. */
  function Attr(api: Api, key: string): (r: Api)
    ensures r.token == api.token && r.path == api.path + [key]
  {
    Api(api.token, api.path + [key])
  }

  /** Attribute access by each key in turn, as in `api.chat.postMessage`. */
  function Attrs(api: Api, keys: seq<string>): Api
    decreases |keys|
  {
    if keys == [] then api else Attrs(Attr(api, keys[0]), keys[1..])
  }

  /** A chain of attribute accesses appends its keys to the path in order and keeps the token. */
  lemma {:induction false} AttrsPath(api: Api, keys: seq<string>)
    ensures Attrs(api, keys) == Api(api.token, api.path + keys)
    decreases |keys|
  {
    if keys != [] {
      AttrsPath(Attr(api, keys[0]), keys[1..]);
      assert api.path + [keys[0]] + keys[1..] == api.path + keys;
    } else {
      assert api.path + keys == api.path;
    }
  }

  /** `".".join(path)` */
  function Join(path: seq<string>): string
    decreases |path|
  {
    if path == [] then "" else if |path| == 1 then path[0] else path[0] + "." + Join(path[1..])
  }

  /** Joining one more segment appends "." and the segment. */
  lemma {:induction false} JoinSnoc(path: seq<string>, key: string)
    requires path != []
    ensures Join(path + [key]) == Join(path) + "." + key
    decreases |path|
  {
    if |path| == 1 {
      assert path + [key] == [path[0], key];
    } else {
      assert (path + [key])[1..] == path[1..] + [key];
      JoinSnoc(path[1..], key);
    }
  }

  const FormMime := "application/x-www-form-urlencoded"
  const JsonMime := "application/json"

  /** `SlackAPI.OPTIONS`: the HTTP method and mime type of the API names that differ from the default. */
  const Options: map<string, (string, Option<string>)> := map[
    "oauth.v2.access" := ("post", Some(FormMime)),
    "users.info" := ("get", None)]

  /** `OPTIONS.get(api, ("post", "application/json"))` */
  function MethodAndMime(api: string): (string, Option<string>) {
    if api in Options then Options[api] else ("post", Some(JsonMime))
  }

  /** The request `__call__` hands to the session. */
  datatype Request = Request(httpMethod: string, url: string, headers: map<string, string>, body: map<string, map<string, Py>>)

  /** `dict(**__data if __data else {}, **kwargs)`: a key given twice raises TypeError. */
  function Payload(data: Option<map<string, Py>>, kwargs: map<string, Py>): (r: Result<map<string, Py>, string>)
    ensures r.Err? <==> data.Some? && exists k :: k in data.value && k in kwargs
    ensures r.Ok? ==>
      && r.value.Keys == kwargs.Keys + (if data.Some? then data.value.Keys else {})
      && (forall k :: k in kwargs ==> r.value[k] == kwargs[k])
      && (data.Some? ==> forall k :: k in data.value ==> r.value[k] == data.value[k])
  {
    var base := if data.Some? then data.value else map[];
    if exists k :: k in base && k in kwargs then Err("dict() got multiple values for a keyword argument")
    else Ok(base + kwargs)
  }

  /** The f-string rendering of an optional mime type. */
  function MimeText(mime: Option<string>): string {
    if mime.Some? then mime.value else "None"
  }

  /** `__call__` up to the network request: payload, headers, and body keyword. */
  method Call(api: Api, data: Option<map<string, Py>>, kwargs: map<string, Py>) returns (r: Result<Request, string>)
    ensures r.Err? <==> Payload(data, kwargs).Err?
    ensures r.Ok? ==>
      var req := r.value;
      var name := Join(api.path);
      var (m, mime) := MethodAndMime(name);
      var payload := Payload(data, kwargs).value;
      && req.httpMethod == m
      && req.url == "https://slack.com/api/" + name
      && ("Content-Type" in req.headers <==> m == "post")
      && (m == "post" ==> req.headers["Content-Type"] == MimeText(mime) + "; charset=UTF-8")
      && ("Authorization" in req.headers <==> api.token.Some? && api.token.value != "")
      && ("Authorization" in req.headers ==> req.headers["Authorization"] == "Bearer " + api.token.value)
      && req.headers.Keys <= {"Content-Type", "Authorization"}
      && req.body == (if m == "post" && mime == Some(FormMime) then map["data" := payload]
                      else if m == "post" && mime == Some(JsonMime) then map["json" := payload]
                      else if m == "get" then map["params" := payload]
                      else map[])
  {
    var p := Payload(data, kwargs);
    if p.Err? {
      return Err(p.error);
    }
    var payload := p.value;
    var headers: map<string, string> := map[];
    var name := Join(api.path);
    var (m, mime) := MethodAndMime(name);
    var body: map<string, map<string, Py>> := map[];
    if m == "post" {
      headers := map["Content-Type" := MimeText(mime) + "; charset=UTF-8"];
      if mime == Some(FormMime) {
        body := body["data" := payload];
      } else if mime == Some(JsonMime) {
        body := body["json" := payload];
      }
    } else if m == "get" {
      body := body["params" := payload];
    }
    if api.token.Some? && api.token.value != "" {
      headers := headers["Authorization" := "Bearer " + api.token.value];
    }
    return Ok(Request(m, "https://slack.com/api/" + name, headers, body));
  }

  /** The names of OPTIONS pick form-encoded post and plain get; every other name is a JSON post. */
  lemma OptionsTable(name: string)
    ensures MethodAndMime("oauth.v2.access") == ("post", Some(FormMime))
    ensures MethodAndMime("users.info") == ("get", None)
    ensures name != "oauth.v2.access" && name != "users.info" ==> MethodAndMime(name) == ("post", Some(JsonMime))
  {
  }

  /** `api.oauth.v2.access` calls the API name "oauth.v2.access", so its request is a form post. */
  lemma OAuthPath(token: Option<string>)
    ensures Join(Attrs(Api(token, []), ["oauth", "v2", "access"]).path) == "oauth.v2.access"
    ensures MethodAndMime(Join(Attrs(Api(token, []), ["oauth", "v2", "access"]).path)).1 == Some(FormMime)
  {
    AttrsPath(Api(token, []), ["oauth", "v2", "access"]);
    assert [] + ["oauth", "v2", "access"] == ["oauth", "v2", "access"];
  }
}
