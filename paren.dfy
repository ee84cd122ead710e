/**
 * The bracket matcher (oono_akira/modules/_02_paren.py): a message that
 * leaves brackets open gets a reply that closes them.  The module still uses
 * a dict-shaped context: `context["event"]` is the event object and
 * `context["paren_stack"]` the slot where the check leaves the open stack.
 */
module Paren {
  import opened Wrappers
  import opened Json

  /** `_L`: the opening brackets. */
  const Openers: string := "([{（［｛⦅〚⦃“‘‹«「〈《【〔⦗『〖〘｢⟦⟨⟪⟮" + "⟬⌈⌊⦇⦉❛❝❨❪❴❬❮❰❲⏜⎴⏞⏠﹁﹃︹︻︗︿︽﹇︷"
  /** `_R`: the closing brackets, in the same order. */
  const Closers: string := ")]}）］｝⦆〛⦄”’›»」〉》】〕⦘』〗〙｣⟧⟩⟫⟯" + "⟭⌉⌋⦈⦊❜❞❩❫❵❭❯❱❳⏝⎵⏟⏡﹂﹄︺︼︘﹀︾﹈︸"

  /** `{l: r for l, r in zip(a, b)}`: pairs up to the shorter string; a later pair wins on a repeated key. */
  function Zip(a: string, b: string): map<char, char>
    decreases |a|
  {
    if a == [] || b == [] then map[] else map[a[0] := b[0]] + Zip(a[1..], b[1..])
  }

  /** `_MAPPING` */
  const Mapping: map<char, char> := Zip(Openers, Closers)

  predicate Distinct(s: string) {
    forall i, j :: 0 <= i < j < |s| ==> s[i] != s[j]
  }

  /** The keys of a zip are characters of the first string, its values characters of the second. */
  lemma {:induction false} ZipShape(a: string, b: string)
    ensures forall c :: c in Zip(a, b) ==> c in a && Zip(a, b)[c] in b
    decreases |a|
  {
    if a != [] && b != [] {
      ZipShape(a[1..], b[1..]);
    }
  }

  /** With distinct keys, the i-th character of the first string maps to the i-th character of the second. */
  lemma {:induction false} ZipPairs(a: string, b: string)
    requires Distinct(a) && |a| <= |b|
    ensures forall i :: 0 <= i < |a| ==> a[i] in Zip(a, b) && Zip(a, b)[a[i]] == b[i]
    decreases |a|
  {
    if a != [] {
      var rest := Zip(a[1..], b[1..]);
      ZipPairs(a[1..], b[1..]);
      ZipShape(a[1..], b[1..]);
      assert Zip(a, b) == map[a[0] := b[0]] + rest;
      forall i | 0 <= i < |a| ensures a[i] in Zip(a, b) && Zip(a, b)[a[i]] == b[i] {
        if i > 0 {
          assert a[i] == a[1..][i - 1] && b[i] == b[1..][i - 1];
          assert a[i] in rest && rest[a[i]] == b[i];
        } else {
          assert a[0] !in a[1..];
          assert a[0] !in rest;
        }
      }
    }
  }

  /** `_MAPPING` pairs the i-th opener with the i-th closer. */
  lemma MappingPairs()
    requires Distinct(Openers)
    ensures forall i :: 0 <= i < |Openers| ==> Openers[i] in Mapping && Mapping[Openers[i]] == Closers[i]
  {
    ZipPairs(Openers, Closers);
  }

  /** One character of the scan: an opener pushes its closer, the expected closer pops, anything else is ignored. */
  function ScanChar(m: map<char, char>, stack: seq<char>, c: char): seq<char> {
    if c in m then stack + [m[c]]
    else if stack != [] && stack[|stack| - 1] == c then stack[..|stack| - 1]
    else stack
  }

  /** The scan of `check_message` over `s`, starting from `stack`. */
  function ScanFrom(m: map<char, char>, stack: seq<char>, s: string): seq<char>
    decreases |s|
  {
    if s == [] then stack else ScanFrom(m, ScanChar(m, stack, s[0]), s[1..])
  }

  /** The stack of expected closers left after `text`, innermost last. */
  function Scan(text: string): seq<char> {
    ScanFrom(Mapping, [], text)
  }

  /** Scanning a concatenation continues from the stack the first part leaves. */
  lemma {:induction false} ScanAppend(m: map<char, char>, stack: seq<char>, a: string, b: string)
    ensures ScanFrom(m, stack, a + b) == ScanFrom(m, ScanFrom(m, stack, a), b)
    decreases |a|
  {
    if a == [] {
      assert a + b == b;
    } else {
      assert (a + b)[0] == a[0] && (a + b)[1..] == a[1..] + b;
      ScanAppend(m, ScanChar(m, stack, a[0]), a[1..], b);
    }
  }

  /** Every element of the stack is the closer of some opener. */
  lemma {:induction false} ScanHoldsClosers(m: map<char, char>, stack: seq<char>, s: string)
    requires forall k :: 0 <= k < |stack| ==> stack[k] in m.Values
    ensures forall k :: 0 <= k < |ScanFrom(m, stack, s)| ==> ScanFrom(m, stack, s)[k] in m.Values
    decreases |s|
  {
    if s != [] {
      var next := ScanChar(m, stack, s[0]);
      if s[0] in m {
        assert m[s[0]] in m.Values;
      }
      ScanHoldsClosers(m, next, s[1..]);
    }
  }

  /** `"".join(reversed(stack))` */
  function Reverse(s: seq<char>): (r: string)
    ensures |r| == |s| && forall i :: 0 <= i < |s| ==> r[i] == s[|s| - 1 - i]
    decreases |s|
  {
    if s == [] then [] else [s[|s| - 1]] + Reverse(s[..|s| - 1])
  }

  /** When no closer is also an opener, reading the reversed stack pops it to empty. */
  lemma {:induction false} ClosingEmpties(m: map<char, char>, stack: seq<char>)
    requires forall c :: c in m ==> m[c] !in m
    requires forall k :: 0 <= k < |stack| ==> stack[k] in m.Values
    ensures ScanFrom(m, stack, Reverse(stack)) == []
    decreases |stack|
  {
    if stack != [] {
      var top := stack[|stack| - 1];
      assert top in m.Values;
      var c :| c in m && m[c] == top;
      assert top !in m;
      var rest := stack[..|stack| - 1];
      assert Reverse(stack)[1..] == Reverse(rest);
      assert ScanChar(m, stack, top) == rest;
      ClosingEmpties(m, rest);
    }
  }

  /**
   * The reply closes everything: when no closer of the table is also an
   * opener, scanning a message followed by the reply's brackets leaves nothing open.
   */
  lemma ReplyCloses(m: map<char, char>, text: string)
    requires forall c :: c in m ==> m[c] !in m
    ensures ScanFrom(m, [], text + Reverse(ScanFrom(m, [], text))) == []
  {
    ScanAppend(m, [], text, Reverse(ScanFrom(m, [], text)));
    ScanHoldsClosers(m, [], text);
    ClosingEmpties(m, ScanFrom(m, [], text));
  }

  /** The same for `_MAPPING`, given that no character of `_R` occurs in `_L`. */
  lemma MappingReplyCloses(text: string)
    requires forall j :: 0 <= j < |Closers| ==> Closers[j] !in Openers
    ensures Scan(text + Reverse(Scan(text))) == []
  {
    ZipShape(Openers, Closers);
    forall c | c in Mapping ensures Mapping[c] !in Mapping {
      var j :| 0 <= j < |Closers| && Closers[j] == Mapping[c];
    }
    ReplyCloses(Mapping, text);
  }

  /**
   * One value that `for char in text` yields.  `char in _MAPPING` raises for
   * an unhashable list or dict; a one-character string is scanned; any other
   * value is neither a key of the mapping nor equal to a stacked closer.
   */
  function ScanValue(m: map<char, char>, stack: seq<char>, x: Json): Result<seq<char>, string> {
    if x.JArr? || x.JObj? then Err("TypeError: unhashable type")
    else if x.JStr? && |x.s| == 1 then Ok(ScanChar(m, stack, x.s[0]))
    else Ok(stack)
  }

  /** The scan over the values the loop yields, stopping at the first that raises. */
  function ScanValues(m: map<char, char>, stack: seq<char>, xs: seq<Json>): Result<seq<char>, string>
    decreases |xs|
  {
    if xs == [] then Ok(stack)
    else
      var next :- ScanValue(m, stack, xs[0]);
      ScanValues(m, next, xs[1..])
  }

  /** The one-character strings that iterating a str yields. */
  function Chars(s: string): seq<Json> {
    seq(|s|, i requires 0 <= i < |s| => JStr([s[i]]))
  }

  /** Iterating a string scans its characters, and never raises. */
  lemma {:induction false} ScanChars(m: map<char, char>, stack: seq<char>, s: string)
    ensures ScanValues(m, stack, Chars(s)) == Ok(ScanFrom(m, stack, s))
    decreases |s|
  {
    if s != [] {
      assert Chars(s)[0] == JStr([s[0]]);
      assert Chars(s)[1..] == Chars(s[1..]);
      ScanChars(m, ScanChar(m, stack, s[0]), s[1..]);
    }
  }

  /** The loop raises exactly when one of the values is a list or a dict. */
  lemma {:induction false} ScanValuesRaises(m: map<char, char>, stack: seq<char>, xs: seq<Json>)
    ensures ScanValues(m, stack, xs).Err? <==> exists i :: 0 <= i < |xs| && (xs[i].JArr? || xs[i].JObj?)
    decreases |xs|
  {
    if xs != [] && !(xs[0].JArr? || xs[0].JObj?) {
      ScanValuesRaises(m, ScanValue(m, stack, xs[0]).value, xs[1..]);
      if exists i :: 0 <= i < |xs[1..]| && (xs[1..][i].JArr? || xs[1..][i].JObj?) {
        var i :| 0 <= i < |xs[1..]| && (xs[1..][i].JArr? || xs[1..][i].JObj?);
        assert xs[i + 1] == xs[1..][i];
      }
      if exists i :: 0 <= i < |xs| && (xs[i].JArr? || xs[i].JObj?) {
        var i :| 0 <= i < |xs| && (xs[i].JArr? || xs[i].JObj?);
        assert i > 0 && xs[1..][i - 1] == xs[i];
      }
    }
  }

  /** `keys` lists the keys of an object once each, as Python's dict iteration does in insertion order. */
  predicate KeyOrder(fields: map<string, Json>, keys: seq<string>) {
    && (forall k :: k in fields ==> k in keys)
    && (forall i :: 0 <= i < |keys| ==> keys[i] in fields)
    && forall i, j :: 0 <= i < j < |keys| ==> keys[i] != keys[j]
  }

  /**
   * What `for char in text` walks: a string's characters, a list's elements,
   * a dict's keys in the order `keys` gives; a number or a bool is not iterable.
   */
  function Iterated(text: Json, keys: seq<string>): Option<seq<Json>> {
    match text
    case JStr(s) => Some(Chars(s))
    case JArr(items) => Some(items)
    case JObj(_) => Some(seq(|keys|, i requires 0 <= i < |keys| => JStr(keys[i])))
    case _ => None
  }

  /** The loop of `check_message`, pushing and popping the stack list. */
  method ScanIterated(m: map<char, char>, xs: seq<Json>) returns (r: Result<seq<char>, string>)
    ensures r == ScanValues(m, [], xs)
  {
    var stack := [];
    var i := 0;
    while i < |xs|
      invariant 0 <= i <= |xs|
      invariant ScanValues(m, stack, xs[i..]) == ScanValues(m, [], xs)
    {
      var x := xs[i];
      assert xs[i..][1..] == xs[i + 1..];
      if x.JArr? || x.JObj? {
        return Err("TypeError: unhashable type");
      }
      if x.JStr? && |x.s| == 1 {
        var c := x.s[0];
        if c in m {
          stack := stack + [m[c]];
        } else if stack != [] && stack[|stack| - 1] == c {
          stack := stack[..|stack| - 1];
        }
      }
      i := i + 1;
    }
    return Ok(stack);
  }

  /** The dict-shaped context of this module. */
  class ParenContext {
    /** `context["event"]` */
    var event: map<string, Json>
    /** `context["paren_stack"]`, absent until a check leaves something open. */
    var parenStack: Option<seq<char>>

    constructor (event: map<string, Json>)
      ensures this.event == event && parenStack == None
    {
      this.event := event;
      parenStack := None;
    }
  }

  /** `context["event"].get("text")` */
  function TextOf(event: map<string, Json>): Json {
    if "text" in event then event["text"] else JNull
  }

  /**
   * `check_message`: Ok(true) for its `True`, Ok(false) for its `None`.  A
   * missing or empty text returns at once; otherwise the loop walks what
   * iterating the text yields, `keys` being the order of an object text's
   * keys, and the stack is stored when something is left open.
   */
  method CheckMessage(ctx: ParenContext, keys: seq<string>) returns (r: Result<bool, string>)
    requires TextOf(ctx.event).JObj? ==> KeyOrder(TextOf(ctx.event).fields, keys)
    modifies ctx
    ensures ctx.event == old(ctx.event)
    ensures !Truthy(TextOf(ctx.event)) ==> r == Ok(false) && ctx.parenStack == old(ctx.parenStack)
    ensures Truthy(TextOf(ctx.event)) && Iterated(TextOf(ctx.event), keys).None? ==>
      r.Err? && ctx.parenStack == old(ctx.parenStack)
    ensures Truthy(TextOf(ctx.event)) && Iterated(TextOf(ctx.event), keys).Some? ==>
      var scan := ScanValues(Mapping, [], Iterated(TextOf(ctx.event), keys).value);
      && (scan.Err? ==> r.Err? && ctx.parenStack == old(ctx.parenStack))
      && (scan.Ok? ==>
            && r == Ok(scan.value != [])
            && ctx.parenStack == (if scan.value != [] then Some(scan.value) else old(ctx.parenStack)))
    ensures TextOf(ctx.event).JStr? && TextOf(ctx.event).s != "" ==>
      var stack := Scan(TextOf(ctx.event).s);
      && r == Ok(stack != [])
      && ctx.parenStack == (if stack != [] then Some(stack) else old(ctx.parenStack))
  {
    var text := TextOf(ctx.event);
    if !Truthy(text) {
      return Ok(false);
    }
    var items := Iterated(text, keys);
    if items.None? {
      return Err("TypeError: object is not iterable");
    }
    if text.JStr? {
      ScanChars(Mapping, [], text.s);
    }
    var scan := ScanIterated(Mapping, items.value);
    if scan.Err? {
      return Err(scan.error);
    }
    if scan.value != [] {
      ctx.parenStack := Some(scan.value);
      return Ok(true);
    }
    return Ok(false);
  }

  /** The reply text of `process`. */
  function ReplyText(stack: seq<char>): string {
    Reverse(stack) + " ○(￣^￣○)"
  }

  /** The body of `process`: channel and reply text, and `thread_ts` exactly when the event has one. */
  function ReplyBody(event: map<string, Json>, stack: seq<char>): (r: Result<map<string, Json>, string>)
    ensures r.Err? <==> "channel" !in event
    ensures r.Ok? ==>
      && "channel" in r.value && "text" in r.value
      && r.value["channel"] == event["channel"]
      && r.value["text"] == JStr(ReplyText(stack))
      && ("thread_ts" in r.value <==> "thread_ts" in event)
      && ("thread_ts" in event ==> r.value["thread_ts"] == event["thread_ts"])
      && r.value.Keys <= {"channel", "text", "thread_ts"}
  {
    if "channel" !in event then Err("KeyError: channel")
    else
      var body := map["channel" := event["channel"], "text" := JStr(ReplyText(stack))];
      if "thread_ts" in event then Ok(body["thread_ts" := event["thread_ts"]]) else Ok(body)
  }

  /** `process` reads back the stack the check stored; the reply's brackets are that stack read from the top. */
  lemma ReplyTextCloses(text: string)
    requires forall j :: 0 <= j < |Closers| ==> Closers[j] !in Openers
    ensures var t := ReplyText(Scan(text));
      && t[..|Scan(text)|] == Reverse(Scan(text))
      && Scan(text + t[..|Scan(text)|]) == []
  {
    MappingReplyCloses(text);
    var t := ReplyText(Scan(text));
    assert t[..|Scan(text)|] == Reverse(Scan(text));
  }
}
