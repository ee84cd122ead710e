/**
 * The idiom-chain game (oono_akira/modules/_03_idiom.py): the dictionary
 * index built once by `get_data`, the `message` handler that decides which
 * texts reach the game, and the BEGIN / ONGOING / END transitions of
 * `process` with the reply it posts.
 *
 * `random.choice` is an explicit pick: `Choice(items, pick)` is the element
 * at `pick % |items|`, so every element can be drawn and nothing else can.
 * The NFKD-to-ASCII normalisation of a syllable is the function parameter
 * `norm`.
 */
module Idiom {
  import opened Wrappers
  import opened Json

  /** One dictionary entry as `json.loads` gives it. */
  datatype RawEntry = RawEntry(word: string, pinyin: string, explanation: string)

  /** A kept entry with its normalised syllables (`item["pinyin_normalized"]`). */
  datatype Item = Item(word: string, explanation: string, syllables: seq<string>)

  /** The four parts of `dict_data`; a missing `begin`/`end` key is the defaultdict's empty list. */
  datatype Index = Index(
    begin: map<string, seq<Item>>,
    end: map<string, seq<Item>>,
    mapping: map<string, Item>,
    list: seq<Item>)

  const EmptyIndex := Index(map[], map[], map[], [])

  // ---------------------------------------------------------------------
  // `str.split()` on the pinyin string
  // ---------------------------------------------------------------------

  /**
   * The characters `str.split()` separates on, those of `str.isspace()`: the
   * ASCII controls \t to \r and U+001C to U+001F, the space, U+0085, U+00A0,
   * U+1680, U+2000 to U+200A, U+2028, U+2029, U+202F, U+205F and U+3000.
   */
  predicate IsSpace(c: char) {
    || c == ' '
    || '\t' <= c <= '\r'
    || '\U{001C}' <= c <= '\U{001F}'
    || c == '\U{0085}' || c == '\U{00A0}' || c == '\U{1680}'
    || '\U{2000}' <= c <= '\U{200A}'
    || c == '\U{2028}' || c == '\U{2029}' || c == '\U{202F}' || c == '\U{205F}' || c == '\U{3000}'
  }

  predicate NoSpace(w: string) {
    forall i :: 0 <= i < |w| ==> !IsSpace(w[i])
  }

  /** The length of the run of non-space characters that starts s. */
  function WordRun(s: string): (n: nat)
    ensures n <= |s| && NoSpace(s[..n])
    ensures n < |s| ==> IsSpace(s[n])
  {
    if s == [] || IsSpace(s[0]) then 0
    else
      var n := 1 + WordRun(s[1..]);
      assert s[..n] == [s[0]] + s[1..][..n - 1];
      n
  }

  /** `s.split()`: the maximal runs of non-space characters, in order. */
  function Split(s: string): (r: seq<string>)
    ensures forall i :: 0 <= i < |r| ==> r[i] != [] && NoSpace(r[i])
    decreases |s|
  {
    if s == [] then []
    else if IsSpace(s[0]) then Split(s[1..])
    else
      var n := WordRun(s);
      [s[..n]] + Split(s[n..])
  }

  /** `" ".join(words)` */
  function JoinSpaced(words: seq<string>): string {
    if words == [] then ""
    else if |words| == 1 then words[0]
    else words[0] + " " + JoinSpaced(words[1..])
  }

  lemma {:induction false} WordRunOf(w: string, tail: string)
    requires NoSpace(w)
    requires tail == [] || IsSpace(tail[0])
    ensures WordRun(w + tail) == |w|
    decreases |w|
  {
    if w == [] {
      assert w + tail == tail;
    } else {
      assert (w + tail)[1..] == w[1..] + tail;
      WordRunOf(w[1..], tail);
    }
  }

  lemma {:induction false} WordRunBefore(a: string, t: string)
    requires t != [] && IsSpace(t[0])
    ensures WordRun(a + t) == WordRun(a)
    decreases |a|
  {
    if a == [] {
      assert a + t == t;
    } else if !IsSpace(a[0]) {
      assert (a + t)[0] == a[0] && (a + t)[1..] == a[1..] + t;
      WordRunBefore(a[1..], t);
    } else {
      assert (a + t)[0] == a[0];
    }
  }

  /**
   * A whitespace character separates: the pieces of `a`, then those of `b`.
   * With SplitJoin on a single word, this pins `Split` down on every string.
   */
  lemma {:induction false} SplitAtSpace(a: string, c: char, b: string)
    requires IsSpace(c)
    ensures Split(a + [c] + b) == Split(a) + Split(b)
    decreases |a|
  {
    var s := a + [c] + b;
    if a == [] {
      assert s == [c] + b && s[1..] == b;
    } else if IsSpace(a[0]) {
      assert s[0] == a[0] && s[1..] == a[1..] + [c] + b;
      SplitAtSpace(a[1..], c, b);
    } else {
      assert s == a + ([c] + b);
      WordRunBefore(a, [c] + b);
      var n := WordRun(a);
      assert s[0] == a[0];
      assert s[..n] == a[..n];
      assert s[n..] == a[n..] + [c] + b;
      SplitAtSpace(a[n..], c, b);
    }
  }

  /** Splitting words joined by single spaces gives the words back. */
  lemma {:induction false} SplitJoin(words: seq<string>)
    requires forall i :: 0 <= i < |words| ==> words[i] != [] && NoSpace(words[i])
    ensures Split(JoinSpaced(words)) == words
    decreases |words|
  {
    if words == [] {
    } else if |words| == 1 {
      var w := words[0];
      WordRunOf(w, []);
      assert w + [] == w;
      assert w[|w|..] == [];
      assert w[..|w|] == w;
    } else {
      var w := words[0];
      var rest := " " + JoinSpaced(words[1..]);
      var s := w + rest;
      assert JoinSpaced(words) == s;
      WordRunOf(w, rest);
      assert s[..|w|] == w;
      assert s[|w|..] == rest;
      assert rest[1..] == JoinSpaced(words[1..]);
      SplitJoin(words[1..]);
      assert words == [w] + words[1..];
    }
  }

  // ---------------------------------------------------------------------
  // The index of `get_data`
  // ---------------------------------------------------------------------

  /** `list(map(normalise, pinyin))` */
  function Normalized(syllables: seq<string>, norm: string -> string): (r: seq<string>)
    ensures |r| == |syllables|
    ensures forall i :: 0 <= i < |r| ==> r[i] == norm(syllables[i])
  {
    seq(|syllables|, i requires 0 <= i < |syllables| => norm(syllables[i]))
  }

  /** The item an entry contributes: only entries of exactly four syllables are kept. */
  function ItemOf(e: RawEntry, norm: string -> string): (r: Option<Item>)
    ensures r.Some? <==> |Split(e.pinyin)| == 4
    ensures r.Some? ==>
      && r.value.word == e.word && r.value.explanation == e.explanation
      && r.value.syllables == Normalized(Split(e.pinyin), norm)
  {
    var p := Split(e.pinyin);
    if |p| != 4 then None else Some(Item(e.word, e.explanation, Normalized(p, norm)))
  }

  /** The kept items of a dictionary, in dictionary order. */
  function Kept(raw: seq<RawEntry>, norm: string -> string): seq<Item>
    decreases |raw|
  {
    if raw == [] then []
    else
      var x := ItemOf(raw[|raw| - 1], norm);
      Kept(raw[..|raw| - 1], norm) + (if x.Some? then [x.value] else [])
  }

  function Bucket(m: map<string, seq<Item>>, k: string): seq<Item> {
    if k in m then m[k] else []
  }

  function First(x: Item): string
    requires x.syllables != []
  {
    x.syllables[0]
  }

  function Last(x: Item): string
    requires x.syllables != []
  {
    x.syllables[|x.syllables| - 1]
  }

  /** The items of `items` whose first syllable is k, in order. */
  function WithFirst(items: seq<Item>, k: string): seq<Item> {
    if items == [] then []
    else
      var x := items[|items| - 1];
      WithFirst(items[..|items| - 1], k) + (if x.syllables != [] && First(x) == k then [x] else [])
  }

  /** The items of `items` whose last syllable is k, in order. */
  function WithLast(items: seq<Item>, k: string): seq<Item> {
    if items == [] then []
    else
      var x := items[|items| - 1];
      WithLast(items[..|items| - 1], k) + (if x.syllables != [] && Last(x) == k then [x] else [])
  }

  /** One iteration of the `get_data` loop on a kept item. */
  function Add(data: Index, x: Item): Index
    requires x.syllables != []
  {
    Index(
      data.begin[First(x) := Bucket(data.begin, First(x)) + [x]],
      data.end[Last(x) := Bucket(data.end, Last(x)) + [x]],
      data.mapping[x.word := x],
      data.list + [x])
  }

  /** `dict_data` after the loop over the whole dictionary. */
  function IndexOf(raw: seq<RawEntry>, norm: string -> string): Index
    decreases |raw|
  {
    if raw == [] then EmptyIndex
    else
      var d := IndexOf(raw[..|raw| - 1], norm);
      match ItemOf(raw[|raw| - 1], norm)
      case None => d
      case Some(x) => Add(d, x)
  }

  /**
   * What the index promises about its list: every item has four syllables,
   * `begin[k]` / `end[k]` hold exactly the items starting / ending with k in
   * list order and no bucket is empty, and `mapping` takes each word to an
   * item of the list carrying that word.
   */
  ghost predicate Indexes(d: Index) {
    && AllFour(d.list)
    && BucketsFilter(d)
    && NoEmptyBucket(d)
    && MappingAgrees(d)
  }

  predicate AllFour(list: seq<Item>) {
    forall i :: 0 <= i < |list| ==> |list[i].syllables| == 4
  }

  ghost predicate BucketsFilter(d: Index) {
    && (forall k :: Bucket(d.begin, k) == WithFirst(d.list, k))
    && (forall k :: Bucket(d.end, k) == WithLast(d.list, k))
  }

  predicate NoEmptyBucket(d: Index) {
    && (forall k :: k in d.begin ==> d.begin[k] != [])
    && (forall k :: k in d.end ==> d.end[k] != [])
  }

  predicate MappingAgrees(d: Index) {
    && (forall w :: w in d.mapping ==> d.mapping[w].word == w && d.mapping[w] in d.list)
    && (forall i :: 0 <= i < |d.list| ==> d.list[i].word in d.mapping)
  }

  /** Adding an item to the list extends exactly the filter of its own first syllable. */
  lemma WithFirstSnoc(items: seq<Item>, x: Item, k: string)
    ensures WithFirst(items + [x], k) == WithFirst(items, k) + (if x.syllables != [] && First(x) == k then [x] else [])
  {
    assert (items + [x])[..|items|] == items;
  }

  lemma WithLastSnoc(items: seq<Item>, x: Item, k: string)
    ensures WithLast(items + [x], k) == WithLast(items, k) + (if x.syllables != [] && Last(x) == k then [x] else [])
  {
    assert (items + [x])[..|items|] == items;
  }

  /** Appending an item to the bucket of its first syllable keeps every begin-bucket equal to its filter. */
  lemma AddBegin(begin: map<string, seq<Item>>, list: seq<Item>, x: Item)
    requires x.syllables != []
    requires forall k :: Bucket(begin, k) == WithFirst(list, k)
    ensures forall k :: Bucket(begin[First(x) := Bucket(begin, First(x)) + [x]], k) == WithFirst(list + [x], k)
  {
    forall k ensures Bucket(begin[First(x) := Bucket(begin, First(x)) + [x]], k) == WithFirst(list + [x], k) {
      WithFirstSnoc(list, x, k);
    }
  }

  /** The same for the end-buckets and last syllables. */
  lemma AddEnd(end: map<string, seq<Item>>, list: seq<Item>, x: Item)
    requires x.syllables != []
    requires forall k :: Bucket(end, k) == WithLast(list, k)
    ensures forall k :: Bucket(end[Last(x) := Bucket(end, Last(x)) + [x]], k) == WithLast(list + [x], k)
  {
    forall k ensures Bucket(end[Last(x) := Bucket(end, Last(x)) + [x]], k) == WithLast(list + [x], k) {
      WithLastSnoc(list, x, k);
    }
  }

  lemma AddBuckets(d: Index, x: Item)
    requires BucketsFilter(d) && x.syllables != []
    ensures forall k :: Bucket(Add(d, x).begin, k) == WithFirst(Add(d, x).list, k)
    ensures forall k :: Bucket(Add(d, x).end, k) == WithLast(Add(d, x).list, k)
  {
    AddBegin(d.begin, d.list, x);
    AddEnd(d.end, d.list, x);
  }

  lemma AddIndexes(d: Index, x: Item)
    requires Indexes(d) && |x.syllables| == 4
    ensures Indexes(Add(d, x))
  {
    AddBuckets(d, x);
    AddNoEmpty(d, x);
    AddMapping(d, x);
  }

  /** Appending to a bucket never leaves one empty. */
  lemma AddNoEmpty(d: Index, x: Item)
    requires NoEmptyBucket(d) && x.syllables != []
    ensures NoEmptyBucket(Add(d, x))
  {
    var d' := Add(d, x);
    forall k | k in d'.begin ensures d'.begin[k] != [] {
      if k != First(x) {
        assert d'.begin[k] == d.begin[k];
      }
    }
    forall k | k in d'.end ensures d'.end[k] != [] {
      if k != Last(x) {
        assert d'.end[k] == d.end[k];
      }
    }
  }

  /** The mapping keeps pointing into the list, and the list into the mapping. */
  lemma AddMapping(d: Index, x: Item)
    requires MappingAgrees(d) && x.syllables != []
    ensures MappingAgrees(Add(d, x))
  {
    var d' := Add(d, x);
    forall w | w in d'.mapping ensures d'.mapping[w].word == w && d'.mapping[w] in d'.list {
      if w != x.word {
        assert d.mapping[w] in d.list;
      }
    }
    forall i | 0 <= i < |d'.list| ensures d'.list[i].word in d'.mapping {
      if i < |d.list| {
        assert d'.list[i] == d.list[i];
      }
    }
  }

  lemma {:induction false} IndexOfIndexes(raw: seq<RawEntry>, norm: string -> string)
    ensures Indexes(IndexOf(raw, norm)) && IndexOf(raw, norm).list == Kept(raw, norm)
    decreases |raw|
  {
    if raw != [] {
      IndexOfIndexes(raw[..|raw| - 1], norm);
      var x := ItemOf(raw[|raw| - 1], norm);
      if x.Some? {
        AddIndexes(IndexOf(raw[..|raw| - 1], norm), x.value);
      }
    }
  }

  /** An entry is kept exactly when it has four syllables. */
  lemma {:induction false} KeptExactly(raw: seq<RawEntry>, norm: string -> string, x: Item)
    ensures x in Kept(raw, norm) <==> exists i :: 0 <= i < |raw| && ItemOf(raw[i], norm) == Some(x)
    decreases |raw|
  {
    if raw != [] {
      var init := raw[..|raw| - 1];
      KeptExactly(init, norm, x);
      if exists i :: 0 <= i < |init| && ItemOf(init[i], norm) == Some(x) {
        var i :| 0 <= i < |init| && ItemOf(init[i], norm) == Some(x);
        assert raw[i] == init[i];
      }
      if exists i :: 0 <= i < |raw| && ItemOf(raw[i], norm) == Some(x) {
        var i :| 0 <= i < |raw| && ItemOf(raw[i], norm) == Some(x);
        if i < |init| {
          assert init[i] == raw[i];
        }
      }
    }
  }

  // ---------------------------------------------------------------------
  // The game
  // ---------------------------------------------------------------------

  datatype Status = Begin | Ongoing | End

  /** `session.data` of one channel: `status` and `word`, each possibly absent. */
  datatype Session = Session(status: Option<Status>, word: Option<Item>)

  const NoSession := Session(None, None)

  /** What a turn of `process` leaves behind and answers. */
  datatype Outcome = Outcome(
    data: Index,
    session: Session,
    text: Option<string>,
    meaning: Option<string>,
    react: Option<string>)

  /** `random.choice(items)`: IndexError on an empty list. */
  function Choice(items: seq<Item>, pick: nat): (r: Result<Item, string>)
    ensures r.Ok? <==> items != []
    ensures r.Ok? ==> r.value in items
  {
    if items == [] then Err("IndexError: Cannot choose from an empty sequence")
    else Ok(items[pick % |items|])
  }

  /** Every element of a non-empty list is drawn for some pick. */
  lemma ChoiceCovers(items: seq<Item>, x: Item)
    requires x in items
    ensures exists pick: nat :: Choice(items, pick) == Ok(x)
  {
    var i :| 0 <= i < |items| && items[i] == x;
    assert i % |items| == i;
    assert Choice(items, i) == Ok(x);
  }

  /** `session.data["word"]` */
  function CurrentWord(s: Session): Result<Item, string> {
    if s.word.Some? then Ok(s.word.value) else Err("KeyError: 'word'")
  }

  /** `item["pinyin_normalized"][0]` */
  function FirstSyllable(x: Item): Result<string, string> {
    if x.syllables == [] then Err("IndexError: list index out of range") else Ok(First(x))
  }

  /** `item["pinyin_normalized"][-1]` */
  function LastSyllable(x: Item): Result<string, string> {
    if x.syllables == [] then Err("IndexError: list index out of range") else Ok(Last(x))
  }

  /** The bot plays `w`. */
  function Play(data: Index, s: Session, w: Item): Outcome {
    Outcome(data, s.(word := Some(w)), Some(w.word), Some(w.explanation), None)
  }

  /** The game ends with `text`. */
  function Stop(data: Index, s: Session, text: string): Outcome {
    Outcome(data, s.(status := Some(End)), Some(text), None, None)
  }

  /**
   * `data["begin"][k]`.  On the defaultdict (`defaulting`) a missing key is
   * inserted with an empty list; a plain lookup leaves the index as it is.
   */
  function ReadBegin(data: Index, k: string, defaulting: bool): (r: (Index, seq<Item>))
    ensures r.1 == Bucket(data.begin, k)
    ensures r.0 == if defaulting && k !in data.begin then data.(begin := data.begin[k := []]) else data
  {
    if k in data.begin then (data, data.begin[k])
    else if defaulting then (data.(begin := data.begin[k := []]), [])
    else (data, [])
  }

  /** The answer `不会`: the bot continues from the last syllable of its own word. */
  function GiveUp(data: Index, s: Session, pick: nat): Result<Outcome, string> {
    var current :- CurrentWord(s);
    var begin :- LastSyllable(current);
    if begin !in data.begin then Ok(Stop(data, s, "草，我也不会"))
    else
      var w :- Choice(data.begin[begin], pick);
      Ok(Play(data, s, w))
  }

  /** Any other answer: it must be a known word chaining onto the current one. */
  function Reply(data: Index, s: Session, answer: string, pick: nat, defaulting: bool): Result<Outcome, string> {
    if answer !in data.mapping then Ok(Outcome(data, s, None, None, Some("x")))
    else
      var found := data.mapping[answer];
      var first :- FirstSyllable(found);
      var current :- CurrentWord(s);
      var last :- LastSyllable(current);
      if first != last then Ok(Outcome(data, s, None, None, Some("x")))
      else
        var begin :- LastSyllable(found);
        var (data', bucket) := ReadBegin(data, begin, defaulting);
        if bucket == [] then Ok(Stop(data', s, "给我整不会了"))
        else
          var w :- Choice(bucket, pick);
          Ok(Play(data', s, w))
  }

  function Turn(data: Index, s: Session, answer: string, pick: nat, defaulting: bool): Result<Outcome, string> {
    match s.status
    case Some(Begin) =>
      var w :- Choice(data.list, pick);
      Ok(Play(data, s.(status := Some(Ongoing)), w))
    case Some(Ongoing) =>
      if answer == "不玩了" then Ok(Stop(data, s, "祝你身体健康"))
      else if answer == "不会" then GiveUp(data, s, pick)
      else Reply(data, s, answer, pick, defaulting)
    case _ => Ok(Outcome(data, s, None, None, None))
  }

  /** The session step of `process` as written, reading `begin` through the defaultdict. */
  function TurnAsWritten(data: Index, s: Session, answer: string, pick: nat): Result<Outcome, string> {
    Turn(data, s, answer, pick, true)
  }

  /** The session step of `process` with the bucket read that does not insert a key. */
  function Step(data: Index, s: Session, answer: string, pick: nat): Result<Outcome, string> {
    Turn(data, s, answer, pick, false)
  }

  /** A session the game can continue: while ONGOING, its word is an item of the index. */
  ghost predicate Playable(data: Index, s: Session) {
    s.status == Some(Ongoing) ==> s.word.Some? && s.word.value in data.list
  }

  /** BEGIN becomes ONGOING with a word drawn from the whole list, which is posted with its meaning. */
  lemma BeginStarts(data: Index, s: Session, answer: string, pick: nat)
    requires s.status == Some(Begin)
    ensures Step(data, s, answer, pick).Err? <==> data.list == []
    ensures Step(data, s, answer, pick).Ok? ==>
      var o := Step(data, s, answer, pick).value;
      && o.data == data && o.session.status == Some(Ongoing)
      && o.session.word.Some? && o.session.word.value in data.list
      && o.text == Some(o.session.word.value.word)
      && o.meaning == Some(o.session.word.value.explanation)
      && o.react == None
  {
  }

  /** `不玩了` ends an ongoing game with the farewell text and keeps the word. */
  lemma QuitEnds(data: Index, s: Session, pick: nat)
    requires s.status == Some(Ongoing)
    ensures Step(data, s, "不玩了", pick)
      == Ok(Outcome(data, Session(Some(End), s.word), Some("祝你身体健康"), None, None))
  {
  }

  /**
   * `不会` on a playable session: the game ends if no item starts with the
   * current word's last syllable, and otherwise the new word starts with it.
   */
  lemma GiveUpOutcomes(data: Index, s: Session, pick: nat)
    requires Indexes(data) && Playable(data, s) && s.status == Some(Ongoing)
    ensures Step(data, s, "不会", pick).Ok?
    ensures var o := Step(data, s, "不会", pick).value;
      var k := Last(s.word.value);
      && o.data == data && o.react == None
      && (WithFirst(data.list, k) == [] ==>
            o == Outcome(data, Session(Some(End), s.word), Some("草，我也不会"), None, None))
      && (WithFirst(data.list, k) != [] ==>
            && o.session.status == Some(Ongoing) && o.session.word.Some?
            && var w := o.session.word.value;
            && w in data.list && |w.syllables| == 4 && First(w) == k
            && o.text == Some(w.word) && o.meaning == Some(w.explanation))
  {
    var k := Last(s.word.value);
    assert Bucket(data.begin, k) == WithFirst(data.list, k);
    if k in data.begin {
      var w := Choice(data.begin[k], pick).value;
      WithFirstMembers(data.list, k, w);
    }
  }

  /** The members of `WithFirst(items, k)` are items that start with k. */
  lemma {:induction false} WithFirstMembers(items: seq<Item>, k: string, w: Item)
    requires w in WithFirst(items, k)
    ensures w in items && w.syllables != [] && First(w) == k
    decreases |items|
  {
    var init := items[..|items| - 1];
    var x := items[|items| - 1];
    if w in WithFirst(init, k) {
      WithFirstMembers(init, k, w);
      assert w in init;
    }
  }

  /**
   * Any other answer in an ongoing game.  An unknown word, or one that does
   * not start with the current word's last syllable, only gets the `x`
   * reaction and changes nothing.  A fitting word ends the game when no item
   * starts with its last syllable, and otherwise the bot's new word does.
   */
  lemma AnswerOutcomes(data: Index, s: Session, answer: string, pick: nat)
    requires Indexes(data) && Playable(data, s) && s.status == Some(Ongoing)
    requires answer != "不玩了" && answer != "不会"
    ensures Step(data, s, answer, pick).Ok?
    ensures var o := Step(data, s, answer, pick).value;
      && o.data == data
      && (|| answer !in data.mapping
          || First(data.mapping[answer]) != Last(s.word.value)
          <==> o == Outcome(data, s, None, None, Some("x")))
      && (answer in data.mapping && First(data.mapping[answer]) == Last(s.word.value) ==>
            var k := Last(data.mapping[answer]);
            && o.react == None
            && (WithFirst(data.list, k) == [] ==>
                  o == Outcome(data, Session(Some(End), s.word), Some("给我整不会了"), None, None))
            && (WithFirst(data.list, k) != [] ==>
                  && o.session.status == Some(Ongoing) && o.session.word.Some?
                  && var w := o.session.word.value;
                  && w in data.list && |w.syllables| == 4 && First(w) == k
                  && o.text == Some(w.word) && o.meaning == Some(w.explanation)))
  {
    if answer in data.mapping {
      var found := data.mapping[answer];
      assert found in data.list;
      if First(found) == Last(s.word.value) {
        var k := Last(found);
        assert Bucket(data.begin, k) == WithFirst(data.list, k);
        if WithFirst(data.list, k) != [] {
          var w := Choice(WithFirst(data.list, k), pick).value;
          WithFirstMembers(data.list, k, w);
        }
      }
    }
  }

  /** A status other than BEGIN and ONGOING (END, absent, anything else) posts nothing and changes nothing. */
  lemma IdleOtherwise(data: Index, s: Session, answer: string, pick: nat)
    requires s.status != Some(Begin) && s.status != Some(Ongoing)
    ensures Step(data, s, answer, pick) == Ok(Outcome(data, s, None, None, None))
  {
  }

  /**
   * On an index `get_data` built, a turn never fails unless a game starts
   * on an empty dictionary, never changes the index, and leaves the session
   * playable.
   */
  lemma StepKeepsPlayable(data: Index, s: Session, answer: string, pick: nat)
    requires Indexes(data) && Playable(data, s)
    ensures Step(data, s, answer, pick).Err? <==> s.status == Some(Begin) && data.list == []
    ensures Step(data, s, answer, pick).Ok? ==>
      Step(data, s, answer, pick).value.data == data && Playable(data, Step(data, s, answer, pick).value.session)
  {
    if s.status == Some(Ongoing) {
      if answer == "不会" {
        GiveUpOutcomes(data, s, pick);
      } else if answer != "不玩了" {
        AnswerOutcomes(data, s, answer, pick);
      }
    }
  }

  // ---------------------------------------------------------------------
  // The defaultdict read, as written
  // ---------------------------------------------------------------------

  /**
   * As written, a fitting answer whose last syllable starts no item plants
   * an empty `begin` bucket for that syllable.
   */
  lemma AsWrittenPlantsEmptyBucket(data: Index, s: Session, answer: string, pick: nat)
    requires Indexes(data) && Playable(data, s) && s.status == Some(Ongoing)
    requires answer != "不玩了" && answer != "不会"
    requires answer in data.mapping && First(data.mapping[answer]) == Last(s.word.value)
    requires Last(data.mapping[answer]) !in data.begin
    ensures TurnAsWritten(data, s, answer, pick).Ok?
    ensures var o := TurnAsWritten(data, s, answer, pick).value;
      && o.session.status == Some(End)
      && Last(data.mapping[answer]) in o.data.begin
      && o.data.begin[Last(data.mapping[answer])] == []
      && !Indexes(o.data)
  {
    assert data.mapping[answer] in data.list;
  }

  /** The two-entry dictionary of the counterexample: 甲乙丙丁 (p q r s) and 戊己庚辛 (s t u v). */
  const Jia := Item("甲乙丙丁", "e1", ["p", "q", "r", "s"])
  const Wu := Item("戊己庚辛", "e2", ["s", "t", "u", "v"])
  const Pair := Index(map["p" := [Jia], "s" := [Wu]], map["s" := [Jia], "v" := [Wu]],
    map["甲乙丙丁" := Jia, "戊己庚辛" := Wu], [Jia, Wu])

  lemma WithFirstPair(x: Item, y: Item, k: string)
    ensures WithFirst([x, y], k)
      == (if x.syllables != [] && First(x) == k then [x] else []) + (if y.syllables != [] && First(y) == k then [y] else [])
  {
    WithFirstSnoc([], x, k);
    WithFirstSnoc([x], y, k);
    assert [x] + [y] == [x, y];
  }

  lemma WithLastPair(x: Item, y: Item, k: string)
    ensures WithLast([x, y], k)
      == (if x.syllables != [] && Last(x) == k then [x] else []) + (if y.syllables != [] && Last(y) == k then [y] else [])
  {
    WithLastSnoc([], x, k);
    WithLastSnoc([x], y, k);
    assert [x] + [y] == [x, y];
  }

  /** The two-entry index is one `get_data` could have built. */
  lemma PairIndexes()
    ensures Indexes(Pair)
  {
    assert First(Jia) == "p" && Last(Jia) == "s" && First(Wu) == "s" && Last(Wu) == "v";
    forall k ensures Bucket(Pair.begin, k) == WithFirst(Pair.list, k) {
      WithFirstPair(Jia, Wu, k);
    }
    forall k ensures Bucket(Pair.end, k) == WithLast(Pair.list, k) {
      WithLastPair(Jia, Wu, k);
    }
  }

  /** `Pair` after the defaultdict read of `data["begin"]["v"]`. */
  const Planted := Pair.(begin := Pair.begin["v" := []])

  /**
   * As written, `process` can raise on `不会`.  The channel plays 甲乙丙丁 and
   * answers 戊己庚辛, which fits but leaves no item starting with "v": the
   * game ends and the defaultdict now holds `begin["v"] == []`.  A new game
   * that draws 戊己庚辛 and is answered `不会` passes the `"v" not in
   * data["begin"]` test and calls `random.choice([])`.
   */
  lemma AsWrittenGiveUpRaises()
    ensures TurnAsWritten(Pair, Session(Some(Ongoing), Some(Jia)), "戊己庚辛", 0)
      == Ok(Stop(Planted, Session(Some(Ongoing), Some(Jia)), "给我整不会了"))
    ensures TurnAsWritten(Planted, Session(Some(Begin), Some(Jia)), "成语接龙", 1)
      == Ok(Play(Planted, Session(Some(Ongoing), Some(Jia)), Wu))
    ensures TurnAsWritten(Planted, Session(Some(Ongoing), Some(Wu)), "不会", 0).Err?
  {
    assert Pair.mapping["戊己庚辛"] == Wu;
    assert "v" !in Pair.begin;
    assert "v" in Planted.begin && Planted.begin["v"] == [];
  }

  /**
   * The corrected read leaves the index as it is, so the same turns end the
   * second game with a reply instead of raising, as StepKeepsPlayable shows
   * for every index `get_data` builds.
   */
  lemma CorrectedGiveUpReplies()
    ensures Step(Pair, Session(Some(Ongoing), Some(Jia)), "戊己庚辛", 0)
      == Ok(Stop(Pair, Session(Some(Ongoing), Some(Jia)), "给我整不会了"))
    ensures Step(Pair, Session(Some(Begin), Some(Jia)), "成语接龙", 1)
      == Ok(Play(Pair, Session(Some(Ongoing), Some(Jia)), Wu))
    ensures Step(Pair, Session(Some(Ongoing), Some(Wu)), "不会", 0)
      == Ok(Stop(Pair, Session(Some(Ongoing), Some(Wu)), "草，我也不会"))
  {
    assert Pair.mapping["戊己庚辛"] == Wu;
    assert "v" !in Pair.begin;
  }

  // ---------------------------------------------------------------------
  // Reply bodies
  // ---------------------------------------------------------------------

  /** `{"type": "mrkdwn", "text": text}` */
  function Mrkdwn(text: string): Json {
    JObj(map["type" := JStr("mrkdwn"), "text" := JStr(text)])
  }

  /** The `chat.postMessage` body: a section with the text, then a context block with the meaning if there is one. */
  function MessageBody(channel: string, text: string, meaning: Option<string>): (r: map<string, Json>)
    ensures r.Keys == {"channel", "text", "blocks"}
    ensures r["channel"] == JStr(channel) && r["text"] == JStr(text)
    ensures r["blocks"].JArr? && |r["blocks"].items| == (if meaning.Some? then 2 else 1)
    ensures r["blocks"].items[0] == JObj(map["type" := JStr("section"), "text" := Mrkdwn(text)])
    ensures meaning.Some? ==>
      r["blocks"].items[1] == JObj(map["type" := JStr("context"), "elements" := JArr([Mrkdwn("> " + meaning.value)])])
  {
    var section := JObj(map["type" := JStr("section"), "text" := Mrkdwn(text)]);
    var blocks := [section] + match meaning {
      case Some(m) => [JObj(map["type" := JStr("context"), "elements" := JArr([Mrkdwn("> " + m)])])]
      case None => []
    };
    map["channel" := JStr(channel), "text" := JStr(text), "blocks" := JArr(blocks)]
  }

  /** The `reactions.add` body. */
  function ReactionBody(channel: string, name: string, ts: string): (r: map<string, Json>)
    ensures r.Keys == {"channel", "name", "timestamp"}
    ensures r["channel"] == JStr(channel) && r["name"] == JStr(name) && r["timestamp"] == JStr(ts)
  {
    map["channel" := JStr(channel), "name" := JStr(name), "timestamp" := JStr(ts)]
  }

  /** The calls `process` makes after its session step. */
  datatype Posted = Posted(message: Option<map<string, Json>>, reaction: Option<map<string, Json>>)

  function PostedOf(channel: string, ts: string, o: Outcome): Posted {
    Posted(
      if o.text.Some? then Some(MessageBody(channel, o.text.value, o.meaning)) else None,
      if o.react.Some? then Some(ReactionBody(channel, o.react.value, ts)) else None)
  }

  /** A text the handler passes on to `process` while a game is on. */
  predicate IsMove(text: string) {
    |text| == 4 || text == "不会" || text == "不玩了"
  }

  /** `handler`: the new session and whether `process` is returned. */
  function Gate(s: Session, text: Option<string>): (r: (Session, bool))
    ensures r.1 <==> text.Some? && (text.value == "成语接龙" || (IsMove(text.value) && s.status == Some(Ongoing)))
    ensures r.0 == if text == Some("成语接龙") then s.(status := Some(Begin)) else s
  {
    if text.None? || text.value == "" then (s, false)
    else if text.value == "成语接龙" then (s.(status := Some(Begin)), true)
    else if IsMove(text.value) then (s, s.status == Some(Ongoing))
    else (s, false)
  }

  /**
   * The session step of `process`, branch by branch: the status decides, and
   * the BEGIN draw, the `不会` continuation and the chain continuation each
   * pick from a list.  The bucket of a syllable no item starts with is read
   * as empty without being inserted.
   */
  method PlayTurn(data: Index, s: Session, answer: string, pick: nat) returns (r: Result<Outcome, string>)
    ensures r == Step(data, s, answer, pick)
  {
    var session := s;
    var text: Option<string> := None;
    var meaning: Option<string> := None;
    var react: Option<string> := None;
    if session.status == Some(Begin) {
      session := session.(status := Some(Ongoing));
      if data.list == [] {
        return Err("IndexError: Cannot choose from an empty sequence");
      }
      var word := data.list[pick % |data.list|];
      session := session.(word := Some(word));
      text, meaning := Some(word.word), Some(word.explanation);
    } else if session.status == Some(Ongoing) {
      if answer == "不玩了" {
        text := Some("祝你身体健康");
        session := session.(status := Some(End));
      } else if answer == "不会" {
        if session.word.None? {
          return Err("KeyError: 'word'");
        }
        if session.word.value.syllables == [] {
          return Err("IndexError: list index out of range");
        }
        var begin := Last(session.word.value);
        if begin !in data.begin {
          text := Some("草，我也不会");
          session := session.(status := Some(End));
        } else {
          var bucket := data.begin[begin];
          if bucket == [] {
            return Err("IndexError: Cannot choose from an empty sequence");
          }
          var word := bucket[pick % |bucket|];
          session := session.(word := Some(word));
          text, meaning := Some(word.word), Some(word.explanation);
        }
      } else {
        var found := if answer in data.mapping then Some(data.mapping[answer]) else None;
        if found.Some? && found.value.syllables == [] {
          return Err("IndexError: list index out of range");
        }
        if found.Some? && session.word.None? {
          return Err("KeyError: 'word'");
        }
        if found.Some? && session.word.value.syllables == [] {
          return Err("IndexError: list index out of range");
        }
        if found.None? || First(found.value) != Last(session.word.value) {
          react := Some("x");
        } else {
          var begin := Last(found.value);
          var bucket := Bucket(data.begin, begin);
          if bucket == [] {
            text := Some("给我整不会了");
            session := session.(status := Some(End));
          } else {
            var word := bucket[pick % |bucket|];
            session := session.(word := Some(word));
            text, meaning := Some(word.word), Some(word.explanation);
          }
        }
      }
    }
    return Ok(Outcome(data, session, text, meaning, react));
  }

  /** The module's state: the cached `dict_data` and the per-channel sessions of the store. */
  class IdiomGame {
    var dictData: Option<Index>
    var sessions: map<string, Session>

    constructor ()
      ensures dictData == None && sessions == map[]
    {
      dictData := None;
      sessions := map[];
    }

    /** `db.get_session(game="idiom", channel=channel).data` */
    function SessionOf(channel: string): Session
      reads this
    {
      if channel in sessions then sessions[channel] else NoSession
    }

    /** `get_data`: builds the index on the first call and returns the cached one afterwards. */
    method GetData(raw: seq<RawEntry>, norm: string -> string) returns (data: Index)
      modifies this
      ensures data == if old(dictData).Some? then old(dictData).value else IndexOf(raw, norm)
      ensures dictData == Some(data) && sessions == old(sessions)
    {
      if dictData.Some? {
        return dictData.value;
      }
      data := EmptyIndex;
      for i := 0 to |raw|
        invariant data == IndexOf(raw[..i], norm)
      {
        assert raw[..i + 1][..i] == raw[..i];
        var pinyin := Split(raw[i].pinyin);
        if |pinyin| != 4 {
          continue;
        }
        var normalized := Normalized(pinyin, norm);
        var item := Item(raw[i].word, raw[i].explanation, normalized);
        var begin := normalized[0];
        var end := normalized[3];
        data := data.(begin := data.begin[begin := Bucket(data.begin, begin) + [item]]);
        data := data.(end := data.end[end := Bucket(data.end, end) + [item]]);
        data := data.(mapping := data.mapping[item.word := item]);
        data := data.(list := data.list + [item]);
      }
      assert raw[..|raw|] == raw;
      dictData := Some(data);
    }

    /** `handler`: returns the channel as the queue name when `process` should run. */
    method Handler(channel: string, text: Option<string>) returns (r: Option<string>)
      modifies this
      ensures (SessionOf(channel), r.Some?) == Gate(old(SessionOf(channel)), text)
      ensures r.Some? ==> r.value == channel
      ensures forall c :: c != channel ==> SessionOf(c) == old(SessionOf(c))
      ensures dictData == old(dictData)
    {
      if text.None? || text.value == "" {
        return None;
      }
      if text.value == "成语接龙" {
        sessions := sessions[channel := SessionOf(channel).(status := Some(Begin))];
        return Some(channel);
      } else if IsMove(text.value) {
        if SessionOf(channel).status != Some(Ongoing) {
          return None;
        }
        return Some(channel);
      }
      return None;
    }

    /**
     * `process` for a message in `channel`: one session step on the index,
     * then the message and reaction it posts.  An exception leaves the
     * session as it was.
     */
    method Process(channel: string, answer: string, ts: string, raw: seq<RawEntry>, norm: string -> string, pick: nat)
      returns (r: Result<Posted, string>)
      modifies this
      ensures var data := if old(dictData).Some? then old(dictData).value else IndexOf(raw, norm);
        var step := Step(data, old(SessionOf(channel)), answer, pick);
        && (step.Err? ==> r.Err? && sessions == old(sessions) && dictData == Some(data))
        && (step.Ok? ==>
              && r == Ok(PostedOf(channel, ts, step.value))
              && sessions == old(sessions)[channel := step.value.session]
              && dictData == Some(step.value.data))
    {
      var data := GetData(raw, norm);
      var turn := PlayTurn(data, SessionOf(channel), answer, pick);
      if turn.Err? {
        return Err(turn.error);
      }
      var o := turn.value;
      sessions := sessions[channel := o.session];
      dictData := Some(o.data);
      var message: Option<map<string, Json>> := None;
      if o.text.Some? {
        message := Some(MessageBody(channel, o.text.value, o.meaning));
      }
      var reaction: Option<map<string, Json>> := None;
      if o.react.Some? {
        reaction := Some(ReactionBody(channel, o.react.value, ts));
      }
      return Ok(Posted(message, reaction));
    }
  }
}
