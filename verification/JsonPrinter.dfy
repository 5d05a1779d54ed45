/**
 * The text `JSON.stringify(value, null, 2)` writes fragments with, and that reading it back gives the value
 * (fsx.ts:66-68).
 */
module JsonPrinter {
  import opened Wrappers
  import opened JsonGrammar
  import opened JsonSpelling

  // ---- what is printed -------------------------------------------------------------------------

  function LowerHex(n: nat): Unit
    requires n < 16
  {
    if n < 10 then 48 + n else 87 + n
  }

  function FourDigits(u: Unit): Text {
    [LowerHex(u / 4096), LowerHex(u / 256 % 16), LowerHex(u / 16 % 16), LowerHex(u % 16)]
  }

  predicate IsLead(u: Unit) {
    0xD800 <= u < 0xDC00
  }

  predicate IsTrail(u: Unit) {
    0xDC00 <= u < 0xE000
  }

  /** The short escape of a unit, where there is one. */
  function ShortEscape(u: Unit): Option<Unit> {
    if u == QUOTE || u == BACKSLASH then Some(u)
    else if u == 8 then Some(98) else if u == 9 then Some(116) else if u == 10 then Some(110)
    else if u == 12 then Some(102)
    else if u == 13 then Some(114) else None
  }

  function UnitText(u: Unit): Text {
    match ShortEscape(u)
    case Some(e) => [BACKSLASH, e]
    case None => if u < 0x20 || IsLead(u) || IsTrail(u) then [BACKSLASH, LOWER_U] + FourDigits(u) else [u]
  }

  /** A string between its quotes; only surrogates in pairs are written as they are. */
  function StringText(s: Text): Text {
    if s == [] then []
    else if |s| >= 2 && IsLead(s[0]) && IsTrail(s[1]) then [s[0], s[1]] + StringText(s[2..])
    else UnitText(s[0]) + StringText(s[1..])
  }

  function Spaces(n: nat): Text {
    if n == 0 then [] else [SPACE] + Spaces(n - 1)
  }

  function Break(n: nat): Text {
    [NEWLINE] + Spaces(n)
  }

  function Width(v: Json): nat {
    match v case JArray(items) => |items| case JObject(members) => |members| case _ => 0
  }

  function IntText(n: int): Text {
    if n < 0 then [MINUS] + Digits(-n) else Digits(n)
  }

  function Print(v: Json, n: nat): Text
    decreases v, Width(v) + 1
  {
    match v
    case JNull => NULL
    case JBool(b) => if b then TRUE else FALSE
    case JNumber(Exactly(i)) => IntText(i)
    case JNumber(Written(raw)) => raw
    case JString(text) => [QUOTE] + StringText(text) + [QUOTE]
    case JArray(items) =>
      if items == [] then [OPEN_BRACKET, CLOSE_BRACKET]
      else [OPEN_BRACKET] + Break(n + 2) + PrintItems(v, 0, n) + [CLOSE_BRACKET]
    case JObject(members) =>
      if members == [] then [OPEN_BRACE, CLOSE_BRACE]
      else [OPEN_BRACE] + Break(n + 2) + PrintMembers(v, 0, n) + [CLOSE_BRACE]
  }

  function PrintItems(v: Json, k: nat, n: nat): Text
    requires v.JArray? && k < |v.items|
    decreases v, |v.items| - k
  {
    var item := Print(v.items[k], n + 2);
    if k + 1 == |v.items| then item + Break(n) else item + [COMMA] + Break(n + 2) + PrintItems(v, k + 1, n)
  }

  function PrintMembers(v: Json, k: nat, n: nat): Text
    requires v.JObject? && k < |v.members|
    decreases v, |v.members| - k
  {
    var value := Print(v.members[k].value, n + 2);
    var member := [QUOTE] + StringText(v.members[k].key) + [QUOTE] + [COLON] + [SPACE] + value;
    if k + 1 == |v.members| then member + Break(n) else member + [COMMA] + Break(n + 2) + PrintMembers(v, k + 1, n)
  }

  /** Integers doubles hold exactly, each key once, and no key that would set a prototype. */
  predicate Printable(v: Json) {
    match v
    case JNumber(number) => number.Exactly? && -MAX_SAFE_INTEGER <= number.n <= MAX_SAFE_INTEGER
    case JArray(items) => forall k | 0 <= k < |items| :: Printable(items[k])
    case JObject(members) =>
      && (forall k | 0 <= k < |members| :: members[k].key != PROTO && Printable(members[k].value))
      && (forall j, k | 0 <= j < k < |members| :: members[j].key != members[k].key)
    case _ => true
  }

  // ---- the same text as a spelling ---------------------------------------------------------------

  function UnitChar(u: Unit): Char {
    match ShortEscape(u)
    case Some(e) => Escaped(e)
    case None => if u < 0x20 || IsLead(u) || IsTrail(u) then Hexed(FourDigits(u)) else Plain(u)
  }

  function CharsOf(s: Text): seq<Char> {
    if s == [] then []
    else if |s| >= 2 && IsLead(s[0]) && IsTrail(s[1]) then [Plain(s[0]), Plain(s[1])] + CharsOf(s[2..])
    else [UnitChar(s[0])] + CharsOf(s[1..])
  }

  function Blanks(n: nat): Gap {
    if n == 0 then [] else [Blank(SPACE)] + Blanks(n - 1)
  }

  function BreakGap(n: nat): Gap {
    [Blank(NEWLINE)] + Blanks(n)
  }

  function DocOf(v: Json, n: nat): Doc
    requires Printable(v)
    decreases v, Width(v) + 1
  {
    match v
    case JNull => NullDoc
    case JBool(b) => BoolDoc(b)
    case JNumber(number) => IntDoc(Plainly(number.n))
    case JString(text) => StringDoc(QUOTE, CharsOf(text))
    case JArray(items) => if items == [] then ArrayDoc([], NoItems) else ArrayDoc(BreakGap(n + 2), ItemsOf(v, 0, n))
    case JObject(members) =>
      if members == [] then ObjectDoc([], NoEntries) else ObjectDoc(BreakGap(n + 2), EntriesOf(v, 0, n))
  }

  function ItemsOf(v: Json, k: nat, n: nat): Items
    requires v.JArray? && k < |v.items| && Printable(v)
    decreases v, |v.items| - k
  {
    if k + 1 == |v.items| then LastItem(DocOf(v.items[k], n + 2), BreakGap(n))
    else ItemThen(DocOf(v.items[k], n + 2), [], BreakGap(n + 2), ItemsOf(v, k + 1, n))
  }

  function EntriesOf(v: Json, k: nat, n: nat): Entries
    requires v.JObject? && k < |v.members| && Printable(v)
    decreases v, |v.members| - k
  {
    var key := Quoted(QUOTE, CharsOf(v.members[k].key));
    if k + 1 == |v.members| then LastEntry(key, [], [Blank(SPACE)], DocOf(v.members[k].value, n + 2), BreakGap(n))
    else EntryThen(key, [], [Blank(SPACE)], DocOf(v.members[k].value, n + 2), [], BreakGap(n + 2),
        EntriesOf(v, k + 1, n))
  }

  // ---- strings ---------------------------------------------------------------------------------

  lemma FourDigitsRead(u: Unit)
    ensures FourHex(FourDigits(u)) && UnicodeValue(FourDigits(u)) == u
  {
    var a, b, c, d := u / 4096, u / 256 % 16, u / 16 % 16, u % 16;
    assert u == ((a * 16 + b) * 16 + c) * 16 + d;
    forall x: nat | x < 16 ensures IsHex(LowerHex(x)) && HexValue(LowerHex(x)) == x {}
  }

  lemma UnitRead(u: Unit)
    ensures CharOk(UnitChar(u), QUOTE) && CharText(UnitChar(u)) == UnitText(u) && CharMeaning(UnitChar(u)) == [u]
  {
    FourDigitsRead(u);
  }

  lemma CharsCons(c: Char, chars: seq<Char>)
    requires CharOk(c, QUOTE) && CharsOk(chars, QUOTE)
    ensures CharsOk([c] + chars, QUOTE) && CharsText([c] + chars) == CharText(c) + CharsText(chars)
    ensures CharsMeaning([c] + chars) == CharMeaning(c) + CharsMeaning(chars)
  {
    assert ([c] + chars)[1..] == chars;
  }

  lemma {:induction false} CharsRead(s: Text)
    ensures CharsOk(CharsOf(s), QUOTE) && CharsText(CharsOf(s)) == StringText(s) && CharsMeaning(CharsOf(s)) == s
    decreases |s|
  {
    if s != [] {
      if |s| >= 2 && IsLead(s[0]) && IsTrail(s[1]) {
        CharsRead(s[2..]);
        PairRead(s, CharsOf(s[2..]));
      } else {
        UnitRead(s[0]);
        CharsRead(s[1..]);
        hide UnitText, UnitChar, CharOk, CharText, CharMeaning, CharsText, CharsMeaning;
        CharsCons(UnitChar(s[0]), CharsOf(s[1..]));
        assert [s[0]] + s[1..] == s;
      }
    }
  }

  lemma PairRead(s: Text, chars: seq<Char>)
    requires |s| >= 2 && IsLead(s[0]) && IsTrail(s[1]) && CharsOk(chars, QUOTE) && CharsMeaning(chars) == s[2..]
    ensures var all := [Plain(s[0]), Plain(s[1])] + chars;
            CharsOk(all, QUOTE) && CharsText(all) == [s[0], s[1]] + CharsText(chars) && CharsMeaning(all) == s
  {
    CharsCons(Plain(s[1]), chars);
    CharsCons(Plain(s[0]), [Plain(s[1])] + chars);
    assert [Plain(s[0])] + ([Plain(s[1])] + chars) == [Plain(s[0]), Plain(s[1])] + chars;
    assert [s[0]] + ([s[1]] + s[2..]) == s;
    assert [s[0]] + ([s[1]] + CharsText(chars)) == [s[0], s[1]] + CharsText(chars);
  }

  lemma {:induction false} BlanksRead(n: nat)
    ensures GapOk(Blanks(n)) && GapText(Blanks(n)) == Spaces(n)
  {
    if n > 0 {
      BlanksRead(n - 1);
      assert Blanks(n)[1..] == Blanks(n - 1);
    }
  }

  lemma BreakRead(n: nat)
    ensures GapOk(BreakGap(n)) && GapText(BreakGap(n)) == Break(n)
  {
    BlanksRead(n);
    assert BreakGap(n)[1..] == Blanks(n);
  }

  lemma SpaceRead()
    ensures GapOk([Blank(SPACE)]) && GapText([Blank(SPACE)]) == [SPACE] && GapText([]) == [] && GapOk([])
  {
    assert [Blank(SPACE)][1..] == [];
  }

  // ---- values ----------------------------------------------------------------------------------

  lemma {:induction false} PutFresh(out: seq<Member>, key: Text, value: Json)
    requires key != PROTO && forall k | 0 <= k < |out| :: out[k].key != key
    ensures Put(out, key, value) == out + [Member(key, value)]
  {
    if out != [] {
      PutFresh(out[1..], key, value);
      assert [out[0]] + (out[1..] + [Member(key, value)]) == out + [Member(key, value)];
    }
  }

  /** The spelling of a value prints as the value does, and means the value. */
  lemma {:induction false} DocPrints(v: Json, n: nat)
    requires Printable(v)
    ensures DocOk(DocOf(v, n)) && DocText(DocOf(v, n)) == Print(v, n) && Meaning(DocOf(v, n)) == v
    decreases v, Width(v) + 1
  {
    match v
    case JString(text) => CharsRead(text);
    case JArray(items) =>
      if items == [] { SpaceRead(); } else { BreakRead(n + 2); ItemsPrint(v, 0, n); }
    case JObject(members) =>
      if members == [] { SpaceRead(); } else { BreakRead(n + 2); EntriesPrint(v, 0, n); EntriesMean(v, 0, n); }
    case _ =>
  }

  lemma {:induction false} ItemsPrint(v: Json, k: nat, n: nat)
    requires v.JArray? && k < |v.items| && Printable(v)
    ensures ItemsOk(ItemsOf(v, k, n)) && ItemsText(ItemsOf(v, k, n)) == PrintItems(v, k, n)
    ensures ItemsMeaning(ItemsOf(v, k, n)) == v.items[k..]
    decreases v, |v.items| - k
  {
    DocPrints(v.items[k], n + 2);
    SpaceRead();
    BreakRead(n);
    BreakRead(n + 2);
    if k + 1 < |v.items| { ItemsPrint(v, k + 1, n); }
    hide Printable, DocOf, Print, BreakGap, Break, GapText, GapOk, DocText, DocOk, Meaning;
    if k + 1 < |v.items| {
      assert [v.items[k]] + v.items[k + 1..] == v.items[k..];
      assert Print(v.items[k], n + 2) + [] == Print(v.items[k], n + 2);
    }
  }

  lemma {:induction false} EntriesPrint(v: Json, k: nat, n: nat)
    requires v.JObject? && k < |v.members| && Printable(v)
    ensures EntriesOk(EntriesOf(v, k, n)) && EntriesText(EntriesOf(v, k, n)) == PrintMembers(v, k, n)
    decreases v, |v.members| - k
  {
    var m := v.members[k];
    DocPrints(m.value, n + 2);
    CharsRead(m.key);
    SpaceRead();
    BreakRead(n);
    BreakRead(n + 2);
    if k + 1 < |v.members| { EntriesPrint(v, k + 1, n); }
    hide Printable, DocOf, Print, CharsOf, StringText, BreakGap, Break, GapText, GapOk, CharsOk, CharsText,
      CharsMeaning, DocText, DocOk, Meaning;
    if k + 1 < |v.members| {
      Unspaced(StringText(m.key), Print(m.value, n + 2), [COMMA], Break(n + 2), PrintMembers(v, k + 1, n));
    } else {
      Unspaced(StringText(m.key), Print(m.value, n + 2), Break(n), [], []);
    }
  }

  lemma {:induction false} EntriesMean(v: Json, k: nat, n: nat)
    requires v.JObject? && k < |v.members| && Printable(v) && EntriesOk(EntriesOf(v, k, n))
    ensures EntriesMeaning(EntriesOf(v, k, n), v.members[..k]) == v.members
    decreases v, |v.members| - k
  {
    var m := v.members[k];
    DocPrints(m.value, n + 2);
    CharsRead(m.key);
    PutFresh(v.members[..k], m.key, m.value);
    hide DocOf, CharsOf, CharsOk, DocOk, CharOk, CharMeaning, CharsMeaning, Put;
    assert v.members[..k] + [m] == v.members[..k + 1];
    if k + 1 < |v.members| {
      EntriesMean(v, k + 1, n);
    } else {
      assert v.members[..k + 1] == v.members;
    }
  }

  /** Empty gaps leave no trace. */
  lemma Unspaced(key: Text, value: Text, a: Text, b: Text, c: Text)
    ensures [QUOTE] + key + [QUOTE] + [] + [COLON] + [SPACE] + value + a
              == [QUOTE] + key + [QUOTE] + [COLON] + [SPACE] + value + a
    ensures [QUOTE] + key + [QUOTE] + [] + [COLON] + [SPACE] + value + [] + a + b + c
         == [QUOTE] + key + [QUOTE] + [COLON] + [SPACE] + value + a + b + c
  {
  }

  /** Reading what the command line wrote gives the value back. */
  lemma PrintParses(v: Json, finite: Text -> bool)
    requires Printable(v)
    ensures Document(Print(v, 0) + [NEWLINE], finite) == Parsed(v, [])
  {
    DocPrints(v, 0);
    BreakRead(0);
    SpellingParses([], DocOf(v, 0), BreakGap(0), None, finite);
    hide Printable, DocOf, DocText, Print, BreakGap, Document, DocOk, Meaning;
    assert GapText(BreakGap(0)) + EndText(None) == GapText(BreakGap(0));
    assert GapText([]) + DocText(DocOf(v, 0)) + GapText(BreakGap(0)) == Print(v, 0) + [NEWLINE];
  }

  // ---- the one key that is lost ------------------------------------------------------------------

  predicate NoProto(v: Json) {
    match v
    case JArray(items) => forall k | 0 <= k < |items| :: NoProto(items[k])
    case JObject(members) => forall k | 0 <= k < |members| :: members[k].key != PROTO && NoProto(members[k].value)
    case _ => true
  }

  predicate AllNoProto(members: seq<Member>) {
    forall k | 0 <= k < |members| :: members[k].key != PROTO && NoProto(members[k].value)
  }

  lemma {:induction false} PutNoProto(out: seq<Member>, key: Text, value: Json)
    requires AllNoProto(out) && NoProto(value)
    ensures AllNoProto(Put(out, key, value))
  {
    if key != PROTO && out != [] && out[0].key != key { PutNoProto(out[1..], key, value); }
  }

  /**
   * No text at all parses to a value with a `__proto__` key: such values are exactly what the printer cannot hand
   * back.
   */
  lemma {:induction false} ParsedHasNoProto(s: Text, finite: Text -> bool)
    ensures Value(s, finite).Parsed? ==> NoProto(Value(s, finite).value)
    decreases |s|, 2
  {
    var gap := Skip(s);
    if gap.Parsed? { BareHasNoProto(gap.rest, finite); }
  }

  lemma {:induction false} BareHasNoProto(s: Text, finite: Text -> bool)
    ensures Bare(s, finite).Parsed? ==> NoProto(Bare(s, finite).value)
    decreases |s|, 1
  {
    hide Closes, StringTail, ParseNumber;
    if s != [] && s[0] == OPEN_BRACE {
      var empty := Closes(s[1..], CLOSE_BRACE);
      if empty.Parsed? && !empty.value { MembersHaveNoProto(empty.rest, [], finite); }
    } else if s != [] && s[0] == OPEN_BRACKET {
      var empty := Closes(s[1..], CLOSE_BRACKET);
      if empty.Parsed? && !empty.value { ElementsHaveNoProto(empty.rest, [], finite); }
    } else {
      NumberIsNumber(s, finite);
    }
  }

  lemma NumberIsNumber(s: Text, finite: Text -> bool)
    ensures ParseNumber(s, finite).Parsed? ==> ParseNumber(s, finite).value.JNumber?
  {
  }

  lemma {:induction false} MembersHaveNoProto(s: Text, out: seq<Member>, finite: Text -> bool)
    requires AllNoProto(out)
    ensures Members(s, out, finite).Parsed? ==> NoProto(Members(s, out, finite).value)
    decreases |s|, 4
  {
    hide Separator, Entry;
    var entry := Entry(s, finite);
    if entry.Parsed? {
      EntryHasNoProto(s, finite);
      PutNoProto(out, entry.value.key, entry.value.value);
      var last := Separator(entry.rest, CLOSE_BRACE, ExpectedCommaOrBrace);
      if last.Parsed? && !last.value {
        MembersHaveNoProto(last.rest, Put(out, entry.value.key, entry.value.value), finite);
      }
    }
  }

  lemma {:induction false} EntryHasNoProto(s: Text, finite: Text -> bool)
    ensures Entry(s, finite).Parsed? ==> NoProto(Entry(s, finite).value.value)
    decreases |s|, 3
  {
    hide Value, Skip, ParseKey;
    var gap := Skip(s);
    if gap.Parsed? && ParseKey(gap.rest).Parsed? {
      var colon := Skip(ParseKey(gap.rest).rest);
      if colon.Parsed? && colon.rest != [] { ParsedHasNoProto(colon.rest[1..], finite); }
    }
  }

  lemma {:induction false} ElementsHaveNoProto(s: Text, out: seq<Json>, finite: Text -> bool)
    requires forall k | 0 <= k < |out| :: NoProto(out[k])
    ensures Elements(s, out, finite).Parsed? ==> NoProto(Elements(s, out, finite).value)
    decreases |s|, 3
  {
    hide Separator, Value;
    var value := Value(s, finite);
    if value.Parsed? {
      ParsedHasNoProto(s, finite);
      var last := Separator(value.rest, CLOSE_BRACKET, ExpectedCommaOrBracket);
      if last.Parsed? && !last.value { ElementsHaveNoProto(last.rest, out + [value.value], finite); }
    }
  }

  /** A JavaScript value whose numbers are safe integers. */
  predicate SafeValue(v: Json) {
    match v
    case JNumber(number) => number.Exactly? && -MAX_SAFE_INTEGER <= number.n <= MAX_SAFE_INTEGER
    case JArray(items) => forall k | 0 <= k < |items| :: SafeValue(items[k])
    case JObject(members) =>
      && (forall k | 0 <= k < |members| :: SafeValue(members[k].value))
      && (forall j, k | 0 <= j < k < |members| :: members[j].key != members[k].key)
    case _ => true
  }

  lemma {:induction false} WithoutProtoPrintable(v: Json)
    requires SafeValue(v) && NoProto(v)
    ensures Printable(v)
  {
    match v
    case JArray(items) => forall k | 0 <= k < |items| ensures Printable(items[k]) { WithoutProtoPrintable(items[k]); }
    case JObject(members) =>
      forall k | 0 <= k < |members| ensures Printable(members[k].value) { WithoutProtoPrintable(members[k].value); }
    case _ =>
  }

  /** A value survives printing and parsing exactly when it has no `__proto__` key. */
  lemma RoundTripsExactly(v: Json, finite: Text -> bool)
    requires SafeValue(v)
    ensures Document(Print(v, 0) + [NEWLINE], finite) == Parsed(v, []) <==> NoProto(v)
  {
    if NoProto(v) {
      WithoutProtoPrintable(v);
      PrintParses(v, finite);
    }
    ParsedHasNoProto(Print(v, 0) + [NEWLINE], finite);
  }
}
