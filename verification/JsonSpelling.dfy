/**
 * Every spelling of a JSON value, sections 2 to 7 of RFC 8259, with comments, trailing commas, single quotes and bare
 * keys besides; and that the parser gives back the value it spells.
 */
module JsonSpelling {
  import opened Wrappers
  import opened JsonGrammar

  datatype Piece = Blank(u: Unit) | LineComment(text: Text) | BlockComment(text: Text)
  type Gap = seq<Piece>

  /** One character of a string: itself, a two-character escape, or four hexadecimal digits. */
  datatype Char = Plain(u: Unit) | Escaped(e: Unit) | Hexed(digits: Text)

  /** An integer in decimal, perhaps signed or zero-padded, or in hexadecimal. */
  datatype Whole = InDecimal(sign: Option<Unit>, digits: Text) | InHex(x: Unit, digits: Text)

  datatype Key = Quoted(quote: Unit, chars: seq<Char>) | Identifier(name: Text)

  /** A spelled value. */
  datatype Doc =
    | NullDoc | BoolDoc(b: bool) | IntDoc(whole: Whole) | StringDoc(quote: Unit, chars: seq<Char>)
    | ArrayDoc(open: Gap, items: Items) | ObjectDoc(open: Gap, members: Entries)

  /** Items up to the closing bracket; `After` without a following item is a trailing comma. */
  datatype Items = NoItems | LastItem(doc: Doc, after: Gap) | ItemThen(doc: Doc, after: Gap, before: Gap, more: Items)
  datatype Entries =
    | NoEntries
    | LastEntry(key: Key, colon: Gap, value: Gap, doc: Doc, after: Gap)
    | EntryThen(key: Key, colon: Gap, value: Gap, doc: Doc, after: Gap, before: Gap, more: Entries)

  // ---- what may be written ---------------------------------------------------------------------

  predicate NoClose(s: Text) {
    forall i | 0 <= i < |s| - 1 :: !(s[i] == STAR && s[i + 1] == SLASH)
  }

  predicate PieceOk(p: Piece) {
    match p
    case Blank(u) => IsSpace(u)
    case LineComment(text) => NEWLINE !in text
    case BlockComment(text) => NoClose(text)
  }

  predicate GapOk(g: Gap) {
    forall i | 0 <= i < |g| :: PieceOk(g[i])
  }

  predicate EndOk(end: Option<Text>) {
    end.Some? ==> NEWLINE !in end.value
  }

  predicate CharOk(c: Char, quote: Unit) {
    match c
    case Plain(u) => u != quote && u != BACKSLASH && u != NEWLINE
    case Escaped(e) => e != LOWER_U
    case Hexed(digits) => |digits| == 4 && FourHex(digits)
  }

  predicate CharsOk(chars: seq<Char>, quote: Unit) {
    (quote == QUOTE || quote == APOSTROPHE) && forall i | 0 <= i < |chars| :: CharOk(chars[i], quote)
  }

  predicate AllHex(s: Text) {
    forall i | 0 <= i < |s| :: IsHex(s[i])
  }

  predicate WholeOk(w: Whole) {
    w.digits != [] &&
    match w
    case InDecimal(sign, digits) =>
      && (sign.Some? ==> sign.value == PLUS || sign.value == MINUS)
      && AllDigits(digits) && Decimal(digits) <= MAX_SAFE_INTEGER
    case InHex(x, digits) => (x == 120 || x == 88) && AllHex(digits) && Hexadecimal(digits) <= MAX_SAFE_INTEGER
  }

  predicate KeyOk(k: Key) {
    match k
    case Quoted(quote, chars) => CharsOk(chars, quote)
    case Identifier(name) => name != [] && IsIdentStart(name[0]) && forall i | 0 <= i < |name| :: IsIdentPart(name[i])
  }

  predicate DocOk(d: Doc) {
    match d
    case IntDoc(whole) => WholeOk(whole)
    case StringDoc(quote, chars) => CharsOk(chars, quote)
    case ArrayDoc(open, items) => GapOk(open) && ItemsOk(items)
    case ObjectDoc(open, members) => GapOk(open) && EntriesOk(members)
    case _ => true
  }

  predicate ItemsOk(items: Items) {
    match items
    case NoItems => true
    case LastItem(doc, after) => DocOk(doc) && GapOk(after)
    case ItemThen(doc, after, before, more) => DocOk(doc) && GapOk(after) && GapOk(before) && ItemsOk(more)
  }

  predicate EntriesOk(entries: Entries) {
    match entries
    case NoEntries => true
    case LastEntry(key, colon, value, doc, after) =>
      KeyOk(key) && GapOk(colon) && GapOk(value) && DocOk(doc) && GapOk(after)
    case EntryThen(key, colon, value, doc, after, before, more) =>
      KeyOk(key) && GapOk(colon) && GapOk(value) && DocOk(doc) && GapOk(after) && GapOk(before) && EntriesOk(more)
  }

  // ---- how it is written -----------------------------------------------------------------------

  function PieceText(p: Piece): Text {
    match p
    case Blank(u) => [u]
    case LineComment(text) => [SLASH, SLASH] + text + [NEWLINE]
    case BlockComment(text) => [SLASH, STAR] + text + [STAR, SLASH]
  }

  function GapText(g: Gap): Text {
    if g == [] then [] else PieceText(g[0]) + GapText(g[1..])
  }

  /** A line comment ended by the end of the text, or nothing. */
  function EndText(end: Option<Text>): Text {
    if end.Some? then [SLASH, SLASH] + end.value else []
  }

  function CharText(c: Char): Text {
    match c
    case Plain(u) => [u]
    case Escaped(e) => [BACKSLASH, e]
    case Hexed(digits) => [BACKSLASH, LOWER_U] + digits
  }

  function CharsText(chars: seq<Char>): Text {
    if chars == [] then [] else CharText(chars[0]) + CharsText(chars[1..])
  }

  function Digits(n: nat): (s: Text)
    ensures s != [] && AllDigits(s) && Decimal(s) == n && (n != 0 ==> s[0] != ZERO) && (n == 0 ==> s == [ZERO])
  {
    if n < 10 then [48 + n]
    else
      var front, last := Digits(n / 10), 48 + n % 10;
      assert (front + [last])[..|front|] == front;
      front + [last]
  }

  function SignText(sign: Option<Unit>): Text {
    if sign.Some? then [sign.value] else []
  }

  function WholeText(w: Whole): Text {
    match w
    case InDecimal(sign, digits) => SignText(sign) + digits
    case InHex(x, digits) => [ZERO, x] + digits
  }

  /** The usual spelling. */
  function Plainly(n: int): (w: Whole)
    requires -MAX_SAFE_INTEGER <= n <= MAX_SAFE_INTEGER
    ensures WholeOk(w) && WholeValue(w) == n
  {
    if n < 0 then InDecimal(Some(MINUS), Digits(-n)) else InDecimal(None, Digits(n))
  }

  function KeyText(k: Key): Text {
    match k
    case Quoted(quote, chars) => [quote] + CharsText(chars) + [quote]
    case Identifier(name) => name
  }

  function DocText(d: Doc): Text {
    match d
    case NullDoc => NULL
    case BoolDoc(b) => if b then TRUE else FALSE
    case IntDoc(whole) => WholeText(whole)
    case StringDoc(quote, chars) => [quote] + CharsText(chars) + [quote]
    case ArrayDoc(open, items) => [OPEN_BRACKET] + GapText(open) + ItemsText(items) + [CLOSE_BRACKET]
    case ObjectDoc(open, members) => [OPEN_BRACE] + GapText(open) + EntriesText(members) + [CLOSE_BRACE]
  }

  function ItemsText(items: Items): Text {
    match items
    case NoItems => []
    case LastItem(doc, after) => DocText(doc) + GapText(after)
    case ItemThen(doc, after, before, more) =>
      DocText(doc) + GapText(after) + [COMMA] + GapText(before) + ItemsText(more)
  }

  function EntriesText(entries: Entries): Text {
    match entries
    case NoEntries => []
    case LastEntry(key, colon, value, doc, after) =>
      KeyText(key) + GapText(colon) + [COLON] + GapText(value) + DocText(doc) + GapText(after)
    case EntryThen(key, colon, value, doc, after, before, more) =>
      KeyText(key) + GapText(colon) + [COLON] + GapText(value) + DocText(doc) + GapText(after) +
        [COMMA] + GapText(before) + EntriesText(more)
  }

  // ---- what it means ---------------------------------------------------------------------------

  function WholeValue(w: Whole): int
    requires WholeOk(w)
  {
    match w
    case InDecimal(sign, digits) => if sign == Some(MINUS) then -(Decimal(digits) as int) else Decimal(digits)
    case InHex(_, digits) => Hexadecimal(digits)
  }

  function CharMeaning(c: Char): Text
    requires c.Hexed? ==> FourHex(c.digits)
  {
    match c
    case Plain(u) => [u]
    case Escaped(e) => Escape(e)
    case Hexed(digits) => [UnicodeValue(digits)]
  }

  function CharsMeaning(chars: seq<Char>): Text
    requires forall i | 0 <= i < |chars| && chars[i].Hexed? :: FourHex(chars[i].digits)
  {
    if chars == [] then [] else CharMeaning(chars[0]) + CharsMeaning(chars[1..])
  }

  function KeyMeaning(k: Key): Text
    requires KeyOk(k)
  {
    match k
    case Quoted(_, chars) => CharsMeaning(chars)
    case Identifier(name) => name
  }

  function Meaning(d: Doc): Json
    requires DocOk(d)
  {
    match d
    case NullDoc => JNull
    case BoolDoc(b) => JBool(b)
    case IntDoc(whole) => JNumber(Exactly(WholeValue(whole)))
    case StringDoc(_, chars) => JString(CharsMeaning(chars))
    case ArrayDoc(_, items) => JArray(ItemsMeaning(items))
    case ObjectDoc(_, members) => JObject(EntriesMeaning(members, []))
  }

  function ItemsMeaning(items: Items): seq<Json>
    requires ItemsOk(items)
  {
    match items
    case NoItems => []
    case LastItem(doc, _) => [Meaning(doc)]
    case ItemThen(doc, _, _, more) => [Meaning(doc)] + ItemsMeaning(more)
  }

  /** A later assignment to a key replaces the earlier one. */
  function EntriesMeaning(entries: Entries, out: seq<Member>): seq<Member>
    requires EntriesOk(entries)
    decreases entries
  {
    match entries
    case NoEntries => out
    case LastEntry(key, _, _, doc, _) => Put(out, KeyMeaning(key), Meaning(doc))
    case EntryThen(key, _, _, doc, _, _, more) => EntriesMeaning(more, Put(out, KeyMeaning(key), Meaning(doc)))
  }

  // ---- gaps ------------------------------------------------------------------------------------

  /** Text at which skipping stops at once. */
  predicate Stops(s: Text) {
    s == [] || (!IsSpace(s[0]) && !(|s| >= 2 && s[0] == SLASH && (s[1] == SLASH || s[1] == STAR)))
  }

  /** Text that cannot continue a number or a word. */
  predicate Delimited(s: Text) {
    s == [] || IsSpace(s[0]) || s[0] in {SLASH, COMMA, COLON, CLOSE_BRACKET, CLOSE_BRACE}
  }

  lemma {:induction false} LineEnds(text: Text, rest: Text)
    requires NEWLINE !in text
    ensures AtLineEnd(text + [NEWLINE] + rest) == [NEWLINE] + rest
  {
    if text == [] {
      assert text + [NEWLINE] + rest == [NEWLINE] + rest;
    } else {
      assert (text + [NEWLINE] + rest)[1..] == text[1..] + [NEWLINE] + rest;
      LineEnds(text[1..], rest);
    }
  }

  lemma {:induction false} BlockCloses(text: Text, rest: Text)
    requires NoClose(text)
    ensures AfterClose(text + [STAR, SLASH] + rest) == Some(rest)
  {
    var all := text + [STAR, SLASH] + rest;
    if text == [] {
      assert all[2..] == rest;
    } else {
      assert all[1..] == text[1..] + [STAR, SLASH] + rest;
      assert !(all[0] == STAR && all[1] == SLASH) by { if |text| >= 2 { assert all[1] == text[1]; } }
      BlockCloses(text[1..], rest);
    }
  }

  lemma BlankSkips(u: Unit, rest: Text)
    requires IsSpace(u)
    ensures Skip([u] + rest) == Skip(rest)
  {
    assert ([u] + rest)[1..] == rest;
    hide IsSpace, AtLineEnd, AfterClose;
  }

  lemma LineSkips(text: Text, rest: Text)
    requires NEWLINE !in text
    ensures Skip([SLASH, SLASH] + text + [NEWLINE] + rest) == Skip(rest)
  {
    var all := [SLASH, SLASH] + text + [NEWLINE] + rest;
    LineEnds(text, rest);
    BlankSkips(NEWLINE, rest);
    hide AtLineEnd, AfterClose;
    assert AfterSpaces(all) == all && all[2..] == text + [NEWLINE] + rest;
  }

  lemma BlockSkips(text: Text, rest: Text)
    requires NoClose(text)
    ensures Skip([SLASH, STAR] + text + [STAR, SLASH] + rest) == Skip(rest)
  {
    var all := [SLASH, STAR] + text + [STAR, SLASH] + rest;
    BlockCloses(text, rest);
    hide AtLineEnd, AfterClose, NoClose;
    assert AfterSpaces(all) == all && all[2..] == text + [STAR, SLASH] + rest;
  }

  lemma PieceSkips(p: Piece, rest: Text)
    requires PieceOk(p)
    ensures Skip(PieceText(p) + rest) == Skip(rest)
  {
    hide Skip, IsSpace, NoClose;
    match p
    case Blank(u) => BlankSkips(u, rest);
    case LineComment(text) => LineSkips(text, rest);
    case BlockComment(text) => BlockSkips(text, rest);
  }

  /** A gap makes no difference to what is skipped after it. */
  lemma {:induction false} GapThen(g: Gap, rest: Text)
    requires GapOk(g)
    ensures Skip(GapText(g) + rest) == Skip(rest)
  {
    hide Skip, PieceText, PieceOk;
    if g == [] {
      assert GapText(g) + rest == rest;
    } else {
      GapFirst(g, rest);
      PieceSkips(g[0], GapText(g[1..]) + rest);
      GapThen(g[1..], rest);
    }
  }

  lemma GapFirst(g: Gap, rest: Text)
    requires g != []
    ensures GapText(g) + rest == PieceText(g[0]) + (GapText(g[1..]) + rest)
  {
    hide PieceText;
  }

  lemma NothingSkipped(rest: Text)
    requires Stops(rest)
    ensures Skip(rest) == Parsed((), rest)
  {
    hide AtLineEnd, AfterClose, IsSpace;
  }

  /** A gap is skipped whole, and nothing after it. */
  lemma GapSkips(g: Gap, rest: Text)
    requires GapOk(g) && Stops(rest)
    ensures Skip(GapText(g) + rest) == Parsed((), rest)
  {
    hide Skip, Stops, GapOk, GapText;
    GapThen(g, rest);
    NothingSkipped(rest);
  }

  lemma {:induction false} NoLineEnd(text: Text)
    requires NEWLINE !in text
    ensures AtLineEnd(text) == []
  {
    if text != [] { NoLineEnd(text[1..]); }
  }

  /** At the end of the text a gap may also close with a line comment that no newline ends. */
  lemma EndSkips(g: Gap, end: Option<Text>)
    requires GapOk(g) && EndOk(end)
    ensures Skip(GapText(g) + EndText(end)) == Parsed((), [])
  {
    GapThen(g, EndText(end));
    hide GapText, GapOk;
    if end.Some? {
      var s := EndText(end);
      NoLineEnd(end.value);
      NothingSkipped([]);
      hide AtLineEnd, AfterClose;
      assert AfterSpaces(s) == s && s[2..] == end.value;
    }
  }

  lemma GapDelimits(g: Gap, rest: Text)
    requires GapOk(g) && Delimited(rest)
    ensures Delimited(GapText(g) + rest)
  {
    if g != [] { assert (GapText(g) + rest)[0] == PieceText(g[0])[0]; } else { assert GapText(g) + rest == rest; }
  }

  // ---- strings and numbers ---------------------------------------------------------------------

  lemma CharParse(c: Char, quote: Unit, out: Text, tail: Text)
    requires CharOk(c, quote) && (quote == QUOTE || quote == APOSTROPHE)
    ensures StringTail(CharText(c) + tail, quote, out) == StringTail(tail, quote, out + CharMeaning(c))
  {
    var all := CharText(c) + tail;
    match c
    case Plain(u) => assert all[1..] == tail;
    case Escaped(e) =>
      assert all[1..] == [e] + tail;
      assert all[1..][1..] == tail;
    case Hexed(digits) =>
      assert all[1..] == [LOWER_U] + digits + tail;
      assert all[1..][1..] == digits + tail && all[1..][5..] == tail;
      assert UnicodeValue(digits + tail) == UnicodeValue(digits);
  }

  lemma QuoteEnds(quote: Unit, out: Text, rest: Text)
    ensures StringTail([quote] + rest, quote, out) == Parsed(out, rest)
  {
    assert ([quote] + rest)[1..] == rest;
  }

  lemma FirstChar(chars: seq<Char>, quote: Unit, rest: Text)
    requires chars != []
    ensures CharsText(chars) + [quote] + rest == CharText(chars[0]) + (CharsText(chars[1..]) + [quote] + rest)
  {
    hide CharText;
    Regroup3(CharText(chars[0]), CharsText(chars[1..]), [quote], rest);
    assert CharsText(chars[1..]) + [quote] + rest == CharsText(chars[1..]) + ([quote] + rest);
  }

  lemma Assoc(a: Text, b: Text, c: Text)
    ensures a + b + c == a + (b + c)
  {
  }

  lemma MeaningGrows(chars: seq<Char>, out: Text)
    requires chars != [] && forall i | 0 <= i < |chars| && chars[i].Hexed? :: FourHex(chars[i].digits)
    ensures out + CharMeaning(chars[0]) + CharsMeaning(chars[1..]) == out + CharsMeaning(chars)
  {
    hide CharMeaning, FourHex;
    Assoc(out, CharMeaning(chars[0]), CharsMeaning(chars[1..]));
  }

  lemma {:induction false} CharsParse(chars: seq<Char>, quote: Unit, out: Text, rest: Text)
    requires CharsOk(chars, quote)
    ensures StringTail(CharsText(chars) + [quote] + rest, quote, out) == Parsed(out + CharsMeaning(chars), rest)
    decreases |chars|
  {
    hide StringTail, CharText, CharMeaning, FourHex;
    if chars == [] {
      assert CharsText(chars) + [quote] + rest == [quote] + rest;
      QuoteEnds(quote, out, rest);
      assert out + CharsMeaning(chars) == out;
    } else {
      var c, tail := chars[0], CharsText(chars[1..]) + [quote] + rest;
      FirstChar(chars, quote, rest);
      CharParse(c, quote, out, tail);
      CharsParse(chars[1..], quote, out + CharMeaning(c), rest);
      MeaningGrows(chars, out);
    }
  }

  lemma QuotedParse(chars: seq<Char>, quote: Unit, rest: Text)
    requires CharsOk(chars, quote)
    ensures var s := [quote] + CharsText(chars) + [quote] + rest;
            StringTail(s[1..], quote, []) == Parsed(CharsMeaning(chars), rest)
  {
    var s := [quote] + CharsText(chars) + [quote] + rest;
    assert s[1..] == CharsText(chars) + [quote] + rest;
    CharsParse(chars, quote, [], rest);
    assert [] + CharsMeaning(chars) == CharsMeaning(chars);
  }

  lemma {:induction false} DigitsScan(s: Text, rest: Text)
    requires AllDigits(s) && Delimited(rest)
    ensures AfterDigits(s + rest) == rest
  {
    if s == [] {
      assert s + rest == rest;
    } else {
      assert (s + rest)[1..] == s[1..] + rest;
      DigitsScan(s[1..], rest);
    }
  }

  lemma {:induction false} HexScan(s: Text, rest: Text)
    requires AllHex(s) && Delimited(rest)
    ensures AfterHex(s + rest) == rest
  {
    if s == [] {
      assert s + rest == rest;
    } else {
      assert (s + rest)[1..] == s[1..] + rest;
      HexScan(s[1..], rest);
    }
  }

  lemma SignScan(sign: Option<Unit>, digits: Text, rest: Text)
    requires WholeOk(InDecimal(sign, digits))
    ensures AfterSign(SignText(sign) + digits + rest) == digits + rest
  {
    var all := SignText(sign) + digits + rest;
    if sign.Some? { assert all[1..] == digits + rest; } else { assert all == digits + rest && IsDigit(all[0]); }
  }

  lemma DecimalScan(sign: Option<Unit>, digits: Text, rest: Text)
    requires WholeOk(InDecimal(sign, digits)) && Delimited(rest)
    ensures AfterNumber(SignText(sign) + digits + rest) == rest
  {
    SignScan(sign, digits, rest);
    NoHexPrefix(digits, rest);
    DigitsScan(digits, rest);
    hide AfterSign, AfterDigits, HexPrefix, AllDigits, Decimal, SignText;
    assert AfterExponent(AfterFraction(rest)) == rest;
  }

  lemma HexNumberScan(x: Unit, digits: Text, rest: Text)
    requires WholeOk(InHex(x, digits)) && Delimited(rest)
    ensures AfterNumber([ZERO, x] + digits + rest) == rest
  {
    var all := [ZERO, x] + digits + rest;
    assert AfterSign(all) == all && HexPrefix(all) && all[2..] == digits + rest;
    HexScan(digits, rest);
  }

  lemma WholeNumber(w: Whole, finite: Text -> bool)
    requires WholeOk(w)
    ensures NumberOf(WholeText(w), finite) == Some(Exactly(WholeValue(w)))
  {
    var raw := WholeText(w);
    match w
    case InDecimal(sign, digits) =>
      SignScan(sign, digits, []);
      assert SignText(sign) + digits + [] == raw && digits + [] == digits;
      assert sign.None? ==> raw[0] == digits[0] && IsDigit(raw[0]);
    case InHex(x, digits) =>
      assert raw[1] == x && raw[2..] == digits && AfterSign(raw) == raw && !AllDigits(raw);
      assert forall i | 2 <= i < |raw| :: IsHex(raw[i]) by {
        assert forall i | 2 <= i < |raw| :: raw[i] == digits[i - 2];
      }
  }

  /** A safe integer reads as itself, signed, zero-padded or in hexadecimal. */
  lemma IntParse(w: Whole, rest: Text, finite: Text -> bool)
    requires WholeOk(w) && Delimited(rest)
    ensures ParseNumber(WholeText(w) + rest, finite) == Parsed(JNumber(Exactly(WholeValue(w))), rest)
  {
    match w {
      case InDecimal(sign, digits) => DecimalScan(sign, digits, rest);
      case InHex(x, digits) => HexNumberScan(x, digits, rest);
    }
    WholeNumber(w, finite);
    assert WholeText(w) != [];
    hide AfterNumber, NumberOf, WholeOk, WholeValue, WholeText;
    var all := WholeText(w) + rest;
    assert all[..|all| - |rest|] == WholeText(w);
  }

  lemma NoHexPrefix(digits: Text, rest: Text)
    requires digits != [] && AllDigits(digits) && Delimited(rest)
    ensures !HexPrefix(digits + rest)
  {
    if |digits| == 1 && rest != [] { assert (digits + rest)[1] == rest[0]; }
    if |digits| >= 2 { assert (digits + rest)[1] == digits[1]; }
  }

  lemma {:induction false} IdentScan(s: Text, rest: Text)
    requires (forall i | 0 <= i < |s| :: IsIdentPart(s[i])) && Delimited(rest)
    ensures AfterIdent(s + rest) == rest
  {
    if s == [] {
      assert s + rest == rest;
    } else {
      assert (s + rest)[1..] == s[1..] + rest;
      IdentScan(s[1..], rest);
    }
  }

  lemma KeyParse(k: Key, rest: Text)
    requires KeyOk(k) && Delimited(rest)
    ensures ParseKey(KeyText(k) + rest) == Parsed(KeyMeaning(k), rest)
  {
    match k
    case Quoted(quote, chars) =>
      QuotedParse(chars, quote, rest);
      assert KeyText(k) + rest == [quote] + CharsText(chars) + [quote] + rest;
    case Identifier(name) =>
      var all := name + rest;
      assert all[1..] == name[1..] + rest;
      IdentScan(name[1..], rest);
      assert all[..|all| - |rest|] == name;
  }

  lemma KeyStarts(k: Key, rest: Text)
    requires KeyOk(k)
    ensures Stops(KeyText(k) + rest) && KeyText(k) != [] && KeyText(k)[0] != CLOSE_BRACE
  {
  }

  lemma DocStarts(d: Doc, rest: Text)
    requires DocOk(d)
    ensures DocText(d) != [] && Stops(DocText(d) + rest) && DocText(d)[0] !in {CLOSE_BRACKET, CLOSE_BRACE, COMMA}
  {
    match d
    case IntDoc(whole) => IntStarts(whole, rest);
    case StringDoc(quote, chars) => assert DocText(d)[0] == quote;
    case ArrayDoc(open, items) => assert DocText(d)[0] == OPEN_BRACKET;
    case ObjectDoc(open, members) => assert DocText(d)[0] == OPEN_BRACE;
    case _ =>
  }

  // ---- values ----------------------------------------------------------------------------------

  lemma ClosesHere(g: Gap, close: Unit, rest: Text)
    requires GapOk(g) && (close == CLOSE_BRACKET || close == CLOSE_BRACE)
    ensures Closes(GapText(g) + ([close] + rest), close) == Parsed(true, rest)
  {
    GapSkips(g, [close] + rest);
    assert ([close] + rest)[1..] == rest;
  }

  lemma ClosesLater(g: Gap, close: Unit, rest: Text)
    requires GapOk(g) && Stops(rest) && rest != [] && rest[0] != close
    ensures Closes(GapText(g) + rest, close) == Parsed(false, rest)
  {
    GapSkips(g, rest);
  }

  lemma SeparatorCloses(g: Gap, close: Unit, problem: Problem, rest: Text)
    requires GapOk(g) && (close == CLOSE_BRACKET || close == CLOSE_BRACE)
    ensures Separator(GapText(g) + ([close] + rest), close, problem) == Parsed(true, rest)
  {
    GapSkips(g, [close] + rest);
    assert ([close] + rest)[1..] == rest;
  }

  lemma SeparatorContinues(g: Gap, close: Unit, problem: Problem, rest: Text)
    requires GapOk(g)
    ensures Separator(GapText(g) + ([COMMA] + rest), close, problem) == Closes(rest, close)
  {
    GapSkips(g, [COMMA] + rest);
    assert ([COMMA] + rest)[1..] == rest;
  }

  /** The parser reads a spelled value, after any gap, as what it means, and leaves the rest. */
  lemma {:induction false} DocParse(g: Gap, d: Doc, rest: Text, finite: Text -> bool)
    requires GapOk(g) && DocOk(d) && Delimited(rest)
    ensures Value(GapText(g) + (DocText(d) + rest), finite) == Parsed(Meaning(d), rest)
    decreases d, 1
  {
    DocStarts(d, rest);
    GapSkips(g, DocText(d) + rest);
    BareParse(d, rest, finite);
  }

  lemma {:induction false} BareParse(d: Doc, rest: Text, finite: Text -> bool)
    requires DocOk(d) && Delimited(rest)
    ensures Bare(DocText(d) + rest, finite) == Parsed(Meaning(d), rest)
    decreases d, 0
  {
    match d
    case NullDoc => WordParse(NULL, rest, finite);
    case BoolDoc(b) => WordParse(if b then TRUE else FALSE, rest, finite);
    case IntDoc(whole) => IntBare(whole, rest, finite);
    case StringDoc(quote, chars) => StringBare(quote, chars, rest, finite);
    case ArrayDoc(open, items) => ArrayParse(open, items, rest, finite);
    case ObjectDoc(open, members) => ObjectParse(open, members, rest, finite);
  }

  lemma WordParse(word: Text, rest: Text, finite: Text -> bool)
    requires word in {NULL, TRUE, FALSE}
    ensures Bare(word + rest, finite) == Parsed(if word == NULL then JNull else JBool(word == TRUE), rest)
  {
    var s := word + rest;
    assert s[|word|..] == rest && s[..|word|] == word;
  }

  lemma IntBare(w: Whole, rest: Text, finite: Text -> bool)
    requires WholeOk(w) && Delimited(rest)
    ensures Bare(WholeText(w) + rest, finite) == Parsed(JNumber(Exactly(WholeValue(w))), rest)
  {
    IntStarts(w, rest);
    hide ParseNumber, Bare, WholeOk, WholeText, WholeValue, IsNumberStart;
    IntParse(w, rest, finite);
    BareNumber(WholeText(w) + rest, finite);
  }

  lemma IntStarts(w: Whole, rest: Text)
    requires WholeOk(w)
    ensures WholeText(w) != [] && WholeText(w) + rest != [] && IsNumberStart((WholeText(w) + rest)[0])
    ensures WholeText(w)[0] == (WholeText(w) + rest)[0]
  {
  }

  lemma BareNumber(s: Text, finite: Text -> bool)
    requires s != [] && IsNumberStart(s[0])
    ensures Bare(s, finite) == ParseNumber(s, finite)
  {
    hide ParseNumber, Members, Elements, StringTail, Closes;
  }

  lemma StringBare(quote: Unit, chars: seq<Char>, rest: Text, finite: Text -> bool)
    requires CharsOk(chars, quote)
    ensures Bare([quote] + CharsText(chars) + [quote] + rest, finite) == Parsed(JString(CharsMeaning(chars)), rest)
  {
    QuotedParse(chars, quote, rest);
  }

  // Unfoldings of the grammar, one case each.

  lemma BareOpens(open: Unit, s: Text, empty: bool, rest: Text, finite: Text -> bool)
    requires open == OPEN_BRACKET || open == OPEN_BRACE
    requires Closes(s, if open == OPEN_BRACKET then CLOSE_BRACKET else CLOSE_BRACE) == Parsed(empty, rest)
    ensures Bare([open] + s, finite) ==
            if open == OPEN_BRACKET then (if empty then Parsed(JArray([]), rest) else Elements(rest, [], finite))
            else (if empty then Parsed(JObject([]), rest) else Members(rest, [], finite))
  {
    assert ([open] + s)[1..] == s;
    hide Closes, Elements, Members;
  }

  lemma ElementsUnfold(s: Text, out: seq<Json>, value: Json, next: Text, last: bool, rest: Text, finite: Text -> bool)
    requires Value(s, finite) == Parsed(value, next)
    requires Separator(next, CLOSE_BRACKET, ExpectedCommaOrBracket) == Parsed(last, rest)
    ensures Elements(s, out, finite) == if last then Parsed(JArray(out + [value]), rest)
            else Elements(rest, out + [value], finite)
  {
    hide Value, Separator;
  }

  lemma MembersUnfold(s: Text, out: seq<Member>, key: Text, value: Json, next: Text, last: bool, rest: Text,
                      finite: Text -> bool)
    requires Entry(s, finite) == Parsed(Member(key, value), next)
    requires Separator(next, CLOSE_BRACE, ExpectedCommaOrBrace) == Parsed(last, rest)
    ensures Members(s, out, finite) == if last then Parsed(JObject(Put(out, key, value)), rest)
            else Members(rest, Put(out, key, value), finite)
  {
    hide Entry, Separator, Put;
  }

  // Regroupings of concatenated text.

  lemma Regroup3(a: Text, b: Text, c: Text, d: Text)
    ensures a + b + c + d == a + (b + (c + d))
  {
  }

  lemma ItemThenText(doc: Doc, after: Gap, before: Gap, more: Items, tail: Text)
    ensures ItemsText(ItemThen(doc, after, before, more)) + tail
         == DocText(doc) + (GapText(after) + ([COMMA] + (GapText(before) + (ItemsText(more) + tail))))
  {
    Regroup5(DocText(doc), GapText(after), [COMMA], GapText(before), ItemsText(more), tail);
  }

  lemma Regroup5(a: Text, b: Text, c: Text, d: Text, e: Text, f: Text)
    ensures a + b + c + d + e + f == a + (b + (c + (d + (e + f))))
  {
    assert a + b + c + d + e + f == (a + b + c) + (d + (e + f));
  }

  lemma LastEntryText(key: Key, colon: Gap, value: Gap, doc: Doc, after: Gap, tail: Text)
    ensures EntriesText(LastEntry(key, colon, value, doc, after)) + tail
         == KeyText(key) + (GapText(colon) + ([COLON] + (GapText(value) + (DocText(doc) + (GapText(after) + tail)))))
  {
    hide KeyText, GapText, DocText;
    Regroup6(KeyText(key), GapText(colon), [COLON], GapText(value), DocText(doc), GapText(after), tail);
  }

  lemma Regroup6(a: Text, b: Text, c: Text, d: Text, e: Text, f: Text, g: Text)
    ensures a + b + c + d + e + f + g == a + (b + (c + (d + (e + (f + g)))))
  {
    Regroup5(a, b, c, d, e, f + g);
    assert a + b + c + d + e + f + g == a + b + c + d + e + (f + g);
  }

  lemma EntryThenText(key: Key, colon: Gap, value: Gap, doc: Doc, after: Gap, before: Gap, more: Entries, tail: Text)
    ensures EntriesText(EntryThen(key, colon, value, doc, after, before, more)) + tail
         == KeyText(key) + (GapText(colon) + ([COLON] + (GapText(value) + (DocText(doc) +
              (GapText(after) + ([COMMA] + (GapText(before) + (EntriesText(more) + tail))))))))
  {
    var a, b, c, d, e := KeyText(key), GapText(colon), [COLON], GapText(value), DocText(doc);
    var f, g, h, i := GapText(after), [COMMA], GapText(before), EntriesText(more);
    Regroup5(a + b + c + d + e, f, g, h, i, tail);
    Regroup5(a, b, c, d, e, f + (g + (h + (i + tail))));
  }

  lemma OpenText(open: Unit, g: Text, body: Text, close: Unit, rest: Text)
    ensures [open] + g + body + [close] + rest == [open] + (g + (body + ([close] + rest)))
  {
    Regroup3([open], g, body, [close] + rest);
    assert [open] + g + body + [close] + rest == [open] + g + body + ([close] + rest);
  }

  // Arrays.

  lemma {:induction false} ArrayParse(open: Gap, items: Items, rest: Text, finite: Text -> bool)
    requires GapOk(open) && ItemsOk(items)
    ensures Bare(DocText(ArrayDoc(open, items)) + rest, finite) == Parsed(JArray(ItemsMeaning(items)), rest)
    decreases items, 5
  {
    hide Bare, GapText;
    OpenText(OPEN_BRACKET, GapText(open), ItemsText(items), CLOSE_BRACKET, rest);
    if items == NoItems {
      EmptyArray(open, rest, finite);
    } else {
      SomeItems(open, items, rest, finite);
    }
  }

  lemma EmptyArray(open: Gap, rest: Text, finite: Text -> bool)
    requires GapOk(open)
    ensures Bare([OPEN_BRACKET] + (GapText(open) + ([] + ([CLOSE_BRACKET] + rest))), finite) == Parsed(JArray([]), rest)
  {
    hide Closes, GapText, Bare;
    assert [] + ([CLOSE_BRACKET] + rest) == [CLOSE_BRACKET] + rest;
    ClosesHere(open, CLOSE_BRACKET, rest);
    BareOpens(OPEN_BRACKET, GapText(open) + ([CLOSE_BRACKET] + rest), true, rest, finite);
  }

  lemma {:induction false} SomeItems(open: Gap, items: Items, rest: Text, finite: Text -> bool)
    requires GapOk(open) && ItemsOk(items) && items != NoItems
    ensures Bare([OPEN_BRACKET] + (GapText(open) + (ItemsText(items) + ([CLOSE_BRACKET] + rest))), finite)
         == Parsed(JArray(ItemsMeaning(items)), rest)
    decreases items, 4
  {
    hide Closes, GapText, ItemsText, Bare, Elements, Stops, ItemsOk, ItemsMeaning;
    var tail := [CLOSE_BRACKET] + rest;
    ItemsStart(items, tail);
    ClosesLater(open, CLOSE_BRACKET, ItemsText(items) + tail);
    ItemsParse(items, [], rest, finite);
    BareOpens(OPEN_BRACKET, GapText(open) + (ItemsText(items) + tail), false, ItemsText(items) + tail, finite);
    assert [] + ItemsMeaning(items) == ItemsMeaning(items);
  }

  lemma LastItemText(doc: Doc, after: Gap, tail: Text)
    ensures ItemsText(LastItem(doc, after)) + tail == DocText(doc) + (GapText(after) + tail)
  {
    hide DocText, GapText;
  }

  lemma ItemsStart(items: Items, tail: Text)
    requires ItemsOk(items) && items != NoItems
    ensures var s := ItemsText(items) + tail; Stops(s) && s != [] && s[0] != CLOSE_BRACKET
  {
    hide ItemsText, DocText, GapText, Stops, DocOk, GapOk;
    match items
    case LastItem(doc, after) =>
      DocStarts(doc, GapText(after) + tail);
      LastItemText(doc, after, tail);
    case ItemThen(doc, after, before, more) =>
      ItemThenText(doc, after, before, more, tail);
      DocStarts(doc, GapText(after) + ([COMMA] + (GapText(before) + (ItemsText(more) + tail))));
  }

  lemma {:induction false} ItemsParse(items: Items, out: seq<Json>, rest: Text, finite: Text -> bool)
    requires ItemsOk(items) && items != NoItems
    ensures Elements(ItemsText(items) + ([CLOSE_BRACKET] + rest), out, finite)
         == Parsed(JArray(out + ItemsMeaning(items)), rest)
    decreases items, 3
  {
    hide Elements, Value, Separator, Closes, DocText, GapText, GapOk;
    var tail := [CLOSE_BRACKET] + rest;
    match items
    case LastItem(doc, after) =>
      var next := GapText(after) + tail;
      assert ItemsText(items) + tail == DocText(doc) + next;
      GapDelimits(after, tail);
      ValueParse(doc, next, finite);
      SeparatorCloses(after, CLOSE_BRACKET, ExpectedCommaOrBracket, rest);
      ElementsUnfold(DocText(doc) + next, out, Meaning(doc), next, true, rest, finite);
    case ItemThen(doc, after, before, more) =>
      var later := GapText(before) + (ItemsText(more) + tail);
      var next := GapText(after) + ([COMMA] + later);
      ItemThenText(doc, after, before, more, tail);
      GapDelimits(after, [COMMA] + later);
      ValueParse(doc, next, finite);
      SeparatorContinues(after, CLOSE_BRACKET, ExpectedCommaOrBracket, later);
      MoreItems(before, more, out + [Meaning(doc)], rest, finite);
      ElementsUnfold(DocText(doc) + next, out, Meaning(doc), next, more == NoItems,
                     if more == NoItems then rest else ItemsText(more) + tail, finite);
      assert out + [Meaning(doc)] + ItemsMeaning(more) == out + ItemsMeaning(items);
      assert out + [Meaning(doc)] + [] == out + [Meaning(doc)];
  }

  lemma {:induction false} ValueParse(doc: Doc, next: Text, finite: Text -> bool)
    requires DocOk(doc) && Delimited(next)
    ensures Value(DocText(doc) + next, finite) == Parsed(Meaning(doc), next)
    decreases doc, 2
  {
    DocParse([], doc, next, finite);
    assert GapText([]) + (DocText(doc) + next) == DocText(doc) + next;
  }

  /** After a comma: the trailing one, or the items that follow. */
  lemma {:induction false} MoreItems(before: Gap, more: Items, out: seq<Json>, rest: Text, finite: Text -> bool)
    requires GapOk(before) && ItemsOk(more)
    ensures var tail := [CLOSE_BRACKET] + rest;
            && Closes(GapText(before) + (ItemsText(more) + tail), CLOSE_BRACKET)
               == Parsed(more == NoItems, if more == NoItems then rest else ItemsText(more) + tail)
            && (more == NoItems ==> ItemsMeaning(more) == [])
            && (more != NoItems ==>
                 Elements(ItemsText(more) + tail, out, finite) == Parsed(JArray(out + ItemsMeaning(more)), rest))
    decreases more, 4
  {
    hide Elements, Closes, GapText;
    var tail := [CLOSE_BRACKET] + rest;
    if more == NoItems {
      assert ItemsText(more) + tail == tail;
      ClosesHere(before, CLOSE_BRACKET, rest);
    } else {
      ItemsStart(more, tail);
      ClosesLater(before, CLOSE_BRACKET, ItemsText(more) + tail);
      ItemsParse(more, out, rest, finite);
    }
  }

  // Objects.

  lemma {:induction false} ObjectParse(open: Gap, members: Entries, rest: Text, finite: Text -> bool)
    requires GapOk(open) && EntriesOk(members)
    ensures Bare(DocText(ObjectDoc(open, members)) + rest, finite) == Parsed(JObject(EntriesMeaning(members, [])), rest)
    decreases members, 5
  {
    hide Bare, GapText;
    OpenText(OPEN_BRACE, GapText(open), EntriesText(members), CLOSE_BRACE, rest);
    if members == NoEntries {
      EmptyObject(open, rest, finite);
    } else {
      SomeEntries(open, members, rest, finite);
    }
  }

  lemma EmptyObject(open: Gap, rest: Text, finite: Text -> bool)
    requires GapOk(open)
    ensures Bare([OPEN_BRACE] + (GapText(open) + ([] + ([CLOSE_BRACE] + rest))), finite) == Parsed(JObject([]), rest)
  {
    hide Closes, GapText, Bare;
    assert [] + ([CLOSE_BRACE] + rest) == [CLOSE_BRACE] + rest;
    ClosesHere(open, CLOSE_BRACE, rest);
    BareOpens(OPEN_BRACE, GapText(open) + ([CLOSE_BRACE] + rest), true, rest, finite);
  }

  lemma {:induction false} SomeEntries(open: Gap, members: Entries, rest: Text, finite: Text -> bool)
    requires GapOk(open) && EntriesOk(members) && members != NoEntries
    ensures Bare([OPEN_BRACE] + (GapText(open) + (EntriesText(members) + ([CLOSE_BRACE] + rest))), finite)
         == Parsed(JObject(EntriesMeaning(members, [])), rest)
    decreases members, 4
  {
    hide Closes, GapText, EntriesText, Bare, Members, Stops, EntriesOk, EntriesMeaning;
    var tail := [CLOSE_BRACE] + rest;
    EntriesStart(members, tail);
    ClosesLater(open, CLOSE_BRACE, EntriesText(members) + tail);
    EntriesParse(members, [], rest, finite);
    BareOpens(OPEN_BRACE, GapText(open) + (EntriesText(members) + tail), false, EntriesText(members) + tail, finite);
  }

  lemma EntriesStart(entries: Entries, tail: Text)
    requires EntriesOk(entries) && entries != NoEntries
    ensures var s := EntriesText(entries) + tail; Stops(s) && s != [] && s[0] != CLOSE_BRACE
  {
    hide EntriesText, KeyText, DocText, GapText, Stops, DocOk, GapOk, KeyOk;
    match entries
    case LastEntry(key, colon, value, doc, after) =>
      LastEntryText(key, colon, value, doc, after, tail);
      KeyStarts(key, GapText(colon) + ([COLON] + (GapText(value) + (DocText(doc) + (GapText(after) + tail)))));
    case EntryThen(key, colon, value, doc, after, before, more) =>
      EntryThenText(key, colon, value, doc, after, before, more, tail);
      KeyStarts(key, GapText(colon) + ([COLON] + (GapText(value) + (DocText(doc) +
                       (GapText(after) + ([COMMA] + (GapText(before) + (EntriesText(more) + tail))))))));
  }

  lemma {:induction false} EntryParse(key: Key, colon: Gap, value: Gap, doc: Doc, next: Text, finite: Text -> bool)
    requires KeyOk(key) && GapOk(colon) && GapOk(value) && DocOk(doc) && Delimited(next)
    ensures Entry(KeyText(key) + (GapText(colon) + ([COLON] + (GapText(value) + (DocText(doc) + next)))), finite)
         == Parsed(Member(KeyMeaning(key), Meaning(doc)), next)
    decreases doc, 2
  {
    var afterColon := GapText(value) + (DocText(doc) + next);
    var afterKey := GapText(colon) + ([COLON] + afterColon);
    KeyStarts(key, afterKey);
    NothingSkipped(KeyText(key) + afterKey);
    GapDelimits(colon, [COLON] + afterColon);
    KeyParse(key, afterKey);
    GapSkips(colon, [COLON] + afterColon);
    DocParse(value, doc, next, finite);
    hide Skip, ParseKey, Value, KeyText, GapText, DocText, Stops, Delimited, KeyOk, DocOk, GapOk, KeyMeaning, Meaning;
    assert ([COLON] + afterColon)[1..] == afterColon;
  }

  lemma {:induction false} EntriesParse(entries: Entries, out: seq<Member>, rest: Text, finite: Text -> bool)
    requires EntriesOk(entries) && entries != NoEntries
    ensures Members(EntriesText(entries) + ([CLOSE_BRACE] + rest), out, finite)
         == Parsed(JObject(EntriesMeaning(entries, out)), rest)
    decreases entries, 3
  {
    hide Members, Entry, Separator, Closes, DocText, KeyText, GapText, GapOk, KeyOk, Put;
    var tail := [CLOSE_BRACE] + rest;
    match entries
    case LastEntry(key, colon, value, doc, after) =>
      var next := GapText(after) + tail;
      LastEntryText(key, colon, value, doc, after, tail);
      GapDelimits(after, tail);
      EntryParse(key, colon, value, doc, next, finite);
      SeparatorCloses(after, CLOSE_BRACE, ExpectedCommaOrBrace, rest);
      MembersUnfold(EntriesText(entries) + tail, out, KeyMeaning(key), Meaning(doc), next, true, rest, finite);
    case EntryThen(key, colon, value, doc, after, before, more) =>
      var later := GapText(before) + (EntriesText(more) + tail);
      var next := GapText(after) + ([COMMA] + later);
      EntryThenText(key, colon, value, doc, after, before, more, tail);
      GapDelimits(after, [COMMA] + later);
      EntryParse(key, colon, value, doc, next, finite);
      SeparatorContinues(after, CLOSE_BRACE, ExpectedCommaOrBrace, later);
      MoreEntries(before, more, Put(out, KeyMeaning(key), Meaning(doc)), rest, finite);
      MembersUnfold(EntriesText(entries) + tail, out, KeyMeaning(key), Meaning(doc), next, more == NoEntries,
                    if more == NoEntries then rest else EntriesText(more) + tail, finite);
  }

  lemma {:induction false} MoreEntries(before: Gap, more: Entries, out: seq<Member>, rest: Text, finite: Text -> bool)
    requires GapOk(before) && EntriesOk(more)
    ensures var tail := [CLOSE_BRACE] + rest;
            && Closes(GapText(before) + (EntriesText(more) + tail), CLOSE_BRACE)
               == Parsed(more == NoEntries, if more == NoEntries then rest else EntriesText(more) + tail)
            && (more == NoEntries ==> EntriesMeaning(more, out) == out)
            && (more != NoEntries ==>
                 Members(EntriesText(more) + tail, out, finite) == Parsed(JObject(EntriesMeaning(more, out)), rest))
    decreases more, 4
  {
    hide Members, Closes, GapText;
    var tail := [CLOSE_BRACE] + rest;
    if more == NoEntries {
      assert EntriesText(more) + tail == tail;
      ClosesHere(before, CLOSE_BRACE, rest);
    } else {
      EntriesStart(more, tail);
      ClosesLater(before, CLOSE_BRACE, EntriesText(more) + tail);
      EntriesParse(more, out, rest, finite);
    }
  }

  /** The parser undoes every spelling: a whole document, with any gaps around it. */
  lemma SpellingParses(before: Gap, d: Doc, after: Gap, end: Option<Text>, finite: Text -> bool)
    requires GapOk(before) && DocOk(d) && GapOk(after) && EndOk(end)
    ensures Document(GapText(before) + DocText(d) + (GapText(after) + EndText(end)), finite) == Parsed(Meaning(d), [])
  {
    hide Skip, Value, DocText, GapText, Meaning, DocOk, GapOk;
    var rest := GapText(after) + EndText(end);
    GapDelimits(after, EndText(end));
    DocParse(before, d, rest, finite);
    EndSkips(after, end);
    assert GapText(before) + DocText(d) + rest == GapText(before) + (DocText(d) + rest);
  }
}
