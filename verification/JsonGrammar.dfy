/** What the fragment parser accepts, as a function of the text that is left (json5.ts). */
module JsonGrammar {
  import opened Wrappers

  /** A UTF-16 code unit, what a JavaScript string is made of. */
  type Unit = u: int | 0 <= u < 0x10000
  type Text = seq<Unit>

  const NEWLINE: Unit := 10
  const SPACE: Unit := 32
  const QUOTE: Unit := 34
  const APOSTROPHE: Unit := 39
  const STAR: Unit := 42
  const PLUS: Unit := 43
  const COMMA: Unit := 44
  const MINUS: Unit := 45
  const DOT: Unit := 46
  const SLASH: Unit := 47
  const ZERO: Unit := 48
  const COLON: Unit := 58
  const OPEN_BRACKET: Unit := 91
  const BACKSLASH: Unit := 92
  const CLOSE_BRACKET: Unit := 93
  const LOWER_U: Unit := 117
  const OPEN_BRACE: Unit := 123
  const CLOSE_BRACE: Unit := 125

  const TRUE: Text := [116, 114, 117, 101]
  const FALSE: Text := [102, 97, 108, 115, 101]
  const NULL: Text := [110, 117, 108, 108]
  /** Assigning this key sets a prototype instead of a property. */
  const PROTO: Text := [95, 95, 112, 114, 111, 116, 111, 95, 95]

  const MAX_SAFE_INTEGER: int := 0x1F_FFFF_FFFF_FFFF

  /** Integers a double holds exactly; any other number is kept as it was written. */
  datatype Number = Exactly(n: int) | Written(raw: Text)

  datatype Json = JNull | JBool(b: bool) | JNumber(number: Number) | JString(text: Text) | JArray(items: seq<Json>)
    | JObject(members: seq<Member>)
  datatype Member = Member(key: Text, value: Json)

  datatype Problem =
    | UnterminatedComment | UnterminatedString | NewlineInString | UnterminatedEscape | InvalidUnicodeEscape
    | InvalidNumber
    | ExpectedKey | ExpectedColon | ExpectedCommaOrBrace | ExpectedCommaOrBracket | UnexpectedEnd
    | UnexpectedCharacter | TrailingContent

  /** A value and the text left after it, or a problem and the text left where it was found. */
  datatype Parsed<T> = Parsed(value: T, rest: Text) | Failed(problem: Problem, rest: Text)

  // ---- characters ------------------------------------------------------------------------------

  /** `\s` of a JavaScript regular expression. */
  predicate IsSpace(u: Unit) {
    9 <= u <= 13 || u in {0x20, 0xA0, 0x1680, 0x2028, 0x2029, 0x202F, 0x205F, 0x3000, 0xFEFF} || 0x2000 <= u <= 0x200A
  }

  predicate IsDigit(u: Unit) {
    48 <= u <= 57
  }

  predicate IsHex(u: Unit) {
    IsDigit(u) || 65 <= u <= 70 || 97 <= u <= 102
  }

  function HexValue(u: Unit): nat
    requires IsHex(u)
  {
    if u <= 57 then u - 48 else if u <= 70 then u - 55 else u - 87
  }

  predicate IsIdentStart(u: Unit) {
    65 <= u <= 90 || 97 <= u <= 122 || u == 95 || u == 36
  }

  predicate IsIdentPart(u: Unit) {
    IsIdentStart(u) || IsDigit(u)
  }

  predicate IsNumberStart(u: Unit) {
    u == MINUS || u == PLUS || IsDigit(u) || u == DOT
  }

  predicate StartsWith(s: Text, prefix: Text) {
    |prefix| <= |s| && s[..|prefix|] == prefix
  }

  // ---- gaps ------------------------------------------------------------------------------------

  function AfterSpaces(s: Text): (rest: Text)
    ensures |rest| <= |s| && (rest != [] ==> !IsSpace(rest[0]))
  {
    if s != [] && IsSpace(s[0]) then AfterSpaces(s[1..]) else s
  }

  function AtLineEnd(s: Text): (rest: Text)
    ensures |rest| <= |s|
  {
    if s != [] && s[0] != NEWLINE then AtLineEnd(s[1..]) else s
  }

  function AfterClose(s: Text): (rest: Option<Text>)
    ensures rest.Some? ==> |rest.value| < |s|
  {
    if |s| < 2 then None else if s[0] == STAR && s[1] == SLASH then Some(s[2..]) else AfterClose(s[1..])
  }

  /** Whitespace and both comment forms (json5.ts:52-68). */
  function Skip(s: Text): (p: Parsed<()>)
    ensures |p.rest| <= |s|
    decreases |s|
  {
    var t := AfterSpaces(s);
    if |t| >= 2 && t[0] == SLASH && t[1] == SLASH then
      Skip(AtLineEnd(t[2..]))
    else if |t| >= 2 && t[0] == SLASH && t[1] == STAR then
      match AfterClose(t[2..])
      case None => Failed(UnterminatedComment, t)
      case Some(rest) => Skip(rest)
    else Parsed((), t)
  }

  // ---- strings, numbers, keys ------------------------------------------------------------------

  /** What `\e` stands for; a line continuation stands for nothing. */
  function Escape(e: Unit): Text {
    if e == 110 then [10] else if e == 116 then [9] else if e == 114 then [13] else if e == 98 then [8]
    else if e == 102 then [12]
    else if e == ZERO then [0] else if e == NEWLINE then [] else [e]
  }

  predicate FourHex(s: Text) {
    |s| >= 4 && IsHex(s[0]) && IsHex(s[1]) && IsHex(s[2]) && IsHex(s[3])
  }

  function UnicodeValue(s: Text): Unit
    requires FourHex(s)
  {
    ((HexValue(s[0]) * 16 + HexValue(s[1])) * 16 + HexValue(s[2])) * 16 + HexValue(s[3])
  }

  /** An escape after its backslash (json5.ts:87-107). */
  function EscapeTail(s: Text): (p: Parsed<Text>)
    ensures |p.rest| <= |s|
  {
    if s == [] then Failed(UnterminatedEscape, s)
    else if s[0] != LOWER_U then Parsed(Escape(s[0]), s[1..])
    else if !FourHex(s[1..]) then Failed(InvalidUnicodeEscape, s[1..])
    else Parsed([UnicodeValue(s[1..])], s[5..])
  }

  /** The rest of a string after its opening quote, `out` read so far (json5.ts:70-109). */
  function StringTail(s: Text, quote: Unit, out: Text): (p: Parsed<Text>)
    ensures |p.rest| <= |s| && (p.Parsed? ==> |p.rest| < |s|)
    decreases |s|
  {
    if s == [] then Failed(UnterminatedString, s)
    else if s[0] == quote then Parsed(out, s[1..])
    else if s[0] == NEWLINE then Failed(NewlineInString, s)
    else if s[0] != BACKSLASH then StringTail(s[1..], quote, out + [s[0]])
    else
      var e := EscapeTail(s[1..]);
      if e.Failed? then e else StringTail(e.rest, quote, out + e.value)
  }

  function AfterDigits(s: Text): (rest: Text)
    ensures |rest| <= |s|
  {
    if s != [] && IsDigit(s[0]) then AfterDigits(s[1..]) else s
  }

  function AfterHex(s: Text): (rest: Text)
    ensures |rest| <= |s|
  {
    if s != [] && IsHex(s[0]) then AfterHex(s[1..]) else s
  }

  function AfterSign(s: Text): (rest: Text)
    ensures |rest| <= |s|
  {
    if s != [] && (s[0] == PLUS || s[0] == MINUS) then s[1..] else s
  }

  predicate HexPrefix(s: Text) {
    |s| >= 2 && s[0] == ZERO && (s[1] == 120 || s[1] == 88)
  }

  function AfterFraction(s: Text): (rest: Text)
    ensures |rest| <= |s|
  {
    if s != [] && s[0] == DOT then AfterDigits(s[1..]) else s
  }

  function AfterExponent(s: Text): (rest: Text)
    ensures |rest| <= |s|
  {
    if s != [] && (s[0] == 101 || s[0] == 69) then AfterDigits(AfterSign(s[1..])) else s
  }

  /** The text after a number lexeme (json5.ts:111-128). */
  function AfterNumber(s: Text): (rest: Text)
    ensures |rest| <= |s|
  {
    var t := AfterSign(s);
    if HexPrefix(t) then AfterHex(t[2..]) else AfterExponent(AfterFraction(AfterDigits(t)))
  }

  predicate AllDigits(s: Text) {
    forall i | 0 <= i < |s| :: IsDigit(s[i])
  }

  function Decimal(s: Text): nat
    requires AllDigits(s)
  {
    if s == [] then 0 else Decimal(s[..|s| - 1]) * 10 + (s[|s| - 1] - 48)
  }

  function Hexadecimal(s: Text): nat
    requires forall i | 0 <= i < |s| :: IsHex(s[i])
  {
    if s == [] then 0 else Hexadecimal(s[..|s| - 1]) * 16 + HexValue(s[|s| - 1])
  }

  /**
   * `Number(raw)`: integers in decimal or unsigned hexadecimal notation are computed; of any other lexeme `finite` says
   * whether it denotes a finite number.
   */
  function NumberOf(raw: Text, finite: Text -> bool): Option<Number> {
    var digits := AfterSign(raw);
    if digits != [] && AllDigits(digits) && Decimal(digits) <= MAX_SAFE_INTEGER then
      var n: int := Decimal(digits);
      Some(Exactly(if raw[0] == MINUS then -n else n))
    else if HexPrefix(raw) && |raw| > 2 && (forall i | 2 <= i < |raw| :: IsHex(raw[i]))
      && Hexadecimal(raw[2..]) <= MAX_SAFE_INTEGER then
      Some(Exactly(Hexadecimal(raw[2..])))
    else if HexPrefix(digits) && (raw != digits || |raw| == 2) then None
    else if finite(raw) then Some(Written(raw)) else None
  }

  function ParseNumber(s: Text, finite: Text -> bool): (p: Parsed<Json>)
    ensures |p.rest| <= |s| && (p.Parsed? && s != [] && IsNumberStart(s[0]) ==> |p.rest| < |s|)
  {
    var rest := AfterNumber(s);
    var raw := s[..|s| - |rest|];
    if raw == [] then Failed(InvalidNumber, s)
    else match NumberOf(raw, finite)
      case None => Failed(InvalidNumber, s)
      case Some(n) => Parsed(JNumber(n), rest)
  }

  function AfterIdent(s: Text): (rest: Text)
    ensures |rest| <= |s|
  {
    if s != [] && IsIdentPart(s[0]) then AfterIdent(s[1..]) else s
  }

  function ParseKey(s: Text): (p: Parsed<Text>)
    ensures |p.rest| <= |s| && (p.Parsed? ==> |p.rest| < |s|)
  {
    if s != [] && (s[0] == QUOTE || s[0] == APOSTROPHE) then StringTail(s[1..], s[0], [])
    else if s != [] && IsIdentStart(s[0]) then Parsed(s[..|s| - |AfterIdent(s[1..])|], AfterIdent(s[1..]))
    else Failed(ExpectedKey, s)
  }

  // ---- values ----------------------------------------------------------------------------------

  /** `out[key] = value`: a key assigned again keeps its place. */
  function Put(out: seq<Member>, key: Text, value: Json): seq<Member> {
    if key == PROTO then out
    else if out == [] then [Member(key, value)]
    else if out[0].key == key then [Member(key, value)] + out[1..]
    else [out[0]] + Put(out[1..], key, value)
  }

  /** Whether a bracket closes here, consuming it if so. */
  function Closes(s: Text, close: Unit): (p: Parsed<bool>)
    ensures |p.rest| <= |s|
  {
    var gap := Skip(s);
    if gap.Failed? then Failed(gap.problem, gap.rest)
    else if gap.rest != [] && gap.rest[0] == close then Parsed(true, gap.rest[1..])
    else Parsed(false, gap.rest)
  }

  /** What follows an item: the closing bracket, perhaps after a trailing comma, or a comma and another item. */
  function Separator(s: Text, close: Unit, problem: Problem): (p: Parsed<bool>)
    ensures |p.rest| <= |s|
  {
    var gap := Skip(s);
    if gap.Failed? then Failed(gap.problem, gap.rest)
    else if gap.rest != [] && gap.rest[0] == COMMA then Closes(gap.rest[1..], close)
    else if gap.rest != [] && gap.rest[0] == close then Parsed(true, gap.rest[1..])
    else Failed(problem, gap.rest)
  }

  /** json5.ts:146-187. */
  function Value(s: Text, finite: Text -> bool): (p: Parsed<Json>)
    ensures |p.rest| <= |s| && (p.Parsed? ==> |p.rest| < |s|)
    decreases |s|, 2
  {
    var gap := Skip(s);
    if gap.Failed? then Failed(gap.problem, gap.rest) else Bare(gap.rest, finite)
  }

  /** A value with nothing in front of it. */
  function Bare(s: Text, finite: Text -> bool): (p: Parsed<Json>)
    ensures |p.rest| <= |s| && (p.Parsed? ==> |p.rest| < |s|)
    decreases |s|, 1
  {
    if s == [] then Failed(UnexpectedEnd, s)
    else if s[0] == OPEN_BRACE then
      var empty := Closes(s[1..], CLOSE_BRACE);
      if empty.Failed? then Failed(empty.problem, empty.rest)
      else if empty.value then Parsed(JObject([]), empty.rest)
      else Members(empty.rest, [], finite)
    else if s[0] == OPEN_BRACKET then
      var empty := Closes(s[1..], CLOSE_BRACKET);
      if empty.Failed? then Failed(empty.problem, empty.rest)
      else if empty.value then Parsed(JArray([]), empty.rest)
      else Elements(empty.rest, [], finite)
    else if s[0] == QUOTE || s[0] == APOSTROPHE then
      var p := StringTail(s[1..], s[0], []);
      if p.Failed? then Failed(p.problem, p.rest) else Parsed(JString(p.value), p.rest)
    else if StartsWith(s, TRUE) then Parsed(JBool(true), s[4..])
    else if StartsWith(s, FALSE) then Parsed(JBool(false), s[5..])
    else if StartsWith(s, NULL) then Parsed(JNull, s[4..])
    else if IsNumberStart(s[0]) then ParseNumber(s, finite)
    else Failed(UnexpectedCharacter, s)
  }

  /** Key, colon and value, with the gaps before them. */
  function Entry(s: Text, finite: Text -> bool): (p: Parsed<Member>)
    ensures |p.rest| <= |s| && (p.Parsed? ==> |p.rest| < |s|)
    decreases |s|, 3
  {
    var gap := Skip(s);
    if gap.Failed? then Failed(gap.problem, gap.rest)
    else
      var key := ParseKey(gap.rest);
      if key.Failed? then Failed(key.problem, key.rest)
      else
        var colon := Skip(key.rest);
        if colon.Failed? then Failed(colon.problem, colon.rest)
        else if colon.rest == [] || colon.rest[0] != COLON then Failed(ExpectedColon, colon.rest)
        else
          var value := Value(colon.rest[1..], finite);
          if value.Failed? then Failed(value.problem, value.rest)
          else Parsed(Member(key.value, value.value), value.rest)
  }

  /** The members of an object from the next key on, with `out` before them. */
  function Members(s: Text, out: seq<Member>, finite: Text -> bool): (p: Parsed<Json>)
    ensures |p.rest| <= |s| && (p.Parsed? ==> |p.rest| < |s|)
    decreases |s|, 4
  {
    var entry := Entry(s, finite);
    if entry.Failed? then Failed(entry.problem, entry.rest)
    else
      var now, last := Put(out, entry.value.key, entry.value.value),
          Separator(entry.rest, CLOSE_BRACE, ExpectedCommaOrBrace);
      if last.Failed? then Failed(last.problem, last.rest)
      else if last.value then Parsed(JObject(now), last.rest)
      else Members(last.rest, now, finite)
  }

  function Elements(s: Text, out: seq<Json>, finite: Text -> bool): (p: Parsed<Json>)
    ensures |p.rest| <= |s| && (p.Parsed? ==> |p.rest| < |s|)
    decreases |s|, 3
  {
    var value := Value(s, finite);
    if value.Failed? then Failed(value.problem, value.rest)
    else
      var now, last := out + [value.value], Separator(value.rest, CLOSE_BRACKET, ExpectedCommaOrBracket);
      if last.Failed? then Failed(last.problem, last.rest)
      else if last.value then Parsed(JArray(now), last.rest)
      else Elements(last.rest, now, finite)
  }

  /** A whole document (json5.ts:189-192). */
  function Document(s: Text, finite: Text -> bool): Parsed<Json> {
    var value := Value(s, finite);
    if value.Failed? then Failed(value.problem, value.rest)
    else
      var gap := Skip(value.rest);
      if gap.Failed? then Failed(gap.problem, gap.rest)
      else if gap.rest != [] then Failed(TrailingContent, gap.rest)
      else Parsed(value.value, [])
  }
}
