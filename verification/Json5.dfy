/** The cursor-based fragment parser (json5.ts, `parseJson5`), proved against the grammar. */
module Json5 {
  import opened Wrappers
  import opened JsonGrammar

  datatype Outcome<T> = Read(value: T) | Refused(problem: Problem, at: nat)

  /** One step of the grammar of strings. */
  lemma StringTailUnfolds(s: Text, quote: Unit, out: Text)
    ensures StringTail(s, quote, out) ==
            if s == [] then Failed(UnterminatedString, s)
            else if s[0] == quote then Parsed(out, s[1..])
            else if s[0] == NEWLINE then Failed(NewlineInString, s)
            else if s[0] != BACKSLASH then StringTail(s[1..], quote, out + [s[0]])
            else if EscapeTail(s[1..]).Failed? then EscapeTail(s[1..])
            else StringTail(EscapeTail(s[1..]).rest, quote, out + EscapeTail(s[1..]).value)
  {
  }

  class Parser {
    const text: Text
    /** Which number lexemes, of those not computed here, denote a finite double. */
    const finite: Text -> bool
    var i: nat

    constructor (text: Text, finite: Text -> bool)
      ensures this.text == text && this.finite == finite && i == 0
    {
      this.text := text;
      this.finite := finite;
      i := 0;
    }

    predicate Inside()
      reads this`i
    {
      i <= |text|
    }

    function Left(): Text
      requires Inside()
      reads this`i
    {
      text[i..]
    }

    /** The outcome and the new cursor are those of the grammar. */
    ghost predicate Follows<T>(o: Outcome<T>, p: Parsed<T>)
      requires Inside()
      reads this`i
    {
      match p
      case Parsed(value, rest) => o == Read(value) && Left() == rest
      case Failed(problem, rest) => |rest| <= |text| && o == Refused(problem, |text| - |rest|)
    }

    method SkipSpaces()
      requires Inside()
      modifies this`i
      ensures Inside() && Left() == AfterSpaces(old(Left())) && old(i) <= i
    {
      while i < |text| && IsSpace(text[i])
        invariant Inside() && old(i) <= i && AfterSpaces(Left()) == AfterSpaces(old(Left()))
      {
        assert Left()[1..] == text[i + 1..];
        i := i + 1;
      }
    }

    /** The cursor is on the two slashes. */
    method SkipLine()
      requires i + 2 <= |text|
      modifies this`i
      ensures Inside() && Left() == AtLineEnd(old(Left())[2..]) && old(i) < i
    {
      assert Left()[2..] == text[i + 2..];
      i := i + 2;
      ghost var body := Left();
      while i < |text| && text[i] != NEWLINE
        invariant Inside() && old(i) < i && AtLineEnd(Left()) == AtLineEnd(body)
      {
        assert Left()[1..] == text[i + 1..];
        i := i + 1;
      }
    }

    /** The cursor is on the opening of the comment, and stays there when it is not closed. */
    method SkipBlock() returns (closed: bool)
      requires i + 2 <= |text|
      modifies this`i
      ensures Inside() && (closed <==> AfterClose(old(Left())[2..]).Some?)
      ensures if closed then old(i) < i && AfterClose(old(Left())[2..]) == Some(Left()) else i == old(i)
    {
      assert Left()[2..] == text[i + 2..];
      var after := FindClose(i + 2);
      closed := after.Some?;
      if closed { i := after.value; }
    }

    /** text.indexOf("*\/", from), as the position after it. */
    method FindClose(from: nat) returns (after: Option<nat>)
      requires from <= |text|
      ensures after.Some? <==> AfterClose(text[from..]).Some?
      ensures after.Some? ==> from < after.value <= |text| && AfterClose(text[from..]) == Some(text[after.value..])
    {
      var k := from;
      while k + 1 < |text|
        invariant from <= k <= |text| && AfterClose(text[k..]) == AfterClose(text[from..])
      {
        assert text[k..][1..] == text[k + 1..];
        if text[k] == STAR && text[k + 1] == SLASH {
          assert text[k..][2..] == text[k + 2..];
          return Some(k + 2);
        }
        k := k + 1;
      }
      after := None;
    }

    /** Whitespace and comments (json5.ts:52-68). */
    method SkipGap() returns (o: Outcome<()>)
      requires Inside()
      modifies this`i
      ensures Inside() && old(i) <= i && Follows(o, Skip(old(Left())))
    {
      while true
        invariant Inside() && old(i) <= i && Skip(Left()) == Skip(old(Left()))
        decreases |text| - i
      {
        hide AtLineEnd, AfterClose;
        SkipSpaces();
        assert AfterSpaces(Left()) == Left();
        if i + 1 < |text| && text[i] == SLASH && text[i + 1] == SLASH {
          SkipLine();
        } else if i + 1 < |text| && text[i] == SLASH && text[i + 1] == STAR {
          var closed := SkipBlock();
          if !closed { return Refused(UnterminatedComment, i); }
        } else {
          return Read(());
        }
      }
    }

    /** json5.ts:87-107; the cursor is on the backslash. */
    method ParseEscape() returns (o: Outcome<Text>)
      requires i < |text|
      modifies this`i
      ensures Inside() && old(i) < i && Follows(o, EscapeTail(old(text[i + 1..])))
    {
      i := i + 1;
      ghost var before := Left();
      if i >= |text| { return Refused(UnterminatedEscape, i); }
      var esc := text[i];
      i := i + 1;
      assert before[1..] == Left();
      if esc == LOWER_U {
        if !FourHex(Left()) { return Refused(InvalidUnicodeEscape, i); }
        o := Read([UnicodeValue(Left())]);
        assert before[5..] == text[i + 4..];
        i := i + 4;
      } else {
        o := Read(Escape(esc));
      }
    }

    /** json5.ts:70-109; the cursor is on the opening quote. */
    method ParseString() returns (o: Outcome<Text>)
      requires i < |text|
      modifies this`i
      ensures Inside() && old(i) < i && Follows(o, StringTail(old(text[i + 1..]), old(text[i]), []))
    {
      hide EscapeTail, StringTail;
      var quote := text[i];
      i := i + 1;
      ghost var goal := StringTail(Left(), quote, []);
      var out: Text := [];
      while true
        invariant Inside() && old(i) < i && StringTail(Left(), quote, out) == goal
        decreases |text| - i
      {
        StringTailUnfolds(Left(), quote, out);
        if i >= |text| { return Refused(UnterminatedString, i); }
        var c := text[i];
        assert Left()[1..] == text[i + 1..];
        if c == quote {
          i := i + 1;
          return Read(out);
        }
        if c == NEWLINE { return Refused(NewlineInString, i); }
        if c != BACKSLASH {
          out := out + [c];
          i := i + 1;
        } else {
          var escaped := ParseEscape();
          if escaped.Refused? { return Refused(escaped.problem, escaped.at); }
          out := out + escaped.value;
        }
      }
    }

    method SkipDigits()
      requires Inside()
      modifies this`i
      ensures Inside() && Left() == AfterDigits(old(Left())) && old(i) <= i
    {
      while i < |text| && IsDigit(text[i])
        invariant Inside() && old(i) <= i && AfterDigits(Left()) == AfterDigits(old(Left()))
      {
        assert Left()[1..] == text[i + 1..];
        i := i + 1;
      }
    }

    method SkipHex()
      requires Inside()
      modifies this`i
      ensures Inside() && Left() == AfterHex(old(Left())) && old(i) <= i
    {
      while i < |text| && IsHex(text[i])
        invariant Inside() && old(i) <= i && AfterHex(Left()) == AfterHex(old(Left()))
      {
        assert Left()[1..] == text[i + 1..];
        i := i + 1;
      }
    }

    method SkipSign()
      requires Inside()
      modifies this`i
      ensures Inside() && Left() == AfterSign(old(Left())) && old(i) <= i
    {
      if i < |text| && (text[i] == PLUS || text[i] == MINUS) { i := i + 1; }
    }

    method ScanFraction()
      requires Inside()
      modifies this`i
      ensures Inside() && Left() == AfterFraction(old(Left())) && old(i) <= i
    {
      if i < |text| && text[i] == DOT {
        assert Left()[1..] == text[i + 1..];
        i := i + 1;
        SkipDigits();
      }
    }

    method ScanExponent()
      requires Inside()
      modifies this`i
      ensures Inside() && Left() == AfterExponent(old(Left())) && old(i) <= i
    {
      if i < |text| && (text[i] == 101 || text[i] == 69) {
        assert Left()[1..] == text[i + 1..];
        i := i + 1;
        SkipSign();
        SkipDigits();
      }
    }

    /** The lexeme, without its value (json5.ts:112-128). */
    method ScanNumber()
      requires Inside()
      modifies this`i
      ensures Inside() && Left() == AfterNumber(old(Left())) && old(i) <= i
    {
      hide AfterSign, AfterDigits, AfterHex, AfterFraction, AfterExponent;
      SkipSign();
      if HexPrefix(Left()) {
        assert Left()[2..] == text[i + 2..];
        i := i + 2;
        SkipHex();
      } else {
        SkipDigits();
        ScanFraction();
        ScanExponent();
      }
    }

    method ParseNumber() returns (o: Outcome<Json>)
      requires Inside()
      modifies this`i
      ensures Inside() && old(i) <= i && Follows(o, JsonGrammar.ParseNumber(old(Left()), finite))
    {
      hide AfterNumber, NumberOf;
      var start := i;
      ghost var before := Left();
      ScanNumber();
      var raw := text[start..i];
      assert raw == before[..|before| - |Left()|];
      if raw == [] { return Refused(InvalidNumber, start); }
      var n := NumberOf(raw, finite);
      if n.None? { return Refused(InvalidNumber, start); }
      o := Read(JNumber(n.value));
    }

    method ParseKey() returns (o: Outcome<Text>)
      requires Inside()
      modifies this`i
      ensures Inside() && old(i) <= i && Follows(o, JsonGrammar.ParseKey(old(Left())))
    {
      if i < |text| && (text[i] == QUOTE || text[i] == APOSTROPHE) {
        assert Left()[1..] == text[i + 1..];
        o := ParseString();
      } else if i < |text| && IsIdentStart(text[i]) {
        var start := i;
        ghost var before := Left();
        assert before[1..] == text[i + 1..];
        i := i + 1;
        while i < |text| && IsIdentPart(text[i])
          invariant start < i && Inside() && AfterIdent(Left()) == AfterIdent(before[1..])
        {
          assert Left()[1..] == text[i + 1..];
          i := i + 1;
        }
        assert text[start..i] == before[..|before| - |Left()|];
        o := Read(text[start..i]);
      } else {
        o := Refused(ExpectedKey, i);
      }
    }

    /** json5.ts:146-187. */
    method ParseValue() returns (o: Outcome<Json>)
      requires Inside()
      modifies this`i
      ensures Inside() && old(i) <= i && Follows(o, Value(old(Left()), finite))
      decreases |text| - i, 2
    {
      hide Skip, StringTail, JsonGrammar.ParseNumber, Closes, Members, Elements, IsSpace, IsNumberStart, StartsWith;
      var gap := SkipGap();
      if gap.Refused? { return Refused(gap.problem, gap.at); }
      if i >= |text| { return Refused(UnexpectedEnd, i); }
      var c := text[i];
      assert Left()[1..] == text[i + 1..];
      if c == OPEN_BRACE {
        o := ParseObject();
      } else if c == OPEN_BRACKET {
        o := ParseArray();
      } else if c == QUOTE || c == APOSTROPHE {
        var s := ParseString();
        o := if s.Read? then Read(JString(s.value)) else Refused(s.problem, s.at);
      } else if StartsWith(Left(), TRUE) {
        SkipWord(TRUE);
        o := Read(JBool(true));
      } else if StartsWith(Left(), FALSE) {
        SkipWord(FALSE);
        o := Read(JBool(false));
      } else if StartsWith(Left(), NULL) {
        SkipWord(NULL);
        o := Read(JNull);
      } else if IsNumberStart(c) {
        o := ParseNumber();
      } else {
        o := Refused(UnexpectedCharacter, i);
      }
    }

    method SkipWord(word: Text)
      requires Inside() && StartsWith(Left(), word)
      modifies this`i
      ensures Inside() && i == old(i) + |word| && Left() == old(Left())[|word|..]
    {
      assert Left()[|word|..] == text[i + |word|..];
      i := i + |word|;
    }

    method TryClose(close: Unit) returns (o: Outcome<bool>)
      requires Inside()
      modifies this`i
      ensures Inside() && old(i) <= i && Follows(o, Closes(old(Left()), close))
    {
      hide Skip;
      var gap := SkipGap();
      if gap.Refused? { return Refused(gap.problem, gap.at); }
      if i < |text| && text[i] == close {
        assert Left()[1..] == text[i + 1..];
        i := i + 1;
        return Read(true);
      }
      o := Read(false);
    }

    method ParseSeparator(close: Unit, problem: Problem) returns (o: Outcome<bool>)
      requires Inside()
      modifies this`i
      ensures Inside() && old(i) <= i && Follows(o, Separator(old(Left()), close, problem))
    {
      hide Skip, Closes;
      var gap := SkipGap();
      if gap.Refused? { return Refused(gap.problem, gap.at); }
      if i < |text| && text[i] == COMMA {
        assert Left()[1..] == text[i + 1..];
        i := i + 1;
        o := TryClose(close);
      } else if i < |text| && text[i] == close {
        assert Left()[1..] == text[i + 1..];
        i := i + 1;
        o := Read(true);
      } else {
        o := Refused(problem, i);
      }
    }

    /** json5.ts:156-161. */
    method ParseEntry() returns (o: Outcome<Member>)
      requires Inside()
      modifies this`i
      ensures Inside() && old(i) <= i && Follows(o, Entry(old(Left()), finite))
      decreases |text| - i, 3
    {
      hide Skip, Value, JsonGrammar.ParseKey;
      var gap := SkipGap();
      if gap.Refused? { return Refused(gap.problem, gap.at); }
      var key := ParseKey();
      if key.Refused? { return Refused(key.problem, key.at); }
      gap := SkipGap();
      if gap.Refused? { return Refused(gap.problem, gap.at); }
      if i >= |text| || text[i] != COLON { return Refused(ExpectedColon, i); }
      assert Left()[1..] == text[i + 1..];
      i := i + 1;
      var value := ParseValue();
      if value.Refused? { return Refused(value.problem, value.at); }
      o := Read(Member(key.value, value.value));
    }

    /** json5.ts:150-167; the cursor is on the opening brace. */
    method ParseObject() returns (o: Outcome<Json>)
      requires i < |text| && text[i] == OPEN_BRACE
      modifies this`i
      ensures Inside() && old(i) < i && Follows(o, Bare(old(Left()), finite))
      decreases |text| - i, 1
    {
      hide Skip, Value, Entry, Separator, Closes, Put;
      assert Left()[1..] == text[i + 1..];
      i := i + 1;
      var empty := TryClose(CLOSE_BRACE);
      if empty.Refused? { return Refused(empty.problem, empty.at); }
      if empty.value { return Read(JObject([])); }
      ghost var goal := Members(Left(), [], finite);
      var out: seq<Member> := [];
      while true
        invariant Inside() && old(i) < i && Members(Left(), out, finite) == goal
        decreases |text| - i
      {
        var entry := ParseEntry();
        if entry.Refused? { return Refused(entry.problem, entry.at); }
        out := Put(out, entry.value.key, entry.value.value);
        var last := ParseSeparator(CLOSE_BRACE, ExpectedCommaOrBrace);
        if last.Refused? { return Refused(last.problem, last.at); }
        if last.value { return Read(JObject(out)); }
      }
    }

    /** json5.ts:168-180; the cursor is on the opening bracket. */
    method ParseArray() returns (o: Outcome<Json>)
      requires i < |text| && text[i] == OPEN_BRACKET
      modifies this`i
      ensures Inside() && old(i) < i && Follows(o, Bare(old(Left()), finite))
      decreases |text| - i, 1
    {
      hide Skip, Value, Separator, Closes;
      assert Left()[1..] == text[i + 1..];
      i := i + 1;
      var empty := TryClose(CLOSE_BRACKET);
      if empty.Refused? { return Refused(empty.problem, empty.at); }
      if empty.value { return Read(JArray([])); }
      ghost var goal := Elements(Left(), [], finite);
      var out: seq<Json> := [];
      while true
        invariant Inside() && old(i) < i && Elements(Left(), out, finite) == goal
        decreases |text| - i
      {
        var value := ParseValue();
        if value.Refused? { return Refused(value.problem, value.at); }
        out := out + [value.value];
        var last := ParseSeparator(CLOSE_BRACKET, ExpectedCommaOrBracket);
        if last.Refused? { return Refused(last.problem, last.at); }
        if last.value { return Read(JArray(out)); }
      }
    }
  }

  // ---- positions -------------------------------------------------------------------------------

  function LinesBefore(s: Text): nat {
    if s == [] then 0 else LinesBefore(s[..|s| - 1]) + if s[|s| - 1] == NEWLINE then 1 else 0
  }

  function LineStart(s: Text): (start: nat)
    ensures start <= |s|
  {
    if s == [] then 0 else if s[|s| - 1] == NEWLINE then |s| else LineStart(s[..|s| - 1])
  }

  /** 1-based line and column of a position (json5.ts:35-45). */
  method PositionOf(text: Text, at: nat) returns (line: nat, column: nat)
    requires at <= |text|
    ensures line == LinesBefore(text[..at]) + 1 && column == at - LineStart(text[..at]) + 1
  {
    line := 1;
    var lineStart := 0;
    for k := 0 to at
      invariant line == LinesBefore(text[..k]) + 1 && lineStart == LineStart(text[..k]) <= k
    {
      assert text[..k + 1][..k] == text[..k];
      if text[k] == NEWLINE {
        line := line + 1;
        lineStart := k + 1;
      }
    }
    column := at - lineStart + 1;
  }

  /** Every text gives a value or a problem with its position, and which of them the grammar says. */
  method ParseJson5(text: Text, finite: Text -> bool) returns (o: Outcome<Json>)
    ensures match Document(text, finite)
            case Parsed(value, _) => o == Read(value)
            case Failed(problem, rest) => |rest| <= |text| && o == Refused(problem, |text| - |rest|)
  {
    var parser := new Parser(text, finite);
    assert parser.Left() == text;
    o := parser.ParseValue();
    if o.Refused? { return; }
    var gap := parser.SkipGap();
    if gap.Refused? { return Refused(gap.problem, gap.at); }
    if parser.i != |text| { return Refused(TrailingContent, parser.i); }
  }
}
