/** The printer and the recursive-descent parser as the bridge performs them. */
module JsonCodec {
  import opened Common
  import opened MiniJson

  /** What of an array is still to be printed once `i` items are. */
  function ItemsLeft(items: seq<Json>, i: nat): Bytes
    requires i <= |items|
  {
    if i == |items| then [] else (if i > 0 then [COMMA] else []) + DumpItems(items[i..])
  }

  function FieldsLeft(fields: seq<Field>, i: nat): Bytes
    requires i <= |fields|
  {
    if i == |fields| then [] else (if i > 0 then [COMMA] else []) + DumpFields(fields[i..])
  }

  lemma ItemsLeftStep(items: seq<Json>, i: nat)
    requires i < |items|
    ensures ItemsLeft(items, i) == (if i > 0 then [COMMA] else []) + Dump(items[i]) + ItemsLeft(items, i + 1)
  {
    assert items[i..][1..] == items[i + 1..];
  }

  lemma FieldsLeftStep(fields: seq<Field>, i: nat)
    requires i < |fields|
    ensures FieldsLeft(fields, i) == (if i > 0 then [COMMA] else []) + DumpField(fields[i]) + FieldsLeft(fields, i + 1)
  {
    assert fields[i..][1..] == fields[i + 1..];
  }

  lemma {:induction false} EscapedAllAppends(bytes: Bytes, b: Byte)
    ensures EscapedAll(bytes + [b]) == EscapedAll(bytes) + Escaped(b)
  {
    if bytes == [] {
      assert [b][1..] == [];
    } else {
      assert (bytes + [b])[1..] == bytes[1..] + [b];
      EscapedAllAppends(bytes[1..], b);
    }
  }

  lemma Reassociate(a: Bytes, b: Bytes, c: Bytes, d: Bytes)
    ensures a + (b + c + d) == a + b + c + d
    ensures b == [] ==> a + b == a
  {
  }

  class Printer {
    var out: Bytes

    constructor ()
      ensures out == []
    {
      out := [];
    }

    method Put(bytes: Bytes)
      modifies this
      ensures out == old(out) + bytes
    {
      out := out + bytes;
    }

    method Write(j: Json)
      modifies this
      ensures out == old(out) + Dump(j)
      decreases j
    {
      match j {
        case Null => Put(NULL_TEXT);
        case Bool(on) => Put(if on then TRUE_TEXT else FALSE_TEXT);
        case Number(value) => Put(Numeral(value));
        case Inexact(text) => Put(text);
        case String(bytes) => WriteString(bytes);
        case Array(items) => WriteItems(items);
        case Object(fields) => WriteFields(fields);
      }
    }

    method WriteItems(items: seq<Json>)
      modifies this
      ensures out == old(out) + Dump(Array(items))
      decreases items, 1
    {
      Put([OPEN_ARRAY]);
      ghost var start := out;
      for i := 0 to |items|
        invariant out + ItemsLeft(items, i) == start + ItemsLeft(items, 0)
      {
        WriteItem(items, i);
      }
      assert items[0..] == items;
      assert out == start + ItemsLeft(items, 0);
      Put([CLOSE_ARRAY]);
    }

    method WriteItem(items: seq<Json>, i: nat)
      requires i < |items|
      modifies this
      ensures out + ItemsLeft(items, i + 1) == old(out) + ItemsLeft(items, i)
      decreases items, 0
    {
      ItemsLeftStep(items, i);
      ghost var left := ItemsLeft(items, i + 1);
      if i > 0 {
        Put([COMMA]);
      }
      Write(items[i]);
      Reassociate(old(out), if i > 0 then [COMMA] else [], Dump(items[i]), left);
    }

    method WriteFields(fields: seq<Field>)
      modifies this
      ensures out == old(out) + Dump(Object(fields))
      decreases fields, 1
    {
      Put([OPEN_OBJECT]);
      ghost var start := out;
      var first := true;
      for i := 0 to |fields|
        invariant first == (i == 0)
        invariant out + FieldsLeft(fields, i) == start + FieldsLeft(fields, 0)
      {
        WriteNextField(fields, i, first);
        first := false;
      }
      assert fields[0..] == fields;
      assert out == start + FieldsLeft(fields, 0);
      Put([CLOSE_OBJECT]);
    }

    method WriteNextField(fields: seq<Field>, i: nat, first: bool)
      requires i < |fields| && first == (i == 0)
      modifies this
      ensures out + FieldsLeft(fields, i + 1) == old(out) + FieldsLeft(fields, i)
      decreases fields, 0
    {
      FieldsLeftStep(fields, i);
      ghost var left := FieldsLeft(fields, i + 1);
      if !first {
        Put([COMMA]);
      }
      WriteField(fields[i]);
      Reassociate(old(out), if i > 0 then [COMMA] else [], DumpField(fields[i]), left);
    }

    method WriteField(field: Field)
      modifies this
      ensures out == old(out) + DumpField(field)
      decreases field
    {
      WriteString(field.key);
      Put([COLON]);
      Write(field.value);
    }

    method WriteString(bytes: Bytes)
      modifies this
      ensures out == old(out) + Quoted(bytes)
    {
      Put([QUOTE]);
      ghost var before := out;
      for i := 0 to |bytes|
        invariant out == before + EscapedAll(bytes[..i])
      {
        assert bytes[..i + 1] == bytes[..i] + [bytes[i]];
        EscapedAllAppends(bytes[..i], bytes[i]);
        PutEscaped(bytes[i]);
      }
      assert bytes[..|bytes|] == bytes;
      Put([QUOTE]);
    }

    method PutEscaped(b: Byte)
      modifies this
      ensures out == old(out) + Escaped(b)
    {
      match b {
        case 0x22 => Put([BACKSLASH, QUOTE]);
        case 0x5C => Put([BACKSLASH, BACKSLASH]);
        case 0x08 => Put([BACKSLASH, 0x62]);
        case 0x0C => Put([BACKSLASH, 0x66]);
        case 0x0A => Put([BACKSLASH, 0x6E]);
        case 0x0D => Put([BACKSLASH, 0x72]);
        case 0x09 => Put([BACKSLASH, 0x74]);
        case _ =>
          if b < 0x20 {
            Put([BACKSLASH, 0x75, 0x30, 0x30, HexDigit(b / 16), HexDigit(b % 16)]);
          } else {
            Put([b]);
          }
      }
    }
  }

  method DumpText(j: Json) returns (text: Bytes)
    ensures text == Dump(j)
  {
    var printer := new Printer();
    printer.Write(j);
    text := printer.out;
  }

  /** The parser walks over its text; a method that fails leaves no result. */
  class Parser {
    const text: Bytes
    var pos: nat

    ghost predicate Valid()
      reads this
    {
      pos <= |text|
    }

    ghost function Rest(): Bytes
      requires Valid()
      reads this
    {
      text[pos..]
    }

    constructor (text: Bytes)
      ensures Valid() && this.text == text && pos == 0
    {
      this.text, pos := text, 0;
    }

    /** Is the next byte this one? */
    predicate Sees(b: Byte)
      requires Valid()
      reads this
      ensures Sees(b) <==> StartsWith(Rest(), b)
    {
      pos < |text| && text[pos] == b
    }

    method Advance(n: nat)
      requires Valid() && n <= |text| - pos
      modifies this
      ensures Valid() && pos == old(pos) + n && Rest() == old(Rest())[n..]
    {
      pos := pos + n;
    }

    method SkipWs()
      requires Valid()
      modifies this
      ensures Valid() && pos >= old(pos) && Rest() == SkipBlank(old(Rest()))
    {
      while pos < |text|
        invariant Valid() && pos >= old(pos) && SkipBlank(Rest()) == SkipBlank(old(Rest()))
      {
        if !IsBlank(text[pos]) {
          return;
        }
        Advance(1);
      }
    }

    /** The outcome of a method agrees with the function that specifies it. */
    ghost predicate Agrees<T>(r: Parsed<T>, found: Option<T>)
      requires Valid()
      reads this
    {
      if r.Fail? then found == None else found == Some(r.value) && Rest() == r.rest
    }

    method ParseLiteralText(literal: Bytes, value: Json) returns (found: Option<Json>)
      requires Valid() && literal != []
      modifies this
      ensures Valid() && (found.Some? ==> pos > old(pos))
      ensures Agrees(ParseLiteral(old(Rest()), literal, value), found)
    {
      if |literal| > |text| - pos || text[pos..pos + |literal|] != literal {
        return None;
      }
      assert literal <= Rest();
      Advance(|literal|);
      found := Some(value);
    }

    /** Four hexadecimal digits, shifted in one by one. */
    method ParseHex() returns (found: Option<int>)
      requires Valid() && |text| - pos >= 4
      modifies this
      ensures Valid()
      ensures found == HexCode(old(Rest())[..4])
      ensures found.Some? ==> pos == old(pos) + 4
    {
      ghost var s := old(Rest())[..4];
      var code := 0;
      for i := 0 to 4
        invariant Valid() && pos == old(pos) + i && code == Shifted(s[..i])
        invariant forall k :: 0 <= k < i ==> HexValue(s[k]).Some?
      {
        var digit := HexValue(text[pos]);
        assert text[pos] == s[i] && s[..i + 1][..i] == s[..i];
        if digit.None? {
          return None;
        }
        Advance(1);
        code := code * 16 + digit.value;
      }
      ShiftedIsHexCode(s);
      assert s[..4] == s;
      found := Some(code);
    }

    /** One backslash escape, the backslash already taken. */
    method ParseEscape() returns (found: Option<Bytes>)
      requires Valid() && pos < |text|
      modifies this
      ensures Valid() && (found.Some? ==> pos > old(pos))
      ensures found.Some? <==> old(EscapeOf(Rest()).Done?)
      ensures found.Some? ==> old(EscapeOf(Rest())) == Done(found.value, Rest())
    {
      ghost var s := Rest();
      var esc := text[pos];
      if esc == 0x75 {
        if |text| - pos < 5 {
          return None;
        }
        Advance(1);
        assert Rest()[..4] == s[1..5];
        var code := ParseHex();
        if code.None? {
          return None;
        }
        return Some(Utf8(code.value));
      }
      if Unescaped(esc).None? {
        return None;
      }
      Advance(1);
      found := Some([Unescaped(esc).value]);
    }

    method ParseStringText() returns (found: Option<Bytes>)
      requires Valid()
      modifies this
      ensures Valid() && (found.Some? ==> pos > old(pos))
      ensures Agrees(ParseString(old(Rest())), found)
    {
      if !Sees(QUOTE) {
        return None;
      }
      Advance(1);
      ghost var inside := Rest();
      var result: Bytes := [];
      while pos < |text|
        invariant Valid() && pos > old(pos)
        invariant ParseChars(Rest(), result) == ParseChars(inside, [])
        decreases |text| - pos
      {
        ghost var s := Rest();
        var c := text[pos];
        Advance(1);
        if c == QUOTE {
          return Some(result);
        }
        if c == BACKSLASH {
          CharsEscape(s, result);
          if pos >= |text| {
            return None;
          }
          var bytes := ParseEscape();
          if bytes.None? {
            return None;
          }
          result := result + bytes.value;
        } else {
          result := result + [c];
        }
      }
      found := None;
    }

    method SkipDigits()
      requires Valid()
      modifies this
      ensures Valid() && pos >= old(pos) && Rest() == AfterDigits(old(Rest()))
    {
      while pos < |text|
        invariant Valid() && pos >= old(pos) && AfterDigits(Rest()) == AfterDigits(old(Rest()))
        decreases |text| - pos
      {
        if !IsDigit(text[pos]) {
          return;
        }
        Advance(1);
      }
    }

    method SkipWhole()
      requires Valid()
      modifies this
      ensures Valid() && pos >= old(pos) && Rest() == AfterWhole(old(Rest()))
    {
      if Sees(MINUS) {
        Advance(1);
      }
      SkipDigits();
    }

    method SkipFraction()
      requires Valid()
      modifies this
      ensures Valid() && pos >= old(pos) && Rest() == AfterFraction(old(Rest()))
    {
      if Sees(POINT) {
        Advance(1);
        SkipDigits();
      }
    }

    method SkipExponent()
      requires Valid()
      modifies this
      ensures Valid() && pos >= old(pos) && Rest() == AfterExponent(old(Rest()))
    {
      if Sees(0x65) || Sees(0x45) {
        Advance(1);
        if Sees(PLUS) || Sees(MINUS) {
          Advance(1);
        }
        SkipDigits();
      }
    }

    method LexNumberText() returns (found: Option<Lexeme>)
      requires Valid()
      modifies this
      ensures Valid() && (found.Some? ==> pos > old(pos))
      ensures Agrees(LexNumber(old(Rest())), found)
    {
      var start := pos;
      SkipWhole();
      var whole := pos;
      SkipFraction();
      SkipExponent();
      if pos == start {
        return None;
      }
      TakenSoFar(start);
      found := Some(Lexeme(text[start..pos], pos == whole));
    }

    method ParseNumberText() returns (found: Option<Json>)
      requires Valid()
      modifies this
      ensures Valid() && (found.Some? ==> pos > old(pos))
      ensures Agrees(ParseNumber(old(Rest())), found)
    {
      var lexeme := LexNumberText();
      found := if lexeme.None? then None else Some(NumberOf(lexeme.value));
    }

    lemma TakenSoFar(start: nat)
      requires Valid() && start <= pos
      ensures text[start..pos] == text[start..][..|text[start..]| - |Rest()|]
    {
    }

    method ParseArray() returns (found: Option<Json>)
      requires Valid() && Sees(OPEN_ARRAY)
      modifies this
      ensures Valid() && (found.Some? ==> pos > old(pos))
      ensures Agrees(ParseValue(old(Rest())), found)
      decreases |text| - pos, 1
    {
      ghost var s := Rest();
      Advance(1);
      SkipWs();
      if Sees(CLOSE_ARRAY) {
        Advance(1);
        return Some(Array([]));
      }
      ghost var inside := Rest();
      var result: seq<Json> := [];
      while true
        invariant Valid() && pos > old(pos)
        invariant ParseItems(Rest(), result) == ParseItems(inside, [])
        decreases |text| - pos
      {
        SkipWs();
        var item := ParseOne();
        if item.None? {
          return None;
        }
        result := result + [item.value];
        SkipWs();
        if Sees(COMMA) {
          Advance(1);
        } else if Sees(CLOSE_ARRAY) {
          Advance(1);
          return Some(Array(result));
        } else {
          return None;
        }
      }
    }

    /** A field's key, the colon and its value. */
    method ParseOneField() returns (found: Option<Field>)
      requires Valid()
      modifies this
      ensures Valid() && (found.Some? ==> pos > old(pos))
      ensures Agrees(ParseField(old(Rest())), found)
      decreases |text| - pos, 3
    {
      SkipWs();
      if !Sees(QUOTE) {
        return None;
      }
      var key := ParseStringText();
      if key.None? {
        return None;
      }
      SkipWs();
      if !Sees(COLON) {
        return None;
      }
      Advance(1);
      SkipWs();
      var value := ParseOne();
      if value.None? {
        return None;
      }
      found := Some(Field(key.value, value.value));
    }

    method ParseObject() returns (found: Option<Json>)
      requires Valid() && Sees(OPEN_OBJECT)
      modifies this
      ensures Valid() && (found.Some? ==> pos > old(pos))
      ensures Agrees(ParseValue(old(Rest())), found)
      decreases |text| - pos, 1
    {
      ghost var s := Rest();
      Advance(1);
      SkipWs();
      if Sees(CLOSE_OBJECT) {
        Advance(1);
        return Some(Object([]));
      }
      ghost var inside := Rest();
      var result: seq<Field> := [];
      while true
        invariant Valid() && pos > old(pos)
        invariant ParseFields(Rest(), result) == ParseFields(inside, [])
        decreases |text| - pos
      {
        var field := ParseOneField();
        if field.None? {
          return None;
        }
        result := Insert(result, field.value.key, field.value.value);
        SkipWs();
        if Sees(COMMA) {
          Advance(1);
        } else if Sees(CLOSE_OBJECT) {
          Advance(1);
          return Some(Object(result));
        } else {
          return None;
        }
      }
    }

    method ParseOne() returns (found: Option<Json>)
      requires Valid()
      modifies this
      ensures Valid() && (found.Some? ==> pos > old(pos))
      ensures Agrees(ParseValue(old(Rest())), found)
      decreases |text| - pos, 2
    {
      var next: Byte := if pos < |text| then text[pos] else 0;
      match next {
        case 0x6E => found := ParseLiteralText(NULL_TEXT, Null);
        case 0x74 => found := ParseLiteralText(TRUE_TEXT, Bool(true));
        case 0x66 => found := ParseLiteralText(FALSE_TEXT, Bool(false));
        case 0x22 =>
          var bytes := ParseStringText();
          found := if bytes.None? then None else Some(String(bytes.value));
        case 0x5B => found := ParseArray();
        case 0x7B => found := ParseObject();
        case _ => found := ParseNumberText();
      }
    }

    method ParseWhole() returns (found: Option<Json>)
      requires Valid() && pos == 0
      modifies this
      ensures Valid() && found == Parse(text)
    {
      assert text[0..] == text;
      SkipWs();
      found := ParseOne();
      if found.None? {
        return;
      }
      SkipWs();
      if pos != |text| {
        return None;
      }
    }
  }

  method ParseText(text: Bytes) returns (found: Option<Json>)
    ensures found == Parse(text)
    ensures forall j :: Printable(j) && text == Dump(j) ==> found == Some(j)
  {
    var parser := new Parser(text);
    found := parser.ParseWhole();
    forall j | Printable(j) && text == Dump(j)
      ensures found == Some(j)
    {
      ParseUndoesDump(j);
    }
  }

  function HexOr0(b: Byte): int {
    if HexValue(b).Some? then HexValue(b).value else 0
  }

  function Shifted(digits: Bytes): int {
    if digits == [] then 0 else Shifted(digits[..|digits| - 1]) * 16 + HexOr0(digits[|digits| - 1])
  }

  lemma ShiftedIsHexCode(s: Bytes)
    requires |s| == 4 && forall k :: 0 <= k < 4 ==> HexValue(s[k]).Some?
    ensures HexCode(s) == Some(Shifted(s))
  {
    assert s[..1][..0] == [] && Shifted(s[..1]) == HexOr0(s[0]);
    assert s[..2][..1] == s[..1] && Shifted(s[..2]) == HexOr0(s[0]) * 16 + HexOr0(s[1]);
    assert s[..3][..2] == s[..2] && Shifted(s[..3]) == (HexOr0(s[0]) * 16 + HexOr0(s[1])) * 16 + HexOr0(s[2]);
  }

  /** What an escape stands for, its backslash already taken. */
  function EscapeOf(s: Bytes): Parsed<Bytes> {
    if s == [] then Fail
    else if s[0] == 0x75 then
      if |s| < 5 || HexCode(s[1..5]).None? then Fail else Done(Utf8(HexCode(s[1..5]).value), s[5..])
    else if Unescaped(s[0]).Some? then Done([Unescaped(s[0]).value], s[1..])
    else Fail
  }

  lemma CharsEscape(s: Bytes, read: Bytes)
    requires StartsWith(s, BACKSLASH)
    ensures ParseChars(s, read) ==
            if EscapeOf(s[1..]).Fail? then Fail
            else ParseChars(EscapeOf(s[1..]).rest, read + EscapeOf(s[1..]).value)
  {
    if |s| >= 6 {
      assert s[1..][1..5] == s[2..6] && s[1..][5..] == s[6..];
    }
    if |s| >= 2 {
      assert s[1..][1..] == s[2..];
    }
  }
}
