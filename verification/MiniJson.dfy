/** The bridge's JSON codec: what is printed, what is parsed, and that the two
    undo each other. */
module MiniJson {
  import opened Common

  type Byte = b: int | 0 <= b < 256

  type Bytes = seq<Byte>

  const QUOTE: Byte := 0x22
  const BACKSLASH: Byte := 0x5C
  const SLASH: Byte := 0x2F
  const COMMA: Byte := 0x2C
  const COLON: Byte := 0x3A
  const OPEN_ARRAY: Byte := 0x5B
  const CLOSE_ARRAY: Byte := 0x5D
  const OPEN_OBJECT: Byte := 0x7B
  const CLOSE_OBJECT: Byte := 0x7D
  const MINUS: Byte := 0x2D
  const PLUS: Byte := 0x2B
  const POINT: Byte := 0x2E
  const NEWLINE: Byte := 0x0A
  const NULL_TEXT: Bytes := [0x6E, 0x75, 0x6C, 0x6C]
  const TRUE_TEXT: Bytes := [0x74, 0x72, 0x75, 0x65]
  const FALSE_TEXT: Bytes := [0x66, 0x61, 0x6C, 0x73, 0x65]

  /** A number is kept as an integer when a double holds it exactly; any other
      number is kept as the text it was read from. */
  datatype Json =
    | Null
    | Bool(on: bool)
    | Number(value: int)
    | Inexact(text: Bytes)
    | String(bytes: Bytes)
    | Array(items: seq<Json>)
    | Object(fields: seq<Field>)

  /** An object's fields are kept in key order, as its ordered map keeps them. */
  datatype Field = Field(key: Bytes, value: Json)

  const TWO_53: int := 0x20_0000_0000_0000
  const TWO_63: int := 0x8000_0000_0000_0000

  /** Some double equals `n`: at most 53 significant bits. */
  predicate Representable(n: nat)
    decreases n
  {
    n <= TWO_53 || (n % 2 == 0 && Representable(n / 2))
  }

  function Abs(n: int): nat {
    if n < 0 then -n else n
  }

  /** The integers printed digit by digit and read back without rounding. */
  predicate Exact(n: int) {
    -TWO_63 <= n < TWO_63 && Representable(Abs(n))
  }

  // ---------------------------------------------------------------------
  // Key order
  // ---------------------------------------------------------------------

  predicate Below(a: Bytes, b: Bytes) {
    if b == [] then false
    else if a == [] then true
    else a[0] < b[0] || (a[0] == b[0] && Below(a[1..], b[1..]))
  }

  /** Assigning a field: in key order, an equal key overwritten. */
  function Insert(fields: seq<Field>, key: Bytes, value: Json): seq<Field> {
    if fields == [] then [Field(key, value)]
    else if fields[0].key == key then [Field(key, value)] + fields[1..]
    else if Below(key, fields[0].key) then [Field(key, value)] + fields
    else [fields[0]] + Insert(fields[1..], key, value)
  }

  /** Keys strictly increase. */
  predicate Ordered(fields: seq<Field>) {
    forall i, j :: 0 <= i < j < |fields| ==> Below(fields[i].key, fields[j].key)
  }

  // ---------------------------------------------------------------------
  // Printing
  // ---------------------------------------------------------------------

  function Digit(d: int): Byte
    requires 0 <= d < 10
  {
    0x30 + d
  }

  function Decimal(n: nat): Bytes {
    if n < 10 then [Digit(n)] else Decimal(n / 10) + [Digit(n % 10)]
  }

  function Numeral(n: int): Bytes {
    if n < 0 then [MINUS] + Decimal(-n) else Decimal(n)
  }

  function HexDigit(d: int): Byte
    requires 0 <= d < 16
  {
    if d < 10 then 0x30 + d else 0x61 + d - 10
  }

  /** One byte of a string as it is printed. */
  function Escaped(b: Byte): Bytes {
    if b == QUOTE then [BACKSLASH, QUOTE]
    else if b == BACKSLASH then [BACKSLASH, BACKSLASH]
    else if b == 0x08 then [BACKSLASH, 0x62]
    else if b == 0x0C then [BACKSLASH, 0x66]
    else if b == 0x0A then [BACKSLASH, 0x6E]
    else if b == 0x0D then [BACKSLASH, 0x72]
    else if b == 0x09 then [BACKSLASH, 0x74]
    else if b < 0x20 then [BACKSLASH, 0x75, 0x30, 0x30, HexDigit(b / 16), HexDigit(b % 16)]
    else [b]
  }

  function EscapedAll(bytes: Bytes): Bytes {
    if bytes == [] then [] else Escaped(bytes[0]) + EscapedAll(bytes[1..])
  }

  function Quoted(bytes: Bytes): Bytes {
    [QUOTE] + EscapedAll(bytes) + [QUOTE]
  }

  function Dump(j: Json): Bytes
    decreases j
  {
    match j
    case Null => NULL_TEXT
    case Bool(on) => if on then TRUE_TEXT else FALSE_TEXT
    case Number(value) => Numeral(value)
    case Inexact(text) => text
    case String(bytes) => Quoted(bytes)
    case Array(items) => [OPEN_ARRAY] + (if items == [] then [] else DumpItems(items)) + [CLOSE_ARRAY]
    case Object(fields) => [OPEN_OBJECT] + (if fields == [] then [] else DumpFields(fields)) + [CLOSE_OBJECT]
  }

  function DumpItems(items: seq<Json>): Bytes
    requires items != []
    decreases items
  {
    Dump(items[0]) + if |items| == 1 then [] else [COMMA] + DumpItems(items[1..])
  }

  function DumpField(field: Field): Bytes
    decreases field
  {
    Quoted(field.key) + [COLON] + Dump(field.value)
  }

  function DumpFields(fields: seq<Field>): Bytes
    requires fields != []
    decreases fields
  {
    DumpField(fields[0]) + if |fields| == 1 then [] else [COMMA] + DumpFields(fields[1..])
  }

  // ---------------------------------------------------------------------
  // Parsing
  // ---------------------------------------------------------------------

  /** What a parsing function found and the text it left. */
  datatype Parsed<+T> = Fail | Done(value: T, rest: Bytes)

  predicate IsBlank(b: Byte) {
    b == 0x20 || b == 0x09 || b == 0x0D || b == 0x0A
  }

  function SkipBlank(s: Bytes): (r: Bytes)
    ensures |r| <= |s|
  {
    if s != [] && IsBlank(s[0]) then SkipBlank(s[1..]) else s
  }

  predicate StartsWith(s: Bytes, b: Byte) {
    s != [] && s[0] == b
  }

  function ParseLiteral(s: Bytes, literal: Bytes, value: Json): Parsed<Json> {
    if literal <= s then Done(value, s[|literal|..]) else Fail
  }

  function HexValue(b: Byte): (v: Option<int>)
    ensures v.Some? ==> 0 <= v.value < 16
  {
    if 0x30 <= b <= 0x39 then Some(b - 0x30)
    else if 0x61 <= b <= 0x66 then Some(b - 0x61 + 10)
    else if 0x41 <= b <= 0x46 then Some(b - 0x41 + 10)
    else None
  }

  /** The four hexadecimal digits of an escape. */
  function HexCode(s: Bytes): Option<int>
    requires |s| == 4
    ensures HexCode(s).Some? ==> 0 <= HexCode(s).value < 0x1_0000
  {
    var d0, d1, d2, d3 := HexValue(s[0]), HexValue(s[1]), HexValue(s[2]), HexValue(s[3]);
    if d0.None? || d1.None? || d2.None? || d3.None? then None
    else Some(((d0.value * 16 + d1.value) * 16 + d2.value) * 16 + d3.value)
  }

  /** A code point of the basic plane in UTF-8. */
  function Utf8(code: int): Bytes
    requires 0 <= code < 0x1_0000
  {
    if code < 0x80 then [code]
    else if code < 0x800 then [0xC0 + code / 64, 0x80 + code % 64]
    else [0xE0 + code / 4096, 0x80 + code / 64 % 64, 0x80 + code % 64]
  }

  /** The byte a one-letter escape stands for. */
  function Unescaped(b: Byte): Option<Byte> {
    if b == QUOTE || b == BACKSLASH || b == SLASH then Some(b)
    else if b == 0x62 then Some(0x08)
    else if b == 0x66 then Some(0x0C)
    else if b == 0x6E then Some(0x0A)
    else if b == 0x72 then Some(0x0D)
    else if b == 0x74 then Some(0x09)
    else None
  }

  /** The inside of a string, up to and with its closing quote. */
  function ParseChars(s: Bytes, read: Bytes): (r: Parsed<Bytes>)
    ensures r.Done? ==> |r.rest| < |s|
    decreases |s|
  {
    if s == [] then Fail
    else if s[0] == QUOTE then Done(read, s[1..])
    else if s[0] != BACKSLASH then ParseChars(s[1..], read + [s[0]])
    else if |s| == 1 then Fail
    else if s[1] == 0x75 then
      if |s| < 6 || HexCode(s[2..6]).None? then Fail
      else ParseChars(s[6..], read + Utf8(HexCode(s[2..6]).value))
    else if Unescaped(s[1]).Some? then ParseChars(s[2..], read + [Unescaped(s[1]).value])
    else Fail
  }

  function ParseString(s: Bytes): (r: Parsed<Bytes>)
    ensures r.Done? ==> |r.rest| < |s|
  {
    if StartsWith(s, QUOTE) then ParseChars(s[1..], []) else Fail
  }

  predicate IsDigit(b: Byte) {
    0x30 <= b <= 0x39
  }

  function ValueOf(digits: Bytes): int {
    if digits == [] then 0 else ValueOf(digits[..|digits| - 1]) * 10 + digits[|digits| - 1] - 0x30
  }

  function AfterDigits(s: Bytes): (r: Bytes)
    ensures |r| <= |s|
  {
    if s != [] && IsDigit(s[0]) then AfterDigits(s[1..]) else s
  }

  function AfterWhole(s: Bytes): (r: Bytes)
    ensures |r| <= |s|
  {
    AfterDigits(if StartsWith(s, MINUS) then s[1..] else s)
  }

  function AfterFraction(s: Bytes): (r: Bytes)
    ensures |r| <= |s|
  {
    if StartsWith(s, POINT) then AfterDigits(s[1..]) else s
  }

  function AfterExponent(s: Bytes): (r: Bytes)
    ensures |r| <= |s|
  {
    if !StartsWith(s, 0x65) && !StartsWith(s, 0x45) then s
    else if StartsWith(s[1..], PLUS) || StartsWith(s[1..], MINUS) then AfterDigits(s[1..][1..])
    else AfterDigits(s[1..])
  }

  /** The number a text stands for: a sign and digits, perhaps none. */
  function IntegerOf(text: Bytes): int {
    if StartsWith(text, MINUS) then -ValueOf(text[1..]) else ValueOf(text)
  }

  function NumberOf(lexeme: Lexeme): Json {
    if lexeme.whole && Exact(IntegerOf(lexeme.text)) then Number(IntegerOf(lexeme.text)) else Inexact(lexeme.text)
  }

  /** The text of a number, and whether it has neither fraction nor exponent. */
  datatype Lexeme = Lexeme(text: Bytes, whole: bool)

  function LexNumber(s: Bytes): (r: Parsed<Lexeme>)
    ensures r.Done? ==> |r.rest| < |s|
  {
    var whole := AfterWhole(s);
    var rest := AfterExponent(AfterFraction(whole));
    if |rest| == |s| then Fail else Done(Lexeme(s[..|s| - |rest|], |rest| == |whole|), rest)
  }

  function ParseNumber(s: Bytes): (r: Parsed<Json>)
    ensures r.Done? ==> |r.rest| < |s|
  {
    var r := LexNumber(s);
    if r.Fail? then Fail else Done(NumberOf(r.value), r.rest)
  }

  function ParseValue(s: Bytes): (r: Parsed<Json>)
    ensures r.Done? ==> |r.rest| < |s|
    decreases |s|, 0
  {
    if StartsWith(s, 0x6E) then ParseLiteral(s, NULL_TEXT, Null)
    else if StartsWith(s, 0x74) then ParseLiteral(s, TRUE_TEXT, Bool(true))
    else if StartsWith(s, 0x66) then ParseLiteral(s, FALSE_TEXT, Bool(false))
    else if StartsWith(s, QUOTE) then
      var r := ParseString(s);
      if r.Done? then Done(String(r.value), r.rest) else Fail
    else if StartsWith(s, OPEN_ARRAY) then
      var inside := SkipBlank(s[1..]);
      if StartsWith(inside, CLOSE_ARRAY) then Done(Array([]), inside[1..]) else ParseItems(inside, [])
    else if StartsWith(s, OPEN_OBJECT) then
      var inside := SkipBlank(s[1..]);
      if StartsWith(inside, CLOSE_OBJECT) then Done(Object([]), inside[1..]) else ParseFields(inside, [])
    else ParseNumber(s)
  }

  /** The items of an array after those already read, up to and with its bracket. */
  function ParseItems(s: Bytes, read: seq<Json>): (r: Parsed<Json>)
    ensures r.Done? ==> |r.rest| < |s|
    decreases |s|, 1
  {
    var item := ParseValue(SkipBlank(s));
    if item.Fail? then Fail
    else
      var after := SkipBlank(item.rest);
      if StartsWith(after, COMMA) then ParseItems(after[1..], read + [item.value])
      else if StartsWith(after, CLOSE_ARRAY) then Done(Array(read + [item.value]), after[1..])
      else Fail
  }

  /** One field: its key, a colon, its value. */
  function ParseField(s: Bytes): (r: Parsed<Field>)
    ensures r.Done? ==> |r.rest| < |s|
    decreases |s|, 1
  {
    var key := ParseString(SkipBlank(s));
    if key.Fail? || !StartsWith(SkipBlank(key.rest), COLON) then Fail
    else
      var value := ParseValue(SkipBlank(SkipBlank(key.rest)[1..]));
      if value.Fail? then Fail else Done(Field(key.value, value.value), value.rest)
  }

  function ParseFields(s: Bytes, read: seq<Field>): (r: Parsed<Json>)
    ensures r.Done? ==> |r.rest| < |s|
    decreases |s|, 2
  {
    var field := ParseField(s);
    if field.Fail? then Fail
    else
      var after := SkipBlank(field.rest);
      var fields := Insert(read, field.value.key, field.value.value);
      if StartsWith(after, COMMA) then ParseFields(after[1..], fields)
      else if StartsWith(after, CLOSE_OBJECT) then Done(Object(fields), after[1..])
      else Fail
  }

  /** A whole text: one value, blanks around it, nothing else. */
  function Parse(text: Bytes): Option<Json> {
    var value := ParseValue(SkipBlank(text));
    if value.Done? && SkipBlank(value.rest) == [] then Some(value.value) else None
  }

  // ---------------------------------------------------------------------
  // Strings survive
  // ---------------------------------------------------------------------

  lemma HexRoundTrip(d: int)
    requires 0 <= d < 16
    ensures HexValue(HexDigit(d)) == Some(d)
  {
  }

  lemma ControlByteReadsBack(b: Byte, post: Bytes, read: Bytes)
    requires b < 0x20
    ensures var s: Bytes := [BACKSLASH, 0x75, 0x30, 0x30, HexDigit(b / 16), HexDigit(b % 16)] + post;
            ParseChars(s, read) == ParseChars(post, read + [b])
  {
    var code: Bytes := [0x30, 0x30, HexDigit(b / 16), HexDigit(b % 16)];
    var s: Bytes := [BACKSLASH, 0x75, 0x30, 0x30, HexDigit(b / 16), HexDigit(b % 16)] + post;
    HexRoundTrip(b / 16);
    HexRoundTrip(b % 16);
    assert s[2..6] == code && s[6..] == post;
    assert HexCode(code) == Some(b);
  }

  lemma ByteReadsBack(b: Byte, post: Bytes, read: Bytes)
    ensures ParseChars(Escaped(b) + post, read) == ParseChars(post, read + [b])
  {
    var s := Escaped(b) + post;
    if |Escaped(b)| == 6 {
      ControlByteReadsBack(b, post, read);
    } else if |Escaped(b)| == 2 {
      assert s[2..] == post;
      assert Unescaped(s[1]) == Some(b);
    } else {
      assert s[1..] == post;
    }
  }

  lemma EscapedText(bytes: Bytes, end: Bytes)
    requires bytes != []
    ensures EscapedAll(bytes) + end == Escaped(bytes[0]) + (EscapedAll(bytes[1..]) + end)
  {
    Associates(Escaped(bytes[0]), EscapedAll(bytes[1..]), end);
  }

  lemma Associates(a: Bytes, b: Bytes, c: Bytes)
    ensures (a + b) + c == a + (b + c)
  {
  }

  lemma NextByteReadsBack(bytes: Bytes, end: Bytes, read: Bytes)
    requires bytes != []
    ensures ParseChars(EscapedAll(bytes) + end, read) == ParseChars(EscapedAll(bytes[1..]) + end, read + [bytes[0]])
  {
    EscapedText(bytes, end);
    ByteReadsBack(bytes[0], EscapedAll(bytes[1..]) + end, read);
  }

  lemma {:induction false} CharsReadBack(bytes: Bytes, post: Bytes, read: Bytes)
    ensures ParseChars(EscapedAll(bytes) + ([QUOTE] + post), read) == Done(read + bytes, post)
  {
    var end := [QUOTE] + post;
    if bytes == [] {
      assert EscapedAll(bytes) + end == end && end[1..] == post && read + bytes == read;
    } else {
      NextByteReadsBack(bytes, end, read);
      CharsReadBack(bytes[1..], post, read + [bytes[0]]);
      assert read + [bytes[0]] + bytes[1..] == read + bytes;
    }
  }

  /** Every byte string is read back from its printed form. */
  lemma StringReadsBack(bytes: Bytes, post: Bytes)
    ensures ParseString(Quoted(bytes) + post) == Done(bytes, post)
  {
    var s := Quoted(bytes) + post;
    assert s[1..] == EscapedAll(bytes) + ([QUOTE] + post);
    CharsReadBack(bytes, post, []);
    assert [] + bytes == bytes;
  }

  // ---------------------------------------------------------------------
  // Numbers survive
  // ---------------------------------------------------------------------

  lemma {:induction false} DecimalReadsBack(n: nat)
    ensures Decimal(n) != [] && (forall b <- Decimal(n) :: IsDigit(b)) && ValueOf(Decimal(n)) == n
  {
    if n < 10 {
      assert Decimal(n)[..0] == [];
    } else {
      DecimalReadsBack(n / 10);
      assert Decimal(n)[..|Decimal(n)| - 1] == Decimal(n / 10);
    }
  }

  lemma {:induction false} DigitsRun(digits: Bytes, post: Bytes)
    requires forall b <- digits :: IsDigit(b)
    requires post == [] || !IsDigit(post[0])
    ensures AfterDigits(digits + post) == post
  {
    if digits == [] {
      assert digits + post == post;
    } else {
      assert (digits + post)[1..] == digits[1..] + post;
      DigitsRun(digits[1..], post);
    }
  }

  /** A text that does not go on a number. */
  predicate EndsNumber(post: Bytes) {
    post == [] || !(IsDigit(post[0]) || post[0] == POINT || post[0] == 0x65 || post[0] == 0x45)
  }

  lemma IntegerReadsBack(n: int)
    ensures IntegerOf(Numeral(n)) == n
  {
    DecimalReadsBack(Abs(n));
    if n < 0 {
      assert Numeral(n)[1..] == Decimal(-n);
    } else {
      assert IsDigit(Decimal(n)[0]);
    }
  }

  /** A sign and digits are taken as one number, whatever the number is. */
  lemma NumeralIsTaken(sign: Bytes, digits: Bytes, post: Bytes)
    requires sign == [] || sign == [MINUS]
    requires digits != [] && (forall b <- digits :: IsDigit(b)) && EndsNumber(post)
    ensures LexNumber(sign + digits + post) == Done(Lexeme(sign + digits, true), post)
  {
    var s := sign + digits + post;
    assert IsDigit(digits[0]);
    assert s[|sign|..] == digits + post;
    DigitsRun(digits, post);
    assert s[..|sign + digits|] == sign + digits;
  }

  lemma NumberReadsBack(n: int, post: Bytes)
    requires Exact(n) && EndsNumber(post)
    ensures ParseNumber(Numeral(n) + post) == Done(Number(n), post)
  {
    IntegerReadsBack(n);
    DecimalReadsBack(Abs(n));
    var sign: Bytes := if n < 0 then [MINUS] else [];
    assert Numeral(n) == sign + Decimal(Abs(n));
    NumeralIsTaken(sign, Decimal(Abs(n)), post);
  }

  // ---------------------------------------------------------------------
  // Trees survive
  // ---------------------------------------------------------------------

  /** Trees of null, booleans, exact integers, strings, arrays and objects. */
  predicate Printable(j: Json)
    decreases j
  {
    match j
    case Number(value) => Exact(value)
    case Inexact(_) => false
    case Array(items) => forall i :: 0 <= i < |items| ==> Printable(items[i])
    case Object(fields) => Ordered(fields) && forall i :: 0 <= i < |fields| ==> Printable(fields[i].value)
    case _ => true
  }

  /** A printed value starts with neither a blank nor a closing bracket, so the
      parser's look-ahead takes it for a value. */
  lemma DumpStarts(j: Json)
    requires Printable(j)
    ensures Dump(j) != [] && !IsBlank(Dump(j)[0]) && Dump(j)[0] != CLOSE_ARRAY && Dump(j)[0] != CLOSE_OBJECT
  {
    if j.Number? {
      DecimalReadsBack(Abs(j.value));
      assert IsDigit(Decimal(Abs(j.value))[0]);
    }
  }

  lemma {:induction false} BelowIsStrict(a: Bytes, b: Bytes)
    requires Below(a, b)
    ensures a != b && !Below(b, a)
  {
    if a != [] && a[0] == b[0] {
      BelowIsStrict(a[1..], b[1..]);
    }
  }

  /** Fields that arrive in key order are appended. */
  lemma {:induction false} InsertAppends(fields: seq<Field>, key: Bytes, value: Json)
    requires forall i :: 0 <= i < |fields| ==> Below(fields[i].key, key)
    ensures Insert(fields, key, value) == fields + [Field(key, value)]
  {
    if fields != [] {
      BelowIsStrict(fields[0].key, key);
      InsertAppends(fields[1..], key, value);
    }
  }

  lemma LiteralReadsBack(j: Json, post: Bytes)
    requires j.Null? || j.Bool?
    ensures ParseValue(Dump(j) + post) == Done(j, post)
  {
    var s := Dump(j) + post;
    assert s[|Dump(j)|..] == post && Dump(j) <= s;
    assert s[0] == Dump(j)[0];
  }

  lemma LeafReadsBack(j: Json, post: Bytes)
    requires Printable(j) && EndsNumber(post) && (j.Number? || j.String?)
    ensures ParseValue(Dump(j) + post) == Done(j, post)
  {
    var s := Dump(j) + post;
    if j.Number? {
      NumberReadsBack(j.value, post);
      DecimalReadsBack(Abs(j.value));
      assert IsDigit(Decimal(Abs(j.value))[0]);
      assert s[0] == Dump(j)[0];
    } else {
      StringReadsBack(j.bytes, post);
      assert s[0] == QUOTE;
    }
  }

  /** One item and what follows it. */
  lemma ItemStep(s: Bytes, item: Json, tail: Bytes, read: seq<Json>)
    requires s != [] && !IsBlank(s[0]) && ParseValue(s) == Done(item, tail)
    ensures StartsWith(tail, COMMA) ==> ParseItems(s, read) == ParseItems(tail[1..], read + [item])
    ensures StartsWith(tail, CLOSE_ARRAY) ==> ParseItems(s, read) == Done(Array(read + [item]), tail[1..])
  {
    assert SkipBlank(s) == s;
  }

  lemma ItemReadsBack(item: Json, tail: Bytes)
    requires Printable(item) && EndsNumber(tail)
    ensures var s := Dump(item) + tail; s != [] && !IsBlank(s[0]) && ParseValue(s) == Done(item, tail)
    decreases item, 3
  {
    DumpStarts(item);
    ValueReadsBack(item, tail);
  }

  lemma FieldStep(s: Bytes, field: Field, tail: Bytes, read: seq<Field>)
    requires ParseField(s) == Done(field, tail)
    requires forall i :: 0 <= i < |read| ==> Below(read[i].key, field.key)
    ensures StartsWith(tail, COMMA) ==> ParseFields(s, read) == ParseFields(tail[1..], read + [field])
    ensures StartsWith(tail, CLOSE_OBJECT) ==> ParseFields(s, read) == Done(Object(read + [field]), tail[1..])
  {
    InsertAppends(read, field.key, field.value);
  }

  lemma FieldParts(s: Bytes, key: Bytes, after: Bytes, value: Json, post: Bytes)
    requires StartsWith(s, QUOTE) && ParseString(s) == Done(key, after)
    requires StartsWith(after, COLON) && after[1..] != [] && !IsBlank(after[1..][0])
    requires ParseValue(after[1..]) == Done(value, post)
    ensures ParseField(s) == Done(Field(key, value), post)
  {
    assert SkipBlank(s) == s && SkipBlank(after) == after;
    assert SkipBlank(after[1..]) == after[1..];
  }

  lemma Joined(text: Bytes, more: Bytes, end: Bytes)
    ensures text + ([COMMA] + more) + end == text + ([COMMA] + (more + end))
    ensures ([COMMA] + (more + end))[1..] == more + end
  {
  }

  lemma {:induction false} ItemsReadBack(items: seq<Json>, read: seq<Json>, end: Bytes)
    requires items != [] && forall i :: 0 <= i < |items| ==> Printable(items[i])
    requires StartsWith(end, CLOSE_ARRAY)
    ensures ParseItems(DumpItems(items) + end, read) == Done(Array(read + items), end[1..])
    decreases items, 0
  {
    if |items| == 1 {
      assert DumpItems(items) == Dump(items[0]) && items == [items[0]];
      ItemReadsBack(items[0], end);
      ItemStep(Dump(items[0]) + end, items[0], end, read);
    } else {
      NextItemReadsBack(items, read, end);
      ItemsReadBack(items[1..], read + [items[0]], end);
      assert read + [items[0]] + items[1..] == read + items;
    }
  }

  lemma NextItemReadsBack(items: seq<Json>, read: seq<Json>, end: Bytes)
    requires |items| > 1 && Printable(items[0])
    ensures ParseItems(DumpItems(items) + end, read) == ParseItems(DumpItems(items[1..]) + end, read + [items[0]])
    decreases items[0], 4
  {
    var rest := DumpItems(items[1..]) + end;
    ItemsText(items, end);
    ItemReadsBack(items[0], [COMMA] + rest);
    ItemStep(Dump(items[0]) + ([COMMA] + rest), items[0], [COMMA] + rest, read);
  }

  lemma ItemsText(items: seq<Json>, end: Bytes)
    requires |items| > 1
    ensures var rest := DumpItems(items[1..]) + end;
            && DumpItems(items) + end == Dump(items[0]) + ([COMMA] + rest)
            && ([COMMA] + rest)[1..] == rest
  {
    var more := DumpItems(items[1..]);
    assert DumpItems(items) == Dump(items[0]) + ([COMMA] + more);
    Joined(Dump(items[0]), more, end);
  }

  lemma {:induction false} FieldReadsBack(field: Field, post: Bytes)
    requires Printable(field.value) && EndsNumber(post)
    ensures ParseField(DumpField(field) + post) == Done(field, post)
    decreases field, 1
  {
    var after := [COLON] + (Dump(field.value) + post);
    FieldText(field, post);
    StringReadsBack(field.key, after);
    ValueReadsBack(field.value, post);
    FieldParts(DumpField(field) + post, field.key, after, field.value, post);
  }

  lemma FieldText(field: Field, post: Bytes)
    requires Printable(field.value)
    ensures var text := Dump(field.value) + post;
            && DumpField(field) + post == Quoted(field.key) + ([COLON] + text)
            && StartsWith(DumpField(field) + post, QUOTE)
            && ([COLON] + text)[1..] == text && text != [] && !IsBlank(text[0])
  {
    DumpStarts(field.value);
    FieldJoined(Quoted(field.key), Dump(field.value), post);
    assert DumpField(field) == Quoted(field.key) + [COLON] + Dump(field.value);
    assert Quoted(field.key)[0] == QUOTE;
  }

  lemma FieldJoined(key: Bytes, value: Bytes, post: Bytes)
    ensures (key + [COLON] + value) + post == key + ([COLON] + (value + post))
  {
  }

  lemma {:induction false} FieldsReadBack(fields: seq<Field>, read: seq<Field>, end: Bytes)
    requires fields != [] && Ordered(read + fields)
    requires forall i :: 0 <= i < |fields| ==> Printable(fields[i].value)
    requires StartsWith(end, CLOSE_OBJECT)
    ensures ParseFields(DumpFields(fields) + end, read) == Done(Object(read + fields), end[1..])
    decreases fields, 0
  {
    KeyFollows(read, fields);
    if |fields| == 1 {
      assert DumpFields(fields) == DumpField(fields[0]) && fields == [fields[0]];
      FieldReadsBack(fields[0], end);
      FieldStep(DumpField(fields[0]) + end, fields[0], end, read);
    } else {
      NextFieldReadsBack(fields, read, end);
      assert read + [fields[0]] + fields[1..] == read + fields;
      FieldsReadBack(fields[1..], read + [fields[0]], end);
    }
  }

  lemma NextFieldReadsBack(fields: seq<Field>, read: seq<Field>, end: Bytes)
    requires |fields| > 1 && Printable(fields[0].value)
    requires forall i :: 0 <= i < |read| ==> Below(read[i].key, fields[0].key)
    ensures ParseFields(DumpFields(fields) + end, read) == ParseFields(DumpFields(fields[1..]) + end, read + [fields[0]])
    decreases fields[0], 4
  {
    var rest := DumpFields(fields[1..]) + end;
    FieldsText(fields, end);
    FieldReadsBack(fields[0], [COMMA] + rest);
    FieldStep(DumpField(fields[0]) + ([COMMA] + rest), fields[0], [COMMA] + rest, read);
  }

  lemma FieldsText(fields: seq<Field>, end: Bytes)
    requires |fields| > 1
    ensures var rest := DumpFields(fields[1..]) + end;
            && DumpFields(fields) + end == DumpField(fields[0]) + ([COMMA] + rest)
            && ([COMMA] + rest)[1..] == rest
  {
    var more := DumpFields(fields[1..]);
    assert DumpFields(fields) == DumpField(fields[0]) + ([COMMA] + more);
    Joined(DumpField(fields[0]), more, end);
  }

  lemma KeyFollows(read: seq<Field>, fields: seq<Field>)
    requires fields != [] && Ordered(read + fields)
    ensures forall i :: 0 <= i < |read| ==> Below(read[i].key, fields[0].key)
  {
    var all := read + fields;
    forall i | 0 <= i < |read|
      ensures Below(read[i].key, fields[0].key)
    {
      assert Below(all[i].key, all[|read|].key);
    }
  }

  /** After an opening bracket, a value that starts like one is not taken for
      the closing bracket. */
  lemma OpensArray(s: Bytes)
    requires StartsWith(s, OPEN_ARRAY) && s[1..] != [] && !IsBlank(s[1..][0])
    ensures ParseValue(s) ==
            if StartsWith(s[1..], CLOSE_ARRAY) then Done(Array([]), s[1..][1..]) else ParseItems(s[1..], [])
  {
    assert SkipBlank(s[1..]) == s[1..];
  }

  lemma OpensObject(s: Bytes)
    requires StartsWith(s, OPEN_OBJECT) && s[1..] != [] && !IsBlank(s[1..][0])
    ensures ParseValue(s) ==
            if StartsWith(s[1..], CLOSE_OBJECT) then Done(Object([]), s[1..][1..]) else ParseFields(s[1..], [])
  {
    assert SkipBlank(s[1..]) == s[1..];
  }

  lemma ArrayReadsBack(items: seq<Json>, post: Bytes)
    requires forall i :: 0 <= i < |items| ==> Printable(items[i])
    ensures ParseValue(Dump(Array(items)) + post) == Done(Array(items), post)
    decreases items, 1
  {
    var end := [CLOSE_ARRAY] + post;
    var s := Dump(Array(items)) + post;
    if items == [] {
      assert s[1..] == end && end[1..] == post;
      OpensArray(s);
    } else {
      assert s[1..] == DumpItems(items) + end;
      DumpStarts(items[0]);
      assert s[1..][0] == Dump(items[0])[0];
      OpensArray(s);
      ItemsReadBack(items, [], end);
      assert [] + items == items;
    }
  }

  lemma ObjectReadsBack(fields: seq<Field>, post: Bytes)
    requires Ordered(fields) && forall i :: 0 <= i < |fields| ==> Printable(fields[i].value)
    ensures ParseValue(Dump(Object(fields)) + post) == Done(Object(fields), post)
    decreases fields, 1
  {
    var end := [CLOSE_OBJECT] + post;
    var s := Dump(Object(fields)) + post;
    if fields == [] {
      assert s[1..] == end && end[1..] == post;
      OpensObject(s);
    } else {
      assert s[1..] == DumpFields(fields) + end;
      FieldsStart(fields);
      assert s[1..][0] == QUOTE;
      OpensObject(s);
      assert [] + fields == fields;
      FieldsReadBack(fields, [], end);
    }
  }

  lemma FieldsStart(fields: seq<Field>)
    requires fields != []
    ensures StartsWith(DumpFields(fields), QUOTE)
  {
    assert StartsWith(DumpField(fields[0]), QUOTE);
  }

  /** Whatever follows, a printed value is read back and nothing more is consumed. */
  lemma {:induction false} ValueReadsBack(j: Json, post: Bytes)
    requires Printable(j) && EndsNumber(post)
    ensures ParseValue(Dump(j) + post) == Done(j, post)
    decreases j, 2
  {
    match j {
      case Null => LiteralReadsBack(j, post);
      case Bool(_) => LiteralReadsBack(j, post);
      case Array(items) => ArrayReadsBack(items, post);
      case Object(fields) => ObjectReadsBack(fields, post);
      case _ => LeafReadsBack(j, post);
    }
  }

  /** Printing and parsing undo each other on every printable tree. */
  lemma ParseUndoesDump(j: Json)
    requires Printable(j)
    ensures Parse(Dump(j)) == Some(j)
  {
    DumpStarts(j);
    ValueReadsBack(j, []);
    assert Dump(j) + [] == Dump(j);
  }

  // ---------------------------------------------------------------------
  // Whatever is parsed can be printed
  // ---------------------------------------------------------------------

  /** No number of the tree is kept as text. */
  predicate WithoutInexact(j: Json)
    decreases j
  {
    match j
    case Inexact(_) => false
    case Array(items) => forall i :: 0 <= i < |items| ==> WithoutInexact(items[i])
    case Object(fields) => forall i :: 0 <= i < |fields| ==> WithoutInexact(fields[i].value)
    case _ => true
  }

  lemma {:induction false} PrintableHasNoText(j: Json)
    requires Printable(j)
    ensures WithoutInexact(j)
    decreases j
  {
    match j {
      case Array(items) =>
        forall i | 0 <= i < |items|
          ensures WithoutInexact(items[i])
        {
          PrintableHasNoText(items[i]);
        }
      case Object(fields) =>
        forall i | 0 <= i < |fields|
          ensures WithoutInexact(fields[i].value)
        {
          PrintableHasNoText(fields[i].value);
        }
      case _ =>
    }
  }

  /** Printable once numbers kept as text are out of the way. */
  predicate Sound(j: Json) {
    WithoutInexact(j) ==> Printable(j)
  }

  lemma {:induction false} BelowIsTransitive(a: Bytes, b: Bytes, c: Bytes)
    requires Below(a, b) && Below(b, c)
    ensures Below(a, c)
  {
    if a != [] && a[0] == b[0] && b[0] == c[0] {
      BelowIsTransitive(a[1..], b[1..], c[1..]);
    }
  }

  lemma {:induction false} BelowIsTotal(a: Bytes, b: Bytes)
    requires a != b && !Below(a, b)
    ensures Below(b, a)
  {
    if a != [] && b != [] && a[0] == b[0] {
      assert a == [a[0]] + a[1..] && b == [b[0]] + b[1..];
      BelowIsTotal(a[1..], b[1..]);
    }
  }

  /** The fields of an insertion: the new one, or an old one with another key. */
  lemma {:induction false} InsertedFields(fields: seq<Field>, key: Bytes, value: Json)
    requires Ordered(fields)
    ensures var r := Insert(fields, key, value);
            && Field(key, value) in r
            && (forall f <- r :: f == Field(key, value) || (f in fields && f.key != key))
            && (forall f <- fields :: f.key != key ==> f in r)
  {
    if fields != [] && fields[0].key != key && !Below(key, fields[0].key) {
      assert Ordered(fields[1..]);
      InsertedFields(fields[1..], key, value);
      assert forall f <- fields :: f == fields[0] || f in fields[1..];
    } else if fields != [] && fields[0].key == key {
      forall f | f in fields[1..]
        ensures f.key != key
      {
        BelowIsStrict(fields[0].key, f.key);
      }
      assert forall f <- fields :: f == fields[0] || f in fields[1..];
    } else if fields != [] {
      forall f | f in fields
        ensures f.key != key
      {
        BelowIsStrict(key, fields[0].key);
        if f != fields[0] {
          BelowIsTransitive(key, fields[0].key, f.key);
          BelowIsStrict(key, f.key);
        }
      }
    }
  }

  /** Assignment keeps the keys strictly increasing. */
  lemma {:induction false} InsertKeepsOrder(fields: seq<Field>, key: Bytes, value: Json)
    requires Ordered(fields)
    ensures Ordered(Insert(fields, key, value))
  {
    var r := Insert(fields, key, value);
    if fields != [] && fields[0].key != key && !Below(key, fields[0].key) {
      BelowIsTotal(key, fields[0].key);
      InsertKeepsOrder(fields[1..], key, value);
      InsertedFields(fields[1..], key, value);
      FrontIsBelow(fields[0], r[1..]);
    } else if fields != [] && fields[0].key != key {
      forall f | f in fields
        ensures Below(key, f.key)
      {
        if f != fields[0] {
          BelowIsTransitive(key, fields[0].key, f.key);
        }
      }
      FrontIsBelow(Field(key, value), fields);
    } else if fields != [] {
      FrontIsBelow(Field(key, value), fields[1..]);
    }
  }

  lemma FrontIsBelow(first: Field, rest: seq<Field>)
    requires Ordered(rest) && forall f <- rest :: Below(first.key, f.key)
    ensures Ordered([first] + rest)
  {
  }

  lemma {:induction false} ValueIsSound(s: Bytes)
    ensures var r := ParseValue(s); r.Done? ==> Sound(r.value)
    decreases |s|, 0
  {
    if StartsWith(s, OPEN_ARRAY) {
      ItemsAreSound(SkipBlank(s[1..]), []);
    } else if StartsWith(s, OPEN_OBJECT) {
      FieldsAreSound(SkipBlank(s[1..]), []);
    }
  }

  lemma {:induction false} ItemsAreSound(s: Bytes, read: seq<Json>)
    requires forall i :: 0 <= i < |read| ==> Sound(read[i])
    ensures var r := ParseItems(s, read); r.Done? ==> Sound(r.value)
    decreases |s|, 1
  {
    ValueIsSound(SkipBlank(s));
    var item := ParseValue(SkipBlank(s));
    if item.Done? {
      var items := read + [item.value];
      assert Sound(Array(items));
      var after := SkipBlank(item.rest);
      if StartsWith(after, COMMA) {
        ItemsAreSound(after[1..], items);
      }
    }
  }

  lemma {:induction false} FieldIsSound(s: Bytes)
    ensures var r := ParseField(s); r.Done? ==> Sound(r.value.value)
    decreases |s|, 1
  {
    var key := ParseString(SkipBlank(s));
    if key.Done? && StartsWith(SkipBlank(key.rest), COLON) {
      ValueIsSound(SkipBlank(SkipBlank(key.rest)[1..]));
    }
  }

  lemma {:induction false} FieldsAreSound(s: Bytes, read: seq<Field>)
    requires Ordered(read) && forall f <- read :: Sound(f.value)
    ensures var r := ParseFields(s, read); r.Done? ==> Sound(r.value)
    decreases |s|, 2
  {
    FieldIsSound(s);
    var field := ParseField(s);
    if field.Done? {
      var fields := Insert(read, field.value.key, field.value.value);
      InsertKeepsOrder(read, field.value.key, field.value.value);
      InsertedFields(read, field.value.key, field.value.value);
      SoundFields(fields);
      var after := SkipBlank(field.rest);
      if StartsWith(after, COMMA) {
        FieldsAreSound(after[1..], fields);
      }
    }
  }

  lemma SoundFields(fields: seq<Field>)
    requires Ordered(fields) && forall f <- fields :: Sound(f.value)
    ensures Sound(Object(fields))
  {
    forall i | 0 <= i < |fields| && WithoutInexact(Object(fields))
      ensures Printable(fields[i].value)
    {
      assert fields[i] in fields;
    }
  }

  /** Whatever text was parsed, in whatever field order and with whatever
      blanks and repeated keys: printing the result and parsing it again gives
      the same tree, as long as every number was kept as an integer. */
  lemma ReprintingIsFaithful(text: Bytes, j: Json)
    requires Parse(text) == Some(j) && WithoutInexact(j)
    ensures Parse(Dump(j)) == Some(j)
  {
    ValueIsSound(SkipBlank(text));
    ParseUndoesDump(j);
  }
}
