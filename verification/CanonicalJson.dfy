/**
  The canonical JSON printer that identity digests are taken over, and its inverse.
  Texts are sequences of UTF-16 code units, as JavaScript strings are.
 */
module CanonicalJson {
  import opened Prelude

  type Unit = u: int | 0 <= u < 0x1_0000
  type Text = seq<Unit>

  /** JavaScript values the printer meets. Numbers are the integral ones that print in plain
      decimal; `NonFinite` stands for NaN and the infinities, `Opaque` for functions and symbols. */
  datatype Json =
    | Undefined
    | Null
    | Bool(b: bool)
    | Num(n: int)
    | BigInt(n: int)
    | Str(s: Text)
    | Arr(items: seq<Json>)
    | Obj(fields: seq<(Text, Json)>)
    | NonFinite
    | Opaque

  const QUOTE: Unit := 0x22
  const BACKSLASH: Unit := 0x5C
  const COMMA: Unit := 0x2C
  const COLON: Unit := 0x3A
  const MINUS: Unit := 0x2D
  const LBRACK: Unit := 0x5B
  const RBRACK: Unit := 0x5D
  const LBRACE: Unit := 0x7B
  const RBRACE: Unit := 0x7D
  const NULL_TEXT: Text := [0x6E, 0x75, 0x6C, 0x6C]
  const TRUE_TEXT: Text := [0x74, 0x72, 0x75, 0x65]
  const FALSE_TEXT: Text := [0x66, 0x61, 0x6C, 0x73, 0x65]

  // ----- Which values print -----

  predicate Serializable(v: Json) {
    match v
    case NonFinite => false
    case Opaque => false
    case Arr(items) => forall i :: 0 <= i < |items| ==> Serializable(items[i])
    case Obj(fields) => forall i :: 0 <= i < |fields| ==> Serializable(fields[i].1)
    case _ => true
  }

  /** Property names of a JavaScript object are distinct. */
  predicate DistinctKeys<V>(fields: seq<(Text, V)>) {
    forall i, j :: 0 <= i < j < |fields| ==> fields[i].0 != fields[j].0
  }

  predicate WellFormed(v: Json) {
    match v
    case Arr(items) => forall i :: 0 <= i < |items| ==> WellFormed(items[i])
    case Obj(fields) => DistinctKeys(fields) && forall i :: 0 <= i < |fields| ==> WellFormed(fields[i].1)
    case _ => true
  }

  // ----- Decimal numbers -----

  predicate IsDigit(u: Unit) {
    0x30 <= u <= 0x39
  }

  function Decimal(n: nat): (r: Text)
    ensures |r| > 0 && forall i :: 0 <= i < |r| ==> IsDigit(r[i])
  {
    if n < 10 then [0x30 + n] else Decimal(n / 10) + [0x30 + n % 10]
  }

  function SignedDecimal(n: int): (r: Text)
    ensures |r| > 0
  {
    if n >= 0 then Decimal(n) else [MINUS] + Decimal(-n)
  }

  // ----- Strings (section 7 of RFC 8259, well-formed JSON.stringify) -----

  predicate IsLead(u: Unit) {
    0xD800 <= u <= 0xDBFF
  }

  predicate IsTrail(u: Unit) {
    0xDC00 <= u <= 0xDFFF
  }

  function HexDigit(d: nat): Unit
    requires d < 16
  {
    if d < 10 then 0x30 + d else 0x61 + (d - 10)
  }

  function Hex4(u: Unit): (r: Text)
    ensures |r| == 4
  {
    [HexDigit(u / 4096), HexDigit(u / 256 % 16), HexDigit(u / 16 % 16), HexDigit(u % 16)]
  }

  /** The letter of a two-character escape, if the unit has one. */
  function ShortEscape(u: Unit): Option<Unit> {
    if u == 0x22 then Some(0x22)
    else if u == 0x5C then Some(0x5C)
    else if u == 0x08 then Some(0x62)
    else if u == 0x0C then Some(0x66)
    else if u == 0x0A then Some(0x6E)
    else if u == 0x0D then Some(0x72)
    else if u == 0x09 then Some(0x74)
    else None
  }

  /** One unit on its own: a lone surrogate or another control unit becomes \uXXXX. */
  function EscapeUnit(u: Unit): (r: Text)
    ensures |r| > 0
  {
    if ShortEscape(u).Some? then [BACKSLASH, ShortEscape(u).value]
    else if u < 0x20 || IsLead(u) || IsTrail(u) then [BACKSLASH, 0x75] + Hex4(u)
    else [u]
  }

  function Escape(s: Text): Text {
    if s == [] then []
    else if |s| >= 2 && IsLead(s[0]) && IsTrail(s[1]) then s[..2] + Escape(s[2..])
    else EscapeUnit(s[0]) + Escape(s[1..])
  }

  function Quote(s: Text): Text {
    [QUOTE] + Escape(s) + [QUOTE]
  }

  // ----- Key order -----

  /** Array.prototype.sort on strings: lexicographic by code unit. */
  predicate Before(a: Text, b: Text) {
    if a == [] then b != []
    else if b == [] then false
    else a[0] < b[0] || (a[0] == b[0] && Before(a[1..], b[1..]))
  }

  function InsertKey<V>(field: (Text, V), sorted: seq<(Text, V)>): (r: seq<(Text, V)>)
    ensures |r| == |sorted| + 1
  {
    if sorted == [] || !Before(sorted[0].0, field.0) then [field] + sorted
    else [sorted[0]] + InsertKey(field, sorted[1..])
  }

  function SortByKey<V>(fields: seq<(Text, V)>): (r: seq<(Text, V)>)
    ensures |r| == |fields|
  {
    if fields == [] then [] else InsertKey(fields[0], SortByKey(fields[1..]))
  }

  // ----- The printer -----

  function JoinComma(parts: seq<Text>): Text {
    if parts == [] then []
    else if |parts| == 1 then parts[0]
    else parts[0] + [COMMA] + JoinComma(parts[1..])
  }

  function PrintItems(items: seq<Json>): (r: seq<Text>)
    requires forall i :: 0 <= i < |items| ==> Serializable(items[i])
    ensures |r| == |items|
    decreases items, 0
  {
    if items == [] then [] else [Print(items[0])] + PrintItems(items[1..])
  }

  function PrintFields(fields: seq<(Text, Json)>): (r: seq<(Text, Text)>)
    requires forall i :: 0 <= i < |fields| ==> Serializable(fields[i].1)
    ensures |r| == |fields|
    decreases fields, 0
  {
    if fields == [] then []
    else
      var field := fields[0];
      assert field.1 < field;
      [(field.0, Print(field.1))] + PrintFields(fields[1..])
  }

  function FieldTexts(printed: seq<(Text, Text)>): (r: seq<Text>)
    ensures |r| == |printed|
  {
    if printed == [] then [] else [Quote(printed[0].0) + [COLON] + printed[0].1] + FieldTexts(printed[1..])
  }

  /** `canonicalJson` on a value it does not throw on. */
  function Print(v: Json): Text
    requires Serializable(v)
    decreases v, 1
  {
    match v
    case Undefined => NULL_TEXT
    case Null => NULL_TEXT
    case Bool(b) => if b then TRUE_TEXT else FALSE_TEXT
    case Num(n) => SignedDecimal(n)
    case BigInt(n) => Quote(SignedDecimal(n))
    case Str(s) => Quote(s)
    case Arr(items) => [LBRACK] + JoinComma(PrintItems(items)) + [RBRACK]
    case Obj(fields) => [LBRACE] + JoinComma(FieldTexts(SortByKey(PrintFields(fields)))) + [RBRACE]
  }

  /** `canonicalJson` */
  function Canonical(v: Json): Result<Text> {
    if Serializable(v) then Ok(Print(v)) else Err("candidate binding cannot serialize the value")
  }

  // ----- The value a text stands for -----

  function NormalItems(items: seq<Json>): (r: seq<Json>)
    ensures |r| == |items|
    decreases items, 0
  {
    if items == [] then [] else [Normal(items[0])] + NormalItems(items[1..])
  }

  function NormalFields(fields: seq<(Text, Json)>): (r: seq<(Text, Json)>)
    ensures |r| == |fields|
    ensures forall i :: 0 <= i < |r| ==> r[i].0 == fields[i].0
    decreases fields, 0
  {
    if fields == [] then []
    else
      var field := fields[0];
      assert field.1 < field;
      [(field.0, Normal(field.1))] + NormalFields(fields[1..])
  }

  /** What printing forgets: undefined reads as null, a bigint as its decimal string, and
      objects lose their property order. */
  function Normal(v: Json): Json
    decreases v, 1
  {
    match v
    case Undefined => Null
    case BigInt(n) => Str(SignedDecimal(n))
    case Arr(items) => Arr(NormalItems(items))
    case Obj(fields) => Obj(SortByKey(NormalFields(fields)))
    case _ => v
  }

  // ----- The parser -----

  datatype Parsed<T> = Fail | Done(value: T, rest: Text)

  function HexValue(u: Unit): Option<nat> {
    if 0x30 <= u <= 0x39 then Some(u - 0x30)
    else if 0x61 <= u <= 0x66 then Some(u - 0x61 + 10)
    else None
  }

  function ParseHex4(t: Text): (r: Option<Unit>) {
    if |t| < 4 || HexValue(t[0]).None? || HexValue(t[1]).None? || HexValue(t[2]).None? || HexValue(t[3]).None? then None
    else Some(HexValue(t[0]).value * 4096 + HexValue(t[1]).value * 256 + HexValue(t[2]).value * 16 + HexValue(t[3]).value)
  }

  function UnescapeLetter(u: Unit): Option<Unit> {
    if u == 0x22 then Some(0x22)
    else if u == 0x5C then Some(0x5C)
    else if u == 0x62 then Some(0x08)
    else if u == 0x66 then Some(0x0C)
    else if u == 0x6E then Some(0x0A)
    else if u == 0x72 then Some(0x0D)
    else if u == 0x74 then Some(0x09)
    else None
  }

  function Prepend(u: Unit, p: Parsed<Text>): Parsed<Text> {
    if p.Fail? then Fail else Done([u] + p.value, p.rest)
  }

  /** The characters of a string up to its closing quote. */
  function ParseChars(t: Text): (r: Parsed<Text>)
    ensures r.Done? ==> |r.rest| < |t|
    decreases |t|
  {
    if t == [] then Fail
    else if t[0] == QUOTE then Done([], t[1..])
    else if t[0] != BACKSLASH then Prepend(t[0], ParseChars(t[1..]))
    else if |t| < 2 then Fail
    else if UnescapeLetter(t[1]).Some? then Prepend(UnescapeLetter(t[1]).value, ParseChars(t[2..]))
    else if t[1] == 0x75 && ParseHex4(t[2..]).Some? then Prepend(ParseHex4(t[2..]).value, ParseChars(t[6..]))
    else Fail
  }

  function ParseString(t: Text): (r: Parsed<Text>)
    ensures r.Done? ==> |r.rest| < |t|
  {
    if t == [] || t[0] != QUOTE then Fail else ParseChars(t[1..])
  }

  /** Digits read left to right onto an accumulator. */
  function ParseDigits(t: Text, acc: nat): (r: (nat, Text))
    ensures |r.1| <= |t|
    decreases |t|
  {
    if t == [] || !IsDigit(t[0]) then (acc, t) else ParseDigits(t[1..], acc * 10 + (t[0] - 0x30))
  }

  function ParseNumber(t: Text): (r: Parsed<Json>)
    ensures r.Done? ==> |r.rest| < |t|
  {
    var body := if t != [] && t[0] == MINUS then t[1..] else t;
    if body == [] || !IsDigit(body[0]) then Fail
    else
      var digits := ParseDigits(body[1..], body[0] - 0x30);
      var magnitude: int := digits.0;
      Done(Num(if |body| < |t| then -magnitude else magnitude), digits.1)
  }

  predicate StartsWith(t: Text, word: Text) {
    |word| <= |t| && t[..|word|] == word
  }

  function ParseItems(t: Text): (r: Parsed<seq<Json>>)
    ensures r.Done? ==> |r.rest| < |t|
    decreases |t|, 1
  {
    var first := Parse(t);
    if first.Fail? || first.rest == [] then Fail
    else if first.rest[0] == RBRACK then Done([first.value], first.rest[1..])
    else if first.rest[0] != COMMA then Fail
    else
      var more := ParseItems(first.rest[1..]);
      if more.Fail? then Fail else Done([first.value] + more.value, more.rest)
  }

  function ParseFields(t: Text): (r: Parsed<seq<(Text, Json)>>)
    ensures r.Done? ==> |r.rest| < |t|
    decreases |t|, 1
  {
    var key := ParseString(t);
    if key.Fail? || key.rest == [] || key.rest[0] != COLON then Fail
    else
      var first := Parse(key.rest[1..]);
      if first.Fail? || first.rest == [] then Fail
      else if first.rest[0] == RBRACE then Done([(key.value, first.value)], first.rest[1..])
      else if first.rest[0] != COMMA then Fail
      else
        var more := ParseFields(first.rest[1..]);
        if more.Fail? then Fail else Done([(key.value, first.value)] + more.value, more.rest)
  }

  function Parse(t: Text): (r: Parsed<Json>)
    ensures r.Done? ==> |r.rest| < |t|
    decreases |t|, 0
  {
    if t == [] then Fail
    else if StartsWith(t, NULL_TEXT) then Done(Null, t[4..])
    else if StartsWith(t, TRUE_TEXT) then Done(Bool(true), t[4..])
    else if StartsWith(t, FALSE_TEXT) then Done(Bool(false), t[5..])
    else if t[0] == QUOTE then
      var s := ParseString(t);
      if s.Fail? then Fail else Done(Str(s.value), s.rest)
    else if t[0] == LBRACK then
      if |t| >= 2 && t[1] == RBRACK then Done(Arr([]), t[2..])
      else
        var items := ParseItems(t[1..]);
        if items.Fail? then Fail else Done(Arr(items.value), items.rest)
    else if t[0] == LBRACE then
      if |t| >= 2 && t[1] == RBRACE then Done(Obj([]), t[2..])
      else
        var fields := ParseFields(t[1..]);
        if fields.Fail? then Fail else Done(Obj(fields.value), fields.rest)
    else ParseNumber(t)
  }

  // ----- Decimal round trip -----

  /** A text after which a number cannot go on. */
  predicate Ends(rest: Text) {
    rest == [] || !IsDigit(rest[0])
  }

  lemma {:induction false} DigitsAppend(t: Text, acc: nat, d: nat, rest: Text)
    requires (forall i :: 0 <= i < |t| ==> IsDigit(t[i])) && d < 10 && Ends(rest)
    ensures ParseDigits(t + [0x30 + d] + rest, acc) == (ParseDigits(t, acc).0 * 10 + d, rest)
    decreases |t|
  {
    var whole := t + [0x30 + d] + rest;
    if t == [] {
      assert whole[1..] == rest;
    } else {
      assert whole[1..] == t[1..] + [0x30 + d] + rest;
      DigitsAppend(t[1..], acc * 10 + (t[0] - 0x30), d, rest);
    }
  }

  lemma {:induction false} DecimalDigits(n: nat)
    ensures ParseDigits(Decimal(n), 0).0 == n
  {
    if n >= 10 {
      DecimalDigits(n / 10);
      DigitsAppend(Decimal(n / 10), 0, n % 10, []);
      assert Decimal(n / 10) + [0x30 + n % 10] + [] == Decimal(n);
    } else {
      assert Decimal(n)[1..] == [];
    }
  }

  lemma OneDigit(n: nat, rest: Text)
    requires n < 10 && Ends(rest)
    ensures ParseDigits(Decimal(n) + rest, 0) == (n, rest)
  {
    assert (Decimal(n) + rest)[1..] == rest;
  }

  lemma DecimalReads(n: nat, rest: Text)
    requires Ends(rest)
    ensures ParseDigits(Decimal(n) + rest, 0) == (n, rest)
  {
    hide ParseDigits;
    if n < 10 {
      OneDigit(n, rest);
    } else {
      DecimalDigits(n / 10);
      DigitsAppend(Decimal(n / 10), 0, n % 10, rest);
    }
  }

  lemma NumberReads(n: int, rest: Text)
    requires Ends(rest)
    ensures ParseNumber(SignedDecimal(n) + rest) == Done(Num(n), rest)
    ensures var t := SignedDecimal(n) + rest; IsDigit(t[0]) || t[0] == MINUS
  {
    var magnitude: nat := if n >= 0 then n else -n;
    hide Decimal;
    LeadingDigit(magnitude, rest);
    if n < 0 {
      assert (SignedDecimal(n) + rest)[1..] == Decimal(magnitude) + rest;
    }
  }

  lemma LeadingDigit(n: nat, rest: Text)
    requires Ends(rest)
    ensures var body := Decimal(n) + rest;
            && body != [] && IsDigit(body[0])
            && ParseDigits(body[1..], body[0] - 0x30) == (n, rest)
  {
    DecimalReads(n, rest);
    hide Decimal, ParseDigits;
    DigitStep(Decimal(n) + rest, 0);
  }

  lemma DigitStep(t: Text, acc: nat)
    requires t != [] && IsDigit(t[0])
    ensures ParseDigits(t, acc) == ParseDigits(t[1..], acc * 10 + (t[0] - 0x30))
  {
  }

  // ----- String round trip -----

  lemma HexDigitReads(d: nat)
    requires d < 16
    ensures HexValue(HexDigit(d)) == Some(d)
  {
  }

  lemma Hex4Value(u: nat)
    ensures u / 4096 * 4096 + u / 256 % 16 * 256 + u / 16 % 16 * 16 + u % 16 == u
  {
    assert u / 256 == u / 16 / 16;
    assert u / 4096 == u / 256 / 16;
  }

  lemma Hex4Reads(u: Unit, rest: Text)
    ensures ParseHex4(Hex4(u) + rest) == Some(u)
  {
    hide HexDigit, HexValue;
    var a, b, c, d := u / 4096, u / 256 % 16, u / 16 % 16, u % 16;
    HexDigitReads(a);
    HexDigitReads(b);
    HexDigitReads(c);
    HexDigitReads(d);
    Hex4Value(u);
  }

  lemma ShortReads(u: Unit, rest: Text)
    requires ShortEscape(u).Some?
    ensures ParseChars([BACKSLASH, ShortEscape(u).value] + rest) == Prepend(u, ParseChars(rest))
  {
    var t := [BACKSLASH, ShortEscape(u).value] + rest;
    assert UnescapeLetter(t[1]) == Some(u);
    assert t[2..] == rest;
  }

  lemma HexReads(u: Unit, rest: Text)
    ensures ParseChars([BACKSLASH, 0x75] + Hex4(u) + rest) == Prepend(u, ParseChars(rest))
  {
    hide Hex4, ParseHex4;
    var t := [BACKSLASH, 0x75] + Hex4(u) + rest;
    assert t[2..] == Hex4(u) + rest;
    Hex4Reads(u, rest);
    assert t[6..] == rest;
  }

  lemma UnitReads(u: Unit, rest: Text)
    ensures ParseChars(EscapeUnit(u) + rest) == Prepend(u, ParseChars(rest))
  {
    hide Hex4;
    if ShortEscape(u).Some? {
      ShortReads(u, rest);
    } else if u < 0x20 || IsLead(u) || IsTrail(u) {
      HexReads(u, rest);
    } else {
      assert ([u] + rest)[1..] == rest;
    }
  }

  lemma PairReads(lead: Unit, trail: Unit, rest: Text)
    requires IsLead(lead) && IsTrail(trail)
    ensures ParseChars([lead, trail] + rest) == Prepend(lead, Prepend(trail, ParseChars(rest)))
  {
    var t := [lead, trail] + rest;
    assert t[1..] == [trail] + rest;
    assert ([trail] + rest)[1..] == rest;
  }

  lemma PairThenChars(s: Text, rest: Text)
    requires |s| >= 2 && IsLead(s[0]) && IsTrail(s[1])
    requires ParseChars(Escape(s[2..]) + [QUOTE] + rest) == Done(s[2..], rest)
    ensures ParseChars(Escape(s) + [QUOTE] + rest) == Done(s, rest)
  {
    var tail := Escape(s[2..]) + [QUOTE] + rest;
    hide ParseChars, EscapeUnit;
    PairReads(s[0], s[1], tail);
    assert s[..2] == [s[0], s[1]];
    assert Escape(s) + [QUOTE] + rest == [s[0], s[1]] + tail;
    assert [s[0]] + ([s[1]] + s[2..]) == s;
  }

  lemma UnitThenChars(s: Text, rest: Text)
    requires s != [] && !(|s| >= 2 && IsLead(s[0]) && IsTrail(s[1]))
    requires ParseChars(Escape(s[1..]) + [QUOTE] + rest) == Done(s[1..], rest)
    ensures ParseChars(Escape(s) + [QUOTE] + rest) == Done(s, rest)
  {
    var tail := Escape(s[1..]) + [QUOTE] + rest;
    hide ParseChars, EscapeUnit;
    UnitReads(s[0], tail);
    assert Escape(s) + [QUOTE] + rest == EscapeUnit(s[0]) + tail;
    assert [s[0]] + s[1..] == s;
  }

  lemma {:induction false} CharsRead(s: Text, rest: Text)
    ensures ParseChars(Escape(s) + [QUOTE] + rest) == Done(s, rest)
    decreases |s|
  {
    if s == [] {
      assert (Escape(s) + [QUOTE] + rest)[1..] == rest;
    } else {
      hide ParseChars, Escape;
      if |s| >= 2 && IsLead(s[0]) && IsTrail(s[1]) {
        CharsRead(s[2..], rest);
        PairThenChars(s, rest);
      } else {
        CharsRead(s[1..], rest);
        UnitThenChars(s, rest);
      }
    }
  }

  lemma QuoteReads(s: Text, rest: Text)
    ensures ParseString(Quote(s) + rest) == Done(s, rest)
  {
    assert (Quote(s) + rest)[1..] == Escape(s) + [QUOTE] + rest;
    CharsRead(s, rest);
  }

  // ----- Sorting -----

  ghost predicate Paired(printed: seq<(Text, Text)>, normal: seq<(Text, Json)>) {
    && |printed| == |normal|
    && forall i :: 0 <= i < |printed| ==> printed[i].0 == normal[i].0 && Reads(printed[i].1, normal[i].1)
  }

  /** The text parses to the value in every context where a number would end. */
  ghost predicate Reads(text: Text, value: Json) {
    forall rest :: Ends(rest) ==> Parse(text + rest) == Done(value, rest)
  }

  lemma {:induction false} InsertPaired(
    p: (Text, Text), n: (Text, Json), printed: seq<(Text, Text)>, normal: seq<(Text, Json)>)
    requires Paired(printed, normal) && p.0 == n.0 && Reads(p.1, n.1)
    ensures Paired(InsertKey(p, printed), InsertKey(n, normal))
    decreases |printed|
  {
    hide Reads;
    if printed != [] && Before(printed[0].0, p.0) {
      InsertPaired(p, n, printed[1..], normal[1..]);
    }
  }

  lemma {:induction false} SortPaired(printed: seq<(Text, Text)>, normal: seq<(Text, Json)>)
    requires Paired(printed, normal)
    ensures Paired(SortByKey(printed), SortByKey(normal))
    decreases |printed|
  {
    hide Reads;
    if printed != [] {
      SortPaired(printed[1..], normal[1..]);
      InsertPaired(printed[0], normal[0], SortByKey(printed[1..]), SortByKey(normal[1..]));
    }
  }

  // ----- The inverse -----

  lemma {:induction false} ItemsRead(texts: seq<Text>, values: seq<Json>, rest: Text)
    requires |texts| == |values| > 0
    requires forall i :: 0 <= i < |texts| ==> Reads(texts[i], values[i])
    ensures ParseItems(JoinComma(texts) + [RBRACK] + rest) == Done(values, rest)
    decreases |texts|
  {
    hide Parse;
    var t := JoinComma(texts) + [RBRACK] + rest;
    if |texts| == 1 {
      assert t == texts[0] + ([RBRACK] + rest);
      assert ([RBRACK] + rest)[1..] == rest;
      assert values == [values[0]];
    } else {
      var tail := JoinComma(texts[1..]) + [RBRACK] + rest;
      assert t == texts[0] + ([COMMA] + tail);
      assert ([COMMA] + tail)[1..] == tail;
      ItemsRead(texts[1..], values[1..], rest);
      assert [values[0]] + values[1..] == values;
    }
  }

  lemma {:induction false} FieldsRead(printed: seq<(Text, Text)>, normal: seq<(Text, Json)>, rest: Text)
    requires Paired(printed, normal) && |printed| > 0
    ensures ParseFields(JoinComma(FieldTexts(printed)) + [RBRACE] + rest) == Done(normal, rest)
    decreases |printed|
  {
    hide Parse, ParseString, Quote;
    var t := JoinComma(FieldTexts(printed)) + [RBRACE] + rest;
    var key, text := printed[0].0, printed[0].1;
    assert Reads(text, normal[0].1);
    if |printed| == 1 {
      var after := text + ([RBRACE] + rest);
      assert t == Quote(key) + ([COLON] + after);
      QuoteReads(key, [COLON] + after);
      assert ([COLON] + after)[1..] == after;
      assert ([RBRACE] + rest)[1..] == rest;
      assert normal == [(key, normal[0].1)];
    } else {
      var tail := JoinComma(FieldTexts(printed[1..])) + [RBRACE] + rest;
      var after := text + ([COMMA] + tail);
      assert FieldTexts(printed)[1..] == FieldTexts(printed[1..]);
      assert t == Quote(key) + ([COLON] + after);
      QuoteReads(key, [COLON] + after);
      assert ([COLON] + after)[1..] == after;
      assert ([COMMA] + tail)[1..] == tail;
      FieldsRead(printed[1..], normal[1..], rest);
      assert [(key, normal[0].1)] + normal[1..] == normal;
    }
  }

  lemma {:induction false} PrintedItemsRead(items: seq<Json>)
    requires forall i :: 0 <= i < |items| ==> Serializable(items[i])
    ensures forall i :: 0 <= i < |items| ==> Reads(PrintItems(items)[i], NormalItems(items)[i])
    decreases items, 0
  {
    hide Reads;
    if items != [] {
      PrintReads(items[0]);
      PrintedItemsRead(items[1..]);
    }
  }

  lemma {:induction false} PrintedFieldsRead(fields: seq<(Text, Json)>)
    requires forall i :: 0 <= i < |fields| ==> Serializable(fields[i].1)
    ensures Paired(PrintFields(fields), NormalFields(fields))
    decreases fields, 0
  {
    hide Reads;
    if fields != [] {
      var field := fields[0];
      assert field.1 < field;
      PrintReads(field.1);
      PrintedFieldsRead(fields[1..]);
    }
  }

  /** Parsing a printed value gives the value back, up to what printing forgets. */
  lemma {:induction false} PrintReads(v: Json)
    requires Serializable(v)
    ensures Reads(Print(v), Normal(v))
    decreases v, 1
  {
    hide Reads, Parse;
    match v
    case Arr(items) =>
      PrintedItemsRead(items);
      ArrayReads(PrintItems(items), NormalItems(items));
    case Obj(fields) =>
      PrintedFieldsRead(fields);
      SortPaired(PrintFields(fields), NormalFields(fields));
      ObjectReads(SortByKey(PrintFields(fields)), SortByKey(NormalFields(fields)));
    case Num(n) => NumReads(n);
    case Str(s) => StringReads(s);
    case BigInt(n) => StringReads(SignedDecimal(n));
    case _ => WordsRead();
  }

  lemma WordHead(t: Text, word: Text)
    requires StartsWith(t, word) && word != []
    ensures t != [] && t[0] == word[0]
  {
    assert t[..|word|][0] == t[0];
  }

  /** The first unit decides how a value is read. */
  lemma Dispatch(t: Text)
    requires t != []
    requires t[0] == QUOTE || t[0] == LBRACK || t[0] == LBRACE || t[0] == MINUS || IsDigit(t[0])
    ensures t[0] == QUOTE ==>
              Parse(t) == if ParseString(t).Fail? then Fail else Done(Str(ParseString(t).value), ParseString(t).rest)
    ensures t[0] == LBRACK && |t| >= 2 && t[1] == RBRACK ==> Parse(t) == Done(Arr([]), t[2..])
    ensures t[0] == LBRACK && |t| >= 2 && t[1] != RBRACK ==>
              var items := ParseItems(t[1..]);
              Parse(t) == if items.Fail? then Fail else Done(Arr(items.value), items.rest)
    ensures t[0] == LBRACE && |t| >= 2 && t[1] == RBRACE ==> Parse(t) == Done(Obj([]), t[2..])
    ensures t[0] == LBRACE && |t| >= 2 && t[1] != RBRACE ==>
              var fields := ParseFields(t[1..]);
              Parse(t) == if fields.Fail? then Fail else Done(Obj(fields.value), fields.rest)
    ensures t[0] == MINUS || IsDigit(t[0]) ==> Parse(t) == ParseNumber(t)
  {
    hide ParseItems, ParseFields, ParseString, ParseNumber;
    assert !StartsWith(t, NULL_TEXT) && !StartsWith(t, TRUE_TEXT) && !StartsWith(t, FALSE_TEXT) by {
      if StartsWith(t, NULL_TEXT) { WordHead(t, NULL_TEXT); }
      if StartsWith(t, TRUE_TEXT) { WordHead(t, TRUE_TEXT); }
      if StartsWith(t, FALSE_TEXT) { WordHead(t, FALSE_TEXT); }
    }
  }

  lemma StringReads(s: Text)
    ensures Reads(Quote(s), Str(s))
  {
    hide Parse, ParseString;
    forall rest | Ends(rest)
      ensures Parse(Quote(s) + rest) == Done(Str(s), rest)
    {
      QuoteReads(s, rest);
      Dispatch(Quote(s) + rest);
    }
  }

  lemma NumReads(n: int)
    ensures Reads(SignedDecimal(n), Num(n))
  {
    hide Parse, ParseNumber, SignedDecimal;
    forall rest | Ends(rest)
      ensures Parse(SignedDecimal(n) + rest) == Done(Num(n), rest)
    {
      NumberReads(n, rest);
      Dispatch(SignedDecimal(n) + rest);
    }
  }

  lemma WordsRead()
    ensures Reads(NULL_TEXT, Null) && Reads(TRUE_TEXT, Bool(true)) && Reads(FALSE_TEXT, Bool(false))
  {
    hide ParseItems, ParseFields, ParseString, ParseNumber;
    forall rest | Ends(rest)
      ensures Parse(NULL_TEXT + rest) == Done(Null, rest)
      ensures Parse(TRUE_TEXT + rest) == Done(Bool(true), rest)
      ensures Parse(FALSE_TEXT + rest) == Done(Bool(false), rest)
    {
      assert (NULL_TEXT + rest)[..4] == NULL_TEXT && (NULL_TEXT + rest)[4..] == rest;
      assert (TRUE_TEXT + rest)[..4] == TRUE_TEXT && (TRUE_TEXT + rest)[4..] == rest;
      assert (FALSE_TEXT + rest)[..5] == FALSE_TEXT && (FALSE_TEXT + rest)[5..] == rest;
      assert TRUE_TEXT[0] != NULL_TEXT[0];
      assert !StartsWith(FALSE_TEXT + rest, NULL_TEXT) && !StartsWith(FALSE_TEXT + rest, TRUE_TEXT) by {
        if StartsWith(FALSE_TEXT + rest, NULL_TEXT) { WordHead(FALSE_TEXT + rest, NULL_TEXT); }
        if StartsWith(FALSE_TEXT + rest, TRUE_TEXT) { WordHead(FALSE_TEXT + rest, TRUE_TEXT); }
      }
    }
  }

  /** No printed value starts with a closing bracket, so a non-empty list is not read as an empty one. */
  lemma ReadsNonEmpty(text: Text, value: Json)
    requires Reads(text, value)
    ensures text != [] && text[0] != RBRACK && text[0] != RBRACE
  {
    assert Parse(text + []) == Done(value, []);
    assert text + [] == text;
  }

  lemma ArrayReadsBefore(texts: seq<Text>, values: seq<Json>, rest: Text)
    requires |texts| == |values|
    requires forall i :: 0 <= i < |texts| ==> Reads(texts[i], values[i])
    ensures Parse([LBRACK] + JoinComma(texts) + [RBRACK] + rest) == Done(Arr(values), rest)
  {
    hide Parse, ParseItems, Reads;
    var text := [LBRACK] + JoinComma(texts) + [RBRACK] + rest;
    Dispatch(text);
    if texts == [] {
      assert text[2..] == rest;
    } else {
      ItemsRead(texts, values, rest);
      ReadsNonEmpty(texts[0], values[0]);
      assert text[1..] == JoinComma(texts) + [RBRACK] + rest;
      assert text[1] == texts[0][0];
    }
  }

  lemma ArrayReads(texts: seq<Text>, values: seq<Json>)
    requires |texts| == |values|
    requires forall i :: 0 <= i < |texts| ==> Reads(texts[i], values[i])
    ensures Reads([LBRACK] + JoinComma(texts) + [RBRACK], Arr(values))
  {
    hide Parse, JoinComma;
    forall rest | Ends(rest)
      ensures Parse([LBRACK] + JoinComma(texts) + [RBRACK] + rest) == Done(Arr(values), rest)
    {
      ArrayReadsBefore(texts, values, rest);
    }
  }

  lemma ObjectReadsBefore(printed: seq<(Text, Text)>, normal: seq<(Text, Json)>, rest: Text)
    requires Paired(printed, normal)
    ensures Parse([LBRACE] + JoinComma(FieldTexts(printed)) + [RBRACE] + rest) == Done(Obj(normal), rest)
  {
    hide Parse, ParseFields, Reads;
    var text := [LBRACE] + JoinComma(FieldTexts(printed)) + [RBRACE] + rest;
    Dispatch(text);
    if printed == [] {
      assert text[2..] == rest;
    } else {
      FieldsRead(printed, normal, rest);
      assert text[1..] == JoinComma(FieldTexts(printed)) + [RBRACE] + rest;
      assert text[1] == FieldTexts(printed)[0][0] == QUOTE;
    }
  }

  lemma ObjectReads(printed: seq<(Text, Text)>, normal: seq<(Text, Json)>)
    requires Paired(printed, normal)
    ensures Reads([LBRACE] + JoinComma(FieldTexts(printed)) + [RBRACE], Obj(normal))
  {
    hide Parse, JoinComma, Paired;
    forall rest | Ends(rest)
      ensures Parse([LBRACE] + JoinComma(FieldTexts(printed)) + [RBRACE] + rest) == Done(Obj(normal), rest)
    {
      ObjectReadsBefore(printed, normal, rest);
    }
  }

  /** The printer's inverse. */
  lemma ParseInvertsPrint(v: Json)
    requires Serializable(v)
    ensures Parse(Print(v)) == Done(Normal(v), [])
  {
    PrintReads(v);
    assert Print(v) + [] == Print(v);
  }

  // ----- Equal texts, equal values -----

  ghost predicate Sorted<V>(fields: seq<(Text, V)>) {
    forall i, j :: 0 <= i < j < |fields| ==> Before(fields[i].0, fields[j].0)
  }

  lemma {:induction false} BeforeTransitive(a: Text, b: Text, c: Text)
    requires Before(a, b) && Before(b, c)
    ensures Before(a, c)
    decreases |a|
  {
    if a != [] && b != [] && c != [] && a[0] == b[0] == c[0] {
      BeforeTransitive(a[1..], b[1..], c[1..]);
    }
  }

  lemma {:induction false} BeforeTotal(a: Text, b: Text)
    ensures a == b || Before(a, b) || Before(b, a)
    ensures !(Before(a, b) && Before(b, a)) && !Before(a, a)
    decreases |a| + |b|
  {
    if a != [] && b != [] {
      BeforeTotal(a[1..], b[1..]);
      assert [a[0]] + a[1..] == a && [b[0]] + b[1..] == b;
    }
    BeforeIrreflexive(a);
  }

  lemma {:induction false} BeforeIrreflexive(a: Text)
    ensures !Before(a, a)
    decreases |a|
  {
    if a != [] {
      BeforeIrreflexive(a[1..]);
    }
  }

  lemma {:induction false} InsertAdds<V>(field: (Text, V), sorted: seq<(Text, V)>)
    ensures multiset(InsertKey(field, sorted)) == multiset(sorted) + multiset{field}
    decreases |sorted|
  {
    hide Before;
    if sorted != [] {
      assert sorted == [sorted[0]] + sorted[1..];
      InsertAdds(field, sorted[1..]);
    }
  }

  /** Inserting a new key keeps a sorted list sorted. */
  lemma {:induction false} InsertSorted<V>(field: (Text, V), sorted: seq<(Text, V)>)
    requires Sorted(sorted) && forall i :: 0 <= i < |sorted| ==> sorted[i].0 != field.0
    ensures Sorted(InsertKey(field, sorted))
    decreases |sorted|
  {
    hide Before;
    if sorted != [] {
      if Before(sorted[0].0, field.0) {
        InsertSorted(field, sorted[1..]);
        AfterFirst(field, sorted);
      } else {
        BeforeTotal(sorted[0].0, field.0);
        BeforeAll(field.0, sorted);
      }
    }
  }

  lemma AfterFirst<V>(field: (Text, V), sorted: seq<(Text, V)>)
    requires Sorted(sorted) && sorted != [] && Before(sorted[0].0, field.0)
    ensures var r := InsertKey(field, sorted[1..]); forall j :: 0 <= j < |r| ==> Before(sorted[0].0, r[j].0)
  {
    var r := InsertKey(field, sorted[1..]);
    InsertAdds(field, sorted[1..]);
    hide Before, InsertKey;
    SameMembers(r, sorted[1..] + [field]);
    forall j | 0 <= j < |r|
      ensures Before(sorted[0].0, r[j].0)
    {
      assert r[j] in sorted[1..] + [field];
    }
  }

  lemma BeforeAll<V>(key: Text, sorted: seq<(Text, V)>)
    requires Sorted(sorted) && sorted != [] && Before(key, sorted[0].0)
    ensures forall j :: 0 <= j < |sorted| ==> Before(key, sorted[j].0)
  {
    hide Before;
    forall j | 0 <= j < |sorted|
      ensures Before(key, sorted[j].0)
    {
      if j > 0 {
        BeforeTransitive(key, sorted[0].0, sorted[j].0);
      }
    }
  }

  lemma {:induction false} SortSorts<V>(fields: seq<(Text, V)>)
    requires DistinctKeys(fields)
    ensures Sorted(SortByKey(fields)) && multiset(SortByKey(fields)) == multiset(fields)
    decreases |fields|
  {
    if fields != [] {
      var rest := SortByKey(fields[1..]);
      SortSorts(fields[1..]);
      SameMembers(rest, fields[1..]);
      forall i | 0 <= i < |rest|
        ensures rest[i].0 != fields[0].0
      {
        assert rest[i] in fields[1..];
        var j :| 0 <= j < |fields[1..]| && fields[1..][j] == rest[i];
        assert fields[j + 1].0 != fields[0].0;
      }
      InsertSorted(fields[0], rest);
      InsertAdds(fields[0], rest);
      assert fields == [fields[0]] + fields[1..];
    }
  }

  lemma {:induction false} SortOfSorted<V>(fields: seq<(Text, V)>)
    requires Sorted(fields)
    ensures SortByKey(fields) == fields
    decreases |fields|
  {
    hide Before;
    if fields != [] {
      SortOfSorted(fields[1..]);
      if |fields| > 1 {
        BeforeTotal(fields[0].0, fields[1].0);
      }
      assert fields == [fields[0]] + fields[1..];
    }
  }

  /** Printing the values does not disturb the key order. */
  lemma {:induction false} InsertThenPrint(field: (Text, Json), sorted: seq<(Text, Json)>)
    requires Serializable(field.1) && forall i :: 0 <= i < |sorted| ==> Serializable(sorted[i].1)
    ensures forall i :: 0 <= i < |InsertKey(field, sorted)| ==> Serializable(InsertKey(field, sorted)[i].1)
    ensures PrintFields(InsertKey(field, sorted)) == InsertKey((field.0, Print(field.1)), PrintFields(sorted))
    decreases |sorted|
  {
    hide Before, Print;
    if sorted != [] && Before(sorted[0].0, field.0) {
      InsertThenPrint(field, sorted[1..]);
    }
    assert ([field] + sorted)[1..] == sorted;
  }

  lemma {:induction false} SortThenPrint(fields: seq<(Text, Json)>)
    requires forall i :: 0 <= i < |fields| ==> Serializable(fields[i].1)
    ensures forall i :: 0 <= i < |fields| ==> Serializable(SortByKey(fields)[i].1)
    ensures PrintFields(SortByKey(fields)) == SortByKey(PrintFields(fields))
    decreases |fields|
  {
    hide Before, Print;
    if fields != [] {
      SortThenPrint(fields[1..]);
      InsertThenPrint(fields[0], SortByKey(fields[1..]));
    }
  }

  lemma PrintedKeys(fields: seq<(Text, Json)>, i: nat)
    requires forall k :: 0 <= k < |fields| ==> Serializable(fields[k].1)
    requires i < |fields|
    ensures PrintFields(fields)[i].0 == fields[i].0
    decreases |fields|
  {
    if i > 0 {
      PrintedKeys(fields[1..], i - 1);
    }
  }

  lemma PrintKeepsKeysDistinct(fields: seq<(Text, Json)>)
    requires DistinctKeys(fields) && forall k :: 0 <= k < |fields| ==> Serializable(fields[k].1)
    ensures DistinctKeys(PrintFields(fields))
  {
    forall i, j | 0 <= i < j < |fields|
      ensures PrintFields(fields)[i].0 != PrintFields(fields)[j].0
    {
      PrintedKeys(fields, i);
      PrintedKeys(fields, j);
    }
  }

  lemma {:induction false} NormalItemsPrint(items: seq<Json>)
    requires forall i :: 0 <= i < |items| ==> Serializable(items[i]) && WellFormed(items[i])
    ensures forall i :: 0 <= i < |items| ==> Serializable(NormalItems(items)[i])
    ensures PrintItems(NormalItems(items)) == PrintItems(items)
    decreases items, 0
  {
    hide Print;
    if items != [] {
      NormalPrints(items[0]);
      NormalItemsPrint(items[1..]);
      assert NormalItems(items)[1..] == NormalItems(items[1..]);
    }
  }

  lemma {:induction false} NormalFieldsPrint(fields: seq<(Text, Json)>)
    requires forall i :: 0 <= i < |fields| ==> Serializable(fields[i].1) && WellFormed(fields[i].1)
    ensures forall i :: 0 <= i < |fields| ==> Serializable(NormalFields(fields)[i].1)
    ensures PrintFields(NormalFields(fields)) == PrintFields(fields)
    decreases fields, 0
  {
    hide Print;
    if fields != [] {
      var field := fields[0];
      assert field.1 < field;
      NormalPrints(field.1);
      NormalFieldsPrint(fields[1..]);
      assert NormalFields(fields)[1..] == NormalFields(fields[1..]);
    }
  }

  /** What printing forgets does not change the text. */
  lemma {:induction false} NormalPrints(v: Json)
    requires Serializable(v) && WellFormed(v)
    ensures Serializable(Normal(v)) && Print(Normal(v)) == Print(v)
    decreases v, 1
  {
    match v
    case Arr(items) => NormalItemsPrint(items);
    case Obj(fields) =>
      var normal := NormalFields(fields);
      NormalFieldsPrint(fields);
      SortThenPrint(normal);
      PrintKeepsKeysDistinct(fields);
      SortSorts(PrintFields(fields));
      SortOfSorted(SortByKey(PrintFields(fields)));
    case _ =>
  }

  /** Canonical texts coincide exactly when the values agree up to what printing forgets. */
  lemma TextsCoincide(v: Json, w: Json)
    requires Serializable(v) && Serializable(w) && WellFormed(v) && WellFormed(w)
    ensures Print(v) == Print(w) <==> Normal(v) == Normal(w)
  {
    ParseInvertsPrint(v);
    ParseInvertsPrint(w);
    NormalPrints(v);
    NormalPrints(w);
  }

  lemma SameFirst<V>(a: seq<(Text, V)>, b: seq<(Text, V)>)
    requires Sorted(a) && Sorted(b) && a != [] && b != [] && a[0] in b && b[0] in a
    ensures a[0] == b[0]
  {
    hide Before;
    var i :| 0 <= i < |b| && b[i] == a[0];
    var j :| 0 <= j < |a| && a[j] == b[0];
    BeforeTotal(a[0].0, b[0].0);
  }

  lemma Tail<T>(s: seq<T>)
    requires s != []
    ensures multiset(s[1..]) == multiset(s) - multiset{s[0]}
  {
    assert s == [s[0]] + s[1..];
  }

  /** Sorted lists with the same fields are the same list. */
  lemma {:induction false} SortedUnique<V>(a: seq<(Text, V)>, b: seq<(Text, V)>)
    requires Sorted(a) && Sorted(b) && multiset(a) == multiset(b)
    ensures a == b
    decreases |a|
  {
    hide Before;
    SameMembers(a, b);
    if a != [] {
      assert a[0] in b && b[0] in a;
      SameFirst(a, b);
      Tail(a);
      Tail(b);
      SortedUnique(a[1..], b[1..]);
      assert a == [a[0]] + a[1..] && b == [b[0]] + b[1..];
    }
  }

  /** The order in which an object lists its properties does not reach the text. */
  lemma PropertyOrderIrrelevant(a: seq<(Text, Json)>, b: seq<(Text, Json)>)
    requires multiset(a) == multiset(b) && DistinctKeys(a) && DistinctKeys(b)
    requires Serializable(Obj(a)) && Serializable(Obj(b))
    ensures Print(Obj(a)) == Print(Obj(b))
  {
    SortSorts(a);
    SortSorts(b);
    SortedUnique(SortByKey(a), SortByKey(b));
    SortThenPrint(a);
    SortThenPrint(b);
  }

  /** Two objects with the same distinct property names, listed in the same order, have the
      same canonical text only if every property agrees. */
  lemma SameObjectText(v: seq<(Text, Json)>, w: seq<(Text, Json)>)
    requires Serializable(Obj(v)) && Serializable(Obj(w))
    requires |v| == |w| && DistinctKeys(v) && forall i :: 0 <= i < |v| ==> v[i].0 == w[i].0
    requires Print(Obj(v)) == Print(Obj(w))
    ensures forall i :: 0 <= i < |v| ==> Normal(v[i].1) == Normal(w[i].1)
  {
    ParseInvertsPrint(Obj(v));
    ParseInvertsPrint(Obj(w));
    hide Print, Parse, Serializable;
    SameSorted(NormalFields(v), NormalFields(w));
    forall i | 0 <= i < |v|
      ensures Normal(v[i].1) == Normal(w[i].1)
    {
      NormalFieldAt(v, i);
      NormalFieldAt(w, i);
    }
  }

  lemma SameSorted<V>(v: seq<(Text, V)>, w: seq<(Text, V)>)
    requires SortByKey(v) == SortByKey(w)
    requires |v| == |w| && DistinctKeys(v) && forall i :: 0 <= i < |v| ==> v[i].0 == w[i].0
    ensures v == w
  {
    SortSorts(v);
    SortSorts(w);
    hide SortByKey, Before, Sorted;
    SameMembers(v, w);
    forall i | 0 <= i < |v|
      ensures v[i] == w[i]
    {
      assert v[i] in w;
      var j :| 0 <= j < |w| && w[j] == v[i];
      assert v[j].0 == v[i].0;
    }
  }

  lemma {:induction false} NormalFieldAt(fields: seq<(Text, Json)>, i: nat)
    requires i < |fields|
    ensures NormalFields(fields)[i] == (fields[i].0, Normal(fields[i].1))
    decreases |fields|
  {
    if i > 0 {
      NormalFieldAt(fields[1..], i - 1);
    }
  }
}
