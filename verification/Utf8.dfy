/**
  The UTF-8 form in which canonical texts are digested. A lone surrogate is encoded as U+FFFD, so
  encoding is not injective on all texts; it is on the texts the canonical printer makes, whose
  surrogates always come in pairs.
 */
module Utf8 {
  import opened Prelude
  import opened CanonicalJson

  // ----- Encoding -----

  type Point = c: int | 0 <= c < 0x11_0000

  const REPLACEMENT: Point := 0xFFFD

  function PointBytes(c: Point): (r: Bytes)
    ensures |r| > 0
  {
    if c < 0x80 then [c]
    else if c < 0x800 then [0xC0 + c / 64, 0x80 + c % 64]
    else if c < 0x1_0000 then [0xE0 + c / 4096, 0x80 + c / 64 % 64, 0x80 + c % 64]
    else [0xF0 + c / 262144, 0x80 + c / 4096 % 64, 0x80 + c / 64 % 64, 0x80 + c % 64]
  }

  predicate StartsWithPair(t: Text) {
    |t| >= 2 && IsLead(t[0]) && IsTrail(t[1])
  }

  function PairPoint(lead: Unit, trail: Unit): Point
    requires IsLead(lead) && IsTrail(trail)
  {
    0x1_0000 + (lead - 0xD800) * 0x400 + (trail - 0xDC00)
  }

  /** The code point a text starts with, and the number of units it takes. */
  function HeadPoint(t: Text): Point
    requires t != []
  {
    if StartsWithPair(t) then PairPoint(t[0], t[1])
    else if IsLead(t[0]) || IsTrail(t[0]) then REPLACEMENT
    else t[0]
  }

  function HeadLength(t: Text): (n: nat)
    requires t != []
    ensures 1 <= n <= |t|
  {
    if StartsWithPair(t) then 2 else 1
  }

  /** `update(text, 'utf8')` */
  function Encode(t: Text): Bytes
    decreases |t|
  {
    if t == [] then [] else PointBytes(HeadPoint(t)) + Encode(t[HeadLength(t)..])
  }

  /** Two texts with one encoding, of which the printer makes neither. */
  lemma LoneSurrogatesCollide()
    ensures Encode([0xD800]) == Encode([0xDC00]) == Encode([0xFFFD])
  {
    var a: Text, b: Text, c: Text := [0xD800], [0xDC00], [0xFFFD];
    assert HeadPoint(a) == HeadPoint(b) == HeadPoint(c) == REPLACEMENT;
    assert Encode(a) == PointBytes(REPLACEMENT) + Encode(a[1..]);
    assert Encode(b) == PointBytes(REPLACEMENT) + Encode(b[1..]);
    assert Encode(c) == PointBytes(REPLACEMENT) + Encode(c[1..]);
    assert a[1..] == b[1..] == c[1..] == [];
  }

  // ----- Texts without lone surrogates -----

  predicate NoLoneSurrogate(t: Text)
    decreases |t|
  {
    if t == [] then true
    else if StartsWithPair(t) then NoLoneSurrogate(t[2..])
    else !IsLead(t[0]) && !IsTrail(t[0]) && NoLoneSurrogate(t[1..])
  }

  /** The first byte tells the length of a code point, and the bytes tell the code point. */
  lemma PointRead(c: Point, d: Point, x: Bytes, y: Bytes)
    requires PointBytes(c) + x == PointBytes(d) + y
    ensures c == d && x == y
  {
    var (p, q) := (PointBytes(c), PointBytes(d));
    assert p[0] == (p + x)[0] == (q + y)[0] == q[0];
    assert |p| == |q|;
    assert p == (p + x)[..|p|] == (q + y)[..|q|] == q;
    assert x == (p + x)[|p|..] == (q + y)[|q|..] == y;
    SamePoint(c, d);
  }

  lemma SamePoint(c: Point, d: Point)
    requires PointBytes(c) == PointBytes(d)
    ensures c == d
  {
    var (p, q) := (PointBytes(c), PointBytes(d));
    assert forall i :: 0 <= i < |p| ==> p[i] == q[i];
    Digits64(c);
    Digits64(d);
  }

  lemma Digits64(c: nat)
    ensures c == c / 64 * 64 + c % 64
    ensures c / 64 == c / 4096 * 64 + c / 64 % 64
    ensures c / 4096 == c / 262144 * 64 + c / 4096 % 64
  {
  }

  lemma SameHead(a: Text, b: Text)
    requires a != [] && b != [] && NoLoneSurrogate(a) && NoLoneSurrogate(b) && HeadPoint(a) == HeadPoint(b)
    ensures HeadLength(a) == HeadLength(b) && a[..HeadLength(a)] == b[..HeadLength(b)]
  {
    if StartsWithPair(a) && StartsWithPair(b) {
      assert a[..2] == [a[0], a[1]] && b[..2] == [b[0], b[1]];
    }
  }

  /** On texts without lone surrogates encoding is injective. */
  lemma {:induction false} EncodeInjective(a: Text, b: Text)
    requires NoLoneSurrogate(a) && NoLoneSurrogate(b) && Encode(a) == Encode(b)
    ensures a == b
    decreases |a|
  {
    if a != [] && b != [] {
      var (x, y) := (a[HeadLength(a)..], b[HeadLength(b)..]);
      PointRead(HeadPoint(a), HeadPoint(b), Encode(x), Encode(y));
      SameHead(a, b);
      EncodeInjective(x, y);
      assert a == a[..HeadLength(a)] + x && b == b[..HeadLength(b)] + y;
    }
  }

  // ----- What the printer makes -----

  lemma {:induction false} Joined(a: Text, b: Text)
    requires NoLoneSurrogate(a) && NoLoneSurrogate(b)
    ensures NoLoneSurrogate(a + b)
    decreases |a|
  {
    if a == [] {
      assert a + b == b;
    } else {
      var n := HeadLength(a);
      assert (a + b)[n..] == a[n..] + b;
      Joined(a[n..], b);
    }
  }

  /** Text without any surrogate. */
  lemma {:induction false} PlainText(t: Text)
    requires forall i :: 0 <= i < |t| ==> !IsLead(t[i]) && !IsTrail(t[i])
    ensures NoLoneSurrogate(t)
    decreases |t|
  {
    if t != [] {
      PlainText(t[1..]);
    }
  }

  /** The escape keeps pairs and spells lone surrogates out. */
  lemma {:induction false} EscapePairs(s: Text)
    ensures NoLoneSurrogate(Escape(s))
    decreases |s|
  {
    if s == [] {
    } else if StartsWithPair(s) {
      assert s[..2][2..] == [];
      EscapePairs(s[2..]);
      Joined(s[..2], Escape(s[2..]));
    } else {
      PlainText(EscapeUnit(s[0]));
      EscapePairs(s[1..]);
      Joined(EscapeUnit(s[0]), Escape(s[1..]));
    }
  }

  lemma QuotePairs(s: Text)
    ensures NoLoneSurrogate(Quote(s))
  {
    EscapePairs(s);
    PlainText([QUOTE]);
    Joined([QUOTE], Escape(s));
    Joined([QUOTE] + Escape(s), [QUOTE]);
  }

  ghost predicate AllPaired(parts: seq<Text>) {
    forall i :: 0 <= i < |parts| ==> NoLoneSurrogate(parts[i])
  }

  lemma {:induction false} JoinPairs(parts: seq<Text>)
    requires AllPaired(parts)
    ensures NoLoneSurrogate(JoinComma(parts))
  {
    if |parts| > 1 {
      JoinPairs(parts[1..]);
      PlainText([COMMA]);
      Joined(parts[0], [COMMA]);
      Joined(parts[0] + [COMMA], JoinComma(parts[1..]));
    }
  }

  ghost predicate ValuesPaired(fields: seq<(Text, Text)>) {
    forall i :: 0 <= i < |fields| ==> NoLoneSurrogate(fields[i].1)
  }

  lemma {:induction false} InsertPairs(field: (Text, Text), sorted: seq<(Text, Text)>)
    requires NoLoneSurrogate(field.1) && ValuesPaired(sorted)
    ensures ValuesPaired(InsertKey(field, sorted))
    decreases |sorted|
  {
    hide NoLoneSurrogate, Before;
    if sorted != [] {
      InsertPairs(field, sorted[1..]);
    }
  }

  lemma {:induction false} SortPairs(fields: seq<(Text, Text)>)
    requires ValuesPaired(fields)
    ensures ValuesPaired(SortByKey(fields))
  {
    hide NoLoneSurrogate;
    if fields != [] {
      SortPairs(fields[1..]);
      InsertPairs(fields[0], SortByKey(fields[1..]));
    }
  }

  lemma {:induction false} FieldTextsPair(printed: seq<(Text, Text)>)
    requires ValuesPaired(printed)
    ensures AllPaired(FieldTexts(printed))
  {
    if printed != [] {
      FieldTextsPair(printed[1..]);
      QuotePairs(printed[0].0);
      PlainText([COLON]);
      Joined(Quote(printed[0].0), [COLON]);
      Joined(Quote(printed[0].0) + [COLON], printed[0].1);
    }
  }

  lemma Wrapped(open: Unit, inner: Text, close: Unit)
    requires !IsLead(open) && !IsTrail(open) && !IsLead(close) && !IsTrail(close) && NoLoneSurrogate(inner)
    ensures NoLoneSurrogate([open] + inner + [close])
  {
    PlainText([open]);
    PlainText([close]);
    Joined([open], inner);
    Joined([open] + inner, [close]);
  }

  lemma NumberPairs(n: int)
    ensures NoLoneSurrogate(SignedDecimal(n))
  {
    PlainText(SignedDecimal(n));
  }

  lemma {:induction false} ItemsPair(items: seq<Json>)
    requires forall i :: 0 <= i < |items| ==> Serializable(items[i])
    ensures AllPaired(PrintItems(items))
    decreases items, 0
  {
    hide NoLoneSurrogate, Print;
    if items != [] {
      PrintPairs(items[0]);
      ItemsPair(items[1..]);
    }
  }

  lemma {:induction false} FieldsPair(fields: seq<(Text, Json)>)
    requires forall i :: 0 <= i < |fields| ==> Serializable(fields[i].1)
    ensures ValuesPaired(PrintFields(fields))
    decreases fields, 0
  {
    hide NoLoneSurrogate, Print;
    if fields != [] {
      var field := fields[0];
      assert field.1 < field;
      PrintPairs(field.1);
      FieldsPair(fields[1..]);
    }
  }

  /** Surrogates of a canonical text always come in pairs. */
  lemma {:induction false} PrintPairs(v: Json)
    requires Serializable(v)
    ensures NoLoneSurrogate(Print(v))
    decreases v, 1
  {
    hide NoLoneSurrogate, Quote, SignedDecimal, JoinComma, FieldTexts, SortByKey;
    match v
    case Num(n) => NumberPairs(n);
    case BigInt(n) => QuotePairs(SignedDecimal(n));
    case Str(s) => QuotePairs(s);
    case Arr(items) =>
      ItemsPair(items);
      JoinPairs(PrintItems(items));
      Wrapped(LBRACK, JoinComma(PrintItems(items)), RBRACK);
    case Obj(fields) =>
      FieldsPair(fields);
      SortPairs(PrintFields(fields));
      FieldTextsPair(SortByKey(PrintFields(fields)));
      JoinPairs(FieldTexts(SortByKey(PrintFields(fields))));
      Wrapped(LBRACE, JoinComma(FieldTexts(SortByKey(PrintFields(fields)))), RBRACE);
    case Undefined => PlainText(NULL_TEXT);
    case Null => PlainText(NULL_TEXT);
    case Bool(b) => PlainText(if b then TRUE_TEXT else FALSE_TEXT);
    case _ =>
  }

  /** Two values with one digested byte string agree up to what printing forgets. */
  lemma EncodedTextsCoincide(v: Json, w: Json)
    requires Serializable(v) && Serializable(w) && WellFormed(v) && WellFormed(w)
    ensures Encode(Print(v)) == Encode(Print(w)) <==> Normal(v) == Normal(w)
  {
    hide Print, Encode, NoLoneSurrogate;
    PrintPairs(v);
    PrintPairs(w);
    if Encode(Print(v)) == Encode(Print(w)) {
      EncodeInjective(Print(v), Print(w));
    }
    TextsCoincide(v, w);
  }
}
