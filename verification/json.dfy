/** The JSON texts the journal writes, one record to a line, and their parser (sections 2 to 9 of RFC 8259). */
module Json {
  import opened Outcomes

  /** A UTF-16 code unit; what is written is plain ASCII, one byte for each character. */
  type Unit = n: nat | n < 65536

  /** The digits after a decimal point. */
  type Fraction = s: string | s != "" && AllDigits(s) witness "0"

  /** A number with a fraction is represented by the digits it is written with. */
  datatype Value = Null | Bool(truth: bool) | Number(n: int) | Decimal(negative: bool, whole: nat, fraction: Fraction)
                 | Text(units: seq<Unit>) | List(items: Values) | Object(fields: Fields)

  datatype Values = Nil | Item(head: Value, tail: Values)

  /** The fields of an object, in the order they are written. */
  datatype Fields = End | Field(key: seq<Unit>, value: Value, rest: Fields)

  // -- writing ---------------------------------------------------------------------------------

  const HEX := "0123456789abcdef"

  function EncodeHex(u: Unit): (s: string)
    ensures |s| == 4
  {
    [HEX[u / 4096], HEX[u / 256 % 16], HEX[u / 16 % 16], HEX[u % 16]]
  }

  function EncodeUnit(u: Unit): (s: string)
    ensures |s| > 0 && s[0] != '\"'
  {
    if u == 34 then "\\\""
    else if u == 92 then "\\\\"
    else if u == 10 then "\\n"
    else if u == 13 then "\\r"
    else if u == 9 then "\\t"
    else if u == 8 then "\\b"
    else if u == 12 then "\\f"
    else if 32 <= u < 127 then [u as char]
    else ['\\', 'u'] + EncodeHex(u)
  }

  function EncodeUnits(t: seq<Unit>): string {
    if t == [] then "\"" else EncodeUnit(t[0]) + EncodeUnits(t[1..])
  }

  ghost predicate AllDigits(s: string) {
    forall i :: 0 <= i < |s| ==> '0' <= s[i] <= '9'
  }

  function EncodeNat(n: nat): (s: string)
    ensures |s| > 0 && AllDigits(s)
    ensures n > 0 ==> s[0] != '0'
    ensures n == 0 ==> s == "0"
  {
    if n < 10 then [HEX[n]] else EncodeNat(n / 10) + [HEX[n % 10]]
  }

  function EncodeNumber(n: int): string {
    if n < 0 then "-" + EncodeNat(-n) else EncodeNat(n)
  }

  function EncodeDecimal(negative: bool, whole: nat, fraction: Fraction): string {
    (if negative then "-" else "") + (EncodeNat(whole) + ("." + fraction))
  }

  /** What stands between an item or a field and the next one. */
  function Separator(last: bool): string {
    if last then "" else ","
  }

  function Encode(v: Value): string {
    match v
    case Null => "null"
    case Bool(b) => if b then "true" else "false"
    case Number(n) => EncodeNumber(n)
    case Decimal(negative, whole, fraction) => EncodeDecimal(negative, whole, fraction)
    case Text(t) => "\"" + EncodeUnits(t)
    case List(items) => "[" + EncodeItems(items)
    case Object(fields) => "{" + EncodeFields(fields)
  }

  function EncodeItems(items: Values): string {
    match items
    case Nil => "]"
    case Item(head, tail) => Encode(head) + (Separator(tail.Nil?) + EncodeItems(tail))
  }

  function EncodeFields(fields: Fields): string {
    match fields
    case End => "}"
    case Field(key, value, rest) =>
      "\"" + (EncodeUnits(key) + (":" + (Encode(value) + (Separator(rest.End?) + EncodeFields(rest)))))
  }

  // -- reading ---------------------------------------------------------------------------------

  function FromHex(c: char): Option<nat> {
    if '0' <= c <= '9' then Some(c as nat - '0' as nat)
    else if 'a' <= c <= 'f' then Some(c as nat - 'a' as nat + 10)
    else if 'A' <= c <= 'F' then Some(c as nat - 'A' as nat + 10)
    else None
  }

  function ParseHex(s: string): Option<Unit>
    requires |s| == 4
  {
    var a, b, c, d := FromHex(s[0]), FromHex(s[1]), FromHex(s[2]), FromHex(s[3]);
    if a.None? || b.None? || c.None? || d.None? then None
    else
      var u := a.value * 4096 + b.value * 256 + c.value * 16 + d.value;
      if u < 65536 then Some(u) else None
  }

  /** One character of a string, escaped or not. */
  function ParseUnit(s: string): (r: Option<(Unit, string)>)
    ensures r.Some? ==> |r.value.1| < |s|
  {
    if s == "" then None
    else if s[0] != '\\' then if s[0] < ' ' || s[0] as nat >= 65536 then None else Some((s[0] as nat, s[1..]))
    else if |s| < 2 then None
    else if s[1] == 'u' then
      if |s| < 6 then None
      else
        var u := ParseHex(s[2..6]);
        if u.None? then None else Some((u.value, s[6..]))
    else
      var escape := Unescape(s[1]);
      if escape.None? then None else Some((escape.value, s[2..]))
  }

  function Unescape(c: char): Option<Unit> {
    match c
    case '\"' => Some(34)
    case '\\' => Some(92)
    case '/' => Some(47)
    case 'n' => Some(10)
    case 'r' => Some(13)
    case 't' => Some(9)
    case 'b' => Some(8)
    case 'f' => Some(12)
    case _ => None
  }

  /** The characters up to the closing quote, and what follows it. */
  function ParseUnits(s: string): (r: Option<(seq<Unit>, string)>)
    ensures r.Some? ==> |r.value.1| < |s|
    decreases |s|
  {
    if s == "" then None
    else if s[0] == '\"' then Some(([], s[1..]))
    else
      var u := ParseUnit(s);
      if u.None? then None
      else
        var t := ParseUnits(u.value.1);
        if t.None? then None else Some(([u.value.0] + t.value.0, t.value.1))
  }

  function LeadingDigits(s: string): (n: nat)
    ensures n <= |s|
  {
    if s != "" && '0' <= s[0] <= '9' then 1 + LeadingDigits(s[1..]) else 0
  }

  function Digits(s: string): nat {
    if s == "" then 0
    else
      var d := s[|s| - 1];
      Digits(s[..|s| - 1]) * 10 + if '0' <= d <= '9' then d as nat - '0' as nat else 0
  }

  /** Digits without a leading zero. */
  function ParseNat(s: string): (r: Option<(nat, string)>)
    ensures r.Some? ==> |r.value.1| < |s|
  {
    var n := if s != "" && s[0] == '0' then 1 else LeadingDigits(s);
    if n == 0 then None else Some((Digits(s[..n]), s[n..]))
  }

  /** A number, its sign already read; a point only belongs to it when a digit follows. */
  function ParseNumber(negative: bool, s: string): (r: Option<(Value, string)>)
    ensures r.Some? ==> |r.value.1| < |s|
  {
    var t := ParseNat(s);
    if t.None? then None
    else
      var rest := t.value.1;
      var n := if rest != "" && rest[0] == '.' then LeadingDigits(rest[1..]) else 0;
      if n == 0 then Some((Number(Signed(negative, t.value.0)), rest))
      else
        LeadingAreDigits(rest[1..]);
        Some((Decimal(negative, t.value.0, rest[1..][..n]), rest[1..][n..]))
  }

  function Signed(negative: bool, n: int): int {
    if negative then -n else n
  }

  lemma LeadingAreDigits(s: string)
    ensures AllDigits(s[..LeadingDigits(s)])
  {
  }

  function ParseLiteral(s: string, literal: string, v: Value): (r: Option<(Value, string)>)
    requires literal != ""
    ensures r.Some? ==> |r.value.1| < |s|
  {
    if literal <= s then Some((v, s[|literal|..])) else None
  }

  function Parse(s: string): (r: Option<(Value, string)>)
    ensures r.Some? ==> |r.value.1| < |s|
    decreases |s|, 0
  {
    if s == "" then None
    else if s[0] == '\"' then
      var t := ParseUnits(s[1..]);
      if t.None? then None else Some((Text(t.value.0), t.value.1))
    else if s[0] == '[' then
      var t := if s[1..] != "" && s[1] == ']' then Some((Nil, s[2..])) else ParseItems(s[1..]);
      if t.None? then None else Some((List(t.value.0), t.value.1))
    else if s[0] == '{' then
      var t := if s[1..] != "" && s[1] == '}' then Some((End, s[2..])) else ParseFields(s[1..]);
      if t.None? then None else Some((Object(t.value.0), t.value.1))
    else if s[0] == '-' then ParseNumber(true, s[1..])
    else if '0' <= s[0] <= '9' then ParseNumber(false, s)
    else if s[0] == 't' then ParseLiteral(s, "true", Bool(true))
    else if s[0] == 'f' then ParseLiteral(s, "false", Bool(false))
    else ParseLiteral(s, "null", Null)
  }

  /** One item and those after it. */
  function ParseItems(s: string): (r: Option<(Values, string)>)
    ensures r.Some? ==> |r.value.1| < |s|
    decreases |s|, 1
  {
    var v := Parse(s);
    if v.None? || v.value.1 == "" then None
    else if v.value.1[0] == ']' then Some((Item(v.value.0, Nil), v.value.1[1..]))
    else if v.value.1[0] != ',' then None
    else
      var t := ParseItems(v.value.1[1..]);
      if t.None? then None else Some((Item(v.value.0, t.value.0), t.value.1))
  }

  function ParseFields(s: string): (r: Option<(Fields, string)>)
    ensures r.Some? ==> |r.value.1| < |s|
    decreases |s|, 1
  {
    if s == "" || s[0] != '\"' then None
    else
      var k := ParseUnits(s[1..]);
      if k.None? || k.value.1 == "" || k.value.1[0] != ':' then None
      else
        var v := Parse(k.value.1[1..]);
        if v.None? || v.value.1 == "" then None
        else if v.value.1[0] == '}' then Some((Field(k.value.0, v.value.0, End), v.value.1[1..]))
        else if v.value.1[0] != ',' then None
        else
          var t := ParseFields(v.value.1[1..]);
          if t.None? then None else Some((Field(k.value.0, v.value.0, t.value.0), t.value.1))
  }

  // -- the round trip -----------------------------------------------------------------------------

  /** A number must not be followed by another digit, nor by a point. */
  ghost predicate Delimited(rest: string) {
    rest == "" || !('0' <= rest[0] <= '9' || rest[0] == '.')
  }

  lemma HexDigitRoundTrip(n: nat)
    requires n < 16
    ensures FromHex(HEX[n]) == Some(n)
  {
  }

  lemma HexSplit(u: Unit)
    ensures u / 4096 < 16
    ensures (u / 4096) * 4096 + (u / 256 % 16) * 256 + (u / 16 % 16) * 16 + u % 16 == u
  {
    assert u / 16 == u / 256 * 16 + u / 16 % 16 && u / 256 == u / 4096 * 16 + u / 256 % 16;
  }

  lemma HexRoundTrip(u: Unit)
    ensures ParseHex(EncodeHex(u)) == Some(u)
  {
    hide FromHex, HEX;
    HexSplit(u);
    var a, b, c, d := u / 4096, u / 256 % 16, u / 16 % 16, u % 16;
    HexDigitRoundTrip(a);
    HexDigitRoundTrip(b);
    HexDigitRoundTrip(c);
    HexDigitRoundTrip(d);
  }

  lemma UnitRoundTrip(u: Unit, rest: string)
    ensures ParseUnit(EncodeUnit(u) + rest) == Some((u, rest))
  {
    hide EncodeHex, ParseHex;
    HexRoundTrip(u);
    var s := EncodeUnit(u) + rest;
    assert s[|EncodeUnit(u)|..] == rest;
    if |EncodeUnit(u)| == 6 {
      assert s[2..6] == EncodeHex(u);
    }
  }

  lemma {:induction false} UnitsRoundTrip(t: seq<Unit>, rest: string)
    ensures ParseUnits(EncodeUnits(t) + rest) == Some((t, rest))
  {
    var s := EncodeUnits(t) + rest;
    if t == [] {
      assert s[1..] == rest;
    } else {
      UnitRoundTrip(t[0], EncodeUnits(t[1..]) + rest);
      assert s == EncodeUnit(t[0]) + (EncodeUnits(t[1..]) + rest);
      UnitsRoundTrip(t[1..], rest);
      assert [t[0]] + t[1..] == t;
    }
  }

  lemma {:induction false} DigitsRoundTrip(n: nat)
    ensures Digits(EncodeNat(n)) == n
  {
    if n >= 10 {
      DigitsRoundTrip(n / 10);
      var s := EncodeNat(n);
      assert s[..|s| - 1] == EncodeNat(n / 10);
    }
  }

  lemma {:induction false} AllLeadingDigits(s: string, rest: string)
    requires (rest == "" || !('0' <= rest[0] <= '9')) && AllDigits(s)
    ensures LeadingDigits(s + rest) == |s|
  {
    if s == "" {
      assert s + rest == rest;
    } else {
      AllLeadingDigits(s[1..], rest);
      assert (s + rest)[1..] == s[1..] + rest;
    }
  }

  lemma NatRoundTrip(n: nat, rest: string)
    requires rest == "" || !('0' <= rest[0] <= '9')
    ensures ParseNat(EncodeNat(n) + rest) == Some((n, rest))
  {
    var d := EncodeNat(n);
    AllLeadingDigits(d, rest);
    DigitsRoundTrip(n);
    assert (d + rest)[..|d|] == d && (d + rest)[|d|..] == rest;
  }

  lemma SignedNumber(negative: bool, s: string, rest: string)
    requires s != "" && '0' <= s[0] <= '9'
    ensures Parse((if negative then "-" else "") + s + rest) == ParseNumber(negative, s + rest)
  {
    hide ParseNumber, ParseItems, ParseFields, ParseUnits;
    var t := (if negative then "-" else "") + s + rest;
    if negative {
      assert t[0] == '-' && t[1..] == s + rest;
    } else {
      assert t == s + rest && t[0] == s[0];
    }
  }

  lemma NumberRoundTrip(n: int, rest: string)
    requires Delimited(rest)
    ensures Parse(EncodeNumber(n) + rest) == Some((Number(n), rest))
  {
    hide EncodeNat, ParseNat, Parse;
    var digits := EncodeNat(if n < 0 then -n else n);
    assert AllDigits(digits);
    NatRoundTrip(if n < 0 then -n else n, rest);
    SignedNumber(n < 0, digits, rest);
    assert EncodeNumber(n) + rest == (if n < 0 then "-" else "") + digits + rest;
  }

  lemma DecimalRoundTrip(negative: bool, whole: nat, fraction: Fraction, rest: string)
    requires Delimited(rest)
    ensures Parse(EncodeDecimal(negative, whole, fraction) + rest) == Some((Decimal(negative, whole, fraction), rest))
  {
    hide EncodeNat, ParseNat, Parse, LeadingDigits;
    var digits, after := EncodeNat(whole), "." + fraction + rest;
    assert AllDigits(digits);
    NatRoundTrip(whole, after);
    AllLeadingDigits(fraction, rest);
    SignedNumber(negative, digits, after);
    assert EncodeDecimal(negative, whole, fraction) + rest == (if negative then "-" else "") + digits + after;
    assert after[1..] == fraction + rest && (fraction + rest)[..|fraction|] == fraction
           && (fraction + rest)[|fraction|..] == rest;
  }

  lemma FirstOfItems(items: Values)
    ensures EncodeItems(items) != "" && (EncodeItems(items)[0] == ']' <==> items.Nil?)
  {
    if items.Item? && items.head.Number? {
      var n := items.head.n;
      assert AllDigits(EncodeNat(if n < 0 then -n else n));
    }
    if items.Item? && items.head.Decimal? {
      assert AllDigits(EncodeNat(items.head.whole));
    }
  }

  lemma FirstOfFields(fields: Fields)
    ensures EncodeFields(fields) != "" && (EncodeFields(fields)[0] == '}' <==> fields.End?)
  {
  }

  /** Whatever is written is read back exactly, and nothing of what follows is consumed. */
  lemma {:induction false} RoundTrip(v: Value, rest: string)
    requires Delimited(rest)
    ensures Parse(Encode(v) + rest) == Some((v, rest))
    decreases v, 0
  {
    hide EncodeNumber, EncodeDecimal, EncodeItems, EncodeFields, EncodeUnits, ParseItems, ParseFields, ParseUnits,
      ParseNumber, Delimited;
    var s := Encode(v) + rest;
    match v
    case Null => assert s[4..] == rest;
    case Bool(b) => assert s[if b then 4 else 5..] == rest;
    case Number(n) => NumberRoundTrip(n, rest);
    case Decimal(negative, whole, fraction) => DecimalRoundTrip(negative, whole, fraction, rest);
    case Text(t) =>
      UnitsRoundTrip(t, rest);
      assert s[1..] == EncodeUnits(t) + rest;
    case List(items) =>
      FirstOfItems(items);
      assert s[1..] == EncodeItems(items) + rest;
      if items.Nil? {
        NothingInside();
        assert s[2..] == rest;
      } else {
        ItemsRoundTrip(items, rest);
      }
    case Object(fields) =>
      FirstOfFields(fields);
      assert s[1..] == EncodeFields(fields) + rest;
      if fields.End? {
        NothingInside();
        assert s[2..] == rest;
      } else {
        FieldsRoundTrip(fields, rest);
      }
  }

  lemma NothingInside()
    ensures EncodeItems(Nil) == "]" && EncodeFields(End) == "}"
  {
  }

  lemma {:induction false} ItemsRoundTrip(items: Values, rest: string)
    requires items.Item?
    ensures ParseItems(EncodeItems(items) + rest) == Some((items, rest))
    decreases items, 1
  {
    hide Parse, Encode, Delimited;
    var after := (Separator(items.tail.Nil?) + EncodeItems(items.tail)) + rest;
    assert EncodeItems(items) + rest == Encode(items.head) + after;
    AfterValue(Separator(items.tail.Nil?) + EncodeItems(items.tail), rest);
    RoundTrip(items.head, after);
    if items.tail.Item? {
      ItemsRoundTrip(items.tail, rest);
      assert after[0] == ',' && after[1..] == EncodeItems(items.tail) + rest;
    } else {
      assert after[0] == ']' && after[1..] == rest;
    }
  }

  lemma AfterValue(s: string, rest: string)
    requires s != "" && s[0] in {',', ']', '}'}
    ensures Delimited(s + rest) && s + rest != ""
  {
  }

  lemma {:induction false} FieldsRoundTrip(fields: Fields, rest: string)
    requires fields.Field?
    ensures ParseFields(EncodeFields(fields) + rest) == Some((fields, rest))
    decreases fields, 1
  {
    hide Parse, Encode, Delimited, ParseUnits, EncodeUnits;
    var tail := Separator(fields.rest.End?) + EncodeFields(fields.rest);
    var after := tail + rest;
    var value := Encode(fields.value) + after;
    var s := EncodeFields(fields) + rest;
    assert s == "\"" + (EncodeUnits(fields.key) + (":" + value)) by {
      assert EncodeFields(fields) == "\"" + (EncodeUnits(fields.key) + (":" + (Encode(fields.value) + tail)));
    }
    assert s[1..] == EncodeUnits(fields.key) + (":" + value);
    UnitsRoundTrip(fields.key, ":" + value);
    assert (":" + value)[1..] == value;
    AfterValue(tail, rest);
    RoundTrip(fields.value, after);
    if fields.rest.Field? {
      FieldsRoundTrip(fields.rest, rest);
      assert after[0] == ',' && after[1..] == EncodeFields(fields.rest) + rest;
    } else {
      assert after[0] == '}' && after[1..] == rest;
    }
  }

  // -- no raw control character ---------------------------------------------------------------------

  /** Printable ASCII: one byte for each character, and never a line feed. */
  ghost predicate Printable(s: string) {
    forall c <- s :: ' ' <= c <= '~'
  }

  lemma HexPrintable(u: Unit)
    ensures Printable(EncodeHex(u))
  {
    assert forall i :: 0 <= i < 16 ==> ' ' <= HEX[i] <= '~';
    hide HEX;
  }

  lemma UnitPrintable(u: Unit)
    ensures Printable(EncodeUnit(u))
  {
    hide EncodeHex;
    HexPrintable(u);
  }

  lemma {:induction false} UnitsPrintable(t: seq<Unit>)
    ensures Printable(EncodeUnits(t))
  {
    if t != [] {
      UnitPrintable(t[0]);
      UnitsPrintable(t[1..]);
    }
  }

  lemma {:induction false} EncodePrintable(v: Value)
    ensures Printable(Encode(v))
    decreases v, 0
  {
    match v
    case Null =>
    case Bool(_) =>
    case Number(_) =>
    case Decimal(_, _, _) =>
    case Text(t) => UnitsPrintable(t);
    case List(items) => ItemsPrintable(items);
    case Object(fields) => FieldsPrintable(fields);
  }

  lemma {:induction false} ItemsPrintable(items: Values)
    ensures Printable(EncodeItems(items))
    decreases items, 1
  {
    if items.Item? {
      EncodePrintable(items.head);
      ItemsPrintable(items.tail);
    }
  }

  lemma {:induction false} FieldsPrintable(fields: Fields)
    ensures Printable(EncodeFields(fields))
    decreases fields, 1
  {
    hide Encode, EncodeUnits;
    if fields.Field? {
      UnitsPrintable(fields.key);
      EncodePrintable(fields.value);
      FieldsPrintable(fields.rest);
      var tail := Separator(fields.rest.End?) + EncodeFields(fields.rest);
      assert Printable(Encode(fields.value) + tail);
    }
  }
}
