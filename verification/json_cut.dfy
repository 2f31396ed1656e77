/** What a parser makes of a record that was cut and glued to whatever was written after it. */
module JsonCut {
  import opened Outcomes
  import opened Json

  predicate Letter(c: char) {
    'a' <= c <= 'z' || 'A' <= c <= 'Z' || c == '_'
  }

  /** Nothing an enclosing object or list could go on from: the end, a brace, a point, or a letter. */
  predicate Stops(rest: string) {
    rest == "" || rest[0] == '{' || rest[0] == '.' || Letter(rest[0])
  }

  predicate Stopped<T>(r: Option<(T, string)>) {
    r.None? || Stops(r.value.1)
  }

  /** A text that begins like an object and cannot be taken for the rest of a value or of a string. */
  ghost predicate Foreign(t: string) {
    t == "" || (t[0] == '{' && Stopped(Parse(t)) && Stopped(ParseUnits(t)))
  }

  /** An object whose first key begins with a letter. */
  ghost predicate Named(v: Value) {
    v.Object? && v.fields.Field? && v.fields.key != [] && v.fields.key[0] < 127 && Letter(v.fields.key[0] as char)
  }

  lemma NamedBegins(v: Value)
    requires Named(v)
    ensures var s := Encode(v); |s| >= 3 && s[0] == '{' && s[1] == '\"' && Letter(s[2])
  {
    var k := v.fields.key;
    assert EncodeUnits(k) == EncodeUnit(k[0]) + EncodeUnits(k[1..]);
    assert EncodeUnit(k[0]) == [k[0] as char];
    var units := EncodeUnits(k);
    var tail := ":" + (Encode(v.fields.value) + (Separator(v.fields.rest.End?) + EncodeFields(v.fields.rest)));
    assert Encode(v) == "{" + ("\"" + (units + tail)) && |units| > 0;
    hide Encode;
  }

  // -- a string that was cut ---------------------------------------------------------------------

  lemma UnitCut(u: Unit, n: nat, t: string)
    requires 0 < n < |EncodeUnit(u)| && Foreign(t)
    ensures ParseUnit(EncodeUnit(u)[..n] + t).None?
  {
    var s := EncodeUnit(u)[..n] + t;
    assert s[0] == '\\';
    hide Parse, ParseUnits;
    if n >= 2 {
      assert s[1] == 'u';
      if |s| >= 6 {
        assert s[n] == '{' && n < 6;
        assert s[2..6][n - 2] == '{';
        BraceIsNoHex(s[2..6], n - 2);
      }
    }
  }

  lemma BraceIsNoHex(s: string, k: nat)
    requires |s| == 4 && k < 4 && s[k] == '{'
    ensures ParseHex(s).None?
  {
    assert FromHex('{').None?;
  }

  lemma {:induction false} UnitsCut(u: seq<Unit>, n: nat, t: string)
    requires n < |EncodeUnits(u)| && Foreign(t)
    ensures Stopped(ParseUnits(EncodeUnits(u)[..n] + t))
    decreases |u|
  {
    hide Parse, EncodeUnit, ParseUnit, Stops;
    var s := EncodeUnits(u)[..n] + t;
    if n == 0 {
      assert s == t;
    } else {
      assert u != [];
      var first := EncodeUnit(u[0]);
      if n < |first| {
        assert EncodeUnits(u)[..n] == first[..n];
        UnitCut(u[0], n, t);
        assert s[0] == first[0];
      } else {
        var rest := EncodeUnits(u[1..])[..n - |first|] + t;
        assert s == first + rest;
        UnitRoundTrip(u[0], rest);
        UnitsCut(u[1..], n - |first|, t);
        assert s[0] == first[0];
      }
    }
  }

  /** A text behind its first character, cut somewhere after it. */
  lemma BehindFirst(c: char, s: string, m: nat, t: string)
    requires 0 < m <= |s| + 1
    ensures var rest := ([c] + s)[..m] + t; rest[0] == c && rest[1..] == s[..m - 1] + t
  {
    assert ([c] + s)[..m] == [c] + s[..m - 1];
    assert [c] + s[..m - 1] + t == [c] + (s[..m - 1] + t);
  }

  // -- a value that was cut ------------------------------------------------------------------------

  lemma NatCut(v: nat, n: nat, t: string)
    requires n < |EncodeNat(v)| && Foreign(t)
    ensures var r := ParseNat(EncodeNat(v)[..n] + t); r.None? || r.value.1 == t
    ensures n == 0 ==> ParseNat(EncodeNat(v)[..n] + t).None?
  {
    hide Parse, ParseUnits;
    var d := EncodeNat(v);
    var s := d[..n] + t;
    if n == 0 {
      assert s == t;
    } else {
      assert s[0] == d[0] && AllDigits(d) && v > 0;
      AllLeadingDigits(d[..n], t);
      assert s[n..] == t;
    }
  }

  /** The digits of a number with a fraction, cut at the point or after it. */
  lemma FractionCut(negative: bool, whole: nat, fraction: Fraction, m: nat, t: string)
    requires m <= |fraction| && Foreign(t)
    ensures Stopped(ParseNumber(negative, EncodeNat(whole) + ("." + fraction)[..m] + t))
  {
    hide Parse, ParseUnits, EncodeNat, ParseNat;
    var after := ("." + fraction)[..m] + t;
    assert EncodeNat(whole) + ("." + fraction)[..m] + t == EncodeNat(whole) + after;
    NatRoundTrip(whole, after);
    if m == 0 {
      assert after == t;
    } else {
      var digits := fraction[..m - 1];
      AllLeadingDigits(digits, t);
      BehindFirst('.', fraction, m, t);
      assert (digits + t)[|digits|..] == t;
    }
  }

  /** A numeral cut somewhere, its sign apart. */
  lemma NumeralCut(negative: bool, body: string, n: nat, t: string)
    requires body != "" && '0' <= body[0] <= '9' && Foreign(t)
    requires 0 < n < |(if negative then "-" else "") + body|
    requires Stopped(ParseNumber(negative, body[..if negative then n - 1 else n] + t))
    ensures Stopped(Parse(((if negative then "-" else "") + body)[..n] + t))
  {
    hide ParseItems, ParseFields, ParseUnits, ParseNumber, Foreign, Stops;
    var k := if negative then n - 1 else n;
    var sign := if negative then "-" else "";
    assert (sign + body)[..n] + t == sign + body[..k] + t;
    if k == 0 {
      assert "-" + body[..0] + t == "-" + t && ("-" + t)[1..] == t && body[..0] + t == t;
    } else {
      SignedNumber(negative, body[..k], t);
    }
  }

  lemma NumberCut(v: int, n: nat, t: string)
    requires 0 < n < |EncodeNumber(v)| && Foreign(t)
    ensures Stopped(Parse(EncodeNumber(v)[..n] + t))
  {
    hide Parse, ParseUnits, ParseNat, EncodeNat;
    var d := EncodeNat(if v < 0 then -v else v);
    assert AllDigits(d) && EncodeNumber(v) == (if v < 0 then "-" else "") + d;
    NatCut(if v < 0 then -v else v, if v < 0 then n - 1 else n, t);
    NumeralCut(v < 0, d, n, t);
  }

  lemma DecimalCut(negative: bool, whole: nat, fraction: Fraction, n: nat, t: string)
    requires 0 < n < |EncodeDecimal(negative, whole, fraction)| && Foreign(t)
    ensures Stopped(Parse(EncodeDecimal(negative, whole, fraction)[..n] + t))
  {
    hide Parse, ParseUnits, ParseNat, EncodeNat;
    var d := EncodeNat(whole);
    var body, k := d + ("." + fraction), if negative then n - 1 else n;
    assert AllDigits(d) && EncodeDecimal(negative, whole, fraction) == (if negative then "-" else "") + body;
    if k < |d| {
      assert body[..k] == d[..k];
      NatCut(whole, k, t);
    } else {
      assert body[..k] == d + ("." + fraction)[..k - |d|];
      FractionCut(negative, whole, fraction, k - |d|, t);
    }
    NumeralCut(negative, body, n, t);
  }

  lemma LiteralCut(v: Value, n: nat, t: string)
    requires v.Null? || v.Bool?
    requires 0 < n < |Encode(v)| && Foreign(t)
    ensures Parse(Encode(v)[..n] + t).None?
  {
    hide ParseUnits, ParseItems, ParseFields, ParseNumber;
    var s := Encode(v)[..n] + t;
    assert s[0] == Encode(v)[0];
    assert t == "" ==> |s| == n;
    assert t != "" ==> s[n] == '{' && Encode(v)[n] != '{';
  }

  /** A cut value followed by a foreign text is not parsed, or stops where nothing can go on; a cut object or
      list is never parsed. */
  lemma {:induction false} ValueCut(v: Value, n: nat, t: string)
    requires n < |Encode(v)| && Foreign(t)
    ensures Stopped(Parse(Encode(v)[..n] + t))
    ensures (v.Object? || v.List?) && n > 0 ==> Parse(Encode(v)[..n] + t).None?
    decreases v, 0
  {
    hide ParseItems, ParseFields, ParseUnits, ParseNumber, EncodeItems, EncodeFields, EncodeUnits, EncodeNumber,
      EncodeDecimal;
    var s := Encode(v)[..n] + t;
    if n == 0 {
      assert s == t;
    } else {
      match v
      case Null => LiteralCut(v, n, t);
      case Bool(_) => LiteralCut(v, n, t);
      case Number(k) => NumberCut(k, n, t);
      case Decimal(negative, whole, fraction) => DecimalCut(negative, whole, fraction, n, t);
      case Text(u) =>
        UnitsCut(u, n - 1, t);
        BehindFirst('\"', EncodeUnits(u), n, t);
      case List(items) =>
        ItemsCut(items, n - 1, t);
        BehindFirst('[', EncodeItems(items), n, t);
      case Object(fields) =>
        FieldsCut(fields, n - 1, t);
        BehindFirst('{', EncodeFields(fields), n, t);
    }
  }

  lemma {:induction false} ItemsCut(items: Values, n: nat, t: string)
    requires n < |EncodeItems(items)| && Foreign(t)
    ensures ParseItems(EncodeItems(items)[..n] + t).None?
    ensures EncodeItems(items)[..n] + t == "" || (EncodeItems(items)[..n] + t)[0] != ']'
    decreases items, 1
  {
    hide Encode, ParseFields, ParseUnits;
    var s := EncodeItems(items)[..n] + t;
    FirstOfItems(items);
    if items.Nil? {
      assert s == t;
    } else {
      var head, after := Encode(items.head), Separator(items.tail.Nil?) + EncodeItems(items.tail);
      assert EncodeItems(items) == head + after;
      if n < |head| {
        assert s == head[..n] + t;
        ValueCut(items.head, n, t);
      } else {
        var rest := after[..n - |head|] + t;
        assert s == head + rest;
        FirstOfItems(Item(items.head, Nil));
        assert EncodeItems(Item(items.head, Nil)) == head + "]";
        assert s[0] == head[0];
        ItemsCutLater(items, n, t, rest);
      }
    }
  }

  lemma {:induction false} ItemsCutLater(items: Values, n: nat, t: string, rest: string)
    requires items.Item? && |Encode(items.head)| <= n < |EncodeItems(items)| && Foreign(t)
    requires rest == (Separator(items.tail.Nil?) + EncodeItems(items.tail))[..n - |Encode(items.head)|] + t
    ensures ParseItems(Encode(items.head) + rest).None?
    decreases items, 0
  {
    hide Encode, ParseFields, ParseUnits, Parse;
    var m := n - |Encode(items.head)|;
    var after := Separator(items.tail.Nil?) + EncodeItems(items.tail);
    if m == 0 {
      assert rest == t;
    } else {
      assert items.tail.Item?;
      BehindFirst(',', EncodeItems(items.tail), m, t);
      ItemsCut(items.tail, m - 1, t);
    }
    RoundTrip(items.head, rest);
  }

  lemma StopsAreNoColon<T>(r: Option<(T, string)>)
    ensures Stopped(r) && r.Some? && r.value.1 != "" ==> r.value.1[0] != ':'
  {
  }

  lemma {:induction false} FieldsCut(fields: Fields, n: nat, t: string)
    requires n < |EncodeFields(fields)| && Foreign(t)
    ensures ParseFields(EncodeFields(fields)[..n] + t).None?
    ensures EncodeFields(fields)[..n] + t == "" || (EncodeFields(fields)[..n] + t)[0] != '}'
    decreases fields, 1
  {
    hide Encode, ParseItems, ParseUnits, Parse, EncodeUnits, Stops;
    var s := EncodeFields(fields)[..n] + t;
    FirstOfFields(fields);
    if n == 0 {
      assert s == t;
    } else {
      assert fields.Field? && EncodeFields(fields)[0] == '\"' && s[0] == '\"';
      var key := EncodeUnits(fields.key);
      var value := ":" + (Encode(fields.value) + (Separator(fields.rest.End?) + EncodeFields(fields.rest)));
      assert EncodeFields(fields) == "\"" + (key + value);
      if n - 1 < |key| {
        assert s[1..] == key[..n - 1] + t;
        UnitsCut(fields.key, n - 1, t);
        StopsAreNoColon(ParseUnits(s[1..]));
      } else {
        var rest := value[..n - 1 - |key|] + t;
        assert s[1..] == key + rest;
        UnitsRoundTrip(fields.key, rest);
        if n - 1 == |key| {
          assert rest == t;
        } else {
          BehindFirst(':', value[1..], n - 1 - |key|, t);
          FieldsCutLater(fields, n - 2 - |key|, t);
        }
      }
    }
  }

  /** What ParseFields makes of a field whose value was cut, or followed by less than the rest. */
  ghost predicate FieldEnds(after: string) {
    var v := Parse(after);
    v.None? || v.value.1 == "" || (v.value.1[0] != '}' && v.value.1[0] != ',')
    || (v.value.1[0] == ',' && ParseFields(v.value.1[1..]).None?)
  }

  lemma {:induction false} FieldsCutLater(fields: Fields, n: nat, t: string)
    requires fields.Field? && Foreign(t)
    requires n < |Encode(fields.value) + (Separator(fields.rest.End?) + EncodeFields(fields.rest))|
    ensures FieldEnds((Encode(fields.value) + (Separator(fields.rest.End?) + EncodeFields(fields.rest)))[..n] + t)
    decreases fields, 0
  {
    hide Encode, ParseItems, ParseUnits, Parse, ParseFields;
    var value, after := Encode(fields.value), Separator(fields.rest.End?) + EncodeFields(fields.rest);
    var s := (value + after)[..n] + t;
    if n < |value| {
      assert s == value[..n] + t;
      ValueCut(fields.value, n, t);
    } else {
      var m := n - |value|;
      var rest := after[..m] + t;
      assert s == value + rest;
      if m == 0 {
        assert rest == t;
      } else {
        assert fields.rest.Field?;
        BehindFirst(',', EncodeFields(fields.rest), m, t);
        FieldsCut(fields.rest, m - 1, t);
      }
      RoundTrip(fields.value, rest);
    }
  }

  // -- records glued together -------------------------------------------------------------------------

  /** Some first part of a named object's text. */
  ghost predicate Piece(s: string) {
    exists v: Value :: Named(v) && s <= Encode(v)
  }

  ghost function Glue(pieces: seq<string>): string {
    if pieces == [] then "" else pieces[0] + Glue(pieces[1..])
  }

  lemma PieceIsForeign(s: string, t: string)
    requires Piece(s) && s != "" && Foreign(t)
    ensures Foreign(s + t)
    ensures Parse(s + t).None? || (Parse(s + t).value.1 == t)
  {
    var v: Value :| Named(v) && s <= Encode(v);
    NamedBegins(v);
    var n := |s|;
    assert s == Encode(v)[..n];
    assert (s + t)[0] == '{';
    if n < |Encode(v)| {
      ValueCut(v, n, t);
    } else {
      assert s == Encode(v);
      assert Delimited(t);
      RoundTrip(v, t);
    }
    hide Parse, Encode;
    PieceInString(s, v, t);
  }

  /** Inside a string the piece goes on to the quote that opens its first key. */
  lemma PieceInString(s: string, v: Value, t: string)
    requires Named(v) && s <= Encode(v) && s != "" && Foreign(t)
    ensures Stopped(ParseUnits(s + t))
  {
    NamedBegins(v);
    hide Encode, Parse;
    var n := |s|;
    assert (s + t)[0] == '{';
    var u := ParseUnit(s + t);
    assert u == Some(('{' as nat, (s + t)[1..]));
    if n == 1 {
      assert (s + t)[1..] == t;
    } else {
      assert (s + t)[1] == '\"';
      assert ParseUnits((s + t)[1..]) == Some(([], (s + t)[2..]));
      if n == 2 {
        assert (s + t)[2..] == t;
      } else {
        assert (s + t)[2] == Encode(v)[2];
      }
    }
  }

  lemma {:induction false} GlueIsForeign(pieces: seq<string>)
    requires forall p <- pieces :: Piece(p) && p != ""
    ensures Foreign(Glue(pieces))
  {
    if pieces != [] {
      GlueIsForeign(pieces[1..]);
      PieceIsForeign(pieces[0], Glue(pieces[1..]));
    }
  }

  /** Two or more pieces glued together are never read as one record. */
  lemma GluedIsNoRecord(pieces: seq<string>)
    requires |pieces| >= 2 && forall p <- pieces :: Piece(p) && p != ""
    ensures Parse(Glue(pieces)).None? || Parse(Glue(pieces)).value.1 != ""
  {
    hide Parse, Piece, Foreign;
    var rest := pieces[1..];
    assert pieces[0] in pieces && pieces[1] in pieces && rest[0] == pieces[1];
    GlueIsForeign(rest);
    PieceIsForeign(pieces[0], Glue(rest));
    assert Glue(rest) == rest[0] + Glue(rest[1..]) && Glue(pieces) == pieces[0] + Glue(rest);
  }
}
