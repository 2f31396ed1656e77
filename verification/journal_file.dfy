/** The append-only journal as a file: one JSON record to a line, opened by one writer, cut anywhere by a kill. */
module JournalFile {
  import opened Outcomes
  import opened Json
  import opened JsonCut

  datatype Code = Busy | NotLocked | Torn | Invalid | WriteFailed

  const AT: seq<Unit> := ['a' as nat, 't' as nat]
  const KIND: seq<Unit> := ['k' as nat, 'i' as nat, 'n' as nat, 'd' as nat]
  const SEQ: seq<Unit> := ['s' as nat, 'e' as nat, 'q' as nat]

  // -- records ----------------------------------------------------------------------------------

  function Lookup(f: Fields, key: seq<Unit>): Option<Value> {
    match f
    case End => None
    case Field(k, v, rest) => if k == key then Some(v) else Lookup(rest, key)
  }

  predicate Less(a: seq<Unit>, b: seq<Unit>) {
    if a == [] then b != []
    else if b == [] then false
    else a[0] < b[0] || (a[0] == b[0] && Less(a[1..], b[1..]))
  }

  /** Keys are written in order. */
  function Insert(f: Fields, key: seq<Unit>, v: Value): Fields {
    match f
    case End => Field(key, v, End)
    case Field(k, x, rest) => if Less(key, k) then Field(key, v, f) else Field(k, x, Insert(rest, key, v))
  }

  /** The time of a record, a number with a fraction. */
  type Stamp = v: Value | v.Decimal? witness Decimal(false, 0, "0")

  function Compose(n: nat, at: Stamp, kind: seq<Unit>, fields: Fields): Fields {
    Insert(Insert(Insert(fields, KIND, Text(kind)), AT, at), SEQ, Number(n))
  }

  /** A record with its number in the journal and a kind. */
  predicate Numbered(f: Fields, n: nat) {
    && Lookup(f, SEQ) == Some(Number(n))
    && Lookup(f, KIND).Some? && Lookup(f, KIND).value.Text?
  }

  lemma {:induction false} LookupInsert(f: Fields, key: seq<Unit>, v: Value, other: seq<Unit>)
    requires Lookup(f, key).None?
    ensures Lookup(Insert(f, key, v), other) == if other == key then Some(v) else Lookup(f, other)
  {
    if f.Field? && !Less(key, f.key) {
      LookupInsert(f.rest, key, v, other);
    }
  }

  lemma ComposedIsNumbered(n: nat, at: Stamp, kind: seq<Unit>, fields: Fields)
    requires Lookup(fields, SEQ).None? && Lookup(fields, AT).None? && Lookup(fields, KIND).None?
    ensures Numbered(Compose(n, at, kind, fields), n)
    ensures forall key | key !in {SEQ, AT, KIND} :: Lookup(Compose(n, at, kind, fields), key) == Lookup(fields, key)
  {
    var one := Insert(fields, KIND, Text(kind));
    var two := Insert(one, AT, at);
    forall key: seq<Unit>
      ensures Lookup(one, key) == if key == KIND then Some(Text(kind)) else Lookup(fields, key)
      ensures Lookup(two, key) == if key == AT then Some(at) else Lookup(one, key)
      ensures Lookup(Compose(n, at, kind, fields), key) == if key == SEQ then Some(Number(n)) else Lookup(two, key)
    {
      LookupInsert(fields, KIND, Text(kind), key);
      LookupInsert(fields, KIND, Text(kind), AT);
      LookupInsert(fields, KIND, Text(kind), SEQ);
      LookupInsert(one, AT, at, key);
      LookupInsert(one, AT, at, SEQ);
      LookupInsert(two, SEQ, Number(n), key);
    }
  }

  /** One key comes before another: it is a first part of it, or smaller where they first differ. */
  ghost predicate Before(a: seq<Unit>, b: seq<Unit>) {
    exists n: nat :: n <= |a| && n <= |b| && a[..n] == b[..n] && DiffersAt(a, b, n)
  }

  ghost predicate DiffersAt(a: seq<Unit>, b: seq<Unit>, n: nat) {
    n <= |a| && n < |b| && (n == |a| || a[n] < b[n])
  }

  lemma {:induction false} LessIsBefore(a: seq<Unit>, b: seq<Unit>)
    ensures Less(a, b) <==> Before(a, b)
  {
    if a != [] && b != [] && a[0] == b[0] {
      LessIsBefore(a[1..], b[1..]);
      if n: nat :| n <= |a[1..]| && n <= |b[1..]| && a[1..][..n] == b[1..][..n] && DiffersAt(a[1..], b[1..], n) {
        assert a[..n + 1] == [a[0]] + a[1..][..n] && b[..n + 1] == [b[0]] + b[1..][..n];
        assert DiffersAt(a, b, n + 1);
      }
      if n: nat :| n <= |a| && n <= |b| && a[..n] == b[..n] && DiffersAt(a, b, n) {
        assert n > 0;
        assert a[1..][..n - 1] == a[..n][1..] && b[1..][..n - 1] == b[..n][1..];
        assert DiffersAt(a[1..], b[1..], n - 1);
      }
    } else if a == [] && b != [] {
      assert DiffersAt(a, b, 0);
    } else if a != [] && b != [] {
      if a[0] < b[0] { assert a[..0] == b[..0] && DiffersAt(a, b, 0); }
      assert forall n: nat :: 0 < n <= |a| && n <= |b| ==> a[..n][0] == a[0] && b[..n][0] == b[0];
    }
  }

  /** Every key comes before the next. */
  ghost predicate InOrder(f: Fields) {
    f.Field? ==> InOrder(f.rest) && (f.rest.Field? ==> Before(f.key, f.rest.key))
  }

  /** A new key is put where it belongs. */
  lemma {:induction false} InsertKeepsOrder(f: Fields, key: seq<Unit>, v: Value)
    requires InOrder(f) && Lookup(f, key).None?
    ensures InOrder(Insert(f, key, v))
    ensures Insert(f, key, v).Field? && (Insert(f, key, v).key == key || (f.Field? && Insert(f, key, v).key == f.key))
  {
    if f.Field? {
      LessIsBefore(key, f.key);
      if !Less(key, f.key) {
        LessIsTotal(key, f.key);
        LessIsBefore(f.key, key);
        InsertKeepsOrder(f.rest, key, v);
      }
    }
  }

  lemma {:induction false} LessIsTotal(a: seq<Unit>, b: seq<Unit>)
    requires a != b && !Less(a, b)
    ensures Less(b, a)
  {
    if a != [] && b != [] && a[0] == b[0] {
      assert a == [a[0]] + a[1..] && b == [b[0]] + b[1..];
      LessIsTotal(a[1..], b[1..]);
    }
  }

  /** A record of fields in order is written with its keys in order. */
  lemma ComposedInOrder(n: nat, at: Stamp, kind: seq<Unit>, fields: Fields)
    requires InOrder(fields)
    requires Lookup(fields, SEQ).None? && Lookup(fields, AT).None? && Lookup(fields, KIND).None?
    ensures InOrder(Compose(n, at, kind, fields))
  {
    var one := Insert(fields, KIND, Text(kind));
    var two := Insert(one, AT, at);
    LookupInsert(fields, KIND, Text(kind), AT);
    LookupInsert(fields, KIND, Text(kind), SEQ);
    LookupInsert(one, AT, at, SEQ);
    InsertKeepsOrder(fields, KIND, Text(kind));
    InsertKeepsOrder(one, AT, at);
    InsertKeepsOrder(two, SEQ, Number(n));
  }

  // -- the file -----------------------------------------------------------------------------------

  function Body(r: Fields): string {
    Encode(Object(r))
  }

  function Line(r: Fields): string {
    Body(r) + "\n"
  }

  function Lines(h: seq<Fields>): string {
    if h == [] then "" else Line(h[0]) + Lines(h[1..])
  }

  /** The pieces between line feeds; always at least one. */
  function Split(s: string): (pieces: seq<string>)
    ensures pieces != []
  {
    if s == "" then [""]
    else
      var rest := Split(s[1..]);
      if s[0] == '\n' then [""] + rest else [[s[0]] + rest[0]] + rest[1..]
  }

  datatype Loaded = Loaded(events: seq<Fields>) | Unreadable(code: Code)

  /** One line as a record with the given number. */
  function LoadLine(line: string, n: nat): Outcome<Code> {
    var v := Parse(line);
    if v.None? || v.value.1 != "" then Refused(Torn)
    else if v.value.0.Object? && Numbered(v.value.0.fields, n) then Pass
    else Refused(Invalid)
  }

  function RecordOf(line: string, n: nat): Fields
    requires LoadLine(line, n).Pass?
  {
    Parse(line).value.0.fields
  }

  function LoadLines(lines: seq<string>, n: nat): Loaded {
    if lines == [] then Loaded([])
    else
      var first := LoadLine(lines[0], n);
      if first.Refused? then Unreadable(first.code)
      else if first.Killed? then Unreadable(Torn)
      else
        var rest := LoadLines(lines[1..], n + 1);
        if rest.Loaded? then Loaded([RecordOf(lines[0], n)] + rest.events) else rest
  }

  /** What opening the file reads: a file that does not end in a line feed is torn. */
  function Load(raw: string): Loaded {
    var lines := Split(raw);
    if lines[|lines| - 1] != "" then Unreadable(Torn) else LoadLines(lines[..|lines| - 1], 1)
  }

  /** Records numbered one by one from n. */
  ghost predicate Consecutive(h: seq<Fields>, n: nat) {
    forall i :: 0 <= i < |h| ==> Numbered(h[i], n + i)
  }

  /** This line is, whole, the text of this record, which carries this number and a kind. */
  ghost predicate Holds(line: string, r: Fields, n: nat) {
    && Parse(line) == Some((Object(r), ""))
    && Lookup(r, SEQ) == Some(Number(n)) && exists kind: seq<Unit> :: Lookup(r, KIND) == Some(Text(kind))
  }

  lemma HoldsIs(line: string, n: nat)
    ensures LoadLine(line, n).Pass? <==> exists r: Fields :: Holds(line, r, n)
    ensures LoadLine(line, n).Pass? ==> Holds(line, RecordOf(line, n), n)
    ensures forall r: Fields :: Holds(line, r, n) ==> LoadLine(line, n).Pass? && r == RecordOf(line, n)
  {
    if LoadLine(line, n).Pass? {
      var r := RecordOf(line, n);
      assert Lookup(r, KIND) == Some(Text(Lookup(r, KIND).value.units));
      assert Holds(line, r, n);
    }
  }

  ghost predicate AllHold(lines: seq<string>, h: seq<Fields>, n: nat) {
    |lines| == |h| && forall i :: 0 <= i < |h| ==> Holds(lines[i], h[i], n + i)
  }

  lemma AllHoldStep(lines: seq<string>, h: seq<Fields>, n: nat)
    requires lines != [] && h != []
    ensures AllHold(lines, h, n) <==> Holds(lines[0], h[0], n) && AllHold(lines[1..], h[1..], n + 1)
  {
    hide Holds;
    if Holds(lines[0], h[0], n) && AllHold(lines[1..], h[1..], n + 1) {
      forall i | 0 <= i < |h|
        ensures Holds(lines[i], h[i], n + i)
      {
        if i > 0 { assert Holds(lines[1..][i - 1], h[1..][i - 1], n + 1 + (i - 1)); }
      }
    }
    if AllHold(lines, h, n) {
      forall i | 0 <= i < |h| - 1
        ensures Holds(lines[1..][i], h[1..][i], n + 1 + i)
      {
        assert Holds(lines[i + 1], h[i + 1], n + (i + 1));
      }
    }
  }

  lemma {:induction false} LinesLoadExactly(lines: seq<string>, h: seq<Fields>, n: nat)
    ensures LoadLines(lines, n) == Loaded(h) <==> AllHold(lines, h, n)
  {
    if lines != [] && h != [] {
      HoldsIs(lines[0], n);
      LinesLoadExactly(lines[1..], h[1..], n + 1);
      AllHoldStep(lines, h, n);
      hide Holds, LoadLine, RecordOf, AllHold;
      assert h == [h[0]] + h[1..];
    }
  }

  /** Exactly the files are read that end in a line feed, or are empty, and hold on each line, and on nothing but that
      line, the record of that number: the first, the second, and so on. */
  lemma LoadsExactly(raw: string, h: seq<Fields>)
    ensures Load(raw) == Loaded(h) <==>
              && |Split(raw)| == |h| + 1 && Split(raw)[|h|] == ""
              && forall i :: 0 <= i < |h| ==> Holds(Split(raw)[i], h[i], 1 + i)
  {
    hide Holds, LoadLines, Split;
    var lines := Split(raw);
    LinesLoadExactly(lines[..|lines| - 1], h, 1);
  }

  ghost predicate OneLine(s: string) {
    '\n' !in s
  }

  lemma BodyIsOneLine(r: Fields)
    ensures OneLine(Body(r)) && Body(r) != ""
  {
    EncodePrintable(Object(r));
  }

  lemma {:induction false} SplitOne(s: string)
    requires OneLine(s)
    ensures Split(s) == [s]
  {
    if s != "" {
      SplitOne(s[1..]);
      assert [s[0]] + s[1..] == s;
    }
  }

  lemma {:induction false} SplitFirst(s: string, rest: string)
    requires OneLine(s)
    ensures Split(s + "\n" + rest) == [s] + Split(rest)
  {
    var t := s + "\n" + rest;
    if s == "" {
      assert t[1..] == rest;
    } else {
      SplitFirst(s[1..], rest);
      assert t[1..] == s[1..] + "\n" + rest;
      assert [s[0]] + s[1..] == s;
    }
  }

  function Bodies(h: seq<Fields>): (lines: seq<string>)
    ensures |lines| == |h|
  {
    if h == [] then [] else [Body(h[0])] + Bodies(h[1..])
  }

  lemma {:induction false} SplitLines(h: seq<Fields>, tail: string)
    ensures Split(Lines(h) + tail) == Bodies(h) + Split(tail)
  {
    if h == [] {
      assert Lines(h) + tail == tail;
    } else {
      BodyIsOneLine(h[0]);
      SplitFirst(Body(h[0]), Lines(h[1..]) + tail);
      assert Lines(h) + tail == Body(h[0]) + "\n" + (Lines(h[1..]) + tail);
      SplitLines(h[1..], tail);
    }
  }

  lemma {:induction false} BodiesLoad(h: seq<Fields>, n: nat)
    requires Consecutive(h, n)
    ensures LoadLines(Bodies(h), n) == Loaded(h)
  {
    hide Parse, Encode, Numbered;
    if h != [] {
      RoundTrip(Object(h[0]), "");
      assert Body(h[0]) + "" == Body(h[0]);
      assert Numbered(h[0], n + 0);
      assert Consecutive(h[1..], n + 1) by {
        forall i | 0 <= i < |h| - 1 ensures Numbered(h[1..][i], n + 1 + i) {
          assert h[1..][i] == h[i + 1] && Numbered(h[i + 1], n + (i + 1));
        }
      }
      BodiesLoad(h[1..], n + 1);
      assert Bodies(h)[1..] == Bodies(h[1..]) && [h[0]] + h[1..] == h;
    }
  }

  lemma {:induction false} LinesAppend(h: seq<Fields>, r: Fields)
    ensures Lines(h + [r]) == Lines(h) + Line(r)
  {
    hide Line;
    if h == [] {
      assert h + [r] == [r] && Lines([r][1..]) == "";
    } else {
      LinesAppend(h[1..], r);
      assert (h + [r])[1..] == h[1..] + [r] && (h + [r])[0] == h[0];
      assert Lines(h + [r]) == Line(h[0]) + (Lines(h[1..]) + Line(r));
    }
  }

  /** A history that was written is read back exactly. */
  lemma WholeHistoryLoads(h: seq<Fields>)
    requires Consecutive(h, 1)
    ensures Load(Lines(h)) == Loaded(h)
  {
    SplitLines(h, "");
    assert Lines(h) + "" == Lines(h);
    BodiesLoad(h, 1);
    assert (Bodies(h) + [""])[..|h|] == Bodies(h);
    hide LoadLines, Bodies, Lines;
  }

  /** Cut at any byte, an append leaves exactly the old history, exactly the new one, or a file that is
      refused; the last happens exactly when some but not all of its bytes were written. */
  lemma CutAppendLoads(h: seq<Fields>, r: Fields, k: nat)
    requires Consecutive(h + [r], 1) && k <= |Line(r)|
    ensures Load(Lines(h) + Line(r)[..k])
            == if k == 0 then Loaded(h) else if k == |Line(r)| then Loaded(h + [r]) else Unreadable(Torn)
    ensures |Line(r)| > 0
  {
    if k == 0 {
      ConsecutiveFirst(h, r);
      WholeHistoryLoads(h);
      assert Lines(h) + Line(r)[..k] == Lines(h);
    } else if k == |Line(r)| {
      LinesAppend(h, r);
      WholeHistoryLoads(h + [r]);
      assert Line(r)[..k] == Line(r);
    } else {
      var cut := Line(r)[..k];
      BodyIsOneLine(r);
      assert cut == Body(r)[..k];
      SplitOne(cut);
      SplitLines(h, cut);
      var lines := Split(Lines(h) + cut);
      assert lines[|lines| - 1] == cut;
      hide LoadLines, Bodies, Lines, Body;
    }
  }

  // -- a record glued to a half-written one --------------------------------------------------------

  /** Keys begin with a letter or an underscore, as the names of keyword arguments do. */
  predicate NamedKeys(f: Fields) {
    match f
    case End => true
    case Field(k, _, rest) => k != [] && k[0] < 127 && Letter(k[0] as char) && NamedKeys(rest)
  }

  lemma {:induction false} InsertNamed(f: Fields, key: seq<Unit>, v: Value)
    requires NamedKeys(f) && key != [] && key[0] < 127 && Letter(key[0] as char)
    ensures NamedKeys(Insert(f, key, v)) && Insert(f, key, v).Field?
  {
    if f.Field? && !Less(key, f.key) {
      InsertNamed(f.rest, key, v);
    }
  }

  lemma ComposedIsNamed(n: nat, at: Stamp, kind: seq<Unit>, fields: Fields)
    requires NamedKeys(fields)
    ensures Named(Object(Compose(n, at, kind, fields)))
  {
    InsertNamed(fields, KIND, Text(kind));
    InsertNamed(Insert(fields, KIND, Text(kind)), AT, at);
    InsertNamed(Insert(Insert(fields, KIND, Text(kind)), AT, at), SEQ, Number(n));
    hide Insert;
  }

  ghost predicate Pieces(pieces: seq<string>) {
    forall p <- pieces :: Piece(p) && p != ""
  }

  /** After a good history: records cut short and glued together, then perhaps further lines. */
  ghost predicate SpoiledBy(file: string, h: seq<Fields>, pieces: seq<string>, more: string) {
    && Consecutive(h, 1) && Pieces(pieces) && pieces != []
    && (more == "" || (more[0] == '\n' && |pieces| >= 2))
    && file == Lines(h) + (Glue(pieces) + more)
  }

  ghost predicate Spoiled(file: string) {
    exists h: seq<Fields>, pieces: seq<string>, more: string :: SpoiledBy(file, h, pieces, more)
  }

  lemma {:induction false} GlueIsOneLine(pieces: seq<string>)
    requires Pieces(pieces)
    ensures OneLine(Glue(pieces)) && (pieces != [] ==> Glue(pieces) != "")
  {
    if pieces != [] {
      GlueIsOneLine(pieces[1..]);
      assert pieces[0] in pieces && Piece(pieces[0]);
      assert Glue(pieces) == pieces[0] + Glue(pieces[1..]);
      var v: Value :| Named(v) && pieces[0] <= Encode(v);
      EncodePrintable(v);
      hide Encode;
      assert forall i :: 0 <= i < |pieces[0]| ==> pieces[0][i] == Encode(v)[i] && Encode(v)[i] in Encode(v);
    }
  }

  lemma {:induction false} GlueMore(pieces: seq<string>, p: string)
    ensures Glue(pieces + [p]) == Glue(pieces) + p
  {
    if pieces == [] {
      assert [] + [p] == [p] && Glue([p]) == p + Glue([p][1..]);
    } else {
      GlueMore(pieces[1..], p);
      assert (pieces + [p])[1..] == pieces[1..] + [p];
    }
  }

  lemma {:induction false} BadLineRefuses(h: seq<Fields>, n: nat, bad: string, more: seq<string>)
    requires Consecutive(h, n) && LoadLine(bad, n + |h|) == Refused(Torn)
    ensures LoadLines(Bodies(h) + [bad] + more, n) == Unreadable(Torn)
  {
    hide Parse, Encode, Numbered;
    var lines := Bodies(h) + [bad] + more;
    if h == [] {
      assert lines[0] == bad;
    } else {
      RoundTrip(Object(h[0]), "");
      assert Body(h[0]) + "" == Body(h[0]);
      assert Numbered(h[0], n + 0);
      assert Consecutive(h[1..], n + 1) by {
        forall i | 0 <= i < |h| - 1 ensures Numbered(h[1..][i], n + 1 + i) {
          assert h[1..][i] == h[i + 1] && Numbered(h[i + 1], n + (i + 1));
        }
      }
      BadLineRefuses(h[1..], n + 1, bad, more);
      assert lines[0] == Body(h[0]) && lines[1..] == Bodies(h[1..]) + [bad] + more;
    }
  }

  /** A spoiled file is refused by every opening. */
  lemma SpoiledIsRefused(file: string)
    requires Spoiled(file)
    ensures Load(file) == Unreadable(Torn)
  {
    var h: seq<Fields>, pieces: seq<string>, more: string :| SpoiledBy(file, h, pieces, more);
    var bad := Glue(pieces);
    GlueIsOneLine(pieces);
    SplitLines(h, bad + more);
    if more == "" {
      assert bad + more == bad;
      SplitOne(bad);
      hide LoadLines, Bodies, Lines, Split;
      var lines := Split(file);
      assert lines == Bodies(h) + [bad] && lines[|lines| - 1] == bad;
    } else {
      var rest := more[1..];
      assert bad + more == bad + "\n" + rest;
      SplitFirst(bad, rest);
      GluedIsNoRecord(pieces);
      SpoiledMiddle(file, h, bad, Split(rest));
    }
  }

  lemma SpoiledMiddle(file: string, h: seq<Fields>, bad: string, rest: seq<string>)
    requires rest != [] && Consecutive(h, 1) && Split(file) == Bodies(h) + ([bad] + rest)
    requires Parse(bad).None? || Parse(bad).value.1 != ""
    ensures Load(file) == Unreadable(Torn)
  {
    hide Parse, Bodies, Split, LoadLines;
    var lines := Split(file);
    if rest[|rest| - 1] == "" {
      assert lines[..|lines| - 1] == Bodies(h) + [bad] + rest[..|rest| - 1];
      BadLineRefuses(h, 1, bad, rest[..|rest| - 1]);
    } else {
      assert lines[|lines| - 1] == rest[|rest| - 1];
    }
  }

  lemma SpoilMore(h: seq<Fields>, pieces: seq<string>, piece: string, end: string)
    requires Consecutive(h, 1) && Pieces(pieces) && pieces != [] && Piece(piece) && piece != ""
    requires end == "" || end == "\n"
    ensures Spoiled(Lines(h) + Glue(pieces) + (piece + end))
  {
    hide Piece, Consecutive, Lines, Glue;
    var more := pieces + [piece];
    GlueMore(pieces, piece);
    assert Pieces(more);
    assert Lines(h) + Glue(pieces) + (piece + end) == Lines(h) + (Glue(more) + end);
    assert SpoiledBy(Lines(h) + (Glue(more) + end), h, more, end);
  }

  lemma CutIsPiece(r: Fields, k: nat) returns (piece: string, end: string)
    requires Named(Object(r)) && 0 < k <= |Line(r)|
    ensures Piece(piece) && piece != "" && (end == "" || end == "\n")
    ensures Line(r)[..k] == piece + end
  {
    BodyIsOneLine(r);
    piece := if k <= |Body(r)| then Body(r)[..k] else Body(r);
    end := if k <= |Body(r)| then "" else "\n";
    assert Named(Object(r)) && piece <= Encode(Object(r));
    hide Encode, Named;
    assert Line(r)[..k] == piece + end;
  }

  /** However much of a record is written to a spoiled file, it stays spoiled. */
  lemma StaysSpoiled(file: string, r: Fields, k: nat)
    requires Spoiled(file) && Named(Object(r)) && k <= |Line(r)|
    ensures Spoiled(file + Line(r)[..k])
  {
    hide Pieces, Consecutive, Lines, Glue, Named, Line, Piece;
    var h: seq<Fields>, pieces: seq<string>, more: string :| SpoiledBy(file, h, pieces, more);
    var cut := Line(r)[..k];
    if more != "" {
      assert Lines(h) + (Glue(pieces) + more) + cut == Lines(h) + (Glue(pieces) + (more + cut));
      assert SpoiledBy(file + cut, h, pieces, more + cut);
    } else if k == 0 {
      assert file + cut == file;
    } else {
      var piece, end := CutIsPiece(r, k);
      SpoilMore(h, pieces, piece, end);
      assert file == Lines(h) + Glue(pieces);
    }
  }

  /** A record cut after a good history spoils the file. */
  lemma CutSpoils(h: seq<Fields>, r: Fields, k: nat)
    requires Consecutive(h, 1) && Named(Object(r)) && 0 < k < |Line(r)|
    ensures Spoiled(Lines(h) + Line(r)[..k])
  {
    var piece := Body(r)[..k];
    assert Piece(piece) by { assert Named(Object(r)) && piece <= Encode(Object(r)); }
    hide Encode;
    assert Line(r)[..k] == piece;
    assert Glue([piece]) == piece + Glue([]) && [piece][1..] == [];
    assert Lines(h) + Line(r)[..k] == Lines(h) + (Glue([piece]) + "");
    assert SpoiledBy(Lines(h) + Line(r)[..k], h, [piece], "");
  }

  // -- the journal --------------------------------------------------------------------------------

  class Journal {
    var file: string
    var events: seq<Fields>
    var locked: bool

    constructor (file: string)
      ensures this.file == file && !locked && events == []
    {
      this.file, events, locked := file, [], false;
    }

    /** Memory is what an opening of the file would read, and the file is exactly those lines. */
    ghost predicate InSync()
      reads this
    {
      Consecutive(events, 1) && file == Lines(events)
    }

    /** Reads the whole file, or refuses it; another holder of the lock refuses too. */
    method Open(busy: bool) returns (o: Outcome<Code>)
      modifies `events, `locked
      ensures busy ==> o == Refused(Busy) && !locked && events == old(events)
      ensures !busy ==> locked && (o.Pass? <==> Load(file).Loaded?)
      ensures o.Pass? ==> Load(file) == Loaded(events)
      ensures !busy && o.Refused? ==> Load(file) == Unreadable(o.code)
      ensures !o.Killed?
    {
      hide Split, LoadLine, RecordOf, LoadLines;
      if busy {
        locked := false;
        return Refused(Busy);
      }
      locked, events := true, [];
      var lines := Split(file);
      if lines[|lines| - 1] != "" { return Refused(Torn); }
      lines := lines[..|lines| - 1];
      var i := 0;
      while i < |lines|
        invariant 0 <= i <= |lines| && locked
        invariant LoadLines(lines, 1) == Joined(events, LoadLines(lines[i..], i + 1))
      {
        LoadNext(lines[i..], i + 1);
        var line := LoadLine(lines[i], i + 1);
        if !line.Pass? { return if line.Killed? then Refused(Torn) else line; }
        events := events + [RecordOf(lines[i], i + 1)];
        assert lines[i..][1..] == lines[i + 1..];
        i := i + 1;
      }
      LoadNothing(lines[i..], i + 1);
      o := Pass;
    }

    /** One record, numbered after those in memory. A short write is completed; a write of nothing refuses;
        a kill leaves any number of its bytes. Once a record was left half-written, no later append makes the
        file readable again. */
    method Append(at: Stamp, kind: seq<Unit>, fields: Fields) returns (o: Outcome<Code>, ghost written: nat)
      requires Lookup(fields, SEQ).None? && Lookup(fields, AT).None? && Lookup(fields, KIND).None?
      modifies `file, `events
      ensures !locked ==> o == Refused(NotLocked) && file == old(file) && events == old(events)
      ensures var r := Compose(|old(events)| + 1, at, kind, fields);
              && written <= |Line(r)| && file == old(file) + Line(r)[..written]
              && events == (if o.Pass? then old(events) + [r] else old(events))
              && (o.Pass? ==> written == |Line(r)|) && (o.Refused? ==> written < |Line(r)|)
              && (old(InSync()) ==>
                    Load(file) == if written == 0 then Loaded(old(events))
                                  else if written == |Line(r)| then Loaded(old(events) + [r]) else Unreadable(Torn))
              && (NamedKeys(fields) && old(InSync()) && 0 < written < |Line(r)| ==> Spoiled(file))
      ensures old(InSync()) && o.Pass? ==> InSync() && Load(file) == Loaded(events)
      ensures NamedKeys(fields) && old(Spoiled(file)) ==> Spoiled(file)
      ensures o.Refused? && locked ==> o == Refused(WriteFailed)
    {
      hide Line, Compose, Load, Lines, Consecutive, Lookup, Spoiled, NamedKeys, Named;
      written := 0;
      ghost var before, h := file, events;
      var r := Compose(|events| + 1, at, kind, fields);
      if InSync() { NextIsConsecutive(h, at, kind, fields); }
      if NamedKeys(fields) { ComposedIsNamed(|h| + 1, at, kind, fields); }
      LineIsMore(r);
      if !locked {
        AppendLeaves(before, h, r, written);
        return Refused(NotLocked), written;
      }
      o, written := WriteAll(Line(r));
      AppendLeaves(before, h, r, written);
      if o.Pass? { events := events + [r]; }
    }

    /** All of a line, in as many writes as it takes. */
    method WriteAll(whole: string) returns (o: Outcome<Code>, ghost written: nat)
      modifies `file
      ensures written <= |whole| && file == old(file) + whole[..written]
      ensures o.Pass? ==> written == |whole|
      ensures o.Refused? ==> o == Refused(WriteFailed) && written < |whole|
    {
      var line := whole;
      written := 0;
      while line != ""
        invariant written + |line| == |whole| && line == whole[written..]
        invariant file == old(file) + whole[..written]
        decreases |line|
      {
        var killed, count: nat := *, *;
        if count > |line| { count := |line|; }
        file := file + line[..count];
        PrefixGrows(whole, written, count);
        written := written + count;
        if killed || count == 0 { return if killed then Killed else Refused(WriteFailed), written; }
        line := line[count..];
      }
      o := Pass;
    }
  }

  /** What some of a record's bytes leave behind them. */
  lemma AppendLeaves(before: string, h: seq<Fields>, r: Fields, k: nat)
    requires k <= |Line(r)|
    ensures k == 0 ==> before + Line(r)[..k] == before
    ensures var file := before + Line(r)[..k];
            && (Consecutive(h + [r], 1) && before == Lines(h) ==>
                  && Load(file) == (if k == 0 then Loaded(h) else if k == |Line(r)| then Loaded(h + [r])
                                    else Unreadable(Torn))
                  && (k == |Line(r)| ==> file == Lines(h + [r]))
                  && (Named(Object(r)) && 0 < k < |Line(r)| ==> Spoiled(file)))
            && (Named(Object(r)) && Spoiled(before) ==> Spoiled(file))
  {
    hide Line, Load, Lines, Consecutive, Spoiled, Named;
    if Consecutive(h + [r], 1) && before == Lines(h) {
      CutAppendLoads(h, r, k);
      LinesAppend(h, r);
      assert Line(r)[..|Line(r)|] == Line(r);
      if Named(Object(r)) && 0 < k < |Line(r)| {
        ConsecutiveFirst(h, r);
        CutSpoils(h, r, k);
      }
    }
    if Named(Object(r)) && Spoiled(before) { StaysSpoiled(before, r, k); }
  }

  lemma ConsecutiveFirst(h: seq<Fields>, r: Fields)
    requires Consecutive(h + [r], 1)
    ensures Consecutive(h, 1)
  {
    forall i | 0 <= i < |h| ensures Numbered(h[i], 1 + i) { assert (h + [r])[i] == h[i]; }
  }

  ghost function Joined(head: seq<Fields>, tail: Loaded): Loaded {
    if tail.Loaded? then Loaded(head + tail.events) else tail
  }

  lemma LineIsMore(r: Fields)
    ensures |Line(r)| > 0
  {
  }

  lemma PrefixGrows(s: string, n: nat, k: nat)
    requires n + k <= |s|
    ensures s[..n] + s[n..][..k] == s[..n + k] && s[n..][k..] == s[n + k..]
  {
  }

  lemma LoadNext(lines: seq<string>, n: nat)
    requires lines != []
    ensures var first := LoadLine(lines[0], n);
            LoadLines(lines, n) == if first.Pass? then Joined([RecordOf(lines[0], n)], LoadLines(lines[1..], n + 1))
                                   else Unreadable(if first.Refused? then first.code else Torn)
  {
  }

  lemma LoadNothing(lines: seq<string>, n: nat)
    requires lines == []
    ensures LoadLines(lines, n) == Loaded([])
  {
  }

  lemma NextIsConsecutive(h: seq<Fields>, at: Stamp, kind: seq<Unit>, fields: Fields)
    requires Consecutive(h, 1)
    requires Lookup(fields, SEQ).None? && Lookup(fields, AT).None? && Lookup(fields, KIND).None?
    ensures Consecutive(h + [Compose(|h| + 1, at, kind, fields)], 1)
  {
    ComposedIsNumbered(|h| + 1, at, kind, fields);
  }

  ghost function Elements(h: seq<Fields>): set<Fields> {
    set r | r in h
  }

  /** Any number of processes opening the file one after the other, each appending until it is killed or stops:
      an opening reads every record whose append returned, only records somebody appended, numbered from one; or
      it is refused. */
  method AnyHistory() returns (journal: Journal, ghost passed: set<Fields>, ghost asked: set<Fields>)
    ensures var read := Load(journal.file);
            read == Unreadable(Torn)
            || (read.Loaded? && Consecutive(read.events, 1) && passed <= Elements(read.events) <= asked)
  {
    hide Load, Lines, Consecutive, Lookup, Compose, NamedKeys, Spoiled, Line, Elements;
    journal := new Journal("");
    passed, asked := {}, {};
    ghost var h, spoiled := [], false;
    NothingWritten();
    var running, rounds: nat := false, *;
    while rounds > 0
      invariant spoiled ==> Spoiled(journal.file)
      invariant !spoiled ==> journal.file == Lines(h) && passed <= Elements(h) <= asked
      invariant Consecutive(h, 1)
      invariant running && !spoiled ==> journal.events == h
      decreases rounds
    {
      rounds := rounds - 1;
      var again, busy: bool := *, *;
      if again || !running {
        var o := journal.Open(busy);
        running := o.Pass?;
        if !spoiled { WholeHistoryLoads(h); }
      } else {
        var at: Stamp, kind: seq<Unit>, fields: Fields := *, *, *;
        if NamedKeys(fields) && Lookup(fields, SEQ).None? && Lookup(fields, AT).None? && Lookup(fields, KIND).None? {
          ghost var r := Compose(|journal.events| + 1, at, kind, fields);
          if !spoiled { NextIsConsecutive(h, at, kind, fields); LinesAppend(h, r); }
          var o, written := journal.Append(at, kind, fields);
          running := !o.Killed?;
          asked := asked + {r};
          if o.Pass? { passed := passed + {r}; }
          if !spoiled {
            ElementsAppend(h, r);
            if written == |Line(r)| { h := h + [r]; } else if written > 0 { spoiled := true; }
          }
        }
      }
    }
    if spoiled { SpoiledIsRefused(journal.file); } else { WholeHistoryLoads(h); }
  }

  lemma NothingWritten()
    ensures Consecutive([], 1) && Lines([]) == "" && Elements([]) == {}
  {
  }

  lemma ElementsAppend(h: seq<Fields>, r: Fields)
    ensures Elements(h + [r]) == Elements(h) + {r}
  {
  }
}
