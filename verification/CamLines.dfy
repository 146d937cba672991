/** The lines of the camera database (src/camdb.cc): how numbers and fields are
    printed, and what a line means once it has been read back. Every number is a
    whole count of the last decimal place it is printed with. */
module CamLines {
  import opened Bytes
  import opened Wrappers
  import opened LogScan

  // ----------------------------------------------------------------- numbers

  const DOT := 0x2e
  const MINUS := 0x2d

  function Pow10(p: nat): (r: nat)
    ensures r >= 1
  {
    if p == 0 then 1 else 10 * Pow10(p - 1)
  }

  predicate IsDigit(c: byte) {
    0x30 <= c <= 0x39
  }

  function Digits(n: nat): (r: seq<byte>) {
    (if n < 10 then [] else Digits(n / 10)) + [0x30 + n % 10]
  }

  /** The last `p` digits of `n`. */
  function Places(n: nat, p: nat): (r: seq<byte>) {
    if p == 0 then [] else Places(n / 10, p - 1) + [0x30 + n % 10]
  }

  function Quotient(a: nat, d: nat): (q: nat)
    requires d > 0
  {
    a / d
  }

  function Above(a: nat, p: nat): nat {
    Quotient(a, Pow10(p))
  }

  function Below(a: nat, p: nat): (r: nat)
    ensures r < Pow10(p)
  {
    a % Pow10(p)
  }

  function ShowSize(a: nat, p: nat): seq<byte> {
    Digits(Above(a, p)) + (if p == 0 then [] else [DOT] + Places(Below(a, p), p))
  }

  /** A count of 10^-p, with `p` decimals. */
  function Show(n: int, p: nat): seq<byte> {
    if n < 0 then [MINUS] + ShowSize(-n, p) else ShowSize(n, p)
  }

  datatype Number = Number(value: nat, rest: seq<byte>)

  function ReadDigits(t: seq<byte>, sofar: nat): Number {
    if t == [] || !IsDigit(t[0]) then Number(sofar, t) else ReadDigits(t[1..], sofar * 10 + (t[0] - 0x30))
  }

  /** Up to `p` decimals, as many zeros as are missing. */
  function ReadPlaces(t: seq<byte>, sofar: nat, p: nat): nat {
    if p == 0 then sofar
    else if t == [] || !IsDigit(t[0]) then sofar * Pow10(p)
    else ReadPlaces(t[1..], sofar * 10 + (t[0] - 0x30), p - 1)
  }

  /** The number that a token begins with, whatever follows it. */
  function ReadNumber(t: seq<byte>, p: nat): Option<int> {
    var negative := t != [] && t[0] == MINUS;
    var u := if negative then t[1..] else t;
    if u == [] || !IsDigit(u[0]) then None
    else
      var whole := ReadDigits(u, 0);
      var size := if whole.rest != [] && whole.rest[0] == DOT then ReadPlaces(whole.rest[1..], whole.value, p)
                  else whole.value * Pow10(p);
      Some(if negative then -size else size)
  }

  lemma {:induction false} ReadDigitsBack(n: nat, rest: seq<byte>)
    ensures ReadDigits(Digits(n) + rest, 0) == ReadDigits(rest, n)
    decreases n
  {
    var last := 0x30 + n % 10;
    assert ([last] + rest)[1..] == rest;
    if n < 10 {
      assert Digits(n) + rest == [last] + rest;
    } else {
      assert Digits(n) + rest == Digits(n / 10) + ([last] + rest);
      ReadDigitsBack(n / 10, [last] + rest);
    }
  }

  lemma ScaleStep(sofar: nat, n: nat, p: nat)
    requires p > 0
    ensures (sofar * Pow10(p - 1) + n / 10) * 10 + n % 10 == sofar * Pow10(p) + n
  {
    assert sofar * Pow10(p) == 10 * (sofar * Pow10(p - 1));
  }

  lemma {:induction false} ReadPlacesBack(n: nat, p: nat, sofar: nat, q: nat, rest: seq<byte>)
    requires n < Pow10(p)
    ensures ReadPlaces(Places(n, p) + rest, sofar, p + q) == ReadPlaces(rest, sofar * Pow10(p) + n, q)
    decreases p
  {
    if p == 0 {
      assert Places(n, p) + rest == rest;
    } else {
      var last := 0x30 + n % 10;
      assert ([last] + rest)[1..] == rest;
      assert Places(n, p) + rest == Places(n / 10, p - 1) + ([last] + rest);
      ReadPlacesBack(n / 10, p - 1, sofar, q + 1, [last] + rest);
      ScaleStep(sofar, n, p);
    }
  }

  lemma {:induction false} DigitsAreDigits(n: nat)
    ensures Digits(n) != [] && forall i :: 0 <= i < |Digits(n)| ==> IsDigit(Digits(n)[i])
  {
    if n >= 10 {
      DigitsAreDigits(n / 10);
    }
  }

  lemma {:induction false} PlacesAreDigits(n: nat, p: nat)
    ensures |Places(n, p)| == p && forall i :: 0 <= i < |Places(n, p)| ==> IsDigit(Places(n, p)[i])
  {
    if p > 0 {
      PlacesAreDigits(n / 10, p - 1);
    }
  }

  /** What may follow a number without changing it. */
  predicate Stops(rest: seq<byte>) {
    rest == [] || (!IsDigit(rest[0]) && rest[0] != DOT)
  }

  lemma WholePart(a: nat, p: nat)
    ensures Above(a, p) * Pow10(p) + Below(a, p) == a
  {
  }

  lemma ReadSize(a: nat, p: nat, rest: seq<byte>)
    requires Stops(rest)
    ensures var u := ShowSize(a, p) + rest; u != [] && IsDigit(u[0]) && ReadNumber(u, p) == Some(a)
  {
    hide Above, Below, Digits, Places, ReadDigits, ReadPlaces;
    var whole, part := Above(a, p), Below(a, p);
    var tail := (if p == 0 then [] else [DOT] + Places(part, p)) + rest;
    var u := ShowSize(a, p) + rest;
    DigitsAreDigits(whole);
    assert u == Digits(whole) + tail && u[0] == Digits(whole)[0];
    ReadDigitsBack(whole, tail);
    ReadDigitsStops(tail, whole);
    WholePart(a, p);
    if p > 0 {
      assert tail[1..] == Places(part, p) + rest;
      ReadPlacesBack(part, p, whole, 0, rest);
      ReadPlacesDone(rest, a);
    }
  }

  lemma ReadDigitsStops(tail: seq<byte>, sofar: nat)
    requires tail == [] || !IsDigit(tail[0])
    ensures ReadDigits(tail, sofar) == Number(sofar, tail)
  {
  }

  lemma ReadPlacesDone(rest: seq<byte>, sofar: nat)
    ensures ReadPlaces(rest, sofar, 0) == sofar
  {
  }

  /** A printed number is read back as itself. */
  lemma ReadShow(n: int, p: nat, rest: seq<byte>)
    requires Stops(rest)
    ensures ReadNumber(Show(n, p) + rest, p) == Some(n)
  {
    hide ShowSize, ReadDigits, ReadPlaces, Pow10;
    if n < 0 {
      ReadSize(-n, p, rest);
      assert (Show(n, p) + rest)[1..] == ShowSize(-n, p) + rest;
    } else {
      ReadSize(n, p, rest);
    }
  }

  /** A printed number is digits, one sign and one point at most, so it is a bare
      token and holds no line end. */
  predicate NumberByte(c: byte) {
    IsDigit(c) || c == DOT || c == MINUS
  }

  lemma SizeIsNumber(a: nat, p: nat)
    ensures ShowSize(a, p) != [] && forall i :: 0 <= i < |ShowSize(a, p)| ==> NumberByte(ShowSize(a, p)[i])
  {
    hide Above, Below, Digits, Places;
    DigitsAreDigits(Above(a, p));
    PlacesAreDigits(Below(a, p), p);
  }

  lemma ShowIsNumber(n: int, p: nat)
    ensures Show(n, p) != [] && forall i :: 0 <= i < |Show(n, p)| ==> NumberByte(Show(n, p)[i])
  {
    hide ShowSize;
    SizeIsNumber(if n < 0 then -n else n, p);
  }

  lemma ShowIsBare(n: int, p: nat)
    ensures BareToken(Show(n, p))
  {
    var v := Show(n, p);
    ShowIsNumber(n, p);
    assert NumberByte(v[0]) && NumberByte(v[|v| - 1]);
    forall i | 0 <= i < |v|
      ensures !Ends(v[i])
    {
      assert NumberByte(v[i]);
    }
  }

  // ------------------------------------------------------------------ fields

  function Ascii(s: string): (r: seq<byte>)
    ensures |r| == |s|
  {
    seq(|s|, i requires 0 <= i < |s| => s[i] as int % 256)
  }

  datatype Key =
    | T | Id | Name | FirstWall | LastWall | Sessions | Writes | Fps | Bias | LeadS | DriftPpm | DriftSpan
    | Wall | ErrorBefore | ErrorAfter | LeadUsed | Latency | Verified | TimingOk | MeasureEpoch
    | Cameras | Samples

  function SpellText(k: Key): (s: string)
    ensures s != []
  {
    match k
    case T => "t"
    case Id => "id"
    case Name => "name"
    case FirstWall => "first_wall"
    case LastWall => "last_wall"
    case Sessions => "sessions"
    case Writes => "writes"
    case Fps => "fps"
    case Bias => "bias"
    case LeadS => "lead_s"
    case DriftPpm => "drift_ppm"
    case DriftSpan => "drift_span_s"
    case Wall => "wall"
    case ErrorBefore => "error_before_s"
    case ErrorAfter => "error_after_s"
    case LeadUsed => "lead_used_s"
    case Latency => "latency_s"
    case Verified => "verified"
    case TimingOk => "timing_ok"
    case MeasureEpoch => "measure_epoch"
    case Cameras => "cameras"
    case Samples => "samples"
  }

  function Spell(k: Key): seq<byte> {
    Ascii(SpellText(k))
  }

  /** The length and the two ends of a name tell it from every other. */
  function Ends3(s: string): (int, char, char)
    requires s != []
  {
    (|s|, s[0], s[|s| - 1])
  }

  function KeyEnds(k: Key): (int, char, char) {
    match k
    case T => (1, 't', 't')
    case Id => (2, 'i', 'd')
    case Name => (4, 'n', 'e')
    case FirstWall => (10, 'f', 'l')
    case LastWall => (9, 'l', 'l')
    case Sessions => (8, 's', 's')
    case Writes => (6, 'w', 's')
    case Fps => (3, 'f', 's')
    case Bias => (4, 'b', 's')
    case LeadS => (6, 'l', 's')
    case DriftPpm => (9, 'd', 'm')
    case DriftSpan => (12, 'd', 's')
    case Wall => (4, 'w', 'l')
    case ErrorBefore => (14, 'e', 's')
    case ErrorAfter => (13, 'e', 's')
    case LeadUsed => (11, 'l', 's')
    case Latency => (9, 'l', 's')
    case Verified => (8, 'v', 'd')
    case TimingOk => (9, 't', 'k')
    case MeasureEpoch => (13, 'm', 'h')
    case Cameras => (7, 'c', 's')
    case Samples => (7, 's', 's')
  }

  lemma SpellEnds(k: Key)
    ensures Ends3(SpellText(k)) == KeyEnds(k)
  {
  }

  lemma SpellApart(a: Key, b: Key)
    requires a != b
    ensures Spell(a) != Spell(b)
  {
    hide KeyEnds, Spell;
    SpelledEnds(a);
    SpelledEnds(b);
    KeyEndsApart(a, b);
  }

  lemma SpelledEnds(k: Key)
    ensures |Spell(k)| == KeyEnds(k).0 > 0 && Spell(k)[0] == KeyEnds(k).1 as int
    ensures Spell(k)[|Spell(k)| - 1] == KeyEnds(k).2 as int
  {
    hide SpellText;
    SpellEnds(k);
    assert KeyEnds(k).1 < 128 as char && KeyEnds(k).2 < 128 as char;
  }

  lemma KeyEndsApart(a: Key, b: Key)
    requires a != b
    ensures KeyEnds(a) != KeyEnds(b)
  {
  }

  datatype Datum = Text(s: seq<byte>) | Num(n: int, p: nat) | Flag(b: bool)

  function FlagText(b: bool): seq<byte> {
    if b then Ascii("true") else Ascii("false")
  }

  function ShowDatum(d: Datum): seq<byte> {
    match d
    case Text(s) => Quoted(s)
    case Num(n, p) => Show(n, p)
    case Flag(b) => FlagText(b)
  }

  datatype Field = Field(key: Key, datum: Datum)

  function Render(fs: seq<Field>): (ms: seq<Member>)
    ensures |ms| == |fs|
  {
    if fs == [] then [] else [Member(Spell(fs[0].key), ShowDatum(fs[0].datum))] + Render(fs[1..])
  }

  function Lookup(fs: seq<Field>, k: Key): Option<Datum> {
    if fs == [] then None
    else
      var later := Lookup(fs[1..], k);
      if later.Some? then later else if fs[0].key == k then Some(fs[0].datum) else None
  }

  type Rec = map<seq<byte>, seq<byte>>

  function RecordOf(fs: seq<Field>): Rec {
    FieldsOf(Render(fs), map[])
  }

  predicate Has(r: Rec, k: Key) {
    Spell(k) in r
  }

  function TextOf(r: Rec, k: Key, fallback: seq<byte>): seq<byte> {
    if !Has(r, k) then fallback
    else
      var s := JsonString(r[Spell(k)]);
      if s.Some? then s.value else r[Spell(k)]
  }

  function NumberOf(r: Rec, k: Key, p: nat, fallback: int): int {
    if !Has(r, k) then fallback
    else
      var n := ReadNumber(r[Spell(k)], p);
      if n.Some? then n.value else fallback
  }

  function FlagOf(r: Rec, k: Key, fallback: bool): bool {
    if !Has(r, k) then fallback
    else if r[Spell(k)] == FlagText(true) then true
    else if r[Spell(k)] == FlagText(false) then false
    else fallback
  }

  lemma {:induction false} RenderedAt(fs: seq<Field>, before: Rec, k: Key)
    ensures var r := FieldsOf(Render(fs), before);
            match Lookup(fs, k)
            case Some(d) => Has(r, k) && r[Spell(k)] == ShowDatum(d)
            case None => Has(r, k) == Has(before, k) && (Has(r, k) ==> r[Spell(k)] == before[Spell(k)])
    decreases |fs|
  {
    if fs != [] {
      var m := Member(Spell(fs[0].key), ShowDatum(fs[0].datum));
      assert Render(fs)[1..] == Render(fs[1..]);
      RenderedAt(fs[1..], before[m.key := m.value], k);
      if fs[0].key != k {
        SpellApart(fs[0].key, k);
      }
    }
  }

  lemma Absent(fs: seq<Field>, k: Key)
    requires Lookup(fs, k) == None
    ensures !Has(RecordOf(fs), k)
  {
    RenderedAt(fs, map[], k);
  }

  lemma TextRead(r: Rec, k: Key, s: seq<byte>, fallback: seq<byte>)
    requires Has(r, k) && r[Spell(k)] == Quoted(s)
    ensures TextOf(r, k, fallback) == s
  {
    JsonRoundTrip(s);
  }

  /** A number is read whatever else the token holds behind it. */
  lemma NumRead(r: Rec, k: Key, n: int, p: nat, rest: seq<byte>, fallback: int)
    requires Has(r, k) && r[Spell(k)] == Show(n, p) + rest && Stops(rest)
    ensures NumberOf(r, k, p, fallback) == n
  {
    ReadShow(n, p, rest);
  }

  lemma TextBack(fs: seq<Field>, k: Key, s: seq<byte>, fallback: seq<byte>)
    requires Lookup(fs, k) == Some(Text(s))
    ensures Has(RecordOf(fs), k) && TextOf(RecordOf(fs), k, fallback) == s
  {
    RenderedAt(fs, map[], k);
    TextRead(RecordOf(fs), k, s, fallback);
  }

  lemma NumBack(fs: seq<Field>, k: Key, n: int, p: nat, fallback: int)
    requires Lookup(fs, k) == Some(Num(n, p))
    ensures Has(RecordOf(fs), k) && NumberOf(RecordOf(fs), k, p, fallback) == n
  {
    RenderedAt(fs, map[], k);
    assert Show(n, p) + [] == Show(n, p);
    NumRead(RecordOf(fs), k, n, p, [], fallback);
  }

  lemma FlagBack(fs: seq<Field>, k: Key, b: bool, fallback: bool)
    requires Lookup(fs, k) == Some(Flag(b))
    ensures Has(RecordOf(fs), k) && FlagOf(RecordOf(fs), k, fallback) == b
  {
    RenderedAt(fs, map[], k);
    assert |FlagText(true)| != |FlagText(false)|;
  }

  lemma {:induction false} LookupAppend(a: seq<Field>, b: seq<Field>, k: Key)
    ensures Lookup(a + b, k) == if Lookup(b, k).Some? then Lookup(b, k) else Lookup(a, k)
  {
    if a == [] {
      assert a + b == b;
    } else {
      assert (a + b)[1..] == a[1..] + b;
      LookupAppend(a[1..], b, k);
    }
  }

  lemma {:induction false} LookupAt(fs: seq<Field>, i: nat)
    requires i < |fs| && forall j :: 0 <= j < |fs| && j != i ==> fs[j].key != fs[i].key
    ensures Lookup(fs, fs[i].key) == Some(fs[i].datum)
  {
    if i > 0 {
      LookupAt(fs[1..], i - 1);
    } else {
      LookupNone(fs[1..], fs[0].key);
    }
  }

  lemma {:induction false} LookupNone(fs: seq<Field>, k: Key)
    requires forall j :: 0 <= j < |fs| ==> fs[j].key != k
    ensures Lookup(fs, k) == None
  {
    if fs != [] {
      LookupNone(fs[1..], k);
    }
  }

  // ------------------------------------------------------ one line, one piece

  predicate OneLine(t: seq<byte>) {
    forall i :: 0 <= i < |t| ==> t[i] != LF
  }

  lemma {:induction false} EscapeIsOneLine(s: seq<byte>)
    ensures OneLine(JsonEscape(s))
  {
    if s != [] {
      EscapeIsOneLine(s[1..]);
      assert OneLine(JsonByte(s[0]));
    }
  }

  lemma FlagIsBare(b: bool)
    ensures BareToken(FlagText(b)) && OneLine(FlagText(b))
  {
    var s := if b then "true" else "false";
    assert FlagText(b) == Ascii(s);
    forall i | 0 <= i < |s|
      ensures 0x61 <= Ascii(s)[i] <= 0x7a
    {
    }
  }

  lemma DatumPrints(d: Datum)
    ensures Printable(ShowDatum(d)) && OneLine(ShowDatum(d))
  {
    match d
    case Text(s) =>
      EscapeIsOneLine(s);
    case Num(n, p) =>
      ShowIsBare(n, p);
      ShowIsNumber(n, p);
      forall i | 0 <= i < |Show(n, p)|
        ensures Show(n, p)[i] != LF
      {
        assert NumberByte(Show(n, p)[i]);
      }
    case Flag(b) =>
      FlagIsBare(b);
  }

  lemma {:induction false} RenderPrints(fs: seq<Field>)
    ensures forall i {:trigger Printable(Render(fs)[i].value)} :: 0 <= i < |fs| ==> Printable(Render(fs)[i].value)
  {
    if fs != [] {
      RenderPrints(fs[1..]);
      DatumPrints(fs[0].datum);
      forall i | 0 <= i < |fs|
        ensures Printable(Render(fs)[i].value)
      {
        if i > 0 {
          assert Printable(Render(fs[1..])[i - 1].value);
        }
      }
    }
  }

  lemma MemberIsOneLine(f: Field)
    ensures OneLine(PrintMember(Member(Spell(f.key), ShowDatum(f.datum))))
  {
    EscapeIsOneLine(Spell(f.key));
    DatumPrints(f.datum);
  }

  lemma {:induction false} MoreIsOneLine(fs: seq<Field>)
    requires fs != []
    ensures OneLine(PrintMore(Render(fs)))
    decreases |fs|
  {
    MemberIsOneLine(fs[0]);
    if |fs| > 1 {
      assert Render(fs)[1..] == Render(fs[1..]);
      MoreIsOneLine(fs[1..]);
    }
  }

  /** What is printed is read back field for field, and is one line. */
  lemma PrintedBack(fs: seq<Field>)
    requires fs != []
    ensures ParseRecord(Print(Render(fs))) == Some(RecordOf(fs))
    ensures Print(Render(fs)) != [] && OneLine(Print(Render(fs)))
  {
    RenderPrints(fs);
    ParsePrinted(Render(fs));
    MoreIsOneLine(fs);
  }
}
