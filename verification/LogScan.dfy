/** Lines of the camera log: printing strings into JSON (src/jsonlog.cc) and
    scanning a flat JSON object back (src/logscan.cc). The scanner works on what
    is left of a line; where the source keeps an index, this keeps the rest. */
module LogScan {
  import opened Bytes
  import opened Wrappers

  const QUOTE := 0x22
  const BACKSLASH := 0x5c
  const COMMA := 0x2c
  const COLON := 0x3a
  const OPEN_BRACE := 0x7b
  const CLOSE_BRACE := 0x7d
  const OPEN_BRACKET := 0x5b
  const CLOSE_BRACKET := 0x5d
  const SPACE := 0x20
  const TAB := 0x09
  const LF := 0x0a
  const CR := 0x0d

  // ---------------------------------------------------------------- printing

  function LowHex(n: int): byte
    requires 0 <= n < 16
  {
    if n < 10 then 0x30 + n else 0x61 + n - 10
  }

  function JsonByte(c: byte): (r: seq<byte>)
    ensures |r| >= 1
  {
    if c == QUOTE then [BACKSLASH, QUOTE]
    else if c == BACKSLASH then [BACKSLASH, BACKSLASH]
    else if c == LF then [BACKSLASH, 0x6e]
    else if c == CR then [BACKSLASH, 0x72]
    else if c == TAB then [BACKSLASH, 0x74]
    else if c < 0x20 then [BACKSLASH, 0x75, 0x30, 0x30, LowHex(c / 16), LowHex(c % 16)]
    else [c]
  }

  function JsonEscape(s: seq<byte>): seq<byte> {
    if s == [] then [] else JsonByte(s[0]) + JsonEscape(s[1..])
  }

  function Quoted(s: seq<byte>): seq<byte> {
    [QUOTE] + JsonEscape(s) + [QUOTE]
  }

  lemma {:induction false} JsonEscapePush(s: seq<byte>, c: byte)
    ensures JsonEscape(s + [c]) == JsonEscape(s) + JsonByte(c)
  {
    if s == [] {
      assert s + [c] == [c] && [c][1..] == [];
    } else {
      assert (s + [c])[1..] == s[1..] + [c];
      JsonEscapePush(s[1..], c);
    }
  }

  method EscapeLoop(s: seq<byte>) returns (out: seq<byte>)
    ensures out == JsonEscape(s)
  {
    out := [];
    for i := 0 to |s|
      invariant out == JsonEscape(s[..i])
    {
      JsonEscapePush(s[..i], s[i]);
      assert s[..i + 1] == s[..i] + [s[i]];
      out := out + JsonByte(s[i]);
    }
    assert s[..|s|] == s;
  }

  // ---------------------------------------------------------------- unquoting

  /** The number that leading hexadecimal digits spell. */
  function HexPrefix(s: seq<byte>, sofar: nat): nat {
    if s == [] || HexValue(s[0]) < 0 then sofar else HexPrefix(s[1..], sofar * 16 + HexValue(s[0]))
  }

  function SkipBlanks(s: seq<byte>): (r: seq<byte>)
    ensures |r| <= |s|
  {
    if s != [] && (s[0] == SPACE || 9 <= s[0] <= 13) then SkipBlanks(s[1..]) else s
  }

  /** What strtol makes of a hexadecimal text: blanks, a sign and 0x may come
      before its digits, and anything after them. */
  function HexNumber(s: seq<byte>): int {
    var t := SkipBlanks(s);
    var signed := t != [] && (t[0] == 0x2b || t[0] == 0x2d);
    var u := if signed then t[1..] else t;
    var prefixed := |u| >= 3 && u[0] == 0x30 && (u[1] == 0x78 || u[1] == 0x58) && HexValue(u[2]) >= 0;
    var size: int := HexPrefix(if prefixed then u[2..] else u, 0);
    if signed && t[0] == 0x2d then -size else size
  }

  /** A code below 0x80 is kept as one byte of it; any other is marked. */
  function CodeByte(code: int): byte {
    if code < 0x80 then code % 256 else 0x3f
  }

  /** The one-character escapes. */
  function Plain(c: byte): Option<byte> {
    if c == QUOTE || c == BACKSLASH || c == 0x2f then Some(c)
    else if c == 0x6e then Some(LF)
    else if c == 0x72 then Some(CR)
    else if c == 0x74 then Some(TAB)
    else if c == 0x62 then Some(0x08)
    else if c == 0x66 then Some(0x0c)
    else None
  }

  /** What is between the quotes: `t` runs up to and including the closing one. */
  function Unquote(t: seq<byte>): Option<seq<byte>>
    decreases |t|
  {
    if |t| <= 1 then Some([])
    else if t[0] != BACKSLASH then
      var rest := Unquote(t[1..]);
      if rest.None? then None else Some([t[0]] + rest.value)
    else if t[1] == 0x75 then
      if |t| < 6 then None
      else
        var rest := Unquote(t[6..]);
        if rest.None? then None else Some([CodeByte(HexNumber(t[2..6]))] + rest.value)
    else
      var rest := Unquote(t[2..]);
      if Plain(t[1]).None? || rest.None? then None else Some([Plain(t[1]).value] + rest.value)
  }

  function JsonString(raw: seq<byte>): Option<seq<byte>> {
    if |raw| < 2 || raw[0] != QUOTE || raw[|raw| - 1] != QUOTE then None else Unquote(raw[1..])
  }

  lemma LowHexBack(n: int)
    requires 0 <= n < 16
    ensures HexValue(LowHex(n)) == n
  {
  }

  lemma ControlBack(c: byte)
    requires c < 0x20
    ensures HexNumber([0x30, 0x30, LowHex(c / 16), LowHex(c % 16)]) == c
  {
    LowHexBack(c / 16);
    LowHexBack(c % 16);
    var h, l := LowHex(c / 16), LowHex(c % 16);
    HexStep(l, [], c / 16);
    HexStep(h, [l], 0);
    HexStep(0x30, [h, l], 0);
    HexStep(0x30, [0x30, h, l], 0);
    assert [h] + [l] == [h, l] && [0x30] + [h, l] == [0x30, h, l] && [0x30] + [0x30, h, l] == [0x30, 0x30, h, l];
    assert [l] + [] == [l];
  }

  lemma HexStep(d: byte, rest: seq<byte>, sofar: nat)
    requires HexValue(d) >= 0
    ensures HexPrefix([d] + rest, sofar) == HexPrefix(rest, sofar * 16 + HexValue(d))
  {
    assert ([d] + rest)[1..] == rest;
  }

  lemma UnquoteByte(c: byte, more: seq<byte>)
    requires more != []
    ensures Unquote(JsonByte(c) + more) == Ahead(c, Unquote(more))
  {
    hide Unquote, HexNumber, CodeByte, LowHex;
    var e := JsonByte(c);
    if |e| == 1 {
      UnquotePlain(c, more);
    } else if |e| == 2 {
      UnquotePair(e[1], more);
    } else {
      var code := [0x30, 0x30, LowHex(c / 16), LowHex(c % 16)];
      ControlBack(c);
      UnquoteCode(code, more);
      CodeIs(c);
      assert e + more == [BACKSLASH, 0x75] + code + more;
    }
  }

  function Ahead(c: byte, rest: Option<seq<byte>>): Option<seq<byte>> {
    if rest.None? then None else Some([c] + rest.value)
  }

  lemma UnquotePlain(c: byte, more: seq<byte>)
    requires more != [] && c != BACKSLASH
    ensures Unquote([c] + more) == Ahead(c, Unquote(more))
  {
    assert ([c] + more)[1..] == more;
  }

  lemma UnquotePair(c: byte, more: seq<byte>)
    requires more != [] && c != 0x75 && Plain(c).Some?
    ensures Unquote([BACKSLASH, c] + more) == Ahead(Plain(c).value, Unquote(more))
  {
    assert ([BACKSLASH, c] + more)[2..] == more;
  }

  lemma UnquoteCode(code: seq<byte>, more: seq<byte>)
    requires |code| == 4
    ensures Unquote([BACKSLASH, 0x75] + code + more) == Ahead(CodeByte(HexNumber(code)), Unquote(more))
  {
    hide HexNumber, CodeByte;
    var t := [BACKSLASH, 0x75] + code + more;
    assert t[2..6] == code && t[6..] == more;
  }

  lemma CodeIs(c: byte)
    requires c < 0x20
    ensures CodeByte(c) == c
  {
  }

  lemma {:induction false} UnquoteEscape(s: seq<byte>)
    ensures Unquote(JsonEscape(s) + [QUOTE]) == Some(s)
  {
    if s == [] {
      assert JsonEscape(s) + [QUOTE] == [QUOTE];
    } else {
      var more := JsonEscape(s[1..]) + [QUOTE];
      UnquoteEscape(s[1..]);
      UnquoteByte(s[0], more);
      Regroup(JsonByte(s[0]), JsonEscape(s[1..]), [QUOTE]);
      assert [s[0]] + s[1..] == s;
    }
  }

  /** Whatever a string holds, quoting and unquoting gives it back. */
  lemma JsonRoundTrip(s: seq<byte>)
    ensures JsonString(Quoted(s)) == Some(s)
  {
    UnquoteEscape(s);
    assert Quoted(s)[1..] == JsonEscape(s) + [QUOTE];
  }

  // ---------------------------------------------------------------- scanning

  predicate IsSpace(c: byte) {
    c == SPACE || c == TAB || c == LF || c == CR
  }

  function SkipSpace(t: seq<byte>): (r: seq<byte>)
    ensures |r| <= |t|
    ensures r != [] ==> !IsSpace(r[0])
  {
    if t == [] || !IsSpace(t[0]) then t else SkipSpace(t[1..])
  }

  /** How far a string goes, from just behind its opening quote to just behind
      the closing one. */
  function ScanString(t: seq<byte>): (n: Option<nat>)
    ensures n.Some? ==> 0 < n.value <= |t|
    decreases |t|
  {
    if t == [] then None
    else if t[0] == QUOTE then Some(1)
    else
      var step := if t[0] == BACKSLASH then 2 else 1;
      if |t| < step || ScanString(t[step..]).None? then None else Some(step + ScanString(t[step..]).value)
  }

  /** How far an object or an array goes, from an opening bracket to just behind
      the one that closes it. */
  function ScanNested(t: seq<byte>, depth: int, inString: bool): (n: Option<nat>)
    ensures n.Some? ==> 0 < n.value <= |t|
    decreases |t|
  {
    if t == [] then None
    else if inString && t[0] == BACKSLASH then
      if |t| < 2 || ScanNested(t[2..], depth, true).None? then None else Some(2 + ScanNested(t[2..], depth, true).value)
    else
      var closes := !inString && (t[0] == CLOSE_BRACE || t[0] == CLOSE_BRACKET);
      var opens := !inString && (t[0] == OPEN_BRACE || t[0] == OPEN_BRACKET);
      if closes && depth == 1 then Some(1)
      else
        var depth' := if closes then depth - 1 else if opens then depth + 1 else depth;
        var rest := ScanNested(t[1..], depth', if t[0] == QUOTE then !inString else inString);
        if rest.None? then None else Some(1 + rest.value)
  }

  predicate Ends(c: byte) {
    c == COMMA || c == CLOSE_BRACE || c == CLOSE_BRACKET
  }

  /** How far a bare token goes. */
  function ScanBare(t: seq<byte>): (n: nat)
    ensures n <= |t|
    ensures n < |t| ==> Ends(t[n])
  {
    if t == [] || Ends(t[0]) then 0 else 1 + ScanBare(t[1..])
  }

  function TrimEnd(t: seq<byte>): (r: seq<byte>)
    ensures |r| <= |t|
  {
    if t != [] && (t[|t| - 1] == SPACE || t[|t| - 1] == TAB) then TrimEnd(t[..|t| - 1]) else t
  }

  datatype Value = Value(raw: seq<byte>, rest: seq<byte>)

  /** One value, its text and what is behind it. */
  function ScanValue(t: seq<byte>): (v: Option<Value>)
    ensures v.Some? ==> |v.value.rest| < |t|
  {
    var u := SkipSpace(t);
    if u == [] then None
    else if u[0] == QUOTE then
      var n := ScanString(u[1..]);
      if n.None? then None else Some(Value(u[..1 + n.value], u[1 + n.value..]))
    else if u[0] == OPEN_BRACE || u[0] == OPEN_BRACKET then
      var n := ScanNested(u, 0, false);
      if n.None? then None else Some(Value(u[..n.value], u[n.value..]))
    else
      var n := ScanBare(u);
      if TrimEnd(u[..n]) == [] then None else Some(Value(TrimEnd(u[..n]), u[n..]))
  }

  datatype Members = Members(fields: map<seq<byte>, seq<byte>>, rest: seq<byte>)

  /** A key and its value. */
  datatype Pair = Pair(key: seq<byte>, raw: seq<byte>, rest: seq<byte>)

  function ScanPair(t: seq<byte>): (p: Option<Pair>)
    ensures p.Some? ==> |p.value.rest| < |t|
  {
    var u := SkipSpace(t);
    if u == [] || u[0] != QUOTE || ScanValue(u).None? then None
    else
      var k := ScanValue(u).value;
      var v := SkipSpace(k.rest);
      if JsonString(k.raw).None? || v == [] || v[0] != COLON || ScanValue(v[1..]).None? then None
      else Some(Pair(JsonString(k.raw).value, ScanValue(v[1..]).value.raw, ScanValue(v[1..]).value.rest))
  }

  /** The members of an object, behind its opening brace; a later key replaces an
      earlier one. */
  function ScanMore(t: seq<byte>, fields: map<seq<byte>, seq<byte>>): Option<Members>
    decreases |t|
  {
    var p := ScanPair(t);
    if p.None? then None
    else
      var fields' := fields[p.value.key := p.value.raw];
      var u := SkipSpace(p.value.rest);
      if u == [] then None
      else if u[0] == COMMA then ScanMore(u[1..], fields')
      else if u[0] == CLOSE_BRACE then Some(Members(fields', u[1..]))
      else None
  }

  function ScanMembers(t: seq<byte>): Option<Members> {
    var u := SkipSpace(t);
    if u == [] || u[0] != OPEN_BRACE then None
    else
      var v := SkipSpace(u[1..]);
      if v != [] && v[0] == CLOSE_BRACE then Some(Members(map[], v[1..])) else ScanMore(v, map[])
  }

  /** A line as a record; what follows the object is not looked at. */
  function ParseRecord(line: seq<byte>): Option<map<seq<byte>, seq<byte>>> {
    var m := ScanMembers(line);
    if m.None? then None else Some(m.value.fields)
  }

  // ------------------------------------------------ printed lines read back

  lemma {:induction false} ScanEscaped(s: seq<byte>, rest: seq<byte>)
    ensures ScanString(JsonEscape(s) + [QUOTE] + rest) == Some(|JsonEscape(s)| + 1)
  {
    if s == [] {
      assert JsonEscape(s) + [QUOTE] + rest == [QUOTE] + rest;
    } else {
      var e, more := JsonByte(s[0]), JsonEscape(s[1..]) + [QUOTE] + rest;
      ScanEscaped(s[1..], rest);
      assert JsonEscape(s) + [QUOTE] + rest == e + more;
      ScanEscapedByte(s[0], more);
    }
  }

  lemma ScanPast(c: byte, more: seq<byte>)
    requires c != QUOTE && c != BACKSLASH && ScanString(more).Some?
    ensures ScanString([c] + more) == Some(1 + ScanString(more).value)
  {
    assert ([c] + more)[1..] == more;
  }

  lemma ScanEscapedByte(c: byte, more: seq<byte>)
    requires ScanString(more).Some?
    ensures ScanString(JsonByte(c) + more) == Some(|JsonByte(c)| + ScanString(more).value)
  {
    hide ScanString, LowHex;
    var e := JsonByte(c);
    if |e| == 1 {
      ScanPast(c, more);
    } else if |e| == 2 {
      ScanEscape(e[1], more);
    } else {
      LowHexIsPlain(c / 16);
      LowHexIsPlain(c % 16);
      var high, low := LowHex(c / 16), LowHex(c % 16);
      ScanFour(high, low, more);
      ScanEscape(0x75, [0x30, 0x30, high, low] + more);
      assert [BACKSLASH, 0x75] + ([0x30, 0x30, high, low] + more) == e + more;
    }
  }

  lemma LowHexIsPlain(n: int)
    requires 0 <= n < 16
    ensures LowHex(n) != QUOTE && LowHex(n) != BACKSLASH
  {
  }

  lemma ScanEscape(c: byte, more: seq<byte>)
    requires ScanString(more).Some?
    ensures ScanString([BACKSLASH, c] + more) == Some(2 + ScanString(more).value)
  {
    assert ([BACKSLASH, c] + more)[2..] == more;
  }

  lemma ScanFour(c: byte, d: byte, more: seq<byte>)
    requires ScanString(more).Some? && c != QUOTE && c != BACKSLASH && d != QUOTE && d != BACKSLASH
    ensures ScanString([0x30, 0x30, c, d] + more) == Some(4 + ScanString(more).value)
  {
    hide ScanString;
    ScanPast(d, more);
    ScanPast(c, [d] + more);
    ScanPast(0x30, [c] + ([d] + more));
    ScanPast(0x30, [0x30] + ([c] + ([d] + more)));
    FourInFront(0x30, 0x30, c, d, more);
  }

  lemma FourInFront(a: byte, b: byte, c: byte, d: byte, more: seq<byte>)
    ensures [a, b, c, d] + more == [a] + ([b] + ([c] + ([d] + more)))
  {
  }

  /** What may stand for a value: a quoted string, or a bare token that nothing
      ends too soon. */
  predicate BareToken(v: seq<byte>) {
    && v != [] && !IsSpace(v[0]) && v[0] != QUOTE && v[0] != OPEN_BRACE && v[0] != OPEN_BRACKET
    && v[|v| - 1] != SPACE && v[|v| - 1] != TAB
    && forall i :: 0 <= i < |v| ==> !Ends(v[i])
  }

  ghost predicate Printable(v: seq<byte>) {
    BareToken(v) || exists s :: v == Quoted(s)
  }

  /** A member of a printed line. */
  datatype Member = Member(key: seq<byte>, value: seq<byte>)

  function PrintMember(m: Member): seq<byte> {
    Quoted(m.key) + [COLON] + m.value
  }

  /** Members with commas between them, and the closing brace. */
  function PrintMore(ms: seq<Member>): seq<byte>
    requires ms != []
  {
    PrintMember(ms[0]) + (if |ms| == 1 then [CLOSE_BRACE] else [COMMA] + PrintMore(ms[1..]))
  }

  function Print(ms: seq<Member>): seq<byte>
    requires ms != []
  {
    [OPEN_BRACE] + PrintMore(ms)
  }

  function FieldsOf(ms: seq<Member>, fields: map<seq<byte>, seq<byte>>): map<seq<byte>, seq<byte>> {
    if ms == [] then fields else FieldsOf(ms[1..], fields[ms[0].key := ms[0].value])
  }

  lemma ScanQuoted(s: seq<byte>, rest: seq<byte>)
    ensures ScanValue(Quoted(s) + rest) == Some(Value(Quoted(s), rest))
  {
    var t := Quoted(s) + rest;
    ScanEscaped(s, rest);
    assert t[1..] == JsonEscape(s) + [QUOTE] + rest;
    assert t[..|Quoted(s)|] == Quoted(s) && t[|Quoted(s)|..] == rest;
  }

  lemma {:induction false} ScanBareAhead(v: seq<byte>, rest: seq<byte>)
    requires (forall i :: 0 <= i < |v| ==> !Ends(v[i])) && rest != [] && Ends(rest[0])
    ensures ScanBare(v + rest) == |v|
  {
    if v == [] {
      assert v + rest == rest;
    } else {
      assert (v + rest)[1..] == v[1..] + rest;
      ScanBareAhead(v[1..], rest);
    }
  }

  lemma ScanPrintable(v: seq<byte>, rest: seq<byte>)
    requires Printable(v) && rest != [] && Ends(rest[0])
    ensures ScanValue(v + rest) == Some(Value(v, rest))
  {
    if BareToken(v) {
      ScanBareAhead(v, rest);
      assert (v + rest)[..|v|] == v && (v + rest)[|v|..] == rest;
    } else {
      var s :| v == Quoted(s);
      ScanQuoted(s, rest);
    }
  }

  lemma PairStep(t: seq<byte>, k: seq<byte>, after: seq<byte>, key: seq<byte>, raw: seq<byte>, rest: seq<byte>)
    requires t != [] && t[0] == QUOTE && ScanValue(t) == Some(Value(k, [COLON] + after))
    requires JsonString(k) == Some(key) && ScanValue(after) == Some(Value(raw, rest))
    ensures ScanPair(t) == Some(Pair(key, raw, rest))
  {
    assert ([COLON] + after)[1..] == after;
  }

  lemma ScanPairPrinted(m: Member, rest: seq<byte>)
    requires Printable(m.value) && rest != [] && Ends(rest[0])
    ensures ScanPair(PrintMember(m) + rest) == Some(Pair(m.key, m.value, rest))
  {
    var after := m.value + rest;
    assert PrintMember(m) + rest == Quoted(m.key) + ([COLON] + after);
    ScanQuoted(m.key, [COLON] + after);
    JsonRoundTrip(m.key);
    ScanPrintable(m.value, rest);
    PairStep(PrintMember(m) + rest, Quoted(m.key), after, m.key, m.value, rest);
  }

  lemma MoreStep(t: seq<byte>, fields: map<seq<byte>, seq<byte>>, key: seq<byte>, raw: seq<byte>, c: byte,
                 rest: seq<byte>)
    requires ScanPair(t) == Some(Pair(key, raw, [c] + rest)) && (c == COMMA || c == CLOSE_BRACE)
    ensures ScanMore(t, fields) ==
            if c == COMMA then ScanMore(rest, fields[key := raw]) else Some(Members(fields[key := raw], rest))
  {
    hide ScanValue;
    assert ([c] + rest)[1..] == rest;
  }

  lemma PrintMoreAs(ms: seq<Member>, rest: seq<byte>)
    requires ms != []
    ensures PrintMore(ms) + rest ==
            PrintMember(ms[0]) + (if |ms| == 1 then [CLOSE_BRACE] + rest else [COMMA] + (PrintMore(ms[1..]) + rest))
    ensures PrintMore(ms)[0] == QUOTE
  {
    var a := PrintMember(ms[0]);
    if |ms| == 1 {
      Regroup(a, [CLOSE_BRACE], rest);
    } else {
      var b := PrintMore(ms[1..]);
      Regroup(a, [COMMA] + b, rest);
      Regroup([COMMA], b, rest);
    }
  }

  lemma {:induction false} ScanMorePrinted(ms: seq<Member>, fields: map<seq<byte>, seq<byte>>, rest: seq<byte>)
    requires ms != [] && forall i {:trigger Printable(ms[i].value)} :: 0 <= i < |ms| ==> Printable(ms[i].value)
    ensures ScanMore(PrintMore(ms) + rest, fields) == Some(Members(FieldsOf(ms, fields), rest))
    decreases |ms|
  {
    var fields' := fields[ms[0].key := ms[0].value];
    assert Printable(ms[0].value);
    PrintMoreAs(ms, rest);
    if |ms| == 1 {
      ScanPairPrinted(ms[0], [CLOSE_BRACE] + rest);
      MoreStep(PrintMore(ms) + rest, fields, ms[0].key, ms[0].value, CLOSE_BRACE, rest);
      assert ms[1..] == [];
    } else {
      var more := PrintMore(ms[1..]) + rest;
      ScanPairPrinted(ms[0], [COMMA] + more);
      MoreStep(PrintMore(ms) + rest, fields, ms[0].key, ms[0].value, COMMA, more);
      forall i | 0 <= i < |ms[1..]|
        ensures Printable(ms[1..][i].value)
      {
        assert Printable(ms[i + 1].value);
      }
      ScanMorePrinted(ms[1..], fields', rest);
    }
  }

  lemma MembersStep(v: seq<byte>)
    requires v != [] && v[0] == QUOTE
    ensures ScanMembers([OPEN_BRACE] + v) == ScanMore(v, map[])
  {
    assert ([OPEN_BRACE] + v)[1..] == v;
  }

  /** A printed line is read as exactly its members, whatever its strings hold,
      and whatever is behind it. */
  lemma ScanPrinted(ms: seq<Member>, rest: seq<byte>)
    requires ms != [] && forall i {:trigger Printable(ms[i].value)} :: 0 <= i < |ms| ==> Printable(ms[i].value)
    ensures ScanMembers(Print(ms) + rest) == Some(Members(FieldsOf(ms, map[]), rest))
  {
    PrintMoreAs(ms, rest);
    Regroup([OPEN_BRACE], PrintMore(ms), rest);
    MembersStep(PrintMore(ms) + rest);
    ScanMorePrinted(ms, map[], rest);
  }

  lemma ParsePrinted(ms: seq<Member>)
    requires ms != [] && forall i {:trigger Printable(ms[i].value)} :: 0 <= i < |ms| ==> Printable(ms[i].value)
    ensures ParseRecord(Print(ms)) == Some(FieldsOf(ms, map[]))
  {
    ScanPrinted(ms, []);
    assert Print(ms) + [] == Print(ms);
  }

  // ------------------------------------------------------------- torn lines

  lemma {:induction false} SkipSpaceStable(t: seq<byte>, q: seq<byte>)
    requires SkipSpace(t) != []
    ensures SkipSpace(t + q) == SkipSpace(t) + q
  {
    if IsSpace(t[0]) {
      assert (t + q)[1..] == t[1..] + q;
      SkipSpaceStable(t[1..], q);
    }
  }

  lemma {:induction false} ScanStringStable(t: seq<byte>, q: seq<byte>)
    requires ScanString(t).Some?
    ensures ScanString(t + q) == ScanString(t)
    decreases |t|
  {
    if t[0] != QUOTE {
      var step := if t[0] == BACKSLASH then 2 else 1;
      assert (t + q)[step..] == t[step..] + q;
      ScanStringStable(t[step..], q);
    }
  }

  function Plus(n: nat, rest: Option<nat>): Option<nat> {
    if rest.None? then None else Some(n + rest.value)
  }

  lemma NestedEscape(t: seq<byte>, depth: int)
    requires t != [] && t[0] == BACKSLASH
    ensures ScanNested(t, depth, true) == if |t| < 2 then None else Plus(2, ScanNested(t[2..], depth, true))
  {
  }

  lemma NestedCloses(t: seq<byte>)
    requires t != [] && (t[0] == CLOSE_BRACE || t[0] == CLOSE_BRACKET)
    ensures ScanNested(t, 1, false) == Some(1)
  {
  }

  lemma NestedEmpty(depth: int, inString: bool)
    ensures ScanNested([], depth, inString) == None
  {
  }

  lemma NestedStep(t: seq<byte>, depth: int, inString: bool)
    requires t != [] && !(inString && t[0] == BACKSLASH)
    requires inString || !(t[0] == CLOSE_BRACE || t[0] == CLOSE_BRACKET) || depth != 1
    ensures ScanNested(t, depth, inString) ==
            Plus(1, ScanNested(t[1..],
                               if !inString && (t[0] == CLOSE_BRACE || t[0] == CLOSE_BRACKET) then depth - 1
                               else if !inString && (t[0] == OPEN_BRACE || t[0] == OPEN_BRACKET)
                               then depth + 1 else depth,
                               if t[0] == QUOTE then !inString else inString))
  {
  }

  lemma {:induction false} ScanNestedStable(t: seq<byte>, depth: int, inString: bool, q: seq<byte>)
    requires ScanNested(t, depth, inString).Some?
    ensures ScanNested(t + q, depth, inString) == ScanNested(t, depth, inString)
    decreases |t|
  {
    hide ScanNested;
    if t == [] {
      NestedEmpty(depth, inString);
    } else if inString && t[0] == BACKSLASH {
      NestedEscape(t, depth);
      NestedEscape(t + q, depth);
      DropConcat(t, q, 2);
      ScanNestedStable(t[2..], depth, true, q);
    } else {
      var closes := !inString && (t[0] == CLOSE_BRACE || t[0] == CLOSE_BRACKET);
      var opens := !inString && (t[0] == OPEN_BRACE || t[0] == OPEN_BRACKET);
      if closes && depth == 1 {
        NestedCloses(t);
        NestedCloses(t + q);
      } else {
        NestedStep(t, depth, inString);
        NestedStep(t + q, depth, inString);
        DropConcat(t, q, 1);
        ScanNestedStable(t[1..], if closes then depth - 1 else if opens then depth + 1 else depth,
                         if t[0] == QUOTE then !inString else inString, q);
      }
    }
  }

  lemma {:induction false} ScanBareStable(t: seq<byte>, q: seq<byte>)
    requires ScanBare(t) < |t|
    ensures ScanBare(t + q) == ScanBare(t)
  {
    if !Ends(t[0]) {
      assert (t + q)[1..] == t[1..] + q;
      ScanBareStable(t[1..], q);
    }
  }

  /** A value that something follows is not changed by what follows later. */
  lemma ScanValueStable(t: seq<byte>, q: seq<byte>)
    requires ScanValue(t).Some? && ScanValue(t).value.rest != []
    ensures ScanValue(t + q) == Some(Value(ScanValue(t).value.raw, ScanValue(t).value.rest + q))
  {
    hide ScanString, ScanNested, ScanBare, SkipSpace, TrimEnd;
    var u := SkipSpace(t);
    SkipSpaceStable(t, q);
    if u[0] == QUOTE {
      assert (u + q)[1..] == u[1..] + q;
      ScanStringStable(u[1..], q);
      var n := 1 + ScanString(u[1..]).value;
      assert (u + q)[..n] == u[..n] && (u + q)[n..] == u[n..] + q;
    } else if u[0] == OPEN_BRACE || u[0] == OPEN_BRACKET {
      ScanNestedStable(u, 0, false, q);
      var n := ScanNested(u, 0, false).value;
      assert (u + q)[..n] == u[..n] && (u + q)[n..] == u[n..] + q;
    } else {
      ScanBareStable(u, q);
      var n := ScanBare(u);
      assert (u + q)[..n] == u[..n] && (u + q)[n..] == u[n..] + q;
    }
  }

  /** What is left behind a key: from its colon on. */
  function BehindKey(t: seq<byte>): seq<byte> {
    if ScanValue(SkipSpace(t)).None? then [] else SkipSpace(ScanValue(SkipSpace(t)).value.rest)
  }

  lemma PairIs(t: seq<byte>)
    requires ScanPair(t).Some?
    ensures var u, v := SkipSpace(t), BehindKey(t);
            && u != [] && u[0] == QUOTE && ScanValue(u).Some? && JsonString(ScanValue(u).value.raw).Some?
            && v != [] && v[0] == COLON && ScanValue(v[1..]).Some?
            && ScanPair(t) == Some(Pair(JsonString(ScanValue(u).value.raw).value, ScanValue(v[1..]).value.raw,
                                        ScanValue(v[1..]).value.rest))
  {
    hide ScanValue, SkipSpace, JsonString;
  }

  lemma KeyStable(t: seq<byte>, q: seq<byte>)
    requires ScanPair(t).Some?
    ensures var u, u' := SkipSpace(t), SkipSpace(t + q);
            && u != [] && u' == u + q && ScanValue(u').Some? && ScanValue(u').value.raw == ScanValue(u).value.raw
            && BehindKey(t + q) == BehindKey(t) + q
  {
    hide ScanValue, SkipSpace, JsonString, ScanPair;
    PairIs(t);
    SkipSpaceStable(t, q);
    var u := SkipSpace(t);
    SkipNothing();
    ScanValueStable(u, q);
    SkipSpaceStable(ScanValue(u).value.rest, q);
  }

  lemma SkipNothing()
    ensures SkipSpace([]) == []
  {
  }

  lemma ScanPairStable(t: seq<byte>, q: seq<byte>)
    requires ScanPair(t).Some? && ScanPair(t).value.rest != []
    ensures var p := ScanPair(t).value; ScanPair(t + q) == Some(Pair(p.key, p.raw, p.rest + q))
  {
    hide ScanValue, SkipSpace, JsonString;
    var v := BehindKey(t);
    PairIs(t);
    KeyStable(t, q);
    DropConcat(v, q, 1);
    ScanValueStable(v[1..], q);
  }

  lemma {:induction false} ScanMoreStable(t: seq<byte>, fields: map<seq<byte>, seq<byte>>, q: seq<byte>)
    requires ScanMore(t, fields).Some?
    ensures var m := ScanMore(t, fields).value; ScanMore(t + q, fields) == Some(Members(m.fields, m.rest + q))
    decreases |t|
  {
    var p := ScanPair(t).value;
    var u := SkipSpace(p.rest);
    ScanPairStable(t, q);
    SkipSpaceStable(p.rest, q);
    MoreStable(t, q, fields, p, u);
    if u[0] == COMMA {
      ScanMoreStable(u[1..], fields[p.key := p.raw], q);
    }
  }

  lemma MoreStable(t: seq<byte>, q: seq<byte>, fields: map<seq<byte>, seq<byte>>, p: Pair, u: seq<byte>)
    requires ScanPair(t) == Some(p) && u == SkipSpace(p.rest) != [] && (u[0] == COMMA || u[0] == CLOSE_BRACE)
    requires ScanPair(t + q) == Some(Pair(p.key, p.raw, p.rest + q)) && SkipSpace(p.rest + q) == u + q
    ensures var fields' := fields[p.key := p.raw];
            && ScanMore(t, fields) == (if u[0] == COMMA then ScanMore(u[1..], fields')
                                       else Some(Members(fields', u[1..])))
            && ScanMore(t + q, fields) == (if u[0] == COMMA then ScanMore(u[1..] + q, fields')
                                           else Some(Members(fields', u[1..] + q)))
  {
    hide ScanValue;
    assert (u + q)[1..] == u[1..] + q;
  }

  /** An object once closed is not changed by what follows it. */
  lemma ScanMembersStable(t: seq<byte>, q: seq<byte>)
    requires ScanMembers(t).Some?
    ensures var m := ScanMembers(t).value; ScanMembers(t + q) == Some(Members(m.fields, m.rest + q))
  {
    var u := SkipSpace(t);
    SkipSpaceStable(t, q);
    assert (u + q)[1..] == u[1..] + q;
    var v := SkipSpace(u[1..]);
    SkipSpaceStable(u[1..], q);
    if v[0] == CLOSE_BRACE {
      assert (v + q)[1..] == v[1..] + q;
    } else {
      ScanMoreStable(v, map[], q);
    }
  }

  /** No line cut short is accepted: a torn last line costs one record. */
  lemma TornIsRejected(ms: seq<Member>, n: nat)
    requires ms != [] && forall i {:trigger Printable(ms[i].value)} :: 0 <= i < |ms| ==> Printable(ms[i].value)
    requires n < |Print(ms)|
    ensures ParseRecord(Print(ms)[..n]) == None
  {
    var torn, lost := Print(ms)[..n], Print(ms)[n..];
    assert torn + lost == Print(ms) == Print(ms) + [];
    ScanPrinted(ms, []);
    if ScanMembers(torn).Some? {
      ScanMembersStable(torn, lost);
    }
  }

  /** But a line appended to one torn inside a bare token, with no line end
      between them, is accepted: the token swallows the appended line's first
      member, and its others replace the torn line's own. */
  lemma MergedLineIsMisread(torn: seq<Member>, key: seq<byte>, token: seq<byte>, appended: seq<Member>)
    requires torn != [] && |appended| >= 2 && BareToken(token)
    requires forall i {:trigger Printable(torn[i].value)} :: 0 <= i < |torn| ==> Printable(torn[i].value)
    requires forall i {:trigger Printable(appended[i].value)} :: 0 <= i < |appended| ==> Printable(appended[i].value)
    requires BareToken(token + [OPEN_BRACE] + PrintMember(appended[0]))
    ensures var left := torn + [Member(key, token)];
            var line := Print(left)[..|Print(left)| - 1] + Print(appended);
            var merged := torn + [Member(key, token + [OPEN_BRACE] + PrintMember(appended[0]))] + appended[1..];
            line == Print(merged) && ParseRecord(line) == Some(FieldsOf(merged, map[]))
  {
    var swollen := Member(key, token + [OPEN_BRACE] + PrintMember(appended[0]));
    var merged := torn + [swollen] + appended[1..];
    forall i | 0 <= i < |merged|
      ensures Printable(merged[i].value)
    {
      if i < |torn| {
        assert merged[i] == torn[i] && Printable(torn[i].value);
      } else if i > |torn| {
        assert merged[i] == appended[i - |torn|] && Printable(appended[i - |torn|].value);
      }
    }
    ParsePrinted(merged);
    MergedPrints(torn, key, token, appended);
  }

  lemma PrintMoreFirst(ms: seq<Member>)
    requires |ms| >= 2
    ensures PrintMore(ms) == PrintMember(ms[0]) + [COMMA] + PrintMore(ms[1..])
  {
    Regroup(PrintMember(ms[0]), [COMMA], PrintMore(ms[1..]));
  }

  lemma MergedFirst(key: seq<byte>, token: seq<byte>, appended: seq<Member>)
    requires |appended| >= 2
    ensures var left := [Member(key, token)];
            var merged := [Member(key, token + [OPEN_BRACE] + PrintMember(appended[0]))] + appended[1..];
            PrintMore(left)[..|PrintMore(left)| - 1] + Print(appended) == PrintMore(merged)
  {
    var left := [Member(key, token)];
    var swollen := Member(key, token + [OPEN_BRACE] + PrintMember(appended[0]));
    var merged := [swollen] + appended[1..];
    var a, b, c := PrintMember(left[0]), PrintMember(appended[0]), PrintMore(appended[1..]);
    assert merged[1..] == appended[1..];
    PrintMoreFirst(merged);
    PrintMoreFirst(appended);
    assert PrintMore(left) == a + [CLOSE_BRACE] && (a + [CLOSE_BRACE])[..|a + [CLOSE_BRACE]| - 1] == a;
    var q := Quoted(key) + [COLON];
    Regroup(q, token, [OPEN_BRACE]);
    Regroup(q, token + [OPEN_BRACE], b);
    assert PrintMember(swollen) == a + [OPEN_BRACE] + b;
    Regroup(a, [OPEN_BRACE], b);
    Regroup(a, [OPEN_BRACE] + b, [COMMA]);
    Regroup(a, [OPEN_BRACE] + b + [COMMA], c);
    Regroup([OPEN_BRACE], b, [COMMA]);
    Regroup([OPEN_BRACE], b + [COMMA], c);
  }

  lemma {:induction false} MergedMore(torn: seq<Member>, key: seq<byte>, token: seq<byte>, appended: seq<Member>)
    requires |appended| >= 2
    ensures var left := torn + [Member(key, token)];
            var merged := torn + [Member(key, token + [OPEN_BRACE] + PrintMember(appended[0]))] + appended[1..];
            PrintMore(left)[..|PrintMore(left)| - 1] + Print(appended) == PrintMore(merged)
    decreases |torn|
  {
    var left := torn + [Member(key, token)];
    var swollen := Member(key, token + [OPEN_BRACE] + PrintMember(appended[0]));
    var merged := torn + [swollen] + appended[1..];
    if torn == [] {
      assert merged == [swollen] + appended[1..] && left == [Member(key, token)];
      MergedFirst(key, token, appended);
    } else {
      MergedMore(torn[1..], key, token, appended);
      assert left[1..] == torn[1..] + [Member(key, token)];
      assert merged[1..] == torn[1..] + [swollen] + appended[1..];
      InFront(PrintMember(torn[0]) + [COMMA], PrintMore(left[1..]), Print(appended), PrintMore(merged[1..]));
      PrintMoreFirst(left);
      PrintMoreFirst(merged);
    }
  }

  lemma InFront(a: seq<byte>, b: seq<byte>, c: seq<byte>, d: seq<byte>)
    requires b != [] && b[..|b| - 1] + c == d
    ensures (a + b)[..|a + b| - 1] + c == a + d
  {
    assert (a + b)[..|a + b| - 1] == a + b[..|b| - 1];
    Regroup(a, b[..|b| - 1], c);
  }

  lemma MergedPrints(torn: seq<Member>, key: seq<byte>, token: seq<byte>, appended: seq<Member>)
    requires |appended| >= 2
    ensures var left := torn + [Member(key, token)];
            var merged := torn + [Member(key, token + [OPEN_BRACE] + PrintMember(appended[0]))] + appended[1..];
            Print(left)[..|Print(left)| - 1] + Print(appended) == Print(merged)
  {
    var left := torn + [Member(key, token)];
    var merged := torn + [Member(key, token + [OPEN_BRACE] + PrintMember(appended[0]))] + appended[1..];
    MergedMore(torn, key, token, appended);
    InFront([OPEN_BRACE], PrintMore(left), Print(appended), PrintMore(merged));
  }

  // ---------------------------------------------------- the cursor's own loops

  lemma StringEscape(t: seq<byte>)
    requires t != [] && t[0] == BACKSLASH
    ensures ScanString(t) == if |t| < 2 then None else Plus(2, ScanString(t[2..]))
  {
  }

  lemma StringCloses(t: seq<byte>)
    requires t != [] && t[0] == QUOTE
    ensures ScanString(t) == Some(1)
  {
  }

  lemma StringStep(t: seq<byte>)
    requires t != [] && t[0] != QUOTE && t[0] != BACKSLASH
    ensures ScanString(t) == Plus(1, ScanString(t[1..]))
  {
  }

  lemma StringEmpty()
    ensures ScanString([]) == None
  {
  }

  lemma MoreAt(t: seq<byte>, fields: map<seq<byte>, seq<byte>>, key: seq<byte>, raw: seq<byte>, u: seq<byte>)
    requires ScanPair(t).Some? && ScanPair(t).value.key == key && ScanPair(t).value.raw == raw
    requires u == SkipSpace(ScanPair(t).value.rest)
    ensures u != [] && u[0] == COMMA ==> ScanMore(t, fields) == ScanMore(u[1..], fields[key := raw])
    ensures u != [] && u[0] == CLOSE_BRACE ==> ScanMore(t, fields) == Some(Members(fields[key := raw], u[1..]))
    ensures u == [] || (u[0] != COMMA && u[0] != CLOSE_BRACE) ==> ScanMore(t, fields) == None
  {
  }

  /** The scanner: one cursor, moved along a line by every step. */
  class Scanner {
    const text: seq<byte>
    var i: nat

    constructor (line: seq<byte>)
      ensures text == line && i == 0
    {
      text, i := line, 0;
    }

    method Space()
      requires i <= |text|
      modifies this
      ensures i <= |text| && text[i..] == SkipSpace(text[old(i)..])
    {
      while i < |text| && IsSpace(text[i])
        invariant i <= |text| && SkipSpace(text[i..]) == SkipSpace(text[old(i)..])
      {
        assert text[i..][1..] == text[i + 1..];
        i := i + 1;
      }
    }

    /** From behind an opening quote to behind the closing one. */
    method StringEnd() returns (ok: bool)
      requires i <= |text|
      modifies this
      ensures var n := ScanString(text[old(i)..]);
              ok == n.Some? && (ok ==> i == old(i) + n.value <= |text|)
    {
      hide ScanString;
      ghost var start := i;
      while i < |text|
        invariant start <= i && (i <= |text| ==> ScanString(text[start..]) == Plus(i - start, ScanString(text[i..])))
        invariant i > |text| ==> ScanString(text[start..]).None?
        decreases |text| - i
      {
        if text[i] == BACKSLASH {
          StringEscape(text[i..]);
          if i + 2 <= |text| {
            DropDrop(text, i, 2);
          }
          i := i + 2;
        } else if text[i] == QUOTE {
          StringCloses(text[i..]);
          i := i + 1;
          return true;
        } else {
          StringStep(text[i..]);
          DropDrop(text, i, 1);
          i := i + 1;
        }
      }
      if i == |text| {
        StringEmpty();
      }
      ok := false;
    }

    method NestedEnd() returns (ok: bool)
      requires i < |text|
      modifies this
      ensures var n := ScanNested(text[old(i)..], 0, false);
              ok == n.Some? && (ok ==> i == old(i) + n.value <= |text|)
    {
      hide ScanNested;
      ghost var start := i;
      var depth, inString := 0, false;
      while i < |text|
        invariant start <= i
        invariant i <= |text| ==>
                    ScanNested(text[start..], 0, false) == Plus(i - start, ScanNested(text[i..], depth, inString))
        invariant i > |text| ==> ScanNested(text[start..], 0, false).None?
        decreases |text| - i
      {
        var c := text[i];
        if inString && c == BACKSLASH {
          NestedEscape(text[i..], depth);
          if i + 2 <= |text| {
            DropDrop(text, i, 2);
          }
          i := i + 2;
        } else {
          if !inString && (c == CLOSE_BRACE || c == CLOSE_BRACKET) && depth == 1 {
            NestedCloses(text[i..]);
            i := i + 1;
            return true;
          }
          NestedStep(text[i..], depth, inString);
          DropDrop(text, i, 1);
          if !inString && (c == CLOSE_BRACE || c == CLOSE_BRACKET) {
            depth := depth - 1;
          } else if !inString && (c == OPEN_BRACE || c == OPEN_BRACKET) {
            depth := depth + 1;
          }
          if c == QUOTE {
            inString := !inString;
          }
          i := i + 1;
        }
      }
      if i == |text| {
        NestedEmpty(depth, inString);
      }
      ok := false;
    }

    method BareEnd()
      requires i <= |text|
      modifies this
      ensures i == old(i) + ScanBare(text[old(i)..]) <= |text|
    {
      while i < |text| && !Ends(text[i])
        invariant old(i) <= i <= |text| && i + ScanBare(text[i..]) == old(i) + ScanBare(text[old(i)..])
      {
        assert text[i..][1..] == text[i + 1..];
        i := i + 1;
      }
    }

    method ReadValue() returns (ok: bool, raw: seq<byte>)
      requires i <= |text|
      modifies this
      ensures var v := ScanValue(text[old(i)..]);
              ok == v.Some? && (ok ==> i <= |text| && raw == v.value.raw && text[i..] == v.value.rest)
    {
      hide ScanString, ScanNested, ScanBare, SkipSpace, TrimEnd;
      raw := [];
      Space();
      if i >= |text| {
        return false, raw;
      }
      var start := i;
      ghost var u := text[i..];
      if text[i] == QUOTE {
        i := i + 1;
        assert text[i..] == u[1..];
        ok := StringEnd();
        if ok {
          raw := text[start..i];
          assert raw == u[..i - start] && text[i..] == u[i - start..];
        }
      } else if text[i] == OPEN_BRACE || text[i] == OPEN_BRACKET {
        ok := NestedEnd();
        if ok {
          raw := text[start..i];
          assert raw == u[..i - start] && text[i..] == u[i - start..];
        }
      } else {
        BareEnd();
        assert text[start..i] == u[..i - start] && text[i..] == u[i - start..];
        raw := TrimEnd(text[start..i]);
        ok := raw != [];
      }
    }

    method ReadPair() returns (ok: bool, key: seq<byte>, raw: seq<byte>)
      requires i <= |text|
      modifies this
      ensures var p := ScanPair(text[old(i)..]);
              ok == p.Some? && (ok ==>
                i <= |text| && key == p.value.key && raw == p.value.raw && text[i..] == p.value.rest)
    {
      hide ScanValue, JsonString, SkipSpace;
      key, raw := [], [];
      Space();
      if i >= |text| || text[i] != QUOTE {
        return false, key, raw;
      }
      var quoted;
      ok, quoted := ReadValue();
      if !ok || JsonString(quoted).None? {
        return false, key, raw;
      }
      key := JsonString(quoted).value;
      Space();
      if i >= |text| || text[i] != COLON {
        return false, key, raw;
      }
      assert text[i..][1..] == text[i + 1..];
      i := i + 1;
      ok, raw := ReadValue();
    }

    /** One turn of the loop over the members of an object. */
    method ReadTurn(fields: map<seq<byte>, seq<byte>>)
      returns (more: bool, ok: bool, fields': map<seq<byte>, seq<byte>>)
      requires i <= |text|
      modifies this
      ensures more ==> old(i) < i <= |text| && ScanMore(text[old(i)..], fields) == ScanMore(text[i..], fields')
      ensures !more ==> var m := ScanMore(text[old(i)..], fields); ok == m.Some? && (ok ==> fields' == m.value.fields)
    {
      hide ScanPair;
      ghost var t := text[i..];
      var key, raw;
      ok, key, raw := ReadPair();
      if !ok {
        return false, false, fields;
      }
      Space();
      ghost var u := text[i..];
      MoreAt(t, fields, key, raw, u);
      fields' := fields[key := raw];
      more := i < |text| && text[i] == COMMA;
      ok := i < |text| && text[i] == CLOSE_BRACE;
      if more {
        assert u[1..] == text[i + 1..];
        i := i + 1;
      }
    }

    /** The loop over the members of an object. */
    method ReadMore() returns (ok: bool, fields: map<seq<byte>, seq<byte>>)
      requires i <= |text|
      modifies this
      ensures var m := ScanMore(text[old(i)..], map[]); ok == m.Some? && (ok ==> fields == m.value.fields)
    {
      ok, fields := false, map[];
      ghost var goal := ScanMore(text[i..], map[]);
      var more := true;
      while more
        invariant more ==> i <= |text| && ScanMore(text[i..], fields) == goal
        invariant !more ==> ok == goal.Some? && (ok ==> fields == goal.value.fields)
        decreases more, |text| - i
      {
        more, ok, fields := ReadTurn(fields);
      }
    }

    /** A line as a record. */
    method ReadRecord() returns (fields: Option<map<seq<byte>, seq<byte>>>)
      requires i == 0
      modifies this
      ensures fields == ParseRecord(text)
    {
      assert text[0..] == text;
      Space();
      if i >= |text| || text[i] != OPEN_BRACE {
        return None;
      }
      assert text[i..][1..] == text[i + 1..];
      i := i + 1;
      Space();
      if i < |text| && text[i] == CLOSE_BRACE {
        return Some(map[]);
      }
      var ok, members := ReadMore();
      fields := if ok then Some(members) else None;
    }
  }
}
