/** Messages between the boxes (src/boxmsg.cc, src/escape.cc): a verb and fields
    on a line, percent-escaped values, and a reader that cuts a byte stream into
    lines of bounded length. */
module BoxMsg {
  import opened Bytes
  import opened Wrappers

  const NUL := 0x00
  const LF := 0x0a
  const CR := 0x0d
  const SPACE := 0x20
  const PERCENT := 0x25
  const EQUALS := 0x3d

  const MAX_LINE := 4096

  datatype Field = Field(key: seq<byte>, value: seq<byte>)

  datatype Message = Message(verb: seq<byte>, fields: seq<Field>)

  // ---------------------------------------------------------------- escaping

  predicate Safe(c: byte) {
    0x20 < c < 0x7f && c != PERCENT && c != EQUALS
  }

  function HexDigit(n: int): byte
    requires 0 <= n < 16
  {
    if n < 10 then 0x30 + n else 0x41 + n - 10
  }

  function PercentByte(c: byte): (r: seq<byte>)
    ensures 1 <= |r| <= 3
  {
    if Safe(c) then [c] else [PERCENT, HexDigit(c / 16), HexDigit(c % 16)]
  }

  function EscapeBytes(s: seq<byte>): seq<byte> {
    if s == [] then [] else PercentByte(s[0]) + EscapeBytes(s[1..])
  }

  /** An empty value is given a body the parser can see. */
  function Escape(s: seq<byte>): seq<byte> {
    if s == [] then [PERCENT, 0x30, 0x30] else EscapeBytes(s)
  }

  predicate Escaped(s: seq<byte>)
    requires s != []
  {
    s[0] == PERCENT && |s| > 2 && HexValue(s[1]) >= 0 && HexValue(s[2]) >= 0
  }

  function Unescape(s: seq<byte>): seq<byte>
    decreases |s|
  {
    if s == [] then []
    else if Escaped(s) then
      var c := HexValue(s[1]) * 16 + HexValue(s[2]);
      (if c == NUL then [] else [c]) + Unescape(s[3..])
    else [s[0]] + Unescape(s[1..])
  }

  function WithoutNul(s: seq<byte>): seq<byte> {
    if s == [] then [] else (if s[0] == NUL then [] else [s[0]]) + WithoutNul(s[1..])
  }

  lemma HexBack(n: int)
    requires 0 <= n < 16
    ensures HexValue(HexDigit(n)) == n
  {
  }

  /** Unescaping gives back what was escaped, but for the NULs it drops. */
  lemma {:induction false} UnescapeEscape(s: seq<byte>)
    ensures Unescape(Escape(s)) == WithoutNul(s)
  {
    if s == [] {
      assert Escape(s)[3..] == [];
    } else {
      UnescapeBytes(s);
    }
  }

  lemma {:induction false} UnescapeBytes(s: seq<byte>)
    ensures Unescape(EscapeBytes(s)) == WithoutNul(s)
  {
    if s != [] {
      var c, more := s[0], EscapeBytes(s[1..]);
      var all := PercentByte(c) + more;
      UnescapeBytes(s[1..]);
      if Safe(c) {
        assert all[1..] == more;
      } else {
        HexBack(c / 16);
        HexBack(c % 16);
        assert all[3..] == more;
      }
    }
  }

  lemma {:induction false} WithoutNulIs(s: seq<byte>)
    ensures |WithoutNul(s)| <= |s| && NUL !in WithoutNul(s)
    ensures WithoutNul(s) == s <==> NUL !in s
  {
    if s != [] {
      WithoutNulIs(s[1..]);
      assert s == [s[0]] + s[1..];
      if s[0] != NUL && WithoutNul(s) == s {
        assert WithoutNul(s[1..]) == WithoutNul(s)[1..];
      }
    }
  }

  /** An escaped value never contains what separates tokens or lines. */
  lemma {:induction false} EscapeBytesClean(s: seq<byte>)
    ensures forall i :: 0 <= i < |EscapeBytes(s)| ==> 0x20 < EscapeBytes(s)[i] < 0x7f && EscapeBytes(s)[i] != EQUALS
  {
    if s != [] {
      EscapeBytesClean(s[1..]);
    }
  }

  lemma EscapeClean(s: seq<byte>)
    ensures Escape(s) != [] && forall i :: 0 <= i < |Escape(s)| ==> 0x20 < Escape(s)[i] < 0x7f
  {
    EscapeBytesClean(s);
  }

  // --------------------------------------------------------------- encoding

  predicate BareByte(c: byte) {
    0x61 <= c <= 0x7a || 0x41 <= c <= 0x5a || 0x30 <= c <= 0x39 || c == 0x2d || c == 0x5f || c == 0x2e
  }

  predicate Bare(s: seq<byte>) {
    s != [] && forall i :: 0 <= i < |s| ==> BareByte(s[i])
  }

  function EncodeField(f: Field): seq<byte> {
    f.key + [EQUALS] + Escape(f.value)
  }

  function EncodeFields(fields: seq<Field>): seq<byte> {
    if fields == [] then []
    else (if Bare(fields[0].key) then [SPACE] + EncodeField(fields[0]) else []) + EncodeFields(fields[1..])
  }

  function Encode(m: Message): seq<byte> {
    if !Bare(m.verb) then [] else m.verb + EncodeFields(m.fields)
  }

  // --------------------------------------------------------------- decoding

  /** The length of the leading spaces, and of the leading token. */
  function Spaces(s: seq<byte>): (n: nat)
    ensures n <= |s|
    ensures n < |s| ==> s[n] != SPACE
  {
    if s == [] || s[0] != SPACE then 0 else 1 + Spaces(s[1..])
  }

  function Token(s: seq<byte>): (n: nat)
    ensures n <= |s|
    ensures n < |s| ==> s[n] == SPACE
    ensures s != [] && s[0] != SPACE ==> n > 0
  {
    if s == [] || s[0] == SPACE then 0 else 1 + Token(s[1..])
  }

  /** Where the first '=' is, or the length. */
  function FindEquals(s: seq<byte>): (n: nat)
    ensures n <= |s|
    ensures n < |s| ==> s[n] == EQUALS
  {
    if s == [] || s[0] == EQUALS then 0 else 1 + FindEquals(s[1..])
  }

  /** Where a line ends, its trailing CRs and LFs left out. */
  function LineEnd(s: seq<byte>): (n: nat)
    ensures n <= |s|
  {
    if s != [] && (s[|s| - 1] == CR || s[|s| - 1] == LF) then LineEnd(s[..|s| - 1]) else |s|
  }

  /** One token as a field: it must have an '=', and a bare key before it. */
  function FieldOf(token: seq<byte>): Option<Field> {
    var eq := FindEquals(token);
    if eq == |token| || !Bare(token[..eq]) then None else Some(Field(token[..eq], Unescape(token[eq + 1..])))
  }

  /** Fields read so far in front of those still to be read. */
  function Prepend(done: seq<Field>, rest: Option<seq<Field>>): Option<seq<Field>> {
    if rest.None? then None else Some(done + rest.value)
  }

  function DecodeFields(s: seq<byte>): Option<seq<Field>>
    decreases |s|
  {
    var t := s[Spaces(s)..];
    if t == [] then Some([])
    else
      var field := FieldOf(t[..Token(t)]);
      if field.None? then None else Prepend([field.value], DecodeFields(t[Token(t)..]))
  }

  function Decode(line: seq<byte>): Option<Message> {
    var body := line[..LineEnd(line)];
    var t := body[Spaces(body)..];
    if t == [] || !Bare(t[..Token(t)]) then None
    else
      var fields := DecodeFields(t[Token(t)..]);
      if fields.None? then None else Some(Message(t[..Token(t)], fields.value))
  }

  // ------------------------------------------------------------- round trip

  lemma {:induction false} TokenAhead(a: seq<byte>, b: seq<byte>)
    requires forall i :: 0 <= i < |a| ==> a[i] != SPACE
    requires b == [] || b[0] == SPACE
    ensures Token(a + b) == |a|
  {
    if a == [] {
      assert a + b == b;
    } else {
      assert (a + b)[1..] == a[1..] + b;
      TokenAhead(a[1..], b);
    }
  }

  lemma {:induction false} EqualsAhead(a: seq<byte>, b: seq<byte>)
    requires forall i :: 0 <= i < |a| ==> a[i] != EQUALS
    ensures FindEquals(a + [EQUALS] + b) == |a|
  {
    var s := a + [EQUALS] + b;
    if a != [] {
      assert s[1..] == a[1..] + [EQUALS] + b;
      EqualsAhead(a[1..], b);
    }
  }

  /** The fields that are sent, as they arrive. */
  function Carried(fields: seq<Field>): seq<Field> {
    if fields == [] then []
    else (if Bare(fields[0].key) then [Field(fields[0].key, WithoutNul(fields[0].value))] else [])
         + Carried(fields[1..])
  }

  lemma FieldToken(f: Field, rest: seq<byte>)
    requires Bare(f.key) && (rest == [] || rest[0] == SPACE)
    ensures var e := EncodeField(f);
            var s := [SPACE] + e + rest;
            && e != [] && Spaces(s) == 1 && s[1..] == e + rest
            && Token(e + rest) == |e| && (e + rest)[..|e|] == e && (e + rest)[|e|..] == rest
  {
    var e := EncodeField(f);
    var s := [SPACE] + e + rest;
    EscapeClean(f.value);
    TokenAhead(e, rest);
    assert s[1..] == e + rest;
    assert Spaces(s[1..]) == 0;
  }

  lemma FieldParts(f: Field)
    requires Bare(f.key)
    ensures var e := EncodeField(f);
            FindEquals(e) == |f.key| < |e| && e[..|f.key|] == f.key && e[|f.key| + 1..] == Escape(f.value)
  {
    EqualsAhead(f.key, Escape(f.value));
  }

  /** One field in front of others decodes to itself in front of theirs. */
  lemma FieldBack(f: Field, rest: seq<byte>)
    requires Bare(f.key) && (rest == [] || rest[0] == SPACE)
    ensures DecodeFields([SPACE] + EncodeField(f) + rest) ==
            if DecodeFields(rest).None? then None
            else Some([Field(f.key, WithoutNul(f.value))] + DecodeFields(rest).value)
  {
    FieldToken(f, rest);
    FieldParts(f);
    UnescapeEscape(f.value);
  }

  lemma {:induction false} FieldsStart(fields: seq<Field>)
    ensures EncodeFields(fields) == [] || EncodeFields(fields)[0] == SPACE
  {
    hide Bare, EncodeField;
    if fields != [] {
      FieldsStart(fields[1..]);
      var rest := EncodeFields(fields[1..]);
      assert [SPACE] + EncodeField(fields[0]) + rest == [SPACE] + (EncodeField(fields[0]) + rest);
      assert [] + rest == rest;
    }
  }

  lemma {:induction false} FieldsBack(fields: seq<Field>)
    ensures DecodeFields(EncodeFields(fields)) == Some(Carried(fields))
  {
    if fields != [] {
      var rest := EncodeFields(fields[1..]);
      FieldsBack(fields[1..]);
      FieldsStart(fields[1..]);
      if Bare(fields[0].key) {
        FieldBack(fields[0], rest);
      } else {
        assert [] + rest == rest;
        assert [] + Carried(fields[1..]) == Carried(fields[1..]);
      }
    }
  }

  /** Nothing in an encoding can be mistaken for the end of a line. */
  lemma {:induction false} FieldsClean(fields: seq<Field>)
    ensures forall i :: 0 <= i < |EncodeFields(fields)| ==> SPACE <= EncodeFields(fields)[i] < 0x7f
  {
    if fields != [] {
      FieldsClean(fields[1..]);
      EscapeClean(fields[0].value);
    }
  }

  lemma EncodingClean(m: Message)
    ensures forall i :: 0 <= i < |Encode(m)| ==> SPACE <= Encode(m)[i] < 0x7f
    ensures LineEnd(Encode(m)) == |Encode(m)|
  {
    FieldsClean(m.fields);
  }

  /** What is read back of any message: nothing if its verb is not bare, else the
      fields with bare keys, their values without NULs. */
  lemma DecodeEncode(m: Message)
    ensures Decode(Encode(m)) == if Bare(m.verb) then Some(Message(m.verb, Carried(m.fields))) else None
  {
    EncodingClean(m);
    if Bare(m.verb) {
      var rest := EncodeFields(m.fields);
      var line := m.verb + rest;
      assert line[..|line|] == line && Spaces(line) == 0 && line[0..] == line;
      FieldsStart(m.fields);
      TokenAhead(m.verb, rest);
      assert line[..|m.verb|] == m.verb && line[|m.verb|..] == rest;
      FieldsBack(m.fields);
    }
  }

  predicate Sendable(m: Message) {
    Bare(m.verb) && forall i :: 0 <= i < |m.fields| ==> Bare(m.fields[i].key) && NUL !in m.fields[i].value
  }

  lemma {:induction false} CarriedAll(fields: seq<Field>)
    ensures |Carried(fields)| <= |fields|
    ensures Carried(fields) == fields <==> forall i :: 0 <= i < |fields| ==>
            Bare(fields[i].key) && NUL !in fields[i].value
  {
    if fields != [] {
      var f, rest := fields[0], fields[1..];
      CarriedAll(rest);
      WithoutNulIs(f.value);
      assert fields == [f] + rest;
      if Carried(fields) == fields {
        assert Bare(f.key);
        assert Carried(rest) == Carried(fields)[1..];
        forall i | 0 <= i < |fields|
          ensures Bare(fields[i].key) && NUL !in fields[i].value
        {
          if i > 0 {
            assert fields[i] == rest[i - 1];
          }
        }
      } else if Bare(f.key) && NUL !in f.value {
        assert Carried(rest) != rest;
        var i :| 0 <= i < |rest| && !(Bare(rest[i].key) && NUL !in rest[i].value);
        assert fields[i + 1] == rest[i];
      }
    }
  }

  /** A message comes back as it was exactly when its verb and keys are bare and
      its values hold no NUL. */
  lemma RoundTripExactly(m: Message)
    ensures Decode(Encode(m)) == Some(m) <==> Sendable(m)
  {
    DecodeEncode(m);
    CarriedAll(m.fields);
  }

  // ---------------------------------------------------------- cutting lines

  /** The reader between bytes: the line so far, and whether it has become too
      long and is being thrown away. */
  datatype Reading = Reading(buf: seq<byte>, dropping: bool)

  const FRESH := Reading([], false)

  /** What feeding bytes leaves: the reader, the lines completed, and whether a
      line was lost. */
  datatype Fed = Fed(reader: Reading, lines: seq<seq<byte>>, dropped: bool)

  function FeedByte(r: Reading, c: byte): Fed {
    if c == LF then Fed(FRESH, if r.dropping then [] else [r.buf], r.dropping)
    else if r.dropping then Fed(r, [], false)
    else if |r.buf| >= MAX_LINE then Fed(Reading([], true), [], false)
    else Fed(r.(buf := r.buf + [c]), [], false)
  }

  function Feed(r: Reading, data: seq<byte>): Fed
    decreases |data|
  {
    if data == [] then Fed(r, [], false)
    else
      var first := FeedByte(r, data[0]);
      var rest := Feed(first.reader, data[1..]);
      Fed(rest.reader, first.lines + rest.lines, first.dropped || rest.dropped)
  }

  /** How the bytes are split into reads makes no difference. */
  lemma {:induction false} FeedSplit(r: Reading, a: seq<byte>, b: seq<byte>)
    ensures var f := Feed(r, a);
            var g := Feed(f.reader, b);
            Feed(r, a + b) == Fed(g.reader, f.lines + g.lines, f.dropped || g.dropped)
    decreases |a|
  {
    if a == [] {
      assert a + b == b;
      assert [] + Feed(r, b).lines == Feed(r, b).lines;
    } else {
      var first := FeedByte(r, a[0]);
      assert (a + b)[1..] == a[1..] + b;
      FeedSplit(first.reader, a[1..], b);
      var f := Feed(first.reader, a[1..]);
      Regroup(first.lines, f.lines, Feed(f.reader, b).lines);
    }
  }

  /** The buffer never exceeds the longest line. */
  predicate Bounded(r: Reading) {
    |r.buf| <= MAX_LINE && (r.dropping ==> r.buf == [])
  }

  lemma {:induction false} FeedBounded(r: Reading, data: seq<byte>)
    requires Bounded(r)
    ensures Bounded(Feed(r, data).reader)
    decreases |data|
  {
    if data != [] {
      FeedBounded(FeedByte(r, data[0]).reader, data[1..]);
    }
  }

  predicate OneLine(s: seq<byte>) {
    LF !in s
  }

  lemma {:induction false} FeedDropping(s: seq<byte>)
    requires OneLine(s)
    ensures Feed(Reading([], true), s) == Fed(Reading([], true), [], false)
  {
    if s != [] {
      FeedDropping(s[1..]);
    }
  }

  /** The bytes of one line, before its end. */
  lemma {:induction false} FeedPart(done: seq<byte>, s: seq<byte>)
    requires OneLine(s) && |done| <= MAX_LINE
    ensures Feed(Reading(done, false), s) ==
            Fed(if |done| + |s| <= MAX_LINE then Reading(done + s, false) else Reading([], true), [], false)
    decreases |s|
  {
    if s == [] {
      assert done + s == done;
    } else {
      if |done| >= MAX_LINE {
        FeedDropping(s[1..]);
      } else {
        FeedPart(done + [s[0]], s[1..]);
        assert done + [s[0]] + s[1..] == done + s;
      }
    }
  }

  /** A whole line in front of more: it comes out if it is not too long, and
      otherwise only it is lost. */
  lemma FeedLine(s: seq<byte>)
    requires OneLine(s)
    ensures Feed(FRESH, s + [LF]) == if |s| <= MAX_LINE then Fed(FRESH, [s], false) else Fed(FRESH, [], true)
  {
    FeedPart([], s);
    FeedSplit(FRESH, s, [LF]);
    assert [] + s == s && [LF][1..] == [];
  }

  /** Lines as they are sent. */
  function Joined(lines: seq<seq<byte>>): seq<byte> {
    if lines == [] then [] else lines[0] + [LF] + Joined(lines[1..])
  }

  predicate AnyLong(lines: seq<seq<byte>>) {
    lines != [] && (|lines[0]| > MAX_LINE || AnyLong(lines[1..]))
  }

  function Short(lines: seq<seq<byte>>): seq<seq<byte>> {
    if lines == [] then [] else (if |lines[0]| <= MAX_LINE then [lines[0]] else []) + Short(lines[1..])
  }

  /** A stream of lines, and an unfinished one behind them, is read as exactly
      the lines that are not too long; a lost line is reported. */
  lemma {:induction false} FeedLines(lines: seq<seq<byte>>, torn: seq<byte>)
    requires forall i :: 0 <= i < |lines| ==> OneLine(lines[i])
    requires OneLine(torn)
    ensures var f := Feed(FRESH, Joined(lines) + torn);
            && f.lines == Short(lines)
            && f.dropped == AnyLong(lines)
            && f.reader == if |torn| <= MAX_LINE then Reading(torn, false) else Reading([], true)
  {
    if lines == [] {
      FeedPart([], torn);
      assert Joined(lines) + torn == torn && [] + torn == torn;
    } else {
      var later := Joined(lines[1..]) + torn;
      FeedLines(lines[1..], torn);
      FeedLine(lines[0]);
      assert Joined(lines) + torn == (lines[0] + [LF]) + later;
      FeedSplit(FRESH, lines[0] + [LF], later);
    }
  }

  // ------------------------------------------------------------ end to end

  function Encodings(ms: seq<Message>): seq<seq<byte>> {
    if ms == [] then [] else [Encode(ms[0])] + Encodings(ms[1..])
  }

  function Decodings(lines: seq<seq<byte>>): seq<Option<Message>> {
    if lines == [] then [] else [Decode(lines[0])] + Decodings(lines[1..])
  }

  function Delivered(ms: seq<Message>): seq<Option<Message>> {
    if ms == [] then [] else [Some(ms[0])] + Delivered(ms[1..])
  }

  lemma {:induction false} EncodingsShort(ms: seq<Message>)
    requires forall i :: 0 <= i < |ms| ==> Sendable(ms[i]) && |Encode(ms[i])| <= MAX_LINE
    ensures forall i :: 0 <= i < |Encodings(ms)| ==> OneLine(Encodings(ms)[i])
    ensures Short(Encodings(ms)) == Encodings(ms)
    ensures Decodings(Encodings(ms)) == Delivered(ms)
  {
    if ms != [] {
      EncodingsShort(ms[1..]);
      EncodingClean(ms[0]);
      RoundTripExactly(ms[0]);
    }
  }

  /** Messages that can be sent, in lines that are not too long, written one
      after another and read in any pieces, are the messages received, in order,
      and nothing is reported lost. */
  lemma MessagesArrive(ms: seq<Message>, pieces: seq<seq<byte>>)
    requires forall i :: 0 <= i < |ms| ==> Sendable(ms[i]) && |Encode(ms[i])| <= MAX_LINE
    requires Flatten(pieces) == Joined(Encodings(ms))
    ensures var f := FeedAll(FRESH, pieces); Decodings(f.lines) == Delivered(ms) && !f.dropped && f.reader == FRESH
  {
    EncodingsShort(ms);
    FeedAllIsFeed(FRESH, pieces);
    EncodingsFit(ms);
    FeedLines(Encodings(ms), []);
    assert Joined(Encodings(ms)) + [] == Joined(Encodings(ms));
  }

  lemma {:induction false} EncodingsFit(ms: seq<Message>)
    requires forall i :: 0 <= i < |ms| ==> |Encode(ms[i])| <= MAX_LINE
    ensures !AnyLong(Encodings(ms))
  {
    if ms != [] {
      EncodingsFit(ms[1..]);
    }
  }

  /** Reading piece by piece. */
  function FeedAll(r: Reading, pieces: seq<seq<byte>>): Fed
    decreases |pieces|
  {
    if pieces == [] then Fed(r, [], false)
    else
      var first := Feed(r, pieces[0]);
      var rest := FeedAll(first.reader, pieces[1..]);
      Fed(rest.reader, first.lines + rest.lines, first.dropped || rest.dropped)
  }

  lemma {:induction false} FeedAllIsFeed(r: Reading, pieces: seq<seq<byte>>)
    ensures FeedAll(r, pieces) == Feed(r, Flatten(pieces))
    decreases |pieces|
  {
    if pieces != [] {
      FeedAllIsFeed(Feed(r, pieces[0]).reader, pieces[1..]);
      FeedSplit(r, pieces[0], Flatten(pieces[1..]));
    }
  }

  // ---------------------------------------------------- the loops themselves

  lemma {:induction false} EscapeBytesPush(s: seq<byte>, c: byte)
    ensures EscapeBytes(s + [c]) == EscapeBytes(s) + PercentByte(c)
  {
    if s == [] {
      assert s + [c] == [c] && [c][1..] == [];
    } else {
      assert (s + [c])[1..] == s[1..] + [c];
      EscapeBytesPush(s[1..], c);
    }
  }

  method EscapeLoop(s: seq<byte>) returns (out: seq<byte>)
    ensures out == Escape(s)
  {
    hide HexDigit;
    out := [];
    for i := 0 to |s|
      invariant out == EscapeBytes(s[..i])
    {
      EscapeBytesPush(s[..i], s[i]);
      assert s[..i + 1] == s[..i] + [s[i]];
      if 0x20 < s[i] < 0x7f && s[i] != PERCENT && s[i] != EQUALS {
        out := out + [s[i]];
      } else {
        out := out + [PERCENT];
        out := out + [HexDigit(s[i] / 16)];
        out := out + [HexDigit(s[i] % 16)];
      }
    }
    assert s[..|s|] == s;
    if s == [] {
      out := [PERCENT, 0x30, 0x30];
    }
  }

  method UnescapeLoop(s: seq<byte>) returns (out: seq<byte>)
    ensures out == Unescape(s)
  {
    out := [];
    var i := 0;
    assert s[0..] == s;
    while i < |s|
      invariant i <= |s| && out + Unescape(s[i..]) == Unescape(s)
      decreases |s| - i
    {
      var rest := s[i..];
      if s[i] == PERCENT && i + 2 < |s| && HexValue(s[i + 1]) >= 0 && HexValue(s[i + 2]) >= 0 {
        var c := HexValue(s[i + 1]) * 16 + HexValue(s[i + 2]);
        assert rest[3..] == s[i + 3..];
        Regroup(out, if c == NUL then [] else [c], Unescape(s[i + 3..]));
        if c != NUL {
          out := out + [c];
        } else {
          assert out + [] == out;
        }
        i := i + 3;
      } else {
        assert rest[1..] == s[i + 1..];
        Regroup(out, [s[i]], Unescape(s[i + 1..]));
        out := out + [s[i]];
        i := i + 1;
      }
    }
    assert s[i..] == [];
  }

  lemma {:induction false} EncodeFieldsPush(fields: seq<Field>, f: Field)
    ensures EncodeFields(fields + [f]) == EncodeFields(fields) + (if Bare(f.key) then [SPACE] + EncodeField(f) else [])
  {
    var last := if Bare(f.key) then [SPACE] + EncodeField(f) else [];
    if fields == [] {
      assert fields + [f] == [f] && [f][1..] == [];
      assert last + [] == [] + last;
    } else {
      assert (fields + [f])[1..] == fields[1..] + [f];
      EncodeFieldsPush(fields[1..], f);
      Regroup(if Bare(fields[0].key) then [SPACE] + EncodeField(fields[0]) else [], EncodeFields(fields[1..]), last);
    }
  }

  method EncodeLoop(m: Message) returns (out: seq<byte>)
    ensures out == Encode(m)
  {
    if !Bare(m.verb) {
      return [];
    }
    var body: seq<byte> := [];
    for i := 0 to |m.fields|
      invariant body == EncodeFields(m.fields[..i])
    {
      var f := m.fields[i];
      EncodeFieldsPush(m.fields[..i], f);
      assert m.fields[..i + 1] == m.fields[..i] + [f];
      if Bare(f.key) {
        var value := EscapeLoop(f.value);
        body := body + ([SPACE] + (f.key + [EQUALS] + value));
      }
    }
    assert m.fields[..|m.fields|] == m.fields;
    out := m.verb + body;
  }

  method SkipSpaces(s: seq<byte>, from: nat) returns (i: nat)
    requires from <= |s|
    ensures i == from + Spaces(s[from..]) <= |s|
  {
    i := from;
    while i < |s| && s[i] == SPACE
      invariant from <= i <= |s| && i + Spaces(s[i..]) == from + Spaces(s[from..])
    {
      assert s[i..][1..] == s[i + 1..];
      i := i + 1;
    }
  }

  method SkipToken(s: seq<byte>, from: nat) returns (i: nat)
    requires from <= |s|
    ensures i == from + Token(s[from..]) <= |s|
  {
    i := from;
    while i < |s| && s[i] != SPACE
      invariant from <= i <= |s| && i + Token(s[i..]) == from + Token(s[from..])
    {
      assert s[i..][1..] == s[i + 1..];
      i := i + 1;
    }
  }

  method EqualsIn(s: seq<byte>) returns (i: nat)
    ensures i == FindEquals(s)
  {
    i := 0;
    assert s[0..] == s;
    while i < |s| && s[i] != EQUALS
      invariant i <= |s| && i + FindEquals(s[i..]) == FindEquals(s)
    {
      assert s[i..][1..] == s[i + 1..];
      i := i + 1;
    }
  }

  method TrimEnd(s: seq<byte>) returns (end: nat)
    ensures end == LineEnd(s)
  {
    end := |s|;
    assert s[..|s|] == s;
    while end > 0 && (s[end - 1] == CR || s[end - 1] == LF)
      invariant end <= |s| && LineEnd(s[..end]) == LineEnd(s)
    {
      assert s[..end][..end - 1] == s[..end - 1];
      end := end - 1;
    }
  }

  lemma DecodeStep(u: seq<byte>, token: seq<byte>, rest: seq<byte>)
    requires u[Spaces(u)..] != []
    requires token == u[Spaces(u)..][..Token(u[Spaces(u)..])] && rest == u[Spaces(u)..][Token(u[Spaces(u)..])..]
    ensures DecodeFields(u) == if FieldOf(token).None? then None
            else Prepend([FieldOf(token).value], DecodeFields(rest))
  {
  }

  /** One turn of the loop over the fields. */
  lemma FieldStep(s: seq<byte>, i: nat, start: nat, next: nat)
    requires i <= start <= next <= |s| && start == i + Spaces(s[i..]) && start < |s|
             && next == start + Token(s[start..])
    ensures i < next
    ensures var field := FieldOf(s[start..next]);
            DecodeFields(s[i..]) == if field.None? then None else Prepend([field.value], DecodeFields(s[next..]))
  {
    hide FindEquals;
    DropDrop(s, i, start - i);
    DropDrop(s, start, next - start);
    assert s[start..][..next - start] == s[start..next];
    DecodeStep(s[i..], s[start..next], s[next..]);
    assert s[i..][start - i] == s[start..][0];
  }

  method DecodeFieldsLoop(s: seq<byte>) returns (fields: Option<seq<Field>>)
    ensures fields == DecodeFields(s)
  {
    var done: seq<Field> := [];
    var i := 0;
    assert s[0..] == s && (DecodeFields(s).Some? ==> [] + DecodeFields(s).value == DecodeFields(s).value);
    while i < |s|
      invariant i <= |s| && DecodeFields(s) == Prepend(done, DecodeFields(s[i..]))
      decreases |s| - i
    {
      var start := SkipSpaces(s, i);
      if start >= |s| {
        assert s[i..][Spaces(s[i..])..] == [];
        assert done + [] == done;
        return Some(done);
      }
      var next := SkipToken(s, start);
      FieldStep(s, i, start, next);
      var token := s[start..next];
      var eq := EqualsIn(token);
      if eq == |token| || !Bare(token[..eq]) {
        return None;
      }
      var value := UnescapeLoop(token[eq + 1..]);
      var f := Field(token[..eq], value);
      if DecodeFields(s[next..]).Some? {
        Regroup(done, [f], DecodeFields(s[next..]).value);
      }
      done := done + [f];
      i := next;
    }
    assert s[i..] == [] && done + [] == done;
    fields := Some(done);
  }

  method DecodeLoop(line: seq<byte>) returns (m: Option<Message>)
    ensures m == Decode(line)
  {
    var end := TrimEnd(line);
    var body := line[..end];
    var start := SkipSpaces(body, 0);
    assert body[0..] == body;
    if start >= |body| {
      return None;
    }
    var next := SkipToken(body, start);
    var verb := body[start..next];
    assert body[start..][..next - start] == verb && body[start..][next - start..] == body[next..];
    if !Bare(verb) {
      return None;
    }
    var fields := DecodeFieldsLoop(body[next..]);
    m := if fields.None? then None else Some(Message(verb, fields.value));
  }

  class LineReader {
    var buf: seq<byte>
    var dropping: bool

    predicate Valid()
      reads this
    {
      Bounded(Reading(buf, dropping))
    }

    constructor ()
      ensures Valid() && Reading(buf, dropping) == FRESH
    {
      buf, dropping := [], false;
    }

    /** Bytes in, lines out; `clean` tells whether no line was lost. */
    method FeedBytes(data: seq<byte>) returns (lines: seq<seq<byte>>, clean: bool)
      requires Valid()
      modifies this
      ensures Valid() && Fed(Reading(buf, dropping), lines, !clean) == Feed(old(Reading(buf, dropping)), data)
    {
      FeedBounded(Reading(buf, dropping), data);
      lines := [];
      var dropped := false;
      ghost var start := Reading(buf, dropping);
      for i := 0 to |data|
        invariant Fed(Reading(buf, dropping), lines, dropped) == Feed(start, data[..i])
      {
        var c := data[i];
        FeedSplit(start, data[..i], [c]);
        assert data[..i + 1] == data[..i] + [c] && [c][1..] == [];
        assert lines + [] == lines;
        if c == LF {
          if dropping {
            dropping := false;
            dropped := true;
          } else {
            lines := lines + [buf];
          }
          buf := [];
        } else if !dropping {
          if |buf| >= MAX_LINE {
            buf := [];
            dropping := true;
          } else {
            buf := buf + [c];
          }
        }
      }
      assert data[..|data|] == data;
      clean := !dropped;
    }
  }
}
