/** Appending to a camera log whose last line is not ended (src/camdb.cc,
    src/logscan.cc): wherever that line was cut, some record is then read wrong,
    and only to a file of whole lines is appending safe. */
module CamCut {
  import opened Bytes
  import opened Wrappers
  import opened LogScan
  import opened CamLines
  import opened CamLog
  import opened CamTorn

  // ------------------------------------------------ wherever the line was torn

  /** What every printed line with a kind in front begins with. */
  predicate BeginsAsLine(w: seq<byte>) {
    |w| >= 3 && w[0] == OPEN_BRACE && w[1] == QUOTE && w[2] != COLON && w[2] != COMMA && w[2] != CLOSE_BRACE
      && !IsSpace(w[2])
  }

  /** A string cut short takes the next line's brace and ends at its quote. */
  lemma {:induction false} TornString(s: seq<byte>, k: nat, w: seq<byte>)
    requires k <= |JsonEscape(s)| && BeginsAsLine(w)
    ensures ScanString(JsonEscape(s)[..k] + w) == Some(k + 2)
  {
    hide ScanString;
    if s == [] || k == 0 {
      assert JsonEscape(s)[..k] + w == w;
      LineEndsString(w);
    } else {
      var e, more := JsonByte(s[0]), JsonEscape(s[1..]);
      if k >= |e| {
        TornString(s[1..], k - |e|, w);
        assert (e + more)[..k] + w == e + (more[..k - |e|] + w);
        ScanEscapedByte(s[0], more[..k - |e|] + w);
      } else {
        assert (e + more)[..k] == e[..k];
        TornEscape(s[0], k, w);
      }
    }
  }

  lemma LineEndsString(w: seq<byte>)
    requires BeginsAsLine(w)
    ensures ScanString(w) == Some(2)
  {
    ScanPast(OPEN_BRACE, w[1..]);
    assert w == [OPEN_BRACE] + w[1..];
  }

  lemma EscapeShape(c: byte)
    requires |JsonByte(c)| > 1
    ensures JsonByte(c)[0] == BACKSLASH
    ensures forall i :: 2 <= i < |JsonByte(c)| ==> JsonByte(c)[i] != QUOTE && JsonByte(c)[i] != BACKSLASH
  {
    hide LowHex;
    LowHexIsPlain(c / 16);
    LowHexIsPlain(c % 16);
  }

  lemma TornEscape(c: byte, k: nat, w: seq<byte>)
    requires 0 < k < |JsonByte(c)| && BeginsAsLine(w)
    ensures ScanString(JsonByte(c)[..k] + w) == Some(k + 2)
  {
    hide JsonByte, ScanString;
    var e := JsonByte(c);
    EscapeShape(c);
    if k == 1 {
      StringEscape([BACKSLASH] + w);
      assert ([BACKSLASH] + w)[2..] == w[1..];
      StringCloses(w[1..]);
      assert e[..1] == [BACKSLASH];
    } else {
      var tail := e[2..k];
      TornHex(tail, w);
      ScanEscape(e[1], tail + w);
      assert e[..k] + w == [BACKSLASH, e[1]] + (tail + w);
    }
  }

  lemma {:induction false} TornHex(tail: seq<byte>, w: seq<byte>)
    requires BeginsAsLine(w) && forall i :: 0 <= i < |tail| ==> tail[i] != QUOTE && tail[i] != BACKSLASH
    ensures ScanString(tail + w) == Some(|tail| + 2)
  {
    if tail == [] {
      assert tail + w == w;
      LineEndsString(w);
    } else {
      TornHex(tail[1..], w);
      ScanPast(tail[0], tail[1..] + w);
      assert tail + w == [tail[0]] + (tail[1..] + w);
    }
  }

  /** A quoted text cut short is read up to the quote of the next line, and what
      is behind that goes on with a letter. */
  lemma TornQuoted(s: seq<byte>, k: nat, w: seq<byte>)
    requires 1 <= k < |Quoted(s)| && BeginsAsLine(w)
    ensures var t := Quoted(s)[..k] + w;
            ScanValue(t).Some? && ScanValue(t).value.rest == w[2..]
  {
    hide ScanString;
    var t := Quoted(s)[..k] + w;
    TornString(s, k - 1, w);
    assert Quoted(s)[..k] == [QUOTE] + JsonEscape(s)[..k - 1];
    assert t[1..] == JsonEscape(s)[..k - 1] + w;
    assert t[k + 2..] == w[2..];
  }

  lemma PlusPlus(a: nat, b: nat, r: Option<nat>)
    ensures Plus(a, Plus(b, r)) == Plus(a + b, r)
  {
  }

  /** A byte that a bracket count goes past. */
  predicate Uncounted(c: byte) {
    c != QUOTE && c != OPEN_BRACE && c != CLOSE_BRACE && c != OPEN_BRACKET && c != CLOSE_BRACKET
  }

  lemma NestedPast(c: byte, depth: int, inString: bool, rest: seq<byte>)
    requires if inString then c != QUOTE && c != BACKSLASH else Uncounted(c)
    ensures ScanNested([c] + rest, depth, inString) == Plus(1, ScanNested(rest, depth, inString))
  {
    NestedStep([c] + rest, depth, inString);
    assert ([c] + rest)[1..] == rest;
  }

  lemma {:induction false} NestedBytes(v: seq<byte>, depth: int, inString: bool, rest: seq<byte>)
    requires forall i :: 0 <= i < |v| ==> if inString then v[i] != QUOTE && v[i] != BACKSLASH else Uncounted(v[i])
    ensures ScanNested(v + rest, depth, inString) == Plus(|v|, ScanNested(rest, depth, inString))
  {
    hide ScanNested;
    if v == [] {
      assert v + rest == rest;
    } else {
      NestedBytes(v[1..], depth, inString, rest);
      NestedPast(v[0], depth, inString, v[1..] + rest);
      PlusPlus(1, |v| - 1, ScanNested(rest, depth, inString));
      assert v + rest == [v[0]] + (v[1..] + rest);
    }
  }

  lemma NestedEscaped(c: byte, depth: int, rest: seq<byte>)
    ensures ScanNested(JsonByte(c) + rest, depth, true) == Plus(|JsonByte(c)|, ScanNested(rest, depth, true))
  {
    hide ScanNested, LowHex;
    var e := JsonByte(c);
    if |e| == 1 {
      NestedPast(c, depth, true, rest);
    } else {
      var tail := e[2..];
      LowHexIsPlain(c / 16);
      LowHexIsPlain(c % 16);
      NestedBytes(tail, depth, true, rest);
      NestedEscape(e + rest, depth);
      DropConcat(e, rest, 2);
      PlusPlus(2, |tail|, ScanNested(rest, depth, true));
    }
  }

  lemma {:induction false} NestedText(s: seq<byte>, depth: int, rest: seq<byte>)
    ensures ScanNested(JsonEscape(s) + ([QUOTE] + rest), depth, true) ==
            Plus(|JsonEscape(s)| + 1, ScanNested(rest, depth, false))
  {
    hide ScanNested;
    if s == [] {
      NestedStep([QUOTE] + rest, depth, true);
      assert JsonEscape(s) + ([QUOTE] + rest) == [QUOTE] + rest && ([QUOTE] + rest)[1..] == rest;
    } else {
      var e, more := JsonByte(s[0]), JsonEscape(s[1..]);
      NestedText(s[1..], depth, rest);
      NestedEscaped(s[0], depth, more + ([QUOTE] + rest));
      Regroup(e, more, [QUOTE] + rest);
      PlusPlus(|e|, |more| + 1, ScanNested(rest, depth, false));
    }
  }

  lemma NestedQuoted(s: seq<byte>, depth: int, rest: seq<byte>)
    ensures ScanNested(Quoted(s) + rest, depth, false) == Plus(|Quoted(s)|, ScanNested(rest, depth, false))
  {
    hide ScanNested, JsonEscape;
    var body := JsonEscape(s) + ([QUOTE] + rest);
    NestedText(s, depth, rest);
    NestedStep([QUOTE] + body, depth, false);
    assert ([QUOTE] + body)[1..] == body;
    assert Quoted(s) + rest == [QUOTE] + body;
    PlusPlus(1, |JsonEscape(s)| + 1, ScanNested(rest, depth, false));
  }

  lemma BareIsUncounted(d: Datum)
    requires !d.Text?
    ensures forall i :: 0 <= i < |ShowDatum(d)| ==> Uncounted(ShowDatum(d)[i])
  {
    match d
    case Num(n, p) =>
      ShowIsNumber(n, p);
      forall i | 0 <= i < |Show(n, p)|
        ensures Uncounted(Show(n, p)[i])
      {
        assert NumberByte(Show(n, p)[i]);
      }
    case Flag(b) =>
      FlagIsUncounted(b);
  }

  lemma FlagIsUncounted(b: bool)
    ensures forall i :: 0 <= i < |FlagText(b)| ==> Uncounted(FlagText(b)[i])
  {
    var s := if b then "true" else "false";
    assert FlagText(b) == Ascii(s);
    forall i | 0 <= i < |s|
      ensures Uncounted(Ascii(s)[i])
    {
    }
  }

  lemma NestedDatum(d: Datum, depth: int, rest: seq<byte>)
    ensures ScanNested(ShowDatum(d) + rest, depth, false) == Plus(|ShowDatum(d)|, ScanNested(rest, depth, false))
  {
    hide ScanNested;
    if d.Text? {
      NestedQuoted(d.s, depth, rest);
    } else {
      BareIsUncounted(d);
      NestedBytes(ShowDatum(d), depth, false, rest);
    }
  }

  function MemberOf(f: Field): Member {
    Member(Spell(f.key), ShowDatum(f.datum))
  }

  lemma NestedMember(f: Field, depth: int, rest: seq<byte>)
    ensures ScanNested(PrintMember(MemberOf(f)) + rest, depth, false) ==
            Plus(|PrintMember(MemberOf(f))|, ScanNested(rest, depth, false))
  {
    hide ScanNested, Quoted, ShowDatum, Spell;
    var key, value := Quoted(Spell(f.key)), ShowDatum(f.datum);
    NestedDatum(f.datum, depth, rest);
    NestedPast(COLON, depth, false, value + rest);
    NestedQuoted(Spell(f.key), depth, [COLON] + (value + rest));
    assert PrintMember(MemberOf(f)) + rest == key + ([COLON] + (value + rest));
    PlusPlus(1, |value|, ScanNested(rest, depth, false));
    PlusPlus(|key|, 1 + |value|, ScanNested(rest, depth, false));
  }

  lemma RenderFirst(fs: seq<Field>)
    requires fs != []
    ensures Render(fs) == [MemberOf(fs[0])] + Render(fs[1..]) && Render(fs)[0] == MemberOf(fs[0])
            && Render(fs)[1..] == Render(fs[1..])
  {
  }

  lemma {:induction false} NestedMore(fs: seq<Field>, rest: seq<byte>)
    requires fs != []
    ensures ScanNested(PrintMore(Render(fs)) + rest, 1, false) == Some(|PrintMore(Render(fs))|)
    decreases |fs|
  {
    hide ScanNested, PrintMember, Render, MemberOf;
    var first := PrintMember(MemberOf(fs[0]));
    RenderFirst(fs);
    if |fs| == 1 {
      NestedMember(fs[0], 1, [CLOSE_BRACE] + rest);
      NestedCloses([CLOSE_BRACE] + rest);
      Regroup(first, [CLOSE_BRACE], rest);
    } else {
      var more := PrintMore(Render(fs[1..]));
      NestedMore(fs[1..], rest);
      NestedPast(COMMA, 1, false, more + rest);
      NestedMember(fs[0], 1, [COMMA] + (more + rest));
      assert PrintMore(Render(fs)) + rest == first + ([COMMA] + (more + rest));
    }
  }

  /** A printed line, as a value, is the whole of itself. */
  lemma LineIsAValue(fs: seq<Field>)
    requires fs != []
    ensures ScanValue(Print(Render(fs))) == Some(Value(Print(Render(fs)), []))
  {
    hide ScanNested, PrintMore, Render;
    var w, more := Print(Render(fs)), PrintMore(Render(fs));
    NestedMore(fs, []);
    assert more + [] == more && w[1..] == more;
    NestedStep(w, 0, false);
    assert w[..|w|] == w && w[|w|..] == [];
  }

  // ------------------------------------------------------- the merged line read

  /** A line whose first member is a text without commas or brackets: what all
      lines of the log are. */
  ghost predicate LineLike(gs: seq<Field>) {
    && |gs| >= 2 && gs[0].datum.Text?
    && NoEnds(PrintMember(MemberOf(gs[0]))) && BeginsAsLine(Print(Render(gs)))
  }

  lemma NoPair(t: seq<byte>, fields: Rec)
    requires t != [] && !IsSpace(t[0]) && t[0] != QUOTE
    ensures ScanMore(t, fields) == None
  {
  }

  lemma NoColon(t: seq<byte>, fields: Rec)
    requires t != [] && t[0] == QUOTE && ScanValue(t).Some?
    requires var rest := ScanValue(t).value.rest; rest != [] && !IsSpace(rest[0]) && rest[0] != COLON
    ensures ScanMore(t, fields) == None
  {
    hide ScanValue;
  }

  /** A pair behind which the object neither goes on nor ends. */
  lemma NoMore(key: seq<byte>, after: seq<byte>, fields: Rec)
    requires ScanValue(after).Some?
    requires var rest := ScanValue(after).value.rest;
             rest == [] || (!IsSpace(rest[0]) && rest[0] != COMMA && rest[0] != CLOSE_BRACE)
    ensures ScanMore(Quoted(key) + ([COLON] + after), fields) == None
  {
    hide ScanValue, JsonString, Quoted;
    KeyThen(key, after);
  }

  lemma KeyThen(key: seq<byte>, after: seq<byte>)
    requires ScanValue(after).Some?
    ensures var t := Quoted(key) + ([COLON] + after);
            ScanPair(t) == Some(Pair(key, ScanValue(after).value.raw, ScanValue(after).value.rest))
  {
    hide ScanValue, ScanPair;
    var t := Quoted(key) + ([COLON] + after);
    ScanQuoted(key, [COLON] + after);
    JsonRoundTrip(key);
    PairStep(t, Quoted(key), after, key, ScanValue(after).value.raw, ScanValue(after).value.rest);
  }

  /** Cut inside a name, or right behind one. */
  lemma CutKey(key: seq<byte>, n: nat, w: seq<byte>, fields: Rec)
    requires n <= |Quoted(key)| && BeginsAsLine(w)
    ensures ScanMore(Quoted(key)[..n] + w, fields) == None
  {
    hide ScanMore, ScanValue;
    if n == 0 {
      assert Quoted(key)[..n] + w == w;
      NoPair(w, fields);
    } else if n < |Quoted(key)| {
      TornQuoted(key, n, w);
      NoColon(Quoted(key)[..n] + w, fields);
    } else {
      assert Quoted(key)[..n] == Quoted(key);
      ScanQuoted(key, w);
      NoColon(Quoted(key) + w, fields);
    }
  }

  /** Cut inside a text, or right behind one. */
  lemma CutText(key: seq<byte>, s: seq<byte>, n: nat, w: seq<byte>, fields: Rec)
    requires 1 <= n <= |Quoted(s)| && BeginsAsLine(w)
    ensures ScanMore(Quoted(key) + ([COLON] + (Quoted(s)[..n] + w)), fields) == None
  {
    hide ScanMore, ScanValue;
    if n < |Quoted(s)| {
      TornQuoted(s, n, w);
    } else {
      assert Quoted(s)[..n] == Quoted(s);
      ScanQuoted(s, w);
    }
    NoMore(key, Quoted(s)[..n] + w, fields);
  }

  /** Cut between a name's colon and its value: the next line is the value, and
      nothing is left to end the object. */
  lemma CutColon(key: seq<byte>, gs: seq<Field>, fields: Rec)
    requires LineLike(gs)
    ensures ScanMore(Quoted(key) + ([COLON] + Print(Render(gs))), fields) == None
  {
    hide ScanMore, ScanValue;
    LineIsAValue(gs);
    NoMore(key, Print(Render(gs)), fields);
  }

  /** Cut inside a bare token, or right behind one: it swallows the next line's
      first member, and the rest of that line completes this one. */
  lemma CutBare(key: seq<byte>, d: Datum, n: nat, gs: seq<Field>, fields: Rec) returns (v: seq<byte>)
    requires !d.Text? && 1 <= n <= |ShowDatum(d)| && LineLike(gs)
    ensures ScanMore(Quoted(key) + ([COLON] + (ShowDatum(d)[..n] + Print(Render(gs)))), fields) ==
            Some(Members(FieldsOf(Render(gs[1..]), fields[key := v]), []))
  {
    hide ScanMore, ScanValue, Print, PrintMember, PrintMore, Quoted, Render, ShowDatum, BareToken;
    var first, more := PrintMember(MemberOf(gs[0])), PrintMore(Render(gs[1..]));
    v := ShowDatum(d)[..n] + ([OPEN_BRACE] + first);
    PrintedFirst(gs);
    var after := v + ([COMMA] + more);
    assert ShowDatum(d)[..n] + Print(Render(gs)) == after;
    SwollenIsBare(d, n, gs);
    ScanPrintable(v, [COMMA] + more);
    KeyThen(key, after);
    MoreStep(Quoted(key) + ([COLON] + after), fields, key, v, COMMA, more);
    RenderPrints(gs[1..]);
    ScanMorePrinted(Render(gs[1..]), fields[key := v], []);
    assert more + [] == more;
  }

  lemma PrintedFirst(gs: seq<Field>)
    requires |gs| >= 2
    ensures Print(Render(gs)) == [OPEN_BRACE] + PrintMember(MemberOf(gs[0])) + ([COMMA] + PrintMore(Render(gs[1..])))
    ensures Render(gs[1..]) != []
  {
    hide PrintMember;
    RenderFirst(gs);
    PrintMoreFirst(Render(gs));
  }

  lemma SwollenIsBare(d: Datum, n: nat, gs: seq<Field>)
    requires !d.Text? && 1 <= n <= |ShowDatum(d)| && LineLike(gs)
    ensures BareToken(ShowDatum(d)[..n] + ([OPEN_BRACE] + PrintMember(MemberOf(gs[0]))))
  {
    hide ShowDatum, PrintMember, Render, Print, MemberOf;
    var v, first := ShowDatum(d)[..n], PrintMember(MemberOf(gs[0]));
    DatumIsBare(d);
    TextEnds(gs[0]);
    var all := v + ([OPEN_BRACE] + first);
    assert all[0] == ShowDatum(d)[0] && all[|all| - 1] == QUOTE;
    forall i | 0 <= i < |all|
      ensures !Ends(all[i])
    {
      if i < n {
        assert all[i] == ShowDatum(d)[i];
      } else if i > n {
        assert all[i] == first[i - n - 1];
      }
    }
  }

  lemma DatumIsBare(d: Datum)
    requires !d.Text?
    ensures BareToken(ShowDatum(d))
  {
    match d
    case Num(n, p) => ShowIsBare(n, p);
    case Flag(b) => FlagIsBare(b);
  }

  lemma TextEnds(f: Field)
    requires f.datum.Text?
    ensures var m := PrintMember(MemberOf(f)); m != [] && m[|m| - 1] == QUOTE
  {
  }

  /** What reading a cut line with another behind it can come to: nothing, or a
      record that keeps what was already read under a name that neither has left
      to say. */
  ghost predicate Keeps(r: Option<Members>, fields: Rec, name: seq<byte>) {
    r.Some? ==> name in fields && name in r.value.fields && r.value.fields[name] == fields[name]
  }

  lemma CutMember(f: Field, n: nat, gs: seq<Field>, fields: Rec, k: Key)
    requires LineLike(gs) && n <= |PrintMember(MemberOf(f))| && f.key != k && Lookup(gs[1..], k) == None
    requires Spell(k) in fields
    ensures Keeps(ScanMore(PrintMember(MemberOf(f))[..n] + Print(Render(gs)), fields), fields, Spell(k))
    ensures f.datum.Text? ==> ScanMore(PrintMember(MemberOf(f))[..n] + Print(Render(gs)), fields) == None
  {
    hide ScanMore, Print, Quoted, Render, ShowDatum, Spell, FieldsOf, Lookup, BeginsAsLine;
    var key, value, w := Quoted(Spell(f.key)), ShowDatum(f.datum), Print(Render(gs));
    assert BeginsAsLine(w);
    CutAt(key, value, n);
    if n <= |key| {
      CutKey(Spell(f.key), n, w, fields);
    } else if n == |key| + 1 {
      assert key + [COLON] + w == key + ([COLON] + w);
      CutColon(Spell(f.key), gs, fields);
    } else {
      var j := n - |key| - 1;
      assert key + [COLON] + value[..j] + w == key + ([COLON] + (value[..j] + w));
      if f.datum.Text? {
        ShownText(f.datum);
        CutText(Spell(f.key), f.datum.s, j, w, fields);
      } else {
        var v := CutBare(Spell(f.key), f.datum, j, gs, fields);
        SpellApart(f.key, k);
        RenderedAt(gs[1..], fields[Spell(f.key) := v], k);
      }
    }
  }

  lemma ShownText(d: Datum)
    requires d.Text?
    ensures ShowDatum(d) == Quoted(d.s)
  {
  }

  lemma CutAt(key: seq<byte>, value: seq<byte>, n: nat)
    requires n <= |key| + 1 + |value|
    ensures (key + [COLON] + value)[..n] ==
            if n <= |key| then key[..n]
            else if n == |key| + 1 then key + [COLON]
            else key + [COLON] + value[..n - |key| - 1]
  {
  }

  lemma {:induction false} CutMembers(fs: seq<Field>, n: nat, gs: seq<Field>, fields: Rec, k: Key)
    requires LineLike(gs) && fs != [] && n < |PrintMore(Render(fs))|
    requires Lookup(fs, k) == None && Lookup(gs[1..], k) == None && Spell(k) in fields
    ensures Keeps(ScanMore(PrintMore(Render(fs))[..n] + Print(Render(gs)), fields), fields, Spell(k))
    decreases |fs|
  {
    hide ScanMore, Print, PrintMember, Render, Spell, LineLike, ShowDatum;
    LineLikeFirst(gs);
    var f, w := fs[0], Print(Render(gs));
    var first := PrintMember(MemberOf(f));
    RenderFirst(fs);
    if n <= |first| {
      assert PrintMore(Render(fs))[..n] == first[..n];
      CutMember(f, n, gs, fields, k);
    } else {
      var more, m := PrintMore(Render(fs[1..])), n - |first| - 1;
      assert PrintMore(Render(fs)) == first + ([COMMA] + more);
      var rest := more[..m] + w;
      assert PrintMore(Render(fs))[..n] + w == first + ([COMMA] + rest);
      MemberThen(f, rest, fields);
      SpellApart(f.key, k);
      CutMembers(fs[1..], m, gs, fields[Spell(f.key) := ShowDatum(f.datum)], k);
    }
  }

  lemma MemberThen(f: Field, rest: seq<byte>, fields: Rec)
    ensures ScanMore(PrintMember(MemberOf(f)) + ([COMMA] + rest), fields) ==
            ScanMore(rest, fields[Spell(f.key) := ShowDatum(f.datum)])
  {
    hide ScanMore, PrintMember, ShowDatum, Spell;
    DatumPrints(f.datum);
    ScanPairPrinted(MemberOf(f), [COMMA] + rest);
    MoreStep(PrintMember(MemberOf(f)) + ([COMMA] + rest), fields, Spell(f.key), ShowDatum(f.datum), COMMA, rest);
  }

  /** A line cut anywhere with another behind it is read as nothing, or as a line
      of the kind of the one that was cut. */
  lemma CutLineKind(fs: seq<Field>, n: nat, gs: seq<Field>)
    requires LineLike(fs) && LineLike(gs) && fs[0].key == gs[0].key == T && Lookup(fs[1..], T) == None
             && Lookup(gs[1..], T) == None
    requires 0 < n < |Print(Render(fs))|
    ensures var r := ParseRecord(Print(Render(fs))[..n] + Print(Render(gs)));
            r.Some? ==> TextOf(r.value, T, []) == fs[0].datum.s
  {
    hide ScanMore, Print, PrintMember, PrintMore, Render, Spell, LineLike, ShowDatum, Lookup, TextOf, MemberOf;
    LineLikeFirst(fs);
    LineLikeFirst(gs);
    var w, body := Print(Render(gs)), PrintMore(Render(fs));
    var first, more := PrintMember(MemberOf(fs[0])), PrintMore(Render(fs[1..]));
    LineLikeBegins(gs);
    CutOpened(fs, n, w);
    if n - 1 <= |first| {
      assert body[..n - 1] == first[..n - 1];
      CutFirst(fs[0], n - 1, gs);
    } else {
      var m := n - 2 - |first|;
      assert body[..n - 1] + w == first + ([COMMA] + (more[..m] + w));
      MemberThen(fs[0], more[..m] + w, map[]);
      CutMembers(fs[1..], m, gs, map[Spell(T) := ShowDatum(fs[0].datum)], T);
      var r := ScanMore(body[..n - 1] + w, map[]);
      if r.Some? {
        ShownText(fs[0].datum);
        TextRead(r.value.fields, T, fs[0].datum.s, []);
      }
    }
  }

  /** Cut in its first member, nothing is read at all. */
  lemma CutFirst(f: Field, n: nat, gs: seq<Field>)
    requires LineLike(gs) && f.datum.Text? && n <= |PrintMember(MemberOf(f))|
    ensures ScanMore(PrintMember(MemberOf(f))[..n] + Print(Render(gs)), map[]) == None
  {
    hide ScanMore, Print, Quoted, Render, Spell, BeginsAsLine;
    var key, s, w := Quoted(Spell(f.key)), f.datum.s, Print(Render(gs));
    assert BeginsAsLine(w);
    ShownText(f.datum);
    CutAt(key, Quoted(s), n);
    if n <= |key| {
      CutKey(Spell(f.key), n, w, map[]);
    } else if n == |key| + 1 {
      assert key + [COLON] + w == key + ([COLON] + w);
      CutColon(Spell(f.key), gs, map[]);
    } else {
      assert key + [COLON] + Quoted(s)[..n - |key| - 1] + w == key + ([COLON] + (Quoted(s)[..n - |key| - 1] + w));
      CutText(Spell(f.key), s, n - |key| - 1, w, map[]);
    }
  }

  lemma LineLikeFirst(gs: seq<Field>)
    requires LineLike(gs)
    ensures |gs| >= 2 && gs[0].datum.Text? && PrintMore(Render(gs)) ==
            PrintMember(MemberOf(gs[0])) + ([COMMA] + PrintMore(Render(gs[1..])))
    ensures PrintMore(Render(gs)) != []
  {
    hide PrintMember;
    RenderFirst(gs);
    PrintMoreFirst(Render(gs));
  }

  lemma LineLikeBegins(gs: seq<Field>)
    requires LineLike(gs)
    ensures BeginsAsLine(Print(Render(gs)))
  {
  }

  /** Behind its opening brace a cut line is a cut list of members. */
  lemma CutOpened(fs: seq<Field>, n: nat, w: seq<byte>)
    requires LineLike(fs) && 0 < n < |Print(Render(fs))| && BeginsAsLine(w)
    ensures |Print(Render(fs))| == 1 + |PrintMore(Render(fs))|
    ensures var r := ScanMore(PrintMore(Render(fs))[..n - 1] + w, map[]);
            ParseRecord(Print(Render(fs))[..n] + w) == if r.None? then None else Some(r.value.fields)
  {
    hide ScanMore, PrintMore, Render, Print, ParseRecord;
    PrintOpens(fs);
    var body := PrintMore(Render(fs));
    var v := body[..n - 1] + w;
    assert Print(Render(fs))[..n] + w == [OPEN_BRACE] + v;
    assert !IsSpace(v[0]) && v[0] != CLOSE_BRACE by { BodyBegins(fs); }
    ParsesOpened(v);
  }

  lemma PrintOpens(fs: seq<Field>)
    requires LineLike(fs)
    ensures Print(Render(fs)) == [OPEN_BRACE] + PrintMore(Render(fs))
  {
    hide PrintMore;
  }

  lemma ParsesOpened(v: seq<byte>)
    requires v != [] && !IsSpace(v[0]) && v[0] != CLOSE_BRACE
    ensures var r := ScanMore(v, map[]); ParseRecord([OPEN_BRACE] + v) == if r.None? then None else Some(r.value.fields)
  {
    hide ScanMore, ScanMembers;
    OpensWith(v);
  }

  lemma BodyBegins(fs: seq<Field>)
    requires LineLike(fs)
    ensures PrintMore(Render(fs)) != [] && PrintMore(Render(fs))[0] == QUOTE
  {
    RenderFirst(fs);
    PrintMoreAs(Render(fs), []);
  }

  lemma OpensWith(v: seq<byte>)
    requires v != [] && !IsSpace(v[0]) && v[0] != CLOSE_BRACE
    ensures ScanMembers([OPEN_BRACE] + v) == ScanMore(v, map[])
  {
    hide ScanMore;
    assert ([OPEN_BRACE] + v)[1..] == v;
  }

  // -------------------------------------------------- entries that show it up

  lemma EntryIsLine(e: Entry)
    ensures LineLike(EntryFields(e)) && EntryFields(e)[0].key == T && Lookup(EntryFields(e)[1..], T) == None
  {
    KindBegins(e);
    KindIsOnce(e);
  }

  function KindOf(e: Entry): seq<byte> {
    if e.Saw? then CAMERA_LINE else if e.Wrote? then WRITE_LINE else COMPACT_LINE
  }

  lemma KindBegins(e: Entry)
    ensures |EntryFields(e)| >= 2 && EntryFields(e)[0] == Field(T, Text(KindOf(e)))
    ensures LineLike(EntryFields(e))
  {
    hide PrintMember, ShowDatum, Spell, BeginsAsLine;
    var gs := EntryFields(e);
    assert gs[0] == Field(T, Text(KindOf(e)));
    KindHasNoEnds(KindOf(e));
    LineBeginsAsLine(gs);
  }

  lemma KindHasNoEnds(kind: seq<byte>)
    requires kind == CAMERA_LINE || kind == WRITE_LINE || kind == COMPACT_LINE
    ensures NoEnds(PrintMember(MemberOf(Field(T, Text(kind)))))
  {
    hide JsonEscape;
    assert NoEnds(Spell(T)) && NoEnds(kind);
    EscapeNoEnds(Spell(T));
    EscapeNoEnds(kind);
  }

  lemma {:induction false} LineBeginsAsLine(gs: seq<Field>)
    requires gs != [] && gs[0].key == T
    ensures BeginsAsLine(Print(Render(gs)))
  {
    hide PrintMore, JsonEscape, ShowDatum, PrintMember;
    RenderFirst(gs);
    var m := MemberOf(gs[0]);
    assert Spell(T) == [0x74];
    MemberBegins(m);
    PrintMoreAs(Render(gs), []);
    assert PrintMore(Render(gs)) + [] == PrintMore(Render(gs));
  }

  lemma MemberBegins(m: Member)
    requires m.key == [0x74]
    ensures var p := PrintMember(m); |p| >= 3 && p[0] == QUOTE && p[1] == 0x74
  {
    assert m.key[1..] == [];
    assert JsonEscape(m.key) == [0x74] + [];
  }

  lemma KindIsOnce(e: Entry)
    ensures Lookup(EntryFields(e)[1..], T) == None
  {
    var rest := EntryFields(e)[1..];
    match e
    case Saw(id, c) =>
      var base := BaseFields(id, c)[1..];
      assert rest == base + LearnedFields(c);
      NotLearned(c, T, base);
    case Wrote(id, s) => LookupNone(rest, T);
    case Compacted(w, n, k) => LookupNone(rest, T);
  }

  /** A line of another kind, about a body not yet known: what shows up that
      something was lost. */
  function Witness(d: Entry, x: CamId): Entry {
    if d.Saw? then Wrote(x, Sample(0, 0, 0, 0, 0, 0, 0, false, false, 0)) else Saw(x, BLANK)
  }

  lemma {:induction false} FreshId(ids: set<CamId>) returns (x: CamId)
    ensures x != [] && forall id :: id in ids ==> |id| < |x|
    decreases ids
  {
    if ids == {} {
      x := [0];
    } else {
      var y :| y in ids;
      var z := FreshId(ids - {y});
      x := if |z| > |y| then z else y + [0];
    }
  }

  /** A record of another kind never does what the witness does. */
  lemma OtherKind(m: Cameras, r: Rec, d: Entry, x: CamId, max: nat)
    requires x !in m && x != [] && TextOf(r, T, []) == KindOf(d)
    ensures ReplayRecord(m, r, max) != Apply(m, Witness(d, x), max)
  {
    hide TextOf, ReadCamera, ReadSample;
    KindsApart();
    var id, e := TextOf(r, Id, []), Witness(d, x);
    var m' := Apply(m, e, max);
    assert x in m';
    if d.Saw? {
      assert m'[x].samples == Window([e.sample], max) by { assert [] + [e.sample] == [e.sample]; }
      assert m'[x].samples != [];
      ReadKeepsSamples(r, Recall(m, id));
    } else {
      assert m'[x].samples == [];
      PushIsSome(Recall(m, id), ReadSample(r), max);
    }
  }

  lemma ReadKeepsSamples(r: Rec, c: Camera)
    ensures ReadCamera(r, c).samples == c.samples
  {
  }

  lemma PushIsSome(c: Camera, s: Sample, max: nat)
    ensures Push(c, s, max).samples != []
  {
  }

  // ------------------------------------------------------- exactly whole lines

  /** Appending the entry to the text does to the replay what the entry says. */
  predicate AppendsWell(text: seq<byte>, e: Entry, max: nat) {
    Replay(map[], text + Line(e) + [LF], max) == Apply(Replay(map[], text, max), e, max)
  }

  /** A last line cut anywhere, or whole but not ended, spoils some append. */
  lemma CutSpoils(text: seq<byte>, d: Entry, n: nat, max: nat) returns (e: Entry)
    requires Whole(text) && 0 < n <= |Line(d)|
    ensures Named(e) && !AppendsWell(text + Line(d)[..n], e, max)
  {
    hide Replay, ReplayLine, Line, Apply, Witness;
    var torn := Line(d)[..n];
    var m := Replay(map[], text + torn, max);
    var x := FreshId(m.Keys);
    e := Witness(d, x);
    WitnessIsNamed(d, x);
    LineIsOneLine(d);
    LineIsOneLine(e);
    OneLineCut(Line(d), n, Line(e));
    CutReplays(text, torn, Line(e), max);
    if n < |Line(d)| {
      TornCostsOne(text, d, n, max);
      TornDiffers(Replay(map[], text, max), d, n, x, max);
    } else {
      assert torn == Line(d);
      WholeDiffers(Replay(map[], text, max), d, x, max);
    }
  }

  lemma WitnessIsNamed(d: Entry, x: CamId)
    requires x != []
    ensures Named(Witness(d, x))
  {
  }

  lemma CutReplays(text: seq<byte>, w: seq<byte>, more: seq<byte>, max: nat)
    requires Whole(text) && OneLine(w) && OneLine(w + more)
    ensures Replay(map[], text + w, max) == ReplayLine(Replay(map[], text, max), w, max)
    ensures Replay(map[], text + w + more + [LF], max) == ReplayLine(Replay(map[], text, max), w + more, max)
  {
    hide Replay, ReplayLine;
    LastReplays(text, w, max);
    LastReplays(text, w + more, max);
    Regroup(text, w, more);
  }

  lemma OneLineCut(a: seq<byte>, n: nat, b: seq<byte>)
    requires n <= |a| && OneLine(a) && OneLine(b)
    ensures OneLine(a[..n]) && OneLine(a[..n] + b)
  {
  }

  lemma LastReplays(text: seq<byte>, line: seq<byte>, max: nat)
    requires Whole(text) && OneLine(line)
    ensures Replay(map[], text + line, max) == ReplayLine(Replay(map[], text, max), line, max)
    ensures Replay(map[], text + line + [LF], max) == ReplayLine(Replay(map[], text, max), line, max)
  {
    hide Replay, ReplayLine;
    ReplayResumes(map[], text, line, max);
    ReplayResumes(map[], text, line + [LF], max);
    ReplayLast(Replay(map[], text, max), line, max);
    Regroup(text, line, [LF]);
  }

  lemma TornDiffers(m: Cameras, d: Entry, n: nat, x: CamId, max: nat)
    requires 0 < n < |Line(d)| && x !in m && x != []
    ensures ReplayLine(m, Line(d)[..n] + Line(Witness(d, x)), max) != Apply(m, Witness(d, x), max)
  {
    hide ReplayRecord, ParseRecord, Print, Render, EntryFields, Apply, Witness, TextOf, LineLike, Lookup;
    var e := Witness(d, x);
    var line := Line(d)[..n] + Line(e);
    EntryIsLine(d);
    EntryIsLine(e);
    KindBegins(d);
    CutLineKind(EntryFields(d), n, EntryFields(e));
    var r := ParseRecord(line);
    WitnessAdds(m, d, x, max);
    if r.Some? {
      OtherKind(m, r.value, d, x, max);
    }
  }

  lemma WitnessAdds(m: Cameras, d: Entry, x: CamId, max: nat)
    ensures x in Apply(m, Witness(d, x), max)
  {
  }

  lemma WholeDiffers(m: Cameras, d: Entry, x: CamId, max: nat)
    requires x !in ReplayLine(m, Line(d), max)
    ensures ReplayLine(m, Line(d) + Line(Witness(d, x)), max) != Apply(ReplayLine(m, Line(d), max), Witness(d, x), max)
  {
    hide ReplayRecord, Print, Render, EntryFields, Apply, Witness, ScanMembers;
    var fs, w := EntryFields(d), Line(Witness(d, x));
    RenderPrints(fs);
    ScanPrinted(Render(fs), w);
    PrintedBack(fs);
    WitnessAdds(ReplayLine(m, Line(d), max), d, x, max);
  }

  /** Behind whole lines, whatever line is next appended says what it says exactly
      when nothing of an earlier one is left standing without its end. */
  lemma SafeExactlyWhenWhole(text: seq<byte>, d: Entry, n: nat, max: nat)
    requires Whole(text) && n <= |Line(d)|
    ensures (forall e {:trigger AppendsWell(text + Line(d)[..n], e, max)} :: Named(e) ==>
             AppendsWell(text + Line(d)[..n], e, max))
            <==> n == 0
  {
    hide AppendsWell, Line;
    if n == 0 {
      assert text + Line(d)[..n] == text;
      forall e | Named(e)
        ensures AppendsWell(text, e, max)
      {
        AppendsBehindWhole(text, e, max);
      }
    } else {
      var e := CutSpoils(text, d, n, max);
    }
  }

  lemma AppendsBehindWhole(text: seq<byte>, e: Entry, max: nat)
    requires Whole(text) && Named(e)
    ensures AppendsWell(text, e, max)
  {
    hide Replay, Line, Apply;
    AppendReplays(text, e, max);
  }
}
