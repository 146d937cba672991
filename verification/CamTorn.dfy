/** What one append too many does to a torn camera log: a write line cut just
    behind its latency, and a camera line appended to it with no line end between
    them (src/camdb.cc, src/logscan.cc). */
module CamTorn {
  import opened Bytes
  import opened Wrappers
  import opened LogScan
  import opened CamLines
  import opened CamLog

  lemma {:induction false} RenderAppend(a: seq<Field>, b: seq<Field>)
    ensures Render(a + b) == Render(a) + Render(b)
  {
    if a == [] {
      assert a + b == b;
    } else {
      assert (a + b)[1..] == a[1..] + b;
      RenderAppend(a[1..], b);
    }
  }

  lemma {:induction false} FieldsOfAppend(a: seq<Member>, b: seq<Member>, m: Rec)
    ensures FieldsOf(a + b, m) == FieldsOf(b, FieldsOf(a, m))
  {
    if a == [] {
      assert a + b == b;
    } else {
      assert (a + b)[1..] == a[1..] + b;
      FieldsOfAppend(a[1..], b, m[a[0].key := a[0].value]);
    }
  }

  /** A line without its closing brace is where a longer line begins. */
  lemma {:induction false} MoreBegins(a: seq<Member>, b: seq<Member>)
    requires a != [] && b != []
    ensures PrintMore(a)[..|PrintMore(a)| - 1] + [COMMA] + PrintMore(b) == PrintMore(a + b)
  {
    hide PrintMember;
    var first := PrintMember(a[0]);
    if |a| == 1 {
      assert (a + b)[1..] == b;
      assert (first + [CLOSE_BRACE])[..|first|] == first;
      Regroup(first, [COMMA], PrintMore(b));
    } else {
      assert (a + b)[1..] == a[1..] + b;
      MoreBegins(a[1..], b);
      PrintMoreFirst(a);
      PrintMoreFirst(a + b);
      Regroup([COMMA], [], PrintMore(b));
      InFront(first + [COMMA], PrintMore(a[1..]), [COMMA] + PrintMore(b), PrintMore(a[1..] + b));
    }
  }

  lemma LineBegins(a: seq<Member>, b: seq<Member>)
    requires a != [] && b != []
    ensures |Print(a)| - 1 < |Print(a + b)|
    ensures Print(a + b)[..|Print(a)| - 1] == Print(a)[..|Print(a)| - 1]
  {
    MoreBegins(a, b);
    var head := PrintMore(a)[..|PrintMore(a)| - 1];
    assert Print(a)[..|Print(a)| - 1] == [OPEN_BRACE] + head;
    assert Print(a + b) == [OPEN_BRACE] + head + ([COMMA] + PrintMore(b));
  }

  predicate NoEnds(t: seq<byte>) {
    forall i :: 0 <= i < |t| ==> !Ends(t[i])
  }

  lemma {:induction false} EscapeNoEnds(s: seq<byte>)
    requires NoEnds(s)
    ensures NoEnds(JsonEscape(s))
  {
    if s != [] {
      EscapeNoEnds(s[1..]);
      assert NoEnds(JsonByte(s[0]));
    }
  }

  /** What a number swallows when it runs into the camera line behind it. */
  const SWALLOWED := [OPEN_BRACE] + PrintMember(Member(Spell(T), Quoted(CAMERA_LINE)))

  lemma SwallowedIsBare(n: int, p: nat)
    ensures BareToken(Show(n, p) + SWALLOWED)
  {
    hide Show;
    ShowIsBare(n, p);
    SwallowedHasNoEnds();
    LongerIsBare(Show(n, p), SWALLOWED);
  }

  lemma SwallowedHasNoEnds()
    ensures NoEnds(SWALLOWED) && SWALLOWED != [] && SWALLOWED[|SWALLOWED| - 1] == QUOTE
  {
    hide JsonEscape, Spell, CAMERA_LINE;
    assert NoEnds(Spell(T)) && NoEnds(CAMERA_LINE) by { NamesHaveNoEnds(); }
    EscapeNoEnds(Spell(T));
    EscapeNoEnds(CAMERA_LINE);
  }

  lemma NamesHaveNoEnds()
    ensures NoEnds(Spell(T)) && NoEnds(CAMERA_LINE)
  {
  }

  lemma LongerIsBare(v: seq<byte>, more: seq<byte>)
    requires BareToken(v) && NoEnds(more) && more != [] && more[|more| - 1] == QUOTE
    ensures BareToken(v + more)
  {
    assert (v + more)[0] == v[0] && (v + more)[|v + more| - 1] == QUOTE;
  }

  /** The write line as far as its latency. */
  function Before(a: CamId, s: Sample): seq<Field> {
    SampleFields(a, s)[..6]
  }

  function TornAt(a: CamId, s: Sample): nat {
    |Print(Render(SampleFields(a, s)[..7]))| - 1
  }

  /** The members of the merged line. */
  function Merged(a: CamId, s: Sample, b: CamId, c: Camera): seq<Member> {
    Render(Before(a, s)) + [Member(Spell(Latency), Show(s.latency, 6) + SWALLOWED)]
      + Render(EntryFields(Saw(b, c))[1..])
  }

  lemma TornParses(a: CamId, s: Sample, b: CamId, c: Camera)
    ensures TornAt(a, s) < |Line(Wrote(a, s))|
    ensures ParseRecord(Line(Wrote(a, s))[..TornAt(a, s)] + Line(Saw(b, c))) ==
            Some(FieldsOf(Merged(a, s, b, c), map[]))
  {
    hide Print, ParseRecord, Show, PrintMember;
    var torn, es := Render(Before(a, s)), EntryFields(Saw(b, c));
    var token := Show(s.latency, 6);
    var left := torn + [Member(Spell(Latency), token)];
    TornPrefix(a, s);
    RenderPrints(Before(a, s));
    RenderPrints(es);
    ShowIsBare(s.latency, 6);
    SwallowedIsBare(s.latency, 6);
    assert es[0] == Field(T, Text(CAMERA_LINE)) && |es| >= 8;
    assert Render(es)[0] == Member(Spell(T), Quoted(CAMERA_LINE)) && Render(es)[1..] == Render(es[1..]);
    Regroup(token, [OPEN_BRACE], PrintMember(Render(es)[0]));
    MergedLineIsMisread(torn, Spell(Latency), token, Render(es));
  }

  lemma TornPrefix(a: CamId, s: Sample)
    ensures TornAt(a, s) < |Line(Wrote(a, s))|
    ensures var left := Render(Before(a, s)) + [Member(Spell(Latency), Show(s.latency, 6))];
            Line(Wrote(a, s))[..TornAt(a, s)] == Print(left)[..|Print(left)| - 1]
  {
    hide Print, Show, Render;
    var fs := SampleFields(a, s);
    RenderAppend(fs[..7], fs[7..]);
    RenderAppend(fs[..6], [fs[6]]);
    RenderOne(fs[6]);
    assert fs[..7] + fs[7..] == fs && fs[..6] + [fs[6]] == fs[..7];
    LineBegins(Render(fs[..7]), Render(fs[7..]));
  }

  lemma RenderOne(f: Field)
    ensures Render([f]) == [Member(Spell(f.key), ShowDatum(f.datum))]
  {
    assert [f][1..] == [];
  }

  /** What the merged record holds under a name: the camera line's field if it
      has one, else the write line's. */
  lemma MergedAt(a: CamId, s: Sample, b: CamId, c: Camera, k: Key)
    ensures var r := FieldsOf(Merged(a, s, b, c), map[]);
            var later := Lookup(EntryFields(Saw(b, c))[1..], k);
            && (later.Some? ==> Has(r, k) && r[Spell(k)] == ShowDatum(later.value))
            && (later.None? && k == Latency ==> Has(r, k) && r[Spell(k)] == Show(s.latency, 6) + SWALLOWED)
            && (later.None? && k != Latency ==>
                  var d := Lookup(Before(a, s), k);
                  Has(r, k) == d.Some? && (d.Some? ==> r[Spell(k)] == ShowDatum(d.value)))
  {
    hide Render, Show, Lookup, EntryFields, SampleFields;
    var x, rest := Render(Before(a, s)), EntryFields(Saw(b, c))[1..];
    var swollen := Member(Spell(Latency), Show(s.latency, 6) + SWALLOWED);
    var mid := FieldsOf(x + [swollen], map[]);
    FieldsOfAppend(x + [swollen], Render(rest), map[]);
    FieldsOfAppend(x, [swollen], map[]);
    assert mid == FieldsOf(x, map[])[swollen.key := swollen.value] by {
      assert [swollen][1..] == [];
    }
    RenderedAt(rest, mid, k);
    RenderedAt(Before(a, s), map[], k);
    if k != Latency {
      SpellApart(k, Latency);
    }
  }

  /** The sample that the merged line is read as. */
  function Mixed(s: Sample, c: Camera): Sample {
    Sample(s.wall, s.errorBefore, s.errorAfter, s.leadUsed, s.latency, c.fps,
           if c.bias.Some? then c.bias.value else 0, false, false, 0)
  }

  lemma LaterFields(b: CamId, c: Camera)
    ensures var later := EntryFields(Saw(b, c))[1..];
            && Lookup(later, T) == None && Lookup(later, Id) == Some(Text(b))
            && Lookup(later, Fps) == Some(Num(c.fps, 0))
            && Lookup(later, Bias) == (if c.bias.Some? then Some(Num(c.bias.value, 0)) else None)
            && Lookup(later, Wall) == None && Lookup(later, ErrorBefore) == None && Lookup(later, ErrorAfter) == None
            && Lookup(later, LeadUsed) == None && Lookup(later, Latency) == None
            && Lookup(later, Verified) == None && Lookup(later, TimingOk) == None && Lookup(later, MeasureEpoch) == None
  {
    hide Lookup, LearnedFields, SampleFields;
    var base := BaseFields(b, c)[1..];
    assert EntryFields(Saw(b, c))[1..] == base + LearnedFields(c);
    LaterNamed(b, c, base);
    NotLearned(c, T, base);
    NotLearned(c, Wall, base);
    NotLearned(c, ErrorBefore, base);
    NotLearned(c, ErrorAfter, base);
    NotLearned(c, LeadUsed, base);
    NotLearned(c, Latency, base);
    NotLearned(c, Verified, base);
    NotLearned(c, TimingOk, base);
    NotLearned(c, MeasureEpoch, base);
  }

  lemma LaterNamed(b: CamId, c: Camera, base: seq<Field>)
    requires base == BaseFields(b, c)[1..]
    ensures var later := base + LearnedFields(c);
            && Lookup(later, Id) == Some(Text(b)) && Lookup(later, Fps) == Some(Num(c.fps, 0))
            && Lookup(later, Bias) == (if c.bias.Some? then Some(Num(c.bias.value, 0)) else None)
  {
    hide Lookup, LearnedFields;
    var more := LearnedFields(c);
    forall j | 0 <= j < |more|
      ensures more[j].key != Id && more[j].key != Fps
    {
      NotAmong(c, j);
    }
    LearnedValues(c);
    Plain2(base, more, 0);
    Plain2(base, more, 6);
    LookupAppend(base, more, Bias);
    LookupNone(base, Bias);
  }

  lemma NotAmong(c: Camera, j: nat)
    requires j < |LearnedFields(c)|
    ensures LearnedFields(c)[j].key != Id && LearnedFields(c)[j].key != Fps
  {
    LearnedKeys(c);
    assert LearnedKey(LearnedFields(c)[j].key);
  }

  lemma NotLearned(c: Camera, k: Key, base: seq<Field>)
    requires !LearnedKey(k) && forall j :: 0 <= j < |base| ==> base[j].key != k
    ensures Lookup(base + LearnedFields(c), k) == None
  {
    LearnedKeys(c);
    forall j | 0 <= j < |LearnedFields(c)|
      ensures LearnedFields(c)[j].key != k
    {
      assert LearnedKey(LearnedFields(c)[j].key);
    }
    LookupAppend(base, LearnedFields(c), k);
    LookupNone(base, k);
    LookupNone(LearnedFields(c), k);
  }

  lemma EarlierFields(a: CamId, s: Sample)
    ensures var fs := Before(a, s);
            && Lookup(fs, T) == Some(Text(WRITE_LINE)) && Lookup(fs, Wall) == Some(Num(s.wall, 3))
            && Lookup(fs, ErrorBefore) == Some(Num(s.errorBefore, 6))
            && Lookup(fs, ErrorAfter) == Some(Num(s.errorAfter, 6))
            && Lookup(fs, LeadUsed) == Some(Num(s.leadUsed, 6))
  {
    hide Lookup;
    var fs := Before(a, s);
    LookupAt(fs, 0);
    LookupAt(fs, 2);
    LookupAt(fs, 3);
    LookupAt(fs, 4);
    LookupAt(fs, 5);
  }

  lemma EarlierSilent(a: CamId, s: Sample)
    ensures var fs := Before(a, s);
            && Lookup(fs, Bias) == None && Lookup(fs, Verified) == None
            && Lookup(fs, TimingOk) == None && Lookup(fs, MeasureEpoch) == None
  {
    hide Lookup;
    var fs := Before(a, s);
    LookupNone(fs, Bias);
    LookupNone(fs, Verified);
    LookupNone(fs, TimingOk);
    LookupNone(fs, MeasureEpoch);
  }

  lemma MergedReads(a: CamId, s: Sample, b: CamId, c: Camera)
    ensures var r := FieldsOf(Merged(a, s, b, c), map[]);
            TextOf(r, T, []) == WRITE_LINE && TextOf(r, Id, []) == b && ReadSample(r) == Mixed(s, c)
  {
    hide Merged, Lookup, EntryFields, SampleFields, Before, Show, TextOf, NumberOf, FieldsOf, Spell, FlagOf;
    var r := FieldsOf(Merged(a, s, b, c), map[]);
    LaterFields(b, c);
    EarlierFields(a, s);
    MergedAt(a, s, b, c, T);
    MergedAt(a, s, b, c, Id);
    TextRead(r, T, WRITE_LINE, []);
    TextRead(r, Id, b, []);
    MergedTimes(a, s, b, c);
    MergedRest(a, s, b, c);
  }

  lemma MergedTimes(a: CamId, s: Sample, b: CamId, c: Camera)
    ensures var r := FieldsOf(Merged(a, s, b, c), map[]);
            && NumberOf(r, Wall, 3, 0) == s.wall && NumberOf(r, ErrorBefore, 6, 0) == s.errorBefore
            && NumberOf(r, ErrorAfter, 6, 0) == s.errorAfter && NumberOf(r, LeadUsed, 6, 0) == s.leadUsed
            && NumberOf(r, Latency, 6, 0) == s.latency
  {
    hide Merged, Lookup, EntryFields, SampleFields, Before, Show, NumberOf, FieldsOf, Spell;
    var r := FieldsOf(Merged(a, s, b, c), map[]);
    LaterFields(b, c);
    EarlierFields(a, s);
    KeptNumber(a, s, b, c, Wall, s.wall, 3);
    KeptNumber(a, s, b, c, ErrorBefore, s.errorBefore, 6);
    KeptNumber(a, s, b, c, ErrorAfter, s.errorAfter, 6);
    KeptNumber(a, s, b, c, LeadUsed, s.leadUsed, 6);
    MergedAt(a, s, b, c, Latency);
    NumRead(r, Latency, s.latency, 6, SWALLOWED, 0);
  }

  /** A number of the write line that the camera line does not replace. */
  lemma KeptNumber(a: CamId, s: Sample, b: CamId, c: Camera, k: Key, n: int, p: nat)
    requires Lookup(EntryFields(Saw(b, c))[1..], k) == None && Lookup(Before(a, s), k) == Some(Num(n, p))
             && k != Latency
    ensures NumberOf(FieldsOf(Merged(a, s, b, c), map[]), k, p, 0) == n
  {
    hide Merged, Lookup, EntryFields, SampleFields, Before, Show, NumberOf, FieldsOf, Spell;
    MergedAt(a, s, b, c, k);
    PlainNumber(FieldsOf(Merged(a, s, b, c), map[]), k, n, p);
  }

  lemma MergedRest(a: CamId, s: Sample, b: CamId, c: Camera)
    ensures var r := FieldsOf(Merged(a, s, b, c), map[]);
            && NumberOf(r, Fps, 0, 0) == c.fps && NumberOf(r, Bias, 0, 0) == (if c.bias.Some? then c.bias.value else 0)
            && NumberOf(r, MeasureEpoch, 0, 0) == 0
            && FlagOf(r, Verified, false) == false && FlagOf(r, TimingOk, false) == false
  {
    hide Merged, Lookup, EntryFields, SampleFields, Before, Show, NumberOf, FieldsOf, Spell, FlagOf;
    var r := FieldsOf(Merged(a, s, b, c), map[]);
    LaterFields(b, c);
    EarlierSilent(a, s);
    MergedAt(a, s, b, c, Fps);
    PlainNumber(r, Fps, c.fps, 0);
    MergedAt(a, s, b, c, Bias);
    if c.bias.Some? {
      PlainNumber(r, Bias, c.bias.value, 0);
    } else {
      NoNumber(r, Bias, 0);
    }
    MergedAt(a, s, b, c, MeasureEpoch);
    NoNumber(r, MeasureEpoch, 0);
    MergedAt(a, s, b, c, Verified);
    NoFlag(r, Verified);
    MergedAt(a, s, b, c, TimingOk);
    NoFlag(r, TimingOk);
  }

  lemma PlainNumber(r: Rec, k: Key, n: int, p: nat)
    requires Has(r, k) && r[Spell(k)] == Show(n, p)
    ensures NumberOf(r, k, p, 0) == n
  {
    hide Show, NumberOf;
    assert Show(n, p) + [] == Show(n, p);
    NumRead(r, k, n, p, [], 0);
  }

  lemma NoNumber(r: Rec, k: Key, p: nat)
    requires !Has(r, k)
    ensures NumberOf(r, k, p, 0) == 0
  {
  }

  lemma NoFlag(r: Rec, k: Key)
    requires !Has(r, k)
    ensures FlagOf(r, k, false) == false
  {
  }

  /** A write of `a`, torn, and then a camera line of `b` appended to it: the
      camera line is lost and `b` is given a write that `a` made. To a file whose
      last line is ended this cannot happen (CamLog.AppendReplays). */
  lemma TornWriteMisleads(m: Cameras, a: CamId, s: Sample, b: CamId, c: Camera, max: nat)
    requires b != []
    ensures TornAt(a, s) < |Line(Wrote(a, s))|
    ensures ReplayLine(m, Line(Wrote(a, s))[..TornAt(a, s)] + Line(Saw(b, c)), max) ==
            m[b := Push(Recall(m, b), Mixed(s, c), max)]
  {
    hide Merged, Line, ParseRecord, TextOf, ReadSample, FieldsOf, Mixed, Push;
    TornParses(a, s, b, c);
    MergedReads(a, s, b, c);
    KindsApart();
    LineIsOneLine(Saw(b, c));
    assert Line(Wrote(a, s))[..TornAt(a, s)] + Line(Saw(b, c)) != [];
  }
}
