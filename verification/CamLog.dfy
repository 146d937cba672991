/** The camera database as a log (src/camdb.cc): what its lines say, and what
    replaying a file gives. */
module CamLog {
  import opened Bytes
  import opened Wrappers
  import opened LogScan
  import opened CamLines

  datatype Sample = Sample(
    wall: int, errorBefore: int, errorAfter: int, leadUsed: int, latency: int,
    fps: int, bias: int, verified: bool, timingOk: bool, epoch: int)

  datatype Drift = Drift(ppm: int, span: int)

  /** One body. What has never been learned is absent. */
  datatype Camera = Camera(
    name: seq<byte>, firstSeen: int, lastSeen: int, sessions: nat, writes: nat, fps: int,
    bias: Option<int>, lead: Option<int>, drift: Option<Drift>, samples: seq<Sample>)

  const BLANK := Camera([], 0, 0, 0, 0, 0, None, None, None, [])

  type CamId = seq<byte>

  type Cameras = map<CamId, Camera>

  function Recall(m: Cameras, id: CamId): Camera {
    if id in m then m[id] else BLANK
  }

  /** The newest `max` samples; no limit when it is zero. */
  function Window(s: seq<Sample>, max: nat): (w: seq<Sample>)
    ensures max > 0 ==> |w| <= max
    ensures max == 0 || |s| <= max ==> w == s
    ensures |s| > max > 0 ==> w == s[|s| - max..]
  {
    if max == 0 || |s| <= max then s else s[|s| - max..]
  }

  /** The source drops the oldest one at a time. */
  method TrimSamples(s: seq<Sample>, max: nat) returns (w: seq<Sample>)
    ensures w == Window(s, max)
  {
    w := s;
    while max > 0 && |w| > max
      invariant |w| <= |s| && w == s[|s| - |w|..] && (|s| >= max ==> |w| >= max)
      invariant max == 0 || |s| <= max ==> w == s
    {
      w := w[1..];
    }
  }

  // ------------------------------------------------------------------- lines

  /** A line of the file. A compaction leaves a marker. */
  datatype Entry =
    | Saw(id: CamId, camera: Camera)
    | Wrote(id: CamId, sample: Sample)
    | Compacted(wall: int, cameras: nat, samples: nat)

  const CAMERA_LINE := Ascii("camera")
  const WRITE_LINE := Ascii("write")
  const COMPACT_LINE := Ascii("compact")

  function BaseFields(id: CamId, c: Camera): seq<Field> {
    [Field(T, Text(CAMERA_LINE)), Field(Id, Text(id)), Field(Name, Text(c.name)),
     Field(FirstWall, Num(c.firstSeen, 3)), Field(LastWall, Num(c.lastSeen, 3)),
     Field(Sessions, Num(c.sessions, 0)), Field(Writes, Num(c.writes, 0)), Field(Fps, Num(c.fps, 0))]
  }

  /** Absent rather than zero when unknown. */
  function LearnedFields(c: Camera): seq<Field> {
    (if c.bias.Some? then [Field(Bias, Num(c.bias.value, 0))] else [])
    + (if c.lead.Some? then [Field(LeadS, Num(c.lead.value, 6))] else [])
    + (if c.drift.Some? then [Field(DriftPpm, Num(c.drift.value.ppm, 3)),
                              Field(DriftSpan, Num(c.drift.value.span, 1))] else [])
  }

  function SampleFields(id: CamId, s: Sample): seq<Field> {
    [Field(T, Text(WRITE_LINE)), Field(Id, Text(id)), Field(Wall, Num(s.wall, 3)),
     Field(ErrorBefore, Num(s.errorBefore, 6)), Field(ErrorAfter, Num(s.errorAfter, 6)),
     Field(LeadUsed, Num(s.leadUsed, 6)), Field(Latency, Num(s.latency, 6)),
     Field(Fps, Num(s.fps, 0)), Field(Bias, Num(s.bias, 0)),
     Field(Verified, Flag(s.verified)), Field(TimingOk, Flag(s.timingOk)), Field(MeasureEpoch, Num(s.epoch, 0))]
  }

  function EntryFields(e: Entry): (fs: seq<Field>)
    ensures fs != []
  {
    match e
    case Saw(id, c) => BaseFields(id, c) + LearnedFields(c)
    case Wrote(id, s) => SampleFields(id, s)
    case Compacted(wall, cameras, samples) =>
      [Field(T, Text(COMPACT_LINE)), Field(Wall, Num(wall, 3)), Field(CamLines.Cameras, Num(cameras, 0)),
       Field(Samples, Num(samples, 0))]
  }

  function Line(e: Entry): seq<byte> {
    Print(Render(EntryFields(e)))
  }

  // --------------------------------------------------------------- replaying

  function Unsigned(n: int): nat {
    if n < 0 then 0 else n
  }

  /** A camera line replaces everything but what it does not mention and the
      samples. */
  function ReadCamera(r: Rec, c: Camera): Camera {
    Camera(
      TextOf(r, Name, c.name),
      NumberOf(r, FirstWall, 3, c.firstSeen), NumberOf(r, LastWall, 3, c.lastSeen),
      Unsigned(NumberOf(r, Sessions, 0, 0)), Unsigned(NumberOf(r, Writes, 0, 0)), NumberOf(r, Fps, 0, c.fps),
      if Has(r, Bias) then Some(NumberOf(r, Bias, 0, 0)) else c.bias,
      if Has(r, LeadS) then Some(NumberOf(r, LeadS, 6, 0)) else c.lead,
      if Has(r, DriftPpm) then Some(Drift(NumberOf(r, DriftPpm, 3, 0), NumberOf(r, DriftSpan, 1, 0))) else c.drift,
      c.samples)
  }

  function ReadSample(r: Rec): Sample {
    var verified := FlagOf(r, Verified, false);
    Sample(
      NumberOf(r, Wall, 3, 0), NumberOf(r, ErrorBefore, 6, 0), NumberOf(r, ErrorAfter, 6, 0),
      NumberOf(r, LeadUsed, 6, 0), NumberOf(r, Latency, 6, 0), NumberOf(r, Fps, 0, 0), NumberOf(r, Bias, 0, 0),
      verified, FlagOf(r, TimingOk, verified), NumberOf(r, MeasureEpoch, 0, 0))
  }

  function Push(c: Camera, s: Sample, max: nat): Camera {
    c.(samples := Window(c.samples + [s], max))
  }

  function ReplayRecord(m: Cameras, r: Rec, max: nat): Cameras {
    var kind, id := TextOf(r, T, []), TextOf(r, Id, []);
    if id == [] then m
    else if kind == CAMERA_LINE then m[id := ReadCamera(r, Recall(m, id))]
    else if kind == WRITE_LINE then m[id := Push(Recall(m, id), ReadSample(r), max)]
    else m
  }

  /** A line that does not parse is skipped. */
  function ReplayLine(m: Cameras, line: seq<byte>, max: nat): Cameras {
    if line == [] then m
    else
      var r := ParseRecord(line);
      if r.None? then m else ReplayRecord(m, r.value, max)
  }

  function LineEnd(t: seq<byte>): (n: nat)
    ensures n <= |t| && (n < |t| ==> t[n] == LF)
    ensures forall i :: 0 <= i < n ==> t[i] != LF
  {
    if t == [] || t[0] == LF then 0 else 1 + LineEnd(t[1..])
  }

  function Replay(m: Cameras, text: seq<byte>, max: nat): Cameras
    decreases |text|
  {
    if text == [] then m
    else
      var n := LineEnd(text);
      var m' := ReplayLine(m, text[..n], max);
      if n == |text| then m' else Replay(m', text[n + 1..], max)
  }

  lemma ReplayStep(m: Cameras, text: seq<byte>, n: nat, max: nat)
    requires text != [] && n == LineEnd(text)
    ensures Replay(m, text, max) ==
            if n == |text| then ReplayLine(m, text[..n], max)
              else Replay(ReplayLine(m, text[..n], max), text[n + 1..], max)
  {
    hide ParseRecord, ReplayRecord;
  }

  method NextLine(text: seq<byte>, at: nat) returns (end: nat)
    requires at <= |text|
    ensures at <= end <= |text| && end == at + LineEnd(text[at..])
  {
    end := at;
    while end < |text| && text[end] != LF
      invariant at <= end <= |text| && at + LineEnd(text[at..]) == end + LineEnd(text[end..])
    {
      assert text[end..][1..] == text[end + 1..];
      end := end + 1;
    }
  }

  lemma ReplayFrom(m: Cameras, text: seq<byte>, at: nat, end: nat, max: nat)
    requires at < |text| && at <= end <= |text| && end == at + LineEnd(text[at..])
    ensures Replay(m, text[at..], max) ==
            Replay(ReplayLine(m, text[at..end], max), text[if end < |text| then end + 1 else end..], max)
  {
    hide ReplayLine;
    var rest := text[at..];
    ReplayStep(m, rest, end - at, max);
    assert rest[..end - at] == text[at..end];
    if end < |text| {
      assert rest[end - at + 1..] == text[end + 1..];
    } else {
      assert text[end..] == [];
    }
  }

  /** The loop over the lines of a file. */
  method ReplayLoop(text: seq<byte>, max: nat) returns (out: Cameras)
    ensures out == Replay(map[], text, max)
  {
    hide ReplayLine;
    out := map[];
    var at := 0;
    assert text[0..] == text;
    while at < |text|
      invariant at <= |text| && Replay(out, text[at..], max) == Replay(map[], text, max)
    {
      var end := NextLine(text, at);
      ReplayFrom(out, text, at, end, max);
      out := ReplayLine(out, text[at..end], max);
      at := if end < |text| then end + 1 else end;
    }
  }

  // ----------------------------------------------- what an entry does to a map

  /** What a camera line tells about a body of which `c` is known. */
  function Told(said: Camera, c: Camera): Camera {
    said.(bias := if said.bias.Some? then said.bias else c.bias,
          lead := if said.lead.Some? then said.lead else c.lead,
          drift := if said.drift.Some? then said.drift else c.drift,
          samples := c.samples)
  }

  function Apply(m: Cameras, e: Entry, max: nat): Cameras {
    match e
    case Saw(id, c) => m[id := Told(c, Recall(m, id))]
    case Wrote(id, s) => m[id := Push(Recall(m, id), s, max)]
    case Compacted(_, _, _) => m
  }

  predicate Named(e: Entry) {
    e.Compacted? || e.id != []
  }

  lemma {:induction false} Plain2(a: seq<Field>, b: seq<Field>, i: nat)
    requires i < |a|
    requires forall j :: 0 <= j < |a| && j != i ==> a[j].key != a[i].key
    requires forall j :: 0 <= j < |b| ==> b[j].key != a[i].key
    ensures Lookup(a + b, a[i].key) == Some(a[i].datum)
  {
    LookupAppend(a, b, a[i].key);
    LookupNone(b, a[i].key);
    LookupAt(a, i);
  }

  predicate LearnedKey(k: Key) {
    k == Bias || k == LeadS || k == DriftPpm || k == DriftSpan
  }

  lemma LearnedKeys(c: Camera)
    ensures forall j :: 0 <= j < |LearnedFields(c)| ==> LearnedKey(LearnedFields(c)[j].key)
  {
  }

  lemma BaseAt(id: CamId, c: Camera, i: nat)
    requires i < 8
    ensures var fs := BaseFields(id, c); Lookup(EntryFields(Saw(id, c)), fs[i].key) == Some(fs[i].datum)
  {
    LearnedKeys(c);
    var fs := BaseFields(id, c);
    forall j | 0 <= j < |LearnedFields(c)|
      ensures LearnedFields(c)[j].key != fs[i].key
    {
      assert LearnedKey(LearnedFields(c)[j].key);
    }
    Plain2(fs, LearnedFields(c), i);
  }

  lemma LearnedAt(id: CamId, c: Camera, k: Key)
    requires LearnedKey(k)
    ensures Lookup(EntryFields(Saw(id, c)), k) == Lookup(LearnedFields(c), k)
  {
    LookupAppend(BaseFields(id, c), LearnedFields(c), k);
    LookupNone(BaseFields(id, c), k);
  }

  lemma LearnedValues(c: Camera)
    ensures Lookup(LearnedFields(c), Bias) == if c.bias.Some? then Some(Num(c.bias.value, 0)) else None
    ensures Lookup(LearnedFields(c), LeadS) == if c.lead.Some? then Some(Num(c.lead.value, 6)) else None
    ensures Lookup(LearnedFields(c), DriftPpm) == if c.drift.Some? then Some(Num(c.drift.value.ppm, 3)) else None
    ensures c.drift.Some? ==> Lookup(LearnedFields(c), DriftSpan) == Some(Num(c.drift.value.span, 1))
  {
    var a := if c.bias.Some? then [Field(Bias, Num(c.bias.value, 0))] else [];
    var b := if c.lead.Some? then [Field(LeadS, Num(c.lead.value, 6))] else [];
    var d := if c.drift.Some? then [Field(DriftPpm, Num(c.drift.value.ppm, 3)),
                                    Field(DriftSpan, Num(c.drift.value.span, 1))] else [];
    LookupThree(a, b, d, Bias);
    LookupThree(a, b, d, LeadS);
    LookupThree(a, b, d, DriftPpm);
    LookupThree(a, b, d, DriftSpan);
    LookupNone(d, Bias);
    LookupNone(b, Bias);
    LookupNone(d, LeadS);
    LookupNone(a, LeadS);
    LookupNone(b, DriftPpm);
    LookupNone(a, DriftPpm);
    if c.bias.Some? {
      LookupAt(a, 0);
    }
    if c.lead.Some? {
      LookupAt(b, 0);
    }
    if c.drift.Some? {
      LookupAt(d, 0);
      LookupAt(d, 1);
    }
  }

  lemma LookupThree(a: seq<Field>, b: seq<Field>, d: seq<Field>, k: Key)
    ensures Lookup(a + b + d, k) ==
            if Lookup(d, k).Some? then Lookup(d, k) else if Lookup(b, k).Some? then Lookup(b, k) else Lookup(a, k)
  {
    LookupAppend(a + b, d, k);
    LookupAppend(a, b, k);
  }

  /** A camera line, read back onto what is known, says what was printed. */
  lemma CameraBack(id: CamId, said: Camera, c: Camera)
    ensures var r := RecordOf(EntryFields(Saw(id, said)));
            TextOf(r, T, []) == CAMERA_LINE && TextOf(r, Id, []) == id && ReadCamera(r, c) == Told(said, c)
  {
    hide RecordOf, Lookup, EntryFields, LearnedFields, TextOf, NumberOf, Has;
    var fs := EntryFields(Saw(id, said));
    BaseAt(id, said, 0);
    BaseAt(id, said, 1);
    BaseAt(id, said, 2);
    BaseAt(id, said, 3);
    BaseAt(id, said, 4);
    BaseAt(id, said, 5);
    BaseAt(id, said, 6);
    BaseAt(id, said, 7);
    BaseTexts(fs, id, said, c);
    BaseNumbers(fs, id, said, c);
    LearnedValues(said);
    LearnedAt(id, said, Bias);
    LearnedAt(id, said, LeadS);
    LearnedAt(id, said, DriftPpm);
    LearnedAt(id, said, DriftSpan);
    LearnedNumbers(fs, said);
  }

  lemma BaseTexts(fs: seq<Field>, id: CamId, said: Camera, c: Camera)
    requires Lookup(fs, T) == Some(Text(CAMERA_LINE)) && Lookup(fs, Id) == Some(Text(id))
             && Lookup(fs, Name) == Some(Text(said.name))
    ensures var r := RecordOf(fs);
            TextOf(r, T, []) == CAMERA_LINE && TextOf(r, Id, []) == id && TextOf(r, Name, c.name) == said.name
  {
    hide *;
    TextBack(fs, T, CAMERA_LINE, []);
    TextBack(fs, Id, id, []);
    TextBack(fs, Name, said.name, c.name);
  }

  lemma BaseNumbers(fs: seq<Field>, id: CamId, said: Camera, c: Camera)
    requires Lookup(fs, FirstWall) == Some(Num(said.firstSeen, 3))
             && Lookup(fs, LastWall) == Some(Num(said.lastSeen, 3))
    requires Lookup(fs, Sessions) == Some(Num(said.sessions, 0)) && Lookup(fs, Writes) == Some(Num(said.writes, 0))
    requires Lookup(fs, Fps) == Some(Num(said.fps, 0))
    ensures var r := RecordOf(fs);
            && NumberOf(r, FirstWall, 3, c.firstSeen) == said.firstSeen
            && NumberOf(r, LastWall, 3, c.lastSeen) == said.lastSeen
            && NumberOf(r, Sessions, 0, 0) == said.sessions && NumberOf(r, Writes, 0, 0) == said.writes
            && NumberOf(r, Fps, 0, c.fps) == said.fps
  {
    hide *;
    NumBack(fs, FirstWall, said.firstSeen, 3, c.firstSeen);
    NumBack(fs, LastWall, said.lastSeen, 3, c.lastSeen);
    NumBack(fs, Sessions, said.sessions, 0, 0);
    NumBack(fs, Writes, said.writes, 0, 0);
    NumBack(fs, Fps, said.fps, 0, c.fps);
  }

  lemma LearnedNumbers(fs: seq<Field>, said: Camera)
    requires Lookup(fs, Bias) == if said.bias.Some? then Some(Num(said.bias.value, 0)) else None
    requires Lookup(fs, LeadS) == if said.lead.Some? then Some(Num(said.lead.value, 6)) else None
    requires Lookup(fs, DriftPpm) == if said.drift.Some? then Some(Num(said.drift.value.ppm, 3)) else None
    requires said.drift.Some? ==> Lookup(fs, DriftSpan) == Some(Num(said.drift.value.span, 1))
    ensures var r := RecordOf(fs);
            && Has(r, Bias) == said.bias.Some? && (said.bias.Some? ==> NumberOf(r, Bias, 0, 0) == said.bias.value)
            && Has(r, LeadS) == said.lead.Some? && (said.lead.Some? ==> NumberOf(r, LeadS, 6, 0) == said.lead.value)
            && Has(r, DriftPpm) == said.drift.Some?
            && (said.drift.Some? ==> NumberOf(r, DriftPpm, 3, 0) == said.drift.value.ppm)
            && (said.drift.Some? ==> NumberOf(r, DriftSpan, 1, 0) == said.drift.value.span)
  {
    hide *;
    if said.bias.Some? { NumBack(fs, Bias, said.bias.value, 0, 0); } else { Absent(fs, Bias); }
    if said.lead.Some? { NumBack(fs, LeadS, said.lead.value, 6, 0); } else { Absent(fs, LeadS); }
    if said.drift.Some? {
      NumBack(fs, DriftPpm, said.drift.value.ppm, 3, 0);
      NumBack(fs, DriftSpan, said.drift.value.span, 1, 0);
    } else {
      Absent(fs, DriftPpm);
    }
  }

  lemma SampleAt(id: CamId, s: Sample, i: nat)
    requires i < 12
    ensures var fs := SampleFields(id, s); Lookup(fs, fs[i].key) == Some(fs[i].datum)
  {
    LookupAt(SampleFields(id, s), i);
  }

  /** A write line is read back as the very sample. */
  lemma SampleBack(id: CamId, s: Sample)
    ensures var r := RecordOf(EntryFields(Wrote(id, s)));
            TextOf(r, T, []) == WRITE_LINE && TextOf(r, Id, []) == id && ReadSample(r) == s
  {
    hide RecordOf, Lookup, TextOf, NumberOf, FlagOf;
    var fs := SampleFields(id, s);
    SampleAt(id, s, 0);
    SampleAt(id, s, 1);
    SampleAt(id, s, 2);
    SampleAt(id, s, 3);
    SampleAt(id, s, 4);
    SampleAt(id, s, 5);
    SampleAt(id, s, 6);
    SampleAt(id, s, 7);
    SampleAt(id, s, 8);
    SampleAt(id, s, 9);
    SampleAt(id, s, 10);
    SampleAt(id, s, 11);
    assert EntryFields(Wrote(id, s)) == fs;
    SampleNumbers(fs, id, s);
    SampleRest(fs, id, s);
  }

  lemma SampleNumbers(fs: seq<Field>, id: CamId, s: Sample)
    requires Lookup(fs, Wall) == Some(Num(s.wall, 3)) && Lookup(fs, ErrorBefore) == Some(Num(s.errorBefore, 6))
    requires Lookup(fs, ErrorAfter) == Some(Num(s.errorAfter, 6)) && Lookup(fs, LeadUsed) == Some(Num(s.leadUsed, 6))
    requires Lookup(fs, Latency) == Some(Num(s.latency, 6)) && Lookup(fs, Fps) == Some(Num(s.fps, 0))
    requires Lookup(fs, Bias) == Some(Num(s.bias, 0)) && Lookup(fs, MeasureEpoch) == Some(Num(s.epoch, 0))
    ensures var r := RecordOf(fs);
            && NumberOf(r, Wall, 3, 0) == s.wall && NumberOf(r, ErrorBefore, 6, 0) == s.errorBefore
            && NumberOf(r, ErrorAfter, 6, 0) == s.errorAfter && NumberOf(r, LeadUsed, 6, 0) == s.leadUsed
            && NumberOf(r, Latency, 6, 0) == s.latency && NumberOf(r, Fps, 0, 0) == s.fps
            && NumberOf(r, Bias, 0, 0) == s.bias && NumberOf(r, MeasureEpoch, 0, 0) == s.epoch
  {
    hide *;
    NumBack(fs, Wall, s.wall, 3, 0);
    NumBack(fs, ErrorBefore, s.errorBefore, 6, 0);
    NumBack(fs, ErrorAfter, s.errorAfter, 6, 0);
    NumBack(fs, LeadUsed, s.leadUsed, 6, 0);
    NumBack(fs, Latency, s.latency, 6, 0);
    NumBack(fs, Fps, s.fps, 0, 0);
    NumBack(fs, Bias, s.bias, 0, 0);
    NumBack(fs, MeasureEpoch, s.epoch, 0, 0);
  }

  lemma SampleRest(fs: seq<Field>, id: CamId, s: Sample)
    requires Lookup(fs, T) == Some(Text(WRITE_LINE)) && Lookup(fs, Id) == Some(Text(id))
    requires Lookup(fs, Verified) == Some(Flag(s.verified)) && Lookup(fs, TimingOk) == Some(Flag(s.timingOk))
    ensures var r := RecordOf(fs);
            && TextOf(r, T, []) == WRITE_LINE && TextOf(r, Id, []) == id
            && FlagOf(r, Verified, false) == s.verified && FlagOf(r, TimingOk, s.verified) == s.timingOk
  {
    hide *;
    TextBack(fs, T, WRITE_LINE, []);
    TextBack(fs, Id, id, []);
    FlagBack(fs, Verified, s.verified, false);
    FlagBack(fs, TimingOk, s.timingOk, s.verified);
  }

  lemma KindsApart()
    ensures CAMERA_LINE != WRITE_LINE && COMPACT_LINE != CAMERA_LINE && COMPACT_LINE != WRITE_LINE
  {
    assert |CAMERA_LINE| == 6 && |WRITE_LINE| == 5 && |COMPACT_LINE| == 7;
  }

  lemma MarkerBack(wall: int, cameras: nat, samples: nat)
    ensures var r := RecordOf(EntryFields(Compacted(wall, cameras, samples))); TextOf(r, Id, []) == []
  {
    var fs := EntryFields(Compacted(wall, cameras, samples));
    LookupNone(fs, Id);
    Absent(fs, Id);
  }

  /** A line replayed does to the map what its entry says, whatever bytes are in
      its strings. */
  lemma LineReplays(m: Cameras, e: Entry, max: nat)
    requires Named(e)
    ensures ReplayLine(m, Line(e), max) == Apply(m, e, max)
  {
    hide RecordOf, TextOf, ReadCamera, ReadSample, ParseRecord, Print, Render, EntryFields, Push, Told;
    PrintedBack(EntryFields(e));
    KindsApart();
    match e
    case Saw(id, c) => CameraBack(id, c, Recall(m, id));
    case Wrote(id, s) => SampleBack(id, s);
    case Compacted(w, n, k) => MarkerBack(w, n, k);
  }

  lemma LineIsOneLine(e: Entry)
    ensures Line(e) != [] && OneLine(Line(e))
  {
    PrintedBack(EntryFields(e));
  }

  // -------------------------------------------------------------------- files

  /** Every line of the file is ended. */
  predicate Whole(text: seq<byte>) {
    text == [] || text[|text| - 1] == LF
  }

  lemma {:induction false} LineEndPast(t: seq<byte>, q: seq<byte>)
    ensures LineEnd(t) < |t| ==> LineEnd(t + q) == LineEnd(t)
    ensures LineEnd(t) == |t| ==> LineEnd(t + q) == |t| + LineEnd(q)
  {
    if t == [] {
      assert t + q == q;
    } else {
      assert (t + q)[1..] == t[1..] + q;
      if t[0] != LF {
        LineEndPast(t[1..], q);
      }
    }
  }

  /** More text is replayed onto what the whole lines before it gave. */
  lemma {:induction false} ReplayResumes(m: Cameras, a: seq<byte>, b: seq<byte>, max: nat)
    requires Whole(a)
    ensures Replay(m, a + b, max) == Replay(Replay(m, a, max), b, max)
    decreases |a|
  {
    hide ReplayLine, LineEnd;
    if a == [] {
      assert a + b == b;
    } else {
      var n := LineEnd(a);
      LineEndPast(a, b);
      assert (a + b)[..n] == a[..n] && (a + b)[n + 1..] == a[n + 1..] + b;
      ReplayStep(m, a, n, max);
      ReplayStep(m, a + b, n, max);
      ReplayResumes(ReplayLine(m, a[..n], max), a[n + 1..], b, max);
    }
  }

  lemma {:induction false} LineEndNone(t: seq<byte>)
    requires OneLine(t)
    ensures LineEnd(t) == |t|
  {
    if t != [] {
      LineEndNone(t[1..]);
    }
  }

  /** The last line counts whether or not it is ended. */
  lemma ReplayLast(m: Cameras, line: seq<byte>, max: nat)
    requires OneLine(line)
    ensures Replay(m, line, max) == ReplayLine(m, line, max)
    ensures Replay(m, line + [LF], max) == ReplayLine(m, line, max)
  {
    hide ReplayLine;
    LineEndNone(line);
    LineEndPast(line, [LF]);
    assert LineEnd([LF]) == 0;
    assert line[..|line|] == line && (line + [LF])[..|line|] == line && (line + [LF])[|line| + 1..] == [];
    assert Replay(ReplayLine(m, line, max), [], max) == ReplayLine(m, line, max);
    ReplayStep(m, line + [LF], |line|, max);
    if line != [] {
      ReplayStep(m, line, |line|, max);
    } else {
      assert ReplayLine(m, line, max) == m by { ReplayNothing(m, max); }
    }
  }

  lemma ReplayNothing(m: Cameras, max: nat)
    ensures ReplayLine(m, [], max) == m
  {
  }

  /** An entry appended to a file of whole lines is one more step of its replay. */
  lemma AppendReplays(text: seq<byte>, e: Entry, max: nat)
    requires Whole(text) && Named(e)
    ensures Whole(text + Line(e) + [LF])
    ensures Replay(map[], text + Line(e) + [LF], max) == Apply(Replay(map[], text, max), e, max)
  {
    hide Replay, ReplayLine, Line, Apply;
    LineIsOneLine(e);
    LineReplays(Replay(map[], text, max), e, max);
    Regroup(text, Line(e), [LF]);
    ReplayResumes(map[], text, Line(e) + [LF], max);
    ReplayLast(Replay(map[], text, max), Line(e), max);
  }

  /** A last line cut short costs that line and nothing else. */
  lemma TornCostsOne(text: seq<byte>, e: Entry, n: nat, max: nat)
    requires Whole(text) && n < |Line(e)|
    ensures Replay(map[], text + Line(e)[..n], max) == Replay(map[], text, max)
  {
    hide Replay, Line, RecordOf, Print, Render, EntryFields;
    var torn := Line(e)[..n];
    LineIsOneLine(e);
    ReplayResumes(map[], text, torn, max);
    ReplayLast(Replay(map[], text, max), torn, max);
    TornLine(e, n);
  }

  lemma TornLine(e: Entry, n: nat)
    requires n < |Line(e)|
    ensures ParseRecord(Line(e)[..n]) == None
  {
    hide Print, ParseRecord, EntryFields;
    RenderPrints(EntryFields(e));
    TornIsRejected(Render(EntryFields(e)), n);
  }
}
