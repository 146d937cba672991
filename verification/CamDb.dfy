/** The camera database (src/camdb.cc): a map in memory, an append-only log
    behind it, and the compaction that keeps the log within a factor of what it
    is worth. */
module CamDb {
  import opened Bytes
  import opened Wrappers
  import opened LogScan
  import opened CamLines
  import opened CamLog

  // ------------------------------------------------------- changes to the map

  /** A body noticed on the air. */
  function Noticed(c: Camera, name: seq<byte>, fps: int, session: bool, now: int): Camera {
    c.(firstSeen := if c.firstSeen <= 0 then now else c.firstSeen,
       lastSeen := now,
       name := if name != [] then name else c.name,
       fps := if fps > 0 then fps else c.fps,
       sessions := if session then c.sessions + 1 else c.sessions)
  }

  /** What a write tells besides its sample. The two times only ever widen. */
  function Bracketed(c: Camera, s: Sample): Camera {
    c.(firstSeen := if c.firstSeen <= 0 || s.wall < c.firstSeen then s.wall else c.firstSeen,
       lastSeen := if s.wall > c.lastSeen then s.wall else c.lastSeen,
       fps := if s.fps > 0 then s.fps else c.fps,
       writes := c.writes + 1)
  }

  /** A write recorded. */
  function Recorded(c: Camera, s: Sample, max: nat): Camera {
    Push(Bracketed(c, s), s, max)
  }

  function Abs(n: int): nat {
    if n < 0 then -n else n
  }

  /** A lead moves when it differs by more than 0.1 ms; a drift by more than
      0.05 ppm, or when its span has grown by half. */
  function Learned(c: Camera, bias: Option<int>, lead: Option<int>, drift: Option<Drift>): Camera {
    c.(bias := if bias.Some? then bias else c.bias,
       lead := if lead.Some? && (c.lead.None? || Abs(c.lead.value - lead.value) > 100) then lead else c.lead,
       drift := if drift.Some?
                   && (c.drift.None? || Abs(c.drift.value.ppm - drift.value.ppm) > 50
                       || 2 * drift.value.span > 3 * c.drift.value.span)
                then drift else c.drift)
  }

  // -------------------------------------------------- the map and its replay

  /** What is known once stays known: a camera line can then say all there is. */
  predicate KnowsMore(c: Camera, r: Camera) {
    && (r.bias.Some? ==> c.bias.Some?)
    && (r.lead.Some? ==> c.lead.Some?)
    && (r.drift.Some? ==> c.drift.Some?)
  }

  /** How one body in memory stands to its replay. */
  predicate Follows(m: Cameras, r: Cameras, id: CamId) {
    && (id in r ==> id in m)
    && Recall(r, id).samples == Recall(m, id).samples
    && KnowsMore(Recall(m, id), Recall(r, id))
  }

  /** The replay `r` of the file holds every sample window in memory, and no body
      that memory does not. */
  ghost predicate Agrees(m: Cameras, r: Cameras) {
    forall id {:trigger Follows(m, r, id)} :: Follows(m, r, id)
  }

  predicate Bounded(c: Camera, max: nat) {
    max == 0 || |c.samples| <= max
  }

  ghost predicate Sound(m: Cameras, max: nat) {
    forall id :: id in m ==> id != [] && Bounded(m[id], max)
  }

  lemma AgreesAt(m: Cameras, r: Cameras, id: CamId)
    requires Agrees(m, r)
    ensures Follows(m, r, id)
  {
  }

  lemma Elsewhere(m: Cameras, m': Cameras, r: Cameras, r': Cameras, at: CamId)
    requires Agrees(m, r) && Follows(m', r', at)
    requires m' - {at} == m - {at} && r' - {at} == r - {at}
    ensures Agrees(m', r')
  {
    forall id
      ensures Follows(m', r', id)
    {
      if id != at {
        AgreesAt(m, r, id);
        SameBut(m, m', at, id);
        SameBut(r, r', at, id);
      }
    }
  }

  lemma SameBut(m: Cameras, m': Cameras, at: CamId, id: CamId)
    requires m' - {at} == m - {at} && id != at
    ensures (id in m) == (id in m') && Recall(m, id) == Recall(m', id)
  {
    assert (id in m) == (id in m - {at}) && (id in m') == (id in m' - {at});
    if id in m {
      assert m[id] == (m - {at})[id] && m'[id] == (m' - {at})[id];
    }
  }

  lemma SetBut(m: Cameras, at: CamId, c: Camera)
    ensures m[at := c] - {at} == m - {at}
  {
  }

  /** A body as it stands, and its camera line: the replay then has all of it. */
  lemma SayingAgrees(m: Cameras, r: Cameras, id: CamId, c: Camera, max: nat)
    requires Agrees(m, r) && KnowsMore(c, Recall(m, id)) && c.samples == Recall(m, id).samples
    ensures var r' := Apply(r, Saw(id, c), max); Agrees(m[id := c], r') && r'[id] == c
  {
    AgreesAt(m, r, id);
    var r' := Apply(r, Saw(id, c), max);
    SetBut(m, id, c);
    SetBut(r, id, Told(c, Recall(r, id)));
    assert r'[id] == c;
    Elsewhere(m, m[id := c], r, r', id);
  }

  /** A write and its line: the samples move together; the counters do not. */
  lemma WritingAgrees(m: Cameras, r: Cameras, id: CamId, s: Sample, max: nat)
    requires Agrees(m, r)
    ensures Agrees(m[id := Recorded(Recall(m, id), s, max)], Apply(r, Wrote(id, s), max))
  {
    AgreesAt(m, r, id);
    SetBut(m, id, Recorded(Recall(m, id), s, max));
    SetBut(r, id, Push(Recall(r, id), s, max));
    Elsewhere(m, m[id := Recorded(Recall(m, id), s, max)], r, Apply(r, Wrote(id, s), max), id);
  }

  /** What is learned changes memory only. */
  lemma LearningAgrees(m: Cameras, r: Cameras, id: CamId, bias: Option<int>, lead: Option<int>, drift: Option<Drift>)
    requires Agrees(m, r)
    ensures Agrees(m[id := Learned(Recall(m, id), bias, lead, drift)], r)
  {
    AgreesAt(m, r, id);
    SetBut(m, id, Learned(Recall(m, id), bias, lead, drift));
    Elsewhere(m, m[id := Learned(Recall(m, id), bias, lead, drift)], r, r, id);
  }

  // ------------------------------------------------------------ the write count

  /** Writes recorded for a body since its last camera line. */
  function Unsaid(since: seq<Entry>, id: CamId): nat {
    if since == [] then 0
    else
      var last, before := since[|since| - 1], since[..|since| - 1];
      if last.Saw? && last.id == id then 0
      else if last.Wrote? && last.id == id then Unsaid(before, id) + 1
      else Unsaid(before, id)
  }

  lemma UnsaidPush(since: seq<Entry>, e: Entry, id: CamId)
    ensures Unsaid(since + [e], id) ==
            if e.Saw? && e.id == id then 0
            else if e.Wrote? && e.id == id then Unsaid(since, id) + 1
            else Unsaid(since, id)
  {
    assert (since + [e])[..|since|] == since;
  }

  /** The replay's count is behind by exactly the writes since the body's last
      camera line. */
  predicate CountAt(m: Cameras, r: Cameras, since: seq<Entry>, id: CamId) {
    Recall(m, id).writes == Recall(r, id).writes + Unsaid(since, id)
  }

  ghost predicate Counted(m: Cameras, r: Cameras, since: seq<Entry>) {
    forall id {:trigger CountAt(m, r, since, id)} :: CountAt(m, r, since, id)
  }

  lemma CountedAt(m: Cameras, r: Cameras, since: seq<Entry>, id: CamId)
    requires Counted(m, r, since)
    ensures CountAt(m, r, since, id)
  {
  }

  lemma CountedElsewhere(m: Cameras, m': Cameras, r: Cameras, r': Cameras, since: seq<Entry>, e: Entry)
    requires Counted(m, r, since) && !e.Compacted? && CountAt(m', r', since + [e], e.id)
    requires m' - {e.id} == m - {e.id} && r' - {e.id} == r - {e.id}
    ensures Counted(m', r', since + [e])
  {
    forall id
      ensures CountAt(m', r', since + [e], id)
    {
      if id != e.id {
        CountedAt(m, r, since, id);
        UnsaidPush(since, e, id);
        SameBut(m, m', e.id, id);
        SameBut(r, r', e.id, id);
      }
    }
  }

  lemma SayingCounts(m: Cameras, r: Cameras, since: seq<Entry>, id: CamId, c: Camera, max: nat)
    requires Counted(m, r, since)
    ensures Counted(m[id := c], Apply(r, Saw(id, c), max), since + [Saw(id, c)])
  {
    SetBut(m, id, c);
    SetBut(r, id, Told(c, Recall(r, id)));
    UnsaidPush(since, Saw(id, c), id);
    CountedElsewhere(m, m[id := c], r, Apply(r, Saw(id, c), max), since, Saw(id, c));
  }

  lemma WritingCounts(m: Cameras, r: Cameras, since: seq<Entry>, id: CamId, s: Sample, max: nat)
    requires Counted(m, r, since)
    ensures Counted(m[id := Recorded(Recall(m, id), s, max)], Apply(r, Wrote(id, s), max), since + [Wrote(id, s)])
  {
    CountedAt(m, r, since, id);
    SetBut(m, id, Recorded(Recall(m, id), s, max));
    SetBut(r, id, Push(Recall(r, id), s, max));
    UnsaidPush(since, Wrote(id, s), id);
    CountedElsewhere(m, m[id := Recorded(Recall(m, id), s, max)], r, Apply(r, Wrote(id, s), max), since, Wrote(id, s));
  }

  // -------------------------------------------------------------- compaction

  /** A sum over the bodies of a map. */
  ghost function Total(m: Cameras, weight: (CamId, Camera) -> nat): (n: nat)
    decreases m.Keys
  {
    if m.Keys == {} then 0
    else
      var id :| id in m.Keys;
      weight(id, m[id]) + Total(m - {id}, weight)
  }

  lemma {:induction false} TotalOf(m: Cameras, weight: (CamId, Camera) -> nat, at: CamId)
    requires at in m
    ensures Total(m, weight) == weight(at, m[at]) + Total(m - {at}, weight)
    decreases m.Keys
  {
    var id :| id in m.Keys && Total(m, weight) == weight(id, m[id]) + Total(m - {id}, weight);
    if id != at {
      TotalOf(m - {id}, weight, at);
      assert at in m.Keys && id in (m - {at}).Keys;
      TotalOf(m - {at}, weight, id);
      assert m - {id} - {at} == m - {at} - {id};
    }
  }

  function SampleText(id: CamId, ss: seq<Sample>): seq<byte> {
    if ss == [] then [] else Line(Wrote(id, ss[0])) + [LF] + SampleText(id, ss[1..])
  }

  /** What a compaction writes about one body. */
  function CameraText(id: CamId, c: Camera): seq<byte> {
    Line(Saw(id, c)) + [LF] + SampleText(id, c.samples)
  }

  function Size(id: CamId, c: Camera): nat {
    |CameraText(id, c)|
  }

  function Kept(id: CamId, c: Camera): nat {
    |c.samples|
  }

  /** Bytes a compaction would leave, with 64 allowed for the marker. */
  ghost function Live(m: Cameras): nat {
    64 + Total(m, Size)
  }

  lemma SampleReplays(m: Cameras, id: CamId, s: Sample, more: seq<byte>, max: nat)
    requires id in m && id != [] && (max == 0 || |m[id].samples| < max)
    ensures Whole(Line(Wrote(id, s)) + [LF])
    ensures Replay(m, Line(Wrote(id, s)) + [LF] + more, max) ==
            Replay(m[id := m[id].(samples := m[id].samples + [s])], more, max)
  {
    hide Line, ReplayLine, Replay;
    LineIsOneLine(Wrote(id, s));
    LineReplays(m, Wrote(id, s), max);
    ReplayLast(m, Line(Wrote(id, s)), max);
    ReplayResumes(m, Line(Wrote(id, s)) + [LF], more, max);
  }

  lemma {:induction false} SampleTextReplays(m: Cameras, id: CamId, ss: seq<Sample>, max: nat)
    requires id in m && id != [] && (max == 0 || |m[id].samples| + |ss| <= max)
    ensures Whole(SampleText(id, ss))
    ensures Replay(m, SampleText(id, ss), max) == m[id := m[id].(samples := m[id].samples + ss)]
    decreases |ss|
  {
    hide Line, ReplayLine, LineEnd;
    var c := m[id];
    if ss == [] {
      assert c.samples + ss == c.samples && m[id := c] == m;
    } else {
      hide Replay;
      var m' := m[id := c.(samples := c.samples + [ss[0]])];
      SampleReplays(m, id, ss[0], SampleText(id, ss[1..]), max);
      SampleTextReplays(m', id, ss[1..], max);
      assert c.samples + [ss[0]] + ss[1..] == c.samples + ss;
    }
  }

  /** What is written about a body is read back as that body. */
  lemma CameraTextReplays(m: Cameras, id: CamId, c: Camera, max: nat)
    requires id !in m && id != [] && Bounded(c, max)
    ensures Whole(CameraText(id, c)) && Replay(m, CameraText(id, c), max) == m[id := c]
  {
    hide Line, ReplayLine, Replay, SampleText;
    var said := m[id := Told(c, BLANK)];
    LineIsOneLine(Saw(id, c));
    LineReplays(m, Saw(id, c), max);
    ReplayLast(m, Line(Saw(id, c)), max);
    SampleTextReplays(said, id, c.samples, max);
    ReplayResumes(m, Line(Saw(id, c)) + [LF], SampleText(id, c.samples), max);
    assert [] + c.samples == c.samples;
  }

  // ------------------------------------------------------------- the ledger

  /** With a rewrite factor f, (f - 1) times what compactions were worth, and the
      file as it is, is paid for by what the file held at the start, by what was
      appended, and by what the markers ran over their 64 bytes. */
  predicate Paid(factor: real, rewritten: int, bytes: int, income: int) {
    factor > 1.0 ==> (factor - 1.0) * rewritten as real + bytes as real <= income as real
  }

  lemma CompactionPays(factor: real, rewritten: int, bytes: int, income: int, live: int, marker: int)
    requires Paid(factor, rewritten, bytes, income) && factor > 1.0
    requires bytes as real >= live as real * factor
    ensures Paid(factor, rewritten + live, live - 64 + marker, income + marker - 64)
  {
    var f := factor - 1.0;
    assert f * (rewritten + live) as real == f * rewritten as real + f * live as real;
    assert live as real * factor == live as real + f * live as real;
  }

  datatype Ledger = Ledger(start: int, appended: int, rewritten: int, over: int) {
    function Income(): int {
      start + appended + over
    }
  }

  /** `max` samples are kept for a body; a file below `minBytes` is left alone, and
      one that is `factor` times what it is worth is rewritten. */
  datatype Options = Options(max: nat, minBytes: real, factor: real)

  /** Memory and file fit together. */
  ghost predicate Fits(m: Cameras, file: seq<byte>, bytes: nat, since: seq<Entry>, ledger: Ledger, opt: Options) {
    var r := Replay(map[], file, opt.max);
    && Sound(m, opt.max) && Whole(file) && bytes == |file|
    && Agrees(m, r) && Counted(m, r, since)
    && Paid(opt.factor, ledger.rewritten, bytes, ledger.Income())
  }

  /** No compaction is due. */
  ghost predicate Lean(m: Cameras, bytes: nat, opt: Options) {
    opt.factor <= 1.0 || bytes as real < opt.minBytes || bytes as real < Live(m) as real * opt.factor
  }

  lemma SameFits(m: Cameras, r: Cameras)
    requires r == m
    ensures Agrees(m, r) && Counted(m, r, [])
  {
    forall id
      ensures Follows(m, r, id) && CountAt(m, r, [], id)
    {
    }
  }

  lemma SoundSet(m: Cameras, id: CamId, c: Camera, max: nat)
    requires Sound(m, max) && id != [] && Bounded(c, max)
    ensures Sound(m[id := c], max)
  {
  }

  lemma RecallBounded(m: Cameras, id: CamId, max: nat)
    requires Sound(m, max)
    ensures Bounded(Recall(m, id), max)
  {
  }

  /** Whatever is replayed is named and within the window. */
  lemma {:induction false} ReplaySound(m: Cameras, text: seq<byte>, max: nat)
    requires Sound(m, max)
    ensures Sound(Replay(m, text, max), max)
    decreases |text|
  {
    if text != [] {
      var n := LineEnd(text);
      ReplayLineSound(m, text[..n], max);
      if n < |text| {
        ReplaySound(ReplayLine(m, text[..n], max), text[n + 1..], max);
      }
    }
  }

  lemma ReplayLineSound(m: Cameras, line: seq<byte>, max: nat)
    requires Sound(m, max)
    ensures Sound(ReplayLine(m, line, max), max)
  {
    hide ParseRecord, TextOf, NumberOf, FlagOf, Window;
    if line != [] && ParseRecord(line).Some? {
      var r := ParseRecord(line).value;
      var id := TextOf(r, Id, []);
      RecallBounded(m, id, max);
      assert Bounded(Push(Recall(m, id), ReadSample(r), max), max) by {
        assert max > 0 ==> |Window(Recall(m, id).samples + [ReadSample(r)], max)| <= max;
      }
    }
  }

  lemma LearningCounts(m: Cameras, r: Cameras, since: seq<Entry>, id: CamId, bias: Option<int>, lead: Option<int>,
                       drift: Option<Drift>)
    requires Counted(m, r, since)
    ensures Counted(m[id := Learned(Recall(m, id), bias, lead, drift)], r, since)
  {
    var m' := m[id := Learned(Recall(m, id), bias, lead, drift)];
    forall at
      ensures CountAt(m', r, since, at)
    {
      CountedAt(m, r, since, at);
    }
  }

  lemma NotLean(m: Cameras, bytes: nat, opt: Options)
    requires !Lean(m, bytes, opt)
    ensures opt.factor > 1.0 && bytes as real >= Live(m) as real * opt.factor
  {
    hide Live;
  }

  lemma LedgerOpens(factor: real, bytes: int)
    ensures Paid(factor, 0, bytes, bytes)
  {
    assert (factor - 1.0) * 0 as real == 0.0;
  }

  lemma AppendPays(factor: real, rewritten: int, bytes: int, income: int, more: int)
    requires Paid(factor, rewritten, bytes, income)
    ensures Paid(factor, rewritten, bytes + more, income + more)
  {
  }

  lemma RewriteStart(head: Entry, max: nat)
    requires head.Compacted? && Replay(map[], [] + Line(head) + [LF], max) == Apply(Replay(map[], [], max), head, max)
    ensures Replay(map[], [] + Line(head) + [LF], max) == map[]
  {
    hide Line;
    assert Replay(map[], [], max) == map[];
  }

  /** One more body in the new file. */
  lemma RewriteStep(m: Cameras, todo: Cameras, id: CamId, body: seq<byte>, max: nat)
    requires id in todo && id in m && todo[id] == m[id] && id != [] && Bounded(m[id], max)
    requires Whole(body) && Replay(map[], body, max) == m - todo.Keys
    ensures Whole(body + CameraText(id, m[id]))
    ensures Replay(map[], body + CameraText(id, m[id]), max) == m - (todo - {id}).Keys
  {
    hide Replay, CameraText;
    CameraTextReplays(m - todo.Keys, id, m[id], max);
    ReplayResumes(map[], body, CameraText(id, m[id]), max);
    assert (m - todo.Keys)[id := m[id]] == m - (todo - {id}).Keys;
  }

  lemma TotalStep(todo: Cameras, id: CamId, body: seq<byte>, text: seq<byte>)
    requires id in todo && text == CameraText(id, todo[id])
    ensures |body + text| + Total(todo - {id}, Size) == |body| + Total(todo, Size)
  {
    TotalOf(todo, Size, id);
  }

  /** Takes over what is news, and says whether anything was. */
  method LearnInto(known: Camera, bias: Option<int>, lead: Option<int>, drift: Option<Drift>)
    returns (c: Camera, changed: bool)
    ensures c == Learned(known, bias, lead, drift) && c.samples == known.samples
    ensures (drift.Some? ==> drift.value.span >= 0) ==> changed == (c != known)
  {
    c, changed := known, false;
    if bias.Some? && (c.bias.None? || c.bias != bias) {
      c := c.(bias := bias);
      changed := true;
    }
    if lead.Some? && (c.lead.None? || Abs(c.lead.value - lead.value) > 100) {
      c := c.(lead := lead);
      changed := true;
    }
    if drift.Some?
       && (c.drift.None? || Abs(c.drift.value.ppm - drift.value.ppm) > 50
           || 2 * drift.value.span > 3 * c.drift.value.span)
    {
      c := c.(drift := drift);
      changed := true;
    }
  }

  class CamStore {
    const opt: Options
    /** Without a path nothing is ever written. */
    const enabled: bool
    var cam: Cameras
    var file: seq<byte>
    var bytes: nat
    var compactions: nat
    ghost var since: seq<Entry>
    ghost var ledger: Ledger

    ghost function Replayed(): Cameras
      reads this
    {
      Replay(map[], file, opt.max)
    }

    ghost predicate Valid()
      reads this
    {
      Sound(cam, opt.max) && (enabled ==> Fits(cam, file, bytes, since, ledger, opt))
    }

    /** Opens a file, whatever is in it. It can be appended to when its last line
        is ended. */
    constructor (text: seq<byte>, options: Options, path: bool)
      ensures opt == options && enabled == path && compactions == 0
      ensures enabled ==> file == text && cam == Replay(map[], text, options.max) && since == []
      ensures !enabled ==> cam == map[]
      ensures Whole(text) || !path ==> Valid()
    {
      opt, enabled := options, path;
      var seen: Cameras := map[];
      if path {
        seen := ReplayLoop(text, options.max);
      }
      cam, file, bytes, compactions := seen, text, |text|, 0;
      since, ledger := [], Ledger(|text|, 0, 0, 0);
      new;
      ReplaySound(map[], text, opt.max);
      SameFits(seen, seen);
    }

    /** What a compaction would leave. */
    method LiveBytes() returns (n: nat)
      ensures n == Live(cam)
    {
      hide CameraText;
      n := 64;
      var todo := cam;
      while todo.Keys != {}
        invariant n + Total(todo, Size) == Live(cam)
        decreases |todo.Keys|
      {
        var id :| id in todo.Keys;
        TotalOf(todo, Size, id);
        var size := CameraBytes(id, todo[id]);
        n := n + size;
        todo := todo - {id};
      }
    }

    method CameraBytes(id: CamId, c: Camera) returns (n: nat)
      ensures n == Size(id, c)
    {
      n := |Line(Saw(id, c))| + 1;
      for i := 0 to |c.samples|
        invariant n + |SampleText(id, c.samples[i..])| == Size(id, c)
      {
        assert c.samples[i..][1..] == c.samples[i + 1..];
        n := n + |Line(Wrote(id, c.samples[i]))| + 1;
      }
    }

    method WriteCamera(id: CamId, c: Camera) returns (text: seq<byte>)
      ensures text == CameraText(id, c)
    {
      hide Line;
      text := Line(Saw(id, c)) + [LF];
      for i := 0 to |c.samples|
        invariant text + SampleText(id, c.samples[i..]) == CameraText(id, c)
      {
        var line := Line(Wrote(id, c.samples[i])) + [LF];
        assert c.samples[i..][1..] == c.samples[i + 1..];
        Regroup(text, line, SampleText(id, c.samples[i + 1..]));
        text := text + line;
      }
      assert text + [] == text;
    }

    method KeptSamples() returns (n: nat)
      ensures n == Total(cam, Kept)
    {
      n := 0;
      var todo := cam;
      while todo.Keys != {}
        invariant n + Total(todo, Kept) == Total(cam, Kept)
        decreases |todo.Keys|
      {
        var id :| id in todo.Keys;
        TotalOf(todo, Kept, id);
        n := n + |todo[id].samples|;
        todo := todo - {id};
      }
    }

    method ShouldCompact() returns (due: bool)
      ensures due == (enabled && !Lean(cam, bytes, opt))
    {
      hide Live;
      if !enabled || opt.factor <= 1.0 || bytes as real < opt.minBytes {
        return false;
      }
      var live := LiveBytes();
      due := bytes as real >= live as real * opt.factor;
    }

    /** Every body as lines behind a first one. The bodies may come in any order. */
    method WriteAll(head: Entry) returns (body: seq<byte>)
      requires Sound(cam, opt.max) && head.Compacted?
      ensures Whole(body) && Replay(map[], body, opt.max) == cam
      ensures |body| == |Line(head)| + 1 + Total(cam, Size)
    {
      hide Line, Replay, CameraText;
      body := [] + Line(head) + [LF];
      AppendReplays([], head, opt.max);
      RewriteStart(head, opt.max);
      var todo := cam;
      assert cam - cam.Keys == map[];
      while todo.Keys != {}
        invariant Sound(todo, opt.max) && forall id :: id in todo ==> id in cam && todo[id] == cam[id]
        invariant Whole(body) && Replay(map[], body, opt.max) == cam - todo.Keys
        invariant |body| + Total(todo, Size) == |Line(head)| + 1 + Total(cam, Size)
        decreases |todo.Keys|
      {
        var id :| id in todo.Keys;
        var text := WriteCamera(id, cam[id]);
        RewriteStep(cam, todo, id, body, opt.max);
        TotalStep(todo, id, body, text);
        body := body + text;
        todo := todo - {id};
      }
      assert cam - todo.Keys == cam;
    }

    /** Writes the new file and puts it in place of the old one. */
    method Rewrite(wall: int) returns (ghost marker: nat)
      requires Sound(cam, opt.max)
      modifies `file, `bytes, `compactions
      ensures marker == |Line(Compacted(wall, |cam|, Total(cam, Kept)))| + 1
      ensures Whole(file) && Replayed() == cam && bytes == |file| == Live(cam) - 64 + marker
      ensures compactions == old(compactions) + 1
    {
      hide Line, Replay, Total;
      var kept := KeptSamples();
      var head := Compacted(wall, |cam|, kept);
      marker := |Line(head)| + 1;
      var body := WriteAll(head);
      file, bytes, compactions := body, |body|, compactions + 1;
    }

    /** A rewrite that was asked for: a new count of costs begins. */
    method Renew(wall: int)
      requires Sound(cam, opt.max)
      modifies `file, `bytes, `compactions, `since, `ledger
      ensures Valid() && Replayed() == cam && since == [] && compactions == old(compactions) + 1
      ensures ledger == Ledger(bytes, 0, 0, 0)
    {
      hide Replay, Paid, Line, Live, Total;
      ghost var marker := Rewrite(wall);
      since, ledger := [], Ledger(bytes, 0, 0, 0);
      SameFits(cam, Replayed());
      LedgerOpens(opt.factor, bytes);
    }

    /** Rewrites the file with what is worth keeping. */
    method Compact(wall: int)
      requires Valid()
      modifies `file, `bytes, `compactions, `since, `ledger
      ensures Valid()
      ensures enabled ==> Replayed() == cam && since == [] && compactions == old(compactions) + 1
      ensures !enabled ==> file == old(file) && compactions == old(compactions)
    {
      if enabled {
        Renew(wall);
      }
    }

    /** Appends a line, and compacts when that has made the file too long for what
        it is worth. */
    method Append(e: Entry, wall: int)
      requires enabled && Named(e) && Sound(cam, opt.max) && Whole(file) && bytes == |file|
      requires Agrees(cam, Apply(Replayed(), e, opt.max)) && Counted(cam, Apply(Replayed(), e, opt.max), since + [e])
      requires Paid(opt.factor, ledger.rewritten, bytes, ledger.Income())
      modifies `file, `bytes, `compactions, `since, `ledger
      ensures Valid()
      ensures ledger.start == old(ledger.start) && ledger.appended == old(ledger.appended) + |Line(e)| + 1
      ensures compactions == old(compactions) ==>
                && file == old(file) + Line(e) + [LF] && since == old(since) + [e] && Lean(cam, bytes, opt)
                && Replayed() == Apply(old(Replayed()), e, opt.max)
                && ledger.rewritten == old(ledger.rewritten) && ledger.over == old(ledger.over)
      ensures compactions != old(compactions) ==>
                && compactions == old(compactions) + 1 && Replayed() == cam && since == []
                && bytes == Live(cam) + ledger.over - old(ledger.over)
                && ledger.over - old(ledger.over) == |Line(Compacted(wall, |cam|, Total(cam, Kept)))| + 1 - 64
                && ledger.rewritten == old(ledger.rewritten) + Live(cam)
    {
      hide Replay, Paid, Line, Apply, Live, Lean;
      AppendReplays(file, e, opt.max);
      AppendPays(opt.factor, ledger.rewritten, bytes, ledger.Income(), |Line(e)| + 1);
      file := file + Line(e) + [LF];
      bytes := bytes + |Line(e)| + 1;
      since := since + [e];
      ledger := ledger.(appended := ledger.appended + |Line(e)| + 1);
      var due := ShouldCompact();
      if due {
        ghost var live: int := Live(cam);
        ghost var before: int := bytes;
        NotLean(cam, bytes, opt);
        ghost var marker := Rewrite(wall);
        CompactionPays(opt.factor, ledger.rewritten, before, ledger.Income(), live, marker);
        since := [];
        ledger := ledger.(rewritten := ledger.rewritten + live, over := ledger.over + marker - 64);
        SameFits(cam, Replayed());
      }
    }

    /** A body is on the air. */
    method NoteSeen(id: CamId, name: seq<byte>, fps: int, session: bool, now: int)
      requires Valid()
      modifies this
      ensures Valid()
      ensures cam == if id == [] then old(cam)
              else old(cam)[id := Noticed(Recall(old(cam), id), name, fps, session, now)]
      ensures enabled && id != [] ==> id in Replayed() && Replayed()[id] == cam[id]
    {
      hide Replay, Paid;
      if id == [] {
        return;
      }
      var c := Noticed(Recall(cam, id), name, fps, session, now);
      RecallBounded(cam, id, opt.max);
      SoundSet(cam, id, c, opt.max);
      if enabled {
        SayingAgrees(cam, Replayed(), id, c, opt.max);
        SayingCounts(cam, Replayed(), since, id, c, opt.max);
      }
      cam := cam[id := c];
      if enabled {
        Append(Saw(id, c), now);
      }
    }

    /** A write was made: memory has it, and its line is appended. */
    method RecordWrite(id: CamId, s: Sample, now: int)
      requires Valid()
      modifies this
      ensures Valid()
      ensures cam == if id == [] then old(cam) else old(cam)[id := Recorded(Recall(old(cam), id), s, opt.max)]
    {
      hide Replay, Paid;
      if id == [] {
        return;
      }
      var samples := TrimSamples(Recall(cam, id).samples + [s], opt.max);
      var c := Bracketed(Recall(cam, id), s).(samples := samples);
      SoundSet(cam, id, c, opt.max);
      if enabled {
        WritingAgrees(cam, Replayed(), id, s, opt.max);
        WritingCounts(cam, Replayed(), since, id, s, opt.max);
      }
      cam := cam[id := c];
      if enabled {
        Append(Wrote(id, s), now);
      }
    }

    /** What was learned changes memory alone; the result says whether there is
        anything to tell. */
    method Learn(id: CamId, bias: Option<int>, lead: Option<int>, drift: Option<Drift>) returns (changed: bool)
      requires Valid()
      modifies `cam
      ensures Valid()
      ensures cam == if id == [] then old(cam) else old(cam)[id := Learned(Recall(old(cam), id), bias, lead, drift)]
      ensures id != [] && (drift.Some? ==> drift.value.span >= 0) ==> changed == (cam[id] != Recall(old(cam), id))
    {
      hide Replay, Paid, Learned;
      if id == [] {
        return false;
      }
      var c := Recall(cam, id);
      RecallBounded(cam, id, opt.max);
      if enabled {
        LearningAgrees(cam, Replayed(), id, bias, lead, drift);
        LearningCounts(cam, Replayed(), since, id, bias, lead, drift);
      }
      c, changed := LearnInto(c, bias, lead, drift);
      SoundSet(cam, id, c, opt.max);
      cam := cam[id := c];
    }

    /** Tells the file all that is known about a body. */
    method RecordParams(id: CamId, now: int)
      requires Valid()
      modifies this
      ensures Valid() && cam == old(cam)
      ensures enabled && id in cam ==> id in Replayed() && Replayed()[id] == cam[id]
    {
      hide Replay, Paid;
      if id == [] || !enabled || id !in cam {
        return;
      }
      ghost var m := cam;
      SayingAgrees(cam, Replayed(), id, cam[id], opt.max);
      SayingCounts(cam, Replayed(), since, id, cam[id], opt.max);
      assert m[id := m[id]] == m;
      Append(Saw(id, cam[id]), now);
    }

    /** Drops a body from memory and, by a rewrite, from the file. */
    method Forget(id: CamId, now: int)
      requires Valid()
      modifies this
      ensures Valid() && cam == old(cam) - {id}
      ensures enabled ==> id !in Replayed()
      ensures enabled && id in old(cam) ==> Replayed() == cam
      ensures id !in old(cam) ==> file == old(file)
    {
      hide Replay, Paid;
      if id !in cam {
        if enabled {
          AgreesAt(cam, Replayed(), id);
        }
        assert cam - {id} == cam;
        return;
      }
      cam := cam - {id};
      if enabled {
        Renew(now);
      }
    }
  }
}
