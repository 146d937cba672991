/** The clock controller (src/camsync.cc): when to write a camera's clock, what
    to learn from a write, and when to look again. Times and errors are exact
    reals, in seconds. */
module CamSync {
  import opened Bytes

  datatype Options = Options(
    hasTolerance: bool, tolerance: real, toleranceFrames: real, writeTolerance: real,
    minWriteInterval: real,
    adaptBias: bool, maxBiasStep: int, maxAdapts: int,
    adaptivePoll: bool, poll: real, maxPoll: real, pollSlices: int, minAssumedPpm: real,
    restartStep: real, minDriftInterval: real,
    lead: real, adaptLead: bool, leadWindow: int, minLeadSamples: int, maxLead: real,
    maxFailures: int, fps: int, dryRun: bool)

  datatype DriftEstimate = DriftEstimate(has: bool, ppm: real, span: real, samples: int)

  datatype LeadEstimate = LeadEstimate(has: bool, lead: real, samples: int)

  /** What is carried from one cycle to the next. */
  datatype State = State(
    failures: int, adapts: int, rtcBias: int,
    hasLastWrite: bool, lastWriteMono: real,
    hasLastObs: bool, lastObsMono: real, lastObsError: real, wroteSinceObs: bool,
    hasAnchor: bool, anchorMono: real, anchorError: real,
    drift: DriftEstimate, lead: LeadEstimate)

  const NO_DRIFT := DriftEstimate(false, 0.0, 0.0, 0)

  datatype Conditions = Conditions(recording: bool, writesEnabled: bool, hasTimecodeSource: bool, timecodeSource: int)

  const TIME_OF_DAY := 0

  datatype Action =
    | Write | SkipWritesDisabled | SkipRecording | SkipTimecodeSource | SkipExternal | SkipInTolerance | SkipRateLimited
    | SkipDryRun

  function Abs(x: real): real {
    if x < 0.0 then -x else x
  }

  function Max(a: real, b: real): real {
    if a < b then b else a
  }

  function Min(a: real, b: real): real {
    if b < a then b else a
  }

  /** Halves round away from zero. */
  function Round(x: real): int {
    if x >= 0.0 then (x + 0.5).Floor else -(-x + 0.5).Floor
  }

  function FrameRate(opt: Options, fps: int): (r: int)
    ensures r > 0
  {
    var rate := if fps > 0 then fps else opt.fps;
    if rate <= 0 then 24 else rate
  }

  function TriggerTolerance(opt: Options, fps: int): real {
    if opt.hasTolerance then opt.tolerance else opt.toleranceFrames / (FrameRate(opt, fps) as real)
  }

  // ------------------------------------------------------------- the gates

  predicate TimecodeFollowsRtc(cond: Conditions) {
    cond.hasTimecodeSource ==> cond.timecodeSource == TIME_OF_DAY
  }

  /** Too soon after the last write, unless that write is still converging. */
  predicate RateLimited(opt: Options, s: State, now: real) {
    s.hasLastWrite && s.adapts == 0 && now - s.lastWriteMono < opt.minWriteInterval
  }

  function Decide(opt: Options, s: State, error: real, fps: int, cond: Conditions, now: real): Action {
    if !cond.writesEnabled then SkipWritesDisabled
    else if cond.recording then SkipRecording
    else if !TimecodeFollowsRtc(cond) then SkipTimecodeSource
    else if s.failures >= opt.maxFailures then SkipExternal
    else if Abs(error) <= TriggerTolerance(opt, fps) then SkipInTolerance
    else if RateLimited(opt, s, now) then SkipRateLimited
    else if opt.dryRun then SkipDryRun
    else Write
  }

  /** A write happens exactly when it is permitted, safe, useful, still believed
      in, called for and not too soon. */
  lemma WritesExactlyWhen(opt: Options, s: State, error: real, fps: int, cond: Conditions, now: real)
    ensures Decide(opt, s, error, fps, cond, now) == Write <==>
              && cond.writesEnabled && !cond.recording && TimecodeFollowsRtc(cond) && !opt.dryRun
              && s.failures < opt.maxFailures
              && Abs(error) > TriggerTolerance(opt, fps)
              && !RateLimited(opt, s, now)
  {
  }

  // ------------------------------------------------------------ what is learned

  function ForgetDrift(s: State): State {
    s.(drift := NO_DRIFT, hasLastObs := false, hasAnchor := false, wroteSinceObs := false, failures := 0, adapts := 0)
  }

  /** A jump too large to be drift. */
  predicate Restarted(opt: Options, s: State, error: real) {
    s.hasLastObs && !s.wroteSinceObs && Abs(error - s.lastObsError) > opt.restartStep
  }

  function Ppm(rise: real, run: real): real
    requires run > 0.0
  {
    rise / run * 1000000.0
  }

  function Observe(opt: Options, s: State, error: real, now: real): State {
    var t := if Restarted(opt, s, error) then ForgetDrift(s) else s;
    var u := t.(hasLastObs := true, lastObsMono := now, lastObsError := error, wroteSinceObs := false);
    var v := if u.hasAnchor then u else u.(hasAnchor := true, anchorMono := now, anchorError := error);
    var span := now - v.anchorMono;
    if span > 5.0 && span >= opt.minDriftInterval then
      v.(drift := DriftEstimate(true, Ppm(error - v.anchorError, span), span, v.drift.samples + 1))
    else v
  }

  datatype Verdict = Ok | Adapting | NoEffect

  predicate Landed(opt: Options, before: real, after: real) {
    Abs(after) <= opt.writeTolerance || Abs(after) < Abs(before) - 0.25
  }

  function Clamp(step: int, bound: int): int {
    if (if step < 0 then -step else step) > bound then (if step > 0 then bound else -bound) else step
  }

  function Judge(opt: Options, s: State, before: real, after: real, now: real): (r: (State, Verdict))
  {
    var t := s.(wroteSinceObs := true, hasLastObs := true, lastObsMono := now, lastObsError := after,
                hasAnchor := true, anchorMono := now, anchorError := after);
    if Landed(opt, before, after) then
      (t.(failures := 0, adapts := 0, rtcBias := s.rtcBias + (if opt.adaptBias then Round(-after) else 0)), Ok)
    else if opt.adaptBias && s.adapts < opt.maxAdapts then
      (t.(rtcBias := s.rtcBias + Clamp(Round(-after), opt.maxBiasStep), adapts := s.adapts + 1), Adapting)
    else
      (t.(failures := s.failures + 1, adapts := 0), NoEffect)
  }

  /** The state the rest of the program leaves after a write has gone out. */
  function Wrote(s: State, at: real): State {
    s.(hasLastWrite := true, lastWriteMono := at)
  }

  // ------------------------------------------------- the drift bound is a bound

  /** How fast the clock may be walking, in parts per million: the estimate, plus
      a frame of quantisation over the lever arm it was measured with. */
  function DriftBoundPpm(opt: Options, est: DriftEstimate, fps: int): real {
    if !est.has then 0.0
    else
      var quantisation := if est.span > 0.0 then 1.0 / (FrameRate(opt, fps) as real) / est.span * 1000000.0 else 0.0;
      Max(Abs(est.ppm) + quantisation, opt.minAssumedPpm)
  }

  /** A clock that is `offset` out at time 0 and gains `rate` seconds a second. */
  datatype Clock = Clock(offset: real, rate: real)

  function ErrorAt(c: Clock, t: real): real {
    c.offset + c.rate * t
  }

  /** What a camera that reports whole frames shows of an error: it may be up to
      a frame low, after whatever constant (half a frame, or nothing) is added to
      every reading. */
  predicate Shows(c: Clock, frame: real, centre: real, t: real, reading: real) {
    centre - frame <= reading - ErrorAt(c, t) <= centre
  }

  /** Everything remembered is a reading of the clock as it now is, and the drift
      estimate is off by no more than a frame over its lever arm. */
  ghost predicate Faithful(s: State, c: Clock, frame: real, centre: real) {
    && (s.hasAnchor ==> Shows(c, frame, centre, s.anchorMono, s.anchorError))
    && (s.drift.has ==> s.drift.span > 0.0 && Abs(s.drift.ppm / 1000000.0 - c.rate) * s.drift.span <= frame)
  }

  lemma Slope(c: Clock, frame: real, centre: real, t0: real, e0: real, t1: real, e1: real)
    requires t1 > t0 && Shows(c, frame, centre, t0, e0) && Shows(c, frame, centre, t1, e1)
    ensures Abs(Ppm(e1 - e0, t1 - t0) / 1000000.0 - c.rate) * (t1 - t0) <= frame
  {
    var d := t1 - t0;
    var q := (e1 - e0) / d;
    assert q * d == e1 - e0;
    assert Ppm(e1 - e0, d) / 1000000.0 == q;
    assert (q - c.rate) * d == (e1 - e0) - c.rate * d;
    assert c.rate * d == ErrorAt(c, t1) - ErrorAt(c, t0);
    assert (c.rate - q) * d == c.rate * d - q * d;
  }

  /** Observing keeps it so; and where it takes the reading for a restart it may
      be the reading of any other clock. */
  lemma ObserveFaithful(opt: Options, s: State, c: Clock, c': Clock, frame: real, centre: real, error: real, now: real)
    requires Faithful(s, c, frame, centre) && Shows(c', frame, centre, now, error)
    requires c' == c || Restarted(opt, s, error)
    ensures Faithful(Observe(opt, s, error, now), c', frame, centre)
  {
    var t := if Restarted(opt, s, error) then ForgetDrift(s) else s;
    if t.hasAnchor && now - t.anchorMono > 5.0 {
      Slope(c', frame, centre, t.anchorMono, t.anchorError, now, error);
    }
  }

  /** So does a write, which sets the clock but does not change how fast it
      walks, provided what is read back is a reading of the clock as set. */
  lemma JudgeFaithful(opt: Options, s: State, c: Clock, offset: real, frame: real, centre: real, before: real,
                      after: real, now: real)
    requires Faithful(s, c, frame, centre) && Shows(c.(offset := offset), frame, centre, now, after)
    ensures Faithful(Judge(opt, s, before, after, now).0, c.(offset := offset), frame, centre)
  {
  }

  lemma ScaleDown(x: real, span: real, frame: real)
    requires span > 0.0 && x * span <= frame
    ensures x <= frame / span
  {
    var q := frame / span;
    assert q * span == frame;
    if x > q {
      assert (x - q) * span > 0.0;
    }
  }

  /** The bound scheduled against is never below the true drift. */
  lemma BoundIsSound(opt: Options, s: State, c: Clock, centre: real, fps: int)
    requires s.drift.has && Faithful(s, c, 1.0 / (FrameRate(opt, fps) as real), centre)
    ensures Abs(c.rate) * 1000000.0 <= DriftBoundPpm(opt, s.drift, fps)
  {
    var frame := 1.0 / (FrameRate(opt, fps) as real);
    var d := s.drift;
    ScaleDown(Abs(d.ppm / 1000000.0 - c.rate), d.span, frame);
    var q := frame / d.span;
    assert Abs(d.ppm / 1000000.0 - c.rate) <= q;
    assert Abs(c.rate) <= Abs(d.ppm / 1000000.0) + q;
    assert Abs(d.ppm / 1000000.0) * 1000000.0 == Abs(d.ppm);
  }

  // --------------------------------------------------------- when to look again

  /** How long until the clock can be wrong enough to matter. */
  function UntilWrong(opt: Options, s: State, error: real, fps: int): real {
    if !s.drift.has then 0.0
    else
      var bound := DriftBoundPpm(opt, s.drift, fps);
      var headroom := TriggerTolerance(opt, fps) - Abs(error);
      if headroom > 0.0 && bound > 0.0 then headroom / (bound / 1000000.0) else 0.0
  }

  /** How long until a write would be allowed. */
  function UntilAllowed(opt: Options, s: State, now: real): real {
    if s.hasLastWrite && s.adapts == 0 then Max(opt.minWriteInterval - (now - s.lastWriteMono), 0.0) else 0.0
  }

  function UntilActionable(opt: Options, s: State, error: real, fps: int, now: real): real {
    Max(UntilWrong(opt, s, error, fps), UntilAllowed(opt, s, now))
  }

  /** One slice of the wait, no more than `maxPoll` and no less than `poll`. */
  function Slice(opt: Options, wait: real): real {
    var slices := if opt.pollSlices > 0 then opt.pollSlices else 1;
    Max(Min(wait / (slices as real), opt.maxPoll), opt.poll)
  }

  function NextPoll(opt: Options, s: State, error: real, fps: int, now: real): real {
    if !opt.adaptivePoll then opt.poll else Slice(opt, UntilActionable(opt, s, error, fps, now))
  }

  /** A path of the error that moves no faster than the bound, from the reading
      just taken. */
  predicate WithinBound(bound: real, error: real, now: real, later: real, error': real) {
    later >= now && Abs(error' - error) <= bound / 1000000.0 * (later - now)
  }

  lemma StaysInside(bound: real, headroom: real, dt: real)
    requires bound > 0.0 && 0.0 <= dt < headroom / (bound / 1000000.0)
    ensures bound / 1000000.0 * dt < headroom
  {
    var b := bound / 1000000.0;
    assert headroom / b * b == headroom;
    assert (headroom / b - dt) * b > 0.0;
  }

  /** Looking away until then misses nothing: whatever is observed meanwhile, as
      long as the error moves no faster than the bound and no write or restart
      changes the counters, no write would have been decided on before. */
  lemma NothingActionableBefore(opt: Options, s: State, error: real, fps: int, now: real,
                                s': State, error': real, later: real, cond: Conditions)
    requires later < now + UntilActionable(opt, s, error, fps, now)
    requires WithinBound(DriftBoundPpm(opt, s.drift, fps), error, now, later, error')
    requires s'.hasLastWrite == s.hasLastWrite && s'.lastWriteMono == s.lastWriteMono && s'.adapts == s.adapts
    ensures Decide(opt, s', error', fps, cond, later) != Write
  {
    if later < now + UntilWrong(opt, s, error, fps) {
      StaysInside(DriftBoundPpm(opt, s.drift, fps), TriggerTolerance(opt, fps) - Abs(error), later - now);
    }
  }

  /** An observation that is not a restart leaves alone what decides. */
  lemma ObserveKeepsCounters(opt: Options, s: State, error: real, now: real)
    ensures var t := Observe(opt, s, error, now);
            && t.hasLastWrite == s.hasLastWrite && t.lastWriteMono == s.lastWriteMono && t.rtcBias == s.rtcBias
            && if Restarted(opt, s, error) then t.failures == 0 && t.adapts == 0
               else t.failures == s.failures && t.adapts == s.adapts
  {
  }

  /** The instants looked at, from `t` on, when each wait is one slice of what is
      left until a fixed horizon. */
  function Looks(opt: Options, horizon: real, t: real, n: nat): real
    decreases n
  {
    if n == 0 then t else Looks(opt, horizon, t + Slice(opt, Max(horizon - t, 0.0)), n - 1)
  }

  lemma OneLook(opt: Options, horizon: real, t: real)
    requires opt.poll > 0.0 && t < horizon
    ensures var u := t + Slice(opt, Max(horizon - t, 0.0)); t + opt.poll <= u <= Max(horizon, t + opt.poll)
  {
    var slices := if opt.pollSlices > 0 then opt.pollSlices else 1;
    var wait := horizon - t;
    Smaller(wait, slices as real);
  }

  lemma NonNegative(x: real, y: real)
    requires x >= 0.0 && y >= 0.0
    ensures x * y >= 0.0
  {
  }

  lemma Smaller(x: real, n: real)
    requires x >= 0.0 && n >= 1.0
    ensures x / n <= x
  {
    var q := x / n;
    assert q * n == x && q >= 0.0;
    NonNegative(q, n - 1.0);
    assert q * (n - 1.0) == q * n - q;
  }

  /** The looks reach the horizon, after at most as many of them as there are
      poll intervals to it, and the first look at or past it is no more than one
      poll interval late. */
  lemma {:induction false} LooksReachHorizon(opt: Options, horizon: real, t: real, n: nat) returns (k: nat)
    requires opt.poll > 0.0 && t <= horizon <= t + (n as real) * opt.poll
    ensures k <= n && horizon <= Looks(opt, horizon, t, k) <= horizon + opt.poll
    ensures forall j :: 0 <= j < k ==> Looks(opt, horizon, t, j) < horizon
    decreases n
  {
    if t == horizon {
      k := 0;
    } else {
      OneLook(opt, horizon, t);
      var u := t + Slice(opt, Max(horizon - t, 0.0));
      if u >= horizon {
        k := 1;
        assert Looks(opt, horizon, t, 1) == Looks(opt, horizon, u, 0) == u;
      } else {
        assert n > 0;
        assert ((n - 1) as real) * opt.poll == (n as real) * opt.poll - opt.poll;
        k := LooksReachHorizon(opt, horizon, u, n - 1);
        k := k + 1;
        assert Looks(opt, horizon, t, k) == Looks(opt, horizon, u, k - 1);
        forall j | 0 <= j < k
          ensures Looks(opt, horizon, t, j) < horizon
        {
          if j > 0 {
            assert Looks(opt, horizon, t, j) == Looks(opt, horizon, u, j - 1);
          }
        }
      }
    }
  }

  /** While the error is out of tolerance, the wait asked for is a slice of what is
      left until a write will be allowed. */
  lemma PollIsSlice(opt: Options, s: State, error: real, fps: int, now: real)
    requires opt.adaptivePoll && s.hasLastWrite && s.adapts == 0 && Abs(error) >= TriggerTolerance(opt, fps)
    ensures NextPoll(opt, s, error, fps, now) == Slice(opt, Max(s.lastWriteMono + opt.minWriteInterval - now, 0.0))
  {
  }

  /** The instants looked at from `t` on when each look observes an error and waits
      for as long as it is then told. */
  function Polled(opt: Options, s: State, fps: int, t: real, errors: seq<real>, n: nat): real
    requires n <= |errors|
    decreases n
  {
    if n == 0 then t
    else
      var seen := Observe(opt, s, errors[0], t);
      Polled(opt, seen, fps, t + NextPoll(opt, seen, errors[0], fps, t), errors[1..], n - 1)
  }

  /** Every one of them is out of tolerance, and none looks like a restart. */
  predicate Astray(opt: Options, s: State, fps: int, t: real, errors: seq<real>)
    decreases |errors|
  {
    errors != [] ==>
      var seen := Observe(opt, s, errors[0], t);
      && Abs(errors[0]) >= TriggerTolerance(opt, fps) && !Restarted(opt, s, errors[0])
      && Astray(opt, seen, fps, t + NextPoll(opt, seen, errors[0], fps, t), errors[1..])
  }

  /** So the looks are those towards the instant a write is allowed again. */
  lemma {:induction false} PolledAreLooks(opt: Options, s: State, fps: int, t: real, errors: seq<real>, n: nat)
    requires opt.adaptivePoll && s.hasLastWrite && s.adapts == 0 && n <= |errors| && Astray(opt, s, fps, t, errors)
    ensures Polled(opt, s, fps, t, errors, n) == Looks(opt, s.lastWriteMono + opt.minWriteInterval, t, n)
    decreases n
  {
    hide Observe, Slice, NextPoll, TriggerTolerance, Restarted;
    if n > 0 {
      var seen := Observe(opt, s, errors[0], t);
      ObserveKeepsCounters(opt, s, errors[0], t);
      PollIsSlice(opt, seen, errors[0], fps, t);
      PolledAreLooks(opt, seen, fps, t + NextPoll(opt, seen, errors[0], fps, t), errors[1..], n - 1);
    }
  }

  /** A camera that has to be written again is looked at no more than one poll
      interval after that is allowed, and at most as many looks later as there are
      poll intervals until then. */
  lemma PollsReachTheWrite(opt: Options, s: State, fps: int, t: real, errors: seq<real>) returns (k: nat)
    requires opt.adaptivePoll && opt.poll > 0.0 && s.hasLastWrite && s.adapts == 0 && Astray(opt, s, fps, t, errors)
    requires t <= s.lastWriteMono + opt.minWriteInterval <= t + (|errors| as real) * opt.poll
    ensures k <= |errors|
    ensures var allowed := s.lastWriteMono + opt.minWriteInterval;
            allowed <= Polled(opt, s, fps, t, errors, k) <= allowed + opt.poll
  {
    hide Observe;
    k := LooksReachHorizon(opt, s.lastWriteMono + opt.minWriteInterval, t, |errors|);
    PolledAreLooks(opt, s, fps, t, errors, k);
  }

  /** The wait before looking for a camera that is off the air: doubled for every
      miss, up to a ceiling. */
  function Doubled(first: real, misses: nat): real {
    if misses == 0 then first else 2.0 * Doubled(first, misses - 1)
  }

  lemma {:induction false} DoubledGrows(first: real, i: nat, j: nat)
    requires first > 0.0 && i <= j
    ensures 0.0 < Doubled(first, i) <= Doubled(first, j)
    decreases j
  {
    if i < j {
      DoubledGrows(first, i, j - 1);
    } else if j > 0 {
      DoubledGrows(first, i - 1, j - 1);
    }
  }

  method ReacquireInterval(opt: Options, misses: int) returns (wait: real)
    ensures var first := if opt.poll > 0.0 then opt.poll else 1.0;
            var ceiling := Max(opt.maxPoll, first);
            wait == Min(Doubled(first, if misses < 0 then 0 else misses), ceiling)
  {
    var first := if opt.poll > 0.0 then opt.poll else 1.0;
    var ceiling := if opt.maxPoll > first then opt.maxPoll else first;
    if misses <= 0 {
      return first;
    }
    wait := first;
    var i := 0;
    while i < misses && wait < ceiling
      invariant 0 <= i <= misses && wait == Doubled(first, i)
    {
      wait := wait * 2.0;
      i := i + 1;
    }
    DoubledGrows(first, i, misses);
    if wait > ceiling {
      wait := ceiling;
    }
  }

  // ------------------------------------------------------ rationing over a run

  /** One cycle of the daemon: an observation, and if a write is decided on, the
      instant it went out and what was read back after it. */
  datatype Cycle = Cycle(error: real, fps: int, cond: Conditions, now: real, sent: real, after: real, judged: real)

  /** The state after the observation a cycle begins with. */
  function Seen(opt: Options, s: State, c: Cycle): State {
    Observe(opt, s, c.error, c.now)
  }

  predicate Chose(opt: Options, s: State, c: Cycle) {
    Decide(opt, Seen(opt, s, c), c.error, c.fps, c.cond, c.now) == Write
  }

  function AfterCycle(opt: Options, s: State, c: Cycle): State {
    if Chose(opt, s, c) then Judge(opt, Wrote(Seen(opt, s, c), c.sent), c.error, c.after, c.judged).0
      else Seen(opt, s, c)
  }

  /** The state after a run of cycles. */
  function AfterRun(opt: Options, s: State, run: seq<Cycle>): State
    decreases |run|
  {
    if run == [] then s else AfterRun(opt, AfterCycle(opt, s, run[0]), run[1..])
  }

  /** The instants at which writes went out over a run. */
  function Writes(opt: Options, s: State, run: seq<Cycle>): seq<real>
    decreases |run|
  {
    if run == [] then []
    else (if Chose(opt, s, run[0]) then [run[0].sent] else []) + Writes(opt, AfterCycle(opt, s, run[0]), run[1..])
  }

  /** A write goes out no earlier than it was decided on, and time does not run
      backwards. */
  predicate InTime(opt: Options, s: State, run: seq<Cycle>)
    decreases |run|
  {
    run != [] ==>
      && (s.hasLastWrite ==> s.lastWriteMono <= run[0].now)
      && run[0].now <= run[0].sent
      && InTime(opt, AfterCycle(opt, s, run[0]), run[1..])
  }

  /** Any m + 1 in a row span at least an interval. */
  ghost predicate Spaced(times: seq<real>, m: nat, interval: real) {
    forall i, j :: 0 <= i < |times| && j == i + m && j < |times| ==> times[j] - times[i] >= interval
  }

  ghost predicate Ascending(times: seq<real>) {
    forall i, j :: 0 <= i <= j < |times| ==> times[i] <= times[j]
  }

  /** The writes so far end in a burst, which goes on only while the bias is
      converging and began after a pause of the full interval. */
  ghost predicate Rationed(opt: Options, s: State, past: seq<real>, burst: nat) {
    var n := |past|;
    && (s.hasLastWrite <==> past != []) && (past != [] ==> s.lastWriteMono == past[n - 1] && burst >= 1)
    && burst <= n && burst <= opt.maxAdapts + 1
    && (s.adapts > 0 ==> s.adapts == burst <= opt.maxAdapts) && s.adapts >= 0
    && Ascending(past)
    && (n > burst >= 1 ==> past[n - burst] - past[n - burst - 1] >= opt.minWriteInterval)
    && (opt.maxAdapts >= 0 ==> Spaced(past, opt.maxAdapts + 1, opt.minWriteInterval))
  }

  lemma SeenRationed(opt: Options, s: State, past: seq<real>, burst: nat, c: Cycle)
    requires opt.maxAdapts >= 0 && Rationed(opt, s, past, burst)
    ensures Rationed(opt, Seen(opt, s, c), past, burst)
  {
    ObserveKeepsCounters(opt, s, c.error, c.now);
  }

  lemma SpacedPush(times: seq<real>, m: nat, interval: real, t: real)
    requires Spaced(times, m, interval) && (m <= |times| ==> m > 0 && t - times[|times| - m] >= interval)
    ensures Spaced(times + [t], m, interval)
  {
  }

  lemma WriteSpaced(opt: Options, s: State, past: seq<real>, burst: nat, c: Cycle)
    requires opt.maxAdapts >= 0 && opt.minWriteInterval >= 0.0 && Rationed(opt, s, past, burst)
    requires (s.hasLastWrite ==> s.lastWriteMono <= c.now) && c.now <= c.sent && !RateLimited(opt, s, c.now)
    ensures Spaced(past + [c.sent], opt.maxAdapts + 1, opt.minWriteInterval)
  {
    var n, m := |past|, opt.maxAdapts + 1;
    if m <= n {
      assert past[n - m] <= past[n - 1] <= c.sent;
      if s.adapts > 0 {
        assert past[n - m] <= past[n - burst - 1] && past[n - burst] <= past[n - 1];
      }
    }
    SpacedPush(past, m, opt.minWriteInterval, c.sent);
  }

  lemma AscendingPush(times: seq<real>, t: real)
    requires Ascending(times) && (times != [] ==> times[|times| - 1] <= t)
    ensures Ascending(times + [t])
  {
    forall i, j | 0 <= i <= j < |times + [t]|
      ensures (times + [t])[i] <= (times + [t])[j]
    {
      if i < |times| {
        assert times[i] <= times[|times| - 1];
      }
    }
  }

  lemma WriteRationed(opt: Options, s: State, past: seq<real>, burst: nat, c: Cycle) returns (burst': nat)
    requires opt.maxAdapts >= 0 && opt.minWriteInterval >= 0.0 && Rationed(opt, s, past, burst)
    requires (s.hasLastWrite ==> s.lastWriteMono <= c.now) && c.now <= c.sent && !RateLimited(opt, s, c.now)
    ensures Rationed(opt, Judge(opt, Wrote(s, c.sent), c.error, c.after, c.judged).0, past + [c.sent], burst')
  {
    hide Ascending, Spaced;
    burst' := if s.adapts > 0 then burst + 1 else 1;
    WriteSpaced(opt, s, past, burst, c);
    AscendingPush(past, c.sent);
    var past', n := past + [c.sent], |past|;
    if s.adapts == 0 && n > 0 {
      assert past'[n] == c.sent && past'[n - 1] == past[n - 1];
    } else if n > burst {
      assert past'[n + 1 - burst'] == past[n - burst] && past'[n + 1 - burst' - 1] == past[n - burst - 1];
    }
  }

  /** Over any run, any maxAdapts + 2 writes in a row span at least the minimum
      write interval. */
  lemma {:induction false} WritesAreRationed(opt: Options, s: State, run: seq<Cycle>, past: seq<real>, burst: nat)
    requires opt.maxAdapts >= 0 && opt.minWriteInterval >= 0.0
    requires Rationed(opt, s, past, burst) && InTime(opt, s, run)
    ensures Spaced(past + Writes(opt, s, run), opt.maxAdapts + 1, opt.minWriteInterval)
    decreases |run|
  {
    if run == [] {
      assert past + [] == past;
    } else {
      var c := run[0];
      var rest := Writes(opt, AfterCycle(opt, s, c), run[1..]);
      SeenRationed(opt, s, past, burst, c);
      if Chose(opt, s, c) {
        ObserveKeepsCounters(opt, s, c.error, c.now);
        var burst' := WriteRationed(opt, Seen(opt, s, c), past, burst, c);
        WritesAreRationed(opt, AfterCycle(opt, s, c), run[1..], past + [c.sent], burst');
        Regroup(past, [c.sent], rest);
      } else {
        WritesAreRationed(opt, AfterCycle(opt, s, c), run[1..], past, burst);
        assert past + rest == past + ([] + rest);
      }
    }
  }

  // -------------------------------------------- the drift bound over a whole run

  /** What happens to the camera's clock in a cycle: the clock it comes back with
      if it was restarted before the observation, and the offset it is set to if
      it is written. */
  datatype Fate = Fate(restarted: Clock, written: real)

  /** The clock that a cycle observes, and the one that it leaves. */
  function ClockSeen(opt: Options, s: State, clock: Clock, c: Cycle, fate: Fate): Clock {
    if Restarted(opt, s, c.error) then fate.restarted else clock
  }

  function ClockLeft(opt: Options, s: State, clock: Clock, c: Cycle, fate: Fate): Clock {
    var seen := ClockSeen(opt, s, clock, c, fate);
    if Chose(opt, s, c) then seen.(offset := fate.written) else seen
  }

  function ClockAfter(opt: Options, s: State, clock: Clock, run: seq<Cycle>, fates: seq<Fate>): Clock
    requires |fates| == |run|
    decreases |run|
  {
    if run == [] then clock
    else ClockAfter(opt, AfterCycle(opt, s, run[0]), ClockLeft(opt, s, clock, run[0], fates[0]), run[1..], fates[1..])
  }

  /** A run of cycles of a camera whose clock keeps its rate between restarts:
      what is observed shows the clock, which may be any other clock than before
      where a restart is noticed, and a write moves it to an offset that what is
      read back then shows. */
  predicate Tells(opt: Options, s: State, clock: Clock, frame: real, centre: real, run: seq<Cycle>, fates: seq<Fate>)
    requires |fates| == |run|
    decreases |run|
  {
    run != [] ==>
      var c := run[0];
      var left := ClockLeft(opt, s, clock, c, fates[0]);
      && Shows(ClockSeen(opt, s, clock, c, fates[0]), frame, centre, c.now, c.error)
      && (Chose(opt, s, c) ==> Shows(left, frame, centre, c.judged, c.after))
      && Tells(opt, AfterCycle(opt, s, c), left, frame, centre, run[1..], fates[1..])
  }

  lemma CycleFaithful(opt: Options, s: State, clock: Clock, frame: real, centre: real, c: Cycle, fate: Fate)
    requires Faithful(s, clock, frame, centre)
    requires Shows(ClockSeen(opt, s, clock, c, fate), frame, centre, c.now, c.error)
    requires Chose(opt, s, c) ==> Shows(ClockLeft(opt, s, clock, c, fate), frame, centre, c.judged, c.after)
    ensures Faithful(AfterCycle(opt, s, c), ClockLeft(opt, s, clock, c, fate), frame, centre)
  {
    hide Judge, Observe, Decide, Shows, Faithful, Restarted;
    var seen := ClockSeen(opt, s, clock, c, fate);
    ObserveFaithful(opt, s, clock, seen, frame, centre, c.error, c.now);
    if Chose(opt, s, c) {
      WroteFaithful(Seen(opt, s, c), c.sent, seen, frame, centre);
      JudgeFaithful(opt, Wrote(Seen(opt, s, c), c.sent), seen, fate.written, frame, centre, c.error, c.after, c.judged);
    }
  }

  lemma WroteFaithful(s: State, at: real, clock: Clock, frame: real, centre: real)
    requires Faithful(s, clock, frame, centre)
    ensures Faithful(Wrote(s, at), clock, frame, centre)
  {
  }

  lemma {:induction false} RunFaithful(opt: Options, s: State, clock: Clock, frame: real, centre: real, run: seq<Cycle>,
                                       fates: seq<Fate>)
    requires |fates| == |run| && Faithful(s, clock, frame, centre) && Tells(opt, s, clock, frame, centre, run, fates)
    ensures Faithful(AfterRun(opt, s, run), ClockAfter(opt, s, clock, run, fates), frame, centre)
    decreases |run|
  {
    hide Faithful, Shows, AfterCycle, ClockLeft, ClockSeen, Chose;
    if run != [] {
      CycleFaithful(opt, s, clock, frame, centre, run[0], fates[0]);
      RunFaithful(opt, AfterCycle(opt, s, run[0]), ClockLeft(opt, s, clock, run[0], fates[0]), frame, centre,
                  run[1..], fates[1..]);
    }
  }

  /** From knowing nothing, over any run of cycles, writes and restarts among
      them, the bound that is scheduled against is never below the rate at which
      the clock now walks. */
  lemma BoundHoldsOverRuns(opt: Options, s: State, clock: Clock, centre: real, fps: int, run: seq<Cycle>,
                           fates: seq<Fate>)
    requires !s.hasAnchor && !s.drift.has && |fates| == |run|
    requires Tells(opt, s, clock, 1.0 / (FrameRate(opt, fps) as real), centre, run, fates)
    requires AfterRun(opt, s, run).drift.has
    ensures Abs(ClockAfter(opt, s, clock, run, fates).rate) * 1000000.0
            <= DriftBoundPpm(opt, AfterRun(opt, s, run).drift, fps)
  {
    hide Tells, AfterRun, ClockAfter, DriftBoundPpm, Shows;
    RunFaithful(opt, s, clock, 1.0 / (FrameRate(opt, fps) as real), centre, run, fates);
    BoundIsSound(opt, AfterRun(opt, s, run), ClockAfter(opt, s, clock, run, fates), centre, fps);
  }

  const NO_WRITES := Conditions(false, false, false, 0)

  /** An observation on which nothing is written. */
  function Look(error: real, fps: int, now: real): Cycle {
    Cycle(error, fps, NO_WRITES, now, now, error, now)
  }

  lemma LookObserves(opt: Options, s: State, error: real, fps: int, now: real)
    ensures AfterCycle(opt, s, Look(error, fps, now)) == Observe(opt, s, error, now)
  {
    hide Observe;
  }

  lemma AfterTwo(opt: Options, s: State, a: Cycle, b: Cycle)
    ensures AfterRun(opt, s, [a, b]) == AfterCycle(opt, AfterCycle(opt, s, a), b)
  {
    hide AfterCycle;
    assert [a, b][1..] == [b] && [b][1..] == [];
    assert AfterRun(opt, AfterCycle(opt, s, a), [b]) == AfterCycle(opt, AfterCycle(opt, s, a), b);
  }

  lemma ObservedTwice(opt: Options, s: State, error: real, span: real)
    requires !s.hasAnchor && !s.hasLastObs && Abs(error) <= opt.restartStep
    requires span > 5.0 && span >= opt.minDriftInterval
    ensures var t := Observe(opt, Observe(opt, s, 0.0, 0.0), error, span);
            t.drift.has && t.drift.ppm == Ppm(error, span) && t.drift.span == span
  {
    hide Ppm;
    assert error - 0.0 == error && span - 0.0 == span;
  }

  lemma TwoLooks(opt: Options, s: State, fps: int, error: real, span: real)
    requires !s.hasAnchor && !s.hasLastObs && Abs(error) <= opt.restartStep
    requires span > 5.0 && span >= opt.minDriftInterval
    ensures var t := AfterRun(opt, s, [Look(0.0, fps, 0.0), Look(error, fps, span)]);
            t.drift.has && t.drift.ppm == Ppm(error, span) && t.drift.span == span
  {
    hide Observe, AfterRun, AfterCycle, Look, Ppm, Abs;
    LookObserves(opt, s, 0.0, fps, 0.0);
    LookObserves(opt, Observe(opt, s, 0.0, 0.0), error, fps, span);
    AfterTwo(opt, s, Look(0.0, fps, 0.0), Look(error, fps, span));
    ObservedTwice(opt, s, error, span);
  }

  /** A jump that is too small to be noticed, however small it is, can leave the
      bound below the rate: two true readings of a clock that slipped back by
      `jump` between them. */
  lemma SlipMisleads(opt: Options, s: State, fps: int, rate: real, jump: real, span: real)
    requires !s.hasAnchor && !s.hasLastObs && jump > 0.0
    requires span > 5.0 && span >= opt.minDriftInterval && rate * 1000000.0 > opt.minAssumedPpm
    requires 0.0 <= rate * span - jump - 1.0 / (FrameRate(opt, fps) as real) <= opt.restartStep
    ensures var frame := 1.0 / (FrameRate(opt, fps) as real);
            var reading := rate * span - jump - frame;
            var t := AfterRun(opt, s, [Look(0.0, fps, 0.0), Look(reading, fps, span)]);
            && Shows(Clock(0.0, rate), frame, 0.0, 0.0, 0.0) && Shows(Clock(-jump, rate), frame, 0.0, span, reading)
            && t.drift.has && DriftBoundPpm(opt, t.drift, fps) < Abs(rate) * 1000000.0
  {
    var frame := 1.0 / (FrameRate(opt, fps) as real);
    var reading := rate * span - jump - frame;
    TwoLooks(opt, s, fps, reading, span);
    SlopeOfSlip(rate, jump, frame, span);
  }

  lemma SlopeOfSlip(rate: real, jump: real, frame: real, span: real)
    requires span > 0.0 && jump > 0.0 && frame > 0.0 && rate * span - jump - frame >= 0.0
    ensures rate > 0.0 && Ppm(rate * span - jump - frame, span) >= 0.0
    ensures Ppm(rate * span - jump - frame, span) + frame / span * 1000000.0 < rate * 1000000.0
  {
    var q, j, f := (rate * span - jump - frame) / span, jump / span, frame / span;
    assert q * span == rate * span - jump - frame && j * span == jump && f * span == frame;
    assert (q + j + f - rate) * span == 0.0;
    assert j > 0.0 && q >= 0.0;
  }

  /** For example half a second lost unnoticed in ten minutes, by a clock that
      gains a millisecond a second. */
  lemma SlipInput(opt: Options, s: State)
    requires !s.hasAnchor && !s.hasLastObs && opt.restartStep == 1.0 && opt.minDriftInterval <= 600.0
    requires opt.minAssumedPpm <= 100.0
    ensures var t := AfterRun(opt, s, [Look(0.0, 25, 0.0), Look(0.06, 25, 600.0)]);
            t.drift.has && DriftBoundPpm(opt, t.drift, 25) < 1000.0
  {
    SlipMisleads(opt, s, 25, 0.001, 0.5, 600.0);
  }

  // -------------------------------------------------------- giving up a camera

  /** How far the misses in a row have come: each adds one. */
  function Misses(opt: Options, s: State): int {
    s.failures * (opt.maxAdapts + 1) + s.adapts
  }

  lemma MissCounts(opt: Options, s: State, before: real, after: real, now: real)
    requires opt.adaptBias && 0 <= s.adapts <= opt.maxAdapts && !Landed(opt, before, after)
    ensures var t := Judge(opt, s, before, after, now).0;
            Misses(opt, t) == Misses(opt, s) + 1 && 0 <= t.adapts <= opt.maxAdapts
  {
    assert (s.failures + 1) * (opt.maxAdapts + 1) == s.failures * (opt.maxAdapts + 1) + opt.maxAdapts + 1;
  }

  lemma AtLeastOne(k: int, n: int)
    requires k >= 1 && n >= 0
    ensures k * n >= n
  {
  }

  lemma Distribute(j: int, k: int, n: int)
    ensures j * n + k * n == (j + k) * n
  {
  }

  lemma FailuresReached(adapts: int, failures: int, m: int, most: int)
    requires 0 <= adapts <= m && failures * (m + 1) + adapts >= most * (m + 1)
    ensures failures >= most
  {
    if failures < most {
      AtLeastOne(most - failures, m + 1);
      Distribute(most - failures, failures, m + 1);
    }
  }

  /** No observation of the run is taken for a restart, and whatever is written
      misses. */
  predicate AllMiss(opt: Options, s: State, run: seq<Cycle>)
    decreases |run|
  {
    run != [] ==>
      && !Restarted(opt, s, run[0].error)
      && (Chose(opt, s, run[0]) ==> !Landed(opt, run[0].error, run[0].after))
      && AllMiss(opt, AfterCycle(opt, s, run[0]), run[1..])
  }

  lemma CycleCounts(opt: Options, s: State, c: Cycle)
    requires opt.adaptBias && 0 <= s.adapts <= opt.maxAdapts && !Restarted(opt, s, c.error)
    requires Chose(opt, s, c) ==> !Landed(opt, c.error, c.after)
    ensures var t := AfterCycle(opt, s, c);
            && Misses(opt, t) == Misses(opt, s) + (if Chose(opt, s, c) then 1 else 0) && 0 <= t.adapts <= opt.maxAdapts
            && (Chose(opt, s, c) ==> s.failures < opt.maxFailures)
  {
    hide Judge, Observe, Misses, Landed;
    ObserveKeepsCounters(opt, s, c.error, c.now);
    var seen := Seen(opt, s, c);
    SameMisses(opt, s, seen);
    if Chose(opt, s, c) {
      SameMisses(opt, seen, Wrote(seen, c.sent));
      MissCounts(opt, Wrote(seen, c.sent), c.error, c.after, c.judged);
    }
  }

  lemma SameMisses(opt: Options, s: State, t: State)
    requires s.failures == t.failures && s.adapts == t.adapts
    ensures Misses(opt, s) == Misses(opt, t)
  {
  }

  /** Every write of such a run is counted. */
  lemma {:induction false} RunCounts(opt: Options, s: State, run: seq<Cycle>)
    requires opt.adaptBias && 0 <= s.adapts <= opt.maxAdapts && AllMiss(opt, s, run)
    ensures var t := AfterRun(opt, s, run);
            Misses(opt, t) == Misses(opt, s) + |Writes(opt, s, run)| && 0 <= t.adapts <= opt.maxAdapts
    decreases |run|
  {
    hide AfterCycle, Chose, Misses, Restarted, Landed;
    if run != [] {
      CycleCounts(opt, s, run[0]);
      RunCounts(opt, AfterCycle(opt, s, run[0]), run[1..]);
    }
  }

  /** From a clean slate, a run of cycles in which whatever is written misses
      holds at most (maxAdapts + 1) * maxFailures writes, however long it is; with
      that many made, no more is decided on, whatever the error. */
  lemma RunFallsSilent(opt: Options, s: State, run: seq<Cycle>, error: real, fps: int, cond: Conditions, now: real)
    requires opt.adaptBias && opt.maxAdapts >= 0 && opt.maxFailures >= 0 && s.failures == 0 && s.adapts == 0
    requires AllMiss(opt, s, run)
    ensures |Writes(opt, s, run)| <= opt.maxFailures * (opt.maxAdapts + 1)
    ensures |Writes(opt, s, run)| == opt.maxFailures * (opt.maxAdapts + 1) ==>
              Decide(opt, AfterRun(opt, s, run), error, fps, cond, now) != Write
  {
    RoomForMore(opt, s);
    RunIsBounded(opt, s, run);
    RunCounts(opt, s, run);
    var t := AfterRun(opt, s, run);
    if |Writes(opt, s, run)| == opt.maxFailures * (opt.maxAdapts + 1) {
      FailuresReached(t.adapts, t.failures, opt.maxAdapts, opt.maxFailures);
    }
  }

  lemma RoomForMore(opt: Options, s: State)
    requires opt.maxAdapts >= 0 && opt.maxFailures >= 0 && s.failures == 0 && s.adapts == 0
    ensures Misses(opt, s) == 0 <= opt.maxFailures * (opt.maxAdapts + 1)
  {
  }

  lemma {:induction false} RunIsBounded(opt: Options, s: State, run: seq<Cycle>)
    requires opt.adaptBias && opt.maxAdapts >= 0 && 0 <= s.adapts <= opt.maxAdapts && AllMiss(opt, s, run)
    requires Misses(opt, s) <= opt.maxFailures * (opt.maxAdapts + 1)
    ensures Misses(opt, s) + |Writes(opt, s, run)| <= opt.maxFailures * (opt.maxAdapts + 1)
    decreases |run|
  {
    hide AfterCycle, Chose, Misses, Restarted, Landed;
    if run != [] {
      CycleCounts(opt, s, run[0]);
      if Chose(opt, s, run[0]) {
        BelowTheLimit(opt, s);
      }
      RunIsBounded(opt, AfterCycle(opt, s, run[0]), run[1..]);
    }
  }

  lemma BelowTheLimit(opt: Options, s: State)
    requires 0 <= s.adapts <= opt.maxAdapts && s.failures < opt.maxFailures
    ensures Misses(opt, s) < opt.maxFailures * (opt.maxAdapts + 1)
  {
    AtLeastOne(opt.maxFailures - s.failures, opt.maxAdapts + 1);
    Distribute(opt.maxFailures - s.failures, s.failures, opt.maxAdapts + 1);
  }

  predicate NoRestart(opt: Options, s: State, run: seq<Cycle>)
    decreases |run|
  {
    run != [] ==> !Restarted(opt, s, run[0].error) && NoRestart(opt, AfterCycle(opt, s, run[0]), run[1..])
  }

  /** And it stays silent, over any run, until an observation is taken for a
      restart. */
  lemma {:induction false} SilenceLasts(opt: Options, s: State, run: seq<Cycle>)
    requires s.failures >= opt.maxFailures && NoRestart(opt, s, run)
    ensures Writes(opt, s, run) == [] && AfterRun(opt, s, run).failures >= opt.maxFailures
    decreases |run|
  {
    hide Observe;
    if run != [] {
      ObserveKeepsCounters(opt, s, run[0].error, run[0].now);
      SilenceLasts(opt, AfterCycle(opt, s, run[0]), run[1..]);
    }
  }

  /** A restart asks again. */
  lemma RestartAsksAgain(opt: Options, s: State, error: real, now: real)
    requires Restarted(opt, s, error)
    ensures Misses(opt, Observe(opt, s, error, now)) == 0
    ensures Observe(opt, s, error, now).rtcBias == s.rtcBias && Observe(opt, s, error, now).lead == s.lead
    ensures !Observe(opt, s, error, now).drift.has
  {
  }

  // ------------------------------------------------------- learning the bias

  /** A camera that lands a constant number of whole seconds from the value
      written, give or take less than half a second. */
  predicate Lands(s: State, shift: int, noise: real, after: real) {
    -0.5 < noise < 0.5 && after == (s.rtcBias + shift) as real + noise
  }

  /** The whole seconds it is still out. */
  function Miss(s: State, shift: int): int {
    s.rtcBias + shift
  }

  function AbsInt(x: int): nat {
    if x < 0 then -x else x
  }

  lemma RoundsToMiss(m: int, noise: real)
    requires -0.5 < noise < 0.5
    ensures Round(-(m as real + noise)) == -m
  {
    var x := -(m as real + noise);
    if x >= 0.0 {
      assert (-m) as real <= x + 0.5 < (-m) as real + 1.0;
    } else {
      assert m as real <= -x + 0.5 < m as real + 1.0;
    }
  }

  /** A write never leaves the camera further out, and one that is right stays
      right. */
  lemma MissNeverGrows(opt: Options, s: State, shift: int, noise: real, before: real, after: real, now: real)
    requires opt.maxBiasStep >= 0 && Lands(s, shift, noise, after)
    ensures var (t, verdict) := Judge(opt, s, before, after, now);
            && AbsInt(Miss(t, shift)) <= AbsInt(Miss(s, shift))
            && (Miss(s, shift) == 0 ==> Miss(t, shift) == 0)
            && (verdict == Ok && opt.adaptBias ==> Miss(t, shift) == 0)
            && (verdict == Adapting ==>
                  AbsInt(Miss(t, shift)) == (if AbsInt(Miss(s, shift)) > opt.maxBiasStep
                                             then AbsInt(Miss(s, shift)) - opt.maxBiasStep else 0))
  {
    RoundsToMiss(Miss(s, shift), noise);
  }

  /** One write of a camera that is being learned. */
  datatype Attempt = Attempt(before: real, noise: real, now: real)

  function Try(opt: Options, s: State, shift: int, a: Attempt): (State, Verdict) {
    Judge(opt, s, a.before, (s.rtcBias + shift) as real + a.noise, a.now)
  }

  /** The first write of several that is verified, and the state after it. */
  function FirstVerified(opt: Options, s: State, shift: int, attempts: seq<Attempt>): (r: (bool, State))
    decreases |attempts|
  {
    if attempts == [] then (false, s)
    else
      var (t, verdict) := Try(opt, s, shift, attempts[0]);
      if verdict == Ok then (true, t) else FirstVerified(opt, t, shift, attempts[1..])
  }

  /** The noise of a camera that lands within half a second, and within what is
      accepted as landing. */
  predicate Small(opt: Options, noise: real) {
    -0.5 < noise < 0.5 && Abs(noise) <= opt.writeTolerance
  }

  /** From a clean slate, a miss no greater than all the steps together is gone
      and verified within maxAdapts + 1 writes, and not one of them is counted as
      a failure. */
  lemma {:induction false} BiasConverges(opt: Options, s: State, shift: int, attempts: seq<Attempt>)
    requires opt.adaptBias && opt.maxBiasStep >= 0
    requires 0 <= s.adapts <= opt.maxAdapts && |attempts| >= opt.maxAdapts + 1 - s.adapts
    requires AbsInt(Miss(s, shift)) <= opt.maxBiasStep * (opt.maxAdapts - s.adapts)
    requires forall i :: 0 <= i < |attempts| ==> Small(opt, attempts[i].noise)
    ensures var (verified, t) := FirstVerified(opt, s, shift, attempts);
            verified && Miss(t, shift) == 0 && t.failures == 0 && t.adapts == 0
    decreases |attempts|
  {
    var (t, verdict) := Try(opt, s, shift, attempts[0]);
    OneTry(opt, s, shift, attempts[0]);
    if verdict != Ok {
      BiasConverges(opt, t, shift, attempts[1..]);
    }
  }

  /** One write either verifies, with the miss gone, or takes a step towards it. */
  lemma OneTry(opt: Options, s: State, shift: int, a: Attempt)
    requires opt.adaptBias && opt.maxBiasStep >= 0 && Small(opt, a.noise)
    requires 0 <= s.adapts <= opt.maxAdapts && AbsInt(Miss(s, shift)) <= opt.maxBiasStep * (opt.maxAdapts - s.adapts)
    ensures var (t, verdict) := Try(opt, s, shift, a);
            if verdict == Ok then Miss(t, shift) == 0 && t.failures == 0 && t.adapts == 0
            else t.adapts == s.adapts + 1 <= opt.maxAdapts
                 && AbsInt(Miss(t, shift)) <= opt.maxBiasStep * (opt.maxAdapts - t.adapts)
  {
    hide Try, AbsInt, Miss;
    RoomLeft(opt.maxBiasStep, opt.maxAdapts, s.adapts);
    OneTryWithin(opt, s, shift, a, opt.maxBiasStep * (opt.maxAdapts - s.adapts));
  }

  lemma OneTryWithin(opt: Options, s: State, shift: int, a: Attempt, room: int)
    requires opt.adaptBias && opt.maxBiasStep >= 0 && Small(opt, a.noise)
    requires 0 <= s.adapts <= opt.maxAdapts && AbsInt(Miss(s, shift)) <= room
             && (s.adapts == opt.maxAdapts ==> room == 0)
    ensures var (t, verdict) := Try(opt, s, shift, a);
            if verdict == Ok then Miss(t, shift) == 0 && t.failures == 0 && t.adapts == 0
            else t.adapts == s.adapts + 1 <= opt.maxAdapts
                 && (AbsInt(Miss(t, shift)) <= room - opt.maxBiasStep || AbsInt(Miss(t, shift)) == 0)
  {
    hide Round, Clamp;
    var after := (s.rtcBias + shift) as real + a.noise;
    MissNeverGrows(opt, s, shift, a.noise, a.before, after, a.now);
    if s.adapts == opt.maxAdapts {
      assert Miss(s, shift) == 0 && Abs(after) <= opt.writeTolerance;
    }
  }

  /** With no whole second missing, a write verifies whatever was read before it
      exactly when the noise is within the tolerance. */
  lemma ToleranceDecides(opt: Options, s: State, shift: int, noise: real)
    requires opt.adaptBias && Miss(s, shift) == 0
    ensures (forall before: real, now: real :: Try(opt, s, shift, Attempt(before, noise, now)).1 == Ok)
            <==> Abs(noise) <= opt.writeTolerance
  {
    assert (s.rtcBias + shift) as real + noise == noise;
    if Abs(noise) > opt.writeTolerance {
      assert Try(opt, s, shift, Attempt(noise, noise, 0.0)).1 != Ok;
    }
  }

  /** Beyond it, and with nothing better read before, no number of writes ever
      verifies, though no whole second is missing and none is put in. */
  lemma {:induction false} NeverVerified(opt: Options, s: State, shift: int, attempts: seq<Attempt>)
    requires opt.adaptBias && opt.maxBiasStep >= 0 && Miss(s, shift) == 0
    requires forall i :: 0 <= i < |attempts| ==>
               var a := attempts[i]; opt.writeTolerance < Abs(a.noise) < 0.5 && Abs(a.before) <= Abs(a.noise) + 0.25
    ensures var (verified, t) := FirstVerified(opt, s, shift, attempts); !verified && Miss(t, shift) == 0
    decreases |attempts|
  {
    if attempts != [] {
      var a := attempts[0];
      assert (s.rtcBias + shift) as real + a.noise == a.noise;
      MissNeverGrows(opt, s, shift, a.noise, a.before, a.noise, a.now);
      NeverVerified(opt, Try(opt, s, shift, a).0, shift, attempts[1..]);
    }
  }

  /** So a tolerance set to a tenth of a second is never met by a camera that
      always lands three tenths late. */
  lemma ToleranceTooTight(opt: Options, s: State, attempts: seq<Attempt>)
    requires opt.adaptBias && opt.maxBiasStep >= 0 && opt.writeTolerance == 0.1 && s.rtcBias == 0
    requires forall i :: 0 <= i < |attempts| ==> attempts[i].before == attempts[i].noise == 0.3
    ensures !FirstVerified(opt, s, 0, attempts).0
  {
    NeverVerified(opt, s, 0, attempts);
  }

  lemma RoomLeft(step: int, max: int, adapts: int)
    requires step >= 0 && adapts <= max
    ensures step * (max - (adapts + 1)) == step * (max - adapts) - step
    ensures adapts == max ==> step * (max - adapts) == 0
    ensures adapts < max ==> step * (max - (adapts + 1)) >= 0
  {
    Distribute(max - adapts - 1, 1, step);
  }

  // ------------------------------------------------------- landing on a second

  /** The wait before sending, so that the value sent takes effect `lead` later
      on a whole second. */
  method AlignedWait(now: real, offset: real, bias: real, lead: real) returns (wait: real)
    ensures wait == AlignedWaitFor(now + offset + bias, lead)
  {
    var target := now + offset + bias;
    var whole := target.Floor + 1;
    while whole as real - target < lead
      invariant target.Floor + 1 <= whole <= NextSecond(target, lead)
      decreases NextSecond(target, lead) - whole
    {
      StillShort(target, lead, whole);
      whole := whole + 1;
    }
    LongEnough(target, lead, whole);
    wait := (whole as real - target) - lead;
    if wait <= 0.0 {
      wait := 0.0;
    }
  }

  lemma LessAsReal(a: int, b: int)
    requires a as real < b as real
    ensures a < b
  {
  }

  lemma StillShort(target: real, lead: real, whole: int)
    requires whole as real - target < lead && whole >= target.Floor + 1
    ensures whole + 1 <= NextSecond(target, lead)
  {
    LessAsReal(whole, Ceiling(target + lead));
  }

  lemma LongEnough(target: real, lead: real, whole: int)
    requires whole as real - target >= lead && target.Floor + 1 <= whole <= NextSecond(target, lead)
    ensures whole == NextSecond(target, lead)
  {
    LessAsReal(Ceiling(target + lead) - 1, whole);
  }

  function Ceiling(x: real): (n: int)
    ensures n as real >= x > (n - 1) as real
  {
    -((-x).Floor)
  }

  /** The first whole second after an instant that is at least `lead` away. */
  function NextSecond(target: real, lead: real): int {
    var first := target.Floor + 1;
    if first as real - target >= lead then first else Ceiling(target + lead)
  }

  function AlignedWaitFor(target: real, lead: real): real {
    Max(NextSecond(target, lead) as real - target - lead, 0.0)
  }

  /** The value put in the packet: the nearest second at the instant it is sent. */
  function AlignedValue(send: real, offset: real, bias: real): int {
    (send + offset + bias + 0.5).Floor
  }

  /** A write lands on its second exactly when the lead is within half a second:
      the value sent is the whole second that falls `lead` after the send. */
  lemma LandsOnItsSecond(now: real, offset: real, bias: real, lead: real)
    ensures var target := now + offset + bias;
            var wait := AlignedWaitFor(target, lead);
            var second := NextSecond(target, lead);
            && now + wait + offset + bias == second as real - lead
            && (lead >= 0.0 ==> 0.0 <= wait <= 1.0)
            && (AlignedValue(now + wait, offset, bias) == second <==> -0.5 < lead <= 0.5)
  {
  }

  /** With the lead the controller uses, a learned one never leaves that range. */
  function EffectiveLead(opt: Options, s: State): real {
    if opt.adaptLead && s.lead.has then s.lead.lead else opt.lead
  }

  // ------------------------------------------------------- learning the lead

  /** A sorted copy: what the library sort leaves. */
  function Insert(x: real, xs: seq<real>): seq<real> {
    if xs == [] || x <= xs[0] then [x] + xs else [xs[0]] + Insert(x, xs[1..])
  }

  function Sorted(xs: seq<real>): seq<real> {
    if xs == [] then [] else Insert(xs[0], Sorted(xs[1..]))
  }

  predicate InOrder(xs: seq<real>) {
    forall i, j :: 0 <= i <= j < |xs| ==> xs[i] <= xs[j]
  }

  /** How many of a list lie in a range. */
  function Within(xs: seq<real>, a: real, b: real): nat {
    if xs == [] then 0 else (if a <= xs[0] <= b then 1 else 0) + Within(xs[1..], a, b)
  }

  lemma {:induction false} InsertCounts(x: real, xs: seq<real>, a: real, b: real)
    ensures var ys := Insert(x, xs);
            && |ys| == |xs| + 1 && multiset(ys) == multiset(xs) + multiset{x}
            && Within(ys, a, b) == Within(xs, a, b) + (if a <= x <= b then 1 else 0)
  {
    var ys := Insert(x, xs);
    if xs != [] && x > xs[0] {
      InsertCounts(x, xs[1..], a, b);
      assert ys[1..] == Insert(x, xs[1..]) && ys == [xs[0]] + ys[1..] && xs == [xs[0]] + xs[1..];
    } else {
      assert ys[1..] == xs;
    }
  }

  /** The least of the elements comes first. */
  lemma {:induction false} InsertOrdered(x: real, xs: seq<real>)
    requires InOrder(xs)
    ensures var ys := Insert(x, xs); InOrder(ys) && ys[0] == (if xs == [] || x <= xs[0] then x else xs[0])
  {
    var ys := Insert(x, xs);
    if xs != [] && x > xs[0] {
      InsertOrdered(x, xs[1..]);
      assert forall i :: 0 < i < |ys| ==> ys[i] == Insert(x, xs[1..])[i - 1];
    }
  }

  lemma {:induction false} SortedKeeps(xs: seq<real>, a: real, b: real)
    ensures var ys := Sorted(xs);
            InOrder(ys) && |ys| == |xs| && multiset(ys) == multiset(xs) && Within(ys, a, b) == Within(xs, a, b)
  {
    if xs != [] {
      SortedKeeps(xs[1..], a, b);
      InsertCounts(xs[0], Sorted(xs[1..]), a, b);
      InsertOrdered(xs[0], Sorted(xs[1..]));
      assert xs == [xs[0]] + xs[1..];
    }
  }

  function Median(xs: seq<real>): real
    requires xs != []
  {
    SortedKeeps(xs, 0.0, 0.0);
    var ys, n := Sorted(xs), |xs|;
    if n % 2 == 1 then ys[n / 2] else 0.5 * (ys[n / 2 - 1] + ys[n / 2])
  }

  /** In a sorted list, no more than the first k, or the last, can lie in a range
      that one of them is outside of. */
  lemma {:induction false} BelowRange(ys: seq<real>, k: nat, a: real, b: real)
    requires InOrder(ys) && k < |ys| && ys[k] < a
    ensures Within(ys, a, b) <= |ys| - k - 1
  {
    assert ys[0] <= ys[k];
    if k > 0 {
      BelowRange(ys[1..], k - 1, a, b);
    } else {
      WithinAtMost(ys[1..], a, b);
    }
  }

  lemma {:induction false} WithinAtMost(ys: seq<real>, a: real, b: real)
    ensures Within(ys, a, b) <= |ys|
  {
    if ys != [] {
      WithinAtMost(ys[1..], a, b);
    }
  }

  lemma {:induction false} AboveRange(ys: seq<real>, k: nat, a: real, b: real)
    requires InOrder(ys) && k < |ys| && ys[k] > b
    ensures Within(ys, a, b) <= k
  {
    if k > 0 {
      AboveRange(ys[1..], k - 1, a, b);
    } else {
      NoneAbove(ys, a, b);
    }
  }

  lemma {:induction false} NoneAbove(ys: seq<real>, a: real, b: real)
    requires forall i :: 0 <= i < |ys| ==> ys[i] > b
    ensures Within(ys, a, b) == 0
  {
    if ys != [] {
      NoneAbove(ys[1..], a, b);
    }
  }

  /** Where a strict majority lies, the median lies. */
  lemma MedianOfMajority(xs: seq<real>, a: real, b: real)
    requires xs != [] && 2 * Within(xs, a, b) > |xs|
    ensures a <= Median(xs) <= b
  {
    SortedKeeps(xs, a, b);
    SortedKeeps(xs, 0.0, 0.0);
    var ys, n := Sorted(xs), |xs|;
    var lo := if n % 2 == 1 then n / 2 else n / 2 - 1;
    if ys[lo] < a {
      BelowRange(ys, lo, a, b);
    }
    if ys[n / 2] > b {
      AboveRange(ys, n / 2, a, b);
    }
    assert ys[lo] <= ys[n / 2];
  }

  /** The most recent delays an estimate is taken over. */
  function Recent(opt: Options, delays: seq<real>): (r: seq<real>)
    ensures |r| <= |delays| && (delays != [] ==> r != [])
  {
    var want := if opt.leadWindow > 0 then opt.leadWindow else 1;
    if |delays| > want then delays[|delays| - want..] else delays
  }

  function EstimateLead(opt: Options, delays: seq<real>): LeadEstimate {
    var need := if opt.minLeadSamples > 0 then opt.minLeadSamples else 1;
    if !opt.adaptLead || |delays| < need then LeadEstimate(false, 0.0, 0)
    else
      var median := Median(Recent(opt, delays));
      LeadEstimate(true, Min(Max(median, 0.0), opt.maxLead), |Recent(opt, delays)|)
  }

  /** What one write says of the apply delay. */
  function ObservedDelay(leadUsed: real, errorAfter: real): real {
    leadUsed - errorAfter
  }

  /** What a camera with some apply delay reads after a write sent early by
      `lead`. */
  function ErrorAfter(leadUsed: real, delay: real): real {
    leadUsed - delay
  }

  /** Whatever leads were used, if most recent writes show a delay within some
      distance of a figure within the clamp, the lead learned leaves an error no
      greater than that distance; so a constant delay is learned exactly. */
  lemma LeadIsLearned(opt: Options, s: State, delays: seq<real>, delay: real, near: real)
    requires opt.adaptLead && |delays| >= opt.minLeadSamples && delays != []
    requires near >= 0.0 && 0.0 <= delay <= opt.maxLead
    requires 2 * Within(Recent(opt, delays), delay - near, delay + near) > |Recent(opt, delays)|
    ensures var learned := s.(lead := EstimateLead(opt, delays));
            && learned.lead.has && 0.0 <= EffectiveLead(opt, learned) <= opt.maxLead
            && Abs(ErrorAfter(EffectiveLead(opt, learned), delay)) <= near
  {
    MedianOfMajority(Recent(opt, delays), delay - near, delay + near);
  }

  lemma {:induction false} AllWithin(xs: seq<real>, a: real)
    requires forall i :: 0 <= i < |xs| ==> xs[i] == a
    ensures Within(xs, a, a) == |xs|
  {
    if xs != [] {
      AllWithin(xs[1..], a);
    }
  }

  /** A camera whose delay is constant and within the clamp, written often enough
      to tell: whatever leads were used, the lead learned is its delay, and the
      next write leaves no error. */
  lemma ConstantDelayIsLearned(opt: Options, s: State, leads: seq<real>, delays: seq<real>, delay: real)
    requires opt.adaptLead && 0.0 <= delay <= opt.maxLead && |leads| == |delays| > 0
    requires forall i :: 0 <= i < |leads| ==> delays[i] == ObservedDelay(leads[i], ErrorAfter(leads[i], delay))
    requires |leads| >= opt.minLeadSamples
    ensures var learned := s.(lead := EstimateLead(opt, delays));
            && learned.lead.has && EffectiveLead(opt, learned) == delay
            && ErrorAfter(EffectiveLead(opt, learned), delay) == 0.0
  {
    AllWithin(Recent(opt, delays), delay);
    LeadIsLearned(opt, s, delays, delay, 0.0);
  }

  // ---------------------------------------------------------- the state itself

  /** The controller's memory, changed in place as the daemon changes it. */
  class Memory {
    var s: State

    constructor (bias: int)
      ensures s == State(0, 0, bias, false, 0.0, false, 0.0, 0.0, false, false, 0.0, 0.0, NO_DRIFT,
                         LeadEstimate(false, 0.0, 0))
    {
      s := State(0, 0, bias, false, 0.0, false, 0.0, 0.0, false, false, 0.0, 0.0, NO_DRIFT,
                 LeadEstimate(false, 0.0, 0));
    }

    method Forget()
      modifies this
      ensures s == ForgetDrift(old(s))
    {
      s := s.(drift := NO_DRIFT);
      s := s.(hasLastObs := false, hasAnchor := false, wroteSinceObs := false);
      s := s.(failures := 0, adapts := 0);
    }

    method Take(opt: Options, error: real, now: real) returns (restarted: bool)
      modifies this
      ensures s == Observe(opt, old(s), error, now) && restarted == Restarted(opt, old(s), error)
    {
      restarted := s.hasLastObs && !s.wroteSinceObs && Abs(error - s.lastObsError) > opt.restartStep;
      if restarted {
        Forget();
      }
      s := s.(hasLastObs := true, lastObsMono := now, lastObsError := error, wroteSinceObs := false);
      if !s.hasAnchor {
        s := s.(hasAnchor := true, anchorMono := now, anchorError := error);
      }
      var span := now - s.anchorMono;
      if span > 5.0 {
        var ppm := (error - s.anchorError) / span * 1000000.0;
        if span >= opt.minDriftInterval {
          s := s.(drift := DriftEstimate(true, ppm, span, s.drift.samples + 1));
        }
      }
    }

    method JudgeWrite(opt: Options, before: real, after: real, now: real) returns (verdict: Verdict)
      modifies this
      ensures (s, verdict) == Judge(opt, old(s), before, after, now)
    {
      var ok := Abs(after) <= opt.writeTolerance;
      var improved := Abs(after) < Abs(before) - 0.25;
      var bias, adapts := s.rtcBias, s.adapts;
      s := s.(wroteSinceObs := true, hasLastObs := true, lastObsMono := now, lastObsError := after);
      s := s.(hasAnchor := true, anchorMono := now, anchorError := after);
      if ok || improved {
        s := s.(failures := 0, adapts := 0);
        var residual := Round(-after);
        if residual != 0 && opt.adaptBias {
          s := s.(rtcBias := bias + residual);
        }
        return Ok;
      }
      if opt.adaptBias && adapts < opt.maxAdapts {
        var step := Round(-after);
        if AbsInt(step) > opt.maxBiasStep {
          step := if step > 0 then opt.maxBiasStep else -opt.maxBiasStep;
        }
        s := s.(rtcBias := bias + step, adapts := adapts + 1);
        return Adapting;
      }
      s := s.(failures := s.failures + 1, adapts := 0);
      return NoEffect;
    }

    /** One cycle of the daemon, with what the camera reads back if it is written. */
    method RunCycle(opt: Options, c: Cycle) returns (wrote: bool)
      modifies this
      ensures s == AfterCycle(opt, old(s), c) && wrote == Chose(opt, old(s), c)
    {
      var _ := Take(opt, c.error, c.now);
      wrote := Decide(opt, s, c.error, c.fps, c.cond, c.now) == Write;
      if wrote {
        s := s.(hasLastWrite := true, lastWriteMono := c.sent);
        var _ := JudgeWrite(opt, c.error, c.after, c.judged);
      }
    }
  }
}
