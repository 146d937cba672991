/** The timers of the event loop (src/loop.cc). A handler is what it does while it
    runs: arm, cancel, and let time pass. A tick runs the handlers of the ready
    sources first and then every timer that is due. */
module Loop {
  datatype Timer = Timer(id: nat, deadline: real, period: real, order: nat, dead: bool)

  /** What a handler does. */
  datatype Act =
    | At(deadline: real)
    | After(seconds: real)
    | Every(period: real)
    | Cancel(id: nat)
    | Pass(seconds: real)

  /** What has happened, in order. Cancelling an id never handed out is nothing. */
  datatype Event =
    | Armed(id: nat)
    | Cancelled(id: nat)
    | Fired(id: nat, due: real, period: real, at: real)

  /** The handler of timer `id` when it fires with `n` events behind it. */
  type Handlers = (nat, nat) -> seq<Act>

  datatype State = State(
    timers: seq<Timer>, nextTimer: nat, nextOrder: nat, now: real, depth: nat, needSweep: bool, log: seq<Event>)

  // -------------------------------------------------------------- arm, cancel

  function Arm(s: State, deadline: real, period: real): State {
    s.(timers := s.timers + [Timer(s.nextTimer, deadline, period, s.nextOrder, false)],
       nextTimer := s.nextTimer + 1, nextOrder := s.nextOrder + 1,
       log := s.log + [Armed(s.nextTimer)])
  }

  function Kill(ts: seq<Timer>, id: nat): (r: seq<Timer>)
    ensures |r| == |ts|
    ensures forall i :: 0 <= i < |ts| ==> r[i] == if ts[i].id == id then ts[i].(dead := true) else ts[i]
  {
    if ts == [] then []
    else [if ts[0].id == id then ts[0].(dead := true) else ts[0]] + Kill(ts[1..], id)
  }

  function Alive(ts: seq<Timer>): (r: seq<Timer>)
    ensures forall i :: 0 <= i < |r| ==> !r[i].dead && r[i] in ts
  {
    if ts == [] then [] else (if ts[0].dead then [] else [ts[0]]) + Alive(ts[1..])
  }

  function Sweep(s: State): State {
    if s.needSweep then s.(timers := Alive(s.timers), needSweep := false) else s
  }

  function CancelTimer(s: State, id: nat): State {
    var hit := exists i :: 0 <= i < |s.timers| && s.timers[i].id == id;
    var s' := s.(timers := Kill(s.timers, id), needSweep := s.needSweep || hit,
                log := if id < s.nextTimer then s.log + [Cancelled(id)] else s.log);
    if s.depth == 0 then Sweep(s') else s'
  }

  function Do(s: State, a: Act): State {
    match a
    case At(deadline) => Arm(s, deadline, 0.0)
    case After(seconds) => Arm(s, s.now + seconds, 0.0)
    case Every(period) => Arm(s, s.now + period, period)
    case Cancel(id) => CancelTimer(s, id)
    case Pass(seconds) => if seconds > 0.0 then s.(now := s.now + seconds) else s
  }

  function DoAll(s: State, acts: seq<Act>): State
    decreases |acts|
  {
    if acts == [] then s else DoAll(Do(s, acts[0]), acts[1..])
  }

  // --------------------------------------------------------------------- tick

  /** Where the live timer is, or nowhere. */
  function Find(ts: seq<Timer>, id: nat): (i: int)
    ensures -1 <= i < |ts|
    ensures i >= 0 ==> ts[i].id == id && !ts[i].dead
    ensures i < 0 ==> forall j :: 0 <= j < |ts| ==> ts[j].id != id || ts[j].dead
  {
    if ts == [] then -1
    else if ts[0].id == id && !ts[0].dead then 0
    else
      var i := Find(ts[1..], id);
      if i < 0 then -1 else i + 1
  }

  datatype Key = Key(deadline: real, order: nat, id: nat)

  predicate Earlier(a: Key, b: Key) {
    if a.deadline != b.deadline then a.deadline < b.deadline else a.order < b.order
  }

  function KeyOf(t: Timer): Key {
    Key(t.deadline, t.order, t.id)
  }

  /** Puts a key behind every earlier one. */
  function Insert(k: Key, ks: seq<Key>): (r: seq<Key>)
    ensures multiset(r) == multiset(ks) + multiset{k}
  {
    if ks == [] then [k]
    else if Earlier(k, ks[0]) then [k] + ks
    else
      assert ks == [ks[0]] + ks[1..];
      [ks[0]] + Insert(k, ks[1..])
  }

  /** The timers due by `now`, earliest first, ties in order of creation. */
  function Due(ts: seq<Timer>, now: real): seq<Key> {
    if ts == [] then []
    else if ts[|ts| - 1].dead || ts[|ts| - 1].deadline > now then Due(ts[..|ts| - 1], now)
    else Insert(KeyOf(ts[|ts| - 1]), Due(ts[..|ts| - 1], now))
  }

  /** The first point of the grid behind `after`. */
  function Next(firedFor: real, period: real, after: real): real
    requires period > 0.0
  {
    var next := firedFor + period;
    if next <= after then firedFor + (((after - firedFor) / period).Floor + 1) as real * period else next
  }

  function Rearm(s: State, id: nat, firedFor: real, period: real): State
    requires period > 0.0
  {
    var i := Find(s.timers, id);
    if i < 0 then s
    else s.(timers := s.timers[i := s.timers[i].(deadline := Next(firedFor, period, s.now))])
  }

  /** A one-shot is dead before its handler runs. */
  function Began(s: State, t: Timer): State {
    var s' := s.(log := s.log + [Fired(t.id, t.deadline, t.period, s.now)]);
    if t.period <= 0.0 then s'.(timers := Kill(s.timers, t.id), needSweep := true) else s'
  }

  function Fire(s: State, id: nat, h: Handlers): State {
    var i := Find(s.timers, id);
    if i < 0 then s
    else
      var t := s.timers[i];
      var s' := DoAll(Began(s, t), h(id, |s.log|));
      if t.period <= 0.0 then s' else Rearm(s', id, t.deadline, t.period)
  }

  function FireAll(s: State, keys: seq<Key>, h: Handlers): State
    decreases |keys|
  {
    if keys == [] then s else FireAll(Fire(s, keys[0].id, h), keys[1..], h)
  }

  function TickTimers(s: State, h: Handlers): State {
    FireAll(s, Due(s.timers, s.now), h)
  }

  /** What the sources' handlers do, then the timers, then the sweep. */
  function Tick(s: State, io: seq<Act>, h: Handlers): State {
    var inside := TickTimers(DoAll(s.(depth := s.depth + 1), io), h);
    Sweep(inside.(depth := s.depth))
  }

  // ---------------------------------------------------------------- invariant

  /** Timers stand in the order they were armed, with numbers not given again. */
  predicate InOrder(ts: seq<Timer>, next: nat) {
    && (forall i, j :: 0 <= i < j < |ts| ==> ts[i].id < ts[j].id)
    && (forall i :: 0 <= i < |ts| ==> ts[i].id < next && ts[i].order == ts[i].id)
  }

  /** A live timer was not cancelled, and fired before only if it repeats. */
  predicate Fresh(t: Timer, log: seq<Event>) {
    t.dead || forall i :: 0 <= i < |log| ==>
      log[i] != Cancelled(t.id) && (log[i].Fired? && log[i].id == t.id ==> log[i].period > 0.0)
  }

  predicate Numbered(e: Event, next: nat) {
    e.id < next
  }

  /** Never after being cancelled, and a one-shot never twice. */
  predicate CleanAt(log: seq<Event>, i: nat, j: nat)
    requires i < j < |log|
  {
    log[j].Fired? ==>
      && log[i] != Cancelled(log[j].id)
      && (log[i].Fired? && log[i].id == log[j].id ==> log[i].period > 0.0)
  }

  ghost predicate Clean(log: seq<Event>) {
    forall i: nat, j: nat {:trigger CleanAt(log, i, j)} :: i < j < |log| ==> CleanAt(log, i, j)
  }

  ghost predicate Inv(s: State) {
    && InOrder(s.timers, s.nextTimer) && s.nextOrder == s.nextTimer
    && (forall i :: 0 <= i < |s.timers| ==> Fresh(s.timers[i], s.log))
    && (forall i :: 0 <= i < |s.log| ==> Numbered(s.log[i], s.nextTimer))
    && Clean(s.log)
  }

  lemma CleanPush(log: seq<Event>, e: Event)
    requires Clean(log)
    requires e.Fired? ==> forall i :: 0 <= i < |log| ==>
               log[i] != Cancelled(e.id) && (log[i].Fired? && log[i].id == e.id ==> log[i].period > 0.0)
    ensures Clean(log + [e])
  {
    forall i: nat, j: nat | i < j < |log + [e]|
      ensures CleanAt(log + [e], i, j)
    {
      if j < |log| {
        assert CleanAt(log, i, j);
      }
    }
  }

  lemma ArmKeeps(s: State, deadline: real, period: real)
    requires Inv(s)
    ensures Inv(Arm(s, deadline, period))
  {
    CleanPush(s.log, Armed(s.nextTimer));
    var s' := Arm(s, deadline, period);
    forall i | 0 <= i < |s'.timers|
      ensures Fresh(s'.timers[i], s'.log)
    {
      if i < |s.timers| {
        assert Fresh(s.timers[i], s.log);
      } else {
        forall j | 0 <= j < |s.log|
          ensures s.log[j].id != s.nextTimer
        {
          assert Numbered(s.log[j], s.nextTimer);
        }
      }
    }
  }

  lemma {:induction false} AliveInOrder(ts: seq<Timer>, next: nat)
    requires InOrder(ts, next)
    ensures InOrder(Alive(ts), next)
  {
    if ts != [] {
      assert InOrder(ts[1..], next);
      AliveInOrder(ts[1..], next);
    }
  }

  lemma SweepKeeps(s: State)
    requires Inv(s)
    ensures Inv(Sweep(s))
  {
    if s.needSweep {
      AliveInOrder(s.timers, s.nextTimer);
    }
  }

  lemma KillKeeps(s: State, id: nat, log: seq<Event>, sweep: bool)
    requires Inv(s) && log == if id < s.nextTimer then s.log + [Cancelled(id)] else s.log
    ensures Inv(s.(timers := Kill(s.timers, id), needSweep := sweep, log := log))
  {
    CleanPush(s.log, Cancelled(id));
    var s' := s.(timers := Kill(s.timers, id), needSweep := sweep, log := log);
    KillInOrder(s.timers, id, s.nextTimer);
    forall i | 0 <= i < |s'.timers|
      ensures Fresh(s'.timers[i], s'.log)
    {
      assert Fresh(s.timers[i], s.log);
    }
  }

  lemma KillInOrder(ts: seq<Timer>, id: nat, next: nat)
    requires InOrder(ts, next)
    ensures InOrder(Kill(ts, id), next)
  {
  }

  lemma CancelKeeps(s: State, id: nat)
    requires Inv(s)
    ensures Inv(CancelTimer(s, id))
  {
    hide Inv, Kill, Sweep;
    var log := if id < s.nextTimer then s.log + [Cancelled(id)] else s.log;
    var hit := exists i :: 0 <= i < |s.timers| && s.timers[i].id == id;
    KillKeeps(s, id, log, s.needSweep || hit);
    SweepKeeps(s.(timers := Kill(s.timers, id), needSweep := s.needSweep || hit, log := log));
  }

  lemma DoKeeps(s: State, a: Act)
    requires Inv(s)
    ensures Inv(Do(s, a))
  {
    hide InOrder;
    match a
    case At(deadline) => ArmKeeps(s, deadline, 0.0);
    case After(seconds) => ArmKeeps(s, s.now + seconds, 0.0);
    case Every(period) => ArmKeeps(s, s.now + period, period);
    case Cancel(id) => CancelKeeps(s, id);
    case Pass(seconds) =>
  }

  lemma {:induction false} DoAllKeeps(s: State, acts: seq<Act>)
    requires Inv(s)
    ensures Inv(DoAll(s, acts))
    decreases |acts|
  {
    if acts != [] {
      DoKeeps(s, acts[0]);
      DoAllKeeps(Do(s, acts[0]), acts[1..]);
    }
  }

  lemma BeganKeeps(s: State, i: nat)
    requires Inv(s) && i < |s.timers| && !s.timers[i].dead
    ensures Inv(Began(s, s.timers[i]))
  {
    hide Clean;
    var t := s.timers[i];
    var s' := Began(s, t);
    assert Fresh(t, s.log);
    CleanPush(s.log, Fired(t.id, t.deadline, t.period, s.now));
    forall j | 0 <= j < |s'.timers|
      ensures Fresh(s'.timers[j], s'.log)
    {
      assert Fresh(s.timers[j], s.log);
    }
  }

  lemma RearmKeeps(s: State, id: nat, firedFor: real, period: real)
    requires Inv(s) && period > 0.0
    ensures Inv(Rearm(s, id, firedFor, period))
  {
    var i := Find(s.timers, id);
    if i >= 0 {
      var s' := Rearm(s, id, firedFor, period);
      forall j | 0 <= j < |s'.timers|
        ensures Fresh(s'.timers[j], s'.log)
      {
        assert Fresh(s.timers[j], s.log);
      }
    }
  }

  lemma FireKeeps(s: State, id: nat, h: Handlers)
    requires Inv(s)
    ensures Inv(Fire(s, id, h))
  {
    var i := Find(s.timers, id);
    if i >= 0 {
      var t := s.timers[i];
      BeganKeeps(s, i);
      DoAllKeeps(Began(s, t), h(id, |s.log|));
      if t.period > 0.0 {
        RearmKeeps(DoAll(Began(s, t), h(id, |s.log|)), id, t.deadline, t.period);
      }
    }
  }

  lemma {:induction false} FireAllKeeps(s: State, keys: seq<Key>, h: Handlers)
    requires Inv(s)
    ensures Inv(FireAll(s, keys, h))
    decreases |keys|
  {
    if keys != [] {
      FireKeeps(s, keys[0].id, h);
      FireAllKeeps(Fire(s, keys[0].id, h), keys[1..], h);
    }
  }

  lemma TickKeeps(s: State, io: seq<Act>, h: Handlers)
    requires Inv(s)
    ensures Inv(Tick(s, io, h))
  {
    var at := s.(depth := s.depth + 1);
    DoAllKeeps(at, io);
    var ready := DoAll(at, io);
    FireAllKeeps(ready, Due(ready.timers, ready.now), h);
    SweepKeeps(TickTimers(ready, h).(depth := s.depth));
  }

  /** What the program does with its loop: act on it between ticks, or tick. */
  datatype Move = Outside(acts: seq<Act>) | Turn(io: seq<Act>, h: Handlers)

  function Run(s: State, moves: seq<Move>): State
    decreases |moves|
  {
    if moves == [] then s
    else
      Run(match moves[0] case Outside(acts) => DoAll(s, acts) case Turn(io, h) => Tick(s, io, h), moves[1..])
  }

  const START := State([], 1, 1, 0.0, 0, false, [])

  lemma {:induction false} RunKeeps(s: State, moves: seq<Move>)
    requires Inv(s)
    ensures Inv(Run(s, moves))
    decreases |moves|
  {
    if moves != [] {
      match moves[0]
      case Outside(acts) =>
        DoAllKeeps(s, acts);
        RunKeeps(DoAll(s, acts), moves[1..]);
      case Turn(io, h) =>
        TickKeeps(s, io, h);
        RunKeeps(Tick(s, io, h), moves[1..]);
    }
  }

  /** Over every run, whatever the handlers do: a cancelled timer never fires, and
      a one-shot fires once at most. */
  lemma NeverAfterCancel(moves: seq<Move>, i: nat, j: nat)
    requires i < j < |Run(START, moves).log| && Run(START, moves).log[j].Fired?
    ensures var log := Run(START, moves).log;
            && log[i] != Cancelled(log[j].id)
            && (log[i].Fired? && log[i].id == log[j].id ==> log[i].period > 0.0)
  {
    RunKeeps(START, moves);
    assert CleanAt(Run(START, moves).log, i, j);
  }

  // ------------------------------------------------------------ what moves on

  predicate NewArm(e: Event, from: nat) {
    e.Armed? ==> e.id >= from
  }

  /** The log only grows, and numbers and time only go up. */
  predicate Onward(s: State, s': State) {
    && s.log <= s'.log && s.nextTimer <= s'.nextTimer && s.now <= s'.now && s.depth == s'.depth
    && forall i :: |s.log| <= i < |s'.log| ==> NewArm(s'.log[i], s.nextTimer)
  }

  lemma OnwardOn(a: State, b: State, c: State)
    requires Onward(a, b) && Onward(b, c)
    ensures Onward(a, c)
  {
    forall i | |a.log| <= i < |c.log|
      ensures NewArm(c.log[i], a.nextTimer)
    {
      if i < |b.log| {
        assert c.log[i] == b.log[i] && NewArm(b.log[i], a.nextTimer);
      } else {
        assert NewArm(c.log[i], b.nextTimer);
      }
    }
  }

  lemma {:induction false} DoAllOnward(s: State, acts: seq<Act>)
    ensures Onward(s, DoAll(s, acts))
    decreases |acts|
  {
    if acts != [] {
      DoAllOnward(Do(s, acts[0]), acts[1..]);
      OnwardOn(s, Do(s, acts[0]), DoAll(s, acts));
    }
  }

  lemma FireOnward(s: State, id: nat, h: Handlers)
    ensures Onward(s, Fire(s, id, h))
  {
    var i := Find(s.timers, id);
    if i >= 0 {
      var t := s.timers[i];
      DoAllOnward(Began(s, t), h(id, |s.log|));
      OnwardOn(s, Began(s, t), DoAll(Began(s, t), h(id, |s.log|)));
    }
  }

  lemma {:induction false} FireAllOnward(s: State, keys: seq<Key>, h: Handlers)
    ensures Onward(s, FireAll(s, keys, h))
    decreases |keys|
  {
    if keys != [] {
      FireOnward(s, keys[0].id, h);
      FireAllOnward(Fire(s, keys[0].id, h), keys[1..], h);
      OnwardOn(s, Fire(s, keys[0].id, h), FireAll(s, keys, h));
    }
  }

  // ------------------------------------------------------- the order of a tick

  /** The firings in a log. */
  function FiredKeys(log: seq<Event>): seq<Key> {
    if log == [] then []
    else
      var last := log[|log| - 1];
      FiredKeys(log[..|log| - 1]) + (if last.Fired? then [Key(last.due, last.id, last.id)] else [])
  }

  lemma FiredPush(log: seq<Event>, e: Event)
    ensures FiredKeys(log + [e]) == FiredKeys(log) + if e.Fired? then [Key(e.due, e.id, e.id)] else []
  {
    assert (log + [e])[..|log|] == log;
  }

  lemma {:induction false} DoAllFiresNothing(s: State, acts: seq<Act>)
    ensures FiredKeys(DoAll(s, acts).log) == FiredKeys(s.log)
    decreases |acts|
  {
    hide FiredKeys;
    if acts != [] {
      FiredPush(s.log, Armed(s.nextTimer));
      match acts[0] {
        case Cancel(id) => FiredPush(s.log, Cancelled(id));
        case _ =>
      }
      DoAllFiresNothing(Do(s, acts[0]), acts[1..]);
    }
  }

  predicate WasCancelled(log: seq<Event>, id: nat) {
    exists i :: 0 <= i < |log| && log[i] == Cancelled(id)
  }

  /** A key of the snapshot that has not had its turn: its timer is as it was, or
      was cancelled. */
  predicate Waiting(s: State, k: Key) {
    var i := Find(s.timers, k.id);
    && k.id < s.nextTimer && k.order == k.id
    && if i >= 0 then s.timers[i].deadline == k.deadline else WasCancelled(s.log, k.id)
  }

  lemma {:induction false} FindAt(ts: seq<Timer>, i: nat, next: nat)
    requires InOrder(ts, next) && i < |ts| && !ts[i].dead
    ensures Find(ts, ts[i].id) == i
  {
    var j := Find(ts, ts[i].id);
    assert j >= 0 && ts[j].id == ts[i].id;
  }

  lemma CancelledOn(s: State, s': State, id: nat)
    requires Onward(s, s') && WasCancelled(s.log, id)
    ensures WasCancelled(s'.log, id)
  {
    var i :| 0 <= i < |s.log| && s.log[i] == Cancelled(id);
    assert s'.log[i] == s.log[i];
  }

  /** A live timer that is found elsewhere with the same deadline is still waiting. */
  lemma StillThere(s: State, s': State, k: Key, i: nat, j: nat)
    requires InOrder(s.timers, s.nextTimer) && InOrder(s'.timers, s'.nextTimer)
    requires Waiting(s, k) && Find(s.timers, k.id) == i && s.nextTimer <= s'.nextTimer
    requires j < |s'.timers| && s'.timers[j].id == k.id && !s'.timers[j].dead
             && s'.timers[j].deadline == s.timers[i].deadline
    ensures Waiting(s', k)
  {
    FindAt(s'.timers, j, s'.nextTimer);
  }

  lemma GoneStays(s: State, s': State, k: Key)
    requires Waiting(s, k) && Find(s.timers, k.id) < 0 && Onward(s, s')
    requires forall j :: 0 <= j < |s'.timers| ==> s'.timers[j].id != k.id || s'.timers[j].dead
    ensures Waiting(s', k)
  {
    CancelledOn(s, s', k.id);
  }

  lemma DoLeaves(s: State, a: Act, k: Key)
    requires Inv(s) && s.depth > 0 && Waiting(s, k)
    ensures Waiting(Do(s, a), k)
  {
    var s' := Do(s, a);
    var i := Find(s.timers, k.id);
    DoKeeps(s, a);
    assert Onward(s, s');
    if a == Cancel(k.id) {
      assert s'.log[|s.log|] == Cancelled(k.id);
    } else if i >= 0 {
      assert s'.timers[i] == s.timers[i];
      StillThere(s, s', k, i, i);
    } else {
      GoneStays(s, s', k);
    }
  }

  lemma {:induction false} DoAllLeaves(s: State, acts: seq<Act>, k: Key)
    requires Inv(s) && s.depth > 0 && Waiting(s, k)
    ensures Waiting(DoAll(s, acts), k)
    decreases |acts|
  {
    hide InOrder;
    if acts != [] {
      DoLeaves(s, acts[0], k);
      DoKeeps(s, acts[0]);
      assert Onward(s, Do(s, acts[0]));
      DoAllLeaves(Do(s, acts[0]), acts[1..], k);
    }
  }

  lemma BeganLeaves(s: State, at: nat, k: Key)
    requires Inv(s) && Waiting(s, k) && at < |s.timers| && !s.timers[at].dead && s.timers[at].id != k.id
    ensures Waiting(Began(s, s.timers[at]), k)
  {
    var s' := Began(s, s.timers[at]);
    var i := Find(s.timers, k.id);
    BeganKeeps(s, at);
    if i >= 0 {
      assert s'.timers[i] == s.timers[i];
      StillThere(s, s', k, i, i);
    } else {
      GoneStays(s, s', k);
    }
  }

  lemma RearmLeaves(s: State, id: nat, firedFor: real, period: real, k: Key)
    requires Inv(s) && Waiting(s, k) && id != k.id && period > 0.0
    ensures Waiting(Rearm(s, id, firedFor, period), k)
  {
    var s' := Rearm(s, id, firedFor, period);
    var i := Find(s.timers, k.id);
    RearmKeeps(s, id, firedFor, period);
    if i >= 0 {
      StillThere(s, s', k, i, i);
    } else {
      GoneStays(s, s', k);
    }
  }

  /** Another timer's turn leaves a key waiting. */
  lemma FireLeaves(s: State, id: nat, h: Handlers, k: Key)
    requires Inv(s) && s.depth > 0 && Waiting(s, k) && id != k.id
    ensures Waiting(Fire(s, id, h), k)
  {
    var i := Find(s.timers, id);
    if i >= 0 {
      var t := s.timers[i];
      var acts := h(id, |s.log|);
      BeganKeeps(s, i);
      BeganLeaves(s, i, k);
      DoAllLeaves(Began(s, t), acts, k);
      DoAllKeeps(Began(s, t), acts);
      if t.period > 0.0 {
        RearmLeaves(DoAll(Began(s, t), acts), id, t.deadline, t.period, k);
      }
    }
  }

  lemma FireFires(s: State, k: Key, h: Handlers)
    requires Waiting(s, k)
    ensures FiredKeys(Fire(s, k.id, h).log) == FiredKeys(s.log) + if Find(s.timers, k.id) >= 0 then [k] else []
  {
    var i := Find(s.timers, k.id);
    if i >= 0 {
      var t := s.timers[i];
      FiredPush(s.log, Fired(t.id, t.deadline, t.period, s.now));
      DoAllFiresNothing(Began(s, t), h(k.id, |s.log|));
    }
  }

  /** The keys that get to fire. */
  function Picks(s: State, keys: seq<Key>, h: Handlers): seq<Key>
    decreases |keys|
  {
    if keys == [] then []
    else (if Find(s.timers, keys[0].id) >= 0 then [keys[0]] else []) + Picks(Fire(s, keys[0].id, h), keys[1..], h)
  }

  predicate Sorted(ks: seq<Key>) {
    forall i, j :: 0 <= i < j < |ks| ==> Earlier(ks[i], ks[j])
  }

  predicate Distinct(ks: seq<Key>) {
    forall i, j :: 0 <= i < j < |ks| ==> ks[i].id != ks[j].id
  }

  predicate AllWaiting(s: State, ks: seq<Key>) {
    forall i :: 0 <= i < |ks| ==> Waiting(s, ks[i])
  }

  lemma RestWaits(s: State, keys: seq<Key>, h: Handlers)
    requires Inv(s) && s.depth > 0 && keys != [] && Distinct(keys) && AllWaiting(s, keys)
    ensures AllWaiting(Fire(s, keys[0].id, h), keys[1..]) && Distinct(keys[1..])
  {
    forall i | 0 <= i < |keys[1..]|
      ensures Waiting(Fire(s, keys[0].id, h), keys[1..][i])
    {
      assert Waiting(s, keys[i + 1]) && keys[0].id != keys[i + 1].id;
      FireLeaves(s, keys[0].id, h, keys[i + 1]);
    }
  }

  lemma {:induction false} FireAllFires(s: State, keys: seq<Key>, h: Handlers)
    requires Inv(s) && s.depth > 0 && Distinct(keys) && AllWaiting(s, keys)
    ensures FiredKeys(FireAll(s, keys, h).log) == FiredKeys(s.log) + Picks(s, keys, h)
    decreases |keys|
  {
    hide Inv, Waiting, FiredKeys, Fire, WasCancelled, Find;
    if keys != [] {
      var s' := Fire(s, keys[0].id, h);
      FireKeeps(s, keys[0].id, h);
      FireOnward(s, keys[0].id, h);
      FireFires(s, keys[0], h);
      RestWaits(s, keys, h);
      FireAllFires(s', keys[1..], h);
    }
  }

  lemma {:induction false} PicksSorted(s: State, keys: seq<Key>, h: Handlers)
    requires Sorted(keys)
    ensures Sorted(Picks(s, keys, h))
    ensures forall i :: 0 <= i < |Picks(s, keys, h)| ==> Picks(s, keys, h)[i] in keys
    decreases |keys|
  {
    if keys != [] {
      PicksSorted(Fire(s, keys[0].id, h), keys[1..], h);
    }
  }

  lemma {:induction false} PicksAll(s: State, keys: seq<Key>, h: Handlers, k: Key)
    requires Inv(s) && s.depth > 0 && Distinct(keys) && AllWaiting(s, keys) && k in keys
    ensures k in Picks(s, keys, h) || WasCancelled(FireAll(s, keys, h).log, k.id)
    decreases |keys|
  {
    var s' := Fire(s, keys[0].id, h);
    FireKeeps(s, keys[0].id, h);
    FireOnward(s, keys[0].id, h);
    if k == keys[0] {
      if Find(s.timers, k.id) < 0 {
        FireAllOnward(s, keys, h);
        CancelledOn(s, FireAll(s, keys, h), k.id);
      }
    } else {
      RestWaits(s, keys, h);
      PicksAll(s', keys[1..], h, k);
    }
  }

  // ------------------------------------------------------------ what is due

  lemma {:induction false} InsertHas(k: Key, ks: seq<Key>, x: Key)
    ensures x in Insert(k, ks) <==> x == k || x in ks
  {
    if ks != [] && !Earlier(k, ks[0]) {
      InsertHas(k, ks[1..], x);
    }
  }

  lemma {:induction false} InsertSorted(k: Key, ks: seq<Key>)
    requires Sorted(ks) && forall i :: 0 <= i < |ks| ==> ks[i].order != k.order
    ensures Sorted(Insert(k, ks))
  {
    if ks != [] && !Earlier(k, ks[0]) {
      InsertSorted(k, ks[1..]);
      var r := Insert(k, ks[1..]);
      forall j | 0 <= j < |r|
        ensures Earlier(ks[0], r[j])
      {
        InsertHas(k, ks[1..], r[j]);
        if r[j] != k {
          var n :| 0 <= n < |ks[1..]| && ks[1..][n] == r[j];
          assert Earlier(ks[0], ks[n + 1]);
        }
      }
    }
  }

  predicate DueAt(ts: seq<Timer>, now: real, k: Key, i: nat) {
    i < |ts| && !ts[i].dead && ts[i].deadline <= now && k == KeyOf(ts[i])
  }

  /** The snapshot is exactly the live timers due, each once, in order. */
  lemma {:induction false} DueExact(ts: seq<Timer>, now: real, next: nat)
    requires InOrder(ts, next)
    ensures Sorted(Due(ts, now)) && Distinct(Due(ts, now))
    ensures forall k :: k in Due(ts, now) <==> exists i: nat :: DueAt(ts, now, k, i)
    decreases |ts|
  {
    if ts != [] {
      var last, rest := ts[|ts| - 1], ts[..|ts| - 1];
      DueExact(rest, now, next);
      forall k: Key
        ensures k in Due(ts, now) <==> exists i: nat :: DueAt(ts, now, k, i)
      {
        DueLast(ts, rest, now, k);
      }
      DueEarlierIds(rest, now, next, last.id);
      if !last.dead && last.deadline <= now {
        InsertSorted(KeyOf(last), Due(rest, now));
        InsertDistinct(KeyOf(last), Due(rest, now));
      }
    }
  }

  lemma DueLast(ts: seq<Timer>, rest: seq<Timer>, now: real, k: Key)
    requires ts != [] && rest == ts[..|ts| - 1]
    requires k in Due(rest, now) <==> exists i: nat :: DueAt(rest, now, k, i)
    ensures k in Due(ts, now) <==> exists i: nat :: DueAt(ts, now, k, i)
  {
    var last := ts[|ts| - 1];
    InsertHas(KeyOf(last), Due(rest, now), k);
    if i: nat :| DueAt(rest, now, k, i) {
      assert DueAt(ts, now, k, i);
    }
    if i: nat :| DueAt(ts, now, k, i) {
      if i < |rest| {
        assert DueAt(rest, now, k, i);
      }
    }
    if !last.dead && last.deadline <= now {
      assert DueAt(ts, now, KeyOf(last), |ts| - 1);
    }
  }

  lemma DueEarlierIds(ts: seq<Timer>, now: real, next: nat, id: nat)
    requires InOrder(ts, next) && forall i :: 0 <= i < |ts| ==> ts[i].id < id
    requires forall k :: k in Due(ts, now) <==> exists i: nat :: DueAt(ts, now, k, i)
    ensures forall i :: 0 <= i < |Due(ts, now)| ==> Due(ts, now)[i].id < id && Due(ts, now)[i].order < id
  {
    forall i | 0 <= i < |Due(ts, now)|
      ensures Due(ts, now)[i].id < id && Due(ts, now)[i].order < id
    {
      var k := Due(ts, now)[i];
      assert k in Due(ts, now);
      var j: nat :| DueAt(ts, now, k, j);
    }
  }

  lemma {:induction false} InsertDistinct(k: Key, ks: seq<Key>)
    requires Distinct(ks) && forall i :: 0 <= i < |ks| ==> ks[i].id != k.id
    ensures Distinct(Insert(k, ks))
  {
    if ks != [] && !Earlier(k, ks[0]) {
      InsertDistinct(k, ks[1..]);
      var r := Insert(k, ks[1..]);
      forall j | 0 <= j < |r|
        ensures r[j].id != ks[0].id
      {
        InsertHas(k, ks[1..], r[j]);
        if r[j] != k {
          var n :| 0 <= n < |ks[1..]| && ks[1..][n] == r[j];
          assert ks[0].id != ks[n + 1].id;
        }
      }
    }
  }

  lemma DueWaits(s: State)
    requires Inv(s)
    ensures AllWaiting(s, Due(s.timers, s.now))
  {
    DueExact(s.timers, s.now, s.nextTimer);
    var keys := Due(s.timers, s.now);
    forall i | 0 <= i < |keys|
      ensures Waiting(s, keys[i])
    {
      assert keys[i] in keys;
      var j: nat :| DueAt(s.timers, s.now, keys[i], j);
      FindAt(s.timers, j, s.nextTimer);
    }
  }

  /** The firings of one tick, in order, are some of the timers that were due when
      the sources had been handled: earliest first, ties in order of creation,
      none twice, none armed since; and a due timer that is not among them was
      cancelled. */
  lemma TickOrder(s: State, io: seq<Act>, h: Handlers)
    requires Inv(s)
    ensures var ready := DoAll(s.(depth := s.depth + 1), io);
            var keys := Due(ready.timers, ready.now);
            var fired := Picks(ready, keys, h);
            var log := Tick(s, io, h).log;
            && FiredKeys(log) == FiredKeys(s.log) + fired
            && Sorted(fired) && Distinct(keys)
            && (forall k :: k in fired ==> k in keys && k.id < ready.nextTimer)
            && (forall k :: k in keys <==> exists i: nat :: DueAt(ready.timers, ready.now, k, i))
            && (forall k :: k in keys ==> k in fired || WasCancelled(log, k.id))
            && |ready.log| <= |log|
            && (forall i :: |ready.log| <= i < |log| ==> NewArm(log[i], ready.nextTimer))
  {
    hide Picks, FireAll, Inv, FiredKeys, Due, InOrder, WasCancelled, Waiting, DoAll;
    var at := s.(depth := s.depth + 1);
    var ready := DoAll(at, io);
    var keys := Due(ready.timers, ready.now);
    DeeperKeeps(s);
    DoAllKeeps(at, io);
    DoAllOnward(at, io);
    DoAllFiresNothing(at, io);
    InvOrders(ready);
    DueExact(ready.timers, ready.now, ready.nextTimer);
    DueWaits(ready);
    FireAllFires(ready, keys, h);
    PicksSorted(ready, keys, h);
    FireAllOnward(ready, keys, h);
    forall k | k in keys
      ensures k in Picks(ready, keys, h) || WasCancelled(FireAll(ready, keys, h).log, k.id)
      ensures k.id < ready.nextTimer
    {
      PicksAll(ready, keys, h, k);
      var j: nat :| DueAt(ready.timers, ready.now, k, j);
      OrderedAt(ready, j);
    }
  }

  lemma DeeperKeeps(s: State)
    requires Inv(s)
    ensures Inv(s.(depth := s.depth + 1))
  {
  }

  lemma InvOrders(s: State)
    requires Inv(s)
    ensures InOrder(s.timers, s.nextTimer)
  {
  }

  lemma OrderedAt(s: State, i: nat)
    requires Inv(s) && i < |s.timers|
    ensures s.timers[i].id < s.nextTimer
  {
  }

  // ---------------------------------------------------------------- the grid

  predicate OnGrid(next: real, firedFor: real, period: real, k: int) {
    next == firedFor + k as real * period
  }

  /** The next firing is on the timer's grid, behind `after`, and the point of the
      grid before it is not. */
  lemma NextIsLeast(firedFor: real, period: real, after: real)
    requires period > 0.0
    ensures var next := Next(firedFor, period, after);
            && next > after
            && (next == firedFor + period || next - period <= after)
            && exists k: int :: k >= 1 && OnGrid(next, firedFor, period, k)
  {
    var next := Next(firedFor, period, after);
    if firedFor + period <= after {
      SkipIsLeast(firedFor, period, after);
      assert OnGrid(next, firedFor, period, ((after - firedFor) / period).Floor + 1);
    } else {
      assert OnGrid(next, firedFor, period, 1);
    }
  }

  lemma SkipIsLeast(firedFor: real, period: real, after: real)
    requires period > 0.0 && firedFor + period <= after
    ensures var k := ((after - firedFor) / period).Floor + 1;
            k >= 1 && firedFor + k as real * period > after && firedFor + k as real * period - period <= after
  {
    var q := (after - firedFor) / period;
    assert q * period == after - firedFor;
    FloorScales(q, period);
    if q < 1.0 {
      Shrinks(q, period);
    }
    var k := q.Floor + 1;
    assert (k as real - 1.0) * period == k as real * period - period;
  }

  lemma FloorScales(q: real, period: real)
    requires period > 0.0
    ensures q.Floor as real * period <= q * period < (q.Floor + 1) as real * period
  {
    Scales(q.Floor as real, q, period);
    assert ((q.Floor + 1) as real - q) * period > 0.0;
  }

  lemma Scales(a: real, b: real, period: real)
    requires a <= b && period > 0.0
    ensures a * period <= b * period
  {
    assert (b - a) * period >= 0.0;
  }

  lemma Shrinks(q: real, period: real)
    requires q < 1.0 && period > 0.0
    ensures q * period < period
  {
    assert (1.0 - q) * period > 0.0;
  }

  /** A repeating timer that fired is either gone, cancelled, or armed for the
      first point of its grid behind the end of its handler. */
  lemma RepeatsOnGrid(s: State, i: nat, h: Handlers)
    requires Inv(s) && s.depth > 0 && i < |s.timers| && !s.timers[i].dead && s.timers[i].period > 0.0
    ensures var t := s.timers[i];
            var s' := Fire(s, t.id, h);
            var j := Find(s'.timers, t.id);
            if j >= 0 then s'.timers[j].deadline == Next(t.deadline, t.period, s'.now)
              && s'.timers[j].period == t.period
            else WasCancelled(s'.log, t.id)
  {
    var t := s.timers[i];
    var acts := h(t.id, |s.log|);
    FindAt(s.timers, i, s.nextTimer);
    BeganKeeps(s, i);
    var b := Began(s, t);
    FindAt(b.timers, i, b.nextTimer);
    DoAllKeepsPeriod(b, acts, KeyOf(t), t.period);
    DoAllKeeps(b, acts);
    RearmKeeps(DoAll(b, acts), t.id, t.deadline, t.period);
    var d := DoAll(b, acts);
    var j := Find(d.timers, t.id);
    if j >= 0 {
      var s' := Rearm(d, t.id, t.deadline, t.period);
      assert s'.timers[j].id == t.id && !s'.timers[j].dead;
      FindAt(s'.timers, j, s'.nextTimer);
    }
  }

  lemma {:induction false} DoAllKeepsPeriod(s: State, acts: seq<Act>, k: Key, period: real)
    requires Inv(s) && s.depth > 0 && Waiting(s, k)
    requires Find(s.timers, k.id) >= 0 ==> s.timers[Find(s.timers, k.id)].period == period
    ensures var s' := DoAll(s, acts);
            var j := Find(s'.timers, k.id);
            Waiting(s', k) && (j >= 0 ==> s'.timers[j].period == period)
    decreases |acts|
  {
    if acts != [] {
      DoLeaves(s, acts[0], k);
      DoKeeps(s, acts[0]);
      DoKeepsPeriod(s, acts[0], k.id, period);
      DoAllKeepsPeriod(Do(s, acts[0]), acts[1..], k, period);
    }
  }

  lemma DoKeepsPeriod(s: State, a: Act, id: nat, period: real)
    requires Inv(s) && s.depth > 0 && id < s.nextTimer
    requires Find(s.timers, id) >= 0 ==> s.timers[Find(s.timers, id)].period == period
    ensures var s' := Do(s, a);
            var j := Find(s'.timers, id);
            j >= 0 ==> s'.timers[j].period == period
  {
    var s' := Do(s, a);
    var j := Find(s'.timers, id);
    if j >= 0 {
      assert j < |s.timers| && s'.timers[j] == s.timers[j];
      FindAt(s.timers, j, s.nextTimer);
    }
  }

  // ------------------------------------------------------- the next deadline

  /** What a search for the least deadline makes of the timers, when a negative
      number stands for having found none. */
  function NextOf(ts: seq<Timer>): real
  {
    if ts == [] then -1.0
    else
      var last, best := ts[|ts| - 1], NextOf(ts[..|ts| - 1]);
      if !last.dead && (best < 0.0 || last.deadline < best) then last.deadline else best
  }

  ghost predicate LeastLive(ts: seq<Timer>, d: real) {
    && (exists i :: 0 <= i < |ts| && !ts[i].dead && ts[i].deadline == d)
    && (forall i :: 0 <= i < |ts| && !ts[i].dead ==> d <= ts[i].deadline)
  }

  predicate Live(ts: seq<Timer>) {
    exists i :: 0 <= i < |ts| && !ts[i].dead
  }

  /** The deadline of the live timer that comes last. */
  function LastLive(ts: seq<Timer>): real
    requires Live(ts)
  {
    var last := ts[|ts| - 1];
    if !last.dead then last.deadline else LastLive(ts[..|ts| - 1])
  }

  ghost predicate NoneNegative(ts: seq<Timer>) {
    forall i :: 0 <= i < |ts| && !ts[i].dead ==> ts[i].deadline >= 0.0
  }

  lemma {:induction false} NextOfIs(ts: seq<Timer>)
    ensures if !Live(ts) then NextOf(ts) == -1.0
            else if NoneNegative(ts) then NextOf(ts) >= 0.0 && LeastLive(ts, NextOf(ts))
            else if LastLive(ts) < 0.0 then NextOf(ts) == LastLive(ts)
            else NextOf(ts) >= 0.0
  {
    if ts != [] {
      var rest, last := ts[..|ts| - 1], ts[|ts| - 1];
      NextOfIs(rest);
      LiveBut(ts);
      if Live(ts) && NoneNegative(ts) {
        LeastBut(ts, NextOf(rest));
      }
    }
  }

  lemma LiveBut(ts: seq<Timer>)
    requires ts != []
    ensures Live(ts) <==> Live(ts[..|ts| - 1]) || !ts[|ts| - 1].dead
    ensures NoneNegative(ts) <==> NoneNegative(ts[..|ts| - 1]) && (!ts[|ts| - 1].dead ==> ts[|ts| - 1].deadline >= 0.0)
  {
    var rest := ts[..|ts| - 1];
    forall i | 0 <= i < |ts|
      ensures ts[i] == if i < |rest| then rest[i] else ts[|ts| - 1]
    {
    }
    if Live(rest) {
      var i :| 0 <= i < |rest| && !rest[i].dead;
      assert !ts[i].dead;
    }
    if Live(ts) && ts[|ts| - 1].dead {
      var i :| 0 <= i < |ts| && !ts[i].dead;
      assert !rest[i].dead;
    }
    if NoneNegative(ts) {
      forall i | 0 <= i < |rest| && !rest[i].dead
        ensures rest[i].deadline >= 0.0
      {
        assert ts[i] == rest[i];
      }
    }
  }

  lemma LeastBut(ts: seq<Timer>, d: real)
    requires ts != []
    ensures var rest, last := ts[..|ts| - 1], ts[|ts| - 1];
            && (last.dead && LeastLive(rest, d) ==> LeastLive(ts, d))
            && (!last.dead && LeastLive(rest, d) ==> LeastLive(ts, if last.deadline < d then last.deadline else d))
            && (!last.dead && !Live(rest) ==> LeastLive(ts, last.deadline))
  {
    var rest, last := ts[..|ts| - 1], ts[|ts| - 1];
    forall i | 0 <= i < |ts|
      ensures ts[i] == if i < |rest| then rest[i] else last
    {
    }
    if LeastLive(rest, d) {
      var i :| 0 <= i < |rest| && !rest[i].dead && rest[i].deadline == d;
      assert ts[i] == rest[i];
    }
  }

  /** The search finds the least deadline of the live timers exactly when none of
      them is negative or the last of them is the least. */
  lemma NextExactly(ts: seq<Timer>)
    requires Live(ts)
    ensures LeastLive(ts, NextOf(ts)) <==> NoneNegative(ts) || LeastLive(ts, LastLive(ts))
  {
    NextOfIs(ts);
    if !NoneNegative(ts) {
      LastLiveIs(ts);
    }
  }

  lemma {:induction false} LastLiveIs(ts: seq<Timer>)
    requires Live(ts)
    ensures exists i :: 0 <= i < |ts| && !ts[i].dead && ts[i].deadline == LastLive(ts)
  {
    var rest, last := ts[..|ts| - 1], ts[|ts| - 1];
    if last.dead {
      LiveBut(ts);
      LastLiveIs(rest);
      var i :| 0 <= i < |rest| && !rest[i].dead && rest[i].deadline == LastLive(rest);
      assert ts[i] == rest[i];
    }
  }

  // ----------------------------------------------------------------- the loop

  class EventLoop {
    var timers: seq<Timer>
    var nextTimer: nat
    var nextOrder: nat
    var now: real
    var depth: nat
    var needSweep: bool
    /** What handlers did so far; only handlers look at it. */
    var log: seq<Event>

    function View(): State
      reads this
    {
      State(timers, nextTimer, nextOrder, now, depth, needSweep, log)
    }

    constructor ()
      ensures View() == START
    {
      timers, nextTimer, nextOrder, now, depth, needSweep, log := [], 1, 1, 0.0, 0, false, [];
    }

    method ArmAt(deadline: real) returns (id: nat)
      modifies this
      ensures View() == Arm(old(View()), deadline, 0.0) && id == old(nextTimer)
    {
      id := nextTimer;
      timers := timers + [Timer(id, deadline, 0.0, nextOrder, false)];
      nextTimer, nextOrder, log := nextTimer + 1, nextOrder + 1, log + [Armed(id)];
    }

    /** Arms a one-shot and then looks it up to make it repeat. */
    method ArmEvery(period: real) returns (id: nat)
      requires InOrder(timers, nextTimer)
      modifies this
      ensures View() == Arm(old(View()), old(now) + period, period) && id == old(nextTimer)
    {
      ghost var goal := Arm(View(), now + period, period).timers;
      id := ArmAt(now + period);
      ghost var armed := timers;
      for i := 0 to |timers|
        invariant |timers| == |armed| == |goal|
        invariant forall j :: 0 <= j < |timers| ==> timers[j] == if j < i then goal[j] else armed[j]
        invariant View() == Arm(old(View()), old(now) + period, 0.0).(timers := timers)
      {
        if timers[i].id == id {
          timers := timers[i := timers[i].(period := period)];
        }
      }
      assert timers == goal;
    }

    method Survivors() returns (kept: seq<Timer>)
      ensures kept == Alive(timers)
    {
      kept := [];
      var ts := timers;
      assert ts[0..] == ts;
      for i := 0 to |ts|
        invariant kept + Alive(ts[i..]) == Alive(ts)
      {
        hide Alive;
        AliveFirst(ts, i);
        if !ts[i].dead {
          Regrouped(kept, ts[i], Alive(ts[i + 1..]));
          kept := kept + [ts[i]];
        }
      }
    }

    method SweepDead()
      modifies this
      ensures View() == Sweep(old(View()))
    {
      if needSweep {
        timers := Survivors();
        needSweep := false;
      }
    }

    method CancelById(id: nat)
      modifies this
      ensures View() == CancelTimer(old(View()), id)
    {
      ghost var was := timers;
      for i := 0 to |timers|
        invariant |timers| == |was|
        invariant forall j :: 0 <= j < |was| ==> timers[j] == if j < i && was[j].id == id then was[j].(dead := true)
                  else was[j]
        invariant needSweep == (old(needSweep) || exists j :: 0 <= j < i && was[j].id == id)
        invariant View() == old(View()).(timers := timers, needSweep := needSweep)
      {
        if timers[i].id == id {
          timers := timers[i := timers[i].(dead := true)];
          needSweep := true;
        }
      }
      assert timers == Kill(was, id);
      log := if id < nextTimer then log + [Cancelled(id)] else log;
      if depth == 0 {
        SweepDead();
      }
    }

    /** The loop that looks for the next deadline. */
    method NextDeadline() returns (best: real)
      ensures best == NextOf(timers)
    {
      best := -1.0;
      assert timers[..|timers|] == timers;
      for i := 0 to |timers|
        invariant best == NextOf(timers[..i])
      {
        assert timers[..i + 1][..i] == timers[..i];
        if !timers[i].dead && (best < 0.0 || timers[i].deadline < best) {
          best := timers[i].deadline;
        }
      }
    }

    /** A handler at work. */
    method Handle(acts: seq<Act>)
      requires Inv(View())
      modifies this
      ensures View() == DoAll(old(View()), acts)
    {
      for i := 0 to |acts|
        invariant Inv(View()) && DoAll(View(), acts[i..]) == DoAll(old(View()), acts)
      {
        DoKeeps(View(), acts[i]);
        ghost var s := View();
        assert acts[i..][0] == acts[i] && acts[i..][1..] == acts[i + 1..];
        match acts[i] {
          case At(deadline) => var _ := ArmAt(deadline);
          case After(seconds) => var _ := ArmAt(now + seconds);
          case Every(period) => var _ := ArmEvery(period);
          case Cancel(id) => CancelById(id);
          case Pass(seconds) => now := if seconds > 0.0 then now + seconds else now;
        }
        assert View() == Do(s, acts[i]);
      }
    }

    method Snapshot() returns (due: seq<Key>)
      ensures due == Due(timers, now)
    {
      due := [];
      for i := 0 to |timers|
        invariant due == Due(timers[..i], now)
      {
        assert timers[..i + 1][..i] == timers[..i];
        if !(timers[i].dead || timers[i].deadline > now) {
          due := Insert(KeyOf(timers[i]), due);
        }
      }
      assert timers[..|timers|] == timers;
    }

    method Locate(id: nat) returns (at: int)
      ensures at == Find(timers, id)
    {
      at := 0;
      while at < |timers|
        invariant 0 <= at <= |timers|
        invariant Find(timers, id) == if Find(timers[at..], id) < 0 then -1 else at + Find(timers[at..], id)
      {
        if timers[at].id == id && !timers[at].dead {
          return;
        }
        assert timers[at..][1..] == timers[at + 1..];
        at := at + 1;
      }
      at := -1;
    }

    /** One timer's turn, if it still has one. */
    method FireTimer(id: nat, h: Handlers)
      requires Inv(View())
      modifies this
      ensures View() == Fire(old(View()), id, h) && Inv(View())
    {
      FireKeeps(View(), id, h);
      var i := Locate(id);
      if i < 0 {
        return;
      }
      var t := timers[i];
      BeganKeeps(View(), i);
      var count := |log|;
      log := log + [Fired(t.id, t.deadline, t.period, now)];
      if t.period <= 0.0 {
        timers, needSweep := Kill(timers, t.id), true;
      }
      Handle(h(id, count));
      if t.period > 0.0 {
        var j := Locate(id);
        if j >= 0 {
          timers := timers[j := timers[j].(deadline := Next(t.deadline, t.period, now))];
        }
      }
    }

    /** One turn of the loop: the sources' handlers, then what is due. */
    method TickOnce(io: seq<Act>, h: Handlers)
      requires Inv(View())
      modifies this
      ensures View() == Tick(old(View()), io, h) && Inv(View())
    {
      hide Inv, Fire, Due, DoAll, Sweep;
      ghost var s := View();
      TickKeeps(s, io, h);
      DeeperKeeps(s);
      depth := depth + 1;
      DoAllKeeps(View(), io);
      Handle(io);
      ghost var ready := View();
      var due := Snapshot();
      for i := 0 to |due|
        invariant Inv(View()) && FireAll(View(), due[i..], h) == FireAll(ready, due, h)
      {
        assert due[i..][0] == due[i] && due[i..][1..] == due[i + 1..];
        FireTimer(due[i].id, h);
      }
      assert View() == FireAll(ready, due, h);
      FireAllOnward(ready, due, h);
      DoAllOnward(s.(depth := s.depth + 1), io);
      depth := depth - 1;
      SweepDead();
    }
  }

  lemma AliveFirst(ts: seq<Timer>, i: nat)
    requires i < |ts|
    ensures Alive(ts[i..]) == if ts[i].dead then Alive(ts[i + 1..]) else [ts[i]] + Alive(ts[i + 1..])
  {
    assert ts[i..][1..] == ts[i + 1..];
    assert [] + Alive(ts[i + 1..]) == Alive(ts[i + 1..]);
  }

  lemma Regrouped(a: seq<Timer>, t: Timer, b: seq<Timer>)
    ensures (a + [t]) + b == a + ([t] + b)
  {
  }
}
