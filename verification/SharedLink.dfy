/** One radio, several users (src/hcishare.cc). A SharedLink turns what its
    users want into scan commands on the one Link underneath, which has a habit
    of its own: a connection attempt stops the scan, and one that fails starts
    a passive scan again by itself (src/hcilink.cc, finish_connect).

    The state machine is given as functions on a State, one per handler; the
    class of SharedRadio holds such a State and changes it the way the handlers do,
    each method proved to do what its function says. The controller is part of
    the state: it does what a command says when it answers it, and refuses new
    scan parameters while it is scanning (section 7.8.10 of Vol 4 Part E). */
module SharedLink {

  datatype Phase = Opening | Ready | Failed

  datatype User = User(id: nat, want: bool, active: bool)

  /** A completion a caller may hand over. */
  datatype Completion = Nobody | Caller(id: nat)

  /** A command on the link's queue. `own` tells the commands pump issued from
      those the link issued for a connection attempt: the stop before it and
      the scan restored after it failed. */
  datatype Command =
    | SetParams(active: bool, own: bool)
    | Enable(own: bool)
    | Disable(own: bool)
    | Create
    | Other

  /** Work put off to the next turn of the loop: the end of a stop_scan that had
      nothing to stop, or the refusal of a connect on a closed link. */
  datatype Deferral = ConnectStopped | ConnectRefused

  datatype Radio = Radio(enabled: bool, param: bool, active: bool)

  /** A completion that was called, whether it was told the request succeeded,
      whether the radio then did what the users wanted, and whether something
      had happened that excuses it if not. */
  datatype Answer = Answer(id: nat, ok: bool, met: bool, excused: bool)

  /** The last four fields are history: the completions handed in, the ones
      called, whether a scan command failed or was refused, and whether the last
      thing to start the scan was the link's own restore. */
  datatype State = State(
    phase: Phase, closed: bool,
    users: seq<User>, appliedActive: bool, reconciling: bool, connecting: bool, force: bool, pending: seq<nat>,
    scanning: bool, restoreScan: bool, initiating: bool, queue: seq<Command>, deferred: seq<Deferral>,
    radio: Radio,
    asked: seq<nat>, answered: seq<Answer>, refused: bool, stray: bool)

  const START := State(Opening, false, [], false, false, false, false, [],
                       false, false, false, [], [], Radio(false, false, false), [], [], false, false)

  // ---------------------------------------------------------- what is wanted

  predicate Wants(users: seq<User>) {
    exists i :: 0 <= i < |users| && users[i].want
  }

  predicate WantsActive(users: seq<User>) {
    exists i :: 0 <= i < |users| && users[i].want && users[i].active
  }

  /** The radio does what the users want. */
  predicate Met(s: State) {
    if Wants(s.users) then s.radio.enabled && s.radio.active == WantsActive(s.users) else !s.radio.enabled
  }

  // ------------------------------------------------------------ the handlers

  /** What the radio's work leaves alone. */
  predicate Same(s: State, t: State) {
    && t.users == s.users && t.phase == s.phase && t.closed == s.closed
    && t.asked == s.asked && t.refused == s.refused
  }

  function Ids(done: Completion): seq<nat> {
    match done case Nobody => [] case Caller(id) => [id]
  }

  function Marked(ids: seq<nat>, ok: bool, met: bool, excused: bool): seq<Answer> {
    if ids == [] then [] else [Answer(ids[0], ok, met, excused)] + Marked(ids[1..], ok, met, excused)
  }

  function Settle(s: State, ok: bool): (t: State)
    ensures Same(s, t)
  {
    s.(answered := s.answered + Marked(s.pending, ok, Met(s), s.refused || s.stray), pending := [])
  }

  function Issue(s: State, c: Command): State {
    s.(queue := s.queue + [c])
  }

  /** What pump does once nothing is in the way and `force` has been dealt with. */
  function Apply(s: State): (t: State)
    ensures Same(s, t)
  {
    var want, active := Wants(s.users), WantsActive(s.users);
    if want == s.scanning && (want ==> active == s.appliedActive) then Settle(s, true)
    else if s.scanning then Issue(s.(reconciling := true), Disable(true))
    else Issue(s.(reconciling := true, appliedActive := active, stray := false), SetParams(active, true))
  }

  function Pump(s: State): (t: State)
    ensures Same(s, t)
  {
    if s.closed || s.phase == Failed then Settle(s, false)
    else if s.phase == Opening || s.connecting then s
    else if s.force && s.scanning then Issue(s.(force := false, reconciling := true), Disable(true))
    else Apply(s.(force := false))
  }

  function Reconcile(s: State, done: Completion): (t: State)
    ensures Same(s.(asked := s.asked + Ids(done)), t)
  {
    var t := s.(pending := s.pending + Ids(done), asked := s.asked + Ids(done));
    if t.reconciling then t else Pump(t)
  }

  /** The completion pump gives each of its commands. */
  function Next(s: State, ok: bool): (t: State)
    ensures Same(s, t)
  {
    var u := s.(reconciling := false);
    if ok then Pump(u) else Settle(u, false)
  }

  function EndConnect(s: State): (t: State)
    ensures Same(s, t)
  {
    Reconcile(s.(connecting := false, force := true), Nobody)
  }

  /** Link::finish_connect: a failed attempt starts a passive scan again if one
      was running when it began. */
  function FinishConnect(s: State, ok: bool): (t: State)
    ensures Same(s, t)
  {
    var t := s.(initiating := false, restoreScan := false);
    EndConnect(if s.restoreScan && !ok then Issue(t.(stray := true), SetParams(false, false)) else t)
  }

  /** What Link::connect does once the scan is off. */
  function AfterStop(s: State, ok: bool): (t: State)
    ensures Same(s, t)
  {
    if ok then Issue(s, Create) else FinishConnect(s, false)
  }

  /** The radio takes new parameters only while it is not scanning. */
  predicate Accepts(r: Radio, c: Command) {
    c.SetParams? ==> !r.enabled
  }

  function Obey(r: Radio, c: Command): Radio {
    match c
    case SetParams(active, _) => r.(param := active)
    case Enable(_) => if r.enabled then r else Radio(true, r.param, r.param)
    case Disable(_) => r.(enabled := false)
    case _ => r
  }

  /** What the completion of a command does to the host. */
  function Completed(s: State, c: Command, ok: bool): (t: State)
    ensures Same(s, t)
  {
    match c
    case SetParams(_, own) => if ok then Issue(s, Enable(own)) else if own then Next(s, false) else s
    case Enable(own) =>
      var t := s.(scanning := s.scanning || ok);
      if own then Next(t, ok) else t
    case Disable(own) =>
      var t := s.(scanning := false, stray := s.stray && !ok);
      if own then Next(t, ok) else AfterStop(t, ok)
    case Create => if ok then s.(initiating := true) else FinishConnect(s, false)
    case Other => s
  }

  /** What is left of the queue once its front is answered. */
  function Rest(s: State, accepted: bool): State
    requires s.queue != []
  {
    s.(queue := s.queue[1..], refused := s.refused || (IsScan(s.queue[0]) && !accepted),
       radio := if accepted then Obey(s.radio, s.queue[0]) else s.radio)
  }

  /** The command in flight is answered, or times out: `ok` is the controller's
      own will, which the rule about parameters overrides. */
  function Respond(s: State, ok: bool): (t: State)
    requires s.queue != []
    ensures t.users == s.users && t.phase == s.phase && t.closed == s.closed && t.asked == s.asked
    ensures t.refused == Rest(s, ok && Accepts(s.radio, s.queue[0])).refused
  {
    var accepted := ok && Accepts(s.radio, s.queue[0]);
    Completed(Rest(s, accepted), s.queue[0], accepted)
  }

  /** Deferred work runs. */
  function Turn(s: State): (t: State)
    requires s.deferred != []
    ensures Same(s, t)
  {
    var t := s.(deferred := s.deferred[1..]);
    match s.deferred[0]
    case ConnectStopped => if s.closed then t else AfterStop(t, true)
    case ConnectRefused => EndConnect(t)
  }

  /** The connection comes up or fails, or its own timer runs out, which also
      cancels it on the controller. */
  function Connected(s: State, ok: bool): (t: State)
    ensures Same(s, t)
  {
    FinishConnect(s, ok)
  }

  function TimedOut(s: State): (t: State)
    ensures Same(s, t)
  {
    FinishConnect(Issue(s, Other), false)
  }

  function StartConnect(s: State): State {
    var t := s.(connecting := true);
    if s.closed then t.(deferred := t.deferred + [ConnectRefused])
    else if s.scanning then Issue(t.(restoreScan := true), Disable(false))
    else t.(restoreScan := false, deferred := t.deferred + [ConnectStopped])
  }

  function SetUser(s: State, i: nat, want: bool, active: bool, done: Completion): State
    requires i < |s.users|
  {
    Reconcile(s.(users := s.users[i := s.users[i].(want := want, active := active)]), done)
  }

  function AddUser(s: State, id: nat): State {
    s.(users := s.users + [User(id, false, false)])
  }

  function DropUser(s: State, i: nat): State
    requires i < |s.users|
  {
    Reconcile(s.(users := s.users[..i] + s.users[i + 1..]), Nobody)
  }

  function BecomeReady(s: State, ok: bool): State {
    var t := s.(phase := if ok then Ready else Failed);
    if ok then Pump(t) else Settle(t, false)
  }

  /** The completions of the commands a dying link still held: only pump's own
      still have an effect. */
  function Abandon(s: State, queue: seq<Command>): State
    decreases |queue|
  {
    if queue == [] then s
    else
      var c := queue[0];
      Abandon(if (c.SetParams? || c.Enable? || c.Disable?) && c.own then Next(s, false) else s, queue[1..])
  }

  /** Link::fail, and on_closed after it. */
  function Unplug(s: State): State {
    var t := s.(closed := true, queue := [], scanning := false, initiating := false, restoreScan := false);
    var u := Abandon(t, s.queue);
    var v := if s.connecting then EndConnect(u) else u;
    Settle((if s.phase == Opening then BecomeReady(v, false) else v).(phase := Failed), false)
  }

  // ------------------------------------------------------------------- runs

  /** Everything that can happen to a SharedLink. The first five are requests
      of its users, the next four are the radio and the loop at work. */
  datatype Event =
    | Add(id: nat)
    | Start(user: nat, active: bool, done: Completion)
    | Stop(user: nat, done: Completion)
    | Drop(user: nat)
    | Connect
    | Answered(ok: bool)
    | LoopTurn
    | Outcome(ok: bool)
    | Timeout
    | Up(ok: bool)
    | Gone

  /** One connection attempt at a time; an attempt ends only once the
      controller has taken it on. */
  predicate Possible(s: State, e: Event) {
    match e
    case Add(_) => true
    case Start(user, _, _) => user < |s.users|
    case Stop(user, _) => user < |s.users|
    case Drop(user) => user < |s.users|
    case Connect => !s.connecting
    case Answered(_) => s.queue != []
    case LoopTurn => s.deferred != []
    case Outcome(_) => s.initiating
    case Timeout => s.initiating
    case Up(_) => s.phase == Opening
    case Gone => !s.closed
  }

  function Step(s: State, e: Event): State
    requires Possible(s, e)
  {
    match e
    case Add(id) => AddUser(s, id)
    case Start(user, active, done) => SetUser(s, user, true, active, done)
    case Stop(user, done) => SetUser(s, user, false, false, done)
    case Drop(user) => DropUser(s, user)
    case Connect => StartConnect(s)
    case Answered(ok) => Respond(s, ok)
    case LoopTurn => Turn(s)
    case Outcome(ok) => Connected(s, ok)
    case Timeout => TimedOut(s)
    case Up(ok) => BecomeReady(s, ok)
    case Gone => Unplug(s)
  }

  predicate Runs(s: State, es: seq<Event>)
    decreases |es|
  {
    es == [] || (Possible(s, es[0]) && Runs(Step(s, es[0]), es[1..]))
  }

  function After(s: State, es: seq<Event>): State
    requires Runs(s, es)
    decreases |es|
  {
    if es == [] then s else After(Step(s, es[0]), es[1..])
  }

  // ------------------------------------------------------- queue arithmetic

  predicate IsScan(c: Command) {
    c.SetParams? || c.Enable? || c.Disable?
  }

  /** The scan commands on the queue. */
  function Scans(q: seq<Command>): seq<Command> {
    if q == [] then [] else (if IsScan(q[0]) then [q[0]] else []) + Scans(q[1..])
  }

  function Own(c: Command): nat {
    if IsScan(c) && c.own then 1 else 0
  }

  /** Whether a command carries a connection attempt on. */
  function Carries(c: Command): nat {
    if c == Disable(false) || c == Create then 1 else 0
  }

  /** A bound on the events a command can still lead to. */
  function Cost(c: Command): nat {
    match c
    case SetParams(_, _) => 2
    case Disable(own) => if own then 3 else 13
    case Create => 12
    case _ => 1
  }

  function Sum(f: Command -> nat, q: seq<Command>): nat {
    if q == [] then 0 else f(q[0]) + Sum(f, q[1..])
  }

  lemma {:induction false} SumPushed(f: Command -> nat, q: seq<Command>, c: Command)
    ensures Sum(f, q + [c]) == Sum(f, q) + f(c)
  {
    if q == [] {
      assert q + [c] == [c] && [c][1..] == [];
    } else {
      assert (q + [c])[1..] == q[1..] + [c] && (q + [c])[0] == q[0];
      SumPushed(f, q[1..], c);
    }
  }

  lemma {:induction false} ScansPushed(q: seq<Command>, c: Command)
    ensures Scans(q + [c]) == Scans(q) + (if IsScan(c) then [c] else [])
  {
    hide IsScan;
    if q == [] {
      assert q + [c] == [c] && [c][1..] == [];
    } else {
      assert (q + [c])[1..] == q[1..] + [c] && (q + [c])[0] == q[0];
      ScansPushed(q[1..], c);
      var head := if IsScan(q[0]) then [q[0]] else [];
      assert head + (Scans(q[1..]) + Scans([c])) == (head + Scans(q[1..])) + Scans([c]);
    }
  }

  function OwnStop(c: Command): nat {
    if c == Disable(true) then 1 else 0
  }

  lemma {:induction false} OwnStopIsOwn(q: seq<Command>)
    ensures Sum(OwnStop, q) <= Sum(Own, q)
  {
    if q != [] {
      OwnStopIsOwn(q[1..]);
    }
  }

  /** What counts in the queue is its scan commands. */
  lemma {:induction false} CountScans(q: seq<Command>)
    ensures Sum(Own, q) == Sum(Own, Scans(q)) && Sum(Carries, Scans(q)) <= Sum(Carries, q)
  {
    if q != [] {
      CountScans(q[1..]);
      assert ([q[0]] + Scans(q[1..]))[1..] == Scans(q[1..]);
      assert [] + Scans(q[1..]) == Scans(q[1..]);
    }
  }

  function AnsweredIds(a: seq<Answer>): seq<nat> {
    if a == [] then [] else [a[0].id] + AnsweredIds(a[1..])
  }

  lemma {:induction false} AnsweredIdsAppend(a: seq<Answer>, b: seq<Answer>)
    ensures AnsweredIds(a + b) == AnsweredIds(a) + AnsweredIds(b)
  {
    if a == [] {
      assert a + b == b;
    } else {
      assert (a + b)[1..] == a[1..] + b;
      AnsweredIdsAppend(a[1..], b);
    }
  }

  lemma {:induction false} MarkedIds(ids: seq<nat>, ok: bool, met: bool, excused: bool)
    ensures AnsweredIds(Marked(ids, ok, met, excused)) == ids
    ensures forall a :: a in Marked(ids, ok, met, excused) ==> a.ok == ok && a.met == met && a.excused == excused
  {
    if ids != [] {
      MarkedIds(ids[1..], ok, met, excused);
    }
  }

  // ------------------------------------------------------------- invariants

  function Bit(b: bool): nat {
    if b then 1 else 0
  }

  /** Every completion handed in has been called or waits, and none is called
      twice. */
  predicate Ledger(s: State) {
    s.asked == AnsweredIds(s.answered) + s.pending
  }

  /** Nobody is told that the scan is as wanted when it is not, unless a command
      had failed or the link had restored the scan. */
  predicate Honest(s: State) {
    forall a :: a in s.answered && a.ok ==> a.met || a.excused
  }

  /** Pump has exactly one command on the queue while it reconciles, and a
      connection attempt exactly one thing that carries it on. */
  predicate Chains(s: State) {
    if s.closed then
      s.queue == [] && !s.reconciling && !s.initiating
    else
      && Sum(Own, s.queue) == Bit(s.reconciling)
      && Sum(Carries, s.queue) + |s.deferred| + Bit(s.initiating) == Bit(s.connecting)
      && (forall d :: d in s.deferred ==> d == ConnectStopped)
      && (s.phase != Ready ==> Scans(s.queue) == [] && !s.reconciling && !s.scanning && !s.restoreScan)
  }

  /** Somebody who waits is waiting for something that will happen. */
  predicate Waiting(s: State) {
    && (s.closed ==> s.phase == Failed)
    && (s.phase == Failed ==> s.pending == [])
    && (s.phase == Ready && s.pending != [] ==> s.reconciling || s.connecting)
  }

  /** The scan commands that can be queued together, and what is known then. */
  predicate Queued(s: State, word: seq<Command>) {
    var app := s.appliedActive;
    || word == []
    || word == [Disable(false)]
    || (word == [Disable(true)] && s.scanning)
    || (word == [Disable(true), Disable(false)] && s.scanning)
    || (word == [Enable(true)] && !s.stray && s.radio.param == app)
    || (word == [Enable(true), Disable(false)] && !s.stray && s.scanning)
    || (word == [SetParams(app, true)] && !s.stray)
    || (word == [SetParams(app, true), Disable(false)] && !s.stray && s.scanning)
    || (word == [SetParams(false, false)] && s.stray && !s.scanning)
    || (word == [Enable(false)] && s.stray && !s.scanning && !s.radio.param)
    || (word == [SetParams(false, false), SetParams(app, true)] && !s.stray && !s.scanning)
    || (word == [SetParams(app, true), Enable(false)] && !s.stray && !s.scanning)
    || (word == [Enable(false), SetParams(app, true)] && !s.stray && !s.scanning)
    || (word == [Enable(false), Enable(true)] && !s.stray && !s.scanning && s.radio.param == app)
  }

  /** While no command has failed, the host knows what the radio does: it is
      active as last applied, or passive if the link restored it by itself. */
  predicate Known(s: State) {
    var word := Scans(s.queue);
    && Queued(s, word)
    && s.scanning == s.radio.enabled
    && (s.scanning && !(word != [] && word[0].SetParams?) ==> s.radio.active == (s.appliedActive && !s.stray))
    && (s.stray ==> s.scanning || word == [SetParams(false, false)] || word == [Enable(false)])
    && (s.restoreScan ==> s.connecting && if word == [] then !s.scanning else word[|word| - 1] == Disable(false))
    && (word != [] && word[|word| - 1] == Disable(false) ==> s.restoreScan)
  }

  /** Between reconciliations the scan is what pump last found it should be. */
  predicate Rested(s: State) {
    s.phase == Ready && !s.reconciling && !s.connecting ==>
      && !s.force
      && (Wants(s.users) ==> s.scanning && WantsActive(s.users) == s.appliedActive)
      && (!Wants(s.users) ==> s.scanning ==> s.stray)
  }

  predicate Fine(s: State) {
    Ledger(s) && Honest(s) && Chains(s) && (!s.refused && !s.closed ==> Known(s))
  }

  predicate Good(s: State) {
    Fine(s) && Waiting(s) && (!s.refused && !s.closed ==> Rested(s))
  }

  /** Whether the scan pump is putting on will have to be changed again. */
  predicate Stale(s: State) {
    s.force || !Wants(s.users) || WantsActive(s.users) != s.appliedActive
  }

  /** A bound on how many more events there can be if nobody asks for anything. */
  function Rank(s: State): nat {
    Sum(Cost, s.queue) + 13 * |s.deferred| + 11 * Bit(s.initiating)
    + (if s.reconciling && Sum(OwnStop, s.queue) == 0 && Stale(s) then 3 else 0)
  }

  // ------------------------------------------------------------ every step

  lemma SettleKeeps(s: State, ok: bool)
    requires Fine(s) && (ok ==> Met(s) || s.refused || s.stray)
    ensures Fine(Settle(s, ok)) && Settle(s, ok).pending == [] && Rank(Settle(s, ok)) == Rank(s)
  {
    var met, excused := Met(s), s.refused || s.stray;
    MarkedIds(s.pending, ok, met, excused);
    AnsweredIdsAppend(s.answered, Marked(s.pending, ok, met, excused));
  }

  lemma IssueSums(s: State, c: Command)
    ensures Sum(Own, Issue(s, c).queue) == Sum(Own, s.queue) + Own(c)
    ensures Sum(OwnStop, Issue(s, c).queue) == Sum(OwnStop, s.queue) + OwnStop(c)
    ensures Sum(Carries, Issue(s, c).queue) == Sum(Carries, s.queue) + Carries(c)
    ensures Sum(Cost, Issue(s, c).queue) == Sum(Cost, s.queue) + Cost(c)
    ensures Scans(Issue(s, c).queue) == Scans(s.queue) + (if IsScan(c) then [c] else [])
  {
    SumPushed(Own, s.queue, c);
    SumPushed(OwnStop, s.queue, c);
    SumPushed(Carries, s.queue, c);
    SumPushed(Cost, s.queue, c);
    ScansPushed(s.queue, c);
  }

  /** With nothing of pump's on the queue, little can be there. */
  lemma IdleWord(s: State)
    requires Chains(s) && Known(s) && !s.closed && !s.reconciling
    ensures var word := Scans(s.queue);
            || word == []
            || (word == [Disable(false)] && s.connecting)
            || (word == [SetParams(false, false)] && s.stray && !s.scanning)
            || (word == [Enable(false)] && s.stray && !s.scanning)
  {
    CountScans(s.queue);
  }

  lemma StopKeeps(s: State)
    requires Fine(s) && !s.reconciling && !s.connecting && !s.closed && s.phase == Ready && s.scanning
    ensures var t := Issue(s.(reconciling := true), Disable(true));
            Fine(t) && Rank(t) == Rank(s) + 3
  {
    OwnStopIsOwn(s.queue);
    IssueSums(s, Disable(true));
    if !s.refused {
      IdleWord(s);
    }
  }

  lemma StartKeeps(s: State)
    requires Fine(s) && !s.reconciling && !s.connecting && !s.closed && s.phase == Ready && !s.scanning
    requires Wants(s.users) && !s.force
    ensures var t := Apply(s);
            Fine(t) && t.reconciling && Rank(t) == Rank(s) + 2
  {
    OwnStopIsOwn(s.queue);
    IssueSums(s, SetParams(WantsActive(s.users), true));
    if !s.refused {
      IdleWord(s);
    }
  }

  lemma PumpKeeps(s: State)
    requires Fine(s) && !s.reconciling && (s.closed ==> s.phase == Failed)
    ensures Good(Pump(s))
    ensures Rank(Pump(s)) <= Rank(s) + (if !s.scanning then 2 else if Stale(s) then 3 else 0)
  {
    var t := s.(force := false);
    if s.closed || s.phase == Failed {
      SettleKeeps(s, false);
    } else if s.phase == Opening || s.connecting {
    } else if s.force && s.scanning {
      StopKeeps(t);
    } else if Wants(s.users) == s.scanning && (Wants(s.users) ==> WantsActive(s.users) == s.appliedActive) {
      if !s.refused {
        IdleWord(s);
      }
      SettleKeeps(t, true);
    } else if s.scanning {
      StopKeeps(t);
    } else {
      StartKeeps(t);
    }
  }

  lemma ReconcileKeeps(s: State, done: Completion)
    requires Fine(s) && (s.closed ==> s.phase == Failed)
    ensures Good(Reconcile(s, done)) && Rank(Reconcile(s, done)) <= Rank(s) + (if s.reconciling then 0 else 3)
  {
    var t := s.(pending := s.pending + Ids(done), asked := s.asked + Ids(done));
    if !s.reconciling {
      PumpKeeps(t);
    }
  }

  lemma ForceSafe(s: State)
    requires Fine(s)
    ensures Fine(s.(force := true)) && Rank(s.(force := true)) <= Rank(s) + (if s.reconciling then 3 else 0)
  {
  }

  lemma EndConnectKeeps(s: State)
    requires Fine(s.(connecting := false)) && (s.closed ==> s.phase == Failed)
    ensures Good(EndConnect(s)) && Rank(EndConnect(s)) <= Rank(s) + 3
  {
    ForceSafe(s.(connecting := false));
    ReconcileKeeps(s.(connecting := false, force := true), Nobody);
  }

  lemma FinishConnectKeeps(s: State, ok: bool)
    requires Fine(s.(initiating := false, connecting := false, restoreScan := false)) && !s.closed
    requires s.restoreScan && !s.refused ==> Scans(s.queue) == [] && !s.scanning
    requires s.restoreScan ==> s.phase == Ready
    ensures Good(FinishConnect(s, ok)) && Rank(FinishConnect(s, ok)) <= Rank(s.(initiating := false)) + 5
  {
    hide Good, EndConnect, Same, Sum;
    var t := s.(initiating := false, restoreScan := false);
    if s.restoreScan && !ok {
      RestoreKeeps(t);
    } else {
      EndConnectKeeps(t);
    }
  }

  lemma RestoreKeeps(s: State)
    requires Fine(s.(connecting := false)) && !s.closed && !s.initiating && !s.restoreScan && s.phase == Ready
    requires !s.refused ==> Scans(s.queue) == [] && !s.scanning
    ensures var t := EndConnect(Issue(s, SetParams(false, false)).(stray := true)); Good(t) && Rank(t) <= Rank(s) + 5
  {
    hide Good, EndConnect, Same, Sum;
    IssueSums(s, SetParams(false, false));
    EndConnectKeeps(Issue(s, SetParams(false, false)).(stray := true));
  }

  lemma NextKeeps(s: State, ok: bool)
    requires Fine(s.(reconciling := false)) && !s.closed && (ok || s.refused)
    ensures Good(Next(s, ok))
    ensures Rank(Next(s, ok)) <= Rank(s.(reconciling := false))
                                 + (if !ok then 0 else if !s.scanning then 2 else if Stale(s) then 3 else 0)
  {
    var t := s.(reconciling := false);
    if ok {
      PumpKeeps(t);
    } else {
      SettleKeeps(t, false);
    }
  }

  /** What follows the front of the queue, by what is there. */
  lemma AfterParams(s: State, active: bool, own: bool, tail: seq<Command>)
    requires Queued(s, [SetParams(active, own)] + tail)
    ensures own ==> tail == [] || (tail == [Disable(false)] && s.scanning) || (tail == [Enable(false)] && !s.scanning)
    ensures own ==> !s.stray && active == s.appliedActive
    ensures !own ==> !active && !s.scanning
    ensures !own ==> ((tail == [] && s.stray) || (tail == [SetParams(s.appliedActive, true)] && !s.stray))
  {
    var word := [SetParams(active, own)] + tail;
    assert word[1..] == tail && word[0] == SetParams(active, own);
  }

  lemma AfterEnable(s: State, own: bool, tail: seq<Command>)
    requires Queued(s, [Enable(own)] + tail)
    ensures own ==> !s.stray && ((tail == [] && s.radio.param == s.appliedActive)
                                 || (tail == [Disable(false)] && s.scanning))
    ensures !own ==> !s.scanning && ((tail == [] && s.stray && !s.radio.param)
                                     || (tail == [SetParams(s.appliedActive, true)] && !s.stray)
                                     || (tail == [Enable(true)] && !s.stray && s.radio.param == s.appliedActive))
  {
    var word := [Enable(own)] + tail;
    assert word[1..] == tail && word[0] == Enable(own);
  }

  lemma AfterDisable(s: State, own: bool, tail: seq<Command>)
    requires Queued(s, [Disable(own)] + tail)
    ensures tail == [] || (own && tail == [Disable(false)])
  {
    var word := [Disable(own)] + tail;
    assert word[1..] == tail && word[0] == Disable(own);
  }

  lemma ParamsKnown(s: State)
    requires Known(s) && Chains(s) && !s.closed && s.queue != [] && s.queue[0].SetParams?
             && Accepts(s.radio, s.queue[0])
    ensures Known(Issue(Rest(s, true), Enable(s.queue[0].own)))
  {
    hide Sum, Carries, Own, Bit, Chains;
    var c := s.queue[0];
    IssueSums(Rest(s, true), Enable(c.own));
    AfterParams(s, c.active, c.own, Scans(s.queue[1..]));
    CountScans(s.queue);
  }

  lemma EnableKnown(s: State)
    requires Known(s) && Chains(s) && !s.closed && s.queue != [] && s.queue[0].Enable?
    ensures Known(Rest(s, true).(scanning := true, reconciling := s.reconciling && !s.queue[0].own))
    ensures !s.reconciling ==> s.stray && !s.scanning
  {
    AfterEnable(s, s.queue[0].own, Scans(s.queue[1..]));
    CountScans(s.queue);
  }

  lemma DisableKnown(s: State)
    requires Known(s) && Chains(s) && !s.closed && s.queue != [] && s.queue[0].Disable?
    ensures Known(Rest(s, true).(scanning := false, stray := false, reconciling := s.reconciling && !s.queue[0].own))
  {
    AfterDisable(s, s.queue[0].own, Scans(s.queue[1..]));
    CountScans(s.queue);
  }

  /** What the front of the queue leaves behind. */
  lemma PopSums(s: State)
    requires s.queue != []
    ensures Sum(Own, s.queue) == Own(s.queue[0]) + Sum(Own, s.queue[1..])
    ensures Sum(OwnStop, s.queue) == OwnStop(s.queue[0]) + Sum(OwnStop, s.queue[1..])
    ensures Sum(OwnStop, s.queue[1..]) <= Sum(Own, s.queue[1..])
    ensures Sum(Carries, s.queue) == Carries(s.queue[0]) + Sum(Carries, s.queue[1..])
    ensures Sum(Cost, s.queue) == Cost(s.queue[0]) + Sum(Cost, s.queue[1..])
    ensures Scans(s.queue) == (if IsScan(s.queue[0]) then [s.queue[0]] else []) + Scans(s.queue[1..])
  {
    OwnStopIsOwn(s.queue[1..]);
  }

  lemma ParamsSums(s: State, accepted: bool)
    requires Chains(s) && !s.closed && s.queue != [] && s.queue[0].SetParams?
    ensures var c := s.queue[0];
            var t := Rest(s, accepted);
            var u := if accepted then Issue(t, Enable(c.own)) else t.(reconciling := s.reconciling && !c.own);
            Chains(u) && Rank(u) < Rank(s)
  {
    hide Sum, Scans, Obey;
    PopSums(s);
    IssueSums(Rest(s, accepted), Enable(s.queue[0].own));
  }

  lemma EnableSums(s: State, ok: bool)
    requires Chains(s) && !s.closed && s.queue != [] && s.queue[0].Enable?
    ensures var own := s.queue[0].own;
            var t := Rest(s, ok).(scanning := s.scanning || ok, reconciling := s.reconciling && !own);
            Chains(t) && Rank(t) + (if own && Stale(s) then 3 else 0) < Rank(s)
  {
    PopSums(s);
  }

  lemma DisableSums(s: State, ok: bool)
    requires Chains(s) && !s.closed && s.queue != [] && s.queue[0].Disable?
    ensures var own := s.queue[0].own;
            var t := Rest(s, ok).(scanning := false, stray := s.stray && !ok, reconciling := s.reconciling && !own);
            if own then Chains(t) && Rank(t) + 3 <= Rank(s)
            else Chains(t.(connecting := false, restoreScan := false)) && Rank(t) + 13 <= Rank(s)
  {
    PopSums(s);
  }

  /** The guarantees are kept and less is left to do. */
  predicate Onward(s: State, s': State) {
    Good(s') && Rank(s') < Rank(s)
  }

  lemma RespondParams(s: State, accepted: bool)
    requires Good(s) && s.queue != [] && s.queue[0].SetParams? && (accepted ==> Accepts(s.radio, s.queue[0]))
    ensures var r := Completed(Rest(s, accepted), s.queue[0], accepted); Onward(s, r)
  {
    ParamsSums(s, accepted);
    if accepted {
      if !s.refused {
        ParamsKnown(s);
      }
    } else if s.queue[0].own {
      NextKeeps(Rest(s, false), false);
    }
  }

  lemma RespondStarted(s: State, ok: bool)
    requires Good(s) && s.queue != [] && s.queue[0] == Enable(true)
    ensures var r := Next(Rest(s, ok).(scanning := s.scanning || ok), ok); Onward(s, r)
  {
    hide Fine, Chains, Known, Next, Sum, Wants, WantsActive;
    var t := Rest(s, ok).(scanning := s.scanning || ok);
    StartedFine(s, ok);
    EnableSums(s, ok);
    NextKeeps(t, ok);
  }

  lemma StartedFine(s: State, ok: bool)
    requires Good(s) && s.queue != [] && s.queue[0] == Enable(true)
    ensures Chains(s) && !s.closed && s.reconciling
    ensures Fine(Rest(s, ok).(scanning := s.scanning || ok, reconciling := false))
  {
    hide Obey;
    EnableSums(s, ok);
    if ok && !s.refused {
      EnableKnown(s);
    }
  }

  lemma RespondRestored(s: State, ok: bool)
    requires Good(s) && s.queue != [] && s.queue[0] == Enable(false)
    ensures var r := Rest(s, ok).(scanning := s.scanning || ok); Onward(s, r)
  {
    EnableSums(s, ok);
    if ok && !s.refused {
      EnableKnown(s);
    }
  }

  lemma RespondStopped(s: State, ok: bool)
    requires Good(s) && s.queue != [] && s.queue[0] == Disable(true)
    ensures var r := Next(Rest(s, ok).(scanning := false, stray := s.stray && !ok), ok); Onward(s, r)
  {
    DisableSums(s, ok);
    if ok && !s.refused {
      DisableKnown(s);
    }
    NextKeeps(Rest(s, ok).(scanning := false, stray := s.stray && !ok), ok);
  }

  lemma RespondCleared(s: State)
    requires Good(s) && s.queue != [] && s.queue[0] == Disable(false)
    ensures Onward(s, Issue(Rest(s, true).(scanning := false, stray := false), Create))
  {
    hide Sum, Scans, Obey, OwnStop;
    PopSums(s);
    DisableSums(s, true);
    IssueSums(Rest(s, true).(scanning := false, stray := false), Create);
    if !s.refused {
      DisableKnown(s);
    }
  }

  lemma AttemptEnds(s: State, t: State, ok: bool)
    requires Fine(t.(initiating := false, connecting := false, restoreScan := false)) && !t.closed
    requires t.restoreScan && !t.refused ==> Scans(t.queue) == [] && !t.scanning
    requires (t.restoreScan ==> t.phase == Ready) && Rank(t.(initiating := false)) + 5 < Rank(s)
    ensures Onward(s, FinishConnect(t, ok))
  {
    FinishConnectKeeps(t, ok);
  }

  lemma NotCleared(s: State)
    requires Good(s) && s.queue != [] && s.queue[0] == Disable(false)
    ensures Onward(s, FinishConnect(Rest(s, false).(scanning := false), false))
  {
    DisableSums(s, false);
    AttemptEnds(s, Rest(s, false).(scanning := false), false);
  }

  lemma CreateTaken(s: State)
    requires Good(s) && s.queue != [] && s.queue[0].Create?
    ensures Onward(s, Rest(s, true).(initiating := true))
  {
    hide Sum, Scans;
    PopSums(s);
  }

  /** Once the connection is being made, a scan that was stopped for it is off. */
  lemma NoStopLeft(s: State)
    requires Chains(s) && Known(s) && !s.closed && s.restoreScan
    requires s.initiating || s.deferred != [] || (s.queue != [] && s.queue[0].Create?)
    ensures Scans(s.queue) == [] && !s.scanning
  {
    CountScans(s.queue);
    if s.queue != [] && s.queue[0].Create? {
      CountScans(s.queue[1..]);
    }
  }

  lemma CreateRefused(s: State)
    requires Good(s) && s.queue != [] && s.queue[0].Create?
    ensures Onward(s, FinishConnect(Rest(s, false), false))
  {
    PopSums(s);
    if !s.refused && s.restoreScan {
      NoStopLeft(s);
    }
    AttemptEnds(s, Rest(s, false), false);
  }

  lemma RespondOther(s: State, ok: bool)
    requires Good(s) && s.queue != [] && s.queue[0].Other?
    ensures Good(Rest(s, ok)) && Rank(Rest(s, ok)) < Rank(s)
  {
    hide Sum, Scans, Known, Wants, WantsActive;
    PopSums(s);
    if Known(s) {
      OtherKnown(s, ok);
    }
  }

  lemma OtherKnown(s: State, ok: bool)
    requires Known(s) && s.queue != [] && s.queue[0].Other?
    ensures Known(Rest(s, ok))
  {
    hide Sum, Scans;
    PopSums(s);
    assert [] + Scans(s.queue[1..]) == Scans(s.queue[1..]);
  }

  lemma RespondAt(s: State, ok: bool, r: State)
    requires s.queue != [] && Onward(s, r)
    requires r == Completed(Rest(s, ok && Accepts(s.radio, s.queue[0])), s.queue[0], ok && Accepts(s.radio, s.queue[0]))
    ensures Onward(s, Respond(s, ok))
  {
    assert r == Respond(s, ok);
  }

  lemma ParamsKeep(s: State, ok: bool)
    requires Good(s) && s.queue != [] && s.queue[0].SetParams?
    ensures Onward(s, Respond(s, ok))
  {
    var accepted := ok && Accepts(s.radio, s.queue[0]);
    RespondParams(s, accepted);
    RespondAt(s, ok, Completed(Rest(s, accepted), s.queue[0], accepted));
  }

  lemma StartedKeeps(s: State, ok: bool)
    requires Good(s) && s.queue != [] && s.queue[0] == Enable(true)
    ensures Onward(s, Respond(s, ok))
  {
    RespondStarted(s, ok);
    RespondAt(s, ok, Next(Rest(s, ok).(scanning := s.scanning || ok), ok));
  }

  lemma RestoredKeeps(s: State, ok: bool)
    requires Good(s) && s.queue != [] && s.queue[0] == Enable(false)
    ensures Onward(s, Respond(s, ok))
  {
    RespondRestored(s, ok);
    RespondAt(s, ok, Rest(s, ok).(scanning := s.scanning || ok));
  }

  lemma StoppedKeeps(s: State, ok: bool)
    requires Good(s) && s.queue != [] && s.queue[0] == Disable(true)
    ensures Onward(s, Respond(s, ok))
  {
    RespondStopped(s, ok);
    RespondAt(s, ok, Next(Rest(s, ok).(scanning := false, stray := s.stray && !ok), ok));
  }

  lemma ClearedKeeps(s: State, ok: bool)
    requires Good(s) && s.queue != [] && s.queue[0] == Disable(false)
    ensures Onward(s, Respond(s, ok))
  {
    if ok {
      RespondCleared(s);
      RespondAt(s, ok, Issue(Rest(s, true).(scanning := false, stray := false), Create));
    } else {
      NotCleared(s);
      RespondAt(s, ok, FinishConnect(Rest(s, false).(scanning := false), false));
    }
  }

  lemma CreateKeeps(s: State, ok: bool)
    requires Good(s) && s.queue != [] && s.queue[0].Create?
    ensures Onward(s, Respond(s, ok))
  {
    if ok {
      CreateTaken(s);
      RespondAt(s, ok, Rest(s, true).(initiating := true));
    } else {
      CreateRefused(s);
      RespondAt(s, ok, FinishConnect(Rest(s, false), false));
    }
  }

  lemma OtherKeeps(s: State, ok: bool)
    requires Good(s) && s.queue != [] && s.queue[0].Other?
    ensures Onward(s, Respond(s, ok))
  {
    RespondOther(s, ok);
    RespondAt(s, ok, Rest(s, ok));
  }

  /** Every answer, expected or not, keeps the guarantees and leaves less to do. */
  lemma RespondKeeps(s: State, ok: bool)
    requires Good(s) && s.queue != []
    ensures Onward(s, Respond(s, ok))
  {
    match s.queue[0]
    case SetParams(_, _) => ParamsKeep(s, ok);
    case Enable(own) => if own { StartedKeeps(s, ok); } else { RestoredKeeps(s, ok); }
    case Disable(own) => if own { StoppedKeeps(s, ok); } else { ClearedKeeps(s, ok); }
    case Create => CreateKeeps(s, ok);
    case Other => OtherKeeps(s, ok);
  }

  lemma StoppedAlready(s: State)
    requires Good(s) && s.deferred != [] && !s.closed
    ensures s.deferred == [ConnectStopped] && Onward(s, Issue(s.(deferred := []), Create))
  {
    assert s.deferred[0] in s.deferred;
    IssueSums(s.(deferred := []), Create);
  }

  /** The loop's turn gets on with an attempt. */
  lemma TurnKeeps(s: State)
    requires Good(s) && s.deferred != []
    ensures Onward(s, Turn(s))
  {
    var t := s.(deferred := s.deferred[1..]);
    if !s.closed {
      StoppedAlready(s);
      assert Turn(s) == Issue(s.(deferred := []), Create);
    } else if s.deferred[0].ConnectRefused? {
      EndConnectKeeps(t);
    }
  }

  lemma ConnectedKeeps(s: State, ok: bool)
    requires Good(s) && s.initiating
    ensures Onward(s, Connected(s, ok))
  {
    if !s.refused && s.restoreScan {
      NoStopLeft(s);
    }
    AttemptEnds(s, s, ok);
  }

  lemma TimedOutKeeps(s: State)
    requires Good(s) && s.initiating
    ensures Onward(s, TimedOut(s))
  {
    var t := Issue(s, Other);
    IssueSums(s, Other);
    if !s.refused && s.restoreScan {
      NoStopLeft(s);
    }
    AttemptEnds(s, t, false);
  }

  // ----------------------------------------------------- requests and phases

  lemma StopForConnect(s: State)
    requires Good(s) && !s.connecting && !s.closed && s.scanning
    ensures var t := Issue(s.(connecting := true, restoreScan := true), Disable(false));
            Good(t) && Rank(t) == Rank(s) + 13
  {
    IssueSums(s.(connecting := true, restoreScan := true), Disable(false));
    CountScans(s.queue);
  }

  lemma StartConnectKeeps(s: State)
    requires Good(s) && !s.connecting
    ensures Good(StartConnect(s)) && Rank(StartConnect(s)) == Rank(s) + 13
  {
    if !s.closed && s.scanning {
      StopForConnect(s);
    }
  }

  lemma UsersKeep(s: State, users: seq<User>, done: Completion)
    requires Good(s)
    ensures var t := Reconcile(s.(users := users), done); Good(t) && Rank(t) <= Rank(s) + 3
  {
    hide Pump;
    ReconcileKeeps(s.(users := users), done);
  }

  lemma AddUserKeeps(s: State, id: nat)
    requires Good(s)
    ensures Good(AddUser(s, id)) && Rank(AddUser(s, id)) == Rank(s)
  {
    var users := AddUser(s, id).users;
    assert forall i :: 0 <= i < |s.users| ==> users[i] == s.users[i];
    assert Wants(users) == Wants(s.users) && WantsActive(users) == WantsActive(s.users);
  }

  lemma BecomeReadyKeeps(s: State, ok: bool)
    requires Good(s) && s.phase == Opening
    ensures Good(BecomeReady(s, ok)) && Rank(BecomeReady(s, ok)) <= Rank(s) + 3
  {
    var t := s.(phase := if ok then Ready else Failed);
    if ok {
      PumpKeeps(t);
    } else {
      SettleKeeps(t, false);
    }
  }

  predicate Books(s: State) {
    Ledger(s) && Honest(s)
  }

  lemma SettleBooks(s: State)
    requires Books(s)
    ensures Books(Settle(s, false))
  {
    var met, excused := Met(s), s.refused || s.stray;
    MarkedIds(s.pending, false, met, excused);
    AnsweredIdsAppend(s.answered, Marked(s.pending, false, met, excused));
  }

  lemma {:induction false} AbandonKeeps(s: State, queue: seq<Command>)
    requires Books(s) && s.closed && s.queue == [] && !s.initiating
    ensures Books(Abandon(s, queue))
    ensures Abandon(s, queue) == s.(reconciling := Abandon(s, queue).reconciling,
                                    pending := Abandon(s, queue).pending, answered := Abandon(s, queue).answered)
    ensures Sum(Own, queue) > 0 ==> !Abandon(s, queue).reconciling
    ensures !s.reconciling ==> !Abandon(s, queue).reconciling
    decreases |queue|
  {
    hide Same, Books, Next;
    if queue != [] {
      AbandonsOne(s);
      AbandonKeeps(if IsScan(queue[0]) && queue[0].own then Next(s, false) else s, queue[1..]);
    }
  }

  lemma AbandonsOne(s: State)
    requires Books(s) && s.closed && s.queue == [] && !s.initiating
    ensures Books(Next(s, false)) && !Next(s, false).reconciling
    ensures Next(s, false) == s.(reconciling := false, pending := [], answered := Next(s, false).answered)
  {
    hide Same;
    SettleBooks(s.(reconciling := false));
  }

  lemma LostAttempt(s: State)
    requires Books(s) && s.closed && s.queue == [] && !s.reconciling && !s.initiating
    ensures var t := EndConnect(s);
            Books(t) && !t.reconciling && t.queue == [] && !t.initiating && t.deferred == s.deferred
  {
    var t := s.(connecting := false, force := true);
    assert t == t.(pending := t.pending + Ids(Nobody), asked := t.asked + Ids(Nobody));
    SettleBooks(t);
  }

  /** Losing the port calls every completion that still waited. */
  lemma UnplugKeeps(s: State)
    requires Good(s) && !s.closed
    ensures Good(Unplug(s)) && Unplug(s).pending == [] && Rank(Unplug(s)) <= Rank(s)
  {
    var t := s.(closed := true, queue := [], scanning := false, initiating := false, restoreScan := false);
    AbandonKeeps(t, s.queue);
    var u := Abandon(t, s.queue);
    if s.connecting {
      LostAttempt(u);
    }
    var v := if s.connecting then EndConnect(u) else u;
    SettleBooks(v.(phase := Failed));
    SettleBooks((if s.phase == Opening then BecomeReady(v, false) else v).(phase := Failed));
  }

  // ------------------------------------------------------------ whole runs

  /** How much work an event can bring with it. The radio and the loop bring
      none: what they do is part of the work. */
  function Brings(e: Event): nat {
    match e
    case Start(_, _, _) => 3
    case Stop(_, _) => 3
    case Drop(_) => 3
    case Up(_) => 3
    case Connect => 13
    case _ => 0
  }

  predicate IsWork(e: Event) {
    e.Answered? || e.LoopTurn? || e.Outcome? || e.Timeout?
  }

  lemma WorkKeeps(s: State, e: Event)
    requires Good(s) && Possible(s, e) && IsWork(e)
    ensures Onward(s, Step(s, e))
  {
    match e
    case Answered(ok) => RespondKeeps(s, ok);
    case LoopTurn => TurnKeeps(s);
    case Outcome(ok) => ConnectedKeeps(s, ok);
    case Timeout => TimedOutKeeps(s);
  }

  lemma RequestKeeps(s: State, e: Event)
    requires Good(s) && Possible(s, e) && !IsWork(e)
    ensures Good(Step(s, e)) && Rank(Step(s, e)) <= Rank(s) + Brings(e)
  {
    hide Fine;
    match e
    case Add(id) => AddUserKeeps(s, id);
    case Start(user, active, done) => UsersKeep(s, s.users[user := s.users[user].(want := true, active := active)],
                                                done);
    case Stop(user, done) => UsersKeep(s, s.users[user := s.users[user].(want := false, active := false)], done);
    case Drop(user) => UsersKeep(s, s.users[..user] + s.users[user + 1..], Nobody);
    case Connect => StartConnectKeeps(s);
    case Up(ok) => BecomeReadyKeeps(s, ok);
    case Gone => UnplugKeeps(s);
  }

  /** Every event keeps the guarantees; the radio's leave less to do, and a
      request adds no more than its share. */
  lemma StepKeeps(s: State, e: Event)
    requires Good(s) && Possible(s, e)
    ensures Good(Step(s, e)) && Rank(Step(s, e)) + Bit(IsWork(e)) <= Rank(s) + Brings(e)
  {
    if IsWork(e) {
      WorkKeeps(s, e);
    } else {
      RequestKeeps(s, e);
    }
  }

  function CountWork(es: seq<Event>): nat {
    if es == [] then 0 else Bit(IsWork(es[0])) + CountWork(es[1..])
  }

  function AllBrings(es: seq<Event>): nat {
    if es == [] then 0 else Brings(es[0]) + AllBrings(es[1..])
  }

  /** Over any run from the start: the guarantees hold at its end, and the radio
      had no more to do than three events for each request and thirteen for each
      connection attempt. */
  lemma {:induction false} RunsKeep(s: State, es: seq<Event>)
    requires Good(s) && Runs(s, es)
    ensures Good(After(s, es)) && CountWork(es) + Rank(After(s, es)) <= Rank(s) + AllBrings(es)
    decreases |es|
  {
    if es != [] {
      StepKeeps(s, es[0]);
      RunsKeep(Step(s, es[0]), es[1..]);
    }
  }

  lemma StartGood()
    ensures Good(START) && Rank(START) == 0
  {
  }

  /** The controller is up, nothing is being changed and no attempt to connect
      is under way. */
  predicate Quiet(s: State) {
    s.phase == Ready && !s.closed && s.queue == [] && !s.reconciling && !s.connecting
  }

  /** The arbiter's promise. While every scan command was accepted, a quiet
      radio does what the users want exactly when its scan is not one the link
      restored by itself, or is one that somebody wants, passively. And a
      restored scan is the only scan that runs for nobody. */
  lemma QuietMeets(s: State)
    requires Good(s) && Quiet(s) && !s.refused
    ensures Met(s) <==> !s.stray || (Wants(s.users) && !WantsActive(s.users))
    ensures Wants(s.users) ==> s.radio.enabled && s.radio.active == (WantsActive(s.users) && !s.stray)
    ensures !Wants(s.users) ==> s.radio.enabled == s.stray
    ensures s.scanning == s.radio.enabled
  {
  }

  /** A restore begins with a failed attempt that had stopped the scan: the
      connection fails, times out, or is refused by the controller. */
  predicate BeginsRestore(s: State, e: Event) {
    && s.restoreScan
    && match e
       case Outcome(ok) => !ok
       case Timeout => true
       case Answered(ok) => s.queue != [] && s.queue[0] == Create && !ok
       case _ => false
  }

  /** Whom the radio is for once the event has happened. */
  function UsersAfter(s: State, e: Event): seq<User>
    requires Possible(s, e)
  {
    match e
    case Add(id) => s.users + [User(id, false, false)]
    case Start(user, active, _) => s.users[user := s.users[user].(want := true, active := active)]
    case Stop(user, _) => s.users[user := s.users[user].(want := false, active := false)]
    case Drop(user) => s.users[..user] + s.users[user + 1..]
    case _ => s.users
  }

  /** The event lets pump look at what is wanted at once: nothing is being
      changed, and no attempt is in the way any more. */
  predicate LetsPump(s: State, e: Event) {
    && !s.reconciling
    && match e
       case Start(_, _, _) => !s.connecting
       case Stop(_, _) => !s.connecting
       case Drop(_) => !s.connecting
       case Outcome(_) => true
       case Timeout => true
       case Answered(ok) => s.queue != [] && s.queue[0] == Create && !ok
       case _ => false
  }

  /** It ends when a scan is taken down, or when pump, finding none on and one
      wanted, puts one on itself. */
  predicate EndsRestored(s: State, e: Event)
    requires Possible(s, e)
  {
    || (e.Answered? && e.ok && s.queue[0].Disable?)
    || (LetsPump(s, e) && Wants(UsersAfter(s, e)) && !s.scanning)
  }

  ghost predicate StrayRight(s: State, e: Event)
    requires Possible(s, e)
  {
    Step(s, e).stray <==> (s.stray || BeginsRestore(s, e)) && !EndsRestored(s, e)
  }

  /** While the controller accepts every scan command, a scan is one that the link
      restored by itself exactly from the end of a failed attempt that had stopped
      it, whatever way it failed, until it is taken down or somebody's scan is put
      on: over every event there can be. */
  lemma StrayExactly(s: State, e: Event)
    requires Good(s) && Possible(s, e) && s.phase != Failed && !s.closed && !e.Gone? && !Step(s, e).refused
    ensures Step(s, e).stray <==> (s.stray || BeginsRestore(s, e)) && !EndsRestored(s, e)
  {
    hide Good, Step, BeginsRestore, EndsRestored;
    if s.refused {
      NeverForgiven(s, e);
    }
    if e.Start? || e.Stop? || e.Drop? {
      RequestStray(s, e);
    } else if e.Outcome? || e.Timeout? {
      EndingStray(s, e);
    } else if e.Answered? {
      AnswerStray(s, e.ok);
    } else {
      OtherwiseStray(s, e);
    }
  }

  lemma RequestStray(s: State, e: Event)
    requires Good(s) && Possible(s, e) && s.phase != Failed && !s.closed && !s.refused
    requires e.Start? || e.Stop? || e.Drop?
    ensures StrayRight(s, e)
  {
    hide Good, Reconcile, Wants, Same;
    UsersStray(s, UsersAfter(s, e), if e.Drop? then Nobody else e.done);
  }

  lemma EndingStray(s: State, e: Event)
    requires Good(s) && Possible(s, e) && s.phase != Failed && !s.closed && !s.refused
    requires e.Outcome? || e.Timeout?
    ensures StrayRight(s, e)
  {
    hide Good, FinishConnect, Wants, Same;
    if e.Outcome? {
      AttemptStray(s, s, e.ok);
    } else {
      AttemptStray(s, Issue(s, Other), false);
    }
  }

  lemma AnswerStray(s: State, ok: bool)
    requires Good(s) && s.queue != [] && s.phase != Failed && !s.closed && !s.refused
    requires !Step(s, Answered(ok)).refused
    ensures StrayRight(s, Answered(ok))
  {
    hide Good, Respond, BeginsRestore, EndsRestored;
    AnsweredStray(s, ok);
  }

  lemma OtherwiseStray(s: State, e: Event)
    requires Good(s) && Possible(s, e) && s.phase != Failed && !s.closed && !s.refused
    requires e.Add? || e.Connect? || e.Up? || e.LoopTurn?
    ensures StrayRight(s, e)
  {
    hide Good, Turn, BecomeReady, Wants, Same;
    match e
    case Up(ok) => UpStray(s, ok);
    case LoopTurn => TurnStray(s);
    case _ =>
  }

  /** What the radio and the loop do is nobody's request. */
  lemma WorkAsksNothing(s: State, e: Event)
    requires Possible(s, e) && IsWork(e)
    ensures var t := Step(s, e); t.users == s.users && t.asked == s.asked && t.phase == s.phase
  {
    hide FinishConnect, Respond, Turn;
    match e
    case Answered(ok) => assert Step(s, e) == Respond(s, ok);
    case LoopTurn => assert Step(s, e) == Turn(s);
    case Outcome(ok) => assert Step(s, e) == FinishConnect(s, ok);
    case Timeout => assert Step(s, e) == FinishConnect(Issue(s, Other), false);
  }

  /** A refusal is never forgotten. */
  lemma NeverForgiven(s: State, e: Event)
    requires Possible(s, e) && !e.Gone? && s.refused
    ensures Step(s, e).refused
  {
    hide Step;
    if e.Answered? || e.LoopTurn? || e.Outcome? || e.Timeout? || e.Up? {
      WorkForgivesNothing(s, e);
    } else {
      RequestForgivesNothing(s, e);
    }
  }

  lemma WorkForgivesNothing(s: State, e: Event)
    requires Possible(s, e) && s.refused && (e.Answered? || e.LoopTurn? || e.Outcome? || e.Timeout? || e.Up?)
    ensures Step(s, e).refused
  {
    hide FinishConnect, Respond, Turn, Pump;
  }

  lemma RequestForgivesNothing(s: State, e: Event)
    requires Possible(s, e) && s.refused && (e.Add? || e.Start? || e.Stop? || e.Drop? || e.Connect?)
    ensures Step(s, e).refused
  {
    hide Reconcile;
  }

  /** So a connection that ends starts one exactly when it failed, had stopped the
      scan, and no user wants a scan any more. */
  lemma StrayBegins(s: State, ok: bool)
    requires Good(s) && s.initiating && s.phase == Ready && !s.closed && !s.refused && !s.stray
    ensures Connected(s, ok).stray <==> !ok && s.restoreScan && !Wants(s.users)
  {
    hide Good, FinishConnect, Chains, Known;
    StrayExactly(s, Outcome(ok));
    if s.restoreScan {
      GoodIsFine(s);
      NoStopLeft(s);
      NothingOwn(s);
    }
  }

  lemma NothingOwn(s: State)
    requires Chains(s) && !s.closed && Scans(s.queue) == []
    ensures !s.reconciling
  {
    CountScans(s.queue);
  }

  lemma NotYetStray(s: State)
    requires Good(s) && s.phase == Opening && !s.closed && !s.refused
    ensures !s.stray && !s.scanning && !s.reconciling && !s.restoreScan
  {
  }

  lemma UpStray(s: State, ok: bool)
    requires Good(s) && s.phase == Opening && !s.closed && !s.refused
    ensures !BecomeReady(s, ok).stray && !s.stray
  {
    NotYetStray(s);
  }

  lemma TurnStray(s: State)
    requires Good(s) && s.deferred != [] && !s.closed
    ensures Turn(s).stray == s.stray
  {
    assert s.deferred[0] in s.deferred;
  }

  lemma NoForce(s: State)
    requires Good(s) && s.phase == Ready && !s.refused && !s.closed && !s.reconciling && !s.connecting
    ensures !s.force
  {
  }

  /** What a change of the users does. */
  lemma UsersStray(s: State, users: seq<User>, done: Completion)
    requires Good(s) && s.phase != Failed && !s.closed && !s.refused
    ensures Reconcile(s.(users := users), done).stray <==>
              s.stray && !(!s.reconciling && !s.connecting && Wants(users) && !s.scanning)
  {
    hide Good, Settle;
    if s.phase == Opening {
      NotYetStray(s);
    } else if !s.reconciling && !s.connecting {
      NoForce(s);
    }
    SettleKeepsStray(s.(users := users, force := false, pending := s.pending + Ids(done),
                        asked := s.asked + Ids(done)), true);
  }

  lemma SettleKeepsStray(s: State, ok: bool)
    ensures Settle(s, ok).stray == s.stray
  {
  }

  /** What the end of an attempt does: `t` is `s` as the end of the attempt finds
      it. */
  lemma AttemptStray(s: State, t: State, ok: bool)
    requires Good(s) && s.phase != Failed && !s.closed && !s.refused
    requires s.initiating || (s.queue != [] && s.queue[0] == Create)
    requires t.restoreScan == s.restoreScan && t.users == s.users && t.phase == s.phase && !t.closed
    requires t.stray == s.stray && t.scanning == s.scanning && t.reconciling == s.reconciling
    ensures FinishConnect(t, ok).stray <==>
              (s.stray || (s.restoreScan && !ok)) && !(!s.reconciling && Wants(s.users) && !s.scanning)
  {
    hide Good, EndConnect, Known, Chains;
    if s.restoreScan {
      GoodIsFine(s);
      NoStopLeft(s);
    }
    if s.phase == Opening {
      NotYetStray(s);
    }
    var u := t.(initiating := false, restoreScan := false);
    EndStray(if t.restoreScan && !ok then Issue(u.(stray := true), SetParams(false, false)) else u);
  }

  lemma GoodIsFine(s: State)
    requires Good(s) && !s.closed && !s.refused
    ensures Chains(s) && Known(s)
  {
  }

  lemma EndStray(s: State)
    requires s.phase != Failed && !s.closed
    requires s.phase == Opening ==> !s.stray
    ensures EndConnect(s).stray <==> s.stray && !(!s.reconciling && Wants(s.users) && !s.scanning)
  {
    hide Settle;
    SettleKeepsStray(s.(connecting := false, force := false, pending := s.pending + [], asked := s.asked + []), true);
  }

  /** What an answer does. */
  lemma AnsweredStray(s: State, ok: bool)
    requires Good(s) && s.queue != [] && s.phase != Failed && !s.closed && !s.refused && !Respond(s, ok).refused
    ensures Respond(s, ok).stray <==> (s.stray || BeginsRestore(s, Answered(ok))) && !EndsRestored(s, Answered(ok))
  {
    hide Good, Respond, BeginsRestore, EndsRestored;
    match s.queue[0]
    case SetParams(_, _) => ParamsStray(s, ok);
    case Enable(_) => EnableStray(s, ok);
    case Disable(_) => DisableStray(s, ok);
    case Create => CreateStray(s, ok);
    case Other => OtherStray(s, ok);
  }

  lemma ParamsStray(s: State, ok: bool)
    requires s.queue != [] && s.queue[0].SetParams? && !Respond(s, ok).refused
    ensures Respond(s, ok).stray == s.stray
    ensures !BeginsRestore(s, Answered(ok)) && !EndsRestored(s, Answered(ok))
  {
    hide Next, Wants, Obey, Same;
    ScanAccepted(s, ok);
  }

  lemma EnableStray(s: State, ok: bool)
    requires s.queue != [] && s.queue[0].Enable? && !Respond(s, ok).refused
    ensures Respond(s, ok).stray == s.stray
    ensures !BeginsRestore(s, Answered(ok)) && !EndsRestored(s, Answered(ok))
  {
    hide Next, Wants, Obey, Same, Accepts;
    ScanAccepted(s, ok);
    NextWhileScanning(Rest(s, true).(scanning := true));
  }

  lemma DisableStray(s: State, ok: bool)
    requires s.queue != [] && s.queue[0].Disable? && !Respond(s, ok).refused
    ensures !Respond(s, ok).stray && EndsRestored(s, Answered(ok))
  {
    hide Next, Wants, Obey, Same, Accepts, FinishConnect;
    ScanAccepted(s, ok);
    NextNotStray(Rest(s, true).(scanning := false, stray := false));
  }

  lemma OtherStray(s: State, ok: bool)
    requires s.queue != [] && s.queue[0] == Other
    ensures Respond(s, ok).stray == s.stray
    ensures !BeginsRestore(s, Answered(ok)) && !EndsRestored(s, Answered(ok))
  {
    hide Obey, Same, Accepts;
  }

  lemma CreateStray(s: State, ok: bool)
    requires Good(s) && s.queue != [] && s.queue[0] == Create && s.phase != Failed && !s.closed && !s.refused
    ensures Respond(s, ok).stray <==> (s.stray || BeginsRestore(s, Answered(ok))) && !EndsRestored(s, Answered(ok))
  {
    hide Good, FinishConnect, Wants, Next;
    if !ok {
      AttemptStray(s, Rest(s, false), false);
    }
  }

  /** Were it not accepted, that would be on record. */
  lemma ScanAccepted(s: State, ok: bool)
    requires s.queue != [] && IsScan(s.queue[0]) && !Respond(s, ok).refused
    ensures ok && Accepts(s.radio, s.queue[0])
  {
    hide Respond;
  }

  lemma NextWhileScanning(s: State)
    requires s.scanning
    ensures Next(s, true).stray == s.stray
  {
    hide Settle, Wants;
    SettleKeepsStray(s.(reconciling := false), true);
    SettleKeepsStray(s.(reconciling := false, force := false), true);
    SettleKeepsStray(s.(reconciling := false), false);
  }

  lemma NextNotStray(s: State)
    requires !s.stray
    ensures !Next(s, true).stray
  {
    hide Settle, Wants;
    SettleKeepsStray(s.(reconciling := false), false);
    SettleKeepsStray(s.(reconciling := false, force := false), true);
  }

  /** With nothing left for the radio to do, nobody is left waiting. */
  lemma NothingStranded(s: State)
    requires Good(s) && s.phase != Opening && s.queue == [] && s.deferred == [] && !s.initiating
    ensures s.pending == [] && AnsweredIds(s.answered) == s.asked && (!s.closed ==> !s.connecting && !s.reconciling)
  {
  }

  ghost predicate Leads(s: State, s': State) {
    exists es :: Runs(s, es) && After(s, es) == s'
  }

  lemma {:induction false} RunsOn(s: State, es: seq<Event>, e: Event)
    requires Runs(s, es) && Possible(After(s, es), e)
    ensures Runs(s, es + [e]) && After(s, es + [e]) == Step(After(s, es), e)
    decreases |es|
  {
    if es == [] {
      assert es + [e] == [e];
      assert Runs(Step(s, e), [e][1..]);
    } else {
      assert (es + [e])[0] == es[0] && (es + [e])[1..] == es[1..] + [e];
      RunsOn(Step(s, es[0]), es[1..], e);
    }
  }

  lemma LeadsOn(s: State, s': State, e: Event)
    requires Leads(s, s') && Possible(s', e)
    ensures Leads(s, Step(s', e))
  {
    var es :| Runs(s, es) && After(s, es) == s';
    RunsOn(s, es, e);
  }

  /** The user wanting its active scan, and the same user not wanting it. */
  function On(user: nat): seq<User> {
    [User(user, true, true)]
  }

  function Off(user: nat): seq<User> {
    [User(user, false, false)]
  }

  lemma OnOff(user: nat)
    ensures Wants(On(user)) && WantsActive(On(user)) && !Wants(Off(user)) && !WantsActive(Off(user))
    ensures On(user)[0 := User(user, false, false)] == Off(user) && Off(user)[0 := User(user, true, true)] == On(user)
  {
    assert On(user)[0].want && On(user)[0].active;
  }

  lemma MarkedOne(id: nat, ok: bool, met: bool, excused: bool)
    ensures Marked([id], ok, met, excused) == [Answer(id, ok, met, excused)]
  {
    assert [id][1..] == [];
  }

  lemma FirstUserReady(user: nat)
    ensures Leads(START, START.(users := Off(user), phase := Ready))
  {
    OnOff(user);
    assert Runs(START, []) && After(START, []) == START;
    LeadsOn(START, START, Add(user));
    LeadsOn(START, START.(users := Off(user)), Up(true));
  }

  /** One user scanning actively, told so. */
  function Scanning(user: nat, id: nat): State {
    START.(users := On(user), phase := Ready, appliedActive := true, scanning := true, radio := Radio(true, true, true),
           asked := [id], answered := [Answer(id, true, true, false)])
  }

  lemma FirstUserScans(user: nat, id: nat)
    ensures Leads(START, Scanning(user, id))
  {
    OnOff(user);
    MarkedOne(id, true, true, false);
    FirstUserReady(user);
    var s := START.(users := Off(user), phase := Ready);
    LeadsOn(START, s, Start(0, true, Caller(id)));
    var t := s.(users := On(user), appliedActive := true, reconciling := true, pending := [id], asked := [id]);
    assert Step(s, Start(0, true, Caller(id))) == t.(queue := [SetParams(true, true)]);
    LeadsOn(START, t.(queue := [SetParams(true, true)]), Answered(true));
    var u := t.(queue := [Enable(true)], radio := Radio(false, true, false));
    assert Step(t.(queue := [SetParams(true, true)]), Answered(true)) == u;
    LeadsOn(START, u, Answered(true));
    assert Step(u, Answered(true)) == Scanning(user, id);
  }

  /** It connects, stops scanning meanwhile, and the attempt fails. */
  function Restored(user: nat, id: nat, id': nat): State {
    Scanning(user, id).(users := Off(user), radio := Radio(true, false, false), stray := true,
                        asked := [id, id'], answered := [Answer(id, true, true, false), Answer(id', true, true, true)])
  }

  lemma AttemptWithdrawn(user: nat, id: nat, id': nat)
    ensures Leads(START, Scanning(user, id).(users := Off(user), connecting := true, restoreScan := true,
                                             initiating := true,
                                             scanning := false, radio := Radio(false, true, true),
                                             asked := [id, id'], pending := [id']))
  {
    hide Runs, After;
    OnOff(user);
    FirstUserScans(user, id);
    var s := Scanning(user, id);
    LeadsOn(START, s, Connect);
    var t := s.(connecting := true, restoreScan := true, queue := [Disable(false)]);
    assert Step(s, Connect) == t;
    LeadsOn(START, t, Answered(true));
    var u := t.(scanning := false, radio := Radio(false, true, true), queue := [Create]);
    assert Step(t, Answered(true)) == u;
    LeadsOn(START, u, Stop(0, Caller(id')));
    var v := u.(users := Off(user), asked := [id, id'], pending := [id']);
    assert Step(u, Stop(0, Caller(id'))) == v;
    LeadsOn(START, v, Answered(true));
    assert Step(v, Answered(true)) == v.(queue := [], initiating := true);
  }

  lemma ScanRestored(user: nat, id: nat, id': nat)
    ensures Leads(START, Restored(user, id, id'))
  {
    OnOff(user);
    MarkedOne(id', true, true, true);
    AttemptWithdrawn(user, id, id');
    var s := Scanning(user, id).(users := Off(user), connecting := true, restoreScan := true, initiating := true,
                                 scanning := false, radio := Radio(false, true, true), asked := [id, id'],
                                 pending := [id']);
    LeadsOn(START, s, Outcome(false));
    var t := s.(connecting := false, restoreScan := false, initiating := false, queue := [SetParams(false, false)],
                stray := true,
                pending := [], answered := [Answer(id, true, true, false), Answer(id', true, true, true)]);
    assert Step(s, Outcome(false)) == t;
    LeadsOn(START, t, Answered(true));
    var u := t.(queue := [Enable(false)], radio := Radio(false, false, true));
    assert Step(t, Answered(true)) == u;
    LeadsOn(START, u, Answered(true));
    assert Step(u, Answered(true)) == Restored(user, id, id');
  }

  /** So a run exists in which every command is accepted and yet a user is told
      at once that its active scan is on while the radio scans passively, and
      nothing is queued to change that. */
  lemma ToldActiveButPassive(user: nat, id: nat, id': nat, id'': nat)
    ensures Leads(START, Restored(user, id, id'))
    ensures var s := Step(Restored(user, id, id'), Start(0, true, Caller(id'')));
            && Quiet(s) && !s.refused && WantsActive(s.users) && s.radio.enabled && !s.radio.active
            && Answer(id'', true, false, true) in s.answered
  {
    OnOff(user);
    ScanRestored(user, id, id');
    var s := Step(Restored(user, id, id'), Start(0, true, Caller(id'')));
    assert s.answered[2] == Answer(id'', true, false, true);
  }
}
