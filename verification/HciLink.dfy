/** The host's queues and completions (src/hcilink.cc): one command in flight,
    one ATT request in flight per connection, and a promise to every caller
    that its completion is called exactly once, even though a completion may
    call back into the link it came from.

    A completion is modelled by what it does when it runs: a list of further
    calls, each with completions of its own. Any run of the program is such a
    tree, and everything here is proved for every tree. */
module HciLink {

  datatype Handler = Handler(id: nat, body: seq<Call>)

  datatype Maybe = None | Some(handler: Handler)

  /** The calls a program may make on a Link, at top level or from a completion. */
  datatype Call =
    | Command(opcode: nat, done: Maybe)
    | Sequence(steps: seq<nat>, done: Maybe)
    | StartScan(done: Maybe)
    | StopScan(done: Maybe)
    | AttRequest(conn: nat, pdu: seq<nat>, done: Maybe)
    | Connect(done: Maybe)
    | StartEncryption(conn: nat, done: Maybe)
    | Disconnect(conn: nat)

  // The opcodes the link issues on its own account.
  const DISCONNECT := 0x0406
  const LE_SET_SCAN_PARAMS := 0x200b
  const LE_SET_SCAN_ENABLE := 0x200c
  const LE_CREATE_CONNECTION := 0x200d
  const LE_CREATE_CONNECTION_CANCEL := 0x200e
  const LE_START_ENCRYPTION := 0x2019

  /** The commands of init_step and init_address, in order. */
  const INIT_OPCODES := [0x0c03, 0x0c01, 0x2001, 0x1001, 0x2002, 0x1009, 0x2018, 0x2005]

  /** What happens at the end of a command sequence. */
  datatype After =
    | SequenceDone(done: Maybe)
    | ScanStarted(done: Maybe)
    | ScanStopped(done: Maybe)
    | ConnectStopped

  /** What happens when a command is answered. */
  datatype Done =
    | Nothing
    | User(handler: Handler)
    | Steps(rest: seq<nat>, after: After)
    | ConnectSent
    | EncryptSent
    | Init(step: nat)

  datatype Queued = Queued(opcode: nat, done: Done)

  datatype Request = Request(opcode: nat, done: Maybe)

  /** One connection's ATT channel. */
  datatype Channel = Channel(inFlight: bool, opcode: nat, done: Maybe, timer: nat, queue: seq<Request>)

  /** What a link has done, in order: a command is asked for, reaches the wire
      and is over; a request is made on a connection, taken up and settled. */
  datatype Deed =
    | Asked(opcode: nat)
    | Sent(opcode: nat)
    | Answered
    | Made(conn: nat, opcode: nat)
    | Tried(conn: nat, opcode: nat)
    | Settled(conn: nat)
    | Dropped(conn: nat)
    | ConnectOver(ok: bool)
    | EncryptOver
    | Broke

  /** Work put off to the next turn of the loop: a refusal, or the answer of a
      stop_scan that had nothing to stop. */
  datatype Deferred = Refused(done: Done) | Stopped(after: After)

  datatype Timer = CommandTimeout(opcode: nat) | AttTimeout(conn: nat, opcode: nat) | ConnectTimeout | EncryptTimeout

  /** No timer. */
  const NO_TIMER := 0

  // ------------------------------------------------------- sums over queues

  function Sum<T>(f: T -> nat, xs: seq<T>): nat
  {
    if xs == [] then 0 else f(xs[0]) + Sum(f, xs[1..])
  }

  lemma {:induction false} SumAppend<T>(f: T -> nat, a: seq<T>, b: seq<T>)
    ensures Sum(f, a + b) == Sum(f, a) + Sum(f, b)
  {
    if a == [] {
      assert a + b == b;
    } else {
      assert (a + b)[1..] == a[1..] + b;
      SumAppend(f, a[1..], b);
    }
  }

  lemma SumOne<T>(f: T -> nat, x: T)
    ensures Sum(f, [x]) == f(x)
  {
    assert [x][1..] == [];
  }

  lemma SumPush<T>(f: T -> nat, xs: seq<T>, x: T)
    ensures Sum(f, xs + [x]) == Sum(f, xs) + f(x)
  {
    SumAppend(f, xs, [x]);
    SumOne(f, x);
  }

  // -------------------------------------------------- how much is still owed

  /** How often a watched completion is held somewhere. */
  function MaybeCount(watch: nat, m: Maybe): nat {
    if m.Some? && m.handler.id == watch then 1 else 0
  }

  /** How often a call, or a list of calls, hands the watched completion over. */
  function CallCount(watch: nat, c: Call): nat {
    if c.Disconnect? then 0 else MaybeCount(watch, c.done)
  }

  function CallsCount(watch: nat, calls: seq<Call>): nat {
    if calls == [] then 0 else CallCount(watch, calls[0]) + CallsCount(watch, calls[1..])
  }

  function AfterCount(watch: nat, a: After): nat {
    match a
    case ConnectStopped => 0
    case _ => MaybeCount(watch, a.done)
  }

  function DoneCount(watch: nat, d: Done): nat {
    match d
    case User(h) => MaybeCount(watch, Some(h))
    case Steps(_, after) => AfterCount(watch, after)
    case _ => 0
  }

  function QueuedCount(watch: nat): Queued -> nat {
    (q: Queued) => DoneCount(watch, q.done)
  }

  function RequestCount(watch: nat): Request -> nat {
    (r: Request) => MaybeCount(watch, r.done)
  }

  function ChannelCount(watch: nat): Channel -> nat {
    (c: Channel) => MaybeCount(watch, c.done) + Sum(RequestCount(watch), c.queue)
  }

  function DeferredCount(watch: nat): Deferred -> nat {
    (d: Deferred) =>
      match d
      case Refused(done) => DoneCount(watch, done)
      case Stopped(after) => AfterCount(watch, after)
  }

  // ------------------------------------------- how much can still happen

  /** A bound on the calls that running a completion can lead to. */
  function HandlerWeight(h: Handler): nat {
    1 + CallsWeight(h.body)
  }

  function CallsWeight(calls: seq<Call>): nat {
    if calls == [] then 0 else CallWeight(calls[0]) + CallsWeight(calls[1..])
  }

  function CallWeight(c: Call): (w: nat)
    ensures w > 0
  {
    match c
    case Disconnect(_) => 2
    case Sequence(steps, done) => 4 + 2 * |steps| + MaybeWeight(done)
    case _ => 20 + MaybeWeight(c.done)
  }

  function MaybeWeight(m: Maybe): nat {
    match m case None => 0 case Some(h) => HandlerWeight(h)
  }

  function AfterWeight(a: After): nat {
    match a
    case ConnectStopped => 4
    case _ => 1 + MaybeWeight(a.done)
  }

  function DoneWeight(d: Done): nat {
    match d
    case Nothing => 0
    case User(h) => HandlerWeight(h)
    case Steps(rest, after) => 1 + 2 * |rest| + AfterWeight(after)
    case Init(step) => if step < 8 then 1 + 2 * (8 - step) else 1
    case _ => 1
  }

  function QueuedWeight(): Queued -> nat {
    (q: Queued) => 1 + DoneWeight(q.done)
  }

  function RequestWeight(): Request -> nat {
    (r: Request) => 2 + MaybeWeight(r.done)
  }

  function ChannelWeight(): Channel -> nat {
    (c: Channel) => (if c.inFlight then 1 else 0) + MaybeWeight(c.done) + Sum(RequestWeight(), c.queue)
  }

  function DeferredWeight(): Deferred -> nat {
    (d: Deferred) => 1 + match d case Refused(done) => DoneWeight(done) case Stopped(after) => AfterWeight(after)
  }

  // --------------------------------------- what keeps an attempt from hanging

  /** The three attempts that take several steps. */
  datatype Attempt = ToConnect | ToEncrypt | ToStart

  /** Whether a continuation is one that carries an attempt on. */
  function AfterWork(a: Attempt, after: After): nat {
    if a == ToConnect && after == ConnectStopped then 1 else 0
  }

  function DoneWork(a: Attempt, d: Done): nat {
    match d
    case Steps(_, after) => AfterWork(a, after)
    case ConnectSent => if a == ToConnect then 1 else 0
    case EncryptSent => if a == ToEncrypt then 1 else 0
    case Init(_) => if a == ToStart then 1 else 0
    case _ => 0
  }

  function QueuedWork(a: Attempt): Queued -> nat {
    (q: Queued) => DoneWork(a, q.done)
  }

  function DeferredWork(a: Attempt): Deferred -> nat {
    (d: Deferred) => match d case Refused(done) => DoneWork(a, done) case Stopped(after) => AfterWork(a, after)
  }

  // ------------------------------------------------------------- channels

  function Opcodes(q: seq<Queued>): (r: seq<nat>)
    ensures |r| == |q|
  {
    if q == [] then [] else [q[0].opcode] + Opcodes(q[1..])
  }

  lemma {:induction false} OpcodesPush(q: seq<Queued>, x: Queued)
    ensures Opcodes(q + [x]) == Opcodes(q) + [x.opcode]
  {
    if q == [] {
      assert q + [x] == [x];
    } else {
      assert (q + [x])[1..] == q[1..] + [x];
      OpcodesPush(q[1..], x);
    }
  }

  function RequestOpcodes(q: seq<Request>): seq<nat>
  {
    if q == [] then [] else [q[0].opcode] + RequestOpcodes(q[1..])
  }

  lemma {:induction false} RequestOpcodesPush(q: seq<Request>, x: Request)
    ensures RequestOpcodes(q + [x]) == RequestOpcodes(q) + [x.opcode]
  {
    if q == [] {
      assert q + [x] == [x];
    } else {
      assert (q + [x])[1..] == q[1..] + [x];
      RequestOpcodesPush(q[1..], x);
    }
  }

  ghost function SumMap<K, T>(f: T -> nat, m: map<K, T>): nat
    decreases |m|
  {
    if m == map[] then 0
    else
      var k :| k in m;
      f(m[k]) + SumMap(f, m - {k})
  }

  /** The sum does not depend on the order it is taken in. */
  lemma {:induction false} SumMapAt<K, T>(f: T -> nat, m: map<K, T>, k: K)
    requires k in m
    ensures SumMap(f, m) == f(m[k]) + SumMap(f, m - {k})
    decreases |m|
  {
    var j :| j in m && SumMap(f, m) == f(m[j]) + SumMap(f, m - {j});
    if j != k {
      SumMapAt(f, m - {j}, k);
      SumMapAt(f, m - {k}, j);
      assert m - {j} - {k} == m - {k} - {j};
    }
  }

  lemma SumMapUpdate<K, T>(f: T -> nat, m: map<K, T>, k: K, x: T)
    ensures SumMap(f, m[k := x]) == f(x) + SumMap(f, m - {k})
  {
    SumMapAt(f, m[k := x], k);
    assert m[k := x] - {k} == m - {k};
  }

  // ---------------------------------------------------- what the log tells

  /** The commands asked for, those that reached the wire, and how many of these
      are over. */
  datatype Orders = Orders(asked: seq<nat>, sent: seq<nat>, over: nat)

  function NextOrders(o: Orders, d: Deed): Orders {
    match d
    case Asked(opcode) => o.(asked := o.asked + [opcode])
    case Sent(opcode) => o.(sent := o.sent + [opcode])
    case Answered => o.(over := o.over + 1)
    case _ => o
  }

  function OrdersOf(log: seq<Deed>): Orders
  {
    if log == [] then Orders([], [], 0) else NextOrders(OrdersOf(log[..|log| - 1]), log[|log| - 1])
  }

  /** The requests made on a connection since it came up, those taken up so far,
      and how many of these are over. */
  datatype Story = Story(made: seq<nat>, tried: seq<nat>, over: nat)

  const NO_STORY := Story([], [], 0)

  function NextStory(y: Story, d: Deed, conn: nat): Story {
    if d == Broke || d == Dropped(conn) then NO_STORY
    else if d.Made? && d.conn == conn then y.(made := y.made + [d.opcode])
    else if d.Tried? && d.conn == conn then y.(tried := y.tried + [d.opcode])
    else if d == Settled(conn) then y.(over := y.over + 1)
    else y
  }

  function StoryOf(log: seq<Deed>, conn: nat): Story
  {
    if log == [] then NO_STORY else NextStory(StoryOf(log[..|log| - 1], conn), log[|log| - 1], conn)
  }

  lemma LogPush(log: seq<Deed>, d: Deed)
    ensures OrdersOf(log + [d]) == NextOrders(OrdersOf(log), d)
    ensures forall c {:trigger StoryOf(log + [d], c)} :: StoryOf(log + [d], c) == NextStory(StoryOf(log, c), d, c)
  {
    hide NextOrders, NextStory;
    assert (log + [d])[..|log + [d]| - 1] == log;
  }

  /** Requests are taken up in the order they were made, one at a time. */
  ghost predicate InOrder(c: Channel, y: Story) {
    && y.made == y.tried + RequestOpcodes(c.queue)
    && |y.tried| == y.over + (if c.inFlight then 1 else 0)
    && (!c.inFlight ==> c.done == None && c.timer == NO_TIMER)
  }

  /** Which of the usual guarantees a call made from inside a completion may
      not yet rely on: the command queue or a channel whose completion is
      running is not pumped until it returns, one whose timer has just fired is
      not armed, and an attempt in the caller's hands is carried on there. */
  datatype Context = Context(cmdBusy: bool, attBusy: set<nat>, cmdBare: bool, attBare: set<nat>, hands: set<Attempt>)

  const IDLE := Context(false, {}, false, {}, {})

  /** Everything a Link remembers. The last four fields are its history: how
      often the watched completion was promised and called, and what was done. */
  datatype State = State(
    closed: bool,
    cmdQueue: seq<Queued>, cmdInFlight: bool, cmdOpcode: nat, cmdDone: Done, cmdTimer: nat,
    conns: set<nat>, att: map<nat, Channel>,
    scanning: bool,
    connectPending: bool, connectRestoreScan: bool, connectDone: Maybe, connectTimer: nat,
    encryptPending: bool, encryptDone: Maybe, encryptTimer: nat,
    onReady: Maybe,
    deferred: seq<Deferred>,
    timers: map<nat, Timer>, nextTimer: nat,
    watch: nat, issued: nat, called: nat, log: seq<Deed>)

  // -------------------------------------------------------------- measures

  /** How often the watched completion is still held by the link. */
  ghost function Held(s: State): nat
  {
    Sum(QueuedCount(s.watch), s.cmdQueue) + DoneCount(s.watch, s.cmdDone)
    + SumMap(ChannelCount(s.watch), s.att)
    + MaybeCount(s.watch, s.connectDone) + MaybeCount(s.watch, s.encryptDone) + MaybeCount(s.watch, s.onReady)
    + Sum(DeferredCount(s.watch), s.deferred)
  }

  /** How far what was called and what is held exceed what was promised: zero,
      except while a completion is in the hands of a method about to call it. */
  ghost function Slack(s: State): int
  {
    Held(s) + s.called - s.issued
  }

  /** A bound on what can still happen. */
  ghost function Total(s: State): nat
  {
    Sum(QueuedWeight(), s.cmdQueue) + (if s.cmdInFlight then 1 + DoneWeight(s.cmdDone) else 0)
    + SumMap(ChannelWeight(), s.att)
    + (if s.connectPending then 10 else 0) + (if s.encryptPending then 3 else 0)
    + MaybeWeight(s.connectDone) + MaybeWeight(s.encryptDone) + MaybeWeight(s.onReady)
    + Sum(DeferredWeight(), s.deferred)
  }

  ghost function Work(s: State, a: Attempt): nat
  {
    Sum(QueuedWork(a), s.cmdQueue) + DoneWork(a, s.cmdDone) + Sum(DeferredWork(a), s.deferred)
  }

  // ------------------------------------------------------------ invariants

  /** Nothing is left behind in a slot that is not in use. */
  predicate Slots(s: State)
  {
    && (!s.cmdInFlight ==> s.cmdDone == Nothing)
    && (!s.connectPending ==> s.connectDone == None)
    && (!s.encryptPending ==> s.encryptDone == None)
  }

  /** A closed link holds nothing but work already put off to the loop. */
  predicate Emptied(s: State)
  {
    s.closed ==>
      && s.cmdQueue == [] && !s.cmdInFlight && s.att == map[]
      && !s.connectPending && !s.encryptPending && s.onReady == None
  }

  /** Commands reach the wire in the order they were asked for, and at most one
      of them is unanswered. */
  predicate CommandsInOrder(s: State)
  {
    var o := OrdersOf(s.log);
    && OneAtATime(o)
    && (!s.closed ==>
          && o.asked == o.sent + Opcodes(s.cmdQueue)
          && |o.sent| == o.over + (if s.cmdInFlight then 1 else 0))
  }

  predicate OneAtATime(o: Orders) {
    o.sent <= o.asked && o.over <= |o.sent| <= o.over + 1
  }

  const FRESH := Channel(false, 0, None, NO_TIMER, [])

  function ChannelOf(att: map<nat, Channel>, conn: nat): Channel {
    if conn in att then att[conn] else FRESH
  }

  ghost predicate Ordered(att: map<nat, Channel>, log: seq<Deed>, conn: nat) {
    InOrder(ChannelOf(att, conn), StoryOf(log, conn))
  }

  ghost predicate Channels(att: map<nat, Channel>, log: seq<Deed>)
  {
    forall c {:trigger Ordered(att, log, c)} :: Ordered(att, log, c)
  }

  lemma OrderedAt(att: map<nat, Channel>, log: seq<Deed>, conn: nat)
    requires Channels(att, log)
    ensures Ordered(att, log, conn)
  {
  }

  /** What is not about a connection's requests changes no story. */
  lemma ChannelsStay(att: map<nat, Channel>, log: seq<Deed>, d: Deed)
    requires Channels(att, log)
    requires !d.Made? && !d.Tried? && !d.Settled? && !d.Dropped? && !d.Broke?
    ensures Channels(att, log + [d])
  {
    hide InOrder, ChannelOf, StoryOf;
    LogPush(log, d);
    forall c
      ensures Ordered(att, log + [d], c)
    {
      assert Ordered(att, log, c);
    }
  }

  /** And what is about one connection changes no other's. */
  lemma ChannelsMove(att: map<nat, Channel>, att': map<nat, Channel>, log: seq<Deed>, d: Deed)
    requires Channels(att, log) && (d.Made? || d.Tried? || d.Settled? || d.Dropped?)
    requires forall c {:trigger ChannelOf(att', c)} :: c != d.conn ==> ChannelOf(att', c) == ChannelOf(att, c)
    requires InOrder(ChannelOf(att', d.conn), NextStory(StoryOf(log, d.conn), d, d.conn))
    ensures Channels(att', log + [d])
  {
    hide InOrder, ChannelOf, StoryOf;
    LogPush(log, d);
    forall c
      ensures Ordered(att', log + [d], c)
    {
      assert Ordered(att, log, c);
    }
  }

  lemma ChannelsGone(log: seq<Deed>)
    ensures Channels(map[], log + [Broke])
  {
    hide StoryOf;
    LogPush(log, Broke);
    forall c
      ensures Ordered(map[], log + [Broke], c)
    {
    }
  }

  /** A timer that comes or goes is no part of the story. */
  lemma ChannelsTimed(att: map<nat, Channel>, att': map<nat, Channel>, log: seq<Deed>, conn: nat, timer: nat)
    requires Channels(att, log) && conn in att && att[conn].inFlight
    requires att' == att[conn := att[conn].(timer := timer)]
    ensures Channels(att', log)
  {
    hide StoryOf;
    forall c
      ensures Ordered(att', log, c)
    {
      assert Ordered(att, log, c);
    }
  }

  /** Every timer that is armed belongs to what is waiting for it now. */
  ghost predicate TimersBelong(s: State)
  {
    && NO_TIMER !in s.timers && NO_TIMER < s.nextTimer
    && s.cmdTimer < s.nextTimer && s.connectTimer < s.nextTimer && s.encryptTimer < s.nextTimer
    && (forall t {:trigger s.timers[t]} :: t in s.timers ==> t < s.nextTimer && Belongs(s, t))
    && (s.cmdTimer in s.timers ==> s.timers[s.cmdTimer].CommandTimeout?)
    && (s.connectTimer in s.timers ==> s.timers[s.connectTimer] == ConnectTimeout)
    && (s.encryptTimer in s.timers ==> s.timers[s.encryptTimer] == EncryptTimeout)
  }

  predicate Belongs(s: State, t: nat)
    requires t in s.timers
  {
    match s.timers[t]
    case CommandTimeout(opcode) => t == s.cmdTimer && s.cmdInFlight && opcode == s.cmdOpcode
    case AttTimeout(conn, opcode) =>
      conn in s.att && s.att[conn].inFlight && s.att[conn].timer == t && s.att[conn].opcode == opcode
    case _ => true
  }

  /** Whatever is in flight has its timeout running. */
  ghost predicate Armed(s: State, ctx: Context)
  {
    && (s.cmdInFlight && !ctx.cmdBare ==> s.cmdTimer in s.timers && s.timers[s.cmdTimer] == CommandTimeout(s.cmdOpcode))
    && (forall c {:trigger s.att[c]} :: c in s.att && s.att[c].inFlight && c !in ctx.attBare ==>
          s.att[c].timer in s.timers && s.timers[s.att[c].timer] == AttTimeout(c, s.att[c].opcode))
  }

  /** Nothing waits in a queue unless something is in flight ahead of it. */
  ghost predicate Pumped(s: State, ctx: Context)
  {
    && (!ctx.cmdBusy && s.cmdQueue != [] ==> s.cmdInFlight)
    && (forall c {:trigger s.att[c]} :: c in s.att && s.att[c].queue != [] && c !in ctx.attBusy ==> s.att[c].inFlight)
  }

  /** An attempt that is under way is carried on by a command, by work put off
      to the loop, by the continuation in hand, or by its own timeout. */
  ghost predicate UnderWay(s: State, ctx: Context, inHand: Done := Nothing)
  {
    && (s.connectPending && ToConnect !in ctx.hands ==>
          Work(s, ToConnect) + DoneWork(ToConnect, inHand) > 0 || s.connectTimer in s.timers)
    && (s.encryptPending && ToEncrypt !in ctx.hands ==>
          Work(s, ToEncrypt) + DoneWork(ToEncrypt, inHand) > 0 || s.encryptTimer in s.timers)
    && (s.onReady != None && ToStart !in ctx.hands ==>
          Work(s, ToStart) + DoneWork(ToStart, inHand) > 0)
  }

  ghost predicate Loose(s: State)
  {
    && Slots(s) && Emptied(s) && Channels(s.att, s.log) && TimersBelong(s) && OneAtATime(OrdersOf(s.log))
  }

  ghost predicate Sound(s: State, ctx: Context)
  {
    && Slots(s) && Emptied(s) && Channels(s.att, s.log) && TimersBelong(s)
    && CommandsInOrder(s) && Armed(s, ctx) && Pumped(s, ctx)
  }

  /** What every method of the link promises: the books balance, nothing is
      created out of nothing, a closed link stays closed, and what was done
      stays done. */
  ghost predicate Went(s: State, s': State, held: int, weight: int)
  {
    && s'.watch == s.watch
    && Slack(s') == Slack(s) + held
    && Total(s') <= Total(s) + weight
    && (s.closed ==> s'.closed)
    && s.called <= s'.called && s.issued <= s'.issued
    && s.log <= s'.log
  }

  // ------------------------------------------------------------ small steps

  /** The fields that no guarantee is about may change freely. */
  lemma Bookkeeping(s: State, s': State, ctx: Context, inHand: Done)
    requires s' == s.(issued := s'.issued, called := s'.called, conns := s'.conns,
                      scanning := s'.scanning, connectRestoreScan := s'.connectRestoreScan)
    ensures Sound(s', ctx) == Sound(s, ctx) && UnderWay(s', ctx, inHand) == UnderWay(s, ctx, inHand)
    ensures Held(s') == Held(s) && Total(s') == Total(s)
  {
  }

  /** on_ready_ is called at most once. */
  function TakeReady(s: State): State {
    s.(onReady := None)
  }

  lemma TakeReadyKeeps(s: State, ctx: Context, step: nat)
    requires Sound(s, ctx) && UnderWay(s, ctx, Init(step))
    ensures Sound(TakeReady(s), ctx) && UnderWay(TakeReady(s), ctx)
    ensures Went(s, TakeReady(s), -(MaybeCount(s.watch, s.onReady) as int), -(MaybeWeight(s.onReady) as int))
  {
    hide OrdersOf, Channels, Sum, SumMap;
  }

  function Defer(s: State, d: Deferred): State {
    s.(deferred := s.deferred + [d])
  }

  lemma DeferKeeps(s: State, d: Deferred, ctx: Context)
    requires Sound(s, ctx)
    ensures Sound(Defer(s, d), ctx)
    ensures Went(s, Defer(s, d), DeferredCount(s.watch)(d), DeferredWeight()(d))
    ensures forall a :: Work(Defer(s, d), a) == Work(s, a) + DeferredWork(a)(d)
  {
    SumPush(DeferredCount(s.watch), s.deferred, d);
    SumPush(DeferredWeight(), s.deferred, d);
    forall a {
      SumPush(DeferredWork(a), s.deferred, d);
    }
  }

  /** A timer is armed and its id handed out. */
  function Arm(s: State, t: Timer): State {
    s.(timers := s.timers[s.nextTimer := t], nextTimer := s.nextTimer + 1)
  }

  function Cancel(s: State, t: nat): State {
    s.(timers := s.timers - {t})
  }

  function Enqueue(s: State, opcode: nat, done: Done): State {
    s.(cmdQueue := s.cmdQueue + [Queued(opcode, done)], log := s.log + [Asked(opcode)])
  }

  lemma EnqueueKeeps(s: State, opcode: nat, done: Done, ctx: Context)
    requires Sound(s, ctx) && !s.closed
    ensures Sound(Enqueue(s, opcode, done), ctx.(cmdBusy := true))
    ensures Went(s, Enqueue(s, opcode, done), DoneCount(s.watch, done), 1 + DoneWeight(done))
    ensures forall a :: Work(Enqueue(s, opcode, done), a) == Work(s, a) + DoneWork(a, done)
  {
    hide Sum, DeferredWork, AfterWork;
    LogPush(s.log, Asked(opcode));
    ChannelsStay(s.att, s.log, Asked(opcode));
    var q := Queued(opcode, done);
    SumPush(QueuedCount(s.watch), s.cmdQueue, q);
    SumPush(QueuedWeight(), s.cmdQueue, q);
    forall a {
      SumPush(QueuedWork(a), s.cmdQueue, q);
    }
    OpcodesPush(s.cmdQueue, q);
  }

  /** The front of the command queue is taken up. */
  function TakeNext(s: State): State
    requires s.cmdQueue != []
  {
    var q := s.cmdQueue[0];
    s.(cmdQueue := s.cmdQueue[1..], cmdInFlight := true, cmdOpcode := q.opcode, cmdDone := q.done)
  }

  lemma TakeNextKeeps(s: State, ctx: Context)
    requires Sound(s, ctx) && !s.closed && !s.cmdInFlight && s.cmdQueue != []
    ensures Loose(TakeNext(s)) && Went(s, TakeNext(s), 0, 0)
    ensures forall a :: Work(TakeNext(s), a) == Work(s, a)
  {
  }

  /** It is written and its timeout starts. */
  function SendCommand(s: State): State {
    Arm(s, CommandTimeout(s.cmdOpcode)).(cmdTimer := s.nextTimer, log := s.log + [Sent(s.cmdOpcode)])
  }

  lemma SendCommandKeeps(s: State, ctx: Context)
    requires Sound(s, ctx.(cmdBusy := true)) && !s.closed && !s.cmdInFlight && s.cmdQueue != []
    ensures Sound(SendCommand(TakeNext(s)), ctx)
    ensures Went(s, SendCommand(TakeNext(s)), 0, 0)
    ensures forall a :: Work(SendCommand(TakeNext(s)), a) == Work(s, a)
  {
    hide DeferredWork, OrdersOf;
    LogPush(s.log, Sent(s.cmdQueue[0].opcode));
    ChannelsStay(s.att, s.log, Sent(s.cmdQueue[0].opcode));
  }

  /** The command in flight is over. */
  function TakeDone(s: State): State {
    Cancel(s, s.cmdTimer).(cmdTimer := NO_TIMER, cmdInFlight := false, cmdDone := Nothing, log := s.log + [Answered])
  }

  lemma TakeDoneKeeps(s: State, ctx: Context)
    requires Sound(s, ctx.(cmdBare := true)) && s.cmdInFlight
    ensures Sound(TakeDone(s), ctx.(cmdBusy := true))
    ensures Went(s, TakeDone(s), -(DoneCount(s.watch, s.cmdDone) as int), -1 - DoneWeight(s.cmdDone) as int)
    ensures forall a :: Work(TakeDone(s), a) + DoneWork(a, s.cmdDone) == Work(s, a)
    ensures UnderWay(s, ctx) ==> UnderWay(TakeDone(s), ctx, s.cmdDone)
  {
    hide OrdersOf, Channels, Sum, SumMap;
    LogPush(s.log, Answered);
    ChannelsStay(s.att, s.log, Answered);
  }

  /** The connection attempt is over, one way or the other. */
  function TakeConnect(s: State, ok: bool): State {
    Cancel(s, s.connectTimer).(connectTimer := NO_TIMER, connectPending := false, connectDone := None,
                               log := s.log + [ConnectOver(ok)])
  }

  lemma TakeConnectKeeps(s: State, ok: bool, ctx: Context, inHand: Done)
    requires Sound(s, ctx) && s.connectPending && UnderWay(s, ctx, inHand)
    requires DoneWork(ToEncrypt, inHand) == 0 && DoneWork(ToStart, inHand) == 0
    ensures Sound(TakeConnect(s, ok), ctx) && UnderWay(TakeConnect(s, ok), ctx)
    ensures Went(s, TakeConnect(s, ok), -(MaybeCount(s.watch, s.connectDone) as int),
                 -10 - MaybeWeight(s.connectDone) as int)
  {
    hide OrdersOf, Channels, Sum, SumMap;
    LogPush(s.log, ConnectOver(ok));
    ChannelsStay(s.att, s.log, ConnectOver(ok));
  }

  function TakeEncrypt(s: State): State {
    Cancel(s, s.encryptTimer).(encryptTimer := NO_TIMER, encryptPending := false, encryptDone := None,
                               log := s.log + [EncryptOver])
  }

  lemma TakeEncryptKeeps(s: State, ctx: Context, inHand: Done)
    requires Sound(s, ctx) && s.encryptPending && UnderWay(s, ctx, inHand)
    requires DoneWork(ToConnect, inHand) == 0 && DoneWork(ToStart, inHand) == 0
    ensures Sound(TakeEncrypt(s), ctx) && UnderWay(TakeEncrypt(s), ctx)
    ensures Went(s, TakeEncrypt(s), -(MaybeCount(s.watch, s.encryptDone) as int),
                 -3 - MaybeWeight(s.encryptDone) as int)
  {
    hide OrdersOf, Channels, Sum, SumMap, AfterWork;
    LogPush(s.log, EncryptOver);
    ChannelsStay(s.att, s.log, EncryptOver);
  }

  // ------------------------------------------------------------ ATT channels

  /** Replacing a channel changes the sums by exactly what the channel changes. */
  lemma ReplaceChannel(s: State, conn: nat, c: Channel)
    ensures var s' := s.(att := s.att[conn := c]);
            var before := ChannelOf(s.att, conn);
            && Slack(s') == Slack(s) + ChannelCount(s.watch)(c) - ChannelCount(s.watch)(before)
            && Total(s') == Total(s) + ChannelWeight()(c) - ChannelWeight()(before)
            && forall a :: Work(s', a) == Work(s, a)
  {
    SumMapUpdate(ChannelCount(s.watch), s.att, conn, c);
    SumMapUpdate(ChannelWeight(), s.att, conn, c);
    if conn in s.att {
      SumMapAt(ChannelCount(s.watch), s.att, conn);
      SumMapAt(ChannelWeight(), s.att, conn);
    } else {
      assert s.att - {conn} == s.att;
    }
  }

  function QueueRequest(s: State, conn: nat, r: Request): State {
    var c := ChannelOf(s.att, conn);
    s.(att := s.att[conn := c.(queue := c.queue + [r])], log := s.log + [Made(conn, r.opcode)])
  }

  lemma QueueRequestTimers(s: State, conn: nat, r: Request, ctx: Context)
    requires Sound(s, ctx) && !s.closed
    ensures TimersBelong(QueueRequest(s, conn, r))
            && Armed(QueueRequest(s, conn, r), ctx.(attBusy := ctx.attBusy + {conn}))
  {
  }

  lemma QueueRequestSums(s: State, conn: nat, r: Request, ctx: Context)
    requires Sound(s, ctx) && !s.closed
    ensures Went(s, QueueRequest(s, conn, r), MaybeCount(s.watch, r.done), 2 + MaybeWeight(r.done))
    ensures UnderWay(s, ctx) ==> UnderWay(QueueRequest(s, conn, r), ctx)
  {
    hide Sum, Sound;
    var c := ChannelOf(s.att, conn);
    var c' := c.(queue := c.queue + [r]);
    ReplaceChannel(s, conn, c');
    SumPush(RequestCount(s.watch), c.queue, r);
    SumPush(RequestWeight(), c.queue, r);
  }

  lemma QueueRequestKeeps(s: State, conn: nat, r: Request, ctx: Context)
    requires Sound(s, ctx) && !s.closed
    ensures Sound(QueueRequest(s, conn, r), ctx.(attBusy := ctx.attBusy + {conn}))
    ensures Went(s, QueueRequest(s, conn, r), MaybeCount(s.watch, r.done), 2 + MaybeWeight(r.done))
    ensures UnderWay(s, ctx) ==> UnderWay(QueueRequest(s, conn, r), ctx)
  {
    hide Went, TimersBelong, Armed, Total;
    var c := ChannelOf(s.att, conn);
    var c' := c.(queue := c.queue + [r]);
    RequestOpcodesPush(c.queue, r);
    assert Ordered(s.att, s.log, conn);
    LogPush(s.log, Made(conn, r.opcode));
    ChannelsMove(s.att, s.att[conn := c'], s.log, Made(conn, r.opcode));
    QueueRequestTimers(s, conn, r, ctx);
    QueueRequestSums(s, conn, r, ctx);
  }

  /** The front of a channel's queue is taken up. */
  function TakeRequest(s: State, conn: nat): State
    requires conn in s.att && s.att[conn].queue != []
  {
    var c := s.att[conn];
    var r := c.queue[0];
    s.(att := s.att[conn := c.(queue := c.queue[1..], inFlight := true, opcode := r.opcode, done := r.done)],
       log := s.log + [Tried(conn, r.opcode)])
  }

  lemma TakeRequestTimers(s: State, conn: nat, ctx: Context)
    requires Sound(s, ctx.(attBusy := ctx.attBusy + {conn})) && !s.closed
    requires conn in s.att && !s.att[conn].inFlight && s.att[conn].queue != []
    ensures TimersBelong(TakeRequest(s, conn)) && Armed(TakeRequest(s, conn), ctx.(attBare := ctx.attBare + {conn}))
  {
  }

  lemma TakeRequestSums(s: State, conn: nat, ctx: Context)
    requires Sound(s, ctx.(attBusy := ctx.attBusy + {conn})) && !s.closed
    requires conn in s.att && !s.att[conn].inFlight && s.att[conn].queue != []
    ensures Went(s, TakeRequest(s, conn), 0, -1)
    ensures UnderWay(s, ctx) ==> UnderWay(TakeRequest(s, conn), ctx)
  {
    assert Ordered(s.att, s.log, conn);
    ReplaceChannel(s, conn, TakeRequest(s, conn).att[conn]);
  }

  lemma TakeRequestOrder(s: State, conn: nat)
    requires Channels(s.att, s.log) && conn in s.att && !s.att[conn].inFlight && s.att[conn].queue != []
    ensures var t := TakeRequest(s, conn); Channels(t.att, t.log) && OrdersOf(t.log) == OrdersOf(s.log)
  {
    hide Channels, StoryOf, OrdersOf;
    var c := s.att[conn];
    var d := Tried(conn, c.queue[0].opcode);
    OrderedAt(s.att, s.log, conn);
    LogPush(s.log, d);
    assert RequestOpcodes(c.queue) == [c.queue[0].opcode] + RequestOpcodes(c.queue[1..]);
    ChannelsMove(s.att, TakeRequest(s, conn).att, s.log, d);
  }

  lemma TakeRequestKeeps(s: State, conn: nat, ctx: Context)
    requires Sound(s, ctx.(attBusy := ctx.attBusy + {conn})) && !s.closed
    requires conn in s.att && !s.att[conn].inFlight && s.att[conn].queue != []
    ensures Sound(TakeRequest(s, conn), ctx.(attBare := ctx.attBare + {conn}))
    ensures Went(s, TakeRequest(s, conn), 0, -1)
    ensures UnderWay(s, ctx) ==> UnderWay(TakeRequest(s, conn), ctx)
  {
    hide Channels, TimersBelong, Armed, Went, UnderWay;
    TakeRequestOrder(s, conn);
    TakeRequestTimers(s, conn, ctx);
    TakeRequestSums(s, conn, ctx);
  }

  /** It has gone out, and its timeout starts. */
  function ArmRequest(s: State, conn: nat): State
    requires conn in s.att
  {
    var c := s.att[conn];
    Arm(s, AttTimeout(conn, c.opcode)).(att := s.att[conn := c.(timer := s.nextTimer)])
  }

  lemma ArmRequestTimers(s: State, conn: nat, ctx: Context)
    requires Sound(s, ctx.(attBare := ctx.attBare + {conn})) && conn in s.att && s.att[conn].inFlight
    requires s.att[conn].timer == NO_TIMER
    ensures TimersBelong(ArmRequest(s, conn)) && Armed(ArmRequest(s, conn), ctx)
  {
  }

  lemma TimersOnly(s: State, s': State)
    requires s' == s.(timers := s'.timers, nextTimer := s'.nextTimer)
    ensures Slack(s') == Slack(s) && Total(s') == Total(s)
    ensures forall a :: Work(s', a) == Work(s, a)
  {
  }

  lemma ArmRequestSums(s: State, conn: nat, ctx: Context)
    requires TimersBelong(s) && conn in s.att
    ensures Went(s, ArmRequest(s, conn), 0, 0)
    ensures UnderWay(s, ctx) ==> UnderWay(ArmRequest(s, conn), ctx)
  {
    var c := s.att[conn].(timer := s.nextTimer);
    ReplaceChannel(s, conn, c);
    TimersOnly(s.(att := s.att[conn := c]), ArmRequest(s, conn));
  }

  lemma ArmRequestKeeps(s: State, conn: nat, ctx: Context)
    requires Sound(s, ctx.(attBare := ctx.attBare + {conn})) && conn in s.att && s.att[conn].inFlight
    requires s.att[conn].timer == NO_TIMER
    ensures Sound(ArmRequest(s, conn), ctx)
    ensures Went(s, ArmRequest(s, conn), 0, 0)
    ensures UnderWay(s, ctx) ==> UnderWay(ArmRequest(s, conn), ctx)
  {
    ChannelsTimed(s.att, ArmRequest(s, conn).att, s.log, conn, s.nextTimer);
    ArmRequestTimers(s, conn, ctx);
    ArmRequestSums(s, conn, ctx);
  }

  /** The request in flight on a channel is over. */
  function TakeAnswer(s: State, conn: nat): State
    requires conn in s.att
  {
    var c := s.att[conn];
    Cancel(s, c.timer).(att := s.att[conn := c.(timer := NO_TIMER, inFlight := false, done := None)],
                        log := s.log + [Settled(conn)])
  }

  /** A channel's timer is its own. */
  predicate OwnTimer(s: State, conn: nat)
    requires conn in s.att
  {
    var t := s.att[conn].timer;
    t in s.timers ==> s.timers[t].AttTimeout? && s.timers[t].conn == conn
  }

  lemma TakeAnswerTimers(s: State, conn: nat, ctx: Context)
    requires Sound(s, ctx.(attBare := ctx.attBare + {conn})) && conn in s.att && s.att[conn].inFlight
    requires OwnTimer(s, conn)
    ensures TimersBelong(TakeAnswer(s, conn)) && Armed(TakeAnswer(s, conn), ctx.(attBusy := ctx.attBusy + {conn}))
  {
  }

  lemma TakeAnswerSums(s: State, conn: nat)
    requires conn in s.att && s.att[conn].inFlight
    ensures Went(s, TakeAnswer(s, conn), -(MaybeCount(s.watch, s.att[conn].done) as int),
                 -1 - MaybeWeight(s.att[conn].done) as int)
  {
    ReplaceChannel(s, conn, TakeAnswer(s, conn).att[conn]);
  }

  lemma TakeAnswerUnderWay(s: State, conn: nat, ctx: Context)
    requires conn in s.att && OwnTimer(s, conn) && TimersBelong(s) && UnderWay(s, ctx)
    ensures UnderWay(TakeAnswer(s, conn), ctx)
  {
    ReplaceChannel(s, conn, TakeAnswer(s, conn).att[conn]);
  }

  lemma TakeAnswerOrder(s: State, conn: nat)
    requires Channels(s.att, s.log) && conn in s.att && s.att[conn].inFlight
    ensures var t := TakeAnswer(s, conn); Channels(t.att, t.log) && OrdersOf(t.log) == OrdersOf(s.log)
  {
    hide Channels, StoryOf, OrdersOf;
    OrderedAt(s.att, s.log, conn);
    LogPush(s.log, Settled(conn));
    ChannelsMove(s.att, TakeAnswer(s, conn).att, s.log, Settled(conn));
  }

  lemma TakeAnswerKeeps(s: State, conn: nat, ctx: Context)
    requires Sound(s, ctx.(attBare := ctx.attBare + {conn})) && conn in s.att && s.att[conn].inFlight
    requires OwnTimer(s, conn)
    ensures Sound(TakeAnswer(s, conn), ctx.(attBusy := ctx.attBusy + {conn}))
    ensures Went(s, TakeAnswer(s, conn), -(MaybeCount(s.watch, s.att[conn].done) as int),
                 -1 - MaybeWeight(s.att[conn].done) as int)
    ensures UnderWay(s, ctx) ==> UnderWay(TakeAnswer(s, conn), ctx)
  {
    hide Channels, TimersBelong, Armed, Went, UnderWay;
    TakeAnswerOrder(s, conn);
    TakeAnswerTimers(s, conn, ctx);
    TakeAnswerSums(s, conn);
    if UnderWay(s, ctx) {
      TakeAnswerUnderWay(s, conn, ctx);
    }
  }

  /** A connection's channel goes, with everything on it. */
  function RemoveChannel(s: State, conn: nat): State {
    if conn in s.att
    then Cancel(s, s.att[conn].timer).(att := s.att - {conn}, log := s.log + [Dropped(conn)])
    else s
  }

  lemma RemoveChannelTimers(s: State, conn: nat, ctx: Context)
    requires Sound(s, ctx) && conn in s.att && OwnTimer(s, conn)
    ensures TimersBelong(RemoveChannel(s, conn)) && Armed(RemoveChannel(s, conn), ctx)
  {
  }

  lemma RemoveChannelSums(s: State, conn: nat)
    requires conn in s.att
    ensures Went(s, RemoveChannel(s, conn), -(ChannelCount(s.watch)(s.att[conn]) as int),
                 -(ChannelWeight()(s.att[conn]) as int))
  {
    SumMapAt(ChannelCount(s.watch), s.att, conn);
    SumMapAt(ChannelWeight(), s.att, conn);
  }

  lemma RemoveChannelUnderWay(s: State, conn: nat, ctx: Context)
    requires conn in s.att && OwnTimer(s, conn) && TimersBelong(s) && UnderWay(s, ctx)
    ensures UnderWay(RemoveChannel(s, conn), ctx)
  {
  }

  lemma RemoveChannelKeeps(s: State, conn: nat, ctx: Context)
    requires Sound(s, ctx) && conn in s.att && OwnTimer(s, conn)
    ensures Sound(RemoveChannel(s, conn), ctx)
    ensures Went(s, RemoveChannel(s, conn), -(ChannelCount(s.watch)(s.att[conn]) as int),
                 -(ChannelWeight()(s.att[conn]) as int))
    ensures UnderWay(s, ctx) ==> UnderWay(RemoveChannel(s, conn), ctx)
  {
    hide Channels, TimersBelong, Armed, MaybeCount, Sum, MaybeWeight;
    LogPush(s.log, Dropped(conn));
    ChannelsMove(s.att, s.att - {conn}, s.log, Dropped(conn));
    RemoveChannelTimers(s, conn, ctx);
    RemoveChannelSums(s, conn);
    if UnderWay(s, ctx) {
      RemoveChannelUnderWay(s, conn, ctx);
    }
  }

  // ---------------------------------------------------------------- failure

  function ChannelTimers(s: State): set<nat> {
    set c | c in s.att :: s.att[c].timer
  }

  /** Everything outstanding is moved out before any completion runs. */
  function Shut(s: State): State {
    s.(closed := true, cmdQueue := [], cmdInFlight := false, cmdDone := Nothing, cmdTimer := NO_TIMER,
       att := map[], scanning := false,
       connectPending := false, connectDone := None, connectTimer := NO_TIMER,
       encryptPending := false, encryptDone := None, encryptTimer := NO_TIMER,
       onReady := None, log := s.log + [Broke],
       timers := s.timers - {s.cmdTimer, s.connectTimer, s.encryptTimer} - ChannelTimers(s))
  }

  lemma ShutKeeps(s: State, ctx: Context)
    requires Loose(s) && !s.closed
    ensures Sound(Shut(s), ctx) && UnderWay(Shut(s), ctx)
    ensures Slack(Shut(s)) + Sum(QueuedCount(s.watch), s.cmdQueue) + DoneCount(s.watch, s.cmdDone)
            + SumMap(ChannelCount(s.watch), s.att) + MaybeCount(s.watch, s.connectDone)
            + MaybeCount(s.watch, s.encryptDone) + MaybeCount(s.watch, s.onReady) == Slack(s)
    ensures Total(Shut(s)) + Sum(QueuedWeight(), s.cmdQueue) + DoneWeight(s.cmdDone)
            + SumMap(ChannelWeight(), s.att) + MaybeWeight(s.connectDone)
            + MaybeWeight(s.encryptDone) + MaybeWeight(s.onReady) <= Total(s)
  {
    LogPush(s.log, Broke);
    ChannelsGone(s.log);
  }

  /** On a closed link every guarantee holds, whatever the context. */
  lemma ClosedIsSound(s: State, ctx: Context, other: Context)
    requires s.closed && Sound(s, ctx)
    ensures Sound(s, other) && UnderWay(s, other)
  {
  }

  lemma ClosedIsIdle(s: State, inHand: Done)
    requires s.closed && Sound(s, IDLE)
    ensures UnderWay(s, IDLE, inHand)
  {
  }

  /** A channel that has one request in flight or none to send needs no pump. */
  lemma NothingToPump(s: State, conn: nat, ctx: Context)
    requires Sound(s, ctx.(attBusy := ctx.attBusy + {conn}))
    requires conn !in s.att || s.att[conn].inFlight || s.att[conn].queue == [] || s.closed
    ensures Sound(s, ctx)
  {
    hide Channels, TimersBelong, CommandsInOrder, Slots;
  }

  function Popped(s: State): State
    requires s.deferred != []
  {
    s.(deferred := s.deferred[1..])
  }

  function DeferredDone(d: Deferred): Done {
    match d case Refused(done) => done case Stopped(after) => Steps([], after)
  }

  lemma PoppedKeeps(s: State)
    requires Sound(s, IDLE) && UnderWay(s, IDLE) && s.deferred != []
    ensures Sound(Popped(s), IDLE) && UnderWay(Popped(s), IDLE, DeferredDone(s.deferred[0]))
    ensures Went(s, Popped(s), -(DeferredCount(s.watch)(s.deferred[0]) as int),
                 -(DeferredWeight()(s.deferred[0]) as int))
  {
    hide AfterWeight, QueuedWork;
    forall a
      ensures Work(s, a) == Work(Popped(s), a) + DoneWork(a, DeferredDone(s.deferred[0]))
    {
    }
  }

  function AsDone(m: Maybe): Done {
    if m.Some? then User(m.handler) else Nothing
  }

  function WithWatch(s: State, m: Maybe): State {
    s.(issued := s.issued + MaybeCount(s.watch, m))
  }

  // ----------------------------------------------------------- fired timers

  lemma CommandTimerKeeps(s: State, t: nat)
    requires Sound(s, IDLE) && UnderWay(s, IDLE) && t in s.timers && s.timers[t].CommandTimeout?
    ensures var s' := Cancel(s, t).(cmdTimer := NO_TIMER);
            && Sound(s', IDLE.(cmdBare := true)) && UnderWay(s', IDLE)
            && Went(s, s', 0, 0) && s'.cmdInFlight
  {
  }

  /** A channel whose timer has just gone off. */
  function Disarmed(s: State, t: nat, conn: nat): State
    requires conn in s.att
  {
    Cancel(s, t).(att := s.att[conn := s.att[conn].(timer := NO_TIMER)])
  }

  lemma AttTimerSums(s: State, t: nat, conn: nat)
    requires conn in s.att && t in s.timers && s.timers[t].AttTimeout?
    requires TimersBelong(s) && UnderWay(s, IDLE)
    ensures Went(s, Disarmed(s, t, conn), 0, 0) && UnderWay(Disarmed(s, t, conn), IDLE)
  {
    hide Belongs;
    ReplaceChannel(s, conn, s.att[conn].(timer := NO_TIMER));
  }

  lemma AttTimerTimers(s: State, t: nat, conn: nat)
    requires TimersBelong(s) && t in s.timers && s.timers[t].AttTimeout? && conn == s.timers[t].conn
    ensures conn in s.att && s.att[conn].inFlight && OwnTimer(Disarmed(s, t, conn), conn)
    ensures TimersBelong(Disarmed(s, t, conn))
  {
    assert Belongs(s, t);
  }

  lemma AttTimerArmed(s: State, t: nat, conn: nat)
    requires TimersBelong(s) && Armed(s, IDLE) && t in s.timers && s.timers[t].AttTimeout? && conn == s.timers[t].conn
    requires conn in s.att
    ensures Armed(Disarmed(s, t, conn), IDLE.(attBare := IDLE.attBare + {conn}))
  {
    assert Belongs(s, t);
  }

  lemma AttTimerKeeps(s: State, t: nat)
    requires Sound(s, IDLE) && UnderWay(s, IDLE) && t in s.timers && s.timers[t].AttTimeout?
    ensures var conn := s.timers[t].conn;
            && conn in s.att && s.att[conn].inFlight
            && Sound(Disarmed(s, t, conn), IDLE.(attBare := IDLE.attBare + {conn}))
            && UnderWay(Disarmed(s, t, conn), IDLE)
            && OwnTimer(Disarmed(s, t, conn), conn)
            && Went(s, Disarmed(s, t, conn), 0, 0)
  {
    hide Work, Slack, TimersBelong, Armed, UnderWay, OwnTimer, Went;
    var conn := s.timers[t].conn;
    AttTimerTimers(s, t, conn);
    AttTimerArmed(s, t, conn);
    AttTimerSums(s, t, conn);
    ChannelsTimed(s.att, Disarmed(s, t, conn).att, s.log, conn, NO_TIMER);
  }

  lemma ConnectTimerKeeps(s: State, t: nat)
    requires Sound(s, IDLE) && UnderWay(s, IDLE) && t in s.timers && s.timers[t] == ConnectTimeout
    ensures var s' := Cancel(s, t).(connectTimer := NO_TIMER);
            && Sound(s', IDLE) && UnderWay(s', IDLE.(hands := {ToConnect}))
            && Went(s, s', 0, 0)
  {
  }

  lemma EncryptTimerKeeps(s: State, t: nat)
    requires Sound(s, IDLE) && UnderWay(s, IDLE) && t in s.timers && s.timers[t] == EncryptTimeout
    ensures var s' := Cancel(s, t).(encryptTimer := NO_TIMER);
            && Sound(s', IDLE) && UnderWay(s', IDLE, EncryptSent)
            && Went(s, s', 0, 0)
  {
    hide OrdersOf, Channels, Sum, SumMap;
  }

  const NOTIFICATION := 0x1b
  const INDICATION := 0x1d
  const ERROR_RESPONSE := 0x01

  /** A PDU settles the request in flight if its opcode is one above the
      request's, or if it is an Error Response that names the request. */
  predicate Settles(s: State, conn: nat, pdu: seq<nat>)
    requires pdu != []
  {
    && conn in s.att && s.att[conn].inFlight && pdu[0] != NOTIFICATION && pdu[0] != INDICATION
    && (pdu[0] == (s.att[conn].opcode + 1) % 256
        || (pdu[0] == ERROR_RESPONSE && |pdu| >= 2 && pdu[1] == s.att[conn].opcode))
  }

  class Link {
    var s: State

    /** What holds between turns of the loop. */
    ghost predicate Good()
      reads this
    {
      Sound(s, IDLE) && UnderWay(s, IDLE) && Slack(s) == 0
    }

    /** A link over a port that has just been opened; `onReady` is told how the
        controller came up. */
    constructor (onReady: Maybe, watch: nat)
      ensures Good() && s.watch == watch && s.called <= s.issued
    {
      s := State(false, [], false, 0, Nothing, NO_TIMER, {}, map[], false, false, false, None, NO_TIMER,
                 false, None, NO_TIMER, onReady, [], map[], 1, watch, MaybeCount(watch, onReady), 0, []);
      new;
      IssueCommand(INIT_OPCODES[0], Init(0), IDLE);
    }

    // ----------------------------------------------------------- commands

    /** command(): queue it, and send it if nothing is in flight. */
    method IssueCommand(opcode: nat, done: Done, ghost ctx: Context)
      requires Sound(s, ctx) && UnderWay(s, ctx, done)
      modifies this
      ensures Sound(s, ctx) && UnderWay(s, ctx)
      ensures Went(old(s), s, DoneCount(old(s).watch, done), 1 + DoneWeight(done))
      ensures !s.closed ==> s.connectPending == old(s).connectPending
      ensures if old(s).closed then s.log == old(s).log else old(s).log + [Asked(opcode)] <= s.log
      decreases Total(s) + 1 + DoneWeight(done), 9
    {
      hide Pumped, Sum, QueuedWeight;
      if s.closed {
        if done != Nothing {
          DeferKeeps(s, Refused(done), ctx);
          s := Defer(s, Refused(done));
        }
        return;
      }
      EnqueueKeeps(s, opcode, done, ctx);
      s := Enqueue(s, opcode, done);
      PumpCommands(ctx);
    }

    /** pump_commands(). A write that fails takes the whole link down. */
    method PumpCommands(ghost ctx: Context)
      requires Sound(s, ctx.(cmdBusy := true)) && UnderWay(s, ctx)
      modifies this
      ensures Sound(s, ctx) && UnderWay(s, ctx)
      ensures Went(old(s), s, 0, 0)
      ensures !s.closed ==> s.connectPending == old(s).connectPending
      decreases Total(s), 8
    {
      hide Total;
      if s.cmdInFlight || s.cmdQueue == [] || s.closed {
        return;
      }
      ghost var was := s;
      TakeNextKeeps(s, ctx.(cmdBusy := true));
      s := TakeNext(s);
      var written: bool := *;
      if !written {
        FailLink();
        ClosedIsSound(s, IDLE, ctx);
        return;
      }
      SendCommandKeeps(was, ctx);
      s := SendCommand(s);
    }

    /** finish_command(). */
    method FinishCommand(ok: bool, ghost ctx: Context)
      requires Sound(s, ctx.(cmdBare := true)) && UnderWay(s, ctx) && s.cmdInFlight
      modifies this
      ensures Sound(s, ctx) && UnderWay(s, ctx)
      ensures Went(old(s), s, 0, -1)
      ensures old(s).log + [Answered] <= s.log
      decreases Total(s), 8
    {
      var done := s.cmdDone;
      TakeDoneKeeps(s, ctx);
      s := TakeDone(s);
      RunDone(done, ok, ctx.(cmdBusy := true));
      PumpCommands(ctx);
    }

    /** The completion of one command, whoever's it is. */
    method RunDone(done: Done, ok: bool, ghost ctx: Context)
      requires Sound(s, ctx) && UnderWay(s, ctx, done)
      modifies this
      ensures Sound(s, ctx) && UnderWay(s, ctx)
      ensures Went(old(s), s, DoneCount(old(s).watch, done), DoneWeight(done))
      decreases Total(s) + DoneWeight(done), 6
    {
      hide Sum;
      match done
      case Nothing =>
      case User(h) => Invoke(Some(h), ctx);
      case Steps(rest, after) =>
        if ok {
          RunSequence(rest, after, ctx);
        } else {
          RunAfter(after, false, ctx);
        }
      case ConnectSent => ConnectWasSent(ok, ctx);
      case EncryptSent => EncryptWasSent(ok, ctx);
      case Init(step) => InitStep(step, ok, ctx);
    }

    /** init_step() and init_address(): the first three commands must succeed,
        the rest are best effort until an address has to be installed. */
    method InitStep(step: nat, ok: bool, ghost ctx: Context)
      requires Sound(s, ctx) && UnderWay(s, ctx, Init(step))
      modifies this
      ensures Sound(s, ctx) && UnderWay(s, ctx)
      ensures Went(old(s), s, 0, DoneWeight(Init(step)))
      decreases Total(s) + DoneWeight(Init(step)), 5
    {
      hide Sum;
      var havePublic: bool := *;
      if (step < 3 && !ok) || step >= 7 || (step == 5 && ok && havePublic) {
        FinishInit(step, ctx);
      } else {
        IssueCommand(INIT_OPCODES[step + 1], Init(step + 1), ctx);
      }
    }

    method FinishInit(ghost step: nat, ghost ctx: Context)
      requires Sound(s, ctx) && UnderWay(s, ctx, Init(step))
      modifies this
      ensures Sound(s, ctx) && UnderWay(s, ctx)
      ensures Went(old(s), s, 0, 0)
      decreases Total(s), 5
    {
      var done := s.onReady;
      TakeReadyKeeps(s, ctx, step);
      s := TakeReady(s);
      Invoke(done, ctx);
    }

    /** A caller's completion: it runs, and what it does is done. */
    method Invoke(done: Maybe, ghost ctx: Context)
      requires Sound(s, ctx) && UnderWay(s, ctx)
      modifies this
      ensures Sound(s, ctx) && UnderWay(s, ctx)
      ensures Went(old(s), s, MaybeCount(old(s).watch, done), MaybeWeight(done))
      decreases Total(s) + MaybeWeight(done), 4
    {
      if done == None {
        return;
      }
      CountCall(done, ctx);
      assert HandlerWeight(done.handler) == 1 + CallsWeight(done.handler.body);
      MakeCalls(done.handler.body, ctx);
    }

    method CountCall(done: Maybe, ghost ctx: Context)
      requires Sound(s, ctx) && UnderWay(s, ctx)
      modifies this
      ensures Sound(s, ctx) && UnderWay(s, ctx)
      ensures Went(old(s), s, MaybeCount(old(s).watch, done), 0)
      ensures s == old(s).(called := s.called)
    {
      hide Sound, UnderWay;
      Bookkeeping(s, s.(called := s.called + MaybeCount(s.watch, done)), ctx, Nothing);
      s := s.(called := s.called + MaybeCount(s.watch, done));
    }

    method MakeCalls(calls: seq<Call>, ghost ctx: Context)
      requires Sound(s, ctx) && UnderWay(s, ctx)
      modifies this
      ensures Sound(s, ctx) && UnderWay(s, ctx)
      ensures Went(old(s), s, 0, CallsWeight(calls))
      ensures s.issued >= old(s).issued + CallsCount(old(s).watch, calls)
      decreases Total(s) + CallsWeight(calls), 3
    {
      if calls != [] {
        assert CallsWeight(calls) == CallWeight(calls[0]) + CallsWeight(calls[1..]);
        MakeCall(calls[0], ctx);
        MakeCalls(calls[1..], ctx);
      }
    }

    method MakeCall(call: Call, ghost ctx: Context)
      requires Sound(s, ctx) && UnderWay(s, ctx)
      modifies this
      ensures Sound(s, ctx) && UnderWay(s, ctx)
      ensures Went(old(s), s, 0, CallWeight(call) - 1)
      ensures s.issued >= old(s).issued + CallCount(old(s).watch, call)
      decreases Total(s) + CallWeight(call), 2
    {
      hide TimersBelong, Pumped, Sum, QueuedWeight, SumMap;
      if call.Disconnect? {
        if !s.closed && call.conn in s.conns {
          IssueCommand(DISCONNECT, Nothing, ctx);
        }
        return;
      }
      Bookkeeping(s, WithWatch(s, call.done), ctx, Nothing);
      s := WithWatch(s, call.done);
      Perform(call, ctx);
    }

    method Perform(call: Call, ghost ctx: Context)
      requires !call.Disconnect?
      requires Sound(s, ctx) && UnderWay(s, ctx)
      modifies this
      ensures Sound(s, ctx) && UnderWay(s, ctx)
      ensures Went(old(s), s, MaybeCount(old(s).watch, call.done), CallWeight(call) - 1)
      decreases Total(s) + CallWeight(call), 1
    {
      hide Sum, SumMap, Slots, CommandsInOrder, Armed;
      assert call.Sequence? ==> CallWeight(call) == 4 + 2 * |call.steps| + MaybeWeight(call.done);
      assert !call.Sequence? ==> CallWeight(call) == 20 + MaybeWeight(call.done);
      assert DoneWeight(AsDone(call.done)) == MaybeWeight(call.done);
      match call
      case Command(opcode, done) => IssueCommand(opcode, AsDone(done), ctx);
      case Sequence(steps, done) => RunSequence(steps, SequenceDone(done), ctx);
      case StartScan(done) => RunSequence([LE_SET_SCAN_PARAMS, LE_SET_SCAN_ENABLE], ScanStarted(done), ctx);
      case StopScan(done) => StopScanning(ScanStopped(done), ctx);
      case AttRequest(conn, pdu, done) => RequestAtt(conn, pdu, done, ctx);
      case Connect(done) => StartConnect(done, ctx);
      case StartEncryption(conn, done) => Encrypt(conn, done, ctx);
    }

    /** run_sequence(): the next command of a list, or its completion. */
    method RunSequence(steps: seq<nat>, after: After, ghost ctx: Context)
      requires Sound(s, ctx) && UnderWay(s, ctx, Steps(steps, after))
      modifies this
      ensures Sound(s, ctx) && UnderWay(s, ctx)
      ensures Went(old(s), s, AfterCount(old(s).watch, after), 1 + 2 * |steps| + AfterWeight(after))
      ensures steps != [] ==> if old(s).closed then s.log == old(s).log else old(s).log + [Asked(steps[0])] <= s.log
      decreases Total(s) + 1 + 2 * |steps| + AfterWeight(after), 1
    {
      hide CommandsInOrder, Pumped, Sum;
      if steps == [] {
        RunAfter(after, true, ctx);
      } else {
        IssueCommand(steps[0], Steps(steps[1..], after), ctx);
      }
    }

    /** The end of a command sequence. */
    method RunAfter(after: After, ok: bool, ghost ctx: Context)
      requires Sound(s, ctx) && UnderWay(s, ctx, Steps([], after))
      modifies this
      ensures Sound(s, ctx) && UnderWay(s, ctx)
      ensures Went(old(s), s, AfterCount(old(s).watch, after), AfterWeight(after))
      decreases Total(s) + AfterWeight(after), 5
    {
      hide Sum, DoneWeight, Slots, TimersBelong, CommandsInOrder, Work, SumMap;
      var on := if after.SequenceDone? then s.scanning else if after.ScanStarted? then ok || s.scanning else false;
      SetScanning(on, after, ctx);
      if after == ConnectStopped {
        ContinueConnect(ok, ctx);
      } else {
        Invoke(after.done, ctx);
      }
    }

    method SetScanning(on: bool, ghost after: After, ghost ctx: Context)
      requires Sound(s, ctx) && UnderWay(s, ctx, Steps([], after))
      modifies this
      ensures Sound(s, ctx) && UnderWay(s, ctx, Steps([], after))
      ensures Went(old(s), s, 0, 0) && s == old(s).(scanning := on)
    {
      Bookkeeping(s, s.(scanning := on), ctx, Steps([], after));
      s := s.(scanning := on);
    }

    /** stop_scan(): with nothing to stop, the answer is put off to the loop. */
    method StopScanning(after: After, ghost ctx: Context)
      requires after.ScanStopped? || after.ConnectStopped?
      requires Sound(s, ctx) && UnderWay(s, ctx, Steps([], after))
      modifies this
      ensures Sound(s, ctx) && UnderWay(s, ctx)
      ensures Went(old(s), s, AfterCount(old(s).watch, after), 3 + AfterWeight(after))
      ensures if old(s).scanning && !old(s).closed then old(s).log + [Asked(LE_SET_SCAN_ENABLE)] <= s.log
              else s.log == old(s).log
      decreases Total(s) + 3 + AfterWeight(after), 2
    {
      hide Slots, Pumped, Work;
      if s.scanning {
        RunSequence([LE_SET_SCAN_ENABLE], after, ctx);
      } else if after != ScanStopped(None) {
        PutOff(after, ctx);
      }
    }

    method PutOff(after: After, ghost ctx: Context)
      requires Sound(s, ctx) && UnderWay(s, ctx, Steps([], after))
      modifies this
      ensures Sound(s, ctx) && UnderWay(s, ctx)
      ensures Went(old(s), s, AfterCount(old(s).watch, after), 1 + AfterWeight(after))
      ensures s.log == old(s).log
    {
      hide Emptied, Pumped, Work, Slack;
      DeferKeeps(s, Stopped(after), ctx);
      s := Defer(s, Stopped(after));
    }

    // -------------------------------------------------------- connections

    /** connect(): the scan is stopped first. One attempt at a time. */
    method StartConnect(done: Maybe, ghost ctx: Context)
      requires Sound(s, ctx) && UnderWay(s, ctx)
      modifies this
      ensures Sound(s, ctx) && UnderWay(s, ctx)
      ensures Went(old(s), s, MaybeCount(old(s).watch, done), 18 + MaybeWeight(done))
      ensures if !old(s).closed && !old(s).connectPending && old(s).scanning
              then old(s).log + [Asked(LE_SET_SCAN_ENABLE)] <= s.log
              else s.log == old(s).log
      decreases Total(s) + 19 + MaybeWeight(done), 0
    {
      if s.closed || s.connectPending {
        Refuse(done, ctx);
        return;
      }
      BeginConnect(done, ctx);
      StopScanning(ConnectStopped, ctx);
    }

    method BeginConnect(done: Maybe, ghost ctx: Context)
      requires Sound(s, ctx) && UnderWay(s, ctx) && !s.closed && !s.connectPending
      modifies this
      ensures Sound(s, ctx) && UnderWay(s, ctx, Steps([], ConnectStopped))
      ensures Went(old(s), s, MaybeCount(old(s).watch, done), 10 + MaybeWeight(done))
      ensures s == old(s).(connectPending := true, connectDone := done, connectRestoreScan := old(s).scanning)
    {
      s := s.(connectPending := true, connectDone := done, connectRestoreScan := s.scanning);
    }

    method Refuse(done: Maybe, ghost ctx: Context)
      requires Sound(s, ctx) && UnderWay(s, ctx)
      modifies this
      ensures Sound(s, ctx) && UnderWay(s, ctx)
      ensures Went(old(s), s, MaybeCount(old(s).watch, done), 1 + MaybeWeight(done))
      ensures s.log == old(s).log
    {
      if done != None {
        DeferKeeps(s, Refused(AsDone(done)), ctx);
        s := Defer(s, Refused(AsDone(done)));
      }
    }

    method ContinueConnect(ok: bool, ghost ctx: Context)
      requires Sound(s, ctx) && UnderWay(s, ctx, ConnectSent)
      modifies this
      ensures Sound(s, ctx) && UnderWay(s, ctx)
      ensures Went(old(s), s, 0, 3)
      ensures if !old(s).connectPending then s.log == old(s).log
              else old(s).log + [if ok then Asked(LE_CREATE_CONNECTION) else ConnectOver(false)] <= s.log
      decreases Total(s) + 3, 9
    {
      if s.connectPending {
        if ok {
          IssueCommand(LE_CREATE_CONNECTION, ConnectSent, ctx);
        } else {
          FinishConnect(false, ctx);
        }
      }
    }

    method ConnectWasSent(ok: bool, ghost ctx: Context)
      requires Sound(s, ctx) && UnderWay(s, ctx, ConnectSent)
      modifies this
      ensures Sound(s, ctx) && UnderWay(s, ctx)
      ensures Went(old(s), s, 0, 0)
      decreases Total(s) + 1, 0
    {
      hide Sum;
      if s.connectPending {
        if ok {
          s := Arm(s, ConnectTimeout).(connectTimer := s.nextTimer);
        } else {
          FinishConnect(false, ctx);
        }
      }
    }

    /** finish_connect(): on failure the scan is put back. */
    method FinishConnect(ok: bool, ghost ctx: Context)
      requires Sound(s, ctx) && UnderWay(s, ctx, ConnectSent) && s.connectPending
      modifies this
      ensures Sound(s, ctx) && UnderWay(s, ctx)
      ensures Went(old(s), s, 0, -4)
      ensures old(s).log + [ConnectOver(ok)] <= s.log
      ensures old(s).connectRestoreScan && !ok ==>
                old(s).log + [ConnectOver(ok), Asked(LE_SET_SCAN_PARAMS)] <= s.log
      decreases Total(s), 9
    {
      hide Sound, UnderWay, Slack, Total;
      var done := EndConnect(ok, ctx);
      RestoreScan(ok, ctx);
      Invoke(done, ctx);
    }

    method EndConnect(ok: bool, ghost ctx: Context) returns (done: Maybe)
      requires Sound(s, ctx) && UnderWay(s, ctx, ConnectSent) && s.connectPending
      modifies this
      ensures Sound(s, ctx) && UnderWay(s, ctx) && s == TakeConnect(old(s), ok) && !s.closed
      ensures Went(old(s), s, -(MaybeCount(old(s).watch, done) as int), -10 - MaybeWeight(done) as int)
    {
      done := s.connectDone;
      TakeConnectKeeps(s, ok, ctx, ConnectSent);
      s := TakeConnect(s, ok);
    }

    method RestoreScan(ok: bool, ghost ctx: Context)
      requires Sound(s, ctx) && UnderWay(s, ctx)
      modifies this
      ensures Sound(s, ctx) && UnderWay(s, ctx)
      ensures Went(old(s), s, 0, 6)
      ensures if old(s).connectRestoreScan && !ok && !old(s).closed
              then old(s).log + [Asked(LE_SET_SCAN_PARAMS)] <= s.log
              else s == old(s).(connectRestoreScan := false)
      decreases Total(s) + 6, 10
    {
      hide Sum, SumMap;
      if s.connectRestoreScan && !ok && !s.closed {
        RunSequence([LE_SET_SCAN_PARAMS, LE_SET_SCAN_ENABLE], ScanStarted(None), ctx);
      }
      ForgetScan(ctx);
    }

    method ForgetScan(ghost ctx: Context)
      requires Sound(s, ctx) && UnderWay(s, ctx)
      modifies this
      ensures Sound(s, ctx) && UnderWay(s, ctx)
      ensures Went(old(s), s, 0, 0)
      ensures s == old(s).(connectRestoreScan := false)
    {
      Bookkeeping(s, s.(connectRestoreScan := false), ctx, Nothing);
      s := s.(connectRestoreScan := false);
    }

    // --------------------------------------------------------- encryption

    method Encrypt(conn: nat, done: Maybe, ghost ctx: Context)
      requires Sound(s, ctx) && UnderWay(s, ctx)
      modifies this
      ensures Sound(s, ctx) && UnderWay(s, ctx)
      ensures Went(old(s), s, MaybeCount(old(s).watch, done), 18 + MaybeWeight(done))
      ensures if !old(s).closed && conn in old(s).conns && !old(s).encryptPending
              then old(s).log + [Asked(LE_START_ENCRYPTION)] <= s.log
              else s.log == old(s).log
      decreases Total(s) + 19 + MaybeWeight(done), 0
    {
      hide Sound, UnderWay, Slack, Total;
      if s.closed || conn !in s.conns || s.encryptPending {
        Refuse(done, ctx);
        return;
      }
      BeginEncrypt(done, ctx);
      IssueCommand(LE_START_ENCRYPTION, EncryptSent, ctx);
    }

    method BeginEncrypt(done: Maybe, ghost ctx: Context)
      requires Sound(s, ctx) && UnderWay(s, ctx) && !s.closed && !s.encryptPending
      modifies this
      ensures Sound(s, ctx) && UnderWay(s, ctx, EncryptSent)
      ensures Went(old(s), s, MaybeCount(old(s).watch, done), 3 + MaybeWeight(done))
      ensures s == old(s).(encryptPending := true, encryptDone := done)
    {
      hide Channels;
      s := s.(encryptPending := true, encryptDone := done);
    }

    method EncryptWasSent(ok: bool, ghost ctx: Context)
      requires Sound(s, ctx) && UnderWay(s, ctx, EncryptSent)
      modifies this
      ensures Sound(s, ctx) && UnderWay(s, ctx)
      ensures Went(old(s), s, 0, 0)
      decreases Total(s) + 1, 0
    {
      hide Sum, SumMap;
      if s.encryptPending {
        if ok {
          s := Arm(s, EncryptTimeout).(encryptTimer := s.nextTimer);
        } else {
          FinishEncryption(ctx);
        }
      }
    }

    method FinishEncryption(ghost ctx: Context)
      requires Sound(s, ctx) && UnderWay(s, ctx, EncryptSent) && s.encryptPending
      modifies this
      ensures Sound(s, ctx) && UnderWay(s, ctx)
      ensures Went(old(s), s, 0, -3)
      ensures old(s).log + [EncryptOver] <= s.log
      decreases Total(s), 9
    {
      hide Sound, UnderWay, Slack, Total;
      var done := EndEncrypt(ctx);
      Invoke(done, ctx);
    }

    method EndEncrypt(ghost ctx: Context) returns (done: Maybe)
      requires Sound(s, ctx) && UnderWay(s, ctx, EncryptSent) && s.encryptPending
      modifies this
      ensures Sound(s, ctx) && UnderWay(s, ctx) && s == TakeEncrypt(old(s))
      ensures Went(old(s), s, -(MaybeCount(old(s).watch, done) as int), -3 - MaybeWeight(done) as int)
    {
      done := s.encryptDone;
      TakeEncryptKeeps(s, ctx, EncryptSent);
      s := TakeEncrypt(s);
    }

    // ---------------------------------------------------------------- ATT

    method RequestAtt(conn: nat, pdu: seq<nat>, done: Maybe, ghost ctx: Context)
      requires Sound(s, ctx) && UnderWay(s, ctx)
      modifies this
      ensures Sound(s, ctx) && UnderWay(s, ctx)
      ensures Went(old(s), s, MaybeCount(old(s).watch, done), 18 + MaybeWeight(done))
      ensures if pdu != [] && !old(s).closed && conn in old(s).conns
              then old(s).log + [Made(conn, pdu[0])] <= s.log
              else s.log == old(s).log
      decreases Total(s) + 19 + MaybeWeight(done), 0
    {
      hide Sound, Slack, Total, UnderWay;
      if pdu == [] || s.closed || conn !in s.conns {
        Refuse(done, ctx);
        return;
      }
      TakeIn(conn, Request(pdu[0], done), ctx);
      PumpAtt(conn, ctx);
    }

    method TakeIn(conn: nat, r: Request, ghost ctx: Context)
      requires Sound(s, ctx) && UnderWay(s, ctx) && !s.closed
      modifies this
      ensures Sound(s, ctx.(attBusy := ctx.attBusy + {conn})) && UnderWay(s, ctx)
      ensures s == QueueRequest(old(s), conn, r)
      ensures Went(old(s), s, MaybeCount(old(s).watch, r.done), 2 + MaybeWeight(r.done))
    {
      hide Slots;
      QueueRequestKeeps(s, conn, r, ctx);
      s := QueueRequest(s, conn, r);
    }

    /** pump_att(). A request that cannot be queued for sending fails at once,
        and the next one is tried. */
    method PumpAtt(conn: nat, ghost ctx: Context)
      requires Sound(s, ctx.(attBusy := ctx.attBusy + {conn})) && UnderWay(s, ctx)
      modifies this
      ensures Sound(s, ctx) && UnderWay(s, ctx)
      ensures Went(old(s), s, 0, 0)
      decreases Total(s), 9
    {
      hide Sound, UnderWay, Slack, Total, OwnTimer;
      if conn !in s.att || s.att[conn].inFlight || s.att[conn].queue == [] || s.closed {
        NothingToPump(s, conn, ctx);
        return;
      }
      TakeUp(conn, ctx);
      var sent: bool, broke: bool := *, *;
      if broke {
        BreakDown(ctx.(attBare := ctx.attBare + {conn}), ctx);
      } else if !sent {
        FinishAtt(conn, ctx);
      } else {
        AwaitAnswer(conn, ctx);
      }
    }

    method TakeUp(conn: nat, ghost ctx: Context)
      requires Sound(s, ctx.(attBusy := ctx.attBusy + {conn})) && UnderWay(s, ctx)
      requires conn in s.att && !s.att[conn].inFlight && s.att[conn].queue != [] && !s.closed
      modifies this
      ensures Sound(s, ctx.(attBare := ctx.attBare + {conn})) && UnderWay(s, ctx)
      ensures conn in s.att && s.att[conn].inFlight && s.att[conn].timer == NO_TIMER && OwnTimer(s, conn)
      ensures Went(old(s), s, 0, -1) && !s.closed
    {
      TakeRequestKeeps(s, conn, ctx);
      assert Ordered(s.att, s.log, conn);
      s := TakeRequest(s, conn);
    }

    method AwaitAnswer(conn: nat, ghost ctx: Context)
      requires Sound(s, ctx.(attBare := ctx.attBare + {conn})) && UnderWay(s, ctx)
      requires conn in s.att && s.att[conn].inFlight && s.att[conn].timer == NO_TIMER
      modifies this
      ensures Sound(s, ctx) && UnderWay(s, ctx) && Went(old(s), s, 0, 0)
    {
      ArmRequestKeeps(s, conn, ctx);
      s := ArmRequest(s, conn);
    }

    /** A write that failed takes the whole link down. */
    method BreakDown(ghost ctx: Context, ghost other: Context)
      requires Sound(s, ctx) && !s.closed
      modifies this
      ensures Sound(s, other) && UnderWay(s, other) && s.closed && Went(old(s), s, 0, 0)
      decreases Total(s), 8
    {
      FailLink();
      ClosedIsSound(s, IDLE, other);
    }

    /** finish_att(). */
    method FinishAtt(conn: nat, ghost ctx: Context)
      requires Sound(s, ctx.(attBare := ctx.attBare + {conn})) && UnderWay(s, ctx)
      requires conn in s.att && s.att[conn].inFlight && OwnTimer(s, conn)
      modifies this
      ensures Sound(s, ctx) && UnderWay(s, ctx)
      ensures Went(old(s), s, 0, -1)
      ensures old(s).log + [Settled(conn)] <= s.log
      decreases Total(s), 9
    {
      hide Sound, Work, Slack, Total, OwnTimer;
      var done := TakeDown(conn, ctx);
      Invoke(done, ctx.(attBusy := ctx.attBusy + {conn}));
      PumpAtt(conn, ctx);
    }

    method TakeDown(conn: nat, ghost ctx: Context) returns (done: Maybe)
      requires Sound(s, ctx.(attBare := ctx.attBare + {conn})) && UnderWay(s, ctx)
      requires conn in s.att && s.att[conn].inFlight && OwnTimer(s, conn)
      modifies this
      ensures Sound(s, ctx.(attBusy := ctx.attBusy + {conn})) && UnderWay(s, ctx.(attBusy := ctx.attBusy + {conn}))
      ensures s.log == old(s).log + [Settled(conn)]
      ensures Went(old(s), s, -(MaybeCount(old(s).watch, done) as int), -1 - MaybeWeight(done) as int)
    {
      done := s.att[conn].done;
      TakeAnswerKeeps(s, conn, ctx);
      s := TakeAnswer(s, conn);
    }

    // ------------------------------------------------------------ failure

    /** fail(): everything outstanding fails at once. */
    method FailLink()
      requires Loose(s) && !s.closed
      modifies this
      ensures Sound(s, IDLE) && UnderWay(s, IDLE) && s.closed
      ensures Went(old(s), s, 0, 0)
      ensures old(s).log + [Broke] <= s.log
      decreases Total(s), 7
    {
      hide Loose, Sound, UnderWay, Slack, Total, Sum, SumMap, DoneCount, DoneWeight;
      var was := s;
      ShutDown();
      var commands, att := was.cmdQueue, was.att;
      var cmdDone, connectDone, encryptDone, onReady := was.cmdDone, was.connectDone, was.encryptDone, was.onReady;
      ClosedIsIdle(s, cmdDone);
      RunDone(cmdDone, false, IDLE);
      FailCommands(commands);
      FailChannels(att);
      Invoke(connectDone, IDLE);
      Invoke(encryptDone, IDLE);
      Invoke(onReady, IDLE);
    }

    method ShutDown()
      requires Loose(s) && !s.closed
      modifies this
      ensures Sound(s, IDLE) && UnderWay(s, IDLE) && s.closed && s.log == old(s).log + [Broke]
      ensures var was := old(s);
              Went(was, s, -(Sum(QueuedCount(was.watch), was.cmdQueue) + DoneCount(was.watch, was.cmdDone)
                             + SumMap(ChannelCount(was.watch), was.att) + MaybeCount(was.watch, was.connectDone)
                             + MaybeCount(was.watch, was.encryptDone) + MaybeCount(was.watch, was.onReady)),
                   -(Sum(QueuedWeight(), was.cmdQueue) + DoneWeight(was.cmdDone)
                     + SumMap(ChannelWeight(), was.att) + MaybeWeight(was.connectDone)
                     + MaybeWeight(was.encryptDone) + MaybeWeight(was.onReady)))
    {
      hide Loose, Sound, UnderWay, Slack, Total, Sum, SumMap;
      ShutKeeps(s, IDLE);
      s := Shut(s);
    }

    method FailCommands(commands: seq<Queued>)
      requires Sound(s, IDLE) && UnderWay(s, IDLE) && s.closed
      modifies this
      ensures Sound(s, IDLE) && UnderWay(s, IDLE)
      ensures Went(old(s), s, Sum(QueuedCount(old(s).watch), commands), Sum(QueuedWeight(), commands))
      decreases Total(s) + Sum(QueuedWeight(), commands), 6
    {
      var i := 0;
      assert commands[0..] == commands;
      while i < |commands|
        invariant i <= |commands| && s.closed
        invariant Sound(s, IDLE) && UnderWay(s, IDLE)
        invariant Went(old(s), s,
                       Sum(QueuedCount(old(s).watch), commands) - Sum(QueuedCount(old(s).watch), commands[i..]),
                       Sum(QueuedWeight(), commands) - Sum(QueuedWeight(), commands[i..]))
      {
        assert commands[i..][1..] == commands[i + 1..];
        ClosedIsIdle(s, commands[i].done);
        RunDone(commands[i].done, false, IDLE);
        i := i + 1;
      }
    }

    method FailRequests(queue: seq<Request>)
      requires Sound(s, IDLE) && UnderWay(s, IDLE)
      modifies this
      ensures Sound(s, IDLE) && UnderWay(s, IDLE)
      ensures Went(old(s), s, Sum(RequestCount(old(s).watch), queue), Sum(RequestWeight(), queue))
      decreases Total(s) + Sum(RequestWeight(), queue), 4
    {
      var i := 0;
      assert queue[0..] == queue;
      while i < |queue|
        invariant i <= |queue|
        invariant Sound(s, IDLE) && UnderWay(s, IDLE)
        invariant Went(old(s), s, Sum(RequestCount(old(s).watch), queue) - Sum(RequestCount(old(s).watch), queue[i..]),
                       Sum(RequestWeight(), queue) - Sum(RequestWeight(), queue[i..]))
      {
        assert queue[i..][1..] == queue[i + 1..];
        Invoke(queue[i].done, IDLE);
        i := i + 1;
      }
    }

    method FailChannel(c: Channel)
      requires Sound(s, IDLE) && UnderWay(s, IDLE)
      modifies this
      ensures Sound(s, IDLE) && UnderWay(s, IDLE)
      ensures Went(old(s), s, ChannelCount(old(s).watch)(c), ChannelWeight()(c))
      decreases Total(s) + ChannelWeight()(c), 5
    {
      Invoke(c.done, IDLE);
      FailRequests(c.queue);
    }

    method FailChannels(att: map<nat, Channel>)
      requires Sound(s, IDLE) && UnderWay(s, IDLE) && s.closed
      modifies this
      ensures Sound(s, IDLE) && UnderWay(s, IDLE)
      ensures Went(old(s), s, SumMap(ChannelCount(old(s).watch), att), SumMap(ChannelWeight(), att))
      decreases Total(s) + SumMap(ChannelWeight(), att), 6
    {
      var rest := att;
      while rest != map[]
        invariant s.closed && Sound(s, IDLE) && UnderWay(s, IDLE)
        invariant Went(old(s), s, SumMap(ChannelCount(old(s).watch), att) - SumMap(ChannelCount(old(s).watch), rest),
                       SumMap(ChannelWeight(), att) - SumMap(ChannelWeight(), rest))
        decreases |rest|
      {
        var conn :| conn in rest;
        SumMapAt(ChannelCount(s.watch), rest, conn);
        SumMapAt(ChannelWeight(), rest, conn);
        FailChannel(rest[conn]);
        rest := rest - {conn};
      }
    }

    // ------------------------------------------------------------- events
    //
    // One method for each thing that can happen between turns of the loop. A
    // handler for unsolicited traffic that calls back into the link is a
    // ProgramTurn of its own, before or after the event it was called for.

    /** The program makes calls of its own. */
    method ProgramTurn(calls: seq<Call>)
      requires Good()
      modifies this
      ensures Good() && Went(old(s), s, 0, CallsWeight(calls))
      ensures s.issued >= old(s).issued + CallsCount(old(s).watch, calls)
    {
      MakeCalls(calls, IDLE);
    }

    /** A Command Complete or Command Status event. */
    method CommandAnswered(opcode: nat, ok: bool)
      requires Good() && !s.closed
      modifies this
      ensures Good()
      ensures if old(s).cmdInFlight && opcode == old(s).cmdOpcode
              then Went(old(s), s, 0, -1) && old(s).log + [Answered] <= s.log
              else s == old(s)
    {
      if s.cmdInFlight && opcode == s.cmdOpcode {
        FinishCommand(ok, IDLE);
      }
    }

    /** An ATT PDU. It ends the request it settles, and else is none of the
        queues' business. */
    method AttReceived(conn: nat, pdu: seq<nat>)
      requires Good() && !s.closed && pdu != []
      modifies this
      ensures Good()
      ensures if Settles(old(s), conn, pdu)
              then Went(old(s), s, 0, -1) && old(s).log + [Settled(conn)] <= s.log
              else s == old(s)
    {
      hide Slack, Total;
      var isNotification := pdu[0] == NOTIFICATION || pdu[0] == INDICATION;
      if isNotification || conn !in s.att || !s.att[conn].inFlight {
        return;
      }
      var matches := pdu[0] == (s.att[conn].opcode + 1) % 256;
      if !matches && pdu[0] == ERROR_RESPONSE && |pdu| >= 2 {
        matches := pdu[1] == s.att[conn].opcode;
      }
      if matches {
        FinishAtt(conn, IDLE);
      }
    }

    method SetConnections(conns: set<nat>)
      requires Good()
      modifies this
      ensures Good() && Went(old(s), s, 0, 0) && s == old(s).(conns := conns)
    {
      Bookkeeping(s, s.(conns := conns), IDLE, Nothing);
      s := s.(conns := conns);
    }

    /** An LE Connection Complete event. */
    method ConnectionCompleted(ok: bool, conn: nat)
      requires Good() && !s.closed
      modifies this
      ensures Good()
      ensures if old(s).connectPending then Went(old(s), s, 0, -4) && old(s).log + [ConnectOver(ok)] <= s.log
              else s == old(s).(conns := old(s).conns + if ok then {conn} else {})
    {
      if ok {
        SetConnections(s.conns + {conn});
      }
      if s.connectPending {
        FinishConnect(ok, IDLE);
      }
    }

    /** An Encryption Change or Encryption Key Refresh event. */
    method EncryptionChanged()
      requires Good() && !s.closed
      modifies this
      ensures Good()
      ensures if old(s).encryptPending
              then Went(old(s), s, 0, -3) && old(s).log + [EncryptOver] <= s.log
              else s == old(s)
    {
      if s.encryptPending {
        FinishEncryption(IDLE);
      }
    }

    /** drop_connection(): everyone waiting on the connection is told. The
        encryption in progress is failed only if the connection had a channel. */
    method Disconnected(conn: nat)
      requires Good() && !s.closed
      modifies this
      ensures Good() && Went(old(s), s, 0, 0)
      ensures conn !in old(s).att ==> s == old(s).(conns := old(s).conns - {conn})
      ensures conn in old(s).att ==> old(s).log + [Dropped(conn)] <= s.log
    {
      SetConnections(s.conns - {conn});
      if conn in s.att {
        FailConnection(conn);
      }
    }

    method FailConnection(conn: nat)
      requires Good() && conn in s.att
      modifies this
      ensures Good() && Went(old(s), s, 0, 0)
      ensures old(s).log + [Dropped(conn)] <= s.log
    {
      hide Sound, Slack, Total;
      var channel := DropChannel(conn);
      FailChannel(channel);
      if s.encryptPending {
        FinishEncryption(IDLE);
      }
    }

    method DropChannel(conn: nat) returns (channel: Channel)
      requires Good() && conn in s.att
      modifies this
      ensures Sound(s, IDLE) && UnderWay(s, IDLE)
      ensures Went(old(s), s, -(ChannelCount(old(s).watch)(channel) as int), -(ChannelWeight()(channel) as int))
      ensures s.log == old(s).log + [Dropped(conn)]
    {
      channel := s.att[conn];
      assert Ordered(s.att, s.log, conn);
      RemoveChannelKeeps(s, conn, IDLE);
      s := RemoveChannel(s, conn);
    }

    /** The port breaks. */
    method PortError()
      requires Good()
      modifies this
      ensures Good() && s.closed && Went(old(s), s, 0, 0)
      ensures old(s).closed ==> s == old(s)
    {
      if !s.closed {
        FailLink();
      }
    }

    /** The loop runs the first piece of work that was put off to it. */
    method RunDeferred()
      requires Good() && s.deferred != []
      modifies this
      ensures Good() && Went(old(s), s, 0, -1)
    {
      var d := TakeDeferred();
      match d
      case Refused(done) => RunDone(done, false, IDLE);
      case Stopped(after) => RunStopped(after);
    }

    method RunStopped(after: After)
      requires Sound(s, IDLE) && UnderWay(s, IDLE, Steps([], after))
      modifies this
      ensures Sound(s, IDLE) && UnderWay(s, IDLE)
      ensures Went(old(s), s, AfterCount(old(s).watch, after), AfterWeight(after))
    {
      if after == ConnectStopped {
        ContinueConnect(true, IDLE);
      } else {
        Invoke(after.done, IDLE);
      }
    }

    method TakeDeferred() returns (d: Deferred)
      requires Good() && s.deferred != []
      modifies this
      ensures Sound(s, IDLE) && UnderWay(s, IDLE, DeferredDone(d))
      ensures Went(old(s), s, -(DeferredCount(old(s).watch)(d) as int), -(DeferredWeight()(d) as int))
    {
      d := s.deferred[0];
      PoppedKeeps(s);
      s := Popped(s);
    }

    /** A timer goes off. Either something is given up on, or the timer was
        left over from an attempt that is over and only it goes away. */
    method TimerFires(t: nat)
      requires Good() && t in s.timers
      modifies this
      ensures Good() && Went(old(s), s, 0, 1)
      ensures (s.closed && !old(s).closed) || Total(s) < Total(old(s)) ||
              (Total(s) == Total(old(s)) && s.timers == old(s).timers - {t})
    {
      match s.timers[t]
      case CommandTimeout(_) => CommandTimesOut(t);
      case AttTimeout(_, _) => AttTimesOut(t);
      case ConnectTimeout => ConnectTimesOut(t);
      case EncryptTimeout => EncryptTimesOut(t);
    }

    /** The guard of the source, that the command is still the one in flight,
        always holds here: an armed timer belongs to what is waiting for it. */
    method CommandTimesOut(t: nat)
      requires Good() && t in s.timers && s.timers[t].CommandTimeout?
      modifies this
      ensures Good() && Went(old(s), s, 0, -1)
      ensures old(s).log + [Answered] <= s.log
    {
      CommandTimerKeeps(s, t);
      s := Cancel(s, t).(cmdTimer := NO_TIMER);
      FinishCommand(false, IDLE);
    }

    method AttTimesOut(t: nat)
      requires Good() && t in s.timers && s.timers[t].AttTimeout?
      modifies this
      ensures Good() && Went(old(s), s, 0, -1)
      ensures old(s).log + [Settled(old(s).timers[t].conn)] <= s.log
    {
      var conn := s.timers[t].conn;
      AttTimerKeeps(s, t);
      s := Disarmed(s, t, conn);
      FinishAtt(conn, IDLE);
    }

    method ConnectTimesOut(t: nat)
      requires Good() && t in s.timers && s.timers[t] == ConnectTimeout
      modifies this
      ensures Good() && Went(old(s), s, 0, 1)
      ensures old(s).connectPending ==> (s.closed && !old(s).closed) || Total(s) < Total(old(s))
      ensures !old(s).connectPending ==> s.timers == old(s).timers - {t} && Total(s) == Total(old(s))
    {
      ConnectTimerKeeps(s, t);
      s := Cancel(s, t).(connectTimer := NO_TIMER);
      if s.connectPending {
        GiveUpConnect();
      }
    }

    method GiveUpConnect()
      requires Sound(s, IDLE) && UnderWay(s, IDLE.(hands := {ToConnect})) && s.connectPending
      modifies this
      ensures Sound(s, IDLE) && UnderWay(s, IDLE)
      ensures Went(old(s), s, 0, 1) && ((s.closed && !old(s).closed) || Total(s) < Total(old(s)))
    {
      hide Sum, SumMap;
      IssueCommand(LE_CREATE_CONNECTION_CANCEL, Nothing, IDLE.(hands := {ToConnect}));
      if s.connectPending {
        FinishConnect(false, IDLE);
      }
    }

    method EncryptTimesOut(t: nat)
      requires Good() && t in s.timers && s.timers[t] == EncryptTimeout
      modifies this
      ensures Good() && Went(old(s), s, 0, 0)
      ensures old(s).encryptPending ==> Total(s) < Total(old(s))
      ensures !old(s).encryptPending ==> s.timers == old(s).timers - {t} && Total(s) == Total(old(s))
    {
      EncryptTimerKeeps(s, t);
      s := Cancel(s, t).(encryptTimer := NO_TIMER);
      if s.encryptPending {
        FinishEncryption(IDLE);
      }
    }
  }

  // ------------------------------------------------------------ whole runs

  lemma {:induction false} SumOfZeros<K, T>(f: T -> nat, m: map<K, T>)
    requires forall k :: k in m ==> f(m[k]) == 0
    ensures SumMap(f, m) == 0
    decreases |m|
  {
    if m != map[] {
      var k :| k in m;
      SumMapAt(f, m, k);
      SumOfZeros(f, m - {k});
    }
  }

  /** What the log of a link tells, whenever it is looked at: commands reached the
      wire in the order they were asked for and all but the last were over before
      the next was sent; and so with the requests of every connection. */
  lemma KeepsOrder(s: State, conn: nat)
    requires Sound(s, IDLE)
    ensures var o := OrdersOf(s.log); o.sent <= o.asked && o.over <= |o.sent| <= o.over + 1
    ensures var y := StoryOf(s.log, conn); y.tried <= y.made && y.over <= |y.tried| <= y.over + 1
  {
    assert Ordered(s.att, s.log, conn);
  }

  /** With nothing left to do on an open link, all that was asked for was sent and
      is over, and so with the requests of every connection. */
  lemma AllIsOver(s: State, conn: nat)
    requires Sound(s, IDLE) && s.timers == map[] && !s.closed
    ensures var o := OrdersOf(s.log); o.sent == o.asked && o.over == |o.sent|
    ensures var y := StoryOf(s.log, conn); y.tried == y.made && y.over == |y.tried|
  {
    assert Ordered(s.att, s.log, conn);
  }

  /** No completion is ever stranded: once no work is waiting for the loop and
      no timer is running, the link holds none. */
  lemma NothingStranded(s: State)
    requires Sound(s, IDLE) && UnderWay(s, IDLE)
    requires s.deferred == [] && s.timers == map[]
    ensures Held(s) == 0
    ensures Slack(s) == 0 ==> s.called == s.issued
  {
    forall c | c in s.att
      ensures ChannelCount(s.watch)(s.att[c]) == 0
    {
      assert Ordered(s.att, s.log, c);
      assert !s.att[c].inFlight && s.att[c].queue == [];
    }
    SumOfZeros(ChannelCount(s.watch), s.att);
    assert s.cmdQueue == [] && s.cmdDone == Nothing;
    assert Work(s, ToConnect) == 0 && Work(s, ToEncrypt) == 0 && Work(s, ToStart) == 0;
  }

  /** Whatever happened before, and even if the controller never says another
      word, a finite number of timeouts and turns of the loop brings every
      completion that was ever promised to be called, exactly as often as it
      was promised. */
  method Silence(link: Link)
    requires link.Good()
    modifies link
    ensures link.Good()
    ensures link.s.called == link.s.issued && Held(link.s) == 0
    ensures old(link.s.closed) ==> link.s.closed
    ensures link.s.watch == old(link.s.watch) && link.s.called >= old(link.s.called)
    ensures old(link.s.log) <= link.s.log && link.s.timers == map[]
  {
    hide Sound, Slack, Sum;
    while link.s.deferred != [] || link.s.timers != map[]
      invariant link.Good()
      invariant old(link.s.closed) ==> link.s.closed
      invariant link.s.watch == old(link.s.watch) && link.s.called >= old(link.s.called)
      invariant old(link.s.log) <= link.s.log
      decreases !link.s.closed, Total(link.s), |link.s.timers|
    {
      if link.s.deferred != [] {
        link.RunDeferred();
      } else {
        var t :| t in link.s.timers;
        link.TimerFires(t);
      }
    }
    NothingStranded(link.s);
  }

  /** Losing the port: what was outstanding is told at once, what it asks for
      in reply is refused on later turns of the loop, and then nothing is owed. */
  method Unplug(link: Link)
    requires link.Good()
    modifies link
    ensures link.Good() && link.s.closed
    ensures link.s.called == link.s.issued && Held(link.s) == 0
  {
    link.PortError();
    Silence(link);
  }
}
