/** The sending half of the host: the fragment queue, the controller's buffer
    credits, and what they put on the wire (src/hcilink.cc, "ACL"). */
module AclLink {
  import opened Bytes
  import opened Framing
  import opened Hci
  import opened Wrappers
  import opened L2cap

  const MAX_QUEUED_FRAGMENTS := 64

  /** The fragments of one connection, in order. */
  function OnConn(frags: seq<Fragment>, conn: u16): seq<Fragment>
  {
    if frags == [] then []
    else (if frags[0].conn == conn then [frags[0]] else []) + OnConn(frags[1..], conn)
  }

  lemma {:induction false} OnConnAppend(a: seq<Fragment>, b: seq<Fragment>, conn: u16)
    ensures OnConn(a + b, conn) == OnConn(a, conn) + OnConn(b, conn)
  {
    if a == [] {
      assert a + b == b;
    } else {
      assert (a + b)[1..] == a[1..] + b && (a + b)[0] == a[0];
      OnConnAppend(a[1..], b, conn);
      assert [a[0]] + (OnConn(a[1..], conn) + OnConn(b, conn)) == [a[0]] + OnConn(a[1..], conn) + OnConn(b, conn);
    }
  }

  lemma {:induction false} OnConnAll(a: seq<Fragment>, conn: u16, other: u16)
    requires forall i :: 0 <= i < |a| ==> a[i].conn == conn
    ensures OnConn(a, other) == if other == conn then a else []
  {
    if a != [] {
      OnConnAll(a[1..], conn, other);
    }
  }

  /** What drop_connection leaves of the queue. */
  function Without(frags: seq<Fragment>, conn: u16): (r: seq<Fragment>)
    ensures forall f :: f in r <==> f in frags && f.conn != conn
  {
    if frags == [] then []
    else (if frags[0].conn == conn then [] else [frags[0]]) + Without(frags[1..], conn)
  }

  lemma {:induction false} OnConnWithout(frags: seq<Fragment>, conn: u16, other: u16)
    ensures OnConn(Without(frags, conn), other) == if other == conn then [] else OnConn(frags, other)
  {
    if frags != [] {
      OnConnWithout(frags[1..], conn, other);
      var head := if frags[0].conn == conn then [] else [frags[0]];
      OnConnAppend(head, Without(frags[1..], conn), other);
      assert head != [] ==> head[1..] == [];
    }
  }

  /** One packet the host writes: a command, or a piece of a connection's stream. */
  datatype Item = Command(opcode: u16, params: seq<byte>) | Acl(frag: Fragment)

  predicate Fits(item: Item) {
    match item
    case Command(_, params) => |params| < 256
    case Acl(frag) => FitsAcl(frag)
  }

  function Encode(item: Item): Packet {
    match item
    case Command(opcode, params) => BuildCommand(opcode, params)
    case Acl(frag) => BuildAcl(frag)
  }

  function EncodeAll(items: seq<Item>): (r: seq<Packet>)
    ensures |r| == |items|
  {
    if items == [] then [] else [Encode(items[0])] + EncodeAll(items[1..])
  }

  /** The bytes of a list of packets. */
  function WireBytes(items: seq<Item>): seq<byte> {
    Flatten(EncodeAll(items))
  }

  lemma {:induction false} BytesAppend(items: seq<Item>, item: Item)
    ensures WireBytes(items + [item]) == WireBytes(items) + Encode(item)
  {
    if items == [] {
      assert items + [item] == [item] && EncodeAll([item][1..]) == [];
      FlattenOne(Encode(item));
    } else {
      assert (items + [item])[1..] == items[1..] + [item];
      BytesAppend(items[1..], item);
      var head, mid := Encode(items[0]), EncodeAll(items[1..]);
      assert EncodeAll(items) == [head] + mid && ([head] + mid)[1..] == mid;
      var mid' := EncodeAll(items[1..] + [item]);
      assert EncodeAll(items + [item]) == [head] + mid' && ([head] + mid')[1..] == mid';
    }
  }

  lemma EncodeWellFormed(item: Item)
    requires Fits(item)
    ensures WellFormed(Encode(item))
  {
    if item.Acl? {
      AclRoundTrip(item.frag);
    }
  }

  /** What the far end of the wire hears on one connection. */
  function HeardOn(items: seq<Item>, conn: u16): seq<Fragment>
  {
    if items == [] then []
    else
      (if items[0].Acl? && items[0].frag.conn == conn then [items[0].frag] else [])
      + HeardOn(items[1..], conn)
  }

  lemma {:induction false} HeardOnAppend(a: seq<Item>, b: seq<Item>, conn: u16)
    ensures HeardOn(a + b, conn) == HeardOn(a, conn) + HeardOn(b, conn)
  {
    if a == [] {
      assert a + b == b;
    } else {
      assert (a + b)[1..] == a[1..] + b;
      HeardOnAppend(a[1..], b, conn);
    }
  }

  /** The (handle, count) pairs of a Number Of Completed Packets event, summed
      as far as the parameters go. */
  function FreedBy(params: seq<byte>, i: nat): nat
    requires params != []
    decreases params[0] as int - i
  {
    var off := 1 + i * 4;
    if i >= params[0] as int || off + 4 > |params| then 0
    else FieldAt(params, off + 2) + FreedBy(params, i + 1)
  }

  method SumFreed(params: seq<byte>) returns (freed: nat)
    requires params != []
    ensures freed == FreedBy(params, 0)
  {
    freed := 0;
    var i, count := 0, params[0] as int;
    while i < count
      invariant 0 <= i <= count
      invariant freed + FreedBy(params, i) == FreedBy(params, 0)
    {
      var off := 1 + i * 4;
      if off + 4 > |params| {
        break;
      }
      freed := freed + FieldAt(params, off + 2);
      i := i + 1;
    }
  }

  /** The state of one connection as seen from outside: the frames it was
      offered since it came up, and the wire position at which it did. */
  datatype Conn = Conn(since: nat, offered: seq<Frame>)

  /** The sending half at one moment. `wire` is every packet written whole. */
  datatype Net = Net(open: bool, m: nat, conns: map<u16, Conn>, queue: seq<Fragment>, wire: seq<Item>)

  /** What is on the wire for a connection, then what is queued for it, is what
      its offered frames fragment into. Once the link has failed the queue is
      gone and only a prefix went out. */
  ghost predicate Carries(n: Net, conn: u16) {
    && conn in n.conns
    && n.conns[conn].since <= |n.wire|
    && (var out := HeardOn(n.wire[n.conns[conn].since..], conn);
        var all := AllFragments(conn, n.conns[conn].offered, n.m);
        if n.open then out + OnConn(n.queue, conn) == all else out <= all)
  }

  ghost predicate AllCarried(n: Net) {
    forall c {:trigger Carries(n, c)} :: c in n.conns ==> Carries(n, c)
  }

  ghost predicate QueueFits(n: Net) {
    && 0 < n.m < 65536
    && (forall c :: c in n.conns ==> c < 0x1000)
    && (forall f :: f in n.queue ==> f.conn in n.conns && FitsAcl(f))
    && (!n.open ==> n.queue == [])
  }

  ghost predicate Consistent(n: Net) {
    AllCarried(n) && QueueFits(n) && forall item :: item in n.wire ==> Fits(item)
  }

  // ------------------------------------------------ what each step preserves

  lemma ConnectKeeps(n: Net, conn: u16)
    requires Consistent(n) && n.open && conn < 0x1000 && conn !in n.conns
    ensures Consistent(n.(conns := n.conns[conn := Conn(|n.wire|, [])]))
  {
    var n' := n.(conns := n.conns[conn := Conn(|n.wire|, [])]);
    forall c | c in n'.conns
      ensures Carries(n', c)
    {
      if c == conn {
        NoneOnConn(n.queue, conn);
        assert n.wire[|n.wire|..] == [];
      } else {
        assert Carries(n, c);
      }
    }
  }

  lemma {:induction false} NoneOnConn(frags: seq<Fragment>, conn: u16)
    requires forall f :: f in frags ==> f.conn != conn
    ensures OnConn(frags, conn) == []
  {
    if frags != [] {
      assert frags[0] in frags;
      NoneOnConn(frags[1..], conn);
    }
  }

  lemma DropKeeps(n: Net, conn: u16)
    requires Consistent(n)
    ensures Consistent(n.(conns := n.conns - {conn}, queue := Without(n.queue, conn)))
  {
    var n' := n.(conns := n.conns - {conn}, queue := Without(n.queue, conn));
    forall c | c in n'.conns
      ensures Carries(n', c)
    {
      assert Carries(n, c);
      OnConnWithout(n.queue, conn, c);
    }
  }

  /** The state after one more frame has been cut up and queued. */
  function Offered(n: Net, conn: u16, f: Frame): Net
    requires conn in n.conns
  {
    var c := n.conns[conn];
    n.(conns := n.conns[conn := c.(offered := c.offered + [f])],
       queue := n.queue + FrameFragments(conn, f, n.m))
  }

  lemma OfferKeeps(n: Net, conn: u16, f: Frame)
    requires Consistent(n) && n.open && conn in n.conns
    ensures Consistent(Offered(n, conn, f))
  {
    var frags := FrameFragments(conn, f, n.m);
    FrameFragmentsFit(n, conn, f);
    forall c | c in n.conns
      ensures Carries(Offered(n, conn, f), c)
    {
      OfferCarries(n, conn, f, c);
    }
  }

  lemma OfferCarries(n: Net, conn: u16, f: Frame, c: u16)
    requires n.open && conn in n.conns && Carries(n, c)
    requires forall i :: 0 <= i < |FrameFragments(conn, f, n.m)| ==> FrameFragments(conn, f, n.m)[i].conn == conn
    ensures Carries(Offered(n, conn, f), c)
  {
    var frags := FrameFragments(conn, f, n.m);
    OnConnAppend(n.queue, frags, c);
    OnConnAll(frags, conn, c);
    AllFragmentsAppend(conn, n.conns[conn].offered, f, n.m);
    Regroup(HeardOn(n.wire[n.conns[c].since..], c), OnConn(n.queue, c), OnConn(frags, c));
  }

  lemma FrameFragmentsFit(n: Net, conn: u16, f: Frame)
    requires QueueFits(n) && n.open && conn in n.conns
    ensures QueueFits(Offered(n, conn, f))
    ensures forall i :: 0 <= i < |FrameFragments(conn, f, n.m)| ==> FrameFragments(conn, f, n.m)[i].conn == conn
  {
    FragmentsCoverFrame(BuildL2cap(f), n.m);
    var frags := FrameFragments(conn, f, n.m);
    forall g | g in frags
      ensures g.conn == conn && FitsAcl(g)
    {
      var i :| 0 <= i < |frags| && frags[i] == g;
      assert g.data == Fragments(BuildL2cap(f), n.m)[i];
    }
  }

  /** The state after the front of the queue has been written. */
  function Sent(n: Net): Net
    requires n.queue != []
  {
    n.(queue := n.queue[1..], wire := n.wire + [Acl(n.queue[0])])
  }

  lemma SendKeeps(n: Net)
    requires Consistent(n) && n.open && n.queue != []
    ensures Fits(Acl(n.queue[0]))
    ensures Consistent(Sent(n))
  {
    assert n.queue[0] in n.queue;
    forall c | c in n.conns
      ensures Carries(Sent(n), c)
    {
      SendCarries(n, c);
    }
  }

  lemma SendCarries(n: Net, c: u16)
    requires n.queue != [] && n.open && Carries(n, c)
    ensures Carries(Sent(n), c)
  {
    var item, since := Acl(n.queue[0]), n.conns[c].since;
    HeardNext(n.wire, item, since, c);
    Regroup(HeardOn(n.wire[since..], c), HeardOn([item], c), OnConn(n.queue[1..], c));
  }

  lemma HeardNext(wire: seq<Item>, item: Item, since: nat, c: u16)
    requires since <= |wire|
    ensures HeardOn((wire + [item])[since..], c) == HeardOn(wire[since..], c) + HeardOn([item], c)
    ensures HeardOn([item], c) == if item.Acl? && item.frag.conn == c then [item.frag] else []
  {
    DropConcat(wire, [item], since);
    HeardOnAppend(wire[since..], [item], c);
    assert [item][1..] == [];
  }

  /** A command leaves every connection's stream as it was. */
  lemma CommandKeeps(n: Net, item: Item)
    requires Consistent(n) && item.Command? && Fits(item)
    ensures Consistent(n.(wire := n.wire + [item]))
  {
    forall c | c in n.conns
      ensures Carries(n.(wire := n.wire + [item]), c)
    {
      assert Carries(n, c);
      HeardNext(n.wire, item, n.conns[c].since, c);
      assert HeardOn(n.wire[n.conns[c].since..], c) + [] == HeardOn(n.wire[n.conns[c].since..], c);
    }
  }

  /** The state once the port has broken. */
  function Failed(n: Net): Net {
    n.(open := false, queue := [])
  }

  lemma FailKeeps(n: Net)
    requires Consistent(n)
    ensures Consistent(Failed(n))
  {
    forall c | c in n.conns
      ensures Carries(Failed(n), c)
    {
      assert Carries(n, c);
    }
  }

  /** `k` packets written off the front of the queue. */
  function Drained(n: Net, k: nat): Net
    requires k <= |n.queue|
    decreases k
  {
    if k == 0 then n else Drained(Sent(n), k - 1)
  }

  lemma {:induction false} DrainedSnoc(n: Net, k: nat)
    requires k < |n.queue|
    ensures |Drained(n, k).queue| == |n.queue| - k
    ensures Drained(n, k + 1) == Sent(Drained(n, k))
    decreases k
  {
    if k > 0 {
      DrainedSnoc(Sent(n), k - 1);
    }
  }

  function Least(a: nat, b: nat): nat {
    if a < b then a else b
  }

  /** A connection that has not had everything written that it was offered. */
  ghost predicate Unfinished(n: Net, conn: u16) {
    && conn in n.conns
    && n.conns[conn].since <= |n.wire|
    && |HeardOn(n.wire[n.conns[conn].since..], conn)| < |AllFragments(conn, n.conns[conn].offered, n.m)|
  }

  lemma QueuedIsUnfinished(n: Net, conn: u16)
    requires Consistent(n) && n.open
    requires n.queue != [] && n.queue[|n.queue| - 1].conn == conn
    ensures Unfinished(n, conn) && Unfinished(Failed(n), conn)
  {
    assert n.queue[|n.queue| - 1] in n.queue;
    assert Carries(n, conn);
    var last := |n.queue| - 1;
    assert n.queue == n.queue[..last] + [n.queue[last]];
    OnConnAppend(n.queue[..last], [n.queue[last]], conn);
    OnConnAll([n.queue[last]], conn, conn);
  }

  lemma FrameReassemblyNeedsFragments(f: Frame, m: nat)
    requires m > 0
    ensures Fragments(BuildL2cap(f), m) != []
  {
  }

  lemma SizeWithout(m: multiset<u16>, x: u16)
    ensures |m[x := 0]| + m[x] == |m|
  {
    var all := multiset{}[x := m[x]];
    assert m == m[x := 0] + all;
    SingleSize(x, m[x]);
  }

  lemma SingleSize(x: u16, n: nat)
    ensures |multiset{}[x := n]| == n
  {
  }

  /** A fragment waits for the connection. */
  ghost predicate QueuedFor(queue: seq<Fragment>, conn: u16) {
    exists g :: g in queue && g.conn == conn
  }

  /** The ACL half of Link. `port` is every byte the serial port took. */
  class AclSender {
    var closed: bool
    var payloadSize: nat
    var credits: int
    var total: int
    var conns: set<u16>
    var queue: seq<Fragment>
    var port: seq<byte>

    ghost var streams: map<u16, Conn>
    ghost var wire: seq<Item>
    ghost var torn: seq<byte>
    // The handles of packets the controller still holds, and how many more
    // buffers it has free than it has said: those that went with connections
    // that dropped, less those it reported without having freed them.
    ghost var unacked: multiset<u16>
    ghost var lost: int

    ghost function View(): Net
      reads this`closed, this`payloadSize, this`streams, this`queue, this`wire
    {
      Net(!closed, payloadSize, streams, queue, wire)
    }

    ghost predicate Valid()
      reads this
    {
      && Consistent(View())
      && streams.Keys == conns
      && port == WireBytes(wire) + torn && Stuck(H4Head, torn)
      && (!closed ==> torn == [])
      && Ledger()
    }

    /** The credit ledger: every buffer of the controller is free, holds a
        packet, or has been lost sight of. */
    ghost predicate Ledger()
      reads this`credits, this`unacked, this`lost, this`total
    {
      && 0 <= credits <= total
      && credits + |unacked| + lost == total
    }

    /** Nothing waits while there is a buffer to put it in. */
    ghost predicate AtRest()
      reads this
    {
      !closed && queue != [] ==> credits == 0
    }

    constructor (payload: nat, buffers: nat)
      requires 0 < payload < 65536 && 0 < buffers
      ensures Valid() && AtRest() && !closed && conns == {} && wire == []
      ensures credits == total == buffers && lost == 0 && unacked == multiset{} && queue == []
      ensures payloadSize == payload
    {
      closed, payloadSize, credits, total := false, payload, buffers, buffers;
      conns, queue, port := {}, [], [];
      streams, wire, torn := map[], [], [];
      unacked, lost := multiset{}, 0;
    }

    /** The port takes the whole packet, or breaks having taken part of it. */
    method WritePacket(item: Item) returns (ok: bool)
      requires !closed && Fits(item) && port == WireBytes(wire) && torn == []
      modifies this`port, this`wire, this`torn
      ensures port == WireBytes(wire) + torn && Stuck(H4Head, torn)
      ensures wire == if ok then old(wire) + [item] else old(wire)
      ensures ok ==> torn == []
    {
      EncodeWellFormed(item);
      BytesAppend(wire, item);
      var p := Encode(item);
      ok := *;
      if ok {
        port := port + p;
        wire := wire + [item];
      } else {
        var taken: nat :| taken < |p|;
        BrokenWrite(p, taken);
        torn := p[..taken];
        port := port + p[..taken];
      }
    }

    /** The part of fail() that concerns this half. */
    method Fail()
      modifies this`closed, this`queue
      ensures closed && queue == []
    {
      closed, queue := true, [];
    }

    /** The port reports an error of its own. */
    method PortError()
      requires Valid()
      modifies this`closed, this`queue
      ensures Valid() && closed && View() == Failed(old(View()))
    {
      FailKeeps(View());
      Fail();
    }

    /** Commands share the wire and leave the ACL streams alone. */
    method WriteCommand(opcode: u16, params: seq<byte>)
      requires Valid() && AtRest() && !closed && |params| < 256
      modifies this`closed, this`queue, this`port, this`wire, this`torn
      ensures Valid() && AtRest()
      ensures View() == Failed(old(View())) ||
              View() == old(View()).(wire := old(wire) + [Command(opcode, params)])
    {
      CommandKeeps(View(), Command(opcode, params));
      FailKeeps(View());
      var ok := WritePacket(Command(opcode, params));
      if !ok {
        Fail();
      }
    }

    /** A packet for `conn` takes up one of the controller's buffers. */
    method Spend(conn: u16)
      requires Ledger() && credits > 0
      modifies this`credits, this`unacked
      ensures Ledger() && credits == old(credits) - 1 && unacked == old(unacked) + multiset{conn}
    {
      credits := credits - 1;
      unacked := unacked + multiset{conn};
    }

    /** One turn of pump_acl's loop: the front of the queue goes out against a credit. */
    method SendFront() returns (ok: bool)
      requires Valid() && !closed && credits > 0 && queue != []
      modifies this`closed, this`credits, this`queue, this`port, this`streams, this`wire, this`torn, this`unacked
      ensures Valid() && closed == !ok
      ensures View() == if ok then Sent(old(View())) else Failed(old(View()))
      ensures credits == old(credits) - 1 && unacked == old(unacked) + multiset{old(queue)[0].conn}
    {
      hide WireBytes;
      ghost var was := View();
      var f := queue[0];
      SendKeeps(was);
      FailKeeps(was);
      queue := queue[1..];
      Spend(f.conn);
      ok := WritePacket(Acl(f));
      if !ok {
        Fail();
      }
    }

    method PumpAcl()
      requires Valid()
      modifies this`closed, this`credits, this`queue, this`port, this`streams, this`wire, this`torn, this`unacked
      ensures Valid() && AtRest()
      ensures old(closed) || old(credits) == 0 ==>
                closed == old(closed) && View() == old(View()) && credits == old(credits) && port == old(port)
      ensures !closed ==>
                && View() == Drained(old(View()), Least(old(credits), |old(queue)|))
                && credits == old(credits) - Least(old(credits), |old(queue)|)
      ensures streams == old(streams)
      ensures forall h :: h in unacked ==> h in old(unacked) || QueuedFor(old(queue), h)
      ensures closed && !old(closed) ==>
                && old(queue) != []
                && Unfinished(View(), old(queue)[|old(queue)| - 1].conn)
    {
      hide Consistent, WireBytes;
      ghost var k := 0;
      ghost var start, conn := View(), if queue == [] then 0 else queue[|queue| - 1].conn;
      while !closed && credits > 0 && queue != []
        invariant Valid()
        invariant k <= |start.queue|
        invariant old(closed) || old(credits) == 0 ==>
                    closed == old(closed) && View() == start && credits == old(credits) && port == old(port)
        invariant !closed ==> View() == Drained(start, k) && credits == old(credits) - k && k + |queue| == |start.queue|
        invariant !closed && queue != [] ==> queue[|queue| - 1].conn == conn
        invariant streams == start.conns
        invariant forall g :: g in queue ==> g in start.queue
        invariant forall h :: h in unacked ==> h in old(unacked) || QueuedFor(start.queue, h)
        invariant closed && !old(closed) ==> start.queue != [] && Unfinished(View(), conn)
        decreases !closed, |queue|
      {
        DrainedSnoc(start, k);
        QueuedIsUnfinished(View(), conn);
        assert queue[0] in start.queue;
        var ok := SendFront();
        k := k + 1;
      }
    }

    /** queue_acl, by way of send_l2cap: all of a frame's fragments are queued, or none. */
    method SendL2cap(conn: u16, f: Frame) returns (ok: bool)
      requires Valid() && AtRest()
      modifies this`closed, this`credits, this`queue, this`port, this`streams, this`wire, this`torn, this`unacked
      ensures Valid() && AtRest()
      ensures var frags := FrameFragments(conn, f, payloadSize);
              var accepted := !old(closed) && conn in conns && |old(queue)| + |frags| <= MAX_QUEUED_FRAGMENTS;
              && (ok <==> accepted && !closed)
              && (!accepted ==> View() == old(View()) && credits == old(credits))
              && (!accepted ==> port == old(port) && closed == old(closed))
              && (ok ==> View() == Drained(Offered(old(View()), conn, f), Least(old(credits), |old(queue)| + |frags|)))
              && (ok ==> credits == old(credits) - Least(old(credits), |old(queue)| + |frags|))
              && (accepted && !ok ==> streams == Offered(old(View()), conn, f).conns && Unfinished(View(), conn))
              && (accepted && old(credits) == 0 ==> ok && wire == old(wire) && credits == 0)
      ensures forall h :: h in unacked ==> h in old(unacked) || h == conn || QueuedFor(old(queue), h)
    {
      hide WireBytes, H4Head, Drained;
      if closed || conn !in conns {
        return false;
      }
      var pieces := FragmentFrame(BuildL2cap(f), payloadSize);
      if |queue| + |pieces| > MAX_QUEUED_FRAGMENTS {
        return false;
      }
      TakeOn(conn, f, pieces);
      PumpAcl();
      ok := !closed;
    }

    method TakeOn(conn: u16, f: Frame, pieces: seq<seq<byte>>)
      requires Valid() && !closed && conn in conns && pieces == Fragments(BuildL2cap(f), payloadSize)
      modifies this`queue, this`streams
      ensures Valid() && View() == Offered(old(View()), conn, f)
      ensures queue != [] && queue[|queue| - 1].conn == conn
    {
      hide WireBytes, H4Head;
      FrameReassemblyNeedsFragments(f, payloadSize);
      OfferKeeps(View(), conn, f);
      queue := queue + Mark(conn, pieces, true);
      streams := streams[conn := streams[conn].(offered := streams[conn].offered + [f])];
    }

    /** Number Of Completed Packets: `done` is what the controller has let go,
        whatever it reports. One that reports what it let go loses sight of
        nothing. */
    method CompletedPackets(params: seq<byte>, ghost done: multiset<u16>)
      requires Valid() && !closed && done <= unacked
      modifies this`closed, this`credits, this`queue, this`port, this`streams, this`wire, this`torn, this`unacked
      modifies this`lost
      ensures Valid()
      ensures params == [] ==> View() == old(View()) && credits == old(credits) && lost == old(lost)
      ensures params != [] ==> AtRest()
      ensures params != [] ==>
                var free := Least(old(credits) + FreedBy(params, 0), total);
                && (!closed ==> View() == Drained(old(View()), Least(free, |old(queue)|)))
                && (!closed ==> credits == free - Least(free, |old(queue)|))
                && (free == 0 ==> View() == old(View()) && credits == 0)
                && lost == old(lost) + |done| - (free - old(credits))
      ensures params != [] && |done| == FreedBy(params, 0) && old(lost) >= 0 ==> lost == old(lost)
    {
      hide Consistent, WireBytes, H4Head;
      if params == [] {
        return;
      }
      hide Consistent, WireBytes;
      var freed := SumFreed(params);
      TakeBack(freed, done);
      PumpAcl();
    }

    method TakeBack(freed: nat, ghost done: multiset<u16>)
      requires Ledger() && done <= unacked
      modifies this`credits, this`unacked, this`lost
      ensures Ledger() && credits == Least(old(credits) + freed, total)
      ensures lost == old(lost) + |done| - (credits - old(credits))
      ensures |done| == freed && old(lost) >= 0 ==> lost == old(lost)
    {
      ghost var before := credits;
      credits := credits + freed;
      if credits > total {
        credits := total;
      }
      unacked := unacked - done;
      lost := lost + |done| - (credits - before);
    }

    /** A connection comes up. A controller does not hand out a handle that is in use. */
    method Connected(conn: u16)
      requires Valid() && AtRest() && !closed && conn < 0x1000 && conn !in conns
      modifies this`conns, this`streams, this`wire
      ensures Valid() && AtRest()
      ensures conns == old(conns) + {conn}
      ensures View() == old(View()).(conns := old(View()).conns[conn := Conn(|wire|, [])])
    {
      ConnectKeeps(View(), conn);
      conns := conns + {conn};
      streams := streams[conn := Conn(|wire|, [])];
    }

    /** drop_connection. The packets the controller held for the connection are
        gone, and their credits are not handed back. */
    method Dropped(conn: u16)
      requires Valid() && AtRest()
      modifies this
      ensures Valid() && AtRest()
      ensures closed == old(closed) && conns == old(conns) - {conn}
      ensures View() == old(View()).(conns := old(View()).conns - {conn}, queue := Without(old(View()).queue, conn))
      ensures credits == old(credits) && total == old(total) && port == old(port)
      ensures lost == old(lost) + old(unacked)[conn]
    {
      hide Consistent, WireBytes;
      DropKeeps(View(), conn);
      conns := conns - {conn};
      queue := Without(queue, conn);
      streams := streams - {conn};
      SizeWithout(unacked, conn);
      lost := lost + unacked[conn];
      unacked := unacked[conn := 0];
    }
  }

  // ------------------------------------------------------ a sender run dry

  /** What may still happen to a sender that has lost all its credits. */
  datatype Op = Send(conn: u16, frame: Frame) | Report(params: seq<byte>) | Drop(conn: u16)

  /** Once every credit went with a dropped connection, no fragment leaves any
      more, whatever is sent and whatever drops: a controller that holds no
      packet has none to report. */
  method Starve(sender: AclSender, ops: seq<Op>)
    requires sender.Valid() && sender.AtRest() && !sender.closed && sender.lost == sender.total
    requires forall op :: op in ops && op.Report? && op.params != [] ==> FreedBy(op.params, 0) == 0
    modifies sender
    ensures sender.Valid() && !sender.closed && sender.lost == sender.total == old(sender.total)
    ensures sender.wire == old(sender.wire) && sender.port == old(sender.port)
  {
    for i := 0 to |ops|
      invariant sender.Valid() && sender.AtRest() && !sender.closed
      invariant sender.lost == sender.total == old(sender.total)
      invariant sender.wire == old(sender.wire) && sender.port == old(sender.port)
    {
      assert sender.credits == 0 && sender.unacked == multiset{};
      match ops[i]
      case Send(conn, frame) => var _ := sender.SendL2cap(conn, frame);
      case Report(params) =>
        assert ops[i] in ops;
        sender.CompletedPackets(params, multiset{});
      case Drop(conn) => sender.Dropped(conn);
    }
  }

  lemma {:induction false} OnlyOne(m: multiset<u16>, x: u16)
    requires forall h :: h in m ==> h == x
    ensures |m| == m[x]
  {
    SizeWithout(m, x);
    assert m[x := 0] == multiset{};
  }

  /** And one frame is enough to get there: of as many fragments as the
      controller has buffers, on a connection that drops before any is
      completed. */
  method RunDry(payload: nat, buffers: nat, conn: u16, f: Frame) returns (sender: AclSender)
    requires 0 < payload < 65536 && 0 < buffers && conn < 0x1000
    requires buffers <= |FrameFragments(conn, f, payload)| <= MAX_QUEUED_FRAGMENTS
    ensures fresh(sender) && sender.Valid() && sender.AtRest() && sender.total == buffers
    ensures sender.closed || sender.lost == sender.total
  {
    hide Mark, Fragments, WireBytes;
    sender := new AclSender(payload, buffers);
    sender.Connected(conn);
    var ok := sender.SendL2cap(conn, f);
    if ok {
      OnlyOne(sender.unacked, conn);
      sender.Dropped(conn);
    }
  }

  // --------------------------------------------------------- the far end

  /** What one connection's fragments are in a list of packets as read back. */
  function Received(packets: seq<Packet>, conn: u16): seq<Fragment>
  {
    if packets == [] then []
    else
      (match ParseAcl(packets[0])
       case Some(f) => if f.conn == conn then [f] else []
       case None => [])
      + Received(packets[1..], conn)
  }

  lemma {:induction false} ReceivedIsHeard(items: seq<Item>, conn: u16)
    requires forall item :: item in items ==> Fits(item)
    ensures Received(EncodeAll(items), conn) == HeardOn(items, conn)
  {
    if items != [] {
      assert items[0] in items;
      ReceivedIsHeard(items[1..], conn);
      var head, later := Encode(items[0]), EncodeAll(items[1..]);
      assert ([head] + later)[1..] == later;
      if items[0].Acl? {
        AclRoundTrip(items[0].frag);
      }
    }
  }

  lemma {:induction false} EncodeAllFrom(items: seq<Item>, since: nat)
    requires since <= |items|
    ensures EncodeAll(items)[since..] == EncodeAll(items[since..])
  {
    if since > 0 {
      EncodeAllFrom(items[1..], since - 1);
      var head, later := Encode(items[0]), EncodeAll(items[1..]);
      assert ([head] + later)[since..] == later[since - 1..];
      assert items[1..][since - 1..] == items[since..];
    }
  }

  lemma {:induction false} EncodeAllWhole(items: seq<Item>)
    requires forall item :: item in items ==> Fits(item)
    ensures AllWellFormed(EncodeAll(items))
  {
    if items != [] {
      assert items[0] in items;
      EncodeWellFormed(items[0]);
      EncodeAllWhole(items[1..]);
    }
  }

  /** The bytes of the wire, read through the H4 framing, the ACL header and a
      reassembler in any state whatever, give a prefix of the frames the
      connection was offered: all of them as soon as nothing is left queued,
      and never the last one while any of it is unsent. */
  lemma EndToEnd(n: Net, port: seq<byte>, torn: seq<byte>, conn: u16, buf: seq<byte>)
    requires Consistent(n) && conn in n.conns
    requires port == WireBytes(n.wire) + torn && Stuck(H4Head, torn)
    requires forall i :: 0 <= i < |n.conns[conn].offered| ==> Sendable(n.conns[conn].offered[i])
    ensures n.conns[conn].since <= |CutAll(H4Head, port).pieces|
    ensures var packets := CutAll(H4Head, port).pieces[n.conns[conn].since..];
            var out := PushAll(buf, Received(packets, conn)).frames;
            && out <= n.conns[conn].offered
            && (n.open && OnConn(n.queue, conn) == [] ==> out == n.conns[conn].offered)
            && (Unfinished(n, conn) ==> out != n.conns[conn].offered)
  {
    assert Carries(n, conn);
    var c := n.conns[conn];
    H4Stable();
    EncodeAllWhole(n.wire);
    assert forall i :: 0 <= i < |EncodeAll(n.wire)| ==> WellFormed(EncodeAll(n.wire)[i]);
    CutFlattened(H4Head, EncodeAll(n.wire), torn);
    EncodeAllFrom(n.wire, c.since);
    ReceivedIsHeard(n.wire[c.since..], conn);
    var heard, all := HeardOn(n.wire[c.since..], conn), AllFragments(conn, c.offered, n.m);
    assert heard == all[..|heard|];
    StreamReassembles(conn, c.offered, n.m, buf, |heard|);
  }

  lemma ReceivedStep(packets: seq<Packet>, i: nat, conn: u16)
    requires i < |packets|
    ensures var later := Received(packets[i + 1..], conn);
            Received(packets[i..], conn) ==
            match ParseAcl(packets[i])
            case Some(f) => if f.conn == conn then [f] + later else later
            case None => later
  {
    assert packets[i..][1..] == packets[i + 1..];
    assert [] + Received(packets[i + 1..], conn) == Received(packets[i + 1..], conn);
  }

  /** `frames` have come out of the first `i` packets and `buf` is what is half assembled. */
  ghost predicate Receiving(start: seq<byte>, packets: seq<Packet>, conn: u16, i: nat, frames: seq<Frame>,
                            buf: seq<byte>)
  {
    && i <= |packets|
    && PushAll(start, Received(packets, conn)).frames == frames + PushAll(buf, Received(packets[i..], conn)).frames
  }

  lemma ReceivingSkips(start: seq<byte>, packets: seq<Packet>, conn: u16, i: nat, frames: seq<Frame>, buf: seq<byte>)
    requires Receiving(start, packets, conn, i, frames, buf) && i < |packets|
    requires match ParseAcl(packets[i]) case Some(f) => f.conn != conn case None => true
    ensures Receiving(start, packets, conn, i + 1, frames, buf)
  {
    ReceivedStep(packets, i, conn);
  }

  lemma ReceivingTakes(start: seq<byte>, packets: seq<Packet>, conn: u16, i: nat, frames: seq<Frame>, buf: seq<byte>,
                       f: Fragment)
    requires Receiving(start, packets, conn, i, frames, buf) && i < |packets|
    requires ParseAcl(packets[i]) == Some(f) && f.conn == conn
    ensures Receiving(start, packets, conn, i + 1, frames + FramesOf(Push(buf, f).pieces), Push(buf, f).rest)
  {
    ReceivedStep(packets, i, conn);
    var later := Received(packets[i + 1..], conn);
    assert ([f] + later)[1..] == later;
    Regroup(frames, FramesOf(Push(buf, f).pieces), PushAll(Push(buf, f).rest, later).frames);
  }

  /** dispatch_acl for one connection: its packets through its reassembler. */
  method ReceiveStream(packets: seq<Packet>, conn: u16, r: Reassembler) returns (frames: seq<Frame>)
    requires r.Valid()
    modifies r
    ensures r.Valid()
    ensures frames == PushAll(old(r.buf), Received(packets, conn)).frames
  {
    hide FieldAt;
    frames := [];
    var i := 0;
    assert packets[0..] == packets;
    while i < |packets|
      invariant Receiving(old(r.buf), packets, conn, i, frames, r.buf) && r.Valid()
    {
      var parsed := ParseAcl(packets[i]);
      if parsed.Some? && parsed.value.conn == conn {
        ReceivingTakes(old(r.buf), packets, conn, i, frames, r.buf, parsed.value);
        var out := r.PushFragment(parsed.value);
        frames := frames + out;
      } else {
        ReceivingSkips(old(r.buf), packets, conn, i, frames, r.buf);
      }
      i := i + 1;
    }
  }

  /** The far end: reads in whatever pieces the wire delivers, and hands the
      packets that came after the connection did to the connection's
      reassembler. What comes out is a prefix of what was offered. */
  method FarEnd(sender: AclSender, chunks: seq<seq<byte>>, conn: u16, since: nat, r: Reassembler)
    returns (frames: seq<Frame>)
    requires sender.Valid() && conn in sender.streams && since == sender.streams[conn].since
    requires Flatten(chunks) == sender.port
    requires forall i :: 0 <= i < |sender.streams[conn].offered| ==> Sendable(sender.streams[conn].offered[i])
    requires r.Valid()
    modifies r
    ensures frames <= sender.streams[conn].offered
    ensures !sender.closed && OnConn(sender.queue, conn) == [] ==> frames == sender.streams[conn].offered
    ensures Unfinished(sender.View(), conn) ==> frames != sender.streams[conn].offered
  {
    EndToEnd(sender.View(), sender.port, sender.torn, conn, r.buf);
    var got := ReadInChunks(chunks);
    frames := ReceiveStream(got[since..], conn, r);
  }
}
