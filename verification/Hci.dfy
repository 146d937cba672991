/** H4 packet framing on the serial port and the ACL data header (src/hci.cc). */
module Hci {
  import opened Bytes
  import opened Framing
  import opened Wrappers

  // The H4 type byte in front of every packet.
  const COMMAND: byte := 0x01
  const ACL_DATA: byte := 0x02
  const EVENT: byte := 0x04
  const ISO_DATA: byte := 0x05

  // ACL packet boundary flags.
  const CONTINUING: byte := 0x01
  const FIRST_FLUSHABLE: byte := 0x02

  /** A packet with its type byte in front. */
  type Packet = seq<byte>

  predicate Known(kind: byte) {
    COMMAND <= kind <= ISO_DATA
  }

  /** How many bytes after the type byte must be present before the length is known. */
  function HeaderSize(kind: byte): nat
    requires Known(kind)
  {
    if kind == EVENT then 2
    else if kind == ACL_DATA || kind == ISO_DATA then 4
    else 3
  }

  /** The two-byte field at `i`. */
  function FieldAt(data: seq<byte>, i: nat): (v: u16)
    requires i + 1 < |data|
  {
    data[i] as int + 256 * data[i + 1] as int
  }

  /** The size of the packet at the front of `data` after its type byte, header
      included, once the header is there. */
  function BodySize(data: seq<byte>): (n: nat)
    requires data != [] && Known(data[0]) && |data| > HeaderSize(data[0])
    ensures n >= HeaderSize(data[0])
  {
    if data[0] == EVENT then 2 + data[2] as int
    else if data[0] == ACL_DATA then 4 + FieldAt(data, 3)
    else if data[0] == ISO_DATA then 4 + FieldAt(data, 3) % 0x4000
    else 3 + data[3] as int
  }

  /** A byte that begins no known packet is dropped alone, so that the next one is examined. */
  function H4Head(data: seq<byte>): Head
  {
    if data == [] then Wait
    else if !Known(data[0]) then Skip
    else if |data| - 1 < HeaderSize(data[0]) then Wait
    else if |data| - 1 < BodySize(data) then Wait
    else Take(1 + BodySize(data))
  }

  lemma H4Stable()
    ensures Stable(H4Head)
  {
  }

  predicate WellFormed(p: Packet) {
    p != [] && H4Head(p) == Take(|p|)
  }

  ghost predicate AllWellFormed(ps: seq<Packet>) {
    forall i :: 0 <= i < |ps| ==> WellFormed(ps[i])
  }

  /** A write that broke off part-way never completes a packet. */
  lemma BrokenWrite(p: Packet, n: nat)
    requires WellFormed(p) && n < |p|
    ensures Stuck(H4Head, p[..n])
  {
  }

  method ParseStream(data: seq<byte>) returns (out: seq<Packet>, off: nat)
    ensures off <= |data|
    ensures Cut(out, data[off..]) == CutAll(H4Head, data)
  {
    out, off := CutBuffer(H4Head, data);
  }

  /** Link::on_readable: bytes arrive in whatever pieces the port has, and come
      out as packets. `seen` is every byte that ever arrived. */
  class PacketReader {
    var rx: seq<byte>
    var got: seq<Packet>
    ghost var seen: seq<byte>

    ghost predicate Valid()
      reads this
    {
      Cut(got, rx) == CutAll(H4Head, seen)
    }

    constructor ()
      ensures Valid() && seen == [] && got == []
    {
      rx, got, seen := [], [], [];
    }

    method OnReadable(chunk: seq<byte>)
      requires Valid()
      modifies this
      ensures Valid()
      ensures seen == old(seen) + chunk
    {
      H4Stable();
      CutResumes(H4Head, seen, chunk);
      seen := seen + chunk;
      rx := rx + chunk;
      var packets, used := ParseStream(rx);
      rx := rx[used..];
      got := got + packets;
    }
  }

  /** Any way of cutting a stream into reads gives the packets of the whole stream. */
  method ReadInChunks(chunks: seq<seq<byte>>) returns (got: seq<Packet>)
    ensures got == CutAll(H4Head, Flatten(chunks)).pieces
  {
    var reader := new PacketReader();
    var i := 0;
    while i < |chunks|
      invariant i <= |chunks|
      invariant reader.Valid()
      invariant reader.seen == Flatten(chunks[..i])
    {
      reader.OnReadable(chunks[i]);
      FlattenAppend(chunks[..i], [chunks[i]]);
      FlattenOne(chunks[i]);
      assert chunks[..i + 1] == chunks[..i] + [chunks[i]];
      i := i + 1;
    }
    assert chunks[..i] == chunks;
    got := reader.got;
  }

  // ------------------------------------------------------------ ACL framing

  /** One ACL data packet: a connection, a boundary flag and a piece of a frame. */
  datatype Fragment = Fragment(conn: u16, pb: byte, data: seq<byte>)

  /** The handle field has 12 bits and the boundary flag 2; the length is cast to 16 bits. */
  function BuildAcl(f: Fragment): Packet
  {
    [ACL_DATA] + Put16(f.conn % 0x1000 + 0x1000 * (f.pb % 4)) + Put16(|f.data| % 65536) + f.data
  }

  /** parse_acl, without the broadcast flag that nothing here reads. */
  function ParseAcl(p: Packet): Option<Fragment>
  {
    if |p| < 5 || p[0] != ACL_DATA then None
    else
      var hf, dlen := FieldAt(p, 1), FieldAt(p, 3);
      if |p| < 5 + dlen then None
      else Some(Fragment(hf % 0x1000, (hf / 0x1000) % 4, p[5..5 + dlen]))
  }

  predicate FitsAcl(f: Fragment) {
    f.conn < 0x1000 && f.pb < 4 && |f.data| < 65536
  }

  lemma AclRoundTrip(f: Fragment)
    requires FitsAcl(f)
    ensures WellFormed(BuildAcl(f))
    ensures ParseAcl(BuildAcl(f)) == Some(f)
  {
    var p, n := BuildAcl(f), |f.data|;
    AclFields(f.conn, f.pb, f.conn + 0x1000 * f.pb);
    assert p[5..5 + n] == f.data;
  }

  lemma AclFields(conn: u16, pb: byte, hf: int)
    requires conn < 0x1000 && pb < 4 && hf == conn + 0x1000 * pb
    ensures 0 <= hf < 65536 && hf % 0x1000 == conn && (hf / 0x1000) % 4 == pb
  {
  }

  /** build_command: the parameter count is cast to one byte. */
  function BuildCommand(opcode: u16, params: seq<byte>): Packet
  {
    [COMMAND] + Put16(opcode) + [|params| % 256] + params
  }

  /** A command is one packet exactly when that cast loses nothing. */
  lemma CommandIsWhole(opcode: u16, params: seq<byte>)
    ensures WellFormed(BuildCommand(opcode, params)) <==> |params| < 256
  {
    var p := BuildCommand(opcode, params);
    assert p[1..] == Put16(opcode) + ([|params| % 256] + params);
  }
}
