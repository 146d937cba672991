/** The attribute protocol's values (src/att.cc, and the UUID forms of
    src/hci.cc): UUIDs of either width, attributes, and the lists of equally
    long entries that discovery responses carry. */
module Gatt {
  import opened Bytes
  import opened Wrappers

  // ------------------------------------------------------------------ UUIDs

  const ZERO16: seq<byte> := [0, 0, 0, 0, 0, 0, 0, 0, 0, 0, 0, 0, 0, 0, 0, 0]

  /** Sixteen bytes, most significant first. */
  type Uuid = b: seq<byte> | |b| == 16 witness ZERO16

  /** What every short UUID expands against, after its first four bytes. */
  const BASE_TAIL: seq<byte> := [0, 0, 0x10, 0, 0x80, 0, 0, 0x80, 0x5f, 0x9b, 0x34, 0xfb]

  function FromShort(v: u16): Uuid {
    [0, 0, v / 256, v % 256] + BASE_TAIL
  }

  predicate IsShort(u: Uuid) {
    u[0] == 0 && u[1] == 0 && u[4..] == BASE_TAIL
  }

  function Backwards(b: seq<byte>): (r: seq<byte>)
    ensures |r| == |b|
  {
    seq(|b|, i requires 0 <= i < |b| => b[|b| - 1 - i])
  }

  /** How a UUID travels: two bytes when it is a short one, else sixteen. */
  function ToLe(u: Uuid): (r: seq<byte>)
    ensures |r| == if IsShort(u) then 2 else 16
  {
    if IsShort(u) then [u[3], u[2]] else Backwards(u)
  }

  function FromLe(b: seq<byte>): Option<Uuid> {
    if |b| == 2 then Some(FromShort(Get16(b)))
    else if |b| == 4 then Some(Backwards(b) + BASE_TAIL)
    else if |b| == 16 then Some(Backwards(b))
    else None
  }

  /** Every UUID survives the trip, in whichever form it takes. */
  lemma UuidRoundTrip(u: Uuid)
    ensures FromLe(ToLe(u)) == Some(u)
  {
    if IsShort(u) {
      var v := Get16(ToLe(u));
      assert v / 256 == u[2] && v % 256 == u[3];
      assert u == u[..4] + u[4..];
      assert FromShort(v) == u;
    } else {
      assert Backwards(Backwards(u)) == u;
    }
  }

  lemma ShortInjective(v: u16, w: u16)
    requires FromShort(v) == FromShort(w)
    ensures v == w
  {
    assert FromShort(v)[2] == v / 256 && FromShort(v)[3] == v % 256;
    assert FromShort(w)[2] == w / 256 && FromShort(w)[3] == w % 256;
  }

  // ------------------------------------------------------------- attributes

  const PRIMARY_SERVICE: u16 := 0x2800
  const SECONDARY_SERVICE: u16 := 0x2801
  const CHARACTERISTIC: u16 := 0x2803
  const USER_DESCRIPTION: u16 := 0x2901
  const CLIENT_CONFIG: u16 := 0x2902

  datatype Attribute = Attribute(handle: u16, kind: Uuid, value: seq<byte>, readable: bool, writable: bool)

  predicate IsServiceDecl(kind: Uuid) {
    kind == FromShort(PRIMARY_SERVICE) || kind == FromShort(SECONDARY_SERVICE)
  }

  /** Handles run upwards without gaps from `first`. */
  ghost predicate NumberedFrom(table: seq<Attribute>, first: nat) {
    forall i :: 0 <= i < |table| ==> table[i].handle == first + i
  }

  // --------------------------------------------------- lists of equal entries

  /** How many entries go into one response: those of the first one's length,
      as many as there is room for. */
  function Fitting(entries: seq<seq<byte>>, width: nat, room: int): (n: nat)
    ensures n <= |entries|
  {
    if entries == [] || |entries[0]| != width || width > room then 0
    else 1 + Fitting(entries[1..], width, room - width)
  }

  lemma {:induction false} FittingBound(entries: seq<seq<byte>>, width: nat, room: int)
    ensures var n := Fitting(entries, width, room);
            && width * n <= (if room < 0 then 0 else room)
            && forall i :: 0 <= i < n ==> |entries[i]| == width
  {
    if entries != [] && |entries[0]| == width && width <= room {
      FittingBound(entries[1..], width, room - width);
    }
  }

  /** A response has two bytes of its own before the entries. */
  function Batch(entries: seq<seq<byte>>, mtu: nat): (n: nat)
    ensures n <= |entries|
  {
    if entries == [] then 0 else Fitting(entries, |entries[0]|, mtu - 2)
  }

  /** What a loop that stops at the first entry that does not fit has gathered. */
  lemma {:induction false} FittingPrefix(taken: seq<seq<byte>>, rest: seq<seq<byte>>, width: nat, room: int)
    requires forall i :: 0 <= i < |taken| ==> |taken[i]| == width
    requires width * |taken| <= room
    requires rest == [] || |rest[0]| != width || width * (|taken| + 1) > room
    ensures Fitting(taken + rest, width, room) == |taken|
  {
    if taken == [] {
      assert taken + rest == rest;
    } else {
      assert (taken + rest)[1..] == taken[1..] + rest;
      FittingPrefix(taken[1..], rest, width, room - width);
    }
  }

  /** The body of a response, cut back into entries: a last piece that is too
      short is ignored. */
  function Chunks(b: seq<byte>, width: nat): seq<seq<byte>>
    requires width > 0
  {
    if |b| < width then [] else [b[..width]] + Chunks(b[width..], width)
  }

  lemma {:induction false} ChunksOfFlatten(entries: seq<seq<byte>>, width: nat)
    requires width > 0 && forall i :: 0 <= i < |entries| ==> |entries[i]| == width
    ensures Chunks(Flatten(entries), width) == entries
    ensures |Flatten(entries)| == width * |entries|
  {
    if entries != [] {
      ChunksOfFlatten(entries[1..], width);
      assert Flatten(entries)[..width] == entries[0];
      assert Flatten(entries)[width..] == Flatten(entries[1..]);
    }
  }

  // ------------------------------------------------------------ responses

  datatype ServiceRange = ServiceRange(start: u16, end: u16, uuid: Uuid)

  datatype CharDecl = CharDecl(handle: u16, properties: byte, valueHandle: u16, uuid: Uuid)

  datatype HandleUuid = HandleUuid(handle: u16, uuid: Uuid)

  const ERROR_RESPONSE := 0x01
  const EXCHANGE_MTU_REQUEST := 0x02
  const EXCHANGE_MTU_RESPONSE := 0x03
  const FIND_INFORMATION_REQUEST := 0x04
  const FIND_INFORMATION_RESPONSE := 0x05
  const FIND_BY_TYPE_VALUE_REQUEST := 0x06
  const READ_BY_TYPE_REQUEST := 0x08
  const READ_BY_TYPE_RESPONSE := 0x09
  const READ_REQUEST := 0x0a
  const READ_BLOB_REQUEST := 0x0c
  const READ_BY_GROUP_TYPE_REQUEST := 0x10
  const READ_BY_GROUP_TYPE_RESPONSE := 0x11
  const WRITE_REQUEST := 0x12
  const WRITE_RESPONSE := 0x13
  const NOTIFICATION := 0x1b
  const INDICATION := 0x1d
  const CONFIRMATION := 0x1e
  const WRITE_COMMAND := 0x52

  function ServiceEntry(s: ServiceRange): (e: seq<byte>) {
    Put16(s.start) + Put16(s.end) + ToLe(s.uuid)
  }

  function CharEntry(c: CharDecl): (e: seq<byte>) {
    Put16(c.handle) + [c.properties] + Put16(c.valueHandle) + ToLe(c.uuid)
  }

  function InfoEntry(h: HandleUuid): (e: seq<byte>) {
    Put16(h.handle) + ToLe(h.uuid)
  }

  function ReadService(e: seq<byte>): (s: Option<ServiceRange>) {
    if |e| < 4 || FromLe(e[4..]).None? then None
    else Some(ServiceRange(Get16(e), Get16(e[2..]), FromLe(e[4..]).value))
  }

  function ReadChar(e: seq<byte>): (c: Option<CharDecl>) {
    if |e| != 7 && |e| != 21 then None
    else Some(CharDecl(Get16(e), e[2], Get16(e[3..]), FromLe(e[5..]).value))
  }

  function ReadInfo(e: seq<byte>): (h: Option<HandleUuid>) {
    if |e| < 2 || FromLe(e[2..]).None? then None else Some(HandleUuid(Get16(e), FromLe(e[2..]).value))
  }

  lemma ServiceEntryRoundTrip(s: ServiceRange)
    ensures ReadService(ServiceEntry(s)) == Some(s)
  {
    UuidRoundTrip(s.uuid);
    assert ServiceEntry(s)[4..] == ToLe(s.uuid);
  }

  lemma CharEntryRoundTrip(c: CharDecl)
    ensures ReadChar(CharEntry(c)) == Some(c)
  {
    UuidRoundTrip(c.uuid);
    assert CharEntry(c)[5..] == ToLe(c.uuid);
  }

  lemma InfoEntryRoundTrip(h: HandleUuid)
    ensures ReadInfo(InfoEntry(h)) == Some(h)
  {
    UuidRoundTrip(h.uuid);
    assert InfoEntry(h)[2..] == ToLe(h.uuid);
  }

  // ---------------------------------------------------------------- parsing

  /** Every entry read, or nothing if one of them cannot be. */
  function ReadAll<T>(entries: seq<seq<byte>>, read: seq<byte> -> Option<T>): Option<seq<T>> {
    if entries == [] then Some([])
    else if read(entries[0]).None? || ReadAll(entries[1..], read).None? then None
    else Some([read(entries[0]).value] + ReadAll(entries[1..], read).value)
  }

  lemma {:induction false} ReadAllBack<T>(entries: seq<seq<byte>>, read: seq<byte> -> Option<T>, xs: seq<T>)
    requires |entries| == |xs| && forall i :: 0 <= i < |xs| ==> read(entries[i]) == Some(xs[i])
    ensures ReadAll(entries, read) == Some(xs)
  {
    if xs != [] {
      ReadAllBack(entries[1..], read, xs[1..]);
      assert xs == [xs[0]] + xs[1..];
    }
  }

  function ParseServices(pdu: seq<byte>): Option<seq<ServiceRange>> {
    if |pdu| < 2 || pdu[0] != READ_BY_GROUP_TYPE_RESPONSE || (pdu[1] != 6 && pdu[1] != 20) then None
    else ReadAll(Chunks(pdu[2..], pdu[1]), ReadService)
  }

  function ParseChars(pdu: seq<byte>): Option<seq<CharDecl>> {
    if |pdu| < 2 || pdu[0] != READ_BY_TYPE_RESPONSE || pdu[1] < 3 then None
    else ReadAll(Chunks(pdu[2..], pdu[1]), ReadChar)
  }

  function ParseInfo(pdu: seq<byte>): Option<seq<HandleUuid>> {
    if |pdu| < 2 || pdu[0] != FIND_INFORMATION_RESPONSE || (pdu[1] != 1 && pdu[1] != 2) then None
    else ReadAll(Chunks(pdu[2..], if pdu[1] == 1 then 4 else 18), ReadInfo)
  }

  lemma {:induction false} ReadAllPush<T>(entries: seq<seq<byte>>, read: seq<byte> -> Option<T>, e: seq<byte>)
    ensures ReadAll(entries + [e], read)
         == if ReadAll(entries, read).None? || read(e).None? then None
           else Some(ReadAll(entries, read).value + [read(e).value])
  {
    if entries == [] {
      assert entries + [e] == [e] && [e][1..] == [];
      assert ReadAll([], read) == Some([]);
      if read(e).Some? {
        assert [read(e).value] + [] == [] + [read(e).value];
      }
    } else {
      assert (entries + [e])[1..] == entries[1..] + [e];
      ReadAllPush(entries[1..], read, e);
      if ReadAll(entries + [e], read).Some? {
        Regroup([read(entries[0]).value], ReadAll(entries[1..], read).value, [read(e).value]);
      }
    }
  }

  lemma {:induction false} ReadAllPrefix<T>(entries: seq<seq<byte>>, rest: seq<seq<byte>>, read: seq<byte> -> Option<T>)
    requires ReadAll(entries, read).None?
    ensures ReadAll(entries + rest, read).None?
  {
    if entries != [] {
      assert (entries + rest)[1..] == entries[1..] + rest;
      if read(entries[0]).Some? {
        ReadAllPrefix(entries[1..], rest, read);
      }
    }
  }

  /** The loop all the parsers share: it steps through the entries of a response
      and gives up at the first it cannot read. */
  method ReadEntries<T>(body: seq<byte>, width: nat, read: seq<byte> -> Option<T>) returns (out: Option<seq<T>>)
    requires width > 0
    ensures out == ReadAll(Chunks(body, width), read)
  {
    var xs: seq<T> := [];
    var off := 0;
    ghost var done: seq<seq<byte>> := [];
    assert body[0..] == body;
    while off + width <= |body|
      invariant off <= |body|
      invariant Chunks(body, width) == done + Chunks(body[off..], width)
      invariant ReadAll(done, read) == Some(xs)
    {
      var e := body[off..off + width];
      assert body[off..][..width] == e;
      DropDrop(body, off, width);
      Regroup(done, [e], Chunks(body[off + width..], width));
      ReadAllPush(done, read, e);
      done := done + [e];
      var r := read(e);
      if r.None? {
        ReadAllPrefix(done, Chunks(body[off + width..], width), read);
        return None;
      }
      xs := xs + [r.value];
      off := off + width;
    }
    assert done + [] == done;
    out := Some(xs);
  }

  /** A list response read back gives what was put in. */
  lemma ListBack<T>(rows: seq<seq<byte>>, n: nat, width: nat, read: seq<byte> -> Option<T>, xs: seq<T>)
    requires width > 0 && n <= |rows| == |xs|
    requires forall i :: 0 <= i < n ==> |rows[i]| == width && read(rows[i]) == Some(xs[i])
    ensures ReadAll(Chunks(Flatten(rows[..n]), width), read) == Some(xs[..n])
  {
    ChunksOfFlatten(rows[..n], width);
    ReadAllBack(rows[..n], read, xs[..n]);
  }

  method ReadServices(pdu: seq<byte>) returns (out: Option<seq<ServiceRange>>)
    ensures out == ParseServices(pdu)
  {
    if |pdu| < 2 || pdu[0] != READ_BY_GROUP_TYPE_RESPONSE || (pdu[1] != 6 && pdu[1] != 20) {
      return None;
    }
    out := ReadEntries(pdu[2..], pdu[1], ReadService);
  }

  method ReadChars(pdu: seq<byte>) returns (out: Option<seq<CharDecl>>)
    ensures out == ParseChars(pdu)
  {
    if |pdu| < 2 || pdu[0] != READ_BY_TYPE_RESPONSE || pdu[1] < 3 {
      return None;
    }
    out := ReadEntries(pdu[2..], pdu[1], ReadChar);
  }

  method ReadInformation(pdu: seq<byte>) returns (out: Option<seq<HandleUuid>>)
    ensures out == ParseInfo(pdu)
  {
    if |pdu| < 2 || pdu[0] != FIND_INFORMATION_RESPONSE || (pdu[1] != 1 && pdu[1] != 2) {
      return None;
    }
    out := ReadEntries(pdu[2..], if pdu[1] == 1 then 4 else 18, ReadInfo);
  }
}
