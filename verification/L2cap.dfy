/** L2CAP frames, their fragments, and the reassembly of a connection's stream
    (src/att.cc, "L2CAP"). */
module L2cap {
  import opened Bytes
  import opened Framing
  import opened Hci
  import opened Wrappers

  datatype Frame = Frame(cid: u16, payload: seq<byte>)

  /** len(2) + cid(2) + payload; the length is cast to 16 bits. */
  function BuildL2cap(f: Frame): (b: seq<byte>)
    ensures |b| == 4 + |f.payload|
  {
    Put16(|f.payload| % 65536) + Put16(f.cid) + f.payload
  }

  function L2capHead(data: seq<byte>): Head
  {
    if |data| < 4 then Wait
    else if |data| < 4 + FieldAt(data, 0) then Wait
    else Take(4 + FieldAt(data, 0))
  }

  lemma L2capStable()
    ensures Stable(L2capHead)
  {
  }

  function FrameOf(piece: seq<byte>): Frame
  {
    if |piece| < 4 then Frame(0, []) else Frame(FieldAt(piece, 2), piece[4..])
  }

  function FramesOf(pieces: seq<seq<byte>>): (r: seq<Frame>)
    ensures |r| == |pieces|
  {
    if pieces == [] then [] else [FrameOf(pieces[0])] + FramesOf(pieces[1..])
  }

  predicate Sendable(f: Frame) {
    |f.payload| < 65536
  }

  lemma L2capRoundTrip(f: Frame)
    requires Sendable(f)
    ensures L2capHead(BuildL2cap(f)) == Take(4 + |f.payload|)
    ensures FrameOf(BuildL2cap(f)) == f
  {
    var b := BuildL2cap(f);
    assert b[4..] == f.payload;
  }

  /** One frame in one buffer is read back as itself exactly when its payload
      fits the 16-bit length: a longer one is sent with a length that wrapped. */
  lemma L2capRoundTripExactly(f: Frame)
    ensures FramesOf(CutAll(L2capHead, BuildL2cap(f)).pieces) == [f] <==> Sendable(f)
  {
    var b := BuildL2cap(f);
    var n := 4 + |f.payload| % 65536;
    assert FieldAt(b, 0) == |f.payload| % 65536;
    assert StepOf(L2capHead, b) == n;
    assert PieceOf(L2capHead, b) == [b[..n]];
    var c := CutAll(L2capHead, b[n..]);
    assert CutAll(L2capHead, b).pieces == [b[..n]] + c.pieces;
    assert FramesOf([b[..n]] + c.pieces)[0] == FrameOf(b[..n]);
    if Sendable(f) {
      L2capRoundTrip(f);
      assert b[..n] == b && b[n..] == [];
      assert FramesOf([b]) == [f];
    } else {
      assert |FrameOf(b[..n]).payload| == n - 4;
    }
  }

  // ---------------------------------------------------------- fragmentation

  /** att::fragment: pieces of `m` bytes, the last one with what is left. */
  function Fragments(frame: seq<byte>, m: nat): (r: seq<seq<byte>>)
    decreases |frame|
  {
    if m == 0 || frame == [] then []
    else if |frame| <= m then [frame]
    else [frame[..m]] + Fragments(frame[m..], m)
  }

  lemma {:induction false} FragmentsCoverFrame(frame: seq<byte>, m: nat)
    requires m > 0
    ensures Flatten(Fragments(frame, m)) == frame
    ensures forall i :: 0 <= i < |Fragments(frame, m)| ==> 0 < |Fragments(frame, m)[i]| <= m
    decreases |frame|
  {
    if frame == [] {
    } else if |frame| <= m {
      FlattenOne(frame);
    } else {
      FragmentsCoverFrame(frame[m..], m);
      assert Fragments(frame, m)[1..] == Fragments(frame[m..], m);
    }
  }

  lemma FragmentsStep(frame: seq<byte>, m: nat)
    requires m > 0 && frame != []
    ensures var n := if m < |frame| then m else |frame|;
            Fragments(frame, m) == [frame[..n]] + Fragments(frame[n..], m)
  {
    if |frame| <= m {
      assert frame[..|frame|] == frame;
    }
  }

  method FragmentFrame(frame: seq<byte>, m: nat) returns (out: seq<seq<byte>>)
    ensures out == Fragments(frame, m)
  {
    out := [];
    if m == 0 {
      return;
    }
    var off := 0;
    assert frame[0..] == frame;
    while off < |frame|
      invariant off <= |frame|
      invariant Fragments(frame, m) == out + Fragments(frame[off..], m)
    {
      var n := if m < |frame| - off then m else |frame| - off;
      DropDrop(frame, off, n);
      assert frame[off..][..n] == frame[off..off + n];
      FragmentsStep(frame[off..], m);
      out := out + [frame[off..off + n]];
      off := off + n;
    }
  }

  /** A frame's fragments as they are queued: the first is marked first, the rest continuing. */
  function Mark(conn: u16, pieces: seq<seq<byte>>, first: bool): (r: seq<Fragment>)
    ensures |r| == |pieces|
    ensures forall i :: 0 <= i < |r| ==>
              r[i] == Fragment(conn, if first && i == 0 then FIRST_FLUSHABLE else CONTINUING, pieces[i])
  {
    if pieces == [] then []
    else [Fragment(conn, if first then FIRST_FLUSHABLE else CONTINUING, pieces[0])] + Mark(conn, pieces[1..], false)
  }

  function FrameFragments(conn: u16, f: Frame, m: nat): seq<Fragment>
  {
    Mark(conn, Fragments(BuildL2cap(f), m), true)
  }

  /** Everything a connection is to be sent for a list of frames, in order. */
  function AllFragments(conn: u16, frames: seq<Frame>, m: nat): seq<Fragment>
  {
    if frames == [] then [] else FrameFragments(conn, frames[0], m) + AllFragments(conn, frames[1..], m)
  }

  lemma {:induction false} AllFragmentsAppend(conn: u16, frames: seq<Frame>, f: Frame, m: nat)
    ensures AllFragments(conn, frames + [f], m) == AllFragments(conn, frames, m) + FrameFragments(conn, f, m)
  {
    if frames == [] {
      assert AllFragments(conn, [f][1..], m) == [];
      assert frames + [f] == [f];
    } else {
      assert (frames + [f])[1..] == frames[1..] + [f];
      AllFragmentsAppend(conn, frames[1..], f, m);
    }
  }

  // ------------------------------------------------------------- reassembly

  /** What one fragment does to a half-assembled buffer. */
  function Push(buf: seq<byte>, f: Fragment): Cut
  {
    if f.pb != CONTINUING then CutAll(L2capHead, f.data)
    else if buf == [] then Cut([], [])
    else CutAll(L2capHead, buf + f.data)
  }

  datatype Heard = Heard(frames: seq<Frame>, buf: seq<byte>)

  function PushAll(buf: seq<byte>, frags: seq<Fragment>): Heard
    decreases |frags|
  {
    if frags == [] then Heard([], buf)
    else
      var c := Push(buf, frags[0]);
      var h := PushAll(c.rest, frags[1..]);
      Heard(FramesOf(c.pieces) + h.frames, h.buf)
  }

  class Reassembler {
    var buf: seq<byte>
    var expecting: nat

    /** `expecting` is the size of the frame being put together, known once its header is in. */
    ghost predicate Valid()
      reads this
    {
      expecting == if |buf| < 4 then 0 else 4 + FieldAt(buf, 0)
    }

    constructor ()
      ensures Valid() && buf == []
    {
      buf, expecting := [], 0;
    }

    method PushFragment(f: Fragment) returns (out: seq<Frame>)
      requires Valid()
      modifies this
      ensures Valid()
      ensures out == FramesOf(Push(old(buf), f).pieces) && buf == Push(old(buf), f).rest
    {
      out := [];
      if f.pb != CONTINUING {
        buf, expecting := [], 0;
      } else if buf == [] {
        return;
      }
      assert f.pb != CONTINUING ==> buf + f.data == f.data;
      buf := buf + f.data;
      var pieces, used := CutBuffer(L2capHead, buf);
      buf := buf[used..];
      expecting := if |buf| < 4 then 0 else 4 + FieldAt(buf, 0);
      out := FramesOf(pieces);
    }
  }

  lemma {:induction false} PushAllAppend(buf: seq<byte>, a: seq<Fragment>, b: seq<Fragment>)
    ensures PushAll(buf, a + b).frames == PushAll(buf, a).frames + PushAll(PushAll(buf, a).buf, b).frames
    ensures PushAll(buf, a + b).buf == PushAll(PushAll(buf, a).buf, b).buf
    decreases |a|
  {
    if a == [] {
      assert a + b == b;
    } else {
      assert (a + b)[0] == a[0] && (a + b)[1..] == a[1..] + b;
      var c := Push(buf, a[0]);
      PushAllAppend(c.rest, a[1..], b);
      var mine, more := PushAll(c.rest, a[1..]), PushAll(PushAll(c.rest, a[1..]).buf, b);
      Regroup(FramesOf(c.pieces), mine.frames, more.frames);
    }
  }

  /** A frame that is not all there gives nothing up. */
  lemma PartialFrameWaits(f: Frame, part: seq<byte>)
    requires Sendable(f)
    requires |part| < 4 + |f.payload| && part == BuildL2cap(f)[..|part|]
    ensures CutAll(L2capHead, part) == Cut([], part)
  {
    hide PieceOf;
    if |part| >= 4 {
      assert FieldAt(part, 0) == FieldAt(BuildL2cap(f), 0);
    }
    assert StepOf(L2capHead, part) == 0;
  }

  lemma WholeFrameEmerges(f: Frame)
    requires Sendable(f)
    ensures CutAll(L2capHead, BuildL2cap(f)) == Cut([BuildL2cap(f)], [])
    ensures FramesOf([BuildL2cap(f)]) == [f]
  {
    L2capStable();
    L2capRoundTrip(f);
    FlattenOne(BuildL2cap(f));
    assert Whole(L2capHead, BuildL2cap(f));
    CutFlattened(L2capHead, [BuildL2cap(f)], []);
    assert BuildL2cap(f) + [] == BuildL2cap(f);
  }

  /** The rest of a frame's fragments, arriving behind the part already held. */
  lemma {:induction false} ContinuingFragments(conn: u16, f: Frame, held: seq<byte>, pieces: seq<seq<byte>>)
    requires Sendable(f)
    requires held != [] && pieces != []
    requires held + Flatten(pieces) == BuildL2cap(f)
    requires forall i :: 0 <= i < |pieces| ==> pieces[i] != []
    ensures forall k :: 0 <= k < |pieces| ==> PushAll(held, Mark(conn, pieces, false)[..k]).frames == []
    ensures PushAll(held, Mark(conn, pieces, false)) == Heard([f], [])
    decreases |pieces|
  {
    hide Put16;
    var marked := Mark(conn, pieces, false);
    var next := held + pieces[0];
    if |pieces| == 1 {
      assert pieces[1..] == [] && Flatten(pieces) == pieces[0];
      WholeFrameEmerges(f);
      assert marked[1..] == [];
      assert PushAll([], []) == Heard([], []);
    } else {
      assert next + Flatten(pieces[1..]) == BuildL2cap(f);
      assert pieces[1] != [] && Flatten(pieces[1..]) == pieces[1] + Flatten(pieces[1..][1..]);
      assert next == BuildL2cap(f)[..|next|];
      PartialFrameWaits(f, next);
      ContinuingFragments(conn, f, next, pieces[1..]);
      assert marked[1..] == Mark(conn, pieces[1..], false);
    }
    forall k | 0 <= k < |pieces|
      ensures PushAll(held, marked[..k]).frames == []
    {
      if k > 0 {
        assert marked[..k][1..] == marked[1..][..k - 1];
      }
    }
  }

  /** A reassembler in any state at all recovers at a frame's first fragment. */
  lemma FrameReassembles(conn: u16, f: Frame, m: nat, buf: seq<byte>)
    requires m > 0 && Sendable(f)
    ensures |FrameFragments(conn, f, m)| > 0
    ensures forall k :: 0 <= k < |FrameFragments(conn, f, m)| ==>
              PushAll(buf, FrameFragments(conn, f, m)[..k]).frames == []
    ensures PushAll(buf, FrameFragments(conn, f, m)) == Heard([f], [])
  {
    var b := BuildL2cap(f);
    var pieces := Fragments(b, m);
    var marked := Mark(conn, pieces, true);
    FragmentsCoverFrame(b, m);
    assert Flatten(pieces) == pieces[0] + Flatten(pieces[1..]);
    if |pieces| == 1 {
      assert pieces[1..] == [] && pieces[0] == b;
      WholeFrameEmerges(f);
      assert marked[1..] == [];
      assert PushAll([], []) == Heard([], []);
    } else {
      assert Flatten(pieces[1..]) == pieces[1] + Flatten(pieces[1..][1..]);
      PartialFrameWaits(f, pieces[0]);
      ContinuingFragments(conn, f, pieces[0], pieces[1..]);
      assert marked[1..] == Mark(conn, pieces[1..], false);
    }
    forall k | 0 <= k < |marked|
      ensures PushAll(buf, marked[..k]).frames == []
    {
      if k > 0 {
        assert marked[..k][1..] == marked[1..][..k - 1];
      }
    }
  }

  /** However much of a connection's fragments has arrived, what comes out is a
      prefix of the frames, and it is all of them only when all has arrived. */
  lemma {:induction false} StreamReassembles(conn: u16, frames: seq<Frame>, m: nat, buf: seq<byte>, k: nat)
    requires m > 0
    requires forall i :: 0 <= i < |frames| ==> Sendable(frames[i])
    requires k <= |AllFragments(conn, frames, m)|
    ensures PushAll(buf, AllFragments(conn, frames, m)[..k]).frames <= frames
    ensures k == |AllFragments(conn, frames, m)| <==>
            PushAll(buf, AllFragments(conn, frames, m)[..k]).frames == frames
    decreases |frames|
  {
    hide FrameFragments;
    if frames != [] {
      var all, first := AllFragments(conn, frames, m), FrameFragments(conn, frames[0], m);
      FrameReassembles(conn, frames[0], m, buf);
      if k < |first| {
        assert all[..k] == first[..k];
      } else {
        var later := AllFragments(conn, frames[1..], m)[..k - |first|];
        assert all[..k] == first + later;
        PushAllAppend(buf, first, later);
        StreamReassembles(conn, frames[1..], m, [], k - |first|);
        assert frames == [frames[0]] + frames[1..];
      }
    }
  }
}
