/** Cutting a byte stream into self-delimiting pieces. The H4 stream and the
    L2CAP stream are both read this way: look at the front of the buffer, and
    take a piece, skip a byte, or wait for more. */
module Framing {
  import opened Bytes

  /** What the front of a non-empty buffer says. */
  datatype Head = Wait | Skip | Take(size: nat)

  type Framer = seq<byte> -> Head

  /** The whole pieces in a buffer, and the bytes that have to wait for more. */
  datatype Cut = Cut(pieces: seq<seq<byte>>, rest: seq<byte>)

  /** How many bytes the front of the buffer gives up; none means wait. */
  function StepOf(f: Framer, data: seq<byte>): (n: nat)
    ensures n <= |data|
  {
    if data == [] then 0
    else
      match f(data)
      case Wait => 0
      case Skip => 1
      case Take(size) => if size <= |data| then size else 0
  }

  function PieceOf(f: Framer, data: seq<byte>): seq<seq<byte>>
  {
    if data != [] && f(data).Take? then [data[..StepOf(f, data)]] else []
  }

  function CutAll(f: Framer, data: seq<byte>): (c: Cut)
    decreases |data|
  {
    var n := StepOf(f, data);
    if n == 0 then Cut([], data)
    else
      var c := CutAll(f, data[n..]);
      Cut(PieceOf(f, data) + c.pieces, c.rest)
  }

  /** A decision once taken is not changed by bytes that arrive later. */
  ghost predicate Stable(f: Framer) {
    forall a, b :: StepOf(f, a) > 0 ==> f(a + b) == f(a)
  }

  lemma StepResumes(f: Framer, a: seq<byte>, b: seq<byte>)
    requires Stable(f) && StepOf(f, a) > 0
    ensures StepOf(f, a + b) == StepOf(f, a) && PieceOf(f, a + b) == PieceOf(f, a)
    ensures (a + b)[StepOf(f, a)..] == a[StepOf(f, a)..] + b
  {
    assert f(a + b) == f(a);
    assert (a + b)[..StepOf(f, a)] == a[..StepOf(f, a)];
  }

  /** More bytes never change what was already cut: the rest is carried over
      and reading goes on as if the bytes had come in one piece. This holds for
      garbage as well as for whole pieces. */
  lemma {:induction false} CutResumes(f: Framer, a: seq<byte>, b: seq<byte>)
    requires Stable(f)
    ensures CutAll(f, a + b) ==
            Cut(CutAll(f, a).pieces + CutAll(f, CutAll(f, a).rest + b).pieces,
                CutAll(f, CutAll(f, a).rest + b).rest)
    decreases |a|
  {
    var n := StepOf(f, a);
    if n > 0 {
      CutResumes(f, a[n..], b);
      StepResumes(f, a, b);
      var more := CutAll(f, a[n..]);
      Regroup(PieceOf(f, a), more.pieces, CutAll(f, more.rest + b).pieces);
    } else {
      assert CutAll(f, a) == Cut([], a);
    }
  }

  /** A piece the framer accepts whole. */
  ghost predicate Whole(f: Framer, piece: seq<byte>) {
    piece != [] && f(piece) == Take(|piece|)
  }

  /** A buffer with nothing to give up. */
  ghost predicate Stuck(f: Framer, data: seq<byte>) {
    StepOf(f, data) == 0
  }

  /** Pieces sent one after another come back as they were, whatever unfinished
      piece follows them. */
  lemma {:induction false} CutFlattened(f: Framer, pieces: seq<seq<byte>>, torn: seq<byte>)
    requires Stable(f)
    requires forall i :: 0 <= i < |pieces| ==> Whole(f, pieces[i])
    requires Stuck(f, torn)
    ensures CutAll(f, Flatten(pieces) + torn) == Cut(pieces, torn)
  {
    if pieces == [] {
      assert Flatten(pieces) + torn == torn;
    } else {
      var p, later := pieces[0], Flatten(pieces[1..]) + torn;
      CutFlattened(f, pieces[1..], torn);
      assert Whole(f, p) && StepOf(f, p) == |p|;
      assert Flatten(pieces) == p + Flatten(pieces[1..]);
      Regroup(p, Flatten(pieces[1..]), torn);
      StepResumes(f, p, later);
      assert p[|p|..] + later == later;
    }
  }

  /** A loop that has cut `out` off the front of `data` and stands at `off`. */
  ghost predicate Progress(f: Framer, data: seq<byte>, off: nat, out: seq<seq<byte>>) {
    && off <= |data|
    && CutAll(f, data) == Cut(out + CutAll(f, data[off..]).pieces, CutAll(f, data[off..]).rest)
  }

  lemma ProgressStarts(f: Framer, data: seq<byte>)
    ensures Progress(f, data, 0, [])
  {
    assert data[0..] == data;
  }

  lemma ProgressStops(f: Framer, data: seq<byte>, off: nat, out: seq<seq<byte>>)
    requires Progress(f, data, off, out) && Stuck(f, data[off..])
    ensures CutAll(f, data) == Cut(out, data[off..])
  {
  }

  lemma ProgressAdvances(f: Framer, data: seq<byte>, off: nat, out: seq<seq<byte>>, next: seq<seq<byte>>)
    requires Progress(f, data, off, out) && !Stuck(f, data[off..])
    requires next == out + PieceOf(f, data[off..])
    ensures Progress(f, data, off + StepOf(f, data[off..]), next)
  {
    DropDrop(data, off, StepOf(f, data[off..]));
  }

  /** The loop both readers of the source run, one piece or one skipped byte at
      a time; `off` is how many bytes the caller may erase. */
  method CutBuffer(f: Framer, data: seq<byte>) returns (out: seq<seq<byte>>, off: nat)
    ensures off <= |data|
    ensures Cut(out, data[off..]) == CutAll(f, data)
  {
    out, off := [], 0;
    ProgressStarts(f, data);
    while off < |data|
      invariant off <= |data|
      invariant Progress(f, data, off, out)
    {
      var body := data[off..];
      var step := StepOf(f, body);
      if step == 0 {
        break;
      }
      ProgressAdvances(f, data, off, out, out + PieceOf(f, body));
      out, off := out + PieceOf(f, body), off + step;
    }
    ProgressStops(f, data, off, out);
  }
}
