/** A camera as a Bluetooth peripheral: a table laid out by the builder, served,
    and found and subscribed to by the client (src/att.cc, src/camera_hci.cc). */
module AttCamera {
  import opened Bytes
  import opened Wrappers
  import opened Gatt
  import opened AttServer
  import opened Discovery
  import opened AttBuilder

  /** Connects a client to a server of what a builder laid out, whatever MTU it
      offers first. Nothing is asked of the table but that its one camera service
      is within the rounds and declares the two characteristics once, the
      timecode notifying. */
  method Meet(builder: ServerBuilder, offer: u16, ghost cuts: (ServiceCut, CharCut, InfoCut),
              ghost k: nat, ghost s: ServiceRange, ghost xs: seq<CharDecl>, ghost t: nat, ghost o: nat)
    returns (camera: Camera, server: Server, ok: bool)
    requires builder.Built() && builder.proper && |builder.table| < 0xffff - 4
    requires cuts.0.mtu == cuts.1.mtu == cuts.2.mtu == Agreed(DEFAULT_MTU, MtuRequest(offer))
    requires Discoverable(builder.table, cuts.0, cuts.1, k, s, xs)
    requires DeclaredOnce(xs, OUTGOING_CONTROL, o) && DeclaredOnce(xs, TIMECODE, t) && Notifies(xs[t].properties)
    ensures fresh(camera) && fresh(server)
    ensures ok && camera.subscribed && server.mtu == Agreed(DEFAULT_MTU, MtuRequest(offer))
    ensures camera.svcStart == s.start && camera.svcEnd == s.end && camera.chars == xs
    ensures camera.outgoing.value == xs[o].valueHandle
    ensures camera.timecode == CharHandles(xs[t].valueHandle, xs[t].properties,
                                           FirstConfig(Descriptors(builder.table, xs, t, s.end)))
    ensures camera.timecode.cccd != 0 && Subscribed(server.table, camera.timecode.value)
  {
    hide LaidOut, Discoverable, DeclaredOnce, Notifies, Descriptors, FirstConfig, Subscribed, Agreed, Acquirable;
    ghost var table := builder.table;
    BuiltIsAcquirable(table, cuts.0, cuts.1, k, s, xs, t, o);
    HasConfig(table, cuts.0, cuts.1, k, s, xs, t, o);
    server := new Server(builder.table);
    MtuIsNoWrite(table, offer);
    var _ := server.HandleRequest(MtuRequest(offer));
    camera := new Camera();
    ok := camera.Acquire(server, cuts, k, s, xs, t, o);
  }

  function MtuRequest(offer: u16): (pdu: seq<byte>)
    ensures |pdu| == 3 && pdu[0] == EXCHANGE_MTU_REQUEST
  {
    [EXCHANGE_MTU_REQUEST] + Put16(offer)
  }

  lemma MtuIsNoWrite(table: seq<Attribute>, offer: u16)
    ensures Written(table, MtuRequest(offer)) == table
  {
  }

  lemma HasConfig(table: seq<Attribute>, cut: ServiceCut, cut': CharCut, k: nat, s: ServiceRange, xs: seq<CharDecl>,
                  t: nat, o: nat)
    requires Acquirable(table, cut, cut', k, s, xs, t, o)
    ensures t < |xs| && o < |xs| && FirstConfig(Descriptors(table, xs, t, s.end)) != 0
  {
  }

  // ------------------------------------------------- any camera of one service

  datatype CharSpec = CharSpec(uuid: Uuid, properties: byte, value: seq<byte>, description: seq<byte>)

  function SpecRows(at: nat, c: CharSpec): (r: seq<Attribute>)
    ensures 2 <= |r| <= 4
  {
    CharRows(at, c.uuid, c.properties, c.value, c.description)
  }

  /** The rows of several characteristics, from index `at` on. */
  function RowsOf(at: nat, cs: seq<CharSpec>): (r: seq<Attribute>)
    ensures |r| <= 4 * |cs|
    decreases |cs|
  {
    if cs == [] then [] else SpecRows(at, cs[0]) + RowsOf(at + |SpecRows(at, cs[0])|, cs[1..])
  }

  /** What they declare. */
  function DeclsOf(at: nat, cs: seq<CharSpec>): (xs: seq<CharDecl>)
    ensures |xs| == |cs|
    decreases |cs|
  {
    if cs == [] then []
    else
      [CharDecl(HandleAt(at), cs[0].properties, HandleAt(at + 1), cs[0].uuid)]
      + DeclsOf(at + |SpecRows(at, cs[0])|, cs[1..])
  }

  ghost predicate AllProper(cs: seq<CharSpec>) {
    forall i :: 0 <= i < |cs| ==> Proper(cs[i].uuid)
  }

  lemma {:induction false} DeclaredAppend(a: seq<Attribute>, b: seq<Attribute>, lo: nat, hi: nat)
    ensures Declared(a + b, lo, hi) == Declared(a, lo, hi) + Declared(b, lo, hi)
  {
    if a == [] {
      assert a + b == b;
    } else {
      assert (a + b)[1..] == a[1..] + b;
      DeclaredAppend(a[1..], b, lo, hi);
      assert DeclOf()(a[0], a[1..] + b) == DeclOf()(a[0], a[1..]);
    }
  }

  lemma NotDeclared(a: Attribute, rest: seq<Attribute>, lo: nat, hi: nat)
    requires a.kind != FromShort(CHARACTERISTIC)
    ensures Declared([a] + rest, lo, hi) == Declared(rest, lo, hi)
  {
    assert ([a] + rest)[1..] == rest;
  }

  lemma {:induction false} NoneDeclared(rows: seq<Attribute>, lo: nat, hi: nat)
    requires forall j :: 0 <= j < |rows| ==> rows[j].kind != FromShort(CHARACTERISTIC)
    ensures Declared(rows, lo, hi) == []
  {
    if rows != [] {
      NoneDeclared(rows[1..], lo, hi);
    }
  }

  lemma RestDeclaresNothing(at: nat, c: CharSpec, j: nat)
    requires Proper(c.uuid) && 1 <= j < |SpecRows(at, c)|
    ensures !EndsCharacteristic(SpecRows(at, c)[j])
  {
    hide CharRows;
    DistinctKinds();
    RestKinds(at, c.uuid, c.properties, c.value, c.description, j);
  }

  /** The rows of one characteristic declare just it. */
  lemma SpecDeclares(at: nat, c: CharSpec, lo: nat, hi: nat)
    requires Proper(c.uuid) && lo <= at + 1 <= hi < 0xffff
    ensures Declared(SpecRows(at, c), lo, hi) == [CharDecl(HandleAt(at), c.properties, HandleAt(at + 1), c.uuid)]
  {
    hide ToLe, Put16, EndsCharacteristic, Declared, UuidOf, IsServiceDecl;
    var rows := SpecRows(at, c);
    var rest := rows[1..];
    forall j | 0 <= j < |rest|
      ensures rest[j].kind != FromShort(CHARACTERISTIC)
    {
      RestDeclaresNothing(at, c, j + 1);
      CharsEnd(rest[j]);
    }
    NoneDeclared(rest, lo, hi);
    DeclValue(at, c.properties, c.uuid);
    assert rows == [rows[0]] + rest;
    OneDeclared(rows[0], rest, lo, hi);
  }

  lemma CharsEnd(a: Attribute)
    ensures a.kind == FromShort(CHARACTERISTIC) ==> EndsCharacteristic(a)
  {
  }

  lemma OneDeclared(a: Attribute, rest: seq<Attribute>, lo: nat, hi: nat)
    requires a.kind == FromShort(CHARACTERISTIC) && lo <= a.handle <= hi && |a.value| >= 3
             && Declared(rest, lo, hi) == []
    ensures Declared([a] + rest, lo, hi) == [CharDecl(a.handle, a.value[0], Get16(a.value[1..]), UuidOf(a.value[3..]))]
  {
    assert ([a] + rest)[1..] == rest;
  }

  /** The rows of several declare just them, in order. */
  lemma {:induction false} RowsDeclare(at: nat, cs: seq<CharSpec>, lo: nat, hi: nat)
    requires AllProper(cs) && lo <= at + 1 && at + |RowsOf(at, cs)| <= hi < 0xffff
    ensures Declared(RowsOf(at, cs), lo, hi) == DeclsOf(at, cs)
    decreases |cs|
  {
    hide Declared, SpecRows;
    if cs == [] {
      NoneDeclared([], lo, hi);
    } else {
      var first := SpecRows(at, cs[0]);
      SpecDeclares(at, cs[0], lo, hi);
      RowsDeclare(at + |first|, cs[1..], lo, hi);
      DeclaredAppend(first, RowsOf(at + |first|, cs[1..]), lo, hi);
    }
  }

  lemma {:induction false} RowsHoldNoService(at: nat, cs: seq<CharSpec>, j: nat)
    requires AllProper(cs) && j < |RowsOf(at, cs)|
    ensures !IsServiceDecl(RowsOf(at, cs)[j].kind)
    decreases |cs|
  {
    hide SpecRows;
    var first := SpecRows(at, cs[0]);
    if j < |first| {
      SpecHoldsNoService(at, cs[0], j);
    } else {
      RowsHoldNoService(at + |first|, cs[1..], j - |first|);
    }
  }

  lemma SpecHoldsNoService(at: nat, c: CharSpec, j: nat)
    requires Proper(c.uuid) && j < |SpecRows(at, c)|
    ensures !IsServiceDecl(SpecRows(at, c)[j].kind)
  {
    DistinctKinds();
    if j > 0 {
      RestDeclaresNothing(at, c, j);
    }
  }

  /** A table of one camera service. */
  function CameraTable(cs: seq<CharSpec>): (table: seq<Attribute>)
    ensures 1 <= |table| <= 1 + 4 * |cs|
  {
    [ServiceRow(0, CAMERA_SERVICE)] + RowsOf(1, cs)
  }

  lemma {:induction false} NoServices(rows: seq<Attribute>, from: nat)
    requires forall j :: 0 <= j < |rows| ==> !IsServiceDecl(rows[j].kind)
    ensures Services(rows, from) == []
  {
    if rows != [] {
      NoServices(rows[1..], from);
    }
  }

  lemma OneService(cs: seq<CharSpec>)
    requires AllProper(cs) && LaidOut(CameraTable(cs))
    ensures Services(CameraTable(cs), 1) == [ServiceRange(1, |CameraTable(cs)|, CAMERA_SERVICE)]
  {
    hide Services, LaidOut, RowsOf;
    var table, rest := CameraTable(cs), RowsOf(1, cs);
    forall j | 0 <= j < |rest|
      ensures !IsServiceDecl(rest[j].kind)
    {
      RowsHoldNoService(1, cs, j);
    }
    NoServices(rest, 1);
    forall j | 0 <= j < |rest|
      ensures rest[j].handle == j + 2
    {
      LaidOutAt(table, j + 1);
      assert table[j + 1] == rest[j];
    }
    LaidOutIsShort(table);
    GroupEndBounds(rest, 1);
    UuidRoundTrip(CAMERA_SERVICE);
    ServicesOfOne(table[0], rest);
    assert table == [table[0]] + rest;
  }

  lemma LaidOutIsShort(table: seq<Attribute>)
    requires LaidOut(table)
    ensures |table| < 0xffff
  {
  }

  lemma ServicesOfOne(a: Attribute, rest: seq<Attribute>)
    requires a.kind == FromShort(PRIMARY_SERVICE) && a.handle == 1 && Services(rest, 1) == []
    ensures Services([a] + rest, 1) == [ServiceRange(1, GroupEnd(rest, 1), UuidOf(a.value))]
  {
    assert ([a] + rest)[1..] == rest;
  }

  /** The t-th characteristic is the only one with its UUID. */
  ghost predicate SpecOnce(cs: seq<CharSpec>, uuid: Uuid, t: nat) {
    t < |cs| && cs[t].uuid == uuid && forall j :: 0 <= j < |cs| && j != t ==> cs[j].uuid != uuid
  }

  lemma {:induction false} DeclsAt(at: nat, cs: seq<CharSpec>, t: nat)
    requires t < |cs|
    ensures DeclsOf(at, cs)[t].uuid == cs[t].uuid && DeclsOf(at, cs)[t].properties == cs[t].properties
    decreases |cs|
  {
    if t > 0 {
      DeclsAt(at + |SpecRows(at, cs[0])|, cs[1..], t - 1);
    }
  }

  lemma DeclsOnce(at: nat, cs: seq<CharSpec>, uuid: Uuid, t: nat)
    requires SpecOnce(cs, uuid, t)
    ensures DeclaredOnce(DeclsOf(at, cs), uuid, t)
  {
    hide DeclsOf;
    forall j | 0 <= j < |cs|
      ensures DeclsOf(at, cs)[j].uuid == cs[j].uuid
    {
      DeclsAt(at, cs, j);
    }
  }

  /** Such a table is within reach when it declares no more than the client has
      rounds for. */
  lemma CameraIsDiscoverable(cs: seq<CharSpec>, cut: ServiceCut, cut': CharCut)
    requires AllProper(cs) && LaidOut(CameraTable(cs)) && |cs| <= CHAR_ROUNDS
    ensures Discoverable(CameraTable(cs), cut, cut', 0, ServiceRange(1, |CameraTable(cs)|, CAMERA_SERVICE),
                         DeclsOf(1, cs))
  {
    hide Services, Declared, Sound, RowsOf, DeclsOf, Proper, FromShort;
    var table, n := CameraTable(cs), |CameraTable(cs)|;
    var row, rest := ServiceRow(0, CAMERA_SERVICE), RowsOf(1, cs);
    OneService(cs);
    DistinctKinds();
    NotDeclared(row, rest, 1, n);
    RowsDeclare(1, cs, 1, n);
    RoundsToAtMost(Services(table, 1), cut.next, 0);
    if cs != [] {
      RoundsToAtMost(DeclsOf(1, cs), cut'.next, |cs| - 1);
    }
  }

  lemma RowsStep(table: seq<Attribute>, cs: seq<CharSpec>, i: nat)
    requires i < |cs|
    ensures var first := SpecRows(|table|, cs[i]);
            table + RowsOf(|table|, cs[i..]) == table + first + RowsOf(|table + first|, cs[i + 1..])
  {
    hide SpecRows;
    assert cs[i..][1..] == cs[i + 1..];
    var first := SpecRows(|table|, cs[i]);
    Regroup(table, first, RowsOf(|table + first|, cs[i + 1..]));
  }

  /** Lays out the camera service with any characteristics. */
  method Build(cs: seq<CharSpec>) returns (builder: ServerBuilder)
    ensures builder.Built() && builder.table == CameraTable(cs) && (AllProper(cs) ==> builder.proper)
  {
    hide LaidOut, RowsOf, CharRows, ServiceRow, Proper;
    builder := new ServerBuilder();
    var _ := builder.AddPrimaryService(CAMERA_SERVICE);
    assert cs[0..] == cs;
    assert [] + [ServiceRow(0, CAMERA_SERVICE)] == [ServiceRow(0, CAMERA_SERVICE)];
    for i := 0 to |cs|
      invariant fresh(builder) && builder.Built() && (AllProper(cs) ==> builder.proper)
      invariant builder.table + RowsOf(|builder.table|, cs[i..]) == CameraTable(cs)
    {
      RowsStep(builder.table, cs, i);
      var _ := builder.AddCharacteristic(cs[i].uuid, cs[i].properties, cs[i].value, cs[i].description);
    }
    NoRows(|builder.table|);
    assert builder.table + [] == builder.table;
  }

  lemma NoRows(at: nat)
    ensures RowsOf(at, []) == []
  {
  }

  /** Any camera of up to as many characteristics as the client has rounds for is
      found whole and subscribed to, at any MTU, as soon as it has both of those
      that matter once and its timecode notifies. */
  method AnyCamera(cs: seq<CharSpec>, offer: u16, ghost t: nat, ghost o: nat)
    returns (camera: Camera, server: Server, ok: bool)
    requires AllProper(cs) && |cs| <= CHAR_ROUNDS
    requires SpecOnce(cs, OUTGOING_CONTROL, o) && SpecOnce(cs, TIMECODE, t) && Notifies(cs[t].properties)
    ensures fresh(camera) && fresh(server)
    ensures ok && camera.subscribed && camera.chars == DeclsOf(1, cs)
    ensures camera.outgoing.value == DeclsOf(1, cs)[o].valueHandle
    ensures camera.timecode.value == DeclsOf(1, cs)[t].valueHandle && camera.timecode.cccd != 0
    ensures Subscribed(server.table, camera.timecode.value)
  {
    hide LaidOut, Discoverable, DeclaredOnce, Notifies, Subscribed, Agreed, CameraTable, DeclsOf, AllProper, SpecOnce;
    ghost var mtu := Agreed(DEFAULT_MTU, MtuRequest(offer));
    AgreedIsEnough(offer);
    ghost var cuts := (ServiceCutFor(mtu), CharCutFor(mtu), InfoCutFor(mtu));
    var builder := Build(cs);
    CameraIsDiscoverable(cs, cuts.0, cuts.1);
    DeclsOnce(1, cs, OUTGOING_CONTROL, o);
    DeclsOnce(1, cs, TIMECODE, t);
    IndexOnce(cs, TIMECODE, t);
    IndexOnce(cs, OUTGOING_CONTROL, o);
    DeclsAt(1, cs, t);
    camera, server, ok := Meet(builder, offer, cuts, 0, ServiceRange(1, |builder.table|, CAMERA_SERVICE),
                               DeclsOf(1, cs), t, o);
  }

  lemma IndexOnce(cs: seq<CharSpec>, uuid: Uuid, t: nat)
    requires SpecOnce(cs, uuid, t)
    ensures t < |cs|
  {
  }

  lemma AgreedIsEnough(offer: u16)
    ensures Agreed(DEFAULT_MTU, MtuRequest(offer)) >= DEFAULT_MTU
  {
  }

  // ------------------------------------------- a characteristic declared twice

  /** A camera that declares its timecode twice, first notifying and then not. */
  const MIXED := [CharSpec(OUTGOING_CONTROL, PROP_WRITE, [], []), CharSpec(TIMECODE, NOTIFIES, [], []),
                  CharSpec(TIMECODE, PROP_READ, [], [])]

  lemma MixedIsProper()
    ensures AllProper(MIXED)
  {
    hide IsServiceDecl;
    assert OUTGOING_CONTROL[0] == 0x5d && TIMECODE[0] == 0x6d;
    NoDeclaration(OUTGOING_CONTROL);
    NoDeclaration(TIMECODE);
  }

  lemma NoDeclaration(uuid: Uuid)
    requires uuid[0] != 0
    ensures Proper(uuid)
  {
    assert FromShort(CHARACTERISTIC)[0] == 0 && FromShort(CLIENT_CONFIG)[0] == 0;
    assert FromShort(PRIMARY_SERVICE)[0] == 0 && FromShort(SECONDARY_SERVICE)[0] == 0;
  }

  /** Where its declarations are. */
  lemma MixedDecls()
    ensures |CameraTable(MIXED)| == 8 && |DeclsOf(1, MIXED)| == 3
    ensures var xs := DeclsOf(1, MIXED);
            && xs[0].uuid == OUTGOING_CONTROL && xs[0].valueHandle == 3 && !Notifies(xs[0].properties)
            && xs[1].uuid == TIMECODE && xs[1].valueHandle == 5 && Notifies(xs[1].properties)
            && xs[2].uuid == TIMECODE && xs[2].valueHandle == 8 && !Notifies(xs[2].properties)
  {
    hide FromShort, ToLe, Put16;
    var first, second, third := SpecRows(1, MIXED[0]), SpecRows(3, MIXED[1]), SpecRows(6, MIXED[2]);
    assert |first| == 2 && |second| == 3 && |third| == 2;
    assert MIXED[1..] == [MIXED[1], MIXED[2]] && MIXED[1..][1..] == [MIXED[2]] && [MIXED[2]][1..] == [];
    assert RowsOf(6, [MIXED[2]]) == third + RowsOf(8, []);
    assert RowsOf(3, MIXED[1..]) == second + RowsOf(6, [MIXED[2]]);
    assert DeclsOf(6, [MIXED[2]]) == [CharDecl(7, PROP_READ, 8, TIMECODE)] + DeclsOf(8, []);
    assert DeclsOf(3, MIXED[1..]) == [CharDecl(4, NOTIFIES, 5, TIMECODE)] + DeclsOf(6, [MIXED[2]]);
  }

  /** A client that keeps nothing of a UUID nobody declares. */
  lemma {:induction false} NeverDeclared(chars: seq<CharDecl>, configs: map<nat, u16>, uuid: Uuid, n: nat)
    requires n <= |chars| && forall j :: 0 <= j < n ==> chars[j].uuid != uuid
    ensures Handles(chars, configs, uuid, UNKNOWN, n) == UNKNOWN
  {
    if n > 0 {
      NeverDeclared(chars, configs, uuid, n - 1);
    }
  }

  /** Nothing is configured behind the last attribute. */
  lemma LastIsBare(table: seq<Attribute>, v: u16)
    requires NumberedFrom(table, 1) && v == |table| > 0
    ensures !Subscribed(table, v)
  {
    FindNumbered(table, v);
    assert table[v..] == [];
  }

  lemma WrittenIsNumbered(table: seq<Attribute>, pdu: seq<byte>)
    requires NumberedFrom(table, 1)
    ensures NumberedFrom(Written(table, pdu), 1) && |Written(table, pdu)| == |table|
  {
  }

  lemma MixedFold(xs: seq<CharDecl>, m: map<nat, u16>)
    requires |xs| == 3 && xs[0].uuid == OUTGOING_CONTROL && xs[1].uuid == xs[2].uuid == TIMECODE
    requires 1 in m && 2 !in m
    ensures Handles(xs, m, TIMECODE, UNKNOWN, 3) == CharHandles(xs[2].valueHandle, xs[2].properties, m[1])
    ensures Handles(xs, m, OUTGOING_CONTROL, UNKNOWN, 3).value == xs[0].valueHandle
    ensures Handles(xs, m, INCOMING_CONTROL, UNKNOWN, 3) == UNKNOWN
  {
    ThreeApart();
    assert Handles(xs, m, TIMECODE, UNKNOWN, 2).cccd == m[1];
    HandlesOfLast(xs, m, OUTGOING_CONTROL, 0, 3);
    NeverDeclared(xs, m, INCOMING_CONTROL, 3);
  }

  /** What discovery keeps of the twice declared timecode: the value of the
      second declaration, the configuration of the first. */
  lemma MixedHandles(table: seq<Attribute>, cut: InfoCut, s: ServiceRange, xs: seq<CharDecl>)
    requires Located(table, 0, s, xs) && LaidOut(table) && |xs| == 3
    requires xs[0].uuid == OUTGOING_CONTROL && xs[1].uuid == xs[2].uuid == TIMECODE
    requires Notifies(xs[1].properties) && !Notifies(xs[2].properties)
    ensures var m := ConfigMap(Configs(table, cut, xs, s.end), 3);
            var timecode := Handles(xs, m, TIMECODE, UNKNOWN, 3);
            && timecode.value == xs[2].valueHandle
            && timecode.cccd == FirstConfig(Descriptors(table, xs, 1, s.end)) != 0
            && Handles(xs, m, OUTGOING_CONTROL, UNKNOWN, 3).value == xs[0].valueHandle
            && Handles(xs, m, INCOMING_CONTROL, UNKNOWN, 3) == UNKNOWN
  {
    hide Handles, ConfigMap, Configs, Descriptors, FirstConfig, LaidOut, Notifies, Located, Sound, NumberedFrom;
    LaidOutIsNumbered(table);
    FewDescriptors(table, 0, s, xs, 1);
    FewDescriptors(table, 0, s, xs, 2);
    ConfigIsListed(table, 0, s, xs, 1);
    RecordedOf(table, cut, xs, s.end, 1);
    RecordedOf(table, cut, xs, s.end, 2);
    MixedFold(xs, ConfigMap(Configs(table, cut, xs, s.end), 3));
  }

  lemma LaidOutIsNumbered(table: seq<Attribute>)
    requires LaidOut(table)
    ensures Sound(table) && NumberedFrom(table, 1)
  {
  }

  lemma ThreeApart()
    ensures OUTGOING_CONTROL != INCOMING_CONTROL && INCOMING_CONTROL != TIMECODE && OUTGOING_CONTROL != TIMECODE
  {
    assert OUTGOING_CONTROL[0] != INCOMING_CONTROL[0] && INCOMING_CONTROL[0] != TIMECODE[0]
      && OUTGOING_CONTROL[0] != TIMECODE[0];
  }

  /** What the client then makes of the server. */
  lemma MixedMeets(table: seq<Attribute>, mtu: nat, cuts: (ServiceCut, CharCut, InfoCut))
    requires table == CameraTable(MIXED) && LaidOut(table) && mtu >= DEFAULT_MTU
    ensures var xs, s := DeclsOf(1, MIXED), ServiceRange(1, 8, CAMERA_SERVICE);
            var m := ConfigMap(Configs(table, cuts.2, xs, 8), |xs|);
            var timecode := Handles(xs, m, TIMECODE, UNKNOWN, |xs|);
            var incoming := Handles(xs, m, INCOMING_CONTROL, UNKNOWN, |xs|);
            var done := Subscriptions(table, mtu, ToSubscribe(timecode) + ToSubscribe(incoming));
            && Sound(table) && FoundService(Services(table, 1), cuts.0.next, SERVICE_ROUNDS) == Some(s)
            && FoundChars(Declared(table, 1, 8), cuts.1.next, CHAR_ROUNDS) == xs
            && Handles(xs, m, OUTGOING_CONTROL, UNKNOWN, |xs|).value == 3 && timecode.value == 8 && timecode.cccd != 0
            && done.1 && !Subscribed(done.0, 8) && Subscribed(done.0, 5)
  {
    hide Handles, ConfigMap, Configs, Subscribed, Services, Declared, FoundService, FoundChars, Notifies;
    hide FirstConfig, Descriptors, DeclsOf, CameraTable, LaidOut, NumberedFrom, Answer, Written;
    var xs, s := DeclsOf(1, MIXED), ServiceRange(1, 8, CAMERA_SERVICE);
    MixedDecls();
    MixedIsProper();
    CameraIsDiscoverable(MIXED, cuts.0, cuts.1);
    FindsEverything(table, cuts.0, cuts.1, 0, s, xs);
    MixedHandles(table, cuts.2, s, xs);
    SoundIsNumbered(table);
    var c := FirstConfig(Descriptors(table, xs, 1, 8));
    SubscribingWorks(table, mtu, 0, s, xs, 1, []);
    assert [c] + [] == [c] && [c][1..] == [];
    WrittenIsNumbered(table, WriteRequestPdu(c, NOTIFY_ON));
    LastIsBare(Subscriptions(table, mtu, [c]).0, 8);
  }

  /** Discovery and subscribing succeed on that camera, at any MTU; but what the
      server then notifies is the value of the first declaration, and what the
      client listens for is the value of the second, which nobody has subscribed
      to. */
  method MixedUp(offer: u16) returns (camera: Camera, server: Server, ok: bool)
    ensures fresh(camera) && fresh(server) && server.mtu == Agreed(DEFAULT_MTU, MtuRequest(offer))
    ensures ok && camera.subscribed && camera.chars == DeclsOf(1, MIXED)
    ensures camera.timecode.value == DeclsOf(1, MIXED)[2].valueHandle && camera.timecode.cccd != 0
    ensures !Subscribed(server.table, camera.timecode.value)
    ensures Subscribed(server.table, DeclsOf(1, MIXED)[1].valueHandle)
  {
    hide LaidOut, Subscribed, Agreed, CameraTable, DeclsOf;
    ghost var mtu := Agreed(DEFAULT_MTU, MtuRequest(offer));
    AgreedIsEnough(offer);
    MixedDecls();
    server := ServeMixed(offer);
    camera, ok := FindMixed(server, (ServiceCutFor(mtu), CharCutFor(mtu), InfoCutFor(mtu)));
  }

  method FindMixed(server: Server, ghost cuts: (ServiceCut, CharCut, InfoCut)) returns (camera: Camera, ok: bool)
    requires server.table == CameraTable(MIXED) && LaidOut(server.table) && server.mtu >= DEFAULT_MTU
    requires cuts.0.mtu == cuts.1.mtu == cuts.2.mtu == server.mtu
    modifies server
    ensures fresh(camera) && server.mtu == old(server.mtu)
    ensures ok && camera.subscribed && camera.chars == DeclsOf(1, MIXED)
    ensures camera.timecode.value == 8 && camera.timecode.cccd != 0
    ensures !Subscribed(server.table, 8) && Subscribed(server.table, 5)
  {
    hide LaidOut, Subscribed, CameraTable, DeclsOf, Handles, ConfigMap, Configs, Subscriptions;
    hide ToSubscribe, Sound, Services, Declared, FoundService, FoundChars;
    MixedDecls();
    MixedMeets(server.table, server.mtu, cuts);
    camera := new Camera();
    ok := camera.Discover(server, cuts);
    ok := camera.Subscribe(server);
  }

  method ServeMixed(offer: u16) returns (server: Server)
    ensures fresh(server) && server.mtu == Agreed(DEFAULT_MTU, MtuRequest(offer))
    ensures server.table == CameraTable(MIXED) && LaidOut(server.table)
  {
    hide LaidOut, Agreed, CameraTable, AllProper;
    MixedDecls();
    MixedIsProper();
    AgreedIsEnough(offer);
    var builder := Build(MIXED);
    server := new Server(builder.table);
    MtuIsNoWrite(server.table, offer);
    var _ := server.HandleRequest(MtuRequest(offer));
  }
}
