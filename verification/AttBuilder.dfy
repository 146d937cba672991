/** Laying out an attribute table (src/att.cc, ServerBuilder), and why what it
    lays out can be discovered. */
module AttBuilder {
  import opened Bytes
  import opened Wrappers
  import opened Gatt
  import opened AttServer
  import opened Discovery

  const PROP_READ := 0x02
  const PROP_WRITE_WITHOUT_RESPONSE := 0x04
  const PROP_WRITE := 0x08

  predicate Has(properties: byte, bit: byte)
    requires bit > 0
  {
    (properties / bit) % 2 == 1
  }

  /** A UUID that does not itself mean something in a table. */
  predicate Proper(uuid: Uuid) {
    !IsServiceDecl(uuid) && uuid != FromShort(CHARACTERISTIC) && uuid != FromShort(CLIENT_CONFIG)
  }

  function HandleAt(i: nat): u16 {
    (i + 1) % 0x10000
  }

  function ServiceRow(i: nat, uuid: Uuid): Attribute {
    Attribute(HandleAt(i), FromShort(PRIMARY_SERVICE), ToLe(uuid), true, false)
  }

  /** A characteristic from index i on: its declaration, its value, a
      description if there is one, and a configuration if it notifies. */
  function CharRows(i: nat, uuid: Uuid, properties: byte, value: seq<byte>, description: seq<byte>): (r: seq<Attribute>)
    ensures 2 <= |r| <= 4
  {
    [Attribute(HandleAt(i), FromShort(CHARACTERISTIC), [properties] + Put16(HandleAt(i + 1)) + ToLe(uuid), true, false),
     Attribute(HandleAt(i + 1), uuid, value, Has(properties, PROP_READ),
               Has(properties, PROP_WRITE) || Has(properties, PROP_WRITE_WITHOUT_RESPONSE))]
    + (if description == [] then []
       else [Attribute(HandleAt(i + 2), FromShort(USER_DESCRIPTION), description, true, false)])
    + (if !Notifies(properties) then []
       else [Attribute(HandleAt(i + 2 + if description == [] then 0 else 1), FromShort(CLIENT_CONFIG), [0, 0], true,
                       true)])
  }

  /** No characteristic has more than two descriptors. */
  predicate CompactAt(table: seq<Attribute>, i: nat)
    requires i < |table|
  {
    table[i].kind == FromShort(CHARACTERISTIC) ==>
      || i + 2 >= |table| || EndsCharacteristic(table[i + 2])
      || i + 3 >= |table| || EndsCharacteristic(table[i + 3])
      || i + 4 >= |table| || EndsCharacteristic(table[i + 4])
  }

  ghost predicate Compact(table: seq<Attribute>) {
    forall i {:trigger CompactAt(table, i)} :: 0 <= i < |table| ==> CompactAt(table, i)
  }

  predicate IsConfig(a: Attribute) {
    a.kind == FromShort(CLIENT_CONFIG)
  }

  /** A characteristic that notifies has its client configuration, with nothing
      declared before it. */
  predicate ConfiguredAt(table: seq<Attribute>, i: nat)
    requires i < |table|
  {
    table[i].kind == FromShort(CHARACTERISTIC) && |table[i].value| >= 3 && Notifies(table[i].value[0]) ==>
      || (i + 2 < |table| && IsConfig(table[i + 2]))
      || (i + 3 < |table| && IsConfig(table[i + 3]) && !EndsCharacteristic(table[i + 2]))
  }

  ghost predicate Configured(table: seq<Attribute>) {
    forall i {:trigger ConfiguredAt(table, i)} :: 0 <= i < |table| ==> ConfiguredAt(table, i)
  }

  /** All that is known of a table laid out here. */
  ghost predicate LaidOut(table: seq<Attribute>) {
    Sound(table) && Compact(table) && Configured(table)
  }

  lemma DistinctKinds()
    ensures !EndsCharacteristic(Attribute(0, FromShort(USER_DESCRIPTION), [], true, true))
    ensures !EndsCharacteristic(Attribute(0, FromShort(CLIENT_CONFIG), [], true, true))
    ensures !IsServiceDecl(FromShort(CHARACTERISTIC)) && FromShort(PRIMARY_SERVICE) != FromShort(CHARACTERISTIC)
    ensures FromShort(CLIENT_CONFIG) !in [FromShort(USER_DESCRIPTION), FromShort(CHARACTERISTIC),
                                          FromShort(PRIMARY_SERVICE)]
  {
    var kinds := [PRIMARY_SERVICE, SECONDARY_SERVICE, CHARACTERISTIC, USER_DESCRIPTION, CLIENT_CONFIG];
    forall i, j | 0 <= i < 5 && 0 <= j < 5 && FromShort(kinds[i]) == FromShort(kinds[j])
      ensures kinds[i] == kinds[j]
    {
      ShortInjective(kinds[i], kinds[j]);
    }
    assert kinds[0] == PRIMARY_SERVICE && kinds[1] == SECONDARY_SERVICE && kinds[2] == CHARACTERISTIC;
    assert kinds[3] == USER_DESCRIPTION && kinds[4] == CLIENT_CONFIG;
  }

  /** What is known of the attribute at index i. */
  ghost predicate WellAt(table: seq<Attribute>, i: nat)
    requires i < |table|
  {
    SoundAt(table, i) && CompactAt(table, i) && ConfiguredAt(table, i)
  }

  lemma LaidOutAt(table: seq<Attribute>, i: nat)
    requires LaidOut(table) && i < |table|
    ensures WellAt(table, i) && table[i].handle == i + 1
  {
  }

  lemma LaidOutIs(table: seq<Attribute>)
    requires |table| < 0xffff
    requires forall i {:trigger WellAt(table, i)} :: 0 <= i < |table| ==> WellAt(table, i) && table[i].handle == i + 1
    ensures LaidOut(table)
  {
    forall i | 0 <= i < |table|
      ensures SoundAt(table, i) && CompactAt(table, i) && ConfiguredAt(table, i) && table[i].handle == i + 1
    {
      assert WellAt(table, i);
    }
  }

  /** Adding rows that begin with a declaration keeps what was there. */
  lemma AppendWell(table: seq<Attribute>, rows: seq<Attribute>, i: nat)
    requires i < |table| && WellAt(table, i) && rows != [] && EndsCharacteristic(rows[0])
    ensures WellAt(table + rows, i)
  {
    var t := table + rows;
    assert t[i] == table[i] && t[|table|] == rows[0];
    assert i + 1 < |table| ==> t[i + 1] == table[i + 1];
    assert i + 2 < |table| ==> t[i + 2] == table[i + 2];
    assert i + 3 < |table| ==> t[i + 3] == table[i + 3];
    assert i + 4 < |table| ==> t[i + 4] == table[i + 4];
    CompactStays(table, t, i);
  }

  lemma CompactStays(table: seq<Attribute>, t: seq<Attribute>, i: nat)
    requires i < |table| < |t| && CompactAt(table, i) && t[i] == table[i] && EndsCharacteristic(t[|table|])
    requires i + 2 < |table| ==> t[i + 2] == table[i + 2]
    requires i + 3 < |table| ==> t[i + 3] == table[i + 3]
    requires i + 4 < |table| ==> t[i + 4] == table[i + 4]
    ensures i + 1 < |table| ==> CompactAt(t, i)
  {
  }

  lemma ServiceKeeps(table: seq<Attribute>, uuid: Uuid)
    requires LaidOut(table) && |table| + 1 < 0xffff
    ensures LaidOut(table + [ServiceRow(|table|, uuid)])
  {
    hide LaidOut, WellAt;
    var rows := [ServiceRow(|table|, uuid)];
    var t := table + rows;
    DistinctKinds();
    forall i | 0 <= i < |t|
      ensures WellAt(t, i) && t[i].handle == i + 1
    {
      if i < |table| {
        LaidOutAt(table, i);
        AppendWell(table, rows, i);
      } else {
        ServiceWell(t, i, uuid);
      }
    }
    LaidOutIs(t);
  }

  lemma ServiceWell(t: seq<Attribute>, i: nat, uuid: Uuid)
    requires i < |t| && t[i] == ServiceRow(i, uuid)
    ensures WellAt(t, i)
  {
    DistinctKinds();
    UuidRoundTrip(uuid);
  }

  /** A characteristic's own rows, as they stand in a table. */
  predicate StandsAt(t: seq<Attribute>, at: nat, rows: seq<Attribute>) {
    at + |rows| == |t| && forall j :: 0 <= j < |rows| ==> t[at + j] == rows[j]
  }

  lemma DeclValue(at: nat, properties: byte, uuid: Uuid)
    ensures var value := [properties] + Put16(HandleAt(at + 1)) + ToLe(uuid);
            && |value| >= 3 && value[0] == properties && HoldsUuid(value[3..]) && Get16(value[1..]) == HandleAt(at + 1)
            && UuidOf(value[3..]) == uuid
  {
    hide ToLe, Put16;
    var value := [properties] + Put16(HandleAt(at + 1)) + ToLe(uuid);
    UuidRoundTrip(uuid);
    Get16Put16(HandleAt(at + 1), ToLe(uuid));
    assert value[1..] == Put16(HandleAt(at + 1)) + ToLe(uuid) && value[3..] == ToLe(uuid);
  }

  /** Its declaration is well placed. */
  lemma DeclWell(t: seq<Attribute>, at: nat, uuid: Uuid, properties: byte, value: seq<byte>, description: seq<byte>)
    requires Proper(uuid) && at + 4 < 0xffff && StandsAt(t, at, CharRows(at, uuid, properties, value, description))
    ensures WellAt(t, at)
  {
    hide ToLe, Put16, EndsCharacteristic, HoldsUuid, IsServiceDecl, FromShort;
    var rows := CharRows(at, uuid, properties, value, description);
    DistinctKinds();
    DeclValue(at, properties, uuid);
    assert t[at] == rows[0] && t[at + 1] == rows[1];
    NotAnEnd(rows[1]);
    if Notifies(properties) {
      if description == [] {
        assert t[at + 2] == rows[2];
      } else {
        assert t[at + 2] == rows[2] && t[at + 3] == rows[3];
        NoDescriptionEnds(rows[2]);
      }
    }
  }

  lemma NotAnEnd(a: Attribute)
    requires Proper(a.kind)
    ensures !EndsCharacteristic(a)
  {
  }

  lemma NoDescriptionEnds(a: Attribute)
    requires a.kind == FromShort(USER_DESCRIPTION)
    ensures !EndsCharacteristic(a)
  {
    DistinctKinds();
  }

  /** And so are the rows behind it, none of which declares anything. */
  lemma RestWell(t: seq<Attribute>, i: nat)
    requires i < |t| && (Proper(t[i].kind) || t[i].kind == FromShort(USER_DESCRIPTION)
                         || (IsConfig(t[i]) && t[i].writable))
    ensures WellAt(t, i)
  {
    DistinctKinds();
  }

  lemma RestKinds(at: nat, uuid: Uuid, properties: byte, value: seq<byte>, description: seq<byte>, j: nat)
    requires 1 <= j < |CharRows(at, uuid, properties, value, description)|
    ensures var a := CharRows(at, uuid, properties, value, description)[j];
            a.kind == uuid || a.kind == FromShort(USER_DESCRIPTION) || (IsConfig(a) && a.writable)
  {
  }

  lemma RowHandles(at: nat, uuid: Uuid, properties: byte, value: seq<byte>, description: seq<byte>, j: nat)
    requires at + 4 < 0xffff && j < |CharRows(at, uuid, properties, value, description)|
    ensures CharRows(at, uuid, properties, value, description)[j].handle == at + j + 1
  {
    hide Put16, ToLe, Has, Notifies;
    var rows := CharRows(at, uuid, properties, value, description);
    assert j == 0 || j == 1 || j == 2 || j == 3;
  }

  lemma RowsBegin(at: nat, uuid: Uuid, properties: byte, value: seq<byte>, description: seq<byte>)
    ensures EndsCharacteristic(CharRows(at, uuid, properties, value, description)[0])
  {
  }

  lemma CharKeeps(table: seq<Attribute>, uuid: Uuid, properties: byte, value: seq<byte>, description: seq<byte>)
    requires LaidOut(table) && Proper(uuid) && |table| + 4 < 0xffff
    ensures LaidOut(table + CharRows(|table|, uuid, properties, value, description))
  {
    hide LaidOut, WellAt, CharRows;
    var rows := CharRows(|table|, uuid, properties, value, description);
    var t := table + rows;
    RowsBegin(|table|, uuid, properties, value, description);
    forall i | 0 <= i < |t|
      ensures WellAt(t, i) && t[i].handle == i + 1
    {
      if i < |table| {
        LaidOutAt(table, i);
        AppendWell(table, rows, i);
      } else {
        var j := i - |table|;
        assert t[i] == rows[j];
        RowHandles(|table|, uuid, properties, value, description, j);
        if j == 0 {
          DeclWell(t, i, uuid, properties, value, description);
        } else {
          RestKinds(|table|, uuid, properties, value, description, j);
          RestWell(t, i);
        }
      }
    }
    LaidOutIs(t);
  }

  /** In such a table every search for a configuration is short enough. */
  lemma FewDescriptors(table: seq<Attribute>, k: nat, s: ServiceRange, xs: seq<CharDecl>, t: nat)
    requires Located(table, k, s, xs) && LaidOut(table) && t < |xs|
    ensures |Descriptors(table, xs, t, s.end)| <= 2
  {
    hide Descriptors, LaidOut, Sound;
    if |Descriptors(table, xs, t, s.end)| > 2 {
      DeclaredAt(table, s.start, s.end, t);
      LaidOutAt(table, xs[t].handle - 1);
      DescriptorAt(table, k, s, xs, t, 0);
      DescriptorAt(table, k, s, xs, t, 1);
      DescriptorAt(table, k, s, xs, t, 2);
    }
  }

  // ------------------------------------- a notifying characteristic's config

  /** Where the configuration of a notifying declaration is: behind the value,
      with nothing declared up to it. */
  function ConfigIndex(table: seq<Attribute>, i: nat): nat
    requires i < |table|
  {
    if i + 2 < |table| && IsConfig(table[i + 2]) then i + 2 else i + 3
  }

  lemma ConfigIndexIs(table: seq<Attribute>, i: nat)
    requires i < |table| && WellAt(table, i) && table[i].kind == FromShort(CHARACTERISTIC)
             && Notifies(table[i].value[0])
    ensures var j := ConfigIndex(table, i);
            && i + 2 <= j < |table| && IsConfig(table[j])
            && forall m :: i < m <= j ==> !EndsCharacteristic(table[m])
  {
    hide HoldsUuid, Get16;
    DistinctKinds();
    var j := ConfigIndex(table, i);
    forall m | i < m <= j
      ensures !EndsCharacteristic(table[m])
    {
      if m == j {
        ConfigEndsNothing(table[j]);
      }
    }
  }

  lemma ConfigEndsNothing(a: Attribute)
    requires IsConfig(a)
    ensures !EndsCharacteristic(a)
  {
    DistinctKinds();
  }

  lemma DeclaredProperties(table: seq<Attribute>, lo: nat, hi: nat, t: nat)
    requires Sound(table) && t < |Declared(table, lo, hi)|
    ensures var c := Declared(table, lo, hi)[t];
            && 1 <= c.handle <= |table| && table[c.handle - 1].kind == FromShort(CHARACTERISTIC)
            && |table[c.handle - 1].value| >= 3 && c.properties == table[c.handle - 1].value[0]
  {
    var i := Found(table, 1, lo, hi, DECLARATION, DeclOf(), t);
    assert SoundAt(table, i);
  }

  /** The next declaration, or the end of the group, is behind whatever is not
      one. */
  lemma EndIsBehind(table: seq<Attribute>, k: nat, s: ServiceRange, xs: seq<CharDecl>, t: nat, j: nat)
    requires Located(table, k, s, xs) && t < |xs| && xs[t].handle <= j < |table|
    requires forall m :: xs[t].handle <= m <= j ==> !EndsCharacteristic(table[m])
    ensures j + 1 <= DescriptorsEnd(xs, t, s.end) <= |table|
  {
    hide Declared, SoundAt;
    DeclaredAt(table, s.start, s.end, t);
    ServiceBounds(table, 1, k);
    if t + 1 < |xs| {
      DeclaredAt(table, xs[t].handle + 1, s.end, 0);
      assert xs[t + 1] == xs[t + 1..][0];
      assert EndsCharacteristic(table[xs[t + 1].handle - 1]);
    } else {
      GroupEndsAt(table, k);
      if s.end < |table| {
        ServiceEnds(table[s.end]);
      }
    }
  }

  lemma ServiceEnds(a: Attribute)
    requires IsServiceDecl(a.kind)
    ensures EndsCharacteristic(a)
  {
  }

  lemma GroupEndsAt(table: seq<Attribute>, k: nat)
    requires Sound(table) && k < |Services(table, 1)|
    ensures var s := Services(table, 1)[k]; s.end == |table| || (s.end < |table| && IsServiceDecl(table[s.end].kind))
  {
    hide SoundAt, Rows, FromShort;
    var i := Found(table, 1, 1, 0xffff, PRIMARY, RangeOf(), k);
    var after := table[i + 1..];
    assert forall m :: 0 <= m < |after| ==> after[m] == table[i + 1 + m];
    GroupEndBounds(after, table[i].handle);
  }

  lemma {:induction false} FirstConfigSome(xs: seq<HandleUuid>, i: nat)
    requires i < |xs| && xs[i].uuid == FromShort(CLIENT_CONFIG) && forall x :: x in xs ==> x.handle != 0
    ensures FirstConfig(xs) != 0
  {
    if xs[0].uuid != FromShort(CLIENT_CONFIG) {
      FirstConfigSome(xs[1..], i - 1);
    }
  }

  /** So a notifying characteristic's configuration is among its descriptors. */
  lemma ConfigIsListed(table: seq<Attribute>, k: nat, s: ServiceRange, xs: seq<CharDecl>, t: nat)
    requires Located(table, k, s, xs) && LaidOut(table) && t < |xs| && Notifies(xs[t].properties)
    ensures FirstConfig(Descriptors(table, xs, t, s.end)) != 0
  {
    hide LaidOut, Declared, SoundAt, CompactAt, ConfiguredAt, Notifies, FirstConfig, Listed, EndsCharacteristic;
    var h := xs[t].handle as nat;
    DeclaredProperties(table, s.start, s.end, t);
    DeclaredAt(table, s.start, s.end, t);
    LaidOutAt(table, h - 1);
    ConfigIndexIs(table, h - 1);
    var j := ConfigIndex(table, h - 1);
    EndIsBehind(table, k, s, xs, t, j);
    var end := DescriptorsEnd(xs, t, s.end);
    ListedAll(table, 1, h + 2, end);
    ListedAt(table, 1, h + 2, end, j - h - 1);
    ListedHandles(table, h + 2, end);
    FirstConfigSome(Listed(table, h + 2, end), j - h - 1);
  }

  /** What the builder lays out can be acquired as soon as its one camera service
      is within reach and declares both characteristics once, the timecode
      notifying: its configuration, and few enough descriptors, come by
      themselves. */
  lemma BuiltIsAcquirable(table: seq<Attribute>, cut: ServiceCut, cut': CharCut, k: nat, s: ServiceRange,
                          xs: seq<CharDecl>, t: nat, o: nat)
    requires LaidOut(table) && Discoverable(table, cut, cut', k, s, xs)
    requires DeclaredOnce(xs, OUTGOING_CONTROL, o) && DeclaredOnce(xs, TIMECODE, t) && Notifies(xs[t].properties)
    ensures Acquirable(table, cut, cut', k, s, xs, t, o)
  {
    hide LaidOut, Located, Notifies, Descriptors, FirstConfig;
    FewDescriptors(table, k, s, xs, o);
    FewDescriptors(table, k, s, xs, t);
    ConfigIsListed(table, k, s, xs, t);
  }

  /** And what a client keeps of a characteristic that was declared more than
      once is the last declaration's own exactly when that one notifies or no
      earlier one does. */
  lemma KeepsOwnWhenBuilt(table: seq<Attribute>, cut: InfoCut, k: nat, s: ServiceRange, xs: seq<CharDecl>, uuid: Uuid,
                          t: nat)
    requires Located(table, k, s, xs) && LaidOut(table) && DeclaredLast(xs, uuid, t)
    requires uuid == TIMECODE || uuid == INCOMING_CONTROL
    ensures var h := Handles(xs, ConfigMap(Configs(table, cut, xs, s.end), |xs|), uuid, UNKNOWN, |xs|);
            && h.value == xs[t].valueHandle && h.properties == xs[t].properties
            && (h.cccd == (if Notifies(xs[t].properties) then FirstConfig(Descriptors(table, xs, t, s.end)) else 0) <==>
                  Notifies(xs[t].properties)
                  || forall j :: 0 <= j < t && xs[j].uuid == uuid ==> !Notifies(xs[j].properties))
  {
    hide Handles, ConfigMap, Configs, Descriptors, FirstConfig, LaidOut, Notifies;
    forall j | 0 <= j < |xs|
      ensures |Descriptors(table, xs, j, s.end)| <= CONFIG_ROUNDS
      ensures xs[j].uuid == uuid ==> (Subscribable(table, xs, s.end, j) <==> Notifies(xs[j].properties))
    {
      FewDescriptors(table, k, s, xs, j);
      if Notifies(xs[j].properties) {
        ConfigIsListed(table, k, s, xs, j);
      }
    }
    SoundIsNumbered(table);
    KeepsOwnExactly(table, cut, s, xs, uuid, t);
  }

  class ServerBuilder {
    var next: nat
    var table: seq<Attribute>
    /** No characteristic was given a UUID that is itself a declaration's. */
    ghost var proper: bool

    /** Handles count up from one; up to the last handle there is, what has been
        laid out can be discovered. */
    ghost predicate Built()
      reads this
    {
      next == |table| + 1 && (proper && |table| < 0xffff - 4 ==> LaidOut(table))
    }

    constructor ()
      ensures Built() && table == [] && proper
    {
      next, table, proper := 1, [], true;
    }

    method AddPrimaryService(uuid: Uuid) returns (handle: u16)
      requires Built()
      modifies this
      ensures Built() && proper == old(proper)
      ensures table == old(table) + [ServiceRow(|old(table)|, uuid)] && handle == HandleAt(|old(table)|)
    {
      hide LaidOut;
      ghost var was := table;
      handle := next % 0x10000;
      next := next + 1;
      table := table + [Attribute(handle, FromShort(PRIMARY_SERVICE), ToLe(uuid), true, false)];
      if proper && |was| + 1 < 0xffff - 4 {
        ServiceKeeps(was, uuid);
      }
    }

    method AddCharacteristic(uuid: Uuid, properties: byte, value: seq<byte>, description: seq<byte>)
      returns (valueHandle: u16)
      requires Built()
      modifies this
      ensures Built() && proper == (old(proper) && Proper(uuid))
      ensures table == old(table) + CharRows(|old(table)|, uuid, properties, value, description)
      ensures valueHandle == HandleAt(|old(table)| + 1)
    {
      hide LaidOut, Proper, Notifies, Put16, ToLe;
      ghost var was := table;
      var declHandle := next % 0x10000;
      valueHandle := (next + 1) % 0x10000;
      next := next + 2;
      var rows := [Attribute(declHandle, FromShort(CHARACTERISTIC), [properties] + Put16(valueHandle) + ToLe(uuid),
                             true, false)];
      rows := rows + [Attribute(valueHandle, uuid, value, Has(properties, PROP_READ),
                                Has(properties, PROP_WRITE) || Has(properties, PROP_WRITE_WITHOUT_RESPONSE))];
      if description != [] {
        rows := rows + [Attribute(next % 0x10000, FromShort(USER_DESCRIPTION), description, true, false)];
        next := next + 1;
      }
      if Notifies(properties) {
        rows := rows + [Attribute(next % 0x10000, FromShort(CLIENT_CONFIG), [0, 0], true, true)];
        next := next + 1;
      }
      assert rows == CharRows(|was|, uuid, properties, value, description);
      table := table + rows;
      proper := proper && Proper(uuid);
      if proper && |table| < 0xffff - 4 {
        CharKeeps(was, uuid, properties, value, description);
      }
    }
  }
}
