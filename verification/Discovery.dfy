/** Walking a server's table (src/camera_hci.cc, with the response parsers of
    src/att.cc): what the client ends up knowing, against what the table says.
    Sections 4.4.1, 4.6.1 and 4.7.1 of Vol 3 Part G. */
module Discovery {
  import opened Bytes
  import opened Wrappers
  import opened Gatt
  import opened AttServer

  // -------------------------------------------------------- sound tables

  const PRIMARY: Option<Uuid> := Some(FromShort(PRIMARY_SERVICE))
  const DECLARATION: Option<Uuid> := Some(FromShort(CHARACTERISTIC))

  predicate HoldsUuid(value: seq<byte>) {
    FromLe(value).Some? && value == ToLe(FromLe(value).value)
  }

  /** What the specification demands of the attribute at index i: a service
      declaration holds a UUID, a characteristic declaration its properties, the
      handle of the value right behind it and a UUID, and a client configuration
      may be written. */
  predicate SoundAt(table: seq<Attribute>, i: nat)
    requires i < |table|
  {
    var a := table[i];
    && (IsServiceDecl(a.kind) ==> HoldsUuid(a.value))
    && (a.kind == FromShort(CHARACTERISTIC) ==>
          && a.readable && |a.value| >= 3 && HoldsUuid(a.value[3..])
          && i + 1 < |table| && Get16(a.value[1..]) == a.handle + 1
          && !EndsCharacteristic(table[i + 1]))
    && (a.kind == FromShort(CLIENT_CONFIG) ==> a.writable)
  }

  ghost predicate Sound(table: seq<Attribute>) {
    && NumberedFrom(table, 1) && |table| < 0xffff
    && forall i {:trigger SoundAt(table, i)} :: 0 <= i < |table| ==> SoundAt(table, i)
  }

  // ------------------------------------------------ moving the cursor along

  /** The range may start later as long as nothing of the kind is skipped. */
  lemma {:induction false} RowsSkip<T>(table: seq<Attribute>, lo: nat, lo': nat, hi: nat, kind: Option<Uuid>,
                                       row: (Attribute, seq<Attribute>) -> T)
    requires lo <= lo'
    requires forall i :: 0 <= i < |table| && lo <= table[i].handle < lo' ==> kind.Some? && table[i].kind != kind.value
    ensures Rows(table, lo, hi, kind, row) == Rows(table, lo', hi, kind, row)
  {
    if table != [] {
      RowsSkip(table[1..], lo, lo', hi, kind, row);
    }
  }

  lemma {:induction false} RowsFrom<T>(table: seq<Attribute>, first: nat, lo: nat, lo': nat, hi: nat,
                                       kind: Option<Uuid>, row: (Attribute, seq<Attribute>) -> T)
    requires NumberedFrom(table, first) && lo <= first && lo' <= first
    ensures Rows(table, lo, hi, kind, row) == Rows(table, lo', hi, kind, row)
  {
    if table != [] {
      assert forall i :: 0 <= i < |table[1..]| ==> table[1..][i] == table[i + 1];
      RowsFrom(table[1..], first + 1, lo, lo', hi, kind, row);
    }
  }

  lemma NumberedRest(table: seq<Attribute>, first: nat)
    requires table != [] && NumberedFrom(table, first)
    ensures NumberedFrom(table[1..], first + 1)
  {
    assert forall i :: 0 <= i < |table[1..]| ==> table[1..][i] == table[i + 1];
  }

  /** Which attribute the k-th thing found comes from; and what is left after it
      is what a search from just past it finds, so that asking again from there
      repeats nothing and misses nothing. */
  lemma {:induction false} Found<T>(table: seq<Attribute>, first: nat, lo: nat, hi: nat, kind: Option<Uuid>,
                                    row: (Attribute, seq<Attribute>) -> T, k: nat) returns (i: nat)
    requires NumberedFrom(table, first) && k < |Rows(table, lo, hi, kind, row)|
    ensures i < |table| && table[i].handle == first + i && Picked(table[i], lo, hi, kind)
    ensures Rows(table, lo, hi, kind, row)[k] == row(table[i], table[i + 1..])
    ensures Rows(table, first + i + 1, hi, kind, row) == Rows(table, lo, hi, kind, row)[k + 1..]
    decreases |table|
  {
    NumberedRest(table, first);
    if Picked(table[0], lo, hi, kind) && k == 0 {
      i := 0;
      RowsFrom(table[1..], first + 1, lo, first + 1, hi, kind, row);
      assert Rows(table, first + 1, hi, kind, row) == Rows(table[1..], first + 1, hi, kind, row);
    } else {
      var head := if Picked(table[0], lo, hi, kind) then [row(table[0], table[1..])] else [];
      DropPast(head, Rows(table[1..], lo, hi, kind, row), k);
      var j := Found(table[1..], first + 1, lo, hi, kind, row, k - |head|);
      i := j + 1;
      assert table[i] == table[1..][j];
      DropDrop(table, 1, i);
      assert !Picked(table[0], first + i + 1, hi, kind);
      assert Rows(table, first + i + 1, hi, kind, row) == Rows(table[1..], first + i + 1, hi, kind, row);
    }
  }

  lemma DropPast<T>(head: seq<T>, more: seq<T>, k: nat)
    requires |head| <= k < |head| + |more|
    ensures (head + more)[k] == more[k - |head|]
    ensures (head + more)[k + 1..] == more[k + 1 - |head|..]
  {
  }

  // ------------------------------------------------- what the table declares

  function UuidOf(value: seq<byte>): Uuid {
    match FromLe(value) case Some(u) => u case None => ZERO16
  }

  function RangeOf(): (Attribute, seq<Attribute>) -> ServiceRange {
    (a: Attribute, after: seq<Attribute>) => ServiceRange(a.handle, GroupEnd(after, a.handle), UuidOf(a.value))
  }

  function DeclOf(): (Attribute, seq<Attribute>) -> CharDecl {
    (a: Attribute, after: seq<Attribute>) =>
      if |a.value| >= 3 then CharDecl(a.handle, a.value[0], Get16(a.value[1..]), UuidOf(a.value[3..]))
      else CharDecl(a.handle, 0, 0, ZERO16)
  }

  function InfoOf(): (Attribute, seq<Attribute>) -> HandleUuid {
    (a: Attribute, after: seq<Attribute>) => HandleUuid(a.handle, a.kind)
  }

  /** The services from a handle on, the characteristics declared in a range,
      and everything in a range. */
  function Services(table: seq<Attribute>, from: nat): seq<ServiceRange> {
    Rows(table, from, 0xffff, PRIMARY, RangeOf())
  }

  function Declared(table: seq<Attribute>, lo: nat, hi: nat): seq<CharDecl> {
    Rows(table, lo, hi, DECLARATION, DeclOf())
  }

  function Listed(table: seq<Attribute>, lo: nat, hi: nat): seq<HandleUuid> {
    Rows(table, lo, hi, None, InfoOf())
  }

  // ------------------------------------------- and how the server sends it

  function EncodeServices(xs: seq<ServiceRange>): (r: seq<seq<byte>>)
    ensures |r| == |xs|
  {
    seq(|xs|, i requires 0 <= i < |xs| => ServiceEntry(xs[i]))
  }

  function EncodeChars(xs: seq<CharDecl>): (r: seq<seq<byte>>)
    ensures |r| == |xs|
  {
    seq(|xs|, i requires 0 <= i < |xs| => CharEntry(xs[i]))
  }

  function EncodeInfo(xs: seq<HandleUuid>): (r: seq<seq<byte>>)
    ensures |r| == |xs|
  {
    seq(|xs|, i requires 0 <= i < |xs| => InfoEntry(xs[i]))
  }

  lemma {:induction false} SendsServices(table: seq<Attribute>, from: nat)
    requires forall i {:trigger SoundAt(table, i)} :: 0 <= i < |table| ==> SoundAt(table, i)
    ensures Rows(table, from, 0xffff, PRIMARY, GroupRow()) == EncodeServices(Services(table, from))
  {
    if table != [] {
      var a := table[0];
      assert SoundAt(table, 0);
      SoundRest(table);
      SendsServices(table[1..], from);
      if Picked(a, from, 0xffff, PRIMARY) {
        assert GroupRow()(a, table[1..]) == ServiceEntry(RangeOf()(a, table[1..]));
        assert EncodeServices([RangeOf()(a, table[1..])] + Services(table[1..], from))
            == [ServiceEntry(RangeOf()(a, table[1..]))] + EncodeServices(Services(table[1..], from));
      }
    }
  }

  lemma SoundRest(table: seq<Attribute>)
    requires table != [] && forall i {:trigger SoundAt(table, i)} :: 0 <= i < |table| ==> SoundAt(table, i)
    ensures forall i {:trigger SoundAt(table[1..], i)} :: 0 <= i < |table[1..]| ==> SoundAt(table[1..], i)
  {
    forall i | 0 <= i < |table[1..]|
      ensures SoundAt(table[1..], i)
    {
      assert SoundAt(table, i + 1);
    }
  }

  lemma DeclSent(a: Attribute, after: seq<Attribute>)
    requires |a.value| >= 3 && HoldsUuid(a.value[3..])
    ensures ValueRow()(a, after) == CharEntry(DeclOf()(a, after))
  {
    hide FromLe;
    Put16Get16(a.value[1..]);
    assert a.value == [a.value[0]] + a.value[1..][..2] + a.value[3..];
  }

  lemma PickedHolds(table: seq<Attribute>, lo: nat, hi: nat)
    requires table != [] && SoundAt(table, 0) && Picked(table[0], lo, hi, DECLARATION)
    ensures |table[0].value| >= 3 && HoldsUuid(table[0].value[3..])
  {
  }

  lemma {:induction false} SendsChars(table: seq<Attribute>, lo: nat, hi: nat)
    requires forall i {:trigger SoundAt(table, i)} :: 0 <= i < |table| ==> SoundAt(table, i)
    ensures Rows(table, lo, hi, DECLARATION, ValueRow()) == EncodeChars(Declared(table, lo, hi))
  {
    hide SoundAt;
    if table != [] {
      var a := table[0];
      assert SoundAt(table, 0);
      SoundRest(table);
      SendsChars(table[1..], lo, hi);
      if Picked(a, lo, hi, DECLARATION) {
        PickedHolds(table, lo, hi);
        DeclSent(a, table[1..]);
        CharsEncoded(DeclOf()(a, table[1..]), Declared(table[1..], lo, hi));
      }
    }
  }

  lemma CharsEncoded(x: CharDecl, xs: seq<CharDecl>)
    ensures EncodeChars([x] + xs) == [CharEntry(x)] + EncodeChars(xs)
  {
    hide CharEntry;
    assert ([x] + xs)[1..] == xs;
  }

  lemma {:induction false} SendsInfo(table: seq<Attribute>, lo: nat, hi: nat)
    ensures Rows(table, lo, hi, None, InfoRow()) == EncodeInfo(Listed(table, lo, hi))
  {
    if table != [] {
      var a := table[0];
      SendsInfo(table[1..], lo, hi);
      if Picked(a, lo, hi, None) {
        assert EncodeInfo([InfoOf()(a, table[1..])] + Listed(table[1..], lo, hi))
            == [InfoEntry(InfoOf()(a, table[1..]))] + EncodeInfo(Listed(table[1..], lo, hi));
      }
    }
  }

  // ------------------------------------------------------------- requests

  function Request(op: byte, start: u16, end: u16, kind: seq<byte>): seq<byte> {
    [op] + Put16(start) + Put16(end) + kind
  }

  lemma RequestRead(op: byte, start: u16, end: u16, kind: seq<byte>)
    ensures var pdu := Request(op, start, end, kind);
            Get16(pdu[1..]) == start && Get16(pdu[3..]) == end && pdu[5..] == kind && |pdu| == 5 + |kind|
              && pdu[0] == op
  {
    var pdu := Request(op, start, end, kind);
    assert pdu[1..] == Put16(start) + (Put16(end) + kind);
    assert pdu[3..] == Put16(end) + kind;
    Get16Put16(start, Put16(end) + kind);
    Get16Put16(end, kind);
  }

  function ServicesRequest(start: u16): seq<byte> {
    Request(READ_BY_GROUP_TYPE_REQUEST, start, 0xffff, ToLe(FromShort(PRIMARY_SERVICE)))
  }

  function CharsRequest(start: u16, end: u16): seq<byte> {
    Request(READ_BY_TYPE_REQUEST, start, end, ToLe(FromShort(CHARACTERISTIC)))
  }

  function InfoRequest(start: u16, end: u16): seq<byte> {
    Request(FIND_INFORMATION_REQUEST, start, end, [])
  }

  /** How many of the things still to come the next response holds. */
  function NextServices(xs: seq<ServiceRange>, mtu: nat): (n: nat)
    ensures n <= |xs|
    ensures xs != [] && mtu >= DEFAULT_MTU ==> n >= 1
  {
    Batch(EncodeServices(xs), mtu)
  }

  function NextChars(xs: seq<CharDecl>, mtu: nat): (n: nat)
    ensures n <= |xs|
    ensures xs != [] && mtu >= DEFAULT_MTU ==> n >= 1
  {
    Batch(EncodeChars(xs), mtu)
  }

  function NextInfo(xs: seq<HandleUuid>, mtu: nat): (n: nat)
    ensures n <= |xs|
    ensures xs != [] && mtu >= DEFAULT_MTU ==> n >= 1
  {
    Batch(EncodeInfo(xs), mtu)
  }

  lemma ServicesSent(table: seq<Attribute>, mtu: nat, start: u16)
    requires Sound(table) && mtu >= DEFAULT_MTU && start >= 1
    ensures var rows := EncodeServices(Services(table, start));
            Answer(table, mtu, ServicesRequest(start)) ==
            if rows == [] then Error(READ_BY_GROUP_TYPE_REQUEST, start, ATTRIBUTE_NOT_FOUND)
            else ListReply(READ_BY_GROUP_TYPE_RESPONSE, |rows[0]| % 256, rows, mtu)
  {
    RequestRead(READ_BY_GROUP_TYPE_REQUEST, start, 0xffff, ToLe(FromShort(PRIMARY_SERVICE)));
    UuidRoundTrip(FromShort(PRIMARY_SERVICE));
    SendsServices(table, start);
  }

  lemma ServicesBack(xs: seq<ServiceRange>)
    ensures forall i :: 0 <= i < |xs| ==> ReadService(EncodeServices(xs)[i]) == Some(xs[i])
  {
    forall i | 0 <= i < |xs|
      ensures ReadService(EncodeServices(xs)[i]) == Some(xs[i])
    {
      ServiceEntryRoundTrip(xs[i]);
    }
  }

  /** The body of a list response read back. */
  lemma ListParsed<T>(op: byte, format: byte, rows: seq<seq<byte>>, mtu: nat, width: nat,
                      read: seq<byte> -> Option<T>, xs: seq<T>)
    requires rows != [] && width == |rows[0]| && width > 0 && |rows| == |xs|
    requires forall i :: 0 <= i < |xs| ==> read(rows[i]) == Some(xs[i])
    ensures ReadAll(Chunks(ListReply(op, format, rows, mtu)[2..], width), read) == Some(xs[..Batch(rows, mtu)])
  {
    var n := Batch(rows, mtu);
    FittingBound(rows, width, mtu - 2);
    ListBack(rows, n, width, read, xs);
    assert ListReply(op, format, rows, mtu)[2..] == Flatten(rows[..n]);
  }

  lemma ServicesParsed(xs: seq<ServiceRange>, mtu: nat)
    requires xs != [] && mtu >= DEFAULT_MTU
    ensures var rows := EncodeServices(xs);
            ParseServices(ListReply(READ_BY_GROUP_TYPE_RESPONSE, |rows[0]| % 256, rows, mtu)) ==
              Some(xs[..NextServices(xs, mtu)])
  {
    var rows := EncodeServices(xs);
    ServicesBack(xs);
    assert |rows[0]| == 6 || |rows[0]| == 20;
    ListParsed(READ_BY_GROUP_TYPE_RESPONSE, |rows[0]| % 256, rows, mtu, |rows[0]|, ReadService, xs);
  }

  /** Asking for the services from a handle on brings the first few of them, or
      the error that says there are none. */
  lemma ServicesAnswered(table: seq<Attribute>, mtu: nat, start: u16)
    requires Sound(table) && mtu >= DEFAULT_MTU && start >= 1
    ensures var xs := Services(table, start);
            ParseServices(Answer(table, mtu, ServicesRequest(start))) ==
            if xs == [] then None else Some(xs[..NextServices(xs, mtu)])
  {
    ServicesSent(table, mtu, start);
    if Services(table, start) != [] {
      ServicesParsed(Services(table, start), mtu);
    }
  }

  lemma {:induction false} DeclarationsReadable(table: seq<Attribute>, lo: nat, hi: nat, n: nat)
    requires forall i {:trigger SoundAt(table, i)} :: 0 <= i < |table| ==> SoundAt(table, i)
    requires n <= |Select(table, lo, hi, DECLARATION)|
    ensures FirstUnreadable(Select(table, lo, hi, DECLARATION)[..n]) == None
  {
    if table != [] && n > 0 {
      assert SoundAt(table, 0);
      SoundRest(table);
      var head := if Picked(table[0], lo, hi, DECLARATION) then 1 else 0;
      DeclarationsReadable(table[1..], lo, hi, n - head);
      if head == 1 {
        assert Select(table, lo, hi, DECLARATION)[..n][1..] == Select(table[1..], lo, hi, DECLARATION)[..n - 1];
      } else {
        assert Select(table, lo, hi, DECLARATION) == Select(table[1..], lo, hi, DECLARATION);
      }
    }
  }

  lemma NoneDenied(table: seq<Attribute>, mtu: nat, start: u16, end: u16)
    requires Sound(table)
    ensures FirstUnreadable(Looked(table, mtu, start, end, DECLARATION, ValueRow())) == None
  {
    var items := Select(table, start, end, DECLARATION);
    DeclarationsReadable(table, start, end, Min(Batch(Rows(table, start, end, DECLARATION, ValueRow()), mtu) + 1,
                                                |items|));
  }

  lemma CharsSent(table: seq<Attribute>, mtu: nat, start: u16, end: u16)
    requires Sound(table) && mtu >= DEFAULT_MTU && 1 <= start <= end
    ensures var rows := EncodeChars(Declared(table, start, end));
            Answer(table, mtu, CharsRequest(start, end)) ==
            if rows == [] then Error(READ_BY_TYPE_REQUEST, start, ATTRIBUTE_NOT_FOUND)
            else ListReply(READ_BY_TYPE_RESPONSE, |rows[0]| % 256, rows, mtu)
  {
    hide Rows, EncodeChars, Declared, SoundAt, ToLe;
    var pdu := CharsRequest(start, end);
    RequestRead(READ_BY_TYPE_REQUEST, start, end, ToLe(FromShort(CHARACTERISTIC)));
    UuidRoundTrip(FromShort(CHARACTERISTIC));
    SendsChars(table, start, end);
    NoneDenied(table, mtu, start, end);
    assert Answer(table, mtu, pdu) == AnswerType(table, mtu, pdu);
  }

  lemma CharsBack(xs: seq<CharDecl>)
    ensures forall i :: 0 <= i < |xs| ==> ReadChar(EncodeChars(xs)[i]) == Some(xs[i])
  {
    forall i | 0 <= i < |xs|
      ensures ReadChar(EncodeChars(xs)[i]) == Some(xs[i])
    {
      CharEntryRoundTrip(xs[i]);
    }
  }

  lemma CharsParsed(xs: seq<CharDecl>, mtu: nat)
    requires xs != [] && mtu >= DEFAULT_MTU
    ensures var rows := EncodeChars(xs);
            ParseChars(ListReply(READ_BY_TYPE_RESPONSE, |rows[0]| % 256, rows, mtu)) == Some(xs[..NextChars(xs, mtu)])
  {
    hide CharEntry;
    var rows := EncodeChars(xs);
    CharsBack(xs);
    assert |rows[0]| == 7 || |rows[0]| == 21;
    ListParsed(READ_BY_TYPE_RESPONSE, |rows[0]| % 256, rows, mtu, |rows[0]|, ReadChar, xs);
  }

  lemma CharsAnswered(table: seq<Attribute>, mtu: nat, start: u16, end: u16)
    requires Sound(table) && mtu >= DEFAULT_MTU && 1 <= start <= end
    ensures var xs := Declared(table, start, end);
            ParseChars(Answer(table, mtu, CharsRequest(start, end))) ==
            if xs == [] then None else Some(xs[..NextChars(xs, mtu)])
  {
    CharsSent(table, mtu, start, end);
    if Declared(table, start, end) != [] {
      CharsParsed(Declared(table, start, end), mtu);
    }
  }

  lemma InfoSent(table: seq<Attribute>, mtu: nat, start: u16, end: u16)
    requires mtu >= DEFAULT_MTU && 1 <= start <= end
    ensures var rows := EncodeInfo(Listed(table, start, end));
            Answer(table, mtu, InfoRequest(start, end)) ==
            if rows == [] then Error(FIND_INFORMATION_REQUEST, start, ATTRIBUTE_NOT_FOUND)
            else ListReply(FIND_INFORMATION_RESPONSE, if |rows[0]| == 4 then 1 else 2, rows, mtu)
  {
    RequestRead(FIND_INFORMATION_REQUEST, start, end, []);
    SendsInfo(table, start, end);
  }

  lemma InfoBack(xs: seq<HandleUuid>)
    ensures forall i :: 0 <= i < |xs| ==> ReadInfo(EncodeInfo(xs)[i]) == Some(xs[i])
  {
    forall i | 0 <= i < |xs|
      ensures ReadInfo(EncodeInfo(xs)[i]) == Some(xs[i])
    {
      InfoEntryRoundTrip(xs[i]);
    }
  }

  lemma InfoParsed(xs: seq<HandleUuid>, mtu: nat)
    requires xs != [] && mtu >= DEFAULT_MTU
    ensures var rows := EncodeInfo(xs);
            ParseInfo(ListReply(FIND_INFORMATION_RESPONSE, if |rows[0]| == 4 then 1 else 2, rows, mtu)) ==
              Some(xs[..NextInfo(xs, mtu)])
  {
    var rows := EncodeInfo(xs);
    InfoBack(xs);
    assert |rows[0]| == 4 || |rows[0]| == 18;
    ListParsed(FIND_INFORMATION_RESPONSE, if |rows[0]| == 4 then 1 else 2, rows, mtu, |rows[0]|, ReadInfo, xs);
  }

  lemma InfoAnswered(table: seq<Attribute>, mtu: nat, start: u16, end: u16)
    requires mtu >= DEFAULT_MTU && 1 <= start <= end
    ensures var xs := Listed(table, start, end);
            ParseInfo(Answer(table, mtu, InfoRequest(start, end))) ==
            if xs == [] then None else Some(xs[..NextInfo(xs, mtu)])
  {
    InfoSent(table, mtu, start, end);
    if Listed(table, start, end) != [] {
      InfoParsed(Listed(table, start, end), mtu);
    }
  }

  // ------------------------------------------ enumerating a table to the end

  /** After a response, what is left is what the next request will find. */
  lemma InfoContinues(table: seq<Attribute>, start: nat, end: nat, k: nat)
    requires NumberedFrom(table, 1) && k < |Listed(table, start, end)|
    ensures var x := Listed(table, start, end)[k];
            && start <= x.handle <= end && 1 <= x.handle
            && Listed(table, x.handle + 1, end) == Listed(table, start, end)[k + 1..]
  {
    var _ := Found(table, 1, start, end, None, InfoOf(), k);
  }

  /** One round of an enumeration: `todo` is what there is still to be told of. */
  method InfoRound(server: Server, cursor: u16, end: u16, ghost todo: seq<HandleUuid>)
    returns (told: Option<seq<HandleUuid>>, next: nat, ghost more: seq<HandleUuid>)
    requires server.mtu >= DEFAULT_MTU && NumberedFrom(server.table, 1) && 1 <= cursor <= end
    requires todo == Listed(server.table, cursor, end)
    modifies server
    ensures server.table == old(server.table) && server.mtu == old(server.mtu)
    ensures told.None? ==> todo == []
    ensures told.Some? ==> cursor < next <= end + 1
    ensures told.Some? ==> more == Listed(server.table, next, end) && todo == told.value + more
  {
    hide Rows;
    told := Ask(server, cursor, end);
    if told.None? {
      return told, cursor, todo;
    }
    next := told.value[|told.value| - 1].handle + 1;
    more := todo[|told.value|..];
    InfoContinues(server.table, cursor, end, |told.value| - 1);
  }

  /** A client that keeps asking for everything from the last handle it was told
      of, up to `end`, is told of every attribute exactly once, in order,
      whatever the MTU. */
  method Enumerate(server: Server, cursor: nat, end: u16, ghost todo: seq<HandleUuid>) returns (all: seq<HandleUuid>)
    requires server.mtu >= DEFAULT_MTU && NumberedFrom(server.table, 1) && cursor >= 1
    requires todo == Listed(server.table, cursor, end)
    modifies server
    ensures server.table == old(server.table) && server.mtu == old(server.mtu)
    ensures all == todo
    decreases if end < cursor then 0 else end + 1 - cursor
  {
    if cursor > end {
      NothingPast(server.table, cursor, end);
      return [];
    }
    var told, next, more := InfoRound(server, cursor, end, todo);
    if told.None? {
      return [];
    }
    var rest := Enumerate(server, next, end, more);
    all := told.value + rest;
  }

  lemma {:induction false} NothingPast(table: seq<Attribute>, lo: nat, hi: nat)
    requires lo > hi
    ensures Listed(table, lo, hi) == []
  {
    if table != [] {
      NothingPast(table[1..], lo, hi);
    }
  }

  /** One Read By Group Type request. */
  method AskServices(server: Server, start: u16, ghost cut: ServiceCut) returns (told: Option<seq<ServiceRange>>)
    requires server.mtu >= DEFAULT_MTU && Sound(server.table) && 1 <= start && cut.mtu == server.mtu
    modifies server
    ensures server.table == old(server.table) && server.mtu == old(server.mtu)
    ensures var xs := Services(server.table, start);
            told == if xs == [] then None else Some(xs[..cut.next(xs)])
  {
    assert NextService(cut.next, server.mtu, Services(server.table, start));
    ServicesAnswered(server.table, server.mtu, start);
    RequestRead(READ_BY_GROUP_TYPE_REQUEST, start, 0xffff, ToLe(FromShort(PRIMARY_SERVICE)));
    var reply := server.HandleRequest(ServicesRequest(start));
    told := ReadServices(reply);
  }

  /** One Read By Type request for characteristic declarations. */
  method AskChars(server: Server, start: u16, end: u16, ghost cut: CharCut) returns (told: Option<seq<CharDecl>>)
    requires server.mtu >= DEFAULT_MTU && Sound(server.table) && 1 <= start <= end && cut.mtu == server.mtu
    modifies server
    ensures server.table == old(server.table) && server.mtu == old(server.mtu)
    ensures var xs := Declared(server.table, start, end);
            told == if xs == [] then None else Some(xs[..cut.next(xs)])
  {
    assert NextChar(cut.next, server.mtu, Declared(server.table, start, end));
    CharsAnswered(server.table, server.mtu, start, end);
    RequestRead(READ_BY_TYPE_REQUEST, start, end, ToLe(FromShort(CHARACTERISTIC)));
    var reply := server.HandleRequest(CharsRequest(start, end));
    told := ReadChars(reply);
  }

  /** One Find Information request. */
  method Ask(server: Server, start: u16, end: u16) returns (told: Option<seq<HandleUuid>>)
    requires server.mtu >= DEFAULT_MTU && 1 <= start <= end
    modifies server
    ensures server.table == old(server.table) && server.mtu == old(server.mtu)
    ensures var xs := Listed(server.table, start, end);
            told == if xs == [] then None else Some(xs[..NextInfo(xs, server.mtu)])
  {
    InfoAnswered(server.table, server.mtu, start, end);
    RequestRead(FIND_INFORMATION_REQUEST, start, end, []);
    var reply := server.HandleRequest(InfoRequest(start, end));
    told := ReadInformation(reply);
  }

  /** And what there is to be told of is the table. */
  lemma {:induction false} ListedIsTable(table: seq<Attribute>, first: nat)
    requires NumberedFrom(table, first) && first + |table| <= 0x10000
    ensures |Listed(table, first, 0xffff)| == |table|
    ensures forall i :: 0 <= i < |table| ==>
            Listed(table, first, 0xffff)[i] == HandleUuid(table[i].handle, table[i].kind)
  {
    if table != [] {
      NumberedRest(table, first);
      ListedIsTable(table[1..], first + 1);
      RowsFrom(table[1..], first + 1, first, first + 1, 0xffff, None, InfoOf());
    }
  }

  // ---------------------------------------------------- finding the service

  /** The UUIDs of the camera control service and of its characteristics
      (src/bmd.cc:11-14). */
  const CAMERA_SERVICE: Uuid := [0x29, 0x1d, 0x56, 0x7a, 0x6d, 0x75, 0x11, 0xe6, 0x8b, 0x77, 0x86, 0xf3, 0x0c, 0xa8,
                                 0x93, 0xd3]
  const OUTGOING_CONTROL: Uuid := [0x5d, 0xd3, 0x46, 0x5f, 0x1a, 0xee, 0x42, 0x99, 0x84, 0x93, 0xd2, 0xec, 0xa2, 0xf8,
                                   0xe1, 0xbb]
  const INCOMING_CONTROL: Uuid := [0xb8, 0x64, 0xe1, 0x40, 0x76, 0xa0, 0x41, 0x6a, 0xbf, 0x30, 0x58, 0x76, 0x50, 0x45,
                                   0x37, 0xd9]
  const TIMECODE: Uuid := [0x6d, 0x8f, 0x21, 0x10, 0x86, 0xf1, 0x41, 0xbf, 0x9a, 0xfb, 0x45, 0x1d, 0x87, 0xe9, 0x76,
                           0xc8]

  const SERVICE_ROUNDS := 16
  const CHAR_ROUNDS := 24
  const CONFIG_ROUNDS := 8

  /** The last service of a response that has the UUID. */
  function LastMatch(xs: seq<ServiceRange>, uuid: Uuid): Option<ServiceRange> {
    if xs == [] then None
    else if LastMatch(xs[1..], uuid).Some? then LastMatch(xs[1..], uuid)
    else if xs[0].uuid == uuid then Some(xs[0])
    else None
  }

  lemma {:induction false} LastMatchPush(xs: seq<ServiceRange>, uuid: Uuid, x: ServiceRange)
    ensures LastMatch(xs + [x], uuid) == if x.uuid == uuid then Some(x) else LastMatch(xs, uuid)
  {
    if xs == [] {
      assert xs + [x] == [x] && [x][1..] == [];
    } else {
      assert (xs + [x])[1..] == xs[1..] + [x];
      LastMatchPush(xs[1..], uuid, x);
    }
  }

  /** How many of a list the next response holds, for lists that are asked for
      piece by piece: at least one of those left. */
  ghost predicate Advances<T(!new)>(next: seq<T> -> nat) {
    forall xs :: xs != [] ==> 1 <= next(xs) <= |xs|
  }

  ghost predicate NextService(next: seq<ServiceRange> -> nat, mtu: nat, xs: seq<ServiceRange>) {
    next(xs) == NextServices(xs, mtu)
  }

  ghost predicate NextChar(next: seq<CharDecl> -> nat, mtu: nat, xs: seq<CharDecl>) {
    next(xs) == NextChars(xs, mtu)
  }

  ghost predicate NextListed(next: seq<HandleUuid> -> nat, mtu: nat, xs: seq<HandleUuid>) {
    next(xs) == NextInfo(xs, mtu)
  }

  /** How a server cuts a list into responses, at some MTU. */
  datatype Cutting<!T> = Cutting(mtu: nat, next: seq<T> -> nat)

  ghost predicate CutsServices(c: Cutting<ServiceRange>) {
    Advances(c.next) && forall xs {:trigger NextService(c.next, c.mtu, xs)} :: NextService(c.next, c.mtu, xs)
  }

  type ServiceCut = c: Cutting<ServiceRange> | CutsServices(c)
      ghost witness Cutting(DEFAULT_MTU, (xs: seq<ServiceRange>) => NextServices(xs, DEFAULT_MTU))

  ghost predicate CutsChars(c: Cutting<CharDecl>) {
    Advances(c.next) && forall xs {:trigger NextChar(c.next, c.mtu, xs)} :: NextChar(c.next, c.mtu, xs)
  }

  type CharCut = c: Cutting<CharDecl> | CutsChars(c)
      ghost witness Cutting(DEFAULT_MTU, (xs: seq<CharDecl>) => NextChars(xs, DEFAULT_MTU))

  ghost predicate CutsInfos(c: Cutting<HandleUuid>) {
    Advances(c.next) && forall xs {:trigger NextListed(c.next, c.mtu, xs)} :: NextListed(c.next, c.mtu, xs)
  }

  type InfoCut = c: Cutting<HandleUuid> | CutsInfos(c)
      ghost witness Cutting(DEFAULT_MTU, (xs: seq<HandleUuid>) => NextInfo(xs, DEFAULT_MTU))

  /** Every MTU has one of each. */
  ghost function ServiceCutFor(mtu: nat): (c: ServiceCut)
    requires mtu >= DEFAULT_MTU
    ensures c.mtu == mtu
  {
    Cutting(mtu, (xs: seq<ServiceRange>) => NextServices(xs, mtu))
  }

  ghost function CharCutFor(mtu: nat): (c: CharCut)
    requires mtu >= DEFAULT_MTU
    ensures c.mtu == mtu
  {
    Cutting(mtu, (xs: seq<CharDecl>) => NextChars(xs, mtu))
  }

  ghost function InfoCutFor(mtu: nat): (c: InfoCut)
    requires mtu >= DEFAULT_MTU
    ensures c.mtu == mtu
  {
    Cutting(mtu, (xs: seq<HandleUuid>) => NextInfo(xs, mtu))
  }

  /** How many responses it takes to be told of the k-th of a list. */
  ghost function RoundsTo<T(!new)>(xs: seq<T>, next: seq<T> -> nat, k: nat): nat
    requires k < |xs| && Advances(next)
    decreases |xs|
  {
    if k < next(xs) then 1 else 1 + RoundsTo(xs[next(xs)..], next, k - next(xs))
  }

  lemma {:induction false} RoundsToAtMost<T(!new)>(xs: seq<T>, next: seq<T> -> nat, k: nat)
    requires k < |xs| && Advances(next)
    ensures 1 <= RoundsTo(xs, next, k) <= k + 1
    decreases |xs|
  {
    if k >= next(xs) {
      RoundsToAtMost(xs[next(xs)..], next, k - next(xs));
    }
  }

  /** What the walk settles on: it stops at the first response that lists the
      service, or gives up. */
  ghost function FoundService(xs: seq<ServiceRange>, next: seq<ServiceRange> -> nat, rounds: nat): Option<ServiceRange>
    requires Advances(next)
    decreases |xs|
  {
    if rounds == 0 || xs == [] then None
    else
      var m := LastMatch(xs[..next(xs)], CAMERA_SERVICE);
      if m.Some? then m else FoundService(xs[next(xs)..], next, rounds - 1)
  }

  lemma {:induction false} LastMatchIn(xs: seq<ServiceRange>, uuid: Uuid)
    ensures LastMatch(xs, uuid).Some? ==> LastMatch(xs, uuid).value in xs
  {
    if xs != [] {
      LastMatchIn(xs[1..], uuid);
    }
  }

  ghost predicate OnlyAt(xs: seq<ServiceRange>, uuid: Uuid, k: nat) {
    k < |xs| && xs[k].uuid == uuid && forall j :: 0 <= j < |xs| && j != k ==> xs[j].uuid != uuid
  }

  lemma {:induction false} LastMatchOnly(xs: seq<ServiceRange>, uuid: Uuid, k: nat, n: nat)
    requires OnlyAt(xs, uuid, k) && n <= |xs|
    ensures LastMatch(xs[..n], uuid) == if k < n then Some(xs[k]) else None
    ensures k >= n ==> OnlyAt(xs[n..], uuid, k - n)
  {
    if n > 0 {
      LastMatchOnly(xs, uuid, k, n - 1);
      LastMatchPush(xs[..n - 1], uuid, xs[n - 1]);
      assert xs[..n] == xs[..n - 1] + [xs[n - 1]];
    }
  }

  /** A camera service that is the only one is found exactly when it is listed
      within the rounds, of which there are sixteen. */
  lemma {:induction false} FindsTheService(xs: seq<ServiceRange>, next: seq<ServiceRange> -> nat, k: nat, rounds: nat)
    requires OnlyAt(xs, CAMERA_SERVICE, k) && Advances(next)
    ensures FoundService(xs, next, rounds) == if RoundsTo(xs, next, k) <= rounds then Some(xs[k]) else None
    decreases |xs|
  {
    var n := next(xs);
    RoundsToAtMost(xs, next, k);
    LastMatchOnly(xs, CAMERA_SERVICE, k, n);
    if rounds > 0 && k >= n {
      FindsTheService(xs[n..], next, k - n, rounds - 1);
    }
  }

  /** A group ends where the next service begins. */
  lemma {:induction false} GroupEndBounds(after: seq<Attribute>, last: u16)
    requires NumberedFrom(after, last + 1)
    ensures last <= GroupEnd(after, last) <= last + |after|
    ensures forall i :: 0 <= i < GroupEnd(after, last) - last ==> !IsServiceDecl(after[i].kind)
    ensures GroupEnd(after, last) < last + |after| ==> IsServiceDecl(after[GroupEnd(after, last) - last].kind)
  {
    if after != [] && !IsServiceDecl(after[0].kind) {
      assert after[0].handle == last + 1;
      NumberedRest(after, last + 1);
      GroupEndBounds(after[1..], after[0].handle);
      forall i | 0 < i < GroupEnd(after, last) - last
        ensures !IsServiceDecl(after[i].kind)
      {
        assert after[i] == after[1..][i - 1];
      }
    }
  }

  lemma GroupBounds(table: seq<Attribute>, start: u16)
    requires NumberedFrom(table, 1) && 1 <= start <= |table| < 0xffff
    ensures var end := GroupEnd(table[start..], start);
            start <= end <= |table| && forall i :: start <= i < end ==> !IsServiceDecl(table[i].kind)
  {
    var after := table[start..];
    assert forall i :: 0 <= i < |after| ==> after[i] == table[start + i];
    GroupEndBounds(after, start);
    forall i | start <= i < GroupEnd(after, start)
      ensures !IsServiceDecl(table[i].kind)
    {
      assert table[i] == after[i - start];
    }
  }

  /** What is known of a listed service: where it begins and ends. */
  lemma ServiceBounds(table: seq<Attribute>, from: nat, k: nat)
    requires Sound(table) && k < |Services(table, from)|
    ensures var s := Services(table, from)[k];
            && from <= s.start <= s.end <= |table| && 1 <= s.start
            && Services(table, s.start + 1) == Services(table, from)[k + 1..]
            && table[s.start - 1].kind == FromShort(PRIMARY_SERVICE)
            && (forall i :: s.start <= i < s.end ==> !IsServiceDecl(table[i].kind))
  {
    var i := Found(table, 1, from, 0xffff, PRIMARY, RangeOf(), k);
    GroupBounds(table, i + 1);
  }

  /** Whatever a response held, what is left is what the next request finds. */
  lemma ServicesContinue(table: seq<Attribute>, from: nat, k: nat)
    requires Sound(table) && k < |Services(table, from)|
    ensures var s := Services(table, from)[k];
            && from <= s.end < 0xffff
            && Services(table, s.end + 1) == Services(table, from)[k + 1..]
  {
    var s := Services(table, from)[k];
    ServiceBounds(table, from, k);
    RowsSkip(table, s.start + 1, s.end + 1, 0xffff, PRIMARY, RangeOf());
  }

  /** One response either settles the search or leaves the rest of it. */
  lemma ServiceStep(table: seq<Attribute>, next: seq<ServiceRange> -> nat, from: nat, rounds: nat,
                    told: seq<ServiceRange>, from': nat)
    requires Sound(table) && Advances(next) && Services(table, from) != [] && rounds > 0
    requires told == Services(table, from)[..next(Services(table, from))] && from' == told[|told| - 1].end + 1
    ensures from < from' <= 0xffff
    ensures var m := LastMatch(told, CAMERA_SERVICE);
            FoundService(Services(table, from), next, rounds)
            == if m.Some? then m else FoundService(Services(table, from'), next, rounds - 1)
  {
    hide Rows, RangeOf;
    ServicesContinue(table, from, next(Services(table, from)) - 1);
  }

  // --------------------------------------------- collecting characteristics

  ghost function FoundChars(xs: seq<CharDecl>, next: seq<CharDecl> -> nat, rounds: nat): seq<CharDecl>
    requires Advances(next)
    decreases |xs|
  {
    if rounds == 0 || xs == [] then []
    else xs[..next(xs)] + FoundChars(xs[next(xs)..], next, rounds - 1)
  }

  /** All are collected exactly when the last is listed within the rounds. */
  lemma {:induction false} FindsTheChars(xs: seq<CharDecl>, next: seq<CharDecl> -> nat, rounds: nat)
    requires Advances(next)
    ensures FoundChars(xs, next, rounds) <= xs
    ensures FoundChars(xs, next, rounds) == xs <==> xs == [] || RoundsTo(xs, next, |xs| - 1) <= rounds
    decreases |xs|
  {
    if xs != [] {
      var n := next(xs);
      RoundsToAtMost(xs, next, |xs| - 1);
      if rounds > 0 {
        FindsTheChars(xs[n..], next, rounds - 1);
        assert xs == xs[..n] + xs[n..];
        var more := FoundChars(xs[n..], next, rounds - 1);
        if xs[..n] + more == xs {
          assert more == (xs[..n] + more)[n..];
        }
      }
    }
  }

  lemma DeclaredAt(table: seq<Attribute>, lo: nat, hi: nat, k: nat)
    requires Sound(table) && k < |Declared(table, lo, hi)|
    ensures var c := Declared(table, lo, hi)[k];
            && lo <= c.handle <= hi && 1 <= c.handle < |table|
            && Declared(table, c.handle + 1, hi) == Declared(table, lo, hi)[k + 1..]
            && table[c.handle - 1].kind == FromShort(CHARACTERISTIC)
            && c.valueHandle == c.handle + 1
            && !EndsCharacteristic(table[c.valueHandle - 1])
  {
    var i := Found(table, 1, lo, hi, DECLARATION, DeclOf(), k);
    assert SoundAt(table, i);
  }

  /** A value is not a declaration, so the search may go on behind it. */
  lemma CharsContinue(table: seq<Attribute>, lo: nat, hi: nat, k: nat)
    requires Sound(table) && k < |Declared(table, lo, hi)|
    ensures var c := Declared(table, lo, hi)[k];
            && lo <= c.valueHandle < 0xffff
            && Declared(table, c.valueHandle + 1, hi) == Declared(table, lo, hi)[k + 1..]
  {
    var h := Declared(table, lo, hi)[k].handle;
    DeclaredAt(table, lo, hi, k);
    assert !EndsCharacteristic(table[h]);
    RowsSkip(table, h + 1, h + 2, hi, DECLARATION, DeclOf());
  }

  // ----------------------------------------------- finding a configuration

  /** The first client configuration listed, 0 for none. */
  function FirstConfig(xs: seq<HandleUuid>): u16 {
    if xs == [] then 0 else if xs[0].uuid == FromShort(CLIENT_CONFIG) then xs[0].handle else FirstConfig(xs[1..])
  }

  ghost function FoundConfig(xs: seq<HandleUuid>, next: seq<HandleUuid> -> nat, rounds: nat): u16
    requires Advances(next)
    decreases |xs|
  {
    if rounds == 0 || xs == [] then 0
    else if FirstConfig(xs[..next(xs)]) != 0 then FirstConfig(xs[..next(xs)])
    else FoundConfig(xs[next(xs)..], next, rounds - 1)
  }

  lemma {:induction false} FirstConfigSplit(xs: seq<HandleUuid>, ys: seq<HandleUuid>)
    requires forall x :: x in xs ==> x.handle != 0
    ensures FirstConfig(xs + ys) == if FirstConfig(xs) != 0 then FirstConfig(xs) else FirstConfig(ys)
  {
    if xs == [] {
      assert xs + ys == ys;
    } else {
      assert (xs + ys)[1..] == xs[1..] + ys;
      FirstConfigSplit(xs[1..], ys);
    }
  }

  /** The k-th of a list is its first client configuration. */
  ghost predicate ConfigFirstAt(xs: seq<HandleUuid>, k: nat) {
    && k < |xs| && xs[k].uuid == FromShort(CLIENT_CONFIG)
    && forall j :: 0 <= j < k ==> xs[j].uuid != FromShort(CLIENT_CONFIG)
  }

  lemma {:induction false} FirstConfigIn(xs: seq<HandleUuid>, k: nat, n: nat)
    requires ConfigFirstAt(xs, k) && n <= |xs|
    ensures FirstConfig(xs[..n]) == if k < n then xs[k].handle else 0
    ensures k >= n ==> ConfigFirstAt(xs[n..], k - n)
    decreases |xs|
  {
    if n > 0 && k > 0 {
      FirstConfigIn(xs[1..], k - 1, n - 1);
      assert xs[..n][1..] == xs[1..][..n - 1];
    }
  }

  /** The first configuration is found exactly when it is listed within the
      rounds, of which there are eight. */
  lemma {:induction false} FindsTheConfig(xs: seq<HandleUuid>, next: seq<HandleUuid> -> nat, k: nat, rounds: nat)
    requires Advances(next) && ConfigFirstAt(xs, k) && xs[k].handle != 0
    ensures FoundConfig(xs, next, rounds) == if RoundsTo(xs, next, k) <= rounds then xs[k].handle else 0
    decreases |xs|
  {
    hide FirstConfig;
    var n := next(xs);
    FirstConfigIn(xs, k, n);
    if k >= n && rounds > 0 {
      FindsTheConfig(xs[n..], next, k - n, rounds - 1);
    }
    RoundsToAtMost(xs, next, k);
  }

  /** So a characteristic with no more descriptors than rounds has its
      configuration found, if it has one. */
  lemma {:induction false} ConfigInTime(xs: seq<HandleUuid>, next: seq<HandleUuid> -> nat, rounds: nat)
    requires Advances(next) && |xs| <= rounds && forall x :: x in xs ==> x.handle != 0
    ensures FoundConfig(xs, next, rounds) == FirstConfig(xs)
    decreases |xs|
  {
    if xs != [] {
      var told, left := xs[..next(xs)], xs[next(xs)..];
      assert xs == told + left;
      FirstConfigSplit(told, left);
      ConfigInTime(left, next, rounds - 1);
    }
  }

  lemma FoundCharsStep(xs: seq<CharDecl>, next: seq<CharDecl> -> nat, rounds: nat)
    requires Advances(next) && xs != [] && rounds > 0
    ensures FoundChars(xs, next, rounds) == xs[..next(xs)] + FoundChars(xs[next(xs)..], next, rounds - 1)
  {
  }

  lemma CharStep(table: seq<Attribute>, next: seq<CharDecl> -> nat, lo: nat, hi: nat, rounds: nat,
                 told: seq<CharDecl>, lo': nat)
    requires Sound(table) && Advances(next) && Declared(table, lo, hi) != [] && rounds > 0
    requires told == Declared(table, lo, hi)[..next(Declared(table, lo, hi))] && lo' == told[|told| - 1].valueHandle + 1
    ensures lo < lo' <= 0xffff
    ensures FoundChars(Declared(table, lo, hi), next, rounds) == told
            + FoundChars(Declared(table, lo', hi), next, rounds - 1)
  {
    hide Sound, Declared, FoundChars;
    var xs := Declared(table, lo, hi);
    CharsContinue(table, lo, hi, next(xs) - 1);
    FoundCharsStep(xs, next, rounds);
  }

  lemma FoundConfigStep(xs: seq<HandleUuid>, next: seq<HandleUuid> -> nat, rounds: nat)
    requires Advances(next) && xs != [] && rounds > 0
    ensures var c := FirstConfig(xs[..next(xs)]);
            FoundConfig(xs, next, rounds) == if c != 0 then c else FoundConfig(xs[next(xs)..], next, rounds - 1)
  {
  }

  lemma InfoStep(table: seq<Attribute>, next: seq<HandleUuid> -> nat, lo: nat, hi: nat, rounds: nat,
                 told: seq<HandleUuid>, lo': nat)
    requires NumberedFrom(table, 1) && Advances(next) && Listed(table, lo, hi) != [] && rounds > 0
    requires told == Listed(table, lo, hi)[..next(Listed(table, lo, hi))] && lo' == told[|told| - 1].handle + 1
    ensures lo < lo' <= hi + 1
    ensures FoundConfig(Listed(table, lo, hi), next, rounds)
         == if FirstConfig(told) != 0 then FirstConfig(told) else FoundConfig(Listed(table, lo', hi), next, rounds - 1)
  {
    hide NumberedFrom, Listed, FirstConfig, FoundConfig;
    var xs := Listed(table, lo, hi);
    InfoContinues(table, lo, hi, next(xs) - 1);
    FoundConfigStep(xs, next, rounds);
  }

  lemma {:induction false} NothingDeclared(table: seq<Attribute>, lo: nat, hi: nat)
    requires lo > hi
    ensures Declared(table, lo, hi) == []
  {
    if table != [] {
      NothingDeclared(table[1..], lo, hi);
    }
  }

  // -------------------------------------------------------------- handles

  /** The handles a client keeps of a characteristic; a value of 0 means it was
      not found. */
  datatype CharHandles = CharHandles(value: u16, properties: byte, cccd: u16)

  const UNKNOWN := CharHandles(0, 0, 0)

  const NOTIFIES := 0x10
  const INDICATES := 0x20

  predicate Notifies(properties: byte) {
    (properties / NOTIFIES) % 2 == 1 || (properties / INDICATES) % 2 == 1
  }

  predicate Wanted(c: CharDecl) {
    (c.uuid == INCOMING_CONTROL || c.uuid == TIMECODE) && Notifies(c.properties)
  }

  /** What the loop over the declarations leaves for one UUID: the last one's
      value, and the configuration of the last one that had any. */
  function Handles(chars: seq<CharDecl>, configs: map<nat, u16>, uuid: Uuid, before: CharHandles, n: nat): CharHandles
    requires n <= |chars|
  {
    if n == 0 then before
    else
      var h := Handles(chars, configs, uuid, before, n - 1);
      if chars[n - 1].uuid != uuid then h
      else CharHandles(chars[n - 1].valueHandle, chars[n - 1].properties,
                       if n - 1 in configs then configs[n - 1] else h.cccd)
  }

  ghost predicate DeclaredOnce(chars: seq<CharDecl>, uuid: Uuid, t: nat) {
    t < |chars| && chars[t].uuid == uuid && forall j :: 0 <= j < |chars| && j != t ==> chars[j].uuid != uuid
  }

  /** A characteristic declared once gets its own value and its own
      configuration. */
  lemma {:induction false} HandlesOfOnce(chars: seq<CharDecl>, configs: map<nat, u16>, uuid: Uuid, t: nat, n: nat)
    requires DeclaredOnce(chars, uuid, t) && n <= |chars|
    ensures Handles(chars, configs, uuid, UNKNOWN, n) ==
            if t < n
            then CharHandles(chars[t].valueHandle, chars[t].properties, if t in configs then configs[t] else 0)
            else UNKNOWN
  {
    if n > 0 {
      HandlesOfOnce(chars, configs, uuid, t, n - 1);
    }
  }

  /** The t-th declaration is the last one of its UUID. */
  ghost predicate DeclaredLast(chars: seq<CharDecl>, uuid: Uuid, t: nat) {
    t < |chars| && chars[t].uuid == uuid && forall j :: t < j < |chars| ==> chars[j].uuid != uuid
  }

  /** What a declaration by itself gives. */
  function OwnHandles(chars: seq<CharDecl>, configs: map<nat, u16>, t: nat): CharHandles
    requires t < |chars|
  {
    CharHandles(chars[t].valueHandle, chars[t].properties, if t in configs then configs[t] else 0)
  }

  lemma {:induction false} HandlesOfLast(chars: seq<CharDecl>, configs: map<nat, u16>, uuid: Uuid, t: nat, n: nat)
    requires DeclaredLast(chars, uuid, t) && t < n <= |chars|
    ensures Handles(chars, configs, uuid, UNKNOWN, n) == Handles(chars, configs, uuid, UNKNOWN, t + 1)
  {
    if n > t + 1 {
      HandlesOfLast(chars, configs, uuid, t, n - 1);
    }
  }

  /** No configuration is kept exactly if none of the UUID's declarations so far
      had one. */
  lemma {:induction false} NoneKept(chars: seq<CharDecl>, configs: map<nat, u16>, uuid: Uuid, n: nat)
    requires n <= |chars| && forall i :: i in configs ==> configs[i] != 0
    ensures Handles(chars, configs, uuid, UNKNOWN, n).cccd == 0 <==>
            forall j :: 0 <= j < n && chars[j].uuid == uuid ==> j !in configs
  {
    if n > 0 {
      NoneKept(chars, configs, uuid, n - 1);
    }
  }

  /** A client keeps the handles of the last declaration exactly when that one
      has a configuration or no earlier one of the same UUID has. Else it keeps
      the value of one and the configuration of another. */
  lemma HandlesExactly(chars: seq<CharDecl>, configs: map<nat, u16>, uuid: Uuid, t: nat)
    requires DeclaredLast(chars, uuid, t) && forall i :: i in configs ==> configs[i] != 0
    ensures var h := Handles(chars, configs, uuid, UNKNOWN, |chars|);
            && h.value == chars[t].valueHandle && h.properties == chars[t].properties
            && (h == OwnHandles(chars, configs, t) <==>
                  t in configs || forall j :: 0 <= j < t && chars[j].uuid == uuid ==> j !in configs)
  {
    HandlesOfLast(chars, configs, uuid, t, |chars|);
    NoneKept(chars, configs, uuid, t);
  }

  /** Where a characteristic's descriptors stop. */
  function DescriptorsEnd(chars: seq<CharDecl>, i: nat, svcEnd: nat): int
    requires i < |chars|
  {
    if i + 1 < |chars| then chars[i + 1].handle - 1 else svcEnd
  }

  ghost function ConfigOf(table: seq<Attribute>, cut: InfoCut, chars: seq<CharDecl>, i: nat, svcEnd: nat): nat
    requires i < |chars|
  {
    var end := DescriptorsEnd(chars, i, svcEnd);
    if end < 0 then 0 else FoundConfig(Listed(table, chars[i].valueHandle + 1, end), cut.next, CONFIG_ROUNDS)
  }

  ghost function WantedConfig(table: seq<Attribute>, cut: InfoCut, chars: seq<CharDecl>, i: nat, svcEnd: nat): u16
    requires i < |chars|
  {
    if Wanted(chars[i]) then ConfigOf(table, cut, chars, i, svcEnd) else 0
  }

  ghost function Configs(table: seq<Attribute>, cut: InfoCut, chars: seq<CharDecl>, svcEnd: nat): nat -> u16 {
    (i: nat) => if i < |chars| then WantedConfig(table, cut, chars, i, svcEnd) else 0
  }

  lemma ConfigIs(table: seq<Attribute>, cut: InfoCut, chars: seq<CharDecl>, i: nat, svcEnd: nat)
    requires i < |chars|
    ensures Configs(table, cut, chars, svcEnd)(i) == WantedConfig(table, cut, chars, i, svcEnd)
  {
  }

  /** What the walk over the first n declarations records. */
  ghost function ConfigMap(configs: nat -> u16, n: nat): map<nat, u16> {
    if n == 0 then map[]
    else if configs(n - 1) == 0 then ConfigMap(configs, n - 1)
    else ConfigMap(configs, n - 1)[n - 1 := configs(n - 1)]
  }

  /** A configuration is recorded of exactly those that have one to be found. */
  lemma {:induction false} ConfigMapAt(configs: nat -> u16, n: nat, i: nat)
    ensures var m := ConfigMap(configs, n);
            if i < n && configs(i) != 0 then i in m && m[i] == configs(i) else i !in m
  {
    if n > 0 {
      ConfigMapAt(configs, n - 1, i);
    }
  }

  // ------------------------------------------------ discovery meets server

  /** The descriptors of the t-th characteristic of a list. */
  function Descriptors(table: seq<Attribute>, xs: seq<CharDecl>, t: nat, svcEnd: nat): seq<HandleUuid>
    requires t < |xs|
  {
    var end := DescriptorsEnd(xs, t, svcEnd);
    if end < 0 then [] else Listed(table, xs[t].valueHandle + 1, end)
  }

  /** The k-th service and its characteristics. */
  ghost predicate Located(table: seq<Attribute>, k: nat, s: ServiceRange, xs: seq<CharDecl>) {
    && Sound(table)
    && k < |Services(table, 1)| && s == Services(table, 1)[k]
    && xs == Declared(table, s.start, s.end)
  }

  /** One camera service that can be found, whose characteristics can all be
      found. */
  ghost predicate Discoverable(table: seq<Attribute>, cut: ServiceCut, cut': CharCut, k: nat, s: ServiceRange,
                               xs: seq<CharDecl>)
  {
    && Located(table, k, s, xs)
    && OnlyAt(Services(table, 1), CAMERA_SERVICE, k) && RoundsTo(Services(table, 1), cut.next, k) <= SERVICE_ROUNDS
    && (xs != [] ==> RoundsTo(xs, cut'.next, |xs| - 1) <= CHAR_ROUNDS)
  }

  /** Then discovery ends with that service and with all its characteristics. */
  lemma FindsEverything(table: seq<Attribute>, cut: ServiceCut, cut': CharCut, k: nat, s: ServiceRange,
                        xs: seq<CharDecl>)
    requires Discoverable(table, cut, cut', k, s, xs)
    ensures FoundService(Services(table, 1), cut.next, SERVICE_ROUNDS) == Some(s)
    ensures FoundChars(xs, cut'.next, CHAR_ROUNDS) == xs
  {
    FindsTheService(Services(table, 1), cut.next, k, SERVICE_ROUNDS);
    FindsTheChars(xs, cut'.next, CHAR_ROUNDS);
  }

  /** And with exactly the handles of each of them that is declared once: its
      value and, where it is wanted, its first configuration. */
  lemma HandlesAreExact(table: seq<Attribute>, cut: InfoCut, s: ServiceRange, xs: seq<CharDecl>, uuid: Uuid, t: nat)
    requires NumberedFrom(table, 1) && DeclaredOnce(xs, uuid, t) && |Descriptors(table, xs, t, s.end)| <= CONFIG_ROUNDS
    ensures Handles(xs, ConfigMap(Configs(table, cut, xs, s.end), |xs|), uuid, UNKNOWN, |xs|) ==
            CharHandles(xs[t].valueHandle, xs[t].properties,
                        if Wanted(xs[t]) then FirstConfig(Descriptors(table, xs, t, s.end)) else 0)
  {
    hide ConfigMap, Configs, Descriptors, FirstConfig, NumberedFrom;
    HandlesOfOnce(xs, ConfigMap(Configs(table, cut, xs, s.end), |xs|), uuid, t, |xs|);
    RecordedOf(table, cut, xs, s.end, t);
  }

  /** A wanted declaration that has a configuration to be found. */
  predicate Subscribable(table: seq<Attribute>, xs: seq<CharDecl>, svcEnd: nat, j: nat)
    requires j < |xs|
  {
    Wanted(xs[j]) && FirstConfig(Descriptors(table, xs, j, svcEnd)) != 0
  }

  /** What is recorded of one declaration of a table. */
  lemma RecordedOf(table: seq<Attribute>, cut: InfoCut, xs: seq<CharDecl>, svcEnd: nat, j: nat)
    requires NumberedFrom(table, 1) && j < |xs| && |Descriptors(table, xs, j, svcEnd)| <= CONFIG_ROUNDS
    ensures var m := ConfigMap(Configs(table, cut, xs, svcEnd), |xs|);
            if Subscribable(table, xs, svcEnd, j)
            then j in m && m[j] == FirstConfig(Descriptors(table, xs, j, svcEnd))
            else j !in m
  {
    ConfigMapAt(Configs(table, cut, xs, svcEnd), |xs|, j);
    if DescriptorsEnd(xs, j, svcEnd) >= 0 {
      ListedHandles(table, xs[j].valueHandle + 1, DescriptorsEnd(xs, j, svcEnd));
      ConfigInTime(Descriptors(table, xs, j, svcEnd), cut.next, CONFIG_ROUNDS);
    }
  }

  lemma {:induction false} RecordedAll(configs: nat -> u16, n: nat)
    ensures forall i :: i in ConfigMap(configs, n) ==> i < n && ConfigMap(configs, n)[i] != 0
  {
    if n > 0 {
      RecordedAll(configs, n - 1);
    }
  }

  /** So on a table whose characteristics have no more descriptors than there are
      rounds, the client keeps the last declaration's own handles exactly when
      that one has a configuration or no earlier one has. */
  lemma KeepsOwnExactly(table: seq<Attribute>, cut: InfoCut, s: ServiceRange, xs: seq<CharDecl>, uuid: Uuid, t: nat)
    requires NumberedFrom(table, 1) && DeclaredLast(xs, uuid, t)
    requires forall j {:trigger Descriptors(table, xs, j, s.end)} :: 0 <= j < |xs| ==>
               |Descriptors(table, xs, j, s.end)| <= CONFIG_ROUNDS
    ensures var h := Handles(xs, ConfigMap(Configs(table, cut, xs, s.end), |xs|), uuid, UNKNOWN, |xs|);
            && h.value == xs[t].valueHandle && h.properties == xs[t].properties
            && (h.cccd == (if Wanted(xs[t]) then FirstConfig(Descriptors(table, xs, t, s.end)) else 0) <==>
                  Subscribable(table, xs, s.end, t)
                  || forall j :: 0 <= j < t && xs[j].uuid == uuid ==> !Subscribable(table, xs, s.end, j))
  {
    hide Handles, ConfigMap, Configs, Descriptors, FirstConfig, NumberedFrom;
    var m := ConfigMap(Configs(table, cut, xs, s.end), |xs|);
    RecordedAll(Configs(table, cut, xs, s.end), |xs|);
    HandlesExactly(xs, m, uuid, t);
    forall j | 0 <= j < |xs|
      ensures j in m <==> Subscribable(table, xs, s.end, j)
      ensures j in m ==> m[j] == FirstConfig(Descriptors(table, xs, j, s.end))
    {
      RecordedOf(table, cut, xs, s.end, j);
    }
  }

  lemma ListedHandles(table: seq<Attribute>, lo: nat, hi: nat)
    requires NumberedFrom(table, 1)
    ensures forall x :: x in Listed(table, lo, hi) ==> x.handle != 0
  {
    forall x | x in Listed(table, lo, hi)
      ensures x.handle != 0
    {
      var i :| 0 <= i < |Listed(table, lo, hi)| && Listed(table, lo, hi)[i] == x;
      var _ := Found(table, 1, lo, hi, None, InfoOf(), i);
    }
  }

  // ------------------------------------------------------------ subscribing

  function WriteRequestPdu(handle: u16, value: seq<byte>): seq<byte> {
    [WRITE_REQUEST] + Put16(handle) + value
  }

  const NOTIFY_ON: seq<byte> := [1, 0]

  /** Turning notifications on where they are looked for turns them on. */
  lemma {:induction false} ConfiguredHere(after: seq<Attribute>, v: u16, j: nat)
    requires j < |after| && after[j].kind == FromShort(CLIENT_CONFIG) && after[j].value == NOTIFY_ON
    requires forall i :: 0 <= i <= j ==> after[i].handle != v && !EndsCharacteristic(after[i])
    requires forall i :: 0 <= i < j ==> after[i].kind != FromShort(CLIENT_CONFIG)
    ensures ConfiguredAfter(after, v)
  {
    if j > 0 {
      ConfiguredHere(after[1..], v, j - 1);
    }
  }

  /** And turning them on anywhere else does not turn them off. */
  lemma {:induction false} ConfiguredStill(after: seq<Attribute>, v: u16, i: nat)
    requires i < |after| && ConfiguredAfter(after, v)
    ensures ConfiguredAfter(after[i := after[i].(value := NOTIFY_ON)], v)
  {
    var after' := after[i := after[i].(value := NOTIFY_ON)];
    if i == 0 {
      assert after'[1..] == after[1..];
    } else if ConfiguredAfter(after[1..], v) {
      assert after'[1..] == after[1..][i - 1 := after[1..][i - 1].(value := NOTIFY_ON)];
      ConfiguredStill(after[1..], v, i - 1);
    }
  }

  lemma {:induction false} FirstConfigAt(xs: seq<HandleUuid>) returns (j: nat)
    requires FirstConfig(xs) != 0
    ensures j < |xs| && xs[j].uuid == FromShort(CLIENT_CONFIG) && xs[j].handle == FirstConfig(xs)
    ensures forall i :: 0 <= i < j ==> xs[i].uuid != FromShort(CLIENT_CONFIG)
  {
    if xs[0].uuid == FromShort(CLIENT_CONFIG) {
      j := 0;
    } else {
      j := FirstConfigAt(xs[1..]);
      j := j + 1;
    }
  }

  /** What a range that begins at the table's first handle lists first, and what
      it lists behind that. */
  lemma ListedHere(table: seq<Attribute>, first: nat, hi: nat)
    requires NumberedFrom(table, first) && table != [] && first <= hi
    ensures NumberedFrom(table[1..], first + 1) && table[0].handle == first
    ensures Listed(table, first, hi) == [HandleUuid(table[0].handle, table[0].kind)] + Listed(table[1..], first + 1, hi)
  {
    NumberedRest(table, first);
    RowsFrom(table[1..], first + 1, first, first + 1, hi, None, InfoOf());
  }

  lemma ListedLater(table: seq<Attribute>, first: nat, lo: nat, hi: nat)
    requires NumberedFrom(table, first) && table != [] && first < lo
    ensures NumberedFrom(table[1..], first + 1)
    ensures Listed(table, lo, hi) == Listed(table[1..], lo, hi)
  {
    NumberedRest(table, first);
  }

  /** Everything in a range is listed, one handle after the other. */
  lemma {:induction false} ListedAt(table: seq<Attribute>, first: nat, lo: nat, hi: nat, i: nat)
    requires NumberedFrom(table, first) && first <= lo && i < |Listed(table, lo, hi)|
    ensures lo + i <= hi && lo + i - first < |table|
    ensures var x := Listed(table, lo, hi)[i]; x.handle == lo + i && x.uuid == table[lo + i - first].kind
    decreases |table|
  {
    hide NumberedFrom, Listed;
    if lo > hi {
      NothingPast(table, lo, hi);
    } else if table == [] {
      NothingListed(lo, hi);
    } else if first < lo {
      ListedLater(table, first, lo, hi);
      ListedAt(table[1..], first + 1, lo, hi, i);
    } else {
      ListedHere(table, first, hi);
      if i > 0 {
        ListedAt(table[1..], first + 1, lo + 1, hi, i - 1);
      }
    }
  }

  lemma NothingListed(lo: nat, hi: nat)
    ensures Listed([], lo, hi) == []
  {
  }

  /** Nothing in a range is left out. */
  lemma {:induction false} ListedAll(table: seq<Attribute>, first: nat, lo: nat, hi: nat)
    requires NumberedFrom(table, first) && first <= lo <= hi && hi < first + |table|
    ensures |Listed(table, lo, hi)| == hi + 1 - lo
    decreases |table|
  {
    hide NumberedFrom, Listed;
    if first < lo {
      ListedLater(table, first, lo, hi);
      ListedAll(table[1..], first + 1, lo, hi);
    } else {
      ListedHere(table, first, hi);
      if lo < hi {
        ListedAll(table[1..], first + 1, lo + 1, hi);
      } else {
        NothingPast(table[1..], lo + 1, hi);
      }
    }
  }

  /** The first declaration listed is the first there is. */
  lemma {:induction false} FirstIsFirst(table: seq<Attribute>, first: nat, lo: nat, hi: nat, i: nat)
    requires NumberedFrom(table, first) && i < |table| && Picked(table[i], lo, hi, DECLARATION)
    ensures Declared(table, lo, hi) != [] && Declared(table, lo, hi)[0].handle <= table[i].handle
  {
    if !Picked(table[0], lo, hi, DECLARATION) {
      NumberedRest(table, first);
      FirstIsFirst(table[1..], first + 1, lo, hi, i - 1);
    }
  }

  /** Between a value and the end of its descriptors nothing is declared:
      neither a characteristic, which discovery would have listed, nor a
      service, before which the group ends. */
  lemma NoCharBetween(table: seq<Attribute>, s: ServiceRange, t: nat, i: nat)
    requires Sound(table) && t < |Declared(table, s.start, s.end)| && i < |table|
    requires var xs := Declared(table, s.start, s.end);
             xs[t].handle <= i && i + 1 <= s.end && (t + 1 < |xs| ==> i + 1 < xs[t + 1].handle)
    ensures table[i].kind != FromShort(CHARACTERISTIC)
  {
    var xs := Declared(table, s.start, s.end);
    var lo := xs[t].handle + 1;
    DeclaredAt(table, s.start, s.end, t);
    if table[i].kind == FromShort(CHARACTERISTIC) {
      FirstIsFirst(table, 1, lo, s.end, i);
    }
  }

  lemma NothingBetween(table: seq<Attribute>, k: nat, s: ServiceRange, xs: seq<CharDecl>, t: nat, i: nat)
    requires Located(table, k, s, xs) && t < |xs| && xs[t].handle <= i && i + 1 <= DescriptorsEnd(xs, t, s.end)
    ensures i < |table| && !EndsCharacteristic(table[i])
  {
    ServiceBounds(table, 1, k);
    DeclaredAt(table, s.start, s.end, t);
    if t + 1 < |xs| {
      DeclaredAt(table, s.start, s.end, t + 1);
    }
    NoCharBetween(table, s, t, i);
  }

  /** Where a characteristic's configuration is: behind its value, with nothing
      declared and no other configuration in between. */
  ghost predicate Behind(table: seq<Attribute>, v: nat, cccd: nat) {
    && 1 <= v < cccd <= |table| && table[cccd - 1].kind == FromShort(CLIENT_CONFIG)
    && (forall i :: v <= i < cccd ==> !EndsCharacteristic(table[i]))
    && (forall i :: v <= i < cccd - 1 ==> table[i].kind != FromShort(CLIENT_CONFIG))
  }

  lemma DescriptorAt(table: seq<Attribute>, k: nat, s: ServiceRange, xs: seq<CharDecl>, t: nat, i: nat)
    requires Located(table, k, s, xs) && t < |xs| && i < |Descriptors(table, xs, t, s.end)|
    ensures var v, d := xs[t].valueHandle as nat, Descriptors(table, xs, t, s.end)[i];
            1 <= v && v + i < |table| && d.handle == v + i + 1 && d.uuid == table[v + i].kind
              && !EndsCharacteristic(table[v + i])
  {
    var v: nat, end := xs[t].valueHandle, DescriptorsEnd(xs, t, s.end);
    ListedAt(table, 1, v + 1, end, i);
    assert v >= 1 && xs[t].handle <= v + i by {
      DeclaredAt(table, s.start, s.end, t);
    }
    NothingBetween(table, k, s, xs, t, v + i);
  }

  lemma ConfigBehindValue(table: seq<Attribute>, k: nat, s: ServiceRange, xs: seq<CharDecl>, t: nat)
    requires Located(table, k, s, xs) && t < |xs| && FirstConfig(Descriptors(table, xs, t, s.end)) != 0
    ensures Behind(table, xs[t].valueHandle, FirstConfig(Descriptors(table, xs, t, s.end)))
  {
    hide Located, EndsCharacteristic, Descriptors, FirstConfig, FromShort;
    var v: nat := xs[t].valueHandle;
    var j := FirstConfigAt(Descriptors(table, xs, t, s.end));
    DescriptorAt(table, k, s, xs, t, j);
    forall i | v <= i < v + 1 + j
      ensures !EndsCharacteristic(table[i])
      ensures i < v + j ==> table[i].kind != FromShort(CLIENT_CONFIG)
    {
      DescriptorAt(table, k, s, xs, t, i - v);
    }
  }

  lemma FindNumbered(table: seq<Attribute>, handle: nat)
    requires NumberedFrom(table, 1) && 1 <= handle <= |table|
    ensures Find(table, handle) == handle - 1
  {
    assert table[handle - 1].handle == handle;
  }

  /** A write to an attribute that may be written is accepted. */
  lemma WriteAccepted(table: seq<Attribute>, mtu: nat, cccd: u16)
    requires NumberedFrom(table, 1) && mtu >= DEFAULT_MTU && 1 <= cccd <= |table| && table[cccd - 1].writable
    ensures Answer(table, mtu, WriteRequestPdu(cccd, NOTIFY_ON)) == [WRITE_RESPONSE]
    ensures Writes(table, WriteRequestPdu(cccd, NOTIFY_ON))
    ensures Written(table, WriteRequestPdu(cccd, NOTIFY_ON)) == table[cccd - 1 := table[cccd - 1].(value := NOTIFY_ON)]
  {
    WriteRead(cccd, NOTIFY_ON);
    FindNumbered(table, cccd);
  }

  /** Writing the configuration discovery found subscribes to the characteristic
      it was found for. */
  lemma SubscribesTo(table: seq<Attribute>, v: u16, cccd: u16)
    requires Sound(table) && Behind(table, v, cccd)
    ensures table[cccd - 1].writable
    ensures Subscribed(Written(table, WriteRequestPdu(cccd, NOTIFY_ON)), v)
  {
    hide FromShort, EndsCharacteristic;
    assert SoundAt(table, cccd - 1);
    WriteAccepted(table, DEFAULT_MTU, cccd);
    var table' := table[cccd - 1 := table[cccd - 1].(value := NOTIFY_ON)];
    FindNumbered(table', v);
    BehindConfigured(table, table', v, cccd);
  }

  lemma BehindConfigured(table: seq<Attribute>, table': seq<Attribute>, v: u16, cccd: u16)
    requires NumberedFrom(table, 1) && Behind(table, v, cccd)
    requires table' == table[cccd - 1 := table[cccd - 1].(value := NOTIFY_ON)]
    ensures ConfiguredAfter(table'[v..], v)
  {
    var after, j := table'[v..], cccd - 1 - v;
    forall i | 0 <= i <= j
      ensures after[i].handle != v && after[i].kind == table[v + i].kind
    {
    }
    ConfiguredHere(after, v, j);
  }

  lemma WriteRead(handle: u16, value: seq<byte>)
    ensures var pdu := WriteRequestPdu(handle, value);
            |pdu| == 3 + |value| && pdu[0] == WRITE_REQUEST && Get16(pdu[1..]) == handle && pdu[3..] == value
  {
    assert WriteRequestPdu(handle, value)[1..] == Put16(handle) + value;
    Get16Put16(handle, value);
  }

  /** A second subscription leaves the first in place. */
  lemma StaysConfigured(table: seq<Attribute>, v: u16, at: nat, i: nat)
    requires at < |table| && i < |table| && ConfiguredAfter(table[at + 1..], v)
    ensures ConfiguredAfter(table[i := table[i].(value := NOTIFY_ON)][at + 1..], v)
  {
    var table' := table[i := table[i].(value := NOTIFY_ON)];
    if i > at {
      var after := table[at + 1..];
      assert table'[at + 1..] == after[i - at - 1 := after[i - at - 1].(value := NOTIFY_ON)];
      ConfiguredStill(after, v, i - at - 1);
    } else {
      assert table'[at + 1..] == table[at + 1..];
    }
  }

  lemma StaysSubscribed(table: seq<Attribute>, v: u16, cccd: u16)
    requires NumberedFrom(table, 1) && Subscribed(table, v) && 1 <= cccd <= |table|
    ensures Subscribed(table[cccd - 1 := table[cccd - 1].(value := NOTIFY_ON)], v)
  {
    var at := Find(table, v);
    assert v == at + 1;
    FindNumbered(table[cccd - 1 := table[cccd - 1].(value := NOTIFY_ON)], v);
    StaysConfigured(table, v, at, cccd - 1);
  }

  predicate IsError(reply: seq<byte>) {
    |reply| >= 5 && reply[0] == ERROR_RESPONSE
  }

  /** The configuration of a characteristic, if there is one to write. */
  function ToSubscribe(h: CharHandles): seq<u16> {
    if h.value != 0 && h.cccd != 0 then [h.cccd] else []
  }

  /** What writing configurations one after the other leaves in the table, and
      whether all were accepted: the first refusal ends it. */
  function Subscriptions(table: seq<Attribute>, mtu: nat, cccds: seq<u16>): (seq<Attribute>, bool)
    requires mtu >= DEFAULT_MTU
    decreases |cccds|
  {
    if cccds == [] then (table, true)
    else
      var pdu := WriteRequestPdu(cccds[0], NOTIFY_ON);
      if IsError(Answer(table, mtu, pdu)) then (Written(table, pdu), false)
      else Subscriptions(Written(table, pdu), mtu, cccds[1..])
  }

  /** Configurations that may be written are all accepted, and the first of them
      stays written whatever follows. */
  lemma {:induction false} AllAccepted(table: seq<Attribute>, mtu: nat, cccds: seq<u16>, v: u16)
    requires NumberedFrom(table, 1) && mtu >= DEFAULT_MTU && |table| < 0xffff
    requires forall c :: c in cccds ==> 1 <= c <= |table| && table[c - 1].writable
    ensures Subscriptions(table, mtu, cccds).1
    ensures Subscribed(table, v) ==> Subscribed(Subscriptions(table, mtu, cccds).0, v)
    decreases |cccds|
  {
    if cccds != [] {
      var c := cccds[0];
      assert c in cccds;
      var table' := table[c - 1 := table[c - 1].(value := NOTIFY_ON)];
      WriteAccepted(table, mtu, c);
      if Subscribed(table, v) {
        StaysSubscribed(table, v, c);
      }
      forall d | d in cccds[1..]
        ensures 1 <= d <= |table'| && table'[d - 1].writable
      {
        assert d in cccds;
      }
      AllAccepted(table', mtu, cccds[1..], v);
    }
  }

  /** Discovery meets server: on a table with one camera service that can be
      found, whose timecode is declared once with a configuration, subscribing
      with the handles discovery found succeeds and makes the server's
      `subscribed` true for the timecode. */
  lemma SubscribingWorks(table: seq<Attribute>, mtu: nat, k: nat, s: ServiceRange, xs: seq<CharDecl>, t: nat,
                         more: seq<u16>)
    requires Located(table, k, s, xs) && mtu >= DEFAULT_MTU
    requires t < |xs| && FirstConfig(Descriptors(table, xs, t, s.end)) != 0
    requires forall c :: c in more ==> 1 <= c <= |table| && table[c - 1].writable
    ensures var done := Subscriptions(table, mtu, [FirstConfig(Descriptors(table, xs, t, s.end))] + more);
            done.1 && Subscribed(done.0, xs[t].valueHandle)
  {
    hide Services, Declared, FromShort, Find, Get16;
    var cccd := FirstConfig(Descriptors(table, xs, t, s.end));
    var pdu := WriteRequestPdu(cccd, NOTIFY_ON);
    ConfigBehindValue(table, k, s, xs, t);
    SubscribesTo(table, xs[t].valueHandle, cccd);
    WriteAccepted(table, mtu, cccd);
    AllAccepted(Written(table, pdu), mtu, more, xs[t].valueHandle);
    assert ([cccd] + more)[0] == cccd && ([cccd] + more)[1..] == more;
  }

  lemma ListedConfig(table: seq<Attribute>, lo: nat, hi: nat, n: nat)
    requires Sound(table) && n <= |Listed(table, lo, hi)| && FirstConfig(Listed(table, lo, hi)[..n]) != 0
    ensures var c := FirstConfig(Listed(table, lo, hi)[..n]); 1 <= c <= |table| && table[c - 1].writable
  {
    var j := FirstConfigAt(Listed(table, lo, hi)[..n]);
    var i := Found(table, 1, lo, hi, None, InfoOf(), j);
    assert SoundAt(table, i);
  }

  /** Every configuration discovery comes up with may be written. */
  lemma {:induction false} FoundIsConfig(table: seq<Attribute>, next: seq<HandleUuid> -> nat, lo: nat, hi: nat,
                                         rounds: nat)
    requires Sound(table) && Advances(next)
    ensures var c := FoundConfig(Listed(table, lo, hi), next, rounds);
            c != 0 ==> 1 <= c <= |table| && table[c - 1].writable
    decreases rounds
  {
    hide NumberedFrom, Rows, InfoOf;
    var xs := Listed(table, lo, hi);
    if rounds > 0 && xs != [] {
      var told := xs[..next(xs)];
      var lo' := told[|told| - 1].handle + 1;
      InfoStep(table, next, lo, hi, rounds, told, lo');
      if FirstConfig(told) != 0 {
        ListedConfig(table, lo, hi, next(xs));
      } else {
        FoundIsConfig(table, next, lo', hi, rounds - 1);
      }
    }
  }

  predicate Writable(table: seq<Attribute>, c: u16) {
    c != 0 ==> 1 <= c <= |table| && table[c - 1].writable
  }

  lemma WantedWritable(table: seq<Attribute>, cut: InfoCut, chars: seq<CharDecl>, svcEnd: nat, i: nat)
    requires Sound(table) && i < |chars|
    ensures Writable(table, WantedConfig(table, cut, chars, i, svcEnd))
  {
    var end := DescriptorsEnd(chars, i, svcEnd);
    if end >= 0 {
      FoundIsConfig(table, cut.next, chars[i].valueHandle + 1, end, CONFIG_ROUNDS);
    }
  }

  lemma {:induction false} HandlesWritable(table: seq<Attribute>, cut: InfoCut, chars: seq<CharDecl>, svcEnd: nat,
                                           uuid: Uuid, n: nat)
    requires Sound(table) && n <= |chars|
    ensures Writable(table, Handles(chars, ConfigMap(Configs(table, cut, chars, svcEnd), |chars|),
                                    uuid, UNKNOWN, n).cccd)
  {
    hide NumberedFrom, WantedConfig;
    if n > 0 {
      HandlesWritable(table, cut, chars, svcEnd, uuid, n - 1);
      ConfigMapAt(Configs(table, cut, chars, svcEnd), |chars|, n - 1);
      WantedWritable(table, cut, chars, svcEnd, n - 1);
    }
  }

  /** All that discovery leaves behind, on a table where everything can be
      found: the timecode's own handles, and configurations that can be written,
      after which the timecode is subscribed to. */
  lemma ReadyToSubscribe(table: seq<Attribute>, mtu: nat, cut: InfoCut, k: nat, s: ServiceRange, xs: seq<CharDecl>,
                         t: nat)
    requires Located(table, k, s, xs) && mtu >= DEFAULT_MTU
    requires DeclaredOnce(xs, TIMECODE, t) && Notifies(xs[t].properties)
    requires |Descriptors(table, xs, t, s.end)| <= CONFIG_ROUNDS && FirstConfig(Descriptors(table, xs, t, s.end)) != 0
    ensures var found := ConfigMap(Configs(table, cut, xs, s.end), |xs|);
            var timecode := Handles(xs, found, TIMECODE, UNKNOWN, |xs|);
            var incoming := Handles(xs, found, INCOMING_CONTROL, UNKNOWN, |xs|);
            var done := Subscriptions(table, mtu, ToSubscribe(timecode) + ToSubscribe(incoming));
            && timecode == CharHandles(xs[t].valueHandle, xs[t].properties,
                                       FirstConfig(Descriptors(table, xs, t, s.end)))
            && done.1 && Subscribed(done.0, timecode.value)
  {
    hide Services, Declared, WantedConfig, EndsCharacteristic, DescriptorsEnd, FromShort, ConfiguredAfter;
    HandlesAreExact(table, cut, s, xs, TIMECODE, t);
    DeclaredAt(table, s.start, s.end, t);
    HandlesWritable(table, cut, xs, s.end, INCOMING_CONTROL, |xs|);
    SubscribingWorks(table, mtu, k, s, xs, t,
                     ToSubscribe(Handles(xs, ConfigMap(Configs(table, cut, xs, s.end), |xs|),
                                         INCOMING_CONTROL, UNKNOWN, |xs|)));
  }

  // ---------------------------------------------------------- notifications

  datatype Notice = Notice(handle: u16, value: seq<byte>, wantsConfirmation: bool)

  function ParseNotification(pdu: seq<byte>): Option<Notice> {
    if |pdu| < 3 || (pdu[0] != NOTIFICATION && pdu[0] != INDICATION) then None
    else Some(Notice(Get16(pdu[1..]), pdu[3..], pdu[0] == INDICATION))
  }

  /** What the server sends to a subscriber reads back as the value, cut to what
      the MTU leaves room for; without a subscription nothing is sent. */
  lemma NotificationArrives(table: seq<Attribute>, mtu: nat, v: u16, value: seq<byte>)
    requires mtu >= DEFAULT_MTU
    ensures var pdu := Notification(table, mtu, v, value);
            && |pdu| <= mtu
            && ParseNotification(pdu) ==
               if Subscribed(table, v) then Some(Notice(v, value[..Min(mtu - 3, |value|)], false)) else None
  {
    if Subscribed(table, v) {
      var cut := value[..Min(mtu - 3, |value|)];
      var pdu := [NOTIFICATION] + Put16(v) + cut;
      assert pdu[1..] == Put16(v) + cut && pdu[3..] == cut;
      Get16Put16(v, cut);
    }
  }

  /** The first configuration of a response, as the loop looks for it. */
  method PickConfig(told: seq<HandleUuid>) returns (found: u16)
    ensures found == FirstConfig(told)
  {
    var i := 0;
    assert told[0..] == told;
    while i < |told|
      invariant i <= |told| && FirstConfig(told[i..]) == FirstConfig(told)
    {
      if told[i].uuid == FromShort(CLIENT_CONFIG) {
        return told[i].handle;
      }
      i := i + 1;
    }
    found := 0;
  }

  method PickService(told: seq<ServiceRange>) returns (m: Option<ServiceRange>)
    ensures m == LastMatch(told, CAMERA_SERVICE)
  {
    m := None;
    for i := 0 to |told|
      invariant m == LastMatch(told[..i], CAMERA_SERVICE)
    {
      assert told[..i + 1] == told[..i] + [told[i]];
      LastMatchPush(told[..i], CAMERA_SERVICE, told[i]);
      if told[i].uuid == CAMERA_SERVICE {
        m := Some(told[i]);
      }
    }
    assert told[..|told|] == told;
  }

  /** One round of the search for a configuration. */
  method ConfigRound(server: Server, cursor: u16, end: u16, left: nat, ghost cut: InfoCut, ghost todo: seq<HandleUuid>)
    returns (over: bool, found: u16, next: nat, ghost more: seq<HandleUuid>)
    requires server.mtu >= DEFAULT_MTU && NumberedFrom(server.table, 1) && cut.mtu == server.mtu && 1 <= cursor <= end
             && left > 0
    requires todo == Listed(server.table, cursor, end)
    modifies server
    ensures server.table == old(server.table) && server.mtu == old(server.mtu)
    ensures over ==> FoundConfig(todo, cut.next, left) == found
    ensures !over ==> cursor < next <= end + 1 && more == Listed(server.table, next, end)
                      && FoundConfig(todo, cut.next, left) == FoundConfig(more, cut.next, left - 1)
  {
    assert NextListed(cut.next, server.mtu, todo);
    var told := Ask(server, cursor, end);
    if told.None? {
      return true, 0, cursor, todo;
    }
    next := told.value[|told.value| - 1].handle + 1;
    more := Listed(server.table, next, end);
    InfoStep(server.table, cut.next, cursor, end, left, told.value, next);
    found := PickConfig(told.value);
    over := found != 0;
  }

  /** The search for a configuration between a value and the end of its
      characteristic. */
  method FindConfig(server: Server, cursor: nat, end: u16, rounds: nat, ghost cut: InfoCut, ghost todo: seq<HandleUuid>)
    returns (found: u16)
    requires server.mtu >= DEFAULT_MTU && NumberedFrom(server.table, 1) && cut.mtu == server.mtu && 1 <= cursor
    requires todo == Listed(server.table, cursor, end)
    modifies server
    ensures server.table == old(server.table) && server.mtu == old(server.mtu)
    ensures found == FoundConfig(todo, cut.next, rounds)
    decreases rounds
  {
    if rounds == 0 {
      return 0;
    }
    if cursor > end {
      NothingPast(server.table, cursor, end);
      return 0;
    }
    var over, f, next, more := ConfigRound(server, cursor, end, rounds, cut, todo);
    if over {
      return f;
    }
    found := FindConfig(server, next, end, rounds - 1, cut, more);
  }

  /** The configuration of one characteristic, if this program subscribes to it. */
  method ConfigFor(server: Server, decls: seq<CharDecl>, index: nat, svcEnd: nat, ghost table: seq<Attribute>,
                   ghost cut: InfoCut, ghost found: nat -> u16) returns (cccd: u16)
    requires server.mtu >= DEFAULT_MTU && server.table == table && NumberedFrom(table, 1) && cut.mtu == server.mtu
    requires index < |decls| && svcEnd <= 0xffff && found == Configs(table, cut, decls, svcEnd)
    modifies server
    ensures server.table == table && server.mtu == old(server.mtu)
    ensures cccd == found(index)
  {
    hide NumberedFrom, Configs, FoundConfig;
    ConfigIs(table, cut, decls, index, svcEnd);
    var c := decls[index];
    var end := DescriptorsEnd(decls, index, svcEnd);
    if !Wanted(c) || end < 0 {
      return 0;
    }
    cccd := FindConfig(server, c.valueHandle + 1, end, CONFIG_ROUNDS, cut, Listed(table, c.valueHandle + 1, end));
  }

  /** One round of the walk over the characteristics. */
  method CharRound(server: Server, cursor: u16, end: u16, left: nat, ghost cut: CharCut, ghost todo: seq<CharDecl>)
    returns (told: Option<seq<CharDecl>>, next: nat, ghost more: seq<CharDecl>)
    requires server.mtu >= DEFAULT_MTU && Sound(server.table) && cut.mtu == server.mtu && 1 <= cursor <= end && left > 0
    requires todo == Declared(server.table, cursor, end)
    modifies server
    ensures server.table == old(server.table) && server.mtu == old(server.mtu)
    ensures told.None? ==> FoundChars(todo, cut.next, left) == []
    ensures told.Some? ==> cursor < next <= 0xffff && more == Declared(server.table, next, end)
                           && FoundChars(todo, cut.next, left) == told.value + FoundChars(more, cut.next, left - 1)
  {
    told := AskChars(server, cursor, end, cut);
    if told.None? {
      return told, cursor, todo;
    }
    next := told.value[|told.value| - 1].valueHandle + 1;
    more := Declared(server.table, next, end);
    CharStep(server.table, cut.next, cursor, end, left, told.value, next);
  }

  /** One round of the walk over the services: `todo` are those still to be told
      of. */
  method ServiceRound(server: Server, start: u16, left: nat, ghost cut: ServiceCut, ghost todo: seq<ServiceRange>)
    returns (over: bool, m: Option<ServiceRange>, next: nat, ghost more: seq<ServiceRange>)
    requires server.mtu >= DEFAULT_MTU && Sound(server.table) && cut.mtu == server.mtu && 1 <= start && left > 0
    requires todo == Services(server.table, start)
    modifies server
    ensures server.table == old(server.table) && server.mtu == old(server.mtu)
    ensures over ==> FoundService(todo, cut.next, left) == m && (m.Some? ==> 1 <= m.value.start)
    ensures !over ==> start < next <= 0xffff && more == Services(server.table, next)
                      && FoundService(todo, cut.next, left) == FoundService(more, cut.next, left - 1)
  {
    var told := AskServices(server, start, cut);
    if told.None? {
      return true, None, start, todo;
    }
    next := told.value[|told.value| - 1].end + 1;
    more := Services(server.table, next);
    ServiceStep(server.table, cut.next, start, left, told.value, next);
    m := PickService(told.value);
    over := m.Some?;
    if over {
      LastMatchIn(told.value, CAMERA_SERVICE);
      var i :| 0 <= i < |told.value| && told.value[i] == m.value;
      ServiceBounds(server.table, start, i);
    }
  }

  /** Ask for services from just past the last one listed, until one is the
      camera's: `todo` are the services still to be told of. */
  method FindService(server: Server, start: u16, rounds: nat, ghost cut: ServiceCut, ghost todo: seq<ServiceRange>)
    returns (f: Option<ServiceRange>)
    requires server.mtu >= DEFAULT_MTU && Sound(server.table) && cut.mtu == server.mtu && 1 <= start
    requires todo == Services(server.table, start)
    modifies server
    ensures server.table == old(server.table) && server.mtu == old(server.mtu)
    ensures f == FoundService(todo, cut.next, rounds) && (f.Some? ==> 1 <= f.value.start)
    decreases rounds
  {
    hide Sound, Services;
    if rounds == 0 {
      return None;
    }
    var over, m, next, more := ServiceRound(server, start, rounds, cut, todo);
    if over {
      return m;
    }
    f := FindService(server, next, rounds - 1, cut, more);
  }

  /** Ask for declarations from just past the last value listed. */
  method CollectChars(server: Server, cursor: nat, end: u16, rounds: nat, ghost cut: CharCut, ghost todo: seq<CharDecl>)
    returns (xs: seq<CharDecl>)
    requires server.mtu >= DEFAULT_MTU && Sound(server.table) && cut.mtu == server.mtu && 1 <= cursor
    requires todo == Declared(server.table, cursor, end)
    modifies server
    ensures server.table == old(server.table) && server.mtu == old(server.mtu)
    ensures xs == FoundChars(todo, cut.next, rounds)
    decreases rounds
  {
    if rounds == 0 {
      return [];
    }
    if cursor > end {
      NothingDeclared(server.table, cursor, end);
      return [];
    }
    var told, next, more := CharRound(server, cursor, end, rounds, cut, todo);
    if told.None? {
      return [];
    }
    var rest := CollectChars(server, next, end, rounds - 1, cut, more);
    xs := told.value + rest;
  }

  /** The client: what discovery leaves in it. */
  class Camera {
    var svcStart: nat
    var svcEnd: nat
    var chars: seq<CharDecl>
    var configs: map<nat, u16>
    var outgoing: CharHandles
    var incoming: CharHandles
    var timecode: CharHandles
    var subscribed: bool

    /** A connection has just been made. */
    constructor ()
      ensures outgoing == incoming == timecode == UNKNOWN && !subscribed && configs == map[]
    {
      svcStart, svcEnd, chars, configs := 0, 0, [], map[];
      outgoing, incoming, timecode, subscribed := UNKNOWN, UNKNOWN, UNKNOWN, false;
    }

    /** Then the configurations of the characteristics this program subscribes
        to. */
    method WalkConfigs(server: Server, ghost table: seq<Attribute>, ghost cut: InfoCut, ghost found: nat -> u16)
      requires server.mtu >= DEFAULT_MTU && server.table == table && NumberedFrom(table, 1) && cut.mtu == server.mtu
      requires configs == map[] && svcEnd <= 0xffff && found == Configs(table, cut, chars, svcEnd)
      modifies this`configs, server
      ensures server.table == table && server.mtu == old(server.mtu)
      ensures configs == ConfigMap(found, |chars|)
    {
      hide NumberedFrom, WantedConfig;
      var index, decls, end := 0, chars, svcEnd;
      while index < |decls|
        invariant index <= |decls| && server.table == table && server.mtu == old(server.mtu)
        invariant configs == ConfigMap(found, index)
      {
        var cccd := ConfigFor(server, decls, index, end, table, cut, found);
        if cccd != 0 {
          configs := configs[index := cccd];
        }
        index := index + 1;
      }
    }

    /** The handles of the three characteristics, from the declarations and the
        configurations found. */
    method FinishDiscovery() returns (ok: bool)
      modifies this`outgoing, this`incoming, this`timecode, this`configs
      ensures outgoing == Handles(chars, old(configs), OUTGOING_CONTROL, old(outgoing), |chars|)
      ensures incoming == Handles(chars, old(configs), INCOMING_CONTROL, old(incoming), |chars|)
      ensures timecode == Handles(chars, old(configs), TIMECODE, old(timecode), |chars|)
      ensures configs == map[] && ok == (outgoing.value != 0 && timecode.value != 0)
    {
      for i := 0 to |chars|
        invariant configs == old(configs)
        invariant outgoing == Handles(chars, configs, OUTGOING_CONTROL, old(outgoing), i)
        invariant incoming == Handles(chars, configs, INCOMING_CONTROL, old(incoming), i)
        invariant timecode == Handles(chars, configs, TIMECODE, old(timecode), i)
      {
        var c := chars[i];
        assert OUTGOING_CONTROL[0] != INCOMING_CONTROL[0] && INCOMING_CONTROL[0] != TIMECODE[0]
          && OUTGOING_CONTROL[0] != TIMECODE[0];
        if c.uuid == OUTGOING_CONTROL {
          outgoing := CharHandles(c.valueHandle, c.properties, if i in configs then configs[i] else outgoing.cccd);
        } else if c.uuid == INCOMING_CONTROL {
          incoming := CharHandles(c.valueHandle, c.properties, if i in configs then configs[i] else incoming.cccd);
        } else if c.uuid == TIMECODE {
          timecode := CharHandles(c.valueHandle, c.properties, if i in configs then configs[i] else timecode.cccd);
        }
      }
      configs := map[];
      ok := outgoing.value != 0 && timecode.value != 0;
    }

    /** The first half of discovery: the service and its characteristics. */
    method Locate(server: Server, ghost cut: ServiceCut, ghost cut': CharCut) returns (found: bool)
      requires server.mtu >= DEFAULT_MTU && Sound(server.table) && cut.mtu == cut'.mtu == server.mtu
      modifies this`svcStart, this`svcEnd, this`chars, server
      ensures server.table == old(server.table) && server.mtu == old(server.mtu)
      ensures var f := FoundService(Services(server.table, 1), cut.next, SERVICE_ROUNDS);
              && found == f.Some?
              && (found ==> svcStart == f.value.start && svcEnd == f.value.end && svcEnd <= 0xffff
                            && chars == FoundChars(Declared(server.table, svcStart, svcEnd), cut'.next, CHAR_ROUNDS))
    {
      svcStart, svcEnd, chars := 0, 0, [];
      var f := FindService(server, 1, SERVICE_ROUNDS, cut, Services(server.table, 1));
      if f.None? {
        return false;
      }
      svcStart, svcEnd := f.value.start, f.value.end;
      chars := CollectChars(server, svcStart, svcEnd, CHAR_ROUNDS, cut', Declared(server.table, svcStart, svcEnd));
      found := true;
    }

    /** The second half: the configurations, and with them the handles. */
    method Describe(server: Server, ghost cut: InfoCut) returns (ok: bool)
      requires server.mtu >= DEFAULT_MTU && NumberedFrom(server.table, 1) && cut.mtu == server.mtu
      requires configs == map[] && svcEnd <= 0xffff && outgoing == incoming == timecode == UNKNOWN
      modifies this`configs, this`outgoing, this`incoming, this`timecode, server
      ensures server.table == old(server.table) && server.mtu == old(server.mtu)
      ensures var found := ConfigMap(Configs(server.table, cut, chars, svcEnd), |chars|);
              && outgoing == Handles(chars, found, OUTGOING_CONTROL, UNKNOWN, |chars|)
              && incoming == Handles(chars, found, INCOMING_CONTROL, UNKNOWN, |chars|)
              && timecode == Handles(chars, found, TIMECODE, UNKNOWN, |chars|)
      ensures ok == (outgoing.value != 0 && timecode.value != 0)
    {
      WalkConfigs(server, server.table, cut, Configs(server.table, cut, chars, svcEnd));
      ok := FinishDiscovery();
    }

    /** The whole of discovery, on a fresh connection. */
    method Discover(server: Server, ghost cuts: (ServiceCut, CharCut, InfoCut)) returns (ok: bool)
      requires server.mtu >= DEFAULT_MTU && Sound(server.table)
      requires cuts.0.mtu == cuts.1.mtu == cuts.2.mtu == server.mtu
      requires configs == map[] && outgoing == incoming == timecode == UNKNOWN
      modifies this, server
      ensures server.table == old(server.table) && server.mtu == old(server.mtu) && subscribed == old(subscribed)
      ensures var f := FoundService(Services(server.table, 1), cuts.0.next, SERVICE_ROUNDS);
              if f.None? then !ok
              else
                var found := ConfigMap(Configs(server.table, cuts.2, chars, svcEnd), |chars|);
                && svcStart == f.value.start && svcEnd == f.value.end
                && chars == FoundChars(Declared(server.table, svcStart, svcEnd), cuts.1.next, CHAR_ROUNDS)
                && outgoing == Handles(chars, found, OUTGOING_CONTROL, UNKNOWN, |chars|)
                && incoming == Handles(chars, found, INCOMING_CONTROL, UNKNOWN, |chars|)
                && timecode == Handles(chars, found, TIMECODE, UNKNOWN, |chars|)
                && ok == (outgoing.value != 0 && timecode.value != 0)
    {
      hide NumberedFrom, Advances;
      var here := Locate(server, cuts.0, cuts.1);
      if !here {
        return false;
      }
      ok := Describe(server, cuts.2);
    }

    /** Turn notifications on; an error response ends the attempt. */
    method WriteCccd(server: Server, cccd: u16) returns (ok: bool)
      requires server.mtu >= DEFAULT_MTU
      modifies server
      ensures server.table == Written(old(server.table), WriteRequestPdu(cccd, NOTIFY_ON))
              && server.mtu == old(server.mtu)
      ensures ok == !IsError(Answer(old(server.table), old(server.mtu), WriteRequestPdu(cccd, NOTIFY_ON)))
    {
      WriteRead(cccd, NOTIFY_ON);
      var reply := server.HandleRequest(WriteRequestPdu(cccd, NOTIFY_ON));
      ok := !IsError(reply);
    }

    /** Subscribe to the timecode and to the incoming control stream, in this
        order, to each if it was found with a configuration. */
    method Subscribe(server: Server) returns (ok: bool)
      requires server.mtu >= DEFAULT_MTU
      modifies this`subscribed, server
      ensures server.mtu == old(server.mtu) && subscribed == (old(subscribed) || ok)
      ensures if old(subscribed) then ok && server.table == old(server.table)
              else (server.table, ok) == Subscriptions(old(server.table), server.mtu,
                                                       ToSubscribe(timecode) + ToSubscribe(incoming))
    {
      if subscribed {
        return true;
      }
      var order := ToSubscribe(timecode) + ToSubscribe(incoming);
      ghost var table, mtu := server.table, server.mtu;
      var index := 0;
      assert order[0..] == order;
      while index < |order|
        invariant index <= |order| && server.mtu == mtu && !subscribed
        invariant Subscriptions(table, mtu, order) == Subscriptions(server.table, mtu, order[index..])
      {
        assert order[index..][0] == order[index] && order[index..][1..] == order[index + 1..];
        ok := WriteCccd(server, order[index]);
        if !ok {
          return;
        }
        index := index + 1;
      }
      subscribed := true;
      ok := true;
    }

    /** Discover, then subscribe. On a table with one camera service within
        reach, the client ends up with exactly the handles the table declares
        and the server with the timecode subscribed. */
    method Acquire(server: Server, ghost cuts: (ServiceCut, CharCut, InfoCut),
                   ghost k: nat, ghost s: ServiceRange, ghost xs: seq<CharDecl>, ghost t: nat, ghost o: nat)
      returns (ok: bool)
      requires server.mtu >= DEFAULT_MTU && cuts.0.mtu == cuts.1.mtu == cuts.2.mtu == server.mtu
      requires configs == map[] && outgoing == incoming == timecode == UNKNOWN && !subscribed
      requires Acquirable(server.table, cuts.0, cuts.1, k, s, xs, t, o)
      modifies this, server
      ensures ok && subscribed && server.mtu == old(server.mtu)
      ensures svcStart == s.start && svcEnd == s.end && chars == xs
      ensures outgoing.value == xs[o].valueHandle
      ensures timecode == CharHandles(xs[t].valueHandle, xs[t].properties,
                                      FirstConfig(Descriptors(old(server.table), xs, t, s.end)))
      ensures Subscribed(server.table, timecode.value)
    {
      hide Handles, ConfigMap, Configs, Subscriptions, ToSubscribe, Subscribed, Sound, Services, Declared, Acquirable;
      hide FoundService, FoundChars, FirstConfig, Descriptors;
      AcquireMeets(server.table, server.mtu, cuts, k, s, xs, t, o);
      ok := Discover(server, cuts);
      ok := Subscribe(server);
    }
  }

  /** A table on which discovery and subscribing can succeed: its one camera
      service is within reach, and declares the outgoing control once and the
      timecode once, notifying, with a configuration. */
  ghost predicate Acquirable(table: seq<Attribute>, cut: ServiceCut, cut': CharCut, k: nat, s: ServiceRange,
                             xs: seq<CharDecl>,
                             t: nat, o: nat) {
    && Discoverable(table, cut, cut', k, s, xs)
    && DeclaredOnce(xs, OUTGOING_CONTROL, o) && |Descriptors(table, xs, o, s.end)| <= CONFIG_ROUNDS
    && DeclaredOnce(xs, TIMECODE, t) && Notifies(xs[t].properties)
    && |Descriptors(table, xs, t, s.end)| <= CONFIG_ROUNDS && FirstConfig(Descriptors(table, xs, t, s.end)) != 0
  }

  /** What discovery and then subscribing make of such a table. */
  lemma AcquireMeets(table: seq<Attribute>, mtu: nat, cuts: (ServiceCut, CharCut, InfoCut), k: nat, s: ServiceRange,
                     xs: seq<CharDecl>, t: nat, o: nat)
    requires mtu >= DEFAULT_MTU && Acquirable(table, cuts.0, cuts.1, k, s, xs, t, o)
    ensures Sound(table) && o < |xs| && t < |xs| && xs[o].valueHandle != 0 && xs[t].valueHandle != 0
    ensures FoundService(Services(table, 1), cuts.0.next, SERVICE_ROUNDS) == Some(s)
    ensures FoundChars(Declared(table, s.start, s.end), cuts.1.next, CHAR_ROUNDS) == xs
    ensures var found := ConfigMap(Configs(table, cuts.2, xs, s.end), |xs|);
            var timecode := Handles(xs, found, TIMECODE, UNKNOWN, |xs|);
            var incoming := Handles(xs, found, INCOMING_CONTROL, UNKNOWN, |xs|);
            var done := Subscriptions(table, mtu, ToSubscribe(timecode) + ToSubscribe(incoming));
            && Handles(xs, found, OUTGOING_CONTROL, UNKNOWN, |xs|).value == xs[o].valueHandle
            && timecode == CharHandles(xs[t].valueHandle, xs[t].properties,
                                       FirstConfig(Descriptors(table, xs, t, s.end)))
            && done.1 && Subscribed(done.0, timecode.value)
  {
    hide Handles, ConfigMap, Configs, Subscriptions, ToSubscribe, Subscribed, Sound, Services, Declared;
    hide FoundService, FoundChars, FirstConfig, Descriptors, NumberedFrom;
    FindsEverything(table, cuts.0, cuts.1, k, s, xs);
    SoundIsNumbered(table);
    DeclaredAt(table, s.start, s.end, o);
    DeclaredAt(table, s.start, s.end, t);
    HandlesAreExact(table, cuts.2, s, xs, OUTGOING_CONTROL, o);
    ReadyToSubscribe(table, mtu, cuts.2, k, s, xs, t);
  }

  lemma SoundIsNumbered(table: seq<Attribute>)
    requires Sound(table)
    ensures NumberedFrom(table, 1)
  {
  }
}
