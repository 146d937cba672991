/** The attribute server (src/att.cc): the table a builder lays out, the answer
    to every request, and what the answers are guaranteed to be. Sections 3.4
    of Vol 3 Part F and 4 of Vol 3 Part G of the Bluetooth Core Specification. */
module AttServer {
  import opened Bytes
  import opened Wrappers
  import opened Gatt

  const DEFAULT_MTU := 23
  /** What the server offers in an MTU exchange. */
  const OWN_MTU := 247

  const INVALID_HANDLE := 0x01
  const READ_NOT_PERMITTED := 0x02
  const WRITE_NOT_PERMITTED := 0x03
  const INVALID_PDU := 0x04
  const REQUEST_NOT_SUPPORTED := 0x06
  const INVALID_OFFSET := 0x07
  const ATTRIBUTE_NOT_FOUND := 0x0a
  const UNSUPPORTED_GROUP_TYPE := 0x10

  // ---------------------------------------------------- looking up the table

  /** The attributes of a range, of one kind or of any. */
  function Select(table: seq<Attribute>, lo: nat, hi: nat, kind: Option<Uuid>): seq<Attribute> {
    if table == [] then []
    else (if Picked(table[0], lo, hi, kind) then [table[0]] else []) + Select(table[1..], lo, hi, kind)
  }

  predicate Picked(a: Attribute, lo: nat, hi: nat, kind: Option<Uuid>) {
    lo <= a.handle <= hi && (kind.None? || a.kind == kind.value)
  }

  /** How one attribute appears in a response, given those after it. */
  type Row = (Attribute, seq<Attribute>) -> seq<byte>

  /** What all attributes picked give, in order. */
  function Rows<T>(table: seq<Attribute>, lo: nat, hi: nat, kind: Option<Uuid>,
                   row: (Attribute, seq<Attribute>) -> T): seq<T>
  {
    if table == [] then []
    else (if Picked(table[0], lo, hi, kind) then [row(table[0], table[1..])] else [])
         + Rows(table[1..], lo, hi, kind, row)
  }

  function InfoRow(): Row {
    (a: Attribute, after: seq<Attribute>) => InfoEntry(HandleUuid(a.handle, a.kind))
  }

  function ValueRow(): Row {
    (a: Attribute, after: seq<Attribute>) => Put16(a.handle) + a.value
  }

  function RangeRow(): Row {
    (a: Attribute, after: seq<Attribute>) => Put16(a.handle) + Put16(GroupEnd(after, a.handle))
  }

  function GroupRow(): Row {
    (a: Attribute, after: seq<Attribute>) => Put16(a.handle) + Put16(GroupEnd(after, a.handle)) + a.value
  }

  /** A group runs to the last attribute before the next service. */
  function GroupEnd(after: seq<Attribute>, last: u16): u16 {
    if after == [] || IsServiceDecl(after[0].kind) then last else GroupEnd(after[1..], after[0].handle)
  }

  function FirstUnreadable(items: seq<Attribute>): Option<u16> {
    if items == [] then None
    else if !items[0].readable then Some(items[0].handle)
    else FirstUnreadable(items[1..])
  }

  /** The index of the attribute with a handle, or the length of the table. */
  function Find(table: seq<Attribute>, handle: nat): (i: nat)
    ensures i <= |table|
    ensures i < |table| ==> table[i].handle == handle
    ensures forall j :: 0 <= j < i ==> table[j].handle != handle
  {
    if table == [] || table[0].handle == handle then 0 else 1 + Find(table[1..], handle)
  }

  // -------------------------------------------------------------- the answers

  function Error(op: byte, handle: u16, code: byte): (r: seq<byte>)
    ensures |r| == 5 && r[0] == ERROR_RESPONSE && r[1] == op && r[4] == code
  {
    [ERROR_RESPONSE, op] + Put16(handle) + [code]
  }

  function Min(a: int, b: int): int {
    if a < b then a else b
  }

  /** A list response: its opcode, the length of its entries, and as many of
      them as fit. */
  function ListReply(op: byte, format: byte, rows: seq<seq<byte>>, mtu: nat): seq<byte> {
    [op, format] + Flatten(rows[..Batch(rows, mtu)])
  }

  function AnswerInformation(table: seq<Attribute>, mtu: nat, pdu: seq<byte>): seq<byte>
    requires |pdu| >= 1
  {
    if |pdu| < 5 then Error(pdu[0], 0, INVALID_PDU)
    else
      var start, end := Get16(pdu[1..]), Get16(pdu[3..]);
      if start == 0 || start > end then Error(pdu[0], start, INVALID_HANDLE)
      else
        var rows := Rows(table, start, end, None, InfoRow());
        if rows == [] then Error(pdu[0], start, ATTRIBUTE_NOT_FOUND)
        else ListReply(FIND_INFORMATION_RESPONSE, if |rows[0]| == 4 then 1 else 2, rows, mtu)
  }

  /** The attributes of a service list that hold a value. */
  function Holding(table: seq<Attribute>, start: u16, end: u16, kind: Uuid, value: seq<byte>): seq<seq<byte>> {
    if table == [] then []
    else
      (if Picked(table[0], start, end, Some(kind)) && table[0].value == value then [RangeRow()(table[0], table[1..])]
       else [])
      + Holding(table[1..], start, end, kind, value)
  }

  function AnswerTypeValue(table: seq<Attribute>, mtu: nat, pdu: seq<byte>): seq<byte>
    requires |pdu| >= 1
  {
    if |pdu| < 7 then Error(pdu[0], 0, INVALID_PDU)
    else
      var start, end := Get16(pdu[1..]), Get16(pdu[3..]);
      if start == 0 || start > end then Error(pdu[0], start, INVALID_HANDLE)
      else
        var rows := Holding(table, start, end, FromShort(Get16(pdu[5..])), pdu[7..]);
        var n := Fitting(rows, 4, mtu - 1);
        if n == 0 then Error(pdu[0], start, ATTRIBUTE_NOT_FOUND)
        else [FIND_BY_TYPE_VALUE_REQUEST + 1] + Flatten(rows[..n])
  }

  function AnswerGroup(table: seq<Attribute>, mtu: nat, pdu: seq<byte>): seq<byte>
    requires |pdu| >= 1
  {
    if |pdu| < 7 then Error(pdu[0], 0, INVALID_PDU)
    else
      var start, end, kind := Get16(pdu[1..]), Get16(pdu[3..]), FromLe(pdu[5..]);
      if kind.None? then Error(pdu[0], start, INVALID_PDU)
      else if start == 0 || start > end then Error(pdu[0], start, INVALID_HANDLE)
      else if !IsServiceDecl(kind.value) then Error(pdu[0], start, UNSUPPORTED_GROUP_TYPE)
      else
        var rows := Rows(table, start, end, kind, GroupRow());
        if rows == [] then Error(pdu[0], start, ATTRIBUTE_NOT_FOUND)
        else ListReply(READ_BY_GROUP_TYPE_RESPONSE, |rows[0]| % 256, rows, mtu)
  }

  /** The attributes a response looks at: one more than it holds. */
  function Looked(table: seq<Attribute>, mtu: nat, start: u16, end: u16, kind: Option<Uuid>, row: Row): seq<Attribute> {
    var items := Select(table, start, end, kind);
    items[..Min(Batch(Rows(table, start, end, kind, row), mtu) + 1, |items|)]
  }

  function AnswerType(table: seq<Attribute>, mtu: nat, pdu: seq<byte>): seq<byte>
    requires |pdu| >= 1
  {
    if |pdu| < 7 then Error(pdu[0], 0, INVALID_PDU)
    else
      var start, end, kind := Get16(pdu[1..]), Get16(pdu[3..]), FromLe(pdu[5..]);
      if kind.None? then Error(pdu[0], start, INVALID_PDU)
      else if start == 0 || start > end then Error(pdu[0], start, INVALID_HANDLE)
      else
        var rows := Rows(table, start, end, kind, ValueRow());
        var denied := FirstUnreadable(Looked(table, mtu, start, end, kind, ValueRow()));
        if denied.Some? then Error(pdu[0], denied.value, READ_NOT_PERMITTED)
        else if rows == [] then Error(pdu[0], start, ATTRIBUTE_NOT_FOUND)
        else ListReply(READ_BY_TYPE_RESPONSE, |rows[0]| % 256, rows, mtu)
  }

  function AnswerRead(table: seq<Attribute>, mtu: nat, pdu: seq<byte>): seq<byte>
    requires |pdu| >= 1 && mtu >= 1
  {
    if |pdu| < 3 then Error(pdu[0], 0, INVALID_PDU)
    else
      var handle := Get16(pdu[1..]);
      var i := Find(table, handle);
      if i == |table| then Error(pdu[0], handle, INVALID_HANDLE)
      else if !table[i].readable then Error(pdu[0], handle, READ_NOT_PERMITTED)
      else [READ_REQUEST + 1] + table[i].value[..Min(mtu - 1, |table[i].value|)]
  }

  function AnswerBlob(table: seq<Attribute>, mtu: nat, pdu: seq<byte>): seq<byte>
    requires |pdu| >= 1 && mtu >= 1
  {
    if |pdu| < 5 then Error(pdu[0], 0, INVALID_PDU)
    else
      var handle, offset := Get16(pdu[1..]), Get16(pdu[3..]);
      var i := Find(table, handle);
      if i == |table| then Error(pdu[0], handle, INVALID_HANDLE)
      else if !table[i].readable then Error(pdu[0], handle, READ_NOT_PERMITTED)
      else if offset > |table[i].value| then Error(pdu[0], handle, INVALID_OFFSET)
      else [READ_BLOB_REQUEST + 1] + table[i].value[offset..offset + Min(mtu - 1, |table[i].value| - offset)]
  }

  /** Only a request is answered; a command is not, not even with an error. */
  function AnswerWrite(table: seq<Attribute>, pdu: seq<byte>): seq<byte>
    requires |pdu| >= 1
  {
    if pdu[0] == WRITE_COMMAND then []
    else if |pdu| < 3 then Error(pdu[0], 0, INVALID_PDU)
    else
      var handle := Get16(pdu[1..]);
      var i := Find(table, handle);
      if i == |table| then Error(pdu[0], handle, INVALID_HANDLE)
      else if !table[i].writable then Error(pdu[0], handle, WRITE_NOT_PERMITTED)
      else [WRITE_RESPONSE]
  }

  function Answer(table: seq<Attribute>, mtu: nat, pdu: seq<byte>): seq<byte>
    requires mtu >= DEFAULT_MTU
  {
    if pdu == [] then []
    else
      var op := pdu[0];
      if op == EXCHANGE_MTU_REQUEST then
        if |pdu| < 3 then Error(op, 0, INVALID_PDU) else [EXCHANGE_MTU_RESPONSE] + Put16(OWN_MTU)
      else if op == FIND_INFORMATION_REQUEST then AnswerInformation(table, mtu, pdu)
      else if op == FIND_BY_TYPE_VALUE_REQUEST then AnswerTypeValue(table, mtu, pdu)
      else if op == READ_BY_GROUP_TYPE_REQUEST then AnswerGroup(table, mtu, pdu)
      else if op == READ_BY_TYPE_REQUEST then AnswerType(table, mtu, pdu)
      else if op == READ_REQUEST then AnswerRead(table, mtu, pdu)
      else if op == READ_BLOB_REQUEST then AnswerBlob(table, mtu, pdu)
      else if op == WRITE_REQUEST || op == WRITE_COMMAND then AnswerWrite(table, pdu)
      else if op == CONFIRMATION then []
      else Error(op, 0, REQUEST_NOT_SUPPORTED)
  }

  /** The MTU a request leaves agreed: the smaller offer, but never below the
      default. */
  function Agreed(mtu: nat, pdu: seq<byte>): nat {
    if |pdu| >= 3 && pdu[0] == EXCHANGE_MTU_REQUEST then
      var peer := Get16(pdu[1..]);
      if Min(peer, OWN_MTU) < DEFAULT_MTU then DEFAULT_MTU else Min(peer, OWN_MTU)
    else mtu
  }

  predicate Writes(table: seq<Attribute>, pdu: seq<byte>) {
    |pdu| >= 3 && (pdu[0] == WRITE_REQUEST || pdu[0] == WRITE_COMMAND)
    && Find(table, Get16(pdu[1..])) < |table| && table[Find(table, Get16(pdu[1..]))].writable
  }

  function Written(table: seq<Attribute>, pdu: seq<byte>): seq<Attribute> {
    if Writes(table, pdu) then
      var i := Find(table, Get16(pdu[1..]));
      table[i := table[i].(value := pdu[3..])]
    else table
  }

  // --------------------------------------------- what every answer is like

  /** How a Link tells the answer to its request from anything else that
      arrives (src/hcilink.cc:682-694). */
  predicate Answers(op: byte, reply: seq<byte>) {
    && reply != []
    && (reply[0] == (op + 1) % 256 || (reply[0] == ERROR_RESPONSE && |reply| >= 2 && reply[1] == op))
  }

  lemma {:induction false} FlattenFits(rows: seq<seq<byte>>, n: nat, width: nat)
    requires n <= |rows| && forall i :: 0 <= i < n ==> |rows[i]| == width
    ensures |Flatten(rows[..n])| == width * n
  {
    if n > 0 {
      FlattenFits(rows[1..], n - 1, width);
      assert rows[..n][1..] == rows[1..][..n - 1];
    }
  }

  lemma ListReplyFits(op: byte, format: byte, rows: seq<seq<byte>>, mtu: nat)
    requires mtu >= 2
    ensures |ListReply(op, format, rows, mtu)| <= mtu
  {
    if rows != [] {
      FittingBound(rows, |rows[0]|, mtu - 2);
      FlattenFits(rows, Batch(rows, mtu), |rows[0]|);
    }
  }

  lemma InformationFits(table: seq<Attribute>, mtu: nat, pdu: seq<byte>)
    requires mtu >= DEFAULT_MTU && pdu != []
    ensures |AnswerInformation(table, mtu, pdu)| <= mtu
  {
    if |pdu| >= 5 {
      var rows := Rows(table, Get16(pdu[1..]), Get16(pdu[3..]), None, InfoRow());
      if rows != [] {
        ListReplyFits(FIND_INFORMATION_RESPONSE, if |rows[0]| == 4 then 1 else 2, rows, mtu);
      }
    }
  }

  lemma GroupFits(table: seq<Attribute>, mtu: nat, pdu: seq<byte>)
    requires mtu >= DEFAULT_MTU && pdu != []
    ensures |AnswerGroup(table, mtu, pdu)| <= mtu
  {
    if |pdu| >= 7 {
      var rows := Rows(table, Get16(pdu[1..]), Get16(pdu[3..]), FromLe(pdu[5..]), GroupRow());
      if rows != [] {
        ListReplyFits(READ_BY_GROUP_TYPE_RESPONSE, |rows[0]| % 256, rows, mtu);
      }
    }
  }

  lemma TypeFits(table: seq<Attribute>, mtu: nat, pdu: seq<byte>)
    requires mtu >= DEFAULT_MTU && pdu != []
    ensures |AnswerType(table, mtu, pdu)| <= mtu
  {
    if |pdu| >= 7 {
      var rows := Rows(table, Get16(pdu[1..]), Get16(pdu[3..]), FromLe(pdu[5..]), ValueRow());
      if rows != [] {
        ListReplyFits(READ_BY_TYPE_RESPONSE, |rows[0]| % 256, rows, mtu);
      }
    }
  }

  lemma TypeValueFits(table: seq<Attribute>, mtu: nat, pdu: seq<byte>)
    requires mtu >= DEFAULT_MTU && pdu != []
    ensures |AnswerTypeValue(table, mtu, pdu)| <= mtu
  {
    if |pdu| >= 7 {
      var rows := Holding(table, Get16(pdu[1..]), Get16(pdu[3..]), FromShort(Get16(pdu[5..])), pdu[7..]);
      FittingBound(rows, 4, mtu - 1);
      FlattenFits(rows, Fitting(rows, 4, mtu - 1), 4);
    }
  }

  /** Every answer fits the agreed MTU, which is never below the default. */
  lemma EveryAnswerFits(table: seq<Attribute>, mtu: nat, pdu: seq<byte>)
    requires mtu >= DEFAULT_MTU && pdu != []
    ensures |Answer(table, mtu, pdu)| <= mtu && Agreed(mtu, pdu) >= DEFAULT_MTU
  {
    InformationFits(table, mtu, pdu);
    GroupFits(table, mtu, pdu);
    TypeFits(table, mtu, pdu);
    TypeValueFits(table, mtu, pdu);
  }

  /** Every request is answered, with an answer the Link takes for its own; only
      commands and confirmations are met with silence. */
  lemma EveryAnswerMatches(table: seq<Attribute>, mtu: nat, pdu: seq<byte>)
    requires mtu >= DEFAULT_MTU && pdu != []
    ensures if pdu[0] == WRITE_COMMAND || pdu[0] == CONFIRMATION then Answer(table, mtu, pdu) == []
            else Answers(pdu[0], Answer(table, mtu, pdu))
  {
    hide Error;
    var op := pdu[0];
    if op == FIND_INFORMATION_REQUEST {
      assert Answers(op, AnswerInformation(table, mtu, pdu));
    } else if op == READ_BY_GROUP_TYPE_REQUEST {
      assert Answers(op, AnswerGroup(table, mtu, pdu));
    } else if op == READ_BY_TYPE_REQUEST {
      assert Answers(op, AnswerType(table, mtu, pdu));
    }
  }

  // ------------------------------------------------------- subscriptions

  predicate EndsCharacteristic(a: Attribute) {
    a.kind == FromShort(CHARACTERISTIC) || IsServiceDecl(a.kind)
  }

  /** Whether notifications are on in the first client configuration after a
      value and before the next declaration. */
  predicate ConfiguredAfter(after: seq<Attribute>, valueHandle: u16) {
    if after == [] then false
    else if after[0].handle == valueHandle then ConfiguredAfter(after[1..], valueHandle)
    else if EndsCharacteristic(after[0]) then false
    else if after[0].kind == FromShort(CLIENT_CONFIG) then |after[0].value| >= 2 && after[0].value[0] % 4 != 0
    else ConfiguredAfter(after[1..], valueHandle)
  }

  predicate Subscribed(table: seq<Attribute>, valueHandle: u16) {
    var i := Find(table, valueHandle);
    i < |table| && ConfiguredAfter(table[i + 1..], valueHandle)
  }

  function Notification(table: seq<Attribute>, mtu: nat, valueHandle: u16, value: seq<byte>): seq<byte>
    requires mtu >= DEFAULT_MTU
  {
    if Subscribed(table, valueHandle) then [NOTIFICATION] + Put16(valueHandle) + value[..Min(mtu - 3, |value|)] else []
  }

  // -------------------------------------------------------------- the server

  /** What a loop over the table has gathered when it stops. */
  datatype Gathered = Denied(handle: u16) | Nothing | List(width: nat, body: seq<byte>)

  function Gathering(table: seq<Attribute>, mtu: nat, lo: u16, hi: u16, kind: Option<Uuid>, row: Row,
                     checked: bool): Gathered
  {
    var rows := Rows(table, lo, hi, kind, row);
    var denied := FirstUnreadable(Looked(table, mtu, lo, hi, kind, row));
    if checked && denied.Some? then Denied(denied.value)
    else if rows == [] then Nothing
    else List(|rows[0]|, Flatten(rows[..Batch(rows, mtu)]))
  }

  lemma {:induction false} ReadableSoFar(seen: seq<Attribute>, rest: seq<Attribute>)
    requires forall a :: a in seen ==> a.readable
    ensures FirstUnreadable(seen + rest) == FirstUnreadable(rest)
  {
    if seen == [] {
      assert seen + rest == rest;
    } else {
      assert (seen + rest)[1..] == seen[1..] + rest;
      ReadableSoFar(seen[1..], rest);
    }
  }

  /** The state of the gathering loop before row `i`: `taken` are the entries
      put into the response, `seen` the attributes they come from. */
  ghost predicate Progress(table: seq<Attribute>, i: nat, lo: u16, hi: u16, kind: Option<Uuid>, row: Row,
                           seen: seq<Attribute>, taken: seq<seq<byte>>)
    requires i <= |table|
  {
    && Rows(table, lo, hi, kind, row) == taken + Rows(table[i..], lo, hi, kind, row)
    && Select(table, lo, hi, kind) == seen + Select(table[i..], lo, hi, kind)
    && |seen| == |taken|
  }

  lemma ProgressSkip(table: seq<Attribute>, i: nat, lo: u16, hi: u16, kind: Option<Uuid>, row: Row,
                     seen: seq<Attribute>, taken: seq<seq<byte>>)
    requires i < |table| && Progress(table, i, lo, hi, kind, row, seen, taken) && !Picked(table[i], lo, hi, kind)
    ensures Progress(table, i + 1, lo, hi, kind, row, seen, taken)
  {
    assert table[i..][1..] == table[i + 1..];
    assert [] + Rows(table[i + 1..], lo, hi, kind, row) == Rows(table[i + 1..], lo, hi, kind, row);
    assert [] + Select(table[i + 1..], lo, hi, kind) == Select(table[i + 1..], lo, hi, kind);
  }

  lemma ProgressPick(table: seq<Attribute>, i: nat, lo: u16, hi: u16, kind: Option<Uuid>, row: Row,
                     seen: seq<Attribute>, taken: seq<seq<byte>>)
    requires i < |table| && Progress(table, i, lo, hi, kind, row, seen, taken) && Picked(table[i], lo, hi, kind)
    ensures Rows(table[i..], lo, hi, kind, row) != [] && Rows(table[i..], lo, hi, kind, row)[0] ==
            row(table[i], table[i + 1..])
    ensures Select(table[i..], lo, hi, kind) != [] && Select(table[i..], lo, hi, kind)[0] == table[i]
    ensures Progress(table, i + 1, lo, hi, kind, row, seen + [table[i]], taken + [row(table[i], table[i + 1..])])
  {
    assert table[i..][1..] == table[i + 1..] && table[i..][0] == table[i];
    Regroup(taken, [row(table[i], table[i + 1..])], Rows(table[i + 1..], lo, hi, kind, row));
    Regroup(seen, [table[i]], Select(table[i + 1..], lo, hi, kind));
  }

  lemma LookedReadable(table: seq<Attribute>, mtu: nat, i: nat, lo: u16, hi: u16, kind: Option<Uuid>, row: Row,
                       seen: seq<Attribute>, taken: seq<seq<byte>>)
    requires i <= |table| && Progress(table, i, lo, hi, kind, row, seen, taken)
    requires Batch(Rows(table, lo, hi, kind, row), mtu) == |taken|
    requires forall a :: a in seen ==> a.readable
    requires var rest := Select(table[i..], lo, hi, kind); rest != [] ==> rest[0].readable
    ensures FirstUnreadable(Looked(table, mtu, lo, hi, kind, row)) == None
  {
    var after := Select(table[i..], lo, hi, kind);
    var looked := Looked(table, mtu, lo, hi, kind, row);
    var more := if after == [] then [] else [after[0]];
    assert looked == seen + more;
    ReadableSoFar(seen, more);
  }

  /** The loop has stopped, at the end or at an entry that does not fit. */
  lemma Stopped(table: seq<Attribute>, mtu: nat, i: nat, lo: u16, hi: u16, kind: Option<Uuid>, row: Row, checked: bool,
                seen: seq<Attribute>, taken: seq<seq<byte>>, width: nat)
    requires i <= |table| && Progress(table, i, lo, hi, kind, row, seen, taken)
    requires forall k :: 0 <= k < |taken| ==> |taken[k]| == width
    requires width * |taken| <= mtu - 2
    requires checked ==> forall a :: a in seen ==> a.readable
    requires var rest := Select(table[i..], lo, hi, kind); checked && rest != [] ==> rest[0].readable
    requires var rest := Rows(table[i..], lo, hi, kind, row);
             if rest == [] then true
             else if taken == [] then |rest[0]| == width && width > mtu - 2
             else |rest[0]| != width || width * (|taken| + 1) > mtu - 2
    ensures Gathering(table, mtu, lo, hi, kind, row, checked) ==
            if taken == [] && Rows(table[i..], lo, hi, kind, row) == [] then Nothing else List(width, Flatten(taken))
  {
    var rest := Rows(table[i..], lo, hi, kind, row);
    var rows := taken + rest;
    if rows != [] {
      FittingPrefix(taken, rest, width, mtu - 2);
      assert rows[..|taken|] == taken;
    }
    if checked {
      LookedReadable(table, mtu, i, lo, hi, kind, row, seen, taken);
    }
  }

  lemma Refused(table: seq<Attribute>, mtu: nat, i: nat, lo: u16, hi: u16, kind: Option<Uuid>, row: Row,
                seen: seq<Attribute>, taken: seq<seq<byte>>, width: nat)
    requires i < |table| && Progress(table, i, lo, hi, kind, row, seen, taken)
    requires Picked(table[i], lo, hi, kind) && !table[i].readable
    requires forall k :: 0 <= k < |taken| ==> |taken[k]| == width
    requires width * |taken| <= mtu - 2
    requires forall a :: a in seen ==> a.readable
    ensures Gathering(table, mtu, lo, hi, kind, row, true) == Denied(table[i].handle)
  {
    ProgressPick(table, i, lo, hi, kind, row, seen, taken);
    var rest := Rows(table[i..], lo, hi, kind, row);
    var rows := taken + rest;
    AtLeast(taken, rest, width, mtu - 2);
    var after := Select(table[i..], lo, hi, kind);
    var looked := Looked(table, mtu, lo, hi, kind, row);
    assert looked == seen + after[..|looked| - |seen|];
    ReadableSoFar(seen, after[..|looked| - |seen|]);
  }

  lemma {:induction false} AtLeast(taken: seq<seq<byte>>, rest: seq<seq<byte>>, width: nat, room: int)
    requires forall i :: 0 <= i < |taken| ==> |taken[i]| == width
    requires width * |taken| <= room
    ensures Fitting(taken + rest, width, room) >= |taken|
  {
    if taken != [] {
      assert (taken + rest)[1..] == taken[1..] + rest;
      AtLeast(taken[1..], rest, width, room - width);
    }
  }

  lemma TakeEntry(taken: seq<seq<byte>>, entry: seq<byte>, width: nat)
    requires |entry| == width && |Flatten(taken)| == width * |taken|
    ensures Flatten(taken + [entry]) == Flatten(taken) + entry
    ensures |Flatten(taken + [entry])| == width * |taken + [entry]| == |Flatten(taken)| + width
  {
    FlattenAppend(taken, [entry]);
    FlattenOne(entry);
  }

  class Server {
    var table: seq<Attribute>
    var mtu: nat

    constructor (attributes: seq<Attribute>)
      ensures table == attributes && mtu == DEFAULT_MTU
    {
      table, mtu := attributes, DEFAULT_MTU;
    }

    /** The loop shared by the three list responses: entries of one width, until
        one differs, does not fit, or may not be read. */
    method Gather(lo: u16, hi: u16, kind: Option<Uuid>, row: Row, checked: bool) returns (g: Gathered)
      requires mtu >= DEFAULT_MTU
      ensures g == Gathering(table, mtu, lo, hi, kind, row, checked)
    {
      hide Looked;
      var width: nat, body: seq<byte> := 0, [];
      ghost var seen: seq<Attribute>, taken: seq<seq<byte>> := [], [];
      var any := false;
      var i := 0;
      assert table[0..] == table;
      while i < |table|
        invariant i <= |table| && Progress(table, i, lo, hi, kind, row, seen, taken)
        invariant any == (taken != [])
        invariant forall k :: 0 <= k < |taken| ==> |taken[k]| == width
        invariant body == Flatten(taken) && |body| == width * |taken| <= mtu - 2
        invariant checked ==> forall a :: a in seen ==> a.readable
      {
        if Picked(table[i], lo, hi, kind) {
          ProgressPick(table, i, lo, hi, kind, row, seen, taken);
          if checked && !table[i].readable {
            Refused(table, mtu, i, lo, hi, kind, row, seen, taken, width);
            return Denied(table[i].handle);
          }
          var entry := row(table[i], table[i + 1..]);
          if !any {
            width := |entry|;
          }
          if |entry| != width || |body| + width > mtu - 2 {
            Stopped(table, mtu, i, lo, hi, kind, row, checked, seen, taken, width);
            return List(width, body);
          }
          TakeEntry(taken, entry, width);
          any, body, taken, seen := true, body + entry, taken + [entry], seen + [table[i]];
        } else {
          ProgressSkip(table, i, lo, hi, kind, row, seen, taken);
        }
        i := i + 1;
      }
      assert table[i..] == [];
      Stopped(table, mtu, i, lo, hi, kind, row, checked, seen, taken, width);
      return if any then List(width, body) else Nothing;
    }

    method FindHandle(handle: nat) returns (i: nat)
      ensures i == Find(table, handle)
    {
      i := 0;
      while i < |table| && table[i].handle != handle
        invariant i <= |table| && forall j :: 0 <= j < i ==> table[j].handle != handle
      {
        i := i + 1;
      }
    }

    method FindInformation(pdu: seq<byte>) returns (reply: seq<byte>)
      requires mtu >= DEFAULT_MTU && |pdu| >= 1
      ensures reply == AnswerInformation(table, mtu, pdu)
    {
      if |pdu| < 5 {
        return Error(pdu[0], 0, INVALID_PDU);
      }
      var start, end := Get16(pdu[1..]), Get16(pdu[3..]);
      if start == 0 || start > end {
        return Error(pdu[0], start, INVALID_HANDLE);
      }
      var g := Gather(start, end, None, InfoRow(), false);
      if g.List? {
        reply := [FIND_INFORMATION_RESPONSE, if g.width == 4 then 1 else 2] + g.body;
      } else {
        reply := Error(pdu[0], start, ATTRIBUTE_NOT_FOUND);
      }
    }

    /** The loop of Find By Type Value. */
    method GatherHolding(start: u16, end: u16, kind: Uuid, value: seq<byte>) returns (body: seq<byte>)
      requires mtu >= DEFAULT_MTU
      ensures var rows := Holding(table, start, end, kind, value);
              var n := Fitting(rows, 4, mtu - 1);
              body == Flatten(rows[..n]) && (body == [] <==> n == 0)
    {
      hide Put16, GroupEnd, Fitting, Picked;
      body := [];
      ghost var taken: seq<seq<byte>> := [];
      ghost var rows := Holding(table, start, end, kind, value);
      var i := 0;
      assert table[0..] == table;
      while i < |table|
        invariant i <= |table| && rows == taken + Holding(table[i..], start, end, kind, value)
        invariant forall k :: 0 <= k < |taken| ==> |taken[k]| == 4
        invariant body == Flatten(taken) && |body| == 4 * |taken| <= mtu - 1
      {
        ghost var rest := Holding(table[i + 1..], start, end, kind, value);
        assert table[i..][1..] == table[i + 1..] && table[i..][0] == table[i];
        if Picked(table[i], start, end, Some(kind)) && table[i].value == value {
          var entry := RangeRow()(table[i], table[i + 1..]);
          assert Holding(table[i..], start, end, kind, value) == [entry] + rest;
          if 1 + |body| + 4 > mtu {
            break;
          }
          TakeEntry(taken, entry, 4);
          Regroup(taken, [entry], rest);
          body, taken := body + entry, taken + [entry];
        } else {
          assert Holding(table[i..], start, end, kind, value) == rest;
        }
        i := i + 1;
      }
      FittingPrefix(taken, Holding(table[i..], start, end, kind, value), 4, mtu - 1);
      assert rows[..|taken|] == taken;
    }

    method FindByTypeValue(pdu: seq<byte>) returns (reply: seq<byte>)
      requires mtu >= DEFAULT_MTU && |pdu| >= 1
      ensures reply == AnswerTypeValue(table, mtu, pdu)
    {
      if |pdu| < 7 {
        return Error(pdu[0], 0, INVALID_PDU);
      }
      var start, end, kind, value := Get16(pdu[1..]), Get16(pdu[3..]), FromShort(Get16(pdu[5..])), pdu[7..];
      if start == 0 || start > end {
        return Error(pdu[0], start, INVALID_HANDLE);
      }
      var body := GatherHolding(start, end, kind, value);
      reply := if body == [] then Error(pdu[0], start, ATTRIBUTE_NOT_FOUND)
        else [FIND_BY_TYPE_VALUE_REQUEST + 1] + body;
    }

    method ReadByGroup(pdu: seq<byte>) returns (reply: seq<byte>)
      requires mtu >= DEFAULT_MTU && |pdu| >= 1
      ensures reply == AnswerGroup(table, mtu, pdu)
    {
      if |pdu| < 7 {
        return Error(pdu[0], 0, INVALID_PDU);
      }
      var start, end, kind := Get16(pdu[1..]), Get16(pdu[3..]), FromLe(pdu[5..]);
      if kind.None? {
        return Error(pdu[0], start, INVALID_PDU);
      }
      if start == 0 || start > end {
        return Error(pdu[0], start, INVALID_HANDLE);
      }
      if !IsServiceDecl(kind.value) {
        return Error(pdu[0], start, UNSUPPORTED_GROUP_TYPE);
      }
      var g := Gather(start, end, kind, GroupRow(), false);
      if g.List? {
        reply := [READ_BY_GROUP_TYPE_RESPONSE, g.width % 256] + g.body;
      } else {
        reply := Error(pdu[0], start, ATTRIBUTE_NOT_FOUND);
      }
    }

    method ReadByType(pdu: seq<byte>) returns (reply: seq<byte>)
      requires mtu >= DEFAULT_MTU && |pdu| >= 1
      ensures reply == AnswerType(table, mtu, pdu)
    {
      if |pdu| < 7 {
        return Error(pdu[0], 0, INVALID_PDU);
      }
      var start, end, kind := Get16(pdu[1..]), Get16(pdu[3..]), FromLe(pdu[5..]);
      if kind.None? {
        return Error(pdu[0], start, INVALID_PDU);
      }
      if start == 0 || start > end {
        return Error(pdu[0], start, INVALID_HANDLE);
      }
      var g := Gather(start, end, kind, ValueRow(), true);
      match g
      case Denied(handle) => reply := Error(pdu[0], handle, READ_NOT_PERMITTED);
      case List(width, body) => reply := [READ_BY_TYPE_RESPONSE, width % 256] + body;
      case Nothing => reply := Error(pdu[0], start, ATTRIBUTE_NOT_FOUND);
    }

    method Read(pdu: seq<byte>) returns (reply: seq<byte>)
      requires mtu >= DEFAULT_MTU && |pdu| >= 1
      ensures reply == AnswerRead(table, mtu, pdu)
    {
      if |pdu| < 3 {
        return Error(pdu[0], 0, INVALID_PDU);
      }
      var i := FindHandle(Get16(pdu[1..]));
      if i == |table| {
        return Error(pdu[0], Get16(pdu[1..]), INVALID_HANDLE);
      }
      if !table[i].readable {
        return Error(pdu[0], Get16(pdu[1..]), READ_NOT_PERMITTED);
      }
      var n := if mtu - 1 < |table[i].value| then mtu - 1 else |table[i].value|;
      reply := [READ_REQUEST + 1] + table[i].value[..n];
    }

    method ReadBlob(pdu: seq<byte>) returns (reply: seq<byte>)
      requires mtu >= DEFAULT_MTU && |pdu| >= 1
      ensures reply == AnswerBlob(table, mtu, pdu)
    {
      if |pdu| < 5 {
        return Error(pdu[0], 0, INVALID_PDU);
      }
      var handle, offset := Get16(pdu[1..]), Get16(pdu[3..]);
      var i := FindHandle(handle);
      if i == |table| {
        return Error(pdu[0], handle, INVALID_HANDLE);
      }
      if !table[i].readable {
        return Error(pdu[0], handle, READ_NOT_PERMITTED);
      }
      if offset > |table[i].value| {
        return Error(pdu[0], handle, INVALID_OFFSET);
      }
      var left := |table[i].value| - offset;
      var n := if mtu - 1 < left then mtu - 1 else left;
      reply := [READ_BLOB_REQUEST + 1] + table[i].value[offset..offset + n];
    }

    method Write(pdu: seq<byte>) returns (reply: seq<byte>)
      requires |pdu| >= 1 && (pdu[0] == WRITE_REQUEST || pdu[0] == WRITE_COMMAND)
      modifies this`table
      ensures reply == AnswerWrite(old(table), pdu) && table == Written(old(table), pdu)
    {
      var silent := pdu[0] == WRITE_COMMAND;
      if |pdu| < 3 {
        return if silent then [] else Error(pdu[0], 0, INVALID_PDU);
      }
      var handle := Get16(pdu[1..]);
      var i := FindHandle(handle);
      if i == |table| {
        return if silent then [] else Error(pdu[0], handle, INVALID_HANDLE);
      }
      if !table[i].writable {
        return if silent then [] else Error(pdu[0], handle, WRITE_NOT_PERMITTED);
      }
      table := table[i := table[i].(value := pdu[3..])];
      reply := if silent then [] else [WRITE_RESPONSE];
    }

    method ExchangeMtu(pdu: seq<byte>) returns (reply: seq<byte>)
      requires |pdu| >= 1 && pdu[0] == EXCHANGE_MTU_REQUEST
      modifies this`mtu
      ensures reply == (if |pdu| < 3 then Error(pdu[0], 0, INVALID_PDU) else [EXCHANGE_MTU_RESPONSE] + Put16(OWN_MTU))
      ensures mtu == Agreed(old(mtu), pdu)
    {
      if |pdu| < 3 {
        return Error(pdu[0], 0, INVALID_PDU);
      }
      var peer := Get16(pdu[1..]);
      mtu := if peer < OWN_MTU then peer else OWN_MTU;
      if mtu < DEFAULT_MTU {
        mtu := DEFAULT_MTU;
      }
      reply := [EXCHANGE_MTU_RESPONSE] + Put16(OWN_MTU);
    }

    /** One request in, one answer out. */
    method HandleRequest(pdu: seq<byte>) returns (reply: seq<byte>)
      requires mtu >= DEFAULT_MTU
      modifies this
      ensures reply == Answer(old(table), old(mtu), pdu)
      ensures table == Written(old(table), pdu) && mtu == Agreed(old(mtu), pdu) >= DEFAULT_MTU
    {
      if pdu == [] {
        return [];
      }
      var op := pdu[0];
      if op == EXCHANGE_MTU_REQUEST {
        reply := ExchangeMtu(pdu);
      } else if op == FIND_INFORMATION_REQUEST {
        reply := FindInformation(pdu);
      } else if op == FIND_BY_TYPE_VALUE_REQUEST {
        reply := FindByTypeValue(pdu);
      } else if op == READ_BY_GROUP_TYPE_REQUEST {
        reply := ReadByGroup(pdu);
      } else if op == READ_BY_TYPE_REQUEST {
        reply := ReadByType(pdu);
      } else if op == READ_REQUEST {
        reply := Read(pdu);
      } else if op == READ_BLOB_REQUEST {
        reply := ReadBlob(pdu);
      } else if op == WRITE_REQUEST || op == WRITE_COMMAND {
        reply := Write(pdu);
      } else if op == CONFIRMATION {
        reply := [];
      } else {
        reply := Error(op, 0, REQUEST_NOT_SUPPORTED);
      }
    }

    /** Whether the client configuration after a value has notifications on. */
    method IsSubscribed(valueHandle: u16) returns (yes: bool)
      ensures yes == Subscribed(table, valueHandle)
    {
      var i := FindHandle(valueHandle);
      if i == |table| {
        return false;
      }
      i := i + 1;
      while i < |table|
        invariant i <= |table|
        invariant ConfiguredAfter(table[i..], valueHandle) == Subscribed(table, valueHandle)
      {
        assert table[i..][0] == table[i] && table[i..][1..] == table[i + 1..];
        if table[i].handle != valueHandle {
          if EndsCharacteristic(table[i]) {
            return false;
          }
          if table[i].kind == FromShort(CLIENT_CONFIG) {
            return |table[i].value| >= 2 && table[i].value[0] % 4 != 0;
          }
        }
        i := i + 1;
      }
      yes := false;
    }

    method Notify(valueHandle: u16, value: seq<byte>) returns (pdu: seq<byte>)
      requires mtu >= DEFAULT_MTU
      ensures pdu == Notification(table, mtu, valueHandle, value)
    {
      var on := IsSubscribed(valueHandle);
      if !on {
        return [];
      }
      var n := if mtu - 3 < |value| then mtu - 3 else |value|;
      pdu := [NOTIFICATION] + Put16(valueHandle) + value[..n];
    }
  }
}
