/** What the durable evidence queue holds, and what it admits:
    internal/evidence/courier/queue.go and the size constants of courier.go. */
module CourierQueue {
  import opened Base
  import opened Decimal

  datatype Kind =
    | DeliveryEnvelope
    | AnchorRegistration
    | Checkpoint
    | DeliveryReceipt
    | EpochConfirmation
    | CustodyAcknowledgement

  function TypeName(kind: Kind): string {
    match kind
    case DeliveryEnvelope => "delivery_envelope"
    case AnchorRegistration => "anchor_registration"
    case Checkpoint => "checkpoint"
    case DeliveryReceipt => "delivery_receipt"
    case EpochConfirmation => "epoch_confirmation"
    case CustodyAcknowledgement => "custody_acknowledgement"
  }

  predicate Outbound(kind: Kind) {
    kind in {DeliveryEnvelope, AnchorRegistration, Checkpoint}
  }

  /** An artifact's bytes: their number, their routing projection as decoded
      (device "" where it does not decode), and the rest of them. */
  datatype Payload = Payload(
    device: string,
    localSeq: int,
    fromSeq: Option<int>,
    toSeq: Option<int>,
    size: nat,
    rest: string)

  /** An artifact's identifier: its type and exact bytes. The source hashes them,
      and the model takes the hash to be injective. */
  datatype Id = Id(kind: Kind, payload: Payload)

  /** A queue record: an artifact, its sequence, and when it was queued. */
  datatype Record = Record(id: Id, seqno: int, at: int)

  datatype Lane = Registration | Evidence

  datatype LaneKey = LaneKey(device: string, lane: Lane)

  function LaneOf(kind: Kind): Lane {
    if kind == AnchorRegistration then Registration else Evidence
  }

  function KeyOf(id: Id): LaneKey {
    LaneKey(id.payload.device, LaneOf(id.kind))
  }

  // ---------------------------------------------------------------------
  // The encoded size of a record
  // ---------------------------------------------------------------------

  const MAX_ARTIFACT_BYTES: int := 0x10_0000

  const FIXED_BYTES: int :=
    |"{\"v\":1,\"id\":\""| + 64 + |"\",\"artifact_type\":\""| + |"\",\"queue_seq\":"| +
    |",\"enqueued_at_ms\":"| + |",\"payload\":\""| + |"\"}"|

  const MAX_RECORD_OVERHEAD: int := FIXED_BYTES + 19 + 19 + 4 * ((MAX_ARTIFACT_BYTES + 2) / 3)
  const MAX_QUEUE_RECORD_BYTES: int := MAX_RECORD_OVERHEAD + 19
  const MAX_EVIDENCE_RECORD_BYTES: int := MAX_RECORD_OVERHEAD + 17
  const MIN_DEVICE_SHARE_ITEMS: int := 2
  const MIN_DEVICE_SHARE_BYTES: int := MAX_QUEUE_RECORD_BYTES + MAX_EVIDENCE_RECORD_BYTES

  /** The bytes a record is stored in: its JSON, the payload in Base64. */
  function Size(r: Record): (n: nat)
    ensures n > 0
  {
    FIXED_BYTES + |TypeName(r.id.kind)| + |Format(r.seqno)| + |Format(r.at)| + 4 * ((r.id.payload.size + 2) / 3)
  }

  lemma Int64Digits(n: int)
    requires 0 < n <= MAX_INT64
    ensures |Format(n)| <= 19
  {
    assert Pow10(4) == 10000;
    assert Pow10(8) == 100000000;
    assert Pow10(12) == 1000000000000;
    assert Pow10(16) == 10000000000000000;
    DigitsAtMost(n, 19);
  }

  /** The size constants are exact: no outbound record of an admitted artifact is
      larger, and a registration of the maximum size can be as large. */
  lemma RecordFits(r: Record)
    requires Outbound(r.id.kind) && r.id.payload.size <= MAX_ARTIFACT_BYTES
    requires 0 < r.seqno <= MAX_INT64 && 0 < r.at <= MAX_INT64
    ensures Size(r) <= if LaneOf(r.id.kind) == Registration then MAX_QUEUE_RECORD_BYTES else MAX_EVIDENCE_RECORD_BYTES
    ensures r.id.kind == AnchorRegistration && r.id.payload.size == MAX_ARTIFACT_BYTES
            && |Format(r.seqno)| == 19 == |Format(r.at)| ==>
              Size(r) == MAX_QUEUE_RECORD_BYTES
  {
    Int64Digits(r.seqno);
    Int64Digits(r.at);
  }

  // ---------------------------------------------------------------------
  // Counting what is queued
  // ---------------------------------------------------------------------

  /** Whose records are counted, and whether as items or as stored bytes. */
  datatype Scope = Everyone | OfDevice(device: string) | OfLane(key: LaneKey)

  predicate InScope(scope: Scope, r: Record) {
    match scope
    case Everyone => true
    case OfDevice(d) => r.id.payload.device == d
    case OfLane(k) => KeyOf(r.id) == k
  }

  function Weight(scope: Scope, bytes: bool, r: Record): nat {
    if !InScope(scope, r) then 0 else if bytes then Size(r) else 1
  }

  function Sum(log: seq<Record>, scope: Scope, bytes: bool): nat {
    if log == [] then 0 else Sum(Front(log), scope, bytes) + Weight(scope, bytes, Last(log))
  }

  lemma {:induction false} SumConcat(xs: seq<Record>, ys: seq<Record>, scope: Scope, bytes: bool)
    ensures Sum(xs + ys, scope, bytes) == Sum(xs, scope, bytes) + Sum(ys, scope, bytes)
  {
    if ys == [] {
      assert xs + ys == xs;
    } else {
      assert Front(xs + ys) == xs + Front(ys);
      SumConcat(xs, Front(ys), scope, bytes);
    }
  }

  lemma SumAppend(log: seq<Record>, r: Record, scope: Scope, bytes: bool)
    ensures Sum(log + [r], scope, bytes) == Sum(log, scope, bytes) + Weight(scope, bytes, r)
  {
    assert Front(log + [r]) == log;
  }

  /** A record in the middle accounts for its own weight. */
  lemma SumSplit(log: seq<Record>, i: nat, scope: Scope, bytes: bool)
    requires i < |log|
    ensures Sum(log, scope, bytes) == Sum(log[..i] + log[i + 1..], scope, bytes) + Weight(scope, bytes, log[i])
  {
    assert log == log[..i] + [log[i]] + log[i + 1..];
    SumConcat(log[..i] + [log[i]], log[i + 1..], scope, bytes);
    SumAppend(log[..i], log[i], scope, bytes);
    SumConcat(log[..i], log[i + 1..], scope, bytes);
  }

  lemma {:induction false} SumItems(log: seq<Record>)
    ensures Sum(log, Everyone, false) == |log|
  {
    if log != [] { SumItems(Front(log)); }
  }

  lemma {:induction false} NoItemsNoBytes(log: seq<Record>, scope: Scope)
    ensures Sum(log, scope, false) == 0 ==> Sum(log, scope, true) == 0
  {
    if log != [] { NoItemsNoBytes(Front(log), scope); }
  }

  /** A device's records are those of its two lanes. */
  lemma {:induction false} SumLanes(log: seq<Record>, d: string, bytes: bool)
    ensures Sum(log, OfDevice(d), bytes) ==
            Sum(log, OfLane(LaneKey(d, Registration)), bytes) + Sum(log, OfLane(LaneKey(d, Evidence)), bytes)
  {
    if log != [] { SumLanes(Front(log), d, bytes); }
  }

  /** The records of one device, and those of every other. */
  function OnlyDevice(log: seq<Record>, d: string): seq<Record> {
    if log == [] then [] else OnlyDevice(Front(log), d) + if Last(log).id.payload.device == d then [Last(log)] else []
  }

  function OtherDevices(log: seq<Record>, d: string): seq<Record> {
    if log == [] then [] else OtherDevices(Front(log), d) + if Last(log).id.payload.device == d then [] else [Last(log)]
  }

  predicate Concerns(scope: Scope, d: string) {
    (scope.OfDevice? && scope.device == d) || (scope.OfLane? && scope.key.device == d)
  }

  lemma {:induction false} SumOnly(log: seq<Record>, d: string, scope: Scope, bytes: bool)
    requires Concerns(scope, d)
    ensures Sum(log, scope, bytes) == Sum(OnlyDevice(log, d), scope, bytes)
  {
    if log != [] {
      SumOnly(Front(log), d, scope, bytes);
      if Last(log).id.payload.device == d { SumAppend(OnlyDevice(Front(log), d), Last(log), scope, bytes); }
      else { assert OnlyDevice(log, d) == OnlyDevice(Front(log), d); }
    }
  }

  lemma {:induction false} SumOthers(log: seq<Record>, d: string, bytes: bool)
    ensures Sum(log, Everyone, bytes) == Sum(log, OfDevice(d), bytes) + Sum(OtherDevices(log, d), Everyone, bytes)
    ensures forall e | e != d :: Sum(OtherDevices(log, d), OfDevice(e), bytes) == Sum(log, OfDevice(e), bytes)
    ensures forall r | r in OtherDevices(log, d) :: r in log && r.id.payload.device != d
  {
    if log != [] {
      SumOthers(Front(log), d, bytes);
      if Last(log).id.payload.device == d {
        assert OtherDevices(log, d) == OtherDevices(Front(log), d);
      } else {
        SumAppend(OtherDevices(Front(log), d), Last(log), Everyone, bytes);
        forall e | e != d
          ensures Sum(OtherDevices(log, d), OfDevice(e), bytes) == Sum(log, OfDevice(e), bytes)
        {
          SumAppend(OtherDevices(Front(log), d), Last(log), OfDevice(e), bytes);
        }
      }
    }
  }

  predicate DevicesWithin(log: seq<Record>, devices: set<string>) {
    forall r | r in log :: r.id.payload.device in devices
  }

  lemma SharesArePositive(n: nat, share: nat)
    ensures n * share >= 0
  {
  }

  lemma OneShareLess(devices: set<string>, d: string, share: nat)
    requires d in devices
    ensures |devices| * share == |devices - {d}| * share + share
  {
    assert |devices - {d}| == |devices| - 1;
  }

  /** Devices each within a share are together within that many shares. */
  lemma {:induction false} SharesAddUp(log: seq<Record>, devices: set<string>, share: int, bytes: bool)
    requires share >= 0 && DevicesWithin(log, devices)
    requires forall d | d in devices :: Sum(log, OfDevice(d), bytes) <= share
    ensures Sum(log, Everyone, bytes) <= |devices| * share
    decreases |devices|
  {
    if log == [] {
      SharesArePositive(|devices|, share);
    } else {
      var d := Last(log).id.payload.device;
      assert d in devices by { assert Last(log) in log; }
      hide Sum, OtherDevices;
      SumOthers(log, d, bytes);
      SharesAddUp(OtherDevices(log, d), devices - {d}, share, bytes);
      OneShareLess(devices, d, share);
    }
  }

  // ---------------------------------------------------------------------
  // Delivery order
  // ---------------------------------------------------------------------

  /** The records of one lane, in order; delivery takes the first. */
  function LaneLog(log: seq<Record>, key: LaneKey): seq<Record> {
    if log == [] then [] else LaneLog(Front(log), key) + if KeyOf(Last(log).id) == key then [Last(log)] else []
  }

  function LaneHead(log: seq<Record>, key: LaneKey): Option<Record> {
    var lane := LaneLog(log, key);
    if lane == [] then None else Some(lane[0])
  }

  lemma {:induction false} LaneHas(log: seq<Record>, key: LaneKey, r: Record)
    ensures r in LaneLog(log, key) <==> r in log && KeyOf(r.id) == key
  {
    if log != [] {
      LaneHas(Front(log), key, r);
      assert log == Front(log) + [Last(log)];
    }
  }

  lemma {:induction false} LaneConcat(xs: seq<Record>, ys: seq<Record>, key: LaneKey)
    ensures LaneLog(xs + ys, key) == LaneLog(xs, key) + LaneLog(ys, key)
  {
    if ys == [] {
      assert xs + ys == xs;
    } else {
      assert Front(xs + ys) == xs + Front(ys);
      LaneConcat(xs, Front(ys), key);
    }
  }
}
