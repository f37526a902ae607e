/** Which artifacts the durable queue admits: its bounds, the share each device
    reserves in them, and the registration reserve in each share. */
module CourierCapacity {
  import opened Base
  import opened Decimal
  import opened CourierQueue

  /** A queue's options; `configured` is absent when no device is named. */
  datatype Settings = Settings(maxItems: int, maxBytes: int, configured: Option<set<string>>, reserved: bool)

  function Share(s: Settings, bytes: bool): int {
    var most := if bytes then s.maxBytes else s.maxItems;
    if s.reserved && s.configured.Some? && s.configured.value != {} then most / |s.configured.value| else most
  }

  /** The options a queue opens with. */
  predicate Opens(s: Settings) {
    && s.maxItems > 0 && s.maxBytes > 0
    && (s.configured.Some? ==> s.configured.value != {})
    && (s.reserved ==>
          && s.configured.Some?
          && Share(s, false) >= MIN_DEVICE_SHARE_ITEMS
          && Share(s, true) >= MIN_DEVICE_SHARE_BYTES)
  }

  /** `Full` names the limit that refused: items or bytes, of the whole queue or
      of the device's share. */
  datatype Verdict = Admitted | NotConfigured | BadClock | Full(bytes: bool, share: bool)

  predicate Configured(s: Settings, device: string) {
    s.configured.None? || device in s.configured.value
  }

  /** The part of a share a lane may fill: all of it, less for an evidence lane
      the registration reserve. */
  function LaneShare(s: Settings, lane: Lane, bytes: bool): int {
    if !s.reserved || lane == Registration then Share(s, bytes)
    else if bytes then Share(s, bytes) - MAX_QUEUE_RECORD_BYTES
    else Share(s, bytes) - 1
  }

  /** Whether records weighing `weight` more stay within the device's share and
      its lane's part of it. */
  predicate ShareHasRoom(s: Settings, log: seq<Record>, key: LaneKey, weight: int, bytes: bool) {
    && Sum(log, OfDevice(key.device), bytes) + weight <= Share(s, bytes)
    && (s.reserved && key.lane != Registration ==>
          Sum(log, OfLane(key), bytes) + weight <= LaneShare(s, key.lane, bytes))
  }

  /** What inserting `r` beside the queued records answers; `r` carries the
      sequence and clock reading the insert gives it. */
  function Admission(s: Settings, log: seq<Record>, r: Record): Verdict {
    var key := KeyOf(r.id);
    if !Configured(s, key.device) then NotConfigured
    else if |log| >= s.maxItems then Full(false, false)
    else if !ShareHasRoom(s, log, key, 1, false) then Full(false, true)
    else if r.at <= 0 then BadClock
    else if Sum(log, Everyone, true) + Size(r) > s.maxBytes then Full(true, false)
    else if !ShareHasRoom(s, log, key, Size(r), true) then Full(true, true)
    else Admitted
  }

  /** The same question put to the device's own records alone. */
  function OwnAdmission(s: Settings, own: seq<Record>, r: Record): Verdict {
    var key := KeyOf(r.id);
    if !Configured(s, key.device) then NotConfigured
    else if !ShareHasRoom(s, own, key, 1, false) then Full(false, true)
    else if r.at <= 0 then BadClock
    else if !ShareHasRoom(s, own, key, Size(r), true) then Full(true, true)
    else Admitted
  }

  /** A verdict without which of the two limits of its kind refused first. */
  function Blunt(v: Verdict): Verdict {
    if v.Full? then v.(share := true) else v
  }

  /** Every record belongs to a configured device; every device holds at most an
      equal part of the bounds, and its evidence at most that less one record of the
      largest size. */
  ghost predicate WithinShares(s: Settings, log: seq<Record>) {
    && s.reserved && s.configured.Some? && s.configured.value != {}
    && DevicesWithin(log, s.configured.value)
    && var n := |s.configured.value|;
    && (forall d | d in s.configured.value ::
          && Sum(log, OfDevice(d), false) <= s.maxItems / n
          && Sum(log, OfDevice(d), true) <= s.maxBytes / n)
    && (forall d | d in s.configured.value ::
          && Sum(log, OfLane(LaneKey(d, Evidence)), false) <= s.maxItems / n - 1
          && Sum(log, OfLane(LaneKey(d, Evidence)), true) <= s.maxBytes / n - MAX_QUEUE_RECORD_BYTES)
  }

  /** A queue opens exactly with positive bounds and, with reserved shares, where an
      equal part of them for each device holds two items, and the largest registration
      beside the largest evidence record. */
  lemma OpensExactly(s: Settings)
    requires s.configured.Some? ==> s.configured.value != {}
    ensures Opens(s) <==>
              && s.maxItems > 0 && s.maxBytes > 0
              && (s.reserved ==>
                    && s.configured.Some?
                    && var n := |s.configured.value|;
                    && s.maxItems / n >= 2 && s.maxBytes / n >= MAX_QUEUE_RECORD_BYTES + MAX_EVIDENCE_RECORD_BYTES)
  {
  }

  // ---------------------------------------------------------------------
  // One device's shares are its own
  // ---------------------------------------------------------------------

  lemma ShareTimes(most: nat, n: nat)
    requires n > 0
    ensures n * (most / n) <= most && most / n >= 0
  {
  }

  lemma TheRestFit(total: int, own: int, rest: int, n: nat, share: int, most: int)
    requires total == own + rest && rest <= (n - 1) * share && n * share <= most
    ensures total - own <= most - share
  {
    assert (n - 1) * share == n * share - share;
  }

  /** However full the other devices are, they leave this one its share. */
  lemma OthersLeaveTheShare(s: Settings, log: seq<Record>, d: string, bytes: bool)
    requires Opens(s) && WithinShares(s, log) && d in s.configured.value
    ensures var most := if bytes then s.maxBytes else s.maxItems;
            Sum(log, Everyone, bytes) - Sum(log, OfDevice(d), bytes) <= most - Share(s, bytes)
  {
    hide Sum, OtherDevices;
    var most, n := if bytes then s.maxBytes else s.maxItems, |s.configured.value|;
    var others := OtherDevices(log, d);
    SumOthers(log, d, bytes);
    ShareTimes(most, n);
    SharesAddUp(others, s.configured.value - {d}, Share(s, bytes), bytes);
    assert |s.configured.value - {d}| == n - 1;
    TheRestFit(Sum(log, Everyone, bytes), Sum(log, OfDevice(d), bytes), Sum(others, Everyone, bytes),
               n, Share(s, bytes), most);
  }

  lemma RoomIsOwn(s: Settings, log: seq<Record>, key: LaneKey, weight: int, bytes: bool)
    ensures ShareHasRoom(s, log, key, weight, bytes) == ShareHasRoom(s, OnlyDevice(log, key.device), key, weight, bytes)
  {
    SumOnly(log, key.device, OfDevice(key.device), bytes);
    SumOnly(log, key.device, OfLane(key), bytes);
  }

  /** With reserved shares, from any queue within them, what an artifact's
      admission answers is decided by its device's own records: the bounds of the
      whole queue never refuse what the device's own share would take. */
  lemma OwnRecordsDecide(s: Settings, log: seq<Record>, r: Record)
    requires Opens(s) && WithinShares(s, log)
    ensures Blunt(Admission(s, log, r)) == Blunt(OwnAdmission(s, OnlyDevice(log, r.id.payload.device), r))
  {
    hide Sum, OnlyDevice, Size;
    var key := KeyOf(r.id);
    RoomIsOwn(s, log, key, 1, false);
    RoomIsOwn(s, log, key, Size(r), true);
    SumItems(log);
    if Configured(s, key.device) {
      OthersLeaveTheShare(s, log, key.device, false);
      OthersLeaveTheShare(s, log, key.device, true);
    }
  }

  /** The law of admission in numbers, for n configured devices with reserved shares:
      a device's records are bounded by an nth of each bound, and its evidence by that
      less one item and the largest record, which are a registration's alone. */
  lemma AdmittedExactly(s: Settings, log: seq<Record>, r: Record)
    requires Opens(s) && WithinShares(s, log)
    ensures var d, n, v := r.id.payload.device, |s.configured.value|, Admission(s, log, r);
            var evidence := OfLane(LaneKey(d, Evidence));
            var itemsFit := && Sum(log, OfDevice(d), false) < s.maxItems / n
                            && (r.id.kind != AnchorRegistration ==> Sum(log, evidence, false) < s.maxItems / n - 1);
            var bytesFit := && Sum(log, OfDevice(d), true) + Size(r) <= s.maxBytes / n
                            && (r.id.kind != AnchorRegistration ==>
                                  Sum(log, evidence, true) + Size(r) <= s.maxBytes / n - MAX_QUEUE_RECORD_BYTES);
            && (v == Admitted <==> d in s.configured.value && itemsFit && r.at > 0 && bytesFit)
            && (v == NotConfigured <==> d !in s.configured.value)
            && (v.Full? && !v.bytes <==> d in s.configured.value && !itemsFit)
            && (v == BadClock <==> d in s.configured.value && itemsFit && r.at <= 0)
  {
    hide Sum, Size;
    SumItems(log);
    var d := r.id.payload.device;
    if d in s.configured.value {
      OthersLeaveTheShare(s, log, d, false);
      OthersLeaveTheShare(s, log, d, true);
    }
  }

  /** Without reserved shares the queue is one: only its own bounds refuse. */
  lemma UnreservedAdmission(s: Settings, log: seq<Record>, r: Record)
    requires Opens(s) && !s.reserved
    ensures Admission(s, log, r) == Admitted <==>
              && (s.configured.Some? ==> r.id.payload.device in s.configured.value) && r.at > 0
              && |log| < s.maxItems && Sum(log, Everyone, true) + Size(r) <= s.maxBytes
  {
    hide Sum, Size;
    SumItems(log);
    SumAtMost(log, OfDevice(r.id.payload.device), false);
    SumAtMost(log, OfDevice(r.id.payload.device), true);
  }

  lemma {:induction false} SumAtMost(log: seq<Record>, scope: Scope, bytes: bool)
    ensures Sum(log, scope, bytes) <= Sum(log, Everyone, bytes)
  {
    if log != [] { SumAtMost(Front(log), scope, bytes); }
  }

  /** Two queues holding the same records of a device differ on the same artifact
      only through the digits of the sequence it would be given, and then exactly
      when the room left lies between the two encoded sizes. */
  lemma SequenceDigitsDecide(s: Settings, log: seq<Record>, log': seq<Record>, r: Record, r': Record)
    requires Opens(s) && WithinShares(s, log) && WithinShares(s, log')
    requires r' == r.(seqno := r'.seqno) && |Format(r.seqno)| <= |Format(r'.seqno)|
    requires OnlyDevice(log, r.id.payload.device) == OnlyDevice(log', r.id.payload.device)
    ensures Blunt(Admission(s, log, r)) != Blunt(Admission(s, log', r')) <==>
            && Configured(s, r.id.payload.device) && r.at > 0
            && ShareHasRoom(s, log, KeyOf(r.id), 1, false)
            && ShareHasRoom(s, log, KeyOf(r.id), Size(r), true)
            && !ShareHasRoom(s, log, KeyOf(r.id), Size(r'), true)
  {
    hide Sum, OnlyDevice, Format;
    OwnRecordsDecide(s, log, r);
    OwnRecordsDecide(s, log', r');
    RoomIsOwn(s, log, KeyOf(r.id), 1, false);
    RoomIsOwn(s, log, KeyOf(r.id), Size(r), true);
    RoomIsOwn(s, log, KeyOf(r.id), Size(r'), true);
  }

  /** So admission can depend on another device: after one more record of device
      `b` takes sequence 9, device `a` is refused what it would have been given. */
  lemma AnotherDeviceCanRefuse(a: string, b: string)
    returns (s: Settings, log: seq<Record>, other: Record, r: Record, r': Record)
    requires a != b
    ensures Opens(s) && WithinShares(s, log) && WithinShares(s, log + [other])
    ensures OnlyDevice(log + [other], a) == OnlyDevice(log, a)
    ensures r.id.payload.device == a && other.id.payload.device == b
    ensures other.seqno == r.seqno == 9 && r' == r.(seqno := 10)
    ensures Admission(s, log, r) == Admitted && Admission(s, log + [other], r') == Full(true, true)
  {
    hide Size, Share, Sum, OnlyDevice;
    var big := Record(Id(DeliveryEnvelope, Payload(a, 1, None, None, MAX_ARTIFACT_BYTES, "")), 8, 1);
    other := Record(Id(Checkpoint, Payload(b, 0, None, None, 1, "")), 9, 1);
    r := Record(Id(Checkpoint, Payload(a, 0, None, None, 1, "")), 9, 1);
    r' := r.(seqno := 10);
    ExampleSizes(big, other, r, r');
    var share := MAX_QUEUE_RECORD_BYTES + Size(big) + Size(r);
    s, log := Settings(20, 2 * share, Some({a, b}), true), [big];
    ExampleShares(s, share, a, b);
    ExampleSums(s, big, other);
    OnlyOwn(big, other);
    SumItems(log);
    SumItems(log + [other]);
  }

  lemma ExampleSums(s: Settings, big: Record, other: Record)
    requires s.reserved && s.configured == Some({big.id.payload.device, other.id.payload.device})
    requires big.id.payload.device != other.id.payload.device
    requires LaneOf(big.id.kind) == LaneOf(other.id.kind) == Evidence
    requires Share(s, false) == 10 && Share(s, true) >= MAX_QUEUE_RECORD_BYTES + Size(big)
    requires Size(other) <= Size(big)
    ensures forall bytes :: Sum([big], Everyone, bytes) == Weight(Everyone, bytes, big)
    ensures forall bytes ::
              Sum([big] + [other], Everyone, bytes) == Weight(Everyone, bytes, big) + Weight(Everyone, bytes, other)
    ensures forall scope, bytes | Concerns(scope, big.id.payload.device) ::
              Sum([big] + [other], scope, bytes) == Sum([big], scope, bytes) == Weight(scope, bytes, big)
    ensures WithinShares(s, [big]) && WithinShares(s, [big] + [other])
  {
    hide Sum, Size, WithinShares;
    forall scope, bytes
      ensures Sum([big], scope, bytes) == Weight(scope, bytes, big)
      ensures Sum([big] + [other], scope, bytes) == Weight(scope, bytes, big) + Weight(scope, bytes, other)
    {
      SumOne(big, scope, bytes);
      SumAppend([big], other, scope, bytes);
    }
    ExampleWithin(s, [big], big, other);
    ExampleWithin(s, [big] + [other], big, other);
  }

  lemma ExampleWithin(s: Settings, log: seq<Record>, big: Record, other: Record)
    requires s.reserved && s.configured == Some({big.id.payload.device, other.id.payload.device})
    requires big.id.payload.device != other.id.payload.device && forall r | r in log :: r == big || r == other
    requires Share(s, false) == 10 && Share(s, true) >= MAX_QUEUE_RECORD_BYTES + Size(big)
    requires Size(other) <= Size(big)
    requires forall scope, bytes :: Sum(log, scope, bytes) <= Weight(scope, bytes, big) + Weight(scope, bytes, other)
    ensures WithinShares(s, log)
  {
    hide Sum, Size;
  }

  lemma ExampleSizes(big: Record, other: Record, r: Record, r': Record)
    requires big.id.kind == DeliveryEnvelope && big.id.payload.size == MAX_ARTIFACT_BYTES && big.seqno == 8
             && big.at == 1
    requires r.id.kind == Checkpoint && r.id.payload.size == 1 && r.seqno == 9 && r.at == 1
    requires other.id.kind == Checkpoint && other.id.payload.size == 1 && other.seqno == 9 && other.at == 1
    requires r' == r.(seqno := 10)
    ensures Size(r') == Size(r) + 1 && Size(other) == Size(r) <= Size(big)
    ensures Size(big) + Size(r) >= MAX_EVIDENCE_RECORD_BYTES
  {
    assert |Format(8)| == 1 && |Format(9)| == 1 && |Format(10)| == 2 && |Format(1)| == 1;
  }

  lemma ExampleShares(s: Settings, share: nat, a: string, b: string)
    requires a != b && s == Settings(20, 2 * share, Some({a, b}), true)
    ensures Share(s, false) == 10 && Share(s, true) == share
  {
    assert |{a, b}| == 2;
  }

  lemma SumOne(r: Record, scope: Scope, bytes: bool)
    ensures Sum([r], scope, bytes) == Weight(scope, bytes, r)
  {
    assert Front([r]) == [];
  }

  lemma OnlyOwn(r: Record, other: Record)
    requires r.id.payload.device != other.id.payload.device
    ensures OnlyDevice([r] + [other], r.id.payload.device) == OnlyDevice([r], r.id.payload.device)
  {
    assert Front([r] + [other]) == [r];
  }

  /** A registration of any admitted size, up to the largest, is admitted whenever
      its lane is empty: evidence never takes the registration reserve. */
  lemma RegistrationReserve(s: Settings, log: seq<Record>, r: Record)
    requires Opens(s) && WithinShares(s, log)
    requires r.id.kind == AnchorRegistration && r.id.payload.size <= MAX_ARTIFACT_BYTES
    requires r.id.payload.device in s.configured.value
    requires 0 < r.seqno <= MAX_INT64 && 0 < r.at <= MAX_INT64
    requires Sum(log, OfLane(KeyOf(r.id)), false) == 0
    ensures Admission(s, log, r) == Admitted
  {
    hide Sum, Size, Share, WithinShares;
    var d := r.id.payload.device;
    RecordFits(r);
    SumItems(log);
    RegistrationRoom(s, log, d);
    OthersLeaveTheShare(s, log, d, false);
    OthersLeaveTheShare(s, log, d, true);
  }

  lemma RegistrationRoom(s: Settings, log: seq<Record>, d: string)
    requires WithinShares(s, log) && d in s.configured.value
    requires Sum(log, OfLane(LaneKey(d, Registration)), false) == 0
    ensures Sum(log, OfDevice(d), false) + 1 <= Share(s, false)
    ensures Sum(log, OfDevice(d), true) + MAX_QUEUE_RECORD_BYTES <= Share(s, true)
  {
    NoItemsNoBytes(log, OfLane(LaneKey(d, Registration)));
    hide Sum;
    SumLanes(log, d, false);
    SumLanes(log, d, true);
  }

  /** The smallest share a queue opens with serves: a device with nothing queued is
      admitted an artifact of any type and admitted size, however full the others. */
  lemma EveryDeviceIsServed(s: Settings, log: seq<Record>, r: Record)
    requires Opens(s) && WithinShares(s, log) && r.id.payload.device in s.configured.value
    requires Outbound(r.id.kind) && r.id.payload.size <= MAX_ARTIFACT_BYTES
    requires 0 < r.seqno <= MAX_INT64 && 0 < r.at <= MAX_INT64
    requires Sum(log, OfDevice(r.id.payload.device), false) == 0
    ensures Admission(s, log, r) == Admitted
  {
    var d := r.id.payload.device;
    RecordFits(r);
    NoItemsNoBytes(log, OfDevice(d));
    AdmittedExactly(s, log, r);
    hide Sum, Size, Admission;
    SumLanes(log, d, false);
    SumLanes(log, d, true);
  }

  /** Admission keeps every device within its share. */
  lemma AdmissionKeepsShares(s: Settings, log: seq<Record>, r: Record)
    requires WithinShares(s, log) && Admission(s, log, r) == Admitted
    ensures WithinShares(s, log + [r])
  {
    hide Sum, Size;
    forall e, bytes
      ensures Sum(log + [r], OfDevice(e), bytes) == Sum(log, OfDevice(e), bytes) + Weight(OfDevice(e), bytes, r)
      ensures Sum(log + [r], OfLane(LaneKey(e, Evidence)), bytes) ==
              Sum(log, OfLane(LaneKey(e, Evidence)), bytes) + Weight(OfLane(LaneKey(e, Evidence)), bytes, r)
    {
      SumAppend(log, r, OfDevice(e), bytes);
      SumAppend(log, r, OfLane(LaneKey(e, Evidence)), bytes);
    }
  }

  /** So does retirement, of any record. */
  lemma RetirementKeepsShares(s: Settings, log: seq<Record>, i: nat)
    requires WithinShares(s, log) && i < |log|
    ensures WithinShares(s, log[..i] + log[i + 1..])
  {
    forall scope, bytes
      ensures Sum(log[..i] + log[i + 1..], scope, bytes) <= Sum(log, scope, bytes)
    {
      SumSplit(log, i, scope, bytes);
    }
  }
}
