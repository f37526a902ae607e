/** How long a lane waits before it sends its head again
    (internal/evidence/courier/worker.go). Durations and clock readings are in
    nanoseconds; a wall-clock instant is nanoseconds since the Unix epoch. */
module LaneBackoffs {
  import opened Base
  import opened CourierDirectory
  import opened CourierQueue
  import opened Refusal

  const MILLISECOND: int := 1_000_000
  const DEFAULT_RETRY: int := 5_000 * MILLISECOND
  const DEFAULT_MOST: int := 300_000 * MILLISECOND

  /** The delivery interval, the first back-off and the longest. */
  datatype Timing = Timing(retry: int, base: int, most: int)

  predicate ValidTiming(t: Timing) {
    0 < t.retry <= t.base <= t.most <= MAX_INT64
  }

  /** A worker's timing from its options, each of which may be unset or too small. */
  function NewTiming(retry: Int64, base: Int64, most: Int64): (t: Timing)
    ensures ValidTiming(t)
    ensures 0 < retry <= base <= most ==> t == Timing(retry, base, most)
    ensures t.retry == (if retry > 0 then retry else 5_000 * MILLISECOND)
    ensures t.base >= base && (t.base > base ==> t.base == t.retry)
    ensures most > 0 ==> t.most >= most && (t.most > most ==> t.most == t.base)
    ensures most <= 0 ==> t.most == Max(300_000 * MILLISECOND, t.base)
  {
    var r := if retry <= 0 then DEFAULT_RETRY else retry;
    var b := Max(base, r);
    var m := if most <= 0 then Max(DEFAULT_MOST, b) else most;
    Timing(r, b, Max(m, b))
  }

  // ---------------------------------------------------------------------
  // The delay
  // ---------------------------------------------------------------------

  /** base times 2 to the power j. */
  function Scaled(base: int, j: nat): int {
    if j == 0 then base else 2 * Scaled(base, j - 1)
  }

  /** The base doubled once per earlier attempt in 64 bits, until it reaches the
      longest back-off. */
  function Doubled(t: Timing, attempts: nat): int {
    if attempts <= 1 then t.base
    else
      var d := Doubled(t, attempts - 1);
      if d < t.most then Wrap64(2 * d) else d
  }

  function Delay(t: Timing, attempts: nat, floor: int): int {
    Max(Max(Min(Doubled(t, attempts), t.most), t.retry), floor)
  }

  /** What the delay is for: the base doubling to the bound, and never shorter than
      the delivery interval or a Retry-After. */
  function IdealDelay(t: Timing, attempts: nat, floor: int): int
    requires attempts >= 1
  {
    Max(Max(Min(Scaled(t.base, attempts - 1), t.most), t.retry), floor)
  }

  method BackoffDelay(t: Timing, attempts: nat, floor: int) returns (delay: int)
    requires ValidTiming(t)
    ensures delay == Delay(t, attempts, floor)
  {
    delay := t.base;
    var i := 1;
    while i < attempts && delay < t.most
      invariant 1 <= i && (i <= attempts || i == 1) && delay == Doubled(t, i)
      decreases attempts - i
    {
      delay := Wrap64(2 * delay);
      i := i + 1;
    }
    if i < attempts { DoublingStops(t, i, attempts); }
    if delay > t.most { delay := t.most; }
    delay := Max(Max(delay, t.retry), floor);
  }

  lemma {:induction false} DoublingStops(t: Timing, i: nat, attempts: nat)
    requires 1 <= i <= attempts && Doubled(t, i) >= t.most
    ensures Doubled(t, attempts) == Doubled(t, i)
  {
    if i < attempts { DoublingStops(t, i, attempts - 1); }
  }

  /** No doubling that starts below the bound leaves 64 bits. */
  ghost predicate DoublingsFit(t: Timing) {
    forall j: nat | Scaled(t.base, j) < t.most :: Scaled(t.base, j + 1) <= MAX_INT64
  }

  lemma {:induction false} DoubledIs(t: Timing, attempts: nat)
    requires ValidTiming(t) && attempts >= 1
    requires forall j: nat | j + 1 < attempts && Scaled(t.base, j) < t.most :: Scaled(t.base, j + 1) <= MAX_INT64
    ensures Min(Doubled(t, attempts), t.most) == Min(Scaled(t.base, attempts - 1), t.most)
    ensures Doubled(t, attempts) < t.most ==> Doubled(t, attempts) == Scaled(t.base, attempts - 1)
    ensures 0 < Doubled(t, attempts) <= MAX_INT64
  {
    if attempts > 1 {
      DoubledIs(t, attempts - 1);
      var j := attempts - 2;
      if Doubled(t, attempts - 1) < t.most {
        assert Scaled(t.base, j) < t.most;
        assert Scaled(t.base, j + 1) <= MAX_INT64;
      }
    }
  }

  /** The delay is the ideal one for every number of attempts and every
      Retry-After, exactly when no doubling below the bound leaves 64 bits. */
  lemma DelayIsIdeal(t: Timing)
    requires ValidTiming(t)
    ensures (forall attempts: nat, floor: nat | 1 <= attempts <= MAX_BACKOFF_ATTEMPTS ::
            Delay(t, attempts, floor) == IdealDelay(t, attempts, floor))
            <==> DoublingsFit(t)
  {
    if DoublingsFit(t) {
      forall attempts: nat, floor: nat | 1 <= attempts <= MAX_BACKOFF_ATTEMPTS
        ensures Delay(t, attempts, floor) == IdealDelay(t, attempts, floor)
      {
        DoubledIs(t, attempts);
      }
    } else {
      var j: nat :| Scaled(t.base, j) < t.most && Scaled(t.base, j + 1) > MAX_INT64;
      OverflowShortens(t, j);
    }
  }

  lemma {:induction false} ScaledGrows(base: int, i: nat, j: nat)
    requires base > 0 && i <= j
    ensures 0 < base <= Scaled(base, i) <= Scaled(base, j)
  {
    if i < j { ScaledGrows(base, i, j - 1); } else if i > 0 { ScaledGrows(base, i - 1, i - 1); }
  }

  lemma ScaledPasses(base: int)
    requires base > 0
    ensures Scaled(base, 63) > MAX_INT64
  {
    Seven(base, 0);
    Seven(base, 7);
    Seven(base, 14);
    Seven(base, 21);
    Seven(base, 28);
    Seven(base, 35);
    Seven(base, 42);
    Seven(base, 49);
    Seven(base, 56);
  }

  lemma Seven(base: int, j: nat)
    ensures Scaled(base, j + 7) == 128 * Scaled(base, j)
  {
    assert Scaled(base, j + 2) == 4 * Scaled(base, j);
    assert Scaled(base, j + 4) == 4 * Scaled(base, j + 2);
    assert Scaled(base, j + 6) == 4 * Scaled(base, j + 4);
  }

  /** Where a doubling overflows, the delay falls back to the delivery interval. */
  lemma OverflowShortens(t: Timing, j: nat)
    requires ValidTiming(t) && Scaled(t.base, j) < t.most && Scaled(t.base, j + 1) > MAX_INT64
    ensures j + 2 <= MAX_BACKOFF_ATTEMPTS
    ensures Delay(t, j + 2, 0) == t.retry < t.most == IdealDelay(t, j + 2, 0)
  {
    ScaledPasses(t.base);
    if j >= 63 { ScaledGrows(t.base, 63, j); }
    forall i: nat | i + 1 < j + 1 && Scaled(t.base, i) < t.most ensures Scaled(t.base, i + 1) <= MAX_INT64 {
      ScaledGrows(t.base, i + 1, j);
    }
    DoubledIs(t, j + 1);
    ScaledGrows(t.base, 0, j);
    hide Scaled, Doubled, Delay, IdealDelay;
    WrapsBelow(t, j);
  }

  /** The doubling that leaves 64 bits comes back negative. */
  lemma WrapsBelow(t: Timing, j: nat)
    requires ValidTiming(t) && Scaled(t.base, j) < t.most && Scaled(t.base, j + 1) > MAX_INT64
    requires t.base <= Scaled(t.base, j) && Min(Doubled(t, j + 1), t.most) == Scaled(t.base, j)
    ensures Delay(t, j + 2, 0) == t.retry < t.most == IdealDelay(t, j + 2, 0)
  {
    assert Scaled(t.base, j + 1) == 2 * Scaled(t.base, j) && Doubled(t, j + 2) == Wrap64(2 * Doubled(t, j + 1));
    hide Scaled, Doubled;
  }

  /** A bound of at most 2^62 nanoseconds, about 146 years, is enough. */
  lemma OrdinaryBoundsFit(t: Timing)
    requires ValidTiming(t) && t.most <= 0x4000_0000_0000_0000
    ensures DoublingsFit(t)
  {
    forall j: nat | Scaled(t.base, j) < t.most ensures Scaled(t.base, j + 1) <= MAX_INT64 {
    }
  }

  // ---------------------------------------------------------------------
  // Deadlines
  // ---------------------------------------------------------------------

  /** Go's difference of two instants: the nearest int64. */
  function Sub(a: int, b: int): Int64 {
    if a - b > MAX_INT64 then MAX_INT64 else if a - b < MIN_INT64 then MIN_INT64 else a - b
  }

  /** An instant in whole milliseconds, rounded up. */
  function CeilMilli(t: int): (m: int)
    ensures t <= m < t + MILLISECOND && m % MILLISECOND == 0
  {
    var down := t / MILLISECOND * MILLISECOND;
    if down < t then down + MILLISECOND else down
  }

  function WaitBound(t: Timing, retryAfter: int): int {
    Max(Max(t.most, t.retry), retryAfter)
  }

  /** A lane's back-off: its deadline on the wall clock, none before the first, the
      same deadline on the monotonic clock, the attempts so far, the Retry-After in
      force and the record it is for; and the head its process last attempted. */
  datatype Due = Due(notBefore: Option<int>, monoDue: Int64, attempts: nat, retryAfter: int, record: Option<Id>,
                     attempted: Option<Id>)

  /** The lane of a new process. */
  const IDLE: Due := Due(None, 0, 0, 0, None, None)

  /** A reading of both clocks. */
  datatype Reading = Reading(wall: int, mono: Int64)

  /** An attempt at `head` begins: a head other than the last attempted starts from
      no attempts, and no deadline is in force. */
  function Attempting(d: Due, head: Id): Due {
    Due(None, 0, if d.attempted == Some(head) then d.attempts else 0, 0, None, Some(head))
  }

  /** The back-off after an attempt that failed. */
  function Scheduled(t: Timing, d: Due, at: Reading, floor: int): Due {
    var attempts := if d.attempts < MAX_BACKOFF_ATTEMPTS then d.attempts + 1 else d.attempts;
    var delay := Delay(t, attempts, floor);
    Due(Some(CeilMilli(at.wall + delay)), Wrap64(at.mono + delay), attempts, floor, d.attempted, d.attempted)
  }

  function WallLeft(d: Due, wall: int): Int64 {
    if d.notBefore.None? then MIN_INT64 else Sub(d.notBefore.value, wall)
  }

  /** A look at the clocks: a wall-clock deadline further away than any back-off can
      be came from a clock that moved backwards, and is brought in to the bound. */
  function Looked(t: Timing, d: Due, at: Reading): Due {
    var bound := WaitBound(t, d.retryAfter);
    if WallLeft(d, at.wall) > bound then d.(notBefore := Some(CeilMilli(at.wall + bound))) else d
  }

  /** How long that look says to wait. */
  function Wait(t: Timing, d: Due, at: Reading): int {
    Max(WallLeft(Looked(t, d, at), at.wall), Wrap64(d.monoDue - at.mono))
  }

  /** The record a back-off is persisted as. */
  function RecordOf(d: Due, record: Id): Backoff {
    CourierDirectory.Backoff.Backoff(
      if d.retryAfter > 0 then 2 else 1, record,
      if d.notBefore.Some? then d.notBefore.value / MILLISECOND else 0, d.attempts,
      if d.retryAfter > 0 then Some(d.retryAfter / MILLISECOND) else None)
  }

  /** The back-off a new process restores from a record. */
  function Restored(t: Timing, b: Backoff, at: Reading): Due
    requires ValidBackoff(b)
  {
    var retryAfter := if b.retryAfter.Some? then b.retryAfter.value * MILLISECOND else 0;
    var latest := at.wall + WaitBound(t, retryAfter);
    var notBefore := if b.notBefore * MILLISECOND > latest then CeilMilli(latest) else b.notBefore * MILLISECOND;
    Due(Some(notBefore), Wrap64(at.mono + Max(Sub(notBefore, at.wall), 0)), b.attempts, retryAfter, Some(b.record),
        None)
  }

  /** Looks one after another. */
  function AfterLooks(t: Timing, d: Due, looks: seq<Reading>): Due {
    if looks == [] then d else Looked(t, AfterLooks(t, d, Front(looks)), Last(looks))
  }

  predicate FloorOK(floor: int) {
    0 <= floor <= MAX_RETRY_AFTER_MS * MILLISECOND && floor % MILLISECOND == 0
  }

  lemma DelayFits(t: Timing, attempts: nat, floor: int)
    requires ValidTiming(t) && FloorOK(floor)
    ensures 0 < t.retry <= Delay(t, attempts, floor) <= WaitBound(t, floor) <= MAX_INT64
  {
  }

  lemma {:induction false} LooksKeepTheRest(t: Timing, d: Due, looks: seq<Reading>)
    ensures AfterLooks(t, d, looks) == d.(notBefore := AfterLooks(t, d, looks).notBefore)
  {
    if looks != [] { LooksKeepTheRest(t, d, Front(looks)); }
  }

  /** Modular subtraction recovers a deadline that itself wrapped around. */
  lemma MonoLeft(start: Int64, delay: Int64, now: Int64)
    requires 0 <= start <= now && 0 <= delay
    ensures Wrap64(Wrap64(start + delay) - now) == start + delay - now
  {
    if start + delay > MAX_INT64 {
      assert Wrap64(start + delay) == start + delay - TWO_TO_THE_64;
    }
  }

  /** However the wall clock steps, and however often the lane looks, an attempt is
      due only once the whole delay has passed on the monotonic clock. */
  lemma NeverEndsEarly(t: Timing, d: Due, start: Reading, floor: int, looks: seq<Reading>, now: Reading)
    requires ValidTiming(t) && FloorOK(floor) && 0 <= start.mono <= now.mono
    ensures var due := Scheduled(t, d, start, floor);
            Wait(t, AfterLooks(t, due, looks), now) <= 0 ==> now.mono >= start.mono + Delay(t, due.attempts, floor)
  {
    var due := Scheduled(t, d, start, floor);
    var delay := Delay(t, due.attempts, floor);
    DelayFits(t, due.attempts, floor);
    LooksKeepTheRest(t, due, looks);
    hide Delay, AfterLooks, WaitBound;
    MonoLeft(start.mono, delay, now.mono);
  }

  /** The monotonic deadline is at most the bound and a millisecond away. */
  predicate Bounded(t: Timing, due: Due, start: Reading) {
    0 <= Wrap64(due.monoDue - start.mono) < WaitBound(t, due.retryAfter) + MILLISECOND
  }

  lemma WrapBack(a: Int64, b: Int64)
    ensures Wrap64(b + Wrap64(a - b)) == a
  {
  }

  lemma ScheduledIsBounded(t: Timing, d: Due, start: Reading, floor: int)
    requires ValidTiming(t) && FloorOK(floor) && start.mono >= 0
    ensures Bounded(t, Scheduled(t, d, start, floor), start)
  {
    var due := Scheduled(t, d, start, floor);
    DelayFits(t, due.attempts, floor);
    MonoLeft(start.mono, Delay(t, due.attempts, floor), start.mono);
  }

  lemma RestoredIsBounded(t: Timing, b: Backoff, at: Reading)
    requires ValidTiming(t) && ValidBackoff(b) && at.mono >= 0
    ensures Bounded(t, Restored(t, b, at), at)
  {
    var due := Restored(t, b, at);
    MonoLeft(at.mono, Max(Sub(due.notBefore.value, at.wall), 0), at.mono);
  }

  /** From any instant, the wait is within a millisecond of the bound: whatever the
      lane looked at before, and whether its back-off was scheduled or restored. */
  lemma NeverWaitsLong(t: Timing, due: Due, start: Reading, looks: seq<Reading>, now: Reading)
    requires ValidTiming(t) && FloorOK(due.retryAfter) && 0 <= start.mono <= now.mono && Bounded(t, due, start)
    ensures Wait(t, AfterLooks(t, due, looks), now) < Max(t.most, due.retryAfter) + MILLISECOND
  {
    LooksKeepTheRest(t, due, looks);
    hide AfterLooks;
    WrapBack(due.monoDue, start.mono);
    MonoLeft(start.mono, Wrap64(due.monoDue - start.mono), now.mono);
  }

  /** A wait just scheduled is the delay, or less than a millisecond more than the
      bound. */
  lemma ScheduledWait(t: Timing, d: Due, at: Reading, floor: int)
    requires ValidTiming(t) && FloorOK(floor) && 0 <= at.mono
    ensures var due := Scheduled(t, d, at, floor);
            Delay(t, due.attempts, floor) <= Wait(t, due, at) < Max(t.most, floor) + MILLISECOND
  {
    var due := Scheduled(t, d, at, floor);
    DelayFits(t, due.attempts, floor);
    ScheduledIsBounded(t, d, at, floor);
    NeverWaitsLong(t, due, at, [], at);
    hide Delay, FloorOK;
    MonoLeft(at.mono, Delay(t, due.attempts, floor), at.mono);
  }

  // ---------------------------------------------------------------------
  // Across a restart
  // ---------------------------------------------------------------------

  /** A deadline in whole milliseconds, with a Retry-After in whole seconds, is
      stored exactly. */
  predicate Storable(d: Due) {
    && d.notBefore.Some? && d.notBefore.value % MILLISECOND == 0 && FloorOK(d.retryAfter)
  }

  lemma {:induction false} LooksKeepStorable(t: Timing, due: Due, looks: seq<Reading>)
    requires Storable(due)
    ensures Storable(AfterLooks(t, due, looks))
  {
    LooksKeepTheRest(t, due, looks);
    if looks != [] { LooksKeepStorable(t, due, Front(looks)); }
  }

  /** The record validates, when written and when reloaded, exactly while its
      deadline is a positive safe number of milliseconds. */
  lemma RecordValidates(t: Timing, d: Due, start: Reading, floor: int, id: Id, looks: seq<Reading>)
    requires ValidTiming(t) && FloorOK(floor) && d.attempts <= MAX_BACKOFF_ATTEMPTS
    ensures var due := AfterLooks(t, Scheduled(t, d, start, floor), looks);
            Storable(due) && (ValidBackoff(RecordOf(due, id)) <==>
                0 < due.notBefore.value / MILLISECOND <= MAX_SAFE_INTEGER)
  {
    LooksKeepStorable(t, Scheduled(t, d, start, floor), looks);
    LooksKeepTheRest(t, Scheduled(t, d, start, floor), looks);
    hide AfterLooks, Delay;
  }

  /** A restart restores the attempts and the Retry-After, and a deadline clamped as
      any look clamps it, whose rest it puts on the new process's monotonic clock
      too. It is the very deadline a look at the same clock would leave, but where
      the bound is the greatest duration, which no look's difference can exceed. */
  lemma RestartRestores(t: Timing, due: Due, id: Id, at: Reading)
    requires ValidTiming(t) && Storable(due) && at.mono >= 0 && ValidBackoff(RecordOf(due, id))
    ensures var back := Restored(t, RecordOf(due, id), at);
            var latest := CeilMilli(at.wall + WaitBound(t, due.retryAfter));
            && back.notBefore == Some(Min(due.notBefore.value, latest)) && back.attempts == due.attempts
            && back.retryAfter == due.retryAfter && back.record == Some(id)
            && Wait(t, back, at) == Max(Sub(back.notBefore.value, at.wall), 0)
            && back.monoDue == Wrap64(at.mono + Max(Sub(back.notBefore.value, at.wall), 0))
            && (back.notBefore == Looked(t, due, at).notBefore <==> t.most < MAX_INT64 || due.notBefore.value <= latest)
  {
    RestoredParts(t, due, id, at);
    var back := Restored(t, RecordOf(due, id), at);
    hide Restored, RecordOf, ValidBackoff, CeilMilli;
    RestoredWaits(t, back, at);
    LookAgrees(t, due, at);
  }

  lemma RestoredParts(t: Timing, due: Due, id: Id, at: Reading)
    requires ValidTiming(t) && Storable(due) && at.mono >= 0 && ValidBackoff(RecordOf(due, id))
    ensures var back := Restored(t, RecordOf(due, id), at);
            var latest := CeilMilli(at.wall + WaitBound(t, due.retryAfter));
            && back.notBefore == Some(Min(due.notBefore.value, latest)) && back.attempts == due.attempts
            && back.retryAfter == due.retryAfter && back.record == Some(id)
            && back.monoDue == Wrap64(at.mono + Max(Sub(back.notBefore.value, at.wall), 0))
  {
    var n := due.notBefore.value;
    assert n / MILLISECOND * MILLISECOND == n && due.retryAfter / MILLISECOND * MILLISECOND == due.retryAfter;
    hide Wrap64, Sub, WaitBound;
  }

  lemma RestoredWaits(t: Timing, back: Due, at: Reading)
    requires ValidTiming(t) && at.mono >= 0 && back.notBefore.Some? && back.notBefore.value % MILLISECOND == 0
    requires back.notBefore.value <= CeilMilli(at.wall + WaitBound(t, back.retryAfter))
    requires back.monoDue == Wrap64(at.mono + Max(Sub(back.notBefore.value, at.wall), 0))
    ensures Wait(t, back, at) == Max(Sub(back.notBefore.value, at.wall), 0)
  {
    var left: Int64 := Max(Sub(back.notBefore.value, at.wall), 0);
    MonoLeft(at.mono, left, at.mono);
    hide Wrap64, WaitBound;
    assert Looked(t, back, at) == back || back.notBefore == Some(CeilMilli(at.wall + WaitBound(t, back.retryAfter)));
  }

  lemma LookAgrees(t: Timing, due: Due, at: Reading)
    requires ValidTiming(t) && Storable(due)
    ensures var latest := CeilMilli(at.wall + WaitBound(t, due.retryAfter));
            Some(Min(due.notBefore.value, latest)) == Looked(t, due, at).notBefore
            <==> t.most < MAX_INT64 || due.notBefore.value <= latest
  {
  }

  lemma {:induction false} DeadlineStays(t: Timing, due: Due, looks: seq<Reading>, from: int, delay: int)
    requires due.notBefore.Some? && due.notBefore.value >= from + delay && delay <= WaitBound(t, due.retryAfter)
    requires forall l | l in looks :: l.wall >= from
    ensures AfterLooks(t, due, looks).notBefore.Some? && AfterLooks(t, due, looks).notBefore.value >= from + delay
  {
    LooksKeepTheRest(t, due, looks);
    if looks != [] {
      assert Last(looks) in looks;
      LooksKeepTheRest(t, due, Front(looks));
      DeadlineStays(t, due, Front(looks), from, delay);
    }
  }

  /** Over a restart the delay still passes in full, however the wall clock stepped:
      what it shows past the earliest reading the first process took, and what then
      passes on the new process's monotonic clock, add up to the delay before an
      attempt. */
  lemma NeverEndsEarlyOverRestart(t: Timing, d: Due, start: Reading, floor: int, id: Id, looks: seq<Reading>, from: int,
                                  at: Reading, looks': seq<Reading>, now: Reading)
    requires ValidTiming(t) && FloorOK(floor) && 0 <= at.mono <= now.mono
    requires from <= start.wall && (forall l | l in looks :: from <= l.wall)
    ensures var due := Scheduled(t, d, start, floor);
            var record := RecordOf(AfterLooks(t, due, looks), id);
            ValidBackoff(record) && Wait(t, AfterLooks(t, Restored(t, record, at), looks'), now) <= 0 ==>
              Max(at.wall - from, 0) + (now.mono - at.mono) >= Delay(t, due.attempts, floor)
  {
    var due := Scheduled(t, d, start, floor);
    var delay := Delay(t, due.attempts, floor);
    DelayFits(t, due.attempts, floor);
    DeadlineStays(t, due, looks, from, delay);
    LooksKeepStorable(t, due, looks);
    LooksKeepTheRest(t, due, looks);
    var after := AfterLooks(t, due, looks);
    hide AfterLooks, Delay, Scheduled, RecordOf, ValidBackoff, Restored, Wait;
    if ValidBackoff(RecordOf(after, id)) {
      RestartKeepsDelay(t, after, id, at, looks', now, from, delay);
    }
  }

  lemma RestartKeepsDelay(t: Timing, due: Due, id: Id, at: Reading, looks: seq<Reading>, now: Reading, from: int,
                          delay: Int64)
    requires ValidTiming(t) && Storable(due) && 0 <= at.mono <= now.mono && ValidBackoff(RecordOf(due, id))
    requires 0 <= delay <= WaitBound(t, due.retryAfter) && due.notBefore.value >= from + delay
    ensures Wait(t, AfterLooks(t, Restored(t, RecordOf(due, id), at), looks), now) <= 0 ==>
              Max(at.wall - from, 0) + (now.mono - at.mono) >= delay
  {
    RestartRestores(t, due, id, at);
    var back := Restored(t, RecordOf(due, id), at);
    LooksKeepTheRest(t, back, looks);
    hide AfterLooks, RecordOf, ValidBackoff, Restored, WaitBound, Storable, Looked;
    MonoLeft(at.mono, Max(Sub(back.notBefore.value, at.wall), 0), now.mono);
  }

  // ---------------------------------------------------------------------
  // How far a back-off has grown, over every run
  // ---------------------------------------------------------------------

  /** No back-off in force, after a refusal that is not retried on a timer. */
  function Cleared(d: Due): Due {
    IDLE.(attempted := d.attempted)
  }

  /** The attempt delivered its head. */
  function Delivered(d: Due): Due {
    d.(attempts := 0, attempted := None)
  }

  /** What a lane's processes do, with the readings they take, whether a record was
      written or removed, and the head each process finds when it starts. */
  datatype Event =
    | Attempt(head: Id)
    | BackOff(at: Reading, floor: int, wrote: bool)
    | Look(at: Reading, wrote: bool)
    | Clear(removed: bool)
    | Retire(head: Id)
    | Restart(at: Reading, found: Option<Id>, wrote: bool)

  /** A lane: its back-off in memory, and the back-off records stored. */
  datatype Lane = Lane(due: Due, saved: map<Id, Backoff>)

  /** A record is stored only where it validates. */
  function Saved(l: Lane, d: Due, wrote: bool): Lane {
    if wrote && d.record.Some? && ValidBackoff(RecordOf(d, d.record.value))
    then Lane(d, l.saved[d.record.value := RecordOf(d, d.record.value)]) else l.(due := d)
  }

  function After(t: Timing, l: Lane, e: Event): Lane {
    match e
    case Attempt(head) => l.(due := Attempting(l.due, head))
    case BackOff(at, floor, wrote) => Saved(l, Scheduled(t, l.due, at, floor), wrote)
    case Look(at, wrote) => Saved(l, Looked(t, l.due, at), wrote && Looked(t, l.due, at) != l.due)
    case Clear(removed) =>
      Lane(Cleared(l.due),
           if removed && l.due.attempted.Some? then l.saved - {l.due.attempted.value} else l.saved)
    case Retire(head) => Lane(Delivered(l.due), l.saved - {head})
    case Restart(at, found, wrote) =>
      if found.Some? && found.value in l.saved && ValidBackoff(l.saved[found.value]) then
        var back := Restored(t, l.saved[found.value], at);
        Saved(l, back, wrote && RecordOf(back, found.value) != l.saved[found.value])
      else l.(due := IDLE)
  }

  function Ran(t: Timing, run: seq<Event>): Lane {
    if run == [] then Lane(IDLE, map[]) else After(t, Ran(t, Front(run)), Last(run))
  }

  /** The head this process last attempted, and has not delivered since. */
  function LastAttempt(run: seq<Event>): Option<Id> {
    if run == [] then None
    else match Last(run)
      case Attempt(head) => Some(head)
      case Retire(_) | Restart(_, _, _) => None
      case _ => LastAttempt(Front(run))
  }

  /** How often this process has backed off from `head` since it last attempted
      another, delivered one, or cleared its back-off: from the history alone. */
  function Streak(run: seq<Event>, head: Id): nat {
    if run == [] then 0
    else match Last(run)
      case Attempt(other) => if other == head then Streak(Front(run), head) else 0
      case BackOff(_, _, _) => Streak(Front(run), head) + if LastAttempt(Front(run)) == Some(head) then 1 else 0
      case Look(_, _) => Streak(Front(run), head)
      case _ => 0
  }

  lemma {:induction false} AttemptedIs(t: Timing, run: seq<Event>)
    ensures Ran(t, run).due.attempted == LastAttempt(run)
  {
    if run != [] { AttemptedIs(t, Front(run)); }
  }

  /** The attempts counted for the last attempted head are its streak. */
  lemma {:induction false} AttemptsAre(t: Timing, run: seq<Event>, head: Id)
    ensures LastAttempt(run) == Some(head) ==> Ran(t, run).due.attempts == Min(Streak(run, head), MAX_BACKOFF_ATTEMPTS)
    ensures LastAttempt(run) != Some(head) ==> Streak(run, head) == 0
  {
    if run != [] {
      AttemptsAre(t, Front(run), head);
      AttemptedIs(t, Front(run));
      hide Delay, CeilMilli, Wrap64, Restored;
    }
  }

  /** Looks and nothing else. */
  predicate OnlyLooks(run: seq<Event>) {
    forall e | e in run :: e.Look?
  }

  lemma {:induction false} LooksAttempt(t: Timing, run: seq<Event>, looks: seq<Event>)
    requires OnlyLooks(looks)
    ensures Ran(t, run + looks).due.attempts == Ran(t, run).due.attempts
    ensures Ran(t, run + looks).due.attempted == Ran(t, run).due.attempted
  {
    if looks == [] {
      assert run + looks == run;
    } else {
      assert Front(run + looks) == run + Front(looks) && Last(run + looks) == Last(looks) && Last(looks) in looks;
      LooksAttempt(t, run, Front(looks));
      hide CeilMilli, WaitBound;
    }
  }

  /** What sizes a back-off from `head`: with a back-off in force, the attempts before
      it plus one if and only if this process's last attempt was at that same head,
      and otherwise one. In the history's terms: one more than how often this process
      has backed off from it in a row. */
  lemma BackoffIsSized(t: Timing, run: seq<Event>, head: Id, looks: seq<Event>, at: Reading, floor: int, wrote: bool)
    requires OnlyLooks(looks)
    ensures var before := Ran(t, run).due;
            var due := Ran(t, run + [Attempt(head)] + looks + [BackOff(at, floor, wrote)]).due;
            && due.attempts == Min(Streak(run, head) + 1, MAX_BACKOFF_ATTEMPTS)
            && due.attempts ==
               (if LastAttempt(run) == Some(head) then Min(before.attempts + 1, MAX_BACKOFF_ATTEMPTS) else 1)
            && (0 < before.attempts <= MAX_BACKOFF_ATTEMPTS ==>
                  (due.attempts == Min(before.attempts + 1, MAX_BACKOFF_ATTEMPTS) <==> LastAttempt(run) == Some(head)))
            && due.monoDue == Wrap64(at.mono + Delay(t, due.attempts, floor)) && due.record == Some(head)
  {
    var begun := run + [Attempt(head)];
    hide Delay, CeilMilli, Wrap64, Streak, LastAttempt, Ran, OnlyLooks;
    AttemptsAre(t, run, head);
    AttemptedIs(t, run);
    RanOneMore(t, run, Attempt(head));
    LooksAttempt(t, begun, looks);
    RanOneMore(t, begun + looks, BackOff(at, floor, wrote));
  }

  lemma RanOneMore(t: Timing, run: seq<Event>, e: Event)
    ensures Ran(t, run + [e]) == After(t, Ran(t, run), e)
  {
    hide After;
    assert Front(run + [e]) == run;
  }

  /** So the first back-off after a restart starts from the beginning, whatever
      attempts the record restored. */
  lemma RestartForgetsGrowth(t: Timing, run: seq<Event>, back: Reading, found: Option<Id>, stored: bool, head: Id,
                             looks: seq<Event>, at: Reading, floor: int, wrote: bool)
    requires OnlyLooks(looks)
    ensures var start := run + [Restart(back, found, stored)];
            var due := Ran(t, start + [Attempt(head)] + looks + [BackOff(at, floor, wrote)]).due;
            due.attempts == 1 && due.monoDue == Wrap64(at.mono + Delay(t, 1, floor))
  {
    BackoffIsSized(t, run + [Restart(back, found, stored)], head, looks, at, floor, wrote);
  }

  /** The back-off in memory is the one stored. */
  predicate InForce(l: Lane) {
    && (forall id | id in l.saved :: l.saved[id].record == id)
    && (l.due.record.Some? ==>
          l.due.record.value in l.saved && l.saved[l.due.record.value] == RecordOf(l.due, l.due.record.value))
  }

  /** Every record of the run was written and validates, and a head is retired only by
      the attempt that delivered it. */
  predicate AllStored(t: Timing, run: seq<Event>) {
    run != [] ==>
      && AllStored(t, Front(run))
      && var l, e := Ran(t, Front(run)), Last(run);
      && (e.BackOff? || e.Look? || e.Restart? ==> e.wrote) && (e.Retire? ==> l.due.record.None?)
      && var d := After(t, l, e).due;
      d.record.Some? ==> ValidBackoff(RecordOf(d, d.record.value))
  }

  /** Then what is stored is what is in force, clamps included: a restart restores the
      deadline a clock that moved backwards was brought in to, not the one it
      replaced. */
  lemma {:induction false} StoredIsInForce(t: Timing, run: seq<Event>)
    requires AllStored(t, run)
    ensures InForce(Ran(t, run))
  {
    if run != [] {
      StoredIsInForce(t, Front(run));
      hide AllStored, Ran;
      StepStores(t, Ran(t, Front(run)), Last(run));
    }
  }

  lemma StepStores(t: Timing, l: Lane, e: Event)
    requires InForce(l) && (e.BackOff? || e.Look? || e.Restart? ==> e.wrote) && (e.Retire? ==> l.due.record.None?)
    requires var d := After(t, l, e).due; d.record.Some? ==> ValidBackoff(RecordOf(d, d.record.value))
    ensures InForce(After(t, l, e))
  {
    hide Delay, CeilMilli, Wrap64, ValidBackoff;
  }

  /** A back-off cleared after an attempt, its record removed, is not restored. */
  lemma ClearedIsNotRestored(t: Timing, run: seq<Event>, head: Id, at: Reading, wrote: bool)
    ensures Ran(t, run + [Attempt(head)] + [Clear(true)] + [Restart(at, Some(head), wrote)]).due == IDLE
  {
    RanOneMore(t, run, Attempt(head));
    RanOneMore(t, run + [Attempt(head)], Clear(true));
    RanOneMore(t, run + [Attempt(head)] + [Clear(true)], Restart(at, Some(head), wrote));
    hide Ran;
  }

  /** A first back-off is as long as the one `k` earlier attempts call for, exactly
      when the options leave no room to grow or the Retry-After covers it. */
  lemma GrowthIsKeptWhen(t: Timing, k: nat, floor: nat)
    requires ValidTiming(t) && DoublingsFit(t) && 1 <= k
    ensures Delay(t, 1, floor) == Delay(t, k + 1, floor) <==>
            t.base == t.most || floor >= Min(Scaled(t.base, k), t.most)
  {
    DoubledIs(t, k + 1);
    ScaledGrows(t.base, 1, k);
  }

  /** With the gateway's defaults: two back-offs from one head, each stored, then a
      restart that restores both attempts; the next back-off is five seconds, where
      twenty are due. */
  lemma RestartShortensABackoff(id: Id)
    ensures var t := NewTiming(0, 0, 0);
            var r0, r1, r2, r3 := Reading(0, 0), Reading(5_000 * MILLISECOND, 5_000 * MILLISECOND),
                                  Reading(6_000 * MILLISECOND, 0), Reading(15_000 * MILLISECOND, 9_000 * MILLISECOND);
            var run := [Attempt(id), BackOff(r0, 0, true), Attempt(id), BackOff(r1, 0, true)];
            && Ran(t, run + [Restart(r2, Some(id), true)]).due.attempts == 2
            && Wait(t, Ran(t, run + [Restart(r2, Some(id), true)]).due, r3) == 0
            && Ran(t, run + [Restart(r2, Some(id), true)] + [Attempt(id)] + [] + [BackOff(r3, 0, true)]).due.monoDue
               == r3.mono + 5_000 * MILLISECOND
            && Delay(t, 3, 0) == 20_000 * MILLISECOND
  {
    var t := NewTiming(0, 0, 0);
    var r0, r1, r2, r3 := Reading(0, 0), Reading(5_000 * MILLISECOND, 5_000 * MILLISECOND),
                          Reading(6_000 * MILLISECOND, 0), Reading(15_000 * MILLISECOND, 9_000 * MILLISECOND);
    var run := [Attempt(id), BackOff(r0, 0, true), Attempt(id), BackOff(r1, 0, true)];
    RestartForgetsGrowth(t, run, r2, Some(id), true, id, [], r3, 0, true);
    var one, two, three := [Attempt(id)], [Attempt(id), BackOff(r0, 0, true)],
                           [Attempt(id), BackOff(r0, 0, true), Attempt(id)];
    assert Front(one) == [] && Front(two) == one && Front(three) == two && Front(run) == three;
    assert Front(run + [Restart(r2, Some(id), true)]) == run;
    assert t == Timing(DEFAULT_RETRY, DEFAULT_RETRY, DEFAULT_MOST);
    assert Doubled(t, 1) == DEFAULT_RETRY && Doubled(t, 2) == 2 * DEFAULT_RETRY && Doubled(t, 3) == 4 * DEFAULT_RETRY;
    assert Delay(t, 1, 0) == DEFAULT_RETRY && Delay(t, 2, 0) == 2 * DEFAULT_RETRY;
    assert Ran(t, one) == Lane(Due(None, 0, 0, 0, None, Some(id)), map[]);
    var due1 := Due(Some(DEFAULT_RETRY), DEFAULT_RETRY, 1, 0, Some(id), Some(id));
    assert Ran(t, two).due == due1;
    assert Ran(t, three).due == due1.(notBefore := None, monoDue := 0, record := None);
    var due := Due(Some(15_000 * MILLISECOND), 15_000 * MILLISECOND, 2, 0, Some(id), Some(id));
    assert Ran(t, run).due == due && Ran(t, run).saved[id] == RecordOf(due, id);
  }

  // ---------------------------------------------------------------------
  // The lane's fields
  // ---------------------------------------------------------------------

  class LaneTimer {
    const timing: Timing
    var notBefore: Option<int>
    var monoDue: Int64
    var attempts: nat
    var retryAfter: int
    var backoffID: Option<Id>
    var attempted: Option<Id>

    function View(): Due
      reads this
    {
      Due(notBefore, monoDue, attempts, retryAfter, backoffID, attempted)
    }

    constructor (t: Timing)
      ensures timing == t && View() == IDLE
    {
      timing := t;
      notBefore, monoDue, attempts, retryAfter, backoffID, attempted := None, 0, 0, 0, None, None;
    }

    /** An attempt at the lane's head begins. */
    method BeginAttempt(head: Id)
      modifies this
      ensures View() == Attempting(old(View()), head)
      ensures attempts == if old(attempted) == Some(head) then old(attempts) else 0
    {
      if attempted != Some(head) { attempts := 0; }
      attempted, notBefore, monoDue, retryAfter, backoffID := Some(head), None, 0, 0, None;
    }

    /** The head has been delivered and retired. */
    method Retired()
      modifies this`attempts, this`attempted
      ensures View() == Delivered(old(View())) && attempts == 0 && attempted.None?
    {
      attempts, attempted := 0, None;
    }

    /** Sets the next permitted attempt, and the record to persist it as. */
    method ScheduleBackoff(at: Reading, floor: int) returns (wait: int, record: Option<Backoff>)
      requires ValidTiming(timing) && FloorOK(floor) && 0 <= at.mono
      modifies this
      ensures View() == Looked(timing, Scheduled(timing, old(View()), at, floor), at)
      ensures Delay(timing, attempts, floor) <= wait < Max(timing.most, floor) + MILLISECOND
      ensures record ==
              if attempted.Some? then Some(RecordOf(Scheduled(timing, old(View()), at, floor), attempted.value))
              else None
    {
      hide Delay, FloorOK, Wait, WaitBound, CeilMilli, Wrap64;
      ScheduledWait(timing, View(), at, floor);
      if attempts < MAX_BACKOFF_ATTEMPTS { attempts := attempts + 1; }
      var delay := BackoffDelay(timing, attempts, floor);
      notBefore := Some(CeilMilli(at.wall + delay));
      monoDue := Wrap64(at.mono + delay);
      retryAfter, backoffID := floor, attempted;
      record := if attempted.Some? then Some(RecordOf(View(), attempted.value)) else None;
      wait := UntilDue(at);
    }

    /** How long the back-off still forbids an attempt, on both clocks. */
    method UntilDue(at: Reading) returns (wait: int)
      modifies this`notBefore
      ensures View() == Looked(timing, old(View()), at)
      ensures wait == Wait(timing, old(View()), at)
    {
      var left := WallLeft(View(), at.wall);
      var bound := WaitBound(timing, retryAfter);
      if left > bound {
        notBefore := Some(CeilMilli(at.wall + bound));
        left := Sub(notBefore.value, at.wall);
      }
      wait := Max(left, Wrap64(monoDue - at.mono));
    }

    /** One turn of the lane's loop, on a handoff or when its timer fires: whether it
        goes on to an attempt. A head that is held or waits for a handoff is never
        attempted on the timer, and no turn brings a back-off forward. */
    method Turn(timer: bool, silent: bool, at: Reading) returns (attempt: bool)
      modifies this`notBefore
      ensures attempt <==> !(timer && silent) && Wait(timing, old(View()), at) <= 0
      ensures View() == if timer && silent then old(View()) else Looked(timing, old(View()), at)
    {
      if timer && silent { return false; }
      var wait := UntilDue(at);
      attempt := wait <= 0;
    }

    /** Adopts the back-off an earlier process persisted, before any attempt. */
    method Restore(record: Backoff, at: Reading)
      requires ValidBackoff(record)
      modifies this
      ensures View() == Restored(timing, record, at).(attempted := old(attempted))
    {
      var floor := if record.retryAfter.Some? then record.retryAfter.value * MILLISECOND else 0;
      var until := record.notBefore * MILLISECOND;
      var latest := at.wall + WaitBound(timing, floor);
      if until > latest { until := CeilMilli(latest); }
      notBefore, attempts, retryAfter, backoffID := Some(until), record.attempts, floor, Some(record.record);
      monoDue := Wrap64(at.mono + Max(Sub(until, at.wall), 0));
    }

    /** No back-off is in force; an attempt is due at once. */
    method ClearBackoff()
      modifies this
      ensures View() == Cleared(old(View()))
      ensures forall at: Reading | at.mono >= 0 :: Wait(timing, View(), at) <= 0
    {
      notBefore, monoDue, attempts, retryAfter, backoffID := None, 0, 0, 0, None;
    }
  }
}
