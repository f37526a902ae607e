/** The durable signing clock of internal/mqttauth/signingclock.go.

    Every critical section under the clock's mutex is one function on the value
    `Clock`, and one method of the class `SigningClock` proved equal to it. What
    a process and its state directory do with those steps is in StateDirectory. */
module SigningClocks {
  import opened Base

  const SIGNING_CEILING: int := MAX_INT64 - 2001
  const SIGNING_RESERVATION: int := 1000

  /** A mark that may be written. */
  predicate MarkInRange(mark: int) {
    0 <= mark < SIGNING_CEILING
  }

  /** The clock's fields. `write` names the outstanding write by the number of
      writes started before it, as the source names it by its channel; `started`
      counts the writes started, and `waiting` the values waiting for coverage. */
  datatype Clock = Clock(
    last: int,
    covered: int,
    written: int,
    episode: bool,
    closed: bool,
    write: Option<nat>,
    retry: bool,
    started: nat,
    waiting: nat)

  /** How one pass of Next's loop ends. */
  datatype Outcome = Issued(at: int) | Exhausted | Closed | Waits

  /** The mark that covers `at`: one reservation past the wall clock, or `at`
      itself when the clock runs ahead, below the ceiling. The sum is an int64's. */
  function ReservationFor(wall: Int64, at: int): (mark: int)
    ensures at < SIGNING_CEILING ==> at <= mark
    ensures mark < SIGNING_CEILING
    ensures mark <= Max(wall + SIGNING_RESERVATION, at)
    ensures wall + SIGNING_RESERVATION < SIGNING_CEILING ==> wall + SIGNING_RESERVATION <= mark
  {
    Min(Max(Wrap64(wall + SIGNING_RESERVATION), at), SIGNING_CEILING - 1)
  }

  /** The clock a durable start builds before its first write: `last` and
      `covered` at the mark found, `written` at the first mark. */
  function Starting(found: Option<int>, wall: Int64): (c: Clock)
    ensures found.Some? ==> c.last == c.covered == found.value
    ensures found.Some? && found.value < SIGNING_CEILING ==> found.value <= c.written
    ensures c.written < SIGNING_CEILING && c.written <= Max(wall + SIGNING_RESERVATION, c.last)
  {
    var start := Wrap64(wall + SIGNING_RESERVATION);
    var at := if found.Some? then found.value else 0;
    var mark := if found.Some? then Max(start, found.value) else start;
    Clock(at, at, Min(mark, SIGNING_CEILING - 1), false, false, None, false, 0, 0)
  }

  /** The first value a start could issue; a start whose first value would reach
      the ceiling is refused. */
  function FirstValue(found: Option<int>, wall: Int64): int {
    if found.Some? then Max(wall, found.value + 1) else wall
  }

  function StartWrite(c: Clock, mark: int): Clock {
    c.(written := Max(mark, c.written), write := Some(c.started), started := c.started + 1)
  }

  function ScheduleRetry(c: Clock): Clock {
    if c.retry || c.closed || c.write.Some? then c else c.(retry := true)
  }

  function OpenEpisode(c: Clock): Clock {
    if c.episode then c else ScheduleRetry(c.(episode := true))
  }

  /** A value that had registered a wait withdraws it as its Next returns. */
  function Leave(c: Clock, waited: bool): Clock
    requires waited ==> c.waiting > 0
  {
    if waited then c.(waiting := c.waiting - 1) else c
  }

  /** Whether a value the completed mark covers also starts the next extension:
      half the reservation is used, and the extension would move the mark. */
  predicate Extends(c: Clock, wall: Int64, at: int) {
    && !c.episode && c.write.None?
    && c.covered - at < SIGNING_RESERVATION / 2
    && ReservationFor(wall, at) > c.covered
  }

  function NextValue(c: Clock, wall: Int64): int {
    Max(wall, c.last + 1)
  }

  /** One pass of Next's loop, for a value that has (`waited`) or has not
      registered a wait yet. */
  function Pass(c: Clock, wall: Int64, waited: bool): (r: (Clock, Outcome))
    requires waited ==> c.waiting > 0
  {
    var at := NextValue(c, wall);
    if at >= SIGNING_CEILING then
      (Leave(c, waited), Exhausted)
    else if c.closed then
      (Leave(c, waited), Closed)
    else if at > c.covered && !c.episode then
      var c1 := if c.write.None? then StartWrite(c, ReservationFor(wall, at)) else c;
      (if waited then c1 else c1.(waiting := c1.waiting + 1), Waits)
    else
      var c1 := if Extends(c, wall, at) then StartWrite(c, ReservationFor(wall, at)) else c;
      (Leave(c1.(last := at), waited), Issued(at))
  }

  /** The outstanding write of `mark` ends, completed or failed. */
  function EndWrite(c: Clock, mark: int, ok: bool): Clock {
    var c1 := c.(write := None);
    var c2 :=
      if !ok then OpenEpisode(c1)
      else
        var c' := c1.(covered := Max(c1.covered, mark));
        if c'.episode && c'.covered >= c'.last then c'.(episode := false) else c';
    if c2.episode then ScheduleRetry(c2) else c2
  }

  /** The write bound passes for the write named `id`. */
  function WriteBound(c: Clock, id: nat): Clock {
    if c.write == Some(id) then OpenEpisode(c) else c
  }

  function RetryWrite(c: Clock, wall: Int64): Clock {
    var c1 := c.(retry := false);
    if c1.closed || !c1.episode || c1.write.Some? then c1
    else StartWrite(c1, ReservationFor(wall, c1.last))
  }

  function StopClock(c: Clock): Clock {
    c.(closed := true, retry := false)
  }

  /** What every clock a run holds keeps, whatever its timers and disk do: with
      no episode open the last value is at or below the completed mark; an
      unstopped episode has exactly one of an outstanding write and a scheduled
      retry; nothing else schedules a retry; every mark and value stays in range. */
  predicate ClockOK(c: Clock) {
    && 0 <= c.last < SIGNING_CEILING
    && 0 <= c.covered <= c.written < SIGNING_CEILING
    && (!c.episode ==> c.last <= c.covered)
    && (c.episode && !c.closed ==> (c.retry <==> c.write.None?))
    && (c.retry ==> c.episode && !c.closed && c.write.None?)
    && (c.write.Some? ==> c.write.value < c.started)
  }

  /** How a critical section that ends no write changes the clock: coverage and
      the stop stay, and a write starts only when none is outstanding and the
      clock is not stopped, never lower than a mark written before. */
  predicate Advances(c: Clock, c': Clock) {
    && c'.covered == c.covered && c'.closed == c.closed && c'.written >= c.written
    && (|| (c'.started == c.started && c'.write == c.write && c'.written == c.written)
        || (!c.closed && c.write.None? && c'.started == c.started + 1 && c'.write == Some(c.started)))
  }

  /** A pass keeps the invariant, and issues the least value that is at or past
      the wall clock and past the last one: without waiting exactly when a
      completed mark covers it or an episode is open, and never once stopped. */
  lemma PassKeeps(c: Clock, wall: Int64, waited: bool)
    requires ClockOK(c) && (waited ==> c.waiting > 0)
    ensures var (c', o) := Pass(c, wall, waited);
            && ClockOK(c') && Advances(c, c') && c'.episode == c.episode
            && NextValue(c, wall) >= wall && NextValue(c, wall) > c.last
            && NextValue(c, wall) in {wall, c.last + 1}
            && (o == Issued(NextValue(c, wall)) <==>
                NextValue(c, wall) < SIGNING_CEILING && !c.closed && (NextValue(c, wall) <= c.covered || c.episode))
            && (o.Issued? ==> c'.last == o.at == NextValue(c, wall))
            && (!o.Issued? ==> c'.last == c.last)
            && (o == Waits ==> c'.write.Some? && (c.write.None? ==> c'.written >= NextValue(c, wall)))
            && (o == Exhausted <==> NextValue(c, wall) >= SIGNING_CEILING)
            && (o == Closed <==> NextValue(c, wall) < SIGNING_CEILING && c.closed)
            && c'.waiting ==
               c.waiting + (if o == Waits && !waited then 1 else 0) - (if o != Waits && waited then 1 else 0)
  {
  }

  /** When a pass starts a write: a value past the coverage does unless one is
      outstanding, and a covered one does once half the reservation is used, where
      that moves the mark; never in an episode. */
  lemma PassExtends(c: Clock, wall: Int64, waited: bool)
    requires ClockOK(c) && (waited ==> c.waiting > 0) && wall + SIGNING_RESERVATION <= MAX_INT64
    ensures var (c', o) := Pass(c, wall, waited);
            var at := Max(wall, c.last + 1);
            c'.started > c.started <==>
              && at < SIGNING_CEILING && !c.closed && !c.episode && c.write.None?
              && (at > c.covered
                  || (c.covered - at < SIGNING_RESERVATION / 2
                      && Min(Max(wall + SIGNING_RESERVATION, at), SIGNING_CEILING - 1) > c.covered))
  {
  }

  /** A stopped clock issues no value and starts no write, by any of its steps. */
  lemma StoppedClockIsQuiet(c: Clock, wall: Int64, waited: bool, id: nat, mark: int, ok: bool)
    requires c.closed && (waited ==> c.waiting > 0)
    ensures var (c', o) := Pass(c, wall, waited);
            !o.Issued? && Advances(c, c') && c'.last == c.last
    ensures forall c' | c' in {WriteBound(c, id), OpenEpisode(c), RetryWrite(c, wall), StopClock(c)} ::
              Advances(c, c') && c'.last == c.last
    ensures var c' := EndWrite(c, mark, ok);
            c'.closed && c'.started == c.started && c'.write.None? && c'.last == c.last
  {
  }

  /** Every other critical section keeps the invariant. An episode ends only by
      a completed write that covers every value issued. */
  lemma StepsKeep(c: Clock, wall: Int64, id: nat)
    requires ClockOK(c)
    ensures forall c' | c' in {WriteBound(c, id), OpenEpisode(c), RetryWrite(c, wall)} ::
              ClockOK(c') && Advances(c, c') && c'.last == c.last
    ensures ClockOK(StopClock(c))
    ensures c.write.Some? ==> forall ok :: ClockOK(EndWrite(c, c.written, ok))
    ensures c.write.Some? ==> forall ok :: c.episode && !EndWrite(c, c.written, ok).episode ==>
              ok && c.last <= EndWrite(c, c.written, ok).covered
  {
  }

  /** The clock itself: its fields, and its critical sections in place. */
  class SigningClock {
    var last: int
    var covered: int
    var written: int
    var episode: bool
    var closed: bool
    var write: Option<nat>
    var retry: bool
    var started: nat
    var waiting: nat

    function View(): Clock
      reads this
    {
      Clock(last, covered, written, episode, closed, write, retry, started, waiting)
    }

    ghost predicate Valid()
      reads this
    {
      ClockOK(View())
    }

    /** A durable start, up to its first write; a mark below zero is refused there. */
    constructor (found: Option<int>, wall: Int64)
      ensures View() == Starting(found, wall)
      ensures (found.Some? ==> MarkInRange(found.value)) ==> (Valid() <==> written >= 0)
    {
      var start: int := Wrap64(wall + SIGNING_RESERVATION);
      last, covered := 0, 0;
      if found.Some? {
        last := found.value;
        covered := found.value;
        start := Max(start, found.value);
      }
      start := Min(start, SIGNING_CEILING - 1);
      written := start;
      episode, closed, write, retry, started, waiting := false, false, None, false, 0, 0;
    }

    /** The start's first write has completed, and covers what it reserved. */
    method FirstWriteCompletes()
      requires Valid() && started == 0
      modifies this
      ensures Valid() && View() == old(View()).(covered := old(Max(covered, written)), started := 1)
      ensures covered == written
    {
      covered := Max(covered, written);
      started := 1;
    }

    method StartWriteLocked(mark: int)
      modifies this`written, this`write, this`started
      ensures View() == StartWrite(old(View()), mark)
    {
      var m := Max(mark, written);
      written := m;
      write := Some(started);
      started := started + 1;
    }

    method ScheduleRetryLocked()
      modifies this`retry
      ensures View() == ScheduleRetry(old(View()))
    {
      if retry || closed || write.Some? {
        return;
      }
      retry := true;
    }

    method OpenEpisodeLocked()
      modifies this`episode, this`retry
      ensures View() == OpenEpisode(old(View()))
    {
      if episode {
        return;
      }
      episode := true;
      ScheduleRetryLocked();
    }

    /** One pass of Next's loop; the caller of a pass that waits calls again once
        coverage, the episode, the outstanding write or the stop changed. */
    method NextPass(wall: Int64, waited: bool) returns (outcome: Outcome)
      requires Valid() && (waited ==> waiting > 0)
      modifies this`last, this`written, this`write, this`started, this`waiting
      ensures Valid() && (View(), outcome) == Pass(old(View()), wall, waited)
      ensures outcome.Issued? ==>
                && old(last) < outcome.at == last && wall <= outcome.at < SIGNING_CEILING
                && !closed && (outcome.at <= covered || episode)
      ensures !outcome.Issued? ==> last == old(last)
    {
      PassKeeps(View(), wall, waited);
      hide ClockOK, Pass;
      outcome := PassLocked(wall, waited);
    }

    /** What the pass does to the fields. */
    method PassLocked(wall: Int64, waited: bool) returns (outcome: Outcome)
      requires waited ==> waiting > 0
      modifies this`last, this`written, this`write, this`started, this`waiting
      ensures (View(), outcome) == Pass(old(View()), wall, waited)
    {
      var at := Max(wall, last + 1);
      if at >= SIGNING_CEILING {
        outcome := Exhausted;
      } else if closed {
        outcome := Closed;
      } else if at > covered && !episode {
        if write.None? {
          StartWriteLocked(ReservationFor(wall, at));
        }
        if !waited {
          waiting := waiting + 1;
        }
        return Waits;
      } else {
        if !episode && write.None? && covered - at < SIGNING_RESERVATION / 2 && ReservationFor(wall, at) > covered {
          StartWriteLocked(ReservationFor(wall, at));
        }
        last := at;
        outcome := Issued(at);
      }
      if waited {
        waiting := waiting - 1;
      }
    }

    /** The critical section of persist, once the write of `mark` has returned. */
    method Persisted(mark: int, ok: bool)
      requires Valid() && write.Some? && mark == written
      modifies this
      ensures Valid() && View() == EndWrite(old(View()), mark, ok)
      ensures ok ==> covered == mark && (episode <==> old(episode) && last > mark)
      ensures !ok ==> episode && (retry || closed)
    {
      StepsKeep(View(), 0, 0);
      write := None;
      if !ok {
        OpenEpisodeLocked();
      } else {
        covered := Max(covered, mark);
        if episode && covered >= last {
          episode := false;
        }
      }
      if episode {
        ScheduleRetryLocked();
      }
    }

    method WriteBoundPasses(id: nat)
      requires Valid()
      modifies this
      ensures Valid() && View() == WriteBound(old(View()), id)
      ensures if old(write) == Some(id) then episode && View() == old(View()).(episode := true)
              else View() == old(View())
    {
      StepsKeep(View(), 0, id);
      if write == Some(id) {
        OpenEpisodeLocked();
      }
    }

    method RetryFires(wall: Int64)
      requires Valid()
      modifies this
      ensures Valid() && View() == RetryWrite(old(View()), wall)
      ensures started > old(started) ==> old(write).None? && !closed && episode && last <= written
    {
      StepsKeep(View(), wall, 0);
      retry := false;
      if closed || !episode || write.Some? {
        return;
      }
      StartWriteLocked(ReservationFor(wall, last));
    }

    /** Stops the clock, and names the write whose end is quiescence, if any. */
    method Stop() returns (idle: Option<nat>)
      requires Valid()
      modifies this
      ensures Valid() && View() == StopClock(old(View())) && idle == old(write)
    {
      closed := true;
      if retry {
        retry := false;
      }
      idle := write;
    }
  }
}
