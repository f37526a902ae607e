/** The replay receiver of internal/mqttauth/replay.go, and checkFreshAndRecord
    around it: a bounded memory of accepted envelopes, a floor standing in for
    every one it has dropped, and two heaps that find what to drop.

    `Memory` is what the receiver knows; the class `Receiver` keeps it in a key
    map and two heaps. `Ideal` never forgets, and is what the memory stands for. */
module Replay {
  import opened Base
  import opened ReplayKeys
  import opened IndexedHeaps

  /** An accepted envelope's signing and receipt times. */
  datatype Held = Held(signedAt: int, receivedAt: int)

  datatype Memory = Memory(
    skew: int,
    ttl: int,
    stores: bool,
    maxKeys: int,
    floor: int,
    stored: Option<int>,
    keys: map<string, Held>)

  datatype Verdict = Accepted | Stale | Future | BeforeFloor | Replayed

  /** The first time a held key's retention has ended. */
  function DropAt(skew: int, ttl: int, h: Held): int {
    var at := h.signedAt + skew + 1;
    if ttl > 0 then Max(at, h.receivedAt + ttl) else at
  }

  function Recheck(m: Memory, key: string, signedAt: int): Verdict {
    if signedAt < m.floor then BeforeFloor
    else if key in m.keys then Replayed
    else Accepted
  }

  function Check(m: Memory, key: string, signedAt: int, t: int): Verdict {
    if signedAt < t - m.skew then Stale
    else if signedAt > t + m.skew then Future
    else Recheck(m, key, signedAt)
  }

  /** `after` is the greatest of `before` and one past each gone key's signing time. */
  ghost predicate Raises(before: Option<int>, keys: map<string, Held>, gone: set<string>, after: Option<int>)
    requires gone <= keys.Keys
  {
    && (before.Some? ==> after.Some? && before.value <= after.value)
    && (forall k | k in gone :: after.Some? && keys[k].signedAt < after.value)
    && (after == before || exists k | k in gone :: after == Some(keys[k].signedAt + 1))
  }

  /** m' is m with exactly the keys `gone` dropped, each raising the floor and
      the stored floor past its signing time. */
  ghost predicate Dropped(m: Memory, gone: set<string>, m': Memory) {
    && gone <= m.keys.Keys
    && m' == m.(keys := m.keys - gone, floor := m'.floor, stored := m'.stored)
    && Raises(Some(m.floor), m.keys, gone, Some(m'.floor))
    && Raises(m.stored, m.keys, gone, m'.stored)
  }

  /** The keys whose retention has ended at t. */
  ghost function Due(m: Memory, t: int): set<string> {
    set k | k in m.keys && DropAt(m.skew, m.ttl, m.keys[k]) <= t
  }

  /** Retention ends once the envelope is stale and, with a ttl, that long has passed
      since its receipt. */
  lemma DueExactly(m: Memory, t: int)
    ensures forall k | k in m.keys ::
              k in Due(m, t) <==> m.keys[k].signedAt < t - m.skew && (m.ttl > 0 ==> t - m.keys[k].receivedAt >= m.ttl)
  {
  }

  predicate Full(m: Memory) {
    m.maxKeys > 0 && |m.keys| >= m.maxKeys
  }

  /** k is a held key of least signing time. */
  ghost predicate Oldest(m: Memory, k: string) {
    k in m.keys && forall j | j in m.keys :: m.keys[k].signedAt <= m.keys[j].signedAt
  }

  ghost predicate Evicted(m: Memory, k: string, m': Memory) {
    Oldest(m, k) && Dropped(m, {k}, m')
  }

  function Adding(m: Memory, key: string, h: Held): Memory {
    m.(keys := m.keys[key := h])
  }

  /** An accepted key is held, a full receiver dropping its oldest first. */
  ghost predicate Recorded(m: Memory, key: string, h: Held, m': Memory) {
    if Full(m) then exists k, q :: Evicted(m, k, q) && m' == Adding(q, key, h)
    else m' == Adding(m, key, h)
  }

  function Fresh(skew: int, ttl: int, stores: bool, maxKeys: int, clock: int): Memory {
    Memory(skew, ttl, stores, maxKeys, clock, None, map[])
  }

  /** A restart at clock t under `skew`: a receiver that stores nothing keeps
      neither its keys nor its stored floor. */
  function Restarted(m: Memory, t: int, skew: int): Memory {
    var kept := if m.stores then m else m.(keys := map[], stored := None);
    kept.(skew := skew, floor := if kept.stored.Some? then Max(t, kept.stored.value) else t)
  }

  function Rotated(m: Memory, keepsPrevious: bool, t: int): Memory {
    if keepsPrevious then m else m.(keys := map[], stored := None, floor := t)
  }

  /** One envelope presented at clock t: prune, check, and record it when it is
      accepted and `applied` (always, where nothing decides it). */
  ghost predicate Presented(m: Memory, e: Envelope, t: int, applied: bool, m': Memory, v: Verdict) {
    exists p :: PresentedVia(m, e, t, applied, p, m', v)
  }

  ghost predicate PresentedVia(m: Memory, e: Envelope, t: int, applied: bool, p: Memory, m': Memory, v: Verdict) {
    && Dropped(m, Due(m, t), p)
    && v == Check(p, KeyOf(e), e.signedAt, t)
    && if v == Accepted && applied then Recorded(p, KeyOf(e), Held(e.signedAt, t), m') else m' == p
  }

  datatype Event =
    | Present(e: Envelope, t: int, applied: bool)
    | Restart(t: int, skew: int)
    | Rotate(keepsPrevious: bool, t: int)

  ghost predicate Step(m: Memory, ev: Event, m': Memory, v: Verdict) {
    match ev
    case Present(e, t, applied) => Presented(m, e, t, applied, m', v)
    case Restart(t, skew) => m' == Restarted(m, t, skew)
    case Rotate(keeps, t) => m' == Rotated(m, keeps, t)
  }

  /** One life of a receiver: ms[i] before event i, vs[i] its verdict. */
  ghost predicate IsLife(ms: seq<Memory>, evs: seq<Event>, vs: seq<Verdict>) {
    && |ms| == |evs| + 1 == |vs| + 1
    && forall i | 0 <= i < |evs| :: Step(ms[i], evs[i], ms[i + 1], vs[i])
  }

  predicate Takes(ev: Event, v: Verdict) {
    ev.Present? && ev.applied && v == Accepted
  }

  // ---------------------------------------------------------------------
  // No envelope is accepted twice
  // ---------------------------------------------------------------------

  /** Every envelope of `seen` is still held, or below the stored floor. */
  ghost predicate Remembers(m: Memory, seen: set<Envelope>) {
    && (m.stored.Some? ==> m.stored.value <= m.floor)
    && (forall e | e in seen ::
          || (KeyOf(e) in m.keys && m.keys[KeyOf(e)].signedAt == e.signedAt)
          || (m.stored.Some? && e.signedAt < m.stored.value))
  }

  lemma DropRemembers(m: Memory, gone: set<string>, m': Memory, seen: set<Envelope>)
    requires Remembers(m, seen) && Dropped(m, gone, m')
    ensures Remembers(m', seen)
  {
  }

  lemma AddRemembers(m: Memory, e: Envelope, t: int, seen: set<Envelope>)
    requires Remembers(m, seen)
    ensures Remembers(Adding(m, KeyOf(e), Held(e.signedAt, t)), seen + {e})
  {
    var m' := Adding(m, KeyOf(e), Held(e.signedAt, t));
    forall d | d in seen + {e}
      ensures || (KeyOf(d) in m'.keys && m'.keys[KeyOf(d)].signedAt == d.signedAt)
              || (m'.stored.Some? && d.signedAt < m'.stored.value)
    {
      if KeyOf(d) == KeyOf(e) { KeyInjective(d, e); }
    }
  }

  lemma RecordRemembers(p: Memory, e: Envelope, t: int, m': Memory, seen: set<Envelope>)
    requires Remembers(p, seen) && Recorded(p, KeyOf(e), Held(e.signedAt, t), m')
    ensures Remembers(m', seen + {e})
  {
    if Full(p) {
      var k, q :| Evicted(p, k, q) && m' == Adding(q, KeyOf(e), Held(e.signedAt, t));
      DropRemembers(p, {k}, q, seen);
      AddRemembers(q, e, t, seen);
    } else {
      AddRemembers(p, e, t, seen);
    }
  }

  lemma PresentRemembers(m: Memory, ev: Event, m': Memory, v: Verdict, seen: set<Envelope>)
    requires Remembers(m, seen) && ev.Present? && Step(m, ev, m', v)
    ensures Takes(ev, v) ==> ev.e !in seen
    ensures Remembers(m', if Takes(ev, v) then seen + {ev.e} else seen)
  {
    var p :| PresentedVia(m, ev.e, ev.t, ev.applied, p, m', v);
    DropRemembers(m, Due(m, ev.t), p, seen);
    if Takes(ev, v) { RecordRemembers(p, ev.e, ev.t, m', seen); }
  }

  /** Whether the event keeps what a receiver that stores, or not, remembers. */
  predicate Keeps(ev: Event, stores: bool) {
    match ev
    case Present(_, _, _) => true
    case Restart(_, _) => stores
    case Rotate(keeps, _) => keeps
  }

  ghost function Taken(evs: seq<Event>, vs: seq<Verdict>): set<Envelope>
    requires |evs| == |vs|
  {
    if evs == [] then {}
    else Taken(Front(evs), Front(vs)) + if Takes(Last(evs), Last(vs)) then {Last(evs).e} else {}
  }

  lemma {:induction false} TakenHas(evs: seq<Event>, vs: seq<Verdict>, i: nat)
    requires |evs| == |vs| && i < |evs| && Takes(evs[i], vs[i])
    ensures evs[i].e in Taken(evs, vs)
  {
    if i < |evs| - 1 { TakenHas(Front(evs), Front(vs), i); }
  }

  lemma {:induction false} LifeRemembers(ms: seq<Memory>, evs: seq<Event>, vs: seq<Verdict>)
    requires IsLife(ms, evs, vs) && ms[0].keys == map[] && ms[0].stored == None
    requires forall ev | ev in evs :: Keeps(ev, ms[0].stores)
    ensures Last(ms).stores == ms[0].stores
    ensures Remembers(Last(ms), Taken(evs, vs))
    decreases |evs|
  {
    if evs != [] {
      var n := |evs| - 1;
      LifePrefix(ms, evs, vs, n);
      LifeRemembers(ms[..n + 1], evs[..n], vs[..n]);
      StepRemembers(ms[n], evs[n], ms[n + 1], vs[n], Taken(evs[..n], vs[..n]));
    }
  }

  lemma LifePrefix(ms: seq<Memory>, evs: seq<Event>, vs: seq<Verdict>, n: nat)
    requires IsLife(ms, evs, vs) && n < |evs|
    requires forall ev | ev in evs :: Keeps(ev, ms[0].stores)
    ensures IsLife(ms[..n + 1], evs[..n], vs[..n]) && ms[..n + 1][0] == ms[0] && Last(ms[..n + 1]) == ms[n]
    ensures forall ev | ev in evs[..n] :: Keeps(ev, ms[0].stores)
    ensures Step(ms[n], evs[n], ms[n + 1], vs[n]) && Keeps(evs[n], ms[0].stores)
  {
    assert forall ev | ev in evs[..n] :: ev in evs;
    assert evs[n] in evs;
  }

  lemma StepRemembers(m: Memory, ev: Event, m': Memory, v: Verdict, seen: set<Envelope>)
    requires Remembers(m, seen) && Step(m, ev, m', v) && Keeps(ev, m.stores)
    ensures Remembers(m', seen + if Takes(ev, v) then {ev.e} else {}) && m'.stores == m.stores
  {
    if ev.Present? {
      PresentRemembers(m, ev, m', v, seen);
    }
    assert seen + {} == seen;
  }

  /** For arbitrary clocks and any pruning and eviction, no envelope is accepted
      twice in a run; for a storing receiver, nor across restarts under any skew
      and rotations that keep the previous secret. */
  lemma NeverAcceptedTwice(ms: seq<Memory>, evs: seq<Event>, vs: seq<Verdict>, i: nat, j: nat)
    requires IsLife(ms, evs, vs)
    requires ms[0] == Fresh(ms[0].skew, ms[0].ttl, ms[0].stores, ms[0].maxKeys, ms[0].floor)
    requires forall ev | ev in evs :: Keeps(ev, ms[0].stores)
    requires i < j < |evs| && Takes(evs[i], vs[i]) && Takes(evs[j], vs[j])
    ensures KeyOf(evs[i].e) != KeyOf(evs[j].e)
  {
    LifePrefix(ms, evs, vs, j);
    LifeRemembers(ms[..j + 1], evs[..j], vs[..j]);
    TakenHas(evs[..j], vs[..j], i);
    PresentRemembers(ms[j], evs[j], ms[j + 1], vs[j], Taken(evs[..j], vs[..j]));
    if KeyOf(evs[i].e) == KeyOf(evs[j].e) { KeyInjective(evs[i].e, evs[j].e); }
  }

  /** Exactly when a receiver that stores nothing accepts an envelope at the
      first presentation after a restart, whatever it accepted before: the clock
      at the start had not passed its signing time. */
  lemma RestartForgets(m: Memory, r: int, skew: int, e: Envelope, t: int, applied: bool, m': Memory, v: Verdict)
    requires !m.stores && Presented(Restarted(m, r, skew), e, t, applied, m', v)
    ensures v == Accepted <==> r <= e.signedAt && t - skew <= e.signedAt <= t + skew
  {
    var m1 := Restarted(m, r, skew);
    var p :| PresentedVia(m1, e, t, applied, p, m', v);
    assert Due(m1, t) == {};
  }

  /** So does any receiver after a rotation that keeps no previous secret. */
  lemma RotationForgets(m: Memory, r: int, e: Envelope, t: int, applied: bool, m': Memory, v: Verdict)
    requires Presented(Rotated(m, false, r), e, t, applied, m', v)
    ensures v == Accepted <==> r <= e.signedAt && t - m.skew <= e.signedAt <= t + m.skew
  {
    var m1 := Rotated(m, false, r);
    var p :| PresentedVia(m1, e, t, applied, p, m', v);
    assert Due(m1, t) == {};
  }

  // ---------------------------------------------------------------------
  // The receiver that never forgets
  // ---------------------------------------------------------------------

  /** Remembers every envelope it took, and its floor is the clock it started at. */
  datatype Ideal = Ideal(skew: int, floor: int, seen: set<Envelope>)

  function IdealVerdict(s: Ideal, e: Envelope, t: int): Verdict {
    if e.signedAt < t - s.skew then Stale
    else if e.signedAt > t + s.skew then Future
    else if e.signedAt < s.floor then BeforeFloor
    else if e in s.seen then Replayed
    else Accepted
  }

  function IdealNext(s: Ideal, ev: Event): Ideal
    requires ev.Present?
  {
    if IdealVerdict(s, ev.e, ev.t) == Accepted && ev.applied then s.(seen := s.seen + {ev.e}) else s
  }

  /** What the bounded memory knows of the ideal one, run on the same events:
      every envelope seen is held or below the floor, and every key held is seen. */
  ghost predicate Bounds(m: Memory, s: Ideal) {
    && m.skew == s.skew && s.floor <= m.floor
    && (forall e | e in s.seen ::
          (KeyOf(e) in m.keys && m.keys[KeyOf(e)].signedAt == e.signedAt) || e.signedAt < m.floor)
    && (forall k | k in m.keys :: Known(m, s, k))
  }

  ghost predicate Known(m: Memory, s: Ideal, k: string)
    requires k in m.keys
  {
    exists e | e in s.seen :: KeyOf(e) == k && e.signedAt == m.keys[k].signedAt
  }

  lemma DropBounds(m: Memory, gone: set<string>, m': Memory, s: Ideal)
    requires Bounds(m, s) && Dropped(m, gone, m')
    ensures Bounds(m', s)
  {
    forall k | k in m'.keys
      ensures Known(m', s, k)
    {
      assert Known(m, s, k);
    }
  }

  lemma AddBounds(m: Memory, e: Envelope, t: int, s: Ideal)
    requires Bounds(m, s)
    ensures Bounds(Adding(m, KeyOf(e), Held(e.signedAt, t)), s.(seen := s.seen + {e}))
  {
    var m', s' := Adding(m, KeyOf(e), Held(e.signedAt, t)), s.(seen := s.seen + {e});
    forall d | d in s'.seen
      ensures (KeyOf(d) in m'.keys && m'.keys[KeyOf(d)].signedAt == d.signedAt) || d.signedAt < m'.floor
    {
      if KeyOf(d) == KeyOf(e) { KeyInjective(d, e); }
    }
    forall k | k in m'.keys
      ensures Known(m', s', k)
    {
      if k == KeyOf(e) {
        assert e in s'.seen;
      } else {
        assert Known(m, s, k);
        var d :| d in s.seen && KeyOf(d) == k && d.signedAt == m.keys[k].signedAt;
        assert d in s'.seen;
      }
    }
  }

  /** A key held is of an envelope seen. */
  lemma HeldIsSeen(m: Memory, s: Ideal, e: Envelope)
    requires Bounds(m, s) && KeyOf(e) in m.keys
    ensures e in s.seen
  {
    assert Known(m, s, KeyOf(e));
    var d :| d in s.seen && KeyOf(d) == KeyOf(e);
    KeyInjective(d, e);
  }

  /** A refusal below the floor is kept by the ideal receiver having seen it. */
  lemma SeenBounds(m: Memory, e: Envelope, s: Ideal)
    requires Bounds(m, s) && e.signedAt < m.floor
    ensures Bounds(m, s.(seen := s.seen + {e}))
  {
    var s' := s.(seen := s.seen + {e});
    forall k | k in m.keys
      ensures Known(m, s', k)
    {
      assert Known(m, s, k);
      var d :| d in s.seen && KeyOf(d) == k && d.signedAt == m.keys[k].signedAt;
      assert d in s'.seen;
    }
  }

  lemma RecordBounds(p: Memory, e: Envelope, t: int, m': Memory, s: Ideal)
    requires Bounds(p, s) && Recorded(p, KeyOf(e), Held(e.signedAt, t), m')
    ensures Bounds(m', s.(seen := s.seen + {e}))
  {
    if Full(p) {
      var k, q :| Evicted(p, k, q) && m' == Adding(q, KeyOf(e), Held(e.signedAt, t));
      DropBounds(p, {k}, q, s);
      AddBounds(q, e, t, s);
    } else {
      AddBounds(p, e, t, s);
    }
  }

  /** The two verdicts on one envelope: the bounded receiver accepts only what the
      ideal one does, and refuses only below its floor what the ideal one accepts. */
  lemma VerdictBounds(p: Memory, s: Ideal, e: Envelope, t: int)
    requires Bounds(p, s)
    ensures var v := Check(p, KeyOf(e), e.signedAt, t);
            && (v == Accepted ==> IdealVerdict(s, e, t) == Accepted)
            && (v == BeforeFloor ==> e.signedAt < p.floor)
            && (v != Accepted && v != BeforeFloor ==> IdealVerdict(s, e, t) != Accepted)
  {
    if KeyOf(e) in p.keys { HeldIsSeen(p, s, e); }
  }

  /** One presentation to both receivers, each keeping its own memory: the
      bounded one accepts only what the ideal one does. */
  lemma PresentBounds(m: Memory, ev: Event, m': Memory, v: Verdict, s: Ideal)
    requires Bounds(m, s) && ev.Present? && Step(m, ev, m', v)
    ensures v == Accepted ==> IdealVerdict(s, ev.e, ev.t) == Accepted
    ensures Bounds(m', IdealNext(s, ev))
  {
    var p :| PresentedVia(m, ev.e, ev.t, ev.applied, p, m', v);
    DropBounds(m, Due(m, ev.t), p, s);
    VerdictBounds(p, s, ev.e, ev.t);
    hide Bounds, Check, IdealVerdict, Dropped, Due, Recorded, Step;
    if Takes(ev, v) {
      RecordBounds(p, ev.e, ev.t, m', s);
    } else if v == BeforeFloor {
      SeenBounds(p, ev.e, s);
    }
  }

  ghost function IdealAfter(s: Ideal, evs: seq<Event>): Ideal
    requires forall ev | ev in evs :: ev.Present?
  {
    if evs == [] then s else IdealNext(IdealAfter(s, Front(evs)), Last(evs))
  }

  ghost predicate OneRun(ms: seq<Memory>, evs: seq<Event>, vs: seq<Verdict>) {
    && IsLife(ms, evs, vs) && ms[0].keys == map[]
    && (forall ev | ev in evs :: ev.Present?)
  }

  lemma {:induction false} RunBounds(ms: seq<Memory>, evs: seq<Event>, vs: seq<Verdict>)
    requires OneRun(ms, evs, vs)
    ensures Bounds(Last(ms), IdealAfter(Ideal(ms[0].skew, ms[0].floor, {}), evs))
    decreases |evs|
  {
    if evs != [] {
      var n := |evs| - 1;
      assert forall ev | ev in Front(evs) :: ev in evs;
      RunBounds(ms[..n + 1], Front(evs), Front(vs));
      assert Last(evs) in evs;
      assert Step(ms[n], evs[n], ms[n + 1], vs[n]);
      PresentBounds(ms[n], evs[n], ms[n + 1], vs[n], IdealAfter(Ideal(ms[0].skew, ms[0].floor, {}), Front(evs)));
    }
  }

  /** For arbitrary clocks, pruning and eviction: whatever the bounded receiver
      accepts at any point of a run, the receiver that never forgets, having been
      presented the same envelopes, accepts too. */
  lemma AcceptsOnlyWhatIdealAccepts(ms: seq<Memory>, evs: seq<Event>, vs: seq<Verdict>, i: nat)
    requires OneRun(ms, evs, vs) && i < |evs| && vs[i] == Accepted
    ensures evs[i] in evs
    ensures forall ev | ev in evs[..i] :: ev.Present?
    ensures IdealVerdict(IdealAfter(Ideal(ms[0].skew, ms[0].floor, {}), evs[..i]), evs[i].e, evs[i].t) == Accepted
  {
    assert forall ev | ev in evs[..i] :: ev in evs;
    RunBounds(ms[..i + 1], evs[..i], vs[..i]);
    assert Step(ms[i], evs[i], ms[i + 1], vs[i]);
    PresentBounds(ms[i], evs[i], ms[i + 1], vs[i], IdealAfter(Ideal(ms[0].skew, ms[0].floor, {}), evs[..i]));
  }

  // ---------------------------------------------------------------------
  // Below capacity and under a clock that does not fall, they are the same
  // ---------------------------------------------------------------------

  /** Pruning has raised the floor no further than the stale bound at t. */
  predicate FloorIsStale(m: Memory, s: Ideal, t: int) {
    m.floor <= Max(s.floor, t - m.skew)
  }

  /** The clock never fell from t on, and no acceptance found the receiver full. */
  ghost predicate Calm(ms: seq<Memory>, evs: seq<Event>, vs: seq<Verdict>, t: int)
    requires OneRun(ms, evs, vs)
  {
    && (forall i | 0 <= i < |evs| :: t <= evs[i].t)
    && (forall i, j | 0 <= i < j < |evs| :: evs[i].t <= evs[j].t)
    && (forall i, p | 0 <= i < |evs| && Takes(evs[i], vs[i]) && Dropped(ms[i], Due(ms[i], evs[i].t), p) :: !Full(p))
  }

  lemma PruningStaysStale(m: Memory, p: Memory, s: Ideal, t: int, now: int)
    requires Bounds(m, s) && Dropped(m, Due(m, now), p) && FloorIsStale(m, s, t) && t <= now
    ensures FloorIsStale(p, s, now)
  {
    if p.floor != m.floor {
      var k :| k in Due(m, now) && p.floor == m.keys[k].signedAt + 1;
      assert DropAt(m.skew, m.ttl, m.keys[k]) >= m.keys[k].signedAt + m.skew + 1;
    }
  }

  lemma SameVerdict(m: Memory, ev: Event, p: Memory, m': Memory, v: Verdict, s: Ideal, t: int)
    requires Bounds(m, s) && ev.Present? && PresentedVia(m, ev.e, ev.t, ev.applied, p, m', v)
    requires FloorIsStale(m, s, t) && t <= ev.t
    requires Takes(ev, v) ==> !Full(p)
    ensures v == IdealVerdict(s, ev.e, ev.t)
    ensures FloorIsStale(m', s, ev.t)
  {
    DropBounds(m, Due(m, ev.t), p, s);
    if KeyOf(ev.e) in p.keys { HeldIsSeen(p, s, ev.e); }
    PruningStaysStale(m, p, s, t, ev.t);
    hide Due, Raises;
  }

  lemma {:induction false} CalmFloor(ms: seq<Memory>, evs: seq<Event>, vs: seq<Verdict>, t: int)
    requires OneRun(ms, evs, vs) && Calm(ms, evs, vs, t)
    ensures FloorIsStale(Last(ms), Ideal(ms[0].skew, ms[0].floor, {}), if evs == [] then t else Last(evs).t)
    decreases |evs|
  {
    if evs != [] {
      var n := |evs| - 1;
      CalmPrefix(ms, evs, vs, t, n);
      CalmFloor(ms[..n + 1], evs[..n], vs[..n], t);
      assert Last(ms[..n + 1]) == ms[n] && ms[..n + 1][0] == ms[0];
      assert n > 0 ==> Last(evs[..n]) == evs[n - 1];
      CalmVerdict(ms, evs, vs, t, n);
    }
  }

  lemma CalmPrefix(ms: seq<Memory>, evs: seq<Event>, vs: seq<Verdict>, t: int, n: nat)
    requires OneRun(ms, evs, vs) && Calm(ms, evs, vs, t) && n <= |evs|
    ensures OneRun(ms[..n + 1], evs[..n], vs[..n]) && Calm(ms[..n + 1], evs[..n], vs[..n], t)
  {
    assert forall ev | ev in evs[..n] :: ev in evs;
    forall i, p | 0 <= i < n && Takes(evs[..n][i], vs[..n][i])
        && Dropped(ms[..n + 1][i], Due(ms[..n + 1][i], evs[..n][i].t), p)
      ensures !Full(p)
    {
      assert Takes(evs[i], vs[i]) && Dropped(ms[i], Due(ms[i], evs[i].t), p);
    }
  }

  /** Event n of a calm run, given how far the floor had risen before it. */
  lemma CalmVerdict(ms: seq<Memory>, evs: seq<Event>, vs: seq<Verdict>, t: int, n: nat)
    requires OneRun(ms, evs, vs) && Calm(ms, evs, vs, t) && n < |evs|
    requires FloorIsStale(ms[n], Ideal(ms[0].skew, ms[0].floor, {}), if n == 0 then t else evs[n - 1].t)
    ensures FloorIsStale(ms[n + 1], Ideal(ms[0].skew, ms[0].floor, {}), evs[n].t)
    ensures forall ev | ev in evs[..n] :: ev.Present?
    ensures vs[n] == IdealVerdict(IdealAfter(Ideal(ms[0].skew, ms[0].floor, {}), evs[..n]), evs[n].e, evs[n].t)
  {
    assert forall ev | ev in evs[..n] :: ev in evs;
    var s := IdealAfter(Ideal(ms[0].skew, ms[0].floor, {}), evs[..n]);
    RunBounds(ms[..n + 1], evs[..n], vs[..n]);
    IdealKeepsFloor(Ideal(ms[0].skew, ms[0].floor, {}), evs[..n]);
    assert Step(ms[n], evs[n], ms[n + 1], vs[n]) && evs[n] in evs;
    var p :| PresentedVia(ms[n], evs[n].e, evs[n].t, evs[n].applied, p, ms[n + 1], vs[n]);
    SameVerdict(ms[n], evs[n], p, ms[n + 1], vs[n], s, if n == 0 then t else evs[n - 1].t);
  }

  lemma {:induction false} IdealKeepsFloor(s: Ideal, evs: seq<Event>)
    requires forall ev | ev in evs :: ev.Present?
    ensures IdealAfter(s, evs).floor == s.floor
  {
    if evs != [] { IdealKeepsFloor(s, Front(evs)); }
  }

  /** Under a clock that does not fall, and below capacity, every verdict of the
      bounded receiver is the ideal one's, its reason included. */
  lemma CalmRunIsIdeal(ms: seq<Memory>, evs: seq<Event>, vs: seq<Verdict>, t: int, n: nat)
    requires OneRun(ms, evs, vs) && Calm(ms, evs, vs, t) && n < |evs|
    ensures forall ev | ev in evs[..n] :: ev.Present?
    ensures evs[n] in evs
    ensures vs[n] == IdealVerdict(IdealAfter(Ideal(ms[0].skew, ms[0].floor, {}), evs[..n]), evs[n].e, evs[n].t)
  {
    CalmPrefix(ms, evs, vs, t, n);
    CalmFloor(ms[..n + 1], evs[..n], vs[..n], t);
    CalmVerdict(ms, evs, vs, t, n);
  }

  // ---------------------------------------------------------------------
  // The receiver in place
  // ---------------------------------------------------------------------

  /** Dropping in two steps is dropping at once. */
  lemma DropsCompose(m: Memory, g: set<string>, m1: Memory, h: set<string>, m2: Memory)
    requires Dropped(m, g, m1) && Dropped(m1, h, m2)
    ensures Dropped(m, g + h, m2)
  {
    assert m2.keys == m.keys - (g + h);
  }

  function WithoutKey(m: Memory, k: string): Memory
    requires k in m.keys
  {
    var raised := m.keys[k].signedAt + 1;
    m.(keys := m.keys - {k}, floor := Max(m.floor, raised),
       stored := Some(if m.stored.Some? then Max(m.stored.value, raised) else raised))
  }

  lemma WithoutKeyDrops(m: Memory, k: string)
    requires k in m.keys
    ensures Dropped(m, {k}, WithoutKey(m, k))
  {
    assert k in {k};
  }

  /** What the two heaps order the held keys by. */
  function SignTimes(keys: map<string, Held>): map<string, int> {
    map k | k in keys :: keys[k].signedAt
  }

  function DropTimes(skew: int, ttl: int, keys: map<string, Held>): map<string, int> {
    map k | k in keys :: DropAt(skew, ttl, keys[k])
  }

  lemma TimesWithout(skew: int, ttl: int, keys: map<string, Held>, k: string)
    ensures SignTimes(keys - {k}) == SignTimes(keys) - {k}
    ensures DropTimes(skew, ttl, keys - {k}) == DropTimes(skew, ttl, keys) - {k}
  {
  }

  lemma TimesWith(skew: int, ttl: int, keys: map<string, Held>, k: string, h: Held)
    ensures SignTimes(keys[k := h]) == SignTimes(keys)[k := h.signedAt]
    ensures DropTimes(skew, ttl, keys[k := h]) == DropTimes(skew, ttl, keys)[k := DropAt(skew, ttl, h)]
  {
  }

  class Receiver {
    var skew: int
    var ttl: int
    var stores: bool
    var maxKeys: int
    var floor: int
    var storedFloor: int
    var storedSet: bool
    var keys: map<string, Held>
    var bySign: IndexedHeap<string>
    var byDrop: IndexedHeap<string>

    /** Both heaps hold exactly the held keys, in order, each at its position. */
    ghost predicate Valid()
      reads this, bySign, byDrop
    {
      && bySign != byDrop && bySign.Valid() && byDrop.Valid()
      && bySign.prio == SignTimes(keys)
      && byDrop.prio == DropTimes(skew, ttl, keys)
    }

    ghost function View(): Memory
      reads this
    {
      Memory(skew, ttl, stores, maxKeys, floor, if storedSet then Some(storedFloor) else None, keys)
    }

    constructor (skew: int, ttl: int, stores: bool, maxKeys: int, clock: int)
      ensures Valid() && fresh({bySign, byDrop})
      ensures View() == Fresh(skew, ttl, stores, maxKeys, clock)
    {
      this.skew, this.ttl, this.stores, this.maxKeys, floor := skew, ttl, stores, maxKeys, clock;
      storedFloor, storedSet, keys := 0, false, map[];
      bySign := new IndexedHeap();
      byDrop := new IndexedHeap();
    }

    /** Takes a held key out of the map and both heaps. */
    method Unhold(k: string)
      requires Valid() && k in keys
      modifies this`keys, bySign, byDrop
      ensures Valid() && keys == old(keys) - {k}
    {
      TimesWithout(skew, ttl, keys, k);
      bySign.Remove(bySign.pos[k]);
      byDrop.Remove(byDrop.pos[k]);
      keys := keys - {k};
    }

    /** Removes a held key, raising both floors past its signing time. */
    method Drop(k: string)
      requires Valid() && k in keys
      modifies this, bySign, byDrop
      ensures Valid() && bySign == old(bySign) && byDrop == old(byDrop)
      ensures View() == WithoutKey(old(View()), k) && Dropped(old(View()), {k}, View())
    {
      WithoutKeyDrops(View(), k);
      var raised := keys[k].signedAt + 1;
      Raise(raised);
      Unhold(k);
    }

    /** Raises the floor, and the stored floor, to at least `raised`. */
    method Raise(raised: int)
      modifies this`floor, this`storedFloor, this`storedSet
      ensures floor == Max(old(floor), raised) && storedSet
      ensures storedFloor == if old(storedSet) then Max(old(storedFloor), raised) else raised
    {
      if raised > floor {
        floor := raised;
      }
      if !storedSet || raised > storedFloor {
        storedFloor, storedSet := raised, true;
      }
    }

    /** Drops every key whose retention has ended at t, and no other. */
    method Prune(t: int)
      requires Valid()
      modifies this, bySign, byDrop
      ensures Valid() && bySign == old(bySign) && byDrop == old(byDrop)
      ensures Dropped(old(View()), Due(old(View()), t), View())
      ensures forall k | k in old(keys) ::
                k !in keys <==>
                  var h := old(keys)[k];
                  h.signedAt < t - skew && (ttl > 0 ==> t - h.receivedAt >= ttl)
    {
      ghost var before := View();
      ghost var gone: set<string> := {};
      DueExactly(before, t);
      hide DropAt;
      while byDrop.items != [] && byDrop.prio[byDrop.items[0]] <= t
        invariant Valid() && bySign == old(bySign) && byDrop == old(byDrop)
        invariant gone <= Due(before, t) && Dropped(before, gone, View())
        decreases |keys|
      {
        var k := byDrop.items[0];
        ghost var m := View();
        assert k in byDrop.prio;
        Drop(k);
        DropsCompose(before, gone, m, {k}, View());
        gone := gone + {k};
      }
      forall k | k in Due(before, t)
        ensures k in gone
      {
        if k in keys { byDrop.HeadIsLeast(k); }
      }
      assert gone == Due(before, t);
    }

    /** Drops a held key of least signing time, if any is held. */
    method Evict()
      requires Valid()
      modifies this, bySign, byDrop
      ensures Valid() && bySign == old(bySign) && byDrop == old(byDrop)
      ensures if old(keys) == map[] then View() == old(View()) else exists k :: Evicted(old(View()), k, View())
    {
      if bySign.items != [] {
        var k := bySign.items[0];
        assert k in bySign.prio;
        forall j | j in keys
          ensures keys[k].signedAt <= keys[j].signedAt
        {
          bySign.HeadIsLeast(j);
        }
        ghost var before := View();
        Drop(k);
        assert Evicted(before, k, View());
      } else {
        forall k | k in keys
          ensures false
        {
          bySign.HeadIsLeast(k);
        }
      }
    }

    /** Holds an accepted key, within the bound on held keys. */
    method Record(key: string, signedAt: int, receivedAt: int)
      requires Valid() && key !in keys
      modifies this, bySign, byDrop
      ensures Valid() && bySign == old(bySign) && byDrop == old(byDrop)
      ensures Recorded(old(View()), key, Held(signedAt, receivedAt), View())
      ensures maxKeys > 0 && old(|keys|) <= maxKeys ==> |keys| <= maxKeys
      ensures maxKeys <= 0 || old(|keys|) < maxKeys ==> keys == old(keys)[key := Held(signedAt, receivedAt)]
    {
      ghost var before := View();
      if maxKeys > 0 && |keys| >= maxKeys {
        Evict();
        ghost var k :| Evicted(before, k, View());
        assert |keys| == |before.keys| - 1 by { assert keys.Keys == before.keys.Keys - {k}; }
      }
      Hold(key, Held(signedAt, receivedAt));
    }

    method Hold(key: string, held: Held)
      requires Valid() && key !in keys
      modifies this`keys, bySign, byDrop
      ensures Valid() && View() == Adding(old(View()), key, held)
    {
      TimesWith(skew, ttl, keys, key, held);
      PushBoth(key, held.signedAt, DropAt(skew, ttl, held));
      keys := keys[key := held];
    }

    method PushBoth(key: string, signedAt: int, dropAt: int)
      requires bySign != byDrop && bySign.Valid() && byDrop.Valid() && key !in bySign.prio && key !in byDrop.prio
      modifies bySign, byDrop
      ensures bySign.Valid() && byDrop.Valid()
      ensures bySign.prio == old(bySign.prio)[key := signedAt] && byDrop.prio == old(byDrop.prio)[key := dropAt]
    {
      bySign.Push(key, signedAt);
      byDrop.Push(key, dropAt);
    }

    /** Forgets every key and the stored floor. */
    method Forget()
      modifies this`keys, this`storedSet, this`storedFloor, this`bySign, this`byDrop
      ensures Valid() && fresh({bySign, byDrop})
      ensures View() == old(View()).(keys := map[], stored := None)
    {
      keys, storedSet, storedFloor := map[], false, 0;
      bySign := new IndexedHeap();
      byDrop := new IndexedHeap();
    }

    /** Starts again at clock t under a new skew, restoring the drop order. */
    method Restart(t: int, skew: int)
      requires Valid()
      modifies this, bySign, byDrop
      ensures Valid() && fresh({bySign, byDrop} - old({bySign, byDrop}))
      ensures View() == Restarted(old(View()), t, skew)
      ensures this.skew == skew && (stores ==> keys == old(keys)) && (!stores ==> keys == map[])
      ensures floor == if stores && old(storedSet) then Max(t, old(storedFloor)) else t
    {
      if !stores {
        Forget();
      }
      this.skew := skew;
      byDrop.Init(DropTimes(skew, ttl, keys));
      floor := t;
      if storedSet && storedFloor > floor {
        floor := storedFloor;
      }
    }

    method Rotate(keepsPrevious: bool, t: int)
      requires Valid()
      modifies this
      ensures Valid() && fresh({bySign, byDrop} - old({bySign, byDrop}))
      ensures View() == Rotated(old(View()), keepsPrevious, t)
      ensures if keepsPrevious then View() == old(View()) else keys == map[] && !storedSet && floor == t
    {
      if keepsPrevious {
        return;
      }
      Forget();
      floor := t;
    }

    /** The four checks, in order. */
    method CheckEnvelope(key: string, signedAt: int, t: int) returns (v: Verdict)
      ensures v == Check(View(), key, signedAt, t)
    {
      if signedAt < t - skew {
        return Stale;
      }
      if signedAt > t + skew {
        return Future;
      }
      v := RecheckEnvelope(key, signedAt);
    }

    method RecheckEnvelope(key: string, signedAt: int) returns (v: Verdict)
      ensures v == Recheck(View(), key, signedAt)
    {
      if signedAt < floor {
        return BeforeFloor;
      }
      if key in keys {
        return Replayed;
      }
      v := Accepted;
    }

    /** Refuses a stale or replayed envelope, and records any other that is
        applied; the checks made again before recording never refuse. */
    method CheckFreshAndRecord(e: Envelope, t: int, applied: bool) returns (v: Verdict)
      requires Valid()
      modifies this, bySign, byDrop
      ensures Valid() && bySign == old(bySign) && byDrop == old(byDrop)
      ensures Presented(old(View()), e, t, applied, View(), v)
    {
      ghost var before := View();
      var key := ReplayKey(e.messageType, e.device, e.request, e.signedAt, e.signature);
      Prune(t);
      ghost var p := View();
      v := CheckEnvelope(key, e.signedAt, t);
      if v == Accepted && applied {
        var again := RecheckEnvelope(key, e.signedAt);
        assert again == Accepted;
        Record(key, e.signedAt, t);
      }
      assert PresentedVia(before, e, t, applied, p, View(), v);
    }
  }
}
