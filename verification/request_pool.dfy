/** The request pool of cmd/ori-gateway/requests.go with the callback gate of
    app.go: what arrives, the goroutines that drain it, and the stop that joins
    every message admitted. */
module RequestPools {
  import opened Base

  /** One admitted message; `token` is its admission through the gate. */
  datatype Request = Request(token: nat, device: string, family: string)

  datatype HeldKey = HeldKey(device: string, family: string)

  function KeyOf(r: Request): HeldKey {
    HeldKey(r.device, r.family)
  }

  /** The maps the pool keeps under its mutex. */
  datatype Tables = Tables(
    ordered: bool,
    limits: map<string, nat>,
    held: map<HeldKey, int>,
    queued: map<string, seq<Request>>,
    draining: set<string>)

  function HeldCount(t: Tables, k: HeldKey): int {
    if k in t.held then t.held[k] else 0
  }

  function LimitOf(t: Tables, family: string): nat {
    if family in t.limits then t.limits[family] else 0
  }

  function Of(m: map<string, seq<Request>>, device: string): seq<Request> {
    if device in m then m[device] else []
  }

  function QueueOf(t: Tables, device: string): seq<Request> {
    Of(t.queued, device)
  }

  /** A message within its allowance is held, and queued when the pool is ordered. */
  function Accepting(t: Tables, r: Request): Tables {
    var t1 := t.(held := t.held[KeyOf(r) := HeldCount(t, KeyOf(r)) + 1]);
    if !t.ordered then t1
    else t1.(queued := t.queued[r.device := QueueOf(t, r.device) + [r]], draining := t.draining + {r.device})
  }

  function Popping(t: Tables, device: string): Tables
    requires QueueOf(t, device) != []
  {
    t.(queued := t.queued[device := QueueOf(t, device)[1..]])
  }

  /** Whether a finished message was the last an ordered pool held queued. */
  predicate IsLast(t: Tables, device: string) {
    t.ordered && QueueOf(t, device) == []
  }

  function Finishing(t: Tables, r: Request): Tables {
    var left := HeldCount(t, KeyOf(r)) - 1;
    var t1 := t.(held := if left == 0 then t.held - {KeyOf(r)} else t.held[KeyOf(r) := left]);
    if IsLast(t, r.device) then t1.(queued := t.queued - {r.device}, draining := t.draining - {r.device})
    else t1
  }

  /** Where a goroutine stands: about to pop, with a message it has not begun,
      in the handler, past it, or about to release its admission. */
  datatype Stage =
    | ToPop
    | Popped(r: Request)
    | Handling(r: Request)
    | Handled(r: Request)
    | Releasing(r: Request, last: bool)

  datatype Worker = Worker(device: string, stage: Stage)

  /** Where an admitted message stands. */
  datatype Place = Queued | AtWorker(w: nat) | Leaving(w: nat) | Refused | Released

  /** The pool, the gate, the goroutines, and what has happened: where every
      admitted message stands, what arrived for each device and what its handler
      was called with, in order, and every admission released, in order. */
  datatype System = System(
    tables: Tables,
    closed: bool,
    running: int,
    workers: map<nat, Worker>,
    next: nat,
    broken: bool,
    place: map<Request, Place>,
    arrived: map<string, seq<Request>>,
    taken: map<string, seq<Request>>,
    handled: map<string, seq<Request>>,
    released: seq<Request>)

  datatype Action =
    | Arrive(device: string, family: string)
    | Refuse(r: Request)
    | Pop(w: nat)
    | Begin(w: nat)
    | Return(w: nat)
    | Finish(w: nat)
    | Release(w: nat)
    | Stop

  function Append(m: map<string, seq<Request>>, r: Request): map<string, seq<Request>> {
    m[r.device := Of(m, r.device) + [r]]
  }

  function Initial(ordered: bool, limits: map<string, nat>): System {
    System(Tables(ordered, limits, map[], map[], {}), false, 0, map[], 0, false, map[], map[], map[], map[], [])
  }

  predicate Enabled(s: System, a: Action) {
    match a
    case Arrive(_, _) => true
    case Refuse(r) => r in s.place && s.place[r] == Refused
    case Pop(w) => w in s.workers && s.workers[w].stage == ToPop
    case Begin(w) => w in s.workers && s.workers[w].stage.Popped?
    case Return(w) => w in s.workers && s.workers[w].stage.Handling?
    case Finish(w) => w in s.workers && s.workers[w].stage.Handled?
    case Release(w) => w in s.workers && s.workers[w].stage.Releasing?
    case Stop => true
  }

  function SetStage(s: System, w: nat, stage: Stage): System
    requires w in s.workers
  {
    s.(workers := s.workers[w := s.workers[w].(stage := stage)])
  }

  /** The handler's critical section, and the goroutine it starts. */
  function Arriving(s: System, r: Request): System {
    var s1 := s.(running := s.running + 1, next := s.next + 1);
    if HeldCount(s.tables, KeyOf(r)) >= LimitOf(s.tables, r.family) then
      s1.(place := s.place[r := Refused])
    else
      var s2 := s1.(tables := Accepting(s.tables, r), arrived := Append(s.arrived, r));
      if !s.tables.ordered then
        s2.(workers := s.workers[s.next := Worker(r.device, Popped(r))], place := s.place[r := AtWorker(s.next)],
            taken := Append(s.taken, r))
      else
        s2.(place := s.place[r := Queued],
            workers := if r.device in s.tables.draining then s.workers
                       else s.workers[s.next := Worker(r.device, ToPop)])
  }

  function Step(s: System, a: Action): System
    requires Enabled(s, a)
  {
    match a
    case Arrive(device, family) =>
      if s.closed then s else Arriving(s, Request(s.next, device, family))
    case Refuse(r) => s.(running := s.running - 1, place := s.place[r := Released], released := s.released + [r])
    case Pop(w) =>
      var d := s.workers[w].device;
      if QueueOf(s.tables, d) == [] then s.(broken := true)
      else
        var r := QueueOf(s.tables, d)[0];
        SetStage(s, w, Popped(r)).(tables := Popping(s.tables, d), place := s.place[r := AtWorker(w)],
            taken := Append(s.taken, r))
    case Begin(w) =>
      var r := s.workers[w].stage.r;
      if s.closed then SetStage(s, w, Handled(r))
      else SetStage(s, w, Handling(r)).(handled := Append(s.handled, r))
    case Return(w) => SetStage(s, w, Handled(s.workers[w].stage.r))
    case Finish(w) =>
      var r := s.workers[w].stage.r;
      SetStage(s, w, Releasing(r, IsLast(s.tables, r.device))).(tables := Finishing(s.tables, r),
          place := s.place[r := Leaving(w)])
    case Release(w) =>
      var Releasing(r, last) := s.workers[w].stage;
      var s1 := s.(running := s.running - 1, place := s.place[r := Released], released := s.released + [r]);
      if last || !s.tables.ordered then s1.(workers := s.workers - {w}) else SetStage(s1, w, ToPop)
    case Stop => s.(closed := true)
  }

  function Run(s: System, run: seq<Action>): Option<System> {
    if run == [] then Some(s)
    else
      var before := Run(s, Front(run));
      if before.Some? && Enabled(before.value, Last(run)) then Some(Step(before.value, Last(run))) else None
  }

  // ---------------------------------------------------------------------
  // The invariant
  // ---------------------------------------------------------------------

  predicate Active(stage: Stage) {
    stage.Popped? || stage.Handling? || stage.Handled?
  }

  /** A goroutine that may still take a message from its device's queue. */
  predicate Drains(w: Worker) {
    !(w.stage.Releasing? && w.stage.last)
  }

  function InPool(place: map<Request, Place>, k: HeldKey): set<Request> {
    set r | r in place && KeyOf(r) == k && (place[r] == Queued || place[r].AtWorker?)
  }

  function Outstanding(place: map<Request, Place>): set<Request> {
    set r | r in place && place[r] != Released
  }

  predicate NoDuplicates<T(==)>(s: seq<T>) {
    forall i, j | 0 <= i < j < |s| :: s[i] != s[j]
  }

  predicate Inside(p: Place) {
    p == Queued || p.AtWorker?
  }

  /** A goroutine that is to pop, or to go on popping. */
  predicate Continues(w: Worker) {
    w.stage == ToPop || (w.stage.Releasing? && !w.stage.last)
  }

  predicate WorkerOK(w: nat, k: Worker, place: map<Request, Place>) {
    k.stage != ToPop ==>
      && k.stage.r.device == k.device && k.stage.r in place
      && place[k.stage.r] == if Active(k.stage) then AtWorker(w) else Leaving(w)
  }

  predicate PlaceOK(r: Request, p: Place, queued: map<string, seq<Request>>, ws: map<nat, Worker>) {
    match p
    case Queued => r in Of(queued, r.device)
    case AtWorker(w) => w in ws && Active(ws[w].stage) && ws[w].stage.r == r
    case Leaving(w) => w in ws && ws[w].stage.Releasing? && ws[w].stage.r == r
    case _ => true
  }

  predicate QueueOK(d: string, q: seq<Request>, place: map<Request, Place>) {
    NoDuplicates(q) && forall r | r in q :: r.device == d && r in place && place[r] == Queued
  }

  /** Every goroutine and every queue entry agrees with where its message stands,
      and the other way about. */
  ghost predicate PlacesOK(queued: map<string, seq<Request>>, ws: map<nat, Worker>, place: map<Request, Place>) {
    && (forall w | w in ws :: WorkerOK(w, ws[w], place))
    && (forall r | r in place :: PlaceOK(r, place[r], queued, ws))
    && (forall d | d in queued :: QueueOK(d, queued[d], place))
  }

  /** No admission and no goroutine is named before it exists. */
  ghost predicate NamesOK(ws: map<nat, Worker>, place: map<Request, Place>, next: nat) {
    && (forall w | w in ws :: w < next)
    && (forall r | r in place :: r.token < next)
  }

  ghost predicate HasDrainer(ws: map<nat, Worker>, d: string) {
    exists w | w in ws :: ws[w].device == d && Drains(ws[w])
  }

  /** An ordered pool has at most one goroutine draining a device, exactly while
      the device is marked draining, and one that is to pop finds a message. */
  ghost predicate DrainersOK(queued: map<string, seq<Request>>, draining: set<string>, ws: map<nat, Worker>) {
    && (forall v, w | v in ws && w in ws && ws[v].device == ws[w].device && Drains(ws[v]) && Drains(ws[w]) :: v == w)
    && (forall w | w in ws && Drains(ws[w]) :: ws[w].device in draining)
    && (forall d | d in draining :: HasDrainer(ws, d))
    && (forall d | d in queued && queued[d] != [] :: d in draining)
    && (forall w | w in ws && Continues(ws[w]) :: Of(queued, ws[w].device) != [])
  }

  /** Held counts are the messages queued or running, within their allowance. */
  ghost predicate HeldOK(t: Tables, place: map<Request, Place>) {
    forall k :: HeldCount(t, k) == |InPool(place, k)| && HeldCount(t, k) <= LimitOf(t, k.family)
  }

  /** The gate counts the admissions not released, and none is released twice. */
  ghost predicate GateOK(place: map<Request, Place>, running: int, released: seq<Request>) {
    && running == |Outstanding(place)|
    && NoDuplicates(released)
    && (forall r :: r in released <==> r in place && place[r] == Released)
  }

  /** What arrived for a device is what was taken and then what is queued, and
      the handler saw a prefix of it: while the gate is open, all that was taken
      but one not begun yet. */
  ghost predicate OrderOK(s: System, d: string) {
    DeviceOrder(d, Of(s.arrived, d), Of(s.taken, d), Of(s.handled, d), QueueOf(s.tables, d), s.closed, s.workers)
  }

  ghost predicate DeviceOrder(d: string, arrived: seq<Request>, taken: seq<Request>, handled: seq<Request>,
                              queue: seq<Request>, closed: bool, ws: map<nat, Worker>) {
    && arrived == taken + queue
    && handled <= taken
    && (!closed ==>
          && (forall w | w in ws && IsPopped(ws[w], d) :: taken == handled + [ws[w].stage.r])
          && ((forall w | w in ws :: !IsPopped(ws[w], d)) ==> handled == taken))
  }

  predicate IsPopped(w: Worker, d: string) {
    w.device == d && w.stage.Popped?
  }

  ghost predicate SystemOK(s: System) {
    && !s.broken
    && NamesOK(s.workers, s.place, s.next)
    && PlacesOK(s.tables.queued, s.workers, s.place)
    && HeldOK(s.tables, s.place)
    && GateOK(s.place, s.running, s.released)
    && (s.tables.ordered ==> DrainersOK(s.tables.queued, s.tables.draining, s.workers) && forall d :: OrderOK(s, d))
    && (!s.tables.ordered ==> s.tables.queued == map[] && forall w | w in s.workers :: s.workers[w].stage != ToPop)
  }

  // ---------------------------------------------------------------------
  // How one message or one goroutine moving changes each part
  // ---------------------------------------------------------------------

  function One(b: bool): int {
    if b then 1 else 0
  }

  lemma InPoolMoved(place: map<Request, Place>, r: Request, p: Place, k: HeldKey)
    ensures |InPool(place[r := p], k)| ==
            |InPool(place, k)| + One(KeyOf(r) == k && Inside(p)) - One(r in InPool(place, k))
  {
    var from, to := InPool(place, k), InPool(place[r := p], k);
    assert to == if KeyOf(r) == k && Inside(p) then from + {r} else from - {r};
    OneMoreOrLess(from, r);
  }

  lemma OneMoreOrLess(from: set<Request>, r: Request)
    ensures |from + {r}| == |from| + 1 - One(r in from) && |from - {r}| == |from| - One(r in from)
  {
    if r in from { assert from + {r} == from; } else { assert from - {r} == from; }
  }

  lemma MovedHeld(t: Tables, t': Tables, place: map<Request, Place>, r: Request, p: Place)
    requires HeldOK(t, place) && t'.limits == t.limits
    requires forall k | k != KeyOf(r) :: HeldCount(t', k) == HeldCount(t, k)
    requires HeldCount(t', KeyOf(r)) == HeldCount(t, KeyOf(r)) + One(Inside(p)) - One(r in place && Inside(place[r]))
    requires HeldCount(t', KeyOf(r)) <= LimitOf(t, r.family)
    ensures HeldOK(t', place[r := p])
  {
    forall k
      ensures HeldCount(t', k) == |InPool(place[r := p], k)| && HeldCount(t', k) <= LimitOf(t', k.family)
    {
      InPoolMoved(place, r, p, k);
    }
  }

  lemma AdmittedGate(place: map<Request, Place>, running: int, released: seq<Request>, r: Request, p: Place)
    requires GateOK(place, running, released) && p != Released && (r in place ==> place[r] != Released)
    ensures GateOK(place[r := p], running + One(r !in place), released)
  {
    assert Outstanding(place[r := p]) == Outstanding(place) + {r};
    assert r in Outstanding(place) <==> r in place;
  }

  lemma ReleasedGate(place: map<Request, Place>, running: int, released: seq<Request>, r: Request)
    requires GateOK(place, running, released) && r in place && place[r] != Released
    ensures GateOK(place[r := Released], running - 1, released + [r])
  {
    assert Outstanding(place[r := Released]) == Outstanding(place) - {r};
  }

  /** A message moves to a place no goroutine or queue entry is asked about. */
  lemma MovedPlaces(queued: map<string, seq<Request>>, ws: map<nat, Worker>, place: map<Request, Place>, r: Request,
      p: Place)
    requires PlacesOK(queued, ws, place)
    requires r !in place || place[r] == Refused || place[r] == Released
    requires p == Refused || p == Released
    ensures PlacesOK(queued, ws, place[r := p])
  {
  }

  // ---------------------------------------------------------------------
  // Arrivals
  // ---------------------------------------------------------------------

  lemma ArriveRefused(s: System, r: Request)
    requires SystemOK(s) && r.token == s.next
    requires HeldCount(s.tables, KeyOf(r)) >= LimitOf(s.tables, r.family)
    ensures SystemOK(Arriving(s, r))
  {
    hide PlacesOK, DrainersOK, HeldOK, GateOK;
    assert r !in s.place;
    MovedHeld(s.tables, s.tables, s.place, r, Refused) by { HeldWithin(s.tables, s.place, KeyOf(r)); }
    AdmittedGate(s.place, s.running, s.released, r, Refused);
    MovedPlaces(s.tables.queued, s.workers, s.place, r, Refused);
    assert forall d :: OrderOK(s, d) ==> OrderOK(Arriving(s, r), d);
  }

  /** A new goroutine with a new message. */
  lemma StartedPlaces(queued: map<string, seq<Request>>, ws: map<nat, Worker>, place: map<Request, Place>,
      r: Request, n: nat)
    requires PlacesOK(queued, ws, place) && r !in place && n !in ws
    ensures PlacesOK(queued, ws[n := Worker(r.device, Popped(r))], place[r := AtWorker(n)])
  {
    var ws', place' := ws[n := Worker(r.device, Popped(r))], place[r := AtWorker(n)];
    forall x | x in place'
      ensures PlaceOK(x, place'[x], queued, ws')
    {
      if x != r { assert PlaceOK(x, place[x], queued, ws); }
    }
    assert forall d | d in queued :: QueueOK(d, queued[d], place) && QueueOK(d, queued[d], place');
  }

  /** A new message queued, its device's goroutine started or already running. */
  lemma QueuedPlaces(queued: map<string, seq<Request>>, ws: map<nat, Worker>, place: map<Request, Place>, r: Request)
    requires PlacesOK(queued, ws, place) && r !in place
    ensures PlacesOK(queued[r.device := Of(queued, r.device) + [r]], ws, place[r := Queued])
  {
    var queued', place' := queued[r.device := Of(queued, r.device) + [r]], place[r := Queued];
    forall x | x in place'
      ensures PlaceOK(x, place'[x], queued', ws)
    {
      if x != r { assert PlaceOK(x, place[x], queued, ws); }
    }
    assert forall d | d in queued :: QueueOK(d, queued[d], place);
  }

  lemma IdlePlaces(queued: map<string, seq<Request>>, ws: map<nat, Worker>, place: map<Request, Place>, n: nat,
      d: string)
    requires PlacesOK(queued, ws, place) && n !in ws
    ensures PlacesOK(queued, ws[n := Worker(d, ToPop)], place)
  {
    forall x | x in place
      ensures PlaceOK(x, place[x], queued, ws[n := Worker(d, ToPop)])
    {
      assert PlaceOK(x, place[x], queued, ws);
    }
  }

  lemma QueuedDrainers(queued: map<string, seq<Request>>, draining: set<string>, ws: map<nat, Worker>, r: Request,
      n: nat)
    requires DrainersOK(queued, draining, ws) && n !in ws
    ensures DrainersOK(queued[r.device := Of(queued, r.device) + [r]], draining + {r.device},
                       if r.device in draining then ws else ws[n := Worker(r.device, ToPop)])
  {
    var ws' := if r.device in draining then ws else ws[n := Worker(r.device, ToPop)];
    forall d | d in draining + {r.device}
      ensures HasDrainer(ws', d)
    {
      if d in draining {
        assert HasDrainer(ws, d);
        var w :| w in ws && ws[w].device == d && Drains(ws[w]);
        assert w in ws';
      } else {
        assert n in ws';
      }
    }
  }

  /** Goroutines of other devices, or of this one past its messages, come and go. */
  lemma OrderKeeps(d: string, arrived: seq<Request>, taken: seq<Request>, handled: seq<Request>,
                   queue: seq<Request>, closed: bool, ws: map<nat, Worker>, ws': map<nat, Worker>)
    requires DeviceOrder(d, arrived, taken, handled, queue, closed, ws)
    requires forall w | w in ws && IsPopped(ws[w], d) :: w in ws' && ws'[w] == ws[w]
    requires forall w | w in ws' && IsPopped(ws'[w], d) :: w in ws && ws'[w] == ws[w]
    ensures DeviceOrder(d, arrived, taken, handled, queue, closed, ws')
  {
    if !closed && (forall w | w in ws' :: !IsPopped(ws'[w], d)) {
      assert forall w | w in ws :: !IsPopped(ws[w], d);
    }
  }

  lemma ArriveAppends(s: System, r: Request, d: string)
    requires s.tables.ordered && HeldCount(s.tables, KeyOf(r)) < LimitOf(s.tables, r.family)
    ensures var s', more := Arriving(s, r), if d == r.device then [r] else [];
            && Of(s'.arrived, d) == Of(s.arrived, d) + more && QueueOf(s'.tables, d) == QueueOf(s.tables, d) + more
            && s'.taken == s.taken && s'.handled == s.handled && s'.closed == s.closed
            && (s'.workers == s.workers || s'.workers == s.workers[s.next := Worker(r.device, ToPop)])
  {
  }

  lemma AppendOrder(d: string, arrived: seq<Request>, taken: seq<Request>, handled: seq<Request>,
                    queue: seq<Request>, closed: bool, ws: map<nat, Worker>, more: seq<Request>)
    requires DeviceOrder(d, arrived, taken, handled, queue, closed, ws)
    ensures DeviceOrder(d, arrived + more, taken, handled, queue + more, closed, ws)
  {
  }

  lemma IdleOrder(d: string, arrived: seq<Request>, taken: seq<Request>, handled: seq<Request>,
                  queue: seq<Request>, closed: bool, ws: map<nat, Worker>, n: nat, device: string)
    requires DeviceOrder(d, arrived, taken, handled, queue, closed, ws) && n !in ws
    ensures DeviceOrder(d, arrived, taken, handled, queue, closed, ws[n := Worker(device, ToPop)])
  {
    OrderKeeps(d, arrived, taken, handled, queue, closed, ws, ws[n := Worker(device, ToPop)]);
  }

  lemma ArriveOrder(s: System, r: Request, d: string)
    requires s.tables.ordered && OrderOK(s, d) && s.next !in s.workers
    requires HeldCount(s.tables, KeyOf(r)) < LimitOf(s.tables, r.family)
    ensures OrderOK(Arriving(s, r), d)
  {
    var s' := Arriving(s, r);
    ArriveAppends(s, r, d);
    hide Arriving, QueueOf, Of, DeviceOrder, HeldCount, LimitOf;
    var more := if d == r.device then [r] else [];
    AppendOrder(d, Of(s.arrived, d), Of(s.taken, d), Of(s.handled, d), QueueOf(s.tables, d), s.closed, s.workers, more);
    if s'.workers != s.workers {
      IdleOrder(d, Of(s'.arrived, d), Of(s.taken, d), Of(s.handled, d), QueueOf(s'.tables, d), s.closed, s.workers,
          s.next, r.device);
    }
  }

  lemma AcceptHeld(t: Tables, place: map<Request, Place>, r: Request, p: Place)
    requires HeldOK(t, place) && r !in place && Inside(p) && HeldCount(t, KeyOf(r)) < LimitOf(t, r.family)
    ensures HeldOK(Accepting(t, r), place[r := p])
  {
    MovedHeld(t, Accepting(t, r), place, r, p);
  }

  lemma AcceptPlaces(s: System, r: Request)
    requires PlacesOK(s.tables.queued, s.workers, s.place) && r !in s.place && s.next !in s.workers
    requires HeldCount(s.tables, KeyOf(r)) < LimitOf(s.tables, r.family)
    ensures var s' := Arriving(s, r); PlacesOK(s'.tables.queued, s'.workers, s'.place)
  {
    var s' := Arriving(s, r);
    if s.tables.ordered {
      QueuedPlaces(s.tables.queued, s.workers, s.place, r);
      if r.device !in s.tables.draining { IdlePlaces(s'.tables.queued, s.workers, s'.place, s.next, r.device); }
    } else {
      StartedPlaces(s.tables.queued, s.workers, s.place, r, s.next);
    }
  }

  lemma AcceptUnordered(s: System, r: Request)
    requires SystemOK(s) && r.token == s.next && !s.tables.ordered
    requires HeldCount(s.tables, KeyOf(r)) < LimitOf(s.tables, r.family)
    ensures SystemOK(Arriving(s, r))
  {
    hide PlacesOK, DrainersOK, HeldOK, GateOK, OrderOK;
    assert r !in s.place && s.next !in s.workers;
    AcceptHeld(s.tables, s.place, r, AtWorker(s.next));
    AdmittedGate(s.place, s.running, s.released, r, AtWorker(s.next));
    AcceptPlaces(s, r);
  }

  lemma AcceptOrdered(s: System, r: Request)
    requires SystemOK(s) && r.token == s.next && s.tables.ordered
    requires HeldCount(s.tables, KeyOf(r)) < LimitOf(s.tables, r.family)
    ensures SystemOK(Arriving(s, r))
  {
    hide PlacesOK, DrainersOK, HeldOK, GateOK, OrderOK;
    assert r !in s.place && s.next !in s.workers;
    AcceptHeld(s.tables, s.place, r, Queued);
    AdmittedGate(s.place, s.running, s.released, r, Queued);
    AcceptPlaces(s, r);
    QueuedDrainers(s.tables.queued, s.tables.draining, s.workers, r, s.next);
    forall d
      ensures OrderOK(Arriving(s, r), d)
    {
      ArriveOrder(s, r, d);
    }
  }

  lemma ArriveKeeps(s: System, a: Action)
    requires SystemOK(s) && a.Arrive?
    ensures SystemOK(Step(s, a))
  {
    hide SystemOK;
    if !s.closed {
      var r := Request(s.next, a.device, a.family);
      if HeldCount(s.tables, KeyOf(r)) >= LimitOf(s.tables, r.family) {
        ArriveRefused(s, r);
      } else {
        if s.tables.ordered { AcceptOrdered(s, r); } else { AcceptUnordered(s, r); }
      }
    }
  }

  // ---------------------------------------------------------------------
  // A goroutine's steps
  // ---------------------------------------------------------------------

  lemma RefuseKeeps(s: System, a: Action)
    requires SystemOK(s) && Enabled(s, a) && a.Refuse?
    ensures SystemOK(Step(s, a))
  {
    hide PlacesOK, DrainersOK, HeldOK, GateOK;
    MovedHeld(s.tables, s.tables, s.place, a.r, Released) by { HeldWithin(s.tables, s.place, KeyOf(a.r)); }
    ReleasedGate(s.place, s.running, s.released, a.r);
    MovedPlaces(s.tables.queued, s.workers, s.place, a.r, Released);
    assert forall d :: OrderOK(s, d) ==> OrderOK(Step(s, a), d);
  }

  lemma HeldWithin(t: Tables, place: map<Request, Place>, k: HeldKey)
    requires HeldOK(t, place)
    ensures HeldCount(t, k) <= LimitOf(t, k.family)
  {
  }

  /** The first message of a queue goes to the goroutine that pops it. */
  lemma PoppedPlaces(queued: map<string, seq<Request>>, ws: map<nat, Worker>, place: map<Request, Place>, w: nat)
    requires PlacesOK(queued, ws, place) && w in ws && ws[w].stage == ToPop && Of(queued, ws[w].device) != []
    ensures var d, q := ws[w].device, Of(queued, ws[w].device);
            && q[0] in place && place[q[0]] == Queued && q[0].device == d
            && PlacesOK(queued[d := q[1..]], ws[w := Worker(d, Popped(q[0]))], place[q[0] := AtWorker(w)])
  {
    var d, q := ws[w].device, Of(queued, ws[w].device);
    assert QueueOK(d, q, place) && q[0] in q;
    var queued', ws', place' := queued[d := q[1..]], ws[w := Worker(d, Popped(q[0]))], place[q[0] := AtWorker(w)];
    forall x | x in place'
      ensures PlaceOK(x, place'[x], queued', ws')
    {
      if x != q[0] {
        assert PlaceOK(x, place[x], queued, ws);
        if place[x] == Queued && x.device == d { var i :| 0 <= i < |q| && q[i] == x; assert q[1..][i - 1] == x; }
      }
    }
    forall v | v in ws'
      ensures WorkerOK(v, ws'[v], place')
    {
      if v != w { assert WorkerOK(v, ws[v], place); }
    }
    forall e | e in queued'
      ensures QueueOK(e, queued'[e], place')
    {
      if e == d {
        assert forall i | 0 <= i < |q[1..]| :: q[1..][i] == q[i + 1];
      } else {
        assert QueueOK(e, queued[e], place);
      }
    }
  }

  /** A goroutine that still drains changes stage, its queue as the stage needs. */
  lemma StagedDrainers(queued: map<string, seq<Request>>, queued': map<string, seq<Request>>, draining: set<string>,
                       ws: map<nat, Worker>, w: nat, stage: Stage)
    requires DrainersOK(queued, draining, ws) && w in ws && Drains(ws[w]) && Drains(ws[w].(stage := stage))
    requires forall d | d != ws[w].device :: d in queued' <==> d in queued
    requires forall d | d != ws[w].device && d in queued :: queued'[d] == queued[d]
    requires Continues(ws[w].(stage := stage)) ==> Of(queued', ws[w].device) != []
    ensures DrainersOK(queued', draining, ws[w := ws[w].(stage := stage)])
  {
    var ws' := ws[w := ws[w].(stage := stage)];
    forall d | d in draining
      ensures HasDrainer(ws', d)
    {
      assert HasDrainer(ws, d);
      var v :| v in ws && ws[v].device == d && Drains(ws[v]);
      assert v in ws' && ws'[v].device == d && Drains(ws'[v]);
    }
    forall v | v in ws' && Continues(ws'[v])
      ensures Of(queued', ws'[v].device) != []
    {
      if v != w { assert Drains(ws[v]) && ws[v].device != ws[w].device; }
    }
  }

  lemma TakenOrder(d: string, arrived: seq<Request>, taken: seq<Request>, handled: seq<Request>,
                   q: seq<Request>, closed: bool, ws: map<nat, Worker>, w: nat)
    requires DeviceOrder(d, arrived, taken, handled, q, closed, ws) && q != []
    requires forall v | v in ws :: !IsPopped(ws[v], d)
    ensures DeviceOrder(d, arrived, taken + [q[0]], handled, q[1..], closed, ws[w := Worker(d, Popped(q[0]))])
  {
    assert q == [q[0]] + q[1..];
    var ws' := ws[w := Worker(d, Popped(q[0]))];
    assert w in ws' && IsPopped(ws'[w], d);
  }

  lemma PopOrder(s: System, w: nat, d: string)
    requires s.tables.ordered && OrderOK(s, d) && w in s.workers && s.workers[w].stage == ToPop
    requires forall v | v in s.workers && v != w
             && s.workers[v].device == s.workers[w].device :: !s.workers[v].stage.Popped?
    requires QueueOf(s.tables, s.workers[w].device) != []
    requires QueueOf(s.tables, s.workers[w].device)[0].device == s.workers[w].device
    ensures OrderOK(Step(s, Pop(w)), d)
  {
    var s' := Step(s, Pop(w));
    if d == s.workers[w].device {
      TakenOrder(d, Of(s.arrived, d), Of(s.taken, d), Of(s.handled, d), QueueOf(s.tables, d), s.closed, s.workers, w);
    } else {
      OrderKeeps(d, Of(s.arrived, d), Of(s.taken, d), Of(s.handled, d), QueueOf(s.tables, d), s.closed, s.workers,
          s'.workers);
    }
  }

  lemma OnlyDrainer(queued: map<string, seq<Request>>, draining: set<string>, ws: map<nat, Worker>, w: nat)
    requires DrainersOK(queued, draining, ws) && w in ws && Drains(ws[w])
    ensures forall v | v in ws && v != w && ws[v].device == ws[w].device :: !Active(ws[v].stage) && ws[v].stage != ToPop
    ensures Continues(ws[w]) ==> Of(queued, ws[w].device) != []
  {
  }

  /** The queue is never empty at a pop. */
  lemma PopKeeps(s: System, a: Action)
    requires SystemOK(s) && Enabled(s, a) && a.Pop?
    ensures SystemOK(Step(s, a))
  {
    hide PlacesOK, HeldOK, GateOK, OrderOK, DrainersOK;
    var w := a.w;
    var d := s.workers[w].device;
    OnlyDrainer(s.tables.queued, s.tables.draining, s.workers, w);
    var q := QueueOf(s.tables, d);
    PoppedPlaces(s.tables.queued, s.workers, s.place, w);
    MovedHeld(s.tables, Popping(s.tables, d), s.place, q[0], AtWorker(w)) by
        { HeldWithin(s.tables, s.place, KeyOf(q[0])); }
    GateKeepsPlace(s.place, s.running, s.released, q[0]);
    AdmittedGate(s.place, s.running, s.released, q[0], AtWorker(w));
    StagedDrainers(s.tables.queued, s.tables.queued[d := q[1..]], s.tables.draining, s.workers, w, Popped(q[0]));
    forall e
      ensures OrderOK(Step(s, a), e)
    {
      PopOrder(s, w, e);
    }
  }

  lemma GateKeepsPlace(place: map<Request, Place>, running: int, released: seq<Request>, r: Request)
    requires GateOK(place, running, released) && r in place
    ensures place[r] != Released <==> r !in released
  {
  }

  /** A goroutine goes on with the same message. */
  lemma StagedPlaces(queued: map<string, seq<Request>>, ws: map<nat, Worker>, place: map<Request, Place>, w: nat,
      stage: Stage)
    requires PlacesOK(queued, ws, place) && w in ws && Active(ws[w].stage) && Active(stage) && stage.r == ws[w].stage.r
    ensures PlacesOK(queued, ws[w := ws[w].(stage := stage)], place)
  {
    var ws' := ws[w := ws[w].(stage := stage)];
    forall x | x in place
      ensures PlaceOK(x, place[x], queued, ws')
    {
      assert PlaceOK(x, place[x], queued, ws);
    }
    assert WorkerOK(w, ws[w], place);
  }

  lemma BegunOrder(d: string, arrived: seq<Request>, taken: seq<Request>, handled: seq<Request>,
                   queue: seq<Request>, ws: map<nat, Worker>, w: nat)
    requires DeviceOrder(d, arrived, taken, handled, queue, false, ws) && w in ws && IsPopped(ws[w], d)
    requires forall v | v in ws && v != w :: !IsPopped(ws[v], d)
    ensures DeviceOrder(d, arrived, taken, handled + [ws[w].stage.r], queue, false,
                        ws[w := Worker(d, Handling(ws[w].stage.r))])
  {
  }

  lemma BeginKeeps(s: System, a: Action)
    requires SystemOK(s) && Enabled(s, a) && (a.Begin? || a.Return?)
    ensures SystemOK(Step(s, a))
  {
    hide PlacesOK, HeldOK, GateOK, OrderOK, DrainersOK;
    var w := a.w;
    var s' := Step(s, a);
    var stage := s'.workers[w].stage;
    StagedPlaces(s.tables.queued, s.workers, s.place, w, stage);
    if s.tables.ordered {
      StagedDrainers(s.tables.queued, s.tables.queued, s.tables.draining, s.workers, w, stage);
      OnlyDrainer(s.tables.queued, s.tables.draining, s.workers, w);
      WorkerDevice(s.tables.queued, s.workers, s.place, w);
      forall d
        ensures OrderOK(s', d)
      {
        BeginOrder(s, a, d);
      }
    }
  }

  lemma WorkerDevice(queued: map<string, seq<Request>>, ws: map<nat, Worker>, place: map<Request, Place>, w: nat)
    requires PlacesOK(queued, ws, place) && w in ws && ws[w].stage != ToPop
    ensures ws[w].stage.r.device == ws[w].device && ws[w].stage.r in place
    ensures place[ws[w].stage.r] == if Active(ws[w].stage) then AtWorker(w) else Leaving(w)
  {
    assert WorkerOK(w, ws[w], place);
  }

  lemma BeginOrder(s: System, a: Action, d: string)
    requires Enabled(s, a) && (a.Begin? || a.Return?) && OrderOK(s, d)
    requires s.workers[a.w].stage.r.device == s.workers[a.w].device
    requires forall v | v in s.workers && v != a.w
             && s.workers[v].device == s.workers[a.w].device :: !s.workers[v].stage.Popped?
    ensures OrderOK(Step(s, a), d)
  {
    var s' := Step(s, a);
    var w := a.w;
    if a.Begin? && !s.closed && d == s.workers[w].device {
      BegunOrder(d, Of(s.arrived, d), Of(s.taken, d), Of(s.handled, d), QueueOf(s.tables, d), s.workers, w);
    } else if !s.closed {
      OrderKeeps(d, Of(s.arrived, d), Of(s.taken, d), Of(s.handled, d), QueueOf(s.tables, d), s.closed, s.workers,
          s'.workers);
    }
  }

  lemma FinishedPlaces(queued: map<string, seq<Request>>, queued': map<string, seq<Request>>, ws: map<nat, Worker>,
                       place: map<Request, Place>, w: nat, last: bool)
    requires PlacesOK(queued, ws, place) && w in ws && Active(ws[w].stage)
    requires queued' == queued || (Of(queued, ws[w].device) == [] && queued' == queued - {ws[w].device})
    ensures var r := ws[w].stage.r;
            PlacesOK(queued', ws[w := ws[w].(stage := Releasing(r, last))], place[r := Leaving(w)])
  {
    var r := ws[w].stage.r;
    assert WorkerOK(w, ws[w], place);
    var ws', place' := ws[w := ws[w].(stage := Releasing(r, last))], place[r := Leaving(w)];
    forall x | x in place'
      ensures PlaceOK(x, place'[x], queued', ws')
    {
      if x != r { assert PlaceOK(x, place[x], queued, ws); }
    }
    forall v | v in ws'
      ensures WorkerOK(v, ws'[v], place')
    {
      if v != w { assert WorkerOK(v, ws[v], place); }
    }
    forall d | d in queued'
      ensures QueueOK(d, queued'[d], place')
    {
      assert QueueOK(d, queued[d], place);
    }
  }

  /** The last message of a device: its goroutine no longer drains it. */
  lemma LastDrainers(queued: map<string, seq<Request>>, draining: set<string>, ws: map<nat, Worker>, w: nat, r: Request)
    requires DrainersOK(queued, draining, ws) && w in ws && Drains(ws[w]) && Of(queued, ws[w].device) == []
    ensures DrainersOK(queued - {ws[w].device}, draining - {ws[w].device}, ws[w := ws[w].(stage := Releasing(r, true))])
  {
    var ws' := ws[w := ws[w].(stage := Releasing(r, true))];
    forall d | d in draining - {ws[w].device}
      ensures HasDrainer(ws', d)
    {
      assert HasDrainer(ws, d);
      var v :| v in ws && ws[v].device == d && Drains(ws[v]);
      assert v in ws' && ws'[v] == ws[v];
    }
  }

  lemma FinishHeld(t: Tables, place: map<Request, Place>, r: Request, p: Place)
    requires HeldOK(t, place) && r in place && Inside(place[r]) && !Inside(p)
    ensures HeldOK(Finishing(t, r), place[r := p])
  {
    assert r in InPool(place, KeyOf(r));
    MovedHeld(t, Finishing(t, r), place, r, p);
  }

  lemma FinishKeeps(s: System, a: Action)
    requires SystemOK(s) && Enabled(s, a) && a.Finish?
    ensures SystemOK(Step(s, a))
  {
    hide PlacesOK, HeldOK, GateOK, OrderOK, DrainersOK;
    var w := a.w;
    var r := s.workers[w].stage.r;
    var s' := Step(s, a);
    WorkerDevice(s.tables.queued, s.workers, s.place, w);
    FinishedPlaces(s.tables.queued, s'.tables.queued, s.workers, s.place, w, IsLast(s.tables, r.device));
    FinishHeld(s.tables, s.place, r, Leaving(w));
    GateKeepsPlace(s.place, s.running, s.released, r);
    AdmittedGate(s.place, s.running, s.released, r, Leaving(w));
    if s.tables.ordered {
      if IsLast(s.tables, r.device) {
        LastDrainers(s.tables.queued, s.tables.draining, s.workers, w, r);
      } else {
        StagedDrainers(s.tables.queued, s.tables.queued, s.tables.draining, s.workers, w, Releasing(r, false));
      }
      forall d
        ensures OrderOK(s', d)
      {
        FinishOrder(s, a, d);
      }
    }
  }

  lemma FinishOrder(s: System, a: Action, d: string)
    requires Enabled(s, a) && a.Finish? && OrderOK(s, d)
    ensures OrderOK(Step(s, a), d)
  {
    var s' := Step(s, a);
    OrderKeeps(d, Of(s.arrived, d), Of(s.taken, d), Of(s.handled, d), QueueOf(s.tables, d), s.closed, s.workers,
        s'.workers);
  }

  lemma ReleasedPlaces(queued: map<string, seq<Request>>, ws: map<nat, Worker>, place: map<Request, Place>, w: nat,
      ends: bool)
    requires PlacesOK(queued, ws, place) && w in ws && ws[w].stage.Releasing?
    ensures PlacesOK(queued, if ends then ws - {w} else ws[w := ws[w].(stage := ToPop)],
                     place[ws[w].stage.r := Released])
  {
    var r := ws[w].stage.r;
    assert WorkerOK(w, ws[w], place);
    var ws' := if ends then ws - {w} else ws[w := ws[w].(stage := ToPop)];
    var place' := place[r := Released];
    forall x | x in place'
      ensures PlaceOK(x, place'[x], queued, ws')
    {
      if x != r { assert PlaceOK(x, place[x], queued, ws); }
    }
    forall v | v in ws'
      ensures WorkerOK(v, ws'[v], place')
    {
      if v != w { assert WorkerOK(v, ws[v], place); }
    }
    forall d | d in queued
      ensures QueueOK(d, queued[d], place')
    {
      assert QueueOK(d, queued[d], place);
    }
  }

  lemma EndedDrainers(queued: map<string, seq<Request>>, draining: set<string>, ws: map<nat, Worker>, w: nat)
    requires DrainersOK(queued, draining, ws) && w in ws && !Drains(ws[w])
    ensures DrainersOK(queued, draining, ws - {w})
  {
    forall d | d in draining
      ensures HasDrainer(ws - {w}, d)
    {
      assert HasDrainer(ws, d);
      var v :| v in ws && ws[v].device == d && Drains(ws[v]);
      assert v in ws - {w};
    }
  }

  lemma ReleaseKeeps(s: System, a: Action)
    requires SystemOK(s) && Enabled(s, a) && a.Release?
    ensures SystemOK(Step(s, a))
  {
    hide PlacesOK, HeldOK, GateOK, OrderOK, DrainersOK;
    var w := a.w;
    var Releasing(r, last) := s.workers[w].stage;
    var s' := Step(s, a);
    WorkerDevice(s.tables.queued, s.workers, s.place, w);
    ReleasedPlaces(s.tables.queued, s.workers, s.place, w, last || !s.tables.ordered);
    MovedHeld(s.tables, s.tables, s.place, r, Released) by { HeldWithin(s.tables, s.place, KeyOf(r)); }
    ReleasedGate(s.place, s.running, s.released, r);
    if s.tables.ordered {
      if last {
        EndedDrainers(s.tables.queued, s.tables.draining, s.workers, w);
      } else {
        OnlyDrainer(s.tables.queued, s.tables.draining, s.workers, w);
        StagedDrainers(s.tables.queued, s.tables.queued, s.tables.draining, s.workers, w, ToPop);
      }
      forall d
        ensures OrderOK(s', d)
      {
        ReleaseOrder(s, a, d);
      }
    }
  }

  lemma ReleaseOrder(s: System, a: Action, d: string)
    requires Enabled(s, a) && a.Release? && OrderOK(s, d)
    ensures OrderOK(Step(s, a), d)
  {
    var s' := Step(s, a);
    OrderKeeps(d, Of(s.arrived, d), Of(s.taken, d), Of(s.handled, d), QueueOf(s.tables, d), s.closed, s.workers,
        s'.workers);
  }

  lemma StopKeeps(s: System)
    requires SystemOK(s)
    ensures SystemOK(Step(s, Stop))
  {
    hide PlacesOK, HeldOK, GateOK, DrainersOK;
    assert forall d :: OrderOK(s, d) ==> OrderOK(Step(s, Stop), d);
  }

  lemma StepKeeps(s: System, a: Action)
    requires SystemOK(s) && Enabled(s, a)
    ensures SystemOK(Step(s, a))
  {
    hide SystemOK;
    match a
    case Arrive(_, _) => ArriveKeeps(s, a);
    case Refuse(_) => RefuseKeeps(s, a);
    case Pop(_) => PopKeeps(s, a);
    case Begin(_) => BeginKeeps(s, a);
    case Return(_) => BeginKeeps(s, a);
    case Finish(_) => FinishKeeps(s, a);
    case Release(_) => ReleaseKeeps(s, a);
    case Stop => StopKeeps(s);
  }

  lemma {:induction false} RunKeeps(ordered: bool, limits: map<string, nat>, run: seq<Action>)
    requires Run(Initial(ordered, limits), run).Some?
    ensures SystemOK(Run(Initial(ordered, limits), run).value)
  {
    if run == [] {
      assert forall k :: InPool(map[], k) == {};
      assert Outstanding(map[]) == {};
    } else {
      hide SystemOK, Step, Enabled;
      RunKeeps(ordered, limits, Front(run));
      StepKeeps(Run(Initial(ordered, limits), Front(run)).value, Last(run));
    }
  }

  // ---------------------------------------------------------------------
  // What the pool promises, over every interleaving
  // ---------------------------------------------------------------------

  /** An ordered pool calls its handler with each device's messages one at a
      time and in the order they arrived, none passed over until the stop, and
      never pops an empty queue. */
  lemma HandledInArrivalOrder(limits: map<string, nat>, run: seq<Action>, d: string)
    requires Run(Initial(true, limits), run).Some?
    ensures var s := Run(Initial(true, limits), run).value;
            && !s.broken
            && Of(s.arrived, d) == Of(s.taken, d) + QueueOf(s.tables, d)
            && Of(s.handled, d) <= Of(s.taken, d)
            && (!s.closed ==> |Of(s.taken, d)| <= |Of(s.handled, d)| + 1)
            && (forall v, w | v in s.workers && w in s.workers && s.workers[v].device == d == s.workers[w].device
                              && Active(s.workers[v].stage) && Active(s.workers[w].stage) :: v == w)
  {
    hide SystemOK, Run, Initial;
    RunKeeps(true, limits, run);
    KeepsOrdered(true, limits, run);
    var s := Run(Initial(true, limits), run).value;
    OrderedParts(s, d);
    hide Of, QueueOf, DrainersOK;
    AtMostOneBehind(d, Of(s.arrived, d), Of(s.taken, d), Of(s.handled, d), QueueOf(s.tables, d), s.closed, s.workers);
    hide DeviceOrder;
    OneActive(s.tables.queued, s.tables.draining, s.workers, d);
  }

  lemma OrderedParts(s: System, d: string)
    requires SystemOK(s) && s.tables.ordered
    ensures !s.broken && DrainersOK(s.tables.queued, s.tables.draining, s.workers)
    ensures DeviceOrder(d, Of(s.arrived, d), Of(s.taken, d), Of(s.handled, d), QueueOf(s.tables, d), s.closed,
                        s.workers)
  {
    hide DrainersOK, DeviceOrder, NamesOK, PlacesOK, HeldOK, GateOK;
    assert OrderOK(s, d);
  }

  lemma AtMostOneBehind(d: string, arrived: seq<Request>, taken: seq<Request>, handled: seq<Request>,
                        queue: seq<Request>, closed: bool, ws: map<nat, Worker>)
    requires DeviceOrder(d, arrived, taken, handled, queue, closed, ws)
    ensures arrived == taken + queue && handled <= taken && (!closed ==> |taken| <= |handled| + 1)
  {
    if !closed && exists w | w in ws :: IsPopped(ws[w], d) {
      var w :| w in ws && IsPopped(ws[w], d);
      assert taken == handled + [ws[w].stage.r];
    }
  }

  lemma OneActive(queued: map<string, seq<Request>>, draining: set<string>, ws: map<nat, Worker>, d: string)
    requires DrainersOK(queued, draining, ws)
    ensures forall v, w | v in ws && w in ws && ws[v].device == d == ws[w].device
                          && Active(ws[v].stage) && Active(ws[w].stage) :: v == w
  {
  }

  lemma {:induction false} KeepsOrdered(ordered: bool, limits: map<string, nat>, run: seq<Action>)
    requires Run(Initial(ordered, limits), run).Some?
    ensures var t := Run(Initial(ordered, limits), run).value.tables; t.ordered == ordered && t.limits == limits
  {
    if run != [] {
      hide Step, Enabled;
      KeepsOrdered(ordered, limits, Front(run));
      StepKeepsSettings(Run(Initial(ordered, limits), Front(run)).value, Last(run));
    }
  }

  lemma TablesKeepSettings(t: Tables, r: Request, d: string)
    ensures Accepting(t, r).ordered == t.ordered && Accepting(t, r).limits == t.limits
    ensures Finishing(t, r).ordered == t.ordered && Finishing(t, r).limits == t.limits
    ensures QueueOf(t, d) != [] ==> Popping(t, d).ordered == t.ordered && Popping(t, d).limits == t.limits
  {
  }

  lemma StepKeepsSettings(s: System, a: Action)
    requires Enabled(s, a)
    ensures Step(s, a).tables.ordered == s.tables.ordered && Step(s, a).tables.limits == s.tables.limits
  {
    hide QueueOf, Of, HeldCount, LimitOf, Append, IsLast, Accepting, Popping, Finishing;
    match a
    case Arrive(device, family) => TablesKeepSettings(s.tables, Request(s.next, device, family), device);
    case Pop(w) => TablesKeepSettings(s.tables, Request(0, "", ""), s.workers[w].device);
    case Finish(w) => TablesKeepSettings(s.tables, s.workers[w].stage.r, "");
    case _ =>
  }

  /** A message is counted exactly while it is queued or with a goroutine that
      has not finished it, and no more are than its allowance. */
  lemma HeldIsQueuedPlusRunning(ordered: bool, limits: map<string, nat>, run: seq<Action>, k: HeldKey)
    requires Run(Initial(ordered, limits), run).Some?
    ensures var s := Run(Initial(ordered, limits), run).value;
            && HeldCount(s.tables, k) == |InPool(s.place, k)|
            && HeldCount(s.tables, k) <= (if k.family in limits then limits[k.family] else 0)
            && (forall r :: r in InPool(s.place, k) <==>
                  && KeyOf(r) == k
                  && (r in QueueOf(s.tables, k.device) || exists w | w in s.workers ::
                      Active(s.workers[w].stage) && s.workers[w].stage.r == r))
  {
    RunKeeps(ordered, limits, run);
    KeepsOrdered(ordered, limits, run);
    var s := Run(Initial(ordered, limits), run).value;
    HeldOf(s, k);
    forall r
      ensures r in InPool(s.place, k) <==>
                && KeyOf(r) == k
                && (r in QueueOf(s.tables, k.device) || exists w | w in s.workers ::
                      Active(s.workers[w].stage) && s.workers[w].stage.r == r)
    {
      CountedWhere(s.tables.queued, s.workers, s.place, k, r);
    }
  }

  lemma HeldOf(s: System, k: HeldKey)
    requires SystemOK(s)
    ensures HeldCount(s.tables, k) == |InPool(s.place, k)| && HeldCount(s.tables, k) <= LimitOf(s.tables, k.family)
    ensures PlacesOK(s.tables.queued, s.workers, s.place)
  {
  }

  lemma CountedWhere(queued: map<string, seq<Request>>, ws: map<nat, Worker>, place: map<Request, Place>, k: HeldKey,
      r: Request)
    requires PlacesOK(queued, ws, place)
    ensures r in InPool(place, k) <==>
              && KeyOf(r) == k
              && (r in Of(queued, k.device) || exists w | w in ws :: Active(ws[w].stage) && ws[w].stage.r == r)
  {
    if r in place { assert PlaceOK(r, place[r], queued, ws); }
    assert forall w | w in ws :: WorkerOK(w, ws[w], place);
    if k.device in queued { assert QueueOK(k.device, queued[k.device], place); }
  }

  /** An arrival the gate admits is refused exactly when its device and family have as
      many messages queued or running as their allowance. */
  lemma RefusedAtTheLimit(ordered: bool, limits: map<string, nat>, run: seq<Action>, device: string, family: string)
    requires Run(Initial(ordered, limits), run).Some? && !Run(Initial(ordered, limits), run).value.closed
    ensures var s := Run(Initial(ordered, limits), run).value;
            var r, s' := Request(s.next, device, family), Step(s, Arrive(device, family));
            && r in s'.place && s'.running == s.running + 1
            && (s'.place[r] == Refused <==>
                  |InPool(s.place, HeldKey(device, family))| >= if family in limits then limits[family] else 0)
            && (s'.place[r] != Refused ==> s'.place[r] == Queued || s'.place[r].AtWorker?)
  {
    RunKeeps(ordered, limits, run);
    KeepsOrdered(ordered, limits, run);
    HeldOf(Run(Initial(ordered, limits), run).value, HeldKey(device, family));
    hide SystemOK, Run, InPool, Append, Accepting, QueueOf;
  }

  /** Once the stop is decided no handler begins, whatever is queued. */
  lemma {:induction false} NoHandlerAfterStop(s: System, more: seq<Action>)
    requires s.closed && Run(s, more).Some?
    ensures Run(s, more).value.closed && Run(s, more).value.handled == s.handled
  {
    if more != [] {
      NoHandlerAfterStop(s, Front(more));
      ClosedHandlesNone(Run(s, Front(more)).value, Last(more));
      hide Step, Enabled;
    }
  }

  lemma ClosedHandlesNone(s: System, a: Action)
    requires s.closed && Enabled(s, a)
    ensures Step(s, a).closed && Step(s, a).handled == s.handled
  {
    hide QueueOf, Of, Append, IsLast, Popping, Finishing;
  }

  /** Every admission is released exactly once or still outstanding, and the gate
      counts those outstanding. */
  lemma AdmissionsReleasedOnce(ordered: bool, limits: map<string, nat>, run: seq<Action>)
    requires Run(Initial(ordered, limits), run).Some?
    ensures var s := Run(Initial(ordered, limits), run).value;
            && NoDuplicates(s.released)
            && (forall r | r in s.released :: r in s.place)
            && s.running == |set r | r in s.place && r !in s.released|
  {
    RunKeeps(ordered, limits, run);
    var s := Run(Initial(ordered, limits), run).value;
    GateCounts(s.place, s.running, s.released);
  }

  lemma GateCounts(place: map<Request, Place>, running: int, released: seq<Request>)
    requires GateOK(place, running, released)
    ensures forall r | r in released :: r in place
    ensures running == |set r | r in place && r !in released|
  {
    assert Outstanding(place) == set r | r in place && r !in released;
  }

  /** A stop that has joined every admission leaves nothing behind: no message
      queued, none held, and no goroutine of the pool. */
  lemma JoinedPoolIsEmpty(ordered: bool, limits: map<string, nat>, run: seq<Action>)
    requires Run(Initial(ordered, limits), run).Some? && Run(Initial(ordered, limits), run).value.running == 0
    ensures var s := Run(Initial(ordered, limits), run).value;
            && s.workers == map[]
            && (forall d :: QueueOf(s.tables, d) == [])
            && s.tables.held == map[]
            && (forall r | r in s.place :: r in s.released)
  {
    RunKeeps(ordered, limits, run);
    CountsArePositive(ordered, limits, run);
    var s := Run(Initial(ordered, limits), run).value;
    JoinedIsEmpty(s);
    CountsLeft(s.tables);
    hide SystemOK, Run, Initial, HeldCount;
  }

  lemma CountsLeft(t: Tables)
    requires Positive(t.held)
    ensures t.held == map[] || exists k :: HeldCount(t, k) > 0
  {
    if t.held != map[] {
      var k :| k in t.held;
      assert HeldCount(t, k) > 0;
    }
  }

  predicate Positive(held: map<HeldKey, int>) {
    forall k | k in held :: held[k] > 0
  }

  /** No count of zero is kept. */
  lemma {:induction false} CountsArePositive(ordered: bool, limits: map<string, nat>, run: seq<Action>)
    requires Run(Initial(ordered, limits), run).Some?
    ensures Positive(Run(Initial(ordered, limits), run).value.tables.held)
  {
    if run != [] {
      CountsArePositive(ordered, limits, Front(run));
      RunKeeps(ordered, limits, Front(run));
      hide SystemOK, Step, Enabled, Initial, Positive;
      StepCounts(Run(Initial(ordered, limits), Front(run)).value, Last(run));
    }
  }

  lemma HeldAfter(s: System, a: Action)
    requires Enabled(s, a)
    ensures var held := Step(s, a).tables.held;
            if a.Finish? then held == Finishing(s.tables, s.workers[a.w].stage.r).held
            else held == s.tables.held
                 || (a.Arrive? && held == Accepting(s.tables, Request(s.next, a.device, a.family)).held)
  {
    hide QueueOf, Of, Append, IsLast, Accepting, Finishing, HeldCount, LimitOf;
    var t := Step(s, a).tables;
    match a
    case Arrive(device, family) => assert t == s.tables || t == Accepting(s.tables, Request(s.next, device, family));
    case Pop(_) => assert t.held == s.tables.held;
    case Finish(w) => assert t == Finishing(s.tables, s.workers[w].stage.r);
    case _ => assert t == s.tables;
  }

  lemma TablesCount(t: Tables, r: Request)
    requires Positive(t.held)
    ensures Positive(Accepting(t, r).held)
    ensures HeldCount(t, KeyOf(r)) > 0 ==> Positive(Finishing(t, r).held)
  {
    hide QueueOf, IsLast;
  }

  lemma StepCounts(s: System, a: Action)
    requires SystemOK(s) && Enabled(s, a) && Positive(s.tables.held)
    ensures Positive(Step(s, a).tables.held)
  {
    HeldAfter(s, a);
    if a.Finish? {
      HeldWhileActive(s, a.w);
      TablesCount(s.tables, s.workers[a.w].stage.r);
    } else if a.Arrive? {
      TablesCount(s.tables, Request(s.next, a.device, a.family));
    }
    hide SystemOK, Step, Positive, Accepting, Finishing, HeldCount;
  }

  lemma HeldWhileActive(s: System, w: nat)
    requires SystemOK(s) && w in s.workers && Active(s.workers[w].stage)
    ensures HeldCount(s.tables, KeyOf(s.workers[w].stage.r)) > 0
  {
    var r := s.workers[w].stage.r;
    HeldOf(s, KeyOf(r));
    hide SystemOK, HeldCount;
    WorkerDevice(s.tables.queued, s.workers, s.place, w);
    assert r in InPool(s.place, KeyOf(r));
  }

  lemma JoinedIsEmpty(s: System)
    requires SystemOK(s) && s.running == 0
    ensures s.workers == map[]
    ensures forall d :: QueueOf(s.tables, d) == []
    ensures forall k :: HeldCount(s.tables, k) == 0
    ensures forall r | r in s.place :: r in s.released
  {
    assert Outstanding(s.place) == {};
    assert forall r | r in s.place :: r !in Outstanding(s.place);
    assert forall k :: InPool(s.place, k) == {};
    if d :| QueueOf(s.tables, d) != [] {
      QueueOwes(s, d);
    }
    if w :| w in s.workers {
      WorkerOwes(s, w);
    }
  }

  lemma QueueOwes(s: System, d: string)
    requires SystemOK(s) && QueueOf(s.tables, d) != []
    ensures Outstanding(s.place) != {}
  {
    var q := QueueOf(s.tables, d);
    assert QueueOK(d, q, s.place) && q[0] in q;
    assert q[0] in Outstanding(s.place);
  }

  /** A goroutine of the pool stands for an admission not yet released. */
  lemma WorkerOwes(s: System, w: nat)
    requires SystemOK(s) && w in s.workers
    ensures Outstanding(s.place) != {}
  {
    var k := s.workers[w];
    if k.stage == ToPop {
      assert Continues(k);
      QueueOwes(s, k.device);
    } else {
      assert WorkerOK(w, k, s.place);
      assert k.stage.r in Outstanding(s.place);
    }
  }

  // ---------------------------------------------------------------------
  // The stop's join ends
  // ---------------------------------------------------------------------

  /** A step of the pool itself, which needs neither an arrival nor a stop. */
  predicate IsWork(a: Action) {
    !a.Arrive? && !a.Stop?
  }

  function Works(run: seq<Action>): nat {
    if run == [] then 0 else Works(Front(run)) + if IsWork(Last(run)) then 1 else 0
  }

  /** How many steps a message can still take before its admission is released. */
  function StepsLeft(p: Place, ws: map<nat, Worker>): nat {
    match p
    case Queued => 5
    case AtWorker(w) =>
      if w !in ws then 0 else if ws[w].stage.Popped? then 4 else if ws[w].stage.Handling? then 3 else 2
    case Leaving(_) | Refused => 1
    case Released => 0
  }

  /** One element for each step an admitted message can still take. */
  function Owed(place: map<Request, Place>, ws: map<nat, Worker>): set<(Request, nat)> {
    set r, i: nat | r in place && i < StepsLeft(place[r], ws) :: (r, i)
  }

  lemma FewerOwed(place: map<Request, Place>, place': map<Request, Place>, ws: map<nat, Worker>, ws': map<nat, Worker>,
      r: Request)
    requires r in place && place'.Keys == place.Keys && StepsLeft(place'[r], ws') < StepsLeft(place[r], ws)
    requires forall x | x in place && x != r :: StepsLeft(place'[x], ws') == StepsLeft(place[x], ws)
    ensures |Owed(place', ws')| < |Owed(place, ws)|
  {
    var less, more := Owed(place', ws'), Owed(place, ws);
    assert less <= more;
    assert (r, StepsLeft(place'[r], ws')) in more - less;
    assert more == less + (more - less);
  }

  /** A goroutine moves its own message, and no other message's steps change. */
  lemma OthersOwe(queued: map<string, seq<Request>>, ws: map<nat, Worker>, ws': map<nat, Worker>,
                  place: map<Request, Place>, w: nat, x: Request)
    requires PlacesOK(queued, ws, place) && w in ws && x in place
    requires forall v | v in ws && v != w :: v in ws' && ws'[v] == ws[v]
    requires ws[w].stage.ToPop? || ws[w].stage.Releasing? || ws[w].stage.r != x
    ensures StepsLeft(place[x], ws') == StepsLeft(place[x], ws)
  {
    assert PlaceOK(x, place[x], queued, ws);
  }

  /** The message a step of the pool moves. */
  function Moved(s: System, a: Action): Request
    requires Enabled(s, a) && IsWork(a) && (a.Pop? ==> QueueOf(s.tables, s.workers[a.w].device) != [])
  {
    if a.Refuse? then a.r
    else if a.Pop? then QueueOf(s.tables, s.workers[a.w].device)[0]
    else s.workers[a.w].stage.r
  }

  lemma PopFinds(s: System, w: nat)
    requires SystemOK(s) && Enabled(s, Pop(w))
    ensures var d := s.workers[w].device;
            QueueOf(s.tables, d) != []
            && var r := QueueOf(s.tables, d)[0]; r in s.place && s.place[r] == Queued && r.device == d
  {
    hide HeldOK, GateOK, OrderOK;
    OnlyDrainer(s.tables.queued, s.tables.draining, s.workers, w);
    PoppedPlaces(s.tables.queued, s.workers, s.place, w);
  }

  /** Where a message stands when a step moves it. */
  function MovesFrom(a: Action): Place
    requires IsWork(a)
  {
    if a.Refuse? then Refused else if a.Pop? then Queued else if a.Release? then Leaving(a.w) else AtWorker(a.w)
  }

  lemma MovedIsPlaced(s: System, a: Action)
    requires SystemOK(s) && Enabled(s, a) && IsWork(a)
    ensures a.Pop? ==> QueueOf(s.tables, s.workers[a.w].device) != []
    ensures Moved(s, a) in s.place && s.place[Moved(s, a)] == MovesFrom(a)
  {
    if a.Pop? {
      PopFinds(s, a.w);
    } else if !a.Refuse? {
      hide HeldOK, GateOK, OrderOK, DrainersOK, PlacesOK;
      WorkerDevice(s.tables.queued, s.workers, s.place, a.w);
    }
  }

  lemma MovedOwesLess(s: System, a: Action)
    requires Enabled(s, a) && IsWork(a) && (a.Pop? ==> QueueOf(s.tables, s.workers[a.w].device) != [])
    requires Moved(s, a) in s.place && s.place[Moved(s, a)] == MovesFrom(a)
    ensures Moved(s, a) in Step(s, a).place
    ensures StepsLeft(Step(s, a).place[Moved(s, a)], Step(s, a).workers) < StepsLeft(s.place[Moved(s, a)], s.workers)
  {
    hide Finishing, Popping, IsLast, Append, QueueOf;
    var r, place := Moved(s, a), Step(s, a).place;
    match a
    case Refuse(_) => assert place[r] == Released;
    case Release(_) => assert place[r] == Released;
    case Pop(w) => assert place[r] == AtWorker(w);
    case Finish(w) => assert place[r] == Leaving(w);
    case Begin(_) => assert place == s.place;
    case Return(_) => assert place == s.place;
    case _ =>
  }

  /** A step of the pool moves one message. */
  lemma WorkPlaces(s: System, a: Action)
    requires Enabled(s, a) && IsWork(a) && (a.Pop? ==> QueueOf(s.tables, s.workers[a.w].device) != [])
    requires Moved(s, a) in s.place
    ensures var place := Step(s, a).place;
            place.Keys == s.place.Keys && forall x | x in s.place && x != Moved(s, a) :: place[x] == s.place[x]
  {
    var r := Moved(s, a);
    assert a.Begin? || a.Return? ==> Step(s, a).place == s.place;
    assert a.Refuse? || a.Release? ==> Step(s, a).place == s.place[r := Released];
    assert a.Finish? ==> Step(s, a).place == s.place[r := Leaving(a.w)];
    assert a.Pop? ==> Step(s, a).place == s.place[r := AtWorker(a.w)];
    hide Step, Moved, Enabled, QueueOf;
  }

  /** A step of the pool moves at most one goroutine. */
  lemma WorkWorkers(s: System, a: Action)
    requires Enabled(s, a) && IsWork(a)
    ensures var ws := Step(s, a).workers;
            if a.Refuse? then ws == s.workers
            else forall v | v in s.workers && v != a.w :: v in ws && ws[v] == s.workers[v]
  {
    hide Finishing, Popping, IsLast, Append, QueueOf;
    var ws := Step(s, a).workers;
    match a
    case Release(w) => assert ws == s.workers - {w} || ws == s.workers[w := s.workers[w].(stage := ToPop)];
    case Pop(w) => assert ws == s.workers || ws == s.workers[w := s.workers[w].(stage := ws[w].stage)];
    case Begin(w) => assert ws == s.workers[w := s.workers[w].(stage := ws[w].stage)];
    case Finish(w) => assert ws == s.workers[w := s.workers[w].(stage := ws[w].stage)];
    case _ =>
  }

  /** Every step of the pool leaves fewer to take. */
  lemma WorkOwesLess(s: System, a: Action)
    requires SystemOK(s) && Enabled(s, a) && IsWork(a)
    ensures |Owed(Step(s, a).place, Step(s, a).workers)| < |Owed(s.place, s.workers)|
  {
    var s' := Step(s, a);
    MovedIsPlaced(s, a);
    var r := Moved(s, a);
    MovedOwesLess(s, a);
    WorkPlaces(s, a);
    WorkWorkers(s, a);
    assert PlacesOK(s.tables.queued, s.workers, s.place);
    assert !a.Refuse? ==> a.w in s.workers && (a.Pop? <==> s.workers[a.w].stage.ToPop?);
    assert !a.Refuse? && !a.Pop? ==> s.workers[a.w].stage.r == r;
    hide SystemOK, Step, Enabled, StepsLeft, PlacesOK, Moved, Owed, QueueOf;
    forall x | x in s.place && x != r
      ensures StepsLeft(s'.place[x], s'.workers) == StepsLeft(s.place[x], s.workers)
    {
      if !a.Refuse? { OthersOwe(s.tables.queued, s.workers, s'.workers, s.place, a.w, x); }
    }
    FewerOwed(s.place, s'.place, s.workers, s'.workers, r);
  }

  /** A step of the pool is possible exactly while an admission is outstanding. */
  lemma NeverStuck(ordered: bool, limits: map<string, nat>, run: seq<Action>)
    requires Run(Initial(ordered, limits), run).Some?
    ensures var s := Run(Initial(ordered, limits), run).value;
            s.running > 0 <==> exists a :: IsWork(a) && Enabled(s, a)
  {
    RunKeeps(ordered, limits, run);
    var s := Run(Initial(ordered, limits), run).value;
    hide SystemOK, Run;
    if s.running > 0 {
      var a := WorkIsPossible(s);
      assert IsWork(a) && Enabled(s, a);
    }
    if a :| IsWork(a) && Enabled(s, a) { WorkIsOwed(s, a); }
  }

  lemma WorkIsOwed(s: System, a: Action)
    requires SystemOK(s) && IsWork(a) && Enabled(s, a)
    ensures s.running > 0
  {
    MovedIsPlaced(s, a);
    assert Moved(s, a) in Outstanding(s.place);
  }

  lemma WorkIsPossible(s: System) returns (a: Action)
    requires SystemOK(s) && s.running > 0
    ensures IsWork(a) && Enabled(s, a)
  {
    assert Outstanding(s.place) != {};
    var r :| r in Outstanding(s.place);
    assert PlaceOK(r, s.place[r], s.tables.queued, s.workers);
    match s.place[r]
    case Refused => a := Refuse(r);
    case AtWorker(w) => a := WorkerStep(s, w);
    case Leaving(w) => a := WorkerStep(s, w);
    case Queued =>
      assert HasDrainer(s.workers, r.device);
      var w :| w in s.workers && s.workers[w].device == r.device && Drains(s.workers[w]);
      a := WorkerStep(s, w);
  }

  lemma WorkerStep(s: System, w: nat) returns (a: Action)
    requires w in s.workers
    ensures IsWork(a) && Enabled(s, a)
  {
    match s.workers[w].stage
    case ToPop => a := Pop(w);
    case Popped(_) => a := Begin(w);
    case Handling(_) => a := Return(w);
    case Handled(_) => a := Finish(w);
    case Releasing(_, _) => a := Release(w);
  }

  /** Once stopped, the pool takes only so many steps more, whatever arrives and
      however its goroutines interleave, and where it can take none every
      admission has been released and nothing is left. */
  lemma StopJoins(ordered: bool, limits: map<string, nat>, run: seq<Action>, more: seq<Action>)
    requires Run(Initial(ordered, limits), run).Some? && Run(Initial(ordered, limits), run).value.closed
    requires Run(Initial(ordered, limits), run + more).Some?
    ensures var s, end := Run(Initial(ordered, limits), run).value, Run(Initial(ordered, limits), run + more).value;
            && end.closed && Works(more) + |Owed(end.place, end.workers)| <= |Owed(s.place, s.workers)|
            && ((forall a | IsWork(a) :: !Enabled(end, a)) ==>
                  end.running == 0 && end.workers == map[] && forall r | r in end.place :: r in end.released)
  {
    hide SystemOK, Initial, Run, Owed, Works, Enabled;
    StopBounds(ordered, limits, run, more);
    RunKeeps(ordered, limits, run + more);
    NeverStuck(ordered, limits, run + more);
    var end := Run(Initial(ordered, limits), run + more).value;
    NeverNegative(end);
    if end.running == 0 { JoinedIsEmpty(end); }
  }

  lemma {:induction false} StopBounds(ordered: bool, limits: map<string, nat>, run: seq<Action>, more: seq<Action>)
    requires Run(Initial(ordered, limits), run).Some? && Run(Initial(ordered, limits), run).value.closed
    requires Run(Initial(ordered, limits), run + more).Some?
    ensures var s, end := Run(Initial(ordered, limits), run).value, Run(Initial(ordered, limits), run + more).value;
            end.closed && Works(more) + |Owed(end.place, end.workers)| <= |Owed(s.place, s.workers)|
  {
    hide SystemOK, Initial, Owed, Step, Enabled;
    if more == [] {
      assert run + more == run;
    } else {
      assert Front(run + more) == run + Front(more) && Last(run + more) == Last(more);
      StopBounds(ordered, limits, run, Front(more));
      RunKeeps(ordered, limits, run + Front(more));
      ClosedStep(Run(Initial(ordered, limits), run + Front(more)).value, Last(more));
    }
  }

  lemma NeverNegative(s: System)
    requires SystemOK(s)
    ensures s.running >= 0
  {
  }

  lemma ClosedStep(s: System, a: Action)
    requires SystemOK(s) && s.closed && Enabled(s, a)
    ensures Step(s, a).closed
    ensures var left := |Owed(Step(s, a).place, Step(s, a).workers)|;
            left + (if IsWork(a) then 1 else 0) <= |Owed(s.place, s.workers)|
  {
    if IsWork(a) { WorkOwesLess(s, a); }
  }

  lemma {:induction false} RunsOn(s: System, run: seq<Action>, more: seq<Action>)
    requires Run(s, run).Some?
    ensures Run(s, run + more) == Run(Run(s, run).value, more)
  {
    if more == [] {
      assert run + more == run;
    } else {
      assert Front(run + more) == run + Front(more) && Last(run + more) == Last(more);
      RunsOn(s, run, Front(more));
    }
  }

  /** From every reachable state the pool's own steps can release all it admitted. */
  lemma CanJoin(ordered: bool, limits: map<string, nat>, run: seq<Action>) returns (more: seq<Action>)
    requires Run(Initial(ordered, limits), run).Some?
    ensures Works(more) == |more|
    ensures Run(Initial(ordered, limits), run + more).Some?
    ensures Run(Initial(ordered, limits), run + more).value.running == 0
  {
    RunKeeps(ordered, limits, run);
    more := JoinFrom(Run(Initial(ordered, limits), run).value);
    RunsOn(Initial(ordered, limits), run, more);
  }

  lemma {:induction false} JoinFrom(s: System) returns (more: seq<Action>)
    requires SystemOK(s)
    ensures Works(more) == |more| && Run(s, more).Some? && Run(s, more).value.running == 0
    decreases |Owed(s.place, s.workers)|
  {
    NeverNegative(s);
    hide SystemOK, Step, Enabled;
    if s.running == 0 {
      more := [];
    } else {
      var a := WorkIsPossible(s);
      WorkOwesLess(s, a);
      StepKeeps(s, a);
      var rest := JoinFrom(Step(s, a));
      assert Front([a]) == [] && Run(s, [a]) == Some(Step(s, a));
      RunsOn(s, [a], rest);
      WorksPlus(a, rest);
      more := [a] + rest;
    }
  }

  lemma {:induction false} WorksPlus(a: Action, rest: seq<Action>)
    requires IsWork(a)
    ensures Works([a] + rest) == 1 + Works(rest)
  {
    if rest == [] {
      assert [a] + rest == [a] && Front([a]) == [];
    } else {
      assert Front([a] + rest) == [a] + Front(rest);
      WorksPlus(a, Front(rest));
    }
  }

  /** The pool and its gate, in place. */
  class RequestPool {
    var ordered: bool
    var limits: map<string, nat>
    var held: map<HeldKey, int>
    var queued: map<string, seq<Request>>
    var draining: set<string>
    var closed: bool
    var running: int
    var next: nat

    function View(): Tables
      reads this
    {
      Tables(ordered, limits, held, queued, draining)
    }

    /** Whether a message was refused by the gate, dropped over its allowance, or
        accepted, and whether accepting it starts a goroutine. */
    method Handle(device: string, family: string) returns (admitted: bool, accepted: bool, start: bool)
      modifies this
      ensures admitted == !old(closed) && (accepted ==> admitted)
      ensures !admitted ==> View() == old(View()) && running == old(running) && next == old(next)
      ensures admitted ==> running == old(running) + 1 && next == old(next) + 1
      ensures admitted ==>
                (accepted <==> HeldCount(old(View()), HeldKey(device, family)) < LimitOf(old(View()), family))
      ensures View() == if accepted then Accepting(old(View()), Request(old(next), device, family)) else old(View())
      ensures start == (accepted && (ordered ==> device !in old(draining)))
      ensures closed == old(closed)
    {
      var key := HeldKey(device, family);
      if closed {
        return false, false, false;
      }
      running := running + 1;
      var req := Request(next, device, family);
      next := next + 1;
      var count := if key in held then held[key] else 0;
      var limit := if family in limits then limits[family] else 0;
      if count >= limit {
        return true, false, false;
      }
      held := held[key := count + 1];
      if !ordered {
        return true, true, true;
      }
      queued := queued[device := (if device in queued then queued[device] else []) + [req]];
      start := device !in draining;
      draining := draining + {device};
      return true, true, start;
    }

    /** A goroutine takes the next message of its device. */
    method Pop(device: string) returns (req: Request)
      requires QueueOf(View(), device) != []
      modifies this`queued
      ensures View() == Popping(old(View()), device) && req == QueueOf(old(View()), device)[0]
    {
      req := queued[device][0];
      queued := queued[device := queued[device][1..]];
    }

    /** The deferred section of run, past the handler or its panic. */
    method Finish(device: string, req: Request) returns (last: bool)
      requires req.device == device
      modifies this
      ensures View() == Finishing(old(View()), req) && last == IsLast(old(View()), device)
      ensures closed == old(closed) && running == old(running) && next == old(next)
    {
      var key := HeldKey(device, req.family);
      var left := (if key in held then held[key] else 0) - 1;
      held := held[key := left];
      if left == 0 {
        held := held - {key};
      }
      last := false;
      if ordered && (device in queued ==> queued[device] == []) {
        queued := queued - {device};
        draining := draining - {device};
        last := true;
      }
    }
  }
}
