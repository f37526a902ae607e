/** The site registry and its projection: internal/site/site.go and health.go.

    The registry forgets silent nodes; the `History` of what it was told never
    does, and is what the projected status is proved against. */
module Site {
  import opened Base

  const HEALTHY := "healthy"
  const DEGRADED := "degraded"
  const CRITICAL := "critical"
  const EXPORT_OK := "ok"

  /** Severities in the projection's order. */
  type Severity = s: int | 0 <= s <= 2 witness 0

  /** A node's record: `received` and `advanced` are on the registry's monotonic
      clock; `problem` is what evidence tracking made of its chain signal. */
  datatype Node = Node(status: string, lastSeen: int, received: int, advanced: int, problem: bool,
      exportSeverity: string)

  datatype Registry = Registry(nodes: map<string, Node>, exports: map<string, string>, silent: set<string>)

  function ExportOf(reg: Registry, d: string): string {
    if d in reg.exports then reg.exports[d] else ""
  }

  /** An accepted heartbeat replaces the node, keeping the severity last exported. */
  function Upserted(reg: Registry, d: string, status: string, lastSeen: int, problem: bool, mono: int): Registry {
    var advanced := if d in reg.nodes && lastSeen <= reg.nodes[d].lastSeen then reg.nodes[d].advanced else mono;
    reg.(nodes := reg.nodes[d := Node(status, lastSeen, mono, advanced, problem, ExportOf(reg, d))],
        silent := reg.silent - {d})
  }

  /** An export reading is kept whether or not the device has a node. */
  function Exported(reg: Registry, d: string, severity: string): Registry {
    var reg1 := if severity != "" then reg.(exports := reg.exports[d := severity]) else reg;
    if d in reg.nodes then reg1.(nodes := reg.nodes[d := reg.nodes[d].(exportSeverity := ExportOf(reg1, d))]) else reg1
  }

  predicate Silent(n: Node, now: int, ttl: int) {
    now - n.received > ttl
  }

  predicate ReportStale(n: Node, now: int, ttl: int) {
    now - n.advanced > ttl
  }

  predicate ReadsCritical(n: Node) {
    n.status == CRITICAL || n.exportSeverity == CRITICAL
  }

  /** The nodes eviction removes, and the silent critical ones it retains. */
  function Evictable(reg: Registry, now: int, ttl: int): set<string> {
    set d | d in reg.nodes && Silent(reg.nodes[d], now, ttl) && !ReadsCritical(reg.nodes[d])
  }

  function Retained(reg: Registry, now: int, ttl: int): set<string> {
    set d | d in reg.nodes && Silent(reg.nodes[d], now, ttl) && ReadsCritical(reg.nodes[d])
  }

  function Evicted(reg: Registry, now: int, ttl: int): Registry {
    reg.(nodes := reg.nodes - Evictable(reg, now, ttl), silent := reg.silent + Retained(reg, now, ttl))
  }

  // ---------------------------------------------------------------------
  // The projection
  // ---------------------------------------------------------------------

  function ProjectedSeverity(status: string): Severity {
    if status == HEALTHY then 0 else if status == CRITICAL then 2 else 1
  }

  function ExportFloor(severity: string): Severity {
    if severity == "" || severity == EXPORT_OK then 0 else if severity == CRITICAL then 2 else 1
  }

  function StatusName(s: Severity): string {
    if s == 0 then HEALTHY else if s == 1 then DEGRADED else CRITICAL
  }

  function NodeSeverity(reg: Registry, d: string, now: int, ttl: int): Severity {
    if d !in reg.nodes then Max(1, ExportFloor(ExportOf(reg, d)))
    else
      var n := reg.nodes[d];
      var s0: int := ProjectedSeverity(n.status);
      var s1 := if ReportStale(n, now, ttl) then Max(s0, 1) else s0;
      var s2 := Max(s1, ExportFloor(n.exportSeverity));
      if n.problem then Max(s2, 1) else s2
  }

  datatype SiteNode = SiteNode(device: string, status: string, observed: bool, stale: bool)

  /** One expected device's node. */
  function NodeOf(reg: Registry, d: string, now: int, ttl: int): SiteNode {
    SiteNode(d, StatusName(NodeSeverity(reg, d, now, ttl)), d in reg.nodes, d in reg.nodes ==>
        ReportStale(reg.nodes[d], now, ttl))
  }

  /** The gateway's own part: its status, and whether evidence delivery is
      degraded or blocked. */
  datatype GatewayView = GatewayView(status: string, deliveryDegraded: bool)

  datatype SiteHealth = SiteHealth(status: string, nodes: seq<SiteNode>)

  // ---------------------------------------------------------------------
  // Everything that ever happened
  // ---------------------------------------------------------------------

  datatype Event =
    | Heartbeat(d: string, status: string, lastSeen: int, problem: bool, mono: int)
    | Export(d: string, severity: string)
    | Evict(now: int, ttl: int)

  function After(history: seq<Event>): Registry {
    if history == [] then Registry(map[], map[], {})
    else
      var reg := After(Front(history));
      match Last(history)
      case Heartbeat(d, status, lastSeen, problem, mono) => Upserted(reg, d, status, lastSeen, problem, mono)
      case Export(d, severity) => Exported(reg, d, severity)
      case Evict(now, ttl) => Evicted(reg, now, ttl)
  }

  /** The status of the device's last heartbeat, "" before its first. */
  function LastHeartbeat(history: seq<Event>, d: string): string {
    if history == [] then ""
    else if Last(history).Heartbeat? && Last(history).d == d then Last(history).status
    else LastHeartbeat(Front(history), d)
  }

  /** The device's last export reading, "" before its first. */
  function LastExport(history: seq<Event>, d: string): string {
    if history == [] then ""
    else if Last(history).Export? && Last(history).d == d && Last(history).severity != "" then Last(history).severity
    else LastExport(Front(history), d)
  }

  predicate LastCritical(history: seq<Event>, d: string) {
    LastHeartbeat(history, d) == CRITICAL || LastExport(history, d) == CRITICAL
  }

  /** What the registry keeps of the history: every export reading, every node's
      last heartbeat, and the node of every device that last read critical. */
  lemma {:induction false} RegistryKeeps(history: seq<Event>, d: string)
    ensures var reg := After(history);
            && ExportOf(reg, d) == LastExport(history, d)
            && (d in reg.nodes ==>
                  reg.nodes[d].status == LastHeartbeat(history, d) && reg.nodes[d].exportSeverity == ExportOf(reg, d))
            && (d !in reg.nodes ==> LastHeartbeat(history, d) != CRITICAL)
  {
    if history != [] {
      RegistryKeeps(Front(history), d);
    }
  }

  lemma NodeIsCritical(history: seq<Event>, d: string, now: int, ttl: int)
    ensures NodeSeverity(After(history), d, now, ttl) == 2 <==> LastCritical(history, d)
  {
    RegistryKeeps(history, d);
  }

  /** A device every heartbeat of which is older than the TTL is never projected
      healthy, evicted or not, whatever its reports and its clock said. */
  lemma SilentNodeIsNotHealthy(history: seq<Event>, d: string, now: int, ttl: int)
    requires forall e | e in history && e.Heartbeat? && e.d == d :: now - e.mono > ttl
    ensures NodeSeverity(After(history), d, now, ttl) >= 1
  {
    AdvancedByHeartbeat(history, d);
  }

  lemma {:induction false} AdvancedByHeartbeat(history: seq<Event>, d: string)
    ensures d in After(history).nodes ==>
              exists e | e in history :: e.Heartbeat? && e.d == d && e.mono == After(history).nodes[d].advanced
  {
    if history != [] {
      AdvancedByHeartbeat(Front(history), d);
      assert forall e | e in Front(history) :: e in history;
      assert Last(history) in history;
    }
  }

  // ---------------------------------------------------------------------
  // What the history says of a device
  // ---------------------------------------------------------------------

  /** The device's last heartbeat, if it has one. */
  function LastReport(history: seq<Event>, d: string): (e: Option<Event>)
    ensures e.Some? ==> e.value.Heartbeat? && e.value.d == d
  {
    if history == [] then None
    else if Last(history).Heartbeat? && Last(history).d == d then Some(Last(history))
    else LastReport(Front(history), d)
  }

  /** Whether the device has been heard from and not forgotten: an eviction forgets it
      when its last heartbeat is older than the TTL, unless it last read critical. */
  predicate Known(history: seq<Event>, d: string) {
    if history == [] then false
    else match Last(history)
      case Heartbeat(e, _, _, _, _) => e == d || Known(Front(history), d)
      case Export(_, _) => Known(Front(history), d)
      case Evict(now, ttl) =>
        && Known(Front(history), d)
        && var last := LastReport(Front(history), d);
        (last.Some? && now - last.value.mono <= ttl) || LastCritical(Front(history), d)
  }

  /** The history ends with a heartbeat of the device that moves its report: the first
      since it became known, or one whose last_seen passes the heartbeat's before. */
  predicate Moves(history: seq<Event>, d: string) {
    && history != [] && Last(history).Heartbeat? && Last(history).d == d
    && (Known(Front(history), d) ==>
          var last := LastReport(Front(history), d);
          last.Some? ==> Last(history).lastSeen > last.value.lastSeen)
  }

  /** Every heartbeat that moved the device's report since it became known is more than
      `ttl` old. */
  predicate Frozen(history: seq<Event>, d: string, now: int, ttl: int) {
    history != [] ==>
      && (Moves(history, d) ==> now - Last(history).mono > ttl)
      && (Known(Front(history), d) ==> Frozen(Front(history), d, now, ttl))
  }

  /** The device's heartbeats were read on a clock that does not fall. */
  predicate Monotonic(history: seq<Event>, d: string) {
    history != [] ==>
      && Monotonic(Front(history), d)
      && (Last(history).Heartbeat? && Last(history).d == d ==>
            forall e | e in history && e.Heartbeat? && e.d == d :: e.mono <= Last(history).mono)
  }

  /** The device was found silent and critical since its last heartbeat. */
  predicate FoundSilent(history: seq<Event>, d: string) {
    if history == [] then false
    else match Last(history)
      case Heartbeat(e, _, _, _, _) => e != d && FoundSilent(Front(history), d)
      case Export(_, _) => FoundSilent(Front(history), d)
      case Evict(now, ttl) =>
        || FoundSilent(Front(history), d)
        || (&& Known(Front(history), d) && LastCritical(Front(history), d)
            && var last := LastReport(Front(history), d); last.Some? && now - last.value.mono > ttl)
  }

  /** The registry has a node exactly for the known devices, with the last heartbeat's
      readings, and lists as silent exactly those found so. */
  lemma {:induction false} RegistryMatches(history: seq<Event>, d: string)
    ensures var reg, last := After(history), LastReport(history, d);
            && (d in reg.nodes <==> Known(history, d))
            && (d in reg.nodes ==>
                  && last.Some? && reg.nodes[d].status == last.value.status
                  && reg.nodes[d].lastSeen == last.value.lastSeen
                  && reg.nodes[d].received == last.value.mono && reg.nodes[d].problem == last.value.problem)
            && (d in reg.silent <==> FoundSilent(history, d))
  {
    if history != [] {
      RegistryMatches(Front(history), d);
      RegistryKeeps(Front(history), d);
    }
  }

  /** When the device's report last moved. */
  function LastMove(history: seq<Event>, d: string): int {
    if history == [] then 0 else if Moves(history, d) then Last(history).mono else LastMove(Front(history), d)
  }

  /** Whatever its clock does, a node is stale exactly when its report last moved more
      than the TTL ago. */
  lemma {:induction false} StaleByLastMove(history: seq<Event>, d: string, now: int, ttl: int)
    requires Known(history, d)
    ensures d in After(history).nodes
    ensures ReportStale(After(history).nodes[d], now, ttl) <==> now - LastMove(history, d) > ttl
  {
    RegistryMatches(history, d);
    RegistryMatches(Front(history), d);
    if Known(Front(history), d) { StaleByLastMove(Front(history), d, now, ttl); }
  }

  /** On a clock that does not fall, a node is stale exactly when its report is frozen. */
  lemma {:induction false} StaleIsFrozen(history: seq<Event>, d: string, now: int, ttl: int)
    requires Known(history, d) && Monotonic(history, d)
    ensures d in After(history).nodes
    ensures ReportStale(After(history).nodes[d], now, ttl) <==> Frozen(history, d, now, ttl)
  {
    RegistryMatches(history, d);
    RegistryMatches(Front(history), d);
    AdvancedByHeartbeat(history, d);
    if Known(Front(history), d) {
      AdvancedByHeartbeat(Front(history), d);
      StaleIsFrozen(Front(history), d, now, ttl);
      assert history == Front(history) + [Last(history)];
    }
  }

  /** What is projected of an expected device, from the history alone: observed exactly
      while it is known; stale when its report has not moved for longer than the TTL, or
      it is not known; critical by its last readings; and healthy exactly when it is
      known, its report moved within the TTL, its last heartbeat said healthy without a
      problem in its evidence, and its last export, if any, read ok. */
  lemma ProjectedExactly(history: seq<Event>, d: string, now: int, ttl: int)
    ensures var node, last := NodeOf(After(history), d, now, ttl), LastReport(history, d);
            && node.device == d && node.observed == Known(history, d)
            && (node.stale <==> !Known(history, d) || now - LastMove(history, d) > ttl)
            && (node.status == "critical" <==> LastCritical(history, d))
            && (node.status == "healthy" <==>
                  && Known(history, d) && now - LastMove(history, d) <= ttl
                  && last.Some? && last.value.status == "healthy" && !last.value.problem
                  && (LastExport(history, d) == "" || LastExport(history, d) == "ok"))
            && node.status in {"healthy", "degraded", "critical"}
  {
    RegistryMatches(history, d);
    RegistryKeeps(history, d);
    NodeIsCritical(history, d, now, ttl);
    if Known(history, d) { StaleByLastMove(history, d, now, ttl); }
    hide After, LastMove, Known, LastReport, LastExport, LastHeartbeat;
  }

  /** The registry in place. */
  class SiteRegistry {
    var nodes: map<string, Node>
    var exports: map<string, string>
    var silent: set<string>

    function View(): Registry
      reads this
    {
      Registry(nodes, exports, silent)
    }

    constructor ()
      ensures View() == After([])
    {
      nodes, exports, silent := map[], map[], {};
    }

    method Upsert(d: string, status: string, lastSeen: int, problem: bool, mono: int)
      modifies this
      ensures View() == Upserted(old(View()), d, status, lastSeen, problem, mono)
    {
      var advanced := mono;
      if d in nodes && lastSeen <= nodes[d].lastSeen {
        advanced := nodes[d].advanced;
      }
      var severity := if d in exports then exports[d] else "";
      nodes := nodes[d := Node(status, lastSeen, mono, advanced, problem, severity)];
      silent := silent - {d};
    }

    method UpsertPosture(d: string, severity: string)
      modifies this
      ensures View() == Exported(old(View()), d, severity)
    {
      if severity != "" {
        exports := exports[d := severity];
      }
      if d !in nodes {
        return;
      }
      nodes := nodes[d := nodes[d].(exportSeverity := if d in exports then exports[d] else "")];
    }

    /** Evicts the silent nodes but those last read critical, and lists both: a
        silent critical node is listed at the first call that finds it silent. */
    method EvictStaleRetainingCritical(now: int, ttl: int) returns (evicted: set<string>, retained: set<string>)
      modifies this
      ensures View() == Evicted(old(View()), now, ttl)
      ensures evicted == Evictable(old(View()), now, ttl)
      ensures retained == Retained(old(View()), now, ttl) - old(silent)
    {
      evicted, retained := {}, {};
      ghost var reg := View();
      var left := nodes.Keys;
      while left != {}
        invariant left <= reg.nodes.Keys
        invariant evicted == Evictable(reg, now, ttl) - left
        invariant retained == Retained(reg, now, ttl) - reg.silent - left
        invariant View() == reg.(nodes := reg.nodes - evicted, silent := reg.silent + (Retained(reg, now, ttl) - left))
        decreases left
      {
        var d :| d in left;
        var n := nodes[d];
        left := left - {d};
        var quiet := now - n.received > ttl;
        if n.status == CRITICAL || n.exportSeverity == CRITICAL {
          if quiet && d !in silent {
            silent := silent + {d};
            retained := retained + {d};
          }
        } else if quiet {
          evicted := evicted + {d};
          nodes := nodes - {d};
        }
      }
    }

    /** One expected device's node. */
    method ProjectNode(d: string, now: int, ttl: int) returns (node: SiteNode)
      ensures node == NodeOf(View(), d, now, ttl)
    {
      var severity: Severity;
      if d !in nodes {
        severity := Max(1, ExportFloor(if d in exports then exports[d] else ""));
        return SiteNode(d, StatusName(severity), false, true);
      }
      var n := nodes[d];
      var stale := now - n.advanced > ttl;
      severity := ProjectedSeverity(n.status);
      if stale {
        severity := Max(severity, 1);
      }
      severity := Max(severity, ExportFloor(n.exportSeverity));
      if n.problem {
        severity := Max(severity, 1);
      }
      return SiteNode(d, StatusName(severity), true, stale);
    }

    /** A point-in-time projection over the expected devices. */
    method Project(expected: seq<string>, gateway: GatewayView, now: int, ttl: int) returns (health: SiteHealth)
      ensures |health.nodes| == |expected|
      ensures forall i | 0 <= i < |expected| :: health.nodes[i] == NodeOf(View(), expected[i], now, ttl)
      ensures IsGreatest(health.status, gateway, health.nodes)
    {
      hide NodeOf, IsGreatest;
      var out: seq<SiteNode> := [];
      for i := 0 to |expected|
        invariant |out| == i
        invariant forall j | 0 <= j < i :: out[j] == NodeOf(View(), expected[j], now, ttl)
      {
        var node := ProjectNode(expected[i], now, ttl);
        out := out + [node];
      }
      var status := MostSevere(gateway, out);
      health := SiteHealth(status, out);
    }
  }

  /** The site's status: the most severe of the gateway and the nodes. */
  method MostSevere(gateway: GatewayView, nodes: seq<SiteNode>) returns (status: string)
    ensures IsGreatest(status, gateway, nodes)
  {
    var severity: Severity := ProjectedSeverity(gateway.status);
    if gateway.deliveryDegraded {
      severity := Max(severity, 1);
    }
    ghost var own := severity;
    for i := 0 to |nodes|
      invariant own <= severity && forall j | 0 <= j < i :: ProjectedSeverity(nodes[j].status) <= severity
      invariant severity == own || exists j | 0 <= j < i :: ProjectedSeverity(nodes[j].status) == severity
    {
      severity := Max(severity, ProjectedSeverity(nodes[i].status));
    }
    status := StatusName(severity);
  }

  function GatewaySeverity(g: GatewayView): Severity {
    if g.deliveryDegraded then Max(ProjectedSeverity(g.status), 1) else ProjectedSeverity(g.status)
  }

  /** `status` names the most severe of the gateway and the nodes. */
  predicate IsGreatest(status: string, gateway: GatewayView, nodes: seq<SiteNode>) {
    && status in {HEALTHY, DEGRADED, CRITICAL}
    && GatewaySeverity(gateway) <= ProjectedSeverity(status)
    && (forall i | 0 <= i < |nodes| :: ProjectedSeverity(nodes[i].status) <= ProjectedSeverity(status))
    && (|| ProjectedSeverity(status) == GatewaySeverity(gateway)
        || exists i | 0 <= i < |nodes| :: ProjectedSeverity(nodes[i].status) == ProjectedSeverity(status))
  }

  /** After any history, the projected site is critical exactly when the gateway
      is, or some expected device's last heartbeat or export reading was: neither
      eviction nor silence ever folds a critical, and nothing invents one. */
  lemma SiteIsCriticalExactly(history: seq<Event>, expected: seq<string>, gateway: GatewayView, now: int, ttl: int,
      health: SiteHealth)
    requires |health.nodes| == |expected| && IsGreatest(health.status, gateway, health.nodes)
    requires forall i | 0 <= i < |expected| :: health.nodes[i] == NodeOf(After(history), expected[i], now, ttl)
    ensures health.status == CRITICAL <==>
              gateway.status == CRITICAL || exists d | d in expected :: LastCritical(history, d)
  {
    forall i | 0 <= i < |expected|
      ensures ProjectedSeverity(health.nodes[i].status) == 2 <==> LastCritical(history, expected[i])
    {
      NodeIsCritical(history, expected[i], now, ttl);
    }
    if health.status == CRITICAL && gateway.status != CRITICAL {
      var i :| 0 <= i < |expected| && ProjectedSeverity(health.nodes[i].status) == 2;
      assert expected[i] in expected && LastCritical(history, expected[i]);
    }
  }

  /** And it is healthy exactly when the gateway is, delivers its evidence, and every
      expected device is projected healthy. */
  lemma SiteIsHealthyExactly(history: seq<Event>, expected: seq<string>, gateway: GatewayView, now: int, ttl: int,
      health: SiteHealth)
    requires |health.nodes| == |expected| && IsGreatest(health.status, gateway, health.nodes)
    requires forall i | 0 <= i < |expected| :: health.nodes[i] == NodeOf(After(history), expected[i], now, ttl)
    ensures health.status == "healthy" <==>
              && gateway.status == "healthy" && !gateway.deliveryDegraded
              && forall i | 0 <= i < |expected| :: health.nodes[i].status == "healthy"
  {
    hide After, NodeOf;
  }
}
