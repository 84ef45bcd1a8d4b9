/**
 The agent-pool supervisor: reconciles the local poller services with the demand read from the server.

 Service commands are taken to have their effect at once.  Slot numbers name the extra services; slots at or
 above the configured maximum are never touched.
 */
module Supervisor {
  import opened LeaseIds

  datatype Config = Config(minReplicas: int, maxReplicas: int, poolId: string, dryRun: bool)

  datatype PoolInfo = PoolInfo(poolId: string, pendingJobs: int, totalLoad: int)
  datatype AgentInfo = AgentInfo(agentId: string, poolId: string, stale: bool, currentLoad: int, reservedLoad: int)
  datatype WorkerInfo = WorkerInfo(capacity: int, load: int)

  /** The two telemetry documents; absent numbers read as 0. */
  datatype Telemetry = Telemetry(
    pools: seq<PoolInfo>, agents: seq<AgentInfo>, pendingJobs: int, runningJobs: int,
    workers: seq<WorkerInfo>, totalCapacity: int, activeEpisodes: int)

  /** What the argument parser enforces. */
  predicate ConfigOk(cfg: Config) { 1 <= cfg.minReplicas <= cfg.maxReplicas <= 32 }

  function Max(a: int, b: int): int { if a > b then a else b }
  function Min(a: int, b: int): int { if a < b then a else b }

  /** Python's `a or b` on numbers. */
  function Or(a: int, b: int): int { if a != 0 then a else b }

  // ---------------------------------------------------------------- demand

  function PoolOf(pools: seq<PoolInfo>, id: string): PoolInfo {
    if pools == [] then PoolInfo(id, 0, 0) else if pools[0].poolId == id then pools[0] else PoolOf(pools[1..], id)
  }

  function SumCapacity(ws: seq<WorkerInfo>): int { if ws == [] then 0 else ws[0].capacity + SumCapacity(ws[1..]) }
  function SumLoad(ws: seq<WorkerInfo>): int { if ws == [] then 0 else ws[0].load + SumLoad(ws[1..]) }

  function WorkerCapacity(t: Telemetry): int { if t.totalCapacity > 0 then t.totalCapacity else SumCapacity(t.workers) }

  function Demand(cfg: Config, t: Telemetry): int {
    var pool := PoolOf(t.pools, cfg.poolId);
    var pending := Or(pool.pendingJobs, t.pendingJobs);
    var running := Max(t.runningJobs, pool.totalLoad);
    Max(Max(pending + running, t.activeEpisodes), SumLoad(t.workers))
  }

  function DesiredReplicas(cfg: Config, t: Telemetry): int {
    if Demand(cfg, t) <= 0 then cfg.minReplicas
    else Max(cfg.minReplicas, Min(Min(cfg.maxReplicas, Max(1, WorkerCapacity(t))), Demand(cfg, t)))
  }

  /**
   Desired replicas lie within the configured bounds, and above the minimum only for demand that workers can
   serve.
   */
  lemma DesiredInBounds(cfg: Config, t: Telemetry)
    requires ConfigOk(cfg)
    ensures cfg.minReplicas <= DesiredReplicas(cfg, t) <= cfg.maxReplicas
    ensures DesiredReplicas(cfg, t) > cfg.minReplicas ==>
              DesiredReplicas(cfg, t) <= Demand(cfg, t) && DesiredReplicas(cfg, t) <= Max(1, WorkerCapacity(t))
  {
  }

  /** Demand is the least bound of what is queued or running, of the active episodes and of the workers' load. */
  lemma DemandIsMaximum(cfg: Config, t: Telemetry, n: int)
    ensures var pool := PoolOf(t.pools, cfg.poolId);
            Demand(cfg, t) <= n <==>
            (&& (if pool.pendingJobs != 0 then pool.pendingJobs else t.pendingJobs) + t.runningJobs <= n
             && (if pool.pendingJobs != 0 then pool.pendingJobs else t.pendingJobs) + pool.totalLoad <= n
             && t.activeEpisodes <= n && SumLoad(t.workers) <= n)
  {
  }

  /** Above the minimum, a replica is wanted exactly when there is demand and worker capacity for it. */
  lemma DesiredIsLargestUseful(cfg: Config, t: Telemetry, n: int)
    requires ConfigOk(cfg) && cfg.minReplicas < n <= cfg.maxReplicas
    ensures n <= DesiredReplicas(cfg, t) <==> n <= Demand(cfg, t) && n <= Max(1, WorkerCapacity(t))
  {
  }

  // ---------------------------------------------------------------- which slots are busy

  /** Loads by agent id; the last row of an id counts. */
  function Loads(agents: seq<AgentInfo>, poolId: string): map<string, int> {
    if agents == [] then map[]
    else
      var rest := Loads(agents[..|agents|-1], poolId);
      var a := agents[|agents|-1];
      if a.poolId != poolId || a.stale then rest else rest[a.agentId := Or(a.currentLoad, a.reservedLoad)]
  }

  function SlotAgent(slot: nat): string { "openhands-20877-extra-" + (if slot < 10 then "0" else "") + Decimal(slot) }

  predicate Busy(loads: map<string, int>, slot: nat) { SlotAgent(slot) in loads && loads[SlotAgent(slot)] > 0 }

  // ---------------------------------------------------------------- slots

  /** Slots the supervisor manages. */
  predicate Managed(s: nat, max: int) { 1 <= s < max }

  function Slots(max: int): set<nat> { set s: nat | s < max && Managed(s, max) }

  lemma {:induction false} SlotCount(max: int)
    requires max >= 1
    ensures |Slots(max)| == max - 1
  {
    if max == 1 {
      assert Slots(max) == {};
    } else {
      SlotCount(max - 1);
      assert Slots(max) == Slots(max - 1) + {max - 1};
    }
  }

  lemma Subset(a: set<nat>, b: set<nat>)
    requires a <= b
    ensures |a| <= |b| && (|a| == |b| ==> a == b)
  {
    assert b == a + (b - a);
    if |a| == |b| { assert |b - a| == 0; }
  }

  /** The managed slots that are active. */
  function Active(extras: set<nat>, max: int): set<nat> { extras * Slots(max) }

  function Replicas(extras: set<nat>, max: int): nat { 1 + |Active(extras, max)| }

  /** Active slots that may not be stopped. */
  function BusyActive(extras: set<nat>, max: int, loads: map<string, int>): set<nat> {
    set s | s in Active(extras, max) && Busy(loads, s)
  }

  // ---------------------------------------------------------------- what a pass does

  /** Scaling up: the lowest free slots are started until there are enough replicas. */
  ghost predicate ScaledUp(extras: set<nat>, extras': set<nat>, max: int, desired: int) {
    && extras <= extras' && Replicas(extras', max) == desired
    && (forall s :: s in extras' && s !in extras ==> s in Slots(max))
    && (forall s, r: nat :: s in extras' && s !in extras && 1 <= r < s ==> r in extras')
  }

  /** Scaling down: the highest idle slots are stopped, never a busy one. */
  ghost predicate ScaledDown(extras: set<nat>, extras': set<nat>, max: int, desired: int, loads: map<string, int>) {
    && extras' <= extras && BusyActive(extras, max, loads) <= extras'
    && Replicas(extras', max) == Max(desired, 1 + |BusyActive(extras, max, loads)|)
    && (forall s :: s in extras && s !in extras' ==> s in Slots(max))
    && (forall s, r :: s in extras && s !in extras' && r in Active(extras', max) && !Busy(loads, r) ==> r < s)
  }

  /** A pass with main up. */
  ghost predicate Reconciled(extras: set<nat>, extras': set<nat>, max: int, desired: int, loads: map<string, int>) {
    if Replicas(extras, max) < desired then ScaledUp(extras, extras', max, desired)
    else if Replicas(extras, max) > desired then ScaledDown(extras, extras', max, desired, loads)
    else extras' == extras
  }

  /** A second pass on the same telemetry does nothing. */
  lemma SecondPassDoesNothing(first: set<nat>, second: set<nat>, third: set<nat>, max: int, desired: int,
                              loads: map<string, int>)
    requires Reconciled(first, second, max, desired, loads) && Reconciled(second, third, max, desired, loads)
    ensures third == second
  {
    if Replicas(second, max) != desired {
      var busy := BusyActive(first, max, loads);
      assert busy <= Active(second, max);
      Subset(busy, Active(second, max));
      assert BusyActive(second, max, loads) == Active(second, max);
      forall s | s in second ensures s in third {
        if s in Slots(max) { assert s in BusyActive(second, max, loads); }
      }
    }
  }

  /** Two outcomes of scaling up contain one another, one way or the other. */
  lemma UpComparable(extras: set<nat>, a: set<nat>, b: set<nat>, max: int, desired: int, s: nat)
    requires ScaledUp(extras, a, max, desired) && ScaledUp(extras, b, max, desired) && s in a && s !in b
    ensures b <= a
  {
    forall r | r in b ensures r in a {
      assert r !in extras && r > s && s >= 1 ==> s in b;
    }
  }

  /** The outcome of scaling up is determined. */
  lemma ScaledUpUnique(extras: set<nat>, a: set<nat>, b: set<nat>, max: int, desired: int)
    requires ScaledUp(extras, a, max, desired) && ScaledUp(extras, b, max, desired)
    ensures a == b
  {
    if !(a <= b) {
      var s :| s in a && s !in b;
      UpComparable(extras, a, b, max, desired, s);
      Subset(Active(b, max), Active(a, max));
    } else {
      Subset(Active(a, max), Active(b, max));
    }
    assert Active(a, max) == Active(b, max);
    forall s ensures s in a <==> s in b {
      assert s in Slots(max) ==> (s in a <==> s in Active(a, max)) && (s in b <==> s in Active(b, max));
    }
  }

  // ---------------------------------------------------------------- the service manager and the passes

  class Pollers {
    const cfg: Config
    var main: bool
    var extras: set<nat>

    constructor (cfg: Config, main: bool, extras: set<nat>)
      ensures this.cfg == cfg && this.main == main && this.extras == extras
    {
      this.cfg, this.main, this.extras := cfg, main, extras;
    }

    method ActiveManagedReplicas() returns (count: nat)
      requires ConfigOk(cfg)
      ensures count == |Active(extras, cfg.maxReplicas)| + if main then 1 else 0
    {
      count := if main then 1 else 0;
      assert Active(extras, 1) == {};
      for slot := 1 to cfg.maxReplicas
        invariant count == |Active(extras, slot)| + if main then 1 else 0
      {
        if slot in extras {
          assert Active(extras, slot + 1) == Active(extras, slot) + {slot};
          count := count + 1;
        } else {
          assert Active(extras, slot + 1) == Active(extras, slot);
        }
      }
    }

    /** The scale-up loop. */
    method ScaleUp(current: nat, desired: int)
      requires ConfigOk(cfg) && current == Replicas(extras, cfg.maxReplicas) < desired <= cfg.maxReplicas
      modifies this`extras
      ensures ScaledUp(old(extras), extras, cfg.maxReplicas, desired)
    {
      var n, max := current, cfg.maxReplicas;
      for slot := 1 to max
        invariant old(extras) <= extras && n == Replicas(extras, max) <= desired
        invariant forall s :: s in extras && s !in old(extras) ==> 1 <= s < slot
        invariant n < desired ==> forall s :: 1 <= s < slot ==> s in extras
        invariant forall s, r: nat :: s in extras && s !in old(extras) && 1 <= r < s ==> r in extras
      {
        if n >= desired {
          break;
        }
        if slot !in extras {
          assert Active(extras + {slot}, max) == Active(extras, max) + {slot};
          extras := extras + {slot};
          n := n + 1;
        }
      }
      if n < desired {
        assert Active(extras, max) == Slots(max);
        SlotCount(max);
        assert false;
      }
    }

    /** The scale-down loop, from the highest slot. */
    method ScaleDown(current: nat, desired: int, loads: map<string, int>)
      requires ConfigOk(cfg) && current == Replicas(extras, cfg.maxReplicas) > desired >= 1
      modifies this`extras
      ensures ScaledDown(old(extras), extras, cfg.maxReplicas, desired, loads)
    {
      var n, max := current, cfg.maxReplicas;
      ghost var busy := BusyActive(extras, max, loads);
      var slot := max - 1;
      while slot > 0 && n > desired
        invariant 0 <= slot < max && extras <= old(extras) && n == Replicas(extras, max) >= desired
        invariant busy <= extras
        invariant forall s :: s in old(extras) && s !in extras ==> slot < s < max && !Busy(loads, s)
        invariant forall s :: slot < s < max && s in extras ==> Busy(loads, s)
      {
        if slot in extras && !Busy(loads, slot) {
          assert Active(extras - {slot}, max) == Active(extras, max) - {slot};
          extras := extras - {slot};
          n := n - 1;
        }
        slot := slot - 1;
      }
      DownCount(old(extras), extras, max, desired, loads, slot);
    }

    /** One pass of the supervisor. */
    method Reconcile(t: Telemetry)
      requires ConfigOk(cfg)
      modifies this`main, this`extras
      ensures cfg.dryRun ==> main == old(main) && extras == old(extras)
      ensures !cfg.dryRun ==> main
      ensures !cfg.dryRun && !old(main) ==> extras == old(extras)
      ensures !cfg.dryRun && old(main) ==>
                Reconciled(old(extras), extras, cfg.maxReplicas, DesiredReplicas(cfg, t), Loads(t.agents, cfg.poolId))
    {
      var desired := DesiredReplicas(cfg, t);
      var loads := Loads(t.agents, cfg.poolId);
      DesiredInBounds(cfg, t);
      if cfg.dryRun {
        return;
      }
      if !main {
        main := true;
        return;
      }
      var current := ActiveManagedReplicas();
      if current < desired {
        ScaleUp(current, desired);
      } else if current > desired {
        ScaleDown(current, desired, loads);
      }
    }
  }

  /** Where the scale-down loop stops. */
  lemma DownCount(before: set<nat>, after: set<nat>, max: int, desired: int, loads: map<string, int>, slot: int)
    requires after <= before && BusyActive(before, max, loads) <= after && Replicas(after, max) >= desired
    requires 0 <= slot && (Replicas(after, max) == desired || slot == 0)
    requires forall s :: s in before && s !in after ==> slot < s < max && !Busy(loads, s)
    requires forall s :: slot < s < max && s in after ==> Busy(loads, s)
    ensures ScaledDown(before, after, max, desired, loads)
  {
    var busy := BusyActive(before, max, loads);
    assert busy <= Active(after, max);
    Subset(busy, Active(after, max));
    if slot == 0 {
      assert Active(after, max) == busy;
    }
  }

  // ---------------------------------------------------------------- what the telemetry means

  /** The agent of a slot is named by two decimal digits. */
  lemma SlotAgentIs(slot: nat)
    requires slot < 32
    ensures SlotAgent(slot) ==
            "openhands-20877-extra-" + ["0123456789"[slot / 10]] + ["0123456789"[slot % 10]]
  {
    if slot < 10 {
      assert Decimal(slot) == ["0123456789"[slot]];
    } else {
      assert Decimal(slot / 10) == ["0123456789"[slot / 10]];
      assert Decimal(slot) == Decimal(slot / 10) + ["0123456789"[slot % 10]];
    }
  }

  /** The row that counts for an agent: the last one of its id that is of the pool and not stale. */
  ghost predicate LastRow(agents: seq<AgentInfo>, poolId: string, id: string, i: int) {
    && 0 <= i < |agents| && agents[i].agentId == id && agents[i].poolId == poolId && !agents[i].stale
    && forall j :: i < j < |agents| ==> !(agents[j].agentId == id && agents[j].poolId == poolId && !agents[j].stale)
  }

  /** An agent's load is what its row reports, and its reservations when the report is 0. */
  lemma {:induction false} LoadsMean(agents: seq<AgentInfo>, poolId: string, id: string)
    ensures id in Loads(agents, poolId) <==> exists i :: LastRow(agents, poolId, id, i)
    ensures forall i :: LastRow(agents, poolId, id, i) ==>
                          id in Loads(agents, poolId) && Loads(agents, poolId)[id] ==
                          if agents[i].currentLoad != 0 then agents[i].currentLoad else agents[i].reservedLoad
    decreases |agents|
  {
    if agents != [] {
      var n := |agents| - 1;
      var a := agents[n];
      LoadsMean(agents[..n], poolId, id);
      if a.poolId == poolId && !a.stale && a.agentId == id {
        assert LastRow(agents, poolId, id, n);
      } else {
        assert forall i :: LastRow(agents[..n], poolId, id, i) <==> LastRow(agents, poolId, id, i);
      }
    }
  }

  /** A slot is busy exactly when its agent is listed in the pool, not stale, with a positive load. */
  lemma BusyMeans(agents: seq<AgentInfo>, poolId: string, slot: nat)
    requires slot < 32
    ensures Busy(Loads(agents, poolId), slot) <==>
            exists i :: LastRow(agents, poolId, "openhands-20877-extra-" + ["0123456789"[slot / 10]] + ["0123456789"[slot % 10]], i)
                        && (if agents[i].currentLoad != 0 then agents[i].currentLoad else agents[i].reservedLoad) > 0
  {
    SlotAgentIs(slot);
    LoadsMean(agents, poolId, SlotAgent(slot));
  }

  /** The pool's row is the first of its id; absent numbers read as 0. */
  lemma {:induction false} PoolOfMeans(pools: seq<PoolInfo>, id: string, i: nat)
    requires i < |pools| && pools[i].poolId == id && forall j :: 0 <= j < i ==> pools[j].poolId != id
    ensures PoolOf(pools, id) == pools[i]
    decreases |pools|
  {
    if i > 0 {
      PoolOfMeans(pools[1..], id, i - 1);
    }
  }

  lemma {:induction false} NoPool(pools: seq<PoolInfo>, id: string)
    requires forall j :: 0 <= j < |pools| ==> pools[j].poolId != id
    ensures PoolOf(pools, id).pendingJobs == 0 && PoolOf(pools, id).totalLoad == 0
    decreases |pools|
  {
    if pools != [] {
      NoPool(pools[1..], id);
    }
  }

  /** Every worker counts once in the sums. */
  lemma SumsMean(ws: seq<WorkerInfo>, w: WorkerInfo)
    ensures SumLoad([w] + ws) == w.load + SumLoad(ws) && SumCapacity([w] + ws) == w.capacity + SumCapacity(ws)
    ensures |ws| == 0 ==> SumLoad(ws) == 0 && SumCapacity(ws) == 0
  {
    assert ([w] + ws)[1..] == ws;
  }

  /** The reported total capacity counts when there is one, the workers' own otherwise. */
  lemma CapacityMeans(t: Telemetry)
    ensures t.totalCapacity > 0 ==> WorkerCapacity(t) == t.totalCapacity
    ensures t.totalCapacity <= 0 ==> WorkerCapacity(t) == SumCapacity(t.workers)
  {
  }

  /** The argument parser lets exactly the bounds 1 to 32 through, in order. */
  lemma BoundsAre(cfg: Config)
    ensures ConfigOk(cfg) <==> cfg.minReplicas > 0 && cfg.maxReplicas < 33 && !(cfg.minReplicas > cfg.maxReplicas)
  {
  }
}
