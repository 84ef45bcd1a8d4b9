/**
 The AgentJob queue at handler granularity: each method is one handler running alone.

 The clock is a parameter (`now`); answers of the job table and the loss of a race for an agent's slot are
 parameters too.
 */
module AgentQueue {

  import opened Options
  import opened LeaseProtocol

  datatype Job = Job(id: JobId, run: RunId, bridge: string, version: string)

  /** An in-flight entry: the lease, and the job it is for. */
  datatype InFlightJob = InFlightJob(lease: Record, job: Job) {
    function OwnedBy(a: AgentId): InFlightJob { this.(lease := lease.(agent := a)) }
  }

  datatype Bridge = Bridge(package: string, version: string)

  datatype AgentInfo = AgentInfo(load: Agent, pool: PoolId, bridges: seq<Bridge>, lastHeartbeat: nat) {
    function Plus(): AgentInfo { this.(load := load.(reserved := load.reserved + 1)) }
    function Minus(n: nat): AgentInfo { this.(load := load.(reserved := if load.reserved > n then load.reserved - n else 0)) }
  }

  /** What the job table answers to a lease; `NoStore` when none is attached. */
  datatype LeaseAnswer = NoStore | LeaseGranted | LeaseRefused | LeaseError

  /** What the job table answers to a completion. */
  datatype CommitAnswer = NoTable | Decided(decision: Decision) | CommitError

  // ---------------------------------------------------------------- which job an agent can run

  predicate BridgeMatches(a: AgentInfo, j: Job) {
    j.bridge == "" ||
    exists i :: 0 <= i < |a.bridges| && a.bridges[i].package == j.bridge && (j.version == "" || a.bridges[i].version == j.version)
  }

  predicate CanRun(agents: map<AgentId, AgentInfo>, agent: AgentId, pool: PoolId, j: Job, timeout: nat, now: nat) {
    && agent in agents
    && var a := agents[agent];
    && (pool == "" || a.pool == pool)
    && now <= a.lastHeartbeat + timeout
    && BridgeMatches(a, j)
    && a.load.EffectiveLoad() < a.load.Capacity()
  }

  /** Which agents can run a job, stated on their fields. */
  lemma CanRunMeans(agents: map<AgentId, AgentInfo>, agent: AgentId, pool: PoolId, j: Job, timeout: nat, now: nat)
    ensures CanRun(agents, agent, pool, j, timeout, now) <==>
            && agent in agents
            && var a := agents[agent];
            var slots := if a.load.maxConcurrent > 0 then a.load.maxConcurrent else 1;
            && (pool == "" || a.pool == pool) && now <= a.lastHeartbeat + timeout
            && a.load.reserved < slots && a.load.reported < slots
            && (|| j.bridge == "" || Bridge(j.bridge, j.version) in a.bridges
                || (j.version == "" && exists v :: Bridge(j.bridge, v) in a.bridges))
  {
    if agent in agents {
      BridgeMatchesMeans(agents[agent], j);
    }
  }

  /** Any agent for a job that names no bridge, any version of a bridge named alone, otherwise that version. */
  lemma BridgeMatchesMeans(a: AgentInfo, j: Job)
    ensures BridgeMatches(a, j) <==>
            || j.bridge == "" || Bridge(j.bridge, j.version) in a.bridges
            || (j.version == "" && exists v :: Bridge(j.bridge, v) in a.bridges)
  {
    if BridgeMatches(a, j) && j.bridge != "" {
      var i :| 0 <= i < |a.bridges| && a.bridges[i].package == j.bridge && (j.version == "" || a.bridges[i].version == j.version);
      assert a.bridges[i] == Bridge(j.bridge, a.bridges[i].version);
    }
  }

  predicate StaleForReclaim(agents: map<AgentId, AgentInfo>, agent: AgentId, reclaimAfter: nat, now: nat) {
    agent in agents ==> now > agents[agent].lastHeartbeat + reclaimAfter
  }

  // ---------------------------------------------------------------- queue contents

  function QueueOf(pending: map<PoolId, seq<Job>>, pool: PoolId): seq<Job> {
    if pool in pending then pending[pool] else []
  }

  function WithoutAt(q: seq<Job>, i: nat): seq<Job>
    requires i < |q|
  {
    q[..i] + q[i+1..]
  }

  function Retain(q: seq<Job>, id: JobId): (r: seq<Job>)
    ensures forall j :: j in r <==> j in q && j.id != id
  {
    if q == [] then [] else (if q[0].id == id then [] else [q[0]]) + Retain(q[1..], id)
  }

  predicate Distinct(q: seq<Job>) { forall i, k :: 0 <= i < k < |q| ==> q[i].id != q[k].id }

  /** Every queued job is the job of an unleased record of that pool. */
  ghost predicate Backed(pool: PoolId, q: seq<Job>, inFlight: map<JobId, InFlightJob>) {
    forall j :: j in q ==>
                  && j.id in inFlight && inFlight[j.id].job == j
                  && inFlight[j.id].lease.agent == "" && inFlight[j.id].lease.pool == pool
  }

  /** The record describes its own job, and is queued exactly while nobody has leased it. */
  ghost predicate RecordOk(id: JobId, rec: InFlightJob, pending: map<PoolId, seq<Job>>) {
    && rec.job.id == id && rec.job.run == rec.lease.run
    && (rec.lease.agent == "" ==> rec.job in QueueOf(pending, rec.lease.pool))
  }

  /** The queue invariant between handlers. */
  ghost predicate QueueOk(pending: map<PoolId, seq<Job>>, inFlight: map<JobId, InFlightJob>) {
    && (forall p :: p in pending ==> Distinct(pending[p]) && Backed(p, pending[p], inFlight))
    && (forall id :: id in inFlight ==> RecordOk(id, inFlight[id], pending))
  }

  /** Positions of all queue entries. */
  ghost function Entries(pending: map<PoolId, seq<Job>>, pools: set<PoolId>): set<(PoolId, nat)> {
    set p, i | p in pools && p in pending && 0 <= i < |pending[p]| :: (p, i)
  }

  function Owned(inFlight: map<JobId, InFlightJob>): set<JobId> {
    set id | id in inFlight && inFlight[id].lease.agent != ""
  }

  function Unleased(inFlight: map<JobId, InFlightJob>): set<JobId> {
    set id | id in inFlight && inFlight[id].lease.agent == ""
  }

  /** The request names the lease that the job is under. */
  predicate Current(inFlight: map<JobId, InFlightJob>, r: Request) {
    && r.id in inFlight && inFlight[r.id].lease.run == r.run
    && inFlight[r.id].lease.agent == r.agent && r.agent != ""
  }

  // ---------------------------------------------------------------- counting

  lemma {:induction false} PoolEntries(pool: PoolId, n: nat)
    ensures |set i | 0 <= i < n :: (pool, i)| == n
  {
    if n > 0 {
      PoolEntries(pool, n - 1);
      assert (set i | 0 <= i < n :: (pool, i)) == (set i | 0 <= i < n - 1 :: (pool, i)) + {(pool, n - 1)};
    } else {
      assert (set i | 0 <= i < n :: (pool, i)) == {};
    }
  }

  lemma EntriesAdd(pending: map<PoolId, seq<Job>>, pools: set<PoolId>, p: PoolId)
    requires p in pending && p !in pools
    ensures |Entries(pending, pools + {p})| == |Entries(pending, pools)| + |pending[p]|
  {
    var mine := set i | 0 <= i < |pending[p]| :: (p, i);
    assert Entries(pending, pools + {p}) == Entries(pending, pools) + mine;
    PoolEntries(p, |pending[p]|);
  }

  /** A set and its image under an injective naming have the same size. */
  lemma {:induction false} SameSize(es: set<(PoolId, nat)>, ids: set<JobId>, name: ((PoolId, nat)) -> JobId)
    requires forall e :: e in es ==> name(e) in ids
    requires forall id :: id in ids ==> exists e :: e in es && name(e) == id
    requires forall e, f :: e in es && f in es && name(e) == name(f) ==> e == f
    ensures |es| == |ids|
  {
    if es == {} {
      assert ids == {};
    } else {
      var e :| e in es;
      forall id | id in ids - {name(e)} ensures exists f :: f in es - {e} && name(f) == id {
        var f :| f in es && name(f) == id;
      }
      SameSize(es - {e}, ids - {name(e)}, name);
    }
  }

  lemma EntryNames(pending: map<PoolId, seq<Job>>, inFlight: map<JobId, InFlightJob>, e: (PoolId, nat),
                   f: (PoolId, nat))
    requires QueueOk(pending, inFlight) && e in Entries(pending, pending.Keys) && f in Entries(pending, pending.Keys)
    requires pending[e.0][e.1].id == pending[f.0][f.1].id
    ensures e == f && pending[e.0][e.1].id in Unleased(inFlight)
  {
    assert Backed(e.0, pending[e.0], inFlight) && pending[e.0][e.1] in pending[e.0];
    assert Backed(f.0, pending[f.0], inFlight) && pending[f.0][f.1] in pending[f.0];
    assert Distinct(pending[e.0]);
  }

  /** The queues hold exactly one entry per unleased record. */
  lemma QueuedAreUnleased(pending: map<PoolId, seq<Job>>, inFlight: map<JobId, InFlightJob>)
    requires QueueOk(pending, inFlight)
    ensures |Entries(pending, pending.Keys)| == |Unleased(inFlight)|
  {
    var es := Entries(pending, pending.Keys);
    var name := (e: (PoolId, nat)) => if e.0 in pending && e.1 < |pending[e.0]| then pending[e.0][e.1].id else "";
    forall e | e in es ensures name(e) in Unleased(inFlight) { EntryNames(pending, inFlight, e, e); }
    forall id | id in Unleased(inFlight) ensures exists e :: e in es && name(e) == id {
      var rec := inFlight[id];
      assert RecordOk(id, rec, pending);
      var i :| 0 <= i < |pending[rec.lease.pool]| && pending[rec.lease.pool][i] == rec.job;
      assert name((rec.lease.pool, i)) == id && (rec.lease.pool, i) in es;
    }
    forall e, f | e in es && f in es && name(e) == name(f) ensures e == f { EntryNames(pending, inFlight, e, f); }
    SameSize(es, Unleased(inFlight), name);
  }

  /** Outstanding jobs are the queued ones plus the leased ones. */
  lemma OutstandingSplits(pending: map<PoolId, seq<Job>>, inFlight: map<JobId, InFlightJob>)
    requires QueueOk(pending, inFlight)
    ensures |inFlight| == |Entries(pending, pending.Keys)| + |Owned(inFlight)|
  {
    QueuedAreUnleased(pending, inFlight);
    assert inFlight.Keys == Unleased(inFlight) + Owned(inFlight);
    assert |inFlight.Keys| == |inFlight|;
  }

  // ---------------------------------------------------------------- keeping the invariant

  lemma RetainDistinct(q: seq<Job>, id: JobId)
    requires Distinct(q)
    ensures Distinct(Retain(q, id))
  {
    if q != [] {
      assert q[0] in q;
      RetainDistinct(q[1..], id);
      var tail := Retain(q[1..], id);
      assert forall k :: 0 <= k < |tail| ==> tail[k] in tail;
      forall j | j in tail ensures j.id != q[0].id {
        var k :| 0 <= k < |q[1..]| && q[1..][k] == j;
        assert q[k+1] == j;
      }
    }
  }

  lemma RemovalKeeps(pending: map<PoolId, seq<Job>>, inFlight: map<JobId, InFlightJob>, pool: PoolId, id: JobId)
    requires QueueOk(pending, inFlight)
    requires id in inFlight ==> inFlight[id].lease.pool == pool || inFlight[id].lease.agent != ""
    ensures QueueOk(if pool in pending then pending[pool := Retain(pending[pool], id)] else pending, inFlight - {id})
  {
    var pending' := if pool in pending then pending[pool := Retain(pending[pool], id)] else pending;
    if pool in pending { RetainDistinct(pending[pool], id); }
    forall p | p in pending' ensures Distinct(pending'[p]) && Backed(p, pending'[p], inFlight - {id}) {
      assert Backed(p, pending[p], inFlight);
    }
    forall k | k in inFlight - {id} ensures RecordOk(k, inFlight[k], pending') {
      assert RecordOk(k, inFlight[k], pending);
    }
  }

  /** A job not queued yet joins the end of its pool's queue, under a record nobody has leased. */
  lemma PushKeeps(pending: map<PoolId, seq<Job>>, inFlight: map<JobId, InFlightJob>, rec: InFlightJob)
    requires QueueOk(pending, inFlight) && rec.lease.agent == "" && rec.job.run == rec.lease.run
    requires rec.job.id !in Unleased(inFlight)
    ensures QueueOk(pending[rec.lease.pool := QueueOf(pending, rec.lease.pool) + [rec.job]], inFlight[rec.job.id := rec])
  {
    var pending' := pending[rec.lease.pool := QueueOf(pending, rec.lease.pool) + [rec.job]];
    var inFlight' := inFlight[rec.job.id := rec];
    forall p, j | p in pending && j in pending[p] ensures j.id != rec.job.id {
      assert Backed(p, pending[p], inFlight);
      assert j.id in Unleased(inFlight);
    }
    forall p | p in pending' ensures Distinct(pending'[p]) && Backed(p, pending'[p], inFlight') {
      if p in pending {
        assert Distinct(pending[p]) && Backed(p, pending[p], inFlight);
        assert forall i :: 0 <= i < |pending[p]| ==> pending[p][i] in pending[p];
      }
    }
    forall k | k in inFlight' ensures RecordOk(k, inFlight'[k], pending') {
      if k != rec.job.id {
        assert RecordOk(k, inFlight[k], pending);
      }
    }
  }

  /** The records after an enqueue. */
  function EnqueueRecord(pool: PoolId, job: Job, sender: nat): InFlightJob {
    InFlightJob(Record(pool, "", job.run, sender), job)
  }

  /** Enqueue keeps the invariant exactly when no job of that id is waiting in a queue. */
  lemma EnqueueKeepsIffNotQueued(pending: map<PoolId, seq<Job>>, inFlight: map<JobId, InFlightJob>, pool: PoolId,
                                 job: Job, sender: nat)
    requires QueueOk(pending, inFlight)
    ensures QueueOk(pending[pool := QueueOf(pending, pool) + [job]], inFlight[job.id := EnqueueRecord(pool, job, sender)])
       <==> job.id !in Unleased(inFlight)
  {
    var rec := EnqueueRecord(pool, job, sender);
    var pending', inFlight' := pending[pool := QueueOf(pending, pool) + [job]], inFlight[job.id := rec];
    if job.id !in Unleased(inFlight) {
      PushKeeps(pending, inFlight, rec);
    } else {
      var was := inFlight[job.id];
      assert RecordOk(job.id, was, pending);
      var i :| 0 <= i < |pending[was.lease.pool]| && pending[was.lease.pool][i] == was.job;
      assert pending'[was.lease.pool][i] == was.job;
      if pool == was.lease.pool {
        assert pending'[pool][|pending[pool]|] == job;
        assert !Distinct(pending'[pool]);
      } else {
        assert !Backed(was.lease.pool, pending'[was.lease.pool], inFlight');
      }
    }
  }

  /** Enqueuing a queued id once more leaves one queue entry too many for the records. */
  lemma DoubleEnqueueMiscounts(pending: map<PoolId, seq<Job>>, inFlight: map<JobId, InFlightJob>, pool: PoolId,
                               job: Job, sender: nat)
    requires QueueOk(pending, inFlight) && job.id in Unleased(inFlight)
    ensures var pending' := pending[pool := QueueOf(pending, pool) + [job]];
            var inFlight' := inFlight[job.id := EnqueueRecord(pool, job, sender)];
            |inFlight'| + 1 == |Entries(pending', pending'.Keys)| + |Owned(inFlight')|
  {
    var pending' := pending[pool := QueueOf(pending, pool) + [job]];
    var inFlight' := inFlight[job.id := EnqueueRecord(pool, job, sender)];
    OutstandingSplits(pending, inFlight);
    assert inFlight'.Keys == inFlight.Keys && Owned(inFlight') == Owned(inFlight);
    assert |inFlight'| == |inFlight'.Keys| && |inFlight| == |inFlight.Keys|;
    assert Entries(pending', pending'.Keys) == Entries(pending, pending.Keys) + {(pool, |QueueOf(pending, pool)|)};
  }

  lemma WithoutAtMembers(q: seq<Job>, pos: nat)
    requires Distinct(q) && pos < |q|
    ensures Distinct(WithoutAt(q, pos)) && forall j :: j in WithoutAt(q, pos) <==> j in q && j.id != q[pos].id
  {
    var q' := WithoutAt(q, pos);
    assert forall i :: 0 <= i < |q'| ==> q'[i] == q[if i < pos then i else i + 1];
    forall j | j in q && j.id != q[pos].id ensures j in q' {
      var i :| 0 <= i < |q| && q[i] == j;
      assert q'[if i < pos then i else i - 1] == j;
    }
  }

  /** A queued job leaves the queue as its record gets an owner. */
  lemma TakeKeeps(pending: map<PoolId, seq<Job>>, inFlight: map<JobId, InFlightJob>, pool: PoolId, pos: nat,
                  agent: AgentId)
    requires QueueOk(pending, inFlight) && pool in pending && pos < |pending[pool]| && agent != ""
    ensures pending[pool][pos].id in inFlight
    ensures var id := pending[pool][pos].id;
            QueueOk(pending[pool := WithoutAt(pending[pool], pos)], inFlight[id := inFlight[id].OwnedBy(agent)])
  {
    var j := pending[pool][pos];
    assert Backed(pool, pending[pool], inFlight) && j in pending[pool];
    WithoutAtMembers(pending[pool], pos);
    var pending' := pending[pool := WithoutAt(pending[pool], pos)];
    var inFlight' := inFlight[j.id := inFlight[j.id].OwnedBy(agent)];
    forall p | p in pending' ensures Distinct(pending'[p]) && Backed(p, pending'[p], inFlight') {
      assert Backed(p, pending[p], inFlight);
      forall k | k in pending'[p] ensures k in pending[p] && k.id != j.id {
        if p != pool { assert inFlight[k.id].lease.pool == p; }
      }
    }
    forall k | k in inFlight' ensures RecordOk(k, inFlight'[k], pending') {
      assert RecordOk(k, inFlight[k], pending);
    }
  }

  lemma Refronted(q: seq<Job>, pos: nat)
    requires Distinct(q) && pos < |q|
    ensures var q' := [q[pos]] + WithoutAt(q, pos); Distinct(q') && forall j :: j in q' <==> j in q
  {
    var q' := [q[pos]] + WithoutAt(q, pos);
    assert forall i :: 0 <= i < |q'| ==> q'[i] == q[if i == 0 then pos else if i <= pos then i - 1 else i];
    forall j | j in q ensures j in q' {
      var i :| 0 <= i < |q| && q[i] == j;
      assert q'[if i == pos then 0 else if i < pos then i + 1 else i] == j;
    }
  }

  /** Moving an entry to the front of its own queue. */
  lemma RefrontKeeps(pending: map<PoolId, seq<Job>>, inFlight: map<JobId, InFlightJob>, pool: PoolId, pos: nat)
    requires QueueOk(pending, inFlight) && pool in pending && pos < |pending[pool]|
    ensures QueueOk(pending[pool := [pending[pool][pos]] + WithoutAt(pending[pool], pos)], inFlight)
  {
    var pending' := pending[pool := [pending[pool][pos]] + WithoutAt(pending[pool], pos)];
    Refronted(pending[pool], pos);
    assert Backed(pool, pending[pool], inFlight);
    forall k | k in inFlight ensures RecordOk(k, inFlight[k], pending') {
      assert RecordOk(k, inFlight[k], pending);
    }
  }

  /** A leased job is in no queue, so its record can go. */
  lemma CompletionKeeps(pending: map<PoolId, seq<Job>>, inFlight: map<JobId, InFlightJob>, id: JobId)
    requires QueueOk(pending, inFlight) && id in Owned(inFlight)
    ensures QueueOk(pending, inFlight - {id})
  {
    forall p | p in pending ensures Backed(p, pending[p], inFlight - {id}) {
      assert Backed(p, pending[p], inFlight);
    }
    forall k | k in inFlight - {id} ensures RecordOk(k, inFlight[k], pending) {
      assert RecordOk(k, inFlight[k], pending);
    }
  }

  // ---------------------------------------------------------------- reclaim, as a function of the records

  function Replacement(rec: InFlightJob, suffix: string): InFlightJob {
    var run := rec.lease.run + RECLAIM_MARK + suffix;
    InFlightJob(rec.lease.(agent := "", run := run), rec.job.(run := run))
  }

  /** The records once the leases of `ids` have been reclaimed. */
  function Reclaimed(inFlight: map<JobId, InFlightJob>, ids: set<JobId>, suffix: JobId -> string)
    : map<JobId, InFlightJob>
  {
    map id | id in inFlight :: if id in ids then Replacement(inFlight[id], suffix(id)) else inFlight[id]
  }

  function LeasedIn(inFlight: map<JobId, InFlightJob>, ids: set<JobId>, a: AgentId): set<JobId> {
    set id | id in ids && id in inFlight && inFlight[id].lease.agent == a
  }

  /** The registry once every lease of `ids` has been given back. */
  function Discharged(agents: map<AgentId, AgentInfo>, inFlight: map<JobId, InFlightJob>,
                      ids: set<JobId>): map<AgentId, AgentInfo> {
    map a | a in agents :: agents[a].Minus(|LeasedIn(inFlight, ids, a)|)
  }

  function Unreserve(agents: map<AgentId, AgentInfo>, a: AgentId): map<AgentId, AgentInfo> {
    if a in agents then agents[a := agents[a].Minus(1)] else agents
  }

  /** What a pass does to records and loads, stated on their fields; `limit` is timeout and grace together. */
  lemma ReclaimedMeans(before: map<JobId, InFlightJob>, agents: map<AgentId, AgentInfo>, hits: set<JobId>, limit: nat,
                       now: nat, persisted: set<JobId>, suffix: JobId -> string)
    requires hits == Candidates(before, agents, limit, now) * persisted
    ensures var inFlight, agents' := Reclaimed(before, hits, suffix), Discharged(agents, before, hits);
            && (forall id :: id in before ==>
                              var rec := before[id];
                              var silent := rec.lease.agent in agents ==> now > agents[rec.lease.agent].lastHeartbeat + limit;
                              && id in inFlight
                              && if rec.lease.agent != "" && id in persisted && silent then
                                   && id in hits && inFlight[id].lease.agent == ""
                                   && inFlight[id].lease.run == rec.lease.run + RECLAIM_MARK + suffix(id)
                                   && inFlight[id].job == rec.job.(run := inFlight[id].lease.run)
                                 else inFlight[id] == rec)
            && (forall a :: a in agents ==>
                              && a in agents'
                              && if now > agents[a].lastHeartbeat + limit then
                                   var n := |set id | id in before && id in persisted && before[id].lease.agent == a|;
                                   var reserved := agents[a].load.reserved;
                                   a != "" ==> agents'[a].load.reserved == if reserved > n then reserved - n else 0
                                 else agents'[a] == agents[a])
  {
    forall a | a in agents && (now > agents[a].lastHeartbeat + limit ==> a != "")
      ensures LeasedIn(before, hits, a) ==
              if now > agents[a].lastHeartbeat + limit
              then set id | id in before && id in persisted && before[id].lease.agent == a else {}
    {}
  }

  lemma LeasedOneMore(inFlight: map<JobId, InFlightJob>, ids: set<JobId>, id: JobId, a: AgentId)
    requires id in inFlight && id !in ids
    ensures |LeasedIn(inFlight, ids + {id}, a)| == |LeasedIn(inFlight, ids, a)| + if inFlight[id].lease.agent == a then 1 else 0
  {
    if inFlight[id].lease.agent == a {
      assert LeasedIn(inFlight, ids + {id}, a) == LeasedIn(inFlight, ids, a) + {id};
    } else {
      assert LeasedIn(inFlight, ids + {id}, a) == LeasedIn(inFlight, ids, a);
    }
  }

  lemma DischargeOneMore(agents: map<AgentId, AgentInfo>, inFlight: map<JobId, InFlightJob>, ids: set<JobId>, id: JobId)
    requires id in inFlight && id !in ids
    ensures Discharged(agents, inFlight, ids + {id}) == Unreserve(Discharged(agents, inFlight, ids), inFlight[id].lease.agent)
  {
    var after, before := Discharged(agents, inFlight, ids + {id}), Discharged(agents, inFlight, ids);
    forall a | a in agents ensures after[a] == Unreserve(before, inFlight[id].lease.agent)[a] {
      LeasedOneMore(inFlight, ids, id, a);
    }
    assert Unreserve(before, inFlight[id].lease.agent).Keys == agents.Keys == after.Keys;
  }

  /** The record after a reclaim that took the snapshot `rec`: pool and sender stay, the job is the snapshot's. */
  function ReplacedRecord(current: InFlightJob, rec: InFlightJob, suffix: string): InFlightJob {
    var replacement := Replacement(rec, suffix);
    InFlightJob(current.lease.(agent := "", run := replacement.lease.run), replacement.job)
  }

  function Pushed(pending: map<PoolId, seq<Job>>, pool: PoolId, job: Job): map<PoolId, seq<Job>> {
    pending[pool := QueueOf(pending, pool) + [job]]
  }

  /** The job of `id` is unleased under a longer run id, and the snapshot's job is last in its pool's queue. */
  ghost predicate LeaseReplaced(pending: map<PoolId, seq<Job>>, pending': map<PoolId, seq<Job>>,
                                inFlight: map<JobId, InFlightJob>, inFlight': map<JobId, InFlightJob>, id: JobId,
                                rec: InFlightJob, suffix: string)
  {
    && id in inFlight
    && inFlight' == inFlight[id := ReplacedRecord(inFlight[id], rec, suffix)]
    && pending' == Pushed(pending, rec.lease.pool, Replacement(rec, suffix).job)
  }

  /** A replaced lease, field by field: what is queued and recorded is the snapshot's job, under the longer run id. */
  lemma LeaseReplacedMeans(pending: map<PoolId, seq<Job>>, pending': map<PoolId, seq<Job>>,
                           inFlight: map<JobId, InFlightJob>, inFlight': map<JobId, InFlightJob>, id: JobId,
                           rec: InFlightJob, suffix: string)
    requires LeaseReplaced(pending, pending', inFlight, inFlight', id, rec, suffix)
    ensures var job := Job(rec.job.id, rec.lease.run + ":reclaim:" + suffix, rec.job.bridge, rec.job.version);
            && inFlight'.Keys == inFlight.Keys && (forall k :: k in inFlight && k != id ==> inFlight'[k] == inFlight[k])
            && inFlight'[id].job == job
            && inFlight'[id].lease == Record(inFlight[id].lease.pool, "", job.run, inFlight[id].lease.sender)
            && QueueOf(pending', rec.lease.pool) == QueueOf(pending, rec.lease.pool) + [job]
            && (forall p :: p != rec.lease.pool ==> QueueOf(pending', p) == QueueOf(pending, p))
  {
  }

  /** The queues once the jobs of `order` have been reclaimed in that order. */
  function Requeued(pending: map<PoolId, seq<Job>>, inFlight: map<JobId, InFlightJob>, order: seq<JobId>,
                    suffix: JobId -> string): map<PoolId, seq<Job>>
    requires forall id :: id in order ==> id in inFlight
    decreases |order|
  {
    if |order| == 0 then pending
    else
      var n := |order| - 1;
      var replacement := Replacement(inFlight[order[n]], suffix(order[n]));
      Pushed(Requeued(pending, inFlight, order[..n], suffix), replacement.lease.pool, replacement.job)
  }

  lemma RequeuedOneMore(pending: map<PoolId, seq<Job>>, inFlight: map<JobId, InFlightJob>, order: seq<JobId>, id: JobId,
                        suffix: JobId -> string)
    requires id in inFlight && forall i :: i in order ==> i in inFlight
    ensures var replacement := Replacement(inFlight[id], suffix(id));
            Requeued(pending, inFlight, order + [id], suffix) ==
            Pushed(Requeued(pending, inFlight, order, suffix), replacement.lease.pool, replacement.job)
  {
    assert (order + [id])[..|order|] == order;
  }

  ghost predicate NoRepeats(order: seq<JobId>) { forall i, k :: 0 <= i < k < |order| ==> order[i] != order[k] }

  ghost predicate ExtendsAll(before: map<PoolId, seq<Job>>, after: map<PoolId, seq<Job>>) {
    forall p :: QueueOf(before, p) <= QueueOf(after, p)
  }

  /** Reclaimed jobs join the ends of the queues; nothing else moves. */
  lemma {:induction false} RequeuedExtends(pending: map<PoolId, seq<Job>>, inFlight: map<JobId, InFlightJob>,
                                           order: seq<JobId>, suffix: JobId -> string)
    requires forall id :: id in order ==> id in inFlight
    ensures ExtendsAll(pending, Requeued(pending, inFlight, order, suffix))
    decreases |order|
  {
    if order != [] { RequeuedExtends(pending, inFlight, order[..|order|-1], suffix); }
  }

  function Candidates(inFlight: map<JobId, InFlightJob>, agents: map<AgentId, AgentInfo>, reclaimAfter: nat,
                      now: nat): set<JobId> {
    set id | id in inFlight && inFlight[id].lease.agent != "" && StaleForReclaim(agents, inFlight[id].lease.agent, reclaimAfter, now)
  }

  /** Position `pos` holds the earliest job of the queue that the agent can run. */
  ghost predicate EarliestRunnable(q: seq<Job>, pos: nat, agents: map<AgentId, AgentInfo>, agent: AgentId,
                                   pool: PoolId, timeout: nat, now: nat) {
    && pos < |q| && CanRun(agents, agent, pool, q[pos], timeout, now)
    && forall k :: 0 <= k < pos ==> !CanRun(agents, agent, pool, q[k], timeout, now)
  }

  ghost predicate NoneRunnable(q: seq<Job>, agents: map<AgentId, AgentInfo>, agent: AgentId, pool: PoolId,
                               timeout: nat, now: nat) {
    forall j :: j in q ==> !CanRun(agents, agent, pool, j, timeout, now)
  }

  function Reserve(agents: map<AgentId, AgentInfo>, a: AgentId): map<AgentId, AgentInfo> {
    if a in agents then agents[a := agents[a].Plus()] else agents
  }

  lemma ReservationUndone(agents: map<AgentId, AgentInfo>, a: AgentId)
    ensures Unreserve(Reserve(agents, a), a) == agents
  {
  }

  lemma NoneReclaimed(pending: map<PoolId, seq<Job>>, agents: map<AgentId, AgentInfo>, before: map<JobId, InFlightJob>,
                      suffix: JobId -> string) returns (order: seq<JobId>)
    ensures |order| == 0 && Requeued(pending, before, order, suffix) == pending
    ensures Reclaimed(before, {}, suffix) == before && Discharged(agents, before, {}) == agents
  {
    order := [];
    assert forall a :: LeasedIn(before, {}, a) == {};
  }

  /** The wanted elements that are no longer to do. */
  function Processed(all: set<JobId>, todo: set<JobId>, wanted: set<JobId>): set<JobId> { (all - todo) * wanted }

  lemma Progress(all: set<JobId>, todo: set<JobId>, id: JobId, wanted: set<JobId>)
    requires id in todo && todo <= all
    ensures id !in Processed(all, todo, wanted)
    ensures Processed(all, todo - {id}, wanted) ==
            if id in wanted then Processed(all, todo, wanted) + {id} else Processed(all, todo, wanted)
    ensures |Processed(all, todo - {id}, wanted)| == |Processed(all, todo, wanted)| + if id in wanted then 1 else 0
  {
    assert id in wanted ==> (all - (todo - {id})) * wanted == (all - todo) * wanted + {id};
    assert id !in wanted ==> (all - (todo - {id})) * wanted == (all - todo) * wanted;
  }

  /** One more candidate reclaimed: records, queue and registry all move together. */
  lemma ReclaimOneMore(before: map<JobId, InFlightJob>, done: set<JobId>, id: JobId, suffix: JobId -> string)
    requires id in before && id !in done
    ensures Reclaimed(before, done + {id}, suffix) == Reclaimed(before, done, suffix)[id := Replacement(before[id], suffix(id))]
  {
  }

  // ---------------------------------------------------------------- the handlers

  datatype PollReply = NoJob | HasJob(job: Job) | PollUnavailable

  datatype AdminCounts = AdminCounts(outstanding: nat, pending: nat, running: nat)

  class JobQueue {
    var pending: map<PoolId, seq<Job>>
    var inFlight: map<JobId, InFlightJob>
    var agents: map<AgentId, AgentInfo>
    var reclaimedStaleJobs: nat
    var nextSender: nat
    var delivered: seq<Delivery>
    const heartbeatTimeout: nat
    const reclaimGrace: nat

    ghost predicate Valid()
      reads this
    {
      QueueOk(pending, inFlight)
    }

    /** `job` was the earliest one the agent could run, and left its queue; the others kept their order. */
    ghost predicate TakenFrom(before: map<PoolId, seq<Job>>, after: map<PoolId, seq<Job>>, pool: PoolId, job: Job,
                              agents: map<AgentId, AgentInfo>, agent: AgentId, now: nat)
    {
      exists pos: nat :: EarliestRunnable(QueueOf(before, pool), pos, agents, agent, pool, heartbeatTimeout, now)
                         && job == QueueOf(before, pool)[pos]
                         && after == before[pool := WithoutAt(QueueOf(before, pool), pos)]
    }

    /** The poll finds no job, or loses the agent's last slot to another poll. */
    ghost predicate Blocked(pending: map<PoolId, seq<Job>>, pool: PoolId, agents: map<AgentId, AgentInfo>,
                            agent: AgentId,
                            now: nat, lost: bool)
    {
      agent == "" || lost || NoneRunnable(QueueOf(pending, pool), agents, agent, pool, heartbeatTimeout, now)
    }

    /** The earliest job the agent could run went to the front of its queue. */
    ghost predicate MovedToFront(before: map<PoolId, seq<Job>>, after: map<PoolId, seq<Job>>, pool: PoolId,
                                 agents: map<AgentId, AgentInfo>, agent: AgentId, now: nat)
    {
      exists pos: nat :: EarliestRunnable(QueueOf(before, pool), pos, agents, agent, pool, heartbeatTimeout, now)
                         && after == before[pool := [QueueOf(before, pool)[pos]] + WithoutAt(QueueOf(before, pool), pos)]
    }

    constructor (heartbeatTimeout: nat, reclaimGrace: nat)
      ensures Valid() && pending == map[] && inFlight == map[] && agents == map[] && delivered == []
      ensures reclaimedStaleJobs == 0 && nextSender == 0
      ensures this.heartbeatTimeout == heartbeatTimeout && this.reclaimGrace == reclaimGrace
    {
      pending, inFlight, agents, delivered := map[], map[], map[], [];
      reclaimedStaleJobs, nextSender := 0, 0;
      this.heartbeatTimeout, this.reclaimGrace := heartbeatTimeout, reclaimGrace;
    }

    /** The insert overwrites a record under the same id; the invariant needs that record not to be queued. */
    method Enqueue(pool: PoolId, job: Job) returns (sender: nat)
      modifies this`pending, this`inFlight, this`nextSender
      ensures sender == old(nextSender) && nextSender == sender + 1
      ensures inFlight == old(inFlight)[job.id := EnqueueRecord(pool, job, sender)]
      ensures pending == old(pending)[pool := QueueOf(old(pending), pool) + [job]]
      ensures old(Valid()) && job.id !in old(Unleased(inFlight)) ==> Valid()
    {
      ghost var ok := Valid() && job.id !in Unleased(inFlight);
      ghost var rec := EnqueueRecord(pool, job, nextSender);
      if ok { PushKeeps(pending, inFlight, rec); }
      sender := nextSender;
      nextSender := nextSender + 1;
      inFlight := inFlight[job.id := EnqueueRecord(pool, job, sender)];
      pending := pending[pool := QueueOf(pending, pool) + [job]];
    }

    method Abandon(pool: PoolId, id: JobId)
      modifies this`pending, this`inFlight, this`agents
      ensures inFlight == old(inFlight) - {id}
      ensures agents == if id in old(Owned(inFlight)) then Unreserve(old(agents), old(inFlight)[id].lease.agent) else old(agents)
      ensures forall p :: QueueOf(pending, p) == if p == pool then Retain(QueueOf(old(pending), p), id) else QueueOf(old(pending), p)
      ensures old(Valid()) && (id in old(Unleased(inFlight)) ==> old(inFlight)[id].lease.pool == pool) ==> Valid()
    {
      if Valid() && (id in Unleased(inFlight) ==> inFlight[id].lease.pool == pool) {
        RemovalKeeps(pending, inFlight, pool, id);
      }
      if id in inFlight {
        if inFlight[id].lease.agent != "" {
          agents := Unreserve(agents, inFlight[id].lease.agent);
        }
        inFlight := inFlight - {id};
      }
      if pool in pending {
        pending := pending[pool := Retain(pending[pool], id)];
      }
    }

    /** Replaces the lease of the snapshot `rec` if agent and run are still the current ones, and queues its job. */
    method ReplaceLease(id: JobId, rec: InFlightJob, suffix: string) returns (replaced: bool)
      modifies this`pending, this`inFlight, this`agents, this`reclaimedStaleJobs
      ensures replaced <==>
              (&& id in old(inFlight)
               && old(inFlight)[id].lease.agent == rec.lease.agent && old(inFlight)[id].lease.run == rec.lease.run)
      ensures replaced ==> LeaseReplaced(old(pending), pending, old(inFlight), inFlight, id, rec, suffix)
      ensures replaced ==> agents == Unreserve(old(agents), rec.lease.agent) && reclaimedStaleJobs == old(reclaimedStaleJobs) + 1
      ensures !replaced ==> inFlight == old(inFlight) && agents == old(agents) && pending == old(pending)
      ensures !replaced ==> reclaimedStaleJobs == old(reclaimedStaleJobs)
      // the snapshot compares agent and run only; it must also still describe pool and job
      ensures (&& old(Valid()) && rec.lease.agent != ""
               && (replaced ==> old(inFlight)[id].lease.pool == rec.lease.pool && old(inFlight)[id].job == rec.job)) ==>
                Valid()
    {
      replaced := id in inFlight && inFlight[id].lease.agent == rec.lease.agent && inFlight[id].lease.run == rec.lease.run;
      if replaced {
        var replacement := Replacement(rec, suffix);
        if Valid() && rec.lease.agent != "" && inFlight[id].lease.pool == rec.lease.pool && inFlight[id].job == rec.job {
          assert RecordOk(id, inFlight[id], pending);
          PushKeeps(pending, inFlight, ReplacedRecord(inFlight[id], rec, suffix));
        }
        inFlight := inFlight[id := ReplacedRecord(inFlight[id], rec, suffix)];
        pending := Pushed(pending, rec.lease.pool, replacement.job);
        agents := Unreserve(agents, rec.lease.agent);
        reclaimedStaleJobs := reclaimedStaleJobs + 1;
      }
    }

    /**
     Reclaims the jobs of agents that have been silent for the heartbeat timeout and the grace period.  The
     job table agrees for the jobs of `persisted`; `suffix` is the fresh part of the new run ids; `order` is the
     order in which the table of records happened to list the jobs.
     */
    method ReclaimStaleJobs(now: nat, persisted: set<JobId>, suffix: JobId -> string)
      returns (reclaimed: nat, ghost order: seq<JobId>)
      requires Valid()
      modifies this`pending, this`inFlight, this`agents, this`reclaimedStaleJobs
      ensures var hits := Candidates(old(inFlight), old(agents), heartbeatTimeout + reclaimGrace, now) * persisted;
              && reclaimed == |hits| && reclaimedStaleJobs == old(reclaimedStaleJobs) + reclaimed
              && HasReclaimed(old(pending), old(agents), old(inFlight), hits, order, suffix)
      // an agent heard from within timeout and grace keeps its leases and its load
      ensures forall id :: id in old(inFlight) && old(inFlight)[id].lease.agent in old(agents)
                           && now <= old(agents)[old(inFlight)[id].lease.agent].lastHeartbeat + heartbeatTimeout + reclaimGrace ==>
                             id in inFlight && inFlight[id] == old(inFlight)[id]
      ensures forall a :: a in old(agents) && now <= old(agents)[a].lastHeartbeat + heartbeatTimeout + reclaimGrace ==>
                            a in agents && agents[a] == old(agents)[a]
      // a lease of an agent that is unlisted, or silent for longer, is taken back and its job queued under a longer run
      ensures forall id :: id in old(inFlight) && id in persisted && old(inFlight)[id].lease.agent != ""
                           && (old(inFlight)[id].lease.agent in old(agents) ==>
                                 now > old(agents)[old(inFlight)[id].lease.agent].lastHeartbeat + heartbeatTimeout + reclaimGrace) ==>
                             && id in inFlight && inFlight[id].lease.agent == ""
                             && inFlight[id].lease.run == old(inFlight)[id].lease.run + RECLAIM_MARK + suffix(id)
                             && inFlight[id].job == old(inFlight)[id].job.(run := inFlight[id].lease.run)
                             && inFlight[id].job in QueueOf(pending, old(inFlight)[id].lease.pool)
      ensures forall a :: a in old(agents) && a != "" && now > old(agents)[a].lastHeartbeat + heartbeatTimeout + reclaimGrace ==>
                            var n := |set id | id in old(inFlight) && id in persisted && old(inFlight)[id].lease.agent == a|;
                            var reserved := old(agents)[a].load.reserved;
                            a in agents && agents[a].load.reserved == if reserved > n then reserved - n else 0
      // unleased jobs, and those that the table keeps, stay as they are
      ensures forall id :: id in old(inFlight) && (old(inFlight)[id].lease.agent == "" || id !in persisted) ==>
                             id in inFlight && inFlight[id] == old(inFlight)[id]
    {
      reclaimed, order := ReclaimCandidates(now, persisted, suffix);
      ghost var before, hits := old(inFlight), Candidates(old(inFlight), old(agents), heartbeatTimeout + reclaimGrace, now) * persisted;
      ReclaimedMeans(before, old(agents), hits, heartbeatTimeout + reclaimGrace, now, persisted, suffix);
      forall id | id in hits ensures inFlight[id].job in QueueOf(pending, before[id].lease.pool) {
        assert RecordOk(id, inFlight[id], pending);
      }
    }

    /** The candidates, one after the other. */
    method ReclaimCandidates(now: nat, persisted: set<JobId>, suffix: JobId -> string)
      returns (reclaimed: nat, ghost order: seq<JobId>)
      requires Valid()
      modifies this`pending, this`inFlight, this`agents, this`reclaimedStaleJobs
      ensures var hits := Candidates(old(inFlight), old(agents), heartbeatTimeout + reclaimGrace, now) * persisted;
              && reclaimed == |hits| && reclaimedStaleJobs == old(reclaimedStaleJobs) + reclaimed
              && HasReclaimed(old(pending), old(agents), old(inFlight), hits, order, suffix)
    {
      var candidates := Candidates(inFlight, agents, heartbeatTimeout + reclaimGrace, now);
      var before := inFlight;
      var todo := candidates;
      ghost var done: set<JobId> := {};
      reclaimed := 0;
      order := NothingReclaimed(suffix);
      while todo != {}
        invariant todo <= candidates && done == Processed(candidates, todo, persisted)
        invariant reclaimed == |done| && reclaimedStaleJobs == old(reclaimedStaleJobs) + reclaimed
        invariant HasReclaimed(old(pending), old(agents), before, done, order, suffix)
        decreases todo
      {
        var id :| id in todo;
        Progress(candidates, todo, id, persisted);
        todo := todo - {id};
        if id in persisted {
          ReclaimNext(old(pending), old(agents), before, done, order, id, suffix);
          reclaimed := reclaimed + 1;
          order := order + [id];
          done := done + {id};
        }
      }
      assert Processed(candidates, {}, persisted) == candidates * persisted;
    }

    /** The records of `before` have had the jobs of `done` reclaimed, in the order of `order`. */
    ghost predicate HasReclaimed(pending0: map<PoolId, seq<Job>>, agents0: map<AgentId, AgentInfo>,
                                 before: map<JobId, InFlightJob>, done: set<JobId>, order: seq<JobId>,
                                 suffix: JobId -> string)
      reads this
    {
      && Valid() && NoRepeats(order) && (forall id :: id in order <==> id in done) && done <= before.Keys
      && inFlight == Reclaimed(before, done, suffix) && agents == Discharged(agents0, before, done)
      && pending == Requeued(pending0, before, order, suffix)
    }

    lemma NothingReclaimed(suffix: JobId -> string) returns (order: seq<JobId>)
      requires Valid()
      ensures HasReclaimed(pending, agents, inFlight, {}, order, suffix)
    {
      order := NoneReclaimed(pending, agents, inFlight, suffix);
    }

    /** The next job of the pass, which the table has requeued. */
    method ReclaimNext(ghost pending0: map<PoolId, seq<Job>>, ghost agents0: map<AgentId, AgentInfo>,
                       before: map<JobId, InFlightJob>, ghost done: set<JobId>, ghost order: seq<JobId>, id: JobId,
                       suffix: JobId -> string)
      requires HasReclaimed(pending0, agents0, before, done, order, suffix)
      requires id in before && id !in done && before[id].lease.agent != ""
      modifies this`pending, this`inFlight, this`agents, this`reclaimedStaleJobs
      ensures HasReclaimed(pending0, agents0, before, done + {id}, order + [id], suffix)
      ensures reclaimedStaleJobs == old(reclaimedStaleJobs) + 1
    {
      DischargeOneMore(agents0, before, done, id);
      ReclaimOneMore(before, done, id, suffix);
      RequeuedOneMore(pending0, before, order, id, suffix);
      assert inFlight[id] == before[id];
      var replaced := ReplaceLease(id, before[id], suffix(id));
      assert replaced;
    }

    /** The position of the earliest queued job that the agent can run. */
    method FindRunnable(q: seq<Job>, agent: AgentId, pool: PoolId, now: nat) returns (pos: Option<nat>)
      ensures pos.Some? ==> EarliestRunnable(q, pos.value, agents, agent, pool, heartbeatTimeout, now)
      ensures pos.None? ==> NoneRunnable(q, agents, agent, pool, heartbeatTimeout, now)
    {
      var i := 0;
      while i < |q|
        invariant 0 <= i <= |q|
        invariant forall k :: 0 <= k < i ==> !CanRun(agents, agent, pool, q[k], heartbeatTimeout, now)
      {
        if CanRun(agents, agent, pool, q[i], heartbeatTimeout, now) {
          return Some(i);
        }
        i := i + 1;
      }
      return None;
    }

    /**
     A poll, after its reclaim pass.  `lost` says that another poll of the same agent took its last slot
     between the search and the reservation.
     */
    method Poll(pool: PoolId, agent: AgentId, now: nat, lost: bool, answer: LeaseAnswer) returns (reply: PollReply)
      requires Valid()
      modifies this`pending, this`inFlight, this`agents
      ensures Valid()
      // without a job to try, nothing changes; in particular a lost reservation restores the queue exactly
      ensures Blocked(old(pending), pool, old(agents), agent, now, lost) ==>
                reply.NoJob? && pending == old(pending) && inFlight == old(inFlight) && agents == old(agents)
      // a job that is leased is the earliest runnable one, and all others keep their order
      ensures reply.HasJob? <==>
              !Blocked(old(pending), pool, old(agents), agent, now, lost) && (answer.NoStore? || answer.LeaseGranted?)
      ensures reply.HasJob? ==>
                && reply.job.id in old(Unleased(inFlight))
                && TakenFrom(old(pending), pending, pool, reply.job, old(agents), agent, now)
                && inFlight == old(inFlight)[reply.job.id := old(inFlight)[reply.job.id].OwnedBy(agent)]
                && agents == Reserve(old(agents), agent)
      // ... and it goes only to an agent of that pool that was heard from in time, has a free slot and synced its bridge
      ensures reply.HasJob? ==>
                && agent in old(agents)
                && var a := old(agents)[agent];
                var slots := if a.load.maxConcurrent > 0 then a.load.maxConcurrent else 1;
                && (pool == "" || a.pool == pool) && now <= a.lastHeartbeat + heartbeatTimeout
                && a.load.reserved < slots && a.load.reported < slots
                && (|| reply.job.bridge == "" || Bridge(reply.job.bridge, reply.job.version) in a.bridges
                    || (reply.job.version == "" && exists v :: Bridge(reply.job.bridge, v) in a.bridges))
      // such an agent gets nothing only when it synced the bridge of no queued job
      ensures reply.NoJob? && agent in old(agents) && agent != "" && !lost && (answer.NoStore? || answer.LeaseGranted?) ==>
                var a := old(agents)[agent];
                var slots := if a.load.maxConcurrent > 0 then a.load.maxConcurrent else 1;
                && (pool == "" || a.pool == pool) && now <= a.lastHeartbeat + heartbeatTimeout
                && a.load.reserved < slots && a.load.reported < slots ==>
                  forall j :: j in QueueOf(old(pending), pool) ==>
                                && j.bridge != "" && Bridge(j.bridge, j.version) !in a.bridges
                                && (j.version == "" ==> forall v :: Bridge(j.bridge, v) !in a.bridges)
      // a failed lease moves the job to the front: no job is lost or duplicated, no lease and no load changes
      ensures !Blocked(old(pending), pool, old(agents), agent, now, lost) && (answer.LeaseRefused? || answer.LeaseError?) ==>
                && reply == (if answer.LeaseRefused? then NoJob else PollUnavailable)
                && MovedToFront(old(pending), pending, pool, old(agents), agent, now)
                && inFlight == old(inFlight) && agents == old(agents)
    {
      if agent == "" || pool !in pending {
        return NoJob;
      }
      var q := pending[pool];
      var found := FindRunnable(q, agent, pool, now);
      if found.None? {
        return NoJob;
      }
      var pos := found.value;
      assert CanRun(agents, agent, pool, q[pos], heartbeatTimeout, now) && q[pos] in q;
      CanRunMeans(agents, agent, pool, q[pos], heartbeatTimeout, now);
      if lost {
        pending := pending[pool := WithoutAt(q, pos)];
        var rest := pending[pool];
        pending := pending[pool := rest[..pos] + [q[pos]] + rest[pos..]];
        assert pending[pool] == q;
        assert pending == old(pending);
        return NoJob;
      }
      reply := LeaseAt(pool, pos, agent, answer);
    }

    /** The job at `pos` leaves the queue for the agent; when the table does not agree it comes back to the front. */
    method LeaseAt(pool: PoolId, pos: nat, agent: AgentId, answer: LeaseAnswer) returns (reply: PollReply)
      requires Valid() && pool in pending && pos < |pending[pool]| && agent != ""
      modifies this`pending, this`inFlight, this`agents
      ensures Valid()
      ensures reply.HasJob? <==> answer.NoStore? || answer.LeaseGranted?
      ensures reply.HasJob? ==>
                && reply.job == old(pending)[pool][pos] && reply.job.id in old(Unleased(inFlight))
                && pending == old(pending)[pool := WithoutAt(old(pending)[pool], pos)]
                && inFlight == old(inFlight)[reply.job.id := old(inFlight)[reply.job.id].OwnedBy(agent)]
                && agents == Reserve(old(agents), agent)
      ensures !reply.HasJob? ==>
                && reply == (if answer.LeaseRefused? then NoJob else PollUnavailable)
                && pending == old(pending)[pool := [old(pending)[pool][pos]] + WithoutAt(old(pending)[pool], pos)]
                && inFlight == old(inFlight) && agents == old(agents)
    {
      var q := pending[pool];
      var job := q[pos];
      pending := pending[pool := WithoutAt(q, pos)];
      agents := Reserve(agents, agent);
      ReservationUndone(old(agents), agent);
      if answer.LeaseRefused? || answer.LeaseError? {
        agents := Unreserve(agents, agent);
        pending := pending[pool := [job] + pending[pool]];
        RefrontKeeps(old(pending), inFlight, pool, pos);
        assert pending == old(pending)[pool := [job] + WithoutAt(q, pos)];
        return if answer.LeaseRefused? then NoJob else PollUnavailable;
      }
      TakeKeeps(old(pending), inFlight, pool, pos, agent);
      assert Backed(pool, q, old(inFlight)) && job in q;
      inFlight := inFlight[job.id := inFlight[job.id].OwnedBy(agent)];
      return HasJob(job);
    }

    /** A completion; `commit` is what the job table answers. */
    method Complete(r: Request, commit: CommitAnswer) returns (code: Code)
      requires Valid()
      modifies this`inFlight, this`agents, this`delivered
      ensures Valid()
      // accepted exactly when the lease is the current one and the table agrees; then it is delivered once
      ensures code.Accepted? <==> Current(old(inFlight), r) && (commit.NoTable? || commit == Decided(Replay))
      ensures code.Accepted? ==>
                && inFlight == old(inFlight) - {r.id} && agents == Unreserve(old(agents), r.agent)
                && delivered == old(delivered) + [Delivery(old(inFlight)[r.id].lease.sender, r)]
      ensures !code.Accepted? ==> inFlight == old(inFlight) && agents == old(agents) && delivered == old(delivered)
      ensures code.RunMismatch? <==> r.id in old(inFlight) && old(inFlight)[r.id].lease.run != r.run
      ensures code.AgentMismatch? <==>
              (&& r.id in old(inFlight) && old(inFlight)[r.id].lease.run == r.run
               && (old(inFlight)[r.id].lease.agent == "" || old(inFlight)[r.id].lease.agent != r.agent))
      ensures code.DuplicateAccepted? <==> r.id !in old(inFlight) && commit == Decided(Replay)
      ensures code.UnknownJob? <==>
              (if r.id in old(inFlight) then Current(old(inFlight), r) && commit == Decided(Missing)
               else !commit.CommitError? && commit != Decided(Replay))
      ensures code.CompletionConflict? <==> Current(old(inFlight), r) && commit == Decided(Conflict)
      ensures code.Unavailable? <==> (r.id in old(inFlight) ==> Current(old(inFlight), r)) && commit.CommitError?
    {
      if r.id !in inFlight {
        return if commit.CommitError? then Unavailable
               else if commit == Decided(Replay) then DuplicateAccepted
               else UnknownJob;
      }
      var rec := inFlight[r.id];
      if rec.lease.run != r.run || rec.lease.agent == "" || rec.lease.agent != r.agent {
        return if rec.lease.run != r.run then RunMismatch else AgentMismatch;
      }
      if commit.CommitError? {
        return Unavailable;
      }
      if commit.Decided? && commit.decision.Conflict? {
        return CompletionConflict;
      }
      if commit.Decided? && commit.decision.Missing? {
        return UnknownJob;
      }
      CompletionKeeps(pending, inFlight, r.id);
      inFlight := inFlight - {r.id};
      agents := Unreserve(agents, rec.lease.agent);
      delivered := delivered + [Delivery(rec.lease.sender, r)];
      return Accepted;
    }

    /** The admin view's job counts. */
    method AgentCounts() returns (c: AdminCounts)
      ensures c.outstanding == |inFlight| && c.pending == |Entries(pending, pending.Keys)|
      // the subtraction never saturates, and what it yields is the number of leased jobs
      ensures Valid() ==> c.outstanding == c.pending + c.running && c.running == |Owned(inFlight)|
    {
      var todo := pending.Keys;
      var n := 0;
      while todo != {}
        invariant todo <= pending.Keys
        invariant n == |Entries(pending, pending.Keys - todo)|
        decreases todo
      {
        var p :| p in todo;
        EntriesAdd(pending, pending.Keys - todo, p);
        assert pending.Keys - (todo - {p}) == (pending.Keys - todo) + {p};
        n := n + |pending[p]|;
        todo := todo - {p};
      }
      assert pending.Keys - todo == pending.Keys;
      if Valid() {
        OutstandingSplits(pending, inFlight);
      }
      c := AdminCounts(|inFlight|, n, if |inFlight| > n then |inFlight| - n else 0);
    }
  }
}
