/**
 The queue object refines the lease protocol: each of its handlers, run alone, is the handler's sequence of
 protocol events, and its reply is the protocol's.

 Abstracts relates an object to the protocol states it stands for.  The protocol keeps one queue of pool-tagged
 copies; the object keeps one queue per pool, so a state matches when its copies, pool by pool, are the object's.
 */
module QueueRefinement {
  import opened LeaseProtocol
  import opened LeaseHandlers
  import opened AgentQueue

  // ---------------------------------------------------------------- the abstraction

  function OfPool(q: seq<Copy>, p: PoolId): seq<Copy> {
    if q == [] then [] else (if q[0].pool == p then [q[0]] else []) + OfPool(q[1..], p)
  }

  function CopyOf(p: PoolId, j: Job): Copy { Copy(p, j.id, j.run) }

  function CopiesOf(p: PoolId, js: seq<Job>): seq<Copy> {
    if js == [] then [] else [CopyOf(p, js[0])] + CopiesOf(p, js[1..])
  }

  function Leases(inFlight: map<JobId, InFlightJob>): map<JobId, Record> {
    map id | id in inFlight :: inFlight[id].lease
  }

  function Loads(agents: map<AgentId, AgentInfo>): map<AgentId, Agent> { map a | a in agents :: agents[a].load }

  ghost predicate QueueMatches(q: seq<Copy>, pending: map<PoolId, seq<Job>>) {
    forall p :: OfPool(q, p) == CopiesOf(p, QueueOf(pending, p))
  }

  /** The fields of the object stand for those of the state. */
  ghost predicate Stands(pending: map<PoolId, seq<Job>>, inFlight: map<JobId, InFlightJob>,
                         agents: map<AgentId, AgentInfo>, s: State) {
    s.inFlight == Leases(inFlight) && QueueMatches(s.queue, pending) && s.agents == Loads(agents)
  }

  ghost predicate Abstracts(q: JobQueue, s: State)
    reads q
  {
    Stands(q.pending, q.inFlight, q.agents, s) && s.nextSender == q.nextSender && s.fired == q.delivered
  }

  // ---------------------------------------------------------------- projections of the queue

  lemma {:induction false} OfPoolConcat(a: seq<Copy>, b: seq<Copy>, p: PoolId)
    ensures OfPool(a + b, p) == OfPool(a, p) + OfPool(b, p)
    decreases |a|
  {
    if a == [] {
      assert a + b == b;
    } else {
      var c := a + b;
      OfPoolConcat(a[1..], b, p);
      assert c[0] == a[0] && c[1..] == a[1..] + b;
      assert OfPool(c, p) == (if a[0].pool == p then [a[0]] else []) + (OfPool(a[1..], p) + OfPool(b, p));
    }
  }

  lemma OfPoolOne(c: Copy, p: PoolId)
    ensures OfPool([c], p) == if c.pool == p then [c] else []
  {
    assert [c][1..] == [];
  }

  lemma {:induction false} CopiesConcat(p: PoolId, a: seq<Job>, b: seq<Job>)
    ensures CopiesOf(p, a + b) == CopiesOf(p, a) + CopiesOf(p, b)
    decreases |a|
  {
    if a == [] {
      assert a + b == b;
    } else {
      var c := a + b;
      CopiesConcat(p, a[1..], b);
      assert c[0] == a[0] && c[1..] == a[1..] + b;
      assert CopiesOf(p, c) == [CopyOf(p, a[0])] + (CopiesOf(p, a[1..]) + CopiesOf(p, b));
    }
  }

  lemma CopiesOne(p: PoolId, j: Job)
    ensures CopiesOf(p, [j]) == [CopyOf(p, j)]
  {
    assert [j][1..] == [];
  }

  lemma {:induction false} CopiesAt(p: PoolId, js: seq<Job>, i: nat)
    requires i < |js|
    ensures |CopiesOf(p, js)| == |js| && CopiesOf(p, js)[i] == CopyOf(p, js[i])
    ensures CopiesOf(p, js)[..i] == CopiesOf(p, js[..i]) && CopiesOf(p, js)[i+1..] == CopiesOf(p, js[i+1..])
  {
    var a, b := js[..i], js[i+1..];
    assert js == a + ([js[i]] + b);
    CopiesConcat(p, a, [js[i]] + b);
    CopiesConcat(p, [js[i]], b);
    CopiesOne(p, js[i]);
    CopiesLength(p, a);
    CopiesLength(p, b);
  }

  lemma {:induction false} CopiesLength(p: PoolId, js: seq<Job>)
    ensures |CopiesOf(p, js)| == |js|
  {
    if js != [] { CopiesLength(p, js[1..]); }
  }

  /** The i-th copy of a pool, in the one queue. */
  lemma {:induction false} Locate(q: seq<Copy>, p: PoolId, i: nat) returns (pos: nat)
    requires i < |OfPool(q, p)|
    ensures pos < |q| && q[pos] == OfPool(q, p)[i] && q[pos].pool == p && OfPool(q[..pos], p) == OfPool(q, p)[..i]
    decreases |q|
  {
    if q[0].pool == p && i == 0 {
      assert q[..0] == [];
      return 0;
    }
    var k := Locate(q[1..], p, if q[0].pool == p then i - 1 else i);
    pos := k + 1;
    assert q[..pos] == [q[0]] + q[1..][..k];
    OfPoolConcat([q[0]], q[1..][..k], p);
    OfPoolOne(q[0], p);
    OfPoolConcat([q[0]], q[1..], p);
  }

  lemma TailAfter<T>(a: seq<T>, x: T, b: seq<T>)
    ensures (a + ([x] + b))[|a| + 1..] == b
  {
  }

  /** Taking that copy out touches its own pool only. */
  lemma Extracted(q: seq<Copy>, p: PoolId, i: nat, pos: nat, r: PoolId)
    requires i < |OfPool(q, p)| && pos < |q| && q[pos] == OfPool(q, p)[i] && q[pos].pool == p
    requires OfPool(q[..pos], p) == OfPool(q, p)[..i]
    ensures OfPool(q[..pos] + q[pos+1..], r) == if r == p then OfPool(q, p)[..i] + OfPool(q, p)[i+1..] else OfPool(q, r)
  {
    var a, c, b := q[..pos], q[pos], q[pos+1..];
    assert q == a + ([c] + b);
    OfPoolConcat(a, [c] + b, r);
    OfPoolConcat([c], b, r);
    OfPoolOne(c, r);
    OfPoolConcat(a, b, r);
    if r == p {
      TailAfter(OfPool(a, p), c, OfPool(b, p));
      assert |OfPool(a, p)| == i;
    }
  }

  // ---------------------------------------------------------------- matching states

  lemma TakenMatches(q: seq<Copy>, pending: map<PoolId, seq<Job>>, pool: PoolId, i: nat) returns (pos: nat)
    requires QueueMatches(q, pending) && pool in pending && i < |pending[pool]|
    ensures pos < |q| && q[pos] == CopyOf(pool, pending[pool][i])
    ensures QueueMatches(q[..pos] + q[pos+1..], pending[pool := WithoutAt(pending[pool], i)])
  {
    var js := pending[pool];
    CopiesAt(pool, js, i);
    pos := Locate(q, pool, i);
    var q', pending' := q[..pos] + q[pos+1..], pending[pool := WithoutAt(js, i)];
    forall r ensures OfPool(q', r) == CopiesOf(r, QueueOf(pending', r)) {
      Extracted(q, pool, i, pos, r);
      CopiesConcat(pool, js[..i], js[i+1..]);
      assert OfPool(q, r) == CopiesOf(r, QueueOf(pending, r));
    }
  }

  lemma PushedMatches(q: seq<Copy>, pending: map<PoolId, seq<Job>>, pool: PoolId, j: Job)
    requires QueueMatches(q, pending)
    ensures QueueMatches(q + [CopyOf(pool, j)], pending[pool := QueueOf(pending, pool) + [j]])
  {
    var pending' := pending[pool := QueueOf(pending, pool) + [j]];
    forall r ensures OfPool(q + [CopyOf(pool, j)], r) == CopiesOf(r, QueueOf(pending', r)) {
      OfPoolConcat(q, [CopyOf(pool, j)], r);
      OfPoolOne(CopyOf(pool, j), r);
      CopiesConcat(pool, QueueOf(pending, pool), [j]);
      CopiesOne(pool, j);
      assert OfPool(q, r) == CopiesOf(r, QueueOf(pending, r));
    }
  }

  lemma FrontedMatches(q: seq<Copy>, pending: map<PoolId, seq<Job>>, pool: PoolId, j: Job)
    requires QueueMatches(q, pending)
    ensures QueueMatches([CopyOf(pool, j)] + q, pending[pool := [j] + QueueOf(pending, pool)])
  {
    var pending' := pending[pool := [j] + QueueOf(pending, pool)];
    forall r ensures OfPool([CopyOf(pool, j)] + q, r) == CopiesOf(r, QueueOf(pending', r)) {
      OfPoolConcat([CopyOf(pool, j)], q, r);
      OfPoolOne(CopyOf(pool, j), r);
      CopiesConcat(pool, [j], QueueOf(pending, pool));
      CopiesOne(pool, j);
      assert OfPool(q, r) == CopiesOf(r, QueueOf(pending, r));
    }
  }

  lemma {:induction false} WithoutOfPool(q: seq<Copy>, pool: PoolId, id: JobId, r: PoolId)
    ensures OfPool(Without(q, pool, id), r) == if r == pool then Without(OfPool(q, pool), pool, id) else OfPool(q, r)
    decreases |q|
  {
    if q != [] {
      WithoutOfPool(q[1..], pool, id, r);
      var rest := Without(q[1..], pool, id);
      if !(q[0].pool == pool && q[0].id == id) {
        OfPoolConcat([q[0]], rest, r);
        OfPoolOne(q[0], r);
      }
      if q[0].pool == pool {
        assert OfPool(q, pool)[0] == q[0] && OfPool(q, pool)[1..] == OfPool(q[1..], pool);
      } else {
        assert OfPool(q, pool) == OfPool(q[1..], pool);
      }
      assert OfPool(q, r) == (if q[0].pool == r then [q[0]] else []) + OfPool(q[1..], r);
    }
  }

  lemma {:induction false} WithoutCopies(pool: PoolId, js: seq<Job>, id: JobId)
    ensures Without(CopiesOf(pool, js), pool, id) == CopiesOf(pool, Retain(js, id))
    decreases |js|
  {
    if js != [] {
      WithoutCopies(pool, js[1..], id);
      assert CopiesOf(pool, js)[1..] == CopiesOf(pool, js[1..]);
      if js[0].id != id {
        CopiesConcat(pool, [js[0]], Retain(js[1..], id));
        CopiesOne(pool, js[0]);
      } else {
        assert [] + Retain(js[1..], id) == Retain(js[1..], id);
      }
    }
  }

  lemma PurgedMatches(q: seq<Copy>, pending: map<PoolId, seq<Job>>, pending': map<PoolId, seq<Job>>, pool: PoolId,
                      id: JobId)
    requires QueueMatches(q, pending)
    requires forall p :: QueueOf(pending', p) == if p == pool then Retain(QueueOf(pending, p), id) else QueueOf(pending, p)
    ensures QueueMatches(Without(q, pool, id), pending')
  {
    forall r ensures OfPool(Without(q, pool, id), r) == CopiesOf(r, QueueOf(pending', r)) {
      WithoutOfPool(q, pool, id, r);
      WithoutCopies(pool, QueueOf(pending, pool), id);
      assert OfPool(q, r) == CopiesOf(r, QueueOf(pending, r));
    }
  }

  lemma LoadsFollow(agents: map<AgentId, AgentInfo>, a: AgentId)
    ensures Loads(Unreserve(agents, a)) == Decrement(Loads(agents), a)
    ensures a in agents ==> Loads(Reserve(agents, a)) == Increment(Loads(agents), a)
  {
  }

  // ---------------------------------------------------------------- the handlers

  lemma EnqueuedStands(pending: map<PoolId, seq<Job>>, inFlight: map<JobId, InFlightJob>,
                       agents: map<AgentId, AgentInfo>, s: State, t: Tid, pool: PoolId, job: Job)
    requires Stands(pending, inFlight, agents, s)
    ensures Stands(pending[pool := QueueOf(pending, pool) + [job]],
                   inFlight[job.id := EnqueueRecord(pool, job, s.nextSender)], agents, Enqueued(s, t, CopyOf(pool, job)))
  {
    PushedMatches(s.queue, pending, pool, job);
    assert Leases(inFlight[job.id := EnqueueRecord(pool, job, s.nextSender)]) == Enqueued(s, t, CopyOf(pool, job)).inFlight;
  }

  method EnqueueRefines(q: JobQueue, pool: PoolId, job: Job, ghost s: State, ghost t: Tid)
    returns (sender: nat, ghost s': State)
    requires Abstracts(q, s) && s.At(t).Idle?
    modifies q
    ensures Abstracts(q, s') && sender == s.nextSender
    ensures Does(s, [EnqueueInsert(t, CopyOf(pool, job)), PushBack(t)], s')
  {
    EnqueuedStands(q.pending, q.inFlight, q.agents, s, t, pool, job);
    EnqueueAlone(s, t, CopyOf(pool, job));
    s' := Enqueued(s, t, CopyOf(pool, job));
    sender := q.Enqueue(pool, job);
  }

  method AbandonRefines(q: JobQueue, pool: PoolId, id: JobId, ghost s: State, ghost t: Tid) returns (ghost s': State)
    requires Abstracts(q, s) && s.At(t).Idle?
    modifies q
    ensures Abstracts(q, s') && Does(s, AbandonEvents(s, t, pool, id), s')
  {
    ghost var pending, agents, inFlight := q.pending, q.agents, q.inFlight;
    AbandonAlone(s, t, pool, id);
    s' := Abandoned(s, t, pool, id);
    q.Abandon(pool, id);
    PurgedMatches(s.queue, pending, q.pending, pool, id);
    assert Leases(q.inFlight) == s.inFlight - {id};
    if id in inFlight {
      LoadsFollow(agents, inFlight[id].lease.agent);
    }
  }

  // ---------------------------------------------------------------- reclaim

  /** What a reclaim handler holds once its candidate is persisted. */
  function PersistedPc(id: JobId, rec: InFlightJob, suffix: string): Pc {
    ReclaimPersisted(rec.lease.agent, Copy(rec.lease.pool, id, rec.lease.run), rec.lease.run + RECLAIM_MARK + suffix)
  }

  function ReplaceEvents(t: Tid, replaced: bool): seq<Event> {
    if replaced then [ReclaimReplace(t)] + ([PushBack(t)] + ([Release(t)] + [])) else [ReclaimReplace(t)] + []
  }

  /** The state after the reclaim's last operations. */
  function ReplaceResult(s: State, t: Tid, id: JobId, rec: InFlightJob, suffix: string, replaced: bool): State
    requires replaced ==> id in s.inFlight
  {
    if !replaced then s.Go(t, Idle)
    else
      var newRun := rec.lease.run + RECLAIM_MARK + suffix;
      s.(inFlight := s.inFlight[id := s.inFlight[id].(agent := "", run := newRun)],
         queue := s.queue + [Copy(rec.lease.pool, id, newRun)], agents := Decrement(s.agents, rec.lease.agent),
         threads := s.threads[t := Idle], reclaimed := s.reclaimed + {(id, rec.lease.run)})
  }

  lemma ReplaceDoes(s: State, t: Tid, id: JobId, rec: InFlightJob, suffix: string, replaced: bool)
    requires s.At(t) == PersistedPc(id, rec, suffix)
    requires replaced <==> (&& id in s.inFlight && s.inFlight[id].agent == rec.lease.agent
                            && s.inFlight[id].run == rec.lease.run)
    ensures Does(s, ReplaceEvents(t, replaced), ReplaceResult(s, t, id, rec, suffix, replaced))
  {
    var agent, c := rec.lease.agent, Copy(rec.lease.pool, id, rec.lease.run);
    var newRun := c.run + RECLAIM_MARK + suffix;
    if replaced {
      var s1 := s.(inFlight := s.inFlight[id := s.inFlight[id].(agent := "", run := newRun)],
                   reclaimed := s.reclaimed + {(id, c.run)}).Go(t, ReclaimReplaced(agent, c.(run := newRun)));
      var s2 := s1.(queue := s.queue + [c.(run := newRun)]).Go(t, ReclaimPushed(agent));
      var s3 := s2.(agents := Decrement(s.agents, agent)).Go(t, Idle);
      ReplacedAndQueued(s, t, c, agent, newRun, s1, s2, s3);
      assert s3.threads == s.threads[t := Idle];
    } else {
      Nothing(s.Go(t, Idle));
      Then(s, ReclaimReplace(t), s.Go(t, Idle), [], s.Go(t, Idle));
    }
  }

  lemma ReplacedStands(pending: map<PoolId, seq<Job>>, inFlight: map<JobId, InFlightJob>,
                       agents: map<AgentId, AgentInfo>, s: State, t: Tid, id: JobId, rec: InFlightJob, suffix: string)
    requires Stands(pending, inFlight, agents, s) && id in inFlight && inFlight[id].lease.run == rec.lease.run
    requires rec.job.id == id && rec.job.run == rec.lease.run
    ensures var s', job := ReplaceResult(s, t, id, rec, suffix, true), Replacement(rec, suffix).job;
            && Stands(Pushed(pending, rec.lease.pool, job), inFlight[id := ReplacedRecord(inFlight[id], rec, suffix)],
                      Unreserve(agents, rec.lease.agent), s')
            && s'.nextSender == s.nextSender && s'.fired == s.fired
  {
    PushedMatches(s.queue, pending, rec.lease.pool, Replacement(rec, suffix).job);
    LoadsFollow(agents, rec.lease.agent);
    assert Leases(inFlight[id := ReplacedRecord(inFlight[id], rec, suffix)]) ==
           ReplaceResult(s, t, id, rec, suffix, true).inFlight;
  }

  /** The last part of a reclaim, with its snapshot still right or overtaken by another handler. */
  method ReplaceLeaseRefines(q: JobQueue, id: JobId, rec: InFlightJob, suffix: string, ghost s: State, ghost t: Tid)
    returns (replaced: bool, ghost s': State)
    requires Abstracts(q, s) && s.At(t) == PersistedPc(id, rec, suffix) && rec.job.id == id
    requires rec.job.run == rec.lease.run
    modifies q
    ensures Abstracts(q, s') && Does(s, ReplaceEvents(t, replaced), s')
    ensures replaced <==> (&& id in s.inFlight && s.inFlight[id].agent == rec.lease.agent
                           && s.inFlight[id].run == rec.lease.run)
  {
    ghost var pending, inFlight, agents := q.pending, q.inFlight, q.agents;
    replaced := q.ReplaceLease(id, rec, suffix);
    if replaced { ReplacedStands(pending, inFlight, agents, s, t, id, rec, suffix); }
    ReplaceDoes(s, t, id, rec, suffix, replaced);
    s' := ReplaceResult(s, t, id, rec, suffix, replaced);
  }

  ghost function ElementsOf(order: seq<JobId>): set<JobId> { set id | id in order }

  function ReclaimEvents(t: Tid, id: JobId, suffix: string): seq<Event> {
    [ReclaimSnapshot(t, id), ReclaimStore(t, suffix, Answered), ReclaimReplace(t), PushBack(t), Release(t)]
  }

  /** The pass, job by job in the order it takes them. */
  function PassEvents(t: Tid, order: seq<JobId>, suffix: JobId -> string): seq<Event>
    decreases |order|
  {
    if |order| == 0 then []
    else PassEvents(t, order[..|order|-1], suffix) + ReclaimEvents(t, order[|order|-1], suffix(order[|order|-1]))
  }

  /** `s'` is `s` after the jobs of `ids` have been reclaimed, as far as the other jobs can tell. */
  ghost predicate OthersStay(s: State, s': State, t: Tid, ids: set<JobId>) {
    && s'.persistent == s.persistent && s'.nextSender == s.nextSender && s'.fired == s.fired && s'.At(t).Idle?
    && (forall id :: id !in ids && id in s.inFlight ==> id in s'.inFlight && s'.inFlight[id] == s.inFlight[id])
    && (forall id :: id !in ids && id in s.rows ==> id in s'.rows && s'.rows[id] == s.rows[id])
  }

  ghost predicate RecordsTrue(inFlight: map<JobId, InFlightJob>) {
    forall id :: id in inFlight ==> inFlight[id].job.id == id && inFlight[id].job.run == inFlight[id].lease.run
  }

  /** One job of the pass. */
  lemma NextReclaimed(pending: map<PoolId, seq<Job>>, inFlight: map<JobId, InFlightJob>,
                      agents: map<AgentId, AgentInfo>, id: JobId, suffix: string, s: State, t: Tid)
    requires Stands(pending, inFlight, agents, s) && s.At(t).Idle? && Reclaimable(s, id)
    requires inFlight[id].job.id == id && inFlight[id].job.run == inFlight[id].lease.run
    ensures var s', rec := LeaseHandlers.Reclaimed(s, t, id, suffix), Replacement(inFlight[id], suffix);
            && Stands(Pushed(pending, rec.lease.pool, rec.job), inFlight[id := rec],
                      Unreserve(agents, inFlight[id].lease.agent), s')
            && OthersStay(s, s', t, {id})
  {
    var rec := inFlight[id];
    PushedMatches(s.queue, pending, rec.lease.pool, Replacement(rec, suffix).job);
    LoadsFollow(agents, rec.lease.agent);
    assert Leases(inFlight[id := Replacement(rec, suffix)]) == LeaseHandlers.Reclaimed(s, t, id, suffix).inFlight;
  }

  lemma {:induction false} PassDoes(pending: map<PoolId, seq<Job>>, inFlight: map<JobId, InFlightJob>,
                                    agents: map<AgentId, AgentInfo>, order: seq<JobId>, suffix: JobId -> string,
                                    s: State, t: Tid) returns (s': State)
    requires Stands(pending, inFlight, agents, s) && s.At(t).Idle? && NoRepeats(order) && RecordsTrue(inFlight)
    requires forall id :: id in order ==> id in inFlight && Reclaimable(s, id)
    ensures Does(s, PassEvents(t, order, suffix), s') && OthersStay(s, s', t, ElementsOf(order))
    ensures Stands(Requeued(pending, inFlight, order, suffix), AgentQueue.Reclaimed(inFlight, ElementsOf(order), suffix),
                   Discharged(agents, inFlight, ElementsOf(order)), s')
    decreases |order|
  {
    if |order| == 0 {
      Nothing(s);
      s' := s;
      var none := NoneReclaimed(pending, agents, inFlight, suffix);
      assert ElementsOf(order) == {};
    } else {
      var rest, id := order[..|order|-1], order[|order|-1];
      var done := ElementsOf(rest);
      assert id in order && id !in done && ElementsOf(order) == done + {id};
      var s1 := PassDoes(pending, inFlight, agents, rest, suffix, s, t);
      assert Reclaimable(s, id) && Reclaimable(s1, id);
      var held := AgentQueue.Reclaimed(inFlight, done, suffix);
      assert held[id] == inFlight[id];
      NextReclaimed(Requeued(pending, inFlight, rest, suffix), held, Discharged(agents, inFlight, done), id, suffix(id),
                    s1, t);
      ReclaimAlone(s1, t, id, suffix(id));
      s' := LeaseHandlers.Reclaimed(s1, t, id, suffix(id));
      ReclaimOneMore(inFlight, done, id, suffix);
      DischargeOneMore(agents, inFlight, done, id);
      DoesMore(s, PassEvents(t, rest, suffix), s1, ReclaimEvents(t, id, suffix(id)), s');
    }
  }

  /** A whole reclaim pass, when the table requeues exactly the jobs of `persisted`. */
  method ReclaimStaleJobsRefines(q: JobQueue, now: nat, persisted: set<JobId>, suffix: JobId -> string, ghost s: State,
                                 ghost t: Tid)
    returns (reclaimed: nat, ghost order: seq<JobId>, ghost s': State)
    requires q.Valid() && Abstracts(q, s) && s.At(t).Idle?
    requires forall id :: id in Candidates(q.inFlight, q.agents, q.heartbeatTimeout + q.reclaimGrace, now) * persisted ==>
                            Reclaimable(s, id)
    modifies q
    ensures q.Valid() && Abstracts(q, s') && Does(s, PassEvents(t, order, suffix), s')
    ensures ElementsOf(order) ==
            Candidates(old(q.inFlight), old(q.agents), q.heartbeatTimeout + q.reclaimGrace, now) * persisted
    ensures reclaimed == |ElementsOf(order)| && NoRepeats(order)
  {
    ghost var pending, inFlight, agents := q.pending, q.inFlight, q.agents;
    forall id | id in inFlight ensures inFlight[id].job.id == id && inFlight[id].job.run == inFlight[id].lease.run {
      assert RecordOk(id, inFlight[id], pending);
    }
    reclaimed, order := q.ReclaimStaleJobs(now, persisted, suffix);
    assert ElementsOf(order) == Candidates(inFlight, agents, q.heartbeatTimeout + q.reclaimGrace, now) * persisted;
    s' := PassDoes(pending, inFlight, agents, order, suffix, s, t);
  }

  // ---------------------------------------------------------------- poll

  /** What the caller was told about a lease is what the table says about it. */
  ghost predicate LeaseFits(s: State, c: Copy, answer: LeaseAnswer, fault: StoreAnswer) {
    match answer
    case NoStore => !s.persistent
    case LeaseGranted => s.persistent && CanLease(s.rows, c.id, c.run)
    case LeaseRefused => s.persistent && !CanLease(s.rows, c.id, c.run)
    case LeaseError => s.persistent && !fault.Answered?
  }

  lemma HandOut(pending: map<PoolId, seq<Job>>, inFlight: map<JobId, InFlightJob>, agents: map<AgentId, AgentInfo>,
                s: State, t: Tid, pool: PoolId, i: nat, agent: AgentId)
    returns (pos: nat, s': State)
    requires Stands(pending, inFlight, agents, s) && s.At(t).Idle?
    requires pool in pending && i < |pending[pool]| && pending[pool][i].id in inFlight
    requires HasSlot(s, agent) && Leasable(s, CopyOf(pool, pending[pool][i]))
    ensures pos < |s.queue| && s.queue[pos] == CopyOf(pool, pending[pool][i])
    ensures Does(s, [PollTake(t, agent, pos), PollStore(t, Answered), PollOwn(t)], s')
    ensures s'.nextSender == s.nextSender && s'.fired == s.fired
    ensures var id := pending[pool][i].id;
            Stands(pending[pool := WithoutAt(pending[pool], i)], inFlight[id := inFlight[id].OwnedBy(agent)],
                   Reserve(agents, agent), s')
  {
    var id := pending[pool][i].id;
    pos := TakenMatches(s.queue, pending, pool, i);
    PollAlone(s, t, agent, pos);
    s' := Polled(s, t, agent, pos);
    LoadsFollow(agents, agent);
    assert Leases(inFlight[id := inFlight[id].OwnedBy(agent)]) == s'.inFlight;
  }

  lemma PutBack(pending: map<PoolId, seq<Job>>, inFlight: map<JobId, InFlightJob>, agents: map<AgentId, AgentInfo>,
                s: State, t: Tid, pool: PoolId, i: nat, agent: AgentId, answer: StoreAnswer)
    returns (pos: nat, s': State)
    requires Stands(pending, inFlight, agents, s) && s.At(t).Idle? && s.persistent
    requires pool in pending && i < |pending[pool]|
    requires HasSlot(s, agent) && (answer.Answered? ==> !Leasable(s, CopyOf(pool, pending[pool][i])))
    ensures pos < |s.queue| && s.queue[pos] == CopyOf(pool, pending[pool][i])
    ensures Does(s, [PollTake(t, agent, pos), PollStore(t, answer), Release(t), PollPutBack(t)], s')
    ensures s'.nextSender == s.nextSender && s'.fired == s.fired
    ensures Stands(pending[pool := [pending[pool][i]] + WithoutAt(pending[pool], i)], inFlight, agents, s')
  {
    pos := TakenMatches(s.queue, pending, pool, i);
    FailedPollAlone(s, t, agent, pos, answer);
    s' := PollFailed(s, t, agent, pos, answer);
    var taken := pending[pool := WithoutAt(pending[pool], i)];
    FrontedMatches(s.queue[..pos] + s.queue[pos+1..], taken, pool, pending[pool][i]);
    assert taken[pool := [pending[pool][i]] + taken[pool]] ==
           pending[pool := [pending[pool][i]] + WithoutAt(pending[pool], i)];
  }

  lemma RunnableHasSlot(agents: map<AgentId, AgentInfo>, s: State, agent: AgentId, pool: PoolId, j: Job,
                        timeout: nat, now: nat)
    requires s.agents == Loads(agents) && CanRun(agents, agent, pool, j, timeout, now)
    ensures HasSlot(s, agent)
  {
  }

  /** What a poll that found a job amounts to: a lease, or the job put back at the front. */
  ghost predicate PollEvents(es: seq<Event>, s: State, t: Tid, agent: AgentId, found: Copy, leased: bool,
                             answer: StoreAnswer) {
    exists pos: nat :: pos < |s.queue| && s.queue[pos] == found &&
                       es == if leased then [PollTake(t, agent, pos), PollStore(t, Answered), PollOwn(t)]
                             else [PollTake(t, agent, pos), PollStore(t, answer), Release(t), PollPutBack(t)]
  }

  /**
   `fault` says whether a failed store call took effect; `at` is where the queue holds the earliest job that the agent
   can run, when the poll gets that far.
   */
  method PollRefines(q: JobQueue, pool: PoolId, agent: AgentId, now: nat, lost: bool, answer: LeaseAnswer,
                     ghost s: State, ghost t: Tid, ghost fault: StoreAnswer)
    returns (reply: PollReply, ghost at: nat, ghost es: seq<Event>, ghost s': State)
    requires q.Valid() && Abstracts(q, s) && s.At(t).Idle?
    requires forall i: nat :: EarliestRunnable(QueueOf(q.pending, pool), i, q.agents, agent, pool, q.heartbeatTimeout, now) ==>
                                LeaseFits(s, CopyOf(pool, QueueOf(q.pending, pool)[i]), answer, fault)
    modifies q
    ensures q.Valid() && Abstracts(q, s') && Does(s, es, s')
    ensures if q.Blocked(old(q.pending), pool, old(q.agents), agent, now, lost) then es == []
            else
              var before := QueueOf(old(q.pending), pool);
              && EarliestRunnable(before, at, old(q.agents), agent, pool, q.heartbeatTimeout, now)
              && (reply.HasJob? ==> reply.job == before[at])
              && PollEvents(es, s, t, agent, CopyOf(pool, before[at]), reply.HasJob?,
                            if answer.LeaseRefused? then Answered else fault)
  {
    ghost var pending, inFlight, agents := q.pending, q.inFlight, q.agents;
    reply := q.Poll(pool, agent, now, lost, answer);
    es, s', at := [], s, 0;
    if q.Blocked(pending, pool, agents, agent, now, lost) {
      Nothing(s);
    } else if reply.HasJob? {
      at :| EarliestRunnable(QueueOf(pending, pool), at, agents, agent, pool, q.heartbeatTimeout, now)
            && reply.job == QueueOf(pending, pool)[at]
            && q.pending == pending[pool := WithoutAt(QueueOf(pending, pool), at)];
      RunnableHasSlot(agents, s, agent, pool, pending[pool][at], q.heartbeatTimeout, now);
      ghost var pos;
      pos, s' := HandOut(pending, inFlight, agents, s, t, pool, at, agent);
      es := [PollTake(t, agent, pos), PollStore(t, Answered), PollOwn(t)];
    } else {
      at :| EarliestRunnable(QueueOf(pending, pool), at, agents, agent, pool, q.heartbeatTimeout, now)
            && q.pending == pending[pool := [QueueOf(pending, pool)[at]] + WithoutAt(QueueOf(pending, pool), at)];
      RunnableHasSlot(agents, s, agent, pool, pending[pool][at], q.heartbeatTimeout, now);
      ghost var pos;
      ghost var told := if answer.LeaseRefused? then Answered else fault;
      pos, s' := PutBack(pending, inFlight, agents, s, t, pool, at, agent, told);
      es := [PollTake(t, agent, pos), PollStore(t, told), Release(t), PollPutBack(t)];
    }
  }

  // ---------------------------------------------------------------- complete

  /** What the caller was told about a completion is what the table says about it. */
  ghost predicate CommitFits(s: State, r: Request, commit: CommitAnswer, fault: StoreAnswer) {
    match commit
    case NoTable => !s.persistent
    case Decided(d) => s.persistent && d == CommitDecision(s.rows, r)
    case CommitError => s.persistent && !fault.Answered?
  }

  lemma LeasesWithout(inFlight: map<JobId, InFlightJob>, id: JobId)
    ensures Leases(inFlight - {id}) == Leases(inFlight) - {id}
  {
  }

  method CompleteRefines(q: JobQueue, r: Request, commit: CommitAnswer, ghost s: State, ghost t: Tid,
                         ghost fault: StoreAnswer)
    returns (code: Code, ghost s': State)
    requires q.Valid() && Abstracts(q, s) && s.At(t).Idle? && t !in s.replies && CommitFits(s, r, commit, fault)
    modifies q
    ensures q.Valid() && Abstracts(q, s')
    ensures Does(s, CompleteEvents(s, t, r, if commit.CommitError? then fault else Answered), s')
    ensures t in s'.replies && s'.replies[t] == Reply(r, code)
  {
    ghost var inFlight, agents := q.inFlight, q.agents;
    LoadsFollow(agents, r.agent);
    LeasesWithout(inFlight, r.id);
    s' := CompletionAlone(s, t, r, if commit.CommitError? then fault else Answered);
    code := q.Complete(r, commit);
    assert Current(inFlight, r) == NamesLease(s, r);
  }
}
