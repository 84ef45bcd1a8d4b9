/**
 Fencing without the job table.  A completion does not look at the record again before it removes it, so
 in the purely in-memory configuration a reclaim can overtake a completion that already passed its check,
 and the reclaimed run is then acknowledged.  An enqueue can do the same by bringing back a run that is over.
 These two are the only ways: fencing holds over every run in which neither happens, and either of them lets the
 server acknowledge a reclaimed run.
 */
module LeaseMemory {
  import opened LeaseProtocol
  import opened LeaseRows

  /** The reclaim is about to replace the lease that the completion at `t` has checked. */
  predicate OvertakesAt(s: State, e: Event, t: Tid) {
    && e.ReclaimReplace? && s.At(e.t).ReclaimPersisted?
    && var ReclaimPersisted(a, c, _) := s.At(e.t);
    && c.id in s.inFlight && s.inFlight[c.id].agent == a && s.inFlight[c.id].run == c.run
    && Completing(s.At(t), c.id) && s.At(t).request.run == c.run
  }

  ghost predicate Overtakes(s: State, e: Event) { exists t :: t in s.threads && OvertakesAt(s, e, t) }

  predicate Finishing(pc: Pc) { pc.CompleteChecked? || pc.CompleteCommitted? || pc.CompleteRemoved? || pc.CompleteSends? }

  predicate AckedAt(s: State, t: Tid, id: JobId, run: RunId) {
    && t in s.replies && (s.replies[t].code == Accepted || s.replies[t].code == DuplicateAccepted)
    && s.replies[t].request.id == id && s.replies[t].request.run == run
  }

  predicate FinishingAt(s: State, t: Tid, id: JobId, run: RunId) {
    Finishing(s.At(t)) && s.At(t).request.id == id && s.At(t).request.run == run
  }

  /** The run was reclaimed or acknowledged, or a completion of it is past its check. */
  ghost predicate Spent(s: State, id: JobId, run: RunId) {
    || (id, run) in s.reclaimed
    || (exists t :: AckedAt(s, t, id, run))
    || (exists t :: FinishingAt(s, t, id, run))
  }

  /** The enqueue does not bring back a spent run, nor a run that reclaims can turn into one. */
  ghost predicate NewRun(s: State, e: Event) {
    e.EnqueueInsert? ==> forall run :: Spent(s, e.copy.id, run) ==> !CanBecome(e.copy.run, run)
  }

  ghost predicate CarefulRuns(s: State, es: seq<Event>)
    decreases |es|
  {
    es == [] ||
    (Enabled(s, es[0]) && NewRun(s, es[0]) && !Overtakes(s, es[0]) && CarefulRuns(Apply(s, es[0]), es[1..]))
  }

  // ---------------------------------------------------------------- what careful runs keep

  /** The run is over: the job is gone, or under a run that cannot become this one. */
  ghost predicate Behind(s: State, id: JobId, run: RunId) { id in s.inFlight ==> !CanBecome(s.inFlight[id].run, run) }

  /** A finished completion: its run was not reclaimed, and is over. */
  ghost predicate Settled(s: State, r: Request) { (r.id, r.run) !in s.reclaimed && Behind(s, r.id, r.run) }

  ghost predicate HandlerOk(s: State, pc: Pc) {
    && (pc.CompleteChecked? || pc.CompleteCommitted? ==>
          && (pc.request.id, pc.request.run) !in s.reclaimed
          && (Behind(s, pc.request.id, pc.request.run) || s.inFlight[pc.request.id].run == pc.request.run))
    && (pc.CompleteRemoved? || pc.CompleteSends? ==> Settled(s, pc.request))
    && (pc.ReclaimPersisted? ==> pc.copy.run + RECLAIM_MARK <= pc.newRun)
  }

  ghost predicate MemoryOk(s: State) {
    && (forall p :: p in s.reclaimed ==> Behind(s, p.0, p.1))
    && (forall t :: t in s.threads ==> HandlerOk(s, s.threads[t]))
    && (forall t :: t in s.replies && IsAck(s.replies[t].code) ==> Settled(s, s.replies[t].request))
  }

  /** A handler moves on or replies; records may go away or change hands. */
  lemma MemoryPass(s: State, s': State, t: Tid, pc: Pc)
    requires MemoryOk(s) && HandlerOk(s, pc)
    requires s'.threads == s.threads[t := pc] && s'.reclaimed == s.reclaimed
    requires || s'.replies == s.replies
             || (t in s'.replies && s'.replies == s.replies[t := s'.replies[t]]
                 && (IsAck(s'.replies[t].code) ==> Settled(s, s'.replies[t].request)))
    requires forall id :: id in s'.inFlight ==> id in s.inFlight && s'.inFlight[id].run == s.inFlight[id].run
    ensures MemoryOk(s')
  {
    forall u | u in s'.threads ensures HandlerOk(s', s'.threads[u]) {
      assert HandlerOk(s, s'.threads[u]);
    }
    forall u | u in s'.replies && IsAck(s'.replies[u].code) ensures Settled(s', s'.replies[u].request) {
      assert Settled(s, s'.replies[u].request);
    }
  }

  lemma LookupMemory(s: State, t: Tid, r: Request)
    requires MemoryOk(s) && !s.persistent
    ensures MemoryOk(ApplyLookup(s, t, r))
  {
    assert (r.id, r.run) in s.reclaimed ==> Behind(s, r.id, r.run);
    if r.id !in s.inFlight {
      MemoryPass(s, s.Answer(t, r, UnknownJob), t, Idle);
    } else if s.inFlight[r.id].run != r.run {
      MemoryPass(s, s.Answer(t, r, RunMismatch), t, Idle);
    } else if s.inFlight[r.id].agent == "" || s.inFlight[r.id].agent != r.agent {
      MemoryPass(s, s.Answer(t, r, AgentMismatch), t, Idle);
    } else {
      MemoryPass(s, s.Go(t, CompleteChecked(r)), t, CompleteChecked(r));
    }
  }

  lemma CommitMemory(s: State, t: Tid, answer: StoreAnswer)
    requires MemoryOk(s) && !s.persistent && (s.At(t).CompleteChecked? || s.At(t).CompleteAbsent?)
    ensures MemoryOk(ApplyCommit(s, t, answer))
  {
    var r := s.At(t).request;
    assert HandlerOk(s, s.At(t));
    if s.At(t).CompleteChecked? {
      MemoryPass(s, s.Go(t, CompleteCommitted(r)), t, CompleteCommitted(r));
    } else {
      MemoryPass(s, s.Answer(t, r, UnknownJob), t, Idle);
    }
  }

  /** The record is gone, so the run is over. */
  lemma RemoveMemory(s: State, t: Tid)
    requires MemoryOk(s) && s.At(t).CompleteCommitted?
    ensures MemoryOk(ApplyRemove(s, t))
  {
    var r := s.At(t).request;
    assert HandlerOk(s, s.At(t));
    if r.id in s.inFlight {
      var rec := s.inFlight[r.id];
      var s1 := s.(inFlight := s.inFlight - {r.id});
      RecordGoes(s, r.id);
      MemoryPass(s1, s1.Go(t, CompleteRemoved(r, rec.agent, rec.sender)), t, CompleteRemoved(r, rec.agent, rec.sender));
    } else {
      MemoryPass(s, s.Answer(t, r, UnknownJob), t, Idle);
    }
  }

  lemma RecordGoes(s: State, id: JobId)
    requires MemoryOk(s)
    ensures MemoryOk(s.(inFlight := s.inFlight - {id}))
  {
    var s' := s.(inFlight := s.inFlight - {id});
    forall u | u in s'.threads ensures HandlerOk(s', s'.threads[u]) {
      assert HandlerOk(s, s.threads[u]);
    }
    forall u | u in s'.replies && IsAck(s'.replies[u].code) ensures Settled(s', s'.replies[u].request) {
      assert Settled(s, s.replies[u].request);
    }
  }

  lemma EnqueueMemory(s: State, t: Tid, c: Copy)
    requires MemoryOk(s) && s.At(t).Idle? && NewRun(s, EnqueueInsert(t, c))
    ensures MemoryOk(ApplyEnqueue(s, t, c))
  {
    var s' := ApplyEnqueue(s, t, c);
    forall p | p in s'.reclaimed ensures Behind(s', p.0, p.1) {
      assert Spent(s, p.0, p.1);
    }
    forall u | u in s'.threads ensures HandlerOk(s', s'.threads[u]) {
      if u != t {
        var pc := s.At(u);
        assert HandlerOk(s, pc);
        if Finishing(pc) {
          assert FinishingAt(s, u, pc.request.id, pc.request.run);
          assert Spent(s, pc.request.id, pc.request.run);
        }
      }
    }
    forall u | u in s'.replies && IsAck(s'.replies[u].code) ensures Settled(s', s'.replies[u].request) {
      assert AckedAt(s, u, s.replies[u].request.id, s.replies[u].request.run);
      assert Spent(s, s.replies[u].request.id, s.replies[u].request.run);
    }
  }

  /** The lease of `c` is replaced by a longer run. */
  lemma BehindReplaced(s: State, s': State, c: Copy, newRun: RunId, id: JobId, run: RunId)
    requires c.id in s.inFlight && s.inFlight[c.id].run == c.run && c.run + RECLAIM_MARK <= newRun
    requires s'.inFlight == s.inFlight[c.id := s.inFlight[c.id].(agent := "", run := newRun)]
    ensures Behind(s, id, run) ==> Behind(s', id, run)
    ensures Behind(s', c.id, c.run)
  {
    ReachShrinks(c.run, newRun, run);
  }

  lemma ReplacedMemory(s: State, t: Tid, a: AgentId, c: Copy, newRun: RunId)
    requires MemoryOk(s) && !Overtakes(s, ReclaimReplace(t)) && s.At(t) == ReclaimPersisted(a, c, newRun)
    requires c.id in s.inFlight && s.inFlight[c.id].agent == a && s.inFlight[c.id].run == c.run
    ensures MemoryOk(s.(inFlight := s.inFlight[c.id := s.inFlight[c.id].(agent := "", run := newRun)],
                        reclaimed := s.reclaimed + {(c.id, c.run)}))
  {
    var s1 := s.(inFlight := s.inFlight[c.id := s.inFlight[c.id].(agent := "", run := newRun)],
                 reclaimed := s.reclaimed + {(c.id, c.run)});
    assert HandlerOk(s, s.At(t));
    forall p | p in s1.reclaimed ensures Behind(s1, p.0, p.1) {
      BehindReplaced(s, s1, c, newRun, p.0, p.1);
    }
    forall u | u in s1.threads ensures HandlerOk(s1, s1.threads[u]) {
      var pc := s.threads[u];
      assert HandlerOk(s, pc) && !OvertakesAt(s, ReclaimReplace(t), u);
      if Finishing(pc) { BehindReplaced(s, s1, c, newRun, pc.request.id, pc.request.run); }
    }
    forall u | u in s1.replies && IsAck(s1.replies[u].code) ensures Settled(s1, s1.replies[u].request) {
      assert Settled(s, s.replies[u].request);
      BehindReplaced(s, s1, c, newRun, s.replies[u].request.id, s.replies[u].request.run);
    }
  }

  lemma ReplaceMemory(s: State, t: Tid)
    requires MemoryOk(s) && s.At(t).ReclaimPersisted? && !Overtakes(s, ReclaimReplace(t))
    ensures MemoryOk(ApplyReclaimReplace(s, t))
  {
    var ReclaimPersisted(a, c, newRun) := s.At(t);
    if c.id in s.inFlight && s.inFlight[c.id].agent == a && s.inFlight[c.id].run == c.run {
      ReplacedMemory(s, t, a, c, newRun);
      var s1 := s.(inFlight := s.inFlight[c.id := s.inFlight[c.id].(agent := "", run := newRun)],
                   reclaimed := s.reclaimed + {(c.id, c.run)});
      MemoryPass(s1, s1.Go(t, ReclaimReplaced(a, c.(run := newRun))), t, ReclaimReplaced(a, c.(run := newRun)));
    } else {
      MemoryPass(s, s.Go(t, Idle), t, Idle);
    }
  }

  lemma ReleaseMemory(s: State, t: Tid)
    requires MemoryOk(s) && Enabled(s, Release(t))
    ensures MemoryOk(ApplyRelease(s, t))
  {
    assert HandlerOk(s, s.At(t));
    MemoryPass(s, ApplyRelease(s, t), t, AfterRelease(s.At(t)));
  }

  lemma AbandonMemory(s: State, t: Tid, pool: PoolId, id: JobId)
    requires MemoryOk(s)
    ensures MemoryOk(ApplyAbandon(s, t, pool, id))
  {
    if id in s.inFlight {
      var a := s.inFlight[id].agent;
      var pc := if a != "" then AbandonRemoved(pool, id, a) else AbandonPurges(pool, id);
      MemoryPass(s, s.(inFlight := s.inFlight - {id}).Go(t, pc), t, pc);
    } else {
      MemoryPass(s, s.Go(t, AbandonPurges(pool, id)), t, AbandonPurges(pool, id));
    }
  }

  lemma OwnMemory(s: State, t: Tid)
    requires MemoryOk(s) && s.At(t).PollLeased?
    ensures MemoryOk(ApplyOwn(s, t))
  {
    MemoryPass(s, ApplyOwn(s, t), t, if s.At(t).copy.id in s.inFlight then Idle else PollUndo(s.At(t).agent));
  }

  lemma SendMemory(s: State, t: Tid)
    requires MemoryOk(s) && s.At(t).CompleteSends?
    ensures MemoryOk(ApplySend(s, t))
  {
    assert HandlerOk(s, s.At(t));
    MemoryPass(s, ApplySend(s, t), t, Idle);
  }

  lemma PollMemory(s: State, e: Event)
    requires MemoryOk(s) && !s.persistent && Enabled(s, e)
    requires e.PollTake? || e.PollStore? || e.PollOwn? || e.PollPutBack?
    ensures MemoryOk(Apply(s, e))
  {
    match e
    case PollTake(t, a, pos) => MemoryPass(s, ApplyTake(s, t, a, pos), t, PollHolds(a, s.queue[pos]));
    case PollStore(t, answer) => MemoryPass(s, ApplyPollStore(s, t, answer), t, PollLeased(s.At(t).agent, s.At(t).copy));
    case PollOwn(t) => OwnMemory(s, t);
    case PollPutBack(t) => MemoryPass(s, ApplyPutBack(s, t), t, Idle);
  }

  lemma CandidateMemory(s: State, t: Tid, suffix: string, answer: StoreAnswer)
    requires MemoryOk(s) && !s.persistent && s.At(t).ReclaimCandidate?
    ensures MemoryOk(ApplyReclaimStore(s, t, suffix, answer))
  {
    var ReclaimCandidate(a, c) := s.At(t);
    assert c.run + RECLAIM_MARK <= c.run + RECLAIM_MARK + suffix;
    var pc := ReclaimPersisted(a, c, c.run + RECLAIM_MARK + suffix);
    MemoryPass(s, s.Go(t, pc), t, pc);
  }

  lemma QueueMemory(s: State, e: Event)
    requires MemoryOk(s) && !s.persistent && Enabled(s, e)
    requires e.PushBack? || e.ReclaimSnapshot? || e.ReclaimStore? || e.AbandonPurge?
    ensures MemoryOk(Apply(s, e))
  {
    match e
    case PushBack(t) =>
      MemoryPass(s, ApplyPushBack(s, t), t, if s.At(t).EnqueueHolds? then Idle else ReclaimPushed(s.At(t).agent));
    case ReclaimSnapshot(t, id) =>
      MemoryPass(s, ApplySnapshot(s, t, id), t,
                 ReclaimCandidate(s.inFlight[id].agent, Copy(s.inFlight[id].pool, id, s.inFlight[id].run)));
    case ReclaimStore(t, suffix, answer) => CandidateMemory(s, t, suffix, answer);
    case AbandonPurge(t) => MemoryPass(s, ApplyPurge(s, t), t, Idle);
  }

  lemma RegistryMemory(s: State, agents: map<AgentId, Agent>)
    requires MemoryOk(s)
    ensures MemoryOk(s.(agents := agents))
  {
    var s' := s.(agents := agents);
    forall u | u in s'.threads ensures HandlerOk(s', s'.threads[u]) {
      assert HandlerOk(s, s.threads[u]);
    }
    forall u | u in s'.replies && IsAck(s'.replies[u].code) ensures Settled(s', s'.replies[u].request) {
      assert Settled(s, s.replies[u].request);
    }
  }

  lemma MemoryStep(s: State, e: Event)
    requires MemoryOk(s) && !s.persistent && Enabled(s, e) && NewRun(s, e) && !Overtakes(s, e)
    ensures MemoryOk(Apply(s, e))
  {
    match e
    case Register(a, m) => RegistryMemory(s, s.agents[a := Agent(m, 0, 0)]);
    case Heartbeat(a, n) => RegistryMemory(s, s.agents[a := s.agents[a].(reported := n)]);
    case EnqueueInsert(t, c) => EnqueueMemory(s, t, c);
    case Release(t) => ReleaseMemory(s, t);
    case CompleteLookup(t, r) => LookupMemory(s, t, r);
    case CompleteCommit(t, answer) => CommitMemory(s, t, answer);
    case CompleteRemove(t) => RemoveMemory(s, t);
    case CompleteSend(t) => SendMemory(s, t);
    case ReclaimReplace(t) => ReplaceMemory(s, t);
    case AbandonRemove(t, pool, id) => AbandonMemory(s, t, pool, id);
    case PushBack(_) => QueueMemory(s, e);
    case PollTake(_, _, _) => PollMemory(s, e);
    case PollStore(_, _) => PollMemory(s, e);
    case PollOwn(_) => PollMemory(s, e);
    case PollPutBack(_) => PollMemory(s, e);
    case ReclaimSnapshot(_, _) => QueueMemory(s, e);
    case ReclaimStore(_, _, _) => QueueMemory(s, e);
    case AbandonPurge(_) => QueueMemory(s, e);
    case RowInsert(_, _) => assert false;
    case RowClose(_) => assert false;
  }

  lemma {:induction false} MemoryAlways(s: State, es: seq<Event>)
    requires MemoryOk(s) && !s.persistent && CarefulRuns(s, es)
    ensures Runs(s, es) && MemoryOk(After(s, es))
    decreases |es|
  {
    if es != [] {
      MemoryStep(s, es[0]);
      MemoryAlways(Apply(s, es[0]), es[1..]);
    }
  }

  /**
   In memory, if no reclaim overtakes a completion and no enqueue brings back a spent run, no acknowledged
   completion names a reclaimed run.
   */
  lemma CarefulMemoryRunsAreFenced(es: seq<Event>, t: Tid)
    requires CarefulRuns(Init(false), es)
    ensures Runs(Init(false), es)
    ensures var s := After(Init(false), es);
            t in s.replies && IsAck(s.replies[t].code) ==>
              (s.replies[t].request.id, s.replies[t].request.run) !in s.reclaimed
  {
    MemoryAlways(Init(false), es);
  }

  // ---------------------------------------------------------------- schedules that break it

  lemma Prepend(s: State, e: Event, es: seq<Event>)
    requires Enabled(s, e) && Runs(Apply(s, e), es)
    ensures Runs(s, [e] + es) && After(s, [e] + es) == After(Apply(s, e), es)
  {
    assert ([e] + es)[1..] == es;
  }

  /** A completion past its check runs to its end, whatever the record has become. */
  lemma FinishCommitted(s: State, t: Tid) returns (es: seq<Event>)
    requires s.At(t).CompleteCommitted? && s.At(t).request.id in s.inFlight
    ensures Runs(s, es)
    ensures After(s, es).reclaimed == s.reclaimed
    ensures t in After(s, es).replies && After(s, es).replies[t] == Reply(s.At(t).request, Accepted)
  {
    var r := s.At(t).request;
    var rec := s.inFlight[r.id];
    var s1 := ApplyRemove(s, t);
    assert s1.At(t) == CompleteRemoved(r, rec.agent, rec.sender);
    var s2 := ApplyRelease(s1, t);
    assert s2.At(t) == CompleteSends(r, rec.sender);
    var s3 := ApplySend(s2, t);
    assert After(s3, []) == s3;
    Prepend(s2, CompleteSend(t), []);
    Prepend(s1, Release(t), [CompleteSend(t)] + []);
    Prepend(s, CompleteRemove(t), [Release(t)] + ([CompleteSend(t)] + []));
    es := [CompleteRemove(t)] + ([Release(t)] + ([CompleteSend(t)] + []));
  }

  lemma FinishCompletion(s: State, t: Tid) returns (es: seq<Event>)
    requires !s.persistent && (s.At(t).CompleteChecked? || s.At(t).CompleteCommitted?)
    requires s.At(t).request.id in s.inFlight
    ensures Runs(s, es)
    ensures After(s, es).reclaimed == s.reclaimed
    ensures t in After(s, es).replies && After(s, es).replies[t] == Reply(s.At(t).request, Accepted)
  {
    if s.At(t).CompleteChecked? {
      var s1 := ApplyCommit(s, t, Answered);
      assert s1.At(t) == CompleteCommitted(s.At(t).request);
      var rest := FinishCommitted(s1, t);
      Prepend(s, CompleteCommit(t, Answered), rest);
      es := [CompleteCommit(t, Answered)] + rest;
    } else {
      es := FinishCommitted(s, t);
    }
  }

  /** In memory, as soon as a reclaim overtakes a completion, the server can acknowledge the reclaimed run. */
  lemma OvertakingBreaksFencing(s: State, u: Tid, t: Tid) returns (es: seq<Event>)
    requires !s.persistent && OvertakesAt(s, ReclaimReplace(u), t)
    ensures es != [] && es[0] == ReclaimReplace(u) && Runs(s, es)
    ensures t in After(s, es).replies && After(s, es).replies[t] == Reply(s.At(t).request, Accepted)
    ensures (s.At(t).request.id, s.At(t).request.run) in After(s, es).reclaimed
  {
    var ReclaimPersisted(a, c, newRun) := s.At(u);
    var s1 := ApplyReclaimReplace(s, u);
    assert s1.At(t) == s.At(t) && (c.id, c.run) in s1.reclaimed && c.id in s1.inFlight;
    var rest := FinishCompletion(s1, t);
    Prepend(s, ReclaimReplace(u), rest);
    es := [ReclaimReplace(u)] + rest;
  }

  /** In memory every lease is exposed: some schedule reclaims it and then acknowledges its run. */
  lemma EveryMemoryLeaseIsExposed(s: State, id: JobId, t: Tid, u: Tid) returns (es: seq<Event>)
    requires !s.persistent && id in s.inFlight && s.inFlight[id].agent != ""
    requires t != u && s.At(t).Idle? && s.At(u).Idle? && t !in s.replies
    ensures Runs(s, es)
    ensures t in After(s, es).replies && After(s, es).replies[t].code == Accepted
    ensures After(s, es).replies[t].request.id == id && After(s, es).replies[t].request.run == s.inFlight[id].run
    ensures (id, s.inFlight[id].run) in After(s, es).reclaimed
  {
    var rec := s.inFlight[id];
    var r := Request(id, rec.agent, rec.run, 0);
    var c := Copy(rec.pool, id, rec.run);
    var s1 := ApplyLookup(s, t, r);
    assert s1 == s.Go(t, CompleteChecked(r));
    var s2 := ApplySnapshot(s1, u, id);
    assert s2 == s1.Go(u, ReclaimCandidate(rec.agent, c));
    var s3 := ApplyReclaimStore(s2, u, "x", Answered);
    assert s3 == s2.Go(u, ReclaimPersisted(rec.agent, c, rec.run + RECLAIM_MARK + "x"));
    assert s3.At(t) == CompleteChecked(r);
    es := OvertakingBreaksFencing(s3, u, t);
    Prepend(s2, ReclaimStore(u, "x", Answered), es);
    es := [ReclaimStore(u, "x", Answered)] + es;
    Prepend(s1, ReclaimSnapshot(u, id), es);
    es := [ReclaimSnapshot(u, id)] + es;
    Prepend(s, CompleteLookup(t, r), es);
    es := [CompleteLookup(t, r)] + es;
  }

  /** The run acknowledges a completion whose run was reclaimed. */
  ghost predicate Unfenced(s: State, t: Tid) {
    t in s.replies && IsAck(s.replies[t].code) && (s.replies[t].request.id, s.replies[t].request.run) in s.reclaimed
  }

  /** The agent polls the queued job; its lease is then exposed. */
  lemma PolledJobIsExposed(s: State) returns (es: seq<Event>)
    requires !s.persistent && s.queue == [Copy("pool", "job", "run")] && s.threads == map[0 := Idle]
    requires s.replies == map[]
    requires s.inFlight == map["job" := Record("pool", "", "run", 0)] && s.agents == map["agent" := Agent(1, 0, 0)]
    ensures Runs(s, es) && Unfenced(After(s, es), 1)
  {
    var job := Copy("pool", "job", "run");
    var s1 := ApplyTake(s, 0, "agent", 0);
    assert s1.At(0) == PollHolds("agent", job);
    var s2 := ApplyPollStore(s1, 0, Answered);
    assert s2 == s1.Go(0, PollLeased("agent", job));
    var s3 := ApplyOwn(s2, 0);
    assert s3.inFlight == map["job" := Record("pool", "agent", "run", 0)] && s3.threads == map[0 := Idle];
    es := EveryMemoryLeaseIsExposed(s3, "job", 1, 2);
    Prepend(s2, PollOwn(0), es);
    es := [PollOwn(0)] + es;
    Prepend(s1, PollStore(0, Answered), es);
    es := [PollStore(0, Answered)] + es;
    Prepend(s, PollTake(0, "agent", 0), es);
    es := [PollTake(0, "agent", 0)] + es;
  }

  /** A concrete run in which fencing fails without the job table: one agent, one job, one late completion. */
  lemma FencingFailsInMemory() returns (es: seq<Event>)
    ensures Runs(Init(false), es) && Unfenced(After(Init(false), es), 1)
  {
    var job := Copy("pool", "job", "run");
    var s := Init(false);
    var s1 := s.(agents := map["agent" := Agent(1, 0, 0)]);
    assert s1 == Apply(s, Register("agent", 1));
    var s2 := ApplyEnqueue(s1, 0, job);
    var s3 := ApplyPushBack(s2, 0);
    es := PolledJobIsExposed(s3);
    Prepend(s2, PushBack(0), es);
    es := [PushBack(0)] + es;
    Prepend(s1, EnqueueInsert(0, job), es);
    es := [EnqueueInsert(0, job)] + es;
    Prepend(s, Register("agent", 1), es);
    es := [Register("agent", 1)] + es;
  }
}
