/**
 What the two unchecked things cost: registering an agent again while it has leases, and enqueuing a job id
 again.  Each comes with the run that goes wrong and with what does hold.
 */
module LeaseReuse {
  import opened LeaseProtocol
  import opened LeaseCounting
  import opened LeaseRows
  import opened LeaseSteps
  import opened LeaseFencing
  import opened LeaseMemory
  import opened LeaseHandlers

  // ---------------------------------------------------------------- runs, put together

  ghost predicate Reached(s: State) { exists persistent: bool, es :: Does(Init(persistent), es, s) }

  lemma ReachMore(s: State, fs: seq<Event>, s': State)
    requires Reached(s) && Does(s, fs, s')
    ensures Reached(s')
  {
    var persistent: bool, es :| Does(Init(persistent), es, s);
    DoesMore(Init(persistent), es, s, fs, s');
  }

  lemma OneEvent(s: State, e: Event, s': State)
    requires Enabled(s, e) && Apply(s, e) == s'
    ensures Does(s, [e], s')
  {
    Nothing(s');
    Then(s, e, s', [], s');
    assert [e] + [] == [e];
  }

  // ---------------------------------------------------------------- registering again under load

  function Reregistered(s: State, a: AgentId, m: nat): State { s.(agents := s.agents[a := Agent(m, 0, 0)]) }

  /** Whatever an agent has leased, it is handed one more job after it registers again. */
  lemma ReregistrationOverloads(s: State, t: Tid, a: AgentId, m: nat, pos: nat)
    requires a != "" && s.At(t).Idle? && pos < |s.queue| && Leasable(s, s.queue[pos])
    requires s.queue[pos].id in s.inFlight && s.inFlight[s.queue[pos].id].agent == ""
    ensures var s' := Polled(Reregistered(s, a, m), t, a, pos);
            && Does(s, [Register(a, m)] + [PollTake(t, a, pos), PollStore(t, Answered), PollOwn(t)], s')
            && |LeasedTo(s'.inFlight, a)| == |LeasedTo(s.inFlight, a)| + 1 && s'.agents[a].maxConcurrent == m
  {
    var s1 := Reregistered(s, a, m);
    var c := s.queue[pos];
    PollAlone(s1, t, a, pos);
    OneEvent(s, Register(a, m), s1);
    DoesMore(s, [Register(a, m)], s1, [PollTake(t, a, pos), PollStore(t, Answered), PollOwn(t)], Polled(s1, t, a, pos));
    LeasedUpdate(s.inFlight, c.id, s.inFlight[c.id].(agent := a), a);
  }

  lemma ReachEnqueue(s: State, t: Tid, c: Copy)
    requires Reached(s) && s.At(t).Idle?
    ensures Reached(Enqueued(s, t, c))
  {
    EnqueueAlone(s, t, c);
    ReachMore(s, [EnqueueInsert(t, c), PushBack(t)], Enqueued(s, t, c));
  }

  lemma ReachPoll(s: State, t: Tid, a: AgentId, pos: nat)
    requires Reached(s) && s.At(t).Idle? && pos < |s.queue| && HasSlot(s, a) && Leasable(s, s.queue[pos])
    requires s.queue[pos].id in s.inFlight
    ensures Reached(Polled(s, t, a, pos))
  {
    PollAlone(s, t, a, pos);
    ReachMore(s, [PollTake(t, a, pos), PollStore(t, Answered), PollOwn(t)], Polled(s, t, a, pos));
  }

  lemma ReachRegistered(a: AgentId, m: nat) returns (s: State)
    requires a != ""
    ensures Reached(s) && s == Init(false).(agents := map[a := Agent(m, 0, 0)])
  {
    s := Reregistered(Init(false), a, m);
    OneEvent(Init(false), Register(a, m), s);
    assert Does(Init(false), [Register(a, m)], s);
  }

  const A := Copy("pool", "a", "run")
  const B := Copy("pool", "b", "run")

  /** An agent of one slot that holds job a. */
  lemma OneLeased() returns (s: State)
    ensures Reached(s)
    ensures s == State(false, map["a" := Record("pool", "agent", "run", 0)], [], map["agent" := Agent(1, 1, 0)], map[],
                       map[0 := Idle], 1, map[0 := "a"], {Lease("agent", "a", "run", 0)}, {}, [], map[])
  {
    var s0 := ReachRegistered("agent", 1);
    ReachEnqueue(s0, 0, A);
    var s1 := Enqueued(s0, 0, A);
    assert s1 == State(false, map["a" := Record("pool", "", "run", 0)], [A], map["agent" := Agent(1, 0, 0)], map[],
                       map[0 := Idle], 1, map[0 := "a"], {}, {}, [], map[]);
    s := OnlyJobLeased(s1);
  }

  lemma OnlyJobLeased(s1: State) returns (s: State)
    requires Reached(s1)
    requires s1 == State(false, map["a" := Record("pool", "", "run", 0)], [A], map["agent" := Agent(1, 0, 0)], map[],
                         map[0 := Idle], 1, map[0 := "a"], {}, {}, [], map[])
    ensures Reached(s)
    ensures s == State(false, map["a" := Record("pool", "agent", "run", 0)], [], map["agent" := Agent(1, 1, 0)], map[],
                       map[0 := Idle], 1, map[0 := "a"], {Lease("agent", "a", "run", 0)}, {}, [], map[])
  {
    ReachPoll(s1, 0, "agent", 0);
    s := Polled(s1, 0, "agent", 0);
  }

  /** A run in which an agent of one slot ends up with two leases. */
  lemma LeasesExceedCapacity() returns (s: State)
    ensures Reached(s) && "agent" in s.agents && |LeasedTo(s.inFlight, "agent")| > s.agents["agent"].Capacity()
  {
    var s1 := OneLeased();
    ReachEnqueue(s1, 0, B);
    var s0 := Enqueued(s1, 0, B);
    ReregistrationOverloads(s0, 0, "agent", 1, 0);
    s := Polled(Reregistered(s0, "agent", 1), 0, "agent", 0);
    ReachMore(s0, [Register("agent", 1)] + [PollTake(0, "agent", 0), PollStore(0, Answered), PollOwn(0)], s);
    assert "a" in LeasedTo(s0.inFlight, "agent");
  }

  // ---------------------------------------------------------------- enqueuing an id again, in memory

  /** The job is enqueued, and leased to the agent at once. */
  ghost function Revived(s: State, t: Tid, c: Copy, a: AgentId): State
    requires a in s.agents
  {
    Polled(Enqueued(s, t, c), t, a, |s.queue|)
  }

  lemma Revive(s: State, t: Tid, c: Copy, a: AgentId)
    requires !s.persistent && s.At(t).Idle? && HasSlot(s, a)
    ensures Does(s, [EnqueueInsert(t, c), PushBack(t)] + [PollTake(t, a, |s.queue|), PollStore(t, Answered), PollOwn(t)],
                 Revived(s, t, c, a))
  {
    var s1 := Enqueued(s, t, c);
    EnqueueAlone(s, t, c);
    PollAlone(s1, t, a, |s.queue|);
    DoesMore(s, [EnqueueInsert(t, c), PushBack(t)], s1,
             [PollTake(t, a, |s.queue|), PollStore(t, Answered), PollOwn(t)], Revived(s, t, c, a));
  }

  /**
   In memory a completion, of whatever age, is accepted for the new job if and only if the job came back
   under the completion's run id and went to the same agent; it then fires the new job's sender.
   */
  lemma RevivedJobAcceptsIff(s: State, t: Tid, c: Copy, a: AgentId, u: Tid, r: Request) returns (s': State)
    requires !s.persistent && s.At(t).Idle? && HasSlot(s, a) && a != ""
    requires u != t && s.At(u).Idle? && u !in s.replies && r.id == c.id
    ensures Does(Revived(s, t, c, a), CompleteEvents(Revived(s, t, c, a), u, r, Answered), s')
    ensures u in s'.replies && (s'.replies[u].code == Accepted <==> r.run == c.run && r.agent == a)
    ensures s'.replies[u].code == Accepted ==> s'.fired == s.fired + [Delivery(s.nextSender, r)]
    ensures s'.replies[u].request == r && s'.reclaimed == s.reclaimed
    ensures s'.issued == s.issued[s.nextSender := c.id] && s.handed <= s'.handed
  {
    var s1 := Revived(s, t, c, a);
    s' := CompletionAlone(s1, u, r, Answered);
  }

  /** A run in which a completion of a job's first life is delivered to the waiter of its second. */
  lemma EarlierLifeIsDelivered() returns (s: State, r: Request)
    ensures Reached(s) && s.fired == [Delivery(1, r)] && s.issued == map[0 := r.id, 1 := r.id]
    ensures Lease(r.agent, r.id, r.run, 0) in s.handed
  {
    var s0 := OneLeased();
    var s1 := Abandoned(s0, 0, "pool", "a");
    AbandonAlone(s0, 0, "pool", "a");
    ReachMore(s0, AbandonEvents(s0, 0, "pool", "a"), s1);
    var s2 := Revived(s1, 0, A, "agent");
    Revive(s1, 0, A, "agent");
    ReachMore(s1, [EnqueueInsert(0, A), PushBack(0)] +
                  [PollTake(0, "agent", |s1.queue|), PollStore(0, Answered), PollOwn(0)], s2);
    r := Request("a", "agent", "run", 7);
    s := RevivedJobAcceptsIff(s1, 0, A, "agent", 1, r);
    ReachMore(s2, CompleteEvents(s2, 1, r, Answered), s);
  }

  /** A run in which one completion is delivered twice: its replay meets the second life of its job. */
  lemma ReplayIsDeliveredTwice() returns (s: State, r: Request)
    ensures Reached(s) && s.fired == [Delivery(0, r), Delivery(1, r)]
  {
    var s0 := OneLeased();
    r := Request("a", "agent", "run", 7);
    var s1 := CompletionAlone(s0, 1, r, Answered);
    ReachMore(s0, CompleteEvents(s0, 1, r, Answered), s1);
    SameServer(s0, 1, r, s1);
    s := SecondLife(s1, r);
  }

  /** A completion leaves the other handlers and replies alone. */
  lemma SameServer(s: State, t: Tid, r: Request, s': State)
    requires !s.persistent && s.At(t).Idle? && t !in s.replies && Does(s, CompleteEvents(s, t, r, Answered), s')
    requires Completable(s, r)
    ensures !s'.persistent && s'.threads == s.threads[t := Idle] && s'.replies == s.replies[t := Reply(r, Accepted)]
  {
    CompleteAlone(s, t, r);
  }

  lemma SecondLife(s1: State, r: Request) returns (s: State)
    requires Reached(s1) && !s1.persistent && r == Request("a", "agent", "run", 7) && s1.fired == [Delivery(0, r)]
    requires s1.nextSender == 1 && s1.At(0).Idle? && s1.At(2).Idle? && 2 !in s1.replies && HasSlot(s1, "agent")
    ensures Reached(s) && s.fired == [Delivery(0, r), Delivery(1, r)]
  {
    var s2 := Revived(s1, 0, A, "agent");
    Revive(s1, 0, A, "agent");
    ReachMore(s1, [EnqueueInsert(0, A), PushBack(0)] +
                  [PollTake(0, "agent", |s1.queue|), PollStore(0, Answered), PollOwn(0)], s2);
    s := RevivedJobAcceptsIff(s1, 0, A, "agent", 2, r);
    ReachMore(s2, CompleteEvents(s2, 2, r, Answered), s);
  }

  /** A run, in memory, in which a lease leaves and comes back: agent and run compare equal across two lives. */
  lemma SnapshotComparesAcrossLives() returns (s: State, es: seq<Event>, fs: seq<Event>)
    ensures Reached(s) && Runs(s, es) && Runs(After(s, es), fs)
    ensures "a" in s.inFlight && s.inFlight["a"].agent != "" && "a" !in After(s, es).inFlight
    ensures var s' := After(After(s, es), fs);
            && "a" in s'.inFlight && s'.inFlight["a"].agent == s.inFlight["a"].agent
            && s'.inFlight["a"].run == s.inFlight["a"].run && s'.inFlight["a"].sender != s.inFlight["a"].sender
  {
    s := OneLeased();
    es := AbandonEvents(s, 0, "pool", "a");
    AbandonAlone(s, 0, "pool", "a");
    var s1 := Abandoned(s, 0, "pool", "a");
    fs := [EnqueueInsert(0, A), PushBack(0)] + [PollTake(0, "agent", |s1.queue|), PollStore(0, Answered), PollOwn(0)];
    Revive(s1, 0, A, "agent");
  }

  // ---------------------------------------------------------------- bringing back a run, in memory

  lemma RegisterAndPoll(s: State, t: Tid, a: AgentId, pos: nat) returns (es: seq<Event>)
    requires !s.persistent && a != "" && s.At(t).Idle? && pos < |s.queue| && s.queue[pos].id in s.inFlight
    ensures Does(s, es, Polled(Reregistered(s, a, 1), t, a, pos))
  {
    var s1 := Reregistered(s, a, 1);
    PollAlone(s1, t, a, pos);
    OneEvent(s, Register(a, 1), s1);
    es := [Register(a, 1)] + [PollTake(t, a, pos), PollStore(t, Answered), PollOwn(t)];
    DoesMore(s, [Register(a, 1)], s1, [PollTake(t, a, pos), PollStore(t, Answered), PollOwn(t)], Polled(s1, t, a, pos));
  }

  /** `s'` has the job leased to `a` under `run`; handlers and replies are those of `s`. */
  ghost predicate LeasedAgain(s: State, s': State, t: Tid, id: JobId, a: AgentId, run: RunId) {
    && !s'.persistent && s'.threads == s.threads[t := Idle] && s'.replies == s.replies && s.reclaimed <= s'.reclaimed
    && id in s'.inFlight && s'.inFlight[id].agent == a && s'.inFlight[id].run == run
  }

  /** The job is enqueued under `c.run` and leased. */
  lemma LeasedAtOnce(s: State, t: Tid, c: Copy, a: AgentId) returns (es: seq<Event>, s': State)
    requires !s.persistent && s.At(t).Idle? && a != ""
    ensures Does(s, es, s') && es != [] && es[0] == EnqueueInsert(t, c) && LeasedAgain(s, s', t, c.id, a, c.run)
  {
    var s1 := Enqueued(s, t, c);
    EnqueueAlone(s, t, c);
    var more := RegisterAndPoll(s1, t, a, |s.queue|);
    s' := Polled(Reregistered(s1, a, 1), t, a, |s.queue|);
    DoesMore(s, [EnqueueInsert(t, c), PushBack(t)], s1, more, s');
    es := [EnqueueInsert(t, c), PushBack(t)] + more;
    assert s'.threads == s.threads[t := Idle];
  }

  /** A leased job is reclaimed with the given suffix, and leased again. */
  lemma ReclaimedAndLeased(s: State, t: Tid, id: JobId, suffix: string, a: AgentId) returns (es: seq<Event>, s': State)
    requires !s.persistent && s.At(t).Idle? && a != "" && HasLease(s, id)
    ensures Does(s, es, s') && LeasedAgain(s, s', t, id, a, s.inFlight[id].run + RECLAIM_MARK + suffix)
  {
    var s1 := Reclaimed(s, t, id, suffix);
    ReclaimAlone(s, t, id, suffix);
    var more := RegisterAndPoll(s1, t, a, |s.queue|);
    s' := Polled(Reregistered(s1, a, 1), t, a, |s.queue|);
    var first := [ReclaimSnapshot(t, id), ReclaimStore(t, suffix, Answered), ReclaimReplace(t), PushBack(t), Release(t)];
    DoesMore(s, first, s1, more, s');
    es := first + more;
    assert s'.threads == s.threads[t := Idle];
  }

  /** A run that the new run id can become does come back, as a lease. */
  lemma RunReturns(s: State, t: Tid, c: Copy, a: AgentId, run: RunId) returns (es: seq<Event>, s': State)
    requires !s.persistent && s.At(t).Idle? && a != "" && CanBecome(c.run, run)
    ensures Does(s, es, s') && es != [] && es[0] == EnqueueInsert(t, c) && LeasedAgain(s, s', t, c.id, a, run)
  {
    es, s' := LeasedAtOnce(s, t, c, a);
    if c.run != run {
      var suffix := run[|c.run + RECLAIM_MARK|..];
      assert c.run + RECLAIM_MARK + suffix == run;
      var s1 := s';
      var more;
      more, s' := ReclaimedAndLeased(s1, t, c.id, suffix, a);
      DoesMore(s, es, s1, more, s');
      es := es + more;
      assert s'.threads == s.threads[t := Idle];
    }
  }

  /** A completion past its check ends with ACCEPTED, as long as it finds some record. */
  lemma FinishingEnds(s: State, t: Tid) returns (es: seq<Event>)
    requires !s.persistent && Finishing(s.At(t)) && s.At(t).request.id in s.inFlight
    ensures Runs(s, es) && After(s, es).reclaimed == s.reclaimed
    ensures t in After(s, es).replies && After(s, es).replies[t] == Reply(s.At(t).request, Accepted)
  {
    if s.At(t).CompleteChecked? || s.At(t).CompleteCommitted? {
      es := FinishCompletion(s, t);
    } else {
      var s1 := if s.At(t).CompleteRemoved? then ApplyRelease(s, t) else s;
      OneEvent(s1, CompleteSend(t), ApplySend(s1, t));
      es := [CompleteSend(t)];
      if s.At(t).CompleteRemoved? {
        Prepend(s, Release(t), es);
        es := [Release(t)] + es;
      }
    }
  }

  lemma ReclaimThenFinish(s: State, t: Tid, u: Tid, id: JobId) returns (es: seq<Event>)
    requires !s.persistent && s.At(t).Idle? && HasLease(s, id) && FinishingAt(s, u, id, s.inFlight[id].run)
    ensures Runs(s, es) && Unfenced(After(s, es), u)
  {
    var s1 := Reclaimed(s, t, id, "x");
    ReclaimAlone(s, t, id, "x");
    assert s1.At(u) == s.At(u);
    var more := FinishingEnds(s1, u);
    var first := [ReclaimSnapshot(t, id), ReclaimStore(t, "x", Answered), ReclaimReplace(t), PushBack(t), Release(t)];
    DoesMore(s, first, s1, more, After(s1, more));
    es := first + more;
  }

  /**
   In memory, whenever an enqueue does bring back a spent run, or one that reclaims can turn into a spent run, the
   server can go on to have acknowledged a reclaimed run: the condition on enqueues is needed as it stands.
   */
  lemma BroughtBackRunBreaksFencing(s: State, t: Tid, c: Copy, a: AgentId, u: Tid) returns (es: seq<Event>, v: Tid)
    requires !s.persistent && s.At(t).Idle? && a != "" && !NewRun(s, EnqueueInsert(t, c))
    requires u != t && s.At(u).Idle? && u !in s.replies
    ensures Runs(s, es) && es != [] && es[0] == EnqueueInsert(t, c) && Unfenced(After(s, es), v)
  {
    var run :| Spent(s, c.id, run) && CanBecome(c.run, run);
    var s1, more;
    es, s1 := RunReturns(s, t, c, a, run);
    if (c.id, run) in s.reclaimed {
      v := u;
      var r := Request(c.id, a, run, 0);
      var s2 := CompletionAlone(s1, u, r, Answered);
      more := CompleteEvents(s1, u, r, Answered);
      DoesMore(s, es, s1, more, s2);
    } else if exists w :: AckedAt(s, w, c.id, run) {
      v :| AckedAt(s, v, c.id, run);
      ReclaimAlone(s1, t, c.id, "x");
      more := [ReclaimSnapshot(t, c.id), ReclaimStore(t, "x", Answered), ReclaimReplace(t), PushBack(t), Release(t)];
      DoesMore(s, es, s1, more, Reclaimed(s1, t, c.id, "x"));
    } else {
      v :| FinishingAt(s, v, c.id, run);
      assert s1.At(v) == s.At(v);
      more := ReclaimThenFinish(s1, t, v, c.id);
      DoesMore(s, es, s1, more, After(s1, more));
    }
    es := es + more;
  }

  // ---------------------------------------------------------------- what new run ids give

  /** Every reclaim under way extends the run id. */
  ghost predicate Extending(s: State) {
    forall t :: s.At(t).ReclaimPersisted? ==> s.At(t).copy.run + RECLAIM_MARK <= s.At(t).newRun
  }

  /** No enqueue of the job is under a run that can become `run`. */
  ghost predicate NeverRevived(es: seq<Event>, id: JobId, run: RunId) {
    forall e :: e in es && e.EnqueueInsert? && e.copy.id == id ==> !CanBecome(e.copy.run, run)
  }

  lemma ExtendingStep(s: State, e: Event)
    requires Extending(s) && Enabled(s, e)
    ensures Extending(Apply(s, e))
  {
    var s' := Apply(s, e);
    forall u | s'.At(u).ReclaimPersisted? ensures s'.At(u).copy.run + RECLAIM_MARK <= s'.At(u).newRun {
      if e.Register? || e.Heartbeat? || e.RowInsert? || e.RowClose? || e.t != u {
        OthersUntouched(s, e, u);
      } else if e.ReclaimStore? {
        StoredCandidate(s, u, e.suffix, e.answer);
      } else {
        OnlyStorePersists(s, e);
      }
    }
  }

  lemma StoredCandidate(s: State, t: Tid, suffix: string, answer: StoreAnswer)
    requires s.At(t).ReclaimCandidate?
    ensures var pc := ApplyReclaimStore(s, t, suffix, answer).At(t);
            pc.ReclaimPersisted? ==> pc.copy.run + RECLAIM_MARK <= pc.newRun
  {
    var c := s.At(t).copy;
    assert c.run + RECLAIM_MARK <= c.run + RECLAIM_MARK + suffix;
  }

  lemma NoPersistOnCompletion(s: State, e: Event)
    requires Enabled(s, e) && (e.CompleteLookup? || e.CompleteCommit? || e.CompleteRemove? || e.CompleteSend?)
    ensures !Apply(s, e).At(e.t).ReclaimPersisted?
  {
  }

  lemma NoPersistOnPoll(s: State, e: Event)
    requires Enabled(s, e) && (e.PollStore? || e.PollOwn? || e.ReclaimSnapshot? || e.ReclaimReplace? || e.AbandonRemove?)
    ensures !Apply(s, e).At(e.t).ReclaimPersisted?
  {
  }

  lemma OnlyStorePersists(s: State, e: Event)
    requires Enabled(s, e) && !e.Register? && !e.Heartbeat? && !e.RowInsert? && !e.RowClose? && !e.ReclaimStore?
    ensures !Apply(s, e).At(e.t).ReclaimPersisted?
  {
    if e.PollStore? || e.PollOwn? || e.ReclaimSnapshot? || e.ReclaimReplace? || e.AbandonRemove? {
      NoPersistOnPoll(s, e);
    } else if e.CompleteLookup? || e.CompleteCommit? || e.CompleteRemove? || e.CompleteSend? {
      NoPersistOnCompletion(s, e);
    }
  }

  lemma ReplaceBehind(s: State, t: Tid, id: JobId, run: RunId)
    requires Extending(s) && s.At(t).ReclaimPersisted? && Behind(s, id, run)
    ensures Behind(ApplyReclaimReplace(s, t), id, run)
  {
    var ReclaimPersisted(a, c, newRun) := s.At(t);
    if c.id in s.inFlight && s.inFlight[c.id].agent == a && s.inFlight[c.id].run == c.run {
      BehindReplaced(s, ApplyReclaimReplace(s, t), c, newRun, id, run);
    }
  }

  lemma BehindStep(s: State, e: Event, id: JobId, run: RunId)
    requires Extending(s) && Enabled(s, e) && Behind(s, id, run) && NeverRevived([e], id, run)
    ensures Behind(Apply(s, e), id, run)
  {
    if e.EnqueueInsert? {
      assert e in [e];
      assert Behind(ApplyEnqueue(s, e.t, e.copy), id, run);
    } else if e.ReclaimReplace? {
      ReplaceBehind(s, e.t, id, run);
    } else if e.PollOwn? {
      assert Behind(ApplyOwn(s, e.t), id, run);
    } else {
      OthersOnlyRemove(s, e);
    }
  }

  /**
   Over every run, with or without the table: a run that its job has left stays behind, as long as no enqueue brings
   it back; `RunReturns` shows that any such enqueue does.
   */
  lemma {:induction false} OldRunStaysBehind(s: State, es: seq<Event>, id: JobId, run: RunId)
    requires Extending(s) && Runs(s, es) && NeverRevived(es, id, run) && Behind(s, id, run)
    ensures Behind(After(s, es), id, run)
    ensures id in After(s, es).inFlight ==> After(s, es).inFlight[id].run != run
    decreases |es|
  {
    if es != [] {
      assert forall e :: e in [es[0]] ==> e in es;
      assert forall e :: e in es[1..] ==> e in es;
      BehindStep(s, es[0], id, run);
      ExtendingStep(s, es[0]);
      OldRunStaysBehind(Apply(s, es[0]), es[1..], id, run);
    }
  }

  // ---------------------------------------------------------------- enqueuing across a completion

  /**
   With or without the table: whenever the id of a completion that is going to remove its record is enqueued, the
   completion goes on to take the new job's record, fire the new job's sender and reply ACCEPTED.
   */
  lemma CrossedCompletion(s: State, t: Tid, u: Tid, c: Copy) returns (es: seq<Event>, s': State)
    requires t != u && s.At(u).Idle? && Claims(s, s.At(t), c.id)
    ensures Does(s, es, s') && es != [] && es[0] == EnqueueInsert(u, c)
    ensures s'.fired == s.fired + [Delivery(s.nextSender, s.At(t).request)] && s'.issued == s.issued[s.nextSender := c.id]
    ensures t in s'.replies && s'.replies[t] == Reply(s.At(t).request, Accepted) && c.id !in s'.inFlight
  {
    var s1 := ApplyEnqueue(s, u, c);
    OneEvent(s, EnqueueInsert(u, c), s1);
    es := [EnqueueInsert(u, c)];
    if s.At(t).CompleteChecked? {
      var s2 := Committed(s1, t);
      CommitGoesOn(s1, t, s2);
      OneEvent(s1, CompleteCommit(t, Answered), s2);
      DoesMore(s, es, s1, [CompleteCommit(t, Answered)], s2);
      es := es + [CompleteCommit(t, Answered)];
      s1 := s2;
    }
    var more;
    more, s' := RemoveAndSend(s1, t, s.At(t).request);
    DoesMore(s, es, s1, more, s');
    es := es + more;
  }

  function Committed(s: State, t: Tid): State
    requires s.At(t).CompleteChecked?
  {
    s.(rows := if s.persistent then CommitRow(s.rows, s.At(t).request) else s.rows)
    .Go(t, CompleteCommitted(s.At(t).request))
  }

  lemma CommitGoesOn(s: State, t: Tid, s': State)
    requires s.At(t).CompleteChecked? && (s.persistent ==> Accepts(s.rows, s.At(t).request)) && s' == Committed(s, t)
    ensures Enabled(s, CompleteCommit(t, Answered)) && Apply(s, CompleteCommit(t, Answered)) == s'
  {
  }

  lemma RemoveAndSend(s: State, t: Tid, r: Request) returns (es: seq<Event>, s': State)
    requires s.At(t) == CompleteCommitted(r) && r.id in s.inFlight
    ensures Does(s, es, s') && s'.fired == s.fired + [Delivery(s.inFlight[r.id].sender, r)] && s'.issued == s.issued
    ensures t in s'.replies && s'.replies[t] == Reply(r, Accepted) && s'.inFlight == s.inFlight - {r.id}
  {
    var rec := s.inFlight[r.id];
    var s1 := s.(inFlight := s.inFlight - {r.id}).Go(t, CompleteRemoved(r, rec.agent, rec.sender));
    var s2 := s1.(agents := Decrement(s.agents, rec.agent)).Go(t, CompleteSends(r, rec.sender));
    s' := s2.(fired := s.fired + [Delivery(rec.sender, r)]).Answer(t, r, Accepted);
    RemovedAndSent(s, t, r, s1, s2, s');
    es := [CompleteRemove(t)] + ([Release(t)] + ([CompleteSend(t)] + []));
  }

  const R := Request("a", "agent", "run", 7)

  /** With the table: the job is queued. */
  lemma QueuedInTable() returns (s: State)
    ensures Reached(s)
    ensures s == State(true, map["a" := Record("pool", "", "run", 0)], [A], map["agent" := Agent(1, 0, 0)],
                       map["a" := Row(Pending, "", "run", 0)], map[0 := Idle], 1, map[0 := "a"], {}, {}, [], map[])
  {
    var s0 := Reregistered(Init(true), "agent", 1);
    OneEvent(Init(true), Register("agent", 1), s0);
    assert Does(Init(true), [Register("agent", 1)], s0);
    var s1 := ApplyRowInsert(s0, "a", "run");
    OneEvent(s0, RowInsert("a", "run"), s1);
    ReachMore(s0, [RowInsert("a", "run")], s1);
    ReachEnqueue(s1, 0, A);
    s := Enqueued(s1, 0, A);
  }

  /** ... and leased. */
  lemma LeasedInTable() returns (s: State)
    ensures Reached(s)
    ensures s == State(true, map["a" := Record("pool", "agent", "run", 0)], [], map["agent" := Agent(1, 1, 0)],
                       map["a" := Row(Leased, "agent", "run", 0)], map[0 := Idle], 1, map[0 := "a"],
                       {Lease("agent", "a", "run", 0)}, {}, [], map[])
  {
    var s2 := QueuedInTable();
    s := OnlyJobLeasedInTable(s2);
  }

  lemma OnlyJobLeasedInTable(s2: State) returns (s: State)
    requires Reached(s2)
    requires s2 == State(true, map["a" := Record("pool", "", "run", 0)], [A], map["agent" := Agent(1, 0, 0)],
                         map["a" := Row(Pending, "", "run", 0)], map[0 := Idle], 1, map[0 := "a"], {}, {}, [], map[])
    ensures Reached(s)
    ensures s == State(true, map["a" := Record("pool", "agent", "run", 0)], [], map["agent" := Agent(1, 1, 0)],
                       map["a" := Row(Leased, "agent", "run", 0)], map[0 := Idle], 1, map[0 := "a"],
                       {Lease("agent", "a", "run", 0)}, {}, [], map[])
  {
    ReachPoll(s2, 0, "agent", 0);
    s := Polled(s2, 0, "agent", 0);
  }

  /** ... and its completion is committed, its record not yet removed. */
  lemma CommittedInTable() returns (s: State)
    ensures Reached(s) && s.persistent && s.At(1) == CompleteCommitted(R) && s.At(0).Idle?
    ensures s.rows == map["a" := Row(Completed, "agent", "run", 7)] && s.nextSender == 1 && s.issued == map[0 := "a"]
    ensures s.fired == []
  {
    var s0 := LeasedInTable();
    var s1 := s0.Go(1, CompleteChecked(R));
    s := s1.(rows := CommitRow(s0.rows, R)).Go(1, CompleteCommitted(R));
    CheckedAndCommitted(s0, 1, R, s1, s);
    Nothing(s);
    ThenTwo(s0, CompleteLookup(1, R), s1, CompleteCommit(1, Answered), s, [], s);
    ReachMore(s0, [CompleteLookup(1, R)] + ([CompleteCommit(1, Answered)] + []), s);
  }

  /**
   With the table, from the empty server: a job is abandoned between the commit and the remove of its completion and
   submitted again, and the completion of the first life goes to the waiter of the second.
   */
  lemma EarlierLifeIsDeliveredDespiteTable() returns (s: State)
    ensures Reached(s) && s.persistent && s.fired == [Delivery(1, R)] && s.issued == map[0 := "a", 1 := "a"]
    ensures 1 in s.replies && s.replies[1] == Reply(R, Accepted)
  {
    var s0 := CommittedInTable();
    var s1 := Abandoned(s0, 0, "pool", "a");
    AbandonAlone(s0, 0, "pool", "a");
    ReachMore(s0, AbandonEvents(s0, 0, "pool", "a"), s1);
    var es;
    es, s := CrossedCompletion(s1, 1, 0, A);
    ReachMore(s1, es, s);
    PersistentStays(s1, es);
  }

  lemma {:induction false} PersistentStays(s: State, es: seq<Event>)
    requires Runs(s, es)
    ensures After(s, es).persistent == s.persistent
    decreases |es|
  {
    if es != [] { PersistentStays(Apply(s, es[0]), es[1..]); }
  }
}
