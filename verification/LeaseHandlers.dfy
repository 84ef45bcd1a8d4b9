/**
 The closed form of a handler's events when no other handler gets in between.  QueueRefinement ties the
 handlers of the queue object to these, and LeaseReuse builds runs from them.
 */
module LeaseHandlers {
  import opened LeaseProtocol

  /** The events are a run from `s` that ends in `s'`. */
  ghost predicate Does(s: State, es: seq<Event>, s': State) { Runs(s, es) && After(s, es) == s' }

  lemma Then(s: State, e: Event, s1: State, es: seq<Event>, s': State)
    requires Enabled(s, e) && Apply(s, e) == s1 && Does(s1, es, s')
    ensures Does(s, [e] + es, s')
  {
    assert ([e] + es)[1..] == es;
  }

  lemma ThenTwo(s: State, e: Event, s1: State, f: Event, s2: State, es: seq<Event>, s': State)
    requires Enabled(s, e) && Apply(s, e) == s1 && Enabled(s1, f) && Apply(s1, f) == s2 && Does(s2, es, s')
    ensures Does(s, [e] + ([f] + es), s')
  {
    Then(s1, f, s2, es, s');
    Then(s, e, s1, [f] + es, s');
  }

  lemma Nothing(s: State)
    ensures Does(s, [], s)
  {
  }

  lemma {:induction false} DoesMore(s: State, es: seq<Event>, s1: State, fs: seq<Event>, s2: State)
    requires Does(s, es, s1) && Does(s1, fs, s2)
    ensures Does(s, es + fs, s2)
    decreases |es|
  {
    if es == [] {
      assert es + fs == fs;
    } else {
      DoesMore(Apply(s, es[0]), es[1..], s1, fs, s2);
      assert (es + fs)[0] == es[0] && (es + fs)[1..] == es[1..] + fs;
    }
  }

  // ---------------------------------------------------------------- enqueue

  function Enqueued(s: State, t: Tid, c: Copy): State {
    s.(inFlight := s.inFlight[c.id := Record(c.pool, "", c.run, s.nextSender)], queue := s.queue + [c],
       threads := s.threads[t := Idle], nextSender := s.nextSender + 1, issued := s.issued[s.nextSender := c.id])
  }

  /** Enqueue: a record nobody has leased, a new sender, and the job at the end of the queue. */
  lemma EnqueueAlone(s: State, t: Tid, c: Copy)
    requires s.At(t).Idle?
    ensures Does(s, [EnqueueInsert(t, c), PushBack(t)], Enqueued(s, t, c))
  {
    var s1 := ApplyEnqueue(s, t, c);
    var s2 := ApplyPushBack(s1, t);
    assert s2.threads == s.threads[t := Idle];
    Nothing(s2);
    Then(s1, PushBack(t), s2, [], s2);
    Then(s, EnqueueInsert(t, c), s1, [PushBack(t)] + [], s2);
    assert [EnqueueInsert(t, c), PushBack(t)] == [EnqueueInsert(t, c)] + ([PushBack(t)] + []);
  }

  // ---------------------------------------------------------------- poll

  /** The agent has a free slot. */
  predicate HasSlot(s: State, a: AgentId) { a in s.agents && s.agents[a].EffectiveLoad() < s.agents[a].Capacity() }

  /** The table, if there is one, lets the agent have the job. */
  predicate Leasable(s: State, c: Copy) { s.persistent ==> CanLease(s.rows, c.id, c.run) }

  function Polled(s: State, t: Tid, a: AgentId, pos: nat): State
    requires pos < |s.queue| && a in s.agents && s.queue[pos].id in s.inFlight
  {
    var c := s.queue[pos];
    s.(inFlight := s.inFlight[c.id := s.inFlight[c.id].(agent := a)], queue := s.queue[..pos] + s.queue[pos+1..],
       agents := Increment(s.agents, a), rows := if s.persistent then LeaseRow(s.rows, c.id, a, c.run) else s.rows,
       threads := s.threads[t := Idle], handed := s.handed + {Lease(a, c.id, c.run, s.inFlight[c.id].sender)})
  }

  lemma TakenAndStored(s: State, t: Tid, a: AgentId, pos: nat, s1: State, s2: State)
    requires s.At(t).Idle? && pos < |s.queue| && HasSlot(s, a) && Leasable(s, s.queue[pos])
    requires s1 == ApplyTake(s, t, a, pos)
    requires var c := s.queue[pos];
             s2 == s1.(rows := if s.persistent then LeaseRow(s.rows, c.id, a, c.run) else s.rows).Go(t, PollLeased(a, c))
    ensures Enabled(s, PollTake(t, a, pos)) && Apply(s, PollTake(t, a, pos)) == s1
    ensures Enabled(s1, PollStore(t, Answered)) && Apply(s1, PollStore(t, Answered)) == s2
  {
  }

  /** Poll: the job leaves the queue, its record and row name the agent, one unit of load is reserved. */
  lemma PollAlone(s: State, t: Tid, a: AgentId, pos: nat)
    requires s.At(t).Idle? && pos < |s.queue| && HasSlot(s, a) && Leasable(s, s.queue[pos])
    requires s.queue[pos].id in s.inFlight
    ensures Does(s, [PollTake(t, a, pos), PollStore(t, Answered), PollOwn(t)], Polled(s, t, a, pos))
  {
    var c := s.queue[pos];
    var s1 := ApplyTake(s, t, a, pos);
    var s2 := s1.(rows := if s.persistent then LeaseRow(s.rows, c.id, a, c.run) else s.rows).Go(t, PollLeased(a, c));
    TakenAndStored(s, t, a, pos, s1, s2);
    var s3 := ApplyOwn(s2, t);
    assert s3.threads == s.threads[t := Idle];
    assert s3 == Polled(s, t, a, pos);
    Nothing(s3);
    Then(s2, PollOwn(t), s3, [], s3);
    Then(s1, PollStore(t, Answered), s2, [PollOwn(t)] + [], s3);
    Then(s, PollTake(t, a, pos), s1, [PollStore(t, Answered)] + ([PollOwn(t)] + []), s3);
    assert [PollTake(t, a, pos), PollStore(t, Answered), PollOwn(t)] ==
           [PollTake(t, a, pos)] + ([PollStore(t, Answered)] + ([PollOwn(t)] + []));
  }

  /** The table after a lease that did not succeed, or whose success was not reported. */
  function RowsAfterFault(s: State, c: Copy, a: AgentId, answer: StoreAnswer): map<JobId, Row> {
    if answer.ErrorDropped? then s.rows else LeaseRow(s.rows, c.id, a, c.run)
  }

  lemma TakenAndFailed(s: State, t: Tid, a: AgentId, pos: nat, answer: StoreAnswer, s1: State, s2: State)
    requires s.At(t).Idle? && pos < |s.queue| && HasSlot(s, a) && s.persistent
    requires answer.Answered? ==> !Leasable(s, s.queue[pos])
    requires s1 == ApplyTake(s, t, a, pos)
    requires s2 == s1.(rows := RowsAfterFault(s, s.queue[pos], a, answer)).Go(t, PollRejected(a, s.queue[pos]))
    ensures Enabled(s, PollTake(t, a, pos)) && Apply(s, PollTake(t, a, pos)) == s1
    ensures Enabled(s1, PollStore(t, answer)) && Apply(s1, PollStore(t, answer)) == s2
  {
  }

  lemma ReturnedToFront(s: State, t: Tid, a: AgentId, c: Copy, s1: State, s2: State)
    requires s.At(t) == PollRejected(a, c)
    requires s1 == s.(agents := Decrement(s.agents, a)).Go(t, PollReturns(c))
    requires s2 == s1.(queue := [c] + s.queue).Go(t, Idle)
    ensures Does(s, [Release(t)] + ([PollPutBack(t)] + []), s2)
  {
    Nothing(s2);
    assert Apply(s1, PollPutBack(t)) == s2;
    Then(s1, PollPutBack(t), s2, [], s2);
    assert Apply(s, Release(t)) == s1;
    Then(s, Release(t), s1, [PollPutBack(t)] + [], s2);
  }

  function PollFailed(s: State, t: Tid, a: AgentId, pos: nat, answer: StoreAnswer): State
    requires pos < |s.queue|
  {
    s.(queue := [s.queue[pos]] + (s.queue[..pos] + s.queue[pos+1..]), threads := s.threads[t := Idle],
       rows := RowsAfterFault(s, s.queue[pos], a, answer))
  }

  lemma ReservedAndReleased(agents: map<AgentId, Agent>, a: AgentId)
    requires a in agents
    ensures Decrement(Increment(agents, a), a) == agents
  {
  }

  /** A poll that the table refuses or fails: the job goes to the front of the queue, and load and records stay. */
  lemma FailedPollAlone(s: State, t: Tid, a: AgentId, pos: nat, answer: StoreAnswer)
    requires s.At(t).Idle? && pos < |s.queue| && HasSlot(s, a) && s.persistent
    requires answer.Answered? ==> !Leasable(s, s.queue[pos])
    ensures Does(s, [PollTake(t, a, pos), PollStore(t, answer), Release(t), PollPutBack(t)], PollFailed(s, t, a, pos, answer))
  {
    var c := s.queue[pos];
    var s1 := ApplyTake(s, t, a, pos);
    var s2 := s1.(rows := RowsAfterFault(s, c, a, answer)).Go(t, PollRejected(a, c));
    TakenAndFailed(s, t, a, pos, answer, s1, s2);
    ReservedAndReleased(s.agents, a);
    var s3 := s2.(agents := Decrement(s2.agents, a)).Go(t, PollReturns(c));
    var s4 := s3.(queue := [c] + s2.queue).Go(t, Idle);
    ReturnedToFront(s2, t, a, c, s3, s4);
    assert s4.threads == s.threads[t := Idle];
    ThenTwo(s, PollTake(t, a, pos), s1, PollStore(t, answer), s2, [Release(t)] + ([PollPutBack(t)] + []), s4);
    assert [PollTake(t, a, pos), PollStore(t, answer), Release(t), PollPutBack(t)] ==
           [PollTake(t, a, pos)] + ([PollStore(t, answer)] + ([Release(t)] + ([PollPutBack(t)] + [])));
  }

  // ---------------------------------------------------------------- complete

  /** The request names the current lease, and the table, if there is one, agrees. */
  predicate Completable(s: State, r: Request) {
    NamesLease(s, r) && (s.persistent ==> CommitDecision(s.rows, r) == Replay)
  }

  function Completed(s: State, t: Tid, r: Request): State
    requires r.id in s.inFlight
  {
    s.(inFlight := s.inFlight - {r.id}, agents := Decrement(s.agents, r.agent),
       rows := if s.persistent then CommitRow(s.rows, r) else s.rows, threads := s.threads[t := Idle],
       fired := s.fired + [Delivery(s.inFlight[r.id].sender, r)], replies := s.replies[t := Reply(r, Accepted)])
  }

  lemma CheckedAndCommitted(s: State, t: Tid, r: Request, s1: State, s2: State)
    requires s.At(t).Idle? && t !in s.replies && Completable(s, r)
    requires s1 == s.Go(t, CompleteChecked(r))
    requires s2 == s1.(rows := if s.persistent then CommitRow(s.rows, r) else s.rows).Go(t, CompleteCommitted(r))
    ensures Enabled(s, CompleteLookup(t, r)) && Apply(s, CompleteLookup(t, r)) == s1
    ensures Enabled(s1, CompleteCommit(t, Answered)) && Apply(s1, CompleteCommit(t, Answered)) == s2
  {
  }

  lemma RemovedAndSent(s: State, t: Tid, r: Request, s1: State, s2: State, s3: State)
    requires s.At(t) == CompleteCommitted(r) && r.id in s.inFlight
    requires var rec := s.inFlight[r.id];
             && s1 == s.(inFlight := s.inFlight - {r.id}).Go(t, CompleteRemoved(r, rec.agent, rec.sender))
             && s2 == s1.(agents := Decrement(s.agents, rec.agent)).Go(t, CompleteSends(r, rec.sender))
             && s3 == s2.(fired := s.fired + [Delivery(rec.sender, r)]).Answer(t, r, Accepted)
    ensures Does(s, [CompleteRemove(t)] + ([Release(t)] + ([CompleteSend(t)] + [])), s3)
  {
    Nothing(s3);
    assert Apply(s2, CompleteSend(t)) == s3;
    Then(s2, CompleteSend(t), s3, [], s3);
    assert Apply(s1, Release(t)) == s2;
    Then(s1, Release(t), s2, [CompleteSend(t)] + [], s3);
    assert Apply(s, CompleteRemove(t)) == s1;
    Then(s, CompleteRemove(t), s1, [Release(t)] + ([CompleteSend(t)] + []), s3);
  }

  lemma CompletedIs(s: State, t: Tid, r: Request, s': State)
    requires Completable(s, r)
    requires var rec := s.inFlight[r.id];
             s' == s.Go(t, CompleteChecked(r)).(rows := if s.persistent then CommitRow(s.rows, r) else s.rows).Go(t, CompleteCommitted(r))
             .(inFlight := s.inFlight - {r.id}).Go(t, CompleteRemoved(r, rec.agent, rec.sender))
             .(agents := Decrement(s.agents, rec.agent)).Go(t, CompleteSends(r, rec.sender))
             .(fired := s.fired + [Delivery(rec.sender, r)]).Answer(t, r, Accepted)
    ensures s' == Completed(s, t, r)
  {
    assert s'.threads == s.threads[t := Idle];
  }

  /**
   Complete: the record goes, the row is completed, the load is released, the result goes out once, the reply is
   ACCEPTED.
   */
  lemma CompleteAlone(s: State, t: Tid, r: Request)
    requires s.At(t).Idle? && t !in s.replies && Completable(s, r)
    ensures Does(s, [CompleteLookup(t, r), CompleteCommit(t, Answered), CompleteRemove(t), Release(t), CompleteSend(t)],
                 Completed(s, t, r))
  {
    var rec := s.inFlight[r.id];
    var s1 := s.Go(t, CompleteChecked(r));
    var s2 := s1.(rows := if s.persistent then CommitRow(s.rows, r) else s.rows).Go(t, CompleteCommitted(r));
    CheckedAndCommitted(s, t, r, s1, s2);
    var s3 := s2.(inFlight := s2.inFlight - {r.id}).Go(t, CompleteRemoved(r, rec.agent, rec.sender));
    var s4 := s3.(agents := Decrement(s.agents, rec.agent)).Go(t, CompleteSends(r, rec.sender));
    var s5 := s4.(fired := s.fired + [Delivery(rec.sender, r)]).Answer(t, r, Accepted);
    CompletedIs(s, t, r, s5);
    RemovedAndSent(s2, t, r, s3, s4, s5);
    ThenTwo(s, CompleteLookup(t, r), s1, CompleteCommit(t, Answered), s2,
            [CompleteRemove(t)] + ([Release(t)] + ([CompleteSend(t)] + [])), s5);
    assert [CompleteLookup(t, r), CompleteCommit(t, Answered), CompleteRemove(t), Release(t), CompleteSend(t)] ==
           [CompleteLookup(t, r)] + ([CompleteCommit(t, Answered)] + ([CompleteRemove(t)] + ([Release(t)] + ([CompleteSend(t)] + []))));
  }

  /** The answer of a completion that its first look at the record settles. */
  function LookupCode(s: State, r: Request): Code {
    if r.id !in s.inFlight then UnknownJob
    else if s.inFlight[r.id].run != r.run then RunMismatch
    else AgentMismatch
  }

  predicate NamesLease(s: State, r: Request) {
    r.id in s.inFlight && s.inFlight[r.id].run == r.run && s.inFlight[r.id].agent == r.agent && r.agent != ""
  }

  /** A completion that does not name the current lease, with no table to ask: it changes nothing but its reply. */
  lemma RefusedAtLookup(s: State, t: Tid, r: Request)
    requires s.At(t).Idle? && t !in s.replies && !NamesLease(s, r) && (r.id !in s.inFlight ==> !s.persistent)
    ensures Does(s, [CompleteLookup(t, r)], s.Answer(t, r, LookupCode(s, r)))
  {
    var s1 := s.Answer(t, r, LookupCode(s, r));
    Nothing(s1);
    Then(s, CompleteLookup(t, r), s1, [], s1);
    assert [CompleteLookup(t, r)] + [] == [CompleteLookup(t, r)];
  }

  /** What the table's answer comes to when it does not let the completion through. */
  function CommitCode(s: State, r: Request, answer: StoreAnswer): Code {
    if !answer.Answered? then Unavailable
    else if r.id !in s.inFlight then if CommitDecision(s.rows, r) == Replay then DuplicateAccepted else UnknownJob
    else if CommitDecision(s.rows, r) == Conflict then CompletionConflict
    else UnknownJob
  }

  lemma LookedUp(s: State, t: Tid, r: Request, s1: State)
    requires s.At(t).Idle? && t !in s.replies && s.persistent && (r.id in s.inFlight ==> NamesLease(s, r))
    requires s1 == s.Go(t, if r.id in s.inFlight then CompleteChecked(r) else CompleteAbsent(r))
    ensures Enabled(s, CompleteLookup(t, r)) && Apply(s, CompleteLookup(t, r)) == s1
  {
  }

  lemma TableAnswers(s: State, t: Tid, r: Request, answer: StoreAnswer, s1: State, s2: State)
    requires s.persistent && (r.id in s.inFlight ==> answer.Answered? ==> CommitDecision(s.rows, r) != Replay)
    requires s1 == s.Go(t, if r.id in s.inFlight then CompleteChecked(r) else CompleteAbsent(r))
    requires s2 == s.(rows := if answer.ErrorDropped? then s.rows else CommitRow(s.rows, r)).Answer(t, r, CommitCode(s, r, answer))
    ensures Enabled(s1, CompleteCommit(t, answer)) && Apply(s1, CompleteCommit(t, answer)) == s2
  {
  }

  /** A completion that the table answers for good: only the row and the reply change. */
  lemma SettledByTable(s: State, t: Tid, r: Request, answer: StoreAnswer)
    requires s.At(t).Idle? && t !in s.replies && s.persistent
    requires r.id in s.inFlight ==> NamesLease(s, r) && (answer.Answered? ==> CommitDecision(s.rows, r) != Replay)
    ensures Does(s, [CompleteLookup(t, r), CompleteCommit(t, answer)],
                 s.(rows := if answer.ErrorDropped? then s.rows else CommitRow(s.rows, r)).Answer(t, r, CommitCode(s, r, answer)))
  {
    var s1 := s.Go(t, if r.id in s.inFlight then CompleteChecked(r) else CompleteAbsent(r));
    var s2 := s.(rows := if answer.ErrorDropped? then s.rows else CommitRow(s.rows, r)).Answer(t, r, CommitCode(s, r, answer));
    LookedUp(s, t, r, s1);
    TableAnswers(s, t, r, answer, s1, s2);
    Nothing(s2);
    ThenTwo(s, CompleteLookup(t, r), s1, CompleteCommit(t, answer), s2, [], s2);
    assert [CompleteLookup(t, r)] + ([CompleteCommit(t, answer)] + []) == [CompleteLookup(t, r), CompleteCommit(t, answer)];
  }

  /** The reply to a completion that runs alone. */
  function FinalCode(s: State, r: Request, answer: StoreAnswer): Code {
    if Completable(s, r) && answer.Answered? then Accepted
    else if s.persistent && (r.id in s.inFlight ==> NamesLease(s, r)) then CommitCode(s, r, answer)
    else LookupCode(s, r)
  }

  /** Its events, by how far it gets. */
  function CompleteEvents(s: State, t: Tid, r: Request, answer: StoreAnswer): seq<Event> {
    if Completable(s, r) && answer.Answered? then
      [CompleteLookup(t, r), CompleteCommit(t, Answered), CompleteRemove(t), Release(t), CompleteSend(t)]
    else if s.persistent && (r.id in s.inFlight ==> NamesLease(s, r)) then [CompleteLookup(t, r), CompleteCommit(t, answer)]
    else [CompleteLookup(t, r)]
  }

  /** Only an accepted completion touches anything but the row and the reply. */
  lemma CompletionAlone(s: State, t: Tid, r: Request, answer: StoreAnswer) returns (s': State)
    requires s.At(t).Idle? && t !in s.replies && (!s.persistent ==> answer.Answered?)
    ensures Does(s, CompleteEvents(s, t, r, answer), s')
    ensures t in s'.replies && s'.replies[t] == Reply(r, FinalCode(s, r, answer))
    ensures s'.queue == s.queue && s'.nextSender == s.nextSender && s'.issued == s.issued
    ensures s'.handed == s.handed && s'.reclaimed == s.reclaimed
    ensures if Completable(s, r) && answer.Answered?
            then && s'.inFlight == s.inFlight - {r.id} && s'.agents == Decrement(s.agents, r.agent)
                 && s'.fired == s.fired + [Delivery(s.inFlight[r.id].sender, r)]
            else s'.inFlight == s.inFlight && s'.agents == s.agents && s'.fired == s.fired
  {
    if Completable(s, r) && answer.Answered? {
      CompleteAlone(s, t, r);
      s' := Completed(s, t, r);
    } else if s.persistent && (r.id in s.inFlight ==> NamesLease(s, r)) {
      SettledByTable(s, t, r, answer);
      s' := s.(rows := if answer.ErrorDropped? then s.rows else CommitRow(s.rows, r)).Answer(t, r, CommitCode(s, r, answer));
    } else {
      RefusedAtLookup(s, t, r);
      s' := s.Answer(t, r, LookupCode(s, r));
    }
  }

  // ---------------------------------------------------------------- reclaim

  /** The job is leased, and the table, if there is one, has that very lease. */
  predicate Reclaimable(s: State, id: JobId) {
    && id in s.inFlight && s.inFlight[id].agent != ""
    && (s.persistent ==> CanRequeue(s.rows, id, s.inFlight[id].agent, s.inFlight[id].run))
  }

  function Reclaimed(s: State, t: Tid, id: JobId, suffix: string): State
    requires id in s.inFlight
  {
    var rec := s.inFlight[id];
    var newRun := rec.run + RECLAIM_MARK + suffix;
    s.(inFlight := s.inFlight[id := rec.(agent := "", run := newRun)], queue := s.queue + [Copy(rec.pool, id, newRun)],
       agents := Decrement(s.agents, rec.agent),
       rows := if s.persistent then RequeueRow(s.rows, id, rec.agent, rec.run, newRun) else s.rows,
       threads := s.threads[t := Idle], reclaimed := s.reclaimed + {(id, rec.run)})
  }

  lemma SnapshotAndRequeued(s: State, t: Tid, id: JobId, suffix: string, s1: State, s2: State)
    requires s.At(t).Idle? && Reclaimable(s, id)
    requires var rec := s.inFlight[id];
             var c, newRun := Copy(rec.pool, id, rec.run), rec.run + RECLAIM_MARK + suffix;
             && s1 == s.Go(t, ReclaimCandidate(rec.agent, c))
             && s2 == (if s.persistent then
                         s1.(rows := RequeueRow(s.rows, id, rec.agent, rec.run, newRun), reclaimed := s.reclaimed + {(id, rec.run)})
                       else s1).Go(t, ReclaimPersisted(rec.agent, c, newRun))
    ensures Enabled(s, ReclaimSnapshot(t, id)) && Apply(s, ReclaimSnapshot(t, id)) == s1
    ensures Enabled(s1, ReclaimStore(t, suffix, Answered)) && Apply(s1, ReclaimStore(t, suffix, Answered)) == s2
  {
  }

  lemma ReplacedAndQueued(s: State, t: Tid, c: Copy, agent: AgentId, newRun: RunId, s1: State, s2: State, s3: State)
    requires s.At(t) == ReclaimPersisted(agent, c, newRun) && c.id in s.inFlight
    requires s.inFlight[c.id].agent == agent && s.inFlight[c.id].run == c.run
    requires
      && s1 == s.(inFlight := s.inFlight[c.id := s.inFlight[c.id].(agent := "", run := newRun)],
                  reclaimed := s.reclaimed + {(c.id, c.run)}).Go(t, ReclaimReplaced(agent, c.(run := newRun)))
      && s2 == s1.(queue := s.queue + [c.(run := newRun)]).Go(t, ReclaimPushed(agent))
      && s3 == s2.(agents := Decrement(s.agents, agent)).Go(t, Idle)
    ensures Does(s, [ReclaimReplace(t)] + ([PushBack(t)] + ([Release(t)] + [])), s3)
  {
    Nothing(s3);
    assert Apply(s2, Release(t)) == s3;
    Then(s2, Release(t), s3, [], s3);
    assert Apply(s1, PushBack(t)) == s2;
    Then(s1, PushBack(t), s2, [Release(t)] + [], s3);
    assert Apply(s, ReclaimReplace(t)) == s1;
    Then(s, ReclaimReplace(t), s1, [PushBack(t)] + ([Release(t)] + []), s3);
  }

  lemma ReclaimedIs(s: State, t: Tid, id: JobId, suffix: string, s2: State, s': State)
    requires Reclaimable(s, id)
    requires var rec := s.inFlight[id];
             var c, newRun := Copy(rec.pool, id, rec.run), rec.run + RECLAIM_MARK + suffix;
             && s2 == (if s.persistent then
                         s.Go(t, ReclaimCandidate(rec.agent, c)).(rows := RequeueRow(s.rows, id, rec.agent, rec.run, newRun),
                                                                  reclaimed := s.reclaimed + {(id, rec.run)})
                       else s.Go(t, ReclaimCandidate(rec.agent, c))).Go(t, ReclaimPersisted(rec.agent, c, newRun))
             && s' == s2.(inFlight := s2.inFlight[id := rec.(agent := "", run := newRun)], reclaimed := s2.reclaimed + {(id, c.run)})
                      .Go(t, ReclaimReplaced(rec.agent, c.(run := newRun)))
                      .(queue := s.queue + [c.(run := newRun)]).Go(t, ReclaimPushed(rec.agent))
                      .(agents := Decrement(s.agents, rec.agent)).Go(t, Idle)
    ensures s' == Reclaimed(s, t, id, suffix)
  {
    assert s'.threads == s.threads[t := Idle];
    assert s'.reclaimed == s.reclaimed + {(id, s.inFlight[id].run)};
  }

  /** Reclaim: record, row and queue move to the longer run id together, and the agent's load is released. */
  lemma ReclaimAlone(s: State, t: Tid, id: JobId, suffix: string)
    requires s.At(t).Idle? && Reclaimable(s, id)
    ensures Does(s, [ReclaimSnapshot(t, id), ReclaimStore(t, suffix, Answered), ReclaimReplace(t), PushBack(t), Release(t)],
                 Reclaimed(s, t, id, suffix))
  {
    var rec := s.inFlight[id];
    var c, newRun := Copy(rec.pool, id, rec.run), rec.run + RECLAIM_MARK + suffix;
    var s1 := s.Go(t, ReclaimCandidate(rec.agent, c));
    var s2 := (if s.persistent then
                 s1.(rows := RequeueRow(s.rows, id, rec.agent, rec.run, newRun), reclaimed := s.reclaimed + {(id, rec.run)})
               else s1).Go(t, ReclaimPersisted(rec.agent, c, newRun));
    SnapshotAndRequeued(s, t, id, suffix, s1, s2);
    var s3 := s2.(inFlight := s2.inFlight[id := rec.(agent := "", run := newRun)], reclaimed := s2.reclaimed + {(id, c.run)})
    .Go(t, ReclaimReplaced(rec.agent, c.(run := newRun)));
    var s4 := s3.(queue := s.queue + [c.(run := newRun)]).Go(t, ReclaimPushed(rec.agent));
    var s5 := s4.(agents := Decrement(s.agents, rec.agent)).Go(t, Idle);
    ReclaimedIs(s, t, id, suffix, s2, s5);
    ReplacedAndQueued(s2, t, c, rec.agent, newRun, s3, s4, s5);
    ThenTwo(s, ReclaimSnapshot(t, id), s1, ReclaimStore(t, suffix, Answered), s2,
            [ReclaimReplace(t)] + ([PushBack(t)] + ([Release(t)] + [])), s5);
    assert [ReclaimSnapshot(t, id), ReclaimStore(t, suffix, Answered), ReclaimReplace(t), PushBack(t), Release(t)] ==
           [ReclaimSnapshot(t, id)] + ([ReclaimStore(t, suffix, Answered)] + ([ReclaimReplace(t)] + ([PushBack(t)] + ([Release(t)] + []))));
  }

  // ---------------------------------------------------------------- abandon

  lemma Purges(s: State, t: Tid, pool: PoolId, id: JobId, s': State)
    requires s.At(t) == AbandonPurges(pool, id) && s' == s.(queue := Without(s.queue, pool, id)).Go(t, Idle)
    ensures Does(s, [AbandonPurge(t)] + [], s')
  {
    Nothing(s');
    Then(s, AbandonPurge(t), s', [], s');
  }

  lemma RemovedAndReleased(s: State, t: Tid, pool: PoolId, id: JobId, s1: State, s2: State)
    requires s.At(t).Idle? && id in s.inFlight && s.inFlight[id].agent != ""
    requires var a := s.inFlight[id].agent;
             && s1 == s.(inFlight := s.inFlight - {id}).Go(t, AbandonRemoved(pool, id, a))
             && s2 == s1.(agents := Decrement(s.agents, a)).Go(t, AbandonPurges(pool, id))
    ensures Enabled(s, AbandonRemove(t, pool, id)) && Apply(s, AbandonRemove(t, pool, id)) == s1
    ensures Enabled(s1, Release(t)) && Apply(s1, Release(t)) == s2
  {
  }

  /** Abandon of a leased job: the record goes, the load is released, the pool's queue is purged. */
  lemma AbandonLeasedAlone(s: State, t: Tid, pool: PoolId, id: JobId)
    requires s.At(t).Idle? && id in s.inFlight && s.inFlight[id].agent != ""
    ensures Does(s, [AbandonRemove(t, pool, id), Release(t), AbandonPurge(t)],
                 s.(inFlight := s.inFlight - {id}, agents := Decrement(s.agents, s.inFlight[id].agent),
                    queue := Without(s.queue, pool, id), threads := s.threads[t := Idle]))
  {
    var a := s.inFlight[id].agent;
    var s1 := s.(inFlight := s.inFlight - {id}).Go(t, AbandonRemoved(pool, id, a));
    var s2 := s1.(agents := Decrement(s.agents, a)).Go(t, AbandonPurges(pool, id));
    var s3 := s2.(queue := Without(s.queue, pool, id)).Go(t, Idle);
    assert s3.threads == s.threads[t := Idle];
    Purges(s2, t, pool, id, s3);
    RemovedAndReleased(s, t, pool, id, s1, s2);
    ThenTwo(s, AbandonRemove(t, pool, id), s1, Release(t), s2, [AbandonPurge(t)] + [], s3);
    assert [AbandonRemove(t, pool, id), Release(t), AbandonPurge(t)] ==
           [AbandonRemove(t, pool, id)] + ([Release(t)] + ([AbandonPurge(t)] + []));
  }

  /** Abandon of a job that nobody has leased. */
  lemma AbandonUnleasedAlone(s: State, t: Tid, pool: PoolId, id: JobId)
    requires s.At(t).Idle? && (id in s.inFlight ==> s.inFlight[id].agent == "")
    ensures Does(s, [AbandonRemove(t, pool, id), AbandonPurge(t)],
                 s.(inFlight := s.inFlight - {id}, queue := Without(s.queue, pool, id), threads := s.threads[t := Idle]))
  {
    var s1 := s.(inFlight := s.inFlight - {id}).Go(t, AbandonPurges(pool, id));
    var s2 := s1.(queue := Without(s.queue, pool, id)).Go(t, Idle);
    assert s2.threads == s.threads[t := Idle];
    assert id !in s.inFlight ==> s.inFlight - {id} == s.inFlight;
    Purges(s1, t, pool, id, s2);
    assert Apply(s, AbandonRemove(t, pool, id)) == s1;
    Then(s, AbandonRemove(t, pool, id), s1, [AbandonPurge(t)] + [], s2);
    assert [AbandonRemove(t, pool, id), AbandonPurge(t)] ==
           [AbandonRemove(t, pool, id)] + ([AbandonPurge(t)] + []);
  }

  /** The events of an abandon, and where they lead. */
  function AbandonEvents(s: State, t: Tid, pool: PoolId, id: JobId): seq<Event> {
    if id in s.inFlight && s.inFlight[id].agent != "" then [AbandonRemove(t, pool, id), Release(t), AbandonPurge(t)]
    else [AbandonRemove(t, pool, id), AbandonPurge(t)]
  }

  function Abandoned(s: State, t: Tid, pool: PoolId, id: JobId): State {
    s.(inFlight := s.inFlight - {id}, queue := Without(s.queue, pool, id), threads := s.threads[t := Idle],
       agents := if id in s.inFlight && s.inFlight[id].agent != "" then Decrement(s.agents, s.inFlight[id].agent) else s.agents)
  }

  lemma AbandonAlone(s: State, t: Tid, pool: PoolId, id: JobId)
    requires s.At(t).Idle?
    ensures Does(s, AbandonEvents(s, t, pool, id), Abandoned(s, t, pool, id))
  {
    if id in s.inFlight && s.inFlight[id].agent != "" {
      AbandonLeasedAlone(s, t, pool, id);
    } else {
      AbandonUnleasedAlone(s, t, pool, id);
    }
  }
}
