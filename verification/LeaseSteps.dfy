/**
 What single events leave alone.
 */
module LeaseSteps {
  import opened LeaseProtocol
  import opened LeaseRows

  /** Apart from enqueue, poll and reclaim, an event leaves records alone or removes one. */
  ghost predicate OnlyRemoves(s: State, s': State) {
    && s'.nextSender == s.nextSender
    && forall id :: id in s'.inFlight ==> id in s.inFlight && s'.inFlight[id] == s.inFlight[id]
  }

  lemma OthersOnlyRemove(s: State, e: Event)
    requires Enabled(s, e) && !e.EnqueueInsert? && !e.PollOwn? && !e.ReclaimReplace?
    ensures OnlyRemoves(s, Apply(s, e))
  {
    if e.CompleteRemove? || e.AbandonRemove? {
    } else if e.RowInsert? || e.RowClose? || e.PollStore? || e.CompleteLookup? || e.CompleteCommit? || e.ReclaimStore? {
    } else {
      QuietOnlyRemove(s, e);
    }
  }

  lemma QuietOnlyRemove(s: State, e: Event)
    requires Enabled(s, e)
    requires || e.Register? || e.Heartbeat? || e.PushBack? || e.Release? || e.PollTake? || e.PollPutBack?
             || e.CompleteSend? || e.ReclaimSnapshot? || e.AbandonPurge?
    ensures Apply(s, e).inFlight == s.inFlight && Apply(s, e).nextSender == s.nextSender
  {
  }

  /** Apart from enqueue, poll and reclaim. */
  ghost predicate Steady(s: State, s': State) {
    && OnlyRemoves(s, s') && s'.persistent == s.persistent && Grows(s.rows, s'.rows)
    && s'.issued == s.issued && s'.handed == s.handed && s.fired <= s'.fired
  }

  lemma PollStoreRows(s: State, t: Tid, answer: StoreAnswer)
    requires s.At(t).PollHolds?
    ensures Grows(s.rows, ApplyPollStore(s, t, answer).rows)
  {
    GrowsSame(s.rows);
    TableGrows(s.rows, s.At(t).copy.id, s.At(t).agent, s.At(t).copy.run, "", Request("", "", "", 0));
  }

  lemma CommitRows(s: State, t: Tid, answer: StoreAnswer)
    requires s.At(t).CompleteChecked? || s.At(t).CompleteAbsent?
    ensures Grows(s.rows, ApplyCommit(s, t, answer).rows)
  {
    GrowsSame(s.rows);
    TableGrows(s.rows, "", "", "", "", s.At(t).request);
  }

  lemma ReclaimStoreRows(s: State, t: Tid, suffix: string, answer: StoreAnswer)
    requires s.At(t).ReclaimCandidate?
    ensures Grows(s.rows, ApplyReclaimStore(s, t, suffix, answer).rows)
  {
    GrowsSame(s.rows);
    TableGrows(s.rows, s.At(t).copy.id, s.At(t).agent, s.At(t).copy.run, suffix, Request("", "", "", 0));
  }

  lemma RowEventRows(s: State, id: JobId, run: RunId)
    ensures Grows(s.rows, ApplyRowInsert(s, id, run).rows) && Grows(s.rows, ApplyRowClose(s, id).rows)
  {
    GrowsSame(s.rows);
  }

  /** The events that consult the job table. */
  predicate UsesTable(e: Event) {
    e.RowInsert? || e.RowClose? || e.PollStore? || e.CompleteLookup? || e.CompleteCommit? || e.ReclaimStore?
  }

  lemma TableSteady(s: State, e: Event)
    requires Enabled(s, e) && UsesTable(e)
    ensures Steady(s, Apply(s, e))
  {
    GrowsSame(s.rows);
    match e
    case RowInsert(id, run) => RowEventRows(s, id, run);
    case RowClose(id) => RowEventRows(s, id, "");
    case PollStore(t, answer) => PollStoreRows(s, t, answer);
    case CompleteLookup(t, r) =>
    case CompleteCommit(t, answer) => CommitRows(s, t, answer);
    case ReclaimStore(t, suffix, answer) => ReclaimStoreRows(s, t, suffix, answer);
  }

  lemma PlainSteady(s: State, e: Event)
    requires Enabled(s, e) && !UsesTable(e) && !e.EnqueueInsert? && !e.PollOwn? && !e.ReclaimReplace?
    ensures Steady(s, Apply(s, e))
  {
    OthersOnlyRemove(s, e);
    GrowsSame(s.rows);
    assert Apply(s, e).rows == s.rows && Apply(s, e).issued == s.issued && Apply(s, e).handed == s.handed;
    assert !e.CompleteSend? ==> Apply(s, e).fired == s.fired;
  }

  lemma OnlyPollHands(s: State, e: Event)
    requires Enabled(s, e) && !e.PollOwn?
    ensures Apply(s, e).handed == s.handed
  {
    if e.EnqueueInsert? || e.ReclaimReplace? {
    } else if UsesTable(e) {
      TableSteady(s, e);
    } else {
      PlainSteady(s, e);
    }
  }

  /** Handlers other than the one that acts keep their program counter and their reply. */
  ghost predicate Untouched(s: State, s': State, u: Tid) {
    && s'.At(u) == s.At(u)
    && (u in s'.replies <==> u in s.replies)
    && (u in s.replies ==> s'.replies[u] == s.replies[u])
  }

  lemma OneActs(s: State, s': State, t: Tid, u: Tid)
    requires s'.threads == s.threads[t := s'.At(t)] && s'.replies - {t} == s.replies - {t} && u != t
    ensures Untouched(s, s', u)
  {
    assert u in s'.replies <==> u in s'.replies - {t};
    assert u in s.replies <==> u in s.replies - {t};
    assert u in s.replies ==> (s'.replies - {t})[u] == (s.replies - {t})[u];
  }

  lemma CompletionUntouched(s: State, e: Event, u: Tid)
    requires Enabled(s, e) && (e.CompleteLookup? || e.CompleteCommit? || e.CompleteRemove? || e.CompleteSend?)
    requires e.t != u
    ensures Untouched(s, Apply(s, e), u)
  {
    match e
    case CompleteLookup(t, r) => OneActs(s, ApplyLookup(s, t, r), t, u);
    case CompleteCommit(t, answer) => OneActs(s, ApplyCommit(s, t, answer), t, u);
    case CompleteRemove(t) => OneActs(s, ApplyRemove(s, t), t, u);
    case CompleteSend(t) =>
      assert ApplySend(s, t).replies - {t} == s.replies - {t};
      OneActs(s, ApplySend(s, t), t, u);
  }

  lemma PollUntouched(s: State, e: Event, u: Tid)
    requires e.EnqueueInsert? || e.PushBack? || e.Release? || e.PollTake? || e.PollStore? || e.PollPutBack?
    requires Enabled(s, e) && e.t != u
    ensures Untouched(s, Apply(s, e), u)
  {
    match e
    case EnqueueInsert(t, c) => OneActs(s, ApplyEnqueue(s, t, c), t, u);
    case PushBack(t) => OneActs(s, ApplyPushBack(s, t), t, u);
    case Release(t) => OneActs(s, ApplyRelease(s, t), t, u);
    case PollTake(t, a, pos) => OneActs(s, ApplyTake(s, t, a, pos), t, u);
    case PollStore(t, answer) => OneActs(s, ApplyPollStore(s, t, answer), t, u);
    case PollPutBack(t) => OneActs(s, ApplyPutBack(s, t), t, u);
  }

  lemma LeaseUntouched(s: State, e: Event, u: Tid)
    requires e.PollOwn? || e.ReclaimSnapshot? || e.ReclaimStore? || e.ReclaimReplace? || e.AbandonRemove? || e.AbandonPurge?
    requires Enabled(s, e) && e.t != u
    ensures Untouched(s, Apply(s, e), u)
  {
    match e
    case PollOwn(t) => OneActs(s, ApplyOwn(s, t), t, u);
    case ReclaimSnapshot(t, id) => OneActs(s, ApplySnapshot(s, t, id), t, u);
    case ReclaimStore(t, suffix, answer) => OneActs(s, ApplyReclaimStore(s, t, suffix, answer), t, u);
    case ReclaimReplace(t) => OneActs(s, ApplyReclaimReplace(s, t), t, u);
    case AbandonRemove(t, pool, id) => OneActs(s, ApplyAbandon(s, t, pool, id), t, u);
    case AbandonPurge(t) => OneActs(s, ApplyPurge(s, t), t, u);
  }

  lemma OthersUntouched(s: State, e: Event, u: Tid)
    requires Enabled(s, e)
    requires e.Register? || e.Heartbeat? || e.RowInsert? || e.RowClose? || e.t != u
    ensures Untouched(s, Apply(s, e), u)
  {
    if e.Register? || e.Heartbeat? || e.RowInsert? || e.RowClose? {
    } else if e.CompleteLookup? || e.CompleteCommit? || e.CompleteRemove? || e.CompleteSend? {
      CompletionUntouched(s, e, u);
    } else if e.EnqueueInsert? || e.PushBack? || e.Release? || e.PollTake? || e.PollStore? || e.PollPutBack? {
      PollUntouched(s, e, u);
    } else {
      LeaseUntouched(s, e, u);
    }
  }

  // ---------------------------------------------------------------- where program counters come from

  /** Neither about to take a lease, nor to reclaim one, nor to complete one. */
  predicate Quiet(pc: Pc) { !pc.PollLeased? && !pc.ReclaimCandidate? && !pc.CompleteChecked? && !pc.CompleteCommitted? }

  /** The events after which their handler may not be quiet. */
  predicate Begins(e: Event) { e.PollStore? || e.ReclaimSnapshot? || e.CompleteLookup? || e.CompleteCommit? }

  lemma QueueActor(s: State, e: Event)
    requires Enabled(s, e) && (e.EnqueueInsert? || e.PushBack? || e.Release? || e.PollTake? || e.PollPutBack?)
    ensures Quiet(Apply(s, e).At(e.t))
  {
  }

  lemma OwnQuiet(s: State, t: Tid)
    requires s.At(t).PollLeased?
    ensures Quiet(ApplyOwn(s, t).At(t))
  {
  }

  lemma RemoveQuiet(s: State, t: Tid)
    requires s.At(t).CompleteCommitted?
    ensures Quiet(ApplyRemove(s, t).At(t))
  {
  }

  lemma AbandonQuiet(s: State, t: Tid, pool: PoolId, id: JobId)
    ensures Quiet(ApplyAbandon(s, t, pool, id).At(t))
  {
  }

  lemma RecordActor(s: State, e: Event)
    requires Enabled(s, e) && (e.PollOwn? || e.CompleteRemove? || e.AbandonRemove? || e.AbandonPurge?)
    ensures Quiet(Apply(s, e).At(e.t))
  {
    match e
    case PollOwn(t) => OwnQuiet(s, t);
    case CompleteRemove(t) => RemoveQuiet(s, t);
    case AbandonRemove(t, pool, id) => AbandonQuiet(s, t, pool, id);
    case AbandonPurge(t) =>
  }

  lemma ReclaimActor(s: State, e: Event)
    requires Enabled(s, e) && (e.ReclaimStore? || e.ReclaimReplace? || e.CompleteSend?)
    ensures Quiet(Apply(s, e).At(e.t))
  {
  }

  lemma NothingBegins(s: State, e: Event, u: Tid)
    requires Enabled(s, e) && !Begins(e) && !Quiet(Apply(s, e).At(u))
    ensures s.At(u) == Apply(s, e).At(u)
  {
    if e.Register? || e.Heartbeat? || e.RowInsert? || e.RowClose? || e.t != u {
      OthersUntouched(s, e, u);
    } else if e.EnqueueInsert? || e.PushBack? || e.Release? || e.PollTake? || e.PollPutBack? {
      QueueActor(s, e);
    } else if e.ReclaimStore? || e.ReclaimReplace? || e.CompleteSend? {
      ReclaimActor(s, e);
    } else {
      RecordActor(s, e);
    }
  }
}
