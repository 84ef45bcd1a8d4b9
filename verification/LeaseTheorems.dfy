/**
 Copies and load over whole runs: every event preserves the joint invariant of copies, handlers and senders, an
 enqueue as long as it finds no copy of its id.
 */
module LeaseTheorems {
  import opened LeaseProtocol
  import opened LeaseCopies
  import opened LeaseLoad
  import opened LeaseSenders
  import opened LeaseSafety

  ghost predicate Good(s: State) { Placed(s) && SendersOk(s) }

  // ---------------------------------------------------------------- one event

  /** Nothing changes but the table and the registry. */
  lemma RestPlaced(s: State, s': State)
    requires Placed(s) && "" !in s'.agents
    requires s'.inFlight == s.inFlight && s'.queue == s.queue && s'.threads == s.threads
    ensures Placed(s')
  {
    forall id | id in s'.inFlight ensures JobCopiesOk(s', id) {
      Moved(s, s', id);
    }
  }

  lemma QueuePlaced(s: State, e: Event)
    requires Placed(s) && Enabled(s, e) && (e.PushBack? || e.PollTake? || e.PollPutBack? || e.AbandonPurge?)
    ensures Placed(Apply(s, e))
  {
    match e
    case PushBack(t) =>
      PushBackCopies(s, t);
      KnownPass(s, ApplyPushBack(s, t), t, if s.At(t).EnqueueHolds? then Idle else ReclaimPushed(s.At(t).agent));
    case PollTake(t, a, pos) =>
      TakeCopies(s, t, a, pos);
      KnownPass(s, ApplyTake(s, t, a, pos), t, PollHolds(a, s.queue[pos]));
    case PollPutBack(t) =>
      PutBackCopies(s, t);
      KnownPass(s, ApplyPutBack(s, t), t, Idle);
    case AbandonPurge(t) =>
      assert KnownAt(s, s.At(t));
      PurgeCopies(s, t);
      KnownPass(s, ApplyPurge(s, t), t, Idle);
  }

  lemma ReleasePlaced(s: State, t: Tid)
    requires Placed(s) && Enabled(s, Release(t))
    ensures Placed(ApplyRelease(s, t))
  {
    assert KnownAt(s, s.At(t));
    PlacedPass(s, ApplyRelease(s, t), t, AfterRelease(s.At(t)));
  }

  lemma PollStorePlaced(s: State, t: Tid, answer: StoreAnswer)
    requires Placed(s) && s.At(t).PollHolds?
    ensures Placed(ApplyPollStore(s, t, answer))
  {
    assert KnownAt(s, s.At(t));
    PlacedPass(s, ApplyPollStore(s, t, answer), t, ApplyPollStore(s, t, answer).At(t));
  }

  lemma OwnPlaced(s: State, t: Tid)
    requires Placed(s) && s.At(t).PollLeased?
    ensures Placed(ApplyOwn(s, t))
  {
    assert KnownAt(s, s.At(t));
    OwnCopies(s, t);
    KnownPass(s, ApplyOwn(s, t), t, ApplyOwn(s, t).At(t));
  }

  lemma LookupPlaced(s: State, t: Tid, r: Request)
    requires Placed(s) && s.At(t).Idle?
    ensures Placed(ApplyLookup(s, t, r))
  {
    if r.id !in s.inFlight {
      var pc := if s.persistent then CompleteAbsent(r) else Idle;
      PlacedPass(s, if s.persistent then s.Go(t, pc) else s.Answer(t, r, UnknownJob), t, pc);
    } else if s.inFlight[r.id].run != r.run {
      PlacedPass(s, s.Answer(t, r, RunMismatch), t, Idle);
    } else if s.inFlight[r.id].agent == "" || s.inFlight[r.id].agent != r.agent {
      PlacedPass(s, s.Answer(t, r, AgentMismatch), t, Idle);
    } else {
      PlacedPass(s, s.Go(t, CompleteChecked(r)), t, CompleteChecked(r));
    }
  }

  lemma CommitPlaced(s: State, t: Tid, answer: StoreAnswer)
    requires Placed(s) && (s.At(t).CompleteChecked? || s.At(t).CompleteAbsent?)
    ensures Placed(ApplyCommit(s, t, answer))
  {
    PlacedPass(s, ApplyCommit(s, t, answer), t, ApplyCommit(s, t, answer).At(t));
  }

  lemma RemovePlaced(s: State, t: Tid)
    requires Placed(s) && s.At(t).CompleteCommitted?
    ensures Placed(ApplyRemove(s, t))
  {
    PlacedPass(s, ApplyRemove(s, t), t, ApplyRemove(s, t).At(t));
  }

  lemma ReclaimStorePlaced(s: State, t: Tid, suffix: string, answer: StoreAnswer)
    requires Placed(s) && s.At(t).ReclaimCandidate?
    ensures Placed(ApplyReclaimStore(s, t, suffix, answer))
  {
    var c := s.At(t).copy;
    assert KnownAt(s, s.At(t));
    assert c.run + RECLAIM_MARK <= c.run + RECLAIM_MARK + suffix;
    PlacedPass(s, ApplyReclaimStore(s, t, suffix, answer), t, ApplyReclaimStore(s, t, suffix, answer).At(t));
  }

  lemma ReplacePlaced(s: State, t: Tid)
    requires Placed(s) && s.At(t).ReclaimPersisted?
    ensures Placed(ApplyReclaimReplace(s, t))
  {
    assert KnownAt(s, s.At(t));
    ReplaceCopies(s, t);
    KnownPass(s, ApplyReclaimReplace(s, t), t, ApplyReclaimReplace(s, t).At(t));
  }

  lemma AbandonPlaced(s: State, t: Tid, pool: PoolId, id: JobId)
    requires Placed(s) && s.At(t).Idle?
    ensures Placed(ApplyAbandon(s, t, pool, id))
  {
    if id in s.inFlight {
      var a := s.inFlight[id].agent;
      var pc := if a != "" then AbandonRemoved(pool, id, a) else AbandonPurges(pool, id);
      PlacedPass(s, s.(inFlight := s.inFlight - {id}).Go(t, pc), t, pc);
    } else {
      PlacedPass(s, s.Go(t, AbandonPurges(pool, id)), t, AbandonPurges(pool, id));
    }
  }

  lemma PlacedStep(s: State, e: Event)
    requires Placed(s) && Enabled(s, e) && Spaced(s, e)
    ensures Placed(Apply(s, e))
  {
    match e
    case Register(a, m) => RestPlaced(s, s.(agents := s.agents[a := Agent(m, 0, 0)]));
    case Heartbeat(a, n) => RestPlaced(s, s.(agents := s.agents[a := s.agents[a].(reported := n)]));
    case RowInsert(id, run) => RestPlaced(s, ApplyRowInsert(s, id, run));
    case RowClose(id) => RestPlaced(s, ApplyRowClose(s, id));
    case EnqueueInsert(t, c) => EnqueueNeedsVacancy(s, t, c);
    case PushBack(_) => QueuePlaced(s, e);
    case Release(t) => ReleasePlaced(s, t);
    case PollTake(_, _, _) => QueuePlaced(s, e);
    case PollStore(t, answer) => PollStorePlaced(s, t, answer);
    case PollOwn(t) => OwnPlaced(s, t);
    case PollPutBack(_) => QueuePlaced(s, e);
    case CompleteLookup(t, r) => LookupPlaced(s, t, r);
    case CompleteCommit(t, answer) => CommitPlaced(s, t, answer);
    case CompleteRemove(t) => RemovePlaced(s, t);
    case CompleteSend(t) => PlacedPass(s, ApplySend(s, t), t, Idle);
    case ReclaimSnapshot(t, id) => PlacedPass(s, ApplySnapshot(s, t, id), t, ApplySnapshot(s, t, id).At(t));
    case ReclaimStore(t, suffix, answer) => ReclaimStorePlaced(s, t, suffix, answer);
    case ReclaimReplace(t) => ReplacePlaced(s, t);
    case AbandonRemove(t, pool, id) => AbandonPlaced(s, t, pool, id);
    case AbandonPurge(_) => QueuePlaced(s, e);
  }

  /** Every event preserves the joint invariant; of an enqueue only that it finds no copy of its id is needed. */
  lemma GoodStep(s: State, e: Event)
    requires Good(s) && Enabled(s, e) && Spaced(s, e)
    ensures Good(Apply(s, e))
  {
    PlacedStep(s, e);
    SendersStep(s, e);
  }

  lemma GoodInit(persistent: bool)
    ensures Good(Init(persistent))
  {
  }

  lemma {:induction false} GoodAlways(s: State, es: seq<Event>)
    requires Good(s) && Runs(s, es) && SpacedRun(s, es)
    ensures Good(After(s, es)) && After(s, es).persistent == s.persistent
    decreases |es|
  {
    if es != [] {
      GoodStep(s, es[0]);
      GoodAlways(Apply(s, es[0]), es[1..]);
    }
  }

  // ---------------------------------------------------------------- theorems over all spaced runs

  /** A leased job has no copy anywhere; an unleased one has exactly one, under its current run id. */
  lemma OneCopyPerUnleasedJob(persistent: bool, es: seq<Event>, id: JobId)
    requires Runs(Init(persistent), es) && SpacedRun(Init(persistent), es) && id in After(Init(persistent), es).inFlight
    ensures var s := After(Init(persistent), es);
            && (s.inFlight[id].agent != "" ==> Copies(s, id) == 0)
            && (s.inFlight[id].agent == "" ==> Copies(s, id) == 1 && CopiesCarry(s, id, s.inFlight[id].run))
  {
    GoodInit(persistent);
    GoodAlways(Init(persistent), es);
    assert JobCopiesOk(After(Init(persistent), es), id);
  }

  /** A poll hands a job out only if its record is live, unleased, and still under the run of the copy. */
  lemma HandoutIsLive(persistent: bool, es: seq<Event>, t: Tid)
    requires Runs(Init(persistent), es) && SpacedRun(Init(persistent), es)
    requires After(Init(persistent), es).At(t).PollLeased?
    ensures var s := After(Init(persistent), es);
            var PollLeased(a, c) := s.At(t);
            var s' := Apply(s, PollOwn(t));
            if c.id in s.inFlight then
              && s.inFlight[c.id].agent == "" && s.inFlight[c.id].run == c.run
              && s'.inFlight[c.id].agent == a && s'.inFlight[c.id].run == c.run
              && s'.handed == s.handed + {Lease(a, c.id, c.run, s.inFlight[c.id].sender)}
            else
              s'.handed == s.handed && s'.inFlight == s.inFlight
  {
    GoodInit(persistent);
    GoodAlways(Init(persistent), es);
    var s := After(Init(persistent), es);
    if s.At(t).copy.id in s.inFlight {
      HeldRecord(s, t, s.At(t).copy.id);
    }
  }

  // ---------------------------------------------------------------- load

  lemma PollStoreLoad(s: State, t: Tid, answer: StoreAnswer)
    requires LoadOk(s) && s.At(t).PollHolds?
    ensures LoadOk(ApplyPollStore(s, t, answer))
  {
    LoadPasses(s, ApplyPollStore(s, t, answer), t, ApplyPollStore(s, t, answer).At(t));
  }

  lemma PollLoad(s: State, e: Event)
    requires Good(s) && LoadOk(s) && Enabled(s, e)
    requires e.PollTake? || e.PollStore? || e.PollOwn? || e.PollPutBack? || e.PushBack?
    ensures LoadOk(Apply(s, e))
  {
    match e
    case PollTake(t, a, pos) => TakeLoad(s, t, a, pos);
    case PollStore(t, answer) => PollStoreLoad(s, t, answer);
    case PollOwn(t) => OwnLoad(s, t);
    case PollPutBack(t) => LoadPasses(s, ApplyPutBack(s, t), t, Idle);
    case PushBack(t) =>
      LoadPasses(s, ApplyPushBack(s, t), t, if s.At(t).EnqueueHolds? then Idle else ReclaimPushed(s.At(t).agent));
  }

  lemma RemoveLoad(s: State, t: Tid)
    requires Good(s) && LoadOk(s) && s.At(t).CompleteCommitted?
    ensures LoadOk(ApplyRemove(s, t))
  {
    var r := s.At(t).request;
    if r.id in s.inFlight {
      var rec := s.inFlight[r.id];
      LeaseTaken(s, ApplyRemove(s, t), t, CompleteRemoved(r, rec.agent, rec.sender), r.id);
    } else {
      LoadPasses(s, s.Answer(t, r, UnknownJob), t, Idle);
    }
  }

  lemma AbandonLoad(s: State, t: Tid, pool: PoolId, id: JobId)
    requires LoadOk(s) && s.At(t).Idle?
    ensures LoadOk(ApplyAbandon(s, t, pool, id))
  {
    if id in s.inFlight {
      var a := s.inFlight[id].agent;
      var pc := if a != "" then AbandonRemoved(pool, id, a) else AbandonPurges(pool, id);
      LeaseTaken(s, ApplyAbandon(s, t, pool, id), t, pc, id);
    } else {
      LoadPasses(s, s.Go(t, AbandonPurges(pool, id)), t, AbandonPurges(pool, id));
    }
  }

  lemma LookupLoad(s: State, t: Tid, r: Request)
    requires LoadOk(s) && s.At(t).Idle?
    ensures LoadOk(ApplyLookup(s, t, r))
  {
    LoadPasses(s, ApplyLookup(s, t, r), t, ApplyLookup(s, t, r).At(t));
  }

  lemma CommitLoad(s: State, t: Tid, answer: StoreAnswer)
    requires LoadOk(s) && (s.At(t).CompleteChecked? || s.At(t).CompleteAbsent?)
    ensures LoadOk(ApplyCommit(s, t, answer))
  {
    LoadPasses(s, ApplyCommit(s, t, answer), t, ApplyCommit(s, t, answer).At(t));
  }

  lemma ReclaimStoreLoad(s: State, t: Tid, suffix: string, answer: StoreAnswer)
    requires LoadOk(s) && s.At(t).ReclaimCandidate?
    ensures LoadOk(ApplyReclaimStore(s, t, suffix, answer))
  {
    LoadPasses(s, ApplyReclaimStore(s, t, suffix, answer), t, ApplyReclaimStore(s, t, suffix, answer).At(t));
  }

  lemma RowLoad(s: State, s': State)
    requires LoadOk(s) && s' == s.(rows := s'.rows)
    ensures LoadOk(s')
  {
    forall a: AgentId ensures AgentLoadOk(s', a) { assert AgentLoadOk(s, a); }
  }

  lemma LoadStep(s: State, e: Event)
    requires Good(s) && LoadOk(s) && Enabled(s, e) && Spaced(s, e) && Unloaded(s, e)
    ensures LoadOk(Apply(s, e))
  {
    if e.PollTake? || e.PollStore? || e.PollOwn? || e.PollPutBack? || e.PushBack? {
      PollLoad(s, e);
    } else {
      match e
      case Register(a, m) => RegisterLoad(s, a, m);
      case Heartbeat(a, n) => HeartbeatLoad(s, a, n);
      case RowInsert(id, run) => RowLoad(s, ApplyRowInsert(s, id, run));
      case RowClose(id) => RowLoad(s, ApplyRowClose(s, id));
      case EnqueueInsert(t, c) => EnqueueLoad(s, t, c);
      case Release(t) => ReleaseLoad(s, t);
      case CompleteLookup(t, r) => LookupLoad(s, t, r);
      case CompleteCommit(t, answer) => CommitLoad(s, t, answer);
      case CompleteRemove(t) => RemoveLoad(s, t);
      case CompleteSend(t) => LoadPasses(s, ApplySend(s, t), t, Idle);
      case ReclaimSnapshot(t, id) => LoadPasses(s, ApplySnapshot(s, t, id), t, ApplySnapshot(s, t, id).At(t));
      case ReclaimStore(t, suffix, answer) => ReclaimStoreLoad(s, t, suffix, answer);
      case ReclaimReplace(t) => ReplaceLoad(s, t);
      case AbandonRemove(t, pool, id) => AbandonLoad(s, t, pool, id);
      case AbandonPurge(t) => LoadPasses(s, ApplyPurge(s, t), t, Idle);
    }
  }

  lemma LoadInit(persistent: bool)
    ensures LoadOk(Init(persistent))
  {
    var s := Init(persistent);
    forall a: AgentId ensures AgentLoadOk(s, a) {
      assert LeasedTo(s.inFlight, a) == {} && Chargers(s.threads, a) == {};
    }
  }

  lemma {:induction false} LoadAlways(s: State, es: seq<Event>)
    requires Good(s) && LoadOk(s) && Runs(s, es) && SpacedRun(s, es) && UnloadedRun(s, es)
    ensures LoadOk(After(s, es))
    decreases |es|
  {
    if es != [] {
      GoodStep(s, es[0]);
      LoadStep(s, es[0]);
      LoadAlways(Apply(s, es[0]), es[1..]);
    }
  }

  /**
   Over the spaced runs that drop no load: reserved load is conserved, and the jobs leased to an agent never
   exceed its capacity.
   */
  lemma LoadConserved(persistent: bool, es: seq<Event>, a: AgentId)
    requires Runs(Init(persistent), es) && SpacedRun(Init(persistent), es) && UnloadedRun(Init(persistent), es)
    requires a in After(Init(persistent), es).agents
    ensures var s := After(Init(persistent), es);
            && s.agents[a].reserved == |LeasedTo(s.inFlight, a)| + |Chargers(s.threads, a)|
            && |LeasedTo(s.inFlight, a)| <= s.agents[a].Capacity()
  {
    GoodInit(persistent);
    GoodAlways(Init(persistent), es);
    LoadInit(persistent);
    LoadAlways(Init(persistent), es);
    assert AgentLoadOk(After(Init(persistent), es), a);
  }
}
