/**
 What holds over every run whatever, also when an enqueue overwrites or revives an earlier job of its id and
 when an agent registers again under load: a sender fires at most once, and with the job table attached no
 acknowledged completion names a reclaimed run.
 */
module LeaseSafety {
  import opened LeaseProtocol
  import opened LeaseRows
  import opened LeaseSenders

  // ---------------------------------------------------------------- acknowledgements and the table

  /** What the table says about a completion past its commit, and about a reclaim past its requeue. */
  ghost predicate BackedByTable(s: State, pc: Pc) {
    && ((pc.CompleteCommitted? || pc.CompleteRemoved? || pc.CompleteSends?) ==> CommittedAt(s.rows, pc.request))
    && (pc.ReclaimPersisted? ==> (pc.copy.id, pc.copy.run) in s.reclaimed)
  }

  ghost predicate AcksOk(s: State) {
    && HistoryOk(s)
    && (s.persistent ==> forall t :: t in s.threads ==> BackedByTable(s, s.threads[t]))
  }

  lemma AcksGo(s: State, s': State, t: Tid, pc: Pc)
    requires AcksOk(s) && (s.persistent ==> BackedByTable(s, pc))
    requires s'.persistent == s.persistent && s'.rows == s.rows && s'.reclaimed == s.reclaimed
    requires s'.threads == s.threads[t := pc] && s'.replies == s.replies
    ensures AcksOk(s')
  {
  }

  lemma AcksAnswer(s: State, t: Tid, r: Request, code: Code)
    requires AcksOk(s) && (s.persistent && IsAck(code) ==> CommittedAt(s.rows, r))
    ensures AcksOk(s.Answer(t, r, code))
  {
  }

  lemma AcksRest(s: State, s': State)
    requires AcksOk(s)
    requires s'.persistent == s.persistent && s'.rows == s.rows && s'.reclaimed == s.reclaimed
    requires s'.threads == s.threads && s'.replies == s.replies
    ensures AcksOk(s')
  {
  }

  /** The table moves on, and the runs in `more` are reclaimed. */
  lemma AcksRows(s: State, rows: map<JobId, Row>, more: set<(JobId, RunId)>)
    requires AcksOk(s) && Grows(s.rows, rows)
    requires s.persistent ==> forall p :: p in more ==> p.0 in rows && Extends(rows[p.0].run, p.1)
    ensures AcksOk(s.(rows := rows, reclaimed := s.reclaimed + more))
  {
    var s' := s.(rows := rows, reclaimed := s.reclaimed + more);
    var any := Request("", "", "", 0);
    if s.persistent {
      forall p | p in s.reclaimed ensures p.0 in rows && Extends(rows[p.0].run, p.1) {
        GrowthKeeps(s.rows, rows, p.0, p.1, any);
      }
      forall t | t in s.replies && IsAck(s.replies[t].code) ensures CommittedAt(rows, s.replies[t].request) {
        GrowthKeeps(s.rows, rows, "", "", s.replies[t].request);
      }
      forall t | t in s'.threads ensures BackedByTable(s', s'.threads[t]) {
        var pc := s.threads[t];
        if pc.CompleteCommitted? || pc.CompleteRemoved? || pc.CompleteSends? {
          GrowthKeeps(s.rows, rows, "", "", pc.request);
        }
      }
    }
  }

  // ---------------------------------------------------------------- one event

  ghost predicate Safe(s: State) { AcksOk(s) && SendersOk(s) }

  lemma RowsAcks(s: State, rows: map<JobId, Row>)
    requires AcksOk(s) && Grows(s.rows, rows)
    ensures AcksOk(s.(rows := rows))
  {
    AcksRows(s, rows, {});
    assert s.reclaimed + {} == s.reclaimed;
  }

  lemma RowEventAcks(s: State, id: JobId, run: RunId)
    requires AcksOk(s)
    ensures AcksOk(ApplyRowInsert(s, id, run)) && AcksOk(ApplyRowClose(s, id))
  {
    var s1, s2 := ApplyRowInsert(s, id, run), ApplyRowClose(s, id);
    assert Grows(s.rows, s1.rows) && Grows(s.rows, s2.rows);
    RowsAcks(s, s1.rows);
    RowsAcks(s, s2.rows);
  }

  lemma PollStoreAcks(s: State, t: Tid, answer: StoreAnswer)
    requires AcksOk(s) && s.At(t).PollHolds?
    ensures AcksOk(ApplyPollStore(s, t, answer))
  {
    var PollHolds(a, c) := s.At(t);
    var s' := ApplyPollStore(s, t, answer);
    if s'.rows == s.rows {
      AcksGo(s, s', t, s'.At(t));
    } else {
      TableGrows(s.rows, c.id, a, c.run, "", Request("", "", "", 0));
      RowsAcks(s, s'.rows);
      AcksGo(s.(rows := s'.rows), s', t, s'.At(t));
    }
  }

  lemma LookupAcks(s: State, t: Tid, r: Request)
    requires AcksOk(s)
    ensures AcksOk(ApplyLookup(s, t, r))
  {
    if r.id !in s.inFlight {
      if s.persistent { AcksGo(s, s.Go(t, CompleteAbsent(r)), t, CompleteAbsent(r)); } else { AcksAnswer(s, t, r, UnknownJob); }
    } else if s.inFlight[r.id].run != r.run {
      AcksAnswer(s, t, r, RunMismatch);
    } else if s.inFlight[r.id].agent == "" || s.inFlight[r.id].agent != r.agent {
      AcksAnswer(s, t, r, AgentMismatch);
    } else {
      AcksGo(s, s.Go(t, CompleteChecked(r)), t, CompleteChecked(r));
    }
  }

  lemma CommitAcks(s: State, t: Tid, answer: StoreAnswer)
    requires AcksOk(s) && (s.At(t).CompleteChecked? || s.At(t).CompleteAbsent?)
    ensures AcksOk(ApplyCommit(s, t, answer))
  {
    var pc, r := s.At(t), s.At(t).request;
    if !s.persistent {
      if pc.CompleteChecked? {
        AcksGo(s, s.Go(t, CompleteCommitted(r)), t, CompleteCommitted(r));
      } else {
        AcksAnswer(s, t, r, UnknownJob);
      }
    } else {
      TableGrows(s.rows, "", "", "", "", r);
      RowsAcks(s, CommitRow(s.rows, r));
      var decision := CommitDecision(s.rows, r);
      var s1 := if answer.ErrorDropped? then s else s.(rows := CommitRow(s.rows, r));
      if !answer.Answered? {
        AcksAnswer(s1, t, r, Unavailable);
      } else if pc.CompleteAbsent? {
        AcksAnswer(s1, t, r, if decision.Replay? then DuplicateAccepted else UnknownJob);
      } else {
        match decision
        case Replay => AcksGo(s1, s1.Go(t, CompleteCommitted(r)), t, CompleteCommitted(r));
        case Conflict => AcksAnswer(s1, t, r, CompletionConflict);
        case Missing => AcksAnswer(s1, t, r, UnknownJob);
      }
    }
  }

  lemma RemoveAcks(s: State, t: Tid)
    requires AcksOk(s) && s.At(t).CompleteCommitted?
    ensures AcksOk(ApplyRemove(s, t))
  {
    var r := s.At(t).request;
    if r.id in s.inFlight {
      AcksGo(s, ApplyRemove(s, t), t, CompleteRemoved(r, s.inFlight[r.id].agent, s.inFlight[r.id].sender));
    } else {
      AcksAnswer(s, t, r, UnknownJob);
    }
  }

  lemma SendAcks(s: State, t: Tid)
    requires AcksOk(s) && s.At(t).CompleteSends?
    ensures AcksOk(ApplySend(s, t))
  {
    var CompleteSends(r, k) := s.At(t);
    AcksRest(s, s.(fired := s.fired + [Delivery(k, r)]));
    AcksAnswer(s.(fired := s.fired + [Delivery(k, r)]), t, r, Accepted);
  }

  lemma ReclaimStoreAcks(s: State, t: Tid, suffix: string, answer: StoreAnswer)
    requires AcksOk(s) && s.At(t).ReclaimCandidate?
    ensures AcksOk(ApplyReclaimStore(s, t, suffix, answer))
  {
    var ReclaimCandidate(a, c) := s.At(t);
    var newRun := c.run + RECLAIM_MARK + suffix;
    var s' := ApplyReclaimStore(s, t, suffix, answer);
    if s.persistent && CanRequeue(s.rows, c.id, a, c.run) && !answer.ErrorDropped? {
      var rows := RequeueRow(s.rows, c.id, a, c.run, newRun);
      assert Extends(newRun, c.run);
      TableGrows(s.rows, c.id, a, c.run, suffix, Request("", "", "", 0));
      AcksRows(s, rows, {(c.id, c.run)});
      AcksGo(s.(rows := rows, reclaimed := s.reclaimed + {(c.id, c.run)}), s', t, s'.At(t));
    } else {
      AcksGo(s, s', t, s'.At(t));
    }
  }

  lemma ReplaceAcks(s: State, t: Tid)
    requires AcksOk(s) && s.At(t).ReclaimPersisted?
    ensures AcksOk(ApplyReclaimReplace(s, t))
  {
    var ReclaimPersisted(a, c, newRun) := s.At(t);
    var s' := ApplyReclaimReplace(s, t);
    if s'.reclaimed != s.reclaimed {
      assert !s.persistent;
    } else {
      AcksGo(s, s', t, s'.At(t));
    }
  }

  predicate TouchesQueue(e: Event) {
    e.EnqueueInsert? || e.PushBack? || e.PollTake? || e.PollPutBack? || e.AbandonPurge?
  }

  lemma QueueAcks(s: State, e: Event)
    requires AcksOk(s) && Enabled(s, e) && TouchesQueue(e)
    ensures AcksOk(Apply(s, e))
  {
    match e
    case EnqueueInsert(t, c) => AcksGo(s, ApplyEnqueue(s, t, c), t, EnqueueHolds(c));
    case PushBack(t) =>
      AcksGo(s, ApplyPushBack(s, t), t, if s.At(t).EnqueueHolds? then Idle else ReclaimPushed(s.At(t).agent));
    case PollTake(t, a, pos) => AcksGo(s, ApplyTake(s, t, a, pos), t, PollHolds(a, s.queue[pos]));
    case PollPutBack(t) => AcksGo(s, ApplyPutBack(s, t), t, Idle);
    case AbandonPurge(t) => AcksGo(s, ApplyPurge(s, t), t, Idle);
  }

  lemma OwnAcks(s: State, t: Tid)
    requires AcksOk(s) && s.At(t).PollLeased?
    ensures AcksOk(ApplyOwn(s, t))
  {
    AcksGo(s, ApplyOwn(s, t), t, ApplyOwn(s, t).At(t));
  }

  lemma AbandonAcks(s: State, t: Tid, pool: PoolId, id: JobId)
    requires AcksOk(s) && s.At(t).Idle?
    ensures AcksOk(ApplyAbandon(s, t, pool, id))
  {
    AcksGo(s, ApplyAbandon(s, t, pool, id), t, ApplyAbandon(s, t, pool, id).At(t));
  }

  predicate TouchesRegistry(e: Event) { e.Register? || e.Heartbeat? || e.Release? || e.ReclaimSnapshot? }

  lemma RegistryAcks(s: State, e: Event)
    requires AcksOk(s) && Enabled(s, e) && TouchesRegistry(e)
    ensures AcksOk(Apply(s, e))
  {
    match e
    case Register(a, m) => AcksRest(s, s.(agents := s.agents[a := Agent(m, 0, 0)]));
    case Heartbeat(a, n) => AcksRest(s, s.(agents := s.agents[a := s.agents[a].(reported := n)]));
    case Release(t) => AcksGo(s, ApplyRelease(s, t), t, AfterRelease(s.At(t)));
    case ReclaimSnapshot(t, id) =>
      AcksGo(s, ApplySnapshot(s, t, id), t,
             ReclaimCandidate(s.inFlight[id].agent, Copy(s.inFlight[id].pool, id, s.inFlight[id].run)));
  }

  lemma AcksStep(s: State, e: Event)
    requires AcksOk(s) && Enabled(s, e)
    ensures AcksOk(Apply(s, e))
  {
    if TouchesQueue(e) {
      QueueAcks(s, e);
    } else if TouchesRegistry(e) {
      RegistryAcks(s, e);
    } else {
      match e
      case PollOwn(t) => OwnAcks(s, t);
      case AbandonRemove(t, pool, id) => AbandonAcks(s, t, pool, id);
      case RowInsert(id, run) => RowEventAcks(s, id, run);
      case RowClose(id) => RowEventAcks(s, id, "");
      case PollStore(t, answer) => PollStoreAcks(s, t, answer);
      case CompleteLookup(t, r) => LookupAcks(s, t, r);
      case CompleteCommit(t, answer) => CommitAcks(s, t, answer);
      case CompleteRemove(t) => RemoveAcks(s, t);
      case CompleteSend(t) => SendAcks(s, t);
      case ReclaimStore(t, suffix, answer) => ReclaimStoreAcks(s, t, suffix, answer);
      case ReclaimReplace(t) => ReplaceAcks(s, t);
    }
  }

  lemma PushBackSenders(s: State, t: Tid)
    requires SendersOk(s) && (s.At(t).EnqueueHolds? || s.At(t).ReclaimReplaced?)
    ensures SendersOk(ApplyPushBack(s, t))
  {
    SendersPass(s, ApplyPushBack(s, t), t, if s.At(t).EnqueueHolds? then Idle else ReclaimPushed(s.At(t).agent));
  }

  lemma TakeSenders(s: State, t: Tid, a: AgentId, pos: nat)
    requires SendersOk(s) && Enabled(s, PollTake(t, a, pos))
    ensures SendersOk(ApplyTake(s, t, a, pos))
  {
    SendersPass(s, ApplyTake(s, t, a, pos), t, PollHolds(a, s.queue[pos]));
  }

  lemma QueueSenders(s: State, e: Event)
    requires SendersOk(s) && Enabled(s, e) && TouchesQueue(e)
    ensures SendersOk(Apply(s, e))
  {
    match e
    case EnqueueInsert(t, c) => EnqueueSenders(s, t, c);
    case PushBack(t) => PushBackSenders(s, t);
    case PollTake(t, a, pos) => TakeSenders(s, t, a, pos);
    case PollPutBack(t) => SendersPass(s, ApplyPutBack(s, t), t, Idle);
    case AbandonPurge(t) => SendersPass(s, ApplyPurge(s, t), t, Idle);
  }

  lemma RegistrySenders(s: State, e: Event)
    requires SendersOk(s) && Enabled(s, e) && TouchesRegistry(e)
    ensures SendersOk(Apply(s, e))
  {
    match e
    case Register(a, m) => SendersUntouched(s, s.(agents := s.agents[a := Agent(m, 0, 0)]));
    case Heartbeat(a, n) => SendersUntouched(s, s.(agents := s.agents[a := s.agents[a].(reported := n)]));
    case Release(t) => SendersPass(s, ApplyRelease(s, t), t, AfterRelease(s.At(t)));
    case ReclaimSnapshot(t, id) =>
      SendersPass(s, ApplySnapshot(s, t, id), t,
                  ReclaimCandidate(s.inFlight[id].agent, Copy(s.inFlight[id].pool, id, s.inFlight[id].run)));
  }

  lemma LookupSenders(s: State, t: Tid, r: Request)
    requires SendersOk(s) && s.At(t).Idle?
    ensures SendersOk(ApplyLookup(s, t, r))
  {
    if r.id !in s.inFlight {
      var pc := if s.persistent then CompleteAbsent(r) else Idle;
      SendersPass(s, if s.persistent then s.Go(t, pc) else s.Answer(t, r, UnknownJob), t, pc);
    } else if s.inFlight[r.id].run != r.run {
      SendersPass(s, s.Answer(t, r, RunMismatch), t, Idle);
    } else if s.inFlight[r.id].agent == "" || s.inFlight[r.id].agent != r.agent {
      SendersPass(s, s.Answer(t, r, AgentMismatch), t, Idle);
    } else {
      SendersPass(s, s.Go(t, CompleteChecked(r)), t, CompleteChecked(r));
    }
  }

  lemma CommitSenders(s: State, t: Tid, answer: StoreAnswer)
    requires SendersOk(s) && (s.At(t).CompleteChecked? || s.At(t).CompleteAbsent?)
    ensures SendersOk(ApplyCommit(s, t, answer))
  {
    var s' := ApplyCommit(s, t, answer);
    SendersPass(s, s', t, s'.At(t));
  }

  lemma RemoveSenders(s: State, t: Tid)
    requires SendersOk(s) && s.At(t).CompleteCommitted?
    ensures SendersOk(ApplyRemove(s, t))
  {
    var r := s.At(t).request;
    if r.id in s.inFlight { TakenSenders(s, t, r); } else { SendersPass(s, s.Answer(t, r, UnknownJob), t, Idle); }
  }

  lemma OwnSenders(s: State, t: Tid)
    requires SendersOk(s) && s.At(t).PollLeased?
    ensures SendersOk(ApplyOwn(s, t))
  {
    SendersPass(s, ApplyOwn(s, t), t, ApplyOwn(s, t).At(t));
  }

  lemma AbandonSenders(s: State, t: Tid, pool: PoolId, id: JobId)
    requires SendersOk(s) && s.At(t).Idle?
    ensures SendersOk(ApplyAbandon(s, t, pool, id))
  {
    SendersPass(s, ApplyAbandon(s, t, pool, id), t, ApplyAbandon(s, t, pool, id).At(t));
  }

  lemma PollStoreSenders(s: State, t: Tid, answer: StoreAnswer)
    requires SendersOk(s) && s.At(t).PollHolds?
    ensures SendersOk(ApplyPollStore(s, t, answer))
  {
    SendersPass(s, ApplyPollStore(s, t, answer), t, ApplyPollStore(s, t, answer).At(t));
  }

  lemma ReclaimStoreSenders(s: State, t: Tid, suffix: string, answer: StoreAnswer)
    requires SendersOk(s) && s.At(t).ReclaimCandidate?
    ensures SendersOk(ApplyReclaimStore(s, t, suffix, answer))
  {
    SendersPass(s, ApplyReclaimStore(s, t, suffix, answer), t, ApplyReclaimStore(s, t, suffix, answer).At(t));
  }

  lemma SendersStep(s: State, e: Event)
    requires SendersOk(s) && Enabled(s, e)
    ensures SendersOk(Apply(s, e))
  {
    if TouchesQueue(e) {
      QueueSenders(s, e);
    } else if TouchesRegistry(e) {
      RegistrySenders(s, e);
    } else {
      match e
      case RowInsert(id, run) => SendersUntouched(s, ApplyRowInsert(s, id, run));
      case RowClose(id) => SendersUntouched(s, ApplyRowClose(s, id));
      case PollStore(t, answer) => PollStoreSenders(s, t, answer);
      case PollOwn(t) => OwnSenders(s, t);
      case CompleteLookup(t, r) => LookupSenders(s, t, r);
      case CompleteCommit(t, answer) => CommitSenders(s, t, answer);
      case CompleteRemove(t) => RemoveSenders(s, t);
      case CompleteSend(t) => SendSenders(s, t);
      case ReclaimStore(t, suffix, answer) => ReclaimStoreSenders(s, t, suffix, answer);
      case ReclaimReplace(t) => ReplaceSenders(s, t);
      case AbandonRemove(t, pool, id) => AbandonSenders(s, t, pool, id);
    }
  }

  // ---------------------------------------------------------------- all runs

  lemma SafeInit(persistent: bool)
    ensures Safe(Init(persistent))
  {
  }

  lemma {:induction false} SafeAlways(s: State, es: seq<Event>)
    requires Safe(s) && Runs(s, es)
    ensures Safe(After(s, es)) && After(s, es).persistent == s.persistent
    decreases |es|
  {
    if es != [] {
      AcksStep(s, es[0]);
      SendersStep(s, es[0]);
      SafeAlways(Apply(s, es[0]), es[1..]);
    }
  }

  /** With the job table, no acknowledged completion names a run that was ever reclaimed: over every run. */
  lemma NoAckOfReclaimedRun(es: seq<Event>, t: Tid)
    requires Runs(Init(true), es)
    requires t in After(Init(true), es).replies && IsAck(After(Init(true), es).replies[t].code)
    ensures var s := After(Init(true), es);
            (s.replies[t].request.id, s.replies[t].request.run) !in s.reclaimed
  {
    SafeInit(true);
    SafeAlways(Init(true), es);
    var s := After(Init(true), es);
    var r := s.replies[t].request;
    assert CommittedAt(s.rows, r);
    assert (r.id, r.run) in s.reclaimed ==> Extends(s.rows[r.id].run, r.run);
  }

  /** Every sender fires at most once, for the job it was created for: over every run. */
  lemma SenderFiresOnce(persistent: bool, es: seq<Event>)
    requires Runs(Init(persistent), es)
    ensures var s := After(Init(persistent), es);
            && (forall i, j :: 0 <= i < j < |s.fired| ==> s.fired[i].sender != s.fired[j].sender)
            && (forall i :: 0 <= i < |s.fired| ==> CreatedFor(s, s.fired[i].sender, s.fired[i].request.id))
            && (forall t :: t in s.replies && s.replies[t].code == Accepted ==> Delivered(s, s.replies[t].request))
  {
    SafeInit(persistent);
    SafeAlways(Init(persistent), es);
  }
}
