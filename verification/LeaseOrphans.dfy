/**
 Jobs whose row is closed.  When a job is abandoned and its row closed while a poll holds the job's copy, the
 table refuses the lease and the poll puts the copy at the front of the queue, where nothing but a purge takes it
 away: the job can never be leased again, and every poll of an agent able to run it takes it first and gets nothing.
 */
module LeaseOrphans {
  import opened LeaseProtocol
  import opened LeaseCounting
  import opened LeaseRows
  import opened LeaseSteps
  import opened LeaseHandlers
  import opened LeaseReuse

  /** The job's row is closed, and no poll got its lease before that. */
  ghost predicate Dead(s: State, id: JobId) {
    && s.persistent && id in s.rows && s.rows[id].phase == Closed
    && forall t :: s.At(t).PollLeased? ==> s.At(t).copy.id != id
  }

  /** The event purges the queue of copies of the job. */
  predicate Purges(s: State, e: Event, id: JobId) { e.AbandonPurge? && s.At(e.t).AbandonPurges? && s.At(e.t).id == id }

  ghost predicate NeverPurges(s: State, es: seq<Event>, id: JobId)
    requires Runs(s, es)
    decreases |es|
  {
    es == [] || (!Purges(s, es[0], id) && NeverPurges(Apply(s, es[0]), es[1..], id))
  }

  // ---------------------------------------------------------------- over every run

  lemma RowsGrow(s: State, e: Event)
    requires Enabled(s, e)
    ensures Grows(s.rows, Apply(s, e).rows)
  {
    if UsesTable(e) {
      TableSteady(s, e);
    } else if e.EnqueueInsert? || e.PollOwn? || e.ReclaimReplace? {
      GrowsSame(s.rows);
    } else {
      PlainSteady(s, e);
    }
  }

  lemma StoreRefuses(s: State, t: Tid, answer: StoreAnswer)
    requires s.persistent && s.At(t).PollHolds? && s.At(t).copy.id in s.rows && s.rows[s.At(t).copy.id].phase == Closed
    ensures ApplyPollStore(s, t, answer).At(t) == PollRejected(s.At(t).agent, s.At(t).copy)
  {
  }

  lemma DeadStep(s: State, e: Event, id: JobId)
    requires Dead(s, id) && Enabled(s, e)
    ensures Dead(Apply(s, e), id)
  {
    var s' := Apply(s, e);
    RowsGrow(s, e);
    forall t | s'.At(t).PollLeased? ensures s'.At(t).copy.id != id {
      if e.PollStore? && e.t == t {
        if s.At(t).copy.id == id { StoreRefuses(s, t, e.answer); }
        StoreKeepsCopy(s, t, e.answer);
      } else if Begins(e) {
        if e.t == t { BeginsNoLease(s, e); } else { OthersUntouched(s, e, t); }
      } else {
        NothingBegins(s, e, t);
      }
    }
  }

  lemma StoreKeepsCopy(s: State, t: Tid, answer: StoreAnswer)
    requires s.At(t).PollHolds?
    ensures var pc := ApplyPollStore(s, t, answer).At(t); pc.PollLeased? || pc.PollRejected?
    ensures ApplyPollStore(s, t, answer).At(t).copy == s.At(t).copy
  {
  }

  lemma BeginsNoLease(s: State, e: Event)
    requires Enabled(s, e) && (e.ReclaimSnapshot? || e.CompleteLookup? || e.CompleteCommit?)
    ensures !Apply(s, e).At(e.t).PollLeased?
  {
  }

  /** No lease of the job is handed out any more. */
  lemma DeadHandsNothing(s: State, e: Event, id: JobId)
    requires Dead(s, id) && Enabled(s, e)
    ensures forall h :: h in Apply(s, e).handed && h.id == id ==> h in s.handed
  {
    if !e.PollOwn? { OnlyPollHands(s, e); }
  }

  /** The job can never be leased again: over every run. */
  lemma {:induction false} DeadIsNeverLeased(s: State, es: seq<Event>, id: JobId)
    requires Dead(s, id) && Runs(s, es)
    ensures Dead(After(s, es), id)
    ensures forall h :: h in After(s, es).handed && h.id == id ==> h in s.handed
    decreases |es|
  {
    if es != [] {
      DeadStep(s, es[0], id);
      DeadHandsNothing(s, es[0], id);
      DeadIsNeverLeased(Apply(s, es[0]), es[1..], id);
    }
  }

  // ---------------------------------------------------------------- copies do not go away

  lemma HandlerMoves(s: State, s': State, t: Tid, pc: Pc, id: JobId)
    requires s'.queue == s.queue && s'.threads == s.threads[t := pc]
    requires HoldsJob(s.At(t), id) ==> HoldsJob(pc, id)
    ensures Copies(s', id) >= Copies(s, id)
  {
    HoldersUpdate(s.threads, t, pc, id);
  }

  lemma QueueMoves(s: State, e: Event, id: JobId)
    requires Enabled(s, e) && !Purges(s, e, id) && (e.PushBack? || e.PollTake? || e.PollPutBack? || e.AbandonPurge?)
    ensures Copies(Apply(s, e), id) >= Copies(s, id)
  {
    match e
    case PushBack(t) =>
      CountConcat(s.queue, [s.At(t).copy], id);
      HoldersUpdate(s.threads, t, if s.At(t).EnqueueHolds? then Idle else ReclaimPushed(s.At(t).agent), id);
    case PollTake(t, a, pos) =>
      CountSplit(s.queue, pos, id);
      HoldersUpdate(s.threads, t, PollHolds(a, s.queue[pos]), id);
    case PollPutBack(t) =>
      CountConcat([s.At(t).copy], s.queue, id);
      HoldersUpdate(s.threads, t, Idle, id);
    case AbandonPurge(t) =>
      CountWithout(s.queue, s.At(t).pool, s.At(t).id, id);
      HoldersUpdate(s.threads, t, Idle, id);
  }

  lemma CompletionMoves(s: State, e: Event, id: JobId)
    requires Enabled(s, e) && (e.CompleteLookup? || e.CompleteCommit? || e.CompleteRemove? || e.CompleteSend?)
    ensures Copies(Apply(s, e), id) >= Copies(s, id)
  {
    match e
    case CompleteLookup(t, r) => HandlerMoves(s, ApplyLookup(s, t, r), t, ApplyLookup(s, t, r).At(t), id);
    case CompleteCommit(t, answer) => HandlerMoves(s, ApplyCommit(s, t, answer), t, ApplyCommit(s, t, answer).At(t), id);
    case CompleteRemove(t) => HandlerMoves(s, ApplyRemove(s, t), t, ApplyRemove(s, t).At(t), id);
    case CompleteSend(t) => HandlerMoves(s, ApplySend(s, t), t, Idle, id);
  }

  lemma StoreMoves(s: State, t: Tid, answer: StoreAnswer, id: JobId)
    requires s.At(t).PollHolds?
    ensures Copies(ApplyPollStore(s, t, answer), id) >= Copies(s, id)
  {
    StoreKeepsCopy(s, t, answer);
    HandlerMoves(s, ApplyPollStore(s, t, answer), t, ApplyPollStore(s, t, answer).At(t), id);
  }

  lemma OwnMoves(s: State, t: Tid, id: JobId)
    requires s.At(t).PollLeased? && s.At(t).copy.id != id
    ensures Copies(ApplyOwn(s, t), id) >= Copies(s, id)
  {
    HandlerMoves(s, ApplyOwn(s, t), t, ApplyOwn(s, t).At(t), id);
  }

  lemma ReclaimMoves(s: State, e: Event, id: JobId)
    requires Enabled(s, e) && (e.ReclaimSnapshot? || e.ReclaimStore? || e.ReclaimReplace? || e.AbandonRemove?)
    ensures Copies(Apply(s, e), id) >= Copies(s, id)
  {
    match e
    case ReclaimSnapshot(t, i) => HandlerMoves(s, ApplySnapshot(s, t, i), t, ApplySnapshot(s, t, i).At(t), id);
    case ReclaimStore(t, suffix, answer) =>
      HandlerMoves(s, ApplyReclaimStore(s, t, suffix, answer), t, ApplyReclaimStore(s, t, suffix, answer).At(t), id);
    case ReclaimReplace(t) => HandlerMoves(s, ApplyReclaimReplace(s, t), t, ApplyReclaimReplace(s, t).At(t), id);
    case AbandonRemove(t, pool, i) => HandlerMoves(s, ApplyAbandon(s, t, pool, i), t, ApplyAbandon(s, t, pool, i).At(t), id);
  }

  lemma CopiesStayStep(s: State, e: Event, id: JobId)
    requires Dead(s, id) && Enabled(s, e) && !Purges(s, e, id)
    ensures Copies(Apply(s, e), id) >= Copies(s, id)
  {
    if e.Register? || e.Heartbeat? || e.RowInsert? || e.RowClose? {
    } else if e.PushBack? || e.PollTake? || e.PollPutBack? || e.AbandonPurge? {
      QueueMoves(s, e, id);
    } else if e.CompleteLookup? || e.CompleteCommit? || e.CompleteRemove? || e.CompleteSend? {
      CompletionMoves(s, e, id);
    } else if e.ReclaimSnapshot? || e.ReclaimStore? || e.ReclaimReplace? || e.AbandonRemove? {
      ReclaimMoves(s, e, id);
    } else {
      match e
      case EnqueueInsert(t, c) => HandlerMoves(s, ApplyEnqueue(s, t, c), t, EnqueueHolds(c), id);
      case Release(t) => HandlerMoves(s, ApplyRelease(s, t), t, AfterRelease(s.At(t)), id);
      case PollStore(t, answer) => StoreMoves(s, t, answer, id);
      case PollOwn(t) => OwnMoves(s, t, id);
    }
  }

  /** Only a purge takes copies of the job away: over every run. */
  lemma {:induction false} DeadCopiesStay(s: State, es: seq<Event>, id: JobId)
    requires Dead(s, id) && Runs(s, es) && NeverPurges(s, es, id)
    ensures Copies(After(s, es), id) >= Copies(s, id)
    decreases |es|
  {
    if es != [] {
      CopiesStayStep(s, es[0], id);
      DeadStep(s, es[0], id);
      DeadCopiesStay(Apply(s, es[0]), es[1..], id);
    }
  }

  // ---------------------------------------------------------------- polls, one after the other

  /** What a poll of the pool takes: the first copy of the pool that the agent can run. */
  ghost predicate TakesFirst(q: seq<Copy>, pos: nat, pool: PoolId, a: AgentId, runnable: set<(AgentId, Copy)>) {
    && pos < |q| && q[pos].pool == pool && (a, q[pos]) in runnable
    && forall k :: 0 <= k < pos && q[k].pool == pool ==> (a, q[k]) !in runnable
  }

  /** The copy stands first in the queue of its pool. */
  ghost predicate StandsFirst(q: seq<Copy>, c: Copy) {
    exists pos :: 0 <= pos < |q| && q[pos] == c && forall k :: 0 <= k < pos ==> q[k].pool != c.pool
  }

  datatype PollCall = PollCall(agent: AgentId, pos: nat, answer: StoreAnswer)

  function PollEvents(t: Tid, p: PollCall): seq<Event> {
    [PollTake(t, p.agent, p.pos), PollStore(t, p.answer), Release(t), PollPutBack(t)]
  }

  function PollsEvents(t: Tid, ps: seq<PollCall>): seq<Event> {
    if ps == [] then [] else PollEvents(t, ps[0]) + PollsEvents(t, ps[1..])
  }

  /** All polls are by agents with a free slot that can run `c`, and take what they find first. */
  ghost predicate PollsOf(s: State, t: Tid, ps: seq<PollCall>, c: Copy, runnable: set<(AgentId, Copy)>)
    decreases |ps|
  {
    ps == [] ||
    (&& HasSlot(s, ps[0].agent) && (ps[0].agent, c) in runnable
     && TakesFirst(s.queue, ps[0].pos, c.pool, ps[0].agent, runnable)
     && PollsOf(PollFailed(s, t, ps[0].agent, ps[0].pos, ps[0].answer), t, ps[1..], c, runnable))
  }

  /** One poll: it takes the dead job, is refused whatever the store's answer, and puts it back at the front. */
  lemma PollIsRefused(s: State, t: Tid, p: PollCall, c: Copy, runnable: set<(AgentId, Copy)>)
    requires Dead(s, c.id) && s.At(t).Idle? && StandsFirst(s.queue, c)
    requires HasSlot(s, p.agent) && (p.agent, c) in runnable && TakesFirst(s.queue, p.pos, c.pool, p.agent, runnable)
    ensures var s' := PollFailed(s, t, p.agent, p.pos, p.answer);
            && Does(s, PollEvents(t, p), s') && Dead(s', c.id) && StandsFirst(s'.queue, c) && s'.At(t).Idle?
            && s' == s.(queue := s'.queue, threads := s'.threads)
  {
    var s' := PollFailed(s, t, p.agent, p.pos, p.answer);
    FailedPollAlone(s, t, p.agent, p.pos, p.answer);
    assert s.queue[p.pos] == c;
    assert LeaseRow(s.rows, c.id, p.agent, c.run) == s.rows;
    assert s'.queue[0] == c;
    DeadIsNeverLeased(s, PollEvents(t, p), c.id);
  }

  /**
   Starvation: while a dead job stands first in its pool's queue, all polls of agents able to run it get nothing, one
   after the other, however many they are and whatever else is queued; nothing but the order of the queue changes.
   */
  lemma {:induction false} PollsStarve(s: State, t: Tid, ps: seq<PollCall>, c: Copy, runnable: set<(AgentId, Copy)>)
    returns (s': State)
    requires Dead(s, c.id) && s.At(t).Idle? && StandsFirst(s.queue, c) && PollsOf(s, t, ps, c, runnable)
    ensures Does(s, PollsEvents(t, ps), s') && StandsFirst(s'.queue, c)
    ensures s' == s.(queue := s'.queue, threads := s'.threads)
    decreases |ps|
  {
    if ps == [] {
      s' := s;
    } else {
      PollIsRefused(s, t, ps[0], c, runnable);
      var s1 := PollFailed(s, t, ps[0].agent, ps[0].pos, ps[0].answer);
      s' := PollsStarve(s1, t, ps[1..], c, runnable);
      DoesMore(s, PollEvents(t, ps[0]), s1, PollsEvents(t, ps[1..]), s');
    }
  }

  // ---------------------------------------------------------------- how it comes about

  lemma ReachOne(s: State, e: Event) returns (s': State)
    requires Reached(s) && Enabled(s, e)
    ensures Reached(s') && s' == Apply(s, e)
  {
    s' := Apply(s, e);
    OneEvent(s, e, s');
    ReachMore(s, [e], s');
  }

  /** A poll holds the copy. */
  lemma TakenByPoll() returns (s: State)
    ensures Reached(s)
    ensures s == State(true, map["a" := Record("pool", "", "run", 0)], [], map["agent" := Agent(1, 1, 0)],
                       map["a" := Row(Pending, "", "run", 0)], map[0 := Idle, 1 := PollHolds("agent", A)], 1,
                       map[0 := "a"], {}, {}, [], map[])
  {
    var s0 := QueuedInTable();
    s := ReachOne(s0, PollTake(1, "agent", 0));
  }

  /** Meanwhile the job is abandoned and its row closed. */
  lemma AbandonedUnderPoll() returns (s: State)
    ensures Reached(s) && s.persistent && s.threads == map[0 := Idle, 1 := PollHolds("agent", A)] && s.queue == []
    ensures s.inFlight == map[] && s.rows == map["a" := Row(Closed, "", "run", 0)]
  {
    var s0 := TakenByPoll();
    var s1 := Abandoned(s0, 0, "pool", "a");
    AbandonAlone(s0, 0, "pool", "a");
    ReachMore(s0, AbandonEvents(s0, 0, "pool", "a"), s1);
    s := s1.(rows := map["a" := Row(Closed, "", "run", 0)]);
    assert ApplyRowClose(s1, "a") == s;
    OneEvent(s1, RowClose("a"), s);
    ReachMore(s1, [RowClose("a")], s);
  }

  /** From the empty server: an abandoned job ends up first in the queue, dead, and without a record. */
  lemma OrphanArises() returns (s: State)
    ensures Reached(s) && Dead(s, "a") && s.queue == [A] && StandsFirst(s.queue, A) && "a" !in s.inFlight
  {
    var s0 := AbandonedUnderPoll();
    var s1 := s0.Go(1, PollRejected("agent", A));
    StoreRefuses(s0, 1, Answered);
    assert ApplyPollStore(s0, 1, Answered) == s1;
    OneEvent(s0, PollStore(1, Answered), s1);
    ReachMore(s0, [PollStore(1, Answered)], s1);
    var s2 := s1.(agents := Decrement(s1.agents, "agent")).Go(1, PollReturns(A));
    s := s2.(queue := [A] + s1.queue).Go(1, Idle);
    ReturnedToFront(s1, 1, "agent", A, s2, s);
    ReachMore(s1, [Release(1)] + ([PollPutBack(1)] + []), s);
    assert s.queue[0] == A;
  }
}
