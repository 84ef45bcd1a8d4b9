/**
 Fencing, with the job table attached: a delivered result comes from the agent and run that hold the lease when
 it is delivered.  The final remove of a completion looks at nothing again, so this needs that no enqueue puts a
 new job under the id of a completion that the table will accept; it holds over every run without such an enqueue.
 */
module LeaseFencing {
  import opened LeaseProtocol
  import opened LeaseRows
  import opened LeaseSteps
  import opened LeaseGrants
  import opened LeaseSafety

  ghost predicate RecordIs(s: State, r: Request) {
    r.id in s.inFlight ==> s.inFlight[r.id].agent == r.agent && s.inFlight[r.id].run == r.run
  }

  /** The table would commit this completion, for the first time or again. */
  predicate Accepts(rows: map<JobId, Row>, r: Request) { CommitDecision(rows, r) == Replay }

  /** A completion of `id` on its way to remove the record, whatever record it finds. */
  predicate Claims(s: State, pc: Pc, id: JobId) { Completing(pc, id) && (s.persistent ==> Accepts(s.rows, pc.request)) }

  /** An enqueue finds no completion that is about to remove the record of its id.  The code does not check this. */
  ghost predicate Uncrossed(s: State, e: Event) {
    e.EnqueueInsert? ==> forall t :: t in s.threads ==> !Claims(s, s.threads[t], e.copy.id)
  }

  ghost predicate UncrossedRun(s: State, es: seq<Event>)
    requires Runs(s, es)
    decreases |es|
  {
    es == [] || (Uncrossed(s, es[0]) && UncrossedRun(Apply(s, es[0]), es[1..]))
  }

  // ---------------------------------------------------------------- the invariant

  /** A completion past its check, as long as the table would commit it, has the record of its lease before it. */
  ghost predicate CompletionOk(s: State, pc: Pc) {
    && (pc.CompleteChecked? ==>
          && pc.request.agent != "" && Anchored(s, pc.request.id, pc.request.run)
          && (Accepts(s.rows, pc.request) ==> RecordIs(s, pc.request)))
    && (pc.CompleteCommitted? ==> pc.request.agent != "" && RecordIs(s, pc.request))
  }

  ghost predicate CompletionsOk(s: State) { forall t :: CompletionOk(s, s.At(t)) }

  ghost predicate FencingOk(s: State) { s.persistent && AcksOk(s) && GrantsOk(s) && CompletionsOk(s) }

  lemma CommittedIsLease(s: State, t: Tid)
    requires FencingOk(s) && s.At(t).CompleteCommitted?
    ensures Accepts(s.rows, s.At(t).request)
  {
    assert BackedByTable(s, s.threads[t]);
  }

  /** A lease that was handed out is never granted again, so the table does not come to accept its completion. */
  lemma AcceptedBefore(s: State, rows: map<JobId, Row>, r: Request)
    requires GrantsOk(s) && Anchored(s, r.id, r.run) && Grows(s.rows, rows) && Accepts(rows, r)
    requires Stuck(s, r.id) ==> Keeps(s.rows[r.id], rows[r.id])
    ensures Accepts(s.rows, r)
  {
    assert LeaseIs(rows, r);
    if Handed(s, r.id, r.run) {
      GrowthKeeps(s.rows, rows, r.id, r.run, r);
    }
  }

  /** No completion begins, and records only go away. */
  lemma CompletionsRest(s: State, s': State)
    requires FencingOk(s) && AnchorsStay(s, s') && Grows(s.rows, s'.rows)
    requires forall id :: Stuck(s, id) ==> Keeps(s.rows[id], s'.rows[id])
    requires forall t :: s'.At(t).CompleteChecked? || s'.At(t).CompleteCommitted? ==> s.At(t) == s'.At(t)
    requires forall id :: id in s'.inFlight ==> id in s.inFlight && s'.inFlight[id] == s.inFlight[id]
    ensures CompletionsOk(s')
  {
    forall t ensures CompletionOk(s', s'.At(t)) {
      var pc := s'.At(t);
      assert CompletionOk(s, s.At(t));
      if pc.CompleteChecked? && Accepts(s'.rows, pc.request) {
        AcceptedBefore(s, s'.rows, pc.request);
      }
    }
  }

  // ---------------------------------------------------------------- one event

  lemma EnqueueFence(s: State, t: Tid, c: Copy)
    requires FencingOk(s) && s.At(t).Idle? && AnchorsStay(s, ApplyEnqueue(s, t, c))
    requires Uncrossed(s, EnqueueInsert(t, c))
    ensures CompletionsOk(ApplyEnqueue(s, t, c))
  {
    var s' := ApplyEnqueue(s, t, c);
    forall u ensures CompletionOk(s', s'.At(u)) {
      assert CompletionOk(s, s.At(u));
      if u != t && s.At(u).CompleteCommitted? { CommittedIsLease(s, u); }
    }
  }

  /** The agent that the poll writes into the record is the one in the row. */
  lemma OwnFence(s: State, t: Tid)
    requires FencingOk(s) && s.At(t).PollLeased? && AnchorsStay(s, ApplyOwn(s, t))
    ensures CompletionsOk(ApplyOwn(s, t))
  {
    var s' := ApplyOwn(s, t);
    assert RowHeld(s.rows, s.At(t).copy.id, s.At(t).agent, s.At(t).copy.run);
    forall u ensures CompletionOk(s', s'.At(u)) {
      assert CompletionOk(s, s.At(u));
      if u != t && s.At(u).CompleteCommitted? { CommittedIsLease(s, u); }
    }
  }

  /** A reclaim replaces a record only after the table has left its run. */
  lemma ReplaceFence(s: State, t: Tid)
    requires FencingOk(s) && s.At(t).ReclaimPersisted? && AnchorsStay(s, ApplyReclaimReplace(s, t))
    ensures CompletionsOk(ApplyReclaimReplace(s, t))
  {
    var s' := ApplyReclaimReplace(s, t);
    var c := s.At(t).copy;
    assert BackedByTable(s, s.threads[t]);
    assert Extends(s.rows[c.id].run, c.run);
    forall u ensures CompletionOk(s', s'.At(u)) {
      assert CompletionOk(s, s.At(u));
      if u != t && s.At(u).CompleteCommitted? { CommittedIsLease(s, u); }
    }
  }

  lemma LookupFence(s: State, t: Tid, r: Request)
    requires FencingOk(s) && AnchorsStay(s, ApplyLookup(s, t, r))
    ensures CompletionsOk(ApplyLookup(s, t, r))
  {
    var s' := ApplyLookup(s, t, r);
    forall u ensures CompletionOk(s', s'.At(u)) {
      if u != t {
        assert CompletionOk(s, s.At(u));
      } else if s'.At(t).CompleteChecked? {
        assert HasLease(s, r.id) && Anchored(s, r.id, r.run);
      }
    }
  }

  /** The commit goes through only while the row is the request's lease. */
  lemma CommitNeedsLease(s: State, t: Tid, answer: StoreAnswer)
    requires s.persistent && (s.At(t).CompleteChecked? || s.At(t).CompleteAbsent?)
    ensures var s' := ApplyCommit(s, t, answer);
            && RowsKept(s.rows, s'.rows) && s'.inFlight == s.inFlight && !s'.At(t).CompleteChecked?
            && (s'.At(t).CompleteCommitted? ==>
                  s.At(t) == CompleteChecked(s'.At(t).request) && Accepts(s.rows, s'.At(t).request))
  {
    TableKeeps(s.rows, "", "", "", s.At(t).request);
  }

  lemma CommitFence(s: State, t: Tid, answer: StoreAnswer)
    requires FencingOk(s) && (s.At(t).CompleteChecked? || s.At(t).CompleteAbsent?)
    requires AnchorsStay(s, ApplyCommit(s, t, answer))
    ensures CompletionsOk(ApplyCommit(s, t, answer))
  {
    var s' := ApplyCommit(s, t, answer);
    CommitNeedsLease(s, t, answer);
    assert CompletionOk(s, s.At(t));
    forall u | u != t ensures CompletionOk(s', s'.At(u)) {
      assert s'.At(u) == s.At(u) && CompletionOk(s, s.At(u));
      if s.At(u).CompleteChecked? && Accepts(s'.rows, s.At(u).request) {
        AcceptedBefore(s, s'.rows, s.At(u).request);
      }
    }
  }

  /** A stuck row keeps its lease. */
  lemma StuckKeeps(s: State, e: Event, id: JobId)
    requires GrantsOk(s) && Enabled(s, e) && UsesTable(e) && Stuck(s, id)
    ensures id in Apply(s, e).rows && Keeps(s.rows[id], Apply(s, e).rows[id])
  {
    match e
    case RowInsert(i, run) => RowInsertKeeps(s, i, run);
    case RowClose(i) => RowCloseKeeps(s, i);
    case PollStore(t, answer) => StoreKeeps(s, t, answer);
    case CompleteLookup(t, r) =>
    case CompleteCommit(t, answer) => CommitRests(s, t, answer);
    case ReclaimStore(t, suffix, answer) => RequeueKeeps(s, t, suffix, answer, id);
  }

  lemma StoreKeeps(s: State, t: Tid, answer: StoreAnswer)
    requires s.At(t).PollHolds?
    ensures RowsKept(s.rows, ApplyPollStore(s, t, answer).rows)
  {
    TableKeeps(s.rows, s.At(t).copy.id, s.At(t).agent, s.At(t).copy.run, Request("", "", "", 0));
  }

  lemma RequeueKeeps(s: State, t: Tid, suffix: string, answer: StoreAnswer, id: JobId)
    requires s.At(t).ReclaimCandidate? && Stuck(s, id)
    ensures var s' := ApplyReclaimStore(s, t, suffix, answer); id in s'.rows && s'.rows[id] == s.rows[id]
  {
    assert Reclaiming(s, s.At(t).copy.id, s.At(t).copy.run);
  }

  lemma TableFence(s: State, e: Event)
    requires FencingOk(s) && Enabled(s, e) && UsesTable(e) && !e.CompleteLookup? && !e.CompleteCommit?
    requires AnchorsStay(s, Apply(s, e))
    ensures CompletionsOk(Apply(s, e))
  {
    var s' := Apply(s, e);
    TableSteady(s, e);
    forall id | Stuck(s, id) ensures Keeps(s.rows[id], s'.rows[id]) { StuckKeeps(s, e, id); }
    forall t | s'.At(t).CompleteChecked? || s'.At(t).CompleteCommitted? ensures s.At(t) == s'.At(t) {
      if e.PollStore? {
        StoredPc(s, e.t, e.answer);
        if t != e.t { OthersUntouched(s, e, t); }
      } else {
        NothingBegins(s, e, t);
      }
    }
    CompletionsRest(s, s');
  }

  lemma StoredPc(s: State, t: Tid, answer: StoreAnswer)
    requires s.At(t).PollHolds?
    ensures ApplyPollStore(s, t, answer).At(t).PollLeased? || ApplyPollStore(s, t, answer).At(t).PollRejected?
  {
  }

  lemma PlainFence(s: State, e: Event)
    requires FencingOk(s) && Enabled(s, e) && !UsesTable(e) && !e.EnqueueInsert? && !e.PollOwn? && !e.ReclaimReplace?
    requires AnchorsStay(s, Apply(s, e))
    ensures CompletionsOk(Apply(s, e))
  {
    var s' := Apply(s, e);
    PlainSteady(s, e);
    SameRows(s, e);
    forall t | s'.At(t).CompleteChecked? || s'.At(t).CompleteCommitted? ensures s.At(t) == s'.At(t) {
      if e.ReclaimSnapshot? {
        if t != e.t { OthersUntouched(s, e, t); }
      } else {
        NothingBegins(s, e, t);
      }
    }
    CompletionsRest(s, s');
  }

  lemma FencingStep(s: State, e: Event)
    requires FencingOk(s) && Enabled(s, e) && Uncrossed(s, e)
    ensures FencingOk(Apply(s, e))
  {
    AcksStep(s, e);
    GrantsStep(s, e);
    if e.EnqueueInsert? {
      EnqueueFence(s, e.t, e.copy);
    } else if e.PollOwn? {
      OwnFence(s, e.t);
    } else if e.ReclaimReplace? {
      ReplaceFence(s, e.t);
    } else if e.CompleteLookup? {
      LookupFence(s, e.t, e.request);
    } else if e.CompleteCommit? {
      CommitFence(s, e.t, e.answer);
    } else if UsesTable(e) {
      TableFence(s, e);
    } else {
      PlainFence(s, e);
    }
  }

  /** An enqueue keeps fencing exactly when no completion that the table will accept is under way for its id. */
  lemma EnqueueNeedsNoClaim(s: State, t: Tid, c: Copy)
    requires FencingOk(s) && s.At(t).Idle?
    ensures FencingOk(ApplyEnqueue(s, t, c)) <==> Uncrossed(s, EnqueueInsert(t, c))
  {
    var s' := ApplyEnqueue(s, t, c);
    if Uncrossed(s, EnqueueInsert(t, c)) {
      FencingStep(s, EnqueueInsert(t, c));
    } else {
      var u :| u in s.threads && Claims(s, s.threads[u], c.id);
      assert CompletionOk(s, s.At(u));
      assert !CompletionOk(s', s'.At(u));
    }
  }

  // ---------------------------------------------------------------- over runs

  lemma FencingInit()
    ensures FencingOk(Init(true))
  {
  }

  lemma {:induction false} FencingAlways(s: State, es: seq<Event>)
    requires FencingOk(s) && Runs(s, es) && UncrossedRun(s, es)
    ensures FencingOk(After(s, es))
    decreases |es|
  {
    if es != [] {
      FencingStep(s, es[0]);
      FencingAlways(Apply(s, es[0]), es[1..]);
    }
  }

  /** With the job table, the record a completion removes is exactly the lease named by its request. */
  lemma DeliveredByLeaseHolder(es: seq<Event>, t: Tid)
    requires Runs(Init(true), es) && UncrossedRun(Init(true), es) && After(Init(true), es).At(t).CompleteCommitted?
    ensures var s := After(Init(true), es);
            var r := s.At(t).request;
            r.id in s.inFlight ==> s.inFlight[r.id].agent == r.agent && s.inFlight[r.id].run == r.run
  {
    FencingInit();
    FencingAlways(Init(true), es);
    assert CompletionOk(After(Init(true), es), After(Init(true), es).At(t));
  }
}
