/**
 Leases and the job table, over every run whatever: also when enqueues overwrite or revive earlier jobs of
 their id.  The table grants each run of a job at most once; a poll between the grant and the record holds
 exactly the row's current lease; and a record, or a reclaim that looked at one, names a lease that was handed
 out, unless the job's row can never move again.
 */
module LeaseGrants {
  import opened LeaseProtocol
  import opened LeaseRows
  import opened LeaseSteps

  ghost predicate Handed(s: State, id: JobId, run: RunId) {
    exists h :: h in s.handed && h.id == id && h.run == run
  }

  /** The row is the lease of `run` to `agent`, finished or not. */
  ghost predicate RowHeld(rows: map<JobId, Row>, id: JobId, agent: AgentId, run: RunId) {
    id in rows && rows[id].phase != Pending && rows[id].agent == agent && rows[id].run == run
  }

  /** Handed leases, and leases about to be, are past pending in the table, and no two are of one run. */
  ghost predicate OncePerRun(s: State) {
    && (forall h :: h in s.handed ==> Past(s.rows, h.id, h.run))
    && (forall h, h' :: h in s.handed && h' in s.handed && h.id == h'.id && h.run == h'.run ==> h == h')
    && (forall t :: s.At(t).PollLeased? ==> !Handed(s, s.At(t).copy.id, s.At(t).copy.run))
    && (forall t, u :: t != u && s.At(t).PollLeased? && s.At(u).PollLeased? ==> s.At(t).copy.id != s.At(u).copy.id)
  }

  /** A handler is about to reclaim this run of the job. */
  ghost predicate Reclaiming(s: State, id: JobId, run: RunId) {
    exists t :: s.At(t).ReclaimCandidate? && s.At(t).copy.id == id && s.At(t).copy.run == run
  }

  /**
   The current run of the row was handed out, but neither the record nor a reclaim under way names it: the row
   can only be finished or closed.  An enqueue between the table's grant and the poll's last step does this.
   */
  ghost predicate Stuck(s: State, id: JobId) {
    && id in s.rows && s.rows[id].phase != Pending
    && Handed(s, id, s.rows[id].run) && !Reclaiming(s, id, s.rows[id].run)
    && (HasLease(s, id) ==> s.inFlight[id].run != s.rows[id].run)
  }

  ghost predicate Anchored(s: State, id: JobId, run: RunId) { Handed(s, id, run) || Stuck(s, id) }

  ghost predicate AnchorsStay(s: State, s': State) {
    forall id, run :: Anchored(s, id, run) ==> Anchored(s', id, run)
  }

  ghost predicate GrantsOk(s: State) {
    && OncePerRun(s)
    && (forall t :: s.At(t).PollLeased? ==> RowHeld(s.rows, s.At(t).copy.id, s.At(t).agent, s.At(t).copy.run))
    && (forall t :: s.At(t).ReclaimCandidate? ==> Anchored(s, s.At(t).copy.id, s.At(t).copy.run))
    && (forall id :: HasLease(s, id) ==> Anchored(s, id, s.inFlight[id].run))
  }

  // ---------------------------------------------------------------- rows that keep their lease

  /** A row past pending keeps its run and agent, and stays past pending. */
  ghost predicate Keeps(row: Row, row': Row) {
    row.phase != Pending ==> row'.phase != Pending && row'.run == row.run && row'.agent == row.agent
  }

  ghost predicate RowsKept(rows: map<JobId, Row>, rows': map<JobId, Row>) {
    Grows(rows, rows') && forall id :: id in rows ==> Keeps(rows[id], rows'[id])
  }

  lemma TableKeeps(rows: map<JobId, Row>, id: JobId, agent: AgentId, run: RunId, r: Request)
    ensures RowsKept(rows, rows) && RowsKept(rows, LeaseRow(rows, id, agent, run)) && RowsKept(rows, CommitRow(rows, r))
  {
    TableGrows(rows, id, agent, run, "", r);
  }

  lemma RowInsertKeeps(s: State, id: JobId, run: RunId)
    ensures RowsKept(s.rows, ApplyRowInsert(s, id, run).rows)
  {
    RowEventRows(s, id, run);
  }

  lemma RowCloseKeeps(s: State, id: JobId)
    ensures RowsKept(s.rows, ApplyRowClose(s, id).rows)
  {
    RowEventRows(s, id, "");
  }

  // ---------------------------------------------------------------- events that make no lease

  /** No lease is granted, handed out or noted, and no row is requeued. */
  ghost predicate NoNewLease(s: State, s': State) {
    && RowsKept(s.rows, s'.rows) && s'.handed == s.handed
    && (forall t :: s'.At(t).PollLeased? || s'.At(t).ReclaimCandidate? ==> s.At(t) == s'.At(t))
    && (forall id :: HasLease(s', id) ==> HasLease(s, id) && s'.inFlight[id].run == s.inFlight[id].run)
  }

  lemma StuckRests(s: State, s': State, id: JobId)
    requires NoNewLease(s, s') && Stuck(s, id)
    ensures Stuck(s', id)
  {
    assert Keeps(s.rows[id], s'.rows[id]);
    assert Handed(s', id, s'.rows[id].run);
  }

  lemma AnchoredRests(s: State, s': State, id: JobId, run: RunId)
    requires NoNewLease(s, s') && Anchored(s, id, run)
    ensures Anchored(s', id, run)
  {
    if Stuck(s, id) { StuckRests(s, s', id); }
  }

  lemma GrantsRest(s: State, s': State)
    requires GrantsOk(s) && NoNewLease(s, s')
    ensures GrantsOk(s') && AnchorsStay(s, s')
  {
    forall id, run | Anchored(s, id, run) ensures Anchored(s', id, run) { AnchoredRests(s, s', id, run); }
    forall h | h in s'.handed ensures Past(s'.rows, h.id, h.run) { PastStays(s.rows, s'.rows, h.id, h.run); }
    forall t | s'.At(t).PollLeased?
      ensures RowHeld(s'.rows, s'.At(t).copy.id, s'.At(t).agent, s'.At(t).copy.run)
      ensures !Handed(s', s'.At(t).copy.id, s'.At(t).copy.run)
    {
      assert s.At(t).PollLeased?;
      assert Keeps(s.rows[s.At(t).copy.id], s'.rows[s.At(t).copy.id]);
    }
    forall t | s'.At(t).ReclaimCandidate? ensures Anchored(s', s'.At(t).copy.id, s'.At(t).copy.run) {
      assert Anchored(s, s.At(t).copy.id, s.At(t).copy.run);
    }
    forall id | HasLease(s', id) ensures Anchored(s', id, s'.inFlight[id].run) {
      assert Anchored(s, id, s.inFlight[id].run);
    }
  }

  lemma LookupRests(s: State, t: Tid, r: Request)
    ensures NoNewLease(s, ApplyLookup(s, t, r))
  {
    TableKeeps(s.rows, "", "", "", r);
  }

  lemma CommitRests(s: State, t: Tid, answer: StoreAnswer)
    requires s.At(t).CompleteChecked? || s.At(t).CompleteAbsent?
    ensures NoNewLease(s, ApplyCommit(s, t, answer))
  {
    TableKeeps(s.rows, "", "", "", s.At(t).request);
  }

  lemma TableEventRests(s: State, e: Event)
    requires Enabled(s, e) && UsesTable(e) && !e.PollStore? && !e.ReclaimStore?
    ensures NoNewLease(s, Apply(s, e))
  {
    match e
    case RowInsert(id, run) => RowInsertKeeps(s, id, run);
    case RowClose(id) => RowCloseKeeps(s, id);
    case CompleteLookup(t, r) => LookupRests(s, t, r);
    case CompleteCommit(t, answer) => CommitRests(s, t, answer);
  }

  lemma PlainEventRests(s: State, e: Event)
    requires Enabled(s, e) && !UsesTable(e) && !e.PollOwn? && !e.ReclaimSnapshot?
    ensures NoNewLease(s, Apply(s, e))
  {
    var s' := Apply(s, e);
    TableKeeps(s.rows, "", "", "", Request("", "", "", 0));
    forall u | !Quiet(s'.At(u)) ensures s.At(u) == s'.At(u) { NothingBegins(s, e, u); }
    OnlyPollHands(s, e);
    SameRows(s, e);
    NoLeaseMade(s, e);
  }

  lemma NoLeaseMade(s: State, e: Event)
    requires Enabled(s, e) && !UsesTable(e) && !e.PollOwn?
    ensures forall id :: HasLease(Apply(s, e), id) ==>
                           HasLease(s, id) && Apply(s, e).inFlight[id].run == s.inFlight[id].run
  {
    if e.EnqueueInsert? {
      assert forall id :: HasLease(ApplyEnqueue(s, e.t, e.copy), id) ==> id != e.copy.id && HasLease(s, id);
    } else if e.ReclaimReplace? {
      ReplaceMakesNone(s, e.t);
    } else {
      OthersOnlyRemove(s, e);
    }
  }

  lemma ReplaceMakesNone(s: State, t: Tid)
    requires s.At(t).ReclaimPersisted?
    ensures var s' := ApplyReclaimReplace(s, t);
            forall id :: HasLease(s', id) ==> HasLease(s, id) && s'.inFlight[id].run == s.inFlight[id].run
  {
  }

  lemma SameRows(s: State, e: Event)
    requires Enabled(s, e) && !UsesTable(e)
    ensures Apply(s, e).rows == s.rows
  {
  }

  // ---------------------------------------------------------------- events that do

  lemma RowsRest(s: State, rows: map<JobId, Row>)
    requires GrantsOk(s) && RowsKept(s.rows, rows)
    ensures GrantsOk(s.(rows := rows)) && AnchorsStay(s, s.(rows := rows))
  {
    var s' := s.(rows := rows);
    assert forall t :: s'.At(t) == s.At(t);
    assert NoNewLease(s, s');
    GrantsRest(s, s');
  }

  /** A handler moves on to a quiet place, and runs may be noted as reclaimed. */
  lemma HandlerRests(s: State, t: Tid, pc: Pc, reclaimed: set<(JobId, RunId)>)
    requires GrantsOk(s) && Quiet(pc)
    ensures GrantsOk(s.(reclaimed := reclaimed).Go(t, pc)) && AnchorsStay(s, s.(reclaimed := reclaimed).Go(t, pc))
  {
    var s' := s.(reclaimed := reclaimed).Go(t, pc);
    TableKeeps(s.rows, "", "", "", Request("", "", "", 0));
    assert forall u :: u != t ==> s'.At(u) == s.At(u);
    assert NoNewLease(s, s');
    GrantsRest(s, s');
  }

  lemma GrantStored(s: State, t: Tid, answer: StoreAnswer)
    requires GrantsOk(s) && s.persistent && s.At(t).PollHolds?
    ensures GrantsOk(ApplyPollStore(s, t, answer)) && AnchorsStay(s, ApplyPollStore(s, t, answer))
  {
    var PollHolds(a, c) := s.At(t);
    TableKeeps(s.rows, c.id, a, c.run, Request("", "", "", 0));
    var s1 := if answer.ErrorDropped? then s else s.(rows := LeaseRow(s.rows, c.id, a, c.run));
    RowsRest(s, LeaseRow(s.rows, c.id, a, c.run));
    if answer.Answered? && CanLease(s.rows, c.id, c.run) {
      GrantMade(s, s1, t, a, c);
    } else {
      HandlerRests(s1, t, PollRejected(a, c), s1.reclaimed);
    }
  }

  /** The table grants a lease only of a run that it never granted before. */
  lemma GrantMade(s: State, s1: State, t: Tid, a: AgentId, c: Copy)
    requires GrantsOk(s) && CanLease(s.rows, c.id, c.run) && GrantsOk(s1)
    requires s1 == s.(rows := LeaseRow(s.rows, c.id, a, c.run))
    ensures GrantsOk(s1.Go(t, PollLeased(a, c))) && AnchorsStay(s1, s1.Go(t, PollLeased(a, c)))
  {
    var s' := s1.Go(t, PollLeased(a, c));
    assert !Past(s.rows, c.id, c.run);
    assert forall id, run :: Handed(s', id, run) == Handed(s, id, run);
    forall u | u != t && s.At(u).PollLeased? ensures s.At(u).copy.id != c.id {
      assert RowHeld(s.rows, s.At(u).copy.id, s.At(u).agent, s.At(u).copy.run);
    }
    forall u | u != t ensures s'.At(u) == s1.At(u) == s.At(u) {}
    forall id, run | Anchored(s1, id, run) ensures Anchored(s', id, run) {}
  }

  lemma CandidateNoted(s: State, t: Tid, id: JobId)
    requires GrantsOk(s) && HasLease(s, id)
    ensures GrantsOk(ApplySnapshot(s, t, id)) && AnchorsStay(s, ApplySnapshot(s, t, id))
  {
    var s' := ApplySnapshot(s, t, id);
    forall u | u != t ensures s'.At(u) == s.At(u) {}
    assert forall i, run :: Handed(s', i, run) == Handed(s, i, run);
    forall i | Stuck(s, i) ensures Stuck(s', i) {}
    forall u | s'.At(u).ReclaimCandidate? ensures Anchored(s', s'.At(u).copy.id, s'.At(u).copy.run) {
      if u != t { assert Anchored(s, s.At(u).copy.id, s.At(u).copy.run); }
    }
  }

  /** A reclaim under way for the row's current run means that the run was handed out and the row is not stuck. */
  lemma CandidateIsHanded(s: State, t: Tid)
    requires GrantsOk(s) && s.At(t).ReclaimCandidate?
    requires CanRequeue(s.rows, s.At(t).copy.id, s.At(t).agent, s.At(t).copy.run)
    ensures var c := s.At(t).copy;
            && !Stuck(s, c.id) && Handed(s, c.id, c.run)
            && forall u :: s.At(u).PollLeased? ==> s.At(u).copy.id != c.id
  {
    var c := s.At(t).copy;
    assert Reclaiming(s, c.id, c.run);
    forall u | s.At(u).PollLeased? ensures s.At(u).copy.id != c.id {
      assert RowHeld(s.rows, s.At(u).copy.id, s.At(u).agent, s.At(u).copy.run);
    }
  }

  lemma RequeuedAnchors(s: State, t: Tid, rows: map<JobId, Row>, pc: Pc, id: JobId)
    requires !Stuck(s, id) && Quiet(pc) && forall i :: i != id && i in s.rows ==> i in rows && rows[i] == s.rows[i]
    ensures AnchorsStay(s, s.(rows := rows).Go(t, pc))
  {
    var s' := s.(rows := rows).Go(t, pc);
    assert forall i, run :: Handed(s', i, run) == Handed(s, i, run);
    forall i | Stuck(s, i) ensures Stuck(s', i) {
      assert forall u :: s'.At(u).ReclaimCandidate? ==> s.At(u) == s'.At(u);
    }
  }

  /** A row leaves its run only when its lease was handed out, so no poll is about to hand it out. */
  lemma RowRequeues(s: State, t: Tid, suffix: string, pc: Pc)
    requires GrantsOk(s) && s.At(t).ReclaimCandidate? && Quiet(pc)
    requires CanRequeue(s.rows, s.At(t).copy.id, s.At(t).agent, s.At(t).copy.run)
    ensures var ReclaimCandidate(a, c) := s.At(t);
            var s' := s.(rows := RequeueRow(s.rows, c.id, a, c.run, c.run + RECLAIM_MARK + suffix)).Go(t, pc);
            GrantsOk(s') && AnchorsStay(s, s')
  {
    var ReclaimCandidate(a, c) := s.At(t);
    var rows := RequeueRow(s.rows, c.id, a, c.run, c.run + RECLAIM_MARK + suffix);
    var s' := s.(rows := rows).Go(t, pc);
    TableGrows(s.rows, c.id, a, c.run, suffix, Request("", "", "", 0));
    CandidateIsHanded(s, t);
    RequeuedAnchors(s, t, rows, pc, c.id);
    forall u | u != t ensures s'.At(u) == s.At(u) {}
    forall h | h in s'.handed ensures Past(rows, h.id, h.run) { PastStays(s.rows, rows, h.id, h.run); }
    assert forall i, run :: Handed(s', i, run) == Handed(s, i, run);
  }

  lemma CandidateStored(s: State, t: Tid, suffix: string, answer: StoreAnswer)
    requires GrantsOk(s) && s.persistent && s.At(t).ReclaimCandidate?
    ensures GrantsOk(ApplyReclaimStore(s, t, suffix, answer)) && AnchorsStay(s, ApplyReclaimStore(s, t, suffix, answer))
  {
    var ReclaimCandidate(a, c) := s.At(t);
    var newRun := c.run + RECLAIM_MARK + suffix;
    var ok := CanRequeue(s.rows, c.id, a, c.run);
    var pc := if answer.Answered? && ok then ReclaimPersisted(a, c, newRun) else Idle;
    if ok && !answer.ErrorDropped? {
      RowRequeues(s, t, suffix, pc);
      HandlerRests(s.(rows := RequeueRow(s.rows, c.id, a, c.run, newRun)).Go(t, pc), t, pc,
                   s.reclaimed + {(c.id, c.run)});
      assert s.threads[t := pc][t := pc] == s.threads[t := pc];
    } else {
      HandlerRests(s, t, pc, s.reclaimed);
    }
  }

  /** The lease is handed out; if the record is under another run by now, the row is stuck. */
  lemma LeaseNoted(s: State, t: Tid)
    requires GrantsOk(s) && s.At(t).PollLeased? && s.At(t).copy.id in s.inFlight
    ensures GrantsOk(ApplyOwn(s, t)) && AnchorsStay(s, ApplyOwn(s, t))
  {
    var PollLeased(a, c) := s.At(t);
    var s' := ApplyOwn(s, t);
    forall u | u != t ensures s'.At(u) == s.At(u) {}
    assert RowHeld(s.rows, c.id, a, c.run) && !Handed(s, c.id, c.run) && !Stuck(s, c.id);
    NewlyHanded(s, t);
    forall i, run | Anchored(s, i, run) ensures Anchored(s', i, run) {}
    if s.inFlight[c.id].run != c.run {
      assert !Reclaiming(s, c.id, c.run);
      assert Stuck(s', c.id);
    }
  }

  lemma NewlyHanded(s: State, t: Tid)
    requires s.At(t).PollLeased? && s.At(t).copy.id in s.inFlight
    ensures var PollLeased(a, c) := s.At(t);
            forall i, run :: Handed(ApplyOwn(s, t), i, run) <==> Handed(s, i, run) || (i == c.id && run == c.run)
  {
    var PollLeased(a, c) := s.At(t);
    assert Lease(a, c.id, c.run, s.inFlight[c.id].sender) in ApplyOwn(s, t).handed;
  }

  lemma LeaseTaken(s: State, t: Tid)
    requires GrantsOk(s) && s.At(t).PollLeased?
    ensures GrantsOk(ApplyOwn(s, t)) && AnchorsStay(s, ApplyOwn(s, t))
  {
    if s.At(t).copy.id in s.inFlight {
      LeaseNoted(s, t);
    } else {
      HandlerRests(s, t, PollUndo(s.At(t).agent), s.reclaimed);
    }
  }

  lemma GrantsStep(s: State, e: Event)
    requires GrantsOk(s) && s.persistent && Enabled(s, e)
    ensures GrantsOk(Apply(s, e)) && AnchorsStay(s, Apply(s, e))
  {
    if e.PollStore? {
      GrantStored(s, e.t, e.answer);
    } else if e.PollOwn? {
      LeaseTaken(s, e.t);
    } else if e.ReclaimSnapshot? {
      CandidateNoted(s, e.t, e.id);
    } else if e.ReclaimStore? {
      CandidateStored(s, e.t, e.suffix, e.answer);
    } else {
      if UsesTable(e) { TableEventRests(s, e); } else { PlainEventRests(s, e); }
      GrantsRest(s, Apply(s, e));
    }
  }

  lemma {:induction false} GrantsAlways(s: State, es: seq<Event>)
    requires GrantsOk(s) && s.persistent && Runs(s, es)
    ensures GrantsOk(After(s, es))
    decreases |es|
  {
    if es != [] {
      GrantsStep(s, es[0]);
      GrantsAlways(Apply(s, es[0]), es[1..]);
    }
  }

  /**
   With the job table, over every run whatever: a lease about to be handed out is the one in its row, and of a
   run of its job that was never handed out before.
   */
  lemma HandoutIsOfANewRun(es: seq<Event>, t: Tid)
    requires Runs(Init(true), es) && After(Init(true), es).At(t).PollLeased?
    ensures var s := After(Init(true), es);
            var PollLeased(a, c) := s.At(t);
            RowHeld(s.rows, c.id, a, c.run) && !Handed(s, c.id, c.run)
  {
    GrantsAlways(Init(true), es);
  }
}
