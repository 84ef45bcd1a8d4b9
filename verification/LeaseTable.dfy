/**
 What the statements of the job table and the registry do, on the fields of rows and agents, with the errors that may
 hide whether a statement was applied; and which step every handler of the protocol can take next.
 */
module LeaseTable {
  import opened LeaseProtocol

  // ---------------------------------------------------------------- the job table

  /** A lease is granted exactly to a pending row under the run of the copy; an error gives the copy back in any case. */
  lemma GrantMeans(s: State, t: Tid, answer: StoreAnswer)
    requires s.persistent && s.At(t).PollHolds?
    ensures var s' := Apply(s, PollStore(t, answer));
            var PollHolds(a, c) := s.At(t);
            var grants := c.id in s.rows && s.rows[c.id].phase.Pending? && s.rows[c.id].run == c.run;
            && s'.At(t) == (if grants && answer.Answered? then PollLeased(a, c) else PollRejected(a, c))
            && (grants && !answer.ErrorDropped? ==> s'.rows == s.rows[c.id := Row(Leased, a, c.run, s.rows[c.id].checksum)])
            && (!grants || answer.ErrorDropped? ==> s'.rows == s.rows)
            && s'.inFlight == s.inFlight && s'.queue == s.queue && s'.agents == s.agents
  {
  }

  /**
   A row is requeued exactly when it is the lease of the snapshot: pending under the longer run, without an agent and
   without the checksum of a completion.  The candidate goes on exactly when the table says so.
   */
  lemma RequeueMeans(s: State, t: Tid, suffix: string, answer: StoreAnswer)
    requires s.persistent && s.At(t).ReclaimCandidate?
    ensures var s' := Apply(s, ReclaimStore(t, suffix, answer));
            var ReclaimCandidate(a, c) := s.At(t);
            var run := c.run + ":reclaim:" + suffix;
            var stale := c.id in s.rows && s.rows[c.id] == Row(Leased, a, c.run, s.rows[c.id].checksum);
            && s'.At(t) == (if stale && answer.Answered? then ReclaimPersisted(a, c, run) else Idle)
            && s'.rows == (if stale && !answer.ErrorDropped? then s.rows[c.id := Row(Pending, "", run, 0)] else s.rows)
            && s'.inFlight == s.inFlight && s'.queue == s.queue && s'.agents == s.agents
  {
  }

  /**
   A completion is taken exactly from the row that it has the lease of, or that it completed before with the same content;
   only the former is a change.
   */
  lemma CommitMeans(s: State, t: Tid, answer: StoreAnswer)
    requires s.persistent && (s.At(t).CompleteChecked? || s.At(t).CompleteAbsent?)
    ensures var s' := Apply(s, CompleteCommit(t, answer));
            var r := s.At(t).request;
            var leased := r.id in s.rows && s.rows[r.id] == Row(Leased, r.agent, r.run, s.rows[r.id].checksum);
            var again := r.id in s.rows && s.rows[r.id] == Row(Completed, r.agent, r.run, r.checksum);
            && s'.rows == (if leased && !answer.ErrorDropped? then s.rows[r.id := Row(Completed, r.agent, r.run, r.checksum)]
                           else s.rows)
            && (answer.Answered? && (leased || again) && s.At(t).CompleteChecked? ==> s'.At(t) == CompleteCommitted(r))
            && (!(answer.Answered? && (leased || again) && s.At(t).CompleteChecked?) ==>
                  && s'.At(t) == Idle && t in s'.replies
                  && s'.replies[t] == Reply(r,
                                            if !answer.Answered? then Unavailable
                                            else if leased || again then DuplicateAccepted
                                            else if s.At(t).CompleteChecked? && r.id in s.rows then CompletionConflict
                                            else UnknownJob))
  {
  }

  /** A row is inserted once, pending; it is closed unless it is completed or closed, and keeps its lease. */
  lemma RowsMean(s: State, id: JobId, run: RunId)
    requires s.persistent
    ensures Apply(s, RowInsert(id, run)).rows == (if id in s.rows then s.rows else s.rows[id := Row(Pending, "", run, 0)])
    ensures var s' := Apply(s, RowClose(id));
            && s'.rows.Keys == s.rows.Keys && (forall k :: k in s.rows && k != id ==> s'.rows[k] == s.rows[k])
            && (id in s.rows ==>
                  s'.rows[id] == Row(if s.rows[id].phase in {Pending, Leased} then Closed else s.rows[id].phase,
                                     s.rows[id].agent, s.rows[id].run, s.rows[id].checksum))
  {
  }

  // ---------------------------------------------------------------- the registry

  /** A registration starts without any load; a heartbeat reports one and leaves the reservations alone. */
  lemma RegistryMeans(s: State, a: AgentId, b: AgentId, n: nat)
    requires a != "" && b in s.agents
    ensures var s' := Apply(s, Register(a, n));
            && s'.agents.Keys == s.agents.Keys + {a} && s'.agents[a] == Agent(n, 0, 0)
            && (forall c :: c in s.agents && c != a ==> s'.agents[c] == s.agents[c])
            && s' == s.(agents := s'.agents)
    ensures var s' := Apply(s, Heartbeat(b, n));
            && s'.agents.Keys == s.agents.Keys
            && s'.agents[b] == Agent(s.agents[b].maxConcurrent, s.agents[b].reserved, n)
            && (forall c :: c in s.agents && c != b ==> s'.agents[c] == s.agents[c])
            && s' == s.(agents := s'.agents)
  {
  }

  // ---------------------------------------------------------------- every handler has a step

  /** What may begin: a poll exactly with a free slot by both of its agent's figures, a reclaim exactly of a lease. */
  lemma IdleMayBegin(s: State, t: Tid)
    requires s.At(t).Idle?
    ensures forall c :: Enabled(s, EnqueueInsert(t, c))
    ensures forall pool, id :: Enabled(s, AbandonRemove(t, pool, id))
    ensures forall r :: Enabled(s, CompleteLookup(t, r)) <==> t !in s.replies
    ensures forall id :: Enabled(s, ReclaimSnapshot(t, id)) <==> id in s.inFlight && s.inFlight[id].agent != ""
    ensures forall a, pos: nat :: Enabled(s, PollTake(t, a, pos)) <==>
                             && pos < |s.queue| && a in s.agents
                             && var x := s.agents[a];
                             && (x.reserved < x.maxConcurrent || (x.maxConcurrent == 0 && x.reserved == 0))
                             && (x.reported < x.maxConcurrent || (x.maxConcurrent == 0 && x.reported == 0))
  {
  }

  /** The next operation of a handler that is under way. */
  function NextOperation(t: Tid, pc: Pc, suffix: string, answer: StoreAnswer): Event
    requires !pc.Idle?
  {
    match pc
    case EnqueueHolds(_) => PushBack(t)
    case PollHolds(_, _) => PollStore(t, answer)
    case PollLeased(_, _) => PollOwn(t)
    case PollRejected(_, _) => Release(t)
    case PollReturns(_) => PollPutBack(t)
    case PollUndo(_) => Release(t)
    case CompleteAbsent(_) => CompleteCommit(t, answer)
    case CompleteChecked(_) => CompleteCommit(t, answer)
    case CompleteCommitted(_) => CompleteRemove(t)
    case CompleteRemoved(_, _, _) => Release(t)
    case CompleteSends(_, _) => CompleteSend(t)
    case ReclaimCandidate(_, _) => ReclaimStore(t, suffix, answer)
    case ReclaimPersisted(_, _, _) => ReclaimReplace(t)
    case ReclaimReplaced(_, _) => PushBack(t)
    case ReclaimPushed(_) => Release(t)
    case AbandonRemoved(_, _, _) => Release(t)
    case AbandonPurges(_, _) => AbandonPurge(t)
  }

  /** How many operations a handler has left at most. */
  function Remaining(pc: Pc): nat {
    match pc
    case Idle => 0
    case EnqueueHolds(_) => 1
    case PollHolds(_, _) => 4
    case PollLeased(_, _) => 2
    case PollRejected(_, _) => 2
    case PollReturns(_) => 1
    case PollUndo(_) => 1
    case CompleteAbsent(_) => 1
    case CompleteChecked(_) => 4
    case CompleteCommitted(_) => 3
    case CompleteRemoved(_, _, _) => 2
    case CompleteSends(_, _) => 1
    case ReclaimCandidate(_, _) => 4
    case ReclaimPersisted(_, _, _) => 3
    case ReclaimReplaced(_, _) => 2
    case ReclaimPushed(_) => 1
    case AbandonRemoved(_, _, _) => 2
    case AbandonPurges(_, _) => 1
  }

  ghost predicate Advances(s: State, t: Tid, e: Event) { Enabled(s, e) && Remaining(Apply(s, e).At(t)) < Remaining(s.At(t)) }

  lemma PollAdvances(s: State, t: Tid, suffix: string, answer: StoreAnswer)
    requires s.At(t).PollHolds? || s.At(t).PollLeased? || s.At(t).PollReturns?
    ensures Advances(s, t, NextOperation(t, s.At(t), suffix, answer))
  {
  }

  lemma CompleteAdvances(s: State, t: Tid, suffix: string, answer: StoreAnswer)
    requires s.At(t).CompleteAbsent? || s.At(t).CompleteChecked? || s.At(t).CompleteCommitted? || s.At(t).CompleteSends?
    ensures Advances(s, t, NextOperation(t, s.At(t), suffix, answer))
  {
  }

  lemma ReclaimAdvances(s: State, t: Tid, suffix: string, answer: StoreAnswer)
    requires s.At(t).ReclaimCandidate? || s.At(t).ReclaimPersisted?
    ensures Advances(s, t, NextOperation(t, s.At(t), suffix, answer))
  {
  }

  lemma ReleaseAdvances(s: State, t: Tid, suffix: string, answer: StoreAnswer)
    requires Charges(s.At(t)) && !s.At(t).PollHolds? && !s.At(t).PollLeased? && !s.At(t).ReclaimReplaced?
    ensures Advances(s, t, NextOperation(t, s.At(t), suffix, answer))
  {
  }

  lemma PushAdvances(s: State, t: Tid, suffix: string, answer: StoreAnswer)
    requires s.At(t).EnqueueHolds? || s.At(t).ReclaimReplaced? || s.At(t).AbandonPurges?
    ensures Advances(s, t, NextOperation(t, s.At(t), suffix, answer))
  {
  }

  /** No handler is ever stuck: in every state its next operation is enabled, and brings it nearer to its end. */
  lemma HandlerMovesOn(s: State, t: Tid, suffix: string, answer: StoreAnswer)
    requires !s.At(t).Idle?
    ensures Advances(s, t, NextOperation(t, s.At(t), suffix, answer))
  {
    var pc := s.At(t);
    if pc.PollHolds? || pc.PollLeased? || pc.PollReturns? {
      PollAdvances(s, t, suffix, answer);
    } else if pc.CompleteAbsent? || pc.CompleteChecked? || pc.CompleteCommitted? || pc.CompleteSends? {
      CompleteAdvances(s, t, suffix, answer);
    } else if pc.ReclaimCandidate? || pc.ReclaimPersisted? {
      ReclaimAdvances(s, t, suffix, answer);
    } else if pc.EnqueueHolds? || pc.ReclaimReplaced? || pc.AbandonPurges? {
      PushAdvances(s, t, suffix, answer);
    } else {
      ReleaseAdvances(s, t, suffix, answer);
    }
  }

  /** So every handler ends, whatever the store answers, when it is given at most four operations. */
  lemma {:induction false} HandlerEnds(s: State, t: Tid, suffix: string, answer: StoreAnswer) returns (es: seq<Event>)
    ensures Runs(s, es) && After(s, es).At(t).Idle? && |es| <= Remaining(s.At(t)) <= 4
    decreases Remaining(s.At(t))
  {
    es := [];
    if !s.At(t).Idle? {
      HandlerMovesOn(s, t, suffix, answer);
      var e := NextOperation(t, s.At(t), suffix, answer);
      var rest := HandlerEnds(Apply(s, e), t, suffix, answer);
      es := [e] + rest;
      assert es[1..] == rest;
    }
  }
}
