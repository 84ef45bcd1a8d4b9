/**
 Where the copies of a job are.  A leased record has no copy queued or held by a handler; an unleased
 record has exactly one, carrying the record's run id.
 */
module LeaseCopies {
  import opened LeaseProtocol
  import opened LeaseCounting

  /** Every copy of `id`, queued or held, carries `run`. */
  ghost predicate CopiesCarry(s: State, id: JobId, run: RunId) {
    && (forall i :: 0 <= i < |s.queue| && s.queue[i].id == id ==> s.queue[i].run == run)
    && (forall t :: t in s.threads && HoldsJob(s.threads[t], id) ==> s.threads[t].copy.run == run)
  }

  ghost predicate JobCopiesOk(s: State, id: JobId)
    requires id in s.inFlight
  {
    if s.inFlight[id].agent != "" then Copies(s, id) == 0
    else Copies(s, id) == 1 && CopiesCarry(s, id, s.inFlight[id].run)
  }

  ghost predicate CopiesOk(s: State) {
    forall id :: id in s.inFlight ==> JobCopiesOk(s, id)
  }

  /** Copies move between queues and handlers; the lease of `id` stays. */
  lemma Moved(s: State, s': State, id: JobId)
    requires id in s.inFlight && id in s'.inFlight && JobCopiesOk(s, id)
    requires s.inFlight[id].agent == s'.inFlight[id].agent && s.inFlight[id].run == s'.inFlight[id].run
    requires Copies(s', id) == Copies(s, id)
    requires CopiesCarry(s, id, s.inFlight[id].run) ==> CopiesCarry(s', id, s.inFlight[id].run)
    ensures JobCopiesOk(s', id)
  {
  }

  /** A handler keeps its copy, or keeps having none. */
  predicate SameHold(pc: Pc, pc': Pc) {
    (Holds(pc) <==> Holds(pc')) && (Holds(pc) ==> pc'.copy == pc.copy)
  }

  /** A handler moves on; records may go away. */
  lemma Passes(s: State, s': State, t: Tid, pc: Pc)
    requires CopiesOk(s) && SameHold(s.At(t), pc)
    requires s'.queue == s.queue && s'.threads == s.threads[t := pc]
    requires forall id :: id in s'.inFlight ==> id in s.inFlight && s'.inFlight[id] == s.inFlight[id]
    ensures CopiesOk(s')
  {
    forall id | id in s'.inFlight ensures JobCopiesOk(s', id) {
      HoldersUpdate(s.threads, t, pc, id);
      Moved(s, s', id);
    }
  }

  lemma PushBackCopies(s: State, t: Tid)
    requires CopiesOk(s) && (s.At(t).EnqueueHolds? || s.At(t).ReclaimReplaced?)
    ensures CopiesOk(ApplyPushBack(s, t))
  {
    var s' := ApplyPushBack(s, t);
    forall id | id in s'.inFlight ensures JobCopiesOk(s', id) {
      CountConcat(s.queue, [s.At(t).copy], id);
      HoldersUpdate(s.threads, t, s'.At(t), id);
      Moved(s, s', id);
    }
  }

  lemma PutBackCopies(s: State, t: Tid)
    requires CopiesOk(s) && s.At(t).PollReturns?
    ensures CopiesOk(ApplyPutBack(s, t))
  {
    var s' := ApplyPutBack(s, t);
    forall id | id in s'.inFlight ensures JobCopiesOk(s', id) {
      CountConcat([s.At(t).copy], s.queue, id);
      HoldersUpdate(s.threads, t, Idle, id);
      Moved(s, s', id);
    }
  }

  lemma TakeCopies(s: State, t: Tid, a: AgentId, pos: nat)
    requires CopiesOk(s) && s.At(t).Idle? && pos < |s.queue| && a in s.agents
    ensures CopiesOk(ApplyTake(s, t, a, pos))
  {
    var s' := ApplyTake(s, t, a, pos);
    assert forall i :: 0 <= i < |s'.queue| ==> s'.queue[i] == s.queue[if i < pos then i else i + 1];
    forall id | id in s'.inFlight ensures JobCopiesOk(s', id) {
      CountSplit(s.queue, pos, id);
      HoldersUpdate(s.threads, t, s'.At(t), id);
      Moved(s, s', id);
    }
  }

  lemma PurgeCopies(s: State, t: Tid)
    requires CopiesOk(s) && s.At(t).AbandonPurges? && s.At(t).id !in s.inFlight
    ensures CopiesOk(ApplyPurge(s, t))
  {
    var s' := ApplyPurge(s, t);
    var AbandonPurges(pool, gone) := s.At(t);
    forall id | id in s'.inFlight ensures JobCopiesOk(s', id) {
      CountWithout(s.queue, pool, gone, id);
      HoldersUpdate(s.threads, t, Idle, id);
      assert forall i :: 0 <= i < |s'.queue| ==> s'.queue[i] in s.queue;
      Moved(s, s', id);
    }
  }

  lemma EnqueueCopies(s: State, t: Tid, c: Copy)
    requires CopiesOk(s) && s.At(t).Idle? && Copies(s, c.id) == 0
    ensures CopiesOk(ApplyEnqueue(s, t, c))
  {
    var s' := ApplyEnqueue(s, t, c);
    forall id | id in s'.inFlight ensures JobCopiesOk(s', id) {
      HoldersUpdate(s.threads, t, EnqueueHolds(c), id);
      if id == c.id {
        CountZero(s.queue, id);
        NoHolders(s.threads, id);
      } else {
        Moved(s, s', id);
      }
    }
  }

  /** The record a poll is about to lease is unleased and names the run of the copy in hand. */
  lemma HeldRecord(s: State, t: Tid, id: JobId)
    requires CopiesOk(s) && id in s.inFlight && t in s.threads && HoldsJob(s.threads[t], id)
    ensures s.inFlight[id].agent == "" && s.inFlight[id].run == s.threads[t].copy.run
    ensures Count(s.queue, id) == 0 && |Holders(s.threads, id)| == 1
  {
    assert t in Holders(s.threads, id);
    assert JobCopiesOk(s, id);
  }

  lemma OwnCopies(s: State, t: Tid)
    requires CopiesOk(s) && s.At(t).PollLeased? && s.At(t).agent != ""
    ensures CopiesOk(ApplyOwn(s, t))
  {
    var PollLeased(a, c) := s.At(t);
    var s' := ApplyOwn(s, t);
    var pc := if c.id in s.inFlight then Idle else PollUndo(a);
    assert s'.threads == s.threads[t := pc];
    forall id | id in s'.inFlight ensures JobCopiesOk(s', id) {
      HoldersUpdate(s.threads, t, pc, id);
      if c.id == id {
        HeldRecord(s, t, id);
      } else {
        Moved(s, s', id);
      }
    }
  }

  /** The one copy of a reclaimed job is in the handler's hands. */
  lemma ReplacedCopy(s: State, s': State, t: Tid, pc: Pc)
    requires Holds(pc) && pc.copy.id in s.inFlight && JobCopiesOk(s, pc.copy.id) && HasLease(s, pc.copy.id)
    requires s'.queue == s.queue && s'.threads == s.threads[t := pc]
    requires pc.copy.id in s'.inFlight && s'.inFlight[pc.copy.id].agent == "" && s'.inFlight[pc.copy.id].run == pc.copy.run
    ensures JobCopiesOk(s', pc.copy.id)
  {
    HoldersUpdate(s.threads, t, pc, pc.copy.id);
    CountZero(s.queue, pc.copy.id);
    NoHolders(s.threads, pc.copy.id);
  }

  lemma ReplaceCopies(s: State, t: Tid)
    requires CopiesOk(s) && s.At(t).ReclaimPersisted? && s.At(t).agent != ""
    ensures CopiesOk(ApplyReclaimReplace(s, t))
  {
    var ReclaimPersisted(a, c, newRun) := s.At(t);
    if c.id in s.inFlight && s.inFlight[c.id].agent == a && s.inFlight[c.id].run == c.run {
      var s' := ApplyReclaimReplace(s, t);
      var pc := ReclaimReplaced(a, c.(run := newRun));
      forall id | id in s'.inFlight ensures JobCopiesOk(s', id) {
        HoldersUpdate(s.threads, t, pc, id);
        if id == c.id {
          ReplacedCopy(s, s', t, pc);
        } else {
          Moved(s, s', id);
        }
      }
    } else {
      Passes(s, s.Go(t, Idle), t, Idle);
    }
  }

  /** Enqueue keeps the copies right exactly when no copy of an earlier job with that id is left. */
  lemma EnqueueNeedsNoCopy(s: State, t: Tid, c: Copy)
    requires CopiesOk(s) && s.At(t).Idle?
    ensures CopiesOk(ApplyEnqueue(s, t, c)) <==> Copies(s, c.id) == 0
  {
    if Copies(s, c.id) == 0 {
      EnqueueCopies(s, t, c);
    } else {
      var s' := ApplyEnqueue(s, t, c);
      HoldersUpdate(s.threads, t, EnqueueHolds(c), c.id);
      assert !JobCopiesOk(s', c.id);
    }
  }

  // ---------------------------------------------------------------- what handlers know

  /** A handler that polls or reclaims for an agent knows its name; a reclaim extends the run id. */
  predicate Named(pc: Pc) {
    && ((pc.PollHolds? || pc.PollLeased? || pc.ReclaimCandidate? || pc.ReclaimPersisted?) ==> pc.agent != "")
    && (pc.ReclaimPersisted? ==> pc.copy.run + RECLAIM_MARK <= pc.newRun)
  }

  /** ... and a job that is being abandoned is not in flight. */
  predicate KnownAt(s: State, pc: Pc) {
    Named(pc) && ((pc.AbandonRemoved? || pc.AbandonPurges?) ==> pc.id !in s.inFlight)
  }

  ghost predicate HandlersKnown(s: State) { forall t :: t in s.threads ==> KnownAt(s, s.threads[t]) }

  lemma KnownPass(s: State, s': State, t: Tid, pc: Pc)
    requires HandlersKnown(s) && KnownAt(s', pc) && s'.threads == s.threads[t := pc]
    requires s'.inFlight.Keys <= s.inFlight.Keys
    ensures HandlersKnown(s')
  {
  }

  /** Copies, leases and handlers agree, and agents have names. */
  ghost predicate Placed(s: State) { CopiesOk(s) && HandlersKnown(s) && "" !in s.agents }

  /** A handler moves on; records may go away, and everything but the queue may change. */
  lemma PlacedPass(s: State, s': State, t: Tid, pc: Pc)
    requires Placed(s) && SameHold(s.At(t), pc) && KnownAt(s', pc) && "" !in s'.agents
    requires s'.queue == s.queue && s'.threads == s.threads[t := pc]
    requires forall id :: id in s'.inFlight ==> id in s.inFlight && s'.inFlight[id] == s.inFlight[id]
    ensures Placed(s')
  {
    Passes(s, s', t, pc);
    KnownPass(s, s', t, pc);
  }

  /** Enqueue keeps jobs and copies in place exactly when no copy is left and no purge is to come. */
  lemma EnqueueNeedsVacancy(s: State, t: Tid, c: Copy)
    requires Placed(s) && s.At(t).Idle?
    ensures Placed(ApplyEnqueue(s, t, c)) <==> Vacant(s, c.id)
  {
    var s' := ApplyEnqueue(s, t, c);
    EnqueueNeedsNoCopy(s, t, c);
    if Vacant(s, c.id) {
      forall u | u in s'.threads ensures KnownAt(s', s'.threads[u]) {
        assert u != t ==> KnownAt(s, s.threads[u]) && !Abandoning(s.threads[u], c.id);
      }
    } else if Copies(s, c.id) == 0 {
      var u :| u in s.threads && Abandoning(s.threads[u], c.id);
      assert s'.threads[u] == s.threads[u] && !KnownAt(s', s'.threads[u]);
    }
  }
}
