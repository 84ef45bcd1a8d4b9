/**
 What a client of the lease protocol can rely on: which leases it was handed, and what each reply to a completion
 call means for the job, now and at every later moment.

 Job ids may be reused.  With the job table an enqueue only has to leave one copy of its id and cross no completion;
 without it, it must in addition not bring back a run id that was handed out.
 */
module LeaseClients {
  import opened LeaseProtocol
  import opened LeaseRows
  import opened LeaseSteps
  import opened LeaseCopies
  import opened LeaseSenders
  import opened LeaseSafety
  import opened LeaseGrants
  import opened LeaseFencing
  import opened LeaseTheorems
  import opened LeaseChain
  import LeaseHandlers

  /** The enqueue does not bring back a run that was handed out. */
  ghost predicate FreshRun(s: State, c: Copy) {
    forall h :: h in s.handed && h.id == c.id ==> !CanBecome(c.run, h.run)
  }

  ghost predicate FreshEvent(s: State, e: Event) {
    && Spaced(s, e) && Uncrossed(s, e)
    && (e.EnqueueInsert? && !s.persistent ==> FreshRun(s, e.copy))
  }

  // ---------------------------------------------------------------- handed leases

  /** The record is this very lease. */
  predicate Held(s: State, h: Lease) {
    h.id in s.inFlight && s.inFlight[h.id] == Record(s.inFlight[h.id].pool, h.agent, h.run, h.life)
  }

  /** What is known of a lease that was handed out. */
  ghost predicate LeaseOk(s: State, h: Lease) {
    && h.agent != "" && CreatedFor(s, h.life, h.id)
    && (s.persistent ==> HeldBy(s.rows, h.id, h.agent, h.run))
    && (!s.persistent && h.id in s.inFlight && !Held(s, h) ==> !CanBecome(s.inFlight[h.id].run, h.run))
  }

  ghost predicate OneLeasePerRun(s: State) {
    forall h, h' :: h in s.handed && h' in s.handed && h.id == h'.id && h.run == h'.run ==> h == h'
  }

  ghost predicate HandedOk(s: State) { OneLeasePerRun(s) && forall h :: h in s.handed ==> LeaseOk(s, h) }

  /** The sender belongs to the job that this run was handed out for. */
  ghost predicate LifeOf(s: State, id: JobId, run: RunId, k: nat) {
    exists h :: h in s.handed && h.id == id && h.run == run && h.life == k
  }

  /** A completion acts for a lease that was handed out, and takes only the sender of that lease's job. */
  ghost predicate ActsForLease(s: State, pc: Pc) {
    && (!s.persistent && (pc.CompleteChecked? || pc.CompleteCommitted?) && pc.request.id in s.inFlight ==>
          LifeOf(s, pc.request.id, pc.request.run, s.inFlight[pc.request.id].sender))
    && (Carries(pc) ==> LifeOf(s, pc.request.id, pc.request.run, pc.sender))
  }

  ghost predicate DeliveriesOk(s: State) {
    && (forall t :: ActsForLease(s, s.At(t)))
    && (forall i :: 0 <= i < |s.fired| ==>
                      LifeOf(s, s.fired[i].request.id, s.fired[i].request.run, s.fired[i].sender))
    && (s.persistent ==> forall i :: 0 <= i < |s.fired| ==> CommittedAt(s.rows, s.fired[i].request))
  }

  ghost predicate ServerOk(s: State) {
    Good(s) && LeasesHanded(s) && HandedOk(s) && DeliveriesOk(s) && (s.persistent ==> FencingOk(s))
  }

  // ---------------------------------------------------------------- one event

  lemma LeaseIsHeld(s: State, id: JobId, h: Lease)
    requires LeasesHanded(s) && OneLeasePerRun(s) && HasLease(s, id)
    requires h in s.handed && h.id == id && h.run == s.inFlight[id].run
    ensures Held(s, h)
  {
    assert Lease(s.inFlight[id].agent, id, s.inFlight[id].run, s.inFlight[id].sender) in s.handed;
  }

  /** A poll never hands out a run a second time. */
  lemma OwnIsNew(s: State, t: Tid)
    requires ServerOk(s) && s.At(t).PollLeased? && s.At(t).copy.id in s.inFlight
    ensures s.inFlight[s.At(t).copy.id].agent == "" && s.inFlight[s.At(t).copy.id].run == s.At(t).copy.run
    ensures !Handed(s, s.At(t).copy.id, s.At(t).copy.run)
  {
    var c := s.At(t).copy;
    HeldRecord(s, t, c.id);
    forall h | h in s.handed && h.id == c.id && !s.persistent ensures h.run != c.run {
      assert LeaseOk(s, h) && h.agent != "";
    }
  }

  /** What every event does to the parts of the state that clients see. */
  ghost predicate Evolves(s: State, s': State) {
    && s'.persistent == s.persistent && Grows(s.rows, s'.rows)
    && s.handed <= s'.handed && s.fired <= s'.fired
    && (forall k :: Gone(s, k) ==> Gone(s', k))
    && (forall h :: h in s.handed && !Held(s, h) ==> !Held(s', h))
  }

  lemma OwnEvolves(s: State, t: Tid)
    requires s.At(t).PollLeased?
    requires var c := s.At(t).copy;
             c.id in s.inFlight ==> s.inFlight[c.id].run == c.run && !Handed(s, c.id, c.run)
    ensures Evolves(s, ApplyOwn(s, t))
  {
    var s', c := ApplyOwn(s, t), s.At(t).copy;
    GrowsSame(s.rows);
    forall k | Gone(s, k) ensures Gone(s', k) { OwnGone(s, t, k); }
    forall h | h in s.handed && !Held(s, h) ensures !Held(s', h) {}
  }

  lemma ReplaceEvolves(s: State, t: Tid)
    requires ServerOk(s) && s.At(t).ReclaimPersisted?
    ensures Evolves(s, ApplyReclaimReplace(s, t))
  {
    GrowsSame(s.rows);
    forall k | Gone(s, k) ensures Gone(ApplyReclaimReplace(s, t), k) { ReplaceGone(s, t, k); }
    forall h | h in s.handed ensures LeaseOk(s, h) {}
  }

  lemma EnqueueEvolves(s: State, t: Tid, c: Copy)
    requires ServerOk(s)
    ensures Evolves(s, ApplyEnqueue(s, t, c))
  {
    GrowsSame(s.rows);
    forall k | Gone(s, k) ensures Gone(ApplyEnqueue(s, t, c), k) { EnqueueGone(s, t, c, k); }
    forall h | h in s.handed ensures LeaseOk(s, h) {}
  }

  lemma SteadyEvolves(s: State, s': State)
    requires Steady(s, s')
    ensures Evolves(s, s')
  {
  }

  lemma EvolvesStep(s: State, e: Event)
    requires ServerOk(s) && Enabled(s, e)
    ensures Evolves(s, Apply(s, e))
  {
    if e.EnqueueInsert? {
      EnqueueEvolves(s, e.t, e.copy);
    } else if e.PollOwn? {
      if s.At(e.t).copy.id in s.inFlight { OwnIsNew(s, e.t); }
      OwnEvolves(s, e.t);
    } else if e.ReclaimReplace? {
      ReplaceEvolves(s, e.t);
    } else {
      if UsesTable(e) { TableSteady(s, e); } else { PlainSteady(s, e); }
      SteadyEvolves(s, Apply(s, e));
    }
  }

  lemma IssuedStays(s: State, e: Event, k: nat, id: JobId)
    requires SendersOk(s) && Enabled(s, e) && CreatedFor(s, k, id)
    ensures CreatedFor(Apply(s, e), k, id)
  {
    if e.EnqueueInsert? {
      assert CreatedFor(ApplyEnqueue(s, e.t, e.copy), k, id);
    } else if e.PollOwn? {
      assert ApplyOwn(s, e.t).issued == s.issued;
    } else if e.ReclaimReplace? {
      assert ApplyReclaimReplace(s, e.t).issued == s.issued;
    } else if UsesTable(e) {
      TableSteady(s, e);
    } else {
      PlainSteady(s, e);
    }
  }

  /** Without the table: a lease that is over cannot come back. */
  ghost predicate OverForGood(s: State, h: Lease) {
    h.id in s.inFlight && !Held(s, h) ==> !CanBecome(s.inFlight[h.id].run, h.run)
  }

  lemma ReplaceOver(s: State, t: Tid, h: Lease)
    requires HandlersKnown(s) && s.At(t).ReclaimPersisted? && OverForGood(s, h)
    ensures OverForGood(ApplyReclaimReplace(s, t), h)
  {
    assert KnownAt(s, s.At(t));
    ReachShrinks(s.At(t).copy.run, s.At(t).newRun, h.run);
  }

  lemma OwnOver(s: State, t: Tid, h: Lease)
    requires CopiesOk(s) && s.At(t).PollLeased? && h.agent != "" && OverForGood(s, h)
    ensures OverForGood(ApplyOwn(s, t), h)
  {
    if s.At(t).copy.id in s.inFlight { HeldRecord(s, t, s.At(t).copy.id); }
  }

  lemma OverStep(s: State, e: Event, h: Lease)
    requires ServerOk(s) && Enabled(s, e) && FreshEvent(s, e) && !s.persistent && h in s.handed
    ensures OverForGood(Apply(s, e), h)
  {
    assert LeaseOk(s, h);
    if e.EnqueueInsert? {
      assert OverForGood(ApplyEnqueue(s, e.t, e.copy), h);
    } else if e.PollOwn? {
      OwnOver(s, e.t, h);
    } else if e.ReclaimReplace? {
      ReplaceOver(s, e.t, h);
    } else {
      OthersOnlyRemove(s, e);
    }
  }

  lemma LeaseStays(s: State, e: Event, h: Lease)
    requires ServerOk(s) && Enabled(s, e) && FreshEvent(s, e) && h in s.handed && Evolves(s, Apply(s, e))
    ensures LeaseOk(Apply(s, e), h)
  {
    assert LeaseOk(s, h);
    IssuedStays(s, e, h.life, h.id);
    if s.persistent {
      HeldStays(s.rows, Apply(s, e).rows, h.id, h.agent, h.run);
    } else {
      OverStep(s, e, h);
    }
  }

  /** The lease that a poll hands out, at the moment it does. */
  lemma HandedNow(s: State, t: Tid)
    requires ServerOk(s) && s.At(t).PollLeased? && s.At(t).copy.id in s.inFlight
    ensures var PollLeased(a, c) := s.At(t); LeaseOk(ApplyOwn(s, t), Lease(a, c.id, c.run, s.inFlight[c.id].sender))
  {
    var PollLeased(a, c) := s.At(t);
    OwnIsNew(s, t);
    assert KnownAt(s, s.At(t));
    assert CreatedFor(s, s.inFlight[c.id].sender, c.id);
    if s.persistent { assert RowHeld(s.rows, c.id, a, c.run); }
  }

  lemma HandedStep(s: State, e: Event)
    requires ServerOk(s) && Enabled(s, e) && FreshEvent(s, e)
    ensures HandedOk(Apply(s, e)) && Evolves(s, Apply(s, e))
  {
    var s' := Apply(s, e);
    EvolvesStep(s, e);
    if e.PollOwn? {
      OwnOnce(s, e.t);
    } else {
      OnlyPollHands(s, e);
    }
    forall h | h in s'.handed ensures LeaseOk(s', h) {
      if h in s.handed {
        LeaseStays(s, e, h);
      } else {
        HandedNow(s, e.t);
      }
    }
  }

  lemma OwnOnce(s: State, t: Tid)
    requires ServerOk(s) && s.At(t).PollLeased?
    ensures OneLeasePerRun(ApplyOwn(s, t))
    ensures var PollLeased(a, c) := s.At(t);
            ApplyOwn(s, t).handed ==
            if c.id in s.inFlight then s.handed + {Lease(a, c.id, c.run, s.inFlight[c.id].sender)} else s.handed
  {
    if s.At(t).copy.id in s.inFlight { OwnIsNew(s, t); }
  }

  // ---------------------------------------------------------------- deliveries

  lemma LifeStays(s: State, s': State, id: JobId, run: RunId, k: nat)
    requires s.handed <= s'.handed && LifeOf(s, id, run, k)
    ensures LifeOf(s', id, run, k)
  {
    var h :| h in s.handed && h.id == id && h.run == run && h.life == k;
    assert h in s'.handed;
  }

  /** The record of a lease carries the sender of that lease. */
  lemma RecordLife(s: State, r: Request)
    requires LeasesHanded(s) && r.id in s.inFlight && r.agent != ""
    requires s.inFlight[r.id].agent == r.agent && s.inFlight[r.id].run == r.run
    ensures LifeOf(s, r.id, r.run, s.inFlight[r.id].sender)
  {
    assert HasLease(s, r.id);
  }

  lemma LookupActs(s: State, t: Tid, r: Request)
    requires LeasesHanded(s)
    ensures ActsForLease(ApplyLookup(s, t, r), ApplyLookup(s, t, r).At(t))
  {
    if LeaseHandlers.NamesLease(s, r) {
      assert ApplyLookup(s, t, r) == s.Go(t, CompleteChecked(r));
      RecordLife(s, r);
      LifeStays(s, s.Go(t, CompleteChecked(r)), r.id, r.run, s.inFlight[r.id].sender);
    } else {
      assert ApplyLookup(s, t, r).At(t).Idle? || ApplyLookup(s, t, r).At(t).CompleteAbsent?;
    }
  }

  lemma CommitActs(s: State, t: Tid, answer: StoreAnswer)
    requires ActsForLease(s, s.At(t)) && (s.At(t).CompleteChecked? || s.At(t).CompleteAbsent?)
    ensures ActsForLease(ApplyCommit(s, t, answer), ApplyCommit(s, t, answer).At(t))
  {
    var s', r := ApplyCommit(s, t, answer), s.At(t).request;
    if !s.persistent && s.At(t).CompleteChecked? && r.id in s.inFlight {
      LifeStays(s, s', r.id, r.run, s.inFlight[r.id].sender);
    }
  }

  lemma RemoveActs(s: State, t: Tid)
    requires ActsForLease(s, s.At(t)) && s.At(t).CompleteCommitted? && LeasesHanded(s)
    requires s.persistent ==> CompletionOk(s, s.At(t))
    ensures ActsForLease(ApplyRemove(s, t), ApplyRemove(s, t).At(t))
  {
    var s', r := ApplyRemove(s, t), s.At(t).request;
    if r.id in s.inFlight {
      if s.persistent { RecordLife(s, r); }
      LifeStays(s, s', r.id, r.run, s.inFlight[r.id].sender);
    }
  }

  lemma ReleaseActs(s: State, t: Tid)
    requires ActsForLease(s, s.At(t)) && Enabled(s, Release(t))
    ensures ActsForLease(ApplyRelease(s, t), AfterRelease(s.At(t))) && ApplyRelease(s, t).At(t) == AfterRelease(s.At(t))
  {
    if s.At(t).CompleteRemoved? {
      LifeStays(s, ApplyRelease(s, t), s.At(t).request.id, s.At(t).request.run, s.At(t).sender);
    }
  }

  /** Other handlers carry no sender and complete nothing. */
  lemma OtherActor(s: State, e: Event)
    requires Enabled(s, e) && !e.Register? && !e.Heartbeat? && !e.RowInsert? && !e.RowClose?
    requires !e.CompleteLookup? && !e.CompleteCommit? && !e.CompleteRemove? && !e.Release?
    ensures var pc := Apply(s, e).At(e.t); !pc.CompleteChecked? && !pc.CompleteCommitted? && !Carries(pc)
  {
    if e.PollStore? || e.PollOwn? || e.ReclaimSnapshot? || e.ReclaimStore? {
      LeaseActor(s, e);
    } else if e.ReclaimReplace? {
      ReplaceActor(s, e.t);
    } else if e.AbandonRemove? {
      AbandonActor(s, e.t, e.pool, e.id);
    }
  }

  lemma LeaseActor(s: State, e: Event)
    requires Enabled(s, e) && (e.PollStore? || e.PollOwn? || e.ReclaimSnapshot? || e.ReclaimStore?)
    ensures var pc := Apply(s, e).At(e.t); !pc.CompleteChecked? && !pc.CompleteCommitted? && !Carries(pc)
  {
  }

  lemma ReplaceActor(s: State, t: Tid)
    requires s.At(t).ReclaimPersisted?
    ensures var pc := ApplyReclaimReplace(s, t).At(t); pc.Idle? || pc.ReclaimReplaced?
  {
  }

  lemma AbandonActor(s: State, t: Tid, pool: PoolId, id: JobId)
    ensures var pc := ApplyAbandon(s, t, pool, id).At(t); pc.AbandonRemoved? || pc.AbandonPurges?
  {
  }

  /** A completion under way keeps acting for its lease while others act. */
  lemma ActsStay(s: State, e: Event, u: Tid)
    requires ServerOk(s) && Enabled(s, e) && FreshEvent(s, e) && Evolves(s, Apply(s, e))
    requires Apply(s, e).At(u) == s.At(u)
    ensures ActsForLease(Apply(s, e), s.At(u))
  {
    var s', pc := Apply(s, e), s.At(u);
    assert ActsForLease(s, pc);
    if Carries(pc) {
      LifeStays(s, s', pc.request.id, pc.request.run, pc.sender);
    } else if !s.persistent && (pc.CompleteChecked? || pc.CompleteCommitted?) && pc.request.id in s'.inFlight {
      assert Claims(s, s.threads[u], pc.request.id);
      SameLifeStep(s, e, pc.request.id);
      LifeStays(s, s', pc.request.id, pc.request.run, s.inFlight[pc.request.id].sender);
    }
  }

  lemma ActsStep(s: State, e: Event, u: Tid)
    requires ServerOk(s) && Enabled(s, e) && FreshEvent(s, e) && Evolves(s, Apply(s, e))
    ensures ActsForLease(Apply(s, e), Apply(s, e).At(u))
  {
    if e.Register? || e.Heartbeat? || e.RowInsert? || e.RowClose? || e.t != u {
      OthersUntouched(s, e, u);
      ActsStay(s, e, u);
    } else {
      OwnActs(s, e);
    }
  }

  lemma OwnActs(s: State, e: Event)
    requires ServerOk(s) && Enabled(s, e) && !e.Register? && !e.Heartbeat? && !e.RowInsert? && !e.RowClose?
    ensures ActsForLease(Apply(s, e), Apply(s, e).At(e.t))
  {
    assert ActsForLease(s, s.At(e.t));
    if s.persistent { assert CompletionOk(s, s.At(e.t)); }
    if e.CompleteLookup? || e.CompleteCommit? || e.CompleteRemove? || e.Release? {
      match e
      case CompleteLookup(t, r) => LookupActs(s, t, r);
      case CompleteCommit(t, answer) => CommitActs(s, t, answer);
      case CompleteRemove(t) => RemoveActs(s, t);
      case Release(t) => ReleaseActs(s, t);
    } else {
      OtherActor(s, e);
    }
  }

  lemma OnlySendFires(s: State, e: Event)
    requires Enabled(s, e) && !e.CompleteSend?
    ensures Apply(s, e).fired == s.fired
  {
  }

  lemma FiredStep(s: State, e: Event)
    requires ServerOk(s) && Enabled(s, e) && Evolves(s, Apply(s, e))
    ensures var s' := Apply(s, e);
            && (forall i :: 0 <= i < |s'.fired| ==>
                              LifeOf(s', s'.fired[i].request.id, s'.fired[i].request.run, s'.fired[i].sender))
            && (s.persistent ==> forall i :: 0 <= i < |s'.fired| ==> CommittedAt(s'.rows, s'.fired[i].request))
  {
    var s' := Apply(s, e);
    if e.CompleteSend? {
      assert ActsForLease(s, s.At(e.t));
      assert s.persistent ==> BackedByTable(s, s.threads[e.t]);
      assert s'.fired == s.fired + [Delivery(s.At(e.t).sender, s.At(e.t).request)];
    } else {
      OnlySendFires(s, e);
    }
    forall i | 0 <= i < |s'.fired|
      ensures LifeOf(s', s'.fired[i].request.id, s'.fired[i].request.run, s'.fired[i].sender)
      ensures s.persistent ==> CommittedAt(s'.rows, s'.fired[i].request)
    {
      LifeStays(s, s', s'.fired[i].request.id, s'.fired[i].request.run, s'.fired[i].sender);
      if s.persistent { GrowthKeeps(s.rows, s'.rows, "", "", s'.fired[i].request); }
    }
  }

  lemma ServerStep(s: State, e: Event)
    requires ServerOk(s) && Enabled(s, e) && FreshEvent(s, e)
    ensures ServerOk(Apply(s, e)) && Evolves(s, Apply(s, e))
  {
    GoodStep(s, e);
    LeasesHandedStep(s, e);
    HandedStep(s, e);
    forall u ensures ActsForLease(Apply(s, e), Apply(s, e).At(u)) { ActsStep(s, e, u); }
    FiredStep(s, e);
    if s.persistent { FencingStep(s, e); }
  }

  lemma ServerInit(persistent: bool)
    ensures ServerOk(Init(persistent))
  {
    GoodInit(persistent);
  }

  // ---------------------------------------------------------------- what a reply means

  predicate Names(r: Request, h: Lease) { r.id == h.id && r.agent == h.agent && r.run == h.run }

  /** The table will never accept this completion. */
  ghost predicate RowRefuses(rows: map<JobId, Row>, r: Request) {
    && r.id in rows
    && (|| r.run < rows[r.id].run
        || (rows[r.id].run == r.run && rows[r.id].phase == Closed)
        || (rows[r.id].run == r.run && rows[r.id].phase == Completed && rows[r.id].checksum != r.checksum))
  }

  /** No call made from now on can get this completion accepted (`LateCallIsRefused`). */
  ghost predicate Hopeless(s: State, h: Lease, r: Request) { !Held(s, h) || (s.persistent && RowRefuses(s.rows, r)) }

  /** The completion went to the waiter of the job that its lease was handed out for. */
  ghost predicate DeliveredFor(s: State, h: Lease, r: Request) {
    exists i :: 0 <= i < |s.fired| && s.fired[i] == Delivery(h.life, r)
  }

  lemma HopelessStays(s: State, s': State, h: Lease, r: Request)
    requires Evolves(s, s') && h in s.handed && Hopeless(s, h, r)
    ensures Hopeless(s', h, r)
  {
    if s.persistent && RowRefuses(s.rows, r) { RefusalStays(s.rows, s'.rows, r); }
  }

  lemma DeliveryStays(s: State, s': State, h: Lease, r: Request)
    requires Evolves(s, s') && DeliveredFor(s, h, r)
    ensures DeliveredFor(s', h, r)
  {
    var i :| 0 <= i < |s.fired| && s.fired[i] == Delivery(h.life, r);
    assert s'.fired[i] == Delivery(h.life, r);
  }

  /** The server holds no job of this id, so the lease's job is gone for good. */
  lemma AbsentIsGone(s: State, h: Lease)
    requires SendersOk(s) && HandedOk(s) && h in s.handed && h.id !in s.inFlight
    ensures Gone(s, h.life)
  {
    assert LeaseOk(s, h);
    forall id | id in s.inFlight ensures s.inFlight[id].sender != h.life {
      assert CreatedFor(s, s.inFlight[id].sender, id);
    }
  }

  lemma GoneIsNotHeld(s: State, h: Lease)
    requires Gone(s, h.life)
    ensures !Held(s, h)
  {
  }

  // ---------------------------------------------------------------- completion calls

  /** What a reply to a completion of a handed lease tells its caller. */
  ghost predicate Justified(s: State, h: Lease, r: Request, code: Code) {
    match code
    case Accepted => DeliveredFor(s, h, r)
    case DuplicateAccepted => Gone(s, h.life)
    case UnknownJob => Gone(s, h.life)
    case RunMismatch => !Held(s, h)
    case AgentMismatch => !Held(s, h)
    case CompletionConflict => s.persistent && RowRefuses(s.rows, r)
    case Unavailable => true
  }

  /** The handler at `pc` serves the completion `r`, and nothing else. */
  ghost predicate Serves(s: State, pc: Pc, h: Lease, r: Request) {
    match pc
    case Idle => true
    case CompleteAbsent(q) => q == r && Gone(s, h.life)
    case CompleteChecked(q) => q == r
    case CompleteCommitted(q) => q == r
    case CompleteRemoved(q, _, k) => q == r && k == h.life
    case CompleteSends(q, k) => q == r && k == h.life
    case _ => false
  }

  /** A completion call of a lease that was handed out. */
  ghost predicate CallOk(s: State, t: Tid, h: Lease, r: Request) {
    && h in s.handed && Names(r, h)
    && Serves(s, s.At(t), h, r)
    && (t in s.replies ==> s.At(t).Idle? && s.replies[t].request == r && Justified(s, h, r, s.replies[t].code))
  }

  /** An event that may happen while `t` is reserved for the call `r`. */
  predicate Respects(e: Event, t: Tid, r: Request) {
    if e.Register? || e.Heartbeat? || e.RowInsert? || e.RowClose? || e.t != t then true
    else
      || (e.CompleteLookup? && e.request == r)
      || e.CompleteCommit? || e.CompleteRemove? || e.Release? || e.CompleteSend?
  }

  lemma JustifiedStays(s: State, s': State, h: Lease, r: Request, code: Code)
    requires Evolves(s, s') && h in s.handed && Justified(s, h, r, code)
    ensures Justified(s', h, r, code)
  {
    match code
    case Accepted => DeliveryStays(s, s', h, r);
    case CompletionConflict => RefusalStays(s.rows, s'.rows, r);
    case _ =>
  }

  lemma CallStays(s: State, s': State, t: Tid, h: Lease, r: Request)
    requires Evolves(s, s') && CallOk(s, t, h, r) && Untouched(s, s', t)
    ensures CallOk(s', t, h, r)
  {
    if t in s.replies { JustifiedStays(s, s', h, r, s.replies[t].code); }
  }

  lemma LookupCall(s: State, t: Tid, h: Lease, r: Request)
    requires ServerOk(s) && CallOk(s, t, h, r) && t !in s.replies
    ensures CallOk(ApplyLookup(s, t, r), t, h, r)
  {
    if r.id !in s.inFlight {
      AbsentIsGone(s, h);
      assert CallOk(if s.persistent then s.Go(t, CompleteAbsent(r)) else s.Answer(t, r, UnknownJob), t, h, r);
    } else if s.inFlight[r.id].run != r.run {
      assert CallOk(s.Answer(t, r, RunMismatch), t, h, r);
    } else if s.inFlight[r.id].agent == "" || s.inFlight[r.id].agent != r.agent {
      assert CallOk(s.Answer(t, r, AgentMismatch), t, h, r);
    } else {
      assert CallOk(s.Go(t, CompleteChecked(r)), t, h, r);
    }
  }

  lemma CommitCall(s: State, t: Tid, answer: StoreAnswer, h: Lease, r: Request)
    requires ServerOk(s) && CallOk(s, t, h, r) && (s.At(t).CompleteChecked? || s.At(t).CompleteAbsent?)
    ensures CallOk(ApplyCommit(s, t, answer), t, h, r)
  {
    assert LeaseOk(s, h);
    if s.persistent {
      CommitTableCall(s, t, answer, h, r);
    }
  }

  lemma CommitTableCall(s: State, t: Tid, answer: StoreAnswer, h: Lease, r: Request)
    requires s.persistent && CallOk(s, t, h, r) && (s.At(t).CompleteChecked? || s.At(t).CompleteAbsent?)
    requires HeldBy(s.rows, h.id, h.agent, h.run)
    ensures CallOk(ApplyCommit(s, t, answer), t, h, r)
  {
    var s1 := if answer.ErrorDropped? then s else s.(rows := CommitRow(s.rows, r));
    if !answer.Answered? {
      assert CallOk(s1.Answer(t, r, Unavailable), t, h, r);
    } else if s.At(t).CompleteAbsent? {
      assert Gone(s1, h.life);
    } else if CommitDecision(s.rows, r) == Conflict {
      assert RowRefuses(s.rows, r) && CommitRow(s.rows, r) == s.rows;
      assert CallOk(s1.Answer(t, r, CompletionConflict), t, h, r);
    }
  }

  lemma RemoveCall(s: State, t: Tid, h: Lease, r: Request)
    requires ServerOk(s) && CallOk(s, t, h, r) && s.At(t).CompleteCommitted?
    ensures CallOk(ApplyRemove(s, t), t, h, r) && r.id !in ApplyRemove(s, t).inFlight
  {
    var s' := ApplyRemove(s, t);
    assert ActsForLease(s, s.At(t));
    if s.persistent { assert CompletionOk(s, s.At(t)); }
    RemoveActs(s, t);
    if r.id in s.inFlight {
      assert LifeOf(s', r.id, r.run, s.inFlight[r.id].sender);
    } else {
      AbsentIsGone(s, h);
    }
  }

  lemma SendCall(s: State, t: Tid, h: Lease, r: Request)
    requires CallOk(s, t, h, r) && s.At(t).CompleteSends?
    ensures CallOk(ApplySend(s, t), t, h, r)
  {
    var s' := ApplySend(s, t);
    assert s'.fired[|s.fired|] == Delivery(h.life, r);
  }

  lemma ReleaseCall(s: State, t: Tid, h: Lease, r: Request)
    requires CallOk(s, t, h, r) && s.At(t).CompleteRemoved? && Evolves(s, ApplyRelease(s, t))
    ensures CallOk(ApplyRelease(s, t), t, h, r)
  {
  }

  lemma CarrierCall(s: State, e: Event, t: Tid, h: Lease, r: Request)
    requires CallOk(s, t, h, r) && Enabled(s, e) && Evolves(s, Apply(s, e)) && (e.CompleteSend? || e.Release?) && e.t == t
    ensures CallOk(Apply(s, e), t, h, r)
  {
    if e.CompleteSend? { SendCall(s, t, h, r); } else { ReleaseCall(s, t, h, r); }
  }

  lemma OwnCallStep(s: State, e: Event, t: Tid, h: Lease, r: Request)
    requires ServerOk(s) && CallOk(s, t, h, r) && Enabled(s, e) && Evolves(s, Apply(s, e))
    requires e.CompleteLookup? || e.CompleteCommit? || e.CompleteRemove? || e.CompleteSend? || e.Release?
    requires e.t == t && (e.CompleteLookup? ==> e.request == r)
    ensures CallOk(Apply(s, e), t, h, r)
  {
    match e
    case CompleteLookup(_, _) => LookupCall(s, t, h, r);
    case CompleteCommit(_, answer) => CommitCall(s, t, answer, h, r);
    case CompleteRemove(_) => RemoveCall(s, t, h, r);
    case CompleteSend(_) => CarrierCall(s, e, t, h, r);
    case Release(_) => CarrierCall(s, e, t, h, r);
  }

  /** Every event keeps every call's reply meaningful. */
  lemma CallStep(s: State, e: Event, t: Tid, h: Lease, r: Request)
    requires ServerOk(s) && CallOk(s, t, h, r) && Enabled(s, e) && FreshEvent(s, e) && Respects(e, t, r)
    ensures CallOk(Apply(s, e), t, h, r)
  {
    EvolvesStep(s, e);
    if e.Register? || e.Heartbeat? || e.RowInsert? || e.RowClose? || e.t != t {
      OthersUntouched(s, e, t);
      CallStays(s, Apply(s, e), t, h, r);
    } else {
      OwnCallStep(s, e, t, h, r);
    }
  }

  // ---------------------------------------------------------------- calls that found the job over

  /** Every job of this id that one of the leases was for is gone. */
  ghost predicate AllGone(s: State, id: JobId, known: set<Lease>) {
    forall x :: x in known && x.id == id ==> Gone(s, x.life)
  }

  /** The call found no record of its job, or removed it. */
  predicate FoundOver(s: State, t: Tid) {
    || s.At(t).CompleteAbsent? || s.At(t).CompleteRemoved? || s.At(t).CompleteSends?
    || (t in s.replies && s.replies[t].code in {Accepted, DuplicateAccepted, UnknownJob})
  }

  lemma AbsentIsAllGone(s: State, id: JobId, known: set<Lease>)
    requires ServerOk(s) && known <= s.handed && id !in s.inFlight
    ensures AllGone(s, id, known)
  {
    forall x | x in known && x.id == id ensures Gone(s, x.life) { AbsentIsGone(s, x); }
  }

  /** A call comes to find its job over only by an operation that leaves no record of it. */
  lemma BecomesOver(s: State, e: Event, t: Tid, h: Lease, r: Request)
    requires ServerOk(s) && CallOk(s, t, h, r) && Enabled(s, e)
    requires e.CompleteLookup? || e.CompleteCommit? || e.CompleteRemove? || e.CompleteSend? || e.Release?
    requires e.t == t && (e.CompleteLookup? ==> e.request == r)
    ensures FoundOver(Apply(s, e), t) && !FoundOver(s, t) ==> r.id !in Apply(s, e).inFlight
  {
    match e
    case CompleteLookup(_, _) => LookupFinds(s, t, r);
    case CompleteCommit(_, answer) =>
      assert LeaseOk(s, h);
      CommitFinds(s, t, answer);
    case CompleteRemove(_) => RemoveCall(s, t, h, r);
    case CompleteSend(_) => assert FoundOver(s, t);
    case Release(_) => assert FoundOver(s, t);
  }

  lemma LookupFinds(s: State, t: Tid, r: Request)
    requires t !in s.replies
    ensures FoundOver(ApplyLookup(s, t, r), t) ==> r.id !in ApplyLookup(s, t, r).inFlight
  {
  }

  lemma CommitFinds(s: State, t: Tid, answer: StoreAnswer)
    requires s.At(t).CompleteChecked? || s.At(t).CompleteAbsent?
    requires t !in s.replies && (s.persistent ==> s.At(t).request.id in s.rows)
    ensures FoundOver(ApplyCommit(s, t, answer), t) ==> s.At(t).CompleteAbsent?
  {
  }

  lemma FoundOverStep(s: State, e: Event, t: Tid, h: Lease, r: Request, known: set<Lease>)
    requires ServerOk(s) && CallOk(s, t, h, r) && Enabled(s, e) && FreshEvent(s, e) && Respects(e, t, r)
    requires known <= s.handed && (FoundOver(s, t) ==> AllGone(s, r.id, known))
    ensures FoundOver(Apply(s, e), t) ==> AllGone(Apply(s, e), r.id, known)
  {
    var s' := Apply(s, e);
    ServerStep(s, e);
    if e.Register? || e.Heartbeat? || e.RowInsert? || e.RowClose? || e.t != t {
      OthersUntouched(s, e, t);
    } else {
      BecomesOver(s, e, t, h, r);
      if r.id !in s'.inFlight { AbsentIsAllGone(s', r.id, known); }
    }
  }

  // ---------------------------------------------------------------- over whole runs

  ghost predicate FreshRuns(s: State, es: seq<Event>)
    decreases |es|
  {
    es == [] || (Enabled(s, es[0]) && FreshEvent(s, es[0]) && FreshRuns(Apply(s, es[0]), es[1..]))
  }

  lemma {:induction false} ServerAlways(s: State, es: seq<Event>)
    requires ServerOk(s) && FreshRuns(s, es)
    ensures Runs(s, es) && ServerOk(After(s, es)) && After(s, es).persistent == s.persistent
    decreases |es|
  {
    if es != [] {
      ServerStep(s, es[0]);
      ServerAlways(Apply(s, es[0]), es[1..]);
    }
  }

  /**
   Replays never deliver twice: one delivery for each run of a job, however often its completion is sent and its id
   reused; with the table, one for each job id.
   */
  lemma DeliveredOnce(persistent: bool, es: seq<Event>, i: nat, j: nat)
    requires FreshRuns(Init(persistent), es) && Runs(Init(persistent), es)
    requires var fired := After(Init(persistent), es).fired;
             && i < |fired| && j < |fired| && fired[i].request.id == fired[j].request.id
             && (persistent || fired[i].request.run == fired[j].request.run)
    ensures i == j
  {
    ServerInit(persistent);
    ServerAlways(Init(persistent), es);
    OneDelivery(After(Init(persistent), es), i, j);
  }

  lemma OneDelivery(s: State, i: nat, j: nat)
    requires ServerOk(s) && i < |s.fired| && j < |s.fired| && s.fired[i].request.id == s.fired[j].request.id
    requires s.persistent || s.fired[i].request.run == s.fired[j].request.run
    ensures i == j
  {
    var d, d' := s.fired[i], s.fired[j];
    if s.persistent { assert CommittedAt(s.rows, d.request) && CommittedAt(s.rows, d'.request); }
    assert LifeOf(s, d.request.id, d.request.run, d.sender) && LifeOf(s, d'.request.id, d'.request.run, d'.sender);
  }

  // ---------------------------------------------------------------- late calls

  /** A call of a hopeless completion, and how far it can have got. */
  ghost predicate LateCall(s: State, t: Tid, h: Lease, r: Request) {
    && CallOk(s, t, h, r) && Hopeless(s, h, r)
    && (s.At(t).Idle? || s.At(t).CompleteAbsent? || (s.At(t).CompleteChecked? && s.persistent && RowRefuses(s.rows, r)))
    && (t in s.replies ==> s.replies[t].code != Accepted)
  }

  lemma LateLookup(s: State, t: Tid, h: Lease, r: Request)
    requires ServerOk(s) && LateCall(s, t, h, r) && t !in s.replies
    ensures var s' := ApplyLookup(s, t, r);
            && (t in s'.replies ==> s'.replies[t].code != Accepted)
            && (|| s'.At(t).Idle? || s'.At(t).CompleteAbsent?
                || (s'.At(t).CompleteChecked? && s.persistent && RowRefuses(s.rows, r)))
  {
    if r.id in s.inFlight && s.inFlight[r.id].run == r.run && s.inFlight[r.id].agent == r.agent && r.agent != "" {
      LeaseIsHeld(s, r.id, h);
    }
  }

  lemma LateCommit(s: State, t: Tid, answer: StoreAnswer, h: Lease, r: Request)
    requires LateCall(s, t, h, r) && (s.At(t).CompleteChecked? || s.At(t).CompleteAbsent?)
    ensures var s' := ApplyCommit(s, t, answer);
            s'.At(t).Idle? && (t in s'.replies ==> s'.replies[t].code != Accepted)
  {
  }

  lemma LateStep(s: State, e: Event, t: Tid, h: Lease, r: Request)
    requires ServerOk(s) && LateCall(s, t, h, r) && Enabled(s, e) && FreshEvent(s, e) && Respects(e, t, r)
    ensures LateCall(Apply(s, e), t, h, r)
  {
    EvolvesStep(s, e);
    CallStep(s, e, t, h, r);
    HopelessStays(s, Apply(s, e), h, r);
    if e.Register? || e.Heartbeat? || e.RowInsert? || e.RowClose? || e.t != t {
      OthersUntouched(s, e, t);
      if s.persistent && RowRefuses(s.rows, r) { RefusalStays(s.rows, Apply(s, e).rows, r); }
    } else if e.CompleteLookup? {
      LateLookup(s, t, h, r);
    } else {
      assert e.CompleteCommit?;
      LateCommit(s, t, e.answer, h, r);
    }
  }

  lemma RefusalStays(rows: map<JobId, Row>, rows': map<JobId, Row>, r: Request)
    requires Grows(rows, rows') && RowRefuses(rows, r)
    ensures RowRefuses(rows', r)
  {
    PrefixTransitive(r.run, rows[r.id].run, rows'[r.id].run);
  }

  /**
   A call that starts when its completion is hopeless is never answered ACCEPTED, whatever happens meanwhile: its
   completion is not delivered by it.
   */
  lemma {:induction false} LateCallIsRefused(s: State, es: seq<Event>, t: Tid, h: Lease, r: Request)
    requires ServerOk(s) && LateCall(s, t, h, r) && FreshRuns(s, es)
    requires forall e :: e in es ==> Respects(e, t, r)
    ensures Runs(s, es) && (t in After(s, es).replies ==> After(s, es).replies[t].code != Accepted)
    decreases |es|
  {
    if es != [] {
      assert es[0] in es;
      LateStep(s, es[0], t, h, r);
      ServerStep(s, es[0]);
      LateCallIsRefused(Apply(s, es[0]), es[1..], t, h, r);
    }
  }
}
