/**
 The reclaim chain of one job.  As long as a record keeps its sender, its run id only grows, strictly at
 each reclaim; and while the run id is unchanged the lease never changes hands.  So comparing
 (agent, run) against an earlier snapshot cannot be fooled by a lease that left and came back within one life of
 the record, whatever the random suffixes are; with the job table not across lives either.
 */
module LeaseChain {
  import opened LeaseProtocol
  import opened LeaseRows
  import opened LeaseSteps
  import opened LeaseCopies
  import opened LeaseSenders
  import opened LeaseGrants
  import opened LeaseTheorems

  /** The record of `id` is the one created with sender `k`. */
  predicate Lives(s: State, id: JobId, k: nat) { id in s.inFlight && s.inFlight[id].sender == k }

  ghost predicate LeaseGrows(r: Record, r': Record) {
    || r.run < r'.run
    || (r'.run == r.run && (r.agent != "" ==> r'.agent == r.agent))
  }

  /** What the reclaim compares. */
  predicate SameLease(r: Record, r': Record) { r.agent == r'.agent && r.run == r'.run }

  /** A sender that is in no record now will never be in one again. */
  ghost predicate Gone(s: State, k: nat) {
    k < s.nextSender && forall id :: id in s.inFlight ==> s.inFlight[id].sender != k
  }

  lemma OwnChain(s: State, t: Tid, id: JobId, k: nat)
    requires Good(s) && s.At(t).PollLeased? && Lives(s, id, k)
    ensures Lives(ApplyOwn(s, t), id, k) && LeaseGrows(s.inFlight[id], ApplyOwn(s, t).inFlight[id])
  {
    if s.At(t).copy.id == id {
      HeldRecord(s, t, id);
    }
  }

  lemma ReplaceChain(s: State, t: Tid, id: JobId, k: nat)
    requires Good(s) && s.At(t).ReclaimPersisted? && Lives(s, id, k)
    ensures Lives(ApplyReclaimReplace(s, t), id, k)
    ensures LeaseGrows(s.inFlight[id], ApplyReclaimReplace(s, t).inFlight[id])
  {
    assert KnownAt(s, s.At(t));
    ReachShrinks(s.At(t).copy.run, s.At(t).newRun, "");
  }

  /** An enqueue leaves the records of other ids alone, and ends the life of the record it overwrites. */
  lemma EnqueueChain(s: State, t: Tid, c: Copy, id: JobId, k: nat)
    requires SendersOk(s) && Lives(s, id, k)
    ensures var s' := ApplyEnqueue(s, t, c);
            if c.id == id then Gone(s', k) else Lives(s', id, k) && s'.inFlight[id] == s.inFlight[id]
  {
    assert CreatedFor(s, k, id);
  }

  /** One event: the record keeps growing, or it is gone. */
  lemma ChainStep(s: State, e: Event, id: JobId, k: nat)
    requires Good(s) && Enabled(s, e) && Spaced(s, e) && Lives(s, id, k)
    ensures var s' := Apply(s, e);
            if Lives(s', id, k) then LeaseGrows(s.inFlight[id], s'.inFlight[id]) else Gone(s', k)
  {
    if e.EnqueueInsert? {
      EnqueueChain(s, e.t, e.copy, id, k);
    } else if e.PollOwn? {
      OwnChain(s, e.t, id, k);
    } else if e.ReclaimReplace? {
      ReplaceChain(s, e.t, id, k);
    } else {
      OtherChain(s, e, id, k);
    }
  }

  lemma OtherChain(s: State, e: Event, id: JobId, k: nat)
    requires Good(s) && Enabled(s, e) && Lives(s, id, k)
    requires !e.EnqueueInsert? && !e.PollOwn? && !e.ReclaimReplace?
    ensures var s' := Apply(s, e);
            if Lives(s', id, k) then LeaseGrows(s.inFlight[id], s'.inFlight[id]) else Gone(s', k)
  {
    OthersOnlyRemove(s, e);
    assert CreatedFor(s, k, id);
  }

  lemma OwnGone(s: State, t: Tid, k: nat)
    requires s.At(t).PollLeased? && Gone(s, k)
    ensures Gone(ApplyOwn(s, t), k)
  {
  }

  lemma ReplaceGone(s: State, t: Tid, k: nat)
    requires s.At(t).ReclaimPersisted? && Gone(s, k)
    ensures Gone(ApplyReclaimReplace(s, t), k)
  {
  }

  lemma EnqueueGone(s: State, t: Tid, c: Copy, k: nat)
    requires Gone(s, k)
    ensures Gone(ApplyEnqueue(s, t, c), k)
  {
  }

  lemma GoneStep(s: State, e: Event, k: nat)
    requires Enabled(s, e) && Gone(s, k)
    ensures Gone(Apply(s, e), k)
  {
    if e.EnqueueInsert? {
      EnqueueGone(s, e.t, e.copy, k);
    } else if e.PollOwn? {
      OwnGone(s, e.t, k);
    } else if e.ReclaimReplace? {
      ReplaceGone(s, e.t, k);
    } else {
      OthersOnlyRemove(s, e);
    }
  }

  lemma GrowsOn(r: Record, r': Record, r'': Record)
    requires LeaseGrows(r, r') && LeaseGrows(r', r'')
    ensures LeaseGrows(r, r'')
  {
    PrefixTransitive(r.run, r'.run, r''.run);
  }

  /** Over every run: a sender that has left the table never comes back. */
  lemma {:induction false} GoneStays(s: State, es: seq<Event>, k: nat)
    requires Runs(s, es) && Gone(s, k)
    ensures Gone(After(s, es), k)
    decreases |es|
  {
    if es != [] {
      GoneStep(s, es[0], k);
      GoneStays(Apply(s, es[0]), es[1..], k);
    }
  }

  /** Between any two moments of one record's life its run id grew, or its lease is the same. */
  lemma {:induction false} ReclaimChain(s: State, es: seq<Event>, id: JobId, k: nat)
    requires Good(s) && Runs(s, es) && SpacedRun(s, es) && Lives(s, id, k)
    ensures var s' := After(s, es);
            if Lives(s', id, k) then LeaseGrows(s.inFlight[id], s'.inFlight[id]) else Gone(s', k)
    decreases |es|
  {
    if es != [] {
      var s1 := Apply(s, es[0]);
      GoodStep(s, es[0]);
      ChainStep(s, es[0], id, k);
      if Lives(s1, id, k) {
        ReclaimChain(s1, es[1..], id, k);
        if Lives(After(s, es), id, k) {
          GrowsOn(s.inFlight[id], s1.inFlight[id], After(s, es).inFlight[id]);
        }
      } else {
        GoneStays(s1, es[1..], k);
      }
    }
  }

  lemma {:induction false} RunsSplit(s: State, es: seq<Event>, fs: seq<Event>)
    requires Runs(s, es + fs)
    ensures Runs(s, es) && Runs(After(s, es), fs) && After(s, es + fs) == After(After(s, es), fs)
    ensures SpacedRun(s, es + fs) ==> SpacedRun(s, es) && SpacedRun(After(s, es), fs)
    decreases |es|
  {
    if es == [] {
      assert es + fs == fs;
    } else {
      assert (es + fs)[0] == es[0] && (es + fs)[1..] == es[1..] + fs;
      RunsSplit(Apply(s, es[0]), es[1..], fs);
    }
  }

  // ---------------------------------------------------------------- comparing with a snapshot

  predicate Enqueues(es: seq<Event>, id: JobId) { exists e :: e in es && e.EnqueueInsert? && e.copy.id == id }

  /** A record that no enqueue made was there before, with the same sender. */
  lemma SameLifeStep(s: State, e: Event, id: JobId)
    requires Enabled(s, e) && !(e.EnqueueInsert? && e.copy.id == id) && id in Apply(s, e).inFlight
    ensures id in s.inFlight && s.inFlight[id].sender == Apply(s, e).inFlight[id].sender
  {
    match e
    case EnqueueInsert(t, c) => assert id in ApplyEnqueue(s, t, c).inFlight;
    case PollOwn(t) => OwnSender(s, t, id);
    case ReclaimReplace(t) => ReplaceSender(s, t, id);
    case _ => OthersOnlyRemove(s, e);
  }

  lemma OwnSender(s: State, t: Tid, id: JobId)
    requires s.At(t).PollLeased? && id in ApplyOwn(s, t).inFlight
    ensures id in s.inFlight && s.inFlight[id].sender == ApplyOwn(s, t).inFlight[id].sender
  {
  }

  lemma ReplaceSender(s: State, t: Tid, id: JobId)
    requires s.At(t).ReclaimPersisted? && id in ApplyReclaimReplace(s, t).inFlight
    ensures id in s.inFlight && s.inFlight[id].sender == ApplyReclaimReplace(s, t).inFlight[id].sender
  {
  }

  /** Without an enqueue of its id, a record is the one there was before. */
  lemma {:induction false} SameLife(s: State, es: seq<Event>, id: JobId)
    requires Runs(s, es) && !Enqueues(es, id) && id in After(s, es).inFlight
    ensures id in s.inFlight && s.inFlight[id].sender == After(s, es).inFlight[id].sender
    decreases |es|
  {
    if es != [] {
      var e := es[0];
      assert e in es;
      assert !Enqueues(es[1..], id) by { assert forall f :: f in es[1..] ==> f in es; }
      SameLife(Apply(s, e), es[1..], id);
      SameLifeStep(s, e, id);
    }
  }

  /** The chain closes only if nothing happened to the lease in between. */
  lemma ChainCloses(s: State, es: seq<Event>, fs: seq<Event>, id: JobId)
    requires Good(s) && Runs(s, es + fs) && SpacedRun(s, es + fs)
    requires id in s.inFlight && s.inFlight[id].agent != ""
    requires Lives(After(s, es + fs), id, s.inFlight[id].sender)
    requires SameLease(After(s, es + fs).inFlight[id], s.inFlight[id])
    ensures Runs(s, es) && id in After(s, es).inFlight && After(s, es).inFlight[id].sender == s.inFlight[id].sender
    ensures SameLease(After(s, es).inFlight[id], s.inFlight[id])
  {
    var k := s.inFlight[id].sender;
    RunsSplit(s, es, fs);
    var m := After(s, es);
    GoodAlways(s, es);
    ReclaimChain(s, es, id, k);
    if Lives(m, id, k) {
      ReclaimChain(m, fs, id, k);
      PrefixTransitive(s.inFlight[id].run, m.inFlight[id].run, s.inFlight[id].run);
      assert m.inFlight[id].run == s.inFlight[id].run;
    } else {
      GoneStays(m, fs, k);
      assert false;
    }
  }

  /**
   No ABA within one life of a record, with or without the job table: if agent and run compare equal later, the
   lease was in place at every moment between.
   */
  lemma SnapshotCompareInOneLife(s: State, es: seq<Event>, fs: seq<Event>, id: JobId)
    requires Good(s) && Runs(s, es + fs) && SpacedRun(s, es + fs) && !Enqueues(es + fs, id)
    requires id in s.inFlight && s.inFlight[id].agent != ""
    requires id in After(s, es + fs).inFlight && SameLease(After(s, es + fs).inFlight[id], s.inFlight[id])
    ensures Runs(s, es) && id in After(s, es).inFlight && SameLease(After(s, es).inFlight[id], s.inFlight[id])
  {
    SameLife(s, es + fs, id);
    ChainCloses(s, es, fs, id);
  }

  /** The lease in every leased record was handed out, for that record. */
  ghost predicate LeasesHanded(s: State) {
    forall id :: HasLease(s, id) ==>
                   Lease(s.inFlight[id].agent, id, s.inFlight[id].run, s.inFlight[id].sender) in s.handed
  }

  lemma LeasesHandedStep(s: State, e: Event)
    requires Good(s) && LeasesHanded(s) && Enabled(s, e)
    ensures LeasesHanded(Apply(s, e))
  {
    if e.PollOwn? {
      OwnHanded(s, e.t);
    } else if e.EnqueueInsert? {
      assert LeasesHanded(ApplyEnqueue(s, e.t, e.copy));
    } else if e.ReclaimReplace? {
      ReplaceHanded(s, e.t);
    } else {
      OnlyPollHands(s, e);
      OthersOnlyRemove(s, e);
    }
  }

  lemma OwnHanded(s: State, t: Tid)
    requires Good(s) && LeasesHanded(s) && s.At(t).PollLeased?
    ensures LeasesHanded(ApplyOwn(s, t))
  {
    if s.At(t).copy.id in s.inFlight { HeldRecord(s, t, s.At(t).copy.id); }
  }

  lemma ReplaceHanded(s: State, t: Tid)
    requires LeasesHanded(s) && s.At(t).ReclaimPersisted?
    ensures LeasesHanded(ApplyReclaimReplace(s, t))
  {
  }

  /** All that is known of a server with the job table after a spaced run. */
  ghost predicate Traced(s: State) { s.persistent && Good(s) && GrantsOk(s) && LeasesHanded(s) }

  lemma {:induction false} TracedAlways(s: State, es: seq<Event>)
    requires Traced(s) && Runs(s, es) && SpacedRun(s, es)
    ensures Traced(After(s, es))
    decreases |es|
  {
    if es != [] {
      GoodStep(s, es[0]);
      GrantsStep(s, es[0]);
      LeasesHandedStep(s, es[0]);
      TracedAlways(Apply(s, es[0]), es[1..]);
    }
  }

  lemma ReachableIsTraced(es: seq<Event>)
    requires Runs(Init(true), es) && SpacedRun(Init(true), es)
    ensures Traced(After(Init(true), es))
  {
    GoodInit(true);
    TracedAlways(Init(true), es);
  }

  /**
   No ABA at all with the job table: even if the job was abandoned and enqueued again under the same ids, agent and
   run compare equal later only if the lease was in place at every moment between.
   */
  lemma SnapshotCompareIsSound(s: State, es: seq<Event>, fs: seq<Event>, id: JobId)
    requires Traced(s) && Runs(s, es + fs) && SpacedRun(s, es + fs)
    requires id in s.inFlight && s.inFlight[id].agent != ""
    requires id in After(s, es + fs).inFlight && SameLease(After(s, es + fs).inFlight[id], s.inFlight[id])
    ensures Runs(s, es) && id in After(s, es).inFlight && SameLease(After(s, es).inFlight[id], s.inFlight[id])
  {
    var s', rec := After(s, es + fs), s.inFlight[id];
    TracedAlways(s, es + fs);
    HandedStay(s, es + fs);
    assert HasLease(s, id) && HasLease(s', id);
    assert Lease(rec.agent, id, rec.run, rec.sender) in s'.handed;
    assert Lease(rec.agent, id, rec.run, s'.inFlight[id].sender) in s'.handed;
    ChainCloses(s, es, fs, id);
  }

  lemma {:induction false} HandedStay(s: State, es: seq<Event>)
    requires Runs(s, es)
    ensures s.handed <= After(s, es).handed
    decreases |es|
  {
    if es != [] {
      if !es[0].PollOwn? { OnlyPollHands(s, es[0]); }
      HandedStay(Apply(s, es[0]), es[1..]);
    }
  }

  /** Every reclaim strictly extends the run id, whatever the suffix. */
  lemma ReclaimIsStrict(s: State, t: Tid, id: JobId)
    requires Good(s) && s.At(t).ReclaimPersisted? && id in s.inFlight
    requires ApplyReclaimReplace(s, t).inFlight != s.inFlight && s.At(t).copy.id == id
    ensures id in ApplyReclaimReplace(s, t).inFlight
    ensures s.inFlight[id].run < ApplyReclaimReplace(s, t).inFlight[id].run
  {
    assert KnownAt(s, s.At(t));
    ReachShrinks(s.At(t).copy.run, s.At(t).newRun, "");
  }

  /** A run id that a job has left behind never becomes its run id again. */
  lemma OldRunNeverReturns(s: State, es: seq<Event>, id: JobId, k: nat, run: RunId)
    requires Good(s) && Runs(s, es) && SpacedRun(s, es) && Lives(s, id, k) && run < s.inFlight[id].run
    ensures Lives(After(s, es), id, k) ==> run < After(s, es).inFlight[id].run
  {
    ReclaimChain(s, es, id, k);
    if Lives(After(s, es), id, k) {
      PrefixTransitive(run, s.inFlight[id].run, After(s, es).inFlight[id].run);
    }
  }
}
