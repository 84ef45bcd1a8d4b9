/**
 Load conservation.  An agent's reserved load is the number of records leased to it, plus its polls that
 hold a reservation, plus the handlers that released a lease of it and still owe the decrement.
 */
module LeaseLoad {
  import opened LeaseProtocol
  import opened LeaseCounting
  import opened LeaseCopies

  ghost predicate AgentLoadOk(s: State, a: AgentId) {
    && (a != "" ==> s.Reserved(a) == |LeasedTo(s.inFlight, a)| + |Chargers(s.threads, a)|)
    && (a in s.agents ==> s.agents[a].reserved <= s.agents[a].Capacity())
  }

  ghost predicate LoadOk(s: State) {
    forall a: AgentId :: AgentLoadOk(s, a)
  }

  predicate SameCharge(pc: Pc, pc': Pc) {
    (Charges(pc) <==> Charges(pc')) && (Charges(pc) ==> pc'.agent == pc.agent)
  }

  /** A handler moves on without taking or settling a charge. */
  lemma LoadPasses(s: State, s': State, t: Tid, pc: Pc)
    requires LoadOk(s) && SameCharge(s.At(t), pc)
    requires s'.inFlight == s.inFlight && s'.agents == s.agents && s'.threads == s.threads[t := pc]
    ensures LoadOk(s')
  {
    forall a: AgentId ensures AgentLoadOk(s', a) {
      assert AgentLoadOk(s, a);
      ChargersUpdate(s.threads, t, pc, a);
    }
  }

  lemma RegisterLoad(s: State, b: AgentId, m: nat)
    requires LoadOk(s) && b != "" && s.Reserved(b) == 0
    ensures LoadOk(s.(agents := s.agents[b := Agent(m, 0, 0)]))
  {
    var s' := s.(agents := s.agents[b := Agent(m, 0, 0)]);
    forall a: AgentId ensures AgentLoadOk(s', a) {
      assert AgentLoadOk(s, a);
    }
  }

  lemma HeartbeatLoad(s: State, b: AgentId, n: nat)
    requires LoadOk(s) && b in s.agents
    ensures LoadOk(s.(agents := s.agents[b := s.agents[b].(reported := n)]))
  {
    var s' := s.(agents := s.agents[b := s.agents[b].(reported := n)]);
    forall a: AgentId ensures AgentLoadOk(s', a) {
      assert AgentLoadOk(s, a);
    }
  }

  lemma EnqueueLoad(s: State, t: Tid, c: Copy)
    requires LoadOk(s) && s.At(t).Idle? && !HasLease(s, c.id)
    ensures LoadOk(ApplyEnqueue(s, t, c))
  {
    var s' := ApplyEnqueue(s, t, c);
    forall a: AgentId ensures AgentLoadOk(s', a) {
      assert AgentLoadOk(s, a);
      LeasedUpdate(s.inFlight, c.id, s'.inFlight[c.id], a);
      ChargersUpdate(s.threads, t, EnqueueHolds(c), a);
    }
  }

  lemma TakeLoad(s: State, t: Tid, b: AgentId, pos: nat)
    requires LoadOk(s) && s.At(t).Idle? && pos < |s.queue|
    requires b in s.agents && b != "" && s.agents[b].EffectiveLoad() < s.agents[b].Capacity()
    ensures LoadOk(ApplyTake(s, t, b, pos))
  {
    var s' := ApplyTake(s, t, b, pos);
    forall a: AgentId ensures AgentLoadOk(s', a) {
      assert AgentLoadOk(s, a);
      ChargersUpdate(s.threads, t, PollHolds(b, s.queue[pos]), a);
    }
  }

  /** The decrement never saturates. */
  lemma ReleaseLoad(s: State, t: Tid)
    requires LoadOk(s) && Enabled(s, Release(t)) && "" !in s.agents
    ensures LoadOk(ApplyRelease(s, t))
    ensures s.At(t).agent in s.agents ==> s.agents[s.At(t).agent].reserved > 0
  {
    var s' := ApplyRelease(s, t);
    var b := s.At(t).agent;
    assert AgentLoadOk(s, b);
    assert t in Chargers(s.threads, b);
    forall a: AgentId ensures AgentLoadOk(s', a) {
      assert AgentLoadOk(s, a);
      ChargersUpdate(s.threads, t, AfterRelease(s.At(t)), a);
    }
  }

  /** A lease passes between a record and a handler; the registry is not touched. */
  lemma LeaseMoves(s: State, s': State, t: Tid, pc: Pc, id: JobId, rec: Record)
    requires LoadOk(s) && id in s.inFlight
    requires s'.agents == s.agents && s'.threads == s.threads[t := pc] && s'.inFlight == s.inFlight[id := rec]
    requires forall a: AgentId :: a != "" ==>
                                    (if ChargesAgent(s.At(t), a) then 1 else 0) + (if s.inFlight[id].agent == a then 1 else 0)
                                    == (if ChargesAgent(pc, a) then 1 else 0) + (if rec.agent == a then 1 else 0)
    ensures LoadOk(s')
  {
    forall a: AgentId ensures AgentLoadOk(s', a) {
      assert AgentLoadOk(s, a);
      LeasedUpdate(s.inFlight, id, rec, a);
      ChargersUpdate(s.threads, t, pc, a);
    }
  }

  /** A record goes away and the handler that took it is charged for its lease. */
  lemma LeaseTaken(s: State, s': State, t: Tid, pc: Pc, id: JobId)
    requires LoadOk(s) && id in s.inFlight && !Charges(s.At(t))
    requires s'.agents == s.agents && s'.threads == s.threads[t := pc] && s'.inFlight == s.inFlight - {id}
    requires s.inFlight[id].agent != "" ==> ChargesAgent(pc, s.inFlight[id].agent)
    requires s.inFlight[id].agent == "" ==> !Charges(pc) || pc.agent == ""
    ensures LoadOk(s')
  {
    forall a: AgentId ensures AgentLoadOk(s', a) {
      assert AgentLoadOk(s, a);
      LeasedRemove(s.inFlight, id, a);
      ChargersUpdate(s.threads, t, pc, a);
    }
  }

  lemma OwnLoad(s: State, t: Tid)
    requires LoadOk(s) && CopiesOk(s) && s.At(t).PollLeased?
    ensures LoadOk(ApplyOwn(s, t))
  {
    var PollLeased(a, c) := s.At(t);
    if c.id in s.inFlight {
      HeldRecord(s, t, c.id);
      LeaseMoves(s, ApplyOwn(s, t), t, Idle, c.id, s.inFlight[c.id].(agent := a));
    } else {
      LoadPasses(s, s.Go(t, PollUndo(a)), t, PollUndo(a));
    }
  }

  lemma ReplaceLoad(s: State, t: Tid)
    requires LoadOk(s) && s.At(t).ReclaimPersisted?
    ensures LoadOk(ApplyReclaimReplace(s, t))
  {
    var ReclaimPersisted(a, c, newRun) := s.At(t);
    if c.id in s.inFlight && s.inFlight[c.id].agent == a && s.inFlight[c.id].run == c.run {
      LeaseMoves(s, ApplyReclaimReplace(s, t), t, ReclaimReplaced(a, c.(run := newRun)), c.id,
                 s.inFlight[c.id].(agent := "", run := newRun));
    } else {
      LoadPasses(s, s.Go(t, Idle), t, Idle);
    }
  }

  /** Registering over a live agent keeps the ledger exactly when nothing is charged to it. */
  lemma ReregisterNeedsNoLoad(s: State, a: AgentId, m: nat)
    requires LoadOk(s) && a != ""
    ensures LoadOk(s.(agents := s.agents[a := Agent(m, 0, 0)])) <==> s.Reserved(a) == 0
  {
    if s.Reserved(a) == 0 {
      RegisterLoad(s, a, m);
    } else {
      assert AgentLoadOk(s, a);
      assert !AgentLoadOk(s.(agents := s.agents[a := Agent(m, 0, 0)]), a);
    }
  }

  /** Enqueuing over a record keeps the ledger exactly when the record is not leased. */
  lemma EnqueueNeedsNoLease(s: State, t: Tid, c: Copy)
    requires LoadOk(s) && s.At(t).Idle?
    ensures LoadOk(ApplyEnqueue(s, t, c)) <==> !HasLease(s, c.id)
  {
    if HasLease(s, c.id) {
      var a, s' := s.inFlight[c.id].agent, ApplyEnqueue(s, t, c);
      assert AgentLoadOk(s, a);
      LeasedUpdate(s.inFlight, c.id, s'.inFlight[c.id], a);
      ChargersUpdate(s.threads, t, EnqueueHolds(c), a);
      assert !AgentLoadOk(s', a);
    } else {
      EnqueueLoad(s, t, c);
    }
  }
}
