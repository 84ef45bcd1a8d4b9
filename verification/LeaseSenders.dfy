/**
 Result senders.  Every enqueue creates one oneshot sender; it lives in at most one place (a record, a
 completion handler, or nowhere) and fires at most once, for the job it was created for.
 */
module LeaseSenders {
  import opened LeaseProtocol

  predicate Carries(pc: Pc) { pc.CompleteRemoved? || pc.CompleteSends? }

  ghost predicate Fired(s: State, k: nat) { exists i :: 0 <= i < |s.fired| && s.fired[i].sender == k }

  /** Sender `k` was created for `id`. */
  predicate CreatedFor(s: State, k: nat, id: JobId) { k in s.issued && s.issued[k] == id }

  ghost predicate RecordSenders(s: State) {
    && (forall id :: id in s.inFlight ==> CreatedFor(s, s.inFlight[id].sender, id) && !Fired(s, s.inFlight[id].sender))
    && (forall id, t :: id in s.inFlight && t in s.threads && Carries(s.threads[t]) ==>
                          s.threads[t].sender != s.inFlight[id].sender)
  }

  ghost predicate HandlerSenders(s: State) {
    && (forall t :: t in s.threads && Carries(s.threads[t]) ==>
                      CreatedFor(s, s.threads[t].sender, s.threads[t].request.id) && !Fired(s, s.threads[t].sender))
    && (forall t, u :: t in s.threads && u in s.threads && t != u && Carries(s.threads[t]) && Carries(s.threads[u]) ==>
                         s.threads[t].sender != s.threads[u].sender)
  }

  ghost predicate FiredOnce(s: State) {
    && (forall i :: 0 <= i < |s.fired| ==> CreatedFor(s, s.fired[i].sender, s.fired[i].request.id))
    && (forall i, j :: 0 <= i < j < |s.fired| ==> s.fired[i].sender != s.fired[j].sender)
  }

  ghost predicate Delivered(s: State, r: Request) { exists i :: 0 <= i < |s.fired| && s.fired[i].request == r }

  /** ACCEPTED is only replied after the result went out. */
  ghost predicate AckedDelivered(s: State) {
    forall t :: t in s.replies && s.replies[t].code == Accepted ==> Delivered(s, s.replies[t].request)
  }

  ghost predicate SendersOk(s: State) {
    && (forall k :: k in s.issued ==> k < s.nextSender)
    && RecordSenders(s) && HandlerSenders(s) && FiredOnce(s) && AckedDelivered(s)
  }

  predicate SameSender(pc: Pc, pc': Pc) {
    Carries(pc') ==> Carries(pc) && pc'.sender == pc.sender && pc'.request.id == pc.request.id
  }

  /** A handler moves on; records may go away or keep their sender. */
  lemma SendersPass(s: State, s': State, t: Tid, pc: Pc)
    requires SendersOk(s) && SameSender(s.At(t), pc)
    requires s'.threads == s.threads[t := pc]
    requires s'.nextSender == s.nextSender && s'.issued == s.issued && s'.fired == s.fired
    requires forall id :: id in s'.inFlight ==> id in s.inFlight && s'.inFlight[id].sender == s.inFlight[id].sender
    requires || s'.replies == s.replies
             || (t in s'.replies && s'.replies == s.replies[t := s'.replies[t]] && s'.replies[t].code != Accepted)
    ensures SendersOk(s')
  {
    assert forall k :: Fired(s', k) == Fired(s, k);
    forall u | u in s'.replies && s'.replies[u].code == Accepted ensures Delivered(s', s'.replies[u].request) {
      assert Delivered(s, s.replies[u].request);
    }
  }

  lemma SendersUntouched(s: State, s': State)
    requires SendersOk(s)
    requires s'.inFlight == s.inFlight && s'.threads == s.threads && s'.nextSender == s.nextSender
    requires s'.issued == s.issued && s'.fired == s.fired && s'.replies == s.replies
    ensures SendersOk(s')
  {
    assert forall k :: Fired(s', k) == Fired(s, k);
    assert forall r :: Delivered(s', r) == Delivered(s, r);
  }

  /** Enqueue may overwrite a record; its sender is then dropped unused. */
  lemma EnqueueSenders(s: State, t: Tid, c: Copy)
    requires SendersOk(s) && s.At(t).Idle?
    ensures SendersOk(ApplyEnqueue(s, t, c))
  {
    var s' := ApplyEnqueue(s, t, c);
    var k := s.nextSender;
    assert k !in s.issued;
    assert forall j :: Fired(s', j) == Fired(s, j);
    assert !Fired(s, k);
    forall u | u in s'.replies && s'.replies[u].code == Accepted ensures Delivered(s', s'.replies[u].request) {
      assert Delivered(s, s.replies[u].request);
    }
    assert HandlerSenders(s');
    assert RecordSenders(s');
  }

  /** A completion takes the record, and its sender with it. */
  lemma TakenSenders(s: State, t: Tid, r: Request)
    requires SendersOk(s) && r.id in s.inFlight && !Carries(s.At(t))
    ensures var rec := s.inFlight[r.id];
            SendersOk(s.(inFlight := s.inFlight - {r.id}).Go(t, CompleteRemoved(r, rec.agent, rec.sender)))
  {
    var rec := s.inFlight[r.id];
    var s' := s.(inFlight := s.inFlight - {r.id}).Go(t, CompleteRemoved(r, rec.agent, rec.sender));
    assert forall k :: Fired(s', k) == Fired(s, k);
    forall u | u in s'.replies && s'.replies[u].code == Accepted ensures Delivered(s', s'.replies[u].request) {
      assert Delivered(s, s.replies[u].request);
    }
    assert RecordSenders(s');
    assert HandlerSenders(s');
  }

  lemma SendSenders(s: State, t: Tid)
    requires SendersOk(s) && s.At(t).CompleteSends?
    ensures SendersOk(ApplySend(s, t))
  {
    var CompleteSends(r, k) := s.At(t);
    var s' := ApplySend(s, t);
    assert Carries(s.At(t)) && !Fired(s, k);
    forall j ensures Fired(s', j) <==> Fired(s, j) || j == k {
      if Fired(s, j) {
        var i :| 0 <= i < |s.fired| && s.fired[i].sender == j;
        assert s'.fired[i].sender == j;
      }
      assert s'.fired[|s.fired|].sender == k;
    }
    assert forall i :: 0 <= i < |s.fired| ==> s.fired[i].sender != k;
    forall u | u in s'.replies && s'.replies[u].code == Accepted ensures Delivered(s', s'.replies[u].request) {
      if u == t {
        assert s'.fired[|s.fired|].request == r;
      } else {
        var i :| 0 <= i < |s.fired| && s.fired[i].request == s.replies[u].request;
        assert s'.fired[i].request == s.replies[u].request;
      }
    }
  }

  lemma ReplaceSenders(s: State, t: Tid)
    requires SendersOk(s) && s.At(t).ReclaimPersisted?
    ensures SendersOk(ApplyReclaimReplace(s, t))
  {
    var ReclaimPersisted(a, c, newRun) := s.At(t);
    if c.id in s.inFlight && s.inFlight[c.id].agent == a && s.inFlight[c.id].run == c.run {
      var s1 := s.(inFlight := s.inFlight[c.id := s.inFlight[c.id].(agent := "", run := newRun)],
                   reclaimed := s.reclaimed + {(c.id, c.run)});
      var pc := ReclaimReplaced(a, c.(run := newRun));
      SendersPass(s, s1.Go(t, pc), t, pc);
    } else {
      SendersPass(s, s.Go(t, Idle), t, Idle);
    }
  }
}
