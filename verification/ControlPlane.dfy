/**
 The server object that runs the dispatch-lease protocol: its tables are updated in place, each method is
 one handler, and each is proved to be the step of the same name of the state machine.
 */
module ControlPlane {
  import opened Options
  import opened LeaseIds
  import opened Finalizer
  import opened DispatchLeases

  /** Waiters have senders of their own. */
  ghost predicate OwnSenders(pending: map<Key, Pending>, nextSender: nat) {
    && (forall k :: k in pending ==> pending[k].sender < nextSender)
    && (forall k, k' :: k in pending && k' in pending && k != k' ==> pending[k].sender != pending[k'].sender)
  }

  /** A lease not withdrawn yet has not failed yet. */
  lemma NotFailedYet(pending: map<Key, Pending>, clock: Clock, keys: set<Key>, k: Key, n: nat)
    requires OwnSenders(pending, n) && keys <= pending.Keys && k in pending && k !in keys
    ensures FailureOf(pending[k], clock) !in Failures(pending, keys, clock)
  {
  }

  lemma OneMoreOutcome(outcomes: map<Key, Outcome>, keys: set<Key>, k: Key, o: Outcome)
    ensures Noted(outcomes, keys + {k}, o) == Noted(outcomes, keys, o)[k := o]
  {
  }

  lemma OneMoreSent(sent: multiset<Delivery>, failed: set<Delivery>, d: Delivery)
    requires d !in failed
    ensures sent + multiset(failed + {d}) == sent + multiset(failed) + multiset{d}
  {
  }

  lemma OneLessPending(pending: map<Key, Pending>, keys: set<Key>, k: Key)
    ensures pending - (keys + {k}) == pending - keys - {k}
  {
  }

  /** What has ended when `todo` of the keys remain. */
  ghost function EndedBut(done: set<Key>, keys: set<Key>, todo: set<Key>): set<Key> { done + (keys - todo) }

  lemma OneMoreEnded(done: set<Key>, keys: set<Key>, todo: set<Key>, k: Key)
    requires k in todo && todo <= keys && keys !! done
    ensures k !in EndedBut(done, keys, todo)
    ensures EndedBut(done, keys, todo - {k}) == EndedBut(done, keys, todo) + {k}
  {
  }

  lemma AllEnded(done: set<Key>, keys: set<Key>)
    ensures EndedBut(done, keys, {}) == done + keys && EndedBut(done, keys, keys) == done
  {
  }

  /** The tables once the leases of `keys` have been withdrawn with the failures `failed`. */
  ghost predicate AfterWithdrawal(s: Tables, clock: Clock, keys: set<Key>, failed: set<Delivery>,
                                  pending: map<Key, Pending>,
                                  outcomes: map<Key, Outcome>, o: Outcome)
    requires keys <= s.pending.Keys
  {
    && pending == s.pending - keys
    && outcomes == Noted(s.outcomes, keys, o)
    && failed == Failures(s.pending, keys, clock)
  }

  /** Withdrawing one more lease. */
  lemma WithdrawOneMore(s: Tables, clock: Clock, keys: set<Key>, failed: set<Delivery>, k: Key,
                        pending: map<Key, Pending>,
                        outcomes: map<Key, Outcome>, o: Outcome)
    requires keys <= s.pending.Keys && k in s.pending && k !in keys
    requires AfterWithdrawal(s, clock, keys, failed, pending, outcomes, o)
    ensures k in pending && pending[k] == s.pending[k]
    ensures AfterWithdrawal(s, clock, keys + {k}, failed + {FailureOf(s.pending[k], clock)}, pending - {k},
                            outcomes[k := o], o)
  {
    assert Failures(s.pending, keys + {k}, clock) == failed + {FailureOf(s.pending[k], clock)};
    OneLessPending(s.pending, keys, k);
    OneMoreOutcome(s.outcomes, keys, k, o);
  }

  lemma UnregisterOneMore(workers: map<WorkerId, Worker>, done: set<WorkerId>, id: WorkerId)
    requires id in workers && id !in done
    ensures id in Unregistered(workers, done) && Unregistered(workers, done)[id] == workers[id]
    ensures Unregistered(workers, done + {id}) ==
            if workers[id].EffectiveLoad() > 0 then Unregistered(workers, done)[id := workers[id].(draining := true)]
            else Unregistered(workers, done) - {id}
  {
  }

  /** The leases of one more worker. */
  lemma OneMoreWorker(s: Tables, gone: set<WorkerId>, id: WorkerId)
    requires id !in gone
    ensures LeasesOf(s, gone + {id}) == LeasesOf(s, gone) + LeasesOf(s, {id})
    ensures LeasesOf(s, gone) !! LeasesOf(s, {id})
  {
  }

  lemma LeasesLeft(s: Tables, gone: set<WorkerId>, id: WorkerId, pending: map<Key, Pending>, keys: set<Key>)
    requires id !in gone && pending == s.pending - LeasesOf(s, gone)
    requires keys == set k | k in pending && pending[k].worker == id
    ensures keys == LeasesOf(s, {id})
  {
  }

  lemma NothingSuperseded(s: Tables, clock: Clock, o: Outcome)
    ensures LeasesOf(s, {}) == {} && Unregistered(s.workers, {}) == s.workers && s.sent == s.sent + multiset({})
    ensures AfterWithdrawal(s, clock, {}, {}, s.pending, s.outcomes, o)
  {
  }

  /** The workers dealt with when `todo` of them remain. */
  ghost function GoneBut(stale: set<WorkerId>, todo: set<WorkerId>): set<WorkerId> { stale - todo }

  lemma OneMoreGone(stale: set<WorkerId>, todo: set<WorkerId>, id: WorkerId)
    requires id in todo && todo <= stale
    ensures GoneBut(stale, todo - {id}) == GoneBut(stale, todo) + {id} && id !in GoneBut(stale, todo)
  {
  }

  lemma AllGone(stale: set<WorkerId>)
    ensures GoneBut(stale, {}) == stale && GoneBut(stale, stale) == {}
  {
  }

  lemma SupersededIs(s: Tables, clock: Clock, stale: set<WorkerId>, failed: set<Delivery>, pending: map<Key, Pending>,
                     outcomes: map<Key, Outcome>, o: Outcome)
    requires o == Outcome(s.now + s.ttl, LeaseSuperseded, SupersededText)
    requires AfterWithdrawal(s, clock, LeasesOf(s, stale), failed, pending, outcomes, o)
    ensures Superseded(s, clock, stale) ==
            s.(workers := Unregistered(s.workers, stale), pending := pending, outcomes := outcomes, sent := s.sent + multiset(failed))
  {
  }

  function Senders(sent: multiset<Delivery>): set<nat> { set d | d in sent :: d.sender }

  /** The delivery's result is in its channel. */
  ghost predicate InChannel(channels: map<nat, EpisodeResult>, dispatches: seq<Pending>, d: Delivery) {
    && d.sender < |dispatches| && (d.cause.ByReport? ==> d.cause.report.result.Some?)
    && d.sender in channels && channels[d.sender] == ResultOf(dispatches[d.sender], d.cause)
  }

  /** The channels hold exactly the results of the deliveries. */
  ghost predicate ChannelsOk(channels: map<nat, EpisodeResult>, dispatches: seq<Pending>, sent: multiset<Delivery>) {
    && channels.Keys == Senders(sent)
    && forall d {:trigger InChannel(channels, dispatches, d)} :: d in sent ==> InChannel(channels, dispatches, d)
  }

  /** Whoever waits has an empty channel of its own. */
  ghost predicate WaitersOk(pending: map<Key, Pending>, dispatches: seq<Pending>, channels: map<nat, EpisodeResult>) {
    && OwnSenders(pending, |dispatches|)
    && forall k :: k in pending ==> dispatches[pending[k].sender] == pending[k] && pending[k].sender !in channels
  }

  lemma StaysInChannel(channels: map<nat, EpisodeResult>, channels': map<nat, EpisodeResult>, dispatches: seq<Pending>,
                       dispatches': seq<Pending>, d: Delivery)
    requires InChannel(channels, dispatches, d) && dispatches <= dispatches'
    requires d.sender in channels' && channels'[d.sender] == channels[d.sender]
    ensures InChannel(channels', dispatches', d)
  {
  }

  lemma NoChannelYet(channels: map<nat, EpisodeResult>, dispatches: seq<Pending>, sent: multiset<Delivery>, n: nat)
    requires ChannelsOk(channels, dispatches, sent) && n >= |dispatches|
    ensures n !in channels
  {
    forall d | d in sent ensures d.sender < |dispatches| { assert InChannel(channels, dispatches, d); }
    assert n !in Senders(sent);
  }

  lemma MoreDispatches(channels: map<nat, EpisodeResult>, dispatches: seq<Pending>, sent: multiset<Delivery>,
                       p: Pending)
    requires ChannelsOk(channels, dispatches, sent)
    ensures ChannelsOk(channels, dispatches + [p], sent)
  {
    forall d | d in sent ensures InChannel(channels, dispatches + [p], d) {
      assert InChannel(channels, dispatches, d);
      StaysInChannel(channels, channels, dispatches, dispatches + [p], d);
    }
  }

  lemma OneMoreWaiter(pending: map<Key, Pending>, dispatches: seq<Pending>, channels: map<nat, EpisodeResult>,
                      k: Key, p: Pending)
    requires WaitersOk(pending, dispatches, channels) && p.sender == |dispatches| && p.sender !in channels
    ensures WaitersOk(pending[k := p], dispatches + [p], channels)
  {
  }

  lemma NewWaiter(channels: map<nat, EpisodeResult>, pending: map<Key, Pending>, dispatches: seq<Pending>,
                  sent: multiset<Delivery>, k: Key, p: Pending)
    requires ChannelsOk(channels, dispatches, sent) && WaitersOk(pending, dispatches, channels)
    requires p.sender == |dispatches|
    ensures ChannelsOk(channels, dispatches + [p], sent) && WaitersOk(pending[k := p], dispatches + [p], channels)
  {
    NoChannelYet(channels, dispatches, sent, p.sender);
    MoreDispatches(channels, dispatches, sent, p);
    OneMoreWaiter(pending, dispatches, channels, k, p);
  }

  lemma SendersPlus(sent: multiset<Delivery>, d: Delivery)
    ensures Senders(sent + multiset{d}) == Senders(sent) + {d.sender}
  {
    var sent' := sent + multiset{d};
    forall n | n in Senders(sent) + {d.sender} ensures n in Senders(sent') {
      if n == d.sender {
        assert d in sent';
      } else {
        var e :| e in sent && e.sender == n;
        assert e in sent';
      }
    }
  }

  lemma MoreResults(channels: map<nat, EpisodeResult>, dispatches: seq<Pending>, sent: multiset<Delivery>,
                    d: Delivery, result: EpisodeResult)
    requires ChannelsOk(channels, dispatches, sent) && d.sender !in channels
    requires InChannel(map[d.sender := result], dispatches, d)
    ensures ChannelsOk(channels[d.sender := result], dispatches, sent + multiset{d})
  {
    var channels' := channels[d.sender := result];
    SendersPlus(sent, d);
    forall e | e in sent + multiset{d} ensures InChannel(channels', dispatches, e) {
      if e in sent {
        OlderResult(channels, dispatches, sent, d.sender, result, e);
      } else {
        NewestResult(channels, dispatches, d, result);
      }
    }
  }

  lemma NewestResult(channels: map<nat, EpisodeResult>, dispatches: seq<Pending>, d: Delivery, result: EpisodeResult)
    requires InChannel(map[d.sender := result], dispatches, d)
    ensures InChannel(channels[d.sender := result], dispatches, d)
  {
    StaysInChannel(map[d.sender := result], channels[d.sender := result], dispatches, dispatches, d);
  }

  lemma OlderResult(channels: map<nat, EpisodeResult>, dispatches: seq<Pending>, sent: multiset<Delivery>, n: nat,
                    result: EpisodeResult, e: Delivery)
    requires ChannelsOk(channels, dispatches, sent) && n !in channels && e in sent
    ensures InChannel(channels[n := result], dispatches, e)
  {
    assert InChannel(channels, dispatches, e);
    StaysInChannel(channels, channels[n := result], dispatches, dispatches, e);
  }

  lemma OneLessWaiter(pending: map<Key, Pending>, dispatches: seq<Pending>, channels: map<nat, EpisodeResult>,
                      k: Key, result: EpisodeResult)
    requires WaitersOk(pending, dispatches, channels) && k in pending
    ensures WaitersOk(pending - {k}, dispatches, channels[pending[k].sender := result])
  {
  }

  /** A waiter's result goes into its channel. */
  lemma OneMoreResult(channels: map<nat, EpisodeResult>, pending: map<Key, Pending>, dispatches: seq<Pending>,
                      sent: multiset<Delivery>, k: Key, cause: Cause, result: EpisodeResult)
    requires ChannelsOk(channels, dispatches, sent) && WaitersOk(pending, dispatches, channels) && k in pending
    requires (cause.ByReport? ==> cause.report.result.Some?) && result == ResultOf(pending[k], cause)
    ensures var p := pending[k];
            && ChannelsOk(channels[p.sender := result], dispatches, sent + multiset{Delivery(p.sender, cause)})
            && WaitersOk(pending - {k}, dispatches, channels[p.sender := result])
  {
    var d := Delivery(pending[k].sender, cause);
    assert InChannel(map[d.sender := result], dispatches, d);
    MoreResults(channels, dispatches, sent, d, result);
    OneLessWaiter(pending, dispatches, channels, k, result);
  }

  lemma DispatchedIs(s: Tables, clock: Clock, request: EpisodeRequest, worker: WorkerId, token: Token,
                     enqueueAt: nat, p: Pending)
    requires p == Pending(request, worker, NthLeaseId(s.epoch, |s.dispatches|), token, enqueueAt, clock.instantMs,
                          clock.unixSeconds, |s.dispatches|)
    ensures Dispatched(s, clock, request, worker, token, enqueueAt) ==
            s.(now := clock.instantMs, pending := s.pending[p.WaitsAt() := p], dispatches := s.dispatches + [p])
  {
  }

  lemma CancelledIs(s: Tables, at: nat, episode: string, attempt: nat, known: bool, keys: set<Key>, o: Outcome)
    requires keys == set k | k in s.pending && k.episode == episode && (attempt == 0 || k.attempt == attempt)
    requires o == Outcome(at + s.ttl, LateAfterCancel, EpisodeCancelled)
    ensures CancelledBy(s, at, episode, attempt, known) ==
            s.(now := at, pending := s.pending - keys,
               cancels := if known || keys != {} then s.cancels[episode := o] else s.cancels)
  {
    assert keys == CancelKeys(s, episode, attempt);
  }

  lemma AcceptedIs(s: Tables, clock: Clock, r: Report, o: Outcome, v: Verdict)
    requires WellFormed(r) && ReportKey(r) in s.pending
    requires o == Outcome(s.now + s.ttl, ResultAccepted, NoText)
    requires v == Verdict(s.now + s.ttl, true, ResultAccepted, AcceptedText)
    ensures var k := ReportKey(r);
            Accepted(s, clock, r) ==
            s.(pending := s.pending - {k}, outcomes := s.outcomes[k := o], verdicts := s.verdicts[r.idempotencyKey := v],
               sent := s.sent + multiset{Delivery(s.pending[k].sender, ByReport(r, clock))})
  {
  }

  method FinalizedResult(p: Pending, r: Report, clock: Clock) returns (result: EpisodeResult)
    requires r.result.Some?
    ensures result == ResultOf(p, ByReport(r, clock))
  {
    result := FinalizeOrFail(p.request, r.result.value, p.Timing(), clock);
  }

  method FailureResult(p: Pending, clock: Clock) returns (result: EpisodeResult)
    ensures result == ResultOf(p, BySupersession(clock))
  {
    result := SupersededResult(p, clock);
  }

  class Server {
    const epoch: nat
    const ttl: nat
    var now: nat
    var workers: map<WorkerId, Worker>
    var pending: map<Key, Pending>
    var verdicts: map<string, Verdict>
    var outcomes: map<Key, Outcome>
    var cancels: map<string, Outcome>
    var nextLeaseSeq: nat
    var nextSender: nat
    var channels: map<nat, EpisodeResult>
    ghost var dispatches: seq<Pending>
    ghost var sent: multiset<Delivery>

    ghost function View(): Tables
      reads this
    {
      Tables(epoch, ttl, now, workers, pending, verdicts, outcomes, cancels, dispatches, sent)
    }

    ghost predicate Valid()
      reads this
    {
      nextSender == |dispatches| && nextLeaseSeq == (1 + nextSender) % U64 && Linked()
    }

    /** Waiters, channels and deliveries agree. */
    ghost predicate Linked()
      reads this
    {
      WaitersOk(pending, dispatches, channels) && ChannelsOk(channels, dispatches, sent)
    }

    constructor (epoch: nat, configuredTtl: nat)
      ensures Valid() && View() == Init(epoch, if configuredTtl > 1 then configuredTtl else 1)
    {
      this.epoch, ttl := epoch, if configuredTtl > 1 then configuredTtl else 1;
      now, workers, pending, verdicts, outcomes, cancels := 0, map[], map[], map[], map[], map[];
      nextLeaseSeq, nextSender, channels := 1, 0, map[];
      dispatches, sent := [], multiset{};
    }

    method NextLeaseId() returns (lease: string)
      requires nextLeaseSeq < U64
      modifies this`nextLeaseSeq
      ensures lease == LeaseId(epoch, old(nextLeaseSeq)) && nextLeaseSeq == (old(nextLeaseSeq) + 1) % U64
    {
      lease := LeaseId(epoch, nextLeaseSeq);
      nextLeaseSeq := (nextLeaseSeq + 1) % U64;
    }

    /** The next lease id, for the sender that comes next. */
    method LeaseIdForNextSender() returns (lease: string)
      requires nextLeaseSeq == (1 + nextSender) % U64
      modifies this`nextLeaseSeq
      ensures lease == NthLeaseId(epoch, nextSender) && nextLeaseSeq == (2 + nextSender) % U64
    {
      NextSequence(nextSender);
      lease := NextLeaseId();
    }

    method Dispatch(clock: Clock, request: EpisodeRequest, worker: WorkerId, token: Token,
                    enqueueAt: nat) returns (lease: string)
      requires Valid()
      modifies this`now, this`pending, this`nextLeaseSeq, this`nextSender, this`dispatches
      ensures Valid() && View() == Dispatched(old(View()), clock, request, worker, token, enqueueAt)
      ensures lease == NthLeaseId(epoch, old(nextSender))
    {
      ghost var s := View();
      lease := LeaseIdForNextSender();
      var p := Pending(request, worker, lease, token, enqueueAt, clock.instantMs, clock.unixSeconds, nextSender);
      DispatchedIs(s, clock, request, worker, token, enqueueAt, p);
      AddWaiter(clock.instantMs, p);
    }

    /** The lease waits in the table. */
    method AddWaiter(at: nat, p: Pending)
      requires Linked() && p.sender == nextSender == |dispatches|
      modifies this`now, this`pending, this`nextSender, this`dispatches
      ensures Linked() && nextSender == |dispatches| == old(nextSender) + 1
      ensures View() == old(View()).(now := at, pending := old(pending)[p.WaitsAt() := p], dispatches := old(dispatches) + [p])
    {
      NewWaiter(channels, pending, dispatches, sent, p.WaitsAt(), p);
      now := at;
      pending := pending[p.WaitsAt() := p];
      dispatches := dispatches + [p];
      nextSender := nextSender + 1;
    }

    /** What the waiter of dispatch `i` finds in its channel: the result of its one delivery, or nothing yet. */
    method Receive(i: nat) returns (result: Option<EpisodeResult>)
      requires Valid()
      ensures result.Some? <==> i in Senders(sent)
      ensures forall d :: d in sent && d.sender == i ==> InChannel(channels, dispatches, d)
      ensures result.Some? ==> i in channels && result.value == channels[i]
    {
      result := if i in channels then Some(channels[i]) else None;
    }

    method SweepTtlCaches(at: nat)
      requires Valid()
      modifies this`now, this`verdicts, this`outcomes, this`cancels
      ensures Valid() && View() == Swept(old(View()), at)
    {
      now := at;
      verdicts := map k | k in verdicts && verdicts[k].expiresAt > at :: verdicts[k];
      outcomes := map k | k in outcomes && outcomes[k].expiresAt > at :: outcomes[k];
      cancels := map k | k in cancels && cancels[k].expiresAt > at :: cancels[k];
    }

    method Remember(r: Report, ack: bool, code: Code, message: Text)
      requires Valid()
      modifies this`verdicts
      ensures Valid() && View() == DispatchLeases.Remember(old(View()), r, ack, code, message)
    {
      verdicts := verdicts[r.idempotencyKey := Verdict(now + ttl, ack, code, message)];
    }

    /** The waiter of a lease receives its result, and the lease is no longer pending. */
    method Deliver(k: Key, result: EpisodeResult, ghost cause: Cause, ghost d: Delivery)
      requires Valid() && k in pending && d == Delivery(pending[k].sender, cause)
      requires (cause.ByReport? ==> cause.report.result.Some?) && result == ResultOf(pending[k], cause)
      modifies this`pending, this`channels, this`sent
      ensures Valid() && pending == old(pending) - {k} && sent == old(sent) + multiset{d}
    {
      OneMoreResult(channels, pending, dispatches, sent, k, cause, result);
      channels := channels[pending[k].sender := result];
      pending := pending - {k};
      sent := sent + multiset{d};
    }

    method RecordEnd(k: Key, o: Outcome, idempotencyKey: string, v: Verdict)
      requires Valid()
      modifies this`outcomes, this`verdicts
      ensures Valid()
      ensures View() == old(View()).(outcomes := old(outcomes)[k := o], verdicts := old(verdicts)[idempotencyKey := v])
    {
      outcomes := outcomes[k := o];
      verdicts := verdicts[idempotencyKey := v];
    }

    /** The matching lease ends: its waiter receives the result, its outcome and verdict are recorded. */
    method AcceptReport(clock: Clock, r: Report)
      requires Valid() && WellFormed(r) && ReportKey(r) in pending
      modifies this`pending, this`outcomes, this`verdicts, this`channels, this`sent
      ensures Valid() && View() == Accepted(old(View()), clock, r)
    {
      var k := ReportKey(r);
      var o, v := Outcome(now + ttl, ResultAccepted, NoText), Verdict(now + ttl, true, ResultAccepted, AcceptedText);
      var result := FinalizedResult(pending[k], r, clock);
      AcceptedIs(View(), clock, r, o, v);
      RecordEnd(k, o, r.idempotencyKey, v);
      Deliver(k, result, ByReport(r, clock), Delivery(pending[k].sender, ByReport(r, clock)));
    }

    method ReportResult(clock: Clock, r: Report) returns (reply: Response)
      requires Valid()
      modifies this`now, this`pending, this`outcomes, this`verdicts, this`cancels, this`channels, this`sent
      ensures Valid()
      ensures View() == Reported(old(View()), clock, r).0 && reply == Reported(old(View()), clock, r).1
    {
      SweepTtlCaches(clock.instantMs);
      if r.epoch != 0 && r.epoch != epoch {
        return Response(false, false, StaleEpoch, WrongEpoch);
      }
      if r.idempotencyKey == "" {
        return Response(false, false, InvalidRequest, EmptyKey);
      }
      if r.idempotencyKey in verdicts {
        var v := verdicts[r.idempotencyKey];
        return Response(v.ack, true, if v.ack then DuplicateAccepted else DuplicateRejected, v.message);
      }
      if r.result.None? {
        return Response(false, false, InvalidRequest, MissingResult);
      }
      if r.lease == "" || r.token == [] {
        return Response(false, false, InvalidRequest, MissingLease);
      }
      var k := ReportKey(r);
      if k in pending {
        if pending[k].worker != r.worker {
          Remember(r, false, WorkerMismatch, NotTheOwner);
          return Response(false, false, WorkerMismatch, NotTheOwner);
        }
        if pending[k].token != r.token {
          Remember(r, false, TokenMismatch, WrongToken);
          return Response(false, false, TokenMismatch, WrongToken);
        }
        AcceptReport(clock, r);
        return Response(true, false, ResultAccepted, AcceptedText);
      }
      var code, message := UnknownPending, NotPending;
      if k in outcomes {
        if outcomes[k].code == ResultAccepted {
          code, message := AlreadyCompleted, AcceptedBefore;
        } else {
          code, message := outcomes[k].code, outcomes[k].message;
        }
      } else if k.episode in cancels {
        code, message := LateAfterCancel, EpisodeWasCancelled;
      }
      Remember(r, false, code, message);
      return Response(false, true, code, message);
    }

    /** One lease is withdrawn: its waiter gets a failure, late reports an outcome. */
    method WithdrawLease(clock: Clock, k: Key, o: Outcome)
      requires Valid() && k in pending
      modifies this`pending, this`outcomes, this`channels, this`sent
      ensures Valid() && pending == old(pending) - {k}
      ensures outcomes == old(outcomes)[k := o]
      ensures sent == old(sent) + multiset{FailureOf(old(pending)[k], clock)}
    {
      var result := FailureResult(pending[k], clock);
      outcomes := outcomes[k := o];
      Deliver(k, result, BySupersession(clock), FailureOf(pending[k], clock));
    }

    /** Where the inner loop is when the leases of `todo` remain. */
    ghost predicate Withdrawing(s: Tables, clock: Clock, done: set<Key>, keys: set<Key>, todo: set<Key>,
                                failed: set<Delivery>, o: Outcome)
      requires done <= s.pending.Keys && keys <= s.pending.Keys
      reads this
    {
      && Valid() && sent == s.sent + multiset(failed)
      && AfterWithdrawal(s, clock, EndedBut(done, keys, todo), failed, pending, outcomes, o)
    }

    /** One turn of the inner loop. */
    method WithdrawNext(clock: Clock, k: Key, o: Outcome, ghost s: Tables, ghost done: set<Key>, ghost keys: set<Key>,
                        ghost todo: set<Key>, ghost before: set<Delivery>)
      returns (ghost failed: set<Delivery>)
      requires OwnSenders(s.pending, nextSender) && done <= s.pending.Keys && keys <= s.pending.Keys
      requires keys !! done && todo <= keys && k in todo && Withdrawing(s, clock, done, keys, todo, before, o)
      modifies this`pending, this`outcomes, this`channels, this`sent
      ensures Withdrawing(s, clock, done, keys, todo - {k}, failed, o)
    {
      ghost var ended := EndedBut(done, keys, todo);
      OneMoreEnded(done, keys, todo, k);
      NotFailedYet(s.pending, clock, ended, k, nextSender);
      WithdrawOneMore(s, clock, ended, before, k, pending, outcomes, o);
      OneMoreSent(s.sent, before, FailureOf(s.pending[k], clock));
      WithdrawLease(clock, k, o);
      failed := before + {FailureOf(s.pending[k], clock)};
    }

    /** The inner loop: every lease of `keys` is withdrawn. */
    method WithdrawAll(clock: Clock, keys: set<Key>, o: Outcome, ghost s: Tables, ghost done: set<Key>,
                       ghost before: set<Delivery>)
      returns (ghost failed: set<Delivery>)
      requires Valid() && OwnSenders(s.pending, nextSender)
      requires done <= s.pending.Keys && keys <= s.pending.Keys && keys !! done
      requires AfterWithdrawal(s, clock, done, before, pending, outcomes, o)
      requires sent == s.sent + multiset(before)
      modifies this`pending, this`outcomes, this`channels, this`sent
      ensures Valid() && sent == s.sent + multiset(failed)
      ensures AfterWithdrawal(s, clock, done + keys, failed, pending, outcomes, o)
    {
      var todo := keys;
      failed := before;
      AllEnded(done, keys);
      while todo != {}
        invariant todo <= keys && Withdrawing(s, clock, done, keys, todo, failed, o)
        decreases todo
      {
        var k :| k in todo;
        failed := WithdrawNext(clock, k, o, s, done, keys, todo, failed);
        todo := todo - {k};
      }
    }

    /** One turn of the outer loop: a replaced worker is unregistered and its leases withdrawn. */
    method SupersedeWorker(clock: Clock, id: WorkerId, o: Outcome, ghost s: Tables, ghost gone: set<WorkerId>,
                           ghost before: set<Delivery>)
      returns (ghost failed: set<Delivery>)
      requires Valid() && OwnSenders(s.pending, nextSender) && id in s.workers && id !in gone
      requires AfterWithdrawal(s, clock, LeasesOf(s, gone), before, pending, outcomes, o)
      requires sent == s.sent + multiset(before)
      requires workers == Unregistered(s.workers, gone)
      modifies this`workers, this`pending, this`outcomes, this`channels, this`sent
      ensures Valid() && sent == s.sent + multiset(failed)
      ensures AfterWithdrawal(s, clock, LeasesOf(s, gone + {id}), failed, pending, outcomes, o)
      ensures workers == Unregistered(s.workers, gone + {id})
    {
      UnregisterOneMore(s.workers, gone, id);
      OneMoreWorker(s, gone, id);
      if workers[id].EffectiveLoad() > 0 {
        workers := workers[id := workers[id].(draining := true)];
      } else {
        workers := workers - {id};
      }
      var keys := set k | k in pending && pending[k].worker == id;
      LeasesLeft(s, gone, id, pending, keys);
      failed := WithdrawAll(clock, keys, o, s, LeasesOf(s, gone), before);
    }

    /** The outer loop over the replaced workers. */
    method SupersedeAll(clock: Clock, stale: set<WorkerId>, o: Outcome,
                        ghost s: Tables) returns (ghost failed: set<Delivery>)
      requires Valid() && OwnSenders(s.pending, nextSender) && stale <= s.workers.Keys
      requires workers == s.workers && pending == s.pending && outcomes == s.outcomes && sent == s.sent
      modifies this`workers, this`pending, this`outcomes, this`channels, this`sent
      ensures Valid() && workers == Unregistered(s.workers, stale) && sent == s.sent + multiset(failed)
      ensures AfterWithdrawal(s, clock, LeasesOf(s, stale), failed, pending, outcomes, o)
    {
      var todo := stale;
      failed := {};
      NothingSuperseded(s, clock, o);
      AllGone(stale);
      while todo != {}
        invariant todo <= stale
        invariant Valid() && workers == Unregistered(s.workers, GoneBut(stale, todo))
        invariant sent == s.sent + multiset(failed)
        invariant AfterWithdrawal(s, clock, LeasesOf(s, GoneBut(stale, todo)), failed, pending, outcomes, o)
        decreases todo
      {
        var id :| id in todo;
        OneMoreGone(stale, todo, id);
        failed := SupersedeWorker(clock, id, o, s, GoneBut(stale, todo), failed);
        todo := todo - {id};
      }
    }

    method SupersedeSameEndpointWorkers(clock: Clock, newId: WorkerId, endpoint: string)
      requires Valid() && now == clock.instantMs
      modifies this`workers, this`pending, this`outcomes, this`channels, this`sent
      ensures Valid() && View() == Superseded(old(View()), clock, StaleIds(old(workers), newId, endpoint))
    {
      var stale := StaleIds(workers, newId, endpoint);
      ghost var s := View();
      var o := Outcome(now + ttl, LeaseSuperseded, SupersededText);
      ghost var failed := SupersedeAll(clock, stale, o, s);
      SupersededIs(s, clock, stale, failed, pending, outcomes, o);
    }

    method RegisterWorker(clock: Clock, id: WorkerId, info: Worker) returns (accepted: bool)
      requires Valid()
      modifies this`now, this`workers, this`pending, this`outcomes, this`channels, this`sent
      ensures Valid()
      ensures View() == Registered(old(View()), clock, id, info).0
      ensures accepted == Registered(old(View()), clock, id, info).1
    {
      now := clock.instantMs;
      if id in workers && workers[id].EffectiveLoad() > 0 {
        workers := workers[id := workers[id].(draining := true)];
        return false;
      }
      workers := workers[id := info];
      SupersedeSameEndpointWorkers(clock, id, info.endpoint);
      return true;
    }

    method RemovePending(keys: set<Key>)
      requires Valid()
      modifies this`pending
      ensures Valid() && pending == old(pending) - keys
    {
      var todo := keys;
      while todo != {}
        invariant todo <= keys && Valid()
        invariant forall k :: k in pending <==> k in old(pending) && k !in keys - todo
        invariant forall k :: k in pending ==> pending[k] == old(pending)[k]
        decreases todo
      {
        var k :| k in todo;
        pending := pending - {k};
        todo := todo - {k};
      }
    }

    /** The lease part of CancelEpisode. */
    method CancelEpisode(at: nat, episode: string, attempt: nat, known: bool)
      requires Valid()
      modifies this`now, this`pending, this`cancels
      ensures Valid() && View() == CancelledBy(old(View()), at, episode, attempt, known)
    {
      var keys := set k | k in pending && k.episode == episode && (attempt == 0 || k.attempt == attempt);
      var o := Outcome(at + ttl, LateAfterCancel, EpisodeCancelled);
      CancelledIs(View(), at, episode, attempt, known, keys, o);
      now := at;
      RemovePending(keys);
      if known || keys != {} {
        cancels := cancels[episode := o];
      }
    }

    /** The deadline of dispatch `i`, waiting at `k`, passes. */
    method RecordTimeout(at: nat, k: Key, ghost i: nat)
      requires Valid() && i < |dispatches| && k == dispatches[i].WaitsAt()
      modifies this`now, this`pending, this`outcomes
      ensures Valid() && View() == TimedOutAt(old(View()), at, i)
    {
      now := at;
      pending := pending - {k};
      outcomes := outcomes[k := Outcome(at + ttl, LateAfterTimeout, ExecutionTimeout)];
    }
  }
}
