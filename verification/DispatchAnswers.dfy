/**
 What each handler of the dispatch-lease protocol answers and does, stated on the fields of its arguments and of the
 tables: which reports are accepted, which are refused and why, which registrations are refused, what a supersession, a
 cancellation and a deadline leave behind.  The results over runs are in DispatchTheorems.
 */
module DispatchAnswers {
  import opened Options
  import opened LeaseIds
  import opened Finalizer
  import opened DispatchLeases
  import opened DispatchTheorems

  // ---------------------------------------------------------------- what a sweep leaves

  /** An entry is kept exactly until the time it expires at. */
  ghost predicate SweptCaches(s: Tables, s': Tables, now: nat) {
    && (forall k :: k in s'.verdicts <==> k in s.verdicts && now < s.verdicts[k].expiresAt)
    && (forall k :: k in s'.verdicts ==> s'.verdicts[k] == s.verdicts[k])
    && SweptOutcomes(s, s', now)
  }

  ghost predicate SweptOutcomes(s: Tables, s': Tables, now: nat) {
    && (forall k :: k in s'.outcomes <==> k in s.outcomes && now < s.outcomes[k].expiresAt)
    && (forall k :: k in s'.outcomes ==> s'.outcomes[k] == s.outcomes[k])
    && (forall e :: e in s'.cancels <==> e in s.cancels && now < s.cancels[e].expiresAt)
    && (forall e :: e in s'.cancels ==> s'.cancels[e] == s.cancels[e])
  }

  /** No lease, no sender, no worker is touched. */
  ghost predicate LeasesUntouched(s: Tables, s': Tables) {
    && s'.epoch == s.epoch && s'.ttl == s.ttl && s'.workers == s.workers && s'.pending == s.pending
    && s'.dispatches == s.dispatches && s'.sent == s.sent
  }

  lemma SweepMeans(s: Tables, now: nat)
    ensures SweptCaches(s, Swept(s, now), now) && LeasesUntouched(s, Swept(s, now)) && Swept(s, now).now == now
  {
  }

  // ---------------------------------------------------------------- reports that reach no verdict

  /** A report of another server's epoch is refused, whatever else it says, and nothing but the sweep happens. */
  lemma ForeignEpochIsRefused(s: Tables, clock: Clock, r: Report)
    requires r.epoch != 0 && r.epoch != s.epoch
    ensures var (s', reply) := Reported(s, clock, r);
            && reply == Response(false, false, StaleEpoch, WrongEpoch)
            && SweptCaches(s, s', clock.instantMs) && LeasesUntouched(s, s')
  {
  }

  /** A verdict that has not expired answers every report of this epoch under its key. */
  lemma KnownKeyIsADuplicate(s: Tables, clock: Clock, r: Report)
    requires (r.epoch == 0 || r.epoch == s.epoch) && r.idempotencyKey != ""
    requires r.idempotencyKey in s.verdicts && clock.instantMs < s.verdicts[r.idempotencyKey].expiresAt
    ensures var (s', reply) := Reported(s, clock, r);
            var v := s.verdicts[r.idempotencyKey];
            && reply == Response(v.ack, true, if v.ack then DuplicateAccepted else DuplicateRejected, v.message)
            && SweptCaches(s, s', clock.instantMs) && LeasesUntouched(s, s')
  {
  }

  /** A report of this epoch that lacks key, result, lease or token is refused as invalid, and leaves no verdict. */
  lemma IncompleteReportIsInvalid(s: Tables, clock: Clock, r: Report)
    requires r.epoch == 0 || r.epoch == s.epoch
    requires r.idempotencyKey in s.verdicts ==> s.verdicts[r.idempotencyKey].expiresAt <= clock.instantMs
    requires r.idempotencyKey == "" || r.result.None? || r.lease == "" || r.token == []
    ensures var (s', reply) := Reported(s, clock, r);
            && reply == Response(false, false, InvalidRequest,
                                 if r.idempotencyKey == "" then EmptyKey
                                 else if r.result.None? then MissingResult else MissingLease)
            && SweptCaches(s, s', clock.instantMs) && LeasesUntouched(s, s')
  {
  }

  // ---------------------------------------------------------------- reports that are judged

  /** The answer is remembered under the report's key for ttl; the other verdicts are swept. */
  ghost predicate Remembered(s: Tables, s': Tables, now: nat, key: string, reply: Response) {
    && key in s'.verdicts && s'.verdicts[key] == Verdict(now + s.ttl, reply.ack, reply.code, reply.message)
    && (forall k :: k in s'.verdicts && k != key <==> k in s.verdicts && k != key && now < s.verdicts[k].expiresAt)
    && (forall k :: k in s'.verdicts && k != key ==> s'.verdicts[k] == s.verdicts[k])
  }

  lemma Judgement(s: Tables, clock: Clock, r: Report)
    requires (r.epoch == 0 || r.epoch == s.epoch) && r.idempotencyKey != "" && r.result.Some? && r.lease != ""
    requires r.token != [] && (r.idempotencyKey in s.verdicts ==> s.verdicts[r.idempotencyKey].expiresAt <= clock.instantMs)
    ensures Reported(s, clock, r) == Judged(Swept(s, clock.instantMs), clock, r)
  {
  }

  /**
   A report that matches a pending lease is accepted: of this epoch or of none, under a key without a standing verdict,
   with the lease's episode, attempt, lease id, worker and token.  It takes that lease, uses that lease's sender with
   its own result, and is remembered, with the outcome of the lease.
   */
  lemma MatchingReportIsAccepted(s: Tables, clock: Clock, r: Report, k: Key)
    requires (r.epoch == 0 || r.epoch == s.epoch) && r.idempotencyKey != "" && r.result.Some? && r.lease != ""
    requires r.token != [] && (r.idempotencyKey in s.verdicts ==> s.verdicts[r.idempotencyKey].expiresAt <= clock.instantMs)
    requires k == Key(r.result.value.episodeId, r.result.value.attemptId, r.lease) && k in s.pending
    requires s.pending[k].worker == r.worker && s.pending[k].token == r.token
    ensures var (s', reply) := Reported(s, clock, r);
            && reply == Response(true, false, ResultAccepted, AcceptedText)
            && s'.pending == s.pending - {k}
            && s'.sent == s.sent + multiset{Delivery(s.pending[k].sender, ByReport(r, clock))}
            && Remembered(s, s', clock.instantMs, r.idempotencyKey, reply)
            && k in s'.outcomes && s'.outcomes[k] == Outcome(clock.instantMs + s.ttl, ResultAccepted, NoText)
            && (forall j :: j in s'.outcomes && j != k <==> j in s.outcomes && j != k && clock.instantMs < s.outcomes[j].expiresAt)
            && (forall j :: j in s'.outcomes && j != k ==> s'.outcomes[j] == s.outcomes[j])
            && s'.workers == s.workers && s'.dispatches == s.dispatches
  {
    Judgement(s, clock, r);
  }

  /** A report on a pending lease by another worker, or with another token, is refused for that; the lease stays. */
  lemma StrangersReportIsRefused(s: Tables, clock: Clock, r: Report, k: Key)
    requires (r.epoch == 0 || r.epoch == s.epoch) && r.idempotencyKey != "" && r.result.Some? && r.lease != ""
    requires r.token != [] && (r.idempotencyKey in s.verdicts ==> s.verdicts[r.idempotencyKey].expiresAt <= clock.instantMs)
    requires k == Key(r.result.value.episodeId, r.result.value.attemptId, r.lease) && k in s.pending
    requires s.pending[k].worker != r.worker || s.pending[k].token != r.token
    ensures var (s', reply) := Reported(s, clock, r);
            && reply == (if s.pending[k].worker != r.worker then Response(false, false, WorkerMismatch, NotTheOwner)
                         else Response(false, false, TokenMismatch, WrongToken))
            && Remembered(s, s', clock.instantMs, r.idempotencyKey, reply)
            && SweptOutcomes(s, s', clock.instantMs) && LeasesUntouched(s, s')
  {
    Judgement(s, clock, r);
  }

  /**
   A report on a lease that is not pending is refused as a duplicate, so that its worker drops it: with the lease's
   outcome while that lasts, else with the cancellation of its episode while that lasts, else as unknown.
   */
  lemma LateReportIsRefused(s: Tables, clock: Clock, r: Report, k: Key)
    requires (r.epoch == 0 || r.epoch == s.epoch) && r.idempotencyKey != "" && r.result.Some? && r.lease != ""
    requires r.token != [] && (r.idempotencyKey in s.verdicts ==> s.verdicts[r.idempotencyKey].expiresAt <= clock.instantMs)
    requires k == Key(r.result.value.episodeId, r.result.value.attemptId, r.lease) && k !in s.pending
    ensures var (s', reply) := Reported(s, clock, r);
            var ended := k in s.outcomes && clock.instantMs < s.outcomes[k].expiresAt;
            var cancelled := k.episode in s.cancels && clock.instantMs < s.cancels[k.episode].expiresAt;
            && !reply.ack && reply.duplicate
            && (ended && s.outcomes[k].code == ResultAccepted ==> reply.code == AlreadyCompleted && reply.message == AcceptedBefore)
            && (ended && s.outcomes[k].code != ResultAccepted ==>
                  reply.code == s.outcomes[k].code && reply.message == s.outcomes[k].message)
            && (!ended && cancelled ==> reply.code == LateAfterCancel && reply.message == EpisodeWasCancelled)
            && (!ended && !cancelled ==> reply.code == UnknownPending && reply.message == NotPending)
            && Remembered(s, s', clock.instantMs, r.idempotencyKey, reply)
            && SweptOutcomes(s, s', clock.instantMs) && LeasesUntouched(s, s')
  {
    Judgement(s, clock, r);
  }

  // ---------------------------------------------------------------- registrations

  /**
   A registration is refused exactly when its id is listed with load, reserved or reported; the listed worker then
   drains, and nothing else changes.
   */
  lemma RefusedRegistration(s: Tables, clock: Clock, id: WorkerId, info: Worker)
    ensures var (s', accepted) := Registered(s, clock, id, info);
            && (!accepted <==> id in s.workers && (s.workers[id].reserved > 0 || s.workers[id].reported > 0))
            && (!accepted ==> s' == s.(now := clock.instantMs, workers := s.workers[id := s.workers[id].(draining := true)]))
  {
  }

  /**
   An accepted registration lists the worker; of the others at its endpoint those with load, reserved or reported,
   stay as draining and those without go; workers elsewhere are untouched.
   */
  lemma AcceptedRegistration(s: Tables, clock: Clock, id: WorkerId, info: Worker)
    requires Registered(s, clock, id, info).1
    ensures var s' := Registered(s, clock, id, info).0;
            && id in s'.workers && s'.workers[id] == info
            && (forall w :: w in s'.workers ==> w == id || w in s.workers)
            && (forall w :: w in s.workers && w != id && s.workers[w].endpoint != info.endpoint ==>
                              w in s'.workers && s'.workers[w] == s.workers[w])
            && (forall w :: w in s.workers && w != id && s.workers[w].endpoint == info.endpoint ==>
                              if s.workers[w].reserved > 0 || s.workers[w].reported > 0
                              then w in s'.workers && s'.workers[w] == s.workers[w].(draining := true)
                              else w !in s'.workers)
  {
  }

  /** The lease at `k` belongs to another worker listed at the endpoint. */
  predicate Loses(s: Tables, id: WorkerId, endpoint: string, k: Key)
    requires k in s.pending
  {
    var w := s.pending[k].worker;
    w != id && w in s.workers && s.workers[w].endpoint == endpoint
  }

  /**
   An accepted registration takes exactly the leases of the other workers listed at its endpoint, with one failure each
   through their own senders and an outcome that late reports will be told until ttl has passed.
   */
  lemma SupersededLease(s: Tables, clock: Clock, id: WorkerId, info: Worker, k: Key)
    requires TablesOk(s) && Registered(s, clock, id, info).1 && k in s.pending
    ensures var s' := Registered(s, clock, id, info).0;
            var w := s.pending[k].worker;
            if w != id && w in s.workers && s.workers[w].endpoint == info.endpoint then
              && k !in s'.pending && k in s'.outcomes
              && s'.outcomes[k] == Outcome(clock.instantMs + s.ttl, LeaseSuperseded, SupersededText)
              && s'.sent[Delivery(s.pending[k].sender, BySupersession(clock))] == 1
            else k in s'.pending && s'.pending[k] == s.pending[k]
  {
    RegisteredLeases(s, clock, id, info);
    LosersAreReplaced(s, id, info, k);
    if s.pending[k].worker in Replaced(s, id, info) {
      RegisteredNotifies(s, clock, id, info, k);
    }
  }

  lemma LosersAreReplaced(s: Tables, id: WorkerId, info: Worker, k: Key)
    requires k in s.pending
    ensures s.pending[k].worker in Replaced(s, id, info) <==> Loses(s, id, info.endpoint, k)
    ensures k in LeasesOf(s, Replaced(s, id, info)) <==> Loses(s, id, info.endpoint, k)
  {
  }

  /** Beyond that it makes no lease and changes no outcome, cancellation or verdict. */
  lemma SupersessionSparesTheRest(s: Tables, clock: Clock, id: WorkerId, info: Worker)
    requires Registered(s, clock, id, info).1
    ensures var s' := Registered(s, clock, id, info).0;
            && (forall k :: k in s'.pending ==> k in s.pending)
            && (forall k :: (k in s.pending ==> !Loses(s, id, info.endpoint, k)) ==>
                              (k in s'.outcomes <==> k in s.outcomes) && (k in s.outcomes ==> s'.outcomes[k] == s.outcomes[k]))
            && s'.cancels == s.cancels && s'.verdicts == s.verdicts
  {
  }

  // ---------------------------------------------------------------- dispatches and other ends

  /** A dispatch waits under its own episode, attempt and lease id, with the sender made for it. */
  lemma DispatchWaits(s: Tables, clock: Clock, request: EpisodeRequest, worker: WorkerId, token: Token, at: nat)
    ensures var s' := Dispatched(s, clock, request, worker, token, at);
            var n := |s.dispatches|;
            var k := Key(request.episodeId, request.attemptId, NthLeaseId(s.epoch, n));
            && |s'.dispatches| == n + 1 && s'.dispatches[..n] == s.dispatches && s'.dispatches[n] == s'.pending[k]
            && k in s'.pending && s'.pending == s.pending[k := s'.pending[k]]
            && s'.pending[k].request == request && s'.pending[k].worker == worker && s'.pending[k].token == token
            && s'.pending[k].sender == n && s'.pending[k].enqueueAt == at && s'.pending[k].dispatchAt == clock.instantMs
            && s'.pending[k].dispatchTs == clock.unixSeconds && s'.pending[k].lease == k.lease
            && s'.verdicts == s.verdicts && s'.outcomes == s.outcomes && s'.cancels == s.cancels && s'.sent == s.sent
            && s'.workers == s.workers && s'.now == clock.instantMs
  {
    var s' := Dispatched(s, clock, request, worker, token, at);
    assert s'.dispatches[..|s.dispatches|] == s.dispatches;
  }

  /**
   A cancellation ends the leases of its episode, of all attempts when it names none, and is remembered for the episode
   when there was anything to cancel.
   */
  lemma CancellationMeans(s: Tables, now: nat, episode: string, attempt: nat, known: bool)
    ensures var s' := CancelledBy(s, now, episode, attempt, known);
            var some := exists k :: k in s.pending && k.episode == episode && (attempt == 0 || k.attempt == attempt);
            && (forall k :: k in s'.pending <==> k in s.pending && !(k.episode == episode && (attempt == 0 || k.attempt == attempt)))
            && (forall k :: k in s'.pending ==> s'.pending[k] == s.pending[k])
            && s'.cancels == (if known || some then s.cancels[episode := Outcome(now + s.ttl, LateAfterCancel, EpisodeCancelled)]
                              else s.cancels)
            && s' == s.(now := now, pending := s'.pending, cancels := s'.cancels)
  {
    var keys := CancelKeys(s, episode, attempt);
    if k :| k in s.pending && k.episode == episode && (attempt == 0 || k.attempt == attempt) {
      assert k in keys;
    }
  }

  /** A deadline ends its own lease, if that is still pending, and writes the outcome in any case. */
  lemma DeadlineMeans(s: Tables, now: nat, i: nat)
    requires i < |s.dispatches|
    ensures var s' := TimedOutAt(s, now, i);
            var p := s.dispatches[i];
            var k := Key(p.request.episodeId, p.request.attemptId, p.lease);
            && k !in s'.pending && (forall j :: j in s.pending && j != k ==> j in s'.pending && s'.pending[j] == s.pending[j])
            && (forall j :: j in s'.pending ==> j in s.pending)
            && s'.outcomes == s.outcomes[k := Outcome(now + s.ttl, LateAfterTimeout, ExecutionTimeout)]
            && s' == s.(now := now, pending := s'.pending, outcomes := s'.outcomes)
            && Dropped(s, now, i) == s'.(outcomes := s.outcomes)
  {
  }

  /**
   The times in what a waiter receives: the dispatch, and the latency counted from the dispatch of this lease, not from
   when its episode was queued, unless the worker's own result brings figures of its own.
   */
  lemma DeliveredTimes(p: Pending, cause: Cause)
    requires cause.ByReport? ==> cause.report.result.Some?
    ensures var out := ResultOf(p, cause);
            var waited := if cause.clock.instantMs > p.dispatchAt then cause.clock.instantMs - p.dispatchAt else 0;
            && out.resultReadyTs.Some? && out.dispatchTs.Some? && out.serverLatencyMs.Some?
            && (cause.BySupersession? || cause.report.result.value.dispatchTs.None? ==> out.dispatchTs == Some(p.dispatchTs))
            && (cause.BySupersession? || cause.report.result.value.serverLatencyMs.None? ==> out.serverLatencyMs == Some(waited))
            && (cause.ByReport? ==>
                  || (out.dispatchTs == Some(p.dispatchTs) && out.serverLatencyMs == Some(waited))
                  || (out.status == cause.report.result.value.status
                      && out.dispatchTs in {cause.report.result.value.dispatchTs, Some(p.dispatchTs)}
                      && out.serverLatencyMs in {cause.report.result.value.serverLatencyMs, Some(waited)}))
  {
    if cause.ByReport? {
      LetThrough(p.request, cause.report.result.value, p.Timing(), cause.clock);
    }
  }

  // ---------------------------------------------------------------- over runs

  lemma {:induction false} ServerStays(s: Tables, es: seq<Event>)
    requires Runs(s, es)
    ensures SameServer(s, After(s, es), After(s, es).now) && s.now <= After(s, es).now
    ensures s.dispatches <= After(s, es).dispatches
    decreases |es|
  {
    if es != [] {
      ServerStays(Apply(s, es[0]), es[1..]);
    }
  }

  /** A server that has seen nothing acknowledges no report, and over every run it keeps its epoch and its time to live. */
  lemma FreshServer(epoch: nat, ttl: nat, clock: Clock, r: Report, es: seq<Event>)
    requires Runs(Init(epoch, ttl), es)
    ensures var s := Init(epoch, ttl);
            && s.pending == map[] && s.verdicts == map[] && s.outcomes == map[] && s.cancels == map[] && s.workers == map[]
            && s.dispatches == [] && s.sent == multiset{} && s.now == 0
            && !Reported(s, clock, r).1.ack
            && After(s, es).epoch == epoch && After(s, es).ttl == ttl
  {
    ServerStays(Init(epoch, ttl), es);
  }
}
