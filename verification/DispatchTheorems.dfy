/**
 What holds over every run of the dispatch-lease protocol.
 */
module DispatchTheorems {
  import opened Options
  import opened LeaseIds
  import opened Finalizer
  import opened DispatchLeases

  // ---------------------------------------------------------------- one result per lease

  /** The delivery is one that its lease entitles to. */
  ghost predicate Entitled(s: Tables, d: Delivery) {
    && d.sender < |s.dispatches|
    && var p := s.dispatches[d.sender];
    d.cause.ByReport? ==>
      var r := d.cause.report;
      r.result.Some? && ReportKey(r) == p.WaitsAt() && r.worker == p.worker && r.token == p.token
  }

  /** The entry under `k` is that of the dispatch whose key `k` is, and its sender has not been used. */
  ghost predicate Waiting(s: Tables, k: Key) {
    && k in s.pending
    && s.pending[k].sender < |s.dispatches|
    && s.dispatches[s.pending[k].sender] == s.pending[k]
    && k == s.pending[k].WaitsAt()
    && forall d :: d in s.sent ==> d.sender != s.pending[k].sender
  }

  /** Every delivery is entitled, and no sender was used twice. */
  ghost predicate SentOk(s: Tables) {
    && (forall d :: d in s.sent ==> Entitled(s, d) && s.sent[d] == 1)
    && (forall d, d' :: d in s.sent && d' in s.sent && d.sender == d'.sender ==> d == d')
  }

  ghost predicate Named(s: Tables, k: Key) { exists i :: 0 <= i < |s.dispatches| && k == s.dispatches[i].WaitsAt() }

  ghost predicate TablesOk(s: Tables) {
    && (forall k :: k in s.pending ==> Waiting(s, k))
    && SentOk(s)
    && (forall k :: k in s.outcomes ==> Named(s, k))
  }

  /** Leases may end; nothing else about dispatch changes. */
  ghost predicate OnlyEnds(s: Tables, s': Tables) {
    && s'.dispatches == s.dispatches && s'.epoch == s.epoch && s'.sent == s.sent
    && (forall k :: k in s'.pending ==> k in s.pending && s'.pending[k] == s.pending[k])
    && (forall k :: k in s'.outcomes ==> k in s.outcomes || Named(s, k))
  }

  lemma EndsKeep(s: Tables, s': Tables)
    requires TablesOk(s) && OnlyEnds(s, s')
    ensures TablesOk(s')
  {
    forall k | k in s'.pending ensures Waiting(s', k) { assert Waiting(s, k); }
    forall d | d in s'.sent ensures Entitled(s', d) && s'.sent[d] == 1 { assert Entitled(s, d); }
    forall k | k in s'.outcomes ensures Named(s', k) {
      var i :| 0 <= i < |s.dispatches| && k == s.dispatches[i].WaitsAt();
      assert k == s'.dispatches[i].WaitsAt();
    }
  }

  lemma DispatchKeeps(s: Tables, clock: Clock, request: EpisodeRequest, worker: WorkerId, token: Token, at: nat)
    requires TablesOk(s)
    ensures TablesOk(Dispatched(s, clock, request, worker, token, at))
  {
    var s' := Dispatched(s, clock, request, worker, token, at);
    assert forall i :: 0 <= i < |s.dispatches| ==> s'.dispatches[i] == s.dispatches[i];
    forall d | d in s'.sent ensures Entitled(s', d) && s'.sent[d] == 1 { assert Entitled(s, d); }
    forall k | k in s'.pending ensures Waiting(s', k) {
      if s'.pending[k].sender < |s.dispatches| { assert Waiting(s, k); }
    }
    forall k | k in s'.outcomes ensures Named(s', k) {
      var i :| 0 <= i < |s.dispatches| && k == s.dispatches[i].WaitsAt();
      assert k == s'.dispatches[i].WaitsAt();
    }
  }

  lemma WaitingIsNamed(s: Tables, k: Key)
    requires Waiting(s, k)
    ensures Named(s, k)
  {
  }

  /** Distinct keys wait with distinct senders. */
  lemma SendersDiffer(s: Tables, k: Key, k': Key)
    requires Waiting(s, k) && Waiting(s, k') && k != k'
    ensures s.pending[k].sender != s.pending[k'].sender
  {
  }

  lemma AcceptKeeps(s: Tables, clock: Clock, r: Report)
    requires TablesOk(s) && WellFormed(r) && ReportKey(r) in s.pending
    requires s.pending[ReportKey(r)].worker == r.worker && s.pending[ReportKey(r)].token == r.token
    ensures TablesOk(Accepted(s, clock, r))
  {
    var s' := Accepted(s, clock, r);
    var k := ReportKey(r);
    var p := s.pending[k];
    var d := Delivery(p.sender, ByReport(r, clock));
    assert Waiting(s, k);
    assert s'.sent == s.sent + multiset{d} && d !in s.sent;
    forall e | e in s'.sent ensures Entitled(s', e) && s'.sent[e] == 1 {
      if e != d { assert e in s.sent && Entitled(s, e); }
    }
    forall j | j in s'.pending ensures Waiting(s', j) {
      assert Waiting(s, j);
      SendersDiffer(s, j, k);
    }
    forall j | j in s'.outcomes ensures Named(s', j) {
      if j == k { WaitingIsNamed(s, k); }
      var i :| 0 <= i < |s.dispatches| && j == s.dispatches[i].WaitsAt();
      assert j == s'.dispatches[i].WaitsAt();
    }
  }

  /** The failures of a set of leases: one each. */
  lemma FailuresDiffer(s: Tables, clock: Clock, keys: set<Key>)
    requires TablesOk(s) && keys <= s.pending.Keys
    ensures var failures := Failures(s.pending, keys, clock);
            && (forall d, d' :: d in failures && d' in failures && d.sender == d'.sender ==> d == d')
            && (forall d :: d in failures ==> d !in s.sent && Entitled(s, d))
            && (forall d, d' :: d in failures && d' in s.sent ==> d.sender != d'.sender)
  {
    forall k | k in keys ensures Waiting(s, k) {}
    forall k, k' | k in keys && k' in keys && s.pending[k].sender == s.pending[k'].sender ensures k == k' {
      if k != k' { SendersDiffer(s, k, k'); }
    }
  }

  lemma WithdrawSends(s: Tables, clock: Clock, keys: set<Key>)
    requires TablesOk(s) && keys <= s.pending.Keys
    ensures SentOk(Withdrawn(s, clock, keys))
  {
    var s' := Withdrawn(s, clock, keys);
    var failures := Failures(s.pending, keys, clock);
    FailuresDiffer(s, clock, keys);
    assert s'.sent == s.sent + multiset(failures);
    forall d | d in s'.sent ensures Entitled(s', d) && s'.sent[d] == 1 {
      assert d in s.sent || d in failures;
      assert Entitled(s, d);
    }
  }

  lemma WithdrawWaits(s: Tables, clock: Clock, keys: set<Key>, j: Key)
    requires TablesOk(s) && keys <= s.pending.Keys && j in s.pending && j !in keys
    ensures Waiting(Withdrawn(s, clock, keys), j)
  {
    var s' := Withdrawn(s, clock, keys);
    assert Waiting(s, j);
    forall d | d in s'.sent ensures d.sender != s.pending[j].sender {
      if d !in s.sent {
        var k :| k in keys && d == FailureOf(s.pending[k], clock);
        assert Waiting(s, k);
        SendersDiffer(s, j, k);
      }
    }
  }

  lemma WithdrawKeeps(s: Tables, clock: Clock, keys: set<Key>)
    requires TablesOk(s) && keys <= s.pending.Keys
    ensures TablesOk(Withdrawn(s, clock, keys))
  {
    var s' := Withdrawn(s, clock, keys);
    WithdrawSends(s, clock, keys);
    forall j | j in s'.pending ensures Waiting(s', j) { WithdrawWaits(s, clock, keys, j); }
    forall j | j in s'.outcomes ensures Named(s', j) {
      if j in keys { assert Waiting(s, j); WaitingIsNamed(s, j); }
      assert Named(s, j);
    }
  }

  lemma RegisterKeeps(s: Tables, clock: Clock, id: WorkerId, info: Worker)
    requires TablesOk(s)
    ensures TablesOk(Registered(s, clock, id, info).0)
  {
    var s' := Registered(s, clock, id, info).0;
    if Rejected(s, id) {
      EndsKeep(s, s');
    } else {
      var s1 := s.(now := clock.instantMs, workers := s.workers[id := info]);
      EndsKeep(s, s1);
      var keys := LeasesOf(s1, StaleIds(s1.workers, id, info.endpoint));
      WithdrawKeeps(s1, clock, keys);
      EndsKeep(Withdrawn(s1, clock, keys), s');
    }
  }

  lemma JudgeKeeps(s: Tables, clock: Clock, r: Report)
    requires TablesOk(s) && WellFormed(r)
    ensures TablesOk(Judged(s, clock, r).0)
  {
    var k := ReportKey(r);
    if k in s.pending && s.pending[k].worker == r.worker && s.pending[k].token == r.token {
      AcceptKeeps(s, clock, r);
    } else {
      EndsKeep(s, Judged(s, clock, r).0);
    }
  }

  lemma ReportKeeps(s: Tables, clock: Clock, r: Report)
    requires TablesOk(s)
    ensures TablesOk(Reported(s, clock, r).0)
  {
    var s0 := Swept(s, clock.instantMs);
    EndsKeep(s, s0);
    if WellFormed(r) {
      JudgeKeeps(s0, clock, r);
    }
  }

  lemma EndingKeeps(s: Tables, e: Event)
    requires TablesOk(s) && Enabled(s, e) && (e.Sweep? || e.Cancel? || e.Timeout? || e.Drop? || e.Reschedule?)
    ensures TablesOk(Apply(s, e))
  {
    EndsKeep(s, Apply(s, e));
  }

  lemma TablesStep(s: Tables, e: Event)
    requires TablesOk(s) && Enabled(s, e)
    ensures TablesOk(Apply(s, e))
  {
    match e
    case Dispatch(clock, request, worker, token, at) => DispatchKeeps(s, clock, request, worker, token, at);
    case ReportResult(clock, r) => ReportKeeps(s, clock, r);
    case RegisterWorker(clock, id, info) => RegisterKeeps(s, clock, id, info);
    case Sweep(_) => EndingKeeps(s, e);
    case Cancel(_, _, _, _) => EndingKeeps(s, e);
    case Timeout(_, _) => EndingKeeps(s, e);
    case Drop(_, _) => EndingKeeps(s, e);
    case Reschedule(_, _) => EndingKeeps(s, e);
  }

  lemma {:induction false} TablesAlways(s: Tables, es: seq<Event>)
    requires TablesOk(s) && Runs(s, es)
    ensures TablesOk(After(s, es))
    decreases |es|
  {
    if es != [] {
      TablesStep(s, es[0]);
      TablesAlways(Apply(s, es[0]), es[1..]);
    }
  }

  /**
   Over any run, a lease's sender receives at most one result: the failure of its supersession, or the
   finalized result of a report that matches it in episode, attempt, lease, worker and token.
   */
  lemma OneResultPerLease(epoch: nat, ttl: nat, es: seq<Event>, d: Delivery)
    requires Runs(Init(epoch, ttl), es) && d in After(Init(epoch, ttl), es).sent
    ensures var s := After(Init(epoch, ttl), es);
            && Entitled(s, d) && s.sent[d] == 1
            && (forall d' :: d' in s.sent && d'.sender == d.sender ==> d' == d)
            && (forall k :: k in s.pending ==> s.pending[k].sender != d.sender)
  {
    TablesAlways(Init(epoch, ttl), es);
    var s := After(Init(epoch, ttl), es);
    forall k | k in s.pending ensures s.pending[k].sender != d.sender { assert Waiting(s, k); }
  }

  /** The failure of a supersession names its episode and attempt, its code and its kind. */
  lemma SupersededResultIs(p: Pending, clock: Clock)
    ensures var r := SupersededResult(p, clock);
            && r.episodeId == p.request.episodeId && r.attemptId == p.request.attemptId && r.parallelMode == p.request.parallelMode
            && r.status == "failed" && r.errorCode == Some(ErrLeaseSuperseded)
            && "terminal_kind" in r.metadata && r.metadata["terminal_kind"] == KindSuperseded
            && r.errorMessage == WorkerReplaced(p.worker)
            && r.dispatchTs == Some(p.dispatchTs) && Settled(p.request, r)
  {
  }

  /**
   Over any run, whatever a waiter receives is settled: passing it through the finalizer again, as the paths
   behind the waiter do, leaves its outcome alone, and a completed one carries what its mode demands.
   */
  lemma DeliveredResultsAreSettled(epoch: nat, ttl: nat, es: seq<Event>, d: Delivery, timing: Option<ResultTiming>,
                                   clock: Clock)
    requires Runs(Init(epoch, ttl), es) && d in After(Init(epoch, ttl), es).sent
    ensures var s := After(Init(epoch, ttl), es);
            && d.sender < |s.dispatches| && (d.cause.ByReport? ==> d.cause.report.result.Some?)
            && var p := s.dispatches[d.sender];
            var r := ResultOf(p, d.cause);
            var again := FinalizeOrFail(p.request, r, timing, clock);
            && again == r.(dispatchTs := again.dispatchTs, serverLatencyMs := again.serverLatencyMs)
            && (r.status == "completed" && AsyncMode(p.request.parallelMode) ==>
                  r.parallelMode == p.request.parallelMode && HasRolloutFields(r))
  {
    OneResultPerLease(epoch, ttl, es, d);
    var s := After(Init(epoch, ttl), es);
    ResultSettled(s.dispatches[d.sender], d.cause, timing, clock);
  }

  lemma ResultSettled(p: Pending, cause: Cause, timing: Option<ResultTiming>, clock: Clock)
    requires cause.ByReport? ==> cause.report.result.Some?
    ensures var r := ResultOf(p, cause);
            var again := FinalizeOrFail(p.request, r, timing, clock);
            && again == r.(dispatchTs := again.dispatchTs, serverLatencyMs := again.serverLatencyMs)
            && (r.status == "completed" && AsyncMode(p.request.parallelMode) ==>
                  r.parallelMode == p.request.parallelMode && HasRolloutFields(r))
  {
    match cause
    case BySupersession(at) => SupersededResultIs(p, at);
    case ByReport(r, at) => PassSettles(p.request, r.result.value, p.Timing(), at);
    SettledPass(p.request, ResultOf(p, cause), timing, clock);
  }

  // ---------------------------------------------------------------- rejected reports

  /** A report changes a pending lease exactly when it is acknowledged for the first time. */
  lemma OnlyAcceptanceTakesALease(s: Tables, clock: Clock, r: Report)
    ensures var (s', reply) := Reported(s, clock, r);
            var first := reply.ack && !reply.duplicate;
            && (!first ==> s'.pending == s.pending && s'.sent == s.sent)
            && (first ==>
                  && r.result.Some? && ReportKey(r) in s.pending
                  && s.pending[ReportKey(r)].worker == r.worker && s.pending[ReportKey(r)].token == r.token
                  && s'.pending == s.pending - {ReportKey(r)}
                  && |s'.sent| == |s.sent| + 1)
            && s'.workers == s.workers && s'.cancels == Swept(s, clock.instantMs).cancels
  {
  }

  // ---------------------------------------------------------------- verdict stability

  /** The verdict `v` stands under `key`. */
  predicate Stands(s: Tables, key: string, v: Verdict) { key in s.verdicts && s.verdicts[key] == v }

  lemma ReportKeepsVerdicts(s: Tables, clock: Clock, r: Report, key: string, v: Verdict)
    requires Stands(s, key, v) && clock.instantMs < v.expiresAt
    ensures Stands(Reported(s, clock, r).0, key, v)
  {
    assert Stands(Swept(s, clock.instantMs), key, v);
  }

  lemma VerdictStep(s: Tables, e: Event, key: string, v: Verdict)
    requires Enabled(s, e) && Stands(s, key, v) && Apply(s, e).now < v.expiresAt
    ensures Stands(Apply(s, e), key, v)
  {
    match e
    case ReportResult(clock, r) =>
      assert Stands(Swept(s, clock.instantMs), key, v);
      ReportKeepsVerdicts(s, clock, r, key, v);
    case Dispatch(_, _, _, _, _) =>
    case RegisterWorker(_, _, _) =>
    case Sweep(_) =>
    case Cancel(_, _, _, _) =>
    case Timeout(_, _) =>
    case Drop(_, _) =>
    case Reschedule(_, _) =>
  }

  lemma {:induction false} TimeGoesOnOverRuns(s: Tables, es: seq<Event>)
    requires Runs(s, es)
    ensures s.now <= After(s, es).now && After(s, es).ttl == s.ttl && After(s, es).epoch == s.epoch
    decreases |es|
  {
    if es != [] {
      TimeGoesOnOverRuns(Apply(s, es[0]), es[1..]);
    }
  }

  lemma {:induction false} VerdictStands(s: Tables, es: seq<Event>, key: string, v: Verdict)
    requires Runs(s, es) && Stands(s, key, v) && After(s, es).now < v.expiresAt
    ensures Stands(After(s, es), key, v)
    decreases |es|
  {
    if es != [] {
      TimeGoesOnOverRuns(Apply(s, es[0]), es[1..]);
      VerdictStep(s, es[0], key, v);
      VerdictStands(Apply(s, es[0]), es[1..], key, v);
    }
  }

  /** A standing verdict answers every report under its key, and the report touches no lease. */
  lemma StandingVerdictAnswers(s: Tables, clock: Clock, r: Report, v: Verdict)
    requires Stands(s, r.idempotencyKey, v) && r.idempotencyKey != "" && EpochOk(s, r) && clock.instantMs < v.expiresAt
    ensures var (s', reply) := Reported(s, clock, r);
            && reply.ack == v.ack && reply.duplicate && reply.message == v.message
            && reply.code == (if v.ack then DuplicateAccepted else DuplicateRejected)
            && s' == Swept(s, clock.instantMs)
  {
  }

  /** The verdict that a judged report leaves. */
  function VerdictOf(s: Tables, now: nat, reply: Response): Verdict {
    Verdict(now + s.ttl, reply.ack, reply.code, reply.message)
  }

  /** A report that reaches a verdict records it. */
  lemma VerdictRecorded(s: Tables, clock: Clock, r: Report)
    requires EpochOk(s, r) && WellFormed(r) && r.idempotencyKey !in Swept(s, clock.instantMs).verdicts
    ensures var (s', reply) := Reported(s, clock, r);
            Stands(s', r.idempotencyKey, VerdictOf(s, clock.instantMs, reply))
  {
    assert Reported(s, clock, r) == Judged(Swept(s, clock.instantMs), clock, r);
  }

  /**
   Verdict stability: once a report was judged, every later report under its key and an acceptable epoch,
   until ttl has passed, gets the same ack with duplicate set and changes no lease, whatever happened between.
   */
  lemma VerdictStability(s: Tables, clock: Clock, r: Report, es: seq<Event>, clock': Clock, r': Report)
    requires EpochOk(s, r) && WellFormed(r) && r.idempotencyKey !in Swept(s, clock.instantMs).verdicts
    requires Runs(Reported(s, clock, r).0, es)
    requires r'.idempotencyKey == r.idempotencyKey && EpochOk(s, r')
    requires After(Reported(s, clock, r).0, es).now <= clock'.instantMs < clock.instantMs + s.ttl
    ensures var (s1, reply) := Reported(s, clock, r);
            var s2 := After(s1, es);
            var (s3, reply') := Reported(s2, clock', r');
            && reply'.ack == reply.ack && reply'.duplicate && reply'.message == reply.message
            && s3.pending == s2.pending && s3.sent == s2.sent
  {
    VerdictRecorded(s, clock, r);
    var (s1, reply) := Reported(s, clock, r);
    var v := VerdictOf(s, clock.instantMs, reply);
    TimeGoesOnOverRuns(s1, es);
    VerdictStands(s1, es, r.idempotencyKey, v);
    StandingVerdictAnswers(After(s1, es), clock', r', v);
  }

  // ---------------------------------------------------------------- lease ids do not recur

  /** Dispatch `i` carries the i-th lease id of the epoch. */
  ghost predicate Numbered(s: Tables) { forall i :: 0 <= i < |s.dispatches| ==> s.dispatches[i].lease == NthLeaseId(s.epoch, i) }

  /** With at most 2^64 leases, every key names one dispatch. */
  lemma KeysDiffer(s: Tables, i: nat, j: nat)
    requires Numbered(s) && i < j < |s.dispatches| <= U64
    ensures s.dispatches[i].WaitsAt() != s.dispatches[j].WaitsAt()
  {
    LeaseIdsDistinct(s.epoch, i, j);
  }

  ghost predicate Disjoint(s: Tables) { forall k :: k in s.outcomes ==> k !in s.pending }

  lemma FreshLease(s: Tables, i: nat)
    requires Numbered(s) && i < |s.dispatches| < U64
    ensures s.dispatches[i].lease != NthLeaseId(s.epoch, |s.dispatches|)
  {
    LeaseIdsDistinct(s.epoch, i, |s.dispatches|);
  }

  /** The next dispatch uses a key that is neither pending nor recorded as an outcome. */
  lemma NextKeyIsFresh(s: Tables, k: Key)
    requires TablesOk(s) && Numbered(s) && |s.dispatches| < U64 && (k in s.pending || k in s.outcomes)
    ensures k.lease != NthLeaseId(s.epoch, |s.dispatches|)
  {
    if k in s.pending {
      assert Waiting(s, k);
      FreshLease(s, s.pending[k].sender);
    } else {
      assert Named(s, k);
      var i :| 0 <= i < |s.dispatches| && k == s.dispatches[i].WaitsAt();
      FreshLease(s, i);
    }
  }

  lemma DispatchDisjoint(s: Tables, clock: Clock, request: EpisodeRequest, worker: WorkerId, token: Token, at: nat)
    requires TablesOk(s) && Disjoint(s) && Numbered(s) && |s.dispatches| < U64
    ensures var s' := Dispatched(s, clock, request, worker, token, at); Disjoint(s') && Numbered(s')
  {
    var s' := Dispatched(s, clock, request, worker, token, at);
    forall k | k in s'.outcomes ensures k !in s'.pending { NextKeyIsFresh(s, k); }
  }

  lemma JudgeDisjoint(s: Tables, clock: Clock, r: Report)
    requires Disjoint(s) && WellFormed(r)
    ensures Disjoint(Judged(s, clock, r).0)
  {
    var k := ReportKey(r);
    if k in s.pending && s.pending[k].worker == r.worker && s.pending[k].token == r.token {
      assert Accepted(s, clock, r).pending == s.pending - {k};
    }
  }

  lemma ReportDisjoint(s: Tables, clock: Clock, r: Report)
    requires Disjoint(s)
    ensures Disjoint(Reported(s, clock, r).0)
  {
    var s0 := Swept(s, clock.instantMs);
    assert Disjoint(s0);
    if WellFormed(r) {
      JudgeDisjoint(s0, clock, r);
    }
  }

  lemma RegisterDisjoint(s: Tables, clock: Clock, id: WorkerId, info: Worker)
    requires Disjoint(s)
    ensures Disjoint(Registered(s, clock, id, info).0)
  {
  }

  lemma DisjointStep(s: Tables, e: Event)
    requires TablesOk(s) && Disjoint(s) && Numbered(s) && Enabled(s, e) && |Apply(s, e).dispatches| <= U64
    ensures Disjoint(Apply(s, e)) && Numbered(Apply(s, e))
  {
    match e
    case Dispatch(clock, request, worker, token, at) => DispatchDisjoint(s, clock, request, worker, token, at);
    case ReportResult(clock, r) => ReportDisjoint(s, clock, r);
    case RegisterWorker(clock, id, info) => RegisterDisjoint(s, clock, id, info);
    case Sweep(_) =>
    case Cancel(_, _, _, _) =>
    case Timeout(_, _) =>
    case Drop(_, _) =>
    case Reschedule(_, _) =>
  }

  lemma {:induction false} DispatchesGrowOverRuns(s: Tables, es: seq<Event>)
    requires Runs(s, es)
    ensures s.dispatches <= After(s, es).dispatches
    decreases |es|
  {
    if es != [] {
      DispatchesGrowOverRuns(Apply(s, es[0]), es[1..]);
    }
  }

  lemma {:induction false} DisjointAlways(s: Tables, es: seq<Event>)
    requires TablesOk(s) && Disjoint(s) && Numbered(s) && Runs(s, es) && |After(s, es).dispatches| <= U64
    ensures Disjoint(After(s, es)) && Numbered(After(s, es))
    decreases |es|
  {
    if es != [] {
      DispatchesGrowOverRuns(Apply(s, es[0]), es[1..]);
      DisjointStep(s, es[0]);
      TablesStep(s, es[0]);
      DisjointAlways(Apply(s, es[0]), es[1..]);
    }
  }

  /** With at most 2^64 leases in the epoch, no pending key recurs and pending keys have no recorded outcome. */
  lemma PendingKeysNeverRecur(epoch: nat, ttl: nat, es: seq<Event>)
    requires Runs(Init(epoch, ttl), es) && |After(Init(epoch, ttl), es).dispatches| <= U64
    ensures var s := After(Init(epoch, ttl), es);
            && (forall k :: k in s.outcomes ==> k !in s.pending)
            && (forall i: nat, j: nat :: i < j < |s.dispatches| ==> s.dispatches[i].WaitsAt() != s.dispatches[j].WaitsAt())
  {
    var s := After(Init(epoch, ttl), es);
    DisjointAlways(Init(epoch, ttl), es);
    forall i: nat, j: nat | i < j < |s.dispatches| ensures s.dispatches[i].WaitsAt() != s.dispatches[j].WaitsAt() {
      KeysDiffer(s, i, j);
    }
  }

  // ---------------------------------------------------------------- supersession

  lemma {:induction false} FailuresCounted(s: Tables, clock: Clock, keys: set<Key>)
    requires TablesOk(s) && keys <= s.pending.Keys
    ensures |Failures(s.pending, keys, clock)| == |keys|
    decreases keys
  {
    var failures := Failures(s.pending, keys, clock);
    if keys == {} {
      assert failures == {};
    } else {
      var k :| k in keys;
      var rest := Failures(s.pending, keys - {k}, clock);
      FailuresCounted(s, clock, keys - {k});
      assert Waiting(s, k);
      forall j | j in keys - {k} ensures FailureOf(s.pending[j], clock) != FailureOf(s.pending[k], clock) {
        assert Waiting(s, j);
        SendersDiffer(s, j, k);
      }
      assert failures == rest + {FailureOf(s.pending[k], clock)};
    }
  }

  /** One more delivery for each lease withdrawn. */
  lemma WithdrawnCount(s: Tables, clock: Clock, keys: set<Key>)
    requires TablesOk(s) && keys <= s.pending.Keys
    ensures var s' := Withdrawn(s, clock, keys); s.sent <= s'.sent && |s'.sent| == |s.sent| + |keys|
  {
    FailuresCounted(s, clock, keys);
    var failures := Failures(s.pending, keys, clock);
    assert Withdrawn(s, clock, keys).sent == s.sent + multiset(failures);
    assert |multiset(failures)| == |failures|;
  }

  /** And it is the failure of that lease. */
  lemma WithdrawnEach(s: Tables, clock: Clock, keys: set<Key>, k: Key)
    requires TablesOk(s) && keys <= s.pending.Keys && k in keys && s.now == clock.instantMs
    ensures Notified(s, Withdrawn(s, clock, keys), clock, k)
  {
    var failures := Failures(s.pending, keys, clock);
    var d := FailureOf(s.pending[k], clock);
    assert d in failures;
    assert Waiting(s, k);
    assert d !in s.sent;
    assert (s.sent + multiset(failures))[d] == 1;
  }

  /** The workers that an accepted registration replaces. */
  function Replaced(s: Tables, id: WorkerId, info: Worker): set<WorkerId> {
    StaleIds(s.workers[id := info], id, info.endpoint)
  }

  /** Each lease of a replaced worker got one failure, and an outcome that lasts for ttl. */
  ghost predicate Notified(s: Tables, s': Tables, clock: Clock, k: Key)
    requires k in s.pending
  {
    && FailureOf(s.pending[k], clock) !in s.sent && s'.sent[FailureOf(s.pending[k], clock)] == 1
    && k in s'.outcomes && s'.outcomes[k] == Outcome(clock.instantMs + s.ttl, LeaseSuperseded, SupersededText)
  }

  /** The tables between the registration and the supersession. */
  function Listed(s: Tables, clock: Clock, id: WorkerId, info: Worker): Tables {
    s.(now := clock.instantMs, workers := s.workers[id := info])
  }

  lemma RegisteredLeases(s: Tables, clock: Clock, id: WorkerId, info: Worker)
    requires TablesOk(s) && !Rejected(s, id)
    ensures var (s', accepted) := Registered(s, clock, id, info);
            var stale := Replaced(s, id, info);
            && accepted && s'.pending == s.pending - LeasesOf(s, stale)
            && s.sent <= s'.sent && |s'.sent| == |s.sent| + |LeasesOf(s, stale)|
  {
    var s1 := Listed(s, clock, id, info);
    EndsKeep(s, s1);
    assert LeasesOf(s1, Replaced(s, id, info)) == LeasesOf(s, Replaced(s, id, info));
    WithdrawnCount(s1, clock, LeasesOf(s, Replaced(s, id, info)));
  }

  lemma RegisteredNotifies(s: Tables, clock: Clock, id: WorkerId, info: Worker, k: Key)
    requires TablesOk(s) && !Rejected(s, id) && k in s.pending && s.pending[k].worker in Replaced(s, id, info)
    ensures Notified(s, Registered(s, clock, id, info).0, clock, k)
  {
    var s1 := Listed(s, clock, id, info);
    EndsKeep(s, s1);
    WithdrawnEach(s1, clock, LeasesOf(s1, Replaced(s, id, info)), k);
  }

  /**
   After an accepted registration no lease belongs to another worker listed at that endpoint, every other
   lease is untouched, and each lease withdrawn got exactly one failure and an outcome for late reports.
   */
  lemma SupersessionIsExact(s: Tables, clock: Clock, id: WorkerId, info: Worker)
    requires TablesOk(s) && !Rejected(s, id)
    ensures var (s', accepted) := Registered(s, clock, id, info);
            var stale := Replaced(s, id, info);
            && accepted
            && (forall k :: k in s'.pending <==> k in s.pending && s.pending[k].worker !in stale)
            && (forall k :: k in s'.pending ==> s'.pending[k] == s.pending[k])
            && (forall k :: k in s.pending && s.pending[k].worker in stale ==> Notified(s, s', clock, k))
            && s.sent <= s'.sent && |s'.sent| == |s.sent| + |LeasesOf(s, stale)|
  {
    var stale := Replaced(s, id, info);
    RegisteredLeases(s, clock, id, info);
    forall k | k in s.pending && s.pending[k].worker in stale
      ensures Notified(s, Registered(s, clock, id, info).0, clock, k)
    {
      RegisteredNotifies(s, clock, id, info, k);
    }
  }

  /** A rejected registration withdraws nothing. */
  lemma RejectionWithdrawsNothing(s: Tables, clock: Clock, id: WorkerId, info: Worker)
    requires Rejected(s, id)
    ensures var (s', accepted) := Registered(s, clock, id, info);
            !accepted && s'.pending == s.pending && s'.sent == s.sent && s'.outcomes == s.outcomes
  {
  }

  /** The lease at `k` has ended, with an outcome that is still there before time `until`. */
  predicate Ended(s: Tables, k: Key, until: nat, code: Code) {
    && k !in s.pending && k in s.outcomes
    && s.outcomes[k].expiresAt >= until && s.outcomes[k].code == code && until <= s.now + s.ttl
  }

  predicate TimesOut(s: Tables, e: Event, k: Key)
    requires Enabled(s, e)
  {
    e.Timeout? && s.dispatches[e.i].WaitsAt() == k
  }

  lemma ReportKeepsEnded(s: Tables, clock: Clock, r: Report, k: Key, until: nat, code: Code)
    requires Ended(s, k, until, code) && s.now <= clock.instantMs < until
    ensures Ended(Reported(s, clock, r).0, k, until, code)
  {
    var s0 := Swept(s, clock.instantMs);
    assert Ended(s0, k, until, code);
    if WellFormed(r) && ReportKey(r) in s0.pending {
      assert ReportKey(r) != k;
    }
  }

  lemma RegisterKeepsEnded(s: Tables, clock: Clock, id: WorkerId, info: Worker, k: Key, until: nat, code: Code)
    requires Ended(s, k, until, code) && s.now <= clock.instantMs
    ensures Ended(Registered(s, clock, id, info).0, k, until, code)
  {
  }

  lemma DispatchKeepsEnded(s: Tables, clock: Clock, request: EpisodeRequest, worker: WorkerId, token: Token, at: nat,
                           k: Key, until: nat, code: Code)
    requires TablesOk(s) && Numbered(s) && |s.dispatches| < U64
    requires Ended(s, k, until, code) && s.now <= clock.instantMs
    ensures Ended(Dispatched(s, clock, request, worker, token, at), k, until, code)
  {
    NextKeyIsFresh(s, k);
  }

  lemma EndedStep(s: Tables, e: Event, k: Key, until: nat, code: Code)
    requires TablesOk(s) && Numbered(s) && Enabled(s, e) && |Apply(s, e).dispatches| <= U64
    requires Ended(s, k, until, code) && Apply(s, e).now < until
    ensures Ended(Apply(s, e), k, until, if TimesOut(s, e, k) then LateAfterTimeout else code)
  {
    match e
    case Dispatch(clock, request, worker, token, at) =>
      DispatchKeepsEnded(s, clock, request, worker, token, at, k, until, code);
    case ReportResult(clock, r) => ReportKeepsEnded(s, clock, r, k, until, code);
    case RegisterWorker(clock, id, info) => RegisterKeepsEnded(s, clock, id, info, k, until, code);
    case Sweep(_) =>
    case Cancel(_, _, _, _) =>
    case Timeout(_, _) =>
    case Drop(_, _) =>
    case Reschedule(_, _) =>
  }

  /** The deadline of the lease at `k` passes somewhere in the run. */
  predicate TimedOutIn(s: Tables, es: seq<Event>, k: Key)
    requires Runs(s, es)
    decreases |es|
  {
    es != [] && (TimesOut(s, es[0], k) || TimedOutIn(Apply(s, es[0]), es[1..], k))
  }

  lemma {:induction false} EndedStays(s: Tables, es: seq<Event>, k: Key, until: nat, code: Code)
    requires TablesOk(s) && Disjoint(s) && Numbered(s) && Runs(s, es) && |After(s, es).dispatches| <= U64
    requires Ended(s, k, until, code) && After(s, es).now < until
    ensures Ended(After(s, es), k, until, if TimedOutIn(s, es, k) then LateAfterTimeout else code)
    decreases |es|
  {
    if es != [] {
      var s1 := Apply(s, es[0]);
      DispatchesGrowOverRuns(s1, es[1..]);
      TimeGoesOnOverRuns(s1, es[1..]);
      EndedStep(s, es[0], k, until, code);
      TablesStep(s, es[0]);
      DisjointStep(s, es[0]);
      EndedStays(s1, es[1..], k, until, if TimesOut(s, es[0], k) then LateAfterTimeout else code);
    }
  }

  /** What a fresh-key report on an ended lease is told. */
  lemma EndedAnswer(s: Tables, clock: Clock, r: Report, until: nat, code: Code)
    requires EpochOk(s, r) && WellFormed(r) && r.idempotencyKey !in Swept(s, clock.instantMs).verdicts
    requires Ended(s, ReportKey(r), until, code) && code != ResultAccepted && s.now <= clock.instantMs < until
    ensures var (s', reply) := Reported(s, clock, r);
            !reply.ack && reply.duplicate && reply.code == code && s'.pending == s.pending && s'.sent == s.sent
  {
    var s0 := Swept(s, clock.instantMs);
    assert Ended(s0, ReportKey(r), until, code);
    assert Reported(s, clock, r) == Judged(s0, clock, r);
  }

  /**
   Late reports on a superseded lease: any fresh-key report, until the outcome expires, is refused as a
   duplicate.  Its code is ERR_LEASE_SUPERSEDED exactly when the deadline of the dispatch did not pass in
   between, for the deadline handler overwrites the outcome.
   */
  lemma LateReportOnSupersededLease(s: Tables, clock: Clock, id: WorkerId, info: Worker, k: Key, es: seq<Event>,
                                    clock': Clock, r: Report)
    requires TablesOk(s) && Disjoint(s) && Numbered(s) && s.now <= clock.instantMs && !Rejected(s, id)
    requires k in s.pending && s.pending[k].worker in Replaced(s, id, info)
    requires var s1 := Registered(s, clock, id, info).0; Runs(s1, es) && |After(s1, es).dispatches| <= U64
    requires var s2 := After(Registered(s, clock, id, info).0, es);
             && s2.now <= clock'.instantMs < clock.instantMs + s.ttl
             && WellFormed(r) && ReportKey(r) == k && EpochOk(s2, r) && r.idempotencyKey !in Swept(s2, clock'.instantMs).verdicts
    ensures var s1 := Registered(s, clock, id, info).0;
            var (s3, reply) := Reported(After(s1, es), clock', r);
            && !reply.ack && reply.duplicate
            && reply.code == (if TimedOutIn(s1, es, k) then LateAfterTimeout else LeaseSuperseded)
            && s3.pending == After(s1, es).pending && s3.sent == After(s1, es).sent
  {
    var s1 := Registered(s, clock, id, info).0;
    var until := clock.instantMs + s.ttl;
    RegisteredLeases(s, clock, id, info);
    RegisteredNotifies(s, clock, id, info, k);
    assert Ended(s1, k, until, LeaseSuperseded);
    RegisterKeeps(s, clock, id, info);
    RegisterDisjoint(s, clock, id, info);
    EndedStays(s1, es, k, until, LeaseSuperseded);
    EndedAnswer(After(s1, es), clock', r, until, if TimedOutIn(s1, es, k) then LateAfterTimeout else LeaseSuperseded);
  }

  lemma {:induction false} RunMore(s: Tables, es: seq<Event>, e: Event)
    requires Runs(s, es) && Enabled(After(s, es), e)
    ensures Runs(s, es + [e]) && After(s, es + [e]) == Apply(After(s, es), e)
    decreases |es|
  {
    if es == [] {
      assert ([] + [e])[1..] == [];
    } else {
      RunMore(Apply(s, es[0]), es[1..], e);
      assert (es + [e])[1..] == es[1..] + [e];
    }
  }

  const AT_START := Clock(0, 0.0)
  const OLD_WORKER := Worker("host", 1, 1, 0, false)
  const NEW_WORKER := Worker("host", 1, 0, 0, false)

  /** One lease, of the worker "old" at the endpoint "host". */
  lemma OneLease(request: EpisodeRequest) returns (es: seq<Event>)
    ensures Runs(Init(1, 10), es)
    ensures var s := After(Init(1, 10), es);
            && s == Dispatched(Init(1, 10), AT_START, request, "old", [1], 0).(workers := map["old" := OLD_WORKER])
            && TablesOk(s) && Disjoint(s) && Numbered(s)
  {
    var e, f := Dispatch(AT_START, request, "old", [1], 0), Reschedule(AT_START, map["old" := OLD_WORKER]);
    RunMore(Init(1, 10), [], e);
    RunMore(Init(1, 10), [] + [e], f);
    es := [] + [e] + [f];
    ReachableTables(1, 10, es);
  }

  /** The deadline handler's outcome is what a fresh-key report is told. */
  lemma LateReportAfterDeadline(s: Tables, r: Report)
    requires s.now == 0 && s.ttl == 10 && |s.dispatches| == 1 && s.verdicts == map[]
    requires WellFormed(r) && r.epoch == 0 && ReportKey(r) == s.dispatches[0].WaitsAt()
    ensures Reported(TimedOutAt(s, 0, 0), AT_START, r).1.code == LateAfterTimeout
  {
    EndedAnswer(TimedOutAt(s, 0, 0), AT_START, r, 10, LateAfterTimeout);
  }

  lemma TwoMore(first: seq<Event>, e: Event, f: Event, s: Tables, s1: Tables) returns (es: seq<Event>)
    requires Runs(Init(1, 10), first) && After(Init(1, 10), first) == s
    requires Enabled(s, e) && Apply(s, e) == s1 && Enabled(s1, f)
    ensures Runs(Init(1, 10), es) && After(Init(1, 10), es) == Apply(s1, f)
  {
    RunMore(Init(1, 10), first, e);
    RunMore(Init(1, 10), first + [e], f);
    es := first + [e] + [f];
  }

  lemma OldWorkerSuperseded(s: Tables)
    requires TablesOk(s) && |s.dispatches| == 1 && "new" !in s.workers
    requires "old" in s.workers && s.workers["old"] == OLD_WORKER
    requires var p := s.dispatches[0]; p.WaitsAt() in s.pending && s.pending[p.WaitsAt()] == p && p.worker == "old" && p.sender == 0
    ensures Delivery(0, BySupersession(AT_START)) in Registered(s, AT_START, "new", NEW_WORKER).0.sent
  {
    assert "old" in Replaced(s, "new", NEW_WORKER);
    RegisteredNotifies(s, AT_START, "new", NEW_WORKER, s.dispatches[0].WaitsAt());
  }

  /**
   A run from the start, "dispatch, supersede, deadline handler, late report": the waiter got
   ERR_LEASE_SUPERSEDED, and the report on the same lease is told LATE_AFTER_TIMEOUT.
   */
  lemma DeadlineHidesSupersession(request: EpisodeRequest, result: EpisodeResult) returns (es: seq<Event>, r: Report)
    requires result.episodeId == request.episodeId && result.attemptId == request.attemptId
    ensures Runs(Init(1, 10), es)
    ensures var s := After(Init(1, 10), es);
            Delivery(0, BySupersession(AT_START)) in s.sent && Reported(s, AT_START, r).1.code == LateAfterTimeout
  {
    var first := OneLease(request);
    var s := After(Init(1, 10), first);
    NthLeaseIdNotEmpty(1, 0);
    r := Report(0, "old", "key", Some(result), s.dispatches[0].lease, [1]);
    var s1 := Registered(s, AT_START, "new", NEW_WORKER).0;
    OldWorkerSuperseded(s);
    LateReportAfterDeadline(s1, r);
    es := TwoMore(first, RegisterWorker(AT_START, "new", NEW_WORKER), Timeout(AT_START, 0), s, s1);
  }

  /** Every state of every run with at most 2^64 leases satisfies the premises above. */
  lemma ReachableTables(epoch: nat, ttl: nat, es: seq<Event>)
    requires Runs(Init(epoch, ttl), es) && |After(Init(epoch, ttl), es).dispatches| <= U64
    ensures var s := After(Init(epoch, ttl), es); TablesOk(s) && Disjoint(s) && Numbered(s)
  {
    TablesAlways(Init(epoch, ttl), es);
    DisjointAlways(Init(epoch, ttl), es);
  }
}
