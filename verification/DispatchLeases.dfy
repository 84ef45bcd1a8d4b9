/**
 The dispatch-lease result protocol of the server, in its in-memory configuration, as a state machine whose
 steps are whole handlers.

 `dispatches` and `sent` are history: every lease ever handed out, in order, and every result that went
 through a lease's oneshot sender.  Sender i belongs to dispatch i.
 */
module DispatchLeases {
  import opened Options
  import opened LeaseIds
  import opened Finalizer

  type WorkerId = string
  type Token = seq<bv8>

  datatype Key = Key(episode: string, attempt: nat, lease: string)

  datatype Pending = Pending(
    request: EpisodeRequest, worker: WorkerId, lease: string, token: Token,
    enqueueAt: nat, dispatchAt: nat, dispatchTs: real, sender: nat)
  {
    function WaitsAt(): Key { Key(request.episodeId, request.attemptId, lease) }
    function Timing(): Option<ResultTiming> { Some(ResultTiming(enqueueAt, Some(dispatchAt), Some(dispatchTs))) }
  }

  /** The codes of the protocol, and the texts that go with them. */
  datatype Code =
    | ResultAccepted | AlreadyCompleted | DuplicateAccepted | DuplicateRejected | StaleEpoch | InvalidRequest
    | WorkerMismatch | TokenMismatch | LeaseSuperseded | LateAfterTimeout | LateAfterCancel | UnknownPending

  datatype Text =
    | NoText | AcceptedText | AcceptedBefore | WrongEpoch | EmptyKey | MissingResult | MissingLease | NotTheOwner
    | WrongToken | SupersededText | ExecutionTimeout | EpisodeCancelled | EpisodeWasCancelled | NotPending

  datatype Verdict = Verdict(expiresAt: nat, ack: bool, code: Code, message: Text)

  datatype Outcome = Outcome(expiresAt: nat, code: Code, message: Text)

  datatype Worker = Worker(endpoint: string, capacity: nat, reserved: nat, reported: nat, draining: bool) {
    function EffectiveLoad(): nat { if reserved > reported then reserved else reported }
  }

  datatype Report = Report(
    epoch: nat, worker: WorkerId, idempotencyKey: string, result: Option<EpisodeResult>, lease: string, token: Token)

  datatype Response = Response(ack: bool, duplicate: bool, code: Code, message: Text)

  datatype Cause = BySupersession(clock: Clock) | ByReport(report: Report, clock: Clock)

  /** A result that went through a sender; `ResultOf` says which. */
  datatype Delivery = Delivery(sender: nat, cause: Cause)

  /** `ttl` is the configured report_result_idempotency_ttl_secs, at least 1; times are in the clock's unit. */
  datatype Tables = Tables(
    epoch: nat,
    ttl: nat,
    now: nat,
    workers: map<WorkerId, Worker>,
    pending: map<Key, Pending>,
    verdicts: map<string, Verdict>,
    outcomes: map<Key, Outcome>,
    cancels: map<string, Outcome>,
    dispatches: seq<Pending>,
    sent: multiset<Delivery>)

  function Init(epoch: nat, ttl: nat): Tables {
    Tables(epoch, ttl, 0, map[], map[], map[], map[], map[], [], multiset{})
  }

  /** The configuration stays, and the clock has moved to `now`. */
  predicate SameServer(s: Tables, s': Tables, now: nat) { s'.epoch == s.epoch && s'.ttl == s.ttl && s'.now == now }

  // ---------------------------------------------------------------- dispatch

  function Dispatched(s: Tables, clock: Clock, request: EpisodeRequest, worker: WorkerId, token: Token,
                      enqueueAt: nat): Tables {
    var n := |s.dispatches|;
    var p := Pending(request, worker, NthLeaseId(s.epoch, n), token, enqueueAt, clock.instantMs, clock.unixSeconds, n);
    s.(now := clock.instantMs, pending := s.pending[p.WaitsAt() := p], dispatches := s.dispatches + [p])
  }

  // ---------------------------------------------------------------- sweep

  function LiveVerdicts(verdicts: map<string, Verdict>, now: nat): map<string, Verdict> {
    map k | k in verdicts && verdicts[k].expiresAt > now :: verdicts[k]
  }

  function LiveOutcomes<K>(outcomes: map<K, Outcome>, now: nat): map<K, Outcome> {
    map k | k in outcomes && outcomes[k].expiresAt > now :: outcomes[k]
  }

  function Swept(s: Tables, now: nat): Tables {
    s.(now := now, verdicts := LiveVerdicts(s.verdicts, now), outcomes := LiveOutcomes(s.outcomes, now),
       cancels := LiveOutcomes(s.cancels, now))
  }

  // ---------------------------------------------------------------- report


  function Remember(s: Tables, r: Report, ack: bool, code: Code, message: Text): Tables {
    s.(verdicts := s.verdicts[r.idempotencyKey := Verdict(s.now + s.ttl, ack, code, message)])
  }

  /** The answer to a report whose lease is not pending. */
  function AbsentAnswer(s: Tables, k: Key): (Code, Text) {
    if k in s.outcomes then
      if s.outcomes[k].code == ResultAccepted then (AlreadyCompleted, AcceptedBefore)
      else (s.outcomes[k].code, s.outcomes[k].message)
    else if k.episode in s.cancels then (LateAfterCancel, EpisodeWasCancelled)
    else (UnknownPending, NotPending)
  }

  predicate EpochOk(s: Tables, r: Report) { r.epoch == 0 || r.epoch == s.epoch }

  /** The report names a lease; otherwise it is refused without a trace. */
  predicate WellFormed(r: Report) { r.idempotencyKey != "" && r.result.Some? && r.lease != "" && r.token != [] }

  function ReportKey(r: Report): Key
    requires r.result.Some?
  {
    Key(r.result.value.episodeId, r.result.value.attemptId, r.lease)
  }

  /** The pending lease matches: the result goes to its waiter. */
  function Accepted(s: Tables, clock: Clock, r: Report): Tables
    requires WellFormed(r) && ReportKey(r) in s.pending
  {
    var k := ReportKey(r);
    var p := s.pending[k];
    var o := Outcome(s.now + s.ttl, ResultAccepted, NoText);
    var d := Delivery(p.sender, ByReport(r, clock));
    Remember(s, r, true, ResultAccepted, AcceptedText)
    .(pending := s.pending - {k}, outcomes := s.outcomes[k := o], sent := s.sent + multiset{d})
  }

  /** A well-formed report under a key not seen before. */
  function Judged(s: Tables, clock: Clock, r: Report): (res: (Tables, Response))
    requires WellFormed(r)
    ensures SameServer(s, res.0, s.now) && res.0.workers == s.workers && res.0.dispatches == s.dispatches
    ensures res.0.verdicts == s.verdicts[r.idempotencyKey := Verdict(s.now + s.ttl, res.1.ack, res.1.code, res.1.message)]
  {
    var k := ReportKey(r);
    if k in s.pending then
      if s.pending[k].worker != r.worker then
        (Remember(s, r, false, WorkerMismatch, NotTheOwner), Response(false, false, WorkerMismatch, NotTheOwner))
      else if s.pending[k].token != r.token then
        (Remember(s, r, false, TokenMismatch, WrongToken), Response(false, false, TokenMismatch, WrongToken))
      else (Accepted(s, clock, r), Response(true, false, ResultAccepted, AcceptedText))
    else
      var (code, message) := AbsentAnswer(s, k);
      (Remember(s, r, false, code, message), Response(false, true, code, message))
  }

  function Reported(s: Tables, clock: Clock, r: Report): (res: (Tables, Response))
    ensures SameServer(s, res.0, clock.instantMs) && res.0.workers == s.workers && res.0.dispatches == s.dispatches
  {
    var s0 := Swept(s, clock.instantMs);
    if !EpochOk(s, r) then (s0, Response(false, false, StaleEpoch, WrongEpoch))
    else if r.idempotencyKey == "" then (s0, Response(false, false, InvalidRequest, EmptyKey))
    else if r.idempotencyKey in s0.verdicts then
      var v := s0.verdicts[r.idempotencyKey];
      (s0, Response(v.ack, true, if v.ack then DuplicateAccepted else DuplicateRejected, v.message))
    else if r.result.None? then (s0, Response(false, false, InvalidRequest, MissingResult))
    else if r.lease == "" || r.token == [] then (s0, Response(false, false, InvalidRequest, MissingLease))
    else Judged(s0, clock, r)
  }

  // ---------------------------------------------------------------- registration and supersession

  predicate Rejected(s: Tables, id: WorkerId) { id in s.workers && s.workers[id].EffectiveLoad() > 0 }

  /** Workers other than `id` that are listed at the endpoint. */
  function StaleIds(workers: map<WorkerId, Worker>, id: WorkerId, endpoint: string): set<WorkerId> {
    set w | w in workers && workers[w].endpoint == endpoint && w != id
  }

  /** The worker list after unregistering `stale`: idle ones go, busy ones stay as draining. */
  function Unregistered(workers: map<WorkerId, Worker>, stale: set<WorkerId>): map<WorkerId, Worker> {
    map w | w in workers && !(w in stale && workers[w].EffectiveLoad() == 0) ::
      if w in stale then workers[w].(draining := true) else workers[w]
  }


  /** The leases held by any of `stale`. */
  function LeasesOf(s: Tables, stale: set<WorkerId>): set<Key> {
    set k | k in s.pending && s.pending[k].worker in stale
  }

  function FailureOf(p: Pending, clock: Clock): Delivery { Delivery(p.sender, BySupersession(clock)) }

  /** One failure for each lease of `keys`. */
  function Failures(pending: map<Key, Pending>, keys: set<Key>, clock: Clock): set<Delivery>
    requires keys <= pending.Keys
  {
    set k | k in keys :: FailureOf(pending[k], clock)
  }

  function Noted(outcomes: map<Key, Outcome>, keys: set<Key>, o: Outcome): map<Key, Outcome> {
    map k | k in outcomes.Keys + keys :: if k in keys then o else outcomes[k]
  }

  /** Every lease of `keys` is withdrawn with one failure and an outcome for late reports. */
  function Withdrawn(s: Tables, clock: Clock, keys: set<Key>): Tables
    requires keys <= s.pending.Keys
  {
    s.(pending := s.pending - keys,
       outcomes := Noted(s.outcomes, keys, Outcome(s.now + s.ttl, LeaseSuperseded, SupersededText)),
       sent := s.sent + multiset(Failures(s.pending, keys, clock)))
  }

  function Superseded(s: Tables, clock: Clock, stale: set<WorkerId>): Tables {
    Withdrawn(s, clock, LeasesOf(s, stale)).(workers := Unregistered(s.workers, stale))
  }

  function Registered(s: Tables, clock: Clock, id: WorkerId, info: Worker): (res: (Tables, bool))
    ensures SameServer(s, res.0, clock.instantMs) && res.0.verdicts == s.verdicts && res.0.dispatches == s.dispatches
  {
    var s0 := s.(now := clock.instantMs);
    if Rejected(s, id) then (s0.(workers := s.workers[id := s.workers[id].(draining := true)]), false)
    else
      var s1 := s0.(workers := s.workers[id := info]);
      (Superseded(s1, clock, StaleIds(s1.workers, id, info.endpoint)), true)
  }

  // ---------------------------------------------------------------- other ways a lease ends

  /** CancelEpisode: attempt 0 names every attempt; `known` says that some other part of the server had the episode. */
  function CancelKeys(s: Tables, episode: string, attempt: nat): set<Key> {
    set k | k in s.pending && k.episode == episode && (attempt == 0 || k.attempt == attempt)
  }

  function CancelledBy(s: Tables, now: nat, episode: string, attempt: nat, known: bool): Tables {
    var keys := CancelKeys(s, episode, attempt);
    var o := Outcome(now + s.ttl, LateAfterCancel, EpisodeCancelled);
    s.(now := now, pending := s.pending - keys, cancels := if known || keys != {} then s.cancels[episode := o] else s.cancels)
  }

  /** The deadline of dispatch `i` passes: the outcome is written whatever was there. */
  function TimedOutAt(s: Tables, now: nat, i: nat): Tables
    requires i < |s.dispatches|
  {
    s.(now := now, pending := s.pending - {s.dispatches[i].WaitsAt()},
       outcomes := s.outcomes[s.dispatches[i].WaitsAt() := Outcome(now + s.ttl, LateAfterTimeout, ExecutionTimeout)])
  }

  /** The dispatch failed, or its waiter gave up. */
  function Dropped(s: Tables, now: nat, i: nat): Tables
    requires i < |s.dispatches|
  {
    s.(now := now, pending := s.pending - {s.dispatches[i].WaitsAt()})
  }

  // ---------------------------------------------------------------- what a waiter receives

  function SupersededResult(p: Pending, clock: Clock): EpisodeResult {
    Annotate(FailedResult(p.request, "failed", WorkerReplaced(p.worker), ErrLeaseSuperseded, p.Timing(), clock),
             "terminal_kind", KindSuperseded)
  }

  /** What a delivery sends: the failure of a supersession, or the report's finalized result. */
  function ResultOf(p: Pending, cause: Cause): EpisodeResult
    requires cause.ByReport? ==> cause.report.result.Some?
  {
    match cause
    case BySupersession(clock) => SupersededResult(p, clock)
    case ByReport(r, clock) => FinalizeOrFail(p.request, r.result.value, p.Timing(), clock)
  }

  // ---------------------------------------------------------------- runs

  datatype Event =
    | Dispatch(clock: Clock, request: EpisodeRequest, worker: WorkerId, token: Token, enqueueAt: nat)
    | ReportResult(clock: Clock, report: Report)
    | RegisterWorker(clock: Clock, id: WorkerId, info: Worker)
    | Sweep(clock: Clock)
    | Cancel(clock: Clock, episode: string, attempt: nat, known: bool)
    | Timeout(clock: Clock, i: nat)
    | Drop(clock: Clock, i: nat)
    | Reschedule(clock: Clock, workers: map<WorkerId, Worker>)  // reservations, releases, heartbeats, drains

  predicate Enabled(s: Tables, e: Event) {
    && s.now <= e.clock.instantMs
    && (e.Timeout? || e.Drop? ==> e.i < |s.dispatches|)
  }

  function Apply(s: Tables, e: Event): (s': Tables)
    requires Enabled(s, e)
    ensures SameServer(s, s', e.clock.instantMs)
    ensures s.dispatches <= s'.dispatches
  {
    match e
    case Dispatch(clock, request, worker, token, at) => Dispatched(s, clock, request, worker, token, at)
    case ReportResult(clock, r) => Reported(s, clock, r).0
    case RegisterWorker(clock, id, info) => Registered(s, clock, id, info).0
    case Sweep(clock) => Swept(s, clock.instantMs)
    case Cancel(clock, episode, attempt, known) => CancelledBy(s, clock.instantMs, episode, attempt, known)
    case Timeout(clock, i) => TimedOutAt(s, clock.instantMs, i)
    case Drop(clock, i) => Dropped(s, clock.instantMs, i)
    case Reschedule(clock, workers) => s.(now := clock.instantMs, workers := workers)
  }

  predicate Runs(s: Tables, es: seq<Event>)
    decreases |es|
  {
    es == [] || (Enabled(s, es[0]) && Runs(Apply(s, es[0]), es[1..]))
  }

  function After(s: Tables, es: seq<Event>): Tables
    requires Runs(s, es)
    decreases |es|
  {
    if es == [] then s else After(Apply(s, es[0]), es[1..])
  }
}
