/**
 The result finalizer: every path that ends an episode sends its result through it, some more than once.

 Wall-clock time is a parameter: `Clock` holds the monotonic milliseconds and the Unix seconds a pass reads.
 */
module Finalizer {
  import opened Options

  datatype ErrorCode = ErrInternal | ErrEpisodeTimeout | ErrAsyncProtocolMissingField | ErrLeaseSuperseded | ErrOther(n: nat)

  /** Texts for people.  Where the server composes one, the constructor names what it says. */
  datatype Message =
    | Plain(text: string)
    | ModeMismatch(requested: string, reported: string)
    | MissingParamVersion | MissingPolicyVersion | MissingLogProbs
    | WorkerReplaced(worker: string)
    | KindCancelled | KindTimeout | KindSuperseded

  datatype EpisodeRequest = EpisodeRequest(episodeId: string, attemptId: nat, parallelMode: string, metadata: map<string, Message>)

  datatype EpisodeResult = EpisodeResult(
    episodeId: string,
    attemptId: nat,
    status: string,
    errorCode: Option<ErrorCode>,
    errorMessage: Message,
    terminateReason: Option<string>,
    parallelMode: string,
    metadata: map<string, Message>,
    resultReadyTs: Option<real>,
    dispatchTs: Option<real>,
    serverLatencyMs: Option<nat>,
    rolloutParamVersion: Option<int>,
    rolloutPolicyVersion: Option<string>,
    rolloutLogProbs: seq<real>,
    trajectoryId: string)

  datatype ResultTiming = ResultTiming(enqueueAt: nat, dispatchAt: Option<nat>, dispatchTs: Option<real>)

  datatype Clock = Clock(instantMs: nat, unixSeconds: real)

  datatype TerminalEvent = Cancelled(reason: Message) | TimedOut(reason: Message)

  const PROTOCOL_KEYS: set<string> := {
    "parallel_mode", "rollout_param_version", "rollout_policy_version", "rollout_log_probs", "enqueue_ts", "dispatch_ts",
    "result_ready_ts", "worker_start_ts", "worker_finish_ts", "server_latency_ms", "worker_latency_ms", "model_latency_ms"
  }

  /** The request metadata that may travel with a result. */
  function Context(req: EpisodeRequest): map<string, Message> { req.metadata - PROTOCOL_KEYS }

  /** `base` completed by the entries of `extra` whose key it lacks. */
  function Fill(base: map<string, Message>, extra: map<string, Message>): map<string, Message> { extra + base }

  /** `merged` is `base` filled from the entries of `extra` that are neither skipped nor still to do. */
  ghost predicate Filled(merged: map<string, Message>, base: map<string, Message>, extra: map<string, Message>,
                         skip: set<string>, todo: set<string>) {
    && (forall k :: k in merged <==> k in base || (k in extra && k !in todo && k !in skip))
    && (forall k :: k in merged ==> merged[k] == if k in base then base[k] else extra[k])
  }

  /** One entry more: inserted unless it is skipped or its key is taken. */
  lemma FillOneMore(merged: map<string, Message>, base: map<string, Message>, extra: map<string, Message>,
                    skip: set<string>, todo: set<string>, key: string)
    requires Filled(merged, base, extra, skip, todo) && key in todo && key in extra
    ensures Filled(if key !in skip && key !in merged then merged[key := extra[key]] else merged,
                   base, extra, skip, todo - {key})
  {
  }

  lemma FilledAll(merged: map<string, Message>, base: map<string, Message>, extra: map<string, Message>,
                  skip: set<string>)
    requires Filled(merged, base, extra, skip, {})
    ensures merged == Fill(base, extra - skip)
  {
  }

  /** Entry-or-insert for every entry of `extra` whose key is not skipped. */
  method FillFrom(base: map<string, Message>, extra: map<string, Message>, skip: set<string>)
    returns (merged: map<string, Message>)
    ensures merged == Fill(base, extra - skip)
  {
    merged := base;
    var todo := extra.Keys;
    while todo != {}
      invariant todo <= extra.Keys && Filled(merged, base, extra, skip, todo)
      decreases todo
    {
      var key :| key in todo;
      FillOneMore(merged, base, extra, skip, todo, key);
      if key !in skip && key !in merged {
        merged := merged[key := extra[key]];
      }
      todo := todo - {key};
    }
    FilledAll(merged, base, extra, skip);
  }

  /** The finalizer's loop over the request metadata. */
  method MergeMetadata(req: EpisodeRequest, metadata: map<string, Message>) returns (merged: map<string, Message>)
    ensures merged == Fill(metadata, Context(req))
  {
    merged := FillFrom(metadata, req.metadata, PROTOCOL_KEYS);
  }

  function Elapsed(since: nat, now: nat): nat { if now > since then now - since else 0 }

  function FinalizeEpisodeResult(req: EpisodeRequest, r: EpisodeResult, timing: Option<ResultTiming>,
                                 clock: Clock): EpisodeResult {
    var r1 := r.(parallelMode := if r.parallelMode == "" then req.parallelMode else r.parallelMode,
                 metadata := Fill(r.metadata, Context(req)),
                 resultReadyTs := if r.resultReadyTs.None? then Some(clock.unixSeconds) else r.resultReadyTs);
    match timing
    case None => r1
    case Some(t) =>
      var latency := Elapsed(if t.dispatchAt.Some? then t.dispatchAt.value else t.enqueueAt, clock.instantMs);
      r1.(dispatchTs := if r.dispatchTs.None? then t.dispatchTs else r.dispatchTs,
          serverLatencyMs := if r.serverLatencyMs.None? then Some(latency) else r.serverLatencyMs)
  }

  predicate AsyncMode(mode: string) { mode == "one_step_off_policy" || mode == "fully_async" }

  /** None when the result may go out, otherwise the protocol error. */
  function ValidateAsync(req: EpisodeRequest, r: EpisodeResult): Option<Message> {
    if r.status != "completed" then None
    else if !AsyncMode(req.parallelMode) then None
    else if r.parallelMode != req.parallelMode then
      Some(ModeMismatch(req.parallelMode, r.parallelMode))
    else if r.rolloutParamVersion.None? then Some(MissingParamVersion)
    else if r.rolloutPolicyVersion.None? || r.rolloutPolicyVersion.value == "" then Some(MissingPolicyVersion)
    else if r.rolloutLogProbs == [] then Some(MissingLogProbs)
    else None
  }

  function BareResult(req: EpisodeRequest, status: string, message: Message, code: Option<ErrorCode>): EpisodeResult {
    EpisodeResult(req.episodeId, req.attemptId, status, code, message, Some(status), "", map[], None, None, None, None, None, [], "")
  }

  function FailedResult(req: EpisodeRequest, status: string, message: Message, code: ErrorCode,
                        timing: Option<ResultTiming>, clock: Clock): EpisodeResult {
    FinalizeEpisodeResult(req, BareResult(req, status, message, Some(code)), timing, clock)
  }

  function Annotate(r: EpisodeResult, key: string, value: Message): EpisodeResult {
    r.(metadata := r.metadata[key := value])
  }

  function TerminalResult(req: EpisodeRequest, event: TerminalEvent, timing: Option<ResultTiming>,
                          clock: Clock): EpisodeResult {
    match event
    case Cancelled(reason) =>
      Annotate(FinalizeEpisodeResult(req, BareResult(req, "cancelled", reason, None), timing, clock), "terminal_kind", KindCancelled)
    case TimedOut(reason) =>
      Annotate(FailedResult(req, "failed", reason, ErrEpisodeTimeout, timing, clock), "terminal_kind", KindTimeout)
  }

  function FinalizeOrFail(req: EpisodeRequest, r: EpisodeResult, timing: Option<ResultTiming>,
                          clock: Clock): EpisodeResult {
    var finalized := FinalizeEpisodeResult(req, r, timing, clock);
    match ValidateAsync(req, finalized)
    case None => finalized
    case Some(message) =>
      Annotate(FailedResult(req, "failed", message, ErrAsyncProtocolMissingField, timing, clock), "async_protocol_error", message)
  }

  // ---------------------------------------------------------------- which results a pass leaves alone

  /** The training fields of a completed asynchronous result. */
  predicate HasRolloutFields(r: EpisodeResult) {
    && r.rolloutParamVersion.Some?
    && r.rolloutPolicyVersion.Some? && r.rolloutPolicyVersion.value != ""
    && r.rolloutLogProbs != []
  }

  /** A result with nothing left to fill in but times, fit to go out. */
  predicate Settled(req: EpisodeRequest, r: EpisodeResult) {
    && (r.parallelMode == "" ==> req.parallelMode == "")
    && Context(req).Keys <= r.metadata.Keys
    && r.resultReadyTs.Some?
    && (r.status == "completed" && AsyncMode(req.parallelMode) ==> r.parallelMode == req.parallelMode && HasRolloutFields(r))
  }

  lemma FillCovered(base: map<string, Message>, extra: map<string, Message>)
    ensures Fill(base, extra) == base <==> extra.Keys <= base.Keys
  {
    if Fill(base, extra) == base {
      forall k | k in extra ensures k in base { assert k in Fill(base, extra); }
    }
  }

  /** Validation, stated on what a result must carry. */
  lemma ValidatedMeans(req: EpisodeRequest, r: EpisodeResult)
    ensures ValidateAsync(req, r).None? <==>
            (r.status == "completed" && AsyncMode(req.parallelMode) ==> r.parallelMode == req.parallelMode && HasRolloutFields(r))
  {
  }

  /** What a pass produces is settled. */
  lemma PassSettles(req: EpisodeRequest, r: EpisodeResult, timing: Option<ResultTiming>, clock: Clock)
    ensures Settled(req, FinalizeOrFail(req, r, timing, clock))
  {
    ValidatedMeans(req, FinalizeEpisodeResult(req, r, timing, clock));
  }

  /** On a settled result a pass fills an absent dispatch_ts or server_latency_ms, and does nothing else. */
  lemma SettledPass(req: EpisodeRequest, r: EpisodeResult, timing: Option<ResultTiming>, clock: Clock)
    requires Settled(req, r)
    ensures var r' := FinalizeOrFail(req, r, timing, clock);
            && r' == r.(dispatchTs := r'.dispatchTs, serverLatencyMs := r'.serverLatencyMs)
            && r'.dispatchTs == (if r.dispatchTs.None? && timing.Some? then timing.value.dispatchTs else r.dispatchTs)
            && (r'.serverLatencyMs == r.serverLatencyMs || (r.serverLatencyMs.None? && timing.Some?))
  {
    FillCovered(r.metadata, Context(req));
    ValidatedMeans(req, FinalizeEpisodeResult(req, r, timing, clock));
  }

  /** Settled results are exactly the fixed points of a pass without timing. */
  lemma SettledIsFixedPoint(req: EpisodeRequest, r: EpisodeResult, clock: Clock)
    ensures Settled(req, r) <==> FinalizeOrFail(req, r, None, clock) == r
  {
    if Settled(req, r) {
      SettledPass(req, r, None, clock);
    } else if FinalizeOrFail(req, r, None, clock) == r {
      PassSettles(req, r, None, clock);
    }
  }

  // ---------------------------------------------------------------- main results

  /** Finalization is idempotent for fixed timing, whatever the clock reads on the second pass. */
  lemma FinalizeIdempotent(req: EpisodeRequest, r: EpisodeResult, timing: Option<ResultTiming>, first: Clock,
                           second: Clock)
    ensures var once := FinalizeOrFail(req, r, timing, first);
            FinalizeOrFail(req, once, timing, second) == once
  {
    PassSettles(req, r, timing, first);
    SettledPass(req, FinalizeOrFail(req, r, timing, first), timing, second);
  }

  /** A second pass with other timing can only fill what the first left absent. */
  lemma SecondPassOnlyFillsTimes(req: EpisodeRequest, r: EpisodeResult, timing: Option<ResultTiming>, first: Clock,
                                 timing': Option<ResultTiming>, second: Clock)
    ensures var once := FinalizeOrFail(req, r, timing, first);
            var twice := FinalizeOrFail(req, once, timing', second);
            && twice == once.(dispatchTs := twice.dispatchTs, serverLatencyMs := twice.serverLatencyMs)
            && (once.dispatchTs.Some? ==> twice.dispatchTs == once.dispatchTs)
            && (once.serverLatencyMs.Some? ==> twice.serverLatencyMs == once.serverLatencyMs)
            && (timing.Some? ==> twice.serverLatencyMs == once.serverLatencyMs)
  {
    PassSettles(req, r, timing, first);
    SettledPass(req, FinalizeOrFail(req, r, timing, first), timing', second);
  }

  /** A completed result goes out exactly when it was reported completed with the fields its mode demands. */
  lemma CompletedOutputs(req: EpisodeRequest, r: EpisodeResult, timing: Option<ResultTiming>, clock: Clock)
    ensures var out := FinalizeOrFail(req, r, timing, clock);
            && (out.status == "completed" <==>
                r.status == "completed" &&
                (AsyncMode(req.parallelMode) ==> (r.parallelMode == "" || r.parallelMode == req.parallelMode) && HasRolloutFields(r)))
            && (out.status == "completed" && AsyncMode(req.parallelMode) ==> out.parallelMode == req.parallelMode && HasRolloutFields(out))
  {
    ValidatedMeans(req, FinalizeEpisodeResult(req, r, timing, clock));
  }

  /** A result that is refused becomes a failure of the request's own episode and attempt, with the reason recorded. */
  lemma RefusedBecomesFailure(req: EpisodeRequest, r: EpisodeResult, timing: Option<ResultTiming>, clock: Clock)
    requires r.status == "completed" && FinalizeOrFail(req, r, timing, clock).status != "completed"
    ensures var out := FinalizeOrFail(req, r, timing, clock);
            && out.status == "failed" && out.errorCode == Some(ErrAsyncProtocolMissingField)
            && out.episodeId == req.episodeId && out.attemptId == req.attemptId && out.parallelMode == req.parallelMode
            && "async_protocol_error" in out.metadata && out.metadata["async_protocol_error"] == out.errorMessage
  {
    ValidatedMeans(req, FinalizeEpisodeResult(req, r, timing, clock));
  }

  /** A result other than a refused one keeps its outcome: only mode, metadata and times are filled in. */
  lemma OutcomeKept(req: EpisodeRequest, r: EpisodeResult, timing: Option<ResultTiming>, clock: Clock)
    requires r.status == FinalizeOrFail(req, r, timing, clock).status
    ensures var out := FinalizeOrFail(req, r, timing, clock);
            && out == r.(parallelMode := out.parallelMode, metadata := out.metadata, resultReadyTs := out.resultReadyTs,
                         dispatchTs := out.dispatchTs, serverLatencyMs := out.serverLatencyMs)
            && (forall k :: k in r.metadata ==> k in out.metadata && out.metadata[k] == r.metadata[k])
            && (forall k :: k in out.metadata && k !in r.metadata ==>
                              k in req.metadata && k !in PROTOCOL_KEYS && out.metadata[k] == req.metadata[k])
  {
    ValidatedMeans(req, FinalizeEpisodeResult(req, r, timing, clock));
  }

  /** A terminal state the server itself produces survives every later pass: only absent times are filled. */
  lemma TerminalResultsSettle(req: EpisodeRequest, event: TerminalEvent, timing: Option<ResultTiming>, first: Clock,
                              timing': Option<ResultTiming>, second: Clock)
    ensures var t := TerminalResult(req, event, timing, first);
            var again := FinalizeOrFail(req, t, timing', second);
            && Settled(req, t)
            && again == t.(dispatchTs := again.dispatchTs, serverLatencyMs := again.serverLatencyMs)
            && again.metadata["terminal_kind"] == (if event.Cancelled? then KindCancelled else KindTimeout)
            && again.status == (if event.Cancelled? then "cancelled" else "failed")
  {
    SettledPass(req, TerminalResult(req, event, timing, first), timing', second);
  }

  // ---------------------------------------------------------------- what is filled in, field by field

  /**
   What the finalizer fills in: an absent mode, an absent ready time, and, when the dispatch is known, absent dispatch and
   latency times, the latency counted from the dispatch, or from the queue when there was none, and never negative.
   */
  lemma FilledFields(req: EpisodeRequest, r: EpisodeResult, timing: Option<ResultTiming>, clock: Clock)
    ensures var out := FinalizeEpisodeResult(req, r, timing, clock);
            && out.parallelMode == (if r.parallelMode == "" then req.parallelMode else r.parallelMode)
            && out.resultReadyTs == (if r.resultReadyTs.None? then Some(clock.unixSeconds) else r.resultReadyTs)
            && (timing.None? ==> out.dispatchTs == r.dispatchTs && out.serverLatencyMs == r.serverLatencyMs)
            && (timing.Some? ==>
                  && out.dispatchTs == (if r.dispatchTs.None? then timing.value.dispatchTs else r.dispatchTs)
                  && (r.serverLatencyMs.Some? ==> out.serverLatencyMs == r.serverLatencyMs)
                  && (r.serverLatencyMs.None? && timing.value.dispatchAt.Some? && timing.value.dispatchAt.value <= clock.instantMs ==>
                        out.serverLatencyMs == Some(clock.instantMs - timing.value.dispatchAt.value))
                  && (r.serverLatencyMs.None? && timing.value.dispatchAt.None? && timing.value.enqueueAt <= clock.instantMs ==>
                        out.serverLatencyMs == Some(clock.instantMs - timing.value.enqueueAt))
                  && (r.serverLatencyMs.None? && out.serverLatencyMs != Some(0) ==>
                        clock.instantMs > if timing.value.dispatchAt.Some? then timing.value.dispatchAt.value else timing.value.enqueueAt)
                  && out.serverLatencyMs.Some?)
            && (forall k :: k in out.metadata <==> k in r.metadata || (k in req.metadata && k !in PROTOCOL_KEYS))
            && (forall k :: k in out.metadata ==> out.metadata[k] == if k in r.metadata then r.metadata[k] else req.metadata[k])
            && out == r.(parallelMode := out.parallelMode, metadata := out.metadata, resultReadyTs := out.resultReadyTs,
                         dispatchTs := out.dispatchTs, serverLatencyMs := out.serverLatencyMs)
  {
  }

  /** The keys of the twelve protocol fields never travel as metadata of the request. */
  lemma ProtocolKeysStayOut(req: EpisodeRequest, r: EpisodeResult, timing: Option<ResultTiming>, clock: Clock, key: string)
    requires key in ["parallel_mode", "rollout_param_version", "rollout_policy_version", "rollout_log_probs", "enqueue_ts",
                     "dispatch_ts", "result_ready_ts", "worker_start_ts", "worker_finish_ts", "server_latency_ms",
                     "worker_latency_ms", "model_latency_ms"]
    ensures key in FinalizeEpisodeResult(req, r, timing, clock).metadata ==> key in r.metadata
  {
    assert key in PROTOCOL_KEYS;
  }

  /** There are no others. */
  lemma ProtocolKeyCount()
    ensures |PROTOCOL_KEYS| == 12
  {
  }

  /** A result is let through unchanged by validation exactly as `CompletedOutputs` says; then it is the filled one. */
  lemma LetThrough(req: EpisodeRequest, r: EpisodeResult, timing: Option<ResultTiming>, clock: Clock)
    ensures var filled := FinalizeEpisodeResult(req, r, timing, clock);
            var out := FinalizeOrFail(req, r, timing, clock);
            var async := req.parallelMode == "one_step_off_policy" || req.parallelMode == "fully_async";
            var fields := && r.rolloutParamVersion.Some? && r.rolloutPolicyVersion.Some? && r.rolloutPolicyVersion.value != ""
                          && r.rolloutLogProbs != [];
            if r.status == "completed" && async && !(fields && (r.parallelMode == "" || r.parallelMode == req.parallelMode))
            then out.status == "failed" && out.errorCode == Some(ErrAsyncProtocolMissingField)
            else out == filled
  {
    ValidatedMeans(req, FinalizeEpisodeResult(req, r, timing, clock));
  }

  /** The text of a refusal: the wrong mode first, then the first missing field. */
  lemma RefusalNames(req: EpisodeRequest, r: EpisodeResult, timing: Option<ResultTiming>, clock: Clock)
    requires r.status == "completed" && FinalizeOrFail(req, r, timing, clock).status != "completed"
    ensures FinalizeOrFail(req, r, timing, clock).errorMessage ==
            if r.parallelMode != "" && r.parallelMode != req.parallelMode then ModeMismatch(req.parallelMode, r.parallelMode)
            else if r.rolloutParamVersion.None? then MissingParamVersion
            else if r.rolloutPolicyVersion.None? || r.rolloutPolicyVersion.value == "" then MissingPolicyVersion
            else MissingLogProbs
  {
    ValidatedMeans(req, FinalizeEpisodeResult(req, r, timing, clock));
  }

  /** The two terminal results of the server itself, field by field. */
  lemma TerminalResultIs(req: EpisodeRequest, event: TerminalEvent, timing: Option<ResultTiming>, clock: Clock)
    ensures var t := TerminalResult(req, event, timing, clock);
            && t.episodeId == req.episodeId && t.attemptId == req.attemptId && t.parallelMode == req.parallelMode
            && t.errorMessage == event.reason && t.resultReadyTs == Some(clock.unixSeconds)
            && t.status == (if event.Cancelled? then "cancelled" else "failed") && t.terminateReason == Some(t.status)
            && t.errorCode == (if event.Cancelled? then None else Some(ErrEpisodeTimeout))
            && "terminal_kind" in t.metadata
            && t.metadata["terminal_kind"] == (if event.Cancelled? then KindCancelled else KindTimeout)
            && (timing.Some? ==> t.dispatchTs == timing.value.dispatchTs && t.serverLatencyMs.Some?)
  {
  }
}
