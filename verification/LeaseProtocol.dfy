/**
 The AgentJob lease protocol at the granularity of single map, registry and store operations.

 Every RPC handler is a thread with a program counter (`Pc`).  Each `Event` is one atomic operation of
 one handler: an operation on the in-flight table, on a pending queue, on the agent registry or on the
 SQLite job table.  Any interleaving of handlers is therefore a sequence of events.

 A poll begins by running a reclaim; that reclaim is a handler of its own here.  A reclaim pass that
 collects several candidates is one handler per candidate, which allows more interleavings than the
 loop does, never fewer.
 */
module LeaseProtocol {

  type PoolId = string
  type JobId = string
  type AgentId = string  // "" is the placeholder of a record nobody has leased
  type RunId = string
  type Tid = nat

  const RECLAIM_MARK: string := ":reclaim:"

  /** An AgentJob value together with the pool queue it is routed to. */
  datatype Copy = Copy(pool: PoolId, id: JobId, run: RunId)

  /** An entry of the in-flight table; `sender` names the oneshot channel created by enqueue. */
  datatype Record = Record(pool: PoolId, agent: AgentId, run: RunId, sender: nat)

  datatype Phase = Pending | Leased | Completed | Closed

  /** A row of the agent_jobs table; `Closed` stands for the cancelled and timed_out phases. */
  datatype Row = Row(phase: Phase, agent: AgentId, run: RunId, checksum: nat)

  datatype Agent = Agent(maxConcurrent: nat, reserved: nat, reported: nat) {
    function Capacity(): nat { if maxConcurrent > 0 then maxConcurrent else 1 }
    function EffectiveLoad(): nat { if reserved > reported then reserved else reported }
  }

  /** A CompleteAgentJob request; `checksum` stands for the hash of its encoding. */
  datatype Request = Request(id: JobId, agent: AgentId, run: RunId, checksum: nat)

  datatype Code =
    | Accepted | DuplicateAccepted | UnknownJob | RunMismatch | AgentMismatch | CompletionConflict | Unavailable

  datatype Reply = Reply(request: Request, code: Code)

  datatype Delivery = Delivery(sender: nat, request: Request)

  /** A lease that was handed out; `life` is the sender of the record it was taken from. */
  datatype Lease = Lease(agent: AgentId, id: JobId, run: RunId, life: nat)

  datatype Pc =
    | Idle
    | EnqueueHolds(copy: Copy)
    | PollHolds(agent: AgentId, copy: Copy)
    | PollLeased(agent: AgentId, copy: Copy)
    | PollRejected(agent: AgentId, copy: Copy)
    | PollReturns(copy: Copy)
    | PollUndo(agent: AgentId)
    | CompleteAbsent(request: Request)
    | CompleteChecked(request: Request)
    | CompleteCommitted(request: Request)
    | CompleteRemoved(request: Request, agent: AgentId, sender: nat)
    | CompleteSends(request: Request, sender: nat)
    | ReclaimCandidate(agent: AgentId, copy: Copy)
    | ReclaimPersisted(agent: AgentId, copy: Copy, newRun: RunId)
    | ReclaimReplaced(agent: AgentId, copy: Copy)
    | ReclaimPushed(agent: AgentId)
    | AbandonRemoved(pool: PoolId, id: JobId, agent: AgentId)
    | AbandonPurges(pool: PoolId, id: JobId)

  /** The answer of a store call: an error may hide whether the statement was applied. */
  datatype StoreAnswer = Answered | ErrorApplied | ErrorDropped

  /** `persistent` is fixed for the lifetime of the server: the store is attached once, or never. */
  datatype State = State(
    persistent: bool,
    inFlight: map<JobId, Record>,
    queue: seq<Copy>,
    agents: map<AgentId, Agent>,
    rows: map<JobId, Row>,
    threads: map<Tid, Pc>,
    nextSender: nat,
    // history
    issued: map<nat, JobId>,
    handed: set<Lease>,
    reclaimed: set<(JobId, RunId)>,
    fired: seq<Delivery>,
    replies: map<Tid, Reply>)
  {
    function At(t: Tid): Pc { if t in threads then threads[t] else Idle }
    function Go(t: Tid, pc: Pc): State { this.(threads := threads[t := pc]) }
    function Answer(t: Tid, request: Request, code: Code): State {
      this.(threads := threads[t := Idle], replies := replies[t := Reply(request, code)])
    }
    function Reserved(a: AgentId): nat { if a in agents then agents[a].reserved else 0 }
  }

  datatype Event =
    | Register(agent: AgentId, maxConcurrent: nat)
    | Heartbeat(agent: AgentId, reported: nat)
    | RowInsert(id: JobId, run: RunId)
    | RowClose(id: JobId)
    | EnqueueInsert(t: Tid, copy: Copy)
    | PushBack(t: Tid)
    | Release(t: Tid)
    | PollTake(t: Tid, agent: AgentId, pos: nat)
    | PollStore(t: Tid, answer: StoreAnswer)
    | PollOwn(t: Tid)
    | PollPutBack(t: Tid)
    | CompleteLookup(t: Tid, request: Request)
    | CompleteCommit(t: Tid, answer: StoreAnswer)
    | CompleteRemove(t: Tid)
    | CompleteSend(t: Tid)
    | ReclaimSnapshot(t: Tid, id: JobId)
    | ReclaimStore(t: Tid, suffix: string, answer: StoreAnswer)
    | ReclaimReplace(t: Tid)
    | AbandonRemove(t: Tid, pool: PoolId, id: JobId)
    | AbandonPurge(t: Tid)

  function Init(persistent: bool): State {
    State(persistent, map[], [], map[], map[], map[], 0, map[], {}, {}, [], map[])
  }

  // ---------------------------------------------------------------- the job table

  /** `lease_agent_job`: the row must still be pending under this run. */
  predicate CanLease(rows: map<JobId, Row>, id: JobId, run: RunId) {
    id in rows && rows[id].phase == Pending && rows[id].run == run
  }

  function LeaseRow(rows: map<JobId, Row>, id: JobId, agent: AgentId, run: RunId): map<JobId, Row> {
    if CanLease(rows, id, run) then rows[id := rows[id].(phase := Leased, agent := agent)] else rows
  }

  /** `requeue_agent_job`: the row must still be the stale lease. */
  predicate CanRequeue(rows: map<JobId, Row>, id: JobId, agent: AgentId, run: RunId) {
    id in rows && rows[id].phase == Leased && rows[id].agent == agent && rows[id].run == run
  }

  function RequeueRow(rows: map<JobId, Row>, id: JobId, agent: AgentId, run: RunId, newRun: RunId): map<JobId, Row> {
    if CanRequeue(rows, id, agent, run) then rows[id := Row(Pending, "", newRun, 0)] else rows
  }

  datatype Decision = Replay | Conflict | Missing

  /** `commit_agent_completion`: what the store decides. */
  function CommitDecision(rows: map<JobId, Row>, r: Request): Decision {
    if r.id !in rows then Missing
    else
      var row := rows[r.id];
      if row.phase == Completed then
        if row.checksum == r.checksum && row.run == r.run && row.agent == r.agent then Replay else Conflict
      else if row.phase != Leased || row.run != r.run || row.agent != r.agent then Conflict
      else Replay
  }

  /** `commit_agent_completion`: what the store writes. */
  function CommitRow(rows: map<JobId, Row>, r: Request): map<JobId, Row> {
    if CommitDecision(rows, r) == Replay then rows[r.id := Row(Completed, r.agent, r.run, r.checksum)] else rows
  }

  // ---------------------------------------------------------------- queue operations

  function Without(q: seq<Copy>, pool: PoolId, id: JobId): seq<Copy> {
    if q == [] then []
    else if q[0].pool == pool && q[0].id == id then Without(q[1..], pool, id)
    else [q[0]] + Without(q[1..], pool, id)
  }

  /** Number of queued copies of a job, over all pools. */
  function Count(q: seq<Copy>, id: JobId): nat {
    if q == [] then 0 else (if q[0].id == id then 1 else 0) + Count(q[1..], id)
  }

  // ---------------------------------------------------------------- what a handler holds

  /** True when the handler holds a job copy that is in no queue. */
  predicate Holds(pc: Pc) {
    pc.EnqueueHolds? || pc.PollHolds? || pc.PollLeased? || pc.PollRejected? || pc.PollReturns? || pc.ReclaimReplaced?
  }

  /** True when the handler owes the registry one decrement, or still holds a reservation. */
  predicate Charges(pc: Pc) {
    || pc.PollHolds? || pc.PollLeased? || pc.PollRejected? || pc.PollUndo?
    || pc.CompleteRemoved? || pc.ReclaimReplaced? || pc.ReclaimPushed? || pc.AbandonRemoved?
  }

  predicate HoldsJob(pc: Pc, id: JobId) { Holds(pc) && pc.copy.id == id }

  predicate ChargesAgent(pc: Pc, a: AgentId) { Charges(pc) && pc.agent == a }

  function Holders(threads: map<Tid, Pc>, id: JobId): set<Tid> {
    set t | t in threads && HoldsJob(threads[t], id)
  }

  function Chargers(threads: map<Tid, Pc>, a: AgentId): set<Tid> {
    set t | t in threads && ChargesAgent(threads[t], a)
  }

  function LeasedTo(inFlight: map<JobId, Record>, a: AgentId): set<JobId> {
    set id | id in inFlight && inFlight[id].agent == a
  }

  /** Copies of a job that are queued or held by a handler. */
  function Copies(s: State, id: JobId): nat { Count(s.queue, id) + |Holders(s.threads, id)| }

  /** A completion handler past its identity check of `id`: it will remove whatever record is there. */
  predicate Completing(pc: Pc, id: JobId) {
    (pc.CompleteChecked? || pc.CompleteCommitted?) && pc.request.id == id
  }

  /** An abandon handler that removed the record of `id` and has not purged the queue yet. */
  predicate Abandoning(pc: Pc, id: JobId) {
    (pc.AbandonRemoved? || pc.AbandonPurges?) && pc.id == id
  }

  /** No copy of the job is left anywhere, and no abandon of it has a purge to come. */
  predicate Vacant(s: State, id: JobId) {
    Copies(s, id) == 0 && forall t :: t in s.threads ==> !Abandoning(s.threads[t], id)
  }

  predicate HasLease(s: State, id: JobId) { id in s.inFlight && s.inFlight[id].agent != "" }

  // ---------------------------------------------------------------- transitions

  predicate Enabled(s: State, e: Event) {
    match e
    // an empty id is replaced by a generated one before it gets here
    case Register(a, m) => a != ""
    case Heartbeat(a, n) => a in s.agents
    case RowInsert(id, run) => s.persistent
    case RowClose(id) => s.persistent
    case EnqueueInsert(t, c) => s.At(t).Idle?
    case PushBack(t) => s.At(t).EnqueueHolds? || s.At(t).ReclaimReplaced?
    case Release(t) =>
      var pc := s.At(t);
      pc.PollRejected? || pc.PollUndo? || pc.CompleteRemoved? || pc.ReclaimPushed? || pc.AbandonRemoved?
    case PollTake(t, a, pos) =>
      && s.At(t).Idle? && pos < |s.queue|
      && a in s.agents && s.agents[a].EffectiveLoad() < s.agents[a].Capacity()
    case PollStore(t, answer) => s.At(t).PollHolds?
    case PollOwn(t) => s.At(t).PollLeased?
    case PollPutBack(t) => s.At(t).PollReturns?
    case CompleteLookup(t, r) => s.At(t).Idle? && t !in s.replies
    case CompleteCommit(t, answer) => s.At(t).CompleteChecked? || s.At(t).CompleteAbsent?
    case CompleteRemove(t) => s.At(t).CompleteCommitted?
    case CompleteSend(t) => s.At(t).CompleteSends?
    case ReclaimSnapshot(t, id) => s.At(t).Idle? && id in s.inFlight && s.inFlight[id].agent != ""
    case ReclaimStore(t, suffix, answer) => s.At(t).ReclaimCandidate?
    case ReclaimReplace(t) => s.At(t).ReclaimPersisted?
    case AbandonRemove(t, pool, id) => s.At(t).Idle?
    case AbandonPurge(t) => s.At(t).AbandonPurges?
  }

  // What the code does not check, but some results need.

  /** An enqueue finds no copy of an earlier job of its id. */
  predicate Spaced(s: State, e: Event) { e.EnqueueInsert? ==> Vacant(s, e.copy.id) }

  /** A registration finds no load to reset, and an enqueue no lease to overwrite. */
  predicate Unloaded(s: State, e: Event) {
    && (e.Register? ==> s.Reserved(e.agent) == 0)
    && (e.EnqueueInsert? ==> !HasLease(s, e.copy.id))
  }

  /** decrement_load: saturating, and a no-op for an unknown agent. */
  function Decrement(agents: map<AgentId, Agent>, a: AgentId): map<AgentId, Agent> {
    if a in agents then
      agents[a := agents[a].(reserved := if agents[a].reserved > 0 then agents[a].reserved - 1 else 0)]
    else agents
  }

  function Increment(agents: map<AgentId, Agent>, a: AgentId): map<AgentId, Agent>
    requires a in agents
  {
    agents[a := agents[a].(reserved := agents[a].reserved + 1)]
  }

  /** Where a handler goes after decrementing the load it is charged for. */
  function AfterRelease(pc: Pc): Pc {
    match pc
    case PollRejected(_, copy) => PollReturns(copy)
    case CompleteRemoved(r, _, sender) => CompleteSends(r, sender)
    case AbandonRemoved(pool, id, _) => AbandonPurges(pool, id)
    case _ => Idle
  }

  function ApplyPollStore(s: State, t: Tid, answer: StoreAnswer): (s': State)
    requires s.At(t).PollHolds?
    ensures s' == s.(rows := s'.rows, threads := s.threads[t := s'.At(t)])
  {
    var PollHolds(a, c) := s.At(t);
    if !s.persistent then s.Go(t, PollLeased(a, c))
    else
      var ok := CanLease(s.rows, c.id, c.run);
      var s1 := if answer.ErrorDropped? then s else s.(rows := LeaseRow(s.rows, c.id, a, c.run));
      s1.Go(t, if answer.Answered? && ok then PollLeased(a, c) else PollRejected(a, c))
  }

  function ApplyLookup(s: State, t: Tid, r: Request): (s': State)
    ensures s' == s.(threads := s.threads[t := s'.At(t)], replies := s'.replies)
    ensures s'.replies - {t} == s.replies - {t}
  {
    if r.id !in s.inFlight then
      if s.persistent then s.Go(t, CompleteAbsent(r)) else s.Answer(t, r, UnknownJob)
    else
      var rec := s.inFlight[r.id];
      if rec.run != r.run then s.Answer(t, r, RunMismatch)
      else if rec.agent == "" || rec.agent != r.agent then s.Answer(t, r, AgentMismatch)
      else s.Go(t, CompleteChecked(r))
  }

  function ApplyCommit(s: State, t: Tid, answer: StoreAnswer): (s': State)
    requires s.At(t).CompleteChecked? || s.At(t).CompleteAbsent?
    ensures s' == s.(rows := s'.rows, threads := s.threads[t := s'.At(t)], replies := s'.replies)
    ensures s'.replies - {t} == s.replies - {t}
  {
    var pc := s.At(t);
    var r := pc.request;
    if !s.persistent then
      if pc.CompleteChecked? then s.Go(t, CompleteCommitted(r)) else s.Answer(t, r, UnknownJob)
    else
      var decision := CommitDecision(s.rows, r);
      var s1 := if answer.ErrorDropped? then s else s.(rows := CommitRow(s.rows, r));
      if !answer.Answered? then s1.Answer(t, r, Unavailable)
      else if pc.CompleteAbsent? then s1.Answer(t, r, if decision.Replay? then DuplicateAccepted else UnknownJob)
      else match decision
           case Replay => s1.Go(t, CompleteCommitted(r))
           case Conflict => s1.Answer(t, r, CompletionConflict)
           case Missing => s1.Answer(t, r, UnknownJob)
  }

  /** The final remove takes whatever record is there: it does not look at its identity again. */
  function ApplyRemove(s: State, t: Tid): (s': State)
    requires s.At(t).CompleteCommitted?
    ensures s' == s.(inFlight := s'.inFlight, threads := s.threads[t := s'.At(t)], replies := s'.replies)
    ensures s'.replies - {t} == s.replies - {t}
  {
    var r := s.At(t).request;
    if r.id in s.inFlight then
      var rec := s.inFlight[r.id];
      s.(inFlight := s.inFlight - {r.id}).Go(t, CompleteRemoved(r, rec.agent, rec.sender))
    else s.Answer(t, r, UnknownJob)
  }

  function ApplyReclaimStore(s: State, t: Tid, suffix: string, answer: StoreAnswer): (s': State)
    requires s.At(t).ReclaimCandidate?
    ensures s' == s.(rows := s'.rows, threads := s.threads[t := s'.At(t)], reclaimed := s'.reclaimed)
  {
    var ReclaimCandidate(a, c) := s.At(t);
    var newRun := c.run + RECLAIM_MARK + suffix;
    if !s.persistent then s.Go(t, ReclaimPersisted(a, c, newRun))
    else
      var ok := CanRequeue(s.rows, c.id, a, c.run);
      var s1 :=
        if ok && !answer.ErrorDropped? then
          s.(rows := RequeueRow(s.rows, c.id, a, c.run, newRun), reclaimed := s.reclaimed + {(c.id, c.run)})
        else s;
      s1.Go(t, if answer.Answered? && ok then ReclaimPersisted(a, c, newRun) else Idle)
  }

  function ApplyReclaimReplace(s: State, t: Tid): (s': State)
    requires s.At(t).ReclaimPersisted?
    ensures s' == s.(inFlight := s'.inFlight, reclaimed := s'.reclaimed, threads := s.threads[t := s'.At(t)])
  {
    var ReclaimPersisted(a, c, newRun) := s.At(t);
    if c.id in s.inFlight && s.inFlight[c.id].agent == a && s.inFlight[c.id].run == c.run then
      s.(inFlight := s.inFlight[c.id := s.inFlight[c.id].(agent := "", run := newRun)],
         reclaimed := s.reclaimed + {(c.id, c.run)})
      .Go(t, ReclaimReplaced(a, c.(run := newRun)))
    else s.Go(t, Idle)
  }

  function ApplyRowInsert(s: State, id: JobId, run: RunId): (s': State)
    ensures s' == s.(rows := s'.rows)
  {
    if id in s.rows then s else s.(rows := s.rows[id := Row(Pending, "", run, 0)])
  }

  function ApplyRowClose(s: State, id: JobId): (s': State)
    ensures s' == s.(rows := s'.rows)
  {
    if id in s.rows && s.rows[id].phase != Completed && s.rows[id].phase != Closed
    then s.(rows := s.rows[id := s.rows[id].(phase := Closed)]) else s
  }

  function ApplyEnqueue(s: State, t: Tid, c: Copy): State {
    s.(inFlight := s.inFlight[c.id := Record(c.pool, "", c.run, s.nextSender)],
       nextSender := s.nextSender + 1, issued := s.issued[s.nextSender := c.id])
    .Go(t, EnqueueHolds(c))
  }

  function ApplyPushBack(s: State, t: Tid): State
    requires s.At(t).EnqueueHolds? || s.At(t).ReclaimReplaced?
  {
    var pc := s.At(t);
    s.(queue := s.queue + [pc.copy]).Go(t, if pc.EnqueueHolds? then Idle else ReclaimPushed(pc.agent))
  }

  function ApplyRelease(s: State, t: Tid): State
    requires Charges(s.At(t))
  {
    s.(agents := Decrement(s.agents, s.At(t).agent)).Go(t, AfterRelease(s.At(t)))
  }

  function ApplyTake(s: State, t: Tid, a: AgentId, pos: nat): State
    requires a in s.agents && pos < |s.queue|
  {
    s.(queue := s.queue[..pos] + s.queue[pos+1..], agents := Increment(s.agents, a))
    .Go(t, PollHolds(a, s.queue[pos]))
  }

  /** The lease takes effect in memory; the record's run id is not compared with the copy's. */
  function ApplyOwn(s: State, t: Tid): (s': State)
    requires s.At(t).PollLeased?
    ensures s' == s.(inFlight := s'.inFlight, handed := s'.handed, threads := s.threads[t := s'.At(t)])
  {
    var PollLeased(a, c) := s.At(t);
    if c.id in s.inFlight then
      var rec := s.inFlight[c.id];
      s.(inFlight := s.inFlight[c.id := rec.(agent := a)], handed := s.handed + {Lease(a, c.id, c.run, rec.sender)})
      .Go(t, Idle)
    else s.Go(t, PollUndo(a))
  }

  function ApplyPutBack(s: State, t: Tid): State
    requires s.At(t).PollReturns?
  {
    s.(queue := [s.At(t).copy] + s.queue).Go(t, Idle)
  }

  function ApplySend(s: State, t: Tid): State
    requires s.At(t).CompleteSends?
  {
    var CompleteSends(r, sender) := s.At(t);
    s.(fired := s.fired + [Delivery(sender, r)]).Answer(t, r, Accepted)
  }

  function ApplySnapshot(s: State, t: Tid, id: JobId): State
    requires id in s.inFlight
  {
    var rec := s.inFlight[id];
    s.Go(t, ReclaimCandidate(rec.agent, Copy(rec.pool, id, rec.run)))
  }

  function ApplyAbandon(s: State, t: Tid, pool: PoolId, id: JobId): (s': State)
    ensures s' == s.(inFlight := s'.inFlight, threads := s.threads[t := s'.At(t)])
  {
    if id in s.inFlight then
      var a := s.inFlight[id].agent;
      s.(inFlight := s.inFlight - {id}).Go(t, if a != "" then AbandonRemoved(pool, id, a) else AbandonPurges(pool, id))
    else s.Go(t, AbandonPurges(pool, id))
  }

  function ApplyPurge(s: State, t: Tid): State
    requires s.At(t).AbandonPurges?
  {
    var AbandonPurges(pool, id) := s.At(t);
    s.(queue := Without(s.queue, pool, id)).Go(t, Idle)
  }

  function Apply(s: State, e: Event): (s': State)
    requires Enabled(s, e)
    ensures s'.persistent == s.persistent
  {
    match e
    case Register(a, m) => s.(agents := s.agents[a := Agent(m, 0, 0)])
    case Heartbeat(a, n) => s.(agents := s.agents[a := s.agents[a].(reported := n)])
    case RowInsert(id, run) => ApplyRowInsert(s, id, run)
    case RowClose(id) => ApplyRowClose(s, id)
    case EnqueueInsert(t, c) => ApplyEnqueue(s, t, c)
    case PushBack(t) => ApplyPushBack(s, t)
    case Release(t) => ApplyRelease(s, t)
    case PollTake(t, a, pos) => ApplyTake(s, t, a, pos)
    case PollStore(t, answer) => ApplyPollStore(s, t, answer)
    case PollOwn(t) => ApplyOwn(s, t)
    case PollPutBack(t) => ApplyPutBack(s, t)
    case CompleteLookup(t, r) => ApplyLookup(s, t, r)
    case CompleteCommit(t, answer) => ApplyCommit(s, t, answer)
    case CompleteRemove(t) => ApplyRemove(s, t)
    case CompleteSend(t) => ApplySend(s, t)
    case ReclaimSnapshot(t, id) => ApplySnapshot(s, t, id)
    case ReclaimStore(t, suffix, answer) => ApplyReclaimStore(s, t, suffix, answer)
    case ReclaimReplace(t) => ApplyReclaimReplace(s, t)
    case AbandonRemove(t, pool, id) => ApplyAbandon(s, t, pool, id)
    case AbandonPurge(t) => ApplyPurge(s, t)
  }

  /** `es` is a run from `s`: every event is enabled when its turn comes. */
  predicate Runs(s: State, es: seq<Event>)
    decreases |es|
  {
    es == [] || (Enabled(s, es[0]) && Runs(Apply(s, es[0]), es[1..]))
  }

  /** The state after a run. */
  function After(s: State, es: seq<Event>): State
    requires Runs(s, es)
    decreases |es|
  {
    if es == [] then s else After(Apply(s, es[0]), es[1..])
  }

  /** No enqueue of the run finds a copy. */
  predicate SpacedRun(s: State, es: seq<Event>)
    requires Runs(s, es)
    decreases |es|
  {
    es == [] || (Spaced(s, es[0]) && SpacedRun(Apply(s, es[0]), es[1..]))
  }

  /** No event of the run drops load. */
  predicate UnloadedRun(s: State, es: seq<Event>)
    requires Runs(s, es)
    decreases |es|
  {
    es == [] || (Unloaded(s, es[0]) && UnloadedRun(Apply(s, es[0]), es[1..]))
  }
}
