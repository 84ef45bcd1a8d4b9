/**
 The runner's completion outbox, composed with the server's lease protocol.

 The runner has two threads: the poll loop, which first drains the spool directory and then polls, and the
 job thread of its single slot, which executes a job, spools its completion and submits it.  Either thread
 may have one CompleteAgentJob call under way; calls, replies and the runner itself may be lost at any
 moment, while the spool directory survives.  Both threads share one client object, whose
 last_complete_code is written when a call returns and read in a later step.
 */
module Outbox {
  import opened Options
  import opened LeaseProtocol
  import opened LeaseSteps
  import opened LeaseChain
  import opened LeaseClients

  /** A spooled completion: the lease it was executed under, and the checksum of its content. */
  datatype File = File(lease: Lease, checksum: nat) {
    function Call(): Request { Request(lease.id, lease.agent, lease.run, checksum) }
  }

  datatype Task =
    | Free
    | Polling
    | Executing(lease: Lease)
    | Spooled(id: JobId)
    | Waiting(id: JobId, call: Tid)
    | Returned(id: JobId, sent: File, acked: bool)

  /**
   `unknown` is Some(id) while last_complete_code is "UNKNOWN_JOB", left there by a reply about `id`.
   `slot` is the job of the latest lease received; `before` is what had been handed out when the poll under
   way was sent.
   */
  datatype Runner = Runner(
    active: int,
    job: Task,
    loop: Task,
    unknown: Option<JobId>,
    spool: map<JobId, File>,
    calls: map<Tid, File>,
    slot: JobId,
    before: set<Lease>,
    received: set<Lease>,
    finished: set<File>,
    dropped: set<File>)

  datatype World = World(server: State, runner: Runner)

  datatype Step =
    | Serve(e: Event)
    | Poll
    | PollFails
    | GotJob(lease: Lease)
    | Finish(checksum: nat)
    | JobSubmit(t: Tid)
    | JobSkips
    | JobReturn
    | JobFails
    | JobActs
    | DrainSubmit(id: JobId, t: Tid)
    | DrainReturn
    | DrainFails
    | DrainActs
    | Crash

  function Start(persistent: bool): World {
    World(Init(persistent), Runner(0, Free, Free, None, map[], map[], "", {}, {}, {}, {}))
  }

  /** A call id the server has never seen. */
  predicate NewCall(w: World, t: Tid) {
    w.server.At(t).Idle? && t !in w.server.replies && t !in w.runner.calls
  }

  predicate Replied(s: State, task: Task) {
    task.Waiting? && task.call in s.replies && s.replies[task.call].code != Unavailable
  }

  ghost predicate Can(w: World, x: Step) {
    var s, r := w.server, w.runner;
    match x
    case Serve(e) =>
      Enabled(s, e) && FreshEvent(s, e) && forall t :: t in r.calls ==> Respects(e, t, r.calls[t].Call())
    case Poll => r.loop.Free? && r.active < 1
    case PollFails => r.loop.Polling?
    case GotJob(lease) => r.loop.Polling? && lease in s.handed && lease !in r.before
    case Finish(checksum) => r.job.Executing?
    case JobSubmit(t) => r.job.Spooled? && r.job.id in r.spool && NewCall(w, t)
    case JobSkips => r.job.Spooled? && r.job.id !in r.spool
    case JobReturn => Replied(s, r.job) && r.job.call in r.calls
    case JobFails => r.job.Waiting?
    case JobActs => r.job.Returned?
    case DrainSubmit(id, t) => r.loop.Free? && id in r.spool && NewCall(w, t)
    case DrainReturn => Replied(s, r.loop) && r.loop.call in r.calls
    case DrainFails => r.loop.Waiting?
    case DrainActs => r.loop.Returned?
    case Crash => true
  }

  /** last_complete_code after a reply about `id`. */
  function CodeAfter(id: JobId, code: Code): Option<JobId> { if code == UnknownJob then Some(id) else None }

  /** Delete on ack, archive on UNKNOWN_JOB, keep otherwise. */
  function Settle(r: Runner, task: Task): Runner
    requires task.Returned?
  {
    if (task.acked || r.unknown.Some?) && task.id in r.spool then
      r.(spool := r.spool - {task.id}, dropped := r.dropped + {r.spool[task.id]})
    else r
  }

  function Do(w: World, x: Step): World
    requires Can(w, x)
  {
    var s, r := w.server, w.runner;
    match x
    case Serve(e) => w.(server := Apply(s, e))
    case Poll => w.(runner := r.(loop := Polling, before := s.handed))
    case PollFails => w.(runner := r.(loop := Free))
    case GotJob(lease) =>
      w.(runner := r.(loop := Free, job := Executing(lease), active := r.active + 1, slot := lease.id,
                      received := r.received + {lease}))
    case Finish(checksum) =>
      var id, f := r.job.lease.id, File(r.job.lease, checksum);
      w.(runner := r.(job := Spooled(id), spool := r.spool[id := f], finished := r.finished + {f}))
    case JobSubmit(t) =>
      w.(runner := r.(job := Waiting(r.job.id, t), calls := r.calls[t := r.spool[r.job.id]]))
    case JobSkips => w.(runner := r.(job := Free, active := r.active - 1))
    case JobReturn =>
      var code := s.replies[r.job.call].code;
      w.(runner := r.(job := Returned(r.job.id, r.calls[r.job.call], IsAcked(code)), unknown := CodeAfter(r.job.id, code)))
    case JobFails => w.(runner := r.(job := Free, active := r.active - 1))
    case JobActs => w.(runner := Settle(r, r.job).(job := Free, active := r.active - 1))
    case DrainSubmit(id, t) => w.(runner := r.(loop := Waiting(id, t), calls := r.calls[t := r.spool[id]]))
    case DrainReturn =>
      var code := s.replies[r.loop.call].code;
      w.(runner := r.(loop := Returned(r.loop.id, r.calls[r.loop.call], IsAcked(code)),
                      unknown := CodeAfter(r.loop.id, code)))
    case DrainFails => w.(runner := r.(loop := Free))
    case DrainActs => w.(runner := Settle(r, r.loop).(loop := Free))
    case Crash => w.(runner := r.(active := 0, job := Free, loop := Free, unknown := None))
  }

  predicate IsAcked(code: Code) { code == Accepted || code == DuplicateAccepted }

  ghost predicate Happens(w: World, xs: seq<Step>)
    decreases |xs|
  {
    xs == [] || (Can(w, xs[0]) && Happens(Do(w, xs[0]), xs[1..]))
  }

  ghost function Then(w: World, xs: seq<Step>): World
    requires Happens(w, xs)
    decreases |xs|
  {
    if xs == [] then w else Then(Do(w, xs[0]), xs[1..])
  }

  // ---------------------------------------------------------------- the invariant

  /** Nothing is lost by dropping this completion: the server can accept it no more. */
  ghost predicate Done(s: State, f: File) { Hopeless(s, f.lease, f.Call()) }

  /** What is known once a reply arrived, given the leases received so far. */
  ghost predicate AnswerOk(s: State, f: File, acked: bool, received: set<Lease>) {
    f.lease in received && if acked then AllGone(s, f.lease.id, received) else Done(s, f)
  }

  /** A lease handed out since the poll was sent has taken the place of the earlier leases of its job. */
  ghost predicate Newer(s: State, before: set<Lease>) {
    forall x, y :: x in s.handed && x !in before && y in before && y.id == x.id ==> !Held(s, y)
  }

  ghost predicate FilesOk(w: World) {
    var s, r := w.server, w.runner;
    && (forall id :: id in r.spool ==> r.spool[id].lease.id == id && r.spool[id] in r.finished)
    && (forall f :: f in r.finished ==> f.lease in r.received)
    && (forall f :: f in r.finished ==> (f.lease.id in r.spool && r.spool[f.lease.id] == f) || Done(s, f))
    && (forall f :: f in r.dropped ==> f in r.finished && Done(s, f))
  }

  /** The call of a waiting task, and what it has found so far. */
  ghost predicate WaitOk(w: World, id: JobId, t: Tid) {
    && t in w.runner.calls && w.runner.calls[t].lease.id == id && w.runner.calls[t].lease in w.runner.received
    && (FoundOver(w.server, t) ==> AllGone(w.server, id, w.runner.received))
  }

  ghost predicate JobOk(w: World) {
    var s, r := w.server, w.runner;
    match r.job
    case Free => true
    case Polling => false
    case Executing(lease) =>
      && lease.id == r.slot && lease in r.received
      && (forall f :: f in r.finished && f.lease.id == lease.id ==> !Held(s, f.lease))
    case Spooled(id) => id == r.slot
    case Waiting(id, t) => id == r.slot && WaitOk(w, id, t) && (id in r.spool ==> r.spool[id] == r.calls[t])
    case Returned(id, sent, acked) =>
      && id == r.slot && sent.lease.id == id && (id in r.spool ==> r.spool[id] == sent)
      && AnswerOk(s, sent, acked, r.received)
  }

  ghost predicate LoopOk(w: World) {
    var s, r := w.server, w.runner;
    match r.loop
    case Free => true
    case Polling => r.job.Free? && r.received <= r.before && r.before <= s.handed && Newer(s, r.before)
    case Executing(_) => false
    case Spooled(_) => false
    case Waiting(id, t) => WaitOk(w, id, t) && (id in r.spool && r.spool[id] != r.calls[t] ==> id == r.slot)
    case Returned(id, sent, acked) =>
      && sent.lease.id == id && (id in r.spool && r.spool[id] != sent ==> id == r.slot)
      && AnswerOk(s, sent, acked, r.received)
      && (r.unknown.Some? ==> r.unknown.value == id || r.unknown.value == r.slot)
  }

  /** The code that a task is about to read was left by a call that found its job over. */
  ghost predicate CodeOk(w: World) {
    var s, r := w.server, w.runner;
    (r.job.Returned? || r.loop.Returned?) && r.unknown.Some? ==> AllGone(s, r.unknown.value, r.received)
  }

  ghost predicate WorldOk(w: World) {
    var s, r := w.server, w.runner;
    && ServerOk(s)
    && (forall t :: t in r.calls ==> CallOk(s, t, r.calls[t].lease, r.calls[t].Call()))
    && r.received <= s.handed && CodeOk(w)
    && r.active == (if r.job.Free? then 0 else 1)
    && FilesOk(w) && JobOk(w) && LoopOk(w)
  }

  // ---------------------------------------------------------------- server steps

  lemma DoneStays(s: State, s': State, f: File)
    requires Evolves(s, s') && f.lease in s.handed && Done(s, f)
    ensures Done(s', f)
  {
    HopelessStays(s, s', f.lease, f.Call());
  }

  lemma AnswerStays(s: State, s': State, f: File, acked: bool, received: set<Lease>)
    requires Evolves(s, s') && f.lease in s.handed && AnswerOk(s, f, acked, received)
    ensures AnswerOk(s', f, acked, received)
  {
    if !acked { DoneStays(s, s', f); }
  }

  lemma NewerStays(s: State, e: Event, before: set<Lease>)
    requires ServerOk(s) && Enabled(s, e) && before <= s.handed && Newer(s, before) && Evolves(s, Apply(s, e))
    ensures Newer(Apply(s, e), before)
  {
    var s' := Apply(s, e);
    if e.PollOwn? {
      NewerAfterOwn(s, e.t, before);
    } else {
      OnlyPollHands(s, e);
    }
  }

  /** The poll's lease is the one in the record now, so no earlier one is. */
  lemma NewerAfterOwn(s: State, t: Tid, before: set<Lease>)
    requires ServerOk(s) && s.At(t).PollLeased? && before <= s.handed && Newer(s, before)
    requires Evolves(s, ApplyOwn(s, t))
    ensures Newer(ApplyOwn(s, t), before)
  {
    var s', c := ApplyOwn(s, t), s.At(t).copy;
    OwnOnce(s, t);
    if c.id in s.inFlight {
      OwnIsNew(s, t);
      forall y | y in before && y.id == c.id ensures !Held(s', y) { assert LeaseOk(s, y) && !Held(s, y); }
    }
  }

  lemma WaitStays(w: World, e: Event, id: JobId, t: Tid)
    requires WorldOk(w) && Can(w, Serve(e)) && WaitOk(w, id, t)
    ensures WaitOk(w.(server := Apply(w.server, e)), id, t)
  {
    var f := w.runner.calls[t];
    FoundOverStep(w.server, e, t, f.lease, f.Call(), w.runner.received);
  }

  /** The server moves while the runner's tasks stand still. */
  lemma JobStays(w: World, e: Event)
    requires WorldOk(w) && Can(w, Serve(e)) && Evolves(w.server, Apply(w.server, e))
    ensures JobOk(w.(server := Apply(w.server, e)))
  {
    var s, r := w.server, w.runner;
    match r.job
    case Waiting(id, t) => WaitStays(w, e, id, t);
    case Returned(id, sent, acked) => AnswerStays(s, Apply(s, e), sent, acked, r.received);
    case _ =>
  }

  lemma LoopStays(w: World, e: Event)
    requires WorldOk(w) && Can(w, Serve(e)) && Evolves(w.server, Apply(w.server, e))
    ensures LoopOk(w.(server := Apply(w.server, e)))
  {
    var s, r := w.server, w.runner;
    match r.loop
    case Waiting(id, t) => WaitStays(w, e, id, t);
    case Returned(id, sent, acked) => AnswerStays(s, Apply(s, e), sent, acked, r.received);
    case Polling => NewerStays(s, e, r.before);
    case _ =>
  }

  lemma ServeKeeps(w: World, e: Event)
    requires WorldOk(w) && Can(w, Serve(e))
    ensures WorldOk(w.(server := Apply(w.server, e)))
  {
    var s, r := w.server, w.runner;
    var s' := Apply(s, e);
    ServerStep(s, e);
    forall t | t in r.calls ensures CallOk(s', t, r.calls[t].lease, r.calls[t].Call()) {
      CallStep(s, e, t, r.calls[t].lease, r.calls[t].Call());
    }
    forall f | f in r.finished && Done(s, f) ensures Done(s', f) { DoneStays(s, s', f); }
    JobStays(w, e);
    LoopStays(w, e);
  }

  // ---------------------------------------------------------------- runner steps

  lemma PollKeeps(w: World)
    requires WorldOk(w) && Can(w, Poll)
    ensures WorldOk(Do(w, Poll))
  {
    assert FilesOk(Do(w, Poll));
  }

  lemma GotJobKeeps(w: World, lease: Lease)
    requires WorldOk(w) && Can(w, GotJob(lease))
    ensures WorldOk(Do(w, GotJob(lease)))
  {
    var s, r := w.server, w.runner;
    forall f | f in r.finished && f.lease.id == lease.id ensures !Held(s, f.lease) {
      assert f.lease in r.before;
    }
    assert FilesOk(Do(w, GotJob(lease)));
  }

  /** The completion that a new file overwrites was done with: the new lease has taken the place of its lease. */
  lemma OldFileIsHopeless(w: World, f: File)
    requires WorldOk(w) && w.runner.job.Executing? && f in w.runner.finished && f.lease.id == w.runner.job.lease.id
    ensures Hopeless(w.server, f.lease, f.Call())
  {
  }

  lemma FinishFiles(w: World, checksum: nat)
    requires WorldOk(w) && Can(w, Finish(checksum))
    ensures FilesOk(Do(w, Finish(checksum)))
  {
    var s, r := w.server, w.runner;
    forall f | f in r.finished && f.lease.id == r.job.lease.id ensures Done(s, f) { OldFileIsHopeless(w, f); }
  }

  lemma FinishKeeps(w: World, checksum: nat)
    requires WorldOk(w) && Can(w, Finish(checksum))
    ensures WorldOk(Do(w, Finish(checksum)))
  {
    FinishFiles(w, checksum);
    assert LoopOk(Do(w, Finish(checksum)));
  }

  lemma NewCallOk(w: World, t: Tid, f: File)
    requires WorldOk(w) && NewCall(w, t) && f in w.runner.finished
    ensures CallOk(w.server, t, f.lease, f.Call()) && !FoundOver(w.server, t)
  {
  }

  lemma JobSubmitKeeps(w: World, t: Tid)
    requires WorldOk(w) && Can(w, JobSubmit(t))
    ensures WorldOk(Do(w, JobSubmit(t)))
  {
    NewCallOk(w, t, w.runner.spool[w.runner.job.id]);
    assert FilesOk(Do(w, JobSubmit(t)));
  }

  lemma DrainSubmitKeeps(w: World, id: JobId, t: Tid)
    requires WorldOk(w) && Can(w, DrainSubmit(id, t))
    ensures WorldOk(Do(w, DrainSubmit(id, t)))
  {
    NewCallOk(w, t, w.runner.spool[id]);
    assert FilesOk(Do(w, DrainSubmit(id, t)));
  }

  /** What a reply that reached the runner says. */
  lemma ReplyMeans(w: World, id: JobId, t: Tid)
    requires WorldOk(w) && WaitOk(w, id, t) && t in w.server.replies && w.server.replies[t].code != Unavailable
    ensures var code := w.server.replies[t].code;
            && AnswerOk(w.server, w.runner.calls[t], IsAcked(code), w.runner.received)
            && (code == UnknownJob ==> AllGone(w.server, id, w.runner.received))
            && (code == Accepted ==> DeliveredFor(w.server, w.runner.calls[t].lease, w.runner.calls[t].Call()))
  {
    var f := w.runner.calls[t];
    assert CallOk(w.server, t, f.lease, f.Call());
    if w.server.replies[t].code == UnknownJob { GoneIsNotHeld(w.server, f.lease); }
  }

  lemma ReturnKeeps(w: World, x: Step)
    requires WorldOk(w) && Can(w, x) && (x.JobReturn? || x.DrainReturn?)
    ensures WorldOk(Do(w, x))
  {
    var r := w.runner;
    var task := if x.JobReturn? then r.job else r.loop;
    ReplyMeans(w, task.id, task.call);
    assert FilesOk(Do(w, x));
  }

  /** The file a settling task drops is done with. */
  lemma SettledIsDone(w: World, task: Task)
    requires WorldOk(w) && task.Returned? && (task == w.runner.job || task == w.runner.loop)
    requires (task.acked || w.runner.unknown.Some?) && task.id in w.runner.spool
    ensures Done(w.server, w.runner.spool[task.id])
  {
    var s, r := w.server, w.runner;
    var f := r.spool[task.id];
    if f != task.sent || task.acked {
      assert AllGone(s, task.id, r.received);
      GoneIsNotHeld(s, f.lease);
    }
  }

  lemma SettleKeeps(w: World, task: Task)
    requires WorldOk(w) && task.Returned? && (task == w.runner.job || task == w.runner.loop)
    ensures FilesOk(w.(runner := Settle(w.runner, task)))
  {
    if (task.acked || w.runner.unknown.Some?) && task.id in w.runner.spool {
      SettledIsDone(w, task);
    }
  }

  /** A settling task leaves the other thread's claims on its own file alone. */
  lemma SettleTasks(w: World, task: Task)
    requires WorldOk(w) && task.Returned? && (task == w.runner.job || task == w.runner.loop)
    ensures JobOk(w.(runner := Settle(w.runner, task))) && LoopOk(w.(runner := Settle(w.runner, task)))
    ensures CodeOk(w.(runner := Settle(w.runner, task)))
  {
  }

  lemma JobActsKeeps(w: World)
    requires WorldOk(w) && w.runner.job.Returned?
    ensures WorldOk(Do(w, JobActs))
  {
    SettleKeeps(w, w.runner.job);
    SettleTasks(w, w.runner.job);
    assert FilesOk(Do(w, JobActs));
  }

  lemma DrainActsKeeps(w: World)
    requires WorldOk(w) && w.runner.loop.Returned?
    ensures WorldOk(Do(w, DrainActs))
  {
    SettleKeeps(w, w.runner.loop);
    SettleTasks(w, w.runner.loop);
    assert FilesOk(Do(w, DrainActs));
  }

  lemma GivingUpKeeps(w: World, x: Step)
    requires WorldOk(w) && Can(w, x)
    requires x.PollFails? || x.JobSkips? || x.JobFails? || x.DrainFails? || x.Crash?
    ensures WorldOk(Do(w, x))
  {
    assert FilesOk(Do(w, x));
  }

  lemma WorldStep(w: World, x: Step)
    requires WorldOk(w) && Can(w, x)
    ensures WorldOk(Do(w, x))
  {
    match x
    case Serve(e) => ServeKeeps(w, e);
    case Poll => PollKeeps(w);
    case PollFails => GivingUpKeeps(w, x);
    case GotJob(lease) => GotJobKeeps(w, lease);
    case Finish(checksum) => FinishKeeps(w, checksum);
    case JobSubmit(t) => JobSubmitKeeps(w, t);
    case JobSkips => GivingUpKeeps(w, x);
    case JobReturn => ReturnKeeps(w, x);
    case JobFails => GivingUpKeeps(w, x);
    case JobActs => JobActsKeeps(w);
    case DrainSubmit(id, t) => DrainSubmitKeeps(w, id, t);
    case DrainReturn => ReturnKeeps(w, x);
    case DrainFails => GivingUpKeeps(w, x);
    case DrainActs => DrainActsKeeps(w);
    case Crash => GivingUpKeeps(w, x);
  }

  lemma {:induction false} WorldRuns(w: World, xs: seq<Step>)
    requires WorldOk(w) && Happens(w, xs)
    ensures WorldOk(Then(w, xs))
    decreases |xs|
  {
    if xs != [] {
      WorldStep(w, xs[0]);
      WorldRuns(Do(w, xs[0]), xs[1..]);
    }
  }

  lemma WorldStarts(persistent: bool)
    ensures WorldOk(Start(persistent))
  {
    ServerInit(persistent);
  }

  lemma WorldAlways(persistent: bool, xs: seq<Step>)
    requires Happens(Start(persistent), xs)
    ensures WorldOk(Then(Start(persistent), xs))
  {
    WorldStarts(persistent);
    WorldRuns(Start(persistent), xs);
  }

  // ---------------------------------------------------------------- theorems

  /** The runner's slot count: exactly the jobs under way, so never below 0 nor above the limit. */
  lemma SlotBound(persistent: bool, xs: seq<Step>)
    requires Happens(Start(persistent), xs)
    ensures var r := Then(Start(persistent), xs).runner;
            0 <= r.active <= 1 && (r.active == 0 <==> r.job.Free?)
  {
    WorldAlways(persistent, xs);
  }

  /**
   No completion is lost: whatever crashes, lost replies, replays, reclaims and resubmissions happened, a
   completion that was spooled is still in its file, or no later call could get it accepted.
   */
  lemma NoCompletionLost(persistent: bool, xs: seq<Step>, f: File)
    requires Happens(Start(persistent), xs) && f in Then(Start(persistent), xs).runner.finished
    ensures var w := Then(Start(persistent), xs);
            || (f.lease.id in w.runner.spool && w.runner.spool[f.lease.id] == f)
            || Hopeless(w.server, f.lease, f.Call())
  {
    WorldAlways(persistent, xs);
  }

  /** A file is deleted or archived only when no later call could get its completion accepted. */
  lemma DropsAreJustified(persistent: bool, xs: seq<Step>, f: File)
    requires Happens(Start(persistent), xs) && f in Then(Start(persistent), xs).runner.dropped
    ensures Hopeless(Then(Start(persistent), xs).server, f.lease, f.Call())
  {
    WorldAlways(persistent, xs);
  }

  /** ... so sending a dropped completion again would not have helped, whatever the server did meanwhile. */
  lemma DroppedIsNeverAccepted(persistent: bool, xs: seq<Step>, f: File, t: Tid, es: seq<Event>)
    requires Happens(Start(persistent), xs) && f in Then(Start(persistent), xs).runner.dropped
    requires NewCall(Then(Start(persistent), xs), t) && FreshRuns(Then(Start(persistent), xs).server, es)
    requires forall e :: e in es ==> Respects(e, t, f.Call())
    ensures var s := Then(Start(persistent), xs).server;
            Runs(s, es) && (t in After(s, es).replies ==> After(s, es).replies[t].code != Accepted)
  {
    var w := Then(Start(persistent), xs);
    WorldAlways(persistent, xs);
    NewCallOk(w, t, f);
    LateCallIsRefused(w.server, es, t, f.lease, f.Call());
  }

  /**
   What acting on a reply does to the files, in any world: the task's file stays exactly when the reply was no
   acknowledgement and the code read is not UNKNOWN_JOB; otherwise it, and nothing else, is dropped.
   */
  lemma ActingOnAReply(w: World, x: Step)
    requires Can(w, x) && (x.JobActs? || x.DrainActs?)
    ensures var r, r' := w.runner, Do(w, x).runner;
            var task := if x.JobActs? then r.job else r.loop;
            && (task.id in r'.spool <==> task.id in r.spool && !task.acked && r.unknown.None?)
            && (forall id :: id in r'.spool ==> id in r.spool && r'.spool[id] == r.spool[id])
            && (forall id :: id in r.spool && id != task.id ==> id in r'.spool)
            && r'.dropped == r.dropped + (set id | id in r.spool && id !in r'.spool :: r.spool[id])
            && r'.finished == r.finished && Do(w, x).server == w.server
            && (if x.JobActs? then r'.job.Free? && r'.loop == r.loop && r'.active == r.active - 1
                else r'.loop.Free? && r'.job == r.job && r'.active == r.active)
  {
    var r, r' := w.runner, Do(w, x).runner;
    var task := if x.JobActs? then r.job else r.loop;
    if task.id in r.spool && task.id !in r'.spool {
      assert r'.dropped == r.dropped + {r.spool[task.id]};
      assert (set id | id in r.spool && id !in r'.spool :: r.spool[id]) == {r.spool[task.id]};
    } else {
      assert (set id | id in r.spool && id !in r'.spool :: r.spool[id]) == {};
    }
  }

  /** A failed poll, a call without a reply and a crash free their threads and leave every file where it is. */
  lemma FailuresMean(w: World, x: Step)
    requires Can(w, x) && (x.PollFails? || x.JobFails? || x.JobSkips? || x.DrainFails? || x.Crash?)
    ensures var r, r' := w.runner, Do(w, x).runner;
            && (if x.JobFails? || x.JobSkips? || x.Crash? then r'.job.Free? else r'.job == r.job)
            && (if x.PollFails? || x.DrainFails? || x.Crash? then r'.loop.Free? else r'.loop == r.loop)
            && r'.active == (if x.Crash? then 0 else if x.JobFails? || x.JobSkips? then r.active - 1 else r.active)
            && r'.unknown == (if x.Crash? then None else r.unknown)
            && r'.spool == r.spool && r'.dropped == r.dropped && r'.finished == r.finished
            && r'.calls == r.calls && Do(w, x).server == w.server
  {
  }

  /** The step that the job thread can take, whatever it is doing. */
  lemma JobHasAStep(w: World, t: Tid)
    requires JobOk(w) && NewCall(w, t)
    ensures var r := w.runner;
            match r.job
            case Free => true
            case Polling => false
            case Executing(_) => forall checksum :: Can(w, Finish(checksum))
            case Spooled(id) => if id in r.spool then Can(w, JobSubmit(t)) else Can(w, JobSkips)
            case Waiting(_, call) =>
              && Can(w, JobFails)
              && (call in w.server.replies && w.server.replies[call].code != Unavailable ==> Can(w, JobReturn))
            case Returned(_, _, _) => Can(w, JobActs)
  {
  }

  /** The step that the poll loop can take, whatever it is doing; when free it can submit any file again. */
  lemma LoopHasAStep(w: World, t: Tid)
    requires LoopOk(w) && NewCall(w, t)
    ensures var r := w.runner;
            match r.loop
            case Free => (r.active < 1 ==> Can(w, Poll)) && forall id :: id in r.spool ==> Can(w, DrainSubmit(id, t))
            case Polling => Can(w, PollFails)
            case Executing(_) => false
            case Spooled(_) => false
            case Waiting(_, call) =>
              && Can(w, DrainFails)
              && (call in w.server.replies && w.server.replies[call].code != Unavailable ==> Can(w, DrainReturn))
            case Returned(_, _, _) => Can(w, DrainActs)
  {
  }

  lemma JobStep(w: World, t: Tid)
    requires JobOk(w) && NewCall(w, t)
    ensures w.runner.job != Free ==> exists x :: Can(w, x) && !x.Crash? && Do(w, x).runner.job != w.runner.job
  {
    JobHasAStep(w, t);
    match w.runner.job
    case Free =>
    case Executing(lease) => assert Do(w, Finish(0)).runner.job == Spooled(lease.id);
    case Spooled(id) =>
      if id in w.runner.spool {
        assert Do(w, JobSubmit(t)).runner.job == Waiting(id, t);
      } else {
        assert Do(w, JobSkips).runner.job == Free;
      }
    case Waiting(_, _) => assert Do(w, JobFails).runner.job == Free;
    case Returned(_, _, _) => assert Do(w, JobActs).runner.job == Free;
  }

  lemma LoopStep(w: World)
    requires LoopOk(w) && w.runner.active == (if w.runner.job.Free? then 0 else 1)
    ensures w.runner.loop != Free || w.runner.job == Free ==>
              exists x :: Can(w, x) && !x.Crash? && Do(w, x).runner.loop != w.runner.loop
  {
    match w.runner.loop
    case Free => if w.runner.job.Free? { assert Do(w, Poll).runner.loop == Polling; }
    case Polling => assert Do(w, PollFails).runner.loop == Free;
    case Waiting(_, _) => assert Do(w, DrainFails).runner.loop == Free;
    case Returned(_, _, _) => assert Do(w, DrainActs).runner.loop == Free;
  }

  /** Neither thread is ever stuck: in every reachable world it has a step that changes what it is doing. */
  lemma ThreadsNeverStick(persistent: bool, xs: seq<Step>, t: Tid)
    requires Happens(Start(persistent), xs) && NewCall(Then(Start(persistent), xs), t)
    ensures var w := Then(Start(persistent), xs);
            && (w.runner.job != Free ==> exists x :: Can(w, x) && !x.Crash? && Do(w, x).runner.job != w.runner.job)
            && (w.runner.loop != Free || w.runner.job == Free ==>
                  exists x :: Can(w, x) && !x.Crash? && Do(w, x).runner.loop != w.runner.loop)
  {
    var w := Then(Start(persistent), xs);
    WorldAlways(persistent, xs);
    JobStep(w, t);
    LoopStep(w);
  }

  /** After a crash in any world the runner polls again, and can send every file on disk again as it was written. */
  lemma CrashedRunnerGoesOn(w: World, id: JobId, t: Tid)
    requires NewCall(w, t)
    ensures var w' := Do(w, Crash);
            && Can(w', Poll)
            && (Can(w', DrainSubmit(id, t)) <==> id in w.runner.spool)
            && (id in w.runner.spool ==>
                  var sent := Do(w', DrainSubmit(id, t));
                  && sent.runner.calls == w.runner.calls[t := w.runner.spool[id]] && sent.runner.spool == w.runner.spool
                  && Can(sent, Serve(CompleteLookup(t, w.runner.spool[id].Call()))))
  {
  }

  /** A thread that reads its reply and acts on it at once keeps the file exactly on the refusals and errors. */
  lemma FileAfterReply(w: World, x: Step)
    requires Can(w, x) && (x.JobReturn? || x.DrainReturn?)
    ensures var task := if x.JobReturn? then w.runner.job else w.runner.loop;
            var code := w.server.replies[task.call].code;
            var y := if x.JobReturn? then JobActs else DrainActs;
            && Can(Do(w, x), y)
            && (task.id in Do(Do(w, x), y).runner.spool <==>
                task.id in w.runner.spool && code in {RunMismatch, AgentMismatch, CompletionConflict})
  {
    ActingOnAReply(Do(w, x), if x.JobReturn? then JobActs else DrainActs);
  }

  /** Neither thread of the runner takes a task up or down that has its reply, but by acting on it or by a crash. */
  lemma ReplyWaits(w: World, x: Step)
    requires WorldOk(w) && Can(w, x) && !x.Crash?
    ensures w.runner.job.Returned? && !x.JobActs? ==> Do(w, x).runner.job == w.runner.job
    ensures w.runner.loop.Returned? && !x.DrainActs? ==> Do(w, x).runner.loop == w.runner.loop
  {
  }

  lemma {:induction false} RepliesWait(w: World, xs: seq<Step>, y: Step)
    requires WorldOk(w) && Happens(w, xs) && Crash !in xs && y !in xs
    ensures y.JobActs? && w.runner.job.Returned? ==> Then(w, xs).runner.job == w.runner.job
    ensures y.DrainActs? && w.runner.loop.Returned? ==> Then(w, xs).runner.loop == w.runner.loop
    decreases |xs|
  {
    if xs != [] {
      ReplyWaits(w, xs[0]);
      WorldStep(w, xs[0]);
      RepliesWait(Do(w, xs[0]), xs[1..], y);
    }
  }

  /**
   An acknowledged file goes: once ACCEPTED or DUPLICATE_ACCEPTED has reached a thread, its file is gone when the
   thread acts on it, whatever the other thread and the server do in between.
   */
  lemma AcknowledgedFileGoes(persistent: bool, ws: seq<Step>, x: Step, xs: seq<Step>)
    requires x.JobReturn? || x.DrainReturn?
    requires Happens(Start(persistent), ws) && Can(Then(Start(persistent), ws), x)
    requires Happens(Do(Then(Start(persistent), ws), x), xs) && Crash !in xs
    requires (if x.JobReturn? then JobActs else DrainActs) !in xs
    requires var w := Then(Start(persistent), ws);
             w.server.replies[(if x.JobReturn? then w.runner.job else w.runner.loop).call].code in {Accepted, DuplicateAccepted}
    ensures var w := Then(Start(persistent), ws);
            var w' := Then(Do(w, x), xs);
            var y := if x.JobReturn? then JobActs else DrainActs;
            Can(w', y) && (if x.JobReturn? then w.runner.job else w.runner.loop).id !in Do(w', y).runner.spool
  {
    var w := Then(Start(persistent), ws);
    var y := if x.JobReturn? then JobActs else DrainActs;
    WorldAlways(persistent, ws);
    WorldStep(w, x);
    RepliesWait(Do(w, x), xs, y);
    ActingOnAReply(Then(Do(w, x), xs), y);
  }

  /** The code read is the one of the task's own reply, or one about the same job. */
  predicate OwnCode(r: Runner, task: Task)
    requires task.Returned?
  {
    task.acked || r.unknown == Some(task.id) || r.unknown.None?
  }

  /** The server still holds the job that the file of this id is the completion of. */
  predicate StillHeld(w: World, id: JobId) {
    id in w.runner.spool && Lives(w.server, id, w.runner.spool[id].lease.life)
  }

  /** Settling the task deletes or archives its file. */
  predicate Drops(r: Runner, task: Task)
    requires task.Returned?
  {
    task.id in r.spool && task.id !in Settle(r, task).spool
  }

  /** A task that reads its own reply's code drops a file only after the job it is the completion of is over. */
  lemma OwnCodeDropsAreExact(persistent: bool, xs: seq<Step>, task: Task)
    requires Happens(Start(persistent), xs)
    requires var r := Then(Start(persistent), xs).runner;
             task.Returned? && (task == r.job || task == r.loop) && OwnCode(r, task) && Drops(r, task)
    ensures var w := Then(Start(persistent), xs); Gone(w.server, w.runner.spool[task.id].lease.life)
  {
    WorldAlways(persistent, xs);
    var w := Then(Start(persistent), xs);
    assert AllGone(w.server, task.id, w.runner.received);
  }

  /**
   When settling drops the file of a job that the server still holds: exactly when there is such a file and the code
   read is the UNKNOWN_JOB of another reply.
   */
  lemma DropsHeldJobIffCrossed(persistent: bool, xs: seq<Step>, task: Task)
    requires Happens(Start(persistent), xs)
    requires var r := Then(Start(persistent), xs).runner; task.Returned? && (task == r.job || task == r.loop)
    ensures var w := Then(Start(persistent), xs);
            Drops(w.runner, task) && StillHeld(w, task.id) <==> !OwnCode(w.runner, task) && StillHeld(w, task.id)
  {
    var r := Then(Start(persistent), xs).runner;
    if Drops(r, task) && OwnCode(r, task) {
      OwnCodeDropsAreExact(persistent, xs, task);
    }
  }

  /** Replays never deliver twice: one delivery for each run of a job, with the table one for each job id. */
  lemma DeliveredOncePerJob(persistent: bool, xs: seq<Step>, i: nat, j: nat)
    requires Happens(Start(persistent), xs)
    requires var fired := Then(Start(persistent), xs).server.fired;
             && i < |fired| && j < |fired| && fired[i].request.id == fired[j].request.id
             && (Then(Start(persistent), xs).server.persistent || fired[i].request.run == fired[j].request.run)
    ensures i == j
  {
    WorldAlways(persistent, xs);
    OneDelivery(Then(Start(persistent), xs).server, i, j);
  }

  // ---------------------------------------------------------------- crossed codes

  ghost predicate Reachable(w: World) {
    exists persistent: bool, xs :: Happens(Start(persistent), xs) && Then(Start(persistent), xs) == w
  }

  lemma {:induction false} Extend(w: World, xs: seq<Step>, x: Step)
    requires Happens(w, xs) && Can(Then(w, xs), x)
    ensures Happens(w, xs + [x]) && Then(w, xs + [x]) == Do(Then(w, xs), x)
    decreases |xs|
  {
    if xs != [] {
      Extend(Do(w, xs[0]), xs[1..], x);
      assert (xs + [x])[1..] == xs[1..] + [x];
    } else {
      assert ([] + [x])[1..] == [];
    }
  }

  lemma Reach(w: World, x: Step)
    requires Reachable(w) && Can(w, x)
    ensures Reachable(Do(w, x))
  {
    var persistent: bool, xs :| Happens(Start(persistent), xs) && Then(Start(persistent), xs) == w;
    Extend(Start(persistent), xs, x);
  }
}
