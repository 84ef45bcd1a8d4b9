/**
 The two threads of the runner share the client's last_complete_code.  A concrete run in which one thread
 reads the code of the other's reply and archives the completion of a job that the server still holds.
 */
module OutboxCrossing {
  import opened LeaseProtocol
  import opened LeaseChain
  import opened LeaseClients
  import opened Outbox

  /**
   When the job thread's reply is UNKNOWN_JOB and arrives between the drain's own, refused, reply and its
   reading of the code, the drain archives its file although its job is not the unknown one.
   */
  lemma CrossedCodeDrops(w: World)
    requires w.runner.loop.Returned? && !w.runner.loop.acked && w.runner.loop.id in w.runner.spool
    requires Replied(w.server, w.runner.job) && w.runner.job.call in w.runner.calls
    requires w.server.replies[w.runner.job.call].code == UnknownJob
    ensures Can(w, JobReturn) && Can(Do(w, JobReturn), DrainActs)
    ensures var w' := Do(Do(w, JobReturn), DrainActs);
            w'.server == w.server && w.runner.spool[w.runner.loop.id] in w'.runner.dropped
  {
  }

  /** A server step of a thread that no call of the runner uses. */
  lemma ServedBy(w: World, e: Event, s': State)
    requires Reachable(w) && Enabled(w.server, e) && !e.EnqueueInsert?
    requires !e.Register? && !e.Heartbeat? && !e.RowInsert? && !e.RowClose? && e.t !in w.runner.calls
    requires s' == Apply(w.server, e)
    ensures Reachable(w.(server := s'))
  {
    Reach(w, Serve(e));
  }

  lemma PushBackServed(w: World, t: Tid)
    requires Reachable(w) && t !in w.runner.calls && (w.server.At(t).EnqueueHolds? || w.server.At(t).ReclaimReplaced?)
    ensures Reachable(w.(server := ApplyPushBack(w.server, t)))
  {
    ServedBy(w, PushBack(t), ApplyPushBack(w.server, t));
  }

  lemma ReleaseServed(w: World, t: Tid)
    requires Reachable(w) && t !in w.runner.calls && w.server.At(t).ReclaimPushed?
    ensures Reachable(w.(server := ApplyRelease(w.server, t)))
  {
    ServedBy(w, Release(t), ApplyRelease(w.server, t));
  }

  lemma PollStoreServed(w: World, t: Tid)
    requires Reachable(w) && t !in w.runner.calls && w.server.At(t).PollHolds?
    ensures Reachable(w.(server := ApplyPollStore(w.server, t, Answered)))
  {
    ServedBy(w, PollStore(t, Answered), ApplyPollStore(w.server, t, Answered));
  }

  lemma OwnServed(w: World, t: Tid)
    requires Reachable(w) && t !in w.runner.calls && w.server.At(t).PollLeased?
    ensures Reachable(w.(server := ApplyOwn(w.server, t)))
  {
    ServedBy(w, PollOwn(t), ApplyOwn(w.server, t));
  }

  lemma ReclaimStoreServed(w: World, t: Tid, suffix: string)
    requires Reachable(w) && t !in w.runner.calls && w.server.At(t).ReclaimCandidate?
    ensures Reachable(w.(server := ApplyReclaimStore(w.server, t, suffix, Answered)))
  {
    ServedBy(w, ReclaimStore(t, suffix, Answered), ApplyReclaimStore(w.server, t, suffix, Answered));
  }

  lemma ReplaceServed(w: World, t: Tid)
    requires Reachable(w) && t !in w.runner.calls && w.server.At(t).ReclaimPersisted?
    ensures Reachable(w.(server := ApplyReclaimReplace(w.server, t)))
  {
    ServedBy(w, ReclaimReplace(t), ApplyReclaimReplace(w.server, t));
  }

  lemma SnapshotServed(w: World, t: Tid, id: JobId)
    requires Reachable(w) && t !in w.runner.calls && w.server.At(t).Idle? && id in w.server.inFlight
    requires w.server.inFlight[id].agent != ""
    ensures Reachable(w.(server := ApplySnapshot(w.server, t, id)))
  {
    ServedBy(w, ReclaimSnapshot(t, id), ApplySnapshot(w.server, t, id));
  }

  lemma AbandonServed(w: World, t: Tid, pool: PoolId, id: JobId)
    requires Reachable(w) && t !in w.runner.calls && w.server.At(t).Idle?
    ensures Reachable(w.(server := ApplyAbandon(w.server, t, pool, id)))
  {
    ServedBy(w, AbandonRemove(t, pool, id), ApplyAbandon(w.server, t, pool, id));
  }

  lemma TakeServed(w: World, t: Tid, a: AgentId)
    requires Reachable(w) && t !in w.runner.calls && w.server.At(t).Idle? && w.server.queue != []
    requires a in w.server.agents && w.server.agents[a] == Agent(1, 0, 0)
    ensures Reachable(w.(server := ApplyTake(w.server, t, a, 0)))
  {
    ServedBy(w, PollTake(t, a, 0), ApplyTake(w.server, t, a, 0));
  }

  lemma EnqueueServed(w: World, t: Tid, c: Copy)
    requires Reachable(w) && t !in w.runner.calls && w.server.At(t).Idle?
    requires FreshEvent(w.server, EnqueueInsert(t, c))
    ensures Reachable(w.(server := ApplyEnqueue(w.server, t, c)))
  {
    Reach(w, Serve(EnqueueInsert(t, c)));
  }

  const A_JOB := Copy("pool", "a", "run")
  const B_JOB := Copy("pool", "b", "run")
  const A_LEASE := Lease("agent", "a", "run", 0)
  const B_LEASE := Lease("agent", "b", "run", 1)

  // ---------------------------------------------------------------- scenes

  /** Job `c` is enqueued. */
  lemma SceneEnqueued(w: World, c: Copy) returns (w': World)
    requires Reachable(w) && 0 !in w.runner.calls
    requires FreshEvent(w.server, EnqueueInsert(0, c)) && w.server.At(0).Idle?
    ensures Reachable(w') && w'.runner == w.runner
    ensures var s := w.server;
            w'.server == s.(inFlight := s.inFlight[c.id := Record(c.pool, "", c.run, s.nextSender)], queue := s.queue + [c],
                            threads := s.threads[0 := Idle], nextSender := s.nextSender + 1,
                            issued := s.issued[s.nextSender := c.id])
  {
    EnqueueServed(w, 0, c);
    var w1 := w.(server := ApplyEnqueue(w.server, 0, c));
    PushBackServed(w1, 0);
    w' := w1.(server := ApplyPushBack(w1.server, 0));
    assert w'.server.threads == w.server.threads[0 := Idle];
  }

  /** The server's part of handing out the first queued job. */
  lemma SceneTaken(w: World, c: Copy) returns (w': World)
    requires Reachable(w) && 0 !in w.runner.calls
    requires var s := w.server;
             && !s.persistent && s.At(0).Idle? && s.queue != [] && s.queue[0] == c && c.id in s.inFlight
             && s.agents == map["agent" := Agent(1, 0, 0)]
    ensures Reachable(w') && w'.runner == w.runner
    ensures var s := w.server;
            w'.server == s.(queue := s.queue[1..], agents := map["agent" := Agent(1, 1, 0)],
                            threads := s.threads[0 := PollLeased("agent", c)])
  {
    TakeServed(w, 0, "agent");
    var w1 := w.(server := ApplyTake(w.server, 0, "agent", 0));
    PollStoreServed(w1, 0);
    w' := w1.(server := ApplyPollStore(w1.server, 0, Answered));
    assert w'.server.threads == w.server.threads[0 := PollLeased("agent", c)];
  }

  lemma SceneOwned(w: World, c: Copy, lease: Lease) returns (w': World)
    requires Reachable(w) && 0 !in w.runner.calls && w.runner.loop.Polling?
    requires w.server.At(0) == PollLeased("agent", c) && c.id in w.server.inFlight
    requires lease == Lease("agent", c.id, c.run, w.server.inFlight[c.id].sender) && lease !in w.runner.before
    ensures Reachable(w')
    ensures var r := w.runner;
            w'.runner == r.(loop := Free, job := Executing(lease), active := r.active + 1, slot := c.id,
                            received := r.received + {lease})
    ensures var s := w.server;
            w'.server == s.(inFlight := s.inFlight[c.id := s.inFlight[c.id].(agent := "agent")],
                            threads := s.threads[0 := Idle], handed := s.handed + {lease})
  {
    OwnServed(w, 0);
    var w1 := w.(server := ApplyOwn(w.server, 0));
    Reach(w1, GotJob(lease));
    w' := Do(w1, GotJob(lease));
  }

  /** The runner polls and receives the first queued job. */
  lemma SceneLeased(w: World, c: Copy, lease: Lease) returns (w': World)
    requires Reachable(w) && 0 !in w.runner.calls && w.runner.loop.Free? && w.runner.active < 1
    requires var s := w.server;
             && !s.persistent && s.At(0).Idle? && s.queue != [] && s.queue[0] == c && c.id in s.inFlight
             && s.agents == map["agent" := Agent(1, 0, 0)] && lease !in s.handed
             && lease == Lease("agent", c.id, c.run, s.inFlight[c.id].sender)
    ensures Reachable(w')
    ensures var r := w.runner;
            w'.runner == r.(job := Executing(lease), active := r.active + 1, slot := c.id, before := w.server.handed,
                            received := r.received + {lease})
    ensures var s := w.server;
            w'.server == s.(inFlight := s.inFlight[c.id := s.inFlight[c.id].(agent := "agent")], queue := s.queue[1..],
                            agents := map["agent" := Agent(1, 1, 0)], threads := s.threads[0 := Idle],
                            handed := s.handed + {lease})
  {
    Reach(w, Poll);
    var w0 := w.(runner := w.runner.(loop := Polling, before := w.server.handed));
    assert Do(w, Poll) == w0;
    var w1 := SceneTaken(w0, c);
    w' := SceneOwned(w1, c, lease);
    ThreadTwice(w.server.threads, 0, PollLeased("agent", c), Idle);
  }

  lemma ThreadTwice(threads: map<Tid, Pc>, t: Tid, pc: Pc, pc': Pc)
    ensures threads[t := pc][t := pc'] == threads[t := pc']
  {
  }

  /** A reclaim pass finds the lease of `id` stale. */
  lemma SceneStale(w: World, id: JobId) returns (w': World)
    requires Reachable(w) && 1 !in w.runner.calls
    requires var s := w.server;
             !s.persistent && s.At(1).Idle? && id in s.inFlight && s.inFlight[id].agent == "agent"
    ensures Reachable(w') && w'.runner == w.runner
    ensures var s, rec := w.server, w.server.inFlight[id];
            var pc := ReclaimPersisted("agent", Copy(rec.pool, id, rec.run), rec.run + RECLAIM_MARK + "x");
            w'.server == s.(threads := s.threads[1 := pc])
  {
    SnapshotServed(w, 1, id);
    var w1 := w.(server := ApplySnapshot(w.server, 1, id));
    ReclaimStoreServed(w1, 1, "x");
    w' := w1.(server := ApplyReclaimStore(w1.server, 1, "x", Answered));
    assert w'.server.threads == w.server.threads[1 := w'.server.At(1)];
  }

  /** It still is when the record is replaced. */
  lemma SceneReplaced(w: World, id: JobId) returns (w': World)
    requires Reachable(w) && 1 !in w.runner.calls
    requires var s := w.server;
             !s.persistent && s.At(1).Idle? && id in s.inFlight && s.inFlight[id].agent == "agent"
    ensures Reachable(w') && w'.runner == w.runner
    ensures var s, rec := w.server, w.server.inFlight[id];
            var newRun := rec.run + RECLAIM_MARK + "x";
            w'.server == s.(inFlight := s.inFlight[id := rec.(agent := "", run := newRun)],
                            threads := s.threads[1 := ReclaimReplaced("agent", Copy(rec.pool, id, newRun))],
                            reclaimed := s.reclaimed + {(id, rec.run)})
  {
    var w1 := SceneStale(w, id);
    ReplaceServed(w1, 1);
    w' := w1.(server := ApplyReclaimReplace(w1.server, 1));
    assert w'.server.threads == w.server.threads[1 := w'.server.At(1)];
  }

  lemma SceneReleased(w: World) returns (w': World)
    requires Reachable(w) && 1 !in w.runner.calls
    requires w.server.At(1) == ReclaimPushed("agent") && w.server.agents == map["agent" := Agent(1, 1, 0)]
    ensures Reachable(w') && w'.runner == w.runner
    ensures w'.server == w.server.(agents := map["agent" := Agent(1, 0, 0)]).Go(1, Idle)
  {
    ReleaseServed(w, 1);
    w' := w.(server := ApplyRelease(w.server, 1));
    assert w'.server.agents == map["agent" := Agent(1, 0, 0)];
  }

  /** The reclaim's copy is queued and the agent's load released. */
  lemma SceneRequeued(w: World, c: Copy) returns (w': World)
    requires Reachable(w) && 1 !in w.runner.calls
    requires w.server.At(1) == ReclaimReplaced("agent", c) && w.server.agents == map["agent" := Agent(1, 1, 0)]
    ensures Reachable(w') && w'.runner == w.runner
    ensures var s := w.server;
            w'.server == s.(queue := s.queue + [c], agents := map["agent" := Agent(1, 0, 0)], threads := s.threads[1 := Idle])
  {
    var s1 := w.server.(queue := w.server.queue + [c]).Go(1, ReclaimPushed("agent"));
    PushBackServed(w, 1);
    assert ApplyPushBack(w.server, 1) == s1;
    w' := SceneReleased(w.(server := s1));
    assert w'.server.threads == w.server.threads[1 := Idle];
  }

  /** A reclaim pass takes the lease of `id` away. */
  lemma SceneReclaimed(w: World, id: JobId) returns (w': World)
    requires Reachable(w) && 1 !in w.runner.calls
    requires var s := w.server;
             && !s.persistent && s.At(1).Idle? && id in s.inFlight && s.inFlight[id].agent == "agent"
             && s.agents == map["agent" := Agent(1, 1, 0)]
    ensures Reachable(w') && w'.runner == w.runner
    ensures var s, rec := w.server, w.server.inFlight[id];
            var newRun := rec.run + RECLAIM_MARK + "x";
            w'.server == s.(inFlight := s.inFlight[id := rec.(agent := "", run := newRun)],
                            queue := s.queue + [Copy(rec.pool, id, newRun)], agents := map["agent" := Agent(1, 0, 0)],
                            threads := s.threads[1 := Idle], reclaimed := s.reclaimed + {(id, rec.run)})
  {
    var rec := w.server.inFlight[id];
    var w1 := SceneReplaced(w, id);
    w' := SceneRequeued(w1, Copy(rec.pool, id, rec.run + RECLAIM_MARK + "x"));
    assert w'.server.threads == w.server.threads[1 := Idle];
  }

  /** The job under way finishes and its completion reaches the spool. */
  lemma SceneFinished(w: World) returns (w': World)
    requires Reachable(w) && w.runner.job.Executing?
    ensures Reachable(w') && w'.server == w.server
    ensures var id, r, q := w.runner.job.lease.id, w.runner, File(w.runner.job.lease, 0);
            w'.runner == r.(job := Spooled(id), spool := r.spool[id := q], finished := r.finished + {q})
  {
    Reach(w, Finish(0));
    w' := Do(w, Finish(0));
  }

  /** Job a is queued and its agent registered. */
  lemma SceneStart() returns (w: World)
    ensures Reachable(w) && w.runner == Start(false).runner
    ensures w.server == State(false, map["a" := Record("pool", "", "run", 0)], [A_JOB], map["agent" := Agent(1, 0, 0)],
                              map[], map[0 := Idle], 1, map[0 := "a"], {}, {}, [], map[])
  {
    w := Start(false);
    assert Reachable(w) by { assert Happens(Start(false), []) && Then(Start(false), []) == w; }
    Reach(w, Serve(Register("agent", 1)));
    w := w.(server := w.server.(agents := map["agent" := Agent(1, 0, 0)]));
    assert Vacant(w.server, "a") by { assert Holders(w.server.threads, "a") == {}; }
    w := SceneEnqueued(w, A_JOB);
  }

  /** Its completion is submitted and the reply lost. */
  lemma SceneLost(w: World) returns (w': World)
    requires Reachable(w) && w.runner.job.Spooled? && w.runner.job.id in w.runner.spool && NewCall(w, 10)
    ensures Reachable(w') && w'.server == w.server
    ensures var r := w.runner;
            w'.runner == r.(job := Free, active := r.active - 1, calls := r.calls[10 := r.spool[r.job.id]])
  {
    Reach(w, JobSubmit(10));
    w' := Do(w, JobSubmit(10));
    Reach(w', JobFails);
    w' := Do(w', JobFails);
  }

  const A_DONE := File(A_LEASE, 0)
  const B_DONE := File(B_LEASE, 0)

  /** Job a ran once; its completion is spooled and was lost on the way. */
  lemma SceneSpooled() returns (w: World)
    ensures Reachable(w) && w.runner.calls.Keys == {10} && w.runner.loop.Free? && w.runner.active == 0
    ensures w.runner.spool == map["a" := A_DONE]
    ensures w.server == State(false, map["a" := Record("pool", "agent", "run", 0)], [], map["agent" := Agent(1, 1, 0)],
                              map[], map[0 := Idle], 1, map[0 := "a"], {A_LEASE}, {}, [], map[])
  {
    w := SceneStart();
    w := SceneLeased(w, A_JOB, A_LEASE);
    w := SceneFinished(w);
    w := SceneLost(w);
  }

  const A_RECLAIMED := Record("pool", "", "run" + RECLAIM_MARK + "x", 0)

  /** What matters of the server once job a has been reclaimed and b is queued before it. */
  ghost predicate Reclaimed(s: State) {
    && !s.persistent && s.threads == map[0 := Idle, 1 := Idle] && s.replies == map[] && s.fired == []
    && s.queue != [] && s.queue[0] == B_JOB && s.agents == map["agent" := Agent(1, 0, 0)] && s.handed == {A_LEASE}
    && "a" in s.inFlight && "b" in s.inFlight && s.inFlight["a"] == A_RECLAIMED && s.inFlight["b"].sender == 1
  }

  lemma SceneBoth() returns (w: World)
    ensures Reachable(w) && w.runner.calls.Keys == {10} && w.runner.loop.Free? && w.runner.active == 0
    ensures w.runner.spool == map["a" := A_DONE]
    ensures w.server == State(false, map["a" := Record("pool", "agent", "run", 0), "b" := Record("pool", "", "run", 1)], [B_JOB],
                              map["agent" := Agent(1, 1, 0)], map[], map[0 := Idle], 2, map[0 := "a", 1 := "b"],
                              {A_LEASE}, {}, [], map[])
  {
    w := SceneSpooled();
    assert Vacant(w.server, "b") by { assert Holders(w.server.threads, "b") == {}; }
    w := SceneEnqueued(w, B_JOB);
  }

  lemma SceneOvertaken() returns (w: World)
    ensures Reachable(w) && w.runner.calls.Keys == {10} && w.runner.loop.Free? && w.runner.active == 0
    ensures w.runner.spool == map["a" := A_DONE] && Reclaimed(w.server)
  {
    w := SceneBoth();
    w := SceneReclaimed(w, "a");
  }

  /** Job b has been executed, then abandoned by the server; both completions are spooled. */
  lemma SceneAbandoned() returns (w: World)
    ensures Reachable(w) && w.runner.calls.Keys == {10} && w.runner.loop.Free? && w.runner.job == Spooled("b")
    ensures w.runner.spool == map["a" := A_DONE, "b" := B_DONE]
    ensures var s := w.server;
            && !s.persistent && s.threads.Keys == {0, 1, 2} && s.replies == map[] && s.fired == []
            && "b" !in s.inFlight && "a" in s.inFlight && s.inFlight["a"] == A_RECLAIMED
  {
    w := SceneOvertaken();
    w := SceneLeased(w, B_JOB, B_LEASE);
    w := SceneFinished(w);
    AbandonServed(w, 2, "pool", "b");
    w := w.(server := ApplyAbandon(w.server, 2, "pool", "b"));
  }

  /** The drain replays a's completion and is refused; b's completion meets UNKNOWN_JOB. */
  lemma SceneRefused(w: World, t: Tid, q: Request, code: Code) returns (w': World)
    requires Reachable(w) && t in w.runner.calls && w.runner.calls[t].Call() == q && w.server.At(t).Idle?
    requires t !in w.server.replies
    requires ApplyLookup(w.server, t, q) == w.server.Answer(t, q, code)
    ensures Reachable(w') && w'.runner == w.runner && w'.server == w.server.Answer(t, q, code)
  {
    Reach(w, Serve(CompleteLookup(t, q)));
    w' := w.(server := ApplyLookup(w.server, t, q));
  }

  lemma SceneCalls() returns (w: World)
    ensures Reachable(w) && w.runner.calls.Keys == {10, 11, 12} && w.runner.calls[11] == A_DONE
    ensures w.runner.calls[12] == B_DONE
    ensures w.runner.loop == Waiting("a", 11) && w.runner.job == Waiting("b", 12)
    ensures w.runner.spool == map["a" := A_DONE, "b" := B_DONE]
    ensures var s := w.server;
            && !s.persistent && s.threads.Keys == {0, 1, 2} && s.replies == map[] && s.fired == []
            && "b" !in s.inFlight && "a" in s.inFlight && s.inFlight["a"] == A_RECLAIMED
  {
    w := SceneAbandoned();
    Reach(w, DrainSubmit("a", 11));
    w := Do(w, DrainSubmit("a", 11));
    Reach(w, JobSubmit(12));
    w := Do(w, JobSubmit(12));
  }

  lemma SceneReplies() returns (w: World)
    ensures Reachable(w) && w.runner.loop == Waiting("a", 11) && w.runner.job == Waiting("b", 12)
    ensures w.runner.spool == map["a" := A_DONE, "b" := B_DONE]
    ensures w.runner.calls.Keys == {10, 11, 12} && w.server.fired == []
    ensures w.server.replies == map[11 := Reply(A_DONE.Call(), RunMismatch), 12 := Reply(B_DONE.Call(), UnknownJob)]
    ensures "a" in w.server.inFlight && w.server.inFlight["a"] == A_RECLAIMED
  {
    w := SceneCalls();
    w := SceneRefused(w, 11, A_DONE.Call(), RunMismatch);
    w := SceneRefused(w, 12, B_DONE.Call(), UnknownJob);
  }

  /** The run exists: a completion is archived while the server still holds its undelivered job. */
  lemma CrossedCodesCanDropAHeldJob() returns (w: World, f: File)
    ensures Reachable(w) && f in w.runner.dropped
    ensures Lives(w.server, f.lease.id, f.lease.life) && w.server.fired == []
  {
    w := SceneReplies();
    Reach(w, DrainReturn);
    w := Do(w, DrainReturn);
    CrossedCodeDrops(w);
    Reach(w, JobReturn);
    Reach(Do(w, JobReturn), DrainActs);
    w := Do(Do(w, JobReturn), DrainActs);
    f := A_DONE;
  }
}
