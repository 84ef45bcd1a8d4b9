/**
 The episode admission gate: a first-come-first-served semaphore whose permits follow the workers' capacity.

 Capacity growth adds permits at once.  Capacity loss starts a task that waits in the same queue as the
 episodes, collects permits as they come back, and destroys them; a permit held by an episode is never taken.
 */
module Admission {

  type EpisodeId = string

  /** A queued acquirer: an episode wants one permit; a shrink wants `need` and has collected `got`. */
  datatype Waiter = Episode(id: EpisodeId) | Shrink(need: nat, got: nat)

  /** `announced` is the sum of all capacity changes; `spawned` are shrink tasks that have not started. */
  datatype Gate = Gate(free: nat, waiters: seq<Waiter>, held: set<EpisodeId>, spawned: seq<nat>, announced: int)

  datatype Change = Change(left: nat, waiters: seq<Waiter>, admitted: set<EpisodeId>)

  predicate EmptyGate(g: Gate, permits: nat) {
    g.free == permits == g.announced && |g.waiters| == 0 && |g.held| == 0 && |g.spawned| == 0
  }

  // ---------------------------------------------------------------- permits

  /** `n` permits go to the queue's head first. */
  function Serve(n: nat, ws: seq<Waiter>): Change
    decreases |ws|
  {
    if n == 0 || ws == [] then Change(n, ws, {})
    else match ws[0]
         case Episode(id) =>
           var c := Serve(n - 1, ws[1..]);
           c.(admitted := c.admitted + {id})
         case Shrink(need, got) =>
           if need - got <= n then Serve(if need > got then n - (need - got) else n, ws[1..])
           else Change(0, [Shrink(need, got + n)] + ws[1..], {})
  }

  function AddPermits(g: Gate, n: nat): Gate
  {
    var c := Serve(n, g.waiters);
    g.(free := g.free + c.left, waiters := c.waiters, held := g.held + c.admitted)
  }

  /** An episode asks; it is admitted at once when nobody waits and a permit is free. */
  function Ask(g: Gate, id: EpisodeId): Gate {
    if g.waiters == [] && g.free > 0 then g.(free := g.free - 1, held := g.held + {id})
    else g.(waiters := g.waiters + [Episode(id)])
  }

  /** The episode gave up waiting: cancelled or timed out. */
  function GiveUp(g: Gate, id: EpisodeId): Gate { g.(waiters := WithoutEpisode(g.waiters, id)) }

  function WithoutEpisode(ws: seq<Waiter>, id: EpisodeId): seq<Waiter> {
    if ws == [] then []
    else if ws[0] == Episode(id) then WithoutEpisode(ws[1..], id)
    else [ws[0]] + WithoutEpisode(ws[1..], id)
  }

  function Finish(g: Gate, id: EpisodeId): Gate { AddPermits(g.(held := g.held - {id}), 1) }

  function CapacityChanged(g: Gate, before: nat, after: nat): Gate {
    if after > before then AddPermits(g.(announced := g.announced + (after - before)), after - before)
    else if before > after then g.(announced := g.announced - (before - after), spawned := g.spawned + [before - after])
    else g
  }

  /** The i-th spawned shrink starts: it takes what is free and queues for the rest. */
  function StartShrink(g: Gate, i: nat): Gate
    requires i < |g.spawned|
  {
    var need := g.spawned[i];
    var g1 := g.(spawned := g.spawned[..i] + g.spawned[i+1..]);
    if g.waiters == [] then
      if need <= g.free then g1.(free := g.free - need)
      else g1.(free := 0, waiters := [Shrink(need, g.free)])
    else g1.(waiters := g.waiters + [Shrink(need, 0)])
  }

  // ---------------------------------------------------------------- the ledger

  function SumSeq(s: seq<nat>): nat { if s == [] then 0 else s[0] + SumSeq(s[1..]) }

  /** What the queued shrinks still want. */
  function Wanted(ws: seq<Waiter>): nat {
    if ws == [] then 0
    else (if ws[0].Shrink? && ws[0].need > ws[0].got then ws[0].need - ws[0].got else 0) + Wanted(ws[1..])
  }

  /** Shrink amounts not collected yet. */
  function Uncollected(g: Gate): nat { Wanted(g.waiters) + SumSeq(g.spawned) }

  function Queued(ws: seq<Waiter>): set<EpisodeId> { set i | 0 <= i < |ws| && ws[i].Episode? :: ws[i].id }

  /** Queued shrinks are unfinished and queued episodes distinct. */
  ghost predicate QueueOk(ws: seq<Waiter>) {
    && (forall i :: 0 <= i < |ws| && ws[i].Shrink? ==> ws[i].got < ws[i].need)
    && (forall i, j :: 0 <= i < j < |ws| && ws[i].Episode? && ws[j].Episode? ==> ws[i].id != ws[j].id)
  }

  ghost predicate GateOk(g: Gate) {
    && QueueOk(g.waiters)
    && Queued(g.waiters) !! g.held
    && (g.waiters != [] ==> g.free == 0)
    && g.free + |g.held| == g.announced + Uncollected(g)
    && (forall i :: 0 <= i < |g.spawned| ==> g.spawned[i] > 0)
  }

  lemma QueuedTail(ws: seq<Waiter>)
    requires ws != []
    ensures Queued(ws) == (if ws[0].Episode? then {ws[0].id} else {}) + Queued(ws[1..])
  {
    assert ws == [ws[0]] + ws[1..];
    forall id | id in Queued(ws) ensures id in (if ws[0].Episode? then {ws[0].id} else {}) + Queued(ws[1..]) {
      var i :| 0 <= i < |ws| && ws[i].Episode? && ws[i].id == id;
      if i > 0 { assert ws[1..][i - 1] == ws[i]; }
    }
    forall id | id in Queued(ws[1..]) ensures id in Queued(ws) {
      var i :| 0 <= i < |ws[1..]| && ws[1..][i].Episode? && ws[1..][i].id == id;
      assert ws[i + 1] == ws[1..][i];
    }
  }

  lemma TailOk(ws: seq<Waiter>)
    requires QueueOk(ws) && ws != []
    ensures QueueOk(ws[1..]) && (ws[0].Episode? ==> ws[0].id !in Queued(ws[1..]))
  {
    assert forall i :: 0 <= i < |ws[1..]| ==> ws[1..][i] == ws[i + 1];
  }

  /** A shrink at the head takes part of what it wants. */
  lemma PartlyServed(n: nat, ws: seq<Waiter>)
    requires QueueOk(ws) && ws != [] && ws[0].Shrink? && n < ws[0].need - ws[0].got
    ensures var rest := [ws[0].(got := ws[0].got + n)] + ws[1..];
            QueueOk(rest) && Queued(rest) == Queued(ws) && Wanted(rest) + n == Wanted(ws)
  {
    var rest := [ws[0].(got := ws[0].got + n)] + ws[1..];
    assert rest[1..] == ws[1..];
    QueuedTail(rest);
    QueuedTail(ws);
    assert forall i :: 0 < i < |rest| ==> rest[i] == ws[i];
  }

  /** Every permit handed out admits one episode or satisfies one unit of a shrink. */
  ghost predicate Balanced(n: nat, ws: seq<Waiter>, c: Change) {
    && QueueOk(c.waiters) && (c.waiters != [] ==> c.left == 0)
    && c.admitted <= Queued(ws) && Queued(c.waiters) == Queued(ws) - c.admitted
    && c.left + |c.admitted| + Wanted(ws) == n + Wanted(c.waiters)
  }

  lemma HeadAdmitted(id: EpisodeId, queued: set<EpisodeId>, left: set<EpisodeId>, admitted: set<EpisodeId>)
    requires id !in queued && admitted <= queued && left == queued - admitted
    ensures left == ({id} + queued) - (admitted + {id}) && admitted + {id} <= {id} + queued
    ensures |admitted + {id}| == |admitted| + 1
  {
  }

  lemma EpisodeServed(n: nat, ws: seq<Waiter>, c: Change)
    requires QueueOk(ws) && n > 0 && ws != [] && ws[0].Episode? && Balanced(n - 1, ws[1..], c)
    ensures Balanced(n, ws, c.(admitted := c.admitted + {ws[0].id}))
  {
    QueuedTail(ws);
    TailOk(ws);
    HeadAdmitted(ws[0].id, Queued(ws[1..]), Queued(c.waiters), c.admitted);
  }

  lemma ShrinkServed(n: nat, ws: seq<Waiter>, c: Change)
    requires QueueOk(ws) && ws != [] && ws[0].Shrink? && ws[0].need - ws[0].got <= n
    requires Balanced(n - (ws[0].need - ws[0].got), ws[1..], c)
    ensures Balanced(n, ws, c)
  {
    QueuedTail(ws);
  }

  lemma {:induction false} ServeBalance(n: nat, ws: seq<Waiter>)
    requires QueueOk(ws)
    ensures Balanced(n, ws, Serve(n, ws))
    decreases |ws|
  {
    if n > 0 && ws != [] {
      TailOk(ws);
      if ws[0].Episode? {
        ServeBalance(n - 1, ws[1..]);
        EpisodeServed(n, ws, Serve(n - 1, ws[1..]));
      } else if ws[0].need - ws[0].got <= n {
        ServeBalance(n - (ws[0].need - ws[0].got), ws[1..]);
        ShrinkServed(n, ws, Serve(n - (ws[0].need - ws[0].got), ws[1..]));
      } else {
        PartlyServed(n, ws);
      }
    }
  }

  /** The first `k` waiters were served in full, the next one perhaps in part, and the others keep their place. */
  ghost predicate ServedInOrder(ws: seq<Waiter>, c: Change, k: nat) {
    && k + |c.waiters| == |ws|
    && c.admitted == Queued(ws[..k])
    && (forall i :: 0 < i < |c.waiters| ==> c.waiters[i] == ws[k + i])
    && (c.waiters != [] ==>
          c.waiters[0] == ws[k] || (c.waiters[0].Shrink? && ws[k].Shrink? && c.waiters[0].need == ws[k].need))
  }

  lemma InOrderTail(ws: seq<Waiter>, c: Change, k: nat)
    requires ws != [] && ServedInOrder(ws[1..], c, k)
    ensures ServedInOrder(ws, c.(admitted := c.admitted + if ws[0].Episode? then {ws[0].id} else {}), k + 1)
  {
    QueuedTail(ws[..k+1]);
    assert ws[..k+1][1..] == ws[1..][..k];
    assert forall j :: 0 <= j < |ws[1..]| ==> ws[1..][j] == ws[j + 1];
  }

  /** First come, first served: permits go to the longest-waiting episodes and shrinks. */
  lemma {:induction false} FirstComeFirstServed(n: nat, ws: seq<Waiter>) returns (k: nat)
    ensures ServedInOrder(ws, Serve(n, ws), k)
    decreases |ws|
  {
    if n == 0 || ws == [] {
      assert Queued(ws[..0]) == {};
      return 0;
    }
    if ws[0].Episode? {
      var j := FirstComeFirstServed(n - 1, ws[1..]);
      InOrderTail(ws, Serve(n - 1, ws[1..]), j);
      return j + 1;
    }
    if ws[0].need - ws[0].got <= n {
      var m := if ws[0].need > ws[0].got then n - (ws[0].need - ws[0].got) else n;
      var j := FirstComeFirstServed(m, ws[1..]);
      InOrderTail(ws, Serve(m, ws[1..]), j);
      assert Serve(m, ws[1..]).admitted + {} == Serve(m, ws[1..]).admitted;
      return j + 1;
    }
    assert Queued(ws[..0]) == {};
    return 0;
  }

  lemma AddKeeps(g: Gate, n: nat)
    requires QueueOk(g.waiters) && Queued(g.waiters) !! g.held && (g.waiters != [] ==> g.free == 0)
    requires g.free + |g.held| + n == g.announced + Uncollected(g)
    requires forall i :: 0 <= i < |g.spawned| ==> g.spawned[i] > 0
    ensures GateOk(AddPermits(g, n)) && g.held <= AddPermits(g, n).held
  {
    var c := Serve(n, g.waiters);
    ServeBalance(n, g.waiters);
    assert |g.held + c.admitted| == |g.held| + |c.admitted|;
  }

  lemma {:induction false} WantedAppend(ws: seq<Waiter>, w: Waiter)
    ensures Wanted(ws + [w]) == Wanted(ws) + Wanted([w])
  {
    if ws != [] {
      WantedAppend(ws[1..], w);
      assert (ws + [w])[1..] == ws[1..] + [w];
    } else {
      assert [] + [w] == [w];
    }
  }

  lemma QueuedAppend(ws: seq<Waiter>, w: Waiter)
    ensures Queued(ws + [w]) == Queued(ws) + (if w.Episode? then {w.id} else {})
  {
    forall id | id in Queued(ws) ensures id in Queued(ws + [w]) {
      var i :| 0 <= i < |ws| && ws[i].Episode? && ws[i].id == id;
      assert (ws + [w])[i] == ws[i];
    }
    if w.Episode? { assert (ws + [w])[|ws|] == w; }
  }

  lemma OneMoreQueued(ws: seq<Waiter>, id: EpisodeId)
    requires QueueOk(ws) && id !in Queued(ws)
    ensures QueueOk(ws + [Episode(id)])
  {
    var ws' := ws + [Episode(id)];
    forall i, j | 0 <= i < j < |ws'| && ws'[i].Episode? && ws'[j].Episode? ensures ws'[i].id != ws'[j].id {
      if j == |ws| { assert ws[i].id in Queued(ws); }
    }
  }

  lemma AskKeeps(g: Gate, id: EpisodeId)
    requires GateOk(g) && id !in g.held && id !in Queued(g.waiters)
    ensures GateOk(Ask(g, id)) && g.held <= Ask(g, id).held
  {
    if g.waiters == [] && g.free > 0 {
      assert |g.held + {id}| == |g.held| + 1;
    } else {
      WantedAppend(g.waiters, Episode(id));
      QueuedAppend(g.waiters, Episode(id));
      OneMoreQueued(g.waiters, id);
    }
  }

  lemma {:induction false} WithoutWanted(ws: seq<Waiter>, id: EpisodeId)
    requires QueueOk(ws)
    ensures var r := WithoutEpisode(ws, id);
            Wanted(r) == Wanted(ws) && Queued(r) == Queued(ws) - {id} && QueueOk(r) && (r != [] ==> ws != [])
  {
    if ws != [] {
      TailOk(ws);
      QueuedTail(ws);
      WithoutWanted(ws[1..], id);
      var rest := WithoutEpisode(ws[1..], id);
      if ws[0] != Episode(id) {
        var r := [ws[0]] + rest;
        assert r[1..] == rest;
        QueuedTail(r);
        forall j | 1 <= j < |r| && r[0].Episode? && r[j].Episode? ensures r[0].id != r[j].id {
          assert r[j] == rest[j - 1] && r[j].id in Queued(rest);
        }
        assert forall i, j :: 1 <= i < j < |r| ==> r[i] == rest[i - 1] && r[j] == rest[j - 1];
      }
    }
  }

  lemma GiveUpKeeps(g: Gate, id: EpisodeId)
    requires GateOk(g)
    ensures GateOk(GiveUp(g, id)) && GiveUp(g, id).held == g.held
  {
    WithoutWanted(g.waiters, id);
  }

  lemma FinishKeeps(g: Gate, id: EpisodeId)
    requires GateOk(g) && id in g.held
    ensures GateOk(Finish(g, id)) && g.held - {id} <= Finish(g, id).held
  {
    AddKeeps(g.(held := g.held - {id}), 1);
  }

  lemma {:induction false} SumAppend(s: seq<nat>, n: nat)
    ensures SumSeq(s + [n]) == SumSeq(s) + n
  {
    if s != [] {
      SumAppend(s[1..], n);
      assert (s + [n])[1..] == s[1..] + [n];
    } else {
      assert [] + [n] == [n];
    }
  }

  lemma {:induction false} SumWithout(s: seq<nat>, i: nat)
    requires i < |s|
    ensures SumSeq(s) == s[i] + SumSeq(s[..i] + s[i+1..])
  {
    if i > 0 {
      SumWithout(s[1..], i - 1);
      assert (s[..i] + s[i+1..])[1..] == s[1..][..i-1] + s[1..][i..];
    } else {
      assert s[..0] + s[1..] == s[1..];
    }
  }

  lemma ChangeKeeps(g: Gate, before: nat, after: nat)
    requires GateOk(g)
    ensures GateOk(CapacityChanged(g, before, after)) && g.held <= CapacityChanged(g, before, after).held
    ensures CapacityChanged(g, before, after).announced == g.announced + after - before
  {
    if after > before {
      AddKeeps(g.(announced := g.announced + (after - before)), after - before);
    } else if before > after {
      SumAppend(g.spawned, before - after);
    }
  }

  lemma StartKeeps(g: Gate, i: nat)
    requires GateOk(g) && i < |g.spawned|
    ensures GateOk(StartShrink(g, i)) && StartShrink(g, i).held == g.held
  {
    var need := g.spawned[i];
    SumWithout(g.spawned, i);
    WantedAppend(g.waiters, Shrink(need, 0));
    QueuedAppend(g.waiters, Shrink(need, 0));
    if g.waiters == [] {
      assert Queued([Shrink(need, g.free)]) == {};
      assert Wanted([Shrink(need, g.free)]) == (if need > g.free then need - g.free else 0);
    }
  }

  // ---------------------------------------------------------------- the workers behind the gate

  type WorkerId = string

  /** Total capacity of the listed workers. */
  ghost function Total(workers: map<WorkerId, nat>): nat
    decreases |workers|
  {
    if workers == map[] then 0 else var w :| w in workers; workers[w] + Total(workers - {w})
  }

  lemma {:induction false} TotalWithout(workers: map<WorkerId, nat>, w: WorkerId)
    requires w in workers
    ensures Total(workers) == workers[w] + Total(workers - {w})
    decreases |workers|
  {
    var v :| v in workers && Total(workers) == workers[v] + Total(workers - {v});
    if v != w {
      TotalWithout(workers - {v}, w);
      TotalWithout(workers - {w}, v);
      assert workers - {v} - {w} == workers - {w} - {v};
    }
  }

  lemma TotalUpdate(workers: map<WorkerId, nat>, w: WorkerId, capacity: nat)
    ensures Total(workers[w := capacity]) == Total(workers) + capacity - Capacity(workers, w)
  {
    TotalWithout(workers[w := capacity], w);
    assert workers[w := capacity] - {w} == workers - {w};
    if w in workers { TotalWithout(workers, w); } else { assert workers - {w} == workers; }
  }

  function Capacity(workers: map<WorkerId, nat>, w: WorkerId): nat { if w in workers then workers[w] else 0 }

  /** `gap` is the capacity that left the worker list without being announced, less what was retracted beyond it. */
  datatype System = System(gate: Gate, workers: map<WorkerId, nat>, gap: int)

  datatype Event =
    | Register(w: WorkerId, capacity: nat)           // an accepted registration
    | Heartbeat(w: WorkerId, maxLoad: nat)
    | Drain(w: WorkerId, captured: nat, stays: bool) // capacity read before the grace period; a busy worker stays listed
    | Unlisted(w: WorkerId)                          // superseded, or a drained worker's last release
    | Arrive(id: EpisodeId)
    | Leave(id: EpisodeId)                           // cancelled or timed out while waiting
    | Done(id: EpisodeId)
    | Collect(i: nat)                                // a shrink task starts

  predicate Enabled(y: System, e: Event) {
    match e
    case Register(w, c) => true
    case Heartbeat(w, m) => w in y.workers
    case Drain(w, c, stays) => true
    case Unlisted(w) => w in y.workers
    case Arrive(id) => id !in y.gate.held && id !in Queued(y.gate.waiters)
    case Leave(id) => true
    case Done(id) => id in y.gate.held
    case Collect(i) => i < |y.gate.spawned|
  }

  function Apply(y: System, e: Event): System
    requires Enabled(y, e)
  {
    var g := y.gate;
    match e
    case Register(w, c) => y.(gate := CapacityChanged(g, Capacity(y.workers, w), c), workers := y.workers[w := c])
    case Heartbeat(w, m) =>
      // 0 means that the worker did not report a capacity
      if m > 0 then y.(gate := CapacityChanged(g, y.workers[w], m), workers := y.workers[w := m]) else y
    case Drain(w, c, stays) =>
      var gone := if stays then 0 else Capacity(y.workers, w);
      y.(gate := CapacityChanged(g, c, 0), workers := if stays then y.workers else y.workers - {w}, gap := y.gap + gone - c)
    case Unlisted(w) => y.(workers := y.workers - {w}, gap := y.gap + y.workers[w])
    case Arrive(id) => y.(gate := Ask(g, id))
    case Leave(id) => y.(gate := GiveUp(g, id))
    case Done(id) => y.(gate := Finish(g, id))
    case Collect(i) => y.(gate := StartShrink(g, i))
  }

  ghost predicate SystemOk(y: System) {
    GateOk(y.gate) && y.gate.announced == Total(y.workers) + y.gap
  }

  lemma WorkersStep(y: System, e: Event)
    requires SystemOk(y) && Enabled(y, e) && (e.Register? || e.Heartbeat? || e.Drain? || e.Unlisted?)
    ensures SystemOk(Apply(y, e)) && y.gate.held <= Apply(y, e).gate.held
  {
    match e
    case Register(w, c) =>
      ChangeKeeps(y.gate, Capacity(y.workers, w), c);
      TotalUpdate(y.workers, w, c);
    case Heartbeat(w, m) =>
      ChangeKeeps(y.gate, y.workers[w], m);
      TotalUpdate(y.workers, w, m);
    case Drain(w, c, stays) =>
      ChangeKeeps(y.gate, c, 0);
      if w in y.workers { TotalWithout(y.workers, w); } else { assert y.workers - {w} == y.workers; }
    case Unlisted(w) => TotalWithout(y.workers, w);
  }

  lemma EpisodesStep(y: System, e: Event)
    requires SystemOk(y) && Enabled(y, e) && (e.Arrive? || e.Leave? || e.Done? || e.Collect?)
    ensures GateOk(Apply(y, e).gate)
    ensures y.gate.held <= Apply(y, e).gate.held + (if e.Done? then {e.id} else {})
  {
    match e
    case Arrive(id) => AskKeeps(y.gate, id);
    case Leave(id) => GiveUpKeeps(y.gate, id);
    case Done(id) => FinishKeeps(y.gate, id);
    case Collect(i) => StartKeeps(y.gate, i);
  }

  lemma SystemStep(y: System, e: Event)
    requires SystemOk(y) && Enabled(y, e)
    ensures SystemOk(Apply(y, e))
    ensures y.gate.held <= Apply(y, e).gate.held + (if e.Done? then {e.id} else {})
  {
    if e.Register? || e.Heartbeat? || e.Drain? || e.Unlisted? { WorkersStep(y, e); } else { EpisodesStep(y, e); }
  }

  predicate Runs(y: System, es: seq<Event>)
    decreases |es|
  {
    es == [] || (Enabled(y, es[0]) && Runs(Apply(y, es[0]), es[1..]))
  }

  function After(y: System, es: seq<Event>): System
    requires Runs(y, es)
    decreases |es|
  {
    if es == [] then y else After(Apply(y, es[0]), es[1..])
  }

  /** No worker, no permit. */
  predicate Initial(y: System) { EmptyGate(y.gate, 0) && |y.workers| == 0 && y.gap == 0 }

  lemma {:induction false} SystemAlways(y: System, es: seq<Event>)
    requires SystemOk(y) && Runs(y, es)
    ensures SystemOk(After(y, es))
    decreases |es|
  {
    if es != [] {
      SystemStep(y, es[0]);
      SystemAlways(Apply(y, es[0]), es[1..]);
    }
  }

  lemma EmptyGateOk(g: Gate, permits: nat)
    requires EmptyGate(g, permits)
    ensures GateOk(g)
  {
  }

  lemma InitialOk(y: System)
    requires Initial(y)
    ensures SystemOk(y)
  {
    EmptyGateOk(y.gate, 0);
    assert y.workers == map[];
  }

  /** In every reachable state: free permits plus held ones are all capacity changes plus shrinks not yet collected. */
  lemma Ledger(y: System, es: seq<Event>)
    requires Initial(y) && Runs(y, es)
    ensures var y' := After(y, es);
            && y'.gate.free + |y'.gate.held| == y'.gate.announced + Uncollected(y'.gate)
            && y'.gate.announced == Total(y'.workers) + y'.gap
            && (y'.gate.waiters != [] ==> y'.gate.free == 0)
  {
    InitialOk(y);
    SystemAlways(y, es);
  }

  /** No held permit is ever revoked: an episode loses its permit only by finishing. */
  lemma {:induction false} NoRevocation(y: System, es: seq<Event>, id: EpisodeId)
    requires SystemOk(y) && Runs(y, es) && id in y.gate.held && Done(id) !in es
    ensures id in After(y, es).gate.held
    decreases |es|
  {
    if es != [] {
      SystemStep(y, es[0]);
      NoRevocation(Apply(y, es[0]), es[1..], id);
    }
  }

  /** Once shrinks have settled, the admitted episodes are at most the listed capacity plus the gap. */
  lemma SettledBound(y: System, es: seq<Event>)
    requires Initial(y) && Runs(y, es) && Uncollected(After(y, es).gate) == 0
    ensures var y' := After(y, es);
            y'.gate.free + |y'.gate.held| == Total(y'.workers) + y'.gap && |y'.gate.held| <= Total(y'.workers) + y'.gap
  {
    InitialOk(y);
    SystemAlways(y, es);
  }

  /** Every removal is announced with the capacity the worker had. */
  predicate Announced(y: System, es: seq<Event>)
    requires Runs(y, es)
    decreases |es|
  {
    es == [] || (&& !es[0].Unlisted?
                 && (es[0].Drain? ==> !es[0].stays && es[0].captured == Capacity(y.workers, es[0].w))
                 && Announced(Apply(y, es[0]), es[1..]))
  }

  lemma {:induction false} NoGap(y: System, es: seq<Event>)
    requires Runs(y, es) && Announced(y, es)
    ensures After(y, es).gap == y.gap
    decreases |es|
  {
    if es != [] {
      NoGap(Apply(y, es[0]), es[1..]);
    }
  }

  /** With every removal announced, settled admissions never exceed the total capacity. */
  lemma AdmittedWithinCapacity(y: System, es: seq<Event>)
    requires Initial(y) && Runs(y, es) && Announced(y, es) && Uncollected(After(y, es).gate) == 0
    ensures |After(y, es).gate.held| <= Total(After(y, es).workers)
  {
    SettledBound(y, es);
    NoGap(y, es);
  }

  // ---------------------------------------------------------------- an unannounced removal

  function Arrivals(ids: seq<EpisodeId>): seq<Event> { seq(|ids|, i requires 0 <= i < |ids| => Arrive(ids[i])) }

  ghost predicate FreshIds(g: Gate, ids: seq<EpisodeId>) {
    && (forall i :: 0 <= i < |ids| ==> ids[i] !in g.held)
    && (forall i, j :: 0 <= i < j < |ids| ==> ids[i] != ids[j])
  }

  /** As long as nobody waits and permits are free, arrivals are admitted. */
  lemma {:induction false} ArrivalsAdmitted(y: System, ids: seq<EpisodeId>)
    requires |y.gate.waiters| == 0 && |ids| <= y.gate.free && FreshIds(y.gate, ids)
    ensures Runs(y, Arrivals(ids))
    ensures var y' := After(y, Arrivals(ids)); |y'.gate.held| == |y.gate.held| + |ids| && y'.workers == y.workers
    decreases |ids|
  {
    if ids != [] {
      var y1 := y.(gate := y.gate.(free := y.gate.free - 1, held := y.gate.held + {ids[0]}));
      assert Apply(y, Arrive(ids[0])) == y1;
      assert Arrivals(ids)[1..] == Arrivals(ids[1..]);
      ArrivalsAdmitted(y1, ids[1..]);
    }
  }

  /**
   The premise of AdmittedWithinCapacity is needed: whenever a worker with capacity is unlisted without an
   announcement, its permits stay, and arrivals fill them beyond the total capacity.
   */
  lemma UnannouncedRemovalOveradmits(y: System, w: WorkerId, ids: seq<EpisodeId>)
    requires SystemOk(y) && Uncollected(y.gate) == 0 && y.gap >= 0 && |y.gate.waiters| == 0
    requires w in y.workers && y.workers[w] > 0 && |ids| == y.gate.free && FreshIds(y.gate, ids)
    ensures Runs(y, [Unlisted(w)] + Arrivals(ids))
    ensures var y' := After(y, [Unlisted(w)] + Arrivals(ids)); |y'.gate.held| > Total(y'.workers)
  {
    var y1 := Apply(y, Unlisted(w));
    TotalWithout(y.workers, w);
    ArrivalsAdmitted(y1, ids);
    assert ([Unlisted(w)] + Arrivals(ids))[1..] == Arrivals(ids);
  }

  /**
   From the start: register a worker of one slot, unlist it unannounced, and one episode is admitted on no
   capacity.
   */
  lemma OveradmissionFromTheStart(y: System) returns (es: seq<Event>)
    requires Initial(y)
    ensures Runs(y, es) && |After(y, es).gate.held| > Total(After(y, es).workers)
  {
    var y1 := Apply(y, Register("w", 1));
    InitialOk(y);
    SystemStep(y, Register("w", 1));
    assert |y.gate.waiters| == 0 && y.gate.waiters == [];
    assert y1.gate.free == 1 && |y1.gate.waiters| == 0 && |y1.gate.spawned| == 0 && y1.gate.held == y.gate.held;
    assert |y1.gate.held| == 0;
    UnannouncedRemovalOveradmits(y1, "w", ["episode"]);
    es := [Register("w", 1)] + ([Unlisted("w")] + Arrivals(["episode"]));
    assert es[1..] == [Unlisted("w")] + Arrivals(["episode"]);
  }

  // ---------------------------------------------------------------- each operation, on the fields

  /** An episode that gives up leaves the queue, and only it: whoever waits keeps waiting in the same order. */
  lemma {:induction false} GiveUpMeans(ws: seq<Waiter>, before: seq<Waiter>, after: seq<Waiter>, id: EpisodeId)
    requires ws == before + [Episode(id)] + after && id !in Queued(before) && id !in Queued(after)
    ensures WithoutEpisode(ws, id) == before + after
    decreases |before|
  {
    if before == [] {
      assert ws[1..] == after;
      NotQueued(after, id);
    } else {
      QueuedTail(before);
      assert ws[1..] == before[1..] + [Episode(id)] + after && ws[0] == before[0];
      GiveUpMeans(ws[1..], before[1..], after, id);
      assert ws[0].Episode? ==> ws[0].id in Queued(before);
    }
  }

  lemma {:induction false} NotQueued(ws: seq<Waiter>, id: EpisodeId)
    requires id !in Queued(ws)
    ensures WithoutEpisode(ws, id) == ws
    decreases |ws|
  {
    if ws != [] {
      QueuedTail(ws);
      NotQueued(ws[1..], id);
    }
  }

  /** The gate after a waiter gave up: permits and holders as before, and the episode no longer waits. */
  lemma GivingUpLeaves(g: Gate, id: EpisodeId)
    requires GateOk(g)
    ensures id !in Queued(GiveUp(g, id).waiters) && Queued(g.waiters) - {id} == Queued(GiveUp(g, id).waiters)
    ensures GiveUp(g, id) == g.(waiters := GiveUp(g, id).waiters)
    ensures id !in Queued(g.waiters) ==> GiveUp(g, id) == g
  {
    WithoutWanted(g.waiters, id);
    if id !in Queued(g.waiters) { NotQueued(g.waiters, id); }
  }

  /** The episode neither holds a permit nor waits for one. */
  ghost predicate Absent(y: System, id: EpisodeId) { id !in y.gate.held && id !in Queued(y.gate.waiters) }

  lemma AddSpares(g: Gate, n: nat, id: EpisodeId)
    requires QueueOk(g.waiters) && id !in g.held && id !in Queued(g.waiters)
    ensures id !in AddPermits(g, n).held && id !in Queued(AddPermits(g, n).waiters)
  {
    ServeBalance(n, g.waiters);
  }

  lemma AbsentStep(y: System, e: Event, id: EpisodeId)
    requires SystemOk(y) && Enabled(y, e) && Absent(y, id) && e != Arrive(id)
    ensures Absent(Apply(y, e), id)
  {
    var g := y.gate;
    match e
    case Register(w, c) => ChangeSpares(g, Capacity(y.workers, w), c, id);
    case Heartbeat(w, m) => ChangeSpares(g, y.workers[w], m, id);
    case Drain(w, c, _) => ChangeSpares(g, c, 0, id);
    case Unlisted(_) =>
    case Arrive(other) => QueuedAppend(g.waiters, Episode(other));
    case Leave(other) => WithoutWanted(g.waiters, other);
    case Done(other) => AddSpares(g.(held := g.held - {other}), 1, id);
    case Collect(i) =>
      QueuedAppend(g.waiters, Shrink(g.spawned[i], 0));
      assert Queued([Shrink(g.spawned[i], g.free)]) == {};
  }

  lemma ChangeSpares(g: Gate, before: nat, after: nat, id: EpisodeId)
    requires GateOk(g) && id !in g.held && id !in Queued(g.waiters)
    ensures id !in CapacityChanged(g, before, after).held && id !in Queued(CapacityChanged(g, before, after).waiters)
  {
    if after > before { AddSpares(g.(announced := g.announced + (after - before)), after - before, id); }
  }

  /** An episode that was cancelled or timed out while it waited is never admitted, unless it asks again. */
  lemma {:induction false} LeaverIsNeverAdmitted(y: System, es: seq<Event>, id: EpisodeId)
    requires SystemOk(y) && id !in y.gate.held && Runs(y, [Leave(id)] + es) && Arrive(id) !in es
    ensures id !in After(y, [Leave(id)] + es).gate.held
  {
    var y1 := Apply(y, Leave(id));
    assert ([Leave(id)] + es)[1..] == es;
    SystemStep(y, Leave(id));
    WithoutWanted(y.gate.waiters, id);
    StaysAbsent(y1, es, id);
  }

  lemma {:induction false} StaysAbsent(y: System, es: seq<Event>, id: EpisodeId)
    requires SystemOk(y) && Absent(y, id) && Runs(y, es) && Arrive(id) !in es
    ensures Absent(After(y, es), id)
    decreases |es|
  {
    if es != [] {
      SystemStep(y, es[0]);
      AbsentStep(y, es[0], id);
      StaysAbsent(Apply(y, es[0]), es[1..], id);
    }
  }

  /** A shrink that starts takes free permits only when nobody waits, and queues behind everybody else for the rest. */
  lemma ShrinkStarts(g: Gate, i: nat)
    requires GateOk(g) && i < |g.spawned|
    ensures var g' := StartShrink(g, i);
            var need := g.spawned[i];
            && g'.spawned == g.spawned[..i] + g.spawned[i+1..] && g'.held == g.held && g'.announced == g.announced
            && (g.waiters != [] ==> g'.free == g.free && g'.waiters == g.waiters + [Shrink(need, 0)])
            && (g.waiters == [] && need <= g.free ==> g'.free == g.free - need && g'.waiters == [])
            && (g.waiters == [] && need > g.free ==> g'.free == 0 && g'.waiters == [Shrink(need, g.free)])
  {
  }

  /** Growth hands out the difference at once; loss takes no permit yet, but spawns a shrink of the difference. */
  lemma CapacityChangeMeans(g: Gate, before: nat, after: nat)
    requires GateOk(g)
    ensures var g' := CapacityChanged(g, before, after);
            && (after > before ==> g'.spawned == g.spawned && g'.announced == g.announced + (after - before)
                                   && (g.waiters == [] ==> g'.free == g.free + (after - before) && g'.waiters == []))
            && (after < before ==> g' == g.(announced := g.announced - (before - after), spawned := g.spawned + [before - after]))
            && (after == before ==> g' == g)
  {
  }

  /** A permit that comes back goes to the longest waiter; with nobody waiting it is free again. */
  lemma FinishMeans(g: Gate, id: EpisodeId)
    requires GateOk(g) && id in g.held
    ensures var g' := Finish(g, id);
            && g'.spawned == g.spawned && g'.announced == g.announced
            && (g.waiters == [] ==> g'.free == g.free + 1 && g'.held == g.held - {id} && g'.waiters == [])
            && (g.waiters != [] && g.waiters[0].Episode? ==>
                  g'.held == g.held - {id} + {g.waiters[0].id} && g'.waiters == g.waiters[1..] && g'.free == g.free)
            && (g.waiters != [] && g.waiters[0].Shrink? && g.waiters[0].got + 1 < g.waiters[0].need ==>
                  && g'.held == g.held - {id} && g'.free == g.free
                  && g'.waiters == [Shrink(g.waiters[0].need, g.waiters[0].got + 1)] + g.waiters[1..])
            && (g.waiters != [] && g.waiters[0].Shrink? && g.waiters[0].got + 1 == g.waiters[0].need ==>
                  g'.held == g.held - {id} && g'.free == g.free && g'.waiters == g.waiters[1..])
  {
    if g.waiters != [] {
      assert Serve(0, g.waiters[1..]) == Change(0, g.waiters[1..], {});
    }
  }

  /** An arrival is admitted exactly when nobody waits and a permit is free; otherwise it joins the end of the queue. */
  lemma ArrivalMeans(y: System, id: EpisodeId)
    requires Enabled(y, Arrive(id))
    ensures var y' := Apply(y, Arrive(id));
            && (y.gate.waiters == [] && y.gate.free > 0 ==>
                  y' == y.(gate := y.gate.(free := y.gate.free - 1, held := y.gate.held + {id})))
            && (y.gate.waiters != [] || y.gate.free == 0 ==>
                  y' == y.(gate := y.gate.(waiters := y.gate.waiters + [Episode(id)])))
  {
  }

  /** A leaving waiter is out of the queue, a finished episode gives up its permit, and the worker list is untouched. */
  lemma DepartureMeans(y: System, id: EpisodeId)
    requires SystemOk(y)
    ensures Apply(y, Leave(id)).gate.held == y.gate.held && id !in Queued(Apply(y, Leave(id)).gate.waiters)
    ensures Apply(y, Leave(id)).workers == y.workers && Apply(y, Leave(id)).gap == y.gap
    ensures id in y.gate.held ==>
              && id !in Apply(y, Done(id)).gate.held && Apply(y, Done(id)).workers == y.workers && Apply(y, Done(id)).gap == y.gap
              && (y.gate.waiters == [] ==> Apply(y, Done(id)).gate.free == y.gate.free + 1)
  {
    GivingUpLeaves(y.gate, id);
    if id in y.gate.held { ServeBalance(1, y.gate.waiters); }
  }

  /** What the server announces: a registration and a heartbeat the new capacity, but for a heartbeat that reports none. */
  lemma AnnouncementsMean(y: System, w: WorkerId, n: nat)
    requires SystemOk(y)
    ensures var y' := Apply(y, Register(w, n));
            && y'.workers == y.workers[w := n] && y'.gap == y.gap
            && y'.gate.announced == y.gate.announced + n - (if w in y.workers then y.workers[w] else 0)
    ensures w in y.workers ==>
              var y' := Apply(y, Heartbeat(w, n));
              && (n == 0 ==> y' == y)
              && (n > 0 ==> y'.workers == y.workers[w := n] && y'.gap == y.gap
                            && y'.gate.announced == y.gate.announced + n - y.workers[w])
  {
    ChangeKeeps(y.gate, if w in y.workers then y.workers[w] else 0, n);
  }

  /** A drain announces the capacity read before it; an unlisting announces nothing. */
  lemma RemovalsMean(y: System, w: WorkerId, captured: nat, stays: bool)
    requires SystemOk(y)
    ensures var y' := Apply(y, Drain(w, captured, stays));
            && y'.gate.announced == y.gate.announced - captured
            && y'.workers == (if stays then y.workers else y.workers - {w})
            && y'.gap == y.gap + (if !stays && w in y.workers then y.workers[w] else 0) - captured
    ensures w in y.workers ==>
              Apply(y, Unlisted(w)) == y.(workers := y.workers - {w}, gap := y.gap + y.workers[w])
  {
    ChangeKeeps(y.gate, captured, 0);
  }

  // ---------------------------------------------------------------- the controller

  datatype Acquired = Permit | NoPermitNeeded | Queue

  /** Three modes: unlimited, a fixed limit, or permits that follow the workers' capacity. */
  class AdmissionController {
    const limited: bool
    const dynamic: bool
    var gate: Gate

    ghost predicate Valid()
      reads this
    {
      GateOk(gate) && (dynamic ==> limited) && (!dynamic ==> gate.spawned == [])
    }

    constructor (queueMaxInFlight: nat, queueDynamic: bool)
      ensures Valid() && dynamic == queueDynamic && limited == (queueDynamic || queueMaxInFlight > 0)
      ensures EmptyGate(gate, if queueDynamic then 0 else queueMaxInFlight)
    {
      limited, dynamic := queueDynamic || queueMaxInFlight > 0, queueDynamic;
      var permits := if queueDynamic then 0 else queueMaxInFlight;
      gate := Gate(permits, [], {}, [], permits);
      new;
      EmptyGateOk(gate, permits);
    }

    /** -1 stands for no limit. */
    method AvailablePermits() returns (n: int)
      requires Valid()
      ensures if limited then n + |gate.held| == gate.announced + Uncollected(gate) && n >= 0 else n == -1
    {
      n := if limited then gate.free else -1;
    }

    /** The first poll of acquire_until: a permit at once, or a place at the end of the queue. */
    method Acquire(id: EpisodeId) returns (r: Acquired)
      requires Valid() && id !in gate.held && id !in Queued(gate.waiters)
      modifies this`gate
      ensures Valid()
      ensures if limited then gate == Ask(old(gate), id) else gate == old(gate)
      ensures r.NoPermitNeeded? <==> !limited
      ensures r.Permit? <==> limited && old(gate).waiters == [] && old(gate).free > 0
      ensures r.Permit? ==> gate == old(gate).(free := old(gate).free - 1, held := old(gate).held + {id})
      ensures r.Queue? ==> gate == old(gate).(waiters := old(gate).waiters + [Episode(id)])
    {
      if !limited {
        return NoPermitNeeded;
      }
      AskKeeps(gate, id);
      r := if gate.waiters == [] && gate.free > 0 then Permit else Queue;
      gate := Ask(gate, id);
    }

    /** Cancelled, or past the deadline. */
    method StopWaiting(id: EpisodeId)
      requires Valid()
      modifies this`gate
      ensures Valid() && gate == GiveUp(old(gate), id) && gate.held == old(gate).held
      ensures Queued(gate.waiters) == Queued(old(gate).waiters) - {id}
    {
      GiveUpKeeps(gate, id);
      GivingUpLeaves(gate, id);
      gate := GiveUp(gate, id);
    }

    /** The permit's guard is dropped. */
    method Release(id: EpisodeId)
      requires Valid() && id in gate.held
      modifies this`gate
      ensures Valid() && gate == Finish(old(gate), id) && old(gate).held - {id} <= gate.held
    {
      FinishKeeps(gate, id);
      gate := Finish(gate, id);
    }

    method OnCapacityChanged(oldCapacity: nat, newCapacity: nat)
      requires Valid()
      modifies this`gate
      ensures Valid() && old(gate).held <= gate.held
      ensures gate == if dynamic then CapacityChanged(old(gate), oldCapacity, newCapacity) else old(gate)
      ensures dynamic ==> gate.announced == old(gate).announced + newCapacity - oldCapacity
    {
      if !dynamic || !limited {
        return;
      }
      ChangeKeeps(gate, oldCapacity, newCapacity);
      if newCapacity > oldCapacity {
        gate := AddPermits(gate.(announced := gate.announced + (newCapacity - oldCapacity)), newCapacity - oldCapacity);
      } else if oldCapacity > newCapacity {
        var reduce := oldCapacity - newCapacity;
        gate := gate.(announced := gate.announced - reduce, spawned := gate.spawned + [reduce]);
      }
    }

    method OnWorkerRemoved(oldCapacity: nat)
      requires Valid()
      modifies this`gate
      ensures Valid() && old(gate).held <= gate.held
      ensures dynamic ==> gate.announced == old(gate).announced - oldCapacity
      ensures !dynamic ==> gate == old(gate)
    {
      OnCapacityChanged(oldCapacity, 0);
    }

    /** A spawned shrink task gets to run. */
    method RunShrink(i: nat)
      requires Valid() && i < |gate.spawned|
      modifies this`gate
      ensures Valid() && gate == StartShrink(old(gate), i) && gate.held == old(gate).held
    {
      StartKeeps(gate, i);
      gate := StartShrink(gate, i);
    }
  }
}
