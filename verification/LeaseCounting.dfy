/** Counting copies in queues, and handlers and records in finite tables. */
module LeaseCounting {
  import opened LeaseProtocol

  lemma {:induction false} CountConcat(a: seq<Copy>, b: seq<Copy>, id: JobId)
    ensures Count(a + b, id) == Count(a, id) + Count(b, id)
  {
    if a == [] {
      assert a + b == b;
    } else {
      CountConcat(a[1..], b, id);
      assert (a + b)[1..] == a[1..] + b;
    }
  }

  lemma {:induction false} CountSplit(q: seq<Copy>, pos: nat, id: JobId)
    requires pos < |q|
    ensures Count(q, id) == Count(q[..pos] + q[pos+1..], id) + (if q[pos].id == id then 1 else 0)
  {
    CountConcat(q[..pos], q[pos..], id);
    assert q == q[..pos] + q[pos..];
    assert q[pos..][1..] == q[pos+1..];
    CountConcat(q[..pos], q[pos+1..], id);
  }

  lemma {:induction false} CountZero(q: seq<Copy>, id: JobId)
    ensures Count(q, id) == 0 <==> forall i :: 0 <= i < |q| ==> q[i].id != id
  {
    if q != [] {
      CountZero(q[1..], id);
      assert forall i :: 0 < i < |q| ==> q[i] == q[1..][i-1];
    }
  }

  /** retain keeps the copies of every other job, and adds none. */
  lemma {:induction false} CountWithout(q: seq<Copy>, pool: PoolId, id: JobId, other: JobId)
    requires other != id
    ensures Count(Without(q, pool, id), other) == Count(q, other)
    ensures forall c :: c in Without(q, pool, id) ==> c in q
  {
    if q != [] {
      CountWithout(q[1..], pool, id, other);
      if !(q[0].pool == pool && q[0].id == id) {
        CountConcat([q[0]], Without(q[1..], pool, id), other);
      }
    }
  }

  /** Two finite sets that differ at most on `x`. */
  lemma SizeUpdate<T>(h: set<T>, h': set<T>, x: T)
    requires forall y :: y != x ==> (y in h <==> y in h')
    ensures |h'| == |h| - (if x in h then 1 else 0) + (if x in h' then 1 else 0)
  {
    if x in h && x !in h' {
      assert h' == h - {x};
    } else if x !in h && x in h' {
      assert h' == h + {x};
    } else {
      assert h' == h;
    }
  }

  /** One handler moves: at most its own copy changes hands. */
  lemma HoldersUpdate(threads: map<Tid, Pc>, t: Tid, pc: Pc, id: JobId)
    ensures var before := if t in threads && HoldsJob(threads[t], id) then 1 else 0;
            var now := if HoldsJob(pc, id) then 1 else 0;
            |Holders(threads[t := pc], id)| == |Holders(threads, id)| - before + now
  {
    SizeUpdate(Holders(threads, id), Holders(threads[t := pc], id), t);
  }

  lemma NoHolders(threads: map<Tid, Pc>, id: JobId)
    requires |Holders(threads, id)| == 0
    ensures forall t :: t in threads ==> !HoldsJob(threads[t], id)
  {
    assert Holders(threads, id) == {};
    forall t | t in threads ensures !HoldsJob(threads[t], id) {
      assert t !in Holders(threads, id);
    }
  }

  /** One handler moves: at most its own charge changes. */
  lemma ChargersUpdate(threads: map<Tid, Pc>, t: Tid, pc: Pc, a: AgentId)
    ensures var before := if t in threads && ChargesAgent(threads[t], a) then 1 else 0;
            var now := if ChargesAgent(pc, a) then 1 else 0;
            |Chargers(threads[t := pc], a)| == |Chargers(threads, a)| - before + now
  {
    SizeUpdate(Chargers(threads, a), Chargers(threads[t := pc], a), t);
  }

  /** One record changes. */
  lemma LeasedUpdate(inFlight: map<JobId, Record>, id: JobId, rec: Record, a: AgentId)
    ensures var before := if id in inFlight && inFlight[id].agent == a then 1 else 0;
            var now := if rec.agent == a then 1 else 0;
            |LeasedTo(inFlight[id := rec], a)| == |LeasedTo(inFlight, a)| - before + now
  {
    SizeUpdate(LeasedTo(inFlight, a), LeasedTo(inFlight[id := rec], a), id);
  }

  /** One record goes away. */
  lemma LeasedRemove(inFlight: map<JobId, Record>, id: JobId, a: AgentId)
    ensures var before := if id in inFlight && inFlight[id].agent == a then 1 else 0;
            |LeasedTo(inFlight - {id}, a)| == |LeasedTo(inFlight, a)| - before
  {
    SizeUpdate(LeasedTo(inFlight, a), LeasedTo(inFlight - {id}, a), id);
  }
}
