/**
 How run ids and the rows of the job table evolve: run ids of one job only grow, finished rows are final, and a
 row only moves to later runs or later phases.
 */
module LeaseRows {
  import opened LeaseProtocol

  // ---------------------------------------------------------------- run ids

  /** Reclaims can turn `run` into `target`: a reclaim appends a mark and any suffix. */
  predicate CanBecome(run: RunId, target: RunId) { run == target || run + RECLAIM_MARK <= target }

  /** A reclaim never brings a run id within reach of a target. */
  lemma ReachShrinks(run: RunId, newRun: RunId, target: RunId)
    requires run + RECLAIM_MARK <= newRun
    ensures CanBecome(newRun, target) ==> run + RECLAIM_MARK <= target && run != target
    ensures !CanBecome(newRun, run) && run < newRun
  {
    if newRun <= target {
      assert forall i :: 0 <= i < |run + RECLAIM_MARK| ==> (run + RECLAIM_MARK)[i] == newRun[i] && newRun[i] == target[i];
    }
    assert |run + RECLAIM_MARK| > |run|;
    assert (run + RECLAIM_MARK)[..|run|] == run;
  }

  // ---------------------------------------------------------------- how table rows evolve

  /** Run ids of one job only grow: a reclaim appends to the previous run id. */
  predicate Extends(longer: RunId, shorter: RunId) { shorter < longer }

  ghost predicate RowGrows(a: Row, b: Row) {
    || Extends(b.run, a.run)
    || a == b
    || (b.run == a.run && a.phase == Pending)
    || (b.run == a.run && a.phase == Leased && b.agent == a.agent && (b.phase == Completed || b.phase == Closed))
  }

  /** No row disappears, finished rows are final, and a row only moves to later runs or later phases. */
  ghost predicate Grows(rows: map<JobId, Row>, rows': map<JobId, Row>) {
    forall id :: id in rows ==>
                   && id in rows'
                   && RowGrows(rows[id], rows'[id])
                   && (rows[id].phase == Completed || rows[id].phase == Closed ==> rows'[id] == rows[id])
  }

  /** The table has moved past the pending phase of `run`: it can never be leased under `run` again. */
  ghost predicate Past(rows: map<JobId, Row>, id: JobId, run: RunId) {
    id in rows && (Extends(rows[id].run, run) || (rows[id].run == run && rows[id].phase != Pending))
  }

  /** As `Past`, and if the run is still the current one, `agent` is the one that leased it. */
  ghost predicate HeldBy(rows: map<JobId, Row>, id: JobId, agent: AgentId, run: RunId) {
    Past(rows, id, run) && (rows[id].run == run ==> rows[id].agent == agent)
  }

  ghost predicate CommittedAt(rows: map<JobId, Row>, r: Request) {
    r.id in rows && rows[r.id] == Row(Completed, r.agent, r.run, r.checksum)
  }

  /** The table says that the lease of `r` is the current one, finished or not. */
  ghost predicate LeaseIs(rows: map<JobId, Row>, r: Request) {
    && r.id in rows && rows[r.id].run == r.run && rows[r.id].agent == r.agent
    && (rows[r.id].phase == Leased || rows[r.id].phase == Completed)
  }

  lemma TableGrows(rows: map<JobId, Row>, id: JobId, agent: AgentId, run: RunId, suffix: string, r: Request)
    ensures Grows(rows, LeaseRow(rows, id, agent, run))
    ensures Grows(rows, RequeueRow(rows, id, agent, run, run + RECLAIM_MARK + suffix))
    ensures Grows(rows, CommitRow(rows, r))
  {
    assert Extends(run + RECLAIM_MARK + suffix, run);
  }

  lemma GrowthKeeps(rows: map<JobId, Row>, rows': map<JobId, Row>, id: JobId, run: RunId, r: Request)
    requires Grows(rows, rows')
    ensures Past(rows, id, run) ==> Past(rows', id, run)
    ensures id in rows && Extends(rows[id].run, run) ==> Extends(rows'[id].run, run)
    ensures CommittedAt(rows, r) ==> CommittedAt(rows', r)
    ensures Past(rows, r.id, r.run) && LeaseIs(rows', r) ==> LeaseIs(rows, r)
  {
    if id in rows {
      PrefixTransitive(run, rows[id].run, rows'[id].run);
    }
    if r.id in rows && Extends(rows[r.id].run, r.run) {
      PrefixTransitive(r.run, rows[r.id].run, rows'[r.id].run);
    }
  }

  lemma HeldStays(rows: map<JobId, Row>, rows': map<JobId, Row>, id: JobId, agent: AgentId, run: RunId)
    requires Grows(rows, rows') && HeldBy(rows, id, agent, run)
    ensures HeldBy(rows', id, agent, run)
  {
    PrefixTransitive(run, rows[id].run, rows'[id].run);
  }

  lemma PrefixTransitive(a: string, b: string, c: string)
    ensures a <= b && b < c ==> a < c
    ensures a < b && b <= c ==> a < c
  {
    if a <= b && b <= c {
      assert forall i :: 0 <= i < |a| ==> a[i] == b[i] && b[i] == c[i];
    }
  }

  lemma GrowsSame(rows: map<JobId, Row>)
    ensures Grows(rows, rows)
  {
  }

  lemma PastStays(rows: map<JobId, Row>, rows': map<JobId, Row>, id: JobId, run: RunId)
    requires Grows(rows, rows') && Past(rows, id, run)
    ensures Past(rows', id, run)
  {
    GrowthKeeps(rows, rows', id, run, Request("", "", "", 0));
  }

  // ---------------------------------------------------------------- what the table has said

  ghost predicate IsAck(code: Code) { code == Accepted || code == DuplicateAccepted }

  ghost predicate HistoryOk(s: State) {
    s.persistent ==>
      && (forall p :: p in s.reclaimed ==> p.0 in s.rows && Extends(s.rows[p.0].run, p.1))
      && (forall t :: t in s.replies && IsAck(s.replies[t].code) ==> CommittedAt(s.rows, s.replies[t].request))
  }
}
