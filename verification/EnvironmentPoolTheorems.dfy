/**
 Conservation of the environment-pool aggregation, and the table object that computes it.
 */
module EnvironmentPoolTheorems {
  import opened Options
  import opened EnvironmentPools

  // ---------------------------------------------------------------- sums

  function SumEntries(ws: seq<WorkerEntry>): Counts {
    if ws == [] then ZERO else SumEntries(ws[..|ws|-1]).Plus(ws[|ws|-1].counts)
  }

  /** What the drafts for one pool contribute. */
  function SumOfKey(ds: seq<Draft>, key: string): Counts {
    if ds == [] then ZERO
    else
      var rest := SumOfKey(ds[..|ds|-1], key);
      if ds[|ds|-1].key == key then rest.Plus(ds[|ds|-1].worker.counts) else rest
  }

  /** What the drafts of one worker for one pool contribute. */
  function SumOfWorker(ds: seq<Draft>, key: string, worker: string): Counts {
    if ds == [] then ZERO
    else
      var d := ds[|ds|-1];
      var rest := SumOfWorker(ds[..|ds|-1], key, worker);
      if d.key == key && d.worker.workerId == worker then rest.Plus(d.worker.counts) else rest
  }

  /** The packages that the drafts for one pool mention, merged in order. */
  function PackagesOfKey(ds: seq<Draft>, key: string): Packages {
    if ds == [] then map[]
    else
      var rest := PackagesOfKey(ds[..|ds|-1], key);
      if ds[|ds|-1].key == key then Merged(rest, ds[|ds|-1].worker.packages) else rest
  }

  /** Those that the drafts of one worker for one pool mention. */
  function PackagesOfWorker(ds: seq<Draft>, key: string, worker: string): Packages {
    if ds == [] then map[]
    else
      var d := ds[|ds|-1];
      var rest := PackagesOfWorker(ds[..|ds|-1], key, worker);
      if d.key == key && d.worker.workerId == worker then Merged(rest, d.worker.packages) else rest
  }

  /** What all drafts contribute. */
  function SumOfAll(ds: seq<Draft>): Counts {
    if ds == [] then ZERO else SumOfAll(ds[..|ds|-1]).Plus(ds[|ds|-1].worker.counts)
  }

  /** The workers that contributed to a pool. */
  function Contributors(ds: seq<Draft>, key: string): set<string> {
    if ds == [] then {}
    else Contributors(ds[..|ds|-1], key) + if ds[|ds|-1].key == key then {ds[|ds|-1].worker.workerId} else {}
  }

  function Ids(ws: seq<WorkerEntry>): set<string> {
    if ws == [] then {} else Ids(ws[..|ws|-1]) + {ws[|ws|-1].workerId}
  }

  lemma {:induction false} InIds(ws: seq<WorkerEntry>, id: string)
    ensures id in Ids(ws) <==> exists i :: 0 <= i < |ws| && ws[i].workerId == id
    decreases |ws|
  {
    if ws != [] {
      var n := |ws| - 1;
      InIds(ws[..n], id);
      if id in Ids(ws) {
        if id == ws[n].workerId {
          assert ws[n].workerId == id;
        } else {
          var i :| 0 <= i < n && ws[..n][i].workerId == id;
          assert ws[i].workerId == id;
        }
      }
      if i :| 0 <= i < |ws| && ws[i].workerId == id {
        assert i < n ==> ws[..n][i].workerId == id;
      }
    }
  }

  predicate DistinctIds(ws: seq<WorkerEntry>) { forall i, j :: 0 <= i < j < |ws| ==> ws[i].workerId != ws[j].workerId }

  lemma PlusLaws(a: Counts, b: Counts, c: Counts)
    ensures a.Plus(b).Plus(c) == a.Plus(c).Plus(b) && a.Plus(b.Plus(c)) == a.Plus(b).Plus(c)
  {
  }

  lemma {:induction false} SumSplit(ws: seq<WorkerEntry>, i: nat)
    requires i < |ws|
    ensures SumEntries(ws) == SumEntries(ws[..i] + ws[i+1..]).Plus(ws[i].counts)
    decreases |ws|
  {
    var n := |ws| - 1;
    var rest := ws[..i] + ws[i+1..];
    if i < n {
      var short := ws[..n][..i] + ws[..n][i+1..];
      SumSplit(ws[..n], i);
      assert rest[..|rest|-1] == short && rest[|rest|-1] == ws[n];
      PlusLaws(SumEntries(short), ws[i].counts, ws[n].counts);
    } else {
      assert rest == ws[..n];
    }
  }

  lemma SumUpdate(ws: seq<WorkerEntry>, i: nat, w: WorkerEntry)
    requires i < |ws|
    ensures SumEntries(ws[i := w]).Plus(ws[i].counts) == SumEntries(ws).Plus(w.counts)
  {
    SumSplit(ws, i);
    SumSplit(ws[i := w], i);
    assert ws[i := w][..i] + ws[i := w][i+1..] == ws[..i] + ws[i+1..];
  }

  /** The empty list changes nothing, on either side; so the final pass over a pool's list does nothing. */
  lemma MergedUnit(m: Packages)
    ensures Merged(map[], m) == m && Merged(m, map[]) == m
  {
  }

  /** Merging is associative: only the order of the contributions matters. */
  lemma MergedAssociative(a: Packages, b: Packages, c: Packages)
    ensures Merged(Merged(a, b), c) == Merged(a, Merged(b, c))
  {
    forall k | k in a.Keys + b.Keys + c.Keys ensures Merged(Merged(a, b), c)[k] == Merged(a, Merged(b, c))[k] {}
    assert Merged(Merged(a, b), c).Keys == Merged(a, Merged(b, c)).Keys;
  }

  lemma {:induction false} IdsCount(ws: seq<WorkerEntry>)
    requires DistinctIds(ws)
    ensures |Ids(ws)| == |ws|
    decreases |ws|
  {
    if ws != [] {
      var n := |ws| - 1;
      IdsCount(ws[..n]);
      InIds(ws[..n], ws[n].workerId);
    }
  }

  // ---------------------------------------------------------------- one pool

  /** A pool's figures are those of its worker entries, one entry per worker. */
  ghost predicate PoolOk(p: Pool) {
    && DistinctIds(p.workers) && p.workerCount == |p.workers|
    && p.counts == SumEntries(p.workers)
    && p.counts.runtime == RuntimeInstanceCount(p.id.source, p.counts.ready, p.counts.busy, p.counts.warming)
  }

  /** A draft carries the key of its identity, and its runtime count obeys the formula for its source. */
  predicate DraftOk(d: Draft) {
    var c := d.worker.counts;
    d.key == PoolKey(d.id) && c.runtime == RuntimeInstanceCount(d.id.source, c.ready, c.busy, c.warming)
  }

  /** The worker has an entry already: its figures grow, the ids stay. */
  lemma EntryGrows(ws: seq<WorkerEntry>, i: nat, w: WorkerEntry)
    requires DistinctIds(ws) && i < |ws| && ws[i].workerId == w.workerId
    ensures var ws' := ws[i := ws[i].Plus(w)];
            DistinctIds(ws') && Ids(ws') == Ids(ws) && SumEntries(ws') == SumEntries(ws).Plus(w.counts)
  {
    var e := ws[i].Plus(w);
    var ws' := ws[i := e];
    SumUpdate(ws, i, e);
    SameIds(ws, ws');
  }

  lemma {:induction false} SameIds(ws: seq<WorkerEntry>, ws': seq<WorkerEntry>)
    requires |ws| == |ws'| && forall j :: 0 <= j < |ws| ==> ws'[j].workerId == ws[j].workerId
    ensures Ids(ws') == Ids(ws)
    decreases |ws|
  {
    if ws != [] {
      SameIds(ws[..|ws|-1], ws'[..|ws|-1]);
    }
  }

  /** The worker is new: an entry is appended. */
  lemma EntryAppended(ws: seq<WorkerEntry>, w: WorkerEntry)
    requires DistinctIds(ws) && w.workerId !in Ids(ws)
    ensures DistinctIds(ws + [w]) && Ids(ws + [w]) == Ids(ws) + {w.workerId}
    ensures SumEntries(ws + [w]) == SumEntries(ws).Plus(w.counts)
  {
    assert (ws + [w])[..|ws|] == ws;
    InIds(ws, w.workerId);
    OneMoreDistinct(ws, w);
  }

  lemma OneMoreDistinct(ws: seq<WorkerEntry>, w: WorkerEntry)
    requires DistinctIds(ws) && forall i :: 0 <= i < |ws| ==> ws[i].workerId != w.workerId
    ensures DistinctIds(ws + [w])
  {
  }

  lemma AddEntryOk(ws: seq<WorkerEntry>, w: WorkerEntry)
    requires DistinctIds(ws)
    ensures var ws' := AddEntry(ws, w);
            && DistinctIds(ws') && SumEntries(ws') == SumEntries(ws).Plus(w.counts)
            && Ids(ws') == Ids(ws) + {w.workerId}
            && |ws'| == |ws| + (if w.workerId in Ids(ws) then 0 else 1)
  {
    var i := EntryIndex(ws, w.workerId);
    InIds(ws, w.workerId);
    if i < |ws| {
      EntryGrows(ws, i, w);
      assert Ids(ws) + {w.workerId} == Ids(ws);
    } else {
      EntryAppended(ws, w);
    }
  }

  lemma UpsertOneOk(current: Option<Pool>, d: Draft)
    requires DraftOk(d) && (current.Some? ==> PoolOk(current.value) && current.value.id.source == d.id.source)
    ensures PoolOk(UpsertOne(current, d)) && UpsertOne(current, d).id.source == d.id.source
  {
    match current
    case None => assert SumEntries([d.worker]) == d.worker.counts by { assert [d.worker][..0] == []; }
    case Some(p) => AddEntryOk(p.workers, d.worker);
  }

  // ---------------------------------------------------------------- all pools

  /** What the entry of one worker adds up to. */
  ghost predicate EntriesTraced(ws: seq<WorkerEntry>, ds: seq<Draft>, key: string) {
    && Ids(ws) == Contributors(ds, key)
    && (forall i :: 0 <= i < |ws| ==> ws[i].counts == SumOfWorker(ds, key, ws[i].workerId))
    && (forall i :: 0 <= i < |ws| ==> ws[i].packages == PackagesOfWorker(ds, key, ws[i].workerId))
  }

  ghost predicate PoolTraced(pools: map<string, Pool>, ds: seq<Draft>, key: string) {
    && (key in pools <==> Contributors(ds, key) != {})
    && (key in pools ==>
          && PoolOk(pools[key]) && PoolKey(pools[key].id) == key
          && pools[key].counts == SumOfKey(ds, key) && pools[key].packages == PackagesOfKey(ds, key)
          && EntriesTraced(pools[key].workers, ds, key))
  }

  lemma ContributorsStep(ds: seq<Draft>, key: string)
    requires ds != []
    ensures var n := |ds| - 1;
            Contributors(ds, key) == Contributors(ds[..n], key) + (if ds[n].key == key then {ds[n].worker.workerId} else {})
  {
  }

  lemma {:induction false} NoContribution(ds: seq<Draft>, key: string, worker: string)
    requires worker !in Contributors(ds, key)
    ensures SumOfWorker(ds, key, worker) == ZERO && PackagesOfWorker(ds, key, worker) == map[]
  {
    if ds != [] {
      ContributorsStep(ds, key);
      NoContribution(ds[..|ds|-1], key, worker);
    }
  }

  lemma {:induction false} NoPool(ds: seq<Draft>, key: string)
    requires Contributors(ds, key) == {}
    ensures SumOfKey(ds, key) == ZERO && PackagesOfKey(ds, key) == map[]
  {
    if ds != [] {
      ContributorsStep(ds, key);
      NoPool(ds[..|ds|-1], key);
    }
  }

  /** Other drafts do not change a pool's trace. */
  lemma TraceSkips(pool: Pool, ds: seq<Draft>, key: string)
    requires ds != [] && ds[|ds|-1].key != key
    requires EntriesTraced(pool.workers, ds[..|ds|-1], key)
    ensures EntriesTraced(pool.workers, ds, key)
  {
    ContributorsStep(ds, key);
  }

  /** One entry after a draft of its pool: the draft's worker has it added, the others are as before. */
  lemma EntryTraced(ws: seq<WorkerEntry>, ds: seq<Draft>, rest: seq<Draft>, d: Draft, key: string, j: nat)
    requires ds == rest + [d] && d.key == key && DistinctIds(ws) && EntriesTraced(ws, rest, key)
    requires j < |AddEntry(ws, d.worker)|
    ensures var e := AddEntry(ws, d.worker)[j];
            e.counts == SumOfWorker(ds, key, e.workerId) && e.packages == PackagesOfWorker(ds, key, e.workerId)
  {
    var w := d.worker;
    var i := EntryIndex(ws, w.workerId);
    assert ds[..|ds|-1] == rest && ds[|ds|-1] == d;
    if j == |ws| {
      InIds(ws, w.workerId);
      NoContribution(rest, key, w.workerId);
      MergedUnit(w.packages);
    } else if j != i {
      assert ws[j].workerId != w.workerId by { if i < |ws| { assert ws[i].workerId == w.workerId; } }
    }
  }

  /** A draft of the pool adds to its worker's entry, and to no other. */
  lemma TraceAdds(ws: seq<WorkerEntry>, ds: seq<Draft>, key: string)
    requires ds != [] && ds[|ds|-1].key == key && DistinctIds(ws)
    requires EntriesTraced(ws, ds[..|ds|-1], key)
    ensures EntriesTraced(AddEntry(ws, ds[|ds|-1].worker), ds, key)
  {
    var rest, d := ds[..|ds|-1], ds[|ds|-1];
    var ws' := AddEntry(ws, d.worker);
    ContributorsStep(ds, key);
    AddEntryOk(ws, d.worker);
    forall j | 0 <= j < |ws'|
      ensures ws'[j].counts == SumOfWorker(ds, key, ws'[j].workerId)
      ensures ws'[j].packages == PackagesOfWorker(ds, key, ws'[j].workerId)
    {
      EntryTraced(ws, ds, rest, d, key, j);
    }
  }

  lemma OtherPool(pools: map<string, Pool>, ds: seq<Draft>, key: string)
    requires ds != [] && ds[|ds|-1].key != key && PoolTraced(pools, ds[..|ds|-1], key)
    ensures PoolTraced(Upserted(pools, ds[|ds|-1]), ds, key)
  {
    ContributorsStep(ds, key);
    if key in pools {
      TraceSkips(pools[key], ds, key);
    }
  }

  lemma FirstEntry(ds: seq<Draft>, key: string)
    requires ds != [] && ds[|ds|-1].key == key && Contributors(ds[..|ds|-1], key) == {}
    ensures EntriesTraced([ds[|ds|-1].worker], ds, key)
    ensures SumOfKey(ds, key) == ds[|ds|-1].worker.counts && PackagesOfKey(ds, key) == ds[|ds|-1].worker.packages
  {
    var n := |ds| - 1;
    assert Ids([]) == {};
    TraceAdds([], ds, key);
    NoPool(ds[..n], key);
    MergedUnit(ds[n].worker.packages);
    assert AddEntry([], ds[n].worker) == [ds[n].worker];
  }

  lemma KeyStep(ds: seq<Draft>, rest: seq<Draft>, d: Draft)
    requires ds == rest + [d]
    ensures SumOfKey(ds, d.key) == SumOfKey(rest, d.key).Plus(d.worker.counts)
    ensures PackagesOfKey(ds, d.key) == Merged(PackagesOfKey(rest, d.key), d.worker.packages)
  {
    assert ds[..|ds|-1] == rest;
  }

  lemma GrownPool(p: Pool, ds: seq<Draft>, rest: seq<Draft>, d: Draft)
    requires ds == rest + [d] && DraftOk(d) && PoolOk(p) && PoolKey(p.id) == d.key
    requires p.counts == SumOfKey(rest, d.key) && p.packages == PackagesOfKey(rest, d.key)
    requires EntriesTraced(p.workers, rest, d.key)
    ensures var p' := UpsertOne(Some(p), d);
            && PoolOk(p') && PoolKey(p'.id) == d.key && EntriesTraced(p'.workers, ds, d.key)
            && p'.counts == SumOfKey(ds, d.key) && p'.packages == PackagesOfKey(ds, d.key)
  {
    assert ds[..|ds|-1] == rest;
    KeyDeterminesSource(p.id, d.id);
    TraceAdds(p.workers, ds, d.key);
    KeyStep(ds, rest, d);
    UpsertOneOk(Some(p), d);
  }

  lemma OwnPool(pools: map<string, Pool>, ds: seq<Draft>, rest: seq<Draft>, d: Draft)
    requires ds == rest + [d] && DraftOk(d) && PoolTraced(pools, rest, d.key)
    ensures PoolTraced(Upserted(pools, d), ds, d.key)
  {
    assert ds[..|ds|-1] == rest;
    ContributorsStep(ds, d.key);
    if d.key in pools {
      GrownPool(pools[d.key], ds, rest, d);
    } else {
      FirstEntry(ds, d.key);
      UpsertOneOk(None, d);
    }
  }

  ghost predicate AllDraftsOk(ds: seq<Draft>) { forall i :: 0 <= i < |ds| ==> DraftOk(ds[i]) }

  lemma TracedStep(pools: map<string, Pool>, ds: seq<Draft>, rest: seq<Draft>, d: Draft, key: string)
    requires ds == rest + [d] && DraftOk(d) && PoolTraced(pools, rest, key)
    ensures PoolTraced(Upserted(pools, d), ds, key)
  {
    if d.key == key {
      OwnPool(pools, ds, rest, d);
    } else {
      assert ds[..|ds|-1] == rest;
      OtherPool(pools, ds, key);
    }
  }

  lemma {:induction false} Traced(ds: seq<Draft>, key: string)
    requires AllDraftsOk(ds)
    ensures PoolTraced(Folded(ds), ds, key)
    decreases |ds|
  {
    if ds != [] {
      var n := |ds| - 1;
      Traced(ds[..n], key);
      assert DraftOk(ds[n]);
      TracedStep(Folded(ds[..n]), ds, ds[..n], ds[n], key);
    }
  }

  // ---------------------------------------------------------------- totals

  /** The sum over all pools. */
  ghost function TotalPools(pools: map<string, Pool>): Counts
    decreases |pools|
  {
    if |pools| == 0 then ZERO else var k :| k in pools; TotalPools(pools - {k}).Plus(pools[k].counts)
  }

  lemma {:induction false} TotalWithout(pools: map<string, Pool>, k: string)
    requires k in pools
    ensures TotalPools(pools) == TotalPools(pools - {k}).Plus(pools[k].counts)
    decreases |pools|
  {
    var j :| j in pools && TotalPools(pools) == TotalPools(pools - {j}).Plus(pools[j].counts);
    if j != k {
      TotalWithout(pools - {j}, k);
      TotalWithout(pools - {k}, j);
      var rest := pools - {j} - {k};
      assert rest == pools - {k} - {j};
      PlusLaws(TotalPools(rest), pools[k].counts, pools[j].counts);
    }
  }

  /** One entry of the table replaced or added. */
  lemma TotalUpdate(pools: map<string, Pool>, k: string, p: Pool)
    ensures TotalPools(pools[k := p]) == TotalPools(pools - {k}).Plus(p.counts)
    ensures k !in pools ==> pools - {k} == pools
  {
    TotalWithout(pools[k := p], k);
    assert pools[k := p] - {k} == pools - {k};
    assert k !in pools ==> pools - {k} == pools;
  }

  lemma UpsertTotal(pools: map<string, Pool>, d: Draft)
    ensures TotalPools(Upserted(pools, d)) == TotalPools(pools).Plus(d.worker.counts)
  {
    var p := UpsertOne(Get(pools, d.key), d);
    TotalUpdate(pools, d.key, p);
    if d.key in pools {
      TotalWithout(pools, d.key);
      PlusLaws(TotalPools(pools - {d.key}), pools[d.key].counts, d.worker.counts);
      assert p.counts == pools[d.key].counts.Plus(d.worker.counts);
    }
  }

  lemma {:induction false} FoldedTotal(ds: seq<Draft>)
    ensures TotalPools(Folded(ds)) == SumOfAll(ds)
    decreases |ds|
  {
    if ds == [] {
      assert |Folded(ds)| == 0;
    } else {
      FoldedTotal(ds[..|ds|-1]);
      UpsertTotal(Folded(ds[..|ds|-1]), ds[|ds|-1]);
    }
  }

  // ---------------------------------------------------------------- what rows contribute

  lemma {:induction false} SummaryDraftsOk(worker: WorkerRow, rows: seq<SummaryRow>)
    ensures AllDraftsOk(SummaryDrafts(worker, rows))
    decreases |rows|
  {
    if rows != [] { SummaryDraftsOk(worker, rows[..|rows|-1]); }
  }

  lemma {:induction false} FallbackDraftsOk(worker: WorkerRow, covered: set<string>, groups: seq<Group>)
    ensures AllDraftsOk(FallbackDrafts(worker, covered, groups))
    decreases |groups|
  {
    if groups != [] { FallbackDraftsOk(worker, covered, groups[..|groups|-1]); }
  }

  lemma WorkerDraftsOk(worker: WorkerRow)
    ensures AllDraftsOk(WorkerDrafts(worker))
  {
    var summary := SummaryDrafts(worker, worker.poolSummary);
    SummaryDraftsOk(worker, worker.poolSummary);
    FallbackDraftsOk(worker, Covered(summary), Groups(worker));
  }

  lemma {:induction false} FleetDraftsOk(workers: seq<WorkerRow>)
    ensures AllDraftsOk(FleetDrafts(workers))
    decreases |workers|
  {
    if workers != [] {
      FleetDraftsOk(workers[..|workers|-1]);
      WorkerDraftsOk(workers[|workers|-1]);
    }
  }

  /** What a pool_summary row reports, read straight from its fields. */
  function RowCounts(row: SummaryRow): Counts {
    if Text(row.envType).None? then ZERO
    else
      var instances := Count(row.busy) + Count(row.warming);
      Counts(Count(row.ready), Count(row.busy), Count(row.warming), Count(row.capacity),
             if IsSpecializedBackend(Text(row.backendKind)) then instances else Count(row.ready) + instances)
  }

  function SumRows(rows: seq<SummaryRow>): Counts {
    if rows == [] then ZERO else SumRows(rows[..|rows|-1]).Plus(RowCounts(rows[|rows|-1]))
  }

  lemma RowDraft(worker: WorkerRow, row: SummaryRow)
    ensures var d := SummaryDraft(worker, row);
            RowCounts(row) == if d.Some? then d.value.worker.counts else ZERO
  {
  }

  lemma SumOneMore(ds: seq<Draft>, d: Draft)
    ensures SumOfAll(ds + [d]) == SumOfAll(ds).Plus(d.worker.counts) && SumOfAll(ds).Plus(ZERO) == SumOfAll(ds)
  {
    assert (ds + [d])[..|ds|] == ds;
  }

  /** The drafts of a worker's pool_summary carry what its rows report. */
  lemma {:induction false} SummaryCounts(worker: WorkerRow, rows: seq<SummaryRow>)
    ensures SumOfAll(SummaryDrafts(worker, rows)) == SumRows(rows)
    decreases |rows|
  {
    if rows != [] {
      var n := |rows| - 1;
      var rest := SummaryDrafts(worker, rows[..n]);
      SummaryCounts(worker, rows[..n]);
      RowDraft(worker, rows[n]);
      var d := SummaryDraft(worker, rows[n]);
      if d.Some? {
        SumOneMore(rest, d.value);
      } else {
        assert rest + [] == rest;
        assert SumRows(rows[..n]).Plus(ZERO) == SumRows(rows[..n]);
      }
    }
  }

  predicate InGroup(row: PackageRow, key: string) {
    IsSpecializedRow(row) && CoverageKey(Text(row.envType).value, Text(row.backendKind).value) == key
  }

  predicate IsReady(row: PackageRow) {
    Text(row.packageId).Some? && (Text(row.state).None? || Lower(Text(row.state).value) == "ready")
  }

  predicate IsWarming(row: PackageRow) {
    Text(row.packageId).Some? && Text(row.state).Some? && Lower(Text(row.state).value) == "warming"
  }

  function CountReady(rows: seq<PackageRow>, key: string): nat {
    if rows == [] then 0
    else CountReady(rows[..|rows|-1], key) + if InGroup(rows[|rows|-1], key) && IsReady(rows[|rows|-1]) then 1 else 0
  }

  function CountWarming(rows: seq<PackageRow>, key: string): nat {
    if rows == [] then 0
    else CountWarming(rows[..|rows|-1], key) + if InGroup(rows[|rows|-1], key) && IsWarming(rows[|rows|-1]) then 1 else 0
  }

  predicate IsFailed(row: PackageRow) {
    && Text(row.state).Some?
    && var low := Lower(Text(row.state).value); low != "ready" && low != "warming" && low != "active"
  }

  function CountFailed(rows: seq<PackageRow>, key: string): nat {
    if rows == [] then 0
    else CountFailed(rows[..|rows|-1], key) + if InGroup(rows[|rows|-1], key) && IsFailed(rows[|rows|-1]) then 1 else 0
  }

  /** The named packages of the rows under a key, merged in order. */
  function PackagesListed(rows: seq<PackageRow>, key: string): Packages {
    if rows == [] then map[]
    else
      var row := rows[|rows|-1];
      var rest := PackagesListed(rows[..|rows|-1], key);
      if InGroup(row, key) && Text(row.packageId).Some?
      then MergeOne(rest, Package(Text(row.packageId).value, Text(row.version), Text(row.state))) else rest
  }

  /** The group holds what the package rows under its key amount to. */
  predicate GroupCounted(g: Group, rows: seq<PackageRow>) {
    && g.ready == CountReady(rows, g.Key()) && g.warming == CountWarming(rows, g.Key())
    && g.failed == CountFailed(rows, g.Key()) && g.packages == PackagesListed(rows, g.Key())
  }

  lemma JoinedCounted(g: Group, rows: seq<PackageRow>)
    requires rows != [] && GroupCounted(g, rows[..|rows|-1]) && InGroup(rows[|rows|-1], g.Key())
    ensures GroupCounted(Joined(g, rows[|rows|-1]), rows)
  {
    KeyKept(g, rows[|rows|-1]);
    assert Lower("") == "";
  }

  lemma {:induction false} NoGroupYet(rows: seq<PackageRow>, key: string)
    requires IndexOf(Grouped(rows), key) == |Grouped(rows)|
    ensures CountReady(rows, key) == 0 && CountWarming(rows, key) == 0 && CountFailed(rows, key) == 0
    ensures PackagesListed(rows, key) == map[]
    decreases |rows|
  {
    if rows != [] {
      var n := |rows| - 1;
      GroupsGrow(Grouped(rows[..n]), rows[n], key);
      NoGroupYet(rows[..n], key);
    }
  }

  /** A key once grouped stays grouped, and a row's own key is grouped. */
  lemma GroupsGrow(groups: seq<Group>, row: PackageRow, key: string)
    requires IndexOf(AddRow(groups, row), key) == |AddRow(groups, row)|
    ensures IndexOf(groups, key) == |groups| && !InGroup(row, key)
  {
    if IsSpecializedRow(row) {
      var g := Group(Text(row.envType).value, Text(row.backendKind).value, map[], 0, 0, 0);
      var i := IndexOf(groups, g.Key());
      var after := AddRow(groups, row);
      if i < |groups| { KeyKept(groups[i], row); } else { KeyKept(g, row); }
      assert after[i].Key() == g.Key();
      assert forall j :: 0 <= j < |groups| ==> after[j].Key() == groups[j].Key();
    }
  }

  lemma {:induction false} GroupsCounted(rows: seq<PackageRow>, i: nat)
    requires i < |Grouped(rows)|
    ensures GroupCounted(Grouped(rows)[i], rows)
    decreases |rows|
  {
    if rows != [] {
      var n := |rows| - 1;
      var groups := Grouped(rows[..n]);
      if i < |groups| { GroupsCounted(rows[..n], i); }
      GroupedDistinct(rows[..n]);
      if IsSpecializedRow(rows[n]) {
        var g := Group(Text(rows[n].envType).value, Text(rows[n].backendKind).value, map[], 0, 0, 0);
        var k := IndexOf(groups, g.Key());
        if i == k {
          if k < |groups| {
            JoinedCounted(groups[k], rows);
          } else {
            NoGroupYet(rows[..n], g.Key());
            JoinedCounted(g, rows);
          }
        }
      }
    }
  }

  /** Exactly the groups that pool_summary did not cover contribute, each once and in order. */
  lemma {:induction false} FallbackIsUncovered(worker: WorkerRow, covered: set<string>, groups: seq<Group>, f: Draft)
    ensures f in FallbackDrafts(worker, covered, groups) <==>
            exists i :: 0 <= i < |groups| && groups[i].Key() !in covered && f == FallbackDraft(worker, groups[i])
    decreases |groups|
  {
    if groups != [] {
      var n := |groups| - 1;
      FallbackIsUncovered(worker, covered, groups[..n], f);
      if i :| 0 <= i < |groups| && groups[i].Key() !in covered && f == FallbackDraft(worker, groups[i]) {
        if i < n { assert groups[..n][i] == groups[i]; }
      }
    }
  }

  /** A worker row's (environment, backend) is counted from pool_summary or from the fallback, never from both. */
  lemma NeverBothSources(worker: WorkerRow, d: Draft, f: Draft)
    requires var summary := SummaryDrafts(worker, worker.poolSummary);
             d in summary && f in FallbackDrafts(worker, Covered(summary), Groups(worker))
    ensures !(d.id.envType == f.id.envType && d.id.backendKind == f.id.backendKind)
  {
    var summary := SummaryDrafts(worker, worker.poolSummary);
    FallbackIsUncovered(worker, Covered(summary), Groups(worker), f);
    assert DraftCoverage(d) in Covered(summary);
  }

  predicate DistinctGroups(groups: seq<Group>) {
    forall i, j :: 0 <= i < j < |groups| ==> groups[i].Key() != groups[j].Key()
  }

  lemma AddRowDistinct(groups: seq<Group>, row: PackageRow)
    requires DistinctGroups(groups)
    ensures DistinctGroups(AddRow(groups, row))
  {
    if IsSpecializedRow(row) {
      var g := Group(Text(row.envType).value, Text(row.backendKind).value, map[], 0, 0, 0);
      var i := IndexOf(groups, g.Key());
      if i < |groups| {
        KeyKept(groups[i], row);
        var groups' := groups[i := Joined(groups[i], row)];
        assert forall j :: 0 <= j < |groups| ==> groups'[j].Key() == groups[j].Key();
      } else {
        KeyKept(g, row);
      }
    }
  }

  lemma KeyKept(g: Group, row: PackageRow)
    ensures Joined(g, row).Key() == g.Key()
  {
  }

  lemma {:induction false} GroupedDistinct(rows: seq<PackageRow>)
    ensures DistinctGroups(Grouped(rows))
    decreases |rows|
  {
    if rows != [] {
      GroupedDistinct(rows[..|rows|-1]);
      AddRowDistinct(Grouped(rows[..|rows|-1]), rows[|rows|-1]);
    }
  }

  /** The fallback has one group per (environment, backend). */
  lemma GroupsDistinct(worker: WorkerRow)
    ensures DistinctGroups(Groups(worker))
  {
    GroupedDistinct(worker.packageStates);
  }

  // ---------------------------------------------------------------- the aggregation

  function Restrict(m: Packages, keys: set<string>): Packages { map k | k in m && k in keys :: m[k] }

  lemma MergedOneMore(left: Packages, right: Packages, done: set<string>, k: string)
    requires k in right && k !in done
    ensures var m := Merged(left, Restrict(right, done));
            && (k in m <==> k in left) && (k in m ==> m[k] == left[k])
            && Merged(left, Restrict(right, done + {k})) == m[k := if k in m then Over(m[k], right[k]) else right[k]]
  {
    var m := Merged(left, Restrict(right, done));
    var m' := Merged(left, Restrict(right, done + {k}));
    assert m'.Keys == m.Keys + {k};
    forall j | j in m' && j != k ensures m'[j] == m[j] {}
  }

  /**
   The loop of mergePackages over the entries of the second list; keys within a list are distinct, so their order
   is free.
   */
  method MergeLists(left: Packages, right: Packages) returns (m: Packages)
    ensures m == Merged(left, right)
  {
    m := left;
    var todo := right.Keys;
    MergedUnit(left);
    assert right.Keys - todo == {} && Restrict(right, {}) == map[];
    while todo != {}
      invariant todo <= right.Keys && m == Merged(left, Restrict(right, right.Keys - todo))
      decreases todo
    {
      var k :| k in todo;
      MergedOneMore(left, right, right.Keys - todo, k);
      assert right.Keys - (todo - {k}) == (right.Keys - todo) + {k};
      m := m[k := if k in m then Over(m[k], right[k]) else right[k]];
      todo := todo - {k};
    }
    assert right.Keys - todo == right.Keys && Restrict(right, right.Keys) == right;
  }

  class PoolTable {
    var pools: map<string, Pool>

    constructor ()
      ensures pools == map[]
    {
      pools := map[];
    }

    method Upsert(d: Draft)
      modifies this
      ensures pools == Upserted(old(pools), d)
    {
      if d.key !in pools {
        pools := pools[d.key := Pool(d.id, 1, d.worker.counts, d.failed, d.worker.packages, [d.worker])];
        return;
      }
      var current := pools[d.key];
      var workers, more := AddToEntries(current.workers, d.worker);
      var packages := MergeLists(current.packages, d.worker.packages);
      pools := pools[d.key := Pool(current.id, current.workerCount + more, current.counts.Plus(d.worker.counts),
                                   current.failed + d.failed, packages, workers)];
    }

    /** The worker's entry grows, or a new one is appended. */
    method AddToEntries(entries: seq<WorkerEntry>, w: WorkerEntry) returns (workers: seq<WorkerEntry>, more: nat)
      ensures workers == AddEntry(entries, w)
      ensures more == if EntryIndex(entries, w.workerId) < |entries| then 0 else 1
    {
      var i := 0;
      while i < |entries| && entries[i].workerId != w.workerId
        invariant 0 <= i <= |entries|
        invariant forall j :: 0 <= j < i ==> entries[j].workerId != w.workerId
      {
        i := i + 1;
      }
      FoundAt(entries, w.workerId, i);
      if i < |entries| {
        var packages := MergeLists(entries[i].packages, w.packages);
        workers, more := entries[i := WorkerEntry(entries[i].workerId, entries[i].counts.Plus(w.counts), packages)], 0;
      } else {
        workers, more := entries + [w], 1;
      }
    }
  }

  lemma {:induction false} FoundAt(ws: seq<WorkerEntry>, id: string, i: nat)
    requires i <= |ws| && (forall j :: 0 <= j < i ==> ws[j].workerId != id) && (i < |ws| ==> ws[i].workerId == id)
    ensures EntryIndex(ws, id) == i
  {
    var k := EntryIndex(ws, id);
    assert !(k < i) && !(i < k);
  }

  lemma FoldedOneMore(ds: seq<Draft>, d: Draft)
    ensures Folded(ds + [d]) == Upserted(Folded(ds), d)
  {
    assert (ds + [d])[..|ds|] == ds;
  }

  /** The pool_summary rows of one worker. */
  method AddSummary(table: PoolTable, worker: WorkerRow, ghost before: seq<Draft>) returns (covered: set<string>)
    requires table.pools == Folded(before)
    modifies table
    ensures table.pools == Folded(before + SummaryDrafts(worker, worker.poolSummary))
    ensures covered == Covered(SummaryDrafts(worker, worker.poolSummary))
  {
    covered := {};
    var rows := worker.poolSummary;
    ghost var summary: seq<Draft> := [];
    assert before + [] == before;
    for j := 0 to |rows|
      invariant summary == SummaryDrafts(worker, rows[..j])
      invariant covered == Covered(summary) && table.pools == Folded(before + summary)
    {
      assert rows[..j+1][..j] == rows[..j];
      var d := SummaryDraft(worker, rows[j]);
      if d.Some? {
        OneMoreDraft(before, summary, d.value);
        covered := covered + {DraftCoverage(d.value)};
        table.Upsert(d.value);
        summary := summary + [d.value];
      } else {
        assert summary + [] == summary;
      }
    }
    assert rows[..|rows|] == rows;
  }

  lemma OneMoreDraft(before: seq<Draft>, ds: seq<Draft>, d: Draft)
    ensures Folded(before + (ds + [d])) == Upserted(Folded(before + ds), d)
    ensures Covered(ds + [d]) == Covered(ds) + {DraftCoverage(d)}
  {
    FoldedOneMore(before + ds, d);
    assert before + ds + [d] == before + (ds + [d]);
    var ds' := ds + [d];
    assert ds'[|ds|] == d && forall i :: 0 <= i < |ds| ==> ds'[i] == ds[i];
  }

  /** All rows of one worker. */
  method AddWorker(table: PoolTable, worker: WorkerRow, ghost before: seq<Draft>)
    requires worker.workerId != "" && table.pools == Folded(before)
    modifies table
    ensures table.pools == Folded(before + WorkerDrafts(worker))
  {
    var covered := AddSummary(table, worker, before);
    ghost var summary := SummaryDrafts(worker, worker.poolSummary);
    AddFallbacks(table, worker, covered, before + summary);
    assert before + summary + FallbackDrafts(worker, covered, Groups(worker)) == before + WorkerDrafts(worker);
  }

  /** The specialized pools of one worker that its pool_summary does not cover. */
  method AddFallbacks(table: PoolTable, worker: WorkerRow, covered: set<string>, ghost before: seq<Draft>)
    requires table.pools == Folded(before)
    modifies table
    ensures table.pools == Folded(before + FallbackDrafts(worker, covered, Groups(worker)))
  {
    var groups := Groups(worker);
    ghost var added: seq<Draft> := [];
    assert before + [] == before;
    for j := 0 to |groups|
      invariant added == FallbackDrafts(worker, covered, groups[..j]) && table.pools == Folded(before + added)
    {
      assert groups[..j+1][..j] == groups[..j];
      if groups[j].Key() in covered {
        assert added + [] == added;
      } else {
        var d := FallbackDraft(worker, groups[j]);
        OneMoreDraft(before, added, d);
        table.Upsert(d);
        added := added + [d];
      }
    }
    assert groups[..|groups|] == groups;
  }

  method AggregateEnvironmentPools(workers: seq<WorkerRow>) returns (pools: map<string, Pool>)
    ensures pools == Folded(FleetDrafts(workers))
  {
    var table := new PoolTable();
    for i := 0 to |workers|
      invariant table.pools == Folded(FleetDrafts(workers[..i]))
    {
      assert workers[..i+1][..i] == workers[..i];
      if workers[i].workerId != "" {
        AddWorker(table, workers[i], FleetDrafts(workers[..i]));
      } else {
        assert FleetDrafts(workers[..i]) + [] == FleetDrafts(workers[..i]);
      }
    }
    assert workers[..|workers|] == workers;
    pools := table.pools;
  }

  /**
   Conservation, for every fleet payload: a pool exists exactly when some row contributes to it; its figures
   are the sums over its worker entries and over the contributing rows; it has one entry per contributing
   worker, holding that worker's rows; its runtime count obeys the formula; and the totals over all pools are
   the totals over all contributing rows.
   */
  lemma Conservation(workers: seq<WorkerRow>, key: string)
    ensures var ds := FleetDrafts(workers);
            var pools := Folded(ds);
            && (key in pools <==> Contributors(ds, key) != {})
            && (key in pools ==>
                  var p := pools[key];
                  && p.counts == SumEntries(p.workers) && p.counts == SumOfKey(ds, key) && p.packages == PackagesOfKey(ds, key)
                  && p.workerCount == |Contributors(ds, key)| && DistinctIds(p.workers) && Ids(p.workers) == Contributors(ds, key)
                  && (forall i :: 0 <= i < |p.workers| ==> p.workers[i].counts == SumOfWorker(ds, key, p.workers[i].workerId))
                  && p.counts.runtime == RuntimeInstanceCount(p.id.source, p.counts.ready, p.counts.busy, p.counts.warming))
            && TotalPools(pools) == SumOfAll(ds)
  {
    var ds := FleetDrafts(workers);
    FleetDraftsOk(workers);
    Traced(ds, key);
    FoldedTotal(ds);
    if key in Folded(ds) {
      IdsCount(Folded(ds)[key].workers);
    }
  }
}
