/**
 The dashboard's aggregation of a fleet payload into environment pools.

 Payload fields are untyped: `Raw` is what a field can hold, with `number` the value JavaScript's Number gives
 a string (None for NaN).  Amounts are reals.  The order in which the pools are finally listed is not modelled.
 */
module EnvironmentPools {
  import opened Options

  datatype Raw = Absent | Str(s: string, number: Option<real>) | Num(n: real)

  datatype Source = WarmupPool | SpecializedPool

  datatype SummaryRow = SummaryRow(
    envType: Raw, variant: Raw, packageId: Raw, packageVersion: Raw, backendKind: Raw,
    ready: Raw, busy: Raw, warming: Raw, capacity: Raw)

  datatype PackageRow = PackageRow(packageId: Raw, version: Raw, state: Raw, envType: Raw, backendKind: Raw)

  datatype WorkerRow = WorkerRow(
    workerId: string, load: Raw, capacity: Raw, poolSummary: seq<SummaryRow>, packageStates: seq<PackageRow>,
    supportedEnvTypes: set<string>, backendKinds: set<string>)

  datatype Counts = Counts(ready: real, busy: real, warming: real, capacity: real, runtime: real) {
    function Plus(c: Counts): Counts {
      Counts(ready + c.ready, busy + c.busy, warming + c.warming, capacity + c.capacity, runtime + c.runtime)
    }
  }

  const ZERO := Counts(0.0, 0.0, 0.0, 0.0, 0.0)

  /** What distinguishes one pool from another. */
  datatype Identity = Identity(
    envType: string, variant: Option<string>, packageId: Option<string>, packageVersion: Option<string>,
    backendKind: Option<string>, source: Source)

  datatype Package = Package(packageId: string, version: Option<string>, state: Option<string>) {
    function Key(): string { packageId + "@" + OrEmpty(version) }
  }

  /** A merged package list: one package per key.  The list is kept sorted by key, so the map determines it. */
  type Packages = map<string, Package>

  datatype WorkerEntry = WorkerEntry(workerId: string, counts: Counts, packages: Packages) {
    function Plus(w: WorkerEntry): WorkerEntry { WorkerEntry(workerId, counts.Plus(w.counts), Merged(packages, w.packages)) }
  }

  datatype Pool = Pool(id: Identity, workerCount: nat, counts: Counts, failed: nat, packages: Packages, workers: seq<WorkerEntry>)

  /** One contribution of one worker row to one pool. */
  datatype Draft = Draft(key: string, id: Identity, failed: nat, worker: WorkerEntry)

  // ---------------------------------------------------------------- reading a field

  /** The characters that JavaScript's trim removes: white space and line terminators. */
  predicate IsSpace(c: char) {
    || '\t' <= c <= '\r' || c == ' ' || c == '\U{A0}' || c == '\U{1680}' || '\U{2000}' <= c <= '\U{200A}'
    || c == '\U{2028}' || c == '\U{2029}' || c == '\U{202F}' || c == '\U{205F}' || c == '\U{3000}' || c == '\U{FEFF}'
  }

  function TrimLeft(s: string): string { if s != [] && IsSpace(s[0]) then TrimLeft(s[1..]) else s }

  function TrimRight(s: string): string { if s != [] && IsSpace(s[|s|-1]) then TrimRight(s[..|s|-1]) else s }

  function Text(raw: Raw): (r: Option<string>)
    ensures r.Some? ==> r.value != ""
  {
    if raw.Str? then
      var t := TrimRight(TrimLeft(raw.s));
      if t == "" then None else Some(t)
    else None
  }

  function Count(raw: Raw): (r: real)
    ensures r >= 0.0
  {
    match raw
    case Absent => 0.0
    case Str(_, number) => if number.Some? && number.value > 0.0 then number.value else 0.0
    case Num(n) => if n > 0.0 then n else 0.0
  }

  function LowerChar(c: char): char { if 'A' <= c <= 'Z' then c + 32 as char else c }

  function Lower(s: string): string { seq(|s|, i requires 0 <= i < |s| => LowerChar(s[i])) }

  // ---------------------------------------------------------------- keys

  const SEPARATOR: char := '\U{1F}'

  function OrEmpty(o: Option<string>): string { if o.Some? then o.value else "" }

  function SourceName(source: Source): string { if source == WarmupPool then "warmup_pool" else "specialized_pool" }

  function KeyPrefix(id: Identity): string {
    id.envType + [SEPARATOR] + OrEmpty(id.variant) + [SEPARATOR] + OrEmpty(id.packageId) + [SEPARATOR]
    + OrEmpty(id.packageVersion) + [SEPARATOR] + OrEmpty(id.backendKind) + [SEPARATOR]
  }

  function PoolKey(id: Identity): string { KeyPrefix(id) + SourceName(id.source) }

  function CoverageKey(envType: string, backendKind: string): string { envType + [SEPARATOR] + backendKind }

  /** Whatever the fields contain, pools of different sources have different keys. */
  lemma KeyDeterminesSource(a: Identity, b: Identity)
    requires PoolKey(a) == PoolKey(b)
    ensures a.source == b.source
  {
    CharBeforeSuffix(KeyPrefix(a), a.source);
    CharBeforeSuffix(KeyPrefix(b), b.source);
  }

  lemma CharBeforeSuffix(prefix: string, source: Source)
    ensures var k := prefix + SourceName(source);
            |k| >= 6 && k[|k| - 6] == (if source == WarmupPool then 'p' else 'd')
  {
    var k := prefix + SourceName(source);
    assert |SourceName(source)| == (if source == WarmupPool then 11 else 16);
    assert k[|k| - 6] == SourceName(source)[|SourceName(source)| - 6];
  }

  /** Coverage keys name their pair, unless a field contains the separator. */
  lemma CoverageKeyInjective(e: string, b: string, e': string, b': string)
    requires SEPARATOR !in e && SEPARATOR !in e' && CoverageKey(e, b) == CoverageKey(e', b')
    ensures e == e' && b == b'
  {
    var k := CoverageKey(e, b);
    assert k[|e|] == SEPARATOR && CoverageKey(e', b')[|e'|] == SEPARATOR;
    assert forall i :: 0 <= i < |e| ==> k[i] == e[i] != SEPARATOR;
    assert forall i :: 0 <= i < |e'| ==> CoverageKey(e', b')[i] == e'[i] != SEPARATOR;
    assert |e| == |e'|;
    assert e == k[..|e|] && e' == k[..|e|] && b == k[|e|+1..] && b' == k[|e|+1..];
  }

  predicate IsSpecializedBackend(backendKind: Option<string>) {
    && backendKind.Some? && backendKind.value != ""
    && (backendKind.value == "swe_instance_pool"
        || (backendKind.value != "process_plugin" && backendKind.value != "generic_openenv_plugin"))
  }

  /** Environment instances: a specialized pool's ready counts packages, not instances. */
  function RuntimeInstanceCount(source: Source, ready: real, busy: real, warming: real): real {
    if source == SpecializedPool then busy + warming else ready + busy + warming
  }

  function EntryCounts(source: Source, ready: real, busy: real, warming: real, capacity: real): Counts {
    Counts(ready, busy, warming, capacity, RuntimeInstanceCount(source, ready, busy, warming))
  }

  // ---------------------------------------------------------------- package lists

  function Either(a: Option<string>, b: Option<string>): Option<string> { if a.Some? then a else b }

  /** A later mention of a package wins where it says something. */
  function Over(prev: Package, item: Package): Package {
    Package(item.packageId, Either(item.version, prev.version), Either(item.state, prev.state))
  }

  function MergeOne(m: Packages, item: Package): Packages {
    m[item.Key() := if item.Key() in m then Over(m[item.Key()], item) else item]
  }

  function MergeAll(m: Packages, items: seq<Package>): Packages {
    if items == [] then m else MergeOne(MergeAll(m, items[..|items|-1]), items[|items|-1])
  }

  /** Merging one merged list into another. */
  function Merged(left: Packages, right: Packages): Packages {
    map k | k in left.Keys + right.Keys ::
      if k !in right then left[k] else if k !in left then right[k] else Over(left[k], right[k])
  }

  // ---------------------------------------------------------------- one worker row's contributions

  /** The contribution of a pool_summary row; None when it names no environment. */
  function SummaryDraft(worker: WorkerRow, row: SummaryRow): Option<Draft> {
    var envType := Text(row.envType);
    if envType.None? then None
    else
      var backendKind := Text(row.backendKind);
      var source := if IsSpecializedBackend(backendKind) then SpecializedPool else WarmupPool;
      var id := Identity(envType.value, Text(row.variant), Text(row.packageId), Text(row.packageVersion), backendKind, source);
      Some(Draft(PoolKey(id), id, 0,
                 WorkerEntry(worker.workerId,
                             EntryCounts(source, Count(row.ready), Count(row.busy), Count(row.warming), Count(row.capacity)),
                             map[])))
  }

  function SummaryDrafts(worker: WorkerRow, rows: seq<SummaryRow>): seq<Draft> {
    if rows == [] then []
    else
      var d := SummaryDraft(worker, rows[|rows|-1]);
      SummaryDrafts(worker, rows[..|rows|-1]) + (if d.Some? then [d.value] else [])
  }

  function DraftCoverage(d: Draft): string { CoverageKey(d.id.envType, OrEmpty(d.id.backendKind)) }

  function Covered(drafts: seq<Draft>): set<string> { set i | 0 <= i < |drafts| :: DraftCoverage(drafts[i]) }

  /** The packages of one specialized backend: how many are ready and warming, and how many have failed. */
  datatype Group = Group(envType: string, backendKind: string, packages: Packages, ready: nat, warming: nat, failed: nat) {
    function Key(): string { CoverageKey(envType, backendKind) }
  }

  predicate IsSpecializedRow(row: PackageRow) {
    Text(row.envType).Some? && Text(row.backendKind).Some? && IsSpecializedBackend(Text(row.backendKind))
  }

  /** A package row joins its group. */
  function Joined(g: Group, row: PackageRow): Group {
    var state := Text(row.state);
    var named := Text(row.packageId).Some?;
    var low := if state.Some? then Lower(state.value) else "";
    g.(packages := if named then MergeOne(g.packages, Package(Text(row.packageId).value, Text(row.version), state)) else g.packages,
       ready := g.ready + (if named && (state.None? || low == "ready") then 1 else 0),
       warming := g.warming + (if named && low == "warming" then 1 else 0),
       failed := g.failed + (if state.Some? && low != "ready" && low != "warming" && low != "active" then 1 else 0))
  }

  function IndexOf(groups: seq<Group>, key: string): (i: nat)
    ensures i <= |groups| && (i < |groups| ==> groups[i].Key() == key)
    ensures forall j :: 0 <= j < i ==> groups[j].Key() != key
  {
    if groups == [] then 0
    else if groups[0].Key() == key then 0
    else 1 + IndexOf(groups[1..], key)
  }

  function AddRow(groups: seq<Group>, row: PackageRow): seq<Group> {
    if !IsSpecializedRow(row) then groups
    else
      var empty := Group(Text(row.envType).value, Text(row.backendKind).value, map[], 0, 0, 0);
      var i := IndexOf(groups, empty.Key());
      if i < |groups| then groups[i := Joined(groups[i], row)] else groups + [Joined(empty, row)]
  }

  function Grouped(rows: seq<PackageRow>): seq<Group> {
    if rows == [] then [] else AddRow(Grouped(rows[..|rows|-1]), rows[|rows|-1])
  }

  const SWE := Group("swe", "swe_instance_pool", map[], 0, 0, 0)

  /** A worker that advertises SWE without any package still has that pool. */
  function Groups(worker: WorkerRow): seq<Group> {
    var groups := Grouped(worker.packageStates);
    if (SWE.envType in worker.supportedEnvTypes || SWE.backendKind in worker.backendKinds) && IndexOf(groups, SWE.Key()) == |groups|
    then groups + [SWE] else groups
  }

  function ProcessPoolBusy(rows: seq<SummaryRow>): real {
    if rows == [] then 0.0
    else ProcessPoolBusy(rows[..|rows|-1])
         + (if IsSpecializedBackend(Text(rows[|rows|-1].backendKind)) then 0.0 else Count(rows[|rows|-1].busy))
  }

  function SharedBusy(worker: WorkerRow): real {
    var busy := Count(worker.load) - ProcessPoolBusy(worker.poolSummary);
    if busy > 0.0 then busy else 0.0
  }

  function FallbackDraft(worker: WorkerRow, g: Group): Draft {
    var id := Identity(g.envType, None, None, None, Some(g.backendKind), SpecializedPool);
    Draft(PoolKey(id), id, g.failed,
          WorkerEntry(worker.workerId,
                      EntryCounts(SpecializedPool, g.ready as real, SharedBusy(worker), g.warming as real, Count(worker.capacity)),
                      g.packages))
  }

  function FallbackDrafts(worker: WorkerRow, covered: set<string>, groups: seq<Group>): seq<Draft> {
    if groups == [] then []
    else
      var g := groups[|groups|-1];
      FallbackDrafts(worker, covered, groups[..|groups|-1]) + (if g.Key() in covered then [] else [FallbackDraft(worker, g)])
  }

  /** Everything a worker row contributes. */
  function WorkerDrafts(worker: WorkerRow): seq<Draft> {
    if worker.workerId == "" then []
    else
      var summary := SummaryDrafts(worker, worker.poolSummary);
      summary + FallbackDrafts(worker, Covered(summary), Groups(worker))
  }

  function FleetDrafts(workers: seq<WorkerRow>): seq<Draft> {
    if workers == [] then [] else FleetDrafts(workers[..|workers|-1]) + WorkerDrafts(workers[|workers|-1])
  }

  // ---------------------------------------------------------------- upsert

  /** Where the worker's entry is, or the end. */
  function EntryIndex(workers: seq<WorkerEntry>, id: string): (i: nat)
    ensures i <= |workers| && (i < |workers| ==> workers[i].workerId == id)
    ensures forall j :: 0 <= j < i ==> workers[j].workerId != id
  {
    if workers == [] then 0 else if workers[0].workerId == id then 0 else 1 + EntryIndex(workers[1..], id)
  }

  function AddEntry(workers: seq<WorkerEntry>, w: WorkerEntry): seq<WorkerEntry> {
    var i := EntryIndex(workers, w.workerId);
    if i < |workers| then workers[i := workers[i].Plus(w)] else workers + [w]
  }

  function UpsertOne(current: Option<Pool>, d: Draft): Pool {
    match current
    case None => Pool(d.id, 1, d.worker.counts, d.failed, d.worker.packages, [d.worker])
    case Some(p) =>
      var more := if EntryIndex(p.workers, d.worker.workerId) < |p.workers| then 0 else 1;
      Pool(p.id, p.workerCount + more, p.counts.Plus(d.worker.counts), p.failed + d.failed,
           Merged(p.packages, d.worker.packages), AddEntry(p.workers, d.worker))
  }

  function Get(pools: map<string, Pool>, key: string): Option<Pool> { if key in pools then Some(pools[key]) else None }

  function Upserted(pools: map<string, Pool>, d: Draft): map<string, Pool> {
    pools[d.key := UpsertOne(Get(pools, d.key), d)]
  }

  function Folded(drafts: seq<Draft>): map<string, Pool> {
    if drafts == [] then map[] else Upserted(Folded(drafts[..|drafts|-1]), drafts[|drafts|-1])
  }
}
