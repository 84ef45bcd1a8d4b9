/**
 What the dashboard's aggregation reads from single fields and rows, stated without its own helpers: trimmed texts,
 numbers, backends, keys, and the counts of a contribution.
 */
module EnvironmentPoolFields {
  import opened Options
  import opened EnvironmentPools

  // ---------------------------------------------------------------- fields

  lemma {:induction false} TrimLeftMeans(s: string) returns (before: string)
    ensures s == before + TrimLeft(s) && forall i :: 0 <= i < |before| ==> IsSpace(before[i])
    ensures TrimLeft(s) != [] ==> !IsSpace(TrimLeft(s)[0])
  {
    if s != [] && IsSpace(s[0]) {
      var rest := TrimLeftMeans(s[1..]);
      before := [s[0]] + rest;
    } else {
      before := [];
    }
  }

  lemma {:induction false} TrimRightMeans(s: string) returns (after: string)
    ensures s == TrimRight(s) + after && forall i :: 0 <= i < |after| ==> IsSpace(after[i])
    ensures TrimRight(s) != [] ==> !IsSpace(TrimRight(s)[|TrimRight(s)|-1])
  {
    if s != [] && IsSpace(s[|s|-1]) {
      var rest := TrimRightMeans(s[..|s|-1]);
      after := rest + [s[|s|-1]];
    } else {
      after := [];
    }
  }

  /** A text field is its string without the white space around it, when anything is left; other fields are none. */
  lemma TextMeans(raw: Raw) returns (before: string, after: string)
    ensures !raw.Str? ==> Text(raw) == None
    ensures raw.Str? ==>
              && (forall i :: 0 <= i < |before| ==> IsSpace(before[i])) && (forall i :: 0 <= i < |after| ==> IsSpace(after[i]))
              && match Text(raw)
                 case None => raw.s == before + after
                 case Some(t) => raw.s == before + t + after && t != "" && !IsSpace(t[0]) && !IsSpace(t[|t|-1])
  {
    before, after := [], [];
    if raw.Str? {
      before := TrimLeftMeans(raw.s);
      after := TrimRightMeans(TrimLeft(raw.s));
      if TrimRight(TrimLeft(raw.s)) != [] {
        assert TrimLeft(raw.s)[0] == TrimRight(TrimLeft(raw.s))[0];
      }
    }
  }

  /** White space: the controls from tab to carriage return, the space separators of Unicode, and the byte order mark. */
  lemma SpacesAre(c: char)
    ensures IsSpace(c) <==> c in {'\t', '\n', '\U{0B}', '\U{0C}', '\r', ' ', '\U{A0}', '\U{1680}', '\U{2000}', '\U{2001}',
                                  '\U{2002}', '\U{2003}', '\U{2004}', '\U{2005}', '\U{2006}', '\U{2007}', '\U{2008}',
                                  '\U{2009}', '\U{200A}', '\U{2028}', '\U{2029}', '\U{202F}', '\U{205F}', '\U{3000}', '\U{FEFF}'}
  {
  }

  /** A number, or a string that reads as one, counts when it is positive; everything else counts 0. */
  lemma CountMeans(raw: Raw)
    ensures raw.Num? ==> Count(raw) == if raw.n > 0.0 then raw.n else 0.0
    ensures raw.Str? && raw.number.Some? ==> Count(raw) == if raw.number.value > 0.0 then raw.number.value else 0.0
    ensures raw.Absent? || (raw.Str? && raw.number.None?) ==> Count(raw) == 0.0
  {
  }

  /** Lower-casing touches the 26 capitals and nothing else. */
  lemma LowerMeans(s: string, i: nat)
    requires i < |s|
    ensures |Lower(s)| == |s|
    ensures 'A' <= s[i] <= 'Z' ==> Lower(s)[i] as int == s[i] as int + 32
    ensures !('A' <= s[i] <= 'Z') ==> Lower(s)[i] == s[i]
  {
  }

  /** All named backends but the two generic ones keep a pool of their own. */
  lemma SpecializedBackends(backendKind: Option<string>)
    ensures IsSpecializedBackend(backendKind) <==>
            && backendKind.Some? && backendKind.value != ""
            && backendKind.value != "process_plugin" && backendKind.value != "generic_openenv_plugin"
  {
  }

  // ---------------------------------------------------------------- keys

  lemma SplitAtSeparator(a: string, b: string, a': string, b': string)
    requires SEPARATOR !in a && SEPARATOR !in a' && a + [SEPARATOR] + b == a' + [SEPARATOR] + b'
    ensures a == a' && b == b'
  {
    CoverageKeyInjective(a, b, a', b');
  }

  /** No field contains the separator of the keys. */
  predicate Plain(id: Identity) {
    && SEPARATOR !in id.envType && SEPARATOR !in OrEmpty(id.variant) && SEPARATOR !in OrEmpty(id.packageId)
    && SEPARATOR !in OrEmpty(id.packageVersion) && SEPARATOR !in OrEmpty(id.backendKind)
  }

  lemma KeyParts(id: Identity)
    ensures PoolKey(id) ==
            id.envType + [SEPARATOR] + (OrEmpty(id.variant) + [SEPARATOR] + (OrEmpty(id.packageId) + [SEPARATOR] +
            (OrEmpty(id.packageVersion) + [SEPARATOR] + (OrEmpty(id.backendKind) + [SEPARATOR] + SourceName(id.source)))))
  {
  }

  /** A pool's key names environment, variant, package, version, backend and source, unless a field contains the separator. */
  lemma PoolKeyInjective(a: Identity, b: Identity)
    requires Plain(a) && Plain(b) && PoolKey(a) == PoolKey(b)
    ensures a.envType == b.envType && OrEmpty(a.variant) == OrEmpty(b.variant)
    ensures OrEmpty(a.packageId) == OrEmpty(b.packageId) && OrEmpty(a.packageVersion) == OrEmpty(b.packageVersion)
    ensures OrEmpty(a.backendKind) == OrEmpty(b.backendKind) && a.source == b.source
  {
    KeyDeterminesSource(a, b);
    KeyParts(a);
    KeyParts(b);
    var x4, y4 := OrEmpty(a.backendKind) + [SEPARATOR] + SourceName(a.source), OrEmpty(b.backendKind) + [SEPARATOR] + SourceName(b.source);
    var x3, y3 := OrEmpty(a.packageVersion) + [SEPARATOR] + x4, OrEmpty(b.packageVersion) + [SEPARATOR] + y4;
    var x2, y2 := OrEmpty(a.packageId) + [SEPARATOR] + x3, OrEmpty(b.packageId) + [SEPARATOR] + y3;
    var x1, y1 := OrEmpty(a.variant) + [SEPARATOR] + x2, OrEmpty(b.variant) + [SEPARATOR] + y2;
    SplitAtSeparator(a.envType, x1, b.envType, y1);
    SplitAtSeparator(OrEmpty(a.variant), x2, OrEmpty(b.variant), y2);
    SplitAtSeparator(OrEmpty(a.packageId), x3, OrEmpty(b.packageId), y3);
    SplitAtSeparator(OrEmpty(a.packageVersion), x4, OrEmpty(b.packageVersion), y4);
    SplitAtSeparator(OrEmpty(a.backendKind), SourceName(a.source), OrEmpty(b.backendKind), SourceName(b.source));
  }

  lemma SourceNames()
    ensures SourceName(WarmupPool) == "warmup_pool" && SourceName(SpecializedPool) == "specialized_pool"
    ensures SEPARATOR as int == 31
  {
  }

  // ---------------------------------------------------------------- contributions

  /** A row of the pool summary with an environment contributes under its own fields; without one it does not. */
  lemma SummaryDraftMeans(worker: WorkerRow, row: SummaryRow)
    ensures SummaryDraft(worker, row).None? <==> Text(row.envType).None?
    ensures SummaryDraft(worker, row).Some? ==>
              var d := SummaryDraft(worker, row).value;
              var kind := Text(row.backendKind);
              var special := kind.Some? && kind.value != "process_plugin" && kind.value != "generic_openenv_plugin";
              && d.id == Identity(Text(row.envType).value, Text(row.variant), Text(row.packageId), Text(row.packageVersion), kind,
                                  if special then SpecializedPool else WarmupPool)
              && d.key == PoolKey(d.id) && d.failed == 0
              && d.worker.workerId == worker.workerId && d.worker.packages == map[]
              && d.worker.counts.ready == Count(row.ready) && d.worker.counts.busy == Count(row.busy)
              && d.worker.counts.warming == Count(row.warming) && d.worker.counts.capacity == Count(row.capacity)
              && d.worker.counts.runtime == Count(row.busy) + Count(row.warming) + (if special then 0.0 else Count(row.ready))
  {
  }

  /** What the generic rows of the pool summary report as busy, summed. */
  lemma ProcessPoolBusyMeans(rows: seq<SummaryRow>, row: SummaryRow)
    ensures ProcessPoolBusy(rows + [row]) == ProcessPoolBusy(rows) +
            (if Text(row.backendKind) in {None, Some("process_plugin"), Some("generic_openenv_plugin")} then Count(row.busy) else 0.0)
    ensures |rows| == 0 ==> ProcessPoolBusy(rows) == 0.0
  {
    assert (rows + [row])[..|rows|] == rows;
  }

  /**
   A specialized group contributes its ready and warming packages, the worker's load beyond what the generic pools
   report as busy, never below 0, and the worker's capacity; only busy and warming instances are running ones.
   */
  lemma FallbackDraftMeans(worker: WorkerRow, g: Group)
    ensures var d := FallbackDraft(worker, g);
            var beyond := Count(worker.load) - ProcessPoolBusy(worker.poolSummary);
            && d.id == Identity(g.envType, None, None, None, Some(g.backendKind), SpecializedPool) && d.key == PoolKey(d.id)
            && d.failed == g.failed && d.worker.workerId == worker.workerId && d.worker.packages == g.packages
            && d.worker.counts.ready == g.ready as real && d.worker.counts.warming == g.warming as real
            && (beyond >= 0.0 ==> d.worker.counts.busy == beyond) && (beyond < 0.0 ==> d.worker.counts.busy == 0.0)
            && d.worker.counts.capacity == Count(worker.capacity)
            && d.worker.counts.runtime == d.worker.counts.busy + d.worker.counts.warming
  {
  }

  /** A worker that advertises SWE has that pool, with nothing in it unless its packages say otherwise. */
  lemma AdvertisedSwe(worker: WorkerRow)
    ensures var advertised := "swe" in worker.supportedEnvTypes || "swe_instance_pool" in worker.backendKinds;
            var listed := exists i :: 0 <= i < |Grouped(worker.packageStates)| &&
                                      Grouped(worker.packageStates)[i].Key() == CoverageKey("swe", "swe_instance_pool");
            Groups(worker) == Grouped(worker.packageStates) +
            (if advertised && !listed then [Group("swe", "swe_instance_pool", map[], 0, 0, 0)] else [])
  {
    var groups := Grouped(worker.packageStates);
    assert groups + [] == groups;
  }

  /** A worker without an id contributes nothing; the others their summary first, then what it does not cover. */
  lemma WorkerDraftsMean(worker: WorkerRow)
    ensures worker.workerId == "" ==> WorkerDrafts(worker) == []
    ensures worker.workerId != "" ==>
              var summary := SummaryDrafts(worker, worker.poolSummary);
              && summary <= WorkerDrafts(worker)
              && forall d :: d in WorkerDrafts(worker)[|summary|..] ==> d.id.source == SpecializedPool
  {
    if worker.workerId != "" {
      var summary := SummaryDrafts(worker, worker.poolSummary);
      AllSpecialized(worker, Covered(summary), Groups(worker));
    }
  }

  lemma {:induction false} AllSpecialized(worker: WorkerRow, covered: set<string>, groups: seq<Group>)
    ensures forall d :: d in FallbackDrafts(worker, covered, groups) ==> d.id.source == SpecializedPool
    decreases |groups|
  {
    if groups != [] { AllSpecialized(worker, covered, groups[..|groups|-1]); }
  }

  // ---------------------------------------------------------------- packages

  /** A package mentioned again keeps what the later mention does not say. */
  lemma MentionedAgain(m: Packages, item: Package)
    ensures var key := item.packageId + "@" + (if item.version.Some? then item.version.value else "");
            var m' := MergeOne(m, item);
            && m'.Keys == m.Keys + {key} && (forall k :: k in m && k != key ==> m'[k] == m[k])
            && m'[key].packageId == item.packageId
            && m'[key].version == (if item.version.Some? || key !in m then item.version else m[key].version)
            && m'[key].state == (if item.state.Some? || key !in m then item.state else m[key].state)
  {
  }

  /** Two lists merged: a package of both keeps what the right one does not say. */
  lemma ListsMerged(left: Packages, right: Packages, k: string)
    ensures k in Merged(left, right) <==> k in left || k in right
    ensures k in left && k !in right ==> Merged(left, right)[k] == left[k]
    ensures k in right && k !in left ==> Merged(left, right)[k] == right[k]
    ensures k in left && k in right ==>
              && Merged(left, right)[k].packageId == right[k].packageId
              && Merged(left, right)[k].version == (if right[k].version.Some? then right[k].version else left[k].version)
              && Merged(left, right)[k].state == (if right[k].state.Some? then right[k].state else left[k].state)
  {
  }
}
