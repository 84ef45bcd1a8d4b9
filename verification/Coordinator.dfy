/**
 Single flight: concurrent submissions of one episode attach to one execution.

 The first part is the coordinator object, whose entries are heap cells compared by identity.  The second
 part is the protocol around it, as a state machine: callers that get or insert an entry and wait on it, and
 the task that the owner of an entry starts.  Entries are numbered there by generation.
 */
module Coordinator {
  import opened Options

  type EpisodeId = string
  type Checksum = string

  /** What an execution ends with: a result, or the text of an error. */
  datatype Terminal = Success(result: nat) | Failure(message: string)

  // ---------------------------------------------------------------- the object

  class Entry {
    const checksum: Checksum
    var cell: Option<Terminal>

    constructor (checksum: Checksum)
      ensures this.checksum == checksum && cell == None
    {
      this.checksum, cell := checksum, None;
    }

    method Finish(terminal: Terminal)
      modifies this`cell
      ensures cell == Some(terminal)
    {
      cell := Some(terminal);
    }

    /** What a waiter sees: the terminal once there is one, whenever it subscribed. */
    method Peek() returns (seen: Option<Terminal>)
      ensures seen == cell
    {
      seen := cell;
    }
  }

  datatype Grant = Conflict | Granted(entry: Entry, owner: bool)

  class EpisodeCoordinator {
    var entries: map<EpisodeId, Entry>

    constructor ()
      ensures entries == map[]
    {
      entries := map[];
    }

    /** The caller owns the execution exactly when the entry is its own insertion. */
    method GetOrInsert(id: EpisodeId, checksum: Checksum) returns (g: Grant)
      modifies this`entries
      ensures g.Conflict? <==> id in old(entries) && old(entries)[id].checksum != checksum
      ensures g.Conflict? ==> entries == old(entries)
      ensures g.Granted? ==> id in entries && entries[id] == g.entry && g.entry.checksum == checksum
      ensures g.Granted? && !g.owner ==> entries == old(entries)
      ensures g.Granted? && g.owner ==>
                id !in old(entries) && fresh(g.entry) && g.entry.cell == None && entries == old(entries)[id := g.entry]
    {
      if id in entries {
        var entry := entries[id];
        if entry.checksum != checksum {
          return Conflict;
        }
        return Granted(entry, false);
      }
      var entry := new Entry(checksum);
      entries := entries[id := entry];
      return Granted(entry, true);
    }

    /** Only the very entry is removed; one that another call inserted under the same id stays. */
    method RemoveIfSame(id: EpisodeId, entry: Entry)
      modifies this`entries
      ensures id in old(entries) && old(entries)[id] == entry ==> entries == old(entries) - {id}
      ensures id !in old(entries) || old(entries)[id] != entry ==> entries == old(entries)
    {
      if id in entries && entries[id] == entry {
        entries := entries - {id};
      }
    }
  }

  /** Two submissions of one episode, the finish of the first and a third submission, on the object itself. */
  method AttachedCallersShareTheTerminal(c: EpisodeCoordinator, id: EpisodeId, checksum: Checksum, t: Terminal)
    returns (first: Option<Terminal>, late: Option<Terminal>)
    requires id !in c.entries
    modifies c
    ensures first == Some(t) && late == Some(t) && c.entries == old(c.entries)
  {
    var own := c.GetOrInsert(id, checksum);
    var attached := c.GetOrInsert(id, checksum);
    own.entry.Finish(t);
    var afterwards := c.GetOrInsert(id, checksum);
    first := attached.entry.Peek();
    late := afterwards.entry.Peek();
    c.RemoveIfSame(id, own.entry);
  }

  // ---------------------------------------------------------------- the protocol

  type Caller = nat

  datatype Task = Running | Finished | Ended

  /** An entry, and the task its owner started; `Ended` once the task has removed the entry. */
  datatype Generation = Generation(episode: EpisodeId, checksum: Checksum, owner: Caller, task: Task, cell: Option<Terminal>)

  datatype Call = Waiting(checksum: Checksum, gen: nat) | Answered(checksum: Checksum, gen: nat, terminal: Terminal) | Refused

  datatype State = State(entries: map<EpisodeId, nat>, gens: seq<Generation>, calls: map<Caller, Call>)

  datatype Event =
    | Submit(c: Caller, id: EpisodeId, checksum: Checksum)
    | Execute(g: nat, terminal: Terminal)
    | Retire(g: nat)
    | Receive(c: Caller)

  predicate Enabled(s: State, e: Event) {
    match e
    case Submit(c, id, checksum) => c !in s.calls
    case Execute(g, t) => g < |s.gens| && s.gens[g].task == Running
    case Retire(g) => g < |s.gens| && s.gens[g].task == Finished
    case Receive(c) => c in s.calls && s.calls[c].Waiting? && s.calls[c].gen < |s.gens| && s.gens[s.calls[c].gen].cell.Some?
  }

  /** get_or_insert, as the object does it. */
  function Submitted(s: State, c: Caller, id: EpisodeId, checksum: Checksum): State {
    if id in s.entries && s.entries[id] < |s.gens| then
      if s.gens[s.entries[id]].checksum != checksum then s.(calls := s.calls[c := Refused])
      else s.(calls := s.calls[c := Waiting(checksum, s.entries[id])])
    else
      s.(entries := s.entries[id := |s.gens|], gens := s.gens + [Generation(id, checksum, c, Running, None)],
         calls := s.calls[c := Waiting(checksum, |s.gens|)])
  }

  /** remove_if_same, as the object does it. */
  function RemovedIfSame(entries: map<EpisodeId, nat>, id: EpisodeId, g: nat): map<EpisodeId, nat> {
    if id in entries && entries[id] == g then entries - {id} else entries
  }

  function Apply(s: State, e: Event): State
    requires Enabled(s, e)
  {
    match e
    case Submit(c, id, checksum) => Submitted(s, c, id, checksum)
    case Execute(g, t) => s.(gens := s.gens[g := s.gens[g].(task := Finished, cell := Some(t))])
    case Retire(g) =>
      s.(entries := RemovedIfSame(s.entries, s.gens[g].episode, g), gens := s.gens[g := s.gens[g].(task := Ended)])
    case Receive(c) =>
      var call := s.calls[c];
      s.(calls := s.calls[c := Answered(call.checksum, call.gen, s.gens[call.gen].cell.value)])
  }

  predicate Runs(s: State, es: seq<Event>)
    decreases |es|
  {
    es == [] || (Enabled(s, es[0]) && Runs(Apply(s, es[0]), es[1..]))
  }

  function After(s: State, es: seq<Event>): State
    requires Runs(s, es)
    decreases |es|
  {
    if es == [] then s else After(Apply(s, es[0]), es[1..])
  }

  function Start(): State { State(map[], [], map[]) }

  // ---------------------------------------------------------------- invariant

  ghost predicate EntriesOk(s: State) {
    && (forall id :: id in s.entries ==>
                       s.entries[id] < |s.gens| && s.gens[s.entries[id]].episode == id && s.gens[s.entries[id]].task != Ended)
    && (forall g :: 0 <= g < |s.gens| && s.gens[g].task != Ended ==>
                      s.gens[g].episode in s.entries && s.entries[s.gens[g].episode] == g)
  }

  ghost predicate CallOk(s: State, call: Call) {
    !call.Refused? ==>
      && call.gen < |s.gens| && s.gens[call.gen].checksum == call.checksum
      && (call.Answered? ==> s.gens[call.gen].cell == Some(call.terminal))
  }

  ghost predicate StateOk(s: State) {
    && EntriesOk(s)
    && (forall g :: 0 <= g < |s.gens| ==> (s.gens[g].cell.None? <==> s.gens[g].task == Running))
    && (forall g :: 0 <= g < |s.gens| ==>
                      && s.gens[g].owner in s.calls
                      && !s.calls[s.gens[g].owner].Refused? && s.calls[s.gens[g].owner].gen == g)
    && (forall c :: c in s.calls ==> CallOk(s, s.calls[c]))
  }

  lemma SubmitKeeps(s: State, c: Caller, id: EpisodeId, checksum: Checksum)
    requires StateOk(s) && c !in s.calls
    ensures StateOk(Submitted(s, c, id, checksum))
  {
    var s' := Submitted(s, c, id, checksum);
    assert id in s.entries ==> s.entries[id] < |s.gens|;
    forall d | d in s'.calls ensures CallOk(s', s'.calls[d]) {
      if d in s.calls { assert CallOk(s, s.calls[d]); }
    }
  }

  lemma ExecuteKeeps(s: State, g: nat, t: Terminal)
    requires StateOk(s) && Enabled(s, Execute(g, t))
    ensures StateOk(Apply(s, Execute(g, t)))
  {
    var s' := Apply(s, Execute(g, t));
    forall d | d in s'.calls ensures CallOk(s', s'.calls[d]) { assert CallOk(s, s.calls[d]); }
  }

  lemma RetireKeeps(s: State, g: nat)
    requires StateOk(s) && Enabled(s, Retire(g))
    ensures StateOk(Apply(s, Retire(g)))
  {
    var s' := Apply(s, Retire(g));
    assert s'.entries == s.entries - {s.gens[g].episode};
    forall d | d in s'.calls ensures CallOk(s', s'.calls[d]) { assert CallOk(s, s.calls[d]); }
  }

  lemma ReceiveKeeps(s: State, c: Caller)
    requires StateOk(s) && Enabled(s, Receive(c))
    ensures StateOk(Apply(s, Receive(c)))
  {
    var s' := Apply(s, Receive(c));
    forall d | d in s'.calls ensures CallOk(s', s'.calls[d]) { assert CallOk(s, s.calls[d]); }
  }

  lemma StateStep(s: State, e: Event)
    requires StateOk(s) && Enabled(s, e)
    ensures StateOk(Apply(s, e))
  {
    match e
    case Submit(c, id, checksum) => SubmitKeeps(s, c, id, checksum);
    case Execute(g, t) => ExecuteKeeps(s, g, t);
    case Retire(g) => RetireKeeps(s, g);
    case Receive(c) => ReceiveKeeps(s, c);
  }

  lemma {:induction false} StateAlways(s: State, es: seq<Event>)
    requires StateOk(s) && Runs(s, es)
    ensures StateOk(After(s, es))
    decreases |es|
  {
    if es != [] {
      StateStep(s, es[0]);
      StateAlways(Apply(s, es[0]), es[1..]);
    }
  }

  /** What later steps cannot change about a generation. */
  ghost predicate Keeps(s: State, s': State) {
    && |s.gens| <= |s'.gens|
    && (forall g :: 0 <= g < |s.gens| ==>
                      && s'.gens[g].episode == s.gens[g].episode && s'.gens[g].checksum == s.gens[g].checksum
                      && s'.gens[g].owner == s.gens[g].owner
                      && (s.gens[g].cell.Some? ==> s'.gens[g].cell == s.gens[g].cell)
                      && (s.gens[g].task == Ended ==> s'.gens[g].task == Ended))
  }

  lemma {:induction false} KeepsOverRuns(s: State, es: seq<Event>)
    requires StateOk(s) && Runs(s, es)
    ensures Keeps(s, After(s, es))
    decreases |es|
  {
    if es != [] {
      StateStep(s, es[0]);
      KeepsOverRuns(Apply(s, es[0]), es[1..]);
      KeepsStep(s, es[0]);
      KeepsOn(s, Apply(s, es[0]), After(s, es));
    }
  }

  lemma KeepsStep(s: State, e: Event)
    requires StateOk(s) && Enabled(s, e)
    ensures Keeps(s, Apply(s, e))
  {
  }

  lemma KeepsOn(s: State, s': State, s'': State)
    requires Keeps(s, s') && Keeps(s', s'')
    ensures Keeps(s, s'')
  {
  }

  // ---------------------------------------------------------------- main results

  /** At no moment of any run do two executions of one episode run at once. */
  lemma SingleFlight(es: seq<Event>, g: nat, g': nat)
    requires Runs(Start(), es)
    requires var s := After(Start(), es);
             && g < |s.gens| && g' < |s.gens| && s.gens[g].episode == s.gens[g'].episode
             && s.gens[g].task != Ended && s.gens[g'].task != Ended
    ensures g == g'
  {
    StateAlways(Start(), es);
  }

  /** A generation has one owner, and no caller owns two generations. */
  lemma OneOwnerPerGeneration(es: seq<Event>, g: nat, g': nat)
    requires Runs(Start(), es)
    requires var s := After(Start(), es); g < |s.gens| && g' < |s.gens| && s.gens[g].owner == s.gens[g'].owner
    ensures g == g'
  {
    StateAlways(Start(), es);
  }

  /** All callers answered from one generation got its single terminal, and had its checksum. */
  lemma SharedTerminal(es: seq<Event>, c: Caller, c': Caller)
    requires Runs(Start(), es)
    requires var s := After(Start(), es);
             c in s.calls && c' in s.calls && s.calls[c].Answered? && s.calls[c'].Answered? && s.calls[c].gen == s.calls[c'].gen
    ensures var s := After(Start(), es);
            s.calls[c].terminal == s.calls[c'].terminal && s.calls[c].checksum == s.calls[c'].checksum
  {
    StateAlways(Start(), es);
    var s := After(Start(), es);
    assert CallOk(s, s.calls[c]) && CallOk(s, s.calls[c']);
  }

  /**
   A terminal, once there, is what every caller attached to that generation receives, at any later moment:
   also callers that attach after the finish, and callers that read it after the entry was removed.
   */
  lemma TerminalReachesEveryCaller(s: State, es: seq<Event>, c: Caller, g: nat)
    requires StateOk(s) && Runs(s, es) && g < |s.gens| && s.gens[g].cell.Some?
    requires var s' := After(s, es); c in s'.calls && s'.calls[c].Waiting? && s'.calls[c].gen == g
    ensures var s' := After(s, es);
            && Enabled(s', Receive(c))
            && Apply(s', Receive(c)).calls[c] == Answered(s.gens[g].checksum, g, s.gens[g].cell.value)
  {
    KeepsOverRuns(s, es);
    StateAlways(s, es);
    assert CallOk(After(s, es), After(s, es).calls[c]);
  }

  /** No caller is stranded: whoever waits, waits on a running task or on a terminal that is there. */
  lemma NobodyIsStranded(es: seq<Event>, c: Caller)
    requires Runs(Start(), es) && c in After(Start(), es).calls && After(Start(), es).calls[c].Waiting?
    ensures var s := After(Start(), es);
            s.calls[c].gen < |s.gens| && (s.gens[s.calls[c].gen].task == Running || Enabled(s, Receive(c)))
  {
    StateAlways(Start(), es);
    var s := After(Start(), es);
    assert CallOk(s, s.calls[c]);
  }

  /** The removal of one generation never evicts another one's entry, whenever it comes. */
  lemma RemovalSparesOthers(s: State, es: seq<Event>, id: EpisodeId, g: nat)
    requires StateOk(s) && Runs(s, es)
    requires id in After(s, es).entries && After(s, es).entries[id] != g
    ensures RemovedIfSame(After(s, es).entries, id, g) == After(s, es).entries
    ensures g < |s.gens| && s.gens[g].episode == id ==> g < |After(s, es).gens| && After(s, es).gens[g].task == Ended
  {
    StateAlways(s, es);
    KeepsOverRuns(s, es);
  }

  /** A conflicting submission changes nothing but its own answer. */
  lemma ConflictChangesNothing(s: State, c: Caller, id: EpisodeId, checksum: Checksum)
    requires StateOk(s) && c !in s.calls
    ensures var s' := Submitted(s, c, id, checksum);
            && (s'.calls[c].Refused? <==> id in s.entries && s.entries[id] < |s.gens| && s.gens[s.entries[id]].checksum != checksum)
            && (s'.calls[c].Refused? ==> s'.entries == s.entries && s'.gens == s.gens)
            && (forall d :: d in s.calls ==> d in s'.calls && s'.calls[d] == s.calls[d])
  {
  }

  // ---------------------------------------------------------------- each step, on the fields

  /**
   A submission attaches to the entry of its id when that has its checksum, is refused when it has another, and
   otherwise makes a new generation, which its caller owns, waits on and is running for.
   */
  lemma SubmissionMeans(s: State, c: Caller, id: EpisodeId, checksum: Checksum)
    requires StateOk(s) && c !in s.calls
    ensures var s' := Apply(s, Submit(c, id, checksum));
            && (id in s.entries && s.gens[s.entries[id]].checksum == checksum ==>
                  s' == s.(calls := s.calls[c := Waiting(checksum, s.entries[id])]))
            && (id in s.entries && s.gens[s.entries[id]].checksum != checksum ==> s' == s.(calls := s.calls[c := Refused]))
            && (id !in s.entries ==>
                  var n := |s.gens|;
                  && s'.entries == s.entries[id := n] && s'.calls == s.calls[c := Waiting(checksum, n)]
                  && s'.gens == s.gens + [Generation(id, checksum, c, Running, None)])
  {
  }

  /** Whatever an execution ends with is what every caller attached to it receives, whenever it asks. */
  lemma ExecutionAnswers(s: State, g: nat, t: Terminal, es: seq<Event>, c: Caller)
    requires StateOk(s) && Enabled(s, Execute(g, t)) && Runs(Apply(s, Execute(g, t)), es)
    requires var s' := After(Apply(s, Execute(g, t)), es);
             c in s'.calls && s'.calls[c].Waiting? && s'.calls[c].gen == g
    ensures var s' := After(Apply(s, Execute(g, t)), es);
            Enabled(s', Receive(c)) && Apply(s', Receive(c)).calls[c] == Answered(s.gens[g].checksum, g, t)
    ensures var s1 := Apply(s, Execute(g, t));
            s1.gens[g].task == Finished && s1.entries == s.entries && s1.calls == s.calls && |s1.gens| == |s.gens|
  {
    var s1 := Apply(s, Execute(g, t));
    ExecuteKeeps(s, g, t);
    assert s1.gens[g].cell == Some(t);
    TerminalReachesEveryCaller(s1, es, c, g);
  }

  /** Only running tasks finish; a finished one removes its own entry, and a later submission of the id runs anew. */
  lemma RetirementMeans(s: State, g: nat)
    requires StateOk(s) && Enabled(s, Retire(g))
    ensures var s' := Apply(s, Retire(g));
            && s.gens[g].episode in s.entries && s'.entries == s.entries - {s.gens[g].episode}
            && |s'.gens| == |s.gens| && s'.gens[g].task == Ended && s'.gens[g].cell == s.gens[g].cell && s'.calls == s.calls
            && (forall k :: 0 <= k < |s.gens| && k != g ==> s'.gens[k] == s.gens[k])
  {
  }

  /** A caller receives exactly when its generation has a terminal, and receives that terminal. */
  lemma ReceptionMeans(s: State, c: Caller)
    requires StateOk(s) && c in s.calls && s.calls[c].Waiting?
    ensures Enabled(s, Receive(c)) <==> s.gens[s.calls[c].gen].cell.Some?
    ensures Enabled(s, Receive(c)) ==>
              var call := s.calls[c];
              Apply(s, Receive(c)) == s.(calls := s.calls[c := Answered(call.checksum, call.gen, s.gens[call.gen].cell.value)])
  {
    assert CallOk(s, s.calls[c]);
  }
}
