/**
 The registry and the source gate together: the leases that tickets and owned runs hold are
 leases of the gate, so what a run observes of its source at start and end can be compared.
 */
module RegistryGate {
  import opened Faults
  import opened RunLedger
  import opened RegistrySpec
  import opened RegistryInvariant
  import opened RegistryRetention
  import opened RegistryRuns
  import opened RegistryHistory
  import RegistryLeases
  import G = SourceGateModel

  // ---------------------------------------------------------------- the leases of a registry

  function LeaseOf(identity: Path, operation: Id): G.Lease {
    G.Lease(identity, operation, false)
  }

  /** A run owned by this host, with its source lease. */
  predicate KeepsLease(run: Run, active: map<Id, Active>) {
    run.identity.Some? && run.id in active && active[run.id].lease
  }

  function TicketLeases(pending: seq<Pending>): set<G.Lease> {
    set i | 0 <= i < |pending| && pending[i].identity.Some? :: LeaseOf(pending[i].identity.value, pending[i].operation)
  }

  function RunLeases(runs: seq<Run>, active: map<Id, Active>): set<G.Lease> {
    set i | 0 <= i < |runs| && KeepsLease(runs[i], active) :: LeaseOf(runs[i].identity.value, runs[i].operation)
  }

  /** A lease lives in a ticket until the start is committed, and then with the owned run. */
  function LeasesOf(r: Registry): set<G.Lease> {
    TicketLeases(r.pending) + RunLeases(r.runs, r.active)
  }

  /** The same source, operation and owner. */
  predicate SameStart(before: Run, after: Run) {
    after.id == before.id && after.operation == before.operation && after.identity == before.identity
  }

  lemma FewerTickets(before: seq<Pending>, after: seq<Pending>)
    requires forall t :: t in after ==> t in before
    ensures TicketLeases(after) <= TicketLeases(before)
  {
    forall lease | lease in TicketLeases(after) ensures lease in TicketLeases(before) {
      var i :| 0 <= i < |after| && after[i].identity.Some? && LeaseOf(after[i].identity.value, after[i].operation) == lease;
      assert after[i] in before;
      var k :| 0 <= k < |before| && before[k] == after[i];
    }
  }

  /** Each run that keeps its lease afterwards kept the same one before. */
  predicate LeasesCome(r: Registry, s: Registry) {
    forall i :: 0 <= i < |s.runs| && KeepsLease(s.runs[i], s.active) ==>
      exists k :: 0 <= k < |r.runs| && SameStart(r.runs[k], s.runs[i]) && KeepsLease(r.runs[k], r.active)
  }

  lemma FewerRunLeases(r: Registry, s: Registry)
    requires LeasesCome(r, s)
    ensures RunLeases(s.runs, s.active) <= RunLeases(r.runs, r.active)
  {
    forall lease | lease in RunLeases(s.runs, s.active) ensures lease in RunLeases(r.runs, r.active) {
      var i :| 0 <= i < |s.runs| && KeepsLease(s.runs[i], s.active)
               && LeaseOf(s.runs[i].identity.value, s.runs[i].operation) == lease;
      var k :| 0 <= k < |r.runs| && SameStart(r.runs[k], s.runs[i]) && KeepsLease(r.runs[k], r.active);
      assert LeaseOf(r.runs[k].identity.value, r.runs[k].operation) == lease;
    }
  }

  lemma TrimmedComes(r: Registry, s: Registry)
    requires Trimmed(r, s)
    ensures LeasesCome(r, s)
  {
    forall i | 0 <= i < |s.runs| && KeepsLease(s.runs[i], s.active)
      ensures exists k :: 0 <= k < |r.runs| && SameStart(r.runs[k], s.runs[i]) && KeepsLease(r.runs[k], r.active)
    {
      assert s.runs[i] in r.runs;
      var k :| 0 <= k < |r.runs| && r.runs[k] == s.runs[i];
      assert SameStart(r.runs[k], s.runs[i]) && KeepsLease(r.runs[k], r.active);
    }
  }

  /** The same records in the same places, of which at most one owner gives its lease away. */
  lemma InPlaceComes(r: Registry, s: Registry)
    requires |s.runs| == |r.runs|
    requires forall i :: 0 <= i < |r.runs| ==> SameStart(r.runs[i], s.runs[i])
    requires forall id :: id in s.active && s.active[id].lease ==> id in r.active && r.active[id].lease
    ensures LeasesCome(r, s)
  {
    forall i | 0 <= i < |s.runs| && KeepsLease(s.runs[i], s.active)
      ensures exists k :: 0 <= k < |r.runs| && SameStart(r.runs[k], s.runs[i]) && KeepsLease(r.runs[k], r.active)
    {
      assert SameStart(r.runs[i], s.runs[i]) && KeepsLease(r.runs[i], r.active);
    }
  }

  lemma LessLeases(r: Registry, s: Registry)
    requires LeasesCome(r, s) && forall t :: t in s.pending ==> t in r.pending
    ensures LeasesOf(s) <= LeasesOf(r)
  {
    FewerTickets(r.pending, s.pending);
    FewerRunLeases(r, s);
  }

  // ---------------------------------------------------------------- calls

  lemma ReserveTakes(tape: Tape, r: Registry, q: Request)
    requires Inv(r)
    ensures var s := BeginReserve(tape, r, q);
            LeasesOf(s.registry) <= LeasesOf(r)
              + (if s.reply.Fresh? && q.identity.Some? then {LeaseOf(q.identity.value, q.operation)} else {})
  {
    var trimmed := Trim(tape, r, q.now).registry;
    TrimKeeps(tape, r, q.now);
    TrimmedComes(r, trimmed);
    LessLeases(r, trimmed);
    var s := BeginReserve(tape, r, q);
    if s.reply.Fresh? {
      TicketAdds(trimmed.pending, Pending(q.id, q.operation, q.task, q.digest, q.identity, q.outputs));
    }
  }

  lemma TicketAdds(pending: seq<Pending>, ticket: Pending)
    ensures TicketLeases(pending + [ticket]) <= TicketLeases(pending)
      + (if ticket.identity.Some? then {LeaseOf(ticket.identity.value, ticket.operation)} else {})
  {
  }

  lemma CommitHandsOver(tape: Tape, r: Registry, ticket: Pending, prepared: bool)
    requires ticket in r.pending && !Has(r.runs, ticket.id)
    ensures var s := BeginCommit(tape, r, ticket, prepared);
            && LeasesOf(s.registry) <= LeasesOf(r)
            && (s.ok && ticket.identity.Some? ==> LeaseOf(ticket.identity.value, ticket.operation) in LeasesOf(s.registry))
  {
    var s := BeginCommit(tape, r, ticket, prepared);
    FewerTickets(r.pending, s.registry.pending);
    var given: set<G.Lease> := if ticket.identity.Some? then {LeaseOf(ticket.identity.value, ticket.operation)} else {};
    assert given <= TicketLeases(r.pending) by {
      var k :| 0 <= k < |r.pending| && r.pending[k] == ticket;
    }
    forall lease | lease in RunLeases(s.registry.runs, s.registry.active)
      ensures lease in RunLeases(r.runs, r.active) + given
    {
      var i :| 0 <= i < |s.registry.runs| && KeepsLease(s.registry.runs[i], s.registry.active)
               && LeaseOf(s.registry.runs[i].identity.value, s.registry.runs[i].operation) == lease;
      if i < |r.runs| {
        assert r.runs[i].id != ticket.id && KeepsLease(r.runs[i], r.active);
      }
    }
    if s.ok && ticket.identity.Some? {
      assert s.registry.runs[|r.runs|] == NewRun(ticket) && KeepsLease(NewRun(ticket), s.registry.active);
    }
  }

  lemma FinishKeepsStarts(tape: Tape, r: Registry, id: Id, e: Ending)
    ensures var s := FinishObserved(tape, r, id, e).registry;
            && s.pending == r.pending && |s.runs| == |r.runs|
            && forall i :: 0 <= i < |r.runs| ==> SameStart(r.runs[i], s.runs[i])
  {
    if id in r.active {
      FinishShape(tape, r, id, e);
    }
  }

  lemma FinishKeepsOwners(tape: Tape, r: Registry, id: Id, e: Ending)
    ensures var s := FinishObserved(tape, r, id, e).registry;
            forall other :: other in s.active && s.active[other].lease ==> other in r.active && r.active[other].lease
  {
  }

  lemma FinishGivesBack(tape: Tape, r: Registry, id: Id, e: Ending)
    ensures LeasesOf(FinishObserved(tape, r, id, e).registry) <= LeasesOf(r)
  {
    FinishKeepsStarts(tape, r, id, e);
    FinishKeepsOwners(tape, r, id, e);
    var s := FinishObserved(tape, r, id, e).registry;
    InPlaceComes(r, s);
    LessLeases(r, s);
  }

  lemma RecordCallLeavesLeases(tape: Tape, r: Registry, call: Call)
    requires RecordCall(call)
    ensures LeasesOf(CallResult(tape, r, call).registry) <= LeasesOf(r)
  {
    RecordCallChanges(tape, r, call);
    var s := CallResult(tape, r, call).registry;
    InPlaceComes(r, s);
    LessLeases(r, s);
  }

  lemma SetPinLeavesLeases(tape: Tape, r: Registry, id: Id, pinned: bool)
    ensures LeasesOf(SetPin(tape, r, id, pinned).registry) <= LeasesOf(r)
  {
    var s := SetPin(tape, r, id, pinned).registry;
    InPlaceComes(r, s);
    LessLeases(r, s);
  }

  lemma PinLeavesLeases(tape: Tape, r: Registry, id: Id, pinned: bool, intact: bool)
    requires Inv(r)
    ensures LeasesOf(PinResult(tape, r, id, pinned, intact).registry) <= LeasesOf(r)
  {
    PinResults(tape, r, id, pinned, intact);
    var room := MakeRoom(tape, r, 0).registry;
    MakeRoomKeeps(tape, r, 0);
    TrimmedComes(r, room);
    LessLeases(r, room);
    SetPinLeavesLeases(tape, r, id, pinned);
    SetPinLeavesLeases(tape, room, id, pinned);
  }

  lemma ProbeLeavesLeases(r: Registry, id: Id)
    ensures LeasesOf(FinishProbe(r, id).registry) <= LeasesOf(r)
  {
    InPlaceComes(r, FinishProbe(r, id).registry);
    LessLeases(r, FinishProbe(r, id).registry);
  }

  lemma AbandonGivesBack(r: Registry, ticket: Pending)
    ensures LeasesOf(BeginAbandon(r, ticket)) <= LeasesOf(r)
  {
    FewerTickets(r.pending, BeginAbandon(r, ticket).pending);
  }

  /** The lease that a call brings in: only a granted start does. */
  function Taken(tape: Tape, r: Registry, call: Call): set<G.Lease> {
    if call.Reserve? && BeginReserve(tape, r, call.q).reply.Fresh? && call.q.identity.Some?
    then {LeaseOf(call.q.identity.value, call.q.operation)} else {}
  }

  lemma CallTakes(tape: Tape, r: Registry, call: Call)
    requires Inv(r) && Enabled(tape, Up(r), call) && OfRegistry(call)
    ensures LeasesOf(CallResult(tape, r, call).registry) <= LeasesOf(r) + Taken(tape, r, call)
  {
    match call
    case Reserve(q) => ReserveTakes(tape, r, q);
    case Abandon(ticket) => AbandonGivesBack(r, ticket);
    case Commit(ticket, prepared) => RegistryLeases.TicketIsNew(r, ticket); CommitHandsOver(tape, r, ticket, prepared);
    case Finish(id, e) => FinishGivesBack(tape, r, id, e);
    case Pin(id, pinned, intact) => PinLeavesLeases(tape, r, id, pinned, intact);
    case Probe(id) => ProbeLeavesLeases(r, id);
    case _ => RecordCallLeavesLeases(tape, r, call);
  }

  // ---------------------------------------------------------------- both together

  datatype Joined = Joined(registry: Registry, gate: G.Gate)

  datatype Event = Called(call: Call) | Acted(act: G.Act)

  /** A granted start has its lease from the gate, and nobody drops a lease that the registry holds. */
  predicate Lawful(tape: Tape, j: Joined, e: Event) {
    match e
    case Called(call) =>
      && OfRegistry(call) && Enabled(tape, Up(j.registry), call)
      && Taken(tape, j.registry, call) <= j.gate.leases - LeasesOf(j.registry)
    case Acted(act) => G.Possible(j.gate, act) && (act.Drop? ==> act.lease !in LeasesOf(j.registry))
  }

  function After(tape: Tape, j: Joined, e: Event): Joined
    requires Lawful(tape, j, e)
  {
    match e
    case Called(call) => j.(registry := CallResult(tape, j.registry, call).registry)
    case Acted(act) => j.(gate := G.Step(j.gate, act))
  }

  predicate AllLawful(tape: Tape, j: Joined, events: seq<Event>)
    decreases |events|
  {
    events == [] || (Lawful(tape, j, events[0]) && AllLawful(tape, After(tape, j, events[0]), events[1..]))
  }

  function Together(tape: Tape, j: Joined, events: seq<Event>): Joined
    requires AllLawful(tape, j, events)
    decreases |events|
  {
    if events == [] then j else Together(tape, After(tape, j, events[0]), events[1..])
  }

  ghost predicate JoinInv(j: Joined) {
    Inv(j.registry) && G.GateInv(j.gate.states, j.gate.leases) && LeasesOf(j.registry) <= j.gate.leases
  }

  lemma EventKeeps(tape: Tape, j: Joined, e: Event)
    requires JoinInv(j) && Lawful(tape, j, e)
    ensures JoinInv(After(tape, j, e))
  {
    match e
    case Called(call) =>
      CallKeeps(tape, j.registry, call);
      CallTakes(tape, j.registry, call);
    case Acted(act) =>
      G.StepKeeps(j.gate, act);
      LeasesStay(j.gate, act);
  }

  lemma LeasesStay(g: G.Gate, act: G.Act)
    requires G.Possible(g, act)
    ensures forall lease :: lease in g.leases && act != G.Drop(lease) ==> lease in G.Step(g, act).leases
  {
  }

  /** From one moment to another the registry holds this lease, in a ticket or with a run. */
  predicate HeldThroughout(tape: Tape, j: Joined, events: seq<Event>, lease: G.Lease)
    requires AllLawful(tape, j, events)
    decreases |events|
  {
    && lease in LeasesOf(j.registry)
    && (events == [] || HeldThroughout(tape, After(tape, j, events[0]), events[1..], lease))
  }

  lemma EventUnderLease(tape: Tape, j: Joined, e: Event, lease: G.Lease)
    requires JoinInv(j) && Lawful(tape, j, e) && lease in LeasesOf(j.registry)
    ensures G.StateOf(After(tape, j, e).gate.states, lease.identity).generation
         == G.StateOf(j.gate.states, lease.identity).generation
  {
    if e.Acted? {
      assert !lease.mutation;
      G.StepUnderRunLease(j.gate, e.act, lease);
    }
  }

  /**
   A run's observations of its source. Over any history of registry calls, with failing saves,
   and of gate acts by anybody in between: as long as the registry holds a source lease, which a
   start takes with its ticket and hands over to its run, its worktree has no mutation and its
   generation stands still. The observations at the start and at the end carry the same one.
   */
  lemma {:induction false} ObservationsAgree(tape: Tape, j: Joined, events: seq<Event>, lease: G.Lease)
    requires JoinInv(j) && AllLawful(tape, j, events) && HeldThroughout(tape, j, events, lease)
    ensures var k := Together(tape, j, events);
            && JoinInv(k)
            && G.StateOf(k.gate.states, lease.identity).generation == G.StateOf(j.gate.states, lease.identity).generation
            && G.StateOf(k.gate.states, lease.identity).mutation.None?
    decreases |events|
  {
    if events == [] {
      HeldMeansQuiet(j, lease);
    } else {
      EventKeeps(tape, j, events[0]);
      EventUnderLease(tape, j, events[0], lease);
      ObservationsAgree(tape, After(tape, j, events[0]), events[1..], lease);
    }
  }

  lemma HeldMeansQuiet(j: Joined, lease: G.Lease)
    requires JoinInv(j) && lease in LeasesOf(j.registry)
    ensures G.StateOf(j.gate.states, lease.identity).mutation.None?
  {
    assert !lease.mutation;
    assert G.Entered(j.gate.states, lease);
  }

  /** A reserved start holds its lease. */
  lemma TicketHolds(r: Registry, ticket: Pending)
    requires ticket in r.pending && ticket.identity.Some?
    ensures LeaseOf(ticket.identity.value, ticket.operation) in LeasesOf(r)
  {
    var k :| 0 <= k < |r.pending| && r.pending[k] == ticket;
  }

  /** And so does an owned run that is not settled. */
  lemma UnsettledRunHolds(r: Registry, index: nat)
    requires Inv(r) && RegistryLeases.LeasesHeld(r) && index < |r.runs|
    requires r.runs[index].id in r.active && !r.runs[index].Settled() && r.runs[index].identity.Some?
    ensures LeaseOf(r.runs[index].identity.value, r.runs[index].operation) in LeasesOf(r)
  {
    assert Holding(r) && RegistryLeases.Leased(r.runs[index], r.active);
    assert KeepsLease(r.runs[index], r.active);
  }
}
