/**
 The registry over whole histories: any sequence of calls, with failing saves, crashes and
 restarts. The tape decides how every disk step ends, so the end of an interrupted call
 stands for a crash at that step.
 */
module RegistryHistory {
  import opened Faults
  import opened RunLedger
  import opened RegistrySpec
  import opened RegistryInvariant
  import opened RegistryRetention
  import opened RegistryRuns

  datatype World = Down(disk: Disk, clock: nat) | Up(registry: Registry)

  datatype Call =
    | Start(now: nat)
    | Crash
    | OtherHost(left: Disk) // another host, perhaps an older one, ran and left this disk
    | Reserve(q: Request)
    | Abandon(ticket: Pending)
    | Commit(ticket: Pending, prepared: bool)
    | Spawned(id: Id)
    | CancelRun(id: Id, timeout: bool)
    | Acknowledge(id: Id)
    | Probe(id: Id)
    | Finish(id: Id, ending: Ending)
    | Pin(id: Id, pinned: bool, intact: bool)

  /** A call on a running registry. */
  predicate OfRegistry(call: Call) {
    !call.Start? && !call.Crash? && !call.OtherHost?
  }

  /** Another host leaves a good disk, and what was deleted stays deleted. */
  predicate MayLeave(disk: Disk, left: Disk) {
    DiskInv(left) && disk.expired <= left.expired
  }

  /** The host's side: fresh identities, tickets it holds, and honest endings. */
  predicate Enabled(tape: Tape, w: World, call: Call) {
    match call
    case Start(_) => w.Down?
    case Crash => w.Up?
    case OtherHost(left) => w.Down? && MayLeave(w.disk, left)
    case Reserve(q) => w.Up? && (Admission(w.registry, q).None? ==> FreshId(Trim(tape, w.registry, q.now).registry, q.id))
    case Commit(ticket, _) => w.Up? && ticket in w.registry.pending
    case Finish(id, e) => w.Up? && EndingAllowed(w.registry, id, e)
    case _ => w.Up?
  }

  function CallResult(tape: Tape, r: Registry, call: Call): Step
    requires OfRegistry(call)
  {
    match call
    case Reserve(q) => var s := BeginReserve(tape, r, q); Step(s.registry, !s.reply.Refused?)
    case Abandon(ticket) => Step(BeginAbandon(r, ticket), true)
    case Commit(ticket, prepared) => BeginCommit(tape, r, ticket, prepared)
    case Spawned(id) => MarkRunning(tape, r, id)
    case CancelRun(id, timeout) => Cancel(tape, r, id, timeout)
    case Acknowledge(id) => AcknowledgeUnknownCleanup(tape, r, id)
    case Probe(id) => FinishProbe(r, id)
    case Finish(id, e) => FinishObserved(tape, r, id, e)
    case Pin(id, pinned, intact) => PinResult(tape, r, id, pinned, intact)
  }

  function Do(tape: Tape, w: World, call: Call): World
    requires Enabled(tape, w, call)
  {
    match call
    case Start(now) =>
      var s := Open(tape, w.disk, w.clock, now);
      if s.ok then Up(s.registry) else Down(s.registry.disk, s.registry.clock)
    case Crash => Down(w.registry.disk, w.registry.clock)
    case OtherHost(left) => Down(left, w.clock)
    case _ => Up(CallResult(tape, w.registry, call).registry)
  }

  predicate AllEnabled(tape: Tape, w: World, calls: seq<Call>)
    decreases |calls|
  {
    calls == [] || (Enabled(tape, w, calls[0]) && AllEnabled(tape, Do(tape, w, calls[0]), calls[1..]))
  }

  function History(tape: Tape, w: World, calls: seq<Call>): World
    requires AllEnabled(tape, w, calls)
    decreases |calls|
  {
    if calls == [] then w else History(tape, Do(tape, w, calls[0]), calls[1..])
  }

  predicate Leads(tape: Tape, w: World, calls: seq<Call>, end: World) {
    AllEnabled(tape, w, calls) && History(tape, w, calls) == end
  }

  lemma Then(tape: Tape, w: World, call: Call, next: World, rest: seq<Call>, end: World)
    requires Enabled(tape, w, call) && Do(tape, w, call) == next && Leads(tape, next, rest, end)
    ensures Leads(tape, w, [call] + rest, end)
  {
    assert ([call] + rest)[1..] == rest;
  }

  predicate Good(w: World) {
    if w.Down? then DiskInv(w.disk) else Inv(w.registry)
  }

  function DiskOf(w: World): Disk {
    if w.Down? then w.disk else w.registry.disk
  }

  const EMPTY_DISK := Disk(Ledger([], []), {}, {})

  lemma CallKeeps(tape: Tape, r: Registry, call: Call)
    requires Inv(r) && Enabled(tape, Up(r), call) && OfRegistry(call)
    ensures Inv(CallResult(tape, r, call).registry)
  {
    match call
    case Reserve(q) => BeginReserveKeeps(tape, r, q);
    case Abandon(ticket) => BeginAbandonKeeps(r, ticket);
    case Commit(ticket, prepared) => BeginCommitKeeps(tape, r, ticket, prepared);
    case Spawned(id) => MarkRunningKeeps(tape, r, id);
    case CancelRun(id, timeout) => CancelKeeps(tape, r, id, timeout);
    case Acknowledge(id) => AcknowledgeKeeps(tape, r, id);
    case Probe(id) => FinishProbeKeeps(r, id);
    case Finish(id, e) => FinishObservedKeeps(tape, r, id, e);
    case Pin(id, pinned, intact) => PinResultKeeps(tape, r, id, pinned, intact);
  }

  lemma DoKeeps(tape: Tape, w: World, call: Call)
    requires Good(w) && Enabled(tape, w, call)
    ensures Good(Do(tape, w, call))
  {
    match call
    case Start(now) => OpenKeeps(tape, w.disk, w.clock, now);
    case Crash =>
    case OtherHost(_) =>
    case _ => CallKeeps(tape, w.registry, call);
  }

  lemma {:induction false} HistoryKeeps(tape: Tape, w: World, calls: seq<Call>)
    requires Good(w) && AllEnabled(tape, w, calls)
    ensures Good(History(tape, w, calls))
    decreases |calls|
  {
    if calls != [] {
      DoKeeps(tape, w, calls[0]);
      HistoryKeeps(tape, Do(tape, w, calls[0]), calls[1..]);
    }
  }

  // ---------------------------------------------------------------- release only after a durable outcome

  predicate Held(r: Registry, id: Id) {
    id in r.active && r.active[id].runUse
  }

  predicate SettledIn(l: Ledger, id: Id) {
    Has(l.runs, id) && l.runs[Position(l.runs, id)].Settled()
  }

  /** A held run keeps its record, and keeps its lock and lease or was durably settled first. */
  predicate HeldOrDurable(r: Registry, s: Registry, id: Id)
    requires Held(r, id)
  {
    && Has(s.runs, id)
    && id in s.active
    && ((s.active[id].runUse && s.active[id].lease == r.active[id].lease) || SettledIn(s.disk.ledger, id))
  }

  /** The record and its ownership are as before. */
  predicate SameOwner(r: Registry, s: Registry, id: Id) {
    Has(s.runs, id) && id in r.active && id in s.active && s.active[id] == r.active[id]
  }

  lemma TrimmedOwners(r: Registry, s: Registry, id: Id)
    requires Inv(r) && Held(r, id) && Trimmed(r, s)
    ensures SameOwner(r, s, id)
  {
    assert Holding(r);
    var i := Position(r.runs, id);
    assert r.runs[i] in r.runs && !CanRotate(r, r.runs[i]);
    var k :| 0 <= k < |s.runs| && s.runs[k] == r.runs[i];
    assert s.runs[k].id == id;
  }

  lemma PersistMemory(tape: Tape, r: Registry)
    ensures var s := Persist(tape, r);
            && s.registry.runs == r.runs && s.registry.retired == r.retired
            && s.registry.active == r.active && s.registry.pending == r.pending
            && s.registry.disk.files == r.disk.files
            && (s.ok ==> s.registry.disk.ledger == r.Memory())
  {
  }

  lemma SetPinOwners(tape: Tape, r: Registry, id: Id, pinned: bool, held: Id)
    requires Has(r.runs, held) && held in r.active
    ensures SameOwner(r, SetPin(tape, r, id, pinned).registry, held)
  {
    var index := Position(r.runs, id);
    if index < |r.runs| {
      var run := r.runs[index].(pinned := pinned);
      UpdatedLookups(r.runs, index, run, held, 0);
      PersistMemory(tape, WithRun(r, index, run));
    }
  }

  /** Pinning ends where it began, after its rotation, or after the pin was set. */
  lemma PinResults(tape: Tape, r: Registry, id: Id, pinned: bool, intact: bool)
    ensures var s := PinResult(tape, r, id, pinned, intact).registry;
            var room := if pinned then r else MakeRoom(tape, r, 0).registry;
            s == r || s == room || s == SetPin(tape, room, id, pinned).registry
  {
  }

  lemma PinHolds(tape: Tape, r: Registry, id: Id, pinned: bool, intact: bool, held: Id)
    requires Inv(r) && Held(r, held)
    ensures HeldOrDurable(r, PinResult(tape, r, id, pinned, intact).registry, held)
  {
    PinResults(tape, r, id, pinned, intact);
    OwnedIsRecorded(r, held);
    var room := if pinned then r else MakeRoom(tape, r, 0).registry;
    if !pinned {
      MakeRoomKeeps(tape, r, 0);
      TrimmedOwners(r, room, held);
    }
    SetPinOwners(tape, room, id, pinned, held);
  }

  lemma OwnedIsRecorded(r: Registry, id: Id)
    requires Inv(r) && id in r.active
    ensures Has(r.runs, id)
  {
    assert Holding(r);
  }

  lemma ReserveHolds(tape: Tape, r: Registry, q: Request, held: Id)
    requires Inv(r) && Held(r, held)
    ensures HeldOrDurable(r, BeginReserve(tape, r, q).registry, held)
  {
    OwnedIsRecorded(r, held);
    TrimKeeps(tape, r, q.now);
    TrimmedOwners(r, Trim(tape, r, q.now).registry, held);
  }

  lemma FinishHolds(tape: Tape, r: Registry, id: Id, e: Ending, held: Id)
    requires Inv(r) && Held(r, held) && EndingAllowed(r, id, e)
    ensures HeldOrDurable(r, FinishObserved(tape, r, id, e).registry, held)
  {
    OwnedIsRecorded(r, held);
    if id in r.active {
      OwnedIsRecorded(r, id);
      ConcludedHolds(r, id, e, held);
      ConcludedSettles(r, id, e);
      ReleaseHolds(tape, r, Concluded(r, id, e), id, e.cleanup, held);
    }
  }

  /** Finalization changes one record at most, saves the journal as it is in memory and stores what was captured. */
  lemma FinishShape(tape: Tape, r: Registry, id: Id, e: Ending)
    requires id in r.active
    ensures var s := FinishObserved(tape, r, id, e).registry;
            var captured := Capture(r, id, e);
            && s.pending == r.pending && s.retired == r.retired && s.disk.files == captured.disk.files
            && (s.disk.ledger.retired == r.retired || s.disk.ledger.retired == r.disk.ledger.retired)
            && s.runs ==
                 if Has(r.runs, id) then
                   r.runs[Position(r.runs, id) := FinishedRun(r.runs[Position(r.runs, id)], captured.active[id].captured, e)]
                 else r.runs
  {
    if Has(r.runs, id) {
      ConcludedShape(r, id, e);
      PersistMemory(tape, Concluded(r, id, e));
      PersistJournal(tape, Concluded(r, id, e));
    }
  }

  lemma ConcludedShape(r: Registry, id: Id, e: Ending)
    requires id in r.active && Has(r.runs, id)
    ensures var c := Concluded(r, id, e);
            var captured := Capture(r, id, e);
            var index := Position(r.runs, id);
            && c.runs == r.runs[index := FinishedRun(r.runs[index], captured.active[id].captured, e)]
            && c.pending == r.pending && c.retired == r.retired
            && c.disk.files == captured.disk.files && c.disk.ledger == r.disk.ledger && id in c.active
  {
  }

  lemma PersistJournal(tape: Tape, r: Registry)
    ensures var s := Persist(tape, r).registry;
            s.disk.ledger.retired == r.retired || s.disk.ledger == r.disk.ledger
  {
  }

  lemma ConcludedHolds(r: Registry, id: Id, e: Ending, held: Id)
    requires id in r.active && Has(r.runs, id) && Has(r.runs, held) && Held(r, held)
    ensures var c := Concluded(r, id, e);
      Has(c.runs, held) && id in c.active && Held(c, held) && c.active[held].lease == r.active[held].lease
  {
    var c := Concluded(r, id, e);
    var index := Position(r.runs, id);
    assert c.runs == r.runs[index := c.runs[index]];
    UpdatedLookups(r.runs, index, c.runs[index], held, 0);
  }

  /** Locks go only after a save that recorded the end. */
  lemma ReleaseHolds(tape: Tape, r: Registry, c: Registry, id: Id, cleanup: bool, held: Id)
    requires Held(r, held) && Has(c.runs, held) && id in c.active && Held(c, held)
    requires c.active[held].lease == r.active[held].lease
    requires cleanup ==> SettledIn(c.Memory(), id)
    ensures var saved := Persist(tape, c);
      HeldOrDurable(r, if saved.ok then Release(saved.registry, id, cleanup) else saved.registry, held)
  {
    PersistMemory(tape, c);
  }

  lemma ConcludedSettles(r: Registry, id: Id, e: Ending)
    requires Inv(r) && id in r.active && Has(r.runs, id) && EndingAllowed(r, id, e)
    ensures e.cleanup ==> SettledIn(Concluded(r, id, e).Memory(), id)
  {
    CaptureKeeps(r, id, e);
    var c := Concluded(r, id, e);
    var index := Position(r.runs, id);
    FinishedFits(r, id, Capture(r, id, e).active[id].captured, e) by { RunAt(r, index); }
    UpdatedDistinct(r.Memory(), index, c.runs[index]);
    assert c.runs[index].id == id;
    UniquePosition(c.runs, index);
  }

  lemma CommitOwners(tape: Tape, r: Registry, ticket: Pending, prepared: bool, held: Id)
    requires Has(r.runs, held) && held in r.active && held != ticket.id
    ensures SameOwner(r, BeginCommit(tape, r, ticket, prepared).registry, held)
  {
    AppendedLookups(r.runs, NewRun(ticket), held, 0);
  }

  lemma TicketIsNotOwned(r: Registry, ticket: Pending, id: Id)
    requires PendingApart(r) && ticket in r.pending && Has(r.runs, id)
    ensures id != ticket.id
  {
    var k :| 0 <= k < |r.pending| && r.pending[k] == ticket;
  }

  lemma CommitHolds(tape: Tape, r: Registry, ticket: Pending, prepared: bool, held: Id)
    requires Inv(r) && Held(r, held) && ticket in r.pending
    ensures HeldOrDurable(r, BeginCommit(tape, r, ticket, prepared).registry, held)
  {
    OwnedIsRecorded(r, held);
    TicketIsNotOwned(r, ticket, held);
    CommitOwners(tape, r, ticket, prepared, held);
  }

  predicate RecordCall(call: Call) {
    call.Spawned? || call.CancelRun? || call.Acknowledge?
  }

  function NextRecord(run: Run, call: Call): Run
    requires RecordCall(call)
  {
    match call
    case Spawned(_) => if run.state == Preparing then run.(state := RunState.Running) else run
    case CancelRun(_, timeout) =>
      run.(state := Cancelling, cancelRequested := true, timeoutRequested := run.timeoutRequested || timeout)
    case Acknowledge(_) => run.(cleanup := true)
  }

  /** The outcome of saving one changed record, with or without going back. */
  predicate OneRecord(r: Registry, s: Registry, index: nat, run: Run) {
    && s.active == r.active && s.pending == r.pending
    && (s.runs == r.runs || (index < |r.runs| && s.runs == r.runs[index := run]))
  }

  lemma SpawnedChanges(tape: Tape, r: Registry, id: Id)
    ensures var index := Position(r.runs, id);
            index < |r.runs| ==>
              OneRecord(r, MarkRunning(tape, r, id).registry, index, NextRecord(r.runs[index], Spawned(id)))
    ensures Position(r.runs, id) == |r.runs| ==> MarkRunning(tape, r, id).registry == r
  {
  }

  lemma CancelChanges(tape: Tape, r: Registry, id: Id, timeout: bool)
    ensures var index := Position(r.runs, id);
            index < |r.runs| ==>
              OneRecord(r, Cancel(tape, r, id, timeout).registry, index, NextRecord(r.runs[index], CancelRun(id, timeout)))
    ensures Position(r.runs, id) == |r.runs| ==> Cancel(tape, r, id, timeout).registry == r
  {
  }

  lemma AcknowledgeChanges(tape: Tape, r: Registry, id: Id)
    ensures var index := Position(r.runs, id);
            index < |r.runs| ==>
              OneRecord(r, AcknowledgeUnknownCleanup(tape, r, id).registry, index, NextRecord(r.runs[index], Acknowledge(id)))
    ensures Position(r.runs, id) == |r.runs| ==> AcknowledgeUnknownCleanup(tape, r, id).registry == r
  {
  }

  /** Calls on one record change at most that record, and no ownership. */
  lemma RecordCallChanges(tape: Tape, r: Registry, call: Call)
    requires RecordCall(call)
    ensures var s := CallResult(tape, r, call).registry;
            var index := Position(r.runs, call.id);
            && s.active == r.active && s.pending == r.pending
            && (s.runs == r.runs
                || (index < |r.runs| && s.runs == r.runs[index := NextRecord(r.runs[index], call)]))
  {
    match call
    case Spawned(id) => SpawnedChanges(tape, r, id);
    case CancelRun(id, timeout) => CancelChanges(tape, r, id, timeout);
    case Acknowledge(id) => AcknowledgeChanges(tape, r, id);
  }

  lemma RecordCallHolds(tape: Tape, r: Registry, call: Call, held: Id)
    requires RecordCall(call) && Inv(r) && Held(r, held)
    ensures HeldOrDurable(r, CallResult(tape, r, call).registry, held)
  {
    OwnedIsRecorded(r, held);
    RecordCallChanges(tape, r, call);
    var index := Position(r.runs, call.id);
    if index < |r.runs| {
      UpdatedLookups(r.runs, index, NextRecord(r.runs[index], call), held, 0);
    }
  }

  lemma AbandonHolds(r: Registry, ticket: Pending, held: Id)
    requires Inv(r) && Held(r, held)
    ensures HeldOrDurable(r, BeginAbandon(r, ticket), held)
  {
    OwnedIsRecorded(r, held);
  }

  lemma ProbeHolds(r: Registry, id: Id, held: Id)
    requires Inv(r) && Held(r, held)
    ensures HeldOrDurable(r, FinishProbe(r, id).registry, held)
  {
    OwnedIsRecorded(r, held);
  }

  /**
   While the registry lives, a call never removes the record of a run that holds its lock,
   and the lock and the lease go only when the ledger on disk records the run as settled.
   */
  lemma ReleasedOnlyWhenDurable(tape: Tape, r: Registry, call: Call, id: Id)
    requires Inv(r) && Held(r, id)
    requires Enabled(tape, Up(r), call) && OfRegistry(call)
    ensures HeldOrDurable(r, CallResult(tape, r, call).registry, id)
  {
    match call
    case Reserve(q) => ReserveHolds(tape, r, q, id);
    case Abandon(ticket) => AbandonHolds(r, ticket, id);
    case Commit(ticket, prepared) => CommitHolds(tape, r, ticket, prepared, id);
    case Finish(other, e) => FinishHolds(tape, r, other, e, id);
    case Pin(other, pinned, intact) => PinHolds(tape, r, other, pinned, intact, id);
    case Probe(other) => ProbeHolds(r, other, id);
    case _ => RecordCallHolds(tape, r, call, id);
  }

  /**
   The statement over histories: from an empty disk, after any calls, crashes and restarts,
   a run whose cleanup is not durably confirmed still holds its lock in the living registry
   and stands unsettled in the ledger on disk; a released run stands there settled, if at all.
   */
  lemma EveryHistoryHoldsUnsettledRuns(tape: Tape, calls: seq<Call>, id: Id)
    requires AllEnabled(tape, Down(EMPTY_DISK, 0), calls)
    requires History(tape, Down(EMPTY_DISK, 0), calls).Up?
    requires id in History(tape, Down(EMPTY_DISK, 0), calls).registry.active
    ensures var r := History(tape, Down(EMPTY_DISK, 0), calls).registry;
            && Has(r.runs, id)
            && (!r.runs[Position(r.runs, id)].Settled() ==>
                  Held(r, id) && Has(r.disk.ledger.runs, id) && !SettledIn(r.disk.ledger, id))
            && (!Held(r, id) && Has(r.disk.ledger.runs, id) ==> SettledIn(r.disk.ledger, id))
  {
    HistoryKeeps(tape, Down(EMPTY_DISK, 0), calls);
    UnsettledIsHeld(History(tape, Down(EMPTY_DISK, 0), calls).registry, id);
  }

  lemma UnsettledIsHeld(r: Registry, id: Id)
    requires Holding(r) && DiskKnows(r, r.disk.ledger) && DistinctRuns(r.disk.ledger.runs) && id in r.active
    ensures Has(r.runs, id)
    ensures !r.runs[Position(r.runs, id)].Settled() ==>
      Held(r, id) && Has(r.disk.ledger.runs, id) && !SettledIn(r.disk.ledger, id)
    ensures !Held(r, id) && Has(r.disk.ledger.runs, id) ==> SettledIn(r.disk.ledger, id)
  {
    var i := Position(r.runs, id);
    if !r.runs[i].Settled() {
      var j :| 0 <= j < |r.disk.ledger.runs| && r.disk.ledger.runs[j].id == id && !r.disk.ledger.runs[j].Settled();
      UniquePosition(r.disk.ledger.runs, j);
    }
  }

  // ---------------------------------------------------------------- admission

  /** Identities are distinct and build outputs are never shared, over runs and reserved starts. */
  lemma EveryHistoryAdmitsApart(tape: Tape, calls: seq<Call>)
    requires AllEnabled(tape, Down(EMPTY_DISK, 0), calls)
    requires History(tape, Down(EMPTY_DISK, 0), calls).Up?
    ensures var r := History(tape, Down(EMPTY_DISK, 0), calls).registry;
            && (forall i, j :: 0 <= i < j < |r.runs| ==> r.runs[i].operation != r.runs[j].operation)
            && (forall i, j :: 0 <= i < |r.pending| && 0 <= j < |r.runs| ==> r.pending[i].operation != r.runs[j].operation)
            && (forall i, j :: 0 <= i < j < |r.pending| ==>
                  r.pending[i].operation != r.pending[j].operation && !Conflict(r.pending[i].outputs, r.pending[j].outputs))
            && (forall i, j :: 0 <= i < j < |r.runs| && r.runs[i].Busy() && r.runs[j].Busy() ==>
                  !Conflict(r.runs[i].outputs, r.runs[j].outputs))
            && (forall i, j :: 0 <= i < |r.pending| && 0 <= j < |r.runs| && r.runs[j].Busy() ==>
                  !Conflict(r.pending[i].outputs, r.runs[j].outputs))
  {
    HistoryKeeps(tape, Down(EMPTY_DISK, 0), calls);
    var r := History(tape, Down(EMPTY_DISK, 0), calls).registry;
    assert PendingApart(r) && PendingOutputs(r);
    assert forall i :: 0 <= i < |r.pending| ==> !OperationUsed(r.runs, r.pending[i].operation);
  }

  lemma {:induction false} TrimmedCounts(a: seq<Run>, b: seq<Run>)
    requires DistinctRuns(a) && DistinctRuns(b)
    requires forall run :: run in b ==> run in a
    ensures Unpinned(b) <= Unpinned(a)
    decreases |b|
  {
    if b != [] {
      var last := b[|b| - 1];
      assert last in b;
      var k :| 0 <= k < |a| && a[k] == last;
      CountsAt(a, k);
      var front := b[..|b| - 1];
      forall run | run in front ensures run in Without(a, k) {
        assert run in b && run in a;
        var m :| 0 <= m < |a| && a[m] == run;
        var n :| 0 <= n < |front| && front[n] == run;
        assert b[n].id != b[|b| - 1].id;
        WithoutHas(a, k, m);
      }
      WithoutDistinct(a, k);
      assert DistinctRuns(front);
      TrimmedCounts(Without(a, k), front);
    }
  }

  lemma SameCount(runs: seq<Run>, index: nat, run: Run)
    requires index < |runs| && run.pinned == runs[index].pinned
    ensures Unpinned(runs[index := run]) == Unpinned(runs)
  {
    CountsUpdate(runs, index, run);
  }

  lemma RecordCallCounts(tape: Tape, r: Registry, call: Call)
    requires RecordCall(call)
    ensures var s := CallResult(tape, r, call).registry;
            Unpinned(s.runs) == Unpinned(r.runs) && s.pending == r.pending
  {
    RecordCallChanges(tape, r, call);
    var index := Position(r.runs, call.id);
    if index < |r.runs| {
      SameCount(r.runs, index, NextRecord(r.runs[index], call));
    }
  }

  lemma FinishCounts(tape: Tape, r: Registry, id: Id, e: Ending)
    ensures var s := FinishObserved(tape, r, id, e).registry;
            Unpinned(s.runs) == Unpinned(r.runs) && s.pending == r.pending
  {
    if id in r.active && Has(r.runs, id) {
      var index := Position(r.runs, id);
      SameCount(r.runs, index, Concluded(r, id, e).runs[index]);
    }
  }

  lemma CommitCounts(tape: Tape, r: Registry, ticket: Pending, prepared: bool)
    requires Inv(r) && ticket in r.pending
    ensures var s := BeginCommit(tape, r, ticket, prepared).registry;
            Unpinned(s.runs) + |s.pending| <= Unpinned(r.runs) + |r.pending|
  {
    BeginAbandonKeeps(r, ticket);
    CountsAppend(r.runs, NewRun(ticket));
  }

  lemma PinCounts(tape: Tape, r: Registry, id: Id, intact: bool)
    ensures var s := PinResult(tape, r, id, true, intact).registry;
            Unpinned(s.runs) <= Unpinned(r.runs) && s.pending == r.pending
  {
    var index := Position(r.runs, id);
    if index < |r.runs| {
      CountsUpdate(r.runs, index, r.runs[index].(pinned := true));
    }
  }

  lemma ReserveCounts(tape: Tape, r: Registry, q: Request)
    requires Inv(r) && Room(r)
    ensures Room(BeginReserve(tape, r, q).registry)
  {
    if Admission(r, q).None? {
      TrimKeeps(tape, r, q.now);
      TrimmedCounts(r.runs, Trim(tape, r, q.now).registry.runs);
    }
  }

  /** Every call but a withdrawn pin keeps room for the reserved starts. */
  lemma RoomKept(tape: Tape, r: Registry, call: Call)
    requires Inv(r) && Room(r)
    requires Enabled(tape, Up(r), call) && OfRegistry(call)
    requires call.Pin? ==> call.pinned
    ensures Room(CallResult(tape, r, call).registry)
  {
    match call
    case Reserve(q) => ReserveCounts(tape, r, q);
    case Abandon(ticket) => BeginAbandonKeeps(r, ticket);
    case Commit(ticket, prepared) => CommitCounts(tape, r, ticket, prepared);
    case Probe(id) =>
    case Finish(id, e) => FinishCounts(tape, r, id, e);
    case Pin(id, pinned, intact) => PinCounts(tape, r, id, intact);
    case _ => RecordCallCounts(tape, r, call);
  }

  /** Retiring a record that may rotate, when it goes through, takes one unpinned record away. */
  lemma RemovedCounts(tape: Tape, r: Registry, index: nat)
    requires index < |r.runs| && RemoveHistory(tape, r, index).ok
    ensures Unpinned(RemoveHistory(tape, r, index).registry.runs) == Unpinned(r.runs) - 1
  {
    CountsAt(r.runs, index);
    RetireSteps(tape, r, index);
  }

  /** Making room for one record: at most one goes, and only from a full history. */
  lemma RoomForOne(tape: Tape, r: Registry)
    requires MakeRoom(tape, r, 0).ok && Unpinned(r.runs) <= RUN_RECORD_LIMIT
    ensures Unpinned(MakeRoom(tape, r, 0).registry.runs)
         == if Unpinned(r.runs) == RUN_RECORD_LIMIT then RUN_RECORD_LIMIT - 1 else Unpinned(r.runs)
  {
    if Unpinned(r.runs) == RUN_RECORD_LIMIT {
      RemovedCounts(tape, r, FirstRotatable(r, 0));
    }
  }

  /**
   Withdrawing a pin does not count the reserved starts. When it goes through, room is kept
   if and only if no start was reserved or the bound was not reached before the call.
   */
  lemma UnpinKeepsRoomIff(tape: Tape, r: Registry, id: Id)
    requires Inv(r) && Has(r.runs, id) && r.runs[Position(r.runs, id)].pinned
    requires PinResult(tape, r, id, false, true).ok
    ensures Room(PinResult(tape, r, id, false, true).registry) <==>
      r.pending == [] || Unpinned(r.runs) + |r.pending| < RUN_RECORD_LIMIT
  {
    RunAt(r, Position(r.runs, id));
    MakeRoomKeeps(tape, r, 0);
    RoomForOne(tape, r);
    var s := MakeRoom(tape, r, 0).registry;
    PinnedStays(r, s, id);
    UnpinCounts(tape, s, id);
  }

  lemma PinnedStays(r: Registry, s: Registry, id: Id)
    requires Trimmed(r, s) && DistinctRuns(s.runs)
    requires Has(r.runs, id) && r.runs[Position(r.runs, id)].pinned
    ensures Has(s.runs, id) && s.runs[Position(s.runs, id)].pinned
  {
    var run := r.runs[Position(r.runs, id)];
    assert run in r.runs && !CanRotate(r, run);
    var k :| 0 <= k < |s.runs| && s.runs[k] == run;
    UniquePosition(s.runs, k);
  }

  lemma UnpinCounts(tape: Tape, r: Registry, id: Id)
    requires Has(r.runs, id) && r.runs[Position(r.runs, id)].pinned
    requires SetPin(tape, r, id, false).ok
    ensures var s := SetPin(tape, r, id, false).registry;
            Unpinned(s.runs) == Unpinned(r.runs) + 1 && s.pending == r.pending
  {
    var index := Position(r.runs, id);
    CountsUpdate(r.runs, index, r.runs[index].(pinned := false));
  }

  // ---------------------------------------------------------------- retirement

  /** In every crash state the records on disk keep their files and the bodies they name. */
  lemma EveryCrashKeepsFiles(tape: Tape, calls: seq<Call>)
    requires AllEnabled(tape, Down(EMPTY_DISK, 0), calls)
    ensures var disk := DiskOf(History(tape, Down(EMPTY_DISK, 0), calls));
            forall i :: 0 <= i < |disk.ledger.runs| ==>
              var run := disk.ledger.runs[i];
              && (forall f :: f in disk.expired ==> f.id != run.id)
              && (run.result ==> ResultFile(run.id) in disk.files)
              && (run.events ==> EventsFile(run.id) in disk.files)
  {
    HistoryKeeps(tape, Down(EMPTY_DISK, 0), calls);
    var disk := DiskOf(History(tape, Down(EMPTY_DISK, 0), calls));
    assert Kept(disk, disk.ledger.runs);
    forall i | 0 <= i < |disk.ledger.runs|
      ensures KeptRun(disk, disk.ledger.runs[i].id, disk.ledger.runs[i].result, disk.ledger.runs[i].events)
    {
    }
  }

  lemma TrimmedKeepsRecord(r: Registry, s: Registry, index: nat)
    requires Trimmed(r, s) && index < |r.runs| && !CanRotate(r, r.runs[index])
    ensures Has(s.runs, r.runs[index].id)
  {
    assert r.runs[index] in r.runs;
    var k :| 0 <= k < |s.runs| && s.runs[k] == r.runs[index];
  }

  lemma UnpinKeepsRecord(tape: Tape, r: Registry, id: Id, index: nat)
    requires Inv(r) && index < |r.runs| && !CanRotate(r, r.runs[index])
    ensures Has(PinResult(tape, r, id, false, true).registry.runs, r.runs[index].id)
  {
    PinResults(tape, r, id, false, true);
    MakeRoomKeeps(tape, r, 0);
    var room := MakeRoom(tape, r, 0).registry;
    TrimmedKeepsRecord(r, room, index);
    SetPinKeepsRecord(tape, room, id, false, r.runs[index].id);
  }

  lemma SetPinKeepsRecord(tape: Tape, r: Registry, id: Id, pinned: bool, kept: Id)
    requires Has(r.runs, kept)
    ensures Has(SetPin(tape, r, id, pinned).registry.runs, kept)
  {
    var index := Position(r.runs, id);
    if index < |r.runs| {
      UpdatedLookups(r.runs, index, r.runs[index].(pinned := pinned), kept, 0);
    }
  }

  lemma ReserveKeepsRecord(tape: Tape, r: Registry, q: Request, index: nat)
    requires Inv(r) && index < |r.runs| && !CanRotate(r, r.runs[index])
    ensures Has(BeginReserve(tape, r, q).registry.runs, r.runs[index].id)
  {
    assert r.runs[index].id == r.runs[index].id;
    TrimKeeps(tape, r, q.now);
    TrimmedKeepsRecord(r, Trim(tape, r, q.now).registry, index);
  }

  predicate Unrotatable(run: Run) {
    run.pinned || run.state.IsLive() || !run.cleanup
  }

  /** The two calls that rotate never retire a pinned, live, unconfirmed or finishing run. */
  lemma OnlyRotatableRunsGo(tape: Tape, r: Registry, call: Call, index: nat)
    requires Inv(r) && index < |r.runs|
    requires call.Reserve? || (call.Pin? && !call.pinned)
    requires
      var run := r.runs[index];
      Unrotatable(run) || (run.id in r.active && r.active[run.id].finishing)
    ensures Has(CallResult(tape, r, call).registry.runs, r.runs[index].id)
  {
    match call
    case Reserve(q) => ReserveKeepsRecord(tape, r, q, index);
    case Pin(id, _, intact) =>
      PinIgnoresIntact(tape, r, id, intact);
      UnpinKeepsRecord(tape, r, id, index);
  }

  /** Nor does the expiry that opening performs: a live run stays, as one of unknown outcome. */
  lemma OpeningKeepsUnrotatableRuns(tape: Tape, disk: Disk, clock: nat, now: nat, index: nat)
    requires DiskInv(disk) && index < |disk.ledger.runs| && Unrotatable(disk.ledger.runs[index])
    ensures Recovered(disk.ledger.runs[index]) in Open(tape, disk, clock, now).registry.runs
  {
    OpenedKeeps(disk, clock);
    var r := Opened(disk, clock);
    RecoveredStays(disk, clock, index);
    PersistKeeps(tape, r);
    var saved := Persist(tape, r);
    CleanupKeeps(tape, saved.registry);
    var cleaned := CleanupRetired(tape, saved.registry);
    ExpireHistoryKeeps(tape, cleaned.registry, now);
    assert !CanRotate(cleaned.registry, r.runs[index]);
  }

  lemma RecoveredStays(disk: Disk, clock: nat, index: nat)
    requires Wellformed(disk.ledger.runs) && index < |disk.ledger.runs| && Unrotatable(disk.ledger.runs[index])
    ensures Recovered(disk.ledger.runs[index]) in Opened(disk, clock).runs
    ensures Unrotatable(Recovered(disk.ledger.runs[index]))
  {
    assert Opened(disk, clock).runs[index] == Recovered(disk.ledger.runs[index]);
    assert disk.ledger.runs[index].Wellformed();
  }

  lemma PinIgnoresIntact(tape: Tape, r: Registry, id: Id, intact: bool)
    ensures PinResult(tape, r, id, false, intact) == PinResult(tape, r, id, false, true)
  {
  }
}
