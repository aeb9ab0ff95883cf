/** A run that was started under a source lease holds it as long as it holds its lock. */
module RegistryLeases {
  import opened Faults
  import opened RunLedger
  import opened RegistrySpec
  import opened RegistryInvariant
  import opened RegistryRetention
  import opened RegistryRuns
  import opened RegistryHistory

  predicate Leased(run: Run, active: map<Id, Active>) {
    run.id in active && active[run.id].runUse && run.identity.Some? ==> active[run.id].lease
  }

  predicate LeasesHeld(r: Registry) {
    forall i :: 0 <= i < |r.runs| ==> Leased(r.runs[i], r.active)
  }

  lemma TrimmedLeases(r: Registry, s: Registry)
    requires Trimmed(r, s) && LeasesHeld(r)
    ensures LeasesHeld(s)
  {
    forall i | 0 <= i < |s.runs| ensures Leased(s.runs[i], s.active) {
      assert s.runs[i] in r.runs;
      var k :| 0 <= k < |r.runs| && r.runs[k] == s.runs[i];
      assert Leased(r.runs[k], r.active);
    }
  }

  lemma UpdatedLeases(r: Registry, s: Registry, index: nat, run: Run)
    requires LeasesHeld(r) && index < |r.runs|
    requires s.runs == r.runs || s.runs == r.runs[index := run]
    requires run.id == r.runs[index].id && run.identity == r.runs[index].identity
    requires s.active == r.active
    ensures LeasesHeld(s)
  {
    assert Leased(r.runs[index], r.active);
  }

  /** One owned run changes hands: its lease goes with its lock or stays. */
  lemma HandedLeases(r: Registry, s: Registry, id: Id, a: Active)
    requires LeasesHeld(r) && id in r.active && s.active == r.active[id := a]
    requires a.runUse ==> r.active[id].runUse && a.lease == r.active[id].lease
    requires |s.runs| == |r.runs|
    requires forall i :: 0 <= i < |r.runs| ==> s.runs[i].id == r.runs[i].id && s.runs[i].identity == r.runs[i].identity
    ensures LeasesHeld(s)
  {
    forall i | 0 <= i < |s.runs| ensures Leased(s.runs[i], s.active) {
      assert Leased(r.runs[i], r.active);
    }
  }

  lemma SetPinLeases(tape: Tape, r: Registry, id: Id, pinned: bool)
    requires LeasesHeld(r)
    ensures LeasesHeld(SetPin(tape, r, id, pinned).registry)
  {
    var index := Position(r.runs, id);
    if index < |r.runs| {
      var run := r.runs[index].(pinned := pinned);
      PersistMemory(tape, WithRun(r, index, run));
      UpdatedLeases(r, SetPin(tape, r, id, pinned).registry, index, run);
    }
  }

  lemma PinLeases(tape: Tape, r: Registry, id: Id, pinned: bool, intact: bool)
    requires Inv(r) && LeasesHeld(r)
    ensures LeasesHeld(PinResult(tape, r, id, pinned, intact).registry)
  {
    PinResults(tape, r, id, pinned, intact);
    var room := if pinned then r else MakeRoom(tape, r, 0).registry;
    if !pinned {
      MakeRoomKeeps(tape, r, 0);
      TrimmedLeases(r, room);
    }
    SetPinLeases(tape, room, id, pinned);
  }

  lemma RecordCallLeases(tape: Tape, r: Registry, call: Call)
    requires RecordCall(call) && LeasesHeld(r)
    ensures LeasesHeld(CallResult(tape, r, call).registry)
  {
    RecordCallChanges(tape, r, call);
    var index := Position(r.runs, call.id);
    if index < |r.runs| {
      UpdatedLeases(r, CallResult(tape, r, call).registry, index, NextRecord(r.runs[index], call));
    }
  }

  lemma ReserveLeases(tape: Tape, r: Registry, q: Request)
    requires Inv(r) && LeasesHeld(r)
    ensures LeasesHeld(BeginReserve(tape, r, q).registry)
  {
    TrimKeeps(tape, r, q.now);
    TrimmedLeases(r, Trim(tape, r, q.now).registry);
  }

  lemma CommitLeases(tape: Tape, r: Registry, ticket: Pending, prepared: bool)
    requires LeasesHeld(r) && !Has(r.runs, ticket.id)
    ensures LeasesHeld(BeginCommit(tape, r, ticket, prepared).registry)
  {
    var s := BeginCommit(tape, r, ticket, prepared).registry;
    forall i | 0 <= i < |s.runs| ensures Leased(s.runs[i], s.active) {
      if i < |r.runs| {
        assert r.runs[i].id != ticket.id && Leased(r.runs[i], r.active);
      }
    }
  }

  lemma CapturedActive(r: Registry, id: Id, e: Ending)
    requires id in r.active
    ensures var c := Capture(r, id, e);
            && c.runs == r.runs && id in c.active && c.active == r.active[id := c.active[id]]
            && c.active[id].runUse == r.active[id].runUse && c.active[id].lease == r.active[id].lease
  {
  }

  lemma FinishLeases(tape: Tape, r: Registry, id: Id, e: Ending)
    requires LeasesHeld(r)
    ensures LeasesHeld(FinishObserved(tape, r, id, e).registry)
  {
    if id in r.active {
      CapturedActive(r, id, e);
      var captured := Capture(r, id, e);
      if Has(r.runs, id) {
        var c := Concluded(r, id, e);
        var saved := Persist(tape, c).registry;
        PersistMemory(tape, c);
        HandedLeases(r, saved, id, captured.active[id]);
        HandedLeases(saved, Release(saved, id, e.cleanup), id, Release(saved, id, e.cleanup).active[id]);
      } else {
        HandedLeases(r, captured, id, captured.active[id]);
      }
    }
  }

  lemma ProbeLeases(r: Registry, id: Id)
    requires LeasesHeld(r)
    ensures LeasesHeld(FinishProbe(r, id).registry)
  {
    if id in r.active {
      HandedLeases(r, FinishProbe(r, id).registry, id, r.active[id].(finishing := true));
    }
  }

  lemma CallLeases(tape: Tape, r: Registry, call: Call)
    requires Inv(r) && LeasesHeld(r) && Enabled(tape, Up(r), call) && OfRegistry(call)
    ensures LeasesHeld(CallResult(tape, r, call).registry)
  {
    match call
    case Reserve(q) => ReserveLeases(tape, r, q);
    case Abandon(_) =>
    case Commit(ticket, prepared) => TicketIsNew(r, ticket); CommitLeases(tape, r, ticket, prepared);
    case Finish(id, e) => FinishLeases(tape, r, id, e);
    case Pin(id, pinned, intact) => PinLeases(tape, r, id, pinned, intact);
    case Probe(id) => ProbeLeases(r, id);
    case _ => RecordCallLeases(tape, r, call);
  }

  lemma TicketIsNew(r: Registry, ticket: Pending)
    requires Inv(r) && ticket in r.pending
    ensures !Has(r.runs, ticket.id)
  {
    var k :| 0 <= k < |r.pending| && r.pending[k] == ticket;
    assert PendingApart(r);
  }

  lemma OpenLeases(tape: Tape, disk: Disk, clock: nat, now: nat)
    requires DiskInv(disk)
    ensures LeasesHeld(Open(tape, disk, clock, now).registry)
  {
    OpenedKeeps(disk, clock);
    PersistKeeps(tape, Opened(disk, clock));
    var saved := Persist(tape, Opened(disk, clock));
    CleanupKeeps(tape, saved.registry);
    var cleaned := CleanupRetired(tape, saved.registry).registry;
    ExpireHistoryKeeps(tape, cleaned, now);
    TrimmedLeases(cleaned, ExpireHistory(tape, cleaned, now).registry);
  }

  lemma {:induction false} HistoryLeases(tape: Tape, w: World, calls: seq<Call>)
    requires Good(w) && (w.Up? ==> LeasesHeld(w.registry)) && AllEnabled(tape, w, calls)
    ensures History(tape, w, calls).Up? ==> LeasesHeld(History(tape, w, calls).registry)
    decreases |calls|
  {
    if calls != [] {
      DoKeeps(tape, w, calls[0]);
      match calls[0] {
        case Start(now) => OpenLeases(tape, w.disk, w.clock, now);
        case Crash =>
        case OtherHost(_) =>
        case _ => CallLeases(tape, w.registry, calls[0]);
      }
      HistoryLeases(tape, Do(tape, w, calls[0]), calls[1..]);
    }
  }

  /**
   After any history from the empty disk, an owned run that is not settled and was started
   with a source identity still holds its source lease, beside its lock.
   */
  lemma EveryHistoryHoldsLeases(tape: Tape, calls: seq<Call>, index: nat)
    requires AllEnabled(tape, Down(EMPTY_DISK, 0), calls)
    requires History(tape, Down(EMPTY_DISK, 0), calls).Up?
    requires index < |History(tape, Down(EMPTY_DISK, 0), calls).registry.runs|
    ensures var r := History(tape, Down(EMPTY_DISK, 0), calls).registry;
            LeasedWhileUnsettled(r.runs[index], r.active)
  {
    EveryHistoryIsLeased(tape, calls);
    GoodIsLeased(History(tape, Down(EMPTY_DISK, 0), calls), index);
  }

  lemma EmptyIsGood()
    ensures Good(Down(EMPTY_DISK, 0))
  {
  }

  lemma EveryHistoryIsLeased(tape: Tape, calls: seq<Call>)
    requires AllEnabled(tape, Down(EMPTY_DISK, 0), calls)
    ensures var w := History(tape, Down(EMPTY_DISK, 0), calls); Good(w) && (w.Up? ==> LeasesHeld(w.registry))
  {
    EmptyIsGood();
    HistoryKeeps(tape, Down(EMPTY_DISK, 0), calls);
    HistoryLeases(tape, Down(EMPTY_DISK, 0), calls);
  }

  predicate LeasedWhileUnsettled(run: Run, active: map<Id, Active>) {
    run.id in active && !run.Settled() ==> active[run.id].runUse && (run.identity.Some? ==> active[run.id].lease)
  }

  lemma GoodIsLeased(w: World, index: nat)
    requires Good(w) && w.Up? && LeasesHeld(w.registry) && index < |w.registry.runs|
    ensures LeasedWhileUnsettled(w.registry.runs[index], w.registry.active)
  {
    UnsettledIsLeased(w.registry, index);
  }

  lemma UnsettledIsLeased(r: Registry, index: nat)
    requires Holding(r) && LeasesHeld(r) && index < |r.runs|
    ensures LeasedWhileUnsettled(r.runs[index], r.active)
  {
    assert Leased(r.runs[index], r.active);
  }
}
