/**
 A history after which withdrawing a pin loses the room for a reserved start: 64 runs end one
 after the other, the last result is pinned, and one more start is reserved.
 */
module RegistryCrowded {
  import opened Faults
  import opened RunLedger
  import opened RegistrySpec
  import opened RegistryInvariant
  import opened RegistryRuns
  import opened RegistryHistory

  ghost predicate LeadsTo(tape: Tape, v: World, end: World) {
    exists calls :: Leads(tape, v, calls, end)
  }

  lemma {:induction false} LeadsOn(tape: Tape, v: World, a: seq<Call>, middle: World, b: seq<Call>, end: World)
    requires Leads(tape, v, a, middle) && Leads(tape, middle, b, end)
    ensures Leads(tape, v, a + b, end)
    decreases |a|
  {
    if a == [] {
      assert a + b == b;
    } else {
      assert (a + b)[1..] == a[1..] + b;
      LeadsOn(tape, Do(tape, v, a[0]), a[1..], middle, b, end);
    }
  }

  lemma CallLeads(tape: Tape, v: World, middle: World, call: Call)
    requires LeadsTo(tape, v, middle) && Enabled(tape, middle, call)
    ensures LeadsTo(tape, v, Do(tape, middle, call))
  {
    var a :| Leads(tape, v, a, middle);
    var end := Do(tape, middle, call);
    Then(tape, middle, call, end, [], end);
    assert [call] + [] == [call];
    LeadsOn(tape, v, a, middle, [call], end);
  }

  // ---------------------------------------------------------------- ended runs

  function RequestOf(n: nat): Request {
    Request(Task(0, n), 0, n, false, None, [], true, 0, true, 0, n)
  }

  function Ticket(n: nat): Pending {
    Pending(n, n, Task(0, n), 0, None, [])
  }

  const ENDING := Ending(Some(Clean), true, false, Captured(false, false), 0, 0)

  predicate IsEnded(run: Run, n: nat) {
    && run.id == n && run.operation == n && run.state == Succeeded && run.cleanup
    && run.finishedAt == Some(0) && run.retainedBytes == 0
  }

  /** `n` runs have ended, nothing is reserved or retired, and the last result may be pinned. */
  predicate Filled(r: Registry, n: nat, pins: nat) {
    && |r.runs| == n && r.pending == [] && r.retired == [] && r.disk.expired == {}
    && pins <= n && Unpinned(r.runs) == n - pins && PinnedBytes(r.runs) == 0
    && (forall i :: 0 <= i < n ==> IsEnded(r.runs[i], i))
  }

  lemma FilledAdmits(r: Registry, n: nat, pins: nat)
    requires Filled(r, n, pins)
    ensures Admission(r, RequestOf(n)).None?
    ensures TicketFits(r, Ticket(n))
  {
    assert forall i :: 0 <= i < n ==> IsEnded(r.runs[i], i);
    assert LiveRun(r.runs, Task(0, n)).None?;
  }

  lemma FilledTrims(tape: Tape, r: Registry, n: nat, pins: nat)
    requires Filled(r, n, pins) && n - pins < RUN_RECORD_LIMIT
    ensures Trim(tape, r, 0) == Step(r, true)
  {
    assert forall i :: 0 <= i < n ==> IsEnded(r.runs[i], i);
    assert forall i :: 0 <= i < n ==> !Expired(r, r.runs[i], 0);
  }

  /** A start is reserved beside the ended runs. */
  lemma FilledReserves(tape: Tape, r: Registry, n: nat, pins: nat)
    requires Filled(r, n, pins) && n - pins < RUN_RECORD_LIMIT
    ensures Enabled(tape, Up(r), Reserve(RequestOf(n)))
    ensures Do(tape, Up(r), Reserve(RequestOf(n))) == Up(r.(pending := [Ticket(n)]))
  {
    FilledAdmits(r, n, pins);
    FilledTrims(tape, r, n, pins);
  }

  lemma DropsOnly(ticket: Pending)
    ensures Dropped([ticket], ticket.id) == []
  {
    assert [ticket][1..] == [];
  }

  /** It is committed. */
  lemma FilledCommits(tape: Tape, r: Registry, n: nat)
    requires QuietFrom(tape, 0) && Inv(r) && Filled(r, n, 0) && n < RUN_RECORD_LIMIT
    ensures var s := BeginCommit(tape, r.(pending := [Ticket(n)]), Ticket(n), true).registry;
            && s.runs == r.runs + [NewRun(Ticket(n))] && s.pending == [] && s.retired == [] && s.disk.expired == {}
            && n in s.active && s.active[n].runUse && s.active[n].captured.None?
  {
    DropsOnly(Ticket(n));
    FilledAdmits(r, n, 0);
    StartedCompatible(r, Ticket(n));
    assert ValidLedger(Started(r, Ticket(n)).Memory());
    assert tape(r.clock) == Done;
  }

  /** Where the end of the last run leads, whatever becomes of its save. */
  lemma LastEnds(tape: Tape, s: Registry, runs: seq<Run>, n: nat)
    requires DistinctRuns(s.runs) && s.runs == runs + [NewRun(Ticket(n))] && |runs| == n
    requires n in s.active && s.active[n].captured.None?
    ensures Has(s.runs, n) && Position(s.runs, n) == n
    ensures var e := FinishObserved(tape, s, n, ENDING).registry;
            && e.pending == s.pending && e.retired == s.retired && e.disk.expired == s.disk.expired
            && exists run :: IsEnded(run, n) && !run.pinned && e.runs == runs + [run]
  {
    assert s.runs[n] == NewRun(Ticket(n));
    UniquePosition(s.runs, n);
    var c := Concluded(s, n, ENDING);
    PersistMemory(tape, c);
    var run := FinishedRun(s.runs[n], Some(Captured(false, false)), ENDING);
    assert IsEnded(run, n) && !run.pinned;
    assert c.runs == s.runs[n := run] == runs + [run];
  }

  lemma AppendedFills(r: Registry, runs: seq<Run>, run: Run, n: nat)
    requires |runs| == n && Unpinned(runs) == n && PinnedBytes(runs) == 0
    requires forall i :: 0 <= i < n ==> IsEnded(runs[i], i)
    requires IsEnded(run, n) && !run.pinned && r.runs == runs + [run]
    requires r.pending == [] && r.retired == [] && r.disk.expired == {}
    ensures Filled(r, n + 1, 0)
  {
    CountsAppend(runs, run);
  }

  lemma FilledEnds(tape: Tape, s: Registry, r: Registry, n: nat)
    requires DistinctRuns(s.runs) && Filled(r, n, 0) && s.runs == r.runs + [NewRun(Ticket(n))]
    requires s.pending == [] && s.retired == [] && s.disk.expired == {}
    requires n in s.active && s.active[n].runUse && s.active[n].captured.None?
    ensures EndingAllowed(s, n, ENDING)
    ensures Filled(FinishObserved(tape, s, n, ENDING).registry, n + 1, 0)
  {
    LastEnds(tape, s, r.runs, n);
    var e := FinishObserved(tape, s, n, ENDING).registry;
    var run :| IsEnded(run, n) && !run.pinned && e.runs == r.runs + [run];
    AppendedFills(e, r.runs, run, n);
  }

  // ---------------------------------------------------------------- the history

  predicate FilledUp(v: World, n: nat, pins: nat) {
    v.Up? && Inv(v.registry) && Filled(v.registry, n, pins)
  }

  /** Beside the ended runs of `r` the next one has been committed. */
  predicate Running(s: Registry, r: Registry, n: nat) {
    && s.runs == r.runs + [NewRun(Ticket(n))] && s.pending == [] && s.retired == [] && s.disk.expired == {}
    && n in s.active && s.active[n].runUse && s.active[n].captured.None?
  }

  lemma OneCommitted(tape: Tape, v: World, w: World, n: nat) returns (end: World)
    requires QuietFrom(tape, 0) && LeadsTo(tape, v, w) && FilledUp(w, n, 0) && n < RUN_RECORD_LIMIT
    ensures LeadsTo(tape, v, end) && end.Up? && Inv(end.registry) && Running(end.registry, w.registry, n)
  {
    FilledReserves(tape, w.registry, n, 0);
    CallLeads(tape, v, w, Reserve(RequestOf(n)));
    DoKeeps(tape, w, Reserve(RequestOf(n)));
    var reserved := Do(tape, w, Reserve(RequestOf(n)));
    assert Ticket(n) in reserved.registry.pending;
    FilledCommits(tape, w.registry, n);
    CallLeads(tape, v, reserved, Commit(Ticket(n), true));
    DoKeeps(tape, reserved, Commit(Ticket(n), true));
    end := Do(tape, reserved, Commit(Ticket(n), true));
  }

  lemma DistinctRecords(r: Registry)
    requires Inv(r)
    ensures DistinctRuns(r.runs)
  {
  }

  lemma FinishFills(tape: Tape, s: Registry, r: Registry, n: nat)
    requires DistinctRuns(s.runs) && Running(s, r, n) && Filled(r, n, 0)
    ensures Enabled(tape, Up(s), Finish(n, ENDING))
    ensures var v := Do(tape, Up(s), Finish(n, ENDING)); v.Up? && Filled(v.registry, n + 1, 0)
  {
    FilledEnds(tape, s, r, n);
  }

  lemma OneEnded(tape: Tape, v: World, s: Registry, r: Registry, n: nat) returns (end: World)
    requires LeadsTo(tape, v, Up(s)) && Inv(s) && Running(s, r, n) && Filled(r, n, 0)
    ensures LeadsTo(tape, v, end) && FilledUp(end, n + 1, 0)
  {
    DistinctRecords(s);
    FinishFills(tape, s, r, n);
    CallLeads(tape, v, Up(s), Finish(n, ENDING));
    DoKeeps(tape, Up(s), Finish(n, ENDING));
    end := Do(tape, Up(s), Finish(n, ENDING));
  }

  lemma Opens(tape: Tape) returns (end: World)
    requires QuietFrom(tape, 0)
    ensures LeadsTo(tape, Down(EMPTY_DISK, 0), end) && FilledUp(end, 0, 0)
  {
    var start := Down(EMPTY_DISK, 0);
    assert Leads(tape, start, [], start);
    DoKeeps(tape, start, Start(0));
    CallLeads(tape, start, start, Start(0));
    end := Do(tape, start, Start(0));
    assert tape(0) == Done;
  }

  lemma {:induction false} ManyRuns(tape: Tape, n: nat) returns (end: World)
    requires QuietFrom(tape, 0) && n <= RUN_RECORD_LIMIT
    ensures LeadsTo(tape, Down(EMPTY_DISK, 0), end) && FilledUp(end, n, 0)
  {
    if n == 0 {
      end := Opens(tape);
    } else {
      var before := ManyRuns(tape, n - 1);
      var committed := OneCommitted(tape, Down(EMPTY_DISK, 0), before, n - 1);
      end := OneEnded(tape, Down(EMPTY_DISK, 0), committed.registry, before.registry, n - 1);
    }
  }

  /** A pin set or withdrawn on an undisturbed disk. */
  lemma PinGoesThrough(tape: Tape, r: Registry, index: nat, pinned: bool)
    requires QuietFrom(tape, 0) && DistinctRuns(r.runs) && index < |r.runs| && r.runs[index].id == index
    requires ValidLedger(Ledger(r.runs[index := r.runs[index].(pinned := pinned)], r.retired))
    ensures SetPin(tape, r, index, pinned).ok
    ensures var s := SetPin(tape, r, index, pinned).registry;
            s.runs == r.runs[index := r.runs[index].(pinned := pinned)] && s.pending == r.pending
            && s.retired == r.retired && s.disk.expired == r.disk.expired
  {
    UniquePosition(r.runs, index);
    assert tape(r.clock) == Done;
  }

  lemma FilledPins(tape: Tape, r: Registry)
    requires QuietFrom(tape, 0) && Inv(r) && Filled(r, 64, 0)
    ensures Filled(PinResult(tape, r, 63, true, true).registry, 64, 1)
    ensures PinResult(tape, r, 63, true, true).registry.runs[63].pinned
  {
    assert IsEnded(r.runs[63], 63);
    NotPinned(r.runs, 63);
    var run := r.runs[63].(pinned := true);
    UniquePosition(r.runs, 63);
    RunAt(r, 63);
    UpdatedLedger(r.Memory(), 63, run);
    CountsUpdate(r.runs, 63, run);
    PinGoesThrough(tape, r, 63, true);
  }

  lemma NotPinned(runs: seq<Run>, index: nat)
    requires index < |runs| && Unpinned(runs) == |runs|
    ensures !runs[index].pinned
  {
    CountsAt(runs, index);
  }

  lemma CrowdedUnpins(tape: Tape, r: Registry)
    requires QuietFrom(tape, 0) && Inv(r) && Filled(r.(pending := []), 64, 1) && r.runs[63].pinned && r.pending != []
    ensures PinResult(tape, r, 63, false, true).ok
    ensures |r.pending| == 1 ==> Room(r) && !Room(PinResult(tape, r, 63, false, true).registry)
  {
    assert IsEnded(r.runs[63], 63);
    UniquePosition(r.runs, 63);
    RunAt(r, 63);
    UpdatedLedger(r.Memory(), 63, r.runs[63].(pinned := false));
    PinGoesThrough(tape, r, 63, false);
    UnpinKeepsRoomIff(tape, r, 63);
  }

  /**
   From the empty disk, without any fault: 64 runs end, the last result is pinned, a start is
   reserved, and withdrawing the pin goes through and takes the room of the reserved start.
   */
  lemma UnpinCanLoseRoom(tape: Tape)
    requires QuietFrom(tape, 0)
    ensures exists v: World ::
      && LeadsTo(tape, Down(EMPTY_DISK, 0), v) && v.Up? && Inv(v.registry) && Room(v.registry)
      && PinResult(tape, v.registry, 63, false, true).ok
      && !Room(PinResult(tape, v.registry, 63, false, true).registry)
  {
    var start := Down(EMPTY_DISK, 0);
    var full := ManyRuns(tape, 64);
    FilledPins(tape, full.registry);
    CallLeads(tape, start, full, Pin(63, true, true));
    DoKeeps(tape, full, Pin(63, true, true));
    var pinned := Do(tape, full, Pin(63, true, true));
    FilledReserves(tape, pinned.registry, 64, 1);
    CallLeads(tape, start, pinned, Reserve(RequestOf(64)));
    DoKeeps(tape, pinned, Reserve(RequestOf(64)));
    var crowded := Do(tape, pinned, Reserve(RequestOf(64)));
    assert crowded.registry.(pending := []) == pinned.registry;
    CrowdedUnpins(tape, crowded.registry);
  }
}
