/** The life of one run on a disk that does not fail: the histories of the main results do happen. */
module RegistryExample {
  import opened Faults
  import opened RunLedger
  import opened RegistrySpec
  import opened RegistryInvariant
  import opened RegistryRuns
  import opened RegistryHistory
  import opened RegistryCleanup

  const TASK := Task(1, 2)
  const REQUEST := Request(TASK, 5, 9, false, Some(["src"]), [["out"]], true, 5, true, 0, 7)
  const TICKET := Pending(7, 9, TASK, 5, Some(["src"]), [["out"]])
  const ENDING := Ending(Some(Clean), true, false, Captured(false, false), 0, 3)
  const OWNED := Active(true, true, false, None)

  function Record(state: RunState): Run {
    NewRun(TICKET).(state := state)
  }

  function OneRun(run: Run, active: Active, clock: nat): Registry {
    Registry([run], [], map[7 := active], [], Disk(Ledger([run], []), {LogFile(7), RunDirectory(7)}, {}), clock)
  }

  const EMPTY := Registry([], [], map[], [], EMPTY_DISK, 1)
  const RESERVED := EMPTY.(pending := [TICKET])
  const ENDED := Record(Succeeded).(cleanup := true, finishedAt := Some(3))

  lemma OpensEmpty(tape: Tape)
    requires QuietFrom(tape, 0)
    ensures Do(tape, Down(EMPTY_DISK, 0), Start(0)) == Up(EMPTY)
  {
    assert tape(0) == Done;
    assert Opened(EMPTY_DISK, 0) == EMPTY.(clock := 0);
  }

  lemma Reserves(tape: Tape)
    requires QuietFrom(tape, 0)
    ensures Enabled(tape, Up(EMPTY), Reserve(REQUEST))
    ensures Do(tape, Up(EMPTY), Reserve(REQUEST)) == Up(RESERVED)
  {
    assert Admission(EMPTY, REQUEST) == None;
    assert Trim(tape, EMPTY, 0) == Step(EMPTY, true);
  }

  lemma OneIsValid(run: Run)
    requires !run.pinned
    ensures ValidLedger(Ledger([run], []))
  {
    CountsOne(run);
  }

  lemma Commits(tape: Tape)
    requires QuietFrom(tape, 0)
    ensures Enabled(tape, Up(RESERVED), Commit(TICKET, true))
    ensures Do(tape, Up(RESERVED), Commit(TICKET, true)) == Up(OneRun(Record(Preparing), OWNED, 2))
  {
    assert TICKET in RESERVED.pending;
    assert BeginAbandon(RESERVED, TICKET) == EMPTY by {
      assert Dropped([TICKET], 7) == [] by { assert Dropped([TICKET][1..], 7) == []; }
    }
    OneIsValid(NewRun(TICKET));
    assert tape(1) == Done;
    assert EMPTY.runs + [NewRun(TICKET)] == [NewRun(TICKET)];
    assert EMPTY.disk.files + {LogFile(7), RunDirectory(7)} == {LogFile(7), RunDirectory(7)};
    assert EMPTY.active[7 := OWNED] == map[7 := OWNED];
  }

  lemma Spawns(tape: Tape)
    requires QuietFrom(tape, 0)
    ensures Do(tape, Up(OneRun(Record(Preparing), OWNED, 2)), Spawned(7)) == Up(OneRun(Record(Running), OWNED, 3))
  {
    var r := OneRun(Record(Preparing), OWNED, 2);
    OneIsValid(Record(Running));
    assert r.runs[0].id == 7 && Position(r.runs, 7) == 0;
    assert r.runs[0 := Record(Running)] == [Record(Running)];
    assert tape(2) == Done;
  }

  lemma Ends(tape: Tape)
    requires QuietFrom(tape, 0)
    ensures var r := OneRun(Record(Running), OWNED, 3);
      && Enabled(tape, Up(r), Finish(7, ENDING))
      && Do(tape, Up(r), Finish(7, ENDING))
         == Up(OneRun(ENDED, Active(false, false, false, Some(Captured(false, false))), 4))
  {
    var r := OneRun(Record(Running), OWNED, 3);
    assert r.runs[0].id == 7 && Has(r.runs, 7) && Position(r.runs, 7) == 0;
    var c := Concluded(r, 7, ENDING);
    assert c.runs == [ENDED];
    OneIsValid(ENDED);
    assert tape(3) == Done;
    assert Captures(Captured(false, false), 7) == {};
    assert r.disk.files + {} == r.disk.files;
    var released := Active(false, false, false, Some(Captured(false, false)));
    assert FinishObserved(tape, r, 7, ENDING).registry.active == map[7 := released];
  }

  const LAST := Up(OneRun(ENDED, Active(false, false, false, Some(Captured(false, false))), 4))

  lemma FromRunning(tape: Tape)
    requires QuietFrom(tape, 0)
    ensures Leads(tape, Up(OneRun(Record(Running), OWNED, 3)), [Finish(7, ENDING)], LAST)
  {
    Ends(tape);
    Then(tape, Up(OneRun(Record(Running), OWNED, 3)), Finish(7, ENDING), LAST, [], LAST);
    assert [Finish(7, ENDING)] + [] == [Finish(7, ENDING)];
  }

  lemma FromCommitted(tape: Tape)
    requires QuietFrom(tape, 0)
    ensures Leads(tape, Up(OneRun(Record(Preparing), OWNED, 2)), [Spawned(7), Finish(7, ENDING)], LAST)
  {
    Spawns(tape);
    FromRunning(tape);
    Then(tape, Up(OneRun(Record(Preparing), OWNED, 2)), Spawned(7), Up(OneRun(Record(Running), OWNED, 3)), [Finish(7, ENDING)], LAST);
    assert [Spawned(7)] + [Finish(7, ENDING)] == [Spawned(7), Finish(7, ENDING)];
  }

  lemma FromReserved(tape: Tape)
    requires QuietFrom(tape, 0)
    ensures Leads(tape, Up(RESERVED), [Commit(TICKET, true), Spawned(7), Finish(7, ENDING)], LAST)
  {
    Commits(tape);
    FromCommitted(tape);
    var rest := [Spawned(7), Finish(7, ENDING)];
    Then(tape, Up(RESERVED), Commit(TICKET, true), Up(OneRun(Record(Preparing), OWNED, 2)), rest, LAST);
    assert [Commit(TICKET, true)] + rest == [Commit(TICKET, true), Spawned(7), Finish(7, ENDING)];
  }

  lemma FromOpened(tape: Tape)
    requires QuietFrom(tape, 0)
    ensures Leads(tape, Up(EMPTY), [Reserve(REQUEST), Commit(TICKET, true), Spawned(7), Finish(7, ENDING)], LAST)
  {
    Reserves(tape);
    FromReserved(tape);
    var rest := [Commit(TICKET, true), Spawned(7), Finish(7, ENDING)];
    Then(tape, Up(EMPTY), Reserve(REQUEST), Up(RESERVED), rest, LAST);
    assert [Reserve(REQUEST)] + rest == [Reserve(REQUEST), Commit(TICKET, true), Spawned(7), Finish(7, ENDING)];
  }

  /** Reserved, committed, running, ended: the run is settled on disk, and its lock and lease are gone. */
  lemma OneRunLives(tape: Tape)
    requires QuietFrom(tape, 0)
    ensures Leads(tape, Down(EMPTY_DISK, 0),
                  [Start(0), Reserve(REQUEST), Commit(TICKET, true), Spawned(7), Finish(7, ENDING)], LAST)
    ensures ENDED.Settled() && LAST.registry.disk.ledger.runs == [ENDED] && !LAST.registry.active[7].runUse
  {
    OpensEmpty(tape);
    FromOpened(tape);
    var rest := [Reserve(REQUEST), Commit(TICKET, true), Spawned(7), Finish(7, ENDING)];
    Then(tape, Down(EMPTY_DISK, 0), Start(0), Up(EMPTY), rest, LAST);
    assert [Start(0)] + rest == [Start(0), Reserve(REQUEST), Commit(TICKET, true), Spawned(7), Finish(7, ENDING)];
  }

  /** That run's retirement can report failure and happen all the same, with the next start. */
  lemma ItsRetirementCanSlip(tape: Tape, slip: Tape, quiet: Tape)
    requires QuietFrom(tape, 0) && slip(4) == FailedAfter && QuietFrom(quiet, 0)
    ensures var s := Retire(slip, LAST.registry, 0);
            && !s.ok && s.registry.runs == [ENDED] && LogFile(7) in s.registry.disk.files
            && var after := CleanupAtStart(quiet, s.registry.disk).registry;
               !Has(after.runs, 7) && LogFile(7) !in after.disk.files
  {
    OneRunLives(tape);
    HistoryKeeps(tape, Down(EMPTY_DISK, 0), [Start(0), Reserve(REQUEST), Commit(TICKET, true), Spawned(7), Finish(7, ENDING)]);
    SlippedRetirementHappens(slip, quiet, LAST.registry, 0);
  }
}
