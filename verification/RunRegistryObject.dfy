/** The registry object of crates/idk/src/run.rs; every method follows one function of RegistrySpec. */
module RunRegistryObject {
  import opened Faults
  import opened RunLedger
  import opened RegistrySpec
  import opened RegistryInvariant
  import opened RegistryRuns

  class RunRegistry {
    const tape: Tape

    var runs: seq<Run>
    var retired: seq<Retired>
    var active: map<Id, Active>
    var pending: seq<Pending>
    var ledger: Ledger
    var files: set<File>
    ghost var expired: set<File>
    var clock: nat

    ghost function Abs(): Registry
      reads this
    {
      Registry(runs, retired, active, pending, Disk(ledger, files, expired), clock)
    }

    /** `open`, up to the recovered memory; the saves and the cleanup follow in `Recover`. */
    constructor (tape: Tape, ledger: Ledger, files: set<File>, ghost expired: set<File>, clock: nat)
      ensures this.tape == tape
      ensures Abs() == Opened(Disk(ledger, files, expired), clock)
    {
      this.tape := tape;
      runs := seq(|ledger.runs|, i requires 0 <= i < |ledger.runs| => Recovered(ledger.runs[i]));
      retired, active, pending := ledger.retired, map[], [];
      this.ledger, this.files, this.expired, this.clock := ledger, files, expired, clock;
    }

    method Recover(now: nat) returns (ok: bool)
      requires Abs() == Opened(Abs().disk, clock)
      modifies this
      ensures Step(Abs(), ok) == Open(tape, old(Abs().disk), old(clock), now)
      ensures DiskInv(old(Abs().disk)) ==> Inv(Abs())
    {
      if DiskInv(Abs().disk) {
        OpenKeeps(tape, Abs().disk, clock, now);
      }
      if !ValidLedger(ledger) { return false; }
      ok := Save();
      if !ok { return; }
      ok := Cleanup();
      if !ok { return; }
      ok := Expire(now);
    }

    // -------------------------------------------------------------- disk steps

    method NextOutcome() returns (outcome: Outcome)
      modifies `clock
      ensures outcome == tape(old(clock)) && clock == old(clock) + 1
    {
      outcome := tape(clock);
      clock := clock + 1;
    }

    method Save() returns (ok: bool)
      modifies this`ledger, this`clock
      ensures Step(Abs(), ok) == Persist(tape, old(Abs()))
    {
      if !ValidLedger(Ledger(runs, retired)) { return false; }
      var outcome := NextOutcome();
      if outcome != FailedBefore { ledger := Ledger(runs, retired); }
      ok := outcome == Done;
    }

    method DeleteFile(file: File) returns (ok: bool)
      modifies this`files, this`expired, this`clock
      ensures Step(Abs(), ok) == Delete(tape, old(Abs()), file)
    {
      if file !in files { return true; }
      var outcome := NextOutcome();
      if outcome != FailedBefore {
        files := files - {file};
        expired := expired + {file};
      }
      ok := outcome == Done;
    }

    method DeleteFiles(names: seq<File>) returns (ok: bool)
      modifies this`files, this`expired, this`clock
      ensures Step(Abs(), ok) == DeleteAll(tape, old(Abs()), names)
    {
      var k := 0;
      while k < |names|
        invariant 0 <= k <= |names|
        invariant DeleteAll(tape, Abs(), names[k..]) == DeleteAll(tape, old(Abs()), names)
      {
        ok := DeleteFile(names[k]);
        if !ok { return; }
        assert names[k..][1..] == names[k + 1..];
        k := k + 1;
      }
      ok := true;
    }

    // -------------------------------------------------------------- retention

    method Cleanup() returns (ok: bool)
      modifies this`retired, this`ledger, this`files, this`expired, this`clock
      ensures Step(Abs(), ok) == CleanupRetired(tape, old(Abs()))
    {
      while retired != []
        invariant CleanupRetired(tape, Abs()) == CleanupRetired(tape, old(Abs()))
        decreases |retired|
      {
        ok := ForgetOldest();
        if !ok { return; }
      }
      ok := true;
    }

    method ForgetOldest() returns (ok: bool)
      requires retired != []
      modifies this`retired, this`ledger, this`files, this`expired, this`clock
      ensures Step(Abs(), ok) == ForgetFirst(tape, old(Abs()))
    {
      var gone := retired;
      ok := DeleteFiles(FilesOf(gone[0]));
      if !ok { return; }
      retired := gone[1..];
      ok := Save();
      if !ok { retired := gone; }
    }

    method MoveToJournal(index: nat) returns (ok: bool)
      requires index < |runs|
      modifies this
      ensures Step(Abs(), ok) == Retire(tape, old(Abs()), index)
    {
      var run, kept, gone := runs[index], runs, retired;
      if run.pinned || run.state.IsLive() || !run.cleanup || (run.id in active && active[run.id].finishing) {
        return false;
      }
      if |retired| >= RUN_RECORD_LIMIT { return false; }
      retired := retired + [Retired(run.id, run.result, run.events)];
      runs := runs[..index] + runs[index + 1..];
      ok := Save();
      if !ok {
        runs, retired := kept, gone;
        return;
      }
      active := active - {run.id};
    }

    method Remove(index: nat) returns (ok: bool)
      requires index < |runs|
      modifies this
      ensures Step(Abs(), ok) == RemoveHistory(tape, old(Abs()), index)
    {
      ok := MoveToJournal(index);
      if !ok { return; }
      ok := Cleanup();
    }

    method Expire(now: nat) returns (ok: bool)
      modifies this
      ensures Step(Abs(), ok) == ExpireHistory(tape, old(Abs()), now)
    {
      while true
        invariant ExpireHistory(tape, Abs(), now) == ExpireHistory(tape, old(Abs()), now)
        decreases |runs|
      {
        var index := OldestExpired(now);
        if index == |runs| { return true; }
        ok := Remove(index);
        if !ok { return; }
      }
    }

    method OldestExpired(now: nat) returns (index: nat)
      ensures index == FirstExpired(Abs(), now, 0)
    {
      index := 0;
      while index < |runs|
        invariant 0 <= index <= |runs|
        invariant FirstExpired(Abs(), now, index) == FirstExpired(Abs(), now, 0)
      {
        var run := runs[index];
        if Rotatable(run) && run.finishedAt.Some? && now > run.finishedAt.value + RETENTION_MS { return; }
        index := index + 1;
      }
    }

    predicate Rotatable(run: Run)
      reads this
      ensures Rotatable(run) == CanRotate(Abs(), run)
    {
      !run.pinned && !run.state.IsLive() && run.cleanup && !(run.id in active && active[run.id].finishing)
    }

    method OldestRotatable() returns (index: nat)
      ensures index == FirstRotatable(Abs(), 0)
    {
      index := 0;
      while index < |runs| && !Rotatable(runs[index])
        invariant 0 <= index <= |runs|
        invariant FirstRotatable(Abs(), index) == FirstRotatable(Abs(), 0)
      {
        index := index + 1;
      }
    }

    method CountUnpinned() returns (n: nat)
      ensures n == Unpinned(runs)
    {
      n := 0;
      var k := 0;
      while k < |runs|
        invariant 0 <= k <= |runs|
        invariant n == Unpinned(runs[..k])
      {
        if !runs[k].pinned { n := n + 1; }
        assert runs[..k + 1][..k] == runs[..k];
        k := k + 1;
      }
      assert runs[..k] == runs;
    }

    method Rotate(taken: nat) returns (ok: bool)
      modifies this
      ensures Step(Abs(), ok) == MakeRoom(tape, old(Abs()), taken)
    {
      var unpinned := CountUnpinned();
      while unpinned + taken >= RUN_RECORD_LIMIT
        invariant unpinned == Unpinned(runs)
        invariant MakeRoom(tape, Abs(), taken) == MakeRoom(tape, old(Abs()), taken)
        decreases |runs|
      {
        var index := OldestRotatable();
        if index == |runs| { return false; }
        ok := Remove(index);
        if !ok { return; }
        unpinned := CountUnpinned();
      }
      ok := true;
    }

    // -------------------------------------------------------------- starting a run

    method Reserve(q: Request) returns (reply: Reply)
      modifies this
      ensures Reservation(Abs(), reply) == BeginReserve(tape, old(Abs()), q)
      ensures old(Inv(Abs()) && (Admission(Abs(), q).None? ==> FreshId(Trim(tape, Abs(), q.now).registry, q.id))) ==> Inv(Abs())
    {
      if Inv(Abs()) && (Admission(Abs(), q).None? ==> FreshId(Trim(tape, Abs(), q.now).registry, q.id)) {
        BeginReserveKeeps(tape, Abs(), q);
      }
      ghost var start := Abs();
      if OperationUsed(runs, q.operation) {
        var i := FirstOperation(runs, q.operation);
        return if runs[i].task == q.task && runs[i].digest == q.digest then Existing(runs[i].id) else Refused;
      }
      if !q.lockGranted || q.currentDigest != q.digest || OperationPending(pending, q.operation) { return Refused; }
      var live := LiveRun(runs, q.task);
      if live.Some? && !q.parallel { return Existing(live.value); }
      if (exists i :: 0 <= i < |pending| && pending[i].task == q.task) && !q.parallel { return Refused; }
      if UnknownCleanup(runs, q.task) { return Refused; }
      var free := OutputsAreFree(q.outputs);
      if !free { return Refused; }
      assert Admission(start, q).None?;
      var taken := |pending|;
      var ok := Cleanup();
      if !ok { return Refused; }
      ok := Expire(q.now);
      if !ok { return Refused; }
      ok := Rotate(taken);
      if !ok || SourceRestricted(runs, q.identity) || (q.identity.Some? && !q.leaseGranted) { return Refused; }
      var ticket := Pending(q.id, q.operation, q.task, q.digest, q.identity, q.outputs);
      pending := pending + [ticket];
      reply := Fresh(ticket);
    }

    method OutputsAreFree(outputs: seq<Path>) returns (free: bool)
      ensures free == OutputsFree(Abs(), outputs)
    {
      for k := 0 to |runs|
        invariant forall i :: 0 <= i < k && runs[i].Busy() ==> !Conflict(outputs, runs[i].outputs)
      {
        if runs[k].Busy() && Conflict(outputs, runs[k].outputs) { return false; }
      }
      for k := 0 to |pending|
        invariant forall i :: 0 <= i < k ==> !Conflict(outputs, pending[i].outputs)
      {
        if Conflict(outputs, pending[k].outputs) { return false; }
      }
      free := true;
    }

    method Abandon(ticket: Pending)
      modifies this
      ensures Abs() == BeginAbandon(old(Abs()), ticket)
      ensures old(Inv(Abs())) ==> Inv(Abs())
    {
      if Inv(Abs()) {
        BeginAbandonKeeps(Abs(), ticket);
      }
      pending := Dropped(pending, ticket.id);
    }

    method Commit(ticket: Pending, prepared: bool) returns (ok: bool)
      modifies this
      ensures Step(Abs(), ok) == BeginCommit(tape, old(Abs()), ticket, prepared)
      ensures old(Inv(Abs()) && ticket in pending) ==> Inv(Abs())
    {
      if Inv(Abs()) && ticket in pending {
        BeginCommitKeeps(tape, Abs(), ticket, prepared);
      }
      pending := Dropped(pending, ticket.id);
      if !prepared { return false; }
      var kept := runs;
      files := files + {LogFile(ticket.id), RunDirectory(ticket.id)};
      runs := runs + [NewRun(ticket)];
      ok := Save();
      if !ok {
        runs := kept;
        files := files - {LogFile(ticket.id), RunDirectory(ticket.id)};
        return;
      }
      active := active[ticket.id := Active(ticket.identity.Some?, true, false, None)];
    }

    // -------------------------------------------------------------- running and finishing

    method Running(id: Id) returns (ok: bool)
      modifies this
      ensures Step(Abs(), ok) == MarkRunning(tape, old(Abs()), id)
      ensures old(Inv(Abs())) ==> Inv(Abs())
    {
      if Inv(Abs()) {
        MarkRunningKeeps(tape, Abs(), id);
      }
      var index := Position(runs, id);
      if index == |runs| || !runs[index].state.IsLive() { return false; }
      if runs[index].state == Preparing {
        runs := runs[index := runs[index].(state := RunState.Running)];
      } else {
        assert runs[index := runs[index]] == runs;
      }
      ok := Save();
    }

    method CancelRun(id: Id, timeout: bool) returns (ok: bool)
      modifies this
      ensures Step(Abs(), ok) == Cancel(tape, old(Abs()), id, timeout)
      ensures old(Inv(Abs())) ==> Inv(Abs())
    {
      if Inv(Abs()) {
        CancelKeeps(tape, Abs(), id, timeout);
      }
      if id in active && active[id].finishing { return false; }
      var index := Position(runs, id);
      if index == |runs| || !runs[index].state.IsLive() { return false; }
      var kept, run := runs, runs[index];
      runs := runs[index := run.(
        state := Cancelling, cancelRequested := true, timeoutRequested := run.timeoutRequested || timeout)];
      ok := Save();
      if !ok { runs := kept; }
    }

    method Acknowledge(id: Id) returns (ok: bool)
      modifies this
      ensures Step(Abs(), ok) == AcknowledgeUnknownCleanup(tape, old(Abs()), id)
      ensures old(Inv(Abs())) ==> Inv(Abs())
    {
      if Inv(Abs()) {
        AcknowledgeKeeps(tape, Abs(), id);
      }
      if id in active { return false; }
      var index := Position(runs, id);
      if index == |runs| || runs[index].state != Unknown { return false; }
      var kept := runs;
      runs := runs[index := runs[index].(cleanup := true)];
      ok := Save();
      if !ok { runs := kept; }
    }

    method Probe(id: Id) returns (ok: bool)
      modifies this
      ensures Step(Abs(), ok) == FinishProbe(old(Abs()), id)
      ensures old(Inv(Abs())) ==> Inv(Abs())
    {
      if Inv(Abs()) {
        FinishProbeKeeps(Abs(), id);
      }
      if id !in active { return false; }
      active := active[id := active[id].(finishing := true)];
      ok := true;
    }

    method Finish(id: Id, e: Ending) returns (ok: bool)
      modifies this
      ensures Step(Abs(), ok) == FinishObserved(tape, old(Abs()), id, e)
      ensures old(Inv(Abs()) && EndingAllowed(Abs(), id, e)) ==> Inv(Abs())
    {
      if Inv(Abs()) && EndingAllowed(Abs(), id, e) {
        FinishObservedKeeps(tape, Abs(), id, e);
      }
      if id !in active { return false; }
      var owned := active[id].(finishing := true);
      if e.cleanup && owned.captured.None? {
        files := files + Captures(e.found, id);
        owned := owned.(captured := Some(e.found));
      }
      active := active[id := owned];
      var index := Position(runs, id);
      if index == |runs| { return false; }
      runs := runs[index := FinishedRun(runs[index], owned.captured, e)];
      ok := Save();
      if !ok { return; }
      var done := active[id].(finishing := false);
      if e.cleanup { done := done.(lease := false, runUse := false); }
      active := active[id := done];
    }

    method PinRun(id: Id, pinned: bool, intact: bool) returns (ok: bool)
      modifies this
      ensures Step(Abs(), ok) == PinResult(tape, old(Abs()), id, pinned, intact)
      ensures old(Inv(Abs())) ==> Inv(Abs())
    {
      if Inv(Abs()) {
        PinResultKeeps(tape, Abs(), id, pinned, intact);
      }
      var index := Position(runs, id);
      if index == |runs| || !runs[index].Settled() { return false; }
      if runs[index].pinned == pinned { return true; }
      if pinned {
        var unpinned := CountUnpinned();
        if !intact || |runs| - unpinned >= PINNED_RUN_LIMIT { return false; }
        if PinnedBytes(runs) + runs[index].retainedBytes > PINNED_RESULT_BYTES { return false; }
      } else {
        ok := Rotate(0);
        if !ok { return; }
      }
      index := Position(runs, id);
      if index == |runs| { return false; }
      var kept := runs;
      runs := runs[index := runs[index].(pinned := pinned)];
      ok := Save();
      if !ok { runs := kept; }
    }
  }
}
