/** Starting, finishing and pinning runs keep the registry invariant. */
module RegistryRuns {
  import opened Faults
  import opened RunLedger
  import opened RegistrySpec
  import opened RegistryInvariant
  import opened RegistryRetention

  // ---------------------------------------------------------------- changing one record

  /** A replacement that keeps identity, operation and outputs, and does not become busy again. */
  predicate Successor(before: Run, after: Run) {
    && after.id == before.id && after.operation == before.operation && after.outputs == before.outputs
    && after.Wellformed()
    && (after.Busy() ==> before.Busy())
  }

  lemma UpdatedPending(r: Registry, index: nat, run: Run)
    requires PendingApart(r) && PendingOutputs(r) && index < |r.runs| && Successor(r.runs[index], run)
    ensures PendingApart(WithRun(r, index, run)) && PendingOutputs(WithRun(r, index, run))
  {
    var s := WithRun(r, index, run);
    forall i | 0 <= i < |r.pending|
      ensures !Has(s.runs, r.pending[i].id) && !OperationUsed(s.runs, r.pending[i].operation)
    {
      UpdatedLookups(r.runs, index, run, r.pending[i].id, r.pending[i].operation);
    }
  }

  lemma UpdatedLookups(runs: seq<Run>, index: nat, run: Run, id: Id, operation: Id)
    requires index < |runs| && run.id == runs[index].id && run.operation == runs[index].operation
    ensures Has(runs[index := run], id) <==> Has(runs, id)
    ensures OperationUsed(runs[index := run], operation) <==> OperationUsed(runs, operation)
  {
    var updated := runs[index := run];
    if Has(runs, id) {
      var k :| 0 <= k < |runs| && runs[k].id == id;
      assert updated[k].id == id;
    }
    if OperationUsed(runs, operation) {
      var k :| 0 <= k < |runs| && runs[k].operation == operation;
      assert updated[k].operation == operation;
    }
  }

  lemma UpdatedDistinct(l: Ledger, index: nat, run: Run)
    requires index < |l.runs| && DistinctRuns(l.runs) && DistinctRetired(l.runs, l.retired)
    requires run.id == l.runs[index].id && run.operation == l.runs[index].operation
    ensures DistinctRuns(l.runs[index := run]) && DistinctRetired(l.runs[index := run], l.retired)
  {
  }

  lemma UpdatedShape(runs: seq<Run>, index: nat, run: Run)
    requires index < |runs| && Wellformed(runs) && SeparateOutputs(runs) && Successor(runs[index], run)
    ensures Wellformed(runs[index := run]) && SeparateOutputs(runs[index := run])
  {
  }

  /** The limits still hold for a record whose pin did not change, or was changed within them. */
  predicate FitsPins(l: Ledger, index: nat, run: Run)
    requires index < |l.runs|
  {
    var before := l.runs[index];
    || (!run.pinned && !before.pinned)
    || (run.pinned && before.pinned && run.retainedBytes == before.retainedBytes)
    || (&& run.pinned && !before.pinned
        && |l.runs| - Unpinned(l.runs) < PINNED_RUN_LIMIT
        && PinnedBytes(l.runs) + run.retainedBytes <= PINNED_RESULT_BYTES)
    || (!run.pinned && before.pinned && Unpinned(l.runs) < RUN_RECORD_LIMIT)
  }

  lemma UpdatedLedger(l: Ledger, index: nat, run: Run)
    requires GoodLedger(l) && index < |l.runs| && Successor(l.runs[index], run) && FitsPins(l, index, run)
    ensures GoodLedger(Ledger(l.runs[index := run], l.retired))
  {
    CountsUpdate(l.runs, index, run);
    UpdatedDistinct(l, index, run);
    UpdatedShape(l.runs, index, run);
  }

  /** What an owned run needs so that its lock still follows its state. */
  predicate FollowsState(r: Registry, run: Run) {
    run.id in r.active ==>
      var a := r.active[run.id];
      (!a.runUse ==> run.Settled()) && (a.runUse ==> a.finishing || !run.Settled())
  }

  lemma UpdatedHolding(r: Registry, index: nat, run: Run)
    requires Holding(r) && DistinctRuns(r.runs) && index < |r.runs| && run.id == r.runs[index].id
    requires run.operation == r.runs[index].operation
    requires FollowsState(r, run)
    ensures Holding(WithRun(r, index, run))
  {
    forall id | id in r.active ensures Has(r.runs[index := run], id) {
      UpdatedLookups(r.runs, index, run, id, 0);
    }
  }

  lemma UpdatedCaptures(r: Registry, index: nat, run: Run)
    requires CapturesKept(r) && index < |r.runs| && run.id == r.runs[index].id
    requires KeptRun(r.disk, run.id, run.result, run.events)
    ensures CapturesKept(WithRun(r, index, run))
  {
  }

  lemma UpdatedMemory(r: Registry, index: nat, run: Run)
    requires MemoryInv(r) && index < |r.runs|
    requires Successor(r.runs[index], run) && FitsPins(r.Memory(), index, run) && FollowsState(r, run)
    requires KeptRun(r.disk, run.id, run.result, run.events)
    ensures MemoryInv(WithRun(r, index, run))
  {
    UpdatedPending(r, index, run);
    UpdatedLedger(r.Memory(), index, run);
    UpdatedHolding(r, index, run);
    UpdatedCaptures(r, index, run);
  }

  /** A ledger that fits the memory still fits when one record settles or stays unsettled. */
  lemma UpdatedKnows(r: Registry, index: nat, run: Run, l: Ledger)
    requires DiskKnows(r, l) && index < |r.runs| && run.id == r.runs[index].id
    requires run.id in r.active && !run.Settled() ==> !r.runs[index].Settled()
    ensures DiskKnows(WithRun(r, index, run), l)
  {
    var s := WithRun(r, index, run);
    forall i | 0 <= i < |s.runs| && s.runs[i].id in s.active && !s.runs[i].Settled()
      ensures exists j :: 0 <= j < |l.runs| && l.runs[j].id == s.runs[i].id && !l.runs[j].Settled()
    {
      assert r.runs[i].id in r.active && !r.runs[i].Settled();
    }
  }

  lemma UpdatedInv(r: Registry, index: nat, run: Run)
    requires Inv(r) && index < |r.runs|
    requires Successor(r.runs[index], run) && FitsPins(r.Memory(), index, run) && FollowsState(r, run)
    requires KeptRun(r.disk, run.id, run.result, run.events)
    requires run.id in r.active && !run.Settled() ==> !r.runs[index].Settled()
    ensures Inv(WithRun(r, index, run))
  {
    UpdatedMemory(r, index, run);
    UpdatedKnows(r, index, run, r.disk.ledger);
  }

  /** Going back to the old record is sound too when the change did not settle an owned run. */
  lemma UpdatedCompatible(r: Registry, index: nat, run: Run)
    requires Inv(r) && index < |r.runs|
    requires Successor(r.runs[index], run) && FitsPins(r.Memory(), index, run)
    requires run.id in r.active ==> run.Settled() == r.runs[index].Settled()
    requires KeptRun(r.disk, run.id, run.result, run.events)
    ensures Compatible(r, WithRun(r, index, run).Memory())
  {
    UpdatedLedger(r.Memory(), index, run);
    var l := WithRun(r, index, run).Memory();
    forall i | 0 <= i < |r.runs| && r.runs[i].id in r.active && !r.runs[i].Settled()
      ensures exists j :: 0 <= j < |l.runs| && l.runs[j].id == r.runs[i].id && !l.runs[j].Settled()
    {
      assert l.runs[i].id == r.runs[i].id && !l.runs[i].Settled();
    }
  }

  /** Changing one record with a save, undone when the save fails. */
  lemma SavedUpdateKeeps(tape: Tape, r: Registry, index: nat, run: Run)
    requires Inv(r) && index < |r.runs|
    requires Successor(r.runs[index], run) && FitsPins(r.Memory(), index, run) && FollowsState(r, run)
    requires KeptRun(r.disk, run.id, run.result, run.events)
    requires run.id in r.active ==> run.Settled() == r.runs[index].Settled()
    ensures var saved := Persist(tape, WithRun(r, index, run));
            && Inv(saved.registry)
            && Inv(saved.registry.(runs := r.runs))
  {
    UpdatedInv(r, index, run);
    PersistKeeps(tape, WithRun(r, index, run));
    UpdatedCompatible(r, index, run);
    RollbackKeeps(tape, r, WithRun(r, index, run));
    var saved := Persist(tape, WithRun(r, index, run)).registry;
    assert saved.(runs := r.runs) == r.(disk := saved.disk, clock := saved.clock);
  }

  // ---------------------------------------------------------------- simple calls

  lemma RunAt(r: Registry, index: nat)
    requires Inv(r) && index < |r.runs|
    ensures r.runs[index].Wellformed() && FollowsState(r, r.runs[index])
    ensures KeptRun(r.disk, r.runs[index].id, r.runs[index].result, r.runs[index].events)
  {
  }

  lemma MarkRunningKeeps(tape: Tape, r: Registry, id: Id)
    requires Inv(r)
    ensures Inv(MarkRunning(tape, r, id).registry)
  {
    var index := Position(r.runs, id);
    if index < |r.runs| && r.runs[index].state.IsLive() {
      RunAt(r, index);
      var run := r.runs[index];
      SavedUpdateKeeps(tape, r, index, if run.state == Preparing then run.(state := Running) else run);
    }
  }

  lemma CancelKeeps(tape: Tape, r: Registry, id: Id, timeout: bool)
    requires Inv(r)
    ensures Inv(Cancel(tape, r, id, timeout).registry)
  {
    var index := Position(r.runs, id);
    if index < |r.runs| && r.runs[index].state.IsLive() {
      RunAt(r, index);
      var run := r.runs[index];
      var next := run.(state := Cancelling, cancelRequested := true, timeoutRequested := run.timeoutRequested || timeout);
      SavedUpdateKeeps(tape, r, index, next);
    }
  }

  lemma AcknowledgeKeeps(tape: Tape, r: Registry, id: Id)
    requires Inv(r)
    ensures Inv(AcknowledgeUnknownCleanup(tape, r, id).registry)
  {
    var index := Position(r.runs, id);
    if id !in r.active && index < |r.runs| && r.runs[index].state == Unknown {
      RunAt(r, index);
      SavedUpdateKeeps(tape, r, index, r.runs[index].(cleanup := true));
    }
  }

  lemma FinishProbeKeeps(r: Registry, id: Id)
    requires Inv(r)
    ensures Inv(FinishProbe(r, id).registry)
  {
    if id in r.active {
      ProbeParts(r, id);
      OtherActive(r, r.active[id := r.active[id].(finishing := true)]);
    }
  }

  lemma ProbeParts(r: Registry, id: Id)
    requires CapturesKept(r) && Holding(r) && DiskKnows(r, r.disk.ledger) && id in r.active
    ensures var s := r.(active := r.active[id := r.active[id].(finishing := true)]);
            CapturesKept(s) && Holding(s) && DiskKnows(s, s.disk.ledger)
  {
  }

  lemma SetPinKeeps(tape: Tape, r: Registry, id: Id, pinned: bool)
    requires Inv(r)
    requires var index := Position(r.runs, id);
      index < |r.runs| ==> r.runs[index].Settled() && FitsPins(r.Memory(), index, r.runs[index].(pinned := pinned))
    ensures Inv(SetPin(tape, r, id, pinned).registry)
  {
    var index := Position(r.runs, id);
    if index < |r.runs| {
      RunAt(r, index);
      SavedUpdateKeeps(tape, r, index, r.runs[index].(pinned := pinned));
    }
  }

  lemma PinResultKeeps(tape: Tape, r: Registry, id: Id, pinned: bool, intact: bool)
    requires Inv(r)
    ensures Inv(PinResult(tape, r, id, pinned, intact).registry)
  {
    var index := Position(r.runs, id);
    if index < |r.runs| && r.runs[index].Settled() && r.runs[index].pinned != pinned {
      if pinned {
        if FitsPins(r.Memory(), index, r.runs[index].(pinned := true)) {
          SetPinKeeps(tape, r, id, true);
        }
      } else {
        MakeRoomKeeps(tape, r, 0);
        var room := MakeRoom(tape, r, 0);
        if room.ok {
          var s := room.registry;
          assert r.runs[index] in r.runs && !CanRotate(r, r.runs[index]);
          var k :| 0 <= k < |s.runs| && s.runs[k] == r.runs[index];
          UniquePosition(s.runs, k);
          SetPinKeeps(tape, s, id, false);
        }
      }
    }
  }

  lemma UniquePosition(runs: seq<Run>, k: nat)
    requires k < |runs| && DistinctRuns(runs)
    ensures Position(runs, runs[k].id) == k
  {
    assert Has(runs, runs[k].id);
    var p := Position(runs, runs[k].id);
    assert runs[p].id == runs[k].id;
  }

  // ---------------------------------------------------------------- finishing

  /**
   What the host promises about an ending: the run still holds its lock, a confirmed
   cleanup stays confirmed, and the stored bytes of a pinned run no longer change.
   */
  predicate EndingAllowed(r: Registry, id: Id, e: Ending) {
    id in r.active && Has(r.runs, id) ==>
      var run := r.runs[Position(r.runs, id)];
      && r.active[id].runUse
      && (run.cleanup ==> e.cleanup)
      && (run.pinned ==> e.bytes == run.retainedBytes)
  }

  lemma MoreFiles(r: Registry, files: set<File>)
    requires Inv(r)
    ensures Inv(r.(disk := r.disk.(files := r.disk.files + files)))
  {
    MoreCaptures(r, files);
    MoreKept(r.disk, r.disk.ledger.runs, files);
    OtherDisk(r, r.disk.(files := r.disk.files + files));
  }

  lemma MoreKept(disk: Disk, runs: seq<Run>, files: set<File>)
    requires Kept(disk, runs)
    ensures Kept(disk.(files := disk.files + files), runs)
  {
  }

  lemma MoreCaptures(r: Registry, files: set<File>)
    requires CapturesKept(r)
    ensures CapturesKept(r.(disk := r.disk.(files := r.disk.files + files)))
  {
    MoreKept(r.disk, r.runs, files);
  }

  lemma CaptureKeeps(r: Registry, id: Id, e: Ending)
    requires Inv(r) && id in r.active && r.active[id].runUse
    ensures Inv(Capture(r, id, e))
    ensures Capture(r, id, e).runs == r.runs && Capture(r, id, e).retired == r.retired
  {
    var a := r.active[id].(finishing := true);
    if e.cleanup && a.captured.None? {
      MoreFiles(r, Captures(e.found, id));
      var stored := r.(disk := r.disk.(files := r.disk.files + Captures(e.found, id)));
      OwnedAs(stored, id, a.(captured := Some(e.found)));
    } else {
      OwnedAs(r, id, a);
    }
  }

  lemma OwnedCaptures(r: Registry, id: Id, a: Active)
    requires CapturesKept(r) && Holding(r) && id in r.active
    requires a.captured.Some? ==>
      (a.captured.value.result ==> ResultFile(id) in r.disk.files) && (a.captured.value.events ==> EventsFile(id) in r.disk.files)
    ensures CapturesKept(r.(active := r.active[id := a]))
  {
    var index := Position(r.runs, id);
    assert KeptRun(r.disk, r.runs[index].id, r.runs[index].result, r.runs[index].events);
  }

  lemma OwnedHolding(r: Registry, id: Id, a: Active)
    requires Holding(r) && id in r.active && r.active[id].runUse && a.runUse && a.finishing
    ensures Holding(r.(active := r.active[id := a]))
  {
  }

  lemma OwnedKnows(r: Registry, id: Id, a: Active, l: Ledger)
    requires DiskKnows(r, l) && id in r.active && r.active[id].runUse && a.runUse
    ensures DiskKnows(r.(active := r.active[id := a]), l)
  {
  }

  lemma OwnedAs(r: Registry, id: Id, a: Active)
    requires Inv(r) && id in r.active
    requires r.active[id].runUse && a.runUse && a.finishing
    requires a.captured.Some? ==>
      (a.captured.value.result ==> ResultFile(id) in r.disk.files) && (a.captured.value.events ==> EventsFile(id) in r.disk.files)
    ensures Inv(r.(active := r.active[id := a]))
  {
    OwnedCaptures(r, id, a);
    OwnedHolding(r, id, a);
    OwnedKnows(r, id, a, r.disk.ledger);
    OtherActive(r, r.active[id := a]);
  }

  /** What the ownership of runs leaves alone. */
  lemma OtherActive(r: Registry, active: map<Id, Active>)
    requires Inv(r)
    requires var s := r.(active := active); CapturesKept(s) && Holding(s) && DiskKnows(s, s.disk.ledger)
    ensures Inv(r.(active := active))
  {
    var s := r.(active := active);
    assert PendingApart(s) && PendingOutputs(s);
    assert s.Memory() == r.Memory();
  }

  lemma FinishedFits(r: Registry, id: Id, captured: Option<Captured>, e: Ending)
    requires Has(r.runs, id)
    requires var run := r.runs[Position(r.runs, id)];
      && run.Wellformed()
      && (run.cleanup ==> e.cleanup)
      && (run.pinned ==> e.bytes == run.retainedBytes)
    ensures var index := Position(r.runs, id);
            var run := FinishedRun(r.runs[index], captured, e);
            && Successor(r.runs[index], run)
            && FitsPins(r.Memory(), index, run)
            && run.Settled() == e.cleanup
            && (r.runs[index].Settled() ==> run.Settled())
  {
  }

  lemma ConcludedKeeps(r: Registry, id: Id, e: Ending)
    requires Inv(r) && id in r.active && Has(r.runs, id) && EndingAllowed(r, id, e)
    ensures Inv(Concluded(r, id, e))
  {
    CaptureKeeps(r, id, e);
    var c := Capture(r, id, e);
    var index := Position(r.runs, id);
    var captured := c.active[id].captured;
    RunAt(c, index);
    FinishedFits(c, id, captured, e);
    CapturedRun(c, id);
    UpdatedInv(c, index, FinishedRun(c.runs[index], captured, e));
  }

  lemma CapturedRun(r: Registry, id: Id)
    requires CapturesKept(r) && Holding(r) && id in r.active
    ensures var captured := r.active[id].captured;
            KeptRun(r.disk, id, captured.Some? && captured.value.result, captured.Some? && captured.value.events)
  {
    var index := Position(r.runs, id);
    assert KeptRun(r.disk, r.runs[index].id, r.runs[index].result, r.runs[index].events);
  }

  /** After a durable conclusion the lock may go, and it goes exactly with a confirmed cleanup. */
  lemma ReleaseKeeps(r: Registry, id: Id, cleanup: bool)
    requires Inv(r) && id in r.active && r.active[id].runUse && Has(r.runs, id)
    requires r.disk.ledger == r.Memory()
    requires r.runs[Position(r.runs, id)].Settled() == cleanup
    ensures Inv(Release(r, id, cleanup))
  {
    ReleaseHolding(r, id, cleanup);
    ReleaseCaptures(r, id, cleanup);
    var s := Release(r, id, cleanup);
    ReleasePending(r, id, cleanup);
    MemoryIsCompatible(s);
  }

  lemma ReleaseHolding(r: Registry, id: Id, cleanup: bool)
    requires Holding(r) && DistinctRuns(r.runs) && id in r.active && r.active[id].runUse && Has(r.runs, id)
    requires r.runs[Position(r.runs, id)].Settled() == cleanup
    ensures Holding(Release(r, id, cleanup))
  {
    var index := Position(r.runs, id);
    assert forall i :: 0 <= i < |r.runs| && r.runs[i].id == id ==> i == index;
  }

  lemma ReleaseCaptures(r: Registry, id: Id, cleanup: bool)
    requires CapturesKept(r) && id in r.active
    ensures CapturesKept(Release(r, id, cleanup))
  {
  }

  lemma ReleasePending(r: Registry, id: Id, cleanup: bool)
    requires PendingApart(r) && PendingOutputs(r) && id in r.active
    ensures PendingApart(Release(r, id, cleanup)) && PendingOutputs(Release(r, id, cleanup))
  {
  }

  lemma FinishObservedKeeps(tape: Tape, r: Registry, id: Id, e: Ending)
    requires Inv(r) && EndingAllowed(r, id, e)
    ensures Inv(FinishObserved(tape, r, id, e).registry)
  {
    if id in r.active {
      assert Has(r.runs, id) by { assert Holding(r); }
      ConcludedKeeps(r, id, e);
      var c := Concluded(r, id, e);
      PersistKeeps(tape, c);
      var saved := Persist(tape, c);
      if saved.ok {
        var index := Position(r.runs, id);
        UpdatedLookups(r.runs, index, c.runs[index], id, 0);
        assert c.runs[index].id == id;
        UniquePosition(c.runs, index);
        ReleaseKeeps(saved.registry, id, e.cleanup);
      }
    }
  }

  // ---------------------------------------------------------------- reserving

  /** An identity that nothing in memory, and nothing that was ever deleted, carries. */
  predicate FreshId(r: Registry, id: Id) {
    && !Has(r.runs, id) && !HasRetired(r.retired, id)
    && (forall i :: 0 <= i < |r.pending| ==> r.pending[i].id != id)
    && (forall f :: f in r.disk.expired ==> f.id != id)
  }

  predicate TicketFits(r: Registry, t: Pending) {
    && FreshId(r, t.id)
    && !OperationUsed(r.runs, t.operation)
    && !OperationPending(r.pending, t.operation)
    && OutputsFree(r, t.outputs)
  }

  lemma ConflictSymmetric(ps: seq<Path>, qs: seq<Path>)
    ensures Conflict(ps, qs) == Conflict(qs, ps)
  {
    if Conflict(ps, qs) {
      var i, j :| 0 <= i < |ps| && 0 <= j < |qs| && Nested(ps[i], qs[j]);
      assert Nested(qs[j], ps[i]);
    }
    if Conflict(qs, ps) {
      var i, j :| 0 <= i < |qs| && 0 <= j < |ps| && Nested(qs[i], ps[j]);
      assert Nested(ps[j], qs[i]);
    }
  }

  lemma ReservedPending(r: Registry, t: Pending)
    requires PendingApart(r) && PendingOutputs(r) && TicketFits(r, t)
    ensures PendingApart(r.(pending := r.pending + [t])) && PendingOutputs(r.(pending := r.pending + [t]))
  {
    forall i | 0 <= i < |r.pending| ensures !Conflict(r.pending[i].outputs, t.outputs) {
      ConflictSymmetric(t.outputs, r.pending[i].outputs);
    }
  }

  lemma ReservedKeeps(r: Registry, t: Pending)
    requires Inv(r) && TicketFits(r, t)
    ensures Inv(r.(pending := r.pending + [t]))
  {
    var s := r.(pending := r.pending + [t]);
    ReservedPending(r, t);
    assert CapturesKept(s);
    assert Holding(s);
    assert DiskKnows(s, r.disk.ledger);
  }

  lemma LessRuns(r: Registry, s: Registry, operation: Id, outputs: seq<Path>)
    requires Trimmed(r, s)
    ensures OperationUsed(s.runs, operation) ==> OperationUsed(r.runs, operation)
    ensures OutputsFree(r, outputs) ==> OutputsFree(s, outputs)
  {
    if OperationUsed(s.runs, operation) {
      var k :| 0 <= k < |s.runs| && s.runs[k].operation == operation;
      assert s.runs[k] in r.runs;
    }
    if OutputsFree(r, outputs) {
      forall i | 0 <= i < |s.runs| && s.runs[i].Busy() ensures !Conflict(outputs, s.runs[i].outputs) {
        assert s.runs[i] in r.runs;
        var k :| 0 <= k < |r.runs| && r.runs[k] == s.runs[i];
      }
    }
  }

  lemma BeginReserveKeeps(tape: Tape, r: Registry, q: Request)
    requires Inv(r)
    requires Admission(r, q).None? ==> FreshId(Trim(tape, r, q.now).registry, q.id)
    ensures Inv(BeginReserve(tape, r, q).registry)
  {
    if Admission(r, q).None? {
      TrimKeeps(tape, r, q.now);
      var trimmed := Trim(tape, r, q.now);
      LessRuns(r, trimmed.registry, q.operation, q.outputs);
      if BeginReserve(tape, r, q).reply.Fresh? {
        ReservedKeeps(trimmed.registry, Pending(q.id, q.operation, q.task, q.digest, q.identity, q.outputs));
      }
    }
  }

  // ---------------------------------------------------------------- abandoning and committing

  lemma {:induction false} DroppedNone(pending: seq<Pending>, id: Id)
    requires forall i :: 0 <= i < |pending| ==> pending[i].id != id
    ensures Dropped(pending, id) == pending
  {
    if pending != [] {
      DroppedNone(pending[1..], id);
    }
  }

  lemma {:induction false} DroppedOne(pending: seq<Pending>, id: Id, k: nat)
    requires k < |pending| && pending[k].id == id
    requires forall i :: 0 <= i < |pending| && i != k ==> pending[i].id != id
    ensures Dropped(pending, id) == pending[..k] + pending[k + 1..]
  {
    var rest := pending[1..];
    if k == 0 {
      DroppedNone(rest, id);
    } else {
      DroppedOne(rest, id, k - 1);
      WithoutLater(pending, k);
      assert pending[0].id != id;
    }
  }

  lemma WithoutLater(pending: seq<Pending>, k: nat)
    requires 0 < k < |pending|
    ensures [pending[0]] + (pending[1..][..k - 1] + pending[1..][k..]) == pending[..k] + pending[k + 1..]
  {
  }

  function Rest(pending: seq<Pending>, k: nat): seq<Pending>
    requires k < |pending|
  {
    pending[..k] + pending[k + 1..]
  }

  lemma RestAt(pending: seq<Pending>, k: nat)
    requires k < |pending|
    ensures |Rest(pending, k)| == |pending| - 1
    ensures forall i :: 0 <= i < |pending| - 1 ==> Rest(pending, k)[i] == pending[if i < k then i else i + 1]
  {
  }

  lemma RestApart(r: Registry, k: nat)
    requires PendingApart(r) && PendingOutputs(r) && k < |r.pending|
    ensures PendingApart(r.(pending := Rest(r.pending, k))) && PendingOutputs(r.(pending := Rest(r.pending, k)))
  {
    RestAt(r.pending, k);
  }

  lemma RestTicket(r: Registry, k: nat)
    requires PendingApart(r) && PendingOutputs(r) && CapturesKept(r) && k < |r.pending|
    ensures TicketFits(r.(pending := Rest(r.pending, k)), r.pending[k])
  {
    RestAt(r.pending, k);
    TicketOutputs(r, k);
    assert KeptRun(r.disk, r.pending[k].id, false, false);
  }

  lemma WithoutPending(r: Registry, k: nat)
    requires Inv(r) && k < |r.pending|
    ensures Inv(r.(pending := Rest(r.pending, k)))
    ensures TicketFits(r.(pending := Rest(r.pending, k)), r.pending[k])
  {
    var s := r.(pending := Rest(r.pending, k));
    RestAt(r.pending, k);
    RestApart(r, k);
    RestTicket(r, k);
    RestSame(r, Rest(r.pending, k));
  }

  lemma RestSame(r: Registry, rest: seq<Pending>)
    requires CapturesKept(r) && Holding(r) && DiskKnows(r, r.disk.ledger)
    requires forall p :: p in rest ==> p in r.pending
    ensures var s := r.(pending := rest); CapturesKept(s) && Holding(s) && DiskKnows(s, r.disk.ledger)
  {
    forall i | 0 <= i < |rest| ensures KeptRun(r.disk, rest[i].id, false, false) {
      assert rest[i] in r.pending;
    }
  }

  lemma TicketOutputs(r: Registry, k: nat)
    requires PendingApart(r) && PendingOutputs(r) && k < |r.pending|
    ensures forall i :: 0 <= i < |r.pending| && i != k ==> !Conflict(r.pending[k].outputs, r.pending[i].outputs)
    ensures forall j :: 0 <= j < |r.runs| && r.runs[j].Busy() ==> !Conflict(r.pending[k].outputs, r.runs[j].outputs)
  {
    forall i | 0 <= i < |r.pending| && i != k ensures !Conflict(r.pending[k].outputs, r.pending[i].outputs) {
      ConflictSymmetric(r.pending[k].outputs, r.pending[i].outputs);
    }
  }

  lemma BeginAbandonKeeps(r: Registry, ticket: Pending)
    requires Inv(r)
    ensures Inv(BeginAbandon(r, ticket))
    ensures ticket in r.pending ==> TicketFits(BeginAbandon(r, ticket), ticket) && |BeginAbandon(r, ticket).pending| == |r.pending| - 1
    ensures |BeginAbandon(r, ticket).pending| <= |r.pending|
  {
    if exists k :: 0 <= k < |r.pending| && r.pending[k].id == ticket.id {
      var k :| 0 <= k < |r.pending| && r.pending[k].id == ticket.id;
      DroppedOne(r.pending, ticket.id, k);
      WithoutPending(r, k);
    } else {
      DroppedNone(r.pending, ticket.id);
    }
  }

  lemma AppendedLedger(l: Ledger, run: Run)
    requires GoodLedger(l) && Unpinned(l.runs) < RUN_RECORD_LIMIT
    requires run.Wellformed() && !run.pinned
    requires !Has(l.runs, run.id) && !HasRetired(l.retired, run.id) && !OperationUsed(l.runs, run.operation)
    requires forall i :: 0 <= i < |l.runs| && l.runs[i].Busy() ==> !Conflict(run.outputs, l.runs[i].outputs)
    ensures GoodLedger(Ledger(l.runs + [run], l.retired))
  {
    CountsAppend(l.runs, run);
    forall i | 0 <= i < |l.runs| && l.runs[i].Busy() ensures !Conflict(l.runs[i].outputs, run.outputs) {
      ConflictSymmetric(run.outputs, l.runs[i].outputs);
    }
    var runs := l.runs + [run];
    assert SeparateOutputs(runs);
    assert DistinctRuns(runs);
    assert DistinctRetired(runs, l.retired) by {
      forall i | 0 <= i < |l.retired| ensures l.retired[i].id != run.id {
        assert !HasRetired(l.retired, run.id);
      }
    }
  }

  /** The memory after a committed start. */
  function Started(r: Registry, t: Pending): Registry {
    r.(runs := r.runs + [NewRun(t)],
       active := r.active[t.id := Active(t.identity.Some?, true, false, None)])
  }

  lemma StartedPending(r: Registry, t: Pending)
    requires PendingApart(r) && PendingOutputs(r) && TicketFits(r, t)
    ensures PendingApart(Started(r, t)) && PendingOutputs(Started(r, t))
  {
    var s := Started(r, t);
    forall i | 0 <= i < |r.pending|
      ensures !Has(s.runs, r.pending[i].id) && !OperationUsed(s.runs, r.pending[i].operation)
      ensures !Conflict(r.pending[i].outputs, t.outputs)
    {
      assert r.pending[i].operation != t.operation by { assert !OperationPending(r.pending, t.operation); }
      AppendedLookups(r.runs, NewRun(t), r.pending[i].id, r.pending[i].operation);
      ConflictSymmetric(t.outputs, r.pending[i].outputs);
    }
  }

  lemma AppendedLookups(runs: seq<Run>, run: Run, id: Id, operation: Id)
    ensures Has(runs + [run], id) <==> Has(runs, id) || run.id == id
    ensures OperationUsed(runs + [run], operation) <==> OperationUsed(runs, operation) || run.operation == operation
  {
    var more := runs + [run];
    assert more[|runs|] == run;
    if Has(runs, id) {
      var k :| 0 <= k < |runs| && runs[k].id == id;
      assert more[k].id == id;
    }
    if OperationUsed(runs, operation) {
      var k :| 0 <= k < |runs| && runs[k].operation == operation;
      assert more[k].operation == operation;
    }
  }

  lemma StartedHolding(r: Registry, t: Pending)
    requires Holding(r) && CapturesKept(r) && TicketFits(r, t)
    ensures Holding(Started(r, t)) && CapturesKept(Started(r, t)) && t.id !in r.active
  {
    var s := Started(r, t);
    forall id | id in s.active ensures Has(s.runs, id) {
      AppendedLookups(r.runs, NewRun(t), id, 0);
    }
    assert forall i :: 0 <= i < |r.runs| ==> r.runs[i].id != t.id;
  }

  lemma StartedCompatible(r: Registry, t: Pending)
    requires Inv(r) && TicketFits(r, t) && Unpinned(r.runs) < RUN_RECORD_LIMIT
    ensures MemoryInv(Started(r, t))
    ensures Compatible(r, Started(r, t).Memory())
  {
    AppendedLedger(r.Memory(), NewRun(t));
    StartedPending(r, t);
    StartedHolding(r, t);
    var s := Started(r, t);
    assert Kept(r.disk, s.runs);
    StartedKnows(r, t);
  }

  lemma StartedKnows(r: Registry, t: Pending)
    requires Holding(r) && TicketFits(r, t)
    ensures DiskKnows(r, Started(r, t).Memory())
  {
    var s := Started(r, t);
    forall i | 0 <= i < |r.runs| && r.runs[i].id in r.active && !r.runs[i].Settled()
      ensures exists j :: 0 <= j < |s.runs| && s.runs[j].id == r.runs[i].id && !s.runs[j].Settled()
    {
      assert s.runs[i] == r.runs[i];
    }
  }

  lemma FewerKept(disk: Disk, runs: seq<Run>, id: Id)
    requires Kept(disk, runs)
    ensures Kept(disk.(files := disk.files - {LogFile(id), RunDirectory(id)}), runs)
  {
  }

  lemma FewerCaptures(r: Registry, id: Id)
    requires CapturesKept(r)
    ensures CapturesKept(r.(disk := r.disk.(files := r.disk.files - {LogFile(id), RunDirectory(id)})))
  {
    FewerKept(r.disk, r.runs, id);
  }

  lemma FewerFiles(r: Registry, id: Id)
    requires Inv(r)
    ensures Inv(r.(disk := r.disk.(files := r.disk.files - {LogFile(id), RunDirectory(id)})))
  {
    FewerCaptures(r, id);
    FewerKept(r.disk, r.disk.ledger.runs, id);
    OtherDisk(r, r.disk.(files := r.disk.files - {LogFile(id), RunDirectory(id)}));
  }

  lemma FullHistoryRefuses(tape: Tape, r: Registry, run: Run)
    requires Unpinned(r.runs) >= RUN_RECORD_LIMIT && !run.pinned
    ensures Persist(tape, r.(runs := r.runs + [run])) == Step(r.(runs := r.runs + [run]), false)
  {
    CountsAppend(r.runs, run);
  }

  lemma BeginCommitKeeps(tape: Tape, r: Registry, ticket: Pending, prepared: bool)
    requires Inv(r) && ticket in r.pending
    ensures Inv(BeginCommit(tape, r, ticket, prepared).registry)
  {
    BeginAbandonKeeps(r, ticket);
    if prepared {
      var begun := BeginAbandon(r, ticket);
      MoreFiles(begun, {LogFile(ticket.id), RunDirectory(ticket.id)});
      CommitStored(tape, WithRunFiles(begun, ticket.id), ticket);
      CommitResults(tape, r, ticket);
    }
  }

  function WithRunFiles(r: Registry, id: Id): Registry {
    r.(disk := r.disk.(files := r.disk.files + {LogFile(id), RunDirectory(id)}))
  }

  /** The registry after the new record was appended and saved, or taken back. */
  function Committed(tape: Tape, r: Registry, t: Pending): Registry {
    var saved := Persist(tape, r.(runs := r.runs + [NewRun(t)]));
    if saved.ok then saved.registry.(active := Started(r, t).active)
    else
      saved.registry.(runs := r.runs, disk := saved.registry.disk.(
        files := saved.registry.disk.files - {LogFile(t.id), RunDirectory(t.id)}))
  }

  lemma CommitResults(tape: Tape, r: Registry, t: Pending)
    ensures BeginCommit(tape, r, t, true).registry == Committed(tape, WithRunFiles(BeginAbandon(r, t), t.id), t)
  {
  }

  /** A started run whose ledger has been saved. */
  lemma StartedStored(r: Registry, t: Pending, clock: nat)
    requires MemoryInv(Started(r, t))
    ensures var s := Started(r, t); Inv(s.(disk := s.disk.(ledger := s.Memory()), clock := clock))
  {
    var s := Started(r, t);
    MemoryIsCompatible(s);
    OtherLedger(s, s.Memory());
    OtherClock(s.(disk := s.disk.(ledger := s.Memory())), clock);
  }

  lemma CommitStored(tape: Tape, r: Registry, t: Pending)
    requires Inv(r) && TicketFits(r, t)
    ensures Inv(Committed(tape, r, t))
  {
    var appended := r.(runs := r.runs + [NewRun(t)]);
    var saved := Persist(tape, appended);
    if Unpinned(r.runs) >= RUN_RECORD_LIMIT {
      FullHistoryRefuses(tape, r, NewRun(t));
      FewerFiles(r, t.id);
    } else {
      StartedCompatible(r, t);
      if saved.ok {
        StartedStored(r, t, saved.registry.clock);
        PersistResults(tape, appended);
      } else {
        RollbackKeeps(tape, r, appended);
        FewerFiles(r.(disk := saved.registry.disk, clock := saved.registry.clock), t.id);
      }
    }
  }

  lemma PersistResults(tape: Tape, r: Registry)
    ensures var s := Persist(tape, r);
            && s.registry == r.(disk := r.disk.(ledger := s.registry.disk.ledger), clock := s.registry.clock)
            && (s.ok ==> s.registry.disk.ledger == r.Memory())
  {
  }

  // ---------------------------------------------------------------- restarting

  /** What a crash leaves behind. */
  predicate DiskInv(disk: Disk) {
    GoodLedger(disk.ledger) && Kept(disk, disk.ledger.runs)
  }

  lemma {:induction false} SameCounts(a: seq<Run>, b: seq<Run>)
    requires |a| == |b|
    requires forall i :: 0 <= i < |a| ==> a[i].pinned == b[i].pinned && a[i].retainedBytes == b[i].retainedBytes
    ensures Unpinned(a) == Unpinned(b) && PinnedBytes(a) == PinnedBytes(b)
  {
    if a != [] {
      SameCounts(a[..|a| - 1], b[..|b| - 1]);
    }
  }

  lemma OpenedLedger(disk: Disk, clock: nat)
    requires GoodLedger(disk.ledger)
    ensures GoodLedger(Opened(disk, clock).Memory())
  {
    var r := Opened(disk, clock);
    SameCounts(r.runs, disk.ledger.runs);
    OpenedDistinct(disk, clock);
    OpenedOutputs(disk, clock);
  }

  lemma OpenedDistinct(disk: Disk, clock: nat)
    requires DistinctRuns(disk.ledger.runs) && DistinctRetired(disk.ledger.runs, disk.ledger.retired)
    ensures DistinctRuns(Opened(disk, clock).runs)
    ensures DistinctRetired(Opened(disk, clock).runs, Opened(disk, clock).retired)
  {
    var r := Opened(disk, clock);
    assert forall i :: 0 <= i < |r.runs| ==>
      r.runs[i].id == disk.ledger.runs[i].id && r.runs[i].operation == disk.ledger.runs[i].operation;
  }

  lemma OpenedOutputs(disk: Disk, clock: nat)
    requires Wellformed(disk.ledger.runs) && SeparateOutputs(disk.ledger.runs)
    ensures Wellformed(Opened(disk, clock).runs) && SeparateOutputs(Opened(disk, clock).runs)
  {
    var r := Opened(disk, clock);
    assert forall i :: 0 <= i < |r.runs| ==>
      r.runs[i].outputs == disk.ledger.runs[i].outputs && (r.runs[i].Busy() ==> disk.ledger.runs[i].Busy());
  }

  lemma OpenedKept(disk: Disk, clock: nat)
    requires Kept(disk, disk.ledger.runs)
    ensures CapturesKept(Opened(disk, clock))
  {
    var r := Opened(disk, clock);
    forall i | 0 <= i < |r.runs| ensures KeptRun(disk, r.runs[i].id, r.runs[i].result, r.runs[i].events) {
      assert KeptRun(disk, disk.ledger.runs[i].id, disk.ledger.runs[i].result, disk.ledger.runs[i].events);
    }
  }

  lemma OpenedKeeps(disk: Disk, clock: nat)
    requires DiskInv(disk)
    ensures Inv(Opened(disk, clock))
  {
    OpenedLedger(disk, clock);
    OpenedKept(disk, clock);
  }

  lemma OpenKeeps(tape: Tape, disk: Disk, clock: nat, now: nat)
    requires DiskInv(disk)
    ensures Inv(Open(tape, disk, clock, now).registry)
    ensures Open(tape, disk, clock, now).registry.pending == []
  {
    OpenedKeeps(disk, clock);
    PersistKeeps(tape, Opened(disk, clock));
    var saved := Persist(tape, Opened(disk, clock));
    CleanupKeeps(tape, saved.registry);
    var cleaned := CleanupRetired(tape, saved.registry);
    ExpireHistoryKeeps(tape, cleaned.registry, now);
  }
}
