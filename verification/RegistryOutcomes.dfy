/** What the ledger says after a run was cancelled, ended, acknowledged or pinned (run.rs). */
module RegistryOutcomes {
  import opened Faults
  import opened RunLedger
  import opened RegistrySpec
  import opened RegistryInvariant
  import opened RegistryRetention
  import opened RegistryRuns
  import opened RegistryHistory

  /** Memory and disk agree, and only the record at `index` is not as it was. */
  predicate OneRecordSaved(before: seq<Run>, s: Registry, index: nat)
    requires index < |before|
  {
    && s.disk.ledger.runs == s.runs && |s.runs| == |before|
    && (forall k :: 0 <= k < |before| && k != index ==> s.runs[k] == before[k])
  }

  /** What identifies the run and its inputs, and its pin, stays. */
  predicate SameRun(before: Run, after: Run) {
    && after.id == before.id && after.operation == before.operation && after.task == before.task
    && after.digest == before.digest && after.identity == before.identity && after.outputs == before.outputs
    && after.pinned == before.pinned
  }

  // ---------------------------------------------------------------- the end of an execution

  /** Which of the four ends a record may show, each with the exact observations it stands for. */
  predicate TellsTheEnd(run: Run, e: Ending, end: Run) {
    && (end.state == Unknown <==> !e.cleanup || (!run.cancelRequested && e.exit.None? && !e.error))
    && (end.state == Cancelled <==> e.cleanup && run.cancelRequested)
    && (end.state == Succeeded <==> e.cleanup && !run.cancelRequested && e.exit == Some(Clean))
    && (end.state == Failed <==>
          e.cleanup && !run.cancelRequested && (e.exit == Some(Unclean) || (e.exit.None? && e.error)))
  }

  /** The bodies of a record are those captured first; nothing is captured before the cleanup is confirmed. */
  predicate NamesCaptured(owned: Active, e: Ending, end: Run) {
    && (end.result <==> if owned.captured.Some? then owned.captured.value.result else e.cleanup && e.found.result)
    && (end.events <==> if owned.captured.Some? then owned.captured.value.events else e.cleanup && e.found.events)
  }

  lemma ChangedAt(r: Registry, index: nat)
    requires Inv(r) && index < |r.runs|
    ensures Has(r.runs, r.runs[index].id) && Position(r.runs, r.runs[index].id) == index
  {
    assert DistinctRuns(r.Memory().runs);
    UniquePosition(r.runs, index);
  }

  lemma FinishSaves(tape: Tape, r: Registry, id: Id, e: Ending)
    requires id in r.active && Has(r.runs, id) && FinishObserved(tape, r, id, e).ok
    ensures var s := FinishObserved(tape, r, id, e).registry;
            s.runs == Concluded(r, id, e).runs && s.disk.ledger.runs == s.runs
  {
    PersistMemory(tape, Concluded(r, id, e));
  }

  lemma FinishedTells(run: Run, captured: Option<Captured>, e: Ending)
    ensures var end := FinishedRun(run, captured, e);
            && TellsTheEnd(run, e, end) && SameRun(run, end)
            && end.cleanup == e.cleanup && end.finishedAt == Some(e.now) && end.retainedBytes == e.bytes
            && end.result == (captured.Some? && captured.value.result)
            && end.events == (captured.Some? && captured.value.events)
  {
    assert e.exit.Some? ==> e.exit.value.Clean? || e.exit.value.Unclean?;
  }

  lemma CapturedOnce(r: Registry, id: Id, e: Ending)
    requires id in r.active
    ensures var known := r.active[id].captured;
            var c := Capture(r, id, e);
            id in c.active
            && c.active[id].captured == if known.Some? then known else if e.cleanup then Some(e.found) else None
  {
  }

  lemma ReplacedAt(before: seq<Run>, s: Registry, index: nat, run: Run)
    requires index < |before| && s.runs == before[index := run] && s.disk.ledger.runs == s.runs
    ensures OneRecordSaved(before, s, index) && s.runs[index] == run
  {
  }

  /**
   A successful finalization leaves on disk exactly what was observed of the end: a failed
   execution is never recorded as succeeded, nor a cancelled one as anything but cancelled.
   */
  lemma EndingIsRecorded(tape: Tape, r: Registry, index: nat, e: Ending)
    requires Inv(r) && index < |r.runs| && r.runs[index].id in r.active
    requires FinishObserved(tape, r, r.runs[index].id, e).ok
    ensures var run := r.runs[index];
            var s := FinishObserved(tape, r, run.id, e).registry;
            && OneRecordSaved(r.runs, s, index)
            && TellsTheEnd(run, e, s.runs[index])
            && NamesCaptured(r.active[run.id], e, s.runs[index])
            && SameRun(run, s.runs[index])
            && s.runs[index].cleanup == e.cleanup && s.runs[index].finishedAt == Some(e.now)
            && s.runs[index].retainedBytes == e.bytes
  {
    var id := r.runs[index].id;
    ChangedAt(r, index);
    FinishSaves(tape, r, id, e);
    ConcludedShape(r, id, e);
    CapturedOnce(r, id, e);
    var captured := Capture(r, id, e).active[id].captured;
    FinishedTells(r.runs[index], captured, e);
    ReplacedAt(r.runs, FinishObserved(tape, r, id, e).registry, index, FinishedRun(r.runs[index], captured, e));
  }

  /** Only a confirmed cleanup gives up the source lease and the run-use lock. */
  lemma EndingReleases(tape: Tape, r: Registry, id: Id, e: Ending)
    requires id in r.active && FinishObserved(tape, r, id, e).ok
    ensures var s := FinishObserved(tape, r, id, e).registry;
            && id in s.active && !s.active[id].finishing
            && s.active[id].lease == (r.active[id].lease && !e.cleanup)
            && s.active[id].runUse == (r.active[id].runUse && !e.cleanup)
            && (forall other :: other in r.active && other != id ==> other in s.active && s.active[other] == r.active[other])
  {
    PersistMemory(tape, Concluded(r, id, e));
  }

  // ---------------------------------------------------------------- cancelling

  /** A granted cancellation of a live run is on disk, and remembers every timeout that asked for it. */
  lemma CancelIsRecorded(tape: Tape, r: Registry, index: nat, timeout: bool)
    requires Inv(r) && index < |r.runs| && Cancel(tape, r, r.runs[index].id, timeout).ok
    ensures var run := r.runs[index];
            var s := Cancel(tape, r, run.id, timeout).registry;
            && run.state.IsLive()
            && OneRecordSaved(r.runs, s, index) && s.active == r.active
            && s.runs[index].state == Cancelling && s.runs[index].cancelRequested
            && (s.runs[index].timeoutRequested <==> run.timeoutRequested || timeout)
            && SameRun(run, s.runs[index])
  {
    ChangedAt(r, index);
  }

  /** Once cancelled, a run whose cleanup is confirmed ends as cancelled, whatever its exit says. */
  lemma CancelledRunEndsCancelled(tape: Tape, r: Registry, index: nat, timeout: bool, later: Tape, e: Ending)
    requires Inv(r) && index < |r.runs| && r.runs[index].id in r.active
    requires Cancel(tape, r, r.runs[index].id, timeout).ok && e.cleanup
    ensures var id := r.runs[index].id;
            var end := FinishObserved(later, Cancel(tape, r, id, timeout).registry, id, e);
            var l := end.registry.disk.ledger;
            end.ok ==> index < |l.runs| && l.runs[index].id == id && l.runs[index].state == Cancelled
  {
    var id := r.runs[index].id;
    CancelIsRecorded(tape, r, index, timeout);
    CancelKeeps(tape, r, id, timeout);
    var s := Cancel(tape, r, id, timeout).registry;
    if FinishObserved(later, s, id, e).ok {
      EndingIsRecorded(later, s, index, e);
    }
  }

  // ---------------------------------------------------------------- acknowledging and pinning

  /**
   Only a run of unknown outcome that this host does not own can be acknowledged; its record then counts as
   cleaned up and stays of unknown outcome, so it no longer owns its outputs or restricts its source.
   */
  lemma AcknowledgementIsRecorded(tape: Tape, r: Registry, index: nat)
    requires Inv(r) && index < |r.runs| && AcknowledgeUnknownCleanup(tape, r, r.runs[index].id).ok
    ensures var run := r.runs[index];
            var s := AcknowledgeUnknownCleanup(tape, r, run.id).registry;
            && run.id !in r.active && run.state == Unknown
            && OneRecordSaved(r.runs, s, index)
            && s.runs[index].state == Unknown && s.runs[index].cleanup && !s.runs[index].Busy()
            && s.runs[index].finishedAt == run.finishedAt && SameRun(run, s.runs[index])
  {
    ChangedAt(r, index);
  }

  /** A pin that is set without rotation is on disk and changes nothing else. */
  lemma PinIsRecorded(tape: Tape, r: Registry, index: nat, intact: bool)
    requires Inv(r) && index < |r.runs| && !r.runs[index].pinned
    requires PinResult(tape, r, r.runs[index].id, true, intact).ok
    ensures var run := r.runs[index];
            var s := PinResult(tape, r, run.id, true, intact).registry;
            && intact && run.Settled()
            && |r.runs| - Unpinned(r.runs) < 16
            && PinnedBytes(r.runs) + run.retainedBytes <= 134_217_728
            && OneRecordSaved(r.runs, s, index)
            && s.runs[index] == run.(pinned := true)
  {
    ChangedAt(r, index);
    var pinned := r.runs[index].(pinned := true);
    PersistMemory(tape, WithRun(r, index, pinned));
  }

  // ---------------------------------------------------------------- when a call is granted

  lemma QuietSave(tape: Tape, r: Registry, index: nat, run: Run)
    requires Inv(r) && index < |r.runs| && tape(r.clock) == Done
    requires Successor(r.runs[index], run) && FitsPins(r.Memory(), index, run)
    ensures Persist(tape, WithRun(r, index, run)).ok
  {
    UpdatedLedger(r.Memory(), index, run);
  }

  /** On a disk that takes the save, the end of every owned run is recorded. */
  lemma EndingIsTaken(tape: Tape, r: Registry, index: nat, e: Ending)
    requires Inv(r) && index < |r.runs| && r.runs[index].id in r.active
    requires EndingAllowed(r, r.runs[index].id, e) && tape(r.clock) == Done
    ensures FinishObserved(tape, r, r.runs[index].id, e).ok
  {
    var id := r.runs[index].id;
    ChangedAt(r, index);
    ConcludedKeeps(r, id, e);
    assert ValidLedger(Concluded(r, id, e).Memory());
  }

  /** A started run becomes running, unless a cancellation came first. */
  lemma SpawnIsRecorded(tape: Tape, r: Registry, index: nat)
    requires Inv(r) && index < |r.runs| && tape(r.clock) == Done
    ensures var run := r.runs[index];
            var s := MarkRunning(tape, r, run.id);
            && (s.ok <==> run.state.IsLive())
            && (s.ok ==> OneRecordSaved(r.runs, s.registry, index))
            && (s.ok ==> s.registry.runs[index] == run.(state := if run.state == Cancelling then Cancelling else Running))
  {
    ChangedAt(r, index);
    RunAt(r, index);
    var run := r.runs[index];
    if run.state.IsLive() {
      QuietSave(tape, r, index, if run.state == Preparing then run.(state := Running) else run);
    }
  }

  /** A run can be cancelled exactly while it is live and not being finished. */
  lemma CancelGrantedIff(tape: Tape, r: Registry, index: nat, timeout: bool)
    requires Inv(r) && index < |r.runs| && tape(r.clock) == Done
    ensures var run := r.runs[index];
            Cancel(tape, r, run.id, timeout).ok
            <==> (&& (run.state == Preparing || run.state == Running || run.state == Cancelling)
                  && !(run.id in r.active && r.active[run.id].finishing))
  {
    ChangedAt(r, index);
    RunAt(r, index);
    var run := r.runs[index];
    if run.state.IsLive() {
      QuietSave(tape, r, index, run.(state := Cancelling, cancelRequested := true, timeoutRequested := run.timeoutRequested || timeout));
    }
  }

  /** A cleanup can be acknowledged exactly for a run of unknown outcome that this host does not own. */
  lemma AcknowledgementGrantedIff(tape: Tape, r: Registry, index: nat)
    requires Inv(r) && index < |r.runs| && tape(r.clock) == Done
    ensures var run := r.runs[index];
            AcknowledgeUnknownCleanup(tape, r, run.id).ok <==> run.state == Unknown && run.id !in r.active
  {
    ChangedAt(r, index);
    RunAt(r, index);
    if r.runs[index].state == Unknown {
      QuietSave(tape, r, index, r.runs[index].(cleanup := true));
    }
  }

  /** A result can be pinned exactly when it is settled, intact and within both limits of pinned results. */
  lemma PinGrantedIff(tape: Tape, r: Registry, index: nat, intact: bool)
    requires Inv(r) && index < |r.runs| && tape(r.clock) == Done && !r.runs[index].pinned
    ensures var run := r.runs[index];
            PinResult(tape, r, run.id, true, intact).ok
            <==> (&& run.Settled() && intact && |r.runs| - Unpinned(r.runs) < 16
                  && PinnedBytes(r.runs) + run.retainedBytes <= 134_217_728)
  {
    ChangedAt(r, index);
    RunAt(r, index);
    var run := r.runs[index];
    if run.Settled() && FitsPins(r.Memory(), index, run.(pinned := true)) {
      QuietSave(tape, r, index, run.(pinned := true));
    }
  }
}
