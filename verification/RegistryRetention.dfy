/** Retention: what rotation may remove, and why its deletions are safe in every crash. */
module RegistryRetention {
  import opened Faults
  import opened RunLedger
  import opened RegistrySpec
  import opened RegistryInvariant

  // ---------------------------------------------------------------- deleting files

  function Deleted(disk: Disk, file: File): Disk {
    disk.(files := disk.files - {file}, expired := disk.expired + {file})
  }

  lemma DeletedKept(disk: Disk, runs: seq<Run>, file: File)
    requires Kept(disk, runs)
    requires forall i :: 0 <= i < |runs| ==> runs[i].id != file.id
    ensures Kept(Deleted(disk, file), runs)
  {
  }

  lemma DeletedCaptures(r: Registry, file: File)
    requires CapturesKept(r)
    requires !Has(r.runs, file.id)
    requires forall id :: id in r.active ==> id != file.id
    requires forall i :: 0 <= i < |r.pending| ==> r.pending[i].id != file.id
    ensures CapturesKept(r.(disk := Deleted(r.disk, file)))
  {
    DeletedKept(r.disk, r.runs, file);
  }

  lemma RetiredIsElsewhere(r: Registry, id: Id)
    requires Inv(r) && HasRetired(r.retired, id)
    ensures !Has(r.runs, id) && !Has(r.disk.ledger.runs, id)
    ensures id !in r.active
    ensures forall i :: 0 <= i < |r.pending| ==> r.pending[i].id != id
  {
    var k :| 0 <= k < |r.retired| && r.retired[k].id == id;
    assert DistinctRetired(r.runs, r.retired);
  }

  lemma DeletedKeeps(r: Registry, file: File)
    requires Inv(r) && HasRetired(r.retired, file.id)
    ensures Inv(r.(disk := Deleted(r.disk, file)))
  {
    RetiredIsElsewhere(r, file.id);
    DeletedCaptures(r, file);
    DeletedKept(r.disk, r.disk.ledger.runs, file);
    OtherDisk(r, Deleted(r.disk, file));
  }

  lemma DeleteKeeps(tape: Tape, r: Registry, file: File)
    requires Inv(r) && HasRetired(r.retired, file.id)
    ensures Inv(Delete(tape, r, file).registry)
  {
    DeletedKeeps(r, file);
    OtherClock(r, r.clock + 1);
    OtherClock(r.(disk := Deleted(r.disk, file)), r.clock + 1);
    DeleteResults(tape, r, file);
  }

  lemma DeleteResults(tape: Tape, r: Registry, file: File)
    ensures var s := Delete(tape, r, file).registry;
            s == r || s == r.(clock := r.clock + 1) || s == r.(disk := Deleted(r.disk, file)).(clock := r.clock + 1)
  {
  }

  lemma {:induction false} DeleteAllKeeps(tape: Tape, r: Registry, files: seq<File>)
    requires Inv(r) && forall f :: f in files ==> HasRetired(r.retired, f.id)
    ensures Inv(DeleteAll(tape, r, files).registry)
    decreases |files|
  {
    if files != [] {
      DeleteKeeps(tape, r, files[0]);
      var first := Delete(tape, r, files[0]);
      if first.ok {
        DeleteAllKeeps(tape, first.registry, files[1..]);
      }
    }
  }

  // ---------------------------------------------------------------- forgetting a deleted record

  lemma TailRetired(retired: seq<Retired>, id: Id)
    requires retired != []
    ensures HasRetired(retired[1..], id) ==> HasRetired(retired, id)
  {
    if HasRetired(retired[1..], id) {
      var k :| 0 <= k < |retired[1..]| && retired[1..][k].id == id;
      assert retired[k + 1].id == id;
    }
  }

  lemma ForgettingPending(r: Registry)
    requires PendingApart(r) && r.retired != []
    ensures PendingApart(r.(retired := r.retired[1..]))
  {
    forall i | 0 <= i < |r.pending| ensures !HasRetired(r.retired[1..], r.pending[i].id) {
      TailRetired(r.retired, r.pending[i].id);
    }
  }

  lemma ForgettingIsInvariant(r: Registry)
    requires Inv(r) && r.retired != []
    ensures Inv(r.(retired := r.retired[1..]))
    ensures Compatible(r, Ledger(r.runs, r.retired[1..]))
  {
    var s := r.(retired := r.retired[1..]);
    ForgettingPending(r);
    assert GoodLedger(s.Memory());
    assert CapturesKept(s);
    assert Holding(s);
    MemoryIsCompatible(r);
    assert DiskKnows(r, s.Memory());
  }

  lemma ForgetFirstKeeps(tape: Tape, r: Registry)
    requires Inv(r) && r.retired != []
    ensures Inv(ForgetFirst(tape, r).registry)
  {
    var files := FilesOf(r.retired[0]);
    assert HasRetired(r.retired, r.retired[0].id);
    DeleteAllKeeps(tape, r, files);
    DeleteAllKeepsMemory(tape, r, files);
    var deleted := DeleteAll(tape, r, files);
    if deleted.ok {
      var d := deleted.registry;
      var changed := d.(retired := d.retired[1..]);
      ForgettingIsInvariant(d);
      PersistKeeps(tape, changed);
      RollbackKeeps(tape, d, changed);
      var saved := Persist(tape, changed);
      assert saved.registry.(retired := d.retired) == d.(disk := saved.registry.disk, clock := saved.registry.clock);
    }
  }

  lemma {:induction false} CleanupKeeps(tape: Tape, r: Registry)
    requires Inv(r)
    ensures Inv(CleanupRetired(tape, r).registry)
    decreases |r.retired|
  {
    if r.retired != [] {
      ForgetFirstKeeps(tape, r);
      if ForgetFirst(tape, r).ok {
        CleanupKeeps(tape, ForgetFirst(tape, r).registry);
      }
    }
  }

  // ---------------------------------------------------------------- moving a record to the journal

  /** Records keep their order when one of them goes. */
  lemma WithoutAt(runs: seq<Run>, index: nat)
    requires index < |runs|
    ensures |Without(runs, index)| == |runs| - 1
    ensures forall k :: 0 <= k < |runs| - 1 ==> Without(runs, index)[k] == runs[if k < index then k else k + 1]
  {
  }

  lemma WithoutHas(runs: seq<Run>, index: nat, k: nat)
    requires index < |runs| && k < |runs| && k != index
    ensures var j := if k < index then k else k - 1; j < |Without(runs, index)| && Without(runs, index)[j] == runs[k]
  {
  }

  lemma WithoutDistinct(runs: seq<Run>, index: nat)
    requires index < |runs| && DistinctRuns(runs)
    ensures DistinctRuns(Without(runs, index))
    ensures !Has(Without(runs, index), runs[index].id)
  {
    WithoutAt(runs, index);
  }

  lemma WithoutShape(runs: seq<Run>, index: nat)
    requires index < |runs| && Wellformed(runs) && SeparateOutputs(runs)
    ensures Wellformed(Without(runs, index)) && SeparateOutputs(Without(runs, index))
  {
    WithoutAt(runs, index);
  }

  function RetiredOf(run: Run): Retired {
    Retired(run.id, run.result, run.events)
  }

  lemma WithoutRetired(runs: seq<Run>, retired: seq<Retired>, index: nat)
    requires index < |runs| && DistinctRuns(runs) && DistinctRetired(runs, retired)
    ensures DistinctRetired(Without(runs, index), retired + [RetiredOf(runs[index])])
  {
    WithoutAt(runs, index);
    WithoutDistinct(runs, index);
  }

  lemma WithoutIsGood(runs: seq<Run>, retired: seq<Retired>, index: nat)
    requires index < |runs| && GoodLedger(Ledger(runs, retired)) && |retired| < RUN_RECORD_LIMIT
    ensures GoodLedger(Ledger(Without(runs, index), retired + [RetiredOf(runs[index])]))
  {
    WithoutAt(runs, index);
    WithoutDistinct(runs, index);
    WithoutShape(runs, index);
    WithoutRetired(runs, retired, index);
    CountsAt(runs, index);
  }

  /** The memory after a record moved to the cleanup journal. */
  function Moved(r: Registry, index: nat): Registry
    requires index < |r.runs|
  {
    r.(runs := Without(r.runs, index),
       retired := r.retired + [RetiredOf(r.runs[index])],
       active := r.active - {r.runs[index].id})
  }

  lemma WithoutLess(runs: seq<Run>, index: nat, id: Id, operation: Id)
    requires index < |runs|
    ensures Has(Without(runs, index), id) ==> Has(runs, id)
    ensures OperationUsed(Without(runs, index), operation) ==> OperationUsed(runs, operation)
  {
    WithoutAt(runs, index);
  }

  lemma MovedRetired(r: Registry, index: nat, id: Id)
    requires index < |r.runs| && !Has(r.runs, id) && !HasRetired(r.retired, id)
    ensures !HasRetired(r.retired + [RetiredOf(r.runs[index])], id)
  {
    assert r.runs[index].id != id;
  }

  lemma MovedPending(r: Registry, index: nat)
    requires PendingApart(r) && PendingOutputs(r) && index < |r.runs|
    ensures PendingApart(Moved(r, index)) && PendingOutputs(Moved(r, index))
  {
    WithoutAt(r.runs, index);
    forall i | 0 <= i < |r.pending|
      ensures !Has(Without(r.runs, index), r.pending[i].id)
      ensures !HasRetired(Moved(r, index).retired, r.pending[i].id)
      ensures !OperationUsed(Without(r.runs, index), r.pending[i].operation)
    {
      WithoutLess(r.runs, index, r.pending[i].id, r.pending[i].operation);
      MovedRetired(r, index, r.pending[i].id);
    }
  }

  lemma MovedHolding(r: Registry, index: nat)
    requires Holding(r) && DistinctRuns(r.runs) && index < |r.runs|
    ensures Holding(Moved(r, index))
  {
    WithoutAt(r.runs, index);
    forall id | id in Moved(r, index).active ensures Has(Without(r.runs, index), id) {
      var k := Position(r.runs, id);
      WithoutHas(r.runs, index, k);
    }
  }

  lemma MovedCaptures(r: Registry, index: nat)
    requires CapturesKept(r) && index < |r.runs|
    ensures CapturesKept(Moved(r, index))
    ensures Kept(r.disk, Without(r.runs, index))
  {
    WithoutAt(r.runs, index);
  }

  lemma MovedKnows(r: Registry, index: nat)
    requires Holding(r) && index < |r.runs| && r.runs[index].Settled()
    ensures DiskKnows(r, Moved(r, index).Memory())
  {
    WithoutAt(r.runs, index);
    var less := Without(r.runs, index);
    forall i | 0 <= i < |r.runs| && r.runs[i].id in r.active && !r.runs[i].Settled()
      ensures exists j :: 0 <= j < |less| && less[j].id == r.runs[i].id && !less[j].Settled()
    {
      WithoutHas(r.runs, index, i);
    }
  }

  lemma MovedCompatible(r: Registry, index: nat)
    requires Inv(r) && index < |r.runs| && |r.retired| < RUN_RECORD_LIMIT && r.runs[index].Settled()
    ensures Compatible(r, Moved(r, index).Memory())
    ensures MemoryInv(Moved(r, index))
  {
    WithoutAt(r.runs, index);
    WithoutIsGood(r.runs, r.retired, index);
    MovedPending(r, index);
    MovedHolding(r, index);
    MovedCaptures(r, index);
    MovedKnows(r, index);
  }

  /** A saved move is what the disk says; an unsaved one is undone. */
  lemma RetireSteps(tape: Tape, r: Registry, index: nat)
    requires index < |r.runs| && CanRotate(r, r.runs[index]) && |r.retired| < RUN_RECORD_LIMIT
    ensures var saved := Persist(tape, Moved(r, index).(active := r.active));
            Retire(tape, r, index).registry ==
              if saved.ok then Moved(r, index).(disk := r.disk.(ledger := Moved(r, index).Memory()), clock := r.clock + 1)
              else r.(disk := saved.registry.disk, clock := saved.registry.clock)
  {
  }

  lemma RetireKeeps(tape: Tape, r: Registry, index: nat)
    requires Inv(r) && index < |r.runs|
    ensures Inv(Retire(tape, r, index).registry)
  {
    if CanRotate(r, r.runs[index]) && |r.retired| < RUN_RECORD_LIMIT {
      RetireSteps(tape, r, index);
      MovedCompatible(r, index);
      var s := Moved(r, index);
      RollbackKeeps(tape, r, s.(active := r.active));
      MemoryIsCompatible(s);
      OtherLedger(s, s.Memory());
      OtherClock(s.(disk := s.disk.(ledger := s.Memory())), r.clock + 1);
    }
  }

  lemma RemoveHistoryKeeps(tape: Tape, r: Registry, index: nat)
    requires Inv(r) && index < |r.runs|
    ensures Inv(RemoveHistory(tape, r, index).registry)
  {
    RetireKeeps(tape, r, index);
    CleanupKeeps(tape, Retire(tape, r, index).registry);
  }

  // ---------------------------------------------------------------- what may go

  /** Between two registries only records that could be rotated have gone. */
  predicate Trimmed(r: Registry, s: Registry) {
    && s.pending == r.pending
    && (forall run :: run in s.runs ==> run in r.runs)
    && (forall run :: run in r.runs && !CanRotate(r, run) ==> run in s.runs)
    && (forall id :: id in s.active ==> id in r.active && s.active[id] == r.active[id])
    && (forall run :: run in s.runs && run.id in r.active ==> run.id in s.active)
  }

  lemma TrimmedTransitive(r: Registry, s: Registry, t: Registry)
    requires Trimmed(r, s) && Trimmed(s, t)
    ensures Trimmed(r, t)
  {
    forall run | run in r.runs && !CanRotate(r, run) ensures run in t.runs {
      assert run in s.runs && !CanRotate(s, run);
    }
  }

  lemma MovedTrims(r: Registry, index: nat)
    requires index < |r.runs| && DistinctRuns(r.runs) && CanRotate(r, r.runs[index])
    ensures Trimmed(r, Moved(r, index))
  {
    WithoutAt(r.runs, index);
    var s := Moved(r, index);
    forall run | run in r.runs && run != r.runs[index] ensures run in s.runs {
      var k :| 0 <= k < |r.runs| && r.runs[k] == run;
      WithoutHas(r.runs, index, k);
    }
    WithoutDistinct(r.runs, index);
    forall run | run in s.runs ensures run.id != r.runs[index].id {
      var k :| 0 <= k < |s.runs| && s.runs[k] == run;
    }
  }

  lemma RemoveHistoryTrims(tape: Tape, r: Registry, index: nat)
    requires Inv(r) && index < |r.runs|
    ensures Trimmed(r, RemoveHistory(tape, r, index).registry)
  {
    if CanRotate(r, r.runs[index]) && |r.retired| < RUN_RECORD_LIMIT {
      RetireSteps(tape, r, index);
      MovedTrims(r, index);
    }
  }

  lemma {:induction false} ExpireHistoryKeeps(tape: Tape, r: Registry, now: nat)
    requires Inv(r)
    ensures var s := ExpireHistory(tape, r, now).registry; Inv(s) && Trimmed(r, s)
    decreases |r.runs|
  {
    var index := FirstExpired(r, now, 0);
    if index < |r.runs| {
      RemoveHistoryKeeps(tape, r, index);
      RemoveHistoryTrims(tape, r, index);
      var removed := RemoveHistory(tape, r, index);
      if removed.ok {
        ExpireHistoryKeeps(tape, removed.registry, now);
        TrimmedTransitive(r, removed.registry, ExpireHistory(tape, removed.registry, now).registry);
      }
    }
  }

  lemma {:induction false} MakeRoomKeeps(tape: Tape, r: Registry, taken: nat)
    requires Inv(r)
    ensures var s := MakeRoom(tape, r, taken).registry; Inv(s) && Trimmed(r, s)
    decreases |r.runs|
  {
    var index := FirstRotatable(r, 0);
    if Unpinned(r.runs) + taken >= RUN_RECORD_LIMIT && index < |r.runs| {
      RemoveHistoryKeeps(tape, r, index);
      RemoveHistoryTrims(tape, r, index);
      var removed := RemoveHistory(tape, r, index);
      if removed.ok {
        MakeRoomKeeps(tape, removed.registry, taken);
        TrimmedTransitive(r, removed.registry, MakeRoom(tape, removed.registry, taken).registry);
      }
    }
  }

  lemma TrimKeeps(tape: Tape, r: Registry, now: nat)
    requires Inv(r)
    ensures var s := Trim(tape, r, now).registry; Inv(s) && Trimmed(r, s)
  {
    CleanupKeeps(tape, r);
    var cleaned := CleanupRetired(tape, r);
    if cleaned.ok {
      ExpireHistoryKeeps(tape, cleaned.registry, now);
      var expired := ExpireHistory(tape, cleaned.registry, now);
      TrimmedTransitive(r, cleaned.registry, expired.registry);
      if expired.ok {
        MakeRoomKeeps(tape, expired.registry, |r.pending|);
        TrimmedTransitive(r, expired.registry, MakeRoom(tape, expired.registry, |r.pending|).registry);
      }
    }
  }
}
