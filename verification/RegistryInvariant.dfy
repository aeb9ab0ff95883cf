/** The registry invariant and its preservation by every disk step and every memory change. */
module RegistryInvariant {
  import opened Faults
  import opened RunLedger
  import opened RegistrySpec

  // ---------------------------------------------------------------- counting

  lemma {:induction false} CountsSplit(a: seq<Run>, b: seq<Run>)
    ensures Unpinned(a + b) == Unpinned(a) + Unpinned(b)
    ensures PinnedBytes(a + b) == PinnedBytes(a) + PinnedBytes(b)
    decreases |b|
  {
    if b == [] {
      assert a + b == a;
    } else {
      var front := b[..|b| - 1];
      assert (a + b)[..|a + b| - 1] == a + front;
      CountsSplit(a, front);
    }
  }

  function UnpinnedOne(run: Run): nat { if run.pinned then 0 else 1 }

  function BytesOne(run: Run): nat { if run.pinned then run.retainedBytes else 0 }

  lemma CountsOne(run: Run)
    ensures Unpinned([run]) == UnpinnedOne(run) && PinnedBytes([run]) == BytesOne(run)
  {
    assert [run][..0] == [];
  }

  lemma CountsAppend(runs: seq<Run>, run: Run)
    ensures Unpinned(runs + [run]) == Unpinned(runs) + UnpinnedOne(run)
    ensures PinnedBytes(runs + [run]) == PinnedBytes(runs) + BytesOne(run)
  {
    CountsOne(run);
    CountsSplit(runs, [run]);
  }

  lemma CountsAround(front: seq<Run>, run: Run, back: seq<Run>)
    ensures Unpinned((front + [run]) + back) == Unpinned(front + back) + UnpinnedOne(run)
    ensures PinnedBytes((front + [run]) + back) == PinnedBytes(front + back) + BytesOne(run)
  {
    CountsAppend(front, run);
    CountsSplit(front + [run], back);
    CountsSplit(front, back);
  }

  lemma Reassembled(runs: seq<Run>, i: nat)
    requires i < |runs|
    ensures (runs[..i] + [runs[i]]) + runs[i + 1..] == runs
  {
  }

  lemma CountsAt(runs: seq<Run>, i: nat)
    requires i < |runs|
    ensures Unpinned(runs) == Unpinned(Without(runs, i)) + UnpinnedOne(runs[i])
    ensures PinnedBytes(runs) == PinnedBytes(Without(runs, i)) + BytesOne(runs[i])
  {
    CountsAround(runs[..i], runs[i], runs[i + 1..]);
    Reassembled(runs, i);
  }

  lemma CountsUpdate(runs: seq<Run>, i: nat, run: Run)
    requires i < |runs|
    ensures Unpinned(runs[i := run]) == Unpinned(runs) - UnpinnedOne(runs[i]) + UnpinnedOne(run)
    ensures PinnedBytes(runs[i := run]) == PinnedBytes(runs) - BytesOne(runs[i]) + BytesOne(run)
  {
    CountsAt(runs, i);
    CountsAt(runs[i := run], i);
    assert Without(runs[i := run], i) == Without(runs, i);
  }

  // ---------------------------------------------------------------- the invariant

  predicate Wellformed(runs: seq<Run>) {
    forall i :: 0 <= i < |runs| ==> runs[i].Wellformed()
  }

  predicate GoodLedger(l: Ledger) {
    ValidLedger(l) && Wellformed(l.runs) && SeparateOutputs(l.runs)
  }

  /** Reserved starts differ in identity and operation from everything else, and own their outputs. */
  predicate PendingApart(r: Registry) {
    && (forall i, j :: 0 <= i < j < |r.pending| ==> r.pending[i].id != r.pending[j].id)
    && (forall i, j :: 0 <= i < j < |r.pending| ==> r.pending[i].operation != r.pending[j].operation)
    && (forall i, j :: 0 <= i < j < |r.pending| ==> !Conflict(r.pending[i].outputs, r.pending[j].outputs))
    && (forall i :: 0 <= i < |r.pending| ==> !Has(r.runs, r.pending[i].id) && !HasRetired(r.retired, r.pending[i].id))
    && (forall i :: 0 <= i < |r.pending| ==> !OperationUsed(r.runs, r.pending[i].operation))
  }

  predicate PendingOutputs(r: Registry) {
    forall i, j :: 0 <= i < |r.pending| && 0 <= j < |r.runs| && r.runs[j].Busy() ==>
      !Conflict(r.pending[i].outputs, r.runs[j].outputs)
  }

  /** An owned run keeps its lock exactly while it is unsettled or its outcome is not yet saved. */
  predicate Holding(r: Registry) {
    && (forall id :: id in r.active ==> Has(r.runs, id) && (r.active[id].lease ==> r.active[id].runUse))
    && (forall i :: 0 <= i < |r.runs| && r.runs[i].id in r.active ==>
          var a := r.active[r.runs[i].id];
          && (!a.runUse ==> r.runs[i].Settled())
          && (a.runUse ==> a.finishing || !r.runs[i].Settled()))
  }

  /** Nothing of these records was deleted by retention, and the bodies they name are stored. */
  predicate Kept(disk: Disk, runs: seq<Run>) {
    forall i :: 0 <= i < |runs| ==> KeptRun(disk, runs[i].id, runs[i].result, runs[i].events)
  }

  predicate KeptRun(disk: Disk, id: Id, result: bool, events: bool) {
    && (forall f :: f in disk.expired ==> f.id != id)
    && (result ==> ResultFile(id) in disk.files)
    && (events ==> EventsFile(id) in disk.files)
  }

  predicate CapturesKept(r: Registry) {
    && Kept(r.disk, r.runs)
    && (forall i :: 0 <= i < |r.pending| ==> KeptRun(r.disk, r.pending[i].id, false, false))
    && (forall id :: id in r.active && r.active[id].captured.Some? ==>
          KeptRun(r.disk, id, r.active[id].captured.value.result, r.active[id].captured.value.events))
  }

  predicate MemoryInv(r: Registry) {
    GoodLedger(r.Memory()) && PendingApart(r) && PendingOutputs(r) && Holding(r) && CapturesKept(r)
  }

  /** The ledger knows every unsettled owned run as unsettled, and every released one as settled. */
  predicate DiskKnows(r: Registry, l: Ledger) {
    && (forall i :: 0 <= i < |r.runs| && r.runs[i].id in r.active && !r.runs[i].Settled() ==>
          exists j :: 0 <= j < |l.runs| && l.runs[j].id == r.runs[i].id && !l.runs[j].Settled())
    && (forall j :: 0 <= j < |l.runs| && l.runs[j].id in r.active && !r.active[l.runs[j].id].runUse ==>
          l.runs[j].Settled())
  }

  /** A ledger that may be on disk beside this memory. */
  predicate Compatible(r: Registry, l: Ledger) {
    && GoodLedger(l)
    && (forall i, j :: 0 <= i < |r.retired| && 0 <= j < |l.runs| ==> r.retired[i].id != l.runs[j].id)
    && DiskKnows(r, l)
    && Kept(r.disk, l.runs)
  }

  predicate Inv(r: Registry) {
    MemoryInv(r) && Compatible(r, r.disk.ledger)
  }

  /** Every unpinned record and every reserved start has its place in the bounded history. */
  predicate Room(r: Registry) {
    Unpinned(r.runs) + |r.pending| <= RUN_RECORD_LIMIT
  }

  // ---------------------------------------------------------------- disk steps

  lemma MemoryIsCompatible(r: Registry)
    requires MemoryInv(r)
    ensures Compatible(r, r.Memory())
  {
  }

  lemma OtherLedgerCaptures(r: Registry, l: Ledger)
    requires CapturesKept(r) && Kept(r.disk, l.runs)
    ensures CapturesKept(r.(disk := r.disk.(ledger := l))) && Kept(r.disk.(ledger := l), l.runs)
  {
  }

  lemma OtherLedger(r: Registry, l: Ledger)
    requires MemoryInv(r) && Compatible(r, l)
    ensures Inv(r.(disk := r.disk.(ledger := l)))
  {
    OtherLedgerCaptures(r, l);
    OtherDisk(r, r.disk.(ledger := l));
  }

  /** The part of the invariant that a change of the disk leaves alone. */
  lemma OtherDisk(r: Registry, disk: Disk)
    requires MemoryInv(r) && Compatible(r, disk.ledger)
    requires CapturesKept(r.(disk := disk)) && Kept(disk, disk.ledger.runs)
    ensures Inv(r.(disk := disk))
  {
    var s := r.(disk := disk);
    assert s.Memory() == r.Memory();
    assert PendingApart(s) && PendingOutputs(s) && Holding(s) && DiskKnows(s, disk.ledger);
  }

  /** A save from a good memory leaves a good registry, whatever the disk does. */
  lemma PersistKeeps(tape: Tape, r: Registry)
    requires Inv(r)
    ensures var s := Persist(tape, r);
            && Inv(s.registry)
            && (s.ok ==> s.registry.disk.ledger == r.Memory())
            && s.registry == r.(disk := r.disk.(ledger := s.registry.disk.ledger), clock := s.registry.clock)
            && s.registry.clock >= r.clock
  {
    MemoryIsCompatible(r);
    OtherLedger(r, r.Memory());
    var ledger := Persist(tape, r).registry.disk.ledger;
    OtherLedger(r, ledger);
    OtherClock(r.(disk := r.disk.(ledger := ledger)), Persist(tape, r).registry.clock);
  }

  lemma OtherClock(r: Registry, clock: nat)
    requires Inv(r)
    ensures Inv(r.(clock := clock))
  {
  }

  /** Undoing a memory change after a failed save is sound when the ledger fits the old memory too. */
  lemma RollbackKeeps(tape: Tape, r: Registry, changed: Registry)
    requires Inv(r)
    requires changed.disk == r.disk && changed.clock == r.clock
    requires Compatible(r, changed.Memory())
    ensures var s := Persist(tape, changed).registry;
            Inv(r.(disk := s.disk, clock := s.clock))
  {
    var s := Persist(tape, changed).registry;
    OtherLedger(r, s.disk.ledger);
    OtherClock(r.(disk := r.disk.(ledger := s.disk.ledger)), s.clock);
  }
}
