/** Deleting the files of retired records can be interrupted anywhere and simply run again. */
module RegistryCleanup {
  import opened Faults
  import opened RunLedger
  import opened RegistrySpec
  import opened RegistryInvariant
  import opened RegistryRetention
  import opened RegistryRuns

  /** Every file that a cleanup journal names. */
  function RetiredFiles(retired: seq<Retired>): set<File> {
    if retired == [] then {} else (set f | f in FilesOf(retired[0])) + RetiredFiles(retired[1..])
  }

  /** What a finished cleanup leaves, seen from memory and from the ledger on disk. */
  function Leftover(files: set<File>, retired: seq<Retired>): set<File> {
    files - RetiredFiles(retired)
  }

  lemma {:induction false} DeleteAllEffect(tape: Tape, r: Registry, files: seq<File>)
    ensures var s := DeleteAll(tape, r, files);
            && s.registry.disk.files <= r.disk.files
            && (forall f :: f in r.disk.files && f !in files ==> f in s.registry.disk.files)
            && (s.ok ==> forall f :: f in files ==> f !in s.registry.disk.files)
    decreases |files|
  {
    if files != [] {
      var first := Delete(tape, r, files[0]);
      if first.ok {
        DeleteAllEffect(tape, first.registry, files[1..]);
      }
    }
  }

  /** Forgetting a record, finished or cut off, leaves what the journal in memory would leave. */
  lemma ForgetFirstLeftover(tape: Tape, r: Registry)
    requires r.retired != []
    ensures var s := ForgetFirst(tape, r).registry;
            Leftover(s.disk.files, s.retired) == Leftover(r.disk.files, r.retired)
  {
    var files := FilesOf(r.retired[0]);
    DeleteAllEffect(tape, r, files);
    DeleteAllKeepsMemory(tape, r, files);
    var d := DeleteAll(tape, r, files).registry;
    assert Leftover(d.disk.files, r.retired) == Leftover(r.disk.files, r.retired);
    if DeleteAll(tape, r, files).ok {
      assert Leftover(d.disk.files, r.retired[1..]) == Leftover(d.disk.files, r.retired);
    }
  }

  /** So does a whole cleanup, wherever it stops. */
  lemma {:induction false} CleanupLeftover(tape: Tape, r: Registry)
    ensures var s := CleanupRetired(tape, r).registry;
            Leftover(s.disk.files, s.retired) == Leftover(r.disk.files, r.retired)
    decreases |r.retired|
  {
    if r.retired != [] {
      ForgetFirstLeftover(tape, r);
      if ForgetFirst(tape, r).ok {
        CleanupLeftover(tape, ForgetFirst(tape, r).registry);
      }
    }
  }

  lemma {:induction false} QuietDeleteAll(tape: Tape, r: Registry, files: seq<File>)
    requires QuietFrom(tape, r.clock)
    ensures DeleteAll(tape, r, files).ok
    decreases |files|
  {
    if files != [] {
      QuietDeleteAll(tape, Delete(tape, r, files[0]).registry, files[1..]);
    }
  }

  /** A cleanup that no fault disturbs ends with an empty journal and every named file gone. */
  lemma {:induction false} QuietCleanupFinishes(tape: Tape, r: Registry)
    requires Inv(r) && QuietFrom(tape, r.clock)
    ensures var s := CleanupRetired(tape, r);
            && s.ok && s.registry.retired == []
            && s.registry.disk.files == Leftover(r.disk.files, r.retired)
    decreases |r.retired|
  {
    CleanupLeftover(tape, r);
    if r.retired != [] {
      QuietForget(tape, r);
      ForgetFirstKeeps(tape, r);
      ForgetFirstLeftover(tape, r);
      QuietCleanupFinishes(tape, ForgetFirst(tape, r).registry);
    }
  }

  lemma QuietForget(tape: Tape, r: Registry)
    requires Inv(r) && QuietFrom(tape, r.clock) && r.retired != []
    ensures ForgetFirst(tape, r).ok && ForgetFirst(tape, r).registry.clock >= r.clock
  {
    var files := FilesOf(r.retired[0]);
    QuietDeleteAll(tape, r, files);
    DeleteAllKeepsMemory(tape, r, files);
    ForgettingIsInvariant(r);
    assert ValidLedger(Ledger(r.runs, r.retired[1..]));
  }

  // ---------------------------------------------------------------- running it again

  /**
   However a cleanup was interrupted, a living registry that runs it again ends with an
   empty journal and exactly the files that one undisturbed cleanup would have left.
   */
  lemma InterruptedCleanupIsHarmless(tape: Tape, quiet: Tape, r: Registry)
    requires Inv(r) && QuietFrom(quiet, 0)
    ensures var again := CleanupRetired(quiet, CleanupRetired(tape, r).registry);
            && again.ok && again.registry.retired == []
            && again.registry.disk.files == CleanupRetired(quiet, r).registry.disk.files
  {
    CleanupKeeps(tape, r);
    CleanupLeftover(tape, r);
    QuietCleanupFinishes(quiet, r);
    QuietCleanupFinishes(quiet, CleanupRetired(tape, r).registry);
  }

  /** The cleanup of a host that starts on this disk, after the save that comes first. */
  function CleanupAtStart(tape: Tape, disk: Disk): Step {
    var saved := Persist(tape, Opened(disk, 0));
    if !saved.ok then saved else CleanupRetired(tape, saved.registry)
  }

  /** What a host that starts on a good disk cleans up, when no fault disturbs it. */
  lemma QuietStartCleans(quiet: Tape, disk: Disk)
    requires DiskInv(disk) && QuietFrom(quiet, 0)
    ensures var s := CleanupAtStart(quiet, disk);
            && s.ok && s.registry.retired == []
            && s.registry.disk.files == Leftover(disk.files, disk.ledger.retired)
  {
    OpenedKeeps(disk, 0);
    var r := Opened(disk, 0);
    PersistKeeps(quiet, r);
    assert Persist(quiet, r).ok;
    QuietCleanupFinishes(quiet, Persist(quiet, r).registry);
  }

  /** The journals in memory and on disk name the same files among those that are left. */
  predicate JournalsAgree(r: Registry) {
    Leftover(r.disk.files, r.disk.ledger.retired) == Leftover(r.disk.files, r.retired)
  }

  lemma ForgetFirstAgrees(tape: Tape, r: Registry)
    requires r.retired != [] && JournalsAgree(r)
    ensures JournalsAgree(ForgetFirst(tape, r).registry)
  {
    var files := FilesOf(r.retired[0]);
    DeleteAllEffect(tape, r, files);
    DeleteAllKeepsMemory(tape, r, files);
    var d := DeleteAll(tape, r, files).registry;
    DeletedAgrees(r, d);
    if DeleteAll(tape, r, files).ok {
      assert Leftover(d.disk.files, r.retired[1..]) == Leftover(d.disk.files, r.retired);
    }
  }

  lemma DeletedAgrees(r: Registry, d: Registry)
    requires JournalsAgree(r) && d.disk.files <= r.disk.files
    requires d.retired == r.retired && d.disk.ledger == r.disk.ledger
    ensures JournalsAgree(d)
  {
    var a, b := RetiredFiles(r.disk.ledger.retired), RetiredFiles(r.retired);
    forall f | f in d.disk.files
      ensures f in a <==> f in b
    {
      assert f in Leftover(r.disk.files, r.disk.ledger.retired) <==> f in Leftover(r.disk.files, r.retired);
    }
  }

  /** An interrupted cleanup keeps the two journals in agreement. */
  lemma {:induction false} CleanupAgrees(tape: Tape, r: Registry)
    requires JournalsAgree(r)
    ensures JournalsAgree(CleanupRetired(tape, r).registry)
    decreases |r.retired|
  {
    if r.retired != [] {
      ForgetFirstAgrees(tape, r);
      if ForgetFirst(tape, r).ok {
        CleanupAgrees(tape, ForgetFirst(tape, r).registry);
      }
    }
  }

  function NothingReachesDisk(): Tape { (k: nat) => FailedBefore }

  lemma {:induction false} NothingDeleted(r: Registry, files: seq<File>)
    ensures DeleteAll(NothingReachesDisk(), r, files).registry.disk == r.disk
    decreases |files|
  {
    if files != [] && files[0] !in r.disk.files {
      NothingDeleted(r, files[1..]);
    }
  }

  lemma NothingCleaned(r: Registry)
    ensures CleanupRetired(NothingReachesDisk(), r).registry.disk == r.disk
  {
    if r.retired != [] {
      NothingDeleted(r, FilesOf(r.retired[0]));
    }
  }

  /**
   After a crash anywhere in a cleanup, a host that starts on that disk leaves exactly the
   files that one undisturbed cleanup would have left, for every way to be interrupted, if
   and only if the journals agreed before. They disagree where a retirement reached the
   disk, reported failure and was taken back in memory.
   */
  lemma CrashedCleanupIsHarmlessIff(quiet: Tape, r: Registry)
    requires Inv(r) && QuietFrom(quiet, 0)
    ensures JournalsAgree(r) <==>
      forall tape: Tape ::
        CleanupAtStart(quiet, CleanupRetired(tape, r).registry.disk).registry.disk.files
          == CleanupRetired(quiet, r).registry.disk.files
  {
    QuietCleanupFinishes(quiet, r);
    forall tape: Tape
      ensures var s := CleanupRetired(tape, r).registry;
              && CleanupAtStart(quiet, s.disk).registry.disk.files == Leftover(s.disk.files, s.disk.ledger.retired)
              && (JournalsAgree(r) ==> Leftover(s.disk.files, s.disk.ledger.retired) == Leftover(r.disk.files, r.retired))
    {
      CleanupKeeps(tape, r);
      CleanupLeftover(tape, r);
      QuietStartCleans(quiet, CleanupRetired(tape, r).registry.disk);
      if JournalsAgree(r) {
        CleanupAgrees(tape, r);
      }
    }
    NothingCleaned(r);
    var s := CleanupRetired(NothingReachesDisk(), r).registry;
    assert CleanupAtStart(quiet, s.disk).registry.disk.files == Leftover(r.disk.files, r.disk.ledger.retired);
  }

  lemma {:induction false} NotJournaled(retired: seq<Retired>, id: Id)
    requires !HasRetired(retired, id)
    ensures LogFile(id) !in RetiredFiles(retired)
  {
    if retired != [] {
      assert retired[0].id != id;
      assert !HasRetired(retired[1..], id) by {
        assert forall i :: 0 <= i < |retired| - 1 ==> retired[1..][i] == retired[i + 1];
      }
      NotJournaled(retired[1..], id);
    }
  }

  lemma {:induction false} LastJournaled(retired: seq<Retired>, last: Retired)
    ensures LogFile(last.id) in RetiredFiles(retired + [last])
  {
    if retired == [] {
      assert retired + [last] == [last];
      assert LogFile(last.id) in FilesOf(last);
    } else {
      assert (retired + [last])[1..] == retired[1..] + [last];
      LastJournaled(retired[1..], last);
    }
  }

  /** A retirement that reaches the disk but reports failure makes the journals disagree. */
  lemma SlippedRetirementDisagrees(tape: Tape, r: Registry, index: nat)
    requires Inv(r) && index < |r.runs| && CanRotate(r, r.runs[index]) && |r.retired| < RUN_RECORD_LIMIT
    requires tape(r.clock) == FailedAfter && LogFile(r.runs[index].id) in r.disk.files
    ensures !Retire(tape, r, index).ok && Inv(Retire(tape, r, index).registry)
    ensures !JournalsAgree(Retire(tape, r, index).registry)
  {
    var run := r.runs[index];
    RetireKeeps(tape, r, index);
    MovedCompatible(r, index);
    RetireSteps(tape, r, index);
    assert r.runs[index].id == run.id && DistinctRetired(r.runs, r.retired);
    NotJournaled(r.retired, run.id);
    LastJournaled(r.retired, RetiredOf(run));
    var s := Retire(tape, r, index).registry;
    assert LogFile(run.id) in Leftover(s.disk.files, s.retired);
    assert LogFile(run.id) !in Leftover(s.disk.files, s.disk.ledger.retired);
  }

  /** After it memory keeps the run and its log; but a host that starts after a crash has forgotten both. */
  lemma SlippedRetirementHappens(tape: Tape, quiet: Tape, r: Registry, index: nat)
    requires Inv(r) && index < |r.runs| && CanRotate(r, r.runs[index]) && |r.retired| < RUN_RECORD_LIMIT
    requires tape(r.clock) == FailedAfter && LogFile(r.runs[index].id) in r.disk.files && QuietFrom(quiet, 0)
    ensures var s := Retire(tape, r, index);
            && !s.ok && s.registry.runs == r.runs && LogFile(r.runs[index].id) in s.registry.disk.files
            && var after := CleanupAtStart(quiet, s.registry.disk);
               && after.ok
               && !Has(after.registry.runs, r.runs[index].id)
               && LogFile(r.runs[index].id) !in after.registry.disk.files
  {
    var run := r.runs[index];
    var s := Retire(tape, r, index).registry;
    RetireKeeps(tape, r, index);
    MovedCompatible(r, index);
    RetireSteps(tape, r, index);
    LastJournaled(r.retired, RetiredOf(run));
    QuietStartCleans(quiet, s.disk);
    WithoutDistinct(r.runs, index);
    OpenedForgets(quiet, s.disk, run.id);
  }

  lemma OpenedForgets(tape: Tape, disk: Disk, id: Id)
    requires !Has(disk.ledger.runs, id)
    ensures !Has(CleanupAtStart(tape, disk).registry.runs, id)
  {
    assert forall i :: 0 <= i < |disk.ledger.runs| ==> Opened(disk, 0).runs[i].id == disk.ledger.runs[i].id;
  }

  /** Even then a start deletes nothing but what one of the two journals names. */
  lemma CrashedCleanupDeletesJournaled(tape: Tape, quiet: Tape, r: Registry)
    requires Inv(r) && QuietFrom(quiet, 0)
    ensures var left := CleanupAtStart(quiet, CleanupRetired(tape, r).registry.disk).registry.disk.files;
            && left <= r.disk.files
            && forall f :: f in r.disk.files && f !in RetiredFiles(r.retired) && f !in RetiredFiles(r.disk.ledger.retired) ==> f in left
  {
    CleanupKeeps(tape, r);
    QuietStartCleans(quiet, CleanupRetired(tape, r).registry.disk);
    CleanupJournals(tape, r);
  }

  lemma {:induction false} CleanupJournals(tape: Tape, r: Registry)
    ensures var s := CleanupRetired(tape, r).registry;
            && s.disk.files <= r.disk.files
            && (forall f :: f in r.disk.files && f !in RetiredFiles(r.retired) ==> f in s.disk.files)
            && (forall f :: f in RetiredFiles(s.disk.ledger.retired) ==>
                  f in RetiredFiles(r.retired) || f in RetiredFiles(r.disk.ledger.retired))
    decreases |r.retired|
  {
    if r.retired != [] {
      DeleteAllEffect(tape, r, FilesOf(r.retired[0]));
      DeleteAllKeepsMemory(tape, r, FilesOf(r.retired[0]));
      if ForgetFirst(tape, r).ok {
        CleanupJournals(tape, ForgetFirst(tape, r).registry);
      }
    }
  }
}
