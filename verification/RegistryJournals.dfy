/** The cleanup journals in memory and on disk over whole histories. */
module RegistryJournals {
  import opened Faults
  import opened RunLedger
  import opened RegistrySpec
  import opened RegistryInvariant
  import opened RegistryRetention
  import opened RegistryRuns
  import opened RegistryHistory
  import opened RegistryCleanup

  /** The disk has forgotten the oldest retired record already, after its files were deleted. */
  predicate ForgottenOnDisk(r: Registry) {
    && r.retired != [] && r.disk.ledger.retired == r.retired[1..]
    && forall f :: f in FilesOf(r.retired[0]) ==> f !in r.disk.files
  }

  /** The disk has retired one more run, which memory took back. */
  predicate SlippedRetirement(r: Registry) {
    var n, l := |r.retired|, r.disk.ledger.retired;
    |l| == n + 1 && l[..n] == r.retired && Has(r.runs, l[n].id)
  }

  predicate Journalled(r: Registry) {
    r.disk.ledger.retired == r.retired || ForgottenOnDisk(r) || SlippedRetirement(r)
  }

  /** A call that leaves the journal alone keeps the two in step, also when its save fails. */
  lemma OtherCallJournals(r: Registry, s: Registry)
    requires Journalled(r) && s.retired == r.retired
    requires s.disk.ledger.retired == r.retired || s.disk.ledger.retired == r.disk.ledger.retired
    requires forall id :: Has(r.runs, id) ==> Has(s.runs, id)
    requires forall f :: f in s.disk.files && f !in r.disk.files ==> !HasRetired(r.retired, f.id)
    ensures Journalled(s)
  {
    if ForgottenOnDisk(r) {
      assert HasRetired(r.retired, r.retired[0].id);
    }
  }

  lemma FewerFilesJournals(r: Registry, s: Registry)
    requires Journalled(r) && s.retired == r.retired && s.runs == r.runs
    requires s.disk.ledger == r.disk.ledger && s.disk.files <= r.disk.files
    ensures Journalled(s)
  {
  }

  lemma ForgetFirstJournals(tape: Tape, r: Registry)
    requires Journalled(r) && r.retired != []
    ensures Journalled(ForgetFirst(tape, r).registry)
  {
    var files := FilesOf(r.retired[0]);
    DeleteAllEffect(tape, r, files);
    DeleteAllKeepsMemory(tape, r, files);
    FewerFilesJournals(r, DeleteAll(tape, r, files).registry);
  }

  lemma {:induction false} CleanupKeepsJournals(tape: Tape, r: Registry)
    requires Journalled(r)
    ensures Journalled(CleanupRetired(tape, r).registry)
    decreases |r.retired|
  {
    if r.retired != [] {
      ForgetFirstJournals(tape, r);
      if ForgetFirst(tape, r).ok {
        CleanupKeepsJournals(tape, ForgetFirst(tape, r).registry);
      }
    }
  }

  lemma RetireJournals(tape: Tape, r: Registry, index: nat)
    requires Journalled(r) && index < |r.runs|
    ensures Journalled(Retire(tape, r, index).registry)
  {
    if CanRotate(r, r.runs[index]) && |r.retired| < RUN_RECORD_LIMIT {
      RetireSteps(tape, r, index);
      assert Has(r.runs, r.runs[index].id);
      assert (r.retired + [RetiredOf(r.runs[index])])[..|r.retired|] == r.retired;
    }
  }

  lemma RemoveJournals(tape: Tape, r: Registry, index: nat)
    requires Journalled(r) && index < |r.runs|
    ensures Journalled(RemoveHistory(tape, r, index).registry)
  {
    RetireJournals(tape, r, index);
    CleanupKeepsJournals(tape, Retire(tape, r, index).registry);
  }

  lemma {:induction false} ExpireJournals(tape: Tape, r: Registry, now: nat)
    requires Journalled(r)
    ensures Journalled(ExpireHistory(tape, r, now).registry)
    decreases |r.runs|
  {
    var index := FirstExpired(r, now, 0);
    if index < |r.runs| {
      RemoveJournals(tape, r, index);
      if RemoveHistory(tape, r, index).ok {
        ExpireJournals(tape, RemoveHistory(tape, r, index).registry, now);
      }
    }
  }

  lemma {:induction false} RoomJournals(tape: Tape, r: Registry, taken: nat)
    requires Journalled(r)
    ensures Journalled(MakeRoom(tape, r, taken).registry)
    decreases |r.runs|
  {
    var index := FirstRotatable(r, 0);
    if Unpinned(r.runs) + taken >= RUN_RECORD_LIMIT && index < |r.runs| {
      RemoveJournals(tape, r, index);
      if RemoveHistory(tape, r, index).ok {
        RoomJournals(tape, RemoveHistory(tape, r, index).registry, taken);
      }
    }
  }

  lemma ReserveJournals(tape: Tape, r: Registry, q: Request)
    requires Journalled(r)
    ensures Journalled(BeginReserve(tape, r, q).registry)
  {
    CleanupKeepsJournals(tape, r);
    var cleaned := CleanupRetired(tape, r);
    ExpireJournals(tape, cleaned.registry, q.now);
    RoomJournals(tape, ExpireHistory(tape, cleaned.registry, q.now).registry, |r.pending|);
    assert Journalled(Trim(tape, r, q.now).registry);
  }

  lemma SetPinJournals(tape: Tape, r: Registry, id: Id, pinned: bool)
    requires Journalled(r)
    ensures Journalled(SetPin(tape, r, id, pinned).registry)
  {
    var index := Position(r.runs, id);
    if index < |r.runs| {
      forall other | Has(r.runs, other) ensures Has(SetPin(tape, r, id, pinned).registry.runs, other) {
        UpdatedLookups(r.runs, index, r.runs[index].(pinned := pinned), other, 0);
      }
      OtherCallJournals(r, SetPin(tape, r, id, pinned).registry);
    }
  }

  lemma PinJournals(tape: Tape, r: Registry, id: Id, pinned: bool, intact: bool)
    requires Journalled(r)
    ensures Journalled(PinResult(tape, r, id, pinned, intact).registry)
  {
    PinResults(tape, r, id, pinned, intact);
    RoomJournals(tape, r, 0);
    SetPinJournals(tape, if pinned then r else MakeRoom(tape, r, 0).registry, id, pinned);
  }

  /** Calls on one record save the journal as it is in memory. */
  lemma RecordCallSaves(tape: Tape, r: Registry, call: Call)
    requires RecordCall(call)
    ensures var s := CallResult(tape, r, call).registry;
            && s.retired == r.retired && s.disk.files == r.disk.files
            && (s.disk.ledger.retired == r.retired || s.disk.ledger.retired == r.disk.ledger.retired)
  {
    var index := Position(r.runs, call.id);
    if index < |r.runs| {
      PersistResults(tape, WithRun(r, index, NextRecord(r.runs[index], call)));
      PersistJournal(tape, WithRun(r, index, NextRecord(r.runs[index], call)));
    }
  }

  lemma RecordCallJournals(tape: Tape, r: Registry, call: Call)
    requires RecordCall(call) && Journalled(r)
    ensures Journalled(CallResult(tape, r, call).registry)
  {
    RecordCallChanges(tape, r, call);
    RecordCallSaves(tape, r, call);
    var s := CallResult(tape, r, call).registry;
    var index := Position(r.runs, call.id);
    forall id | Has(r.runs, id) ensures Has(s.runs, id) {
      if index < |r.runs| {
        UpdatedLookups(r.runs, index, NextRecord(r.runs[index], call), id, 0);
      }
    }
    OtherCallJournals(r, s);
  }

  lemma CommitJournals(tape: Tape, r: Registry, ticket: Pending, prepared: bool)
    requires Journalled(r) && !HasRetired(r.retired, ticket.id)
    ensures Journalled(BeginCommit(tape, r, ticket, prepared).registry)
  {
    var s := BeginCommit(tape, r, ticket, prepared).registry;
    forall id | Has(r.runs, id) ensures Has(s.runs, id) {
      AppendedLookups(r.runs, NewRun(ticket), id, 0);
    }
    OtherCallJournals(r, s);
  }

  lemma TicketIsNotRetired(r: Registry, ticket: Pending)
    requires PendingApart(r) && ticket in r.pending
    ensures !HasRetired(r.retired, ticket.id)
  {
    var k :| 0 <= k < |r.pending| && r.pending[k] == ticket;
  }

  lemma CapturedFiles(r: Registry, id: Id, e: Ending)
    requires id in r.active
    ensures forall f :: f in Capture(r, id, e).disk.files && f !in r.disk.files ==> f.id == id
  {
  }

  lemma FinishJournals(tape: Tape, r: Registry, id: Id, e: Ending)
    requires Journalled(r) && !HasRetired(r.retired, id)
    ensures Journalled(FinishObserved(tape, r, id, e).registry)
  {
    if id in r.active {
      var s := FinishObserved(tape, r, id, e).registry;
      FinishShape(tape, r, id, e);
      forall other | Has(r.runs, other) ensures Has(s.runs, other) {
        if Has(r.runs, id) {
          var index := Position(r.runs, id);
          UpdatedLookups(r.runs, index, s.runs[index], other, 0);
        }
      }
      CapturedFiles(r, id, e);
      OtherCallJournals(r, s);
    }
  }

  lemma OwnedIsNotRetired(r: Registry, id: Id)
    requires Holding(r) && DistinctRetired(r.runs, r.retired) && id in r.active
    ensures !HasRetired(r.retired, id)
  {
    assert r.runs[Position(r.runs, id)].id == id;
  }

  lemma CallJournals(tape: Tape, r: Registry, call: Call)
    requires Inv(r) && Journalled(r) && Enabled(tape, Up(r), call) && OfRegistry(call)
    ensures Journalled(CallResult(tape, r, call).registry)
  {
    match call
    case Reserve(q) => ReserveJournals(tape, r, q);
    case Abandon(_) =>
    case Commit(ticket, prepared) => TicketIsNotRetired(r, ticket); CommitJournals(tape, r, ticket, prepared);
    case Finish(id, e) => if id in r.active { OwnedIsNotRetired(r, id); FinishJournals(tape, r, id, e); }
    case Pin(id, pinned, intact) => PinJournals(tape, r, id, pinned, intact);
    case Probe(_) =>
    case _ => RecordCallJournals(tape, r, call);
  }

  lemma OpenJournals(tape: Tape, disk: Disk, clock: nat, now: nat)
    ensures Journalled(Open(tape, disk, clock, now).registry)
  {
    var saved := Persist(tape, Opened(disk, clock)).registry;
    CleanupKeepsJournals(tape, saved);
    ExpireJournals(tape, CleanupRetired(tape, saved).registry, now);
  }

  lemma {:induction false} HistoryJournals(tape: Tape, w: World, calls: seq<Call>)
    requires Good(w) && (w.Up? ==> Journalled(w.registry)) && AllEnabled(tape, w, calls)
    ensures History(tape, w, calls).Up? ==> Journalled(History(tape, w, calls).registry)
    decreases |calls|
  {
    if calls != [] {
      DoKeeps(tape, w, calls[0]);
      match calls[0] {
        case Start(now) => OpenJournals(tape, w.disk, w.clock, now);
        case Crash =>
        case OtherHost(_) =>
        case _ => CallJournals(tape, w.registry, calls[0]);
      }
      HistoryJournals(tape, Do(tape, w, calls[0]), calls[1..]);
    }
  }

  lemma ForgottenAgrees(r: Registry)
    requires ForgottenOnDisk(r)
    ensures JournalsAgree(r)
  {
    forall f
      ensures f in Leftover(r.disk.files, r.disk.ledger.retired) <==> f in Leftover(r.disk.files, r.retired)
    {
      assert RetiredFiles(r.retired) == (set g | g in FilesOf(r.retired[0])) + RetiredFiles(r.retired[1..]);
    }
  }

  lemma SlippedDisagrees(r: Registry)
    requires SlippedRetirement(r) && DistinctRetired(r.runs, r.retired)
    requires LogFile(r.disk.ledger.retired[|r.retired|].id) in r.disk.files
    ensures !JournalsAgree(r)
  {
    var n, l := |r.retired|, r.disk.ledger.retired;
    assert l == r.retired + [l[n]];
    assert r.runs[Position(r.runs, l[n].id)].id == l[n].id;
    NotJournaled(r.retired, l[n].id);
    LastJournaled(r.retired, l[n]);
    assert LogFile(l[n].id) in Leftover(r.disk.files, r.retired);
  }

  /**
   After any history the journals agree, so that a crash inside a cleanup is harmless, unless
   the disk has retired one more run, which memory still holds because its retirement reported
   failure. Then they disagree as long as the run's log is stored.
   */
  lemma EveryHistoryJournals(tape: Tape, calls: seq<Call>)
    requires AllEnabled(tape, Down(EMPTY_DISK, 0), calls)
    requires History(tape, Down(EMPTY_DISK, 0), calls).Up?
    ensures var r := History(tape, Down(EMPTY_DISK, 0), calls).registry;
            && (JournalsAgree(r) || SlippedRetirement(r))
            && (SlippedRetirement(r) && LogFile(r.disk.ledger.retired[|r.retired|].id) in r.disk.files ==> !JournalsAgree(r))
  {
    HistoryKeeps(tape, Down(EMPTY_DISK, 0), calls);
    HistoryJournals(tape, Down(EMPTY_DISK, 0), calls);
    JournalledMeans(History(tape, Down(EMPTY_DISK, 0), calls).registry);
  }

  lemma JournalledMeans(r: Registry)
    requires Journalled(r) && DistinctRetired(r.runs, r.retired)
    ensures JournalsAgree(r) || SlippedRetirement(r)
    ensures SlippedRetirement(r) && LogFile(r.disk.ledger.retired[|r.retired|].id) in r.disk.files ==> !JournalsAgree(r)
  {
    if ForgottenOnDisk(r) {
      ForgottenAgrees(r);
    }
    if SlippedRetirement(r) && LogFile(r.disk.ledger.retired[|r.retired|].id) in r.disk.files {
      SlippedDisagrees(r);
    }
  }
}
