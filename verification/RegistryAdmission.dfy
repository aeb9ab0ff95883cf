/** Which starts are granted, which records expiry takes, and what a repeated start finds (run.rs). */
module RegistryAdmission {
  import opened Faults
  import opened RunLedger
  import opened RegistrySpec
  import opened RegistryInvariant
  import opened RegistryRetention
  import opened RegistryRuns
  import opened RegistryHistory
  import opened RegistryCleanup
  import opened RegistryOutcomes

  // ---------------------------------------------------------------- records that keep their place

  /** An unpinned record that no rotation may take. */
  predicate Fixed(r: Registry, run: Run) {
    !run.pinned && (run.state.IsLive() || !run.cleanup || (run.id in r.active && r.active[run.id].finishing))
  }

  function FixedIds(r: Registry): set<Id> {
    set i | 0 <= i < |r.runs| && Fixed(r, r.runs[i]) :: r.runs[i].id
  }

  function UnpinnedIds(runs: seq<Run>): set<Id> {
    set i | 0 <= i < |runs| && !runs[i].pinned :: runs[i].id
  }

  lemma UnpinnedIdsSnoc(front: seq<Run>, last: Run)
    ensures UnpinnedIds(front + [last]) == UnpinnedIds(front) + if last.pinned then {} else {last.id}
  {
    var runs := front + [last];
    assert runs[|front|] == last && forall i :: 0 <= i < |front| ==> runs[i] == front[i];
  }

  lemma {:induction false} UnpinnedIdsCount(runs: seq<Run>)
    requires DistinctRuns(runs)
    ensures |UnpinnedIds(runs)| == Unpinned(runs)
  {
    if runs != [] {
      var front, last := runs[..|runs| - 1], runs[|runs| - 1];
      UnpinnedIdsCount(front);
      assert front + [last] == runs;
      UnpinnedIdsSnoc(front, last);
      assert last.id !in UnpinnedIds(front);
    }
  }

  lemma FixedAreUnpinned(r: Registry)
    requires DistinctRuns(r.runs)
    ensures |FixedIds(r)| <= Unpinned(r.runs)
    ensures (forall i :: 0 <= i < |r.runs| ==> !CanRotate(r, r.runs[i])) ==> |FixedIds(r)| == Unpinned(r.runs)
  {
    UnpinnedIdsCount(r.runs);
    Fewer(FixedIds(r), UnpinnedIds(r.runs));
    if forall i :: 0 <= i < |r.runs| ==> !CanRotate(r, r.runs[i]) {
      assert FixedIds(r) == UnpinnedIds(r.runs);
    }
  }

  lemma Fewer(a: set<Id>, b: set<Id>)
    requires a <= b
    ensures |a| <= |b|
  {
    assert b == a + (b - a);
  }

  lemma TrimmedFixes(r: Registry, s: Registry)
    requires Trimmed(r, s)
    ensures FixedIds(s) == FixedIds(r)
  {
    forall i | 0 <= i < |r.runs| && Fixed(r, r.runs[i]) ensures r.runs[i].id in FixedIds(s) {
      assert r.runs[i] in r.runs && !CanRotate(r, r.runs[i]);
      var k :| 0 <= k < |s.runs| && s.runs[k] == r.runs[i];
      assert s.runs[k] in s.runs;
      assert Fixed(s, s.runs[k]);
    }
    forall k | 0 <= k < |s.runs| && Fixed(s, s.runs[k]) ensures s.runs[k].id in FixedIds(r) {
      assert s.runs[k] in r.runs;
      var i :| 0 <= i < |r.runs| && r.runs[i] == s.runs[k];
      assert Fixed(r, r.runs[i]);
    }
  }

  // ---------------------------------------------------------------- rotation on a disk without faults

  lemma {:induction false} CleanupClock(tape: Tape, r: Registry)
    ensures CleanupRetired(tape, r).registry.clock >= r.clock
    decreases |r.retired|
  {
    if r.retired != [] {
      DeleteAllKeepsMemory(tape, r, FilesOf(r.retired[0]));
      if ForgetFirst(tape, r).ok {
        CleanupClock(tape, ForgetFirst(tape, r).registry);
      }
    }
  }

  /** What each retention call finds and leaves on a disk that takes every step. */
  ghost predicate Undisturbed(tape: Tape, r: Registry) {
    Inv(r) && r.retired == [] && QuietFrom(tape, r.clock)
  }

  lemma QuietCleanup(tape: Tape, r: Registry)
    requires Inv(r) && QuietFrom(tape, r.clock)
    ensures var s := CleanupRetired(tape, r); s.ok && Undisturbed(tape, s.registry)
  {
    QuietCleanupFinishes(tape, r);
    CleanupKeeps(tape, r);
    CleanupClock(tape, r);
  }

  lemma QuietRetire(tape: Tape, r: Registry, index: nat)
    requires Undisturbed(tape, r) && index < |r.runs| && CanRotate(r, r.runs[index])
    ensures var s := Retire(tape, r, index); s.ok && s.registry.clock >= r.clock
  {
    assert GoodLedger(Ledger(r.runs, r.retired));
    WithoutIsGood(r.runs, r.retired, index);
    assert ValidLedger(Ledger(Without(r.runs, index), r.retired + [RetiredOf(r.runs[index])]));
    assert tape(r.clock) == Done;
  }

  lemma QuietRemove(tape: Tape, r: Registry, index: nat)
    requires Undisturbed(tape, r) && index < |r.runs| && CanRotate(r, r.runs[index])
    ensures var s := RemoveHistory(tape, r, index); s.ok && Undisturbed(tape, s.registry) && Trimmed(r, s.registry)
  {
    QuietRetire(tape, r, index);
    RetireKeeps(tape, r, index);
    QuietCleanup(tape, Retire(tape, r, index).registry);
    RemoveHistoryTrims(tape, r, index);
  }

  lemma {:induction false} QuietExpiry(tape: Tape, r: Registry, now: nat)
    requires Undisturbed(tape, r)
    ensures var s := ExpireHistory(tape, r, now); s.ok && Undisturbed(tape, s.registry)
    decreases |r.runs|
  {
    var index := FirstExpired(r, now, 0);
    if index < |r.runs| {
      QuietRemove(tape, r, index);
      QuietExpiry(tape, RemoveHistory(tape, r, index).registry, now);
    }
  }

  lemma QuietRemoveFixes(tape: Tape, r: Registry, index: nat)
    requires Undisturbed(tape, r) && index < |r.runs| && CanRotate(r, r.runs[index])
    ensures var s := RemoveHistory(tape, r, index);
            s.ok && Undisturbed(tape, s.registry) && FixedIds(s.registry) == FixedIds(r)
  {
    QuietRemove(tape, r, index);
    TrimmedFixes(r, RemoveHistory(tape, r, index).registry);
  }

  lemma FixedFitTheirRecords(tape: Tape, r: Registry)
    requires Undisturbed(tape, r)
    ensures |FixedIds(r)| <= Unpinned(r.runs)
    ensures FirstRotatable(r, 0) == |r.runs| ==> |FixedIds(r)| == Unpinned(r.runs)
  {
    assert DistinctRuns(r.Memory().runs);
    FixedAreUnpinned(r);
  }

  /** Rotation finds room exactly when the records it may not take leave some. */
  lemma {:induction false} QuietRoomIff(tape: Tape, r: Registry, taken: nat)
    requires Undisturbed(tape, r)
    ensures MakeRoom(tape, r, taken).ok <==> |FixedIds(r)| + taken < 64
    decreases |r.runs|
  {
    FixedFitTheirRecords(tape, r);
    var index := FirstRotatable(r, 0);
    if Unpinned(r.runs) + taken >= RUN_RECORD_LIMIT && index < |r.runs| {
      QuietRemoveFixes(tape, r, index);
      QuietRoomIff(tape, RemoveHistory(tape, r, index).registry, taken);
    }
  }

  lemma QuietTrimIff(tape: Tape, r: Registry, now: nat)
    requires Inv(r) && QuietFrom(tape, r.clock)
    ensures Trim(tape, r, now).ok <==> |FixedIds(r)| + |r.pending| < 64
  {
    QuietCleanup(tape, r);
    var cleaned := CleanupRetired(tape, r).registry;
    SameRecords(r, cleaned);
    QuietExpiry(tape, cleaned, now);
    ExpireHistoryKeeps(tape, cleaned, now);
    var expired := ExpireHistory(tape, cleaned, now).registry;
    TrimmedFixes(cleaned, expired);
    QuietRoomIff(tape, expired, |r.pending|);
  }

  lemma SameRecords(r: Registry, s: Registry)
    requires s.runs == r.runs && s.active == r.active
    ensures FixedIds(s) == FixedIds(r)
  {
    assert forall run :: Fixed(s, run) == Fixed(r, run);
  }

  // ---------------------------------------------------------------- which starts are granted

  /** A run whose outcome and cleanup are unknown. */
  predicate Unresolved(run: Run) {
    run.state == Unknown && !run.cleanup
  }

  /** The operation is new, and the definition read under the lock is the reviewed one. */
  predicate NewAndReviewed(r: Registry, q: Request) {
    && (forall run :: run in r.runs ==> run.operation != q.operation)
    && (forall ticket :: ticket in r.pending ==> ticket.operation != q.operation)
    && q.lockGranted && q.currentDigest == q.digest
  }

  /** Nothing of the task runs or is being prepared, unless runs beside each other were asked for. */
  predicate MayRunBeside(r: Registry, q: Request) {
    && (q.parallel || forall run :: run in r.runs && run.task == q.task ==> !run.state.IsLive())
    && (q.parallel || forall ticket :: ticket in r.pending ==> ticket.task != q.task)
    && (forall run :: run in r.runs && run.task == q.task ==> !Unresolved(run))
  }

  /** No place of one contains a place of the other. */
  predicate Apart(ps: seq<Path>, qs: seq<Path>) {
    forall p, q :: p in ps && q in qs ==> !(p <= q) && !(q <= p)
  }

  predicate OutputsApart(r: Registry, q: Request) {
    && (forall run :: run in r.runs && (run.state.IsLive() || Unresolved(run)) ==> Apart(q.outputs, run.outputs))
    && (forall ticket :: ticket in r.pending ==> Apart(q.outputs, ticket.outputs))
  }

  /** The source lease was granted and no unresolved run restricts the same source. */
  predicate SourceIsFree(r: Registry, q: Request) {
    q.identity.Some? ==> q.leaseGranted && forall run :: run in r.runs && Unresolved(run) ==> run.identity != q.identity
  }

  lemma ConflictIsNotApart(ps: seq<Path>, qs: seq<Path>)
    ensures Conflict(ps, qs) <==> !Apart(ps, qs)
  {
    if Conflict(ps, qs) {
      var i, j :| 0 <= i < |ps| && 0 <= j < |qs| && Nested(ps[i], qs[j]);
      assert ps[i] in ps && qs[j] in qs;
    }
    if !Apart(ps, qs) {
      var p, q :| p in ps && q in qs && (p <= q || q <= p);
      var i :| 0 <= i < |ps| && ps[i] == p;
      var j :| 0 <= j < |qs| && qs[j] == q;
      assert Nested(ps[i], qs[j]);
    }
  }

  lemma OutputsFreeIff(r: Registry, q: Request)
    ensures OutputsFree(r, q.outputs) <==> OutputsApart(r, q)
  {
    forall run: Run ensures Conflict(q.outputs, run.outputs) <==> !Apart(q.outputs, run.outputs) {
      ConflictIsNotApart(q.outputs, run.outputs);
    }
    forall ticket: Pending ensures Conflict(q.outputs, ticket.outputs) <==> !Apart(q.outputs, ticket.outputs) {
      ConflictIsNotApart(q.outputs, ticket.outputs);
    }
  }

  lemma LookupsIff(r: Registry, q: Request)
    ensures OperationUsed(r.runs, q.operation) <==> exists run :: run in r.runs && run.operation == q.operation
    ensures OperationPending(r.pending, q.operation) <==> exists t :: t in r.pending && t.operation == q.operation
    ensures LiveRun(r.runs, q.task).Some? <==> exists run :: run in r.runs && run.task == q.task && run.state.IsLive()
    ensures UnknownCleanup(r.runs, q.task) <==> exists run :: run in r.runs && run.task == q.task && Unresolved(run)
  {
  }

  /** The checks before retention let a start through exactly under these three conditions. */
  lemma AdmittedIff(r: Registry, q: Request)
    ensures Admission(r, q).None? <==> NewAndReviewed(r, q) && MayRunBeside(r, q) && OutputsApart(r, q)
  {
    LookupsIff(r, q);
    OutputsFreeIff(r, q);
  }

  /** Rotation leaves every unresolved run, so the source stays as restricted as before. */
  lemma RestrictionStays(r: Registry, s: Registry, identity: Option<Path>)
    requires Trimmed(r, s)
    ensures SourceRestricted(s.runs, identity) <==>
      identity.Some? && exists run :: run in r.runs && Unresolved(run) && run.identity == identity
  {
    if identity.Some? && exists run :: run in r.runs && Unresolved(run) && run.identity == identity {
      var run :| run in r.runs && Unresolved(run) && run.identity == identity;
      assert !CanRotate(r, run);
      var k :| 0 <= k < |s.runs| && s.runs[k] == run;
      assert SourceRestricted(s.runs, identity);
    }
    if SourceRestricted(s.runs, identity) {
      var i :| 0 <= i < |s.runs| && s.runs[i].state == Unknown && !s.runs[i].cleanup && s.runs[i].identity == identity;
      assert s.runs[i] in s.runs;
    }
  }

  /**
   On a disk without faults a start is granted exactly when its operation is new, the definition read under
   the lock is the reviewed one, its task, outputs and source are free, and 64 records leave room for it.
   */
  lemma StartGrantedIff(tape: Tape, r: Registry, q: Request)
    requires Inv(r) && QuietFrom(tape, r.clock)
    ensures BeginReserve(tape, r, q).reply.Fresh? <==>
      (&& NewAndReviewed(r, q) && MayRunBeside(r, q) && OutputsApart(r, q) && SourceIsFree(r, q)
       && |FixedIds(r)| + |r.pending| < 64)
  {
    AdmittedIff(r, q);
    AdmissionNeverFresh(r, q);
    QuietTrimIff(tape, r, q.now);
    TrimKeeps(tape, r, q.now);
    RestrictionStays(r, Trim(tape, r, q.now).registry, q.identity);
    ReserveReply(tape, r, q);
  }

  lemma AdmissionNeverFresh(r: Registry, q: Request)
    ensures Admission(r, q).Some? ==> !Admission(r, q).value.Fresh?
  {
  }

  lemma ReserveReply(tape: Tape, r: Registry, q: Request)
    ensures var trimmed := Trim(tape, r, q.now);
            BeginReserve(tape, r, q).reply ==
              if Admission(r, q).Some? then Admission(r, q).value
              else if trimmed.ok && !SourceRestricted(trimmed.registry.runs, q.identity) && (q.identity.None? || q.leaseGranted)
              then Fresh(Pending(q.id, q.operation, q.task, q.digest, q.identity, q.outputs))
              else Refused
  {
  }

  /** Whatever the disk does, a granted start carries the request and is reserved behind the others. */
  lemma GrantedStartIsReserved(tape: Tape, r: Registry, q: Request)
    requires Inv(r) && BeginReserve(tape, r, q).reply.Fresh?
    ensures var s := BeginReserve(tape, r, q);
            var t := s.reply.ticket;
            && t.id == q.id && t.operation == q.operation && t.task == q.task && t.digest == q.digest
            && t.identity == q.identity && t.outputs == q.outputs
            && s.registry.pending == r.pending + [t] && q.currentDigest == t.digest
  {
    AdmittedIff(r, q);
    TrimKeeps(tape, r, q.now);
    AdmissionNeverFresh(r, q);
  }

  // ---------------------------------------------------------------- repeated starts

  /** A repeated operation finds its own run if it asks for the same execution, and is refused otherwise. */
  lemma RepeatedOperation(tape: Tape, r: Registry, q: Request, index: nat)
    requires Inv(r) && index < |r.runs| && r.runs[index].operation == q.operation
    ensures BeginReserve(tape, r, q) == Reservation(r,
      if r.runs[index].task == q.task && r.runs[index].digest == q.digest then Existing(r.runs[index].id) else Refused)
  {
    assert DistinctRuns(r.Memory().runs);
    assert OperationUsed(r.runs, q.operation);
    assert FirstOperation(r.runs, q.operation) == index;
  }

  /**
   A new operation on a task that is running finds the latest of its live runs, unless runs beside each other were
   asked for; and nothing else is ever called existing.
   */
  lemma RunningTaskIsFound(tape: Tape, r: Registry, q: Request, id: Id)
    requires Inv(r) && NewAndReviewed(r, q)
    ensures BeginReserve(tape, r, q).reply == Existing(id) <==>
      !q.parallel && exists i :: LatestLive(r.runs, q.task, i) && r.runs[i].id == id
  {
    LookupsIff(r, q);
    AdmissionNeverFresh(r, q);
    LatestIsFound(r.runs, q.task);
    OneIsLatest(r.runs, q.task);
    ReserveReply(tape, r, q);
  }

  predicate LatestLive(runs: seq<Run>, task: Task, i: int) {
    && 0 <= i < |runs| && runs[i].task == task && runs[i].state.IsLive()
    && forall k :: i < k < |runs| ==> runs[k].task != task || !runs[k].state.IsLive()
  }

  lemma OneIsLatest(runs: seq<Run>, task: Task)
    ensures forall i, j :: LatestLive(runs, task, i) && LatestLive(runs, task, j) ==> i == j
  {
  }

  lemma LatestBefore(front: seq<Run>, last: Run, task: Task, i: int)
    requires last.task != task || !last.state.IsLive()
    ensures LatestLive(front + [last], task, i) <==> LatestLive(front, task, i)
  {
    var runs := front + [last];
    assert runs[|front|] == last && forall k :: 0 <= k < |front| ==> runs[k] == front[k];
  }

  /** The search goes back from the last record. */
  lemma {:induction false} LatestIsFound(runs: seq<Run>, task: Task)
    ensures LiveRun(runs, task).Some? ==> exists i :: LatestLive(runs, task, i) && runs[i].id == LiveRun(runs, task).value
  {
    if runs != [] {
      var front, last := runs[..|runs| - 1], runs[|runs| - 1];
      if last.task == task && last.state.IsLive() {
        assert LatestLive(runs, task, |runs| - 1);
      } else if LiveRun(runs, task).Some? {
        LatestIsFound(front, task);
        var i :| LatestLive(front, task, i) && front[i].id == LiveRun(front, task).value;
        assert front + [last] == runs;
        LatestBefore(front, last, task, i);
        assert LatestLive(runs, task, i) && runs[i].id == front[i].id;
      }
    }
  }

  /** A start that was committed is found by each retry of its request: it never runs twice. */
  lemma CommittedStartIsFound(tape: Tape, r: Registry, q: Request, retry: Tape)
    requires Inv(r) && FreshId(Trim(tape, r, q.now).registry, q.id) && BeginReserve(tape, r, q).reply.Fresh?
    requires var s := BeginReserve(tape, r, q); BeginCommit(tape, s.registry, s.reply.ticket, true).ok
    ensures var s := BeginReserve(tape, r, q);
            var started := BeginCommit(tape, s.registry, s.reply.ticket, true).registry;
            BeginReserve(retry, started, q) == Reservation(started, Existing(q.id))
  {
    var s := BeginReserve(tape, r, q);
    GrantedStartIsReserved(tape, r, q);
    BeginReserveKeeps(tape, r, q);
    CommittedTicketIsFound(tape, s.registry, s.reply.ticket, q, retry);
  }

  lemma CommittedTicketIsFound(tape: Tape, r: Registry, t: Pending, q: Request, retry: Tape)
    requires Inv(r) && t in r.pending && BeginCommit(tape, r, t, true).ok
    requires t.id == q.id && t.operation == q.operation && t.task == q.task && t.digest == q.digest
    ensures var started := BeginCommit(tape, r, t, true).registry;
            BeginReserve(retry, started, q) == Reservation(started, Existing(q.id))
  {
    BeginCommitKeeps(tape, r, t, true);
    CommittedRecord(tape, r, t);
    var started := BeginCommit(tape, r, t, true).registry;
    RepeatedOperation(retry, started, q, |started.runs| - 1);
  }

  /** A committed start is the last record, in memory and on disk, and holds its lock and lease. */
  lemma CommittedRecord(tape: Tape, r: Registry, t: Pending)
    requires BeginCommit(tape, r, t, true).ok
    ensures var s := BeginCommit(tape, r, t, true).registry;
            && s.runs == r.runs + [s.runs[|s.runs| - 1]] && s.disk.ledger.runs == s.runs
            && var run := s.runs[|s.runs| - 1];
               && run.id == t.id && run.operation == t.operation && run.task == t.task && run.digest == t.digest
               && run.identity == t.identity && run.outputs == t.outputs
               && run.state == Preparing && !run.cancelRequested && !run.cleanup && !run.pinned && run.finishedAt == None
               && t.id in s.active && s.active[t.id].runUse && s.active[t.id].lease == t.identity.Some?
  {
  }

  // ---------------------------------------------------------------- thirty days

  /** Finished more than thirty days before `now`, and nothing keeps the record. */
  predicate Overdue(r: Registry, run: Run, now: nat) {
    && !run.pinned && !run.state.IsLive() && run.cleanup
    && !(run.id in r.active && r.active[run.id].finishing)
    && run.finishedAt.Some? && now - run.finishedAt.value > 2_592_000_000
  }

  lemma RemovedRecord(tape: Tape, r: Registry, index: nat)
    requires index < |r.runs| && RemoveHistory(tape, r, index).ok
    ensures var s := RemoveHistory(tape, r, index).registry;
            s.runs == Without(r.runs, index) && s.active == r.active - {r.runs[index].id}
  {
  }

  lemma OthersRemain(r: Registry, s: Registry, index: nat, run: Run, now: nat)
    requires index < |r.runs| && DistinctRuns(r.runs)
    requires s.runs == Without(r.runs, index) && s.active == r.active - {r.runs[index].id}
    requires Overdue(r, r.runs[index], now)
    ensures run in s.runs && !Overdue(s, run, now) <==> run in r.runs && !Overdue(r, run, now)
  {
    if run in r.runs && run != r.runs[index] {
      var k :| 0 <= k < |r.runs| && r.runs[k] == run;
      WithoutHas(r.runs, index, k);
      assert run.id != r.runs[index].id;
    }
    if run in s.runs {
      var k :| 0 <= k < |s.runs| && s.runs[k] == run;
      WithoutAt(r.runs, index);
      WithoutDistinct(r.runs, index);
      assert run.id != r.runs[index].id;
    }
  }

  /** Expiry takes exactly the overdue records, each and no other. */
  lemma {:induction false} ExpiryTakesOverdue(tape: Tape, r: Registry, now: nat, run: Run)
    requires DistinctRuns(r.runs) && ExpireHistory(tape, r, now).ok
    ensures run in ExpireHistory(tape, r, now).registry.runs <==> run in r.runs && !Overdue(r, run, now)
    decreases |r.runs|
  {
    var index := FirstExpired(r, now, 0);
    if index < |r.runs| {
      RemovedRecord(tape, r, index);
      var s := RemoveHistory(tape, r, index).registry;
      WithoutDistinct(r.runs, index);
      OthersRemain(r, s, index, run, now);
      ExpiryTakesOverdue(tape, s, now, run);
    }
  }

  /** A host opens with every recovered record except the unpinned settled ones of more than thirty days. */
  lemma OpeningTakesOverdue(tape: Tape, disk: Disk, clock: nat, now: nat, run: Run)
    requires DiskInv(disk) && Open(tape, disk, clock, now).ok
    ensures run in Open(tape, disk, clock, now).registry.runs <==>
      (&& (exists found :: found in disk.ledger.runs && run == if found.state.IsLive() then found.(state := Unknown) else found)
       && !(!run.pinned && !run.state.IsLive() && run.cleanup
            && run.finishedAt.Some? && now - run.finishedAt.value > 2_592_000_000))
  {
    var r := Opened(disk, clock);
    OpenedKeeps(disk, clock);
    OpenedRecords(disk, clock, run);
    PersistMemory(tape, r);
    var cleaned := CleanupRetired(tape, Persist(tape, r).registry).registry;
    assert cleaned.runs == r.runs && cleaned.active == map[];
    assert DistinctRuns(r.Memory().runs);
    ExpiryTakesOverdue(tape, cleaned, now, run);
  }

  lemma OpenedRecords(disk: Disk, clock: nat, run: Run)
    ensures run in Opened(disk, clock).runs <==>
      exists found :: found in disk.ledger.runs && run == if found.state.IsLive() then found.(state := Unknown) else found
  {
    var r := Opened(disk, clock);
    if run in r.runs {
      var k :| 0 <= k < |r.runs| && r.runs[k] == run;
      assert disk.ledger.runs[k] in disk.ledger.runs;
    }
    if exists found :: found in disk.ledger.runs && run == if found.state.IsLive() then found.(state := Unknown) else found {
      var found :| found in disk.ledger.runs && run == if found.state.IsLive() then found.(state := Unknown) else found;
      var k :| 0 <= k < |disk.ledger.runs| && disk.ledger.runs[k] == found;
      assert r.runs[k] == run;
    }
  }
}
