/** What each call of the run registry does to memory and disk (crates/idk/src/run.rs). */
module RegistrySpec {
  import opened Faults
  import opened RunLedger

  datatype File = ResultFile(id: Id) | EventsFile(id: Id) | LogFile(id: Id) | RunDirectory(id: Id)

  /** What survives a crash. `expired` remembers every file that retention has deleted. */
  datatype Disk = Disk(ledger: Ledger, files: set<File>, expired: set<File>)

  /** An execution owned by this host, with its source lease and its shared run-use lock. */
  datatype Active = Active(lease: bool, runUse: bool, finishing: bool, captured: Option<Captured>)

  datatype Captured = Captured(result: bool, events: bool)

  /** A reserved start; the caller holds the ticket, with the lease and the lock in it. */
  datatype Pending = Pending(
    id: Id, operation: Id, task: Task, digest: nat, identity: Option<Path>, outputs: seq<Path>)

  datatype Registry = Registry(
    runs: seq<Run>,
    retired: seq<Retired>,
    active: map<Id, Active>,
    pending: seq<Pending>,
    disk: Disk,
    clock: nat)
  {
    function Memory(): Ledger {
      Ledger(runs, retired)
    }
  }

  datatype Step = Step(registry: Registry, ok: bool)

  // ---------------------------------------------------------------- disk steps

  function Persist(tape: Tape, r: Registry): Step {
    if !ValidLedger(r.Memory()) then Step(r, false)
    else
      var outcome := tape(r.clock);
      var ledger := if outcome == FailedBefore then r.disk.ledger else r.Memory();
      Step(r.(disk := r.disk.(ledger := ledger), clock := r.clock + 1), outcome == Done)
  }

  /** Retention deletes one file; a file that is already gone needs no step. */
  function Delete(tape: Tape, r: Registry, file: File): Step {
    if file !in r.disk.files then Step(r, true)
    else
      var outcome := tape(r.clock);
      var disk :=
        if outcome == FailedBefore then r.disk
        else r.disk.(files := r.disk.files - {file}, expired := r.disk.expired + {file});
      Step(r.(disk := disk, clock := r.clock + 1), outcome == Done)
  }

  /** The files that a retired record names, in the order of their deletion. */
  function FilesOf(gone: Retired): seq<File> {
    (if gone.result then [ResultFile(gone.id)] else [])
    + (if gone.events then [EventsFile(gone.id)] else [])
    + [LogFile(gone.id), RunDirectory(gone.id)]
  }

  function DeleteAll(tape: Tape, r: Registry, files: seq<File>): Step
    decreases |files|
  {
    if files == [] then Step(r, true)
    else
      var first := Delete(tape, r, files[0]);
      if !first.ok then first else DeleteAll(tape, first.registry, files[1..])
  }

  // ---------------------------------------------------------------- retention

  predicate CanRotate(r: Registry, run: Run) {
    && !run.pinned
    && !run.state.IsLive()
    && run.cleanup
    && !(run.id in r.active && r.active[run.id].finishing)
  }

  /** Deletes the files of one retired record and then forgets it. */
  function ForgetFirst(tape: Tape, r: Registry): (s: Step)
    requires r.retired != []
    ensures s.registry.runs == r.runs && s.registry.active == r.active && s.registry.pending == r.pending
    ensures s.registry.retired == if s.ok then r.retired[1..] else r.retired
  {
    var deleted := DeleteAll(tape, r, FilesOf(r.retired[0]));
    DeleteAllKeepsMemory(tape, r, FilesOf(r.retired[0]));
    if !deleted.ok then deleted
    else
      var saved := Persist(tape, deleted.registry.(retired := r.retired[1..]));
      if saved.ok then saved else Step(saved.registry.(retired := r.retired), false)
  }

  lemma DeleteAllKeepsMemory(tape: Tape, r: Registry, files: seq<File>)
    ensures var s := DeleteAll(tape, r, files).registry;
            && s.runs == r.runs && s.retired == r.retired && s.active == r.active && s.pending == r.pending
            && s.disk.ledger == r.disk.ledger && s.clock >= r.clock
    decreases |files|
  {
  }

  function CleanupRetired(tape: Tape, r: Registry): (s: Step)
    ensures s.registry.runs == r.runs && s.registry.active == r.active && s.registry.pending == r.pending
    ensures s.ok ==> s.registry.retired == []
    decreases |r.retired|
  {
    if r.retired == [] then Step(r, true)
    else
      var first := ForgetFirst(tape, r);
      if !first.ok then first else CleanupRetired(tape, first.registry)
  }

  function Without(runs: seq<Run>, index: nat): seq<Run>
    requires index < |runs|
  {
    runs[..index] + runs[index + 1..]
  }

  /** Journals the removal of one record; its files go once the journal is durable. */
  function Retire(tape: Tape, r: Registry, index: nat): (s: Step)
    requires index < |r.runs|
    ensures s.ok ==> |s.registry.runs| == |r.runs| - 1
  {
    var run := r.runs[index];
    if !CanRotate(r, run) || |r.retired| >= RUN_RECORD_LIMIT then Step(r, false)
    else
      var moved := r.(
        runs := Without(r.runs, index),
        retired := r.retired + [Retired(run.id, run.result, run.events)]);
      var saved := Persist(tape, moved);
      if !saved.ok then Step(saved.registry.(runs := r.runs, retired := r.retired), false)
      else Step(saved.registry.(active := saved.registry.active - {run.id}), true)
  }

  function RemoveHistory(tape: Tape, r: Registry, index: nat): (s: Step)
    requires index < |r.runs|
    ensures s.ok ==> |s.registry.runs| == |r.runs| - 1
  {
    var retired := Retire(tape, r, index);
    if !retired.ok then retired else CleanupRetired(tape, retired.registry)
  }

  predicate Expired(r: Registry, run: Run, now: nat) {
    && CanRotate(r, run)
    && run.finishedAt.Some?
    && now > run.finishedAt.value + RETENTION_MS
  }

  /** The first record from `from` on that satisfies the choice, or |runs|. */
  function FirstRotatable(r: Registry, from: nat): (i: nat)
    requires from <= |r.runs|
    ensures from <= i <= |r.runs|
    ensures i < |r.runs| ==> CanRotate(r, r.runs[i])
    ensures forall k :: from <= k < i ==> !CanRotate(r, r.runs[k])
    decreases |r.runs| - from
  {
    if from == |r.runs| || CanRotate(r, r.runs[from]) then from else FirstRotatable(r, from + 1)
  }

  function FirstExpired(r: Registry, now: nat, from: nat): (i: nat)
    requires from <= |r.runs|
    ensures from <= i <= |r.runs|
    ensures i < |r.runs| ==> Expired(r, r.runs[i], now)
    ensures forall k :: from <= k < i ==> !Expired(r, r.runs[k], now)
    decreases |r.runs| - from
  {
    if from == |r.runs| || Expired(r, r.runs[from], now) then from else FirstExpired(r, now, from + 1)
  }

  function ExpireHistory(tape: Tape, r: Registry, now: nat): Step
    decreases |r.runs|
  {
    var index := FirstExpired(r, now, 0);
    if index == |r.runs| then Step(r, true)
    else
      var removed := RemoveHistory(tape, r, index);
      if !removed.ok then removed else ExpireHistory(tape, removed.registry, now)
  }

  /** Rotates the oldest finished records out until `taken` more fit beside the unpinned ones. */
  function MakeRoom(tape: Tape, r: Registry, taken: nat): (s: Step)
    ensures s.ok ==> Unpinned(s.registry.runs) + taken < RUN_RECORD_LIMIT
    decreases |r.runs|
  {
    if Unpinned(r.runs) + taken < RUN_RECORD_LIMIT then Step(r, true)
    else
      var index := FirstRotatable(r, 0);
      if index == |r.runs| then Step(r, false)
      else
        var removed := RemoveHistory(tape, r, index);
        if !removed.ok then removed else MakeRoom(tape, removed.registry, taken)
  }

  // ---------------------------------------------------------------- starting a run

  /**
   A start request with what its caller and the outside world contribute: the digest of
   the definition read under the run-use lock, whether that lock and the source lease
   were granted, and a fresh identity.
   */
  datatype Request = Request(
    task: Task,
    digest: nat,
    operation: Id,
    parallel: bool,
    identity: Option<Path>,
    outputs: seq<Path>,
    lockGranted: bool,
    currentDigest: nat,
    leaseGranted: bool,
    now: nat,
    id: Id)

  datatype Reply = Existing(id: Id) | Fresh(ticket: Pending) | Refused

  datatype Reservation = Reservation(registry: Registry, reply: Reply)

  predicate OperationUsed(runs: seq<Run>, operation: Id) {
    exists i :: 0 <= i < |runs| && runs[i].operation == operation
  }

  predicate OperationPending(pending: seq<Pending>, operation: Id) {
    exists i :: 0 <= i < |pending| && pending[i].operation == operation
  }

  /** The latest live run of the task. */
  function LiveRun(runs: seq<Run>, task: Task): (found: Option<Id>)
    ensures found.Some? ==> exists i :: 0 <= i < |runs| && runs[i].id == found.value && runs[i].task == task && runs[i].state.IsLive()
    ensures found.None? ==> forall i :: 0 <= i < |runs| && runs[i].task == task ==> !runs[i].state.IsLive()
  {
    if runs == [] then None
    else
      var last := runs[|runs| - 1];
      if last.task == task && last.state.IsLive() then Some(last.id) else LiveRun(runs[..|runs| - 1], task)
  }

  predicate UnknownCleanup(runs: seq<Run>, task: Task) {
    exists i :: 0 <= i < |runs| && runs[i].task == task && runs[i].state == Unknown && !runs[i].cleanup
  }

  predicate OutputsFree(r: Registry, outputs: seq<Path>) {
    && (forall i :: 0 <= i < |r.runs| && r.runs[i].Busy() ==> !Conflict(outputs, r.runs[i].outputs))
    && (forall i :: 0 <= i < |r.pending| ==> !Conflict(outputs, r.pending[i].outputs))
  }

  /** Recovered work of unknown outcome keeps its source restricted. */
  predicate SourceRestricted(runs: seq<Run>, identity: Option<Path>) {
    && identity.Some?
    && exists i :: 0 <= i < |runs| && runs[i].state == Unknown && !runs[i].cleanup && runs[i].identity == identity
  }

  /** The checks that only read: an early reply, or nothing when the start may go on. */
  function Admission(r: Registry, q: Request): Option<Reply> {
    if OperationUsed(r.runs, q.operation) then
      var i := FirstOperation(r.runs, q.operation);
      if r.runs[i].task == q.task && r.runs[i].digest == q.digest then Some(Existing(r.runs[i].id)) else Some(Refused)
    else if !q.lockGranted || q.currentDigest != q.digest || OperationPending(r.pending, q.operation) then Some(Refused)
    else if LiveRun(r.runs, q.task).Some? && !q.parallel then Some(Existing(LiveRun(r.runs, q.task).value))
    else if (exists i :: 0 <= i < |r.pending| && r.pending[i].task == q.task) && !q.parallel then Some(Refused)
    else if UnknownCleanup(r.runs, q.task) || !OutputsFree(r, q.outputs) then Some(Refused)
    else None
  }

  function FirstOperation(runs: seq<Run>, operation: Id): (i: nat)
    requires OperationUsed(runs, operation)
    ensures i < |runs| && runs[i].operation == operation
  {
    if runs[0].operation == operation then 0
    else
      assert OperationUsed(runs[1..], operation) by {
        var k :| 0 <= k < |runs| && runs[k].operation == operation;
        assert runs[1..][k - 1].operation == operation;
      }
      1 + FirstOperation(runs[1..], operation)
  }

  /** Cleanup, expiry and rotation before a start takes the capacity of one record. */
  function Trim(tape: Tape, r: Registry, now: nat): (s: Step)
    ensures s.ok ==> Unpinned(s.registry.runs) + |r.pending| < RUN_RECORD_LIMIT
  {
    var cleaned := CleanupRetired(tape, r);
    if !cleaned.ok then cleaned
    else
      var expired := ExpireHistory(tape, cleaned.registry, now);
      if !expired.ok then expired else MakeRoom(tape, expired.registry, |r.pending|)
  }

  function BeginReserve(tape: Tape, r: Registry, q: Request): Reservation {
    var early := Admission(r, q);
    if early.Some? then Reservation(r, early.value)
    else
      var trimmed := Trim(tape, r, q.now);
      if !trimmed.ok || SourceRestricted(trimmed.registry.runs, q.identity) || (q.identity.Some? && !q.leaseGranted) then
        Reservation(trimmed.registry, Refused)
      else
        var ticket := Pending(q.id, q.operation, q.task, q.digest, q.identity, q.outputs);
        Reservation(trimmed.registry.(pending := trimmed.registry.pending + [ticket]), Fresh(ticket))
  }

  /** The pending starts without the given one. */
  function Dropped(pending: seq<Pending>, id: Id): (rest: seq<Pending>)
    ensures |rest| <= |pending|
    ensures forall p :: p in rest <==> p in pending && p.id != id
  {
    if pending == [] then []
    else (if pending[0].id == id then [] else [pending[0]]) + Dropped(pending[1..], id)
  }

  function BeginAbandon(r: Registry, ticket: Pending): Registry {
    r.(pending := Dropped(r.pending, ticket.id))
  }

  function NewRun(ticket: Pending): Run {
    Run(ticket.id, ticket.operation, ticket.task, ticket.digest, ticket.identity, ticket.outputs,
        Preparing, false, false, false, false, None, false, false, 0)
  }

  /** Creates the run's directory and log, appends its record and makes it durable. */
  function BeginCommit(tape: Tape, r: Registry, ticket: Pending, prepared: bool): Step {
    var open := BeginAbandon(r, ticket);
    if !prepared then Step(open, false)
    else
      var resources := {LogFile(ticket.id), RunDirectory(ticket.id)};
      var appended := open.(
        runs := open.runs + [NewRun(ticket)],
        disk := open.disk.(files := open.disk.files + resources));
      var saved := Persist(tape, appended);
      if !saved.ok then
        var disk := saved.registry.disk.(files := saved.registry.disk.files - resources);
        Step(saved.registry.(runs := open.runs, disk := disk), false)
      else
        var owned := Active(ticket.identity.Some?, true, false, None);
        Step(saved.registry.(active := saved.registry.active[ticket.id := owned]), true)
  }

  // ---------------------------------------------------------------- running and finishing

  function WithRun(r: Registry, index: nat, run: Run): Registry
    requires index < |r.runs|
  {
    r.(runs := r.runs[index := run])
  }

  function MarkRunning(tape: Tape, r: Registry, id: Id): Step {
    var index := Position(r.runs, id);
    if index == |r.runs| || !r.runs[index].state.IsLive() then Step(r, false)
    else
      var run := r.runs[index];
      Persist(tape, WithRun(r, index, if run.state == Preparing then run.(state := Running) else run))
  }

  function Cancel(tape: Tape, r: Registry, id: Id, timeout: bool): Step {
    var index := Position(r.runs, id);
    if (id in r.active && r.active[id].finishing) || index == |r.runs| || !r.runs[index].state.IsLive() then Step(r, false)
    else
      var run := r.runs[index];
      var next := run.(state := Cancelling, cancelRequested := true, timeoutRequested := run.timeoutRequested || timeout);
      var saved := Persist(tape, WithRun(r, index, next));
      if saved.ok then saved else Step(saved.registry.(runs := r.runs), false)
  }

  function AcknowledgeUnknownCleanup(tape: Tape, r: Registry, id: Id): Step {
    var index := Position(r.runs, id);
    if id in r.active || index == |r.runs| || r.runs[index].state != Unknown then Step(r, false)
    else
      var saved := Persist(tape, WithRun(r, index, r.runs[index].(cleanup := true)));
      if saved.ok then saved else Step(saved.registry.(runs := r.runs), false)
  }

  function FinishProbe(r: Registry, id: Id): Step {
    if id !in r.active then Step(r, false)
    else Step(r.(active := r.active[id := r.active[id].(finishing := true)]), true)
  }

  datatype Exit = Clean | Unclean

  /** The end of an execution: its exit, the confirmed cleanup, and what could be captured. */
  datatype Ending = Ending(exit: Option<Exit>, cleanup: bool, error: bool, found: Captured, bytes: nat, now: nat)

  function FinalState(run: Run, e: Ending): RunState {
    if !e.cleanup then Unknown
    else if run.cancelRequested then Cancelled
    else if e.exit == Some(Clean) then Succeeded
    else if e.exit.Some? || e.error then Failed
    else Unknown
  }

  function Captures(found: Captured, id: Id): set<File> {
    (if found.result then {ResultFile(id)} else {}) + (if found.events then {EventsFile(id)} else {})
  }

  /** Bodies are captured at most once, and only after the cleanup is confirmed. */
  function Capture(r: Registry, id: Id, e: Ending): Registry
    requires id in r.active
  {
    var a := r.active[id].(finishing := true);
    if e.cleanup && a.captured.None? then
      r.(active := r.active[id := a.(captured := Some(e.found))],
         disk := r.disk.(files := r.disk.files + Captures(e.found, id)))
    else r.(active := r.active[id := a])
  }

  function FinishedRun(run: Run, captured: Option<Captured>, e: Ending): Run {
    run.(state := FinalState(run, e), cleanup := e.cleanup, finishedAt := Some(e.now), retainedBytes := e.bytes,
         result := captured.Some? && captured.value.result, events := captured.Some? && captured.value.events)
  }

  /** The outcome in memory, before it is durable. */
  function Concluded(r: Registry, id: Id, e: Ending): Registry
    requires id in r.active && Has(r.runs, id)
  {
    var captured := Capture(r, id, e);
    var index := Position(r.runs, id);
    WithRun(captured, index, FinishedRun(r.runs[index], captured.active[id].captured, e))
  }

  function Release(r: Registry, id: Id, cleanup: bool): Registry
    requires id in r.active
  {
    var a := r.active[id].(finishing := false);
    r.(active := r.active[id := if cleanup then a.(lease := false, runUse := false) else a])
  }

  function FinishObserved(tape: Tape, r: Registry, id: Id, e: Ending): Step {
    if id !in r.active then Step(r, false)
    else if !Has(r.runs, id) then Step(Capture(r, id, e), false)
    else
      var saved := Persist(tape, Concluded(r, id, e));
      if !saved.ok then saved else Step(Release(saved.registry, id, e.cleanup), true)
  }

  // ---------------------------------------------------------------- pins and restarts

  function PinResult(tape: Tape, r: Registry, id: Id, pinned: bool, intact: bool): Step {
    var index := Position(r.runs, id);
    if index == |r.runs| || !r.runs[index].Settled() then Step(r, false)
    else if r.runs[index].pinned == pinned then Step(r, true)
    else
      var room :=
        if pinned then
          Step(r, && intact
                  && |r.runs| - Unpinned(r.runs) < PINNED_RUN_LIMIT
                  && PinnedBytes(r.runs) + r.runs[index].retainedBytes <= PINNED_RESULT_BYTES)
        else MakeRoom(tape, r, 0);
      if !room.ok then room else SetPin(tape, room.registry, id, pinned)
  }

  function SetPin(tape: Tape, r: Registry, id: Id, pinned: bool): Step {
    var index := Position(r.runs, id);
    if index == |r.runs| then Step(r, false)
    else
      var saved := Persist(tape, WithRun(r, index, r.runs[index].(pinned := pinned)));
      if saved.ok then saved else Step(saved.registry.(runs := r.runs), false)
  }

  /** A recovered run of a host that ended is never live. */
  function Recovered(run: Run): Run {
    if run.state.IsLive() then run.(state := Unknown) else run
  }

  function Opened(disk: Disk, clock: nat): Registry {
    Registry(seq(|disk.ledger.runs|, i requires 0 <= i < |disk.ledger.runs| => Recovered(disk.ledger.runs[i])),
             disk.ledger.retired, map[], [], disk, clock)
  }

  function Open(tape: Tape, disk: Disk, clock: nat, now: nat): Step {
    var r := Opened(disk, clock);
    if !ValidLedger(disk.ledger) then Step(r, false)
    else
      var saved := Persist(tape, r);
      if !saved.ok then saved
      else
        var cleaned := CleanupRetired(tape, saved.registry);
        if !cleaned.ok then cleaned else ExpireHistory(tape, cleaned.registry, now)
  }
}
