/**
 The run registry simulates a host of the lock protocol: each of its calls is a sequence of
 protocol steps of one process, also when the steps of other processes come between them.
 */
module RegistrySimulation {
  import opened Faults
  import opened RunLedger
  import opened RegistrySpec
  import opened RegistryInvariant
  import opened RegistryRetention
  import opened RegistryRuns
  import opened RegistryCoordination
  import RegistryHistory
  import P = HostCoordination

  // ---------------------------------------------------------------- one process of the protocol

  /** What a process of the protocol can change: its own state, if it runs, and the ledger. */
  datatype Part = Part(host: Option<P.Host>, disk: P.Runs)

  function PartIn(w: P.World, p: P.Pid): Part {
    Part(if p in w.hosts then Some(w.hosts[p]) else None, w.disk)
  }

  /** The process in a world without any other. */
  function Alone(x: Part, p: P.Pid): P.World {
    P.Quiet(x.disk).(hosts := if x.host.Some? then map[p := x.host.value] else map[])
  }

  /** Steps of a host that can change its part. */
  predicate OfHost(s: P.Step) {
    !s.LegacyStart? && !s.LegacyWrite? && (s.End? || !P.OfRebind(s))
  }

  predicate Ready(x: Part, p: P.Pid, s: P.Step) {
    s.pid == p && OfHost(s) && P.Enabled(Alone(x, p), s)
  }

  function After(x: Part, p: P.Pid, s: P.Step): Part
    requires Ready(x, p, s)
  {
    PartIn(P.Next(Alone(x, p), s), p)
  }

  predicate AllReady(x: Part, p: P.Pid, steps: seq<P.Step>)
    decreases |steps|
  {
    steps == [] || (Ready(x, p, steps[0]) && AllReady(After(x, p, steps[0]), p, steps[1..]))
  }

  function PartAfter(x: Part, p: P.Pid, steps: seq<P.Step>): Part
    requires AllReady(x, p, steps)
    decreases |steps|
  {
    if steps == [] then x else PartAfter(After(x, p, steps[0]), p, steps[1..])
  }

  predicate RunsTo(x: Part, p: P.Pid, steps: seq<P.Step>, y: Part) {
    AllReady(x, p, steps) && PartAfter(x, p, steps) == y
  }

  /** A start takes the run-use lock first, and only when it was granted. */
  predicate Lawful(steps: seq<P.Step>, granted: bool) {
    forall i :: 0 <= i < |steps| ==> P.IsRunStep(steps[i]) && (steps[i].Reserve? ==> i == 0 && granted)
  }

  ghost predicate Reaches(x: Part, p: P.Pid, y: Part, granted: bool) {
    exists steps :: RunsTo(x, p, steps, y) && Lawful(steps, granted)
  }

  lemma {:induction false} RunsOn(x: Part, p: P.Pid, a: seq<P.Step>, y: Part, b: seq<P.Step>, z: Part)
    requires RunsTo(x, p, a, y) && RunsTo(y, p, b, z)
    ensures RunsTo(x, p, a + b, z)
    decreases |a|
  {
    if a == [] {
      assert a + b == b;
    } else {
      assert (a + b)[0] == a[0] && (a + b)[1..] == a[1..] + b;
      RunsOn(After(x, p, a[0]), p, a[1..], y, b, z);
    }
  }

  lemma Stays(x: Part, p: P.Pid, granted: bool)
    ensures Reaches(x, p, x, granted)
  {
    assert RunsTo(x, p, [], x) && Lawful([], granted);
  }

  lemma OneStep(x: Part, p: P.Pid, s: P.Step)
    requires Ready(x, p, s)
    ensures RunsTo(x, p, [s], After(x, p, s))
  {
    assert [s][1..] == [];
  }

  lemma Reached(x: Part, p: P.Pid, s: P.Step, granted: bool)
    requires Ready(x, p, s) && P.IsRunStep(s) && (s.Reserve? ==> granted)
    ensures Reaches(x, p, After(x, p, s), granted)
  {
    OneStep(x, p, s);
    assert Lawful([s], granted);
  }

  lemma ReachesOn(x: Part, p: P.Pid, y: Part, z: Part, granted: bool)
    requires Reaches(x, p, y, granted) && Reaches(y, p, z, false)
    ensures Reaches(x, p, z, granted)
  {
    var a :| RunsTo(x, p, a, y) && Lawful(a, granted);
    var b :| RunsTo(y, p, b, z) && Lawful(b, false);
    RunsOn(x, p, a, y, b, z);
    assert Lawful(a + b, granted);
  }

  // ---------------------------------------------------------------- the registry as such a process

  /** The registry between two calls, and beside it starts that hold the lock without a ticket yet. */
  function Shown(r: Registry, taken: set<Id>): Part {
    var h := HostView(r);
    Part(Some(h.(reserved := h.reserved + taken)), View(r.disk.ledger.runs))
  }

  function PartOf(r: Registry): Part {
    Part(Some(HostView(r)), View(r.disk.ledger.runs))
  }

  lemma NothingTaken(r: Registry)
    ensures Shown(r, {}) == PartOf(r)
  {
    assert HostView(r).reserved + {} == HostView(r).reserved;
  }

  lemma ViewKeys(runs: seq<Run>, id: Id)
    ensures id in View(runs) <==> Has(runs, id)
    ensures id in View(runs) ==> View(runs)[id] == runs[Position(runs, id)].Settled()
  {
    if Has(runs, id) {
      assert runs[Position(runs, id)].id == id;
    }
  }

  /** A map is the view of distinct records if it has each of them and no other key. */
  lemma ViewIs(runs: seq<Run>, m: P.Runs)
    requires DistinctRuns(runs)
    requires forall i :: 0 <= i < |runs| ==> runs[i].id in m && m[runs[i].id] == runs[i].Settled()
    requires forall id :: id in m ==> Has(runs, id)
    ensures View(runs) == m
  {
    forall id
      ensures id in View(runs) <==> id in m
      ensures id in m ==> View(runs)[id] == m[id]
    {
      ViewKeys(runs, id);
    }
  }

  lemma ViewUpdated(runs: seq<Run>, index: nat, run: Run)
    requires DistinctRuns(runs) && index < |runs|
    requires run.id == runs[index].id && run.operation == runs[index].operation
    ensures View(runs[index := run]) == View(runs)[run.id := run.Settled()]
  {
    var updated := runs[index := run];
    forall i | 0 <= i < |updated|
      ensures updated[i].id in View(runs)[run.id := run.Settled()]
      ensures View(runs)[run.id := run.Settled()][updated[i].id] == updated[i].Settled()
    {
      ViewAt(runs, i);
    }
    forall id | id in View(runs)[run.id := run.Settled()] ensures Has(updated, id) {
      ViewKeys(runs, id);
      UpdatedLookups(runs, index, run, id, 0);
      assert runs[index].id == run.id;
    }
    ViewIs(updated, View(runs)[run.id := run.Settled()]);
  }

  lemma ViewAppended(runs: seq<Run>, run: Run)
    requires DistinctRuns(runs) && !Has(runs, run.id) && !OperationUsed(runs, run.operation)
    ensures View(runs + [run]) == View(runs)[run.id := run.Settled()]
  {
    var more := runs + [run];
    forall i | 0 <= i < |more|
      ensures more[i].id in View(runs)[run.id := run.Settled()]
      ensures View(runs)[run.id := run.Settled()][more[i].id] == more[i].Settled()
    {
      if i < |runs| {
        ViewAt(runs, i);
        assert runs[i].id != run.id;
      }
    }
    forall id | id in View(runs)[run.id := run.Settled()] ensures Has(more, id) {
      ViewKeys(runs, id);
      AppendedLookups(runs, run, id, 0);
    }
    ViewIs(more, View(runs)[run.id := run.Settled()]);
  }

  lemma ViewWithout(runs: seq<Run>, index: nat)
    requires DistinctRuns(runs) && index < |runs|
    ensures View(Without(runs, index)) == View(runs) - {runs[index].id}
  {
    var less := Without(runs, index);
    var m := View(runs) - {runs[index].id};
    WithoutAt(runs, index);
    WithoutDistinct(runs, index);
    forall i | 0 <= i < |less| ensures less[i].id in m && m[less[i].id] == less[i].Settled() {
      ViewAt(runs, if i < index then i else i + 1);
      assert less[i].id != runs[index].id;
    }
    forall id | id in m ensures Has(less, id) {
      ViewKeys(runs, id);
      WithoutHas(runs, index, Position(runs, id));
    }
    ViewIs(less, m);
  }

  /** How a save ends for the ledger: an invalid memory never reaches the disk. */
  function SaveOutcome(tape: Tape, r: Registry): Outcome {
    if ValidLedger(r.Memory()) then tape(r.clock) else FailedBefore
  }

  lemma PersistShows(tape: Tape, r: Registry)
    ensures var s := Persist(tape, r);
            && (s.ok <==> SaveOutcome(tape, r) == Done)
            && View(s.registry.disk.ledger.runs) == P.Saved(View(r.disk.ledger.runs), View(r.runs), SaveOutcome(tape, r))
            && s.registry.runs == r.runs && s.registry.active == r.active && s.registry.pending == r.pending
  {
  }

  // ---------------------------------------------------------------- single saves

  predicate IsIdle(x: Part) {
    x.host.Some? && x.host.value.Serving? && x.host.value.work.Idle?
  }

  lemma SaveReaches(x: Part, p: P.Pid, outcome: Outcome)
    requires IsIdle(x)
    ensures Reaches(x, p, x.(disk := P.Saved(x.disk, x.host.value.memory, outcome)), false)
  {
    Reached(x, p, P.Save(p, outcome), false);
  }

  lemma RotateReaches(x: Part, p: P.Pid, id: Id, outcome: Outcome)
    requires IsIdle(x)
    requires id in x.host.value.memory && x.host.value.memory[id] && id !in x.host.value.owned
    ensures var memory := x.host.value.memory - {id};
            var y := x.(disk := P.Saved(x.disk, memory, outcome));
            Reaches(x, p, if outcome == Done then y.(host := Some(x.host.value.(memory := memory))) else y, false)
  {
    Reached(x, p, P.Rotate(p, id, outcome), false);
  }

  lemma AcknowledgeReaches(x: Part, p: P.Pid, id: Id, outcome: Outcome)
    requires IsIdle(x)
    requires id in x.host.value.memory && id !in x.host.value.owned && id !in x.host.value.reserved
    ensures var memory := x.host.value.memory[id := true];
            var y := x.(disk := P.Saved(x.disk, memory, outcome));
            Reaches(x, p, if outcome == Done then y.(host := Some(x.host.value.(memory := memory))) else y, false)
  {
    Reached(x, p, P.Acknowledge(p, id, outcome), false);
  }

  lemma AbandonReaches(x: Part, p: P.Pid, id: Id)
    requires IsIdle(x) && id in x.host.value.reserved
    ensures Reaches(x, p, x.(host := Some(x.host.value.(reserved := x.host.value.reserved - {id}))), false)
  {
    Reached(x, p, P.Abandon(p, id), false);
  }

  lemma ReserveReaches(x: Part, p: P.Pid, id: Id)
    requires IsIdle(x)
    requires id !in x.host.value.memory && id !in x.host.value.reserved && id !in x.host.value.owned
    ensures Reaches(x, p, x.(host := Some(x.host.value.(reserved := x.host.value.reserved + {id}))), true)
  {
    Reached(x, p, P.Reserve(p, id), true);
  }

  function AtWork(x: Part, work: P.Work): Part
    requires IsIdle(x)
  {
    x.(host := Some(x.host.value.(work := work)))
  }

  lemma CommitSaved(x: Part, p: P.Pid, id: Id, outcome: Outcome)
    requires IsIdle(x) && id in x.host.value.reserved
    ensures var h := x.host.value;
            var memory := h.memory[id := false];
            var y := if outcome == Done then x.(host := Some(h.(memory := memory))) else x;
            var work := if outcome == Done then P.CommitSaved(id) else P.CommitRefused(id);
            Reaches(x, p, AtWork(y, work).(disk := P.Saved(x.disk, memory, outcome)), false)
  {
    Reached(x, p, P.CommitSave(p, id, outcome), false);
  }

  lemma CommitEnded(x: Part, p: P.Pid, id: Id, saved: bool)
    requires IsIdle(x)
    ensures var h := x.host.value;
            var owned := if saved then h.owned + {id} else h.owned;
            Reaches(AtWork(x, if saved then P.CommitSaved(id) else P.CommitRefused(id)), p,
                    x.(host := Some(h.(reserved := h.reserved - {id}, owned := owned))), false)
  {
    Reached(AtWork(x, if saved then P.CommitSaved(id) else P.CommitRefused(id)), p, P.CommitEnd(p), false);
  }

  lemma CommitReaches(x: Part, p: P.Pid, id: Id, outcome: Outcome)
    requires IsIdle(x) && id in x.host.value.reserved
    ensures var h := x.host.value;
            var memory := h.memory[id := false];
            var done := if outcome == Done then h.(memory := memory, owned := h.owned + {id}) else h;
            Reaches(x, p, Part(Some(done.(reserved := h.reserved - {id})), P.Saved(x.disk, memory, outcome)), false)
  {
    var h := x.host.value;
    var memory := h.memory[id := false];
    var y := if outcome == Done then x.(host := Some(h.(memory := memory))) else x;
    var z := y.(disk := P.Saved(x.disk, memory, outcome));
    CommitSaved(x, p, id, outcome);
    CommitEnded(z, p, id, outcome == Done);
    var work := if outcome == Done then P.CommitSaved(id) else P.CommitRefused(id);
    var done := if outcome == Done then h.(memory := memory, owned := h.owned + {id}) else h;
    ReachesOn(x, p, AtWork(z, work), Part(Some(done.(reserved := h.reserved - {id})), z.disk), false);
  }

  lemma FinishBegun(x: Part, p: P.Pid, id: Id)
    requires IsIdle(x) && id in x.host.value.owned
    ensures var h := x.host.value;
            Reaches(x, p, AtWork(x.(host := Some(h.(memory := h.memory[id := true]))), P.FinishSaving(id)), false)
  {
    Reached(x, p, P.FinishStart(p, id), false);
  }

  lemma FinishSaved(x: Part, p: P.Pid, id: Id, outcome: Outcome)
    requires IsIdle(x)
    ensures var y := x.(disk := P.Saved(x.disk, x.host.value.memory, outcome));
            Reaches(AtWork(x, P.FinishSaving(id)), p, AtWork(y, if outcome == Done then P.FinishSaved(id) else P.Idle), false)
  {
    Reached(AtWork(x, P.FinishSaving(id)), p, P.FinishSave(p, outcome), false);
  }

  lemma FinishEnded(x: Part, p: P.Pid, id: Id)
    requires IsIdle(x)
    ensures var h := x.host.value;
            Reaches(AtWork(x, P.FinishSaved(id)), p, x.(host := Some(h.(owned := h.owned - {id}))), false)
  {
    Reached(AtWork(x, P.FinishSaved(id)), p, P.FinishEnd(p), false);
  }

  lemma FinishReaches(x: Part, p: P.Pid, id: Id, outcome: Outcome)
    requires IsIdle(x) && id in x.host.value.owned
    ensures var h := x.host.value.(memory := x.host.value.memory[id := true]);
            var done := if outcome == Done then h.(owned := h.owned - {id}) else h;
            Reaches(x, p, Part(Some(done), P.Saved(x.disk, h.memory, outcome)), false)
  {
    var h := x.host.value.(memory := x.host.value.memory[id := true]);
    var y := x.(host := Some(h));
    var z := y.(disk := P.Saved(x.disk, h.memory, outcome));
    FinishBegun(x, p, id);
    FinishSaved(y, p, id, outcome);
    var work := if outcome == Done then P.FinishSaved(id) else P.Idle;
    ReachesOn(x, p, AtWork(y, P.FinishSaving(id)), AtWork(z, work), false);
    if outcome == Done {
      FinishEnded(z, p, id);
      ReachesOn(x, p, AtWork(z, work), z.(host := Some(h.(owned := h.owned - {id}))), false);
    }
  }

  // ---------------------------------------------------------------- retention

  lemma ShownAfterSave(r: Registry, s: Registry, taken: set<Id>, disk: P.Runs)
    requires View(s.runs) == View(r.runs) && s.active == r.active && s.pending == r.pending
    requires View(s.disk.ledger.runs) == disk
    ensures Shown(s, taken) == Shown(r, taken).(disk := disk)
  {
  }

  /** A save of the memory as it is; the view of the runs has not changed. */
  lemma PersistReaches(tape: Tape, r: Registry, changed: Registry, s: Registry, taken: set<Id>, p: P.Pid)
    requires View(changed.runs) == View(r.runs) && changed.disk.ledger == r.disk.ledger
    requires s.disk.ledger == Persist(tape, changed).registry.disk.ledger
    requires View(s.runs) == View(r.runs) && s.active == r.active && s.pending == r.pending
    ensures Reaches(Shown(r, taken), p, Shown(s, taken), false)
  {
    PersistShows(tape, changed);
    var x := Shown(r, taken);
    SaveReaches(x, p, SaveOutcome(tape, changed));
    ShownAfterSave(r, s, taken, P.Saved(x.disk, View(r.runs), SaveOutcome(tape, changed)));
  }

  lemma SameShown(r: Registry, s: Registry, taken: set<Id>, p: P.Pid, granted: bool)
    requires s.runs == r.runs && s.active == r.active && s.pending == r.pending && s.disk.ledger == r.disk.ledger
    ensures Shown(s, taken) == Shown(r, taken)
    ensures Reaches(Shown(r, taken), p, Shown(s, taken), granted)
  {
    Stays(Shown(r, taken), p, granted);
  }

  lemma ForgetReaches(tape: Tape, r: Registry, taken: set<Id>, p: P.Pid)
    requires r.retired != []
    ensures Reaches(Shown(r, taken), p, Shown(ForgetFirst(tape, r).registry, taken), false)
  {
    var files := FilesOf(r.retired[0]);
    DeleteAllKeepsMemory(tape, r, files);
    var deleted := DeleteAll(tape, r, files);
    var s := ForgetFirst(tape, r).registry;
    if deleted.ok {
      PersistReaches(tape, r, deleted.registry.(retired := r.retired[1..]), s, taken, p);
    } else {
      SameShown(r, s, taken, p, false);
    }
  }

  lemma {:induction false} CleanupReaches(tape: Tape, r: Registry, taken: set<Id>, p: P.Pid)
    ensures Reaches(Shown(r, taken), p, Shown(CleanupRetired(tape, r).registry, taken), false)
    decreases |r.retired|
  {
    if r.retired == [] {
      Stays(Shown(r, taken), p, false);
    } else {
      ForgetReaches(tape, r, taken, p);
      var first := ForgetFirst(tape, r);
      if first.ok {
        CleanupReaches(tape, first.registry, taken, p);
        ReachesOn(Shown(r, taken), p, Shown(first.registry, taken), Shown(CleanupRetired(tape, r).registry, taken), false);
      }
    }
  }

  lemma RotatableIsReleased(r: Registry, index: nat, taken: set<Id>)
    requires Inv(r) && index < |r.runs| && CanRotate(r, r.runs[index])
    ensures var h := Shown(r, taken).host.value;
            var id := r.runs[index].id;
            id in h.memory && h.memory[id] && id !in h.owned
  {
    ViewAt(r.runs, index);
    assert Holding(r);
  }

  lemma MovedOwned(r: Registry, index: nat)
    requires index < |r.runs| && r.runs[index].id !in HostView(r).owned
    ensures HostView(Moved(r, index)).owned == HostView(r).owned
    ensures HostView(Moved(r, index)).reserved == HostView(r).reserved
  {
    var id := r.runs[index].id;
    forall other
      ensures other in HostView(Moved(r, index)).owned <==> other in HostView(r).owned
    {
      assert other in HostView(r).owned <==> other in r.active && r.active[other].runUse;
    }
  }

  lemma MovedShown(r: Registry, index: nat, taken: set<Id>)
    requires Inv(r) && index < |r.runs| && CanRotate(r, r.runs[index])
    ensures var h := Shown(r, taken).host.value;
            Shown(Moved(r, index), taken).host == Some(h.(memory := h.memory - {r.runs[index].id}))
  {
    ViewWithout(r.runs, index);
    RotatableIsReleased(r, index, taken);
    MovedOwned(r, index);
  }

  lemma RetireReaches(tape: Tape, r: Registry, index: nat, taken: set<Id>, p: P.Pid)
    requires Inv(r) && index < |r.runs|
    ensures Reaches(Shown(r, taken), p, Shown(Retire(tape, r, index).registry, taken), false)
  {
    if CanRotate(r, r.runs[index]) && |r.retired| < RUN_RECORD_LIMIT {
      RetireSteps(tape, r, index);
      RotatableIsReleased(r, index, taken);
      MovedShown(r, index, taken);
      ViewWithout(r.runs, index);
      var changed := Moved(r, index).(active := r.active);
      PersistShows(tape, changed);
      RotateReaches(Shown(r, taken), p, r.runs[index].id, SaveOutcome(tape, changed));
    } else {
      Stays(Shown(r, taken), p, false);
    }
  }

  lemma RemoveReaches(tape: Tape, r: Registry, index: nat, taken: set<Id>, p: P.Pid)
    requires Inv(r) && index < |r.runs|
    ensures Reaches(Shown(r, taken), p, Shown(RemoveHistory(tape, r, index).registry, taken), false)
  {
    RetireReaches(tape, r, index, taken, p);
    var retired := Retire(tape, r, index);
    if retired.ok {
      CleanupReaches(tape, retired.registry, taken, p);
      ReachesOn(Shown(r, taken), p, Shown(retired.registry, taken), Shown(RemoveHistory(tape, r, index).registry, taken), false);
    }
  }

  lemma {:induction false} ExpireReaches(tape: Tape, r: Registry, now: nat, taken: set<Id>, p: P.Pid)
    requires Inv(r)
    ensures Reaches(Shown(r, taken), p, Shown(ExpireHistory(tape, r, now).registry, taken), false)
    decreases |r.runs|
  {
    var index := FirstExpired(r, now, 0);
    if index == |r.runs| {
      Stays(Shown(r, taken), p, false);
    } else {
      RemoveReaches(tape, r, index, taken, p);
      RemoveHistoryKeeps(tape, r, index);
      var removed := RemoveHistory(tape, r, index);
      if removed.ok {
        ExpireReaches(tape, removed.registry, now, taken, p);
        ReachesOn(Shown(r, taken), p, Shown(removed.registry, taken), Shown(ExpireHistory(tape, r, now).registry, taken), false);
      }
    }
  }

  lemma {:induction false} RoomReaches(tape: Tape, r: Registry, count: nat, taken: set<Id>, p: P.Pid)
    requires Inv(r)
    ensures Reaches(Shown(r, taken), p, Shown(MakeRoom(tape, r, count).registry, taken), false)
    decreases |r.runs|
  {
    var index := FirstRotatable(r, 0);
    if Unpinned(r.runs) + count < RUN_RECORD_LIMIT || index == |r.runs| {
      Stays(Shown(r, taken), p, false);
    } else {
      RemoveReaches(tape, r, index, taken, p);
      RemoveHistoryKeeps(tape, r, index);
      var removed := RemoveHistory(tape, r, index);
      if removed.ok {
        RoomReaches(tape, removed.registry, count, taken, p);
        ReachesOn(Shown(r, taken), p, Shown(removed.registry, taken), Shown(MakeRoom(tape, r, count).registry, taken), false);
      }
    }
  }

  lemma TrimReaches(tape: Tape, r: Registry, now: nat, taken: set<Id>, p: P.Pid)
    requires Inv(r)
    ensures Reaches(Shown(r, taken), p, Shown(Trim(tape, r, now).registry, taken), false)
  {
    CleanupReaches(tape, r, taken, p);
    CleanupKeeps(tape, r);
    var cleaned := CleanupRetired(tape, r);
    if cleaned.ok {
      ExpireReaches(tape, cleaned.registry, now, taken, p);
      ExpireHistoryKeeps(tape, cleaned.registry, now);
      var expired := ExpireHistory(tape, cleaned.registry, now);
      ReachesOn(Shown(r, taken), p, Shown(cleaned.registry, taken), Shown(expired.registry, taken), false);
      if expired.ok {
        RoomReaches(tape, expired.registry, |r.pending|, taken, p);
        ReachesOn(Shown(r, taken), p, Shown(expired.registry, taken), Shown(Trim(tape, r, now).registry, taken), false);
      }
    }
  }

  // ---------------------------------------------------------------- calls

  /** Changing one record, saving, and perhaps going back, when the change leaves the record's settledness. */
  lemma UpdateReaches(tape: Tape, r: Registry, index: nat, run: Run, s: Registry, p: P.Pid)
    requires DistinctRuns(r.runs) && index < |r.runs|
    requires run.id == r.runs[index].id && run.operation == r.runs[index].operation
    requires run.Settled() == r.runs[index].Settled()
    requires s.disk.ledger == Persist(tape, WithRun(r, index, run)).registry.disk.ledger
    requires s.runs == r.runs || s.runs == r.runs[index := run]
    requires s.active == r.active && s.pending == r.pending
    ensures Reaches(PartOf(r), p, PartOf(s), false)
  {
    ViewUpdated(r.runs, index, run);
    ViewAt(r.runs, index);
    PersistReaches(tape, r, WithRun(r, index, run), s, {}, p);
    NothingTaken(r);
    NothingTaken(s);
  }

  lemma MarkRunningReaches(tape: Tape, r: Registry, id: Id, p: P.Pid)
    requires DistinctRuns(r.runs)
    ensures Reaches(PartOf(r), p, PartOf(MarkRunning(tape, r, id).registry), false)
  {
    var index := Position(r.runs, id);
    if index < |r.runs| && r.runs[index].state.IsLive() {
      var run := r.runs[index];
      UpdateReaches(tape, r, index, if run.state == Preparing then run.(state := Running) else run,
                    MarkRunning(tape, r, id).registry, p);
    } else {
      Stays(PartOf(r), p, false);
    }
  }

  function Stopping(run: Run, timeout: bool): Run {
    run.(state := Cancelling, cancelRequested := true, timeoutRequested := run.timeoutRequested || timeout)
  }

  lemma CancelSaves(tape: Tape, r: Registry, id: Id, timeout: bool)
    requires var index := Position(r.runs, id);
      !(id in r.active && r.active[id].finishing) && index < |r.runs| && r.runs[index].state.IsLive()
    ensures var index := Position(r.runs, id);
            var s := Cancel(tape, r, id, timeout).registry;
            var saved := Persist(tape, WithRun(r, index, Stopping(r.runs[index], timeout)));
            s == if saved.ok then saved.registry else saved.registry.(runs := r.runs)
  {
  }

  lemma CancelReaches(tape: Tape, r: Registry, id: Id, timeout: bool, p: P.Pid)
    requires DistinctRuns(r.runs)
    ensures Reaches(PartOf(r), p, PartOf(Cancel(tape, r, id, timeout).registry), false)
  {
    var index := Position(r.runs, id);
    if (id in r.active && r.active[id].finishing) || index == |r.runs| || !r.runs[index].state.IsLive() {
      Stays(PartOf(r), p, false);
    } else {
      CancelSaves(tape, r, id, timeout);
      RegistryHistory.PersistMemory(tape, WithRun(r, index, Stopping(r.runs[index], timeout)));
      UpdateReaches(tape, r, index, Stopping(r.runs[index], timeout), Cancel(tape, r, id, timeout).registry, p);
    }
  }

  lemma SetPinReaches(tape: Tape, r: Registry, id: Id, pinned: bool, p: P.Pid)
    requires DistinctRuns(r.runs)
    ensures Reaches(PartOf(r), p, PartOf(SetPin(tape, r, id, pinned).registry), false)
  {
    var index := Position(r.runs, id);
    if index < |r.runs| {
      UpdateReaches(tape, r, index, r.runs[index].(pinned := pinned), SetPin(tape, r, id, pinned).registry, p);
    } else {
      Stays(PartOf(r), p, false);
    }
  }

  lemma PinReaches(tape: Tape, r: Registry, id: Id, pinned: bool, intact: bool, p: P.Pid)
    requires Inv(r)
    ensures Reaches(PartOf(r), p, PartOf(PinResult(tape, r, id, pinned, intact).registry), false)
  {
    RegistryHistory.PinResults(tape, r, id, pinned, intact);
    var room := if pinned then r else MakeRoom(tape, r, 0).registry;
    if pinned {
      Stays(PartOf(r), p, false);
    } else {
      RoomReaches(tape, r, 0, {}, p);
      NothingTaken(r);
      NothingTaken(room);
      MakeRoomKeeps(tape, r, 0);
    }
    SetPinReaches(tape, room, id, pinned, p);
    ReachesOn(PartOf(r), p, PartOf(room), PartOf(SetPin(tape, room, id, pinned).registry), false);
    Stays(PartOf(r), p, false);
  }

  lemma RecordedIsApart(r: Registry, index: nat)
    requires DistinctRuns(r.runs) && PendingApart(r) && index < |r.runs|
    ensures r.runs[index].id in HostView(r).memory && r.runs[index].id !in HostView(r).reserved
  {
    ViewAt(r.runs, index);
    PendingIsNew(r, r.runs[index].id);
  }

  /** Settling a record that the host does not own, undone in memory when the save fails. */
  lemma SettledReaches(tape: Tape, r: Registry, index: nat, run: Run, s: Registry, p: P.Pid)
    requires DistinctRuns(r.runs) && PendingApart(r) && index < |r.runs| && r.runs[index].id !in r.active
    requires run.id == r.runs[index].id && run.operation == r.runs[index].operation && run.Settled()
    requires s.disk.ledger == Persist(tape, WithRun(r, index, run)).registry.disk.ledger
    requires s.runs == if Persist(tape, WithRun(r, index, run)).ok then r.runs[index := run] else r.runs
    requires s.active == r.active && s.pending == r.pending
    ensures Reaches(PartOf(r), p, PartOf(s), false)
  {
    RecordedIsApart(r, index);
    ViewUpdated(r.runs, index, run);
    PersistShows(tape, WithRun(r, index, run));
    AcknowledgeReaches(PartOf(r), p, run.id, SaveOutcome(tape, WithRun(r, index, run)));
  }

  lemma AcknowledgementReaches(tape: Tape, r: Registry, id: Id, p: P.Pid)
    requires DistinctRuns(r.runs) && PendingApart(r)
    ensures Reaches(PartOf(r), p, PartOf(AcknowledgeUnknownCleanup(tape, r, id).registry), false)
  {
    var index := Position(r.runs, id);
    if id in r.active || index == |r.runs| || r.runs[index].state != Unknown {
      Stays(PartOf(r), p, false);
    } else {
      SettledReaches(tape, r, index, r.runs[index].(cleanup := true), AcknowledgeUnknownCleanup(tape, r, id).registry, p);
    }
  }

  lemma DroppedShows(r: Registry, id: Id)
    ensures HostView(r.(pending := Dropped(r.pending, id))).reserved == HostView(r).reserved - {id}
  {
    var rest := Dropped(r.pending, id);
    forall other
      ensures other in HostView(r.(pending := rest)).reserved <==> other in HostView(r).reserved - {id}
    {
      if other in HostView(r.(pending := rest)).reserved {
        var i :| 0 <= i < |rest| && rest[i].id == other;
        assert rest[i] in rest && rest[i] in r.pending;
      }
      if other in HostView(r).reserved - {id} {
        var i :| 0 <= i < |r.pending| && r.pending[i].id == other;
        assert r.pending[i] in r.pending && r.pending[i] in rest;
      }
    }
  }

  lemma AbandonedReaches(r: Registry, ticket: Pending, p: P.Pid)
    ensures Reaches(PartOf(r), p, PartOf(BeginAbandon(r, ticket)), false)
  {
    DroppedShows(r, ticket.id);
    if ticket.id in HostView(r).reserved {
      AbandonReaches(PartOf(r), p, ticket.id);
    } else {
      assert HostView(r).reserved - {ticket.id} == HostView(r).reserved;
      Stays(PartOf(r), p, false);
    }
  }

  /** Appending the new record, saving, and taking it back when the save fails. */
  lemma AppendReaches(tape: Tape, r: Registry, run: Run, x: Part, y: Part, p: P.Pid)
    requires DistinctRuns(r.runs) && !Has(r.runs, run.id) && !OperationUsed(r.runs, run.operation) && !run.Settled()
    requires IsIdle(x) && run.id in x.host.value.reserved
    requires x.host.value.memory == View(r.runs) && x.disk == View(r.disk.ledger.runs)
    requires
      var h := x.host.value;
      var saved := Persist(tape, r.(runs := r.runs + [run]));
      var done := if saved.ok then h.(memory := View(r.runs + [run]), owned := h.owned + {run.id}) else h;
      y == Part(Some(done.(reserved := h.reserved - {run.id})), View(saved.registry.disk.ledger.runs))
    ensures Reaches(x, p, y, false)
  {
    ViewAppended(r.runs, run);
    var appended := r.(runs := r.runs + [run]);
    PersistShows(tape, appended);
    CommitReaches(x, p, run.id, SaveOutcome(tape, appended));
  }

  function Owned(active: map<Id, Active>): set<Id> {
    set id | id in active && active[id].runUse
  }

  lemma StartedOwned(active: map<Id, Active>, id: Id, a: Active)
    requires a.runUse
    ensures Owned(active[id := a]) == Owned(active) + {id}
  {
  }

  /** Where a prepared commit ends. */
  lemma CommittedShows(tape: Tape, r: Registry, ticket: Pending)
    ensures var s := BeginCommit(tape, r, ticket, true).registry;
            var begun := BeginAbandon(r, ticket);
            var stored := begun.(disk := begun.disk.(files := begun.disk.files + {LogFile(ticket.id), RunDirectory(ticket.id)}));
            var saved := Persist(tape, stored.(runs := stored.runs + [NewRun(ticket)]));
            && s.pending == begun.pending
            && s.runs == (if saved.ok then r.runs + [NewRun(ticket)] else r.runs)
            && s.active == (if saved.ok then r.active[ticket.id := Active(ticket.identity.Some?, true, false, None)] else r.active)
            && s.disk.ledger == saved.registry.disk.ledger
  {
  }

  lemma PreparedReaches(tape: Tape, r: Registry, ticket: Pending, p: P.Pid)
    requires DistinctRuns(r.runs) && !Has(r.runs, ticket.id) && !OperationUsed(r.runs, ticket.operation)
    requires ticket in r.pending
    ensures Reaches(PartOf(r), p, PartOf(BeginCommit(tape, r, ticket, true).registry), false)
  {
    var s := BeginCommit(tape, r, ticket, true).registry;
    var begun := BeginAbandon(r, ticket);
    var stored := begun.(disk := begun.disk.(files := begun.disk.files + {LogFile(ticket.id), RunDirectory(ticket.id)}));
    CommittedShows(tape, r, ticket);
    DroppedShows(r, ticket.id);
    StartedOwned(r.active, ticket.id, Active(ticket.identity.Some?, true, false, None));
    assert HostView(s).owned == Owned(s.active) && HostView(r).owned == Owned(r.active);
    assert ticket.id in HostView(r).reserved;
    AppendReaches(tape, stored, NewRun(ticket), PartOf(r), PartOf(s), p);
  }

  lemma TicketIsNew(r: Registry, ticket: Pending)
    requires PendingApart(r) && ticket in r.pending
    ensures !Has(r.runs, ticket.id) && !OperationUsed(r.runs, ticket.operation)
  {
    var k :| 0 <= k < |r.pending| && r.pending[k] == ticket;
  }

  lemma CommitCallReaches(tape: Tape, r: Registry, ticket: Pending, prepared: bool, p: P.Pid)
    requires DistinctRuns(r.runs) && PendingApart(r) && ticket in r.pending
    ensures Reaches(PartOf(r), p, PartOf(BeginCommit(tape, r, ticket, prepared).registry), false)
  {
    if prepared {
      TicketIsNew(r, ticket);
      PreparedReaches(tape, r, ticket, p);
    } else {
      AbandonedReaches(r, ticket, p);
    }
  }

  lemma ProbeReaches(r: Registry, id: Id, p: P.Pid)
    ensures Reaches(PartOf(r), p, PartOf(FinishProbe(r, id).registry), false)
  {
    var s := FinishProbe(r, id).registry;
    assert HostView(s).owned == HostView(r).owned;
    Stays(PartOf(r), p, false);
  }

  // ---------------------------------------------------------------- finalization

  lemma SameOwned(active: map<Id, Active>, id: Id, a: Active)
    requires id in active && active[id].runUse == a.runUse
    ensures Owned(active[id := a]) == Owned(active)
  {
  }

  lemma LessOwned(active: map<Id, Active>, id: Id, a: Active)
    requires id in active && !a.runUse
    ensures Owned(active[id := a]) == Owned(active) - {id}
  {
  }

  lemma ViewOfPart(r: Registry)
    ensures PartOf(r) == Part(Some(P.Serving(View(r.runs), HostView(r).reserved, Owned(r.active), P.Idle)), View(r.disk.ledger.runs))
  {
  }

  /** Where an owned run ends, settled or not, with a save of this outcome. */
  function Ended(x: Part, id: Id, settled: bool, outcome: Outcome): Part
    requires IsIdle(x)
  {
    var h := x.host.value;
    var memory := h.memory[id := settled];
    Part(Some(h.(memory := memory, owned := if settled && outcome == Done then h.owned - {id} else h.owned)),
         P.Saved(x.disk, memory, outcome))
  }

  lemma EndReaches(x: Part, p: P.Pid, id: Id, settled: bool, outcome: Outcome)
    requires IsIdle(x) && id in x.host.value.owned
    requires !settled ==> id in x.host.value.memory && !x.host.value.memory[id]
    ensures Reaches(x, p, Ended(x, id, settled, outcome), false)
  {
    if settled {
      FinishReaches(x, p, id, outcome);
    } else {
      assert x.host.value.memory[id := false] == x.host.value.memory;
      SaveReaches(x, p, outcome);
    }
  }

  /** The record of a run ends in memory, is saved, and after a successful save the lock may go. */
  predicate EndedBy(tape: Tape, r: Registry, c: Registry, s: Registry, index: nat, run: Run)
    requires index < |r.runs|
  {
    && run.id == r.runs[index].id && run.operation == r.runs[index].operation
    && c.runs == r.runs[index := run] && c.disk.ledger == r.disk.ledger
    && s.runs == c.runs && s.pending == r.pending
    && s.disk.ledger == Persist(tape, c).registry.disk.ledger
    && Owned(s.active) == if run.Settled() && Persist(tape, c).ok then Owned(r.active) - {run.id} else Owned(r.active)
  }

  lemma EndedShows(tape: Tape, r: Registry, c: Registry, s: Registry, index: nat, run: Run)
    requires DistinctRuns(r.runs) && index < |r.runs| && EndedBy(tape, r, c, s, index, run)
    ensures PartOf(s) == Ended(PartOf(r), run.id, run.Settled(), SaveOutcome(tape, c))
  {
    ViewUpdated(r.runs, index, run);
    PersistShows(tape, c);
    ViewOfPart(r);
    ViewOfPart(s);
    assert HostView(s).reserved == HostView(r).reserved;
  }

  lemma EndingReaches(tape: Tape, r: Registry, c: Registry, s: Registry, index: nat, run: Run, p: P.Pid)
    requires DistinctRuns(r.runs) && index < |r.runs| && r.runs[index].id in Owned(r.active)
    requires EndedBy(tape, r, c, s, index, run)
    requires !run.Settled() ==> !r.runs[index].Settled()
    ensures Reaches(PartOf(r), p, PartOf(s), false)
  {
    ViewAt(r.runs, index);
    ViewOfPart(r);
    EndedShows(tape, r, c, s, index, run);
    EndReaches(PartOf(r), p, run.id, run.Settled(), SaveOutcome(tape, c));
  }

  lemma CapturedOwned(r: Registry, id: Id, e: Ending)
    requires id in r.active
    ensures var c := Capture(r, id, e);
            && Owned(c.active) == Owned(r.active) && id in c.active && c.active[id].runUse == r.active[id].runUse
            && c.runs == r.runs && c.pending == r.pending && c.disk.ledger == r.disk.ledger && c.retired == r.retired
  {
    var a := r.active[id].(finishing := true);
    SameOwned(r.active, id, a);
    SameOwned(r.active, id, a.(captured := Some(e.found)));
  }

  lemma ReleasedOwned(r: Registry, id: Id, cleanup: bool)
    requires id in r.active
    ensures Owned(Release(r, id, cleanup).active) == if cleanup then Owned(r.active) - {id} else Owned(r.active)
  {
    var a := r.active[id].(finishing := false);
    SameOwned(r.active, id, a);
    LessOwned(r.active, id, a.(lease := false, runUse := false));
  }

  lemma FinishedReaches(tape: Tape, r: Registry, id: Id, e: Ending, p: P.Pid)
    requires DistinctRuns(r.runs) && id in r.active && Has(r.runs, id) && EndingAllowed(r, id, e)
    requires r.runs[Position(r.runs, id)].Wellformed()
    ensures Reaches(PartOf(r), p, PartOf(FinishObserved(tape, r, id, e).registry), false)
  {
    var index := Position(r.runs, id);
    var c := Concluded(r, id, e);
    var captured := Capture(r, id, e).active[id].captured;
    var saved := Persist(tape, c);
    CapturedOwned(r, id, e);
    FinishedFits(r, id, captured, e);
    RegistryHistory.PersistMemory(tape, c);
    ReleasedOwned(saved.registry, id, e.cleanup);
    EndingReaches(tape, r, c, FinishObserved(tape, r, id, e).registry, index, FinishedRun(r.runs[index], captured, e), p);
  }

  lemma FinishCallReaches(tape: Tape, r: Registry, id: Id, e: Ending, p: P.Pid)
    requires Inv(r) && EndingAllowed(r, id, e)
    ensures Reaches(PartOf(r), p, PartOf(FinishObserved(tape, r, id, e).registry), false)
  {
    if id in r.active {
      RegistryHistory.OwnedIsRecorded(r, id);
      RunAt(r, Position(r.runs, id));
      FinishedReaches(tape, r, id, e, p);
    } else {
      Stays(PartOf(r), p, false);
    }
  }

  // ---------------------------------------------------------------- reservation

  /** A reserved start's identity is new already when its reservation begins. */
  predicate NewIdentity(r: Registry, call: RegistryHistory.Call) {
    call.Reserve? && Admission(r, call.q).None? ==> FreshId(r, call.q.id)
  }

  predicate Granted(call: RegistryHistory.Call) {
    call.Reserve? && call.q.lockGranted
  }

  lemma TakenShows(r: Registry, id: Id, p: P.Pid)
    requires Holding(r) && FreshId(r, id)
    ensures Reaches(PartOf(r), p, Shown(r, {id}), true)
    ensures id !in HostView(r).reserved
  {
    ViewKeys(r.runs, id);
    assert id !in HostView(r).owned;
    ReserveReaches(PartOf(r), p, id);
  }

  lemma TicketShows(r: Registry, ticket: Pending)
    ensures PartOf(r.(pending := r.pending + [ticket])) == Shown(r, {ticket.id})
  {
    var s := r.(pending := r.pending + [ticket]);
    forall id
      ensures id in HostView(s).reserved <==> id in HostView(r).reserved + {ticket.id}
    {
      if id in HostView(r).reserved {
        var i :| 0 <= i < |r.pending| && r.pending[i].id == id;
        assert s.pending[i].id == id;
      }
      assert s.pending[|r.pending|].id == ticket.id;
    }
    assert HostView(s).reserved == HostView(r).reserved + {ticket.id};
  }

  lemma GivenBack(r: Registry, id: Id, p: P.Pid)
    requires id !in HostView(r).reserved
    ensures Reaches(Shown(r, {id}), p, PartOf(r), false)
  {
    assert HostView(r).reserved + {id} - {id} == HostView(r).reserved;
    AbandonReaches(Shown(r, {id}), p, id);
  }

  /** Where a start ends that its first checks let through. */
  lemma ReservationEnds(tape: Tape, r: Registry, q: Request)
    requires Admission(r, q).None?
    ensures var s := BeginReserve(tape, r, q).registry;
            var trimmed := Trim(tape, r, q.now).registry;
            s == trimmed
            || s == trimmed.(pending := trimmed.pending + [Pending(q.id, q.operation, q.task, q.digest, q.identity, q.outputs)])
  {
  }

  lemma SamePending(r: Registry, s: Registry, id: Id)
    requires s.pending == r.pending && id !in HostView(r).reserved
    ensures id !in HostView(s).reserved
  {
  }

  lemma ReserveCallReaches(tape: Tape, r: Registry, q: Request, p: P.Pid)
    requires Inv(r) && (Admission(r, q).None? ==> FreshId(r, q.id))
    ensures Reaches(PartOf(r), p, PartOf(BeginReserve(tape, r, q).registry), q.lockGranted)
  {
    var s := BeginReserve(tape, r, q).registry;
    if Admission(r, q).Some? {
      Stays(PartOf(r), p, q.lockGranted);
    } else {
      TrimKeeps(tape, r, q.now);
      var trimmed := Trim(tape, r, q.now).registry;
      TakenShows(r, q.id, p);
      TrimReaches(tape, r, q.now, {q.id}, p);
      ReachesOn(PartOf(r), p, Shown(r, {q.id}), Shown(trimmed, {q.id}), true);
      ReservationEnds(tape, r, q);
      if s == trimmed {
        SamePending(r, trimmed, q.id);
        GivenBack(trimmed, q.id, p);
        ReachesOn(PartOf(r), p, Shown(trimmed, {q.id}), PartOf(s), true);
      } else {
        TicketShows(trimmed, Pending(q.id, q.operation, q.task, q.digest, q.identity, q.outputs));
      }
    }
  }

  /**
   Every call of a good registry is a sequence of steps of a serving host, from the view of
   the registry to the view of its successor and from the view of the ledger to its successor:
   the run-use lock is taken first, and only by a start to which it was granted.
   */
  lemma CallIsSimulated(tape: Tape, r: Registry, call: RegistryHistory.Call, p: P.Pid)
    requires Inv(r) && RegistryHistory.Enabled(tape, RegistryHistory.Up(r), call) && RegistryHistory.OfRegistry(call)
    requires NewIdentity(r, call)
    ensures Reaches(PartOf(r), p, PartOf(RegistryHistory.CallResult(tape, r, call).registry), Granted(call))
  {
    match call
    case Reserve(q) => ReserveCallReaches(tape, r, q, p);
    case Abandon(ticket) => AbandonedReaches(r, ticket, p);
    case Commit(ticket, prepared) => CommitCallReaches(tape, r, ticket, prepared, p);
    case Spawned(id) => MarkRunningReaches(tape, r, id, p);
    case CancelRun(id, timeout) => CancelReaches(tape, r, id, timeout, p);
    case Acknowledge(id) => AcknowledgementReaches(tape, r, id, p);
    case Probe(id) => ProbeReaches(r, id, p);
    case Finish(id, e) => FinishCallReaches(tape, r, id, e, p);
    case Pin(id, pinned, intact) => PinReaches(tape, r, id, pinned, intact, p);
  }
}
