/** Crash atomicity and version monotonicity of the installation. */
module InstallationSafety {
  import opened Faults
  import opened Installation

  // ---------------------------------------------------------------- steps inside a transition

  /** The journal `j` is open and its state has not been committed. */
  predicate Underway(d: Disk, j: Journal) {
    && d.journal == Some(j)
    && Openable(d, j)
    && d.state == j.before != j.Committed()
    && (d.current == j.before.active || d.current == j.NewLink())
    && d.launcher != Foreign
  }

  /** A running transition: whatever happened, recovery still applies to the disk. */
  predicate Running(io: Io, j: Journal) {
    Consistent(io.disk) && (io.ok ==> Underway(io.disk, j))
  }

  lemma UnderwayIsConsistent(d: Disk, j: Journal)
    requires Underway(d, j)
    ensures Consistent(d)
  {
  }

  lemma OtherLinks(d: Disk, j: Journal, current: Option<Name>, launcher: Launcher)
    requires Underway(d, j)
    requires current == j.before.active || current == j.NewLink()
    requires launcher != Foreign
    ensures Underway(d.(current := current, launcher := launcher), j)
    ensures Consistent(d.(current := current, launcher := launcher))
  {
    var e := d.(current := current, launcher := launcher);
    assert AllSealed(e, j.before);
  }

  lemma SetActiveRuns(tape: Tape, io: Io, j: Journal, name: Option<Name>)
    requires Running(io, j)
    requires name == j.before.active || name == j.NewLink()
    ensures var r := SetActive(tape, io, name);
            && Running(r, j)
            && r.disk.state == io.disk.state
            && (r.ok ==> r.disk == io.disk.(current := name))
  {
    if io.ok {
      OtherLinks(io.disk, j, name, io.disk.launcher);
    }
  }

  lemma EnsureLauncherRuns(tape: Tape, io: Io, j: Journal)
    requires Running(io, j)
    ensures var r := EnsureLauncher(tape, io);
            && Running(r, j)
            && r.disk.state == io.disk.state
            && (r.ok ==> r.disk == io.disk.(launcher := Managed))
  {
    if io.ok {
      OtherLinks(io.disk, j, io.disk.current, Managed);
    }
  }

  lemma RemoveLauncherRuns(tape: Tape, io: Io, j: Journal)
    requires Running(io, j)
    ensures var r := RemoveLauncher(tape, io);
            && Running(r, j)
            && r.disk.state == io.disk.state
            && (r.ok ==> r.disk == io.disk.(launcher := Absent))
  {
    if io.ok {
      OtherLinks(io.disk, j, io.disk.current, Absent);
    }
  }

  /** The links of a restored transition, before the journal goes. */
  function Relinked(tape: Tape, io: Io, j: Journal): Io {
    if j.before.active.Some? then EnsureLauncher(tape, SetActive(tape, io, j.before.active))
    else SetActive(tape, RemoveLauncher(tape, io), None)
  }

  lemma RelinkedRuns(tape: Tape, io: Io, j: Journal)
    requires Running(io, j)
    ensures var r := Relinked(tape, io, j);
            && Running(r, j)
            && r.disk.state == io.disk.state
            && (r.ok ==> LinksMatch(r.disk, j.before) && r.disk.sealed == io.disk.sealed)
  {
    if j.before.active.Some? {
      SetActiveRuns(tape, io, j, j.before.active);
      EnsureLauncherRuns(tape, SetActive(tape, io, j.before.active), j);
    } else {
      RemoveLauncherRuns(tape, io, j);
      SetActiveRuns(tape, RemoveLauncher(tape, io), j, None);
    }
  }

  lemma RestoreRelinks(tape: Tape, io: Io, j: Journal)
    requires Running(io, j)
    ensures Restore(tape, io, j) == RemoveJournal(tape, WriteState(tape, Relinked(tape, io, j), j.before))
  {
  }

  lemma ClosingIsSteady(d: Disk, j: Journal)
    requires Underway(d, j) && LinksMatch(d, j.before)
    ensures Steady(d.(journal := None))
  {
    assert AllSealed(d.(journal := None), j.before);
  }

  lemma RewriteIsHarmless(tape: Tape, io: Io, j: Journal)
    requires Running(io, j)
    ensures var r := WriteState(tape, io, j.before);
            Running(r, j) && r.disk == io.disk && (r.ok ==> io.ok)
  {
    if io.ok {
      assert io.disk.(state := j.before) == io.disk;
    }
  }

  lemma RestoreKeepsConsistent(tape: Tape, io: Io, j: Journal)
    requires Running(io, j)
    ensures var r := Restore(tape, io, j);
            && Consistent(r.disk)
            && r.disk.state == io.disk.state
            && (r.ok ==> Steady(r.disk) && r.disk.state == j.before)
  {
    RestoreRelinks(tape, io, j);
    RelinkedRuns(tape, io, j);
    var linked := Relinked(tape, io, j);
    RewriteIsHarmless(tape, linked, j);
    var written := WriteState(tape, linked, j.before);
    if written.ok {
      ClosingIsSteady(written.disk, j);
    }
  }

  // ---------------------------------------------------------------- growth

  /** No generation is forgotten and the version floor does not sink. */
  predicate Grown(a: InstallationState, b: InstallationState) {
    && (forall name :: name in a.generations ==> name in b.generations && b.generations[name] == a.generations[name])
    && (a.floor.Some? ==> b.floor.Some? && a.floor.value.AtMost(b.floor.value))
  }

  lemma GrownTransitive(a: InstallationState, b: InstallationState, c: InstallationState)
    requires Grown(a, b) && Grown(b, c)
    ensures Grown(a, c)
  {
  }

  lemma CommitGrows(state: InstallationState, target: Option<Generation>)
    ensures Grown(state, state.Commit(target))
  {
  }

  // ---------------------------------------------------------------- whole operations

  lemma CommitIsSound(d: Disk, j: Journal)
    requires Openable(d, j)
    ensures Sound(d, j.Committed())
  {
    var before, after := j.before, j.Committed();
    if j.target.Some? {
      var target := j.target.value;
      assert after.generations[target.name].version == target.version;
      if after.floor == before.floor && before.floor.Some? {
        AtMostAntisymmetric(before.floor.value, target.version);
      }
    }
  }

  lemma AtMostAntisymmetric(a: Version, b: Version)
    ensures a.AtMost(b) && b.AtMost(a) ==> a == b
  {
  }

  /** The end of a transition whose links already match the committed state. */
  lemma FinishKeepsConsistent(tape: Tape, io: Io, j: Journal)
    requires Consistent(io.disk)
    requires io.ok ==>
      && io.disk.journal == Some(j) && Openable(io.disk, j) && LinksMatch(io.disk, j.Committed())
      && (io.disk.state == j.before || io.disk.state == j.Committed())
    ensures var r := RemoveJournal(tape, WriteState(tape, io, j.Committed()));
            && Consistent(r.disk)
            && (r.disk.state == io.disk.state || r.disk.state == j.Committed())
            && (r.ok ==> Steady(r.disk) && r.disk.state == j.Committed())
  {
    if io.ok {
      CommitIsSound(io.disk, j);
      WrittenIsPending(io.disk, j);
      ClosingCommitted(io.disk.(state := j.Committed()), j);
    }
  }

  /** The committed state may be written while the journal is open. */
  lemma WrittenIsPending(d: Disk, j: Journal)
    requires d.journal == Some(j) && Openable(d, j) && Sound(d, j.Committed()) && LinksMatch(d, j.Committed())
    ensures Consistent(d.(state := j.Committed()))
    ensures Sound(d.(state := j.Committed()), j.Committed())
  {
    var written := d.(state := j.Committed());
    assert AllSealed(written, j.before) && AllSealed(written, j.Committed());
    assert Openable(written, j);
  }

  lemma OpeningIsConsistent(d: Disk, j: Journal)
    requires Steady(d) && d.state == j.before
    requires Openable(d, j)
    ensures Openable(d.(journal := Some(j)), j)
    ensures Consistent(d.(journal := Some(j)))
    ensures j.before != j.Committed() ==> Underway(d.(journal := Some(j)), j)
  {
    assert AllSealed(d.(journal := Some(j)), j.before);
  }

  lemma UninstallKeepsConsistent(tape: Tape, io: Io)
    requires Consistent(io.disk)
    ensures var r := Uninstall(tape, io);
            && Consistent(r.disk)
            && Grown(io.disk.state, r.disk.state)
            && (r.ok ==> Steady(r.disk) && r.disk.state == io.disk.state.Commit(None))
  {
    if io.ok && io.disk.journal.None? {
      UninstallFinishes(tape, io);
    }
  }

  lemma UninstallOpens(tape: Tape, io: Io)
    requires io.ok && Steady(io.disk)
    ensures var j := Journal(io.disk.state, None);
            var begun := Put(tape, io, io.disk.(journal := Some(j)));
            && Openable(io.disk, j) && Consistent(begun.disk) && begun.disk.state == io.disk.state
            && (begun.ok ==> begun.disk == io.disk.(journal := Some(j)) && Openable(begun.disk, j))
            && (j.before != j.Committed() ==> Running(begun, j))
  {
    OpeningIsConsistent(io.disk, Journal(io.disk.state, None));
  }

  lemma UninstallFinishes(tape: Tape, io: Io)
    requires io.ok && Steady(io.disk)
    ensures var r := Uninstall(tape, io);
            && Consistent(r.disk)
            && Grown(io.disk.state, r.disk.state)
            && (r.ok ==> Steady(r.disk) && r.disk.state == io.disk.state.Commit(None))
  {
    var j := Journal(io.disk.state, None);
    CommitGrows(io.disk.state, None);
    UninstallOpens(tape, io);
    var begun := Put(tape, io, io.disk.(journal := Some(j)));
    if j.before != j.Committed() {
      UnlinkingRuns(tape, begun, j);
    }
    FinishKeepsConsistent(tape, SetActive(tape, RemoveLauncher(tape, begun), None), j);
  }

  /** The links of an uninstallation go one after the other. */
  lemma UnlinkingRuns(tape: Tape, io: Io, j: Journal)
    requires Running(io, j) && j.target.None?
    ensures var r := SetActive(tape, RemoveLauncher(tape, io), None);
            && Running(r, j) && r.disk.state == io.disk.state
            && (r.ok ==> r.disk == io.disk.(launcher := Absent, current := None))
  {
    RemoveLauncherRuns(tape, io, j);
    SetActiveRuns(tape, RemoveLauncher(tape, io), j, None);
  }

  lemma RecoverKeepsConsistent(tape: Tape, io: Io)
    requires Consistent(io.disk)
    ensures var r := Recover(tape, io);
            && Consistent(r.disk)
            && r.disk.state == io.disk.state
            && (r.ok ==> Steady(r.disk))
  {
    if io.ok && io.disk.journal.Some? {
      var j := io.disk.journal.value;
      CommitIsSound(io.disk, j);
      if io.disk.state == j.Committed() {
        ClosingCommitted(io.disk, j);
      } else {
        UndoneKeepsConsistent(tape, io, j);
      }
    }
  }

  /** A committed transition with its links in place may be closed. */
  lemma ClosingCommitted(d: Disk, j: Journal)
    requires Sound(d, j.Committed()) && d.state == j.Committed() && LinksMatch(d, d.state)
    ensures Steady(d.(journal := None))
  {
    assert AllSealed(d.(journal := None), j.Committed());
  }

  lemma UndoneKeepsConsistent(tape: Tape, io: Io, j: Journal)
    requires io.ok && Consistent(io.disk) && io.disk.journal == Some(j) && io.disk.state != j.Committed()
    ensures var r := Restore(tape, Need(io, io.disk.state == j.before), j);
            && Consistent(r.disk)
            && r.disk.state == io.disk.state
            && (r.ok ==> Steady(r.disk))
  {
    assert Need(io, io.disk.state == j.before) == io;
    RestoreKeepsConsistent(tape, io, j);
  }

  predicate InInventory(state: InstallationState, target: Generation) {
    target.Valid() && target.name in state.generations && state.generations[target.name] == target
  }

  lemma RecordingIsValid(state: InstallationState, target: Generation)
    requires state.Valid() && target.Valid()
    requires target.name !in state.generations && |state.generations| < MAX_GENERATIONS
    ensures Recorded(state, target).Valid()
  {
    var next := Recorded(state, target);
    assert next.generations.Keys == state.generations.Keys + {target.name};
    assert |next.generations| == |next.generations.Keys|;
    if state.floor.Some? {
      var name :| name in state.generations && state.generations[name].version == state.floor.value;
      assert name in next.generations && next.generations[name].version == state.floor.value;
    }
  }

  lemma RecordingIsSteady(d: Disk, target: Generation)
    requires Steady(d) && target.Valid() && target in d.sealed
    requires target.name !in d.state.generations && |d.state.generations| < MAX_GENERATIONS
    ensures Steady(d.(state := Recorded(d.state, target)))
  {
    RecordingIsValid(d.state, target);
    var e := d.(state := Recorded(d.state, target));
    assert AllSealed(e, e.state);
    assert FloorIsActive(e.state);
  }

  lemma SealKeepsSteady(tape: Tape, io: Io, target: Generation)
    requires Steady(io.disk)
    ensures var r := Seal(tape, io, target);
            && Steady(r.disk) && r.disk.state == io.disk.state
            && (r.ok ==> io.ok && target in r.disk.sealed)
  {
    var sealed := io.disk.(sealed := io.disk.sealed + {target});
    assert AllSealed(sealed, sealed.state);
    assert Steady(sealed);
  }

  lemma StageKeepsConsistent(tape: Tape, io: Io, target: Generation)
    requires Steady(io.disk) && target.Valid()
    ensures var r := Stage(tape, io, target);
            && Steady(r.disk)
            && (r.ok ==> io.ok && InInventory(r.disk.state, target))
            && (r.disk.state == io.disk.state || r.disk.state == Recorded(io.disk.state, target))
  {
    var state := io.disk.state;
    if target.name !in state.generations {
      var room := Need(io, |state.generations| < MAX_GENERATIONS);
      SealKeepsSteady(tape, room, target);
      var sealed := Seal(tape, room, target);
      if sealed.ok {
        RecordingIsSteady(sealed.disk, target);
        assert InInventory(Recorded(state, target), target);
      }
    }
  }

  /** The links of an activation move one after the other. */
  lemma LinkingRuns(tape: Tape, io: Io, j: Journal)
    requires Running(io, j) && j.target.Some?
    ensures var r := EnsureLauncher(tape, SetActive(tape, io, Some(j.target.value.name)));
            && Running(r, j) && r.disk.state == io.disk.state
            && (r.ok ==> r.disk == io.disk.(current := Some(j.target.value.name), launcher := Managed))
  {
    SetActiveRuns(tape, io, j, Some(j.target.value.name));
    EnsureLauncherRuns(tape, SetActive(tape, io, Some(j.target.value.name)), j);
  }

  /** The journal of an activation is written first. */
  lemma ActivationOpens(tape: Tape, io: Io, target: Generation)
    requires io.ok && Steady(io.disk) && InInventory(io.disk.state, target)
    requires io.disk.state.active != Some(target.name)
    requires io.disk.state.floor.Some? ==> io.disk.state.floor.value.AtMost(target.version)
    ensures var j := Journal(io.disk.state, Some(target));
            var begun := Put(tape, io, io.disk.(journal := Some(j)));
            Openable(io.disk, j) && Running(begun, j) && begun.disk.state == io.disk.state
  {
    var j := Journal(io.disk.state, Some(target));
    assert Openable(io.disk, j);
    OpeningIsConsistent(io.disk, j);
  }

  lemma ActivateKeepsConsistent(tape: Tape, io: Io, target: Generation, activeHealthy: bool)
    requires io.ok && Steady(io.disk) && InInventory(io.disk.state, target)
    requires io.disk.state.active != Some(target.name)
    requires io.disk.state.floor.Some? ==> io.disk.state.floor.value.AtMost(target.version)
    ensures var r := Activate(tape, io, target, activeHealthy);
            && Consistent(r.disk)
            && Grown(io.disk.state, r.disk.state)
            && (r.ok ==> Steady(r.disk) && r.disk.state == io.disk.state.Commit(Some(target)))
  {
    CommitGrows(io.disk.state, Some(target));
    var j := Journal(io.disk.state, Some(target));
    ActivationOpens(tape, io, target);
    var begun := Put(tape, io, io.disk.(journal := Some(j)));
    LinkingRuns(tape, begun, j);
    var linked := EnsureLauncher(tape, SetActive(tape, begun, Some(target.name)));
    if linked.ok && !activeHealthy {
      RestoreKeepsConsistent(tape, linked, j);
    } else {
      FinishKeepsConsistent(tape, linked, j);
    }
  }

  lemma InstallKeepsConsistent(
      tape: Tape, io: Io, own: Version, target: Generation, healthy: bool, activeHealthy: bool)
    requires Consistent(io.disk)
    ensures var r := Install(tape, io, own, target, healthy, activeHealthy);
            && Consistent(r.disk)
            && Grown(io.disk.state, r.disk.state)
            && (r.ok ==> Steady(r.disk) && r.disk.state.active == Some(target.name))
  {
    if io.ok && Admitted(io.disk, own, target) {
      StageKeepsConsistent(tape, io, target);
      var staged := Need(Stage(tape, io, target), healthy);
      if staged.ok && staged.disk.state.active != Some(target.name) {
        ActivateKeepsConsistent(tape, staged, target, activeHealthy);
        GrownTransitive(io.disk.state, staged.disk.state, Activate(tape, staged, target, activeHealthy).disk.state);
      }
    }
  }

  // ---------------------------------------------------------------- finishing after a crash

  lemma QuietRestore(tape: Tape, io: Io, j: Journal)
    requires io.ok && Underway(io.disk, j) && QuietFrom(tape, io.clock)
    ensures var r := Restore(tape, io, j); r.ok && Steady(r.disk) && r.disk.state == j.before
  {
    UnderwayIsConsistent(io.disk, j);
    RestoreKeepsConsistent(tape, io, j);
    RestoreRelinks(tape, io, j);
    RelinkedRuns(tape, io, j);
  }

  /**
   Recovery succeeds from every reachable disk once the disk stops failing, and ends in
   the state that the review announced: the committed successor or the one before.
   */
  lemma RecoverFinishes(tape: Tape, d: Disk, clock: nat)
    requires Consistent(d) && QuietFrom(tape, clock)
    ensures var r := Recover(tape, Io(d, clock, true));
            && r.ok
            && Steady(r.disk)
            && r.disk.sealed == d.sealed
            && (d.journal.None? ==>
                  r.disk == d && ReviewRecovery(d) == Some(Review(false, false, r.disk.state.active)))
            && (d.journal.Some? ==>
                  var j := d.journal.value;
                  var finish := d.state == j.Committed();
                  && r.disk.state == (if finish then j.Committed() else j.before)
                  && ReviewRecovery(d) == Some(Review(true, finish, r.disk.state.active)))
  {
    var io := Io(d, clock, true);
    RecoverKeepsConsistent(tape, io);
    if d.journal.Some? {
      var j := d.journal.value;
      CommitIsSound(d, j);
      if d.state != j.Committed() {
        QuietRestore(tape, io, j);
        RestoreSeals(tape, io, j);
      }
    }
  }

  lemma RestoreSeals(tape: Tape, io: Io, j: Journal)
    ensures Restore(tape, io, j).disk.sealed == io.disk.sealed
  {
  }

  /** A failed health check of the activated binary puts the previous installation back. */
  lemma UnhealthyActivationIsUndone(tape: Tape, io: Io, target: Generation)
    requires io.ok && Steady(io.disk) && InInventory(io.disk.state, target) && QuietFrom(tape, io.clock)
    requires io.disk.state.active != Some(target.name)
    requires io.disk.state.floor.Some? ==> io.disk.state.floor.value.AtMost(target.version)
    ensures var r := Activate(tape, io, target, false);
            !r.ok && Steady(r.disk) && r.disk.state == io.disk.state
            && r.disk.current == io.disk.current && r.disk.launcher == io.disk.launcher
  {
    var j := Journal(io.disk.state, Some(target));
    assert Openable(io.disk, j);
    OpeningIsConsistent(io.disk, j);
    var begun := Put(tape, io, io.disk.(journal := Some(j)));
    SetActiveRuns(tape, begun, j, Some(target.name));
    var moved := SetActive(tape, begun, Some(target.name));
    EnsureLauncherRuns(tape, moved, j);
    QuietRestore(tape, EnsureLauncher(tape, moved), j);
  }

  // ---------------------------------------------------------------- histories

  /** Each install is done by a bundle of some version of its own. */
  datatype Call =
    | InstallCall(own: Version, target: Generation, healthy: bool, activeHealthy: bool)
    | UninstallCall
    | RecoverCall

  function Do(tape: Tape, d: Disk, clock: nat, call: Call): Io {
    var io := Io(d, clock, true);
    match call
    case InstallCall(own, target, healthy, activeHealthy) => Install(tape, io, own, target, healthy, activeHealthy)
    case UninstallCall => Uninstall(tape, io)
    case RecoverCall => Recover(tape, io)
  }

  /** The disk after a history of calls, each of which the tape may interrupt at any step. */
  function History(tape: Tape, d: Disk, clock: nat, calls: seq<Call>): Io
    decreases |calls|
  {
    if calls == [] then Io(d, clock, true)
    else
      var first := Do(tape, d, clock, calls[0]);
      History(tape, first.disk, first.clock, calls[1..])
  }

  const EMPTY_DISK := Disk(EMPTY_STATE, None, None, Absent, {})

  lemma {:induction false} HistoryKeepsConsistent(tape: Tape, d: Disk, clock: nat, calls: seq<Call>)
    requires Consistent(d)
    ensures var r := History(tape, d, clock, calls);
            Consistent(r.disk) && Grown(d.state, r.disk.state)
    decreases |calls|
  {
    if calls != [] {
      var io := Io(d, clock, true);
      var first := Do(tape, d, clock, calls[0]);
      match calls[0] {
        case InstallCall(own, target, healthy, activeHealthy) =>
          InstallKeepsConsistent(tape, io, own, target, healthy, activeHealthy);
        case UninstallCall => UninstallKeepsConsistent(tape, io);
        case RecoverCall => RecoverKeepsConsistent(tape, io);
      }
      HistoryKeepsConsistent(tape, first.disk, first.clock, calls[1..]);
      GrownTransitive(d.state, first.disk.state, History(tape, d, clock, calls).disk.state);
    }
  }

  /** The entrypoint never names an unknown generation or one below the committed floor. */
  lemma EntrypointRespectsFloor(d: Disk)
    requires Consistent(d) && d.current.Some?
    ensures d.current.value in d.state.generations
    ensures d.state.generations[d.current.value] in d.sealed
    ensures d.state.floor.Some? ==> d.state.floor.value.AtMost(d.state.generations[d.current.value].version)
    ensures d.journal.None? ==> d.state.floor == Some(d.state.generations[d.current.value].version)
  {
    if d.journal.Some? {
      CommitIsSound(d, d.journal.value);
    }
  }

  /**
   The main result over every history from an empty prefix: after any number of
   interrupted calls the entrypoint respects the floor of that moment and of every
   earlier moment, nothing sealed was lost, and a quiet recovery finishes.
   */
  lemma EveryHistoryRecovers(tape: Tape, quiet: Tape, calls: seq<Call>, later: seq<Call>)
    requires QuietFrom(quiet, 0)
    ensures
      var first := History(tape, EMPTY_DISK, 0, calls);
      var second := History(tape, first.disk, first.clock, later);
      var recovered := Recover(quiet, Io(second.disk, 0, true));
      && Grown(first.disk.state, second.disk.state)
      && recovered.ok && Steady(recovered.disk) && recovered.disk.state == second.disk.state
      && (second.disk.current.Some? && first.disk.state.floor.Some? ==>
            && second.disk.current.value in second.disk.state.generations
            && first.disk.state.floor.value.AtMost(second.disk.state.generations[second.disk.current.value].version))
  {
    var first := History(tape, EMPTY_DISK, 0, calls);
    var second := History(tape, first.disk, first.clock, later);
    assert Steady(EMPTY_DISK);
    HistoryKeepsConsistent(tape, EMPTY_DISK, 0, calls);
    HistoryKeepsConsistent(tape, first.disk, first.clock, later);
    RecoverFinishes(quiet, second.disk, 0);
    RecoverKeepsConsistent(quiet, Io(second.disk, 0, true));
    if second.disk.current.Some? {
      EntrypointRespectsFloor(second.disk);
    }
  }
}
