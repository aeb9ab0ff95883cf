/** The installer over its prefix directory; every method follows one function of Installation. */
module InstallerPrefix {
  import opened Faults
  import opened Installation
  import opened InstallationSafety
  import opened InstallationUpdates

  class Installer {
    const tape: Tape
    const own: Version

    var state: InstallationState
    var journal: Option<Journal>
    var current: Option<Name>
    var launcher: Launcher
    var sealed: set<Generation>
    var clock: nat

    constructor (tape: Tape, own: Version, disk: Disk)
      ensures this.tape == tape && this.own == own
      ensures Snapshot(true) == Io(disk, 0, true)
    {
      this.tape, this.own := tape, own;
      state, journal, current := disk.state, disk.journal, disk.current;
      launcher, sealed, clock := disk.launcher, disk.sealed, 0;
    }

    function OnDisk(): Disk
      reads this
    {
      Disk(state, journal, current, launcher, sealed)
    }

    ghost function Snapshot(ok: bool): Io
      reads this
    {
      Io(OnDisk(), clock, ok)
    }

    method NextOutcome() returns (outcome: Outcome)
      modifies `clock
      ensures outcome == tape(old(clock)) && clock == old(clock) + 1
    {
      outcome := tape(clock);
      clock := clock + 1;
    }

    method SyncRoot() returns (ok: bool)
      modifies this
      ensures Snapshot(ok) == Sync(tape, old(Snapshot(true)))
    {
      var outcome := NextOutcome();
      ok := outcome == Done;
    }

    method SaveState(next: InstallationState) returns (ok: bool)
      modifies this
      ensures Snapshot(ok) == WriteState(tape, old(Snapshot(true)), next)
    {
      if !next.Valid() { return false; }
      var outcome := NextOutcome();
      if outcome != FailedBefore { state := next; }
      ok := outcome == Done;
    }

    method SaveJournal(next: Option<Journal>) returns (ok: bool)
      modifies this
      ensures Snapshot(ok) == Put(tape, old(Snapshot(true)), old(OnDisk()).(journal := next))
    {
      var outcome := NextOutcome();
      if outcome != FailedBefore { journal := next; }
      ok := outcome == Done;
    }

    method DropLauncher() returns (ok: bool)
      modifies this
      ensures Snapshot(ok) == RemoveLauncher(tape, old(Snapshot(true)))
    {
      if launcher == Absent { return true; }
      if launcher != Managed { return false; }
      var outcome := NextOutcome();
      if outcome != FailedBefore { launcher := Absent; }
      ok := outcome == Done;
    }

    method MakeLauncher() returns (ok: bool)
      modifies this
      ensures Snapshot(ok) == EnsureLauncher(tape, old(Snapshot(true)))
    {
      if launcher == Foreign { return false; }
      if launcher == Absent {
        var outcome := NextOutcome();
        if outcome != FailedBefore { launcher := Managed; }
        if outcome != Done { return false; }
      }
      ok := SyncRoot();
    }

    method PointCurrent(name: Option<Name>) returns (ok: bool)
      modifies this
      ensures Snapshot(ok) == SetActive(tape, old(Snapshot(true)), name)
    {
      if name.Some? || current.Some? {
        var outcome := NextOutcome();
        if outcome != FailedBefore { current := name; }
        if outcome != Done { return false; }
      }
      ok := SyncRoot();
    }

    method RestoreBefore(open: Journal) returns (ok: bool)
      modifies this
      ensures Snapshot(ok) == Restore(tape, old(Snapshot(true)), open)
    {
      if current != open.before.active && current != open.NewLink() { return false; }
      if open.before.active.Some? {
        var name := open.before.active.value;
        if name !in open.before.generations || open.before.generations[name] !in sealed { return false; }
        ok := PointCurrent(Some(name));
        if !ok { return; }
        ok := MakeLauncher();
      } else {
        ok := DropLauncher();
        if !ok { return; }
        ok := PointCurrent(None);
      }
      if !ok { return; }
      ok := SaveState(open.before);
      if !ok { return; }
      ok := SaveJournal(None);
    }

    method StageGeneration(target: Generation) returns (ok: bool)
      modifies this
      ensures Snapshot(ok) == Stage(tape, old(Snapshot(true)), target)
    {
      var before := state;
      if target.name in before.generations {
        return before.generations[target.name] == target && target in sealed;
      }
      if |before.generations| >= MAX_GENERATIONS { return false; }
      if !(exists g :: g in sealed && g.name == target.name) {
        var outcome := NextOutcome();
        if outcome != FailedBefore { sealed := sealed + {target}; }
        if outcome != Done { return false; }
      }
      if target !in sealed { return false; }
      ok := SaveState(Recorded(before, target));
    }

    method ActivateGeneration(target: Generation, activeHealthy: bool) returns (ok: bool)
      modifies this
      ensures Snapshot(ok) == Activate(tape, old(Snapshot(true)), target, activeHealthy)
    {
      var open := Journal(state, Some(target));
      ok := SaveJournal(Some(open));
      if !ok { return; }
      ok := PointCurrent(Some(target.name));
      if !ok { return; }
      ok := MakeLauncher();
      if !ok { return; }
      if !activeHealthy {
        var restored := RestoreBefore(open);
        return false;
      }
      ok := SaveState(open.Committed());
      if !ok { return; }
      ok := SaveJournal(None);
    }

    method InstallBundle(target: Generation, healthy: bool, activeHealthy: bool) returns (ok: bool)
      modifies this
      ensures Snapshot(ok) == Install(tape, old(Snapshot(true)), own, target, healthy, activeHealthy)
      ensures old(Consistent(OnDisk())) ==>
        Consistent(OnDisk()) && Grown(old(state), state) && (ok ==> state.active == Some(target.name))
      ensures !healthy ==> !ok && SameInstallation(old(OnDisk()), OnDisk())
    {
      if !healthy {
        UnhealthyStagedIsRefused(tape, Snapshot(true), own, target, activeHealthy);
      }
      if Consistent(OnDisk()) {
        InstallKeepsConsistent(tape, Snapshot(true), own, target, healthy, activeHealthy);
      }
      if !Admitted(OnDisk(), own, target) { return false; }
      ok := StageGeneration(target);
      if !ok || !healthy { return false; }
      if state.active == Some(target.name) { return true; }
      ok := ActivateGeneration(target, activeHealthy);
    }

    method UninstallEntrypoints() returns (ok: bool)
      modifies this
      ensures Snapshot(ok) == Uninstall(tape, old(Snapshot(true)))
      ensures old(Consistent(OnDisk())) ==>
        Consistent(OnDisk()) && Grown(old(state), state) && (ok ==> state.active.None?)
    {
      if Consistent(OnDisk()) {
        UninstallKeepsConsistent(tape, Snapshot(true));
      }
      if journal.Some? || !state.Valid() || !LinksMatch(OnDisk(), state) { return false; }
      var open := Journal(state, None);
      ok := SaveJournal(Some(open));
      if !ok { return; }
      ok := DropLauncher();
      if !ok { return; }
      ok := PointCurrent(None);
      if !ok { return; }
      ok := SaveState(open.Committed());
      if !ok { return; }
      ok := SaveJournal(None);
    }

    method RecoverInstallation() returns (ok: bool)
      modifies this
      ensures Snapshot(ok) == Recover(tape, old(Snapshot(true)))
      ensures old(Consistent(OnDisk())) ==>
        Consistent(OnDisk()) && state == old(state) && (ok ==> Steady(OnDisk()))
    {
      if Consistent(OnDisk()) {
        RecoverKeepsConsistent(tape, Snapshot(true));
      }
      if !state.Valid() { return false; }
      if journal.None? { return LinksMatch(OnDisk(), state); }
      ok := FollowJournal(journal.value);
    }

    /** The journal's transition is finished when its state was committed, and undone otherwise. */
    method FollowJournal(open: Journal) returns (ok: bool)
      requires journal == Some(open) && state.Valid()
      modifies this
      ensures Snapshot(ok) == Recover(tape, old(Snapshot(true)))
    {
      if !open.Valid() || !open.Committed().Valid() {
        RestoreRefused(tape, Snapshot(false), open);
        return false;
      }
      if state == open.Committed() {
        ok := FinishCommitted(open);
      } else {
        ok := UndoUncommitted(open);
      }
    }

    method FinishCommitted(open: Journal) returns (ok: bool)
      modifies this
      ensures Snapshot(ok) == RemoveJournal(tape, Need(old(Snapshot(true)),
        (open.target.Some? ==> open.target.value in old(sealed)) && LinksMatch(old(OnDisk()), old(state))))
    {
      if open.target.Some? && open.target.value !in sealed { return false; }
      if !LinksMatch(OnDisk(), state) { return false; }
      ok := SaveJournal(None);
    }

    method UndoUncommitted(open: Journal) returns (ok: bool)
      modifies this
      ensures Snapshot(ok) == Restore(tape, Need(old(Snapshot(true)), old(state) == open.before), open)
    {
      if state != open.before {
        RestoreRefused(tape, Snapshot(false), open);
        return false;
      }
      ok := RestoreBefore(open);
    }
  }

  lemma RestoreRefused(tape: Tape, io: Io, open: Journal)
    requires !io.ok
    ensures Restore(tape, io, open) == io
  {
  }
}
