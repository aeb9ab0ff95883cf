/** When an update goes through, and what an update that does not go through leaves alone (install.rs). */
module InstallationUpdates {
  import opened Faults
  import opened Installation
  import opened InstallationSafety

  /** Which binary runs, and what a next update is compared with, is as before. */
  predicate SameInstallation(a: Disk, b: Disk) {
    && b.state.active == a.state.active && b.state.floor == a.state.floor
    && b.current == a.current && b.launcher == a.launcher && b.journal == a.journal
  }

  lemma SealTouchesDirectories(tape: Tape, io: Io, target: Generation)
    ensures var r := Seal(tape, io, target).disk;
            r == io.disk.(sealed := r.sealed) && io.disk.sealed <= r.sealed
  {
  }

  lemma StageTouchesInventory(tape: Tape, io: Io, target: Generation)
    ensures SameInstallation(io.disk, Stage(tape, io, target).disk)
    ensures io.disk.sealed <= Stage(tape, io, target).disk.sealed
  {
    SealTouchesDirectories(tape, Need(io, |io.disk.state.generations| < MAX_GENERATIONS), target);
  }

  /**
   A staged binary that reports bad health is never activated: on every disk, and wherever the
   disk fails, the update is refused and the installation stays as it was.
   */
  lemma UnhealthyStagedIsRefused(tape: Tape, io: Io, own: Version, target: Generation, activeHealthy: bool)
    ensures var r := Install(tape, io, own, target, false, activeHealthy);
            !r.ok && SameInstallation(io.disk, r.disk)
  {
    StageTouchesInventory(tape, Need(io, io.ok && Admitted(io.disk, own, target)), target);
  }

  /** A downgrade changes nothing at all, and neither does an update over an open journal or wrong links. */
  lemma DowngradeChangesNothing(
      tape: Tape, io: Io, own: Version, target: Generation, healthy: bool, activeHealthy: bool)
    requires
      || !own.AtMost(target.version)
      || (io.disk.state.floor.Some? && !io.disk.state.floor.value.AtMost(target.version))
      || (&& io.disk.state.active.Some? && io.disk.state.active.value in io.disk.state.generations
          && !io.disk.state.generations[io.disk.state.active.value].version.AtMost(target.version))
      || io.disk.journal.Some? || !LinksMatch(io.disk, io.disk.state)
    ensures Install(tape, io, own, target, healthy, activeHealthy) == io.(ok := false)
  {
  }

  // ---------------------------------------------------------------- a disk that takes every step

  /** The target is known as it is, or there is room for it and its directory is free or holds it. */
  predicate Stageable(d: Disk, target: Generation) {
    if target.name in d.state.generations then d.state.generations[target.name] == target
    else
      && |d.state.generations| < 128
      && (target in d.sealed || forall g :: g in d.sealed ==> g.name != target.name)
  }

  /** Neither the running bundle, nor the floor, nor the active version is above the target. */
  predicate NotBelow(d: Disk, own: Version, target: Generation) {
    && own.AtMost(target.version)
    && (d.state.floor.Some? ==> d.state.floor.value.AtMost(target.version))
    && (d.state.active.Some? && d.state.active.value in d.state.generations ==>
          d.state.generations[d.state.active.value].version.AtMost(target.version))
  }

  lemma AdmittedIff(d: Disk, own: Version, target: Generation)
    requires Steady(d)
    ensures Admitted(d, own, target) <==> target.Valid() && NotBelow(d, own, target)
  {
  }

  lemma SealGoesThroughIff(tape: Tape, io: Io, target: Generation)
    requires io.ok && tape(io.clock) == Done
    ensures Seal(tape, io, target).ok <==> target in io.disk.sealed || forall g :: g in io.disk.sealed ==> g.name != target.name
    ensures Seal(tape, io, target).ok ==> Seal(tape, io, target).disk.sealed == io.disk.sealed + {target}
    ensures Seal(tape, io, target).clock >= io.clock
  {
    if target in io.disk.sealed {
      assert io.disk.sealed + {target} == io.disk.sealed;
    }
  }

  lemma StageGoesThroughIff(tape: Tape, io: Io, target: Generation)
    requires io.ok && Steady(io.disk) && target.Valid() && QuietFrom(tape, io.clock)
    ensures var r := Stage(tape, io, target);
            && (r.ok <==> Stageable(io.disk, target))
            && (r.ok ==> r.disk.state.generations == io.disk.state.generations[target.name := target])
            && r.clock >= io.clock
  {
    var state := io.disk.state;
    if target.name in state.generations {
      assert AllSealed(io.disk, state);
      if state.generations[target.name] == target {
        assert state.generations[target.name := target] == state.generations;
      }
    } else {
      var room := Need(io, |state.generations| < MAX_GENERATIONS);
      if room.ok {
        SealGoesThroughIff(tape, room, target);
        SealTouchesDirectories(tape, room, target);
        RecordingIsValid(state, target);
      }
    }
  }

  lemma ActivationGoesThrough(tape: Tape, io: Io, target: Generation)
    requires io.ok && Steady(io.disk) && InInventory(io.disk.state, target) && QuietFrom(tape, io.clock)
    requires io.disk.state.active != Some(target.name)
    requires io.disk.state.floor.Some? ==> io.disk.state.floor.value.AtMost(target.version)
    ensures Activate(tape, io, target, true).ok
  {
    var j := Journal(io.disk.state, Some(target));
    ActivationOpens(tape, io, target);
    var begun := Put(tape, io, io.disk.(journal := Some(j)));
    LinkingRuns(tape, begun, j);
    CommitIsSound(io.disk, j);
  }

  /**
   On a steady disk without faults an update goes through exactly when the target is well-formed, not below the
   running bundle, the floor and the active version, can be staged, and reports good health before and after its
   activation; the second report counts only when the target is not active yet.
   */
  lemma InstallGoesThroughIff(
      tape: Tape, io: Io, own: Version, target: Generation, healthy: bool, activeHealthy: bool)
    requires io.ok && Steady(io.disk) && QuietFrom(tape, io.clock)
    ensures var d := io.disk;
            Install(tape, io, own, target, healthy, activeHealthy).ok <==>
              (&& target.Valid() && NotBelow(d, own, target) && Stageable(d, target)
               && healthy && (activeHealthy || d.state.active == Some(target.name)))
  {
    AdmittedIff(io.disk, own, target);
    if target.Valid() && NotBelow(io.disk, own, target) {
      StageGoesThroughIff(tape, io, target);
      StageKeepsConsistent(tape, io, target);
      StageTouchesInventory(tape, io, target);
      var staged := Stage(tape, io, target);
      if staged.ok && staged.disk.state.active != Some(target.name) {
        ActivationGoesThrough(tape, staged, target);
        UnhealthyActivationIsUndone(tape, staged, target);
      }
    }
  }

  /** What a successful update leaves: the target is active, recorded, linked and the new floor. */
  lemma InstallActivates(
      tape: Tape, io: Io, own: Version, target: Generation, healthy: bool, activeHealthy: bool)
    requires io.ok && Steady(io.disk) && Install(tape, io, own, target, healthy, activeHealthy).ok
    ensures var r := Install(tape, io, own, target, healthy, activeHealthy).disk;
            && healthy
            && r.state.active == Some(target.name) && r.state.floor == Some(target.version)
            && r.state.generations == io.disk.state.generations[target.name := target]
            && r.current == Some(target.name) && r.launcher == Managed && r.journal == None
  {
    InstallKeepsConsistent(tape, io, own, target, healthy, activeHealthy);
    StageKeepsConsistent(tape, io, target);
    StageTouchesInventory(tape, io, target);
    StageRecords(tape, io, target);
    var staged := Stage(tape, io, target);
    if staged.disk.state.active != Some(target.name) {
      ActivateKeepsConsistent(tape, staged, target, activeHealthy);
    }
  }

  lemma StageRecords(tape: Tape, io: Io, target: Generation)
    requires Stage(tape, io, target).ok
    ensures Stage(tape, io, target).disk.state.generations == io.disk.state.generations[target.name := target]
  {
    SealTouchesDirectories(tape, Need(io, |io.disk.state.generations| < MAX_GENERATIONS), target);
  }

  /** On a disk without faults a refused update leaves the installation as it was. */
  lemma RefusedInstallIsUndone(
      tape: Tape, io: Io, own: Version, target: Generation, healthy: bool, activeHealthy: bool)
    requires io.ok && Steady(io.disk) && QuietFrom(tape, io.clock)
    requires !Install(tape, io, own, target, healthy, activeHealthy).ok
    ensures SameInstallation(io.disk, Install(tape, io, own, target, healthy, activeHealthy).disk)
  {
    AdmittedIff(io.disk, own, target);
    if target.Valid() && NotBelow(io.disk, own, target) {
      StageGoesThroughIff(tape, io, target);
      StageKeepsConsistent(tape, io, target);
      StageTouchesInventory(tape, io, target);
      var staged := Stage(tape, io, target);
      if staged.ok && healthy && staged.disk.state.active != Some(target.name) {
        ActivationGoesThrough(tape, staged, target);
        UnhealthyActivationIsUndone(tape, staged, target);
      }
    }
  }

  /** On a steady disk without faults the removal always goes through; the floor and every generation stay. */
  lemma UninstallGoesThrough(tape: Tape, io: Io)
    requires io.ok && Steady(io.disk) && QuietFrom(tape, io.clock)
    ensures var r := Uninstall(tape, io);
            && r.ok && r.disk.state.active == None && r.disk.current == None && r.disk.launcher == Absent
            && r.disk.journal == None && r.disk.sealed == io.disk.sealed
            && r.disk.state.generations == io.disk.state.generations && r.disk.state.floor == io.disk.state.floor
  {
    CommitIsSound(io.disk, Journal(io.disk.state, None)) by {
      OpeningIsConsistent(io.disk, Journal(io.disk.state, None));
    }
    UninstallFinishes(tape, io);
  }
}
