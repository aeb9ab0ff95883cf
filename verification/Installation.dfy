/**
 The offline installation of crates/idk/src/install.rs: a state file, an activation
 journal, two symbolic links and the sealed generation directories.
 */
module Installation {
  import opened Faults

  const MAX_GENERATIONS := 128

  /** Three canonical numeric components, compared component by component. */
  datatype Version = Version(major: nat, minor: nat, patch: nat) {
    predicate AtMost(other: Version) {
      || major < other.major
      || (major == other.major && minor < other.minor)
      || (major == other.major && minor == other.minor && patch <= other.patch)
    }
  }

  datatype Name = Name(version: Version, bundle: string)

  datatype Generation = Generation(name: Name, version: Version, bundle: string, binary: string) {
    predicate Valid() {
      name == Name(version, bundle)
    }
  }

  datatype InstallationState = InstallationState(
    active: Option<Name>,
    floor: Option<Version>,
    generations: map<Name, Generation>)
  {
    predicate Valid() {
      && |generations| <= MAX_GENERATIONS
      && (forall name :: name in generations ==> generations[name].Valid() && generations[name].name == name)
      && (active.Some? ==> active.value in generations)
      && (floor.Some? ==> exists name :: name in generations && generations[name].version == floor.value)
      && (active.Some? ==> floor.Some? && generations[active.value].version.AtMost(floor.value))
    }

    /** The state that finishing an activation of `target` (or a removal) writes. */
    function Commit(target: Option<Generation>): InstallationState {
      var raises := target.Some? && (floor.None? || !target.value.version.AtMost(floor.value));
      InstallationState(
        if target.Some? then Some(target.value.name) else None,
        if raises then Some(target.value.version) else floor,
        generations)
    }
  }

  const EMPTY_STATE := InstallationState(None, None, map[])

  datatype Journal = Journal(before: InstallationState, target: Option<Generation>) {
    predicate Valid() {
      && before.Valid()
      && (target.Some? ==>
            && target.value.Valid()
            && target.value.name in before.generations
            && before.generations[target.value.name] == target.value)
    }

    function Committed(): InstallationState {
      before.Commit(target)
    }

    function NewLink(): Option<Name> {
      if target.Some? then Some(target.value.name) else None
    }
  }

  /** The `idk` entry; `Foreign` is a link that this installation does not manage. */
  datatype Launcher = Absent | Managed | Foreign

  /** Everything that survives a crash. */
  datatype Disk = Disk(
    state: InstallationState,
    journal: Option<Journal>,
    current: Option<Name>,
    launcher: Launcher,
    sealed: set<Generation>)

  predicate LinksMatch(d: Disk, state: InstallationState) {
    && d.current == state.active
    && d.launcher == if state.active.Some? then Managed else Absent
  }

  /** A computation over the disk: once `ok` is false no later step changes anything. */
  datatype Io = Io(disk: Disk, clock: nat, ok: bool)

  function Need(io: Io, condition: bool): Io {
    io.(ok := io.ok && condition)
  }

  function Put(tape: Tape, io: Io, next: Disk): Io {
    if !io.ok then io
    else match tape(io.clock)
      case Done => Io(next, io.clock + 1, true)
      case FailedBefore => Io(io.disk, io.clock + 1, false)
      case FailedAfter => Io(next, io.clock + 1, false)
  }

  function Sync(tape: Tape, io: Io): Io {
    Put(tape, io, io.disk)
  }

  function RemoveLauncher(tape: Tape, io: Io): Io {
    if io.disk.launcher == Absent then io
    else Put(tape, Need(io, io.disk.launcher == Managed), io.disk.(launcher := Absent))
  }

  function SetActive(tape: Tape, io: Io, name: Option<Name>): Io {
    var moved := if name.None? && io.disk.current.None? then io else Put(tape, io, io.disk.(current := name));
    Sync(tape, moved)
  }

  function EnsureLauncher(tape: Tape, io: Io): Io {
    var made :=
      if io.disk.launcher == Absent then Put(tape, io, io.disk.(launcher := Managed))
      else Need(io, io.disk.launcher == Managed);
    Sync(tape, made)
  }

  function WriteState(tape: Tape, io: Io, state: InstallationState): Io {
    Put(tape, Need(io, state.Valid()), io.disk.(state := state))
  }

  function RemoveJournal(tape: Tape, io: Io): Io {
    Put(tape, io, io.disk.(journal := None))
  }

  function Restore(tape: Tape, io: Io, journal: Journal): Io {
    var previous := journal.before.active;
    var a := Need(io, io.disk.current == previous || io.disk.current == journal.NewLink());
    var b :=
      if previous.Some? then
        var name := previous.value;
        var intact := name in journal.before.generations && journal.before.generations[name] in io.disk.sealed;
        EnsureLauncher(tape, SetActive(tape, Need(a, intact), previous))
      else
        SetActive(tape, RemoveLauncher(tape, a), None);
    RemoveJournal(tape, WriteState(tape, b, journal.before))
  }

  /** The guards of an update that only read the disk. */
  predicate Admitted(d: Disk, own: Version, target: Generation) {
    && d.journal.None?
    && d.state.Valid()
    && LinksMatch(d, d.state)
    && target.Valid()
    && own.AtMost(target.version)
    && (d.state.floor.Some? ==> d.state.floor.value.AtMost(target.version))
    && (d.state.active.Some? ==> d.state.generations[d.state.active.value].version.AtMost(target.version))
  }

  /** Renames the staged directory into place, unless an interrupted update left it there. */
  function Seal(tape: Tape, io: Io, target: Generation): Io {
    var present := exists g :: g in io.disk.sealed && g.name == target.name;
    var sealed := if present then io else Put(tape, io, io.disk.(sealed := io.disk.sealed + {target}));
    Need(sealed, target in sealed.disk.sealed)
  }

  function Recorded(state: InstallationState, target: Generation): InstallationState {
    state.(generations := state.generations[target.name := target])
  }

  /** Seals the generation and records it in the inventory, unless it is already known. */
  function Stage(tape: Tape, io: Io, target: Generation): Io {
    var state := io.disk.state;
    if target.name in state.generations then
      Need(io, state.generations[target.name] == target && target in io.disk.sealed)
    else
      var sealed := Seal(tape, Need(io, |state.generations| < MAX_GENERATIONS), target);
      WriteState(tape, sealed, Recorded(state, target))
  }

  function Activate(tape: Tape, io: Io, target: Generation, activeHealthy: bool): Io {
    var journal := Journal(io.disk.state, Some(target));
    var a := Put(tape, io, io.disk.(journal := Some(journal)));
    var b := EnsureLauncher(tape, SetActive(tape, a, Some(target.name)));
    if !b.ok then b
    else if !activeHealthy then Need(Restore(tape, b, journal), false)
    else RemoveJournal(tape, WriteState(tape, b, journal.Committed()))
  }

  /** `install_with`: the two health reports of the staged and the activated binary are inputs. */
  function Install(tape: Tape, io: Io, own: Version, target: Generation, healthy: bool, activeHealthy: bool): Io {
    var admitted := Need(io, io.ok && Admitted(io.disk, own, target));
    if !admitted.ok then admitted
    else
      var staged := Need(Stage(tape, admitted, target), healthy);
      if !staged.ok || staged.disk.state.active == Some(target.name) then staged
      else Activate(tape, staged, target, activeHealthy)
  }

  function Uninstall(tape: Tape, io: Io): Io {
    var state := io.disk.state;
    var a := Need(io, io.disk.journal.None? && state.Valid() && LinksMatch(io.disk, state));
    var journal := Journal(state, None);
    var b := Put(tape, a, io.disk.(journal := Some(journal)));
    var c := SetActive(tape, RemoveLauncher(tape, b), None);
    RemoveJournal(tape, WriteState(tape, c, journal.Committed()))
  }

  function Recover(tape: Tape, io: Io): Io {
    var d := io.disk;
    var a := Need(io, d.state.Valid());
    if d.journal.None? then Need(a, LinksMatch(d, d.state))
    else
      var journal := d.journal.value;
      var b := Need(a, journal.Valid() && journal.Committed().Valid());
      if d.state == journal.Committed() then
        var intact := journal.target.Some? ==> journal.target.value in d.sealed;
        RemoveJournal(tape, Need(b, intact && LinksMatch(d, d.state)))
      else
        Restore(tape, Need(b, d.state == journal.before), journal)
  }

  datatype Review = Review(pending: bool, finish: bool, active: Option<Name>)

  /** `review_recovery`: what a recovery would do, or nothing when it would refuse. */
  function ReviewRecovery(d: Disk): Option<Review> {
    if !d.state.Valid() then None
    else if d.journal.None? then Some(Review(false, false, d.state.active))
    else
      var journal := d.journal.value;
      if !journal.Valid() || !journal.Committed().Valid() then None
      else if d.state == journal.Committed() then Some(Review(true, true, journal.Committed().active))
      else if d.state == journal.before then Some(Review(true, false, journal.before.active))
      else None
  }

  // ---------------------------------------------------------------- the disk invariant

  /** The version floor is exactly the version of an active generation. */
  predicate FloorIsActive(state: InstallationState) {
    state.active.Some? ==>
      && state.active.value in state.generations
      && state.floor == Some(state.generations[state.active.value].version)
  }

  predicate AllSealed(d: Disk, state: InstallationState) {
    forall name :: name in state.generations ==> state.generations[name] in d.sealed
  }

  predicate Sound(d: Disk, state: InstallationState) {
    state.Valid() && FloorIsActive(state) && AllSealed(d, state)
  }

  /** No transition is open and both links agree with the state file. */
  predicate Steady(d: Disk) {
    d.journal.None? && Sound(d, d.state) && LinksMatch(d, d.state)
  }

  /** The activation that a journal describes may still be begun. */
  predicate Openable(d: Disk, journal: Journal) {
    && journal.Valid()
    && Sound(d, journal.before)
    && (journal.target.Some? && journal.before.floor.Some? ==>
          journal.before.floor.value.AtMost(journal.target.value.version))
  }

  /** A transition is open: the state is before or after it, and the links are on the way. */
  predicate Pending(d: Disk) {
    && d.journal.Some?
    && Openable(d, d.journal.value)
    && var j := d.journal.value;
       || (d.state == j.Committed() && LinksMatch(d, d.state))
       || (&& d.state == j.before
           && d.state != j.Committed()
           && (d.current == j.before.active || d.current == j.NewLink())
           && d.launcher != Foreign)
  }

  predicate Consistent(d: Disk) {
    Steady(d) || Pending(d)
  }
}
