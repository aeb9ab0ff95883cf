/**
 The advisory locks between hosts, older exclusive hosts, runs and root reconnections
 (store.rs, host.rs, run.rs, project.rs), as a state machine whose steps interleave freely.
 */
module HostCoordination {
  import opened Faults

  type Pid = nat
  type Id = nat

  /** An advisory file lock with at most one exclusive holder or any shared ones. */
  datatype Lock<!H(==)> = Lock(ex: Option<H>, sh: set<H>) {
    predicate ExclusiveFree() { ex.None? && sh == {} }
    predicate SharedFree() { ex.None? }
    predicate Wellformed() { ex.Some? ==> sh == {} }
    function Without(h: H): Lock<H> {
      Lock(if ex == Some(h) then None else ex, sh - {h})
    }
  }

  /** Who may hold `run-use.lock`: a start or a run of a host, or a root reconnection. */
  datatype Use = RunUse(pid: Pid, id: Id) | RebindUse(pid: Pid)

  /** A run in memory or in the ledger, reduced to whether it is settled. */
  type Runs = map<Id, bool>

  /** What the registry worker of a host is in the middle of. */
  datatype Work =
    | Idle
    | CommitSaved(id: Id)
    | CommitRefused(id: Id)
    | FinishSaving(id: Id)
    | FinishSaved(id: Id)

  datatype Host =
    | Owning
    | Exclusive
    | Converting
    | Serving(memory: Runs, reserved: set<Id>, owned: set<Id>, work: Work)

  /** `Waiting` holds `host.lock` shared, `Guarded` also `run-use.lock`, `Checked` has read the ledger. */
  datatype Rebind = Waiting | Guarded | Checked

  datatype World = World(
    ownerLock: Lock<Pid>,
    hostLock: Lock<Pid>,
    useLock: Lock<Use>,
    hosts: map<Pid, Host>,
    legacy: set<Pid>,
    rebinds: map<Pid, Rebind>,
    disk: Runs,
    slipped: set<Id>)

  /** Nothing runs, and any ledger may lie on disk. */
  function Quiet(disk: Runs): World {
    World(Lock(None, {}), Lock(None, {}), Lock(None, {}), map[], {}, map[], disk, {})
  }

  datatype Step =
    // a compatible host starts
    | TakeOwner(pid: Pid)
    | TakeExclusive(pid: Pid)
    | LetGo(pid: Pid)
    | TakeShared(pid: Pid)
    // an older host
    | LegacyStart(pid: Pid)
    | LegacyWrite(pid: Pid, disk: Runs)
    // runs of a serving host
    | Reserve(pid: Pid, id: Id)
    | Abandon(pid: Pid, id: Id)
    | CommitSave(pid: Pid, id: Id, outcome: Outcome)
    | CommitEnd(pid: Pid)
    | FinishStart(pid: Pid, id: Id)
    | FinishSave(pid: Pid, outcome: Outcome)
    | FinishEnd(pid: Pid)
    | Save(pid: Pid, outcome: Outcome)
    | Rotate(pid: Pid, id: Id, outcome: Outcome)
    | Acknowledge(pid: Pid, id: Id, outcome: Outcome)
    // a root reconnection
    | RebindStart(pid: Pid)
    | RebindGuard(pid: Pid)
    | RebindCheck(pid: Pid)
    | RebindCommit(pid: Pid)
    // any process ends or crashes, and its locks go with it
    | End(pid: Pid)

  predicate Unused(w: World, pid: Pid) {
    pid !in w.hosts && pid !in w.legacy && pid !in w.rebinds
  }

  predicate IsServing(w: World, pid: Pid) {
    pid in w.hosts && w.hosts[pid].Serving?
  }

  predicate AllSettled(runs: Runs) {
    forall id :: id in runs ==> runs[id]
  }

  predicate Enabled(w: World, s: Step) {
    match s
    case TakeOwner(p) => Unused(w, p) && w.ownerLock.ExclusiveFree()
    case TakeExclusive(p) => p in w.hosts && w.hosts[p].Owning? && w.hostLock.ExclusiveFree()
    case LetGo(p) => p in w.hosts && w.hosts[p].Exclusive?
    case TakeShared(p) => p in w.hosts && w.hosts[p].Converting? && w.hostLock.SharedFree()
    case LegacyStart(p) => Unused(w, p) && w.hostLock.ExclusiveFree()
    case LegacyWrite(p, _) => p in w.legacy
    case Reserve(p, id) =>
      && IsServing(w, p) && w.useLock.SharedFree() && w.hosts[p].work.Idle?
      && id !in w.hosts[p].memory && id !in w.hosts[p].reserved && id !in w.hosts[p].owned
    case Abandon(p, id) => IsServing(w, p) && w.hosts[p].work.Idle? && id in w.hosts[p].reserved
    case CommitSave(p, id, _) => IsServing(w, p) && w.hosts[p].work.Idle? && id in w.hosts[p].reserved
    case CommitEnd(p) => IsServing(w, p) && (w.hosts[p].work.CommitSaved? || w.hosts[p].work.CommitRefused?)
    case FinishStart(p, id) => IsServing(w, p) && w.hosts[p].work.Idle? && id in w.hosts[p].owned
    case FinishSave(p, _) => IsServing(w, p) && w.hosts[p].work.FinishSaving?
    case FinishEnd(p) => IsServing(w, p) && w.hosts[p].work.FinishSaved?
    case Save(p, _) => IsServing(w, p) && w.hosts[p].work.Idle?
    case Rotate(p, id, _) =>
      && IsServing(w, p) && w.hosts[p].work.Idle?
      && id in w.hosts[p].memory && w.hosts[p].memory[id] && id !in w.hosts[p].owned
    case Acknowledge(p, id, _) =>
      && IsServing(w, p) && w.hosts[p].work.Idle?
      && id in w.hosts[p].memory && id !in w.hosts[p].owned && id !in w.hosts[p].reserved
    case RebindStart(p) => Unused(w, p) && w.hostLock.SharedFree()
    case RebindGuard(p) => p in w.rebinds && w.rebinds[p].Waiting? && w.useLock.ExclusiveFree()
    case RebindCheck(p) => p in w.rebinds && w.rebinds[p].Guarded? && AllSettled(w.disk)
    case RebindCommit(p) => p in w.rebinds && w.rebinds[p].Checked?
    case End(p) => !Unused(w, p)
  }

  /** What a save of `memory` leaves on disk. */
  function Saved(disk: Runs, memory: Runs, outcome: Outcome): Runs {
    if outcome == FailedBefore then disk else memory
  }

  function WithHost(w: World, p: Pid, h: Host): World {
    w.(hosts := w.hosts[p := h])
  }

  function UsesOf(lock: Lock<Use>, p: Pid): set<Use> {
    set u | u in lock.sh && u.pid == p
  }

  function Next(w: World, s: Step): World
    requires Enabled(w, s)
  {
    match s
    case TakeOwner(p) => WithHost(w, p, Owning).(ownerLock := Lock(Some(p), {}))
    case TakeExclusive(p) => WithHost(w, p, Exclusive).(hostLock := Lock(Some(p), {}))
    case LetGo(p) => WithHost(w, p, Converting).(hostLock := w.hostLock.Without(p))
    case TakeShared(p) =>
      WithHost(w, p, Serving(w.disk, {}, {}, Idle)).(hostLock := Lock(None, w.hostLock.sh + {p}))
    case LegacyStart(p) => w.(legacy := w.legacy + {p}, hostLock := Lock(Some(p), {}))
    case LegacyWrite(_, disk) => w.(disk := disk)
    case Reserve(p, id) =>
      var h := w.hosts[p];
      WithHost(w, p, h.(reserved := h.reserved + {id}))
        .(useLock := Lock(None, w.useLock.sh + {RunUse(p, id)}), slipped := w.slipped - {id})
    case Abandon(p, id) =>
      var h := w.hosts[p];
      WithHost(w, p, h.(reserved := h.reserved - {id})).(useLock := w.useLock.Without(RunUse(p, id)))
    case CommitSave(p, id, outcome) =>
      var h := w.hosts[p];
      var memory := h.memory[id := false];
      var ended := if outcome == Done then h.(memory := memory, work := CommitSaved(id)) else h.(work := CommitRefused(id));
      WithHost(w, p, ended).(disk := Saved(w.disk, memory, outcome))
    case CommitEnd(p) =>
      var h := w.hosts[p];
      var id := h.work.id;
      if h.work.CommitSaved? then
        WithHost(w, p, h.(reserved := h.reserved - {id}, owned := h.owned + {id}, work := Idle))
      else
        WithHost(w, p, h.(reserved := h.reserved - {id}, work := Idle)).(useLock := w.useLock.Without(RunUse(p, id)))
    case FinishStart(p, id) =>
      var h := w.hosts[p];
      WithHost(w, p, h.(memory := h.memory[id := true], work := FinishSaving(id)))
    case FinishSave(p, outcome) =>
      var h := w.hosts[p];
      var work := if outcome == Done then FinishSaved(h.work.id) else Idle;
      WithHost(w, p, h.(work := work)).(disk := Saved(w.disk, h.memory, outcome))
    case FinishEnd(p) =>
      var h := w.hosts[p];
      WithHost(w, p, h.(owned := h.owned - {h.work.id}, work := Idle))
        .(useLock := w.useLock.Without(RunUse(p, h.work.id)))
    case Save(p, outcome) => w.(disk := Saved(w.disk, w.hosts[p].memory, outcome))
    case Rotate(p, id, outcome) =>
      var h := w.hosts[p];
      var memory := h.memory - {id};
      WithHost(w, p, if outcome == Done then h.(memory := memory) else h).(disk := Saved(w.disk, memory, outcome))
    case Acknowledge(p, id, outcome) =>
      var h := w.hosts[p];
      var memory := h.memory[id := true];
      WithHost(w, p, if outcome == Done then h.(memory := memory) else h)
        .(disk := Saved(w.disk, memory, outcome),
          slipped :=
            if outcome == FailedAfter && !h.memory[id] then w.slipped + {id}
            else if outcome == Done then w.slipped - {id}
            else w.slipped)
    case RebindStart(p) => w.(rebinds := w.rebinds[p := Waiting], hostLock := Lock(None, w.hostLock.sh + {p}))
    case RebindGuard(p) => w.(rebinds := w.rebinds[p := Guarded], useLock := Lock(Some(RebindUse(p)), {}))
    case RebindCheck(p) => w.(rebinds := w.rebinds[p := Checked])
    case RebindCommit(p) => w
    case End(p) =>
      var use := w.useLock.Without(RebindUse(p));
      w.(ownerLock := w.ownerLock.Without(p),
         hostLock := w.hostLock.Without(p),
         useLock := Lock(use.ex, use.sh - UsesOf(use, p)),
         hosts := w.hosts - {p}, legacy := w.legacy - {p}, rebinds := w.rebinds - {p})
  }

  // ---------------------------------------------------------------- the invariant

  predicate Locks(w: World) {
    && w.ownerLock.Wellformed() && w.hostLock.Wellformed() && w.useLock.Wellformed()
    && w.ownerLock.sh == {}
    && (forall p :: p in w.hosts ==> w.ownerLock.ex == Some(p) && p !in w.legacy && p !in w.rebinds)
    && (forall p :: p in w.hosts && w.hosts[p].Exclusive? ==> w.hostLock.ex == Some(p))
    && (forall p :: p in w.hosts && w.hosts[p].Serving? ==> p in w.hostLock.sh)
    && (forall p :: p in w.legacy ==> w.hostLock.ex == Some(p) && p !in w.rebinds)
    && (forall p :: p in w.rebinds ==> p in w.hostLock.sh)
    && (forall p :: p in w.rebinds && !w.rebinds[p].Waiting? ==> w.useLock.ex == Some(RebindUse(p)))
  }

  predicate WorkFits(h: Host)
    requires h.Serving?
  {
    match h.work
    case Idle => true
    case CommitSaved(id) => id in h.reserved && id in h.memory && !h.memory[id]
    case CommitRefused(id) => id in h.reserved
    case FinishSaving(id) => id in h.owned && id in h.memory && h.memory[id]
    case FinishSaved(id) => id in h.owned && id in h.memory && h.memory[id]
  }

  /** A host's starts and runs hold the lock, and the ledger knows what is not settled. */
  ghost predicate HostFits(h: Host, p: Pid, lock: Lock<Use>, disk: Runs, slipped: set<Id>)
    requires h.Serving?
  {
    && (forall id :: id in h.reserved || id in h.owned ==> RunUse(p, id) in lock.sh)
    && (forall id :: id in h.owned ==> id in h.memory && id !in h.reserved && id !in slipped)
    && (forall id :: id in h.reserved ==> id !in slipped)
    && (forall id :: id in h.reserved && id in h.memory ==> h.work == CommitSaved(id))
    && WorkFits(h)
    && (forall id :: id in h.memory && !h.memory[id] ==> (id in disk && !disk[id]) || id in slipped)
  }

  ghost predicate Hosts(w: World) {
    forall p :: p in w.hosts && w.hosts[p].Serving? ==> HostFits(w.hosts[p], p, w.useLock, w.disk, w.slipped)
  }

  /** After its check a reconnection sees only settled runs, or runs whose acknowledgement slipped. */
  predicate Rebinds(w: World) {
    forall p, id :: p in w.rebinds && w.rebinds[p].Checked? && id in w.disk && !w.disk[id] ==> id in w.slipped
  }

  ghost predicate Inv(w: World) {
    Locks(w) && Hosts(w) && Rebinds(w)
  }

  predicate OfStart(s: Step) {
    s.TakeOwner? || s.TakeExclusive? || s.LetGo? || s.TakeShared? || s.LegacyStart? || s.LegacyWrite?
  }

  predicate OfRebind(s: Step) {
    s.RebindStart? || s.RebindGuard? || s.RebindCheck? || s.RebindCommit? || s.End?
  }

  /** The steps of a serving host. */
  predicate IsRunStep(s: Step) {
    !OfStart(s) && !OfRebind(s)
  }

  predicate OfCommit(s: Step) {
    s.Reserve? || s.Abandon? || s.CommitSave? || s.CommitEnd?
  }

  predicate OfFinish(s: Step) {
    s.FinishStart? || s.FinishSave? || s.FinishEnd?
  }

  lemma LocksKeptAtStart(w: World, s: Step)
    requires Locks(w) && Enabled(w, s) && OfStart(s)
    ensures Locks(Next(w, s))
  {
  }

  lemma LocksKeptAtRebind(w: World, s: Step)
    requires Locks(w) && Enabled(w, s) && OfRebind(s) && !s.End?
    ensures Locks(Next(w, s))
  {
  }

  lemma LocksKeptAtEnd(w: World, p: Pid)
    requires Locks(w) && Enabled(w, End(p))
    ensures Locks(Next(w, End(p)))
  {
    var v := Next(w, End(p));
    assert v.hosts.Keys == w.hosts.Keys - {p} && v.rebinds.Keys == w.rebinds.Keys - {p};
    assert forall q :: q in v.hosts ==> v.hosts[q] == w.hosts[q];
    assert forall q :: q in v.rebinds ==> v.rebinds[q] == w.rebinds[q];
  }

  lemma LocksKeptByRuns(w: World, s: Step)
    requires Locks(w) && Enabled(w, s) && !OfStart(s) && !OfRebind(s)
    ensures Locks(Next(w, s))
  {
  }

  lemma LocksKept(w: World, s: Step)
    requires Locks(w) && Enabled(w, s)
    ensures Locks(Next(w, s))
  {
    if OfStart(s) {
      LocksKeptAtStart(w, s);
    } else if s.End? {
      LocksKeptAtEnd(w, s.pid);
    } else if OfRebind(s) {
      LocksKeptAtRebind(w, s);
    } else {
      LocksKeptByRuns(w, s);
    }
  }

  lemma RebindsKept(w: World, s: Step)
    requires Inv(w) && Enabled(w, s)
    ensures Rebinds(Next(w, s))
  {
  }

  lemma HostsKeptAtStart(w: World, s: Step)
    requires Inv(w) && Enabled(w, s) && OfStart(s)
    ensures Hosts(Next(w, s))
  {
  }

  lemma HostsKeptAtRebind(w: World, s: Step)
    requires Inv(w) && Enabled(w, s) && OfRebind(s)
    ensures Hosts(Next(w, s))
  {
  }

  lemma HostsKeptByCommit(w: World, s: Step)
    requires Inv(w) && Enabled(w, s) && OfCommit(s)
    ensures Hosts(Next(w, s))
  {
  }

  lemma HostsKeptByFinish(w: World, s: Step)
    requires Inv(w) && Enabled(w, s) && OfFinish(s)
    ensures Hosts(Next(w, s))
  {
  }

  lemma HostsKeptBySaves(w: World, s: Step)
    requires Inv(w) && Enabled(w, s) && (s.Save? || s.Rotate? || s.Acknowledge?)
    ensures Hosts(Next(w, s))
  {
  }

  lemma HostsKept(w: World, s: Step)
    requires Inv(w) && Enabled(w, s)
    ensures Hosts(Next(w, s))
  {
    if OfStart(s) {
      HostsKeptAtStart(w, s);
    } else if OfRebind(s) {
      HostsKeptAtRebind(w, s);
    } else if OfCommit(s) {
      HostsKeptByCommit(w, s);
    } else if OfFinish(s) {
      HostsKeptByFinish(w, s);
    } else {
      HostsKeptBySaves(w, s);
    }
  }

  // ---------------------------------------------------------------- every interleaving

  predicate AllEnabled(w: World, steps: seq<Step>)
    decreases |steps|
  {
    steps == [] || (Enabled(w, steps[0]) && AllEnabled(Next(w, steps[0]), steps[1..]))
  }

  function Interleaving(w: World, steps: seq<Step>): World
    requires AllEnabled(w, steps)
    decreases |steps|
  {
    if steps == [] then w else Interleaving(Next(w, steps[0]), steps[1..])
  }

  lemma {:induction false} InterleavingKeeps(w: World, steps: seq<Step>)
    requires Inv(w) && AllEnabled(w, steps)
    ensures Inv(Interleaving(w, steps))
    decreases |steps|
  {
    if steps != [] {
      LocksKept(w, steps[0]);
      HostsKept(w, steps[0]);
      RebindsKept(w, steps[0]);
      InterleavingKeeps(Next(w, steps[0]), steps[1..]);
    }
  }

  /**
   Whenever a root reconnection may commit: no start is reserved and no host owns a run
   whose end is not durable, no older host is alive, and every run that the ledger or a
   host takes for unsettled is one whose cleanup a user confirmed, in an acknowledgement
   that reached the disk and yet reported failure.
   */
  lemma ReconnectionIsGuarded(disk: Runs, steps: seq<Step>, p: Pid)
    requires AllEnabled(Quiet(disk), steps)
    requires Enabled(Interleaving(Quiet(disk), steps), RebindCommit(p))
    ensures var w := Interleaving(Quiet(disk), steps);
            && w.legacy == {}
            && (forall q :: IsServing(w, q) ==> w.hosts[q].reserved == {} && w.hosts[q].owned == {})
            && (forall q, id :: IsServing(w, q) && id in w.hosts[q].memory && !w.hosts[q].memory[id] ==> id in w.slipped)
            && (forall id :: id in w.disk && !w.disk[id] ==> id in w.slipped)
  {
    InterleavingKeeps(Quiet(disk), steps);
    var w := Interleaving(Quiet(disk), steps);
    assert w.useLock.sh == {};
    forall q | IsServing(w, q) ensures w.hosts[q].reserved == {} && w.hosts[q].owned == {} {
      assert HostFits(w.hosts[q], q, w.useLock, w.disk, w.slipped);
      assert forall id :: id in w.hosts[q].reserved || id in w.hosts[q].owned ==> RunUse(q, id) in w.useLock.sh;
    }
  }

  /** Two hosts never serve at once, and no host serves beside an older one. */
  lemma OneHostServes(disk: Runs, steps: seq<Step>, p: Pid, q: Pid)
    requires AllEnabled(Quiet(disk), steps)
    requires IsServing(Interleaving(Quiet(disk), steps), p)
    ensures IsServing(Interleaving(Quiet(disk), steps), q) ==> p == q
    ensures Interleaving(Quiet(disk), steps).legacy == {}
  {
    InterleavingKeeps(Quiet(disk), steps);
  }

  /** A run of a living or a crashed host that is not durably settled keeps blocking the check. */
  lemma UnsettledRunsBlock(disk: Runs, steps: seq<Step>, p: Pid, id: Id, rebind: Pid)
    requires AllEnabled(Quiet(disk), steps)
    requires var w := Interleaving(Quiet(disk), steps);
      IsServing(w, p) && id in w.hosts[p].owned && id in w.hosts[p].memory && !w.hosts[p].memory[id]
    ensures var w := Interleaving(Quiet(disk), steps);
            && !Enabled(w, RebindGuard(rebind)) && !Enabled(w, RebindCheck(rebind)) && !Enabled(w, RebindCommit(rebind))
            && (Enabled(w, End(p)) ==> !Enabled(Next(w, End(p)), RebindCheck(rebind)))
  {
    InterleavingKeeps(Quiet(disk), steps);
    RunBlocksRebind(Interleaving(Quiet(disk), steps), p, id, rebind);
  }

  lemma RunBlocksRebind(w: World, p: Pid, id: Id, rebind: Pid)
    requires Inv(w) && IsServing(w, p) && id in w.hosts[p].owned && id in w.hosts[p].memory && !w.hosts[p].memory[id]
    ensures !Enabled(w, RebindGuard(rebind)) && !Enabled(w, RebindCheck(rebind)) && !Enabled(w, RebindCommit(rebind))
    ensures Enabled(w, End(p)) ==> !Enabled(Next(w, End(p)), RebindCheck(rebind))
  {
    assert HostFits(w.hosts[p], p, w.useLock, w.disk, w.slipped);
    assert RunUse(p, id) in w.useLock.sh;
  }
}
