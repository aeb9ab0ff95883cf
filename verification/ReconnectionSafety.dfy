/**
 When a root reconnection may rely on its check of the ledger: the exact condition, which
 the program does not test, and how an acknowledgement can break it.
 */
module ReconnectionSafety {
  import opened Faults
  import opened HostCoordination

  // ---------------------------------------------------------------- the exact condition

  ghost predicate MemoriesSettled(w: World) {
    forall p :: IsServing(w, p) ==> AllSettled(w.hosts[p].memory)
  }

  /** Whatever happens until the reconnection ends, the ledger has settled runs only. */
  ghost predicate StaysSettled(w: World, q: Pid) {
    forall steps :: AllEnabled(w, steps) && End(q) !in steps ==> AllSettled(Interleaving(w, steps).disk)
  }

  /** The check went through, and neither the ledger nor a host has anything unsettled. */
  ghost predicate Relied(w: World, q: Pid) {
    Inv(w) && q in w.rebinds && w.rebinds[q].Checked? && AllSettled(w.disk) && MemoriesSettled(w)
  }

  /** Under the guard of a reconnection every host is idle: no start is reserved and no run is owned. */
  lemma GuardedHostIsIdle(w: World, q: Pid, p: Pid)
    requires Inv(w) && q in w.rebinds && !w.rebinds[q].Waiting? && IsServing(w, p)
    ensures w.hosts[p].reserved == {} && w.hosts[p].owned == {} && w.hosts[p].work.Idle?
  {
    assert w.useLock.sh == {};
    assert HostFits(w.hosts[p], p, w.useLock, w.disk, w.slipped);
    assert forall id :: id in w.hosts[p].reserved || id in w.hosts[p].owned ==> RunUse(p, id) in w.useLock.sh;
  }

  lemma StepKeepsInv(w: World, s: Step)
    requires Inv(w) && Enabled(w, s)
    ensures Inv(Next(w, s))
  {
    LocksKept(w, s);
    HostsKept(w, s);
    RebindsKept(w, s);
  }

  lemma StaysChecked(w: World, s: Step, q: Pid)
    requires q in w.rebinds && w.rebinds[q].Checked? && Enabled(w, s) && s != End(q)
    ensures q in Next(w, s).rebinds && Next(w, s).rebinds[q].Checked?
  {
  }

  lemma RunStepKeepsSettled(w: World, s: Step, q: Pid)
    requires Relied(w, q) && Enabled(w, s) && IsRunStep(s)
    ensures AllSettled(Next(w, s).disk) && MemoriesSettled(Next(w, s))
  {
    GuardedHostIsIdle(w, q, s.pid);
    assert AllSettled(w.hosts[s.pid].memory);
  }

  lemma OtherStepKeepsSettled(w: World, s: Step, q: Pid)
    requires Relied(w, q) && Enabled(w, s) && !IsRunStep(s)
    ensures AllSettled(Next(w, s).disk) && MemoriesSettled(Next(w, s))
  {
    assert q in w.hostLock.sh;
  }

  lemma StepKeepsRelied(w: World, s: Step, q: Pid)
    requires Relied(w, q) && Enabled(w, s) && s != End(q)
    ensures Relied(Next(w, s), q)
  {
    StepKeepsInv(w, s);
    StaysChecked(w, s, q);
    if IsRunStep(s) {
      RunStepKeepsSettled(w, s, q);
    } else {
      OtherStepKeepsSettled(w, s, q);
    }
  }

  lemma {:induction false} StepsKeepRelied(w: World, steps: seq<Step>, q: Pid)
    requires Relied(w, q) && AllEnabled(w, steps) && End(q) !in steps
    ensures Relied(Interleaving(w, steps), q)
    decreases |steps|
  {
    if steps != [] {
      StepKeepsRelied(w, steps[0], q);
      StepsKeepRelied(Next(w, steps[0]), steps[1..], q);
    }
  }

  /** A host that remembers an unsettled run can make the checked ledger unsettled. */
  lemma UnsettledMemoryIsSaved(w: World, q: Pid, p: Pid)
    requires Inv(w) && q in w.rebinds && w.rebinds[q].Checked?
    requires IsServing(w, p) && !AllSettled(w.hosts[p].memory)
    ensures var steps := [Save(p, Done)];
            AllEnabled(w, steps) && End(q) !in steps && !AllSettled(Interleaving(w, steps).disk)
  {
    GuardedHostIsIdle(w, q, p);
    Prepended(w, Save(p, Done), []);
    assert [Save(p, Done)] + [] == [Save(p, Done)];
  }

  /**
   The exact condition. After a reconnection has checked the ledger, the ledger keeps settled
   runs only, whatever any process does until the reconnection ends, if and only if at the check
   every serving host also remembers settled runs only. The program does not ask the hosts.
   */
  lemma CheckHoldsIff(w: World, q: Pid)
    requires Inv(w) && Enabled(w, RebindCheck(q))
    ensures StaysSettled(Next(w, RebindCheck(q)), q) <==> MemoriesSettled(w)
  {
    var v := Next(w, RebindCheck(q));
    StepKeepsInv(w, RebindCheck(q));
    assert MemoriesSettled(v) <==> MemoriesSettled(w) by { SameMemories(w, q); }
    if MemoriesSettled(v) {
      forall steps | AllEnabled(v, steps) && End(q) !in steps
        ensures AllSettled(Interleaving(v, steps).disk)
      {
        StepsKeepRelied(v, steps, q);
      }
    } else {
      var p :| IsServing(v, p) && !AllSettled(v.hosts[p].memory);
      UnsettledMemoryIsSaved(v, q, p);
    }
  }

  lemma SameMemories(w: World, q: Pid)
    requires Enabled(w, RebindCheck(q))
    ensures MemoriesSettled(Next(w, RebindCheck(q))) <==> MemoriesSettled(w)
  {
    assert Next(w, RebindCheck(q)).hosts == w.hosts;
  }

  /** Over histories: with settled memories at its check, a reconnection commits over settled runs, on disk and in memory. */
  lemma CheckedHistoryCommitsSettled(disk: Runs, before: seq<Step>, q: Pid, after: seq<Step>)
    requires AllEnabled(Quiet(disk), before) && Enabled(Interleaving(Quiet(disk), before), RebindCheck(q))
    requires MemoriesSettled(Interleaving(Quiet(disk), before))
    requires AllEnabled(Next(Interleaving(Quiet(disk), before), RebindCheck(q)), after) && End(q) !in after
    ensures var w := Interleaving(Next(Interleaving(Quiet(disk), before), RebindCheck(q)), after);
            Enabled(w, RebindCommit(q)) && AllSettled(w.disk) && MemoriesSettled(w)
  {
    var w := Interleaving(Quiet(disk), before);
    InterleavingKeeps(Quiet(disk), before);
    StepKeepsInv(w, RebindCheck(q));
    SameMemories(w, q);
    StepsKeepRelied(Next(w, RebindCheck(q)), after, q);
  }

  // ---------------------------------------------------------------- slipped acknowledgements

  predicate SlipsOf(s: Step, id: Id) {
    s.Acknowledge? && s.id == id && s.outcome == FailedAfter
  }

  predicate Confirms(s: Step, id: Id) {
    s.Acknowledge? && s.id == id && s.outcome == Done
  }

  /** Every acknowledgement that reached the disk but failed was later repeated with success. */
  ghost predicate Repeated(steps: seq<Step>) {
    forall i, id :: 0 <= i < |steps| && SlipsOf(steps[i], id) ==> exists j :: i < j < |steps| && Confirms(steps[j], id)
  }

  predicate Unconfirmed(steps: seq<Step>, from: nat, id: Id) {
    forall j :: from <= j < |steps| ==> !Confirms(steps[j], id)
  }

  /** A slip that remains has its acknowledgement among the steps, and no successful one after it. */
  lemma {:induction false} SlipsRemain(w: World, steps: seq<Step>, id: Id)
    requires AllEnabled(w, steps) && id in Interleaving(w, steps).slipped
    ensures
      || (id in w.slipped && Unconfirmed(steps, 0, id))
      || (exists i :: 0 <= i < |steps| && SlipsOf(steps[i], id) && Unconfirmed(steps, i + 1, id))
    decreases |steps|
  {
    if steps != [] {
      var rest := steps[1..];
      var next := Next(w, steps[0]);
      SlipsRemain(next, rest, id);
      assert forall j :: 1 <= j < |steps| ==> steps[j] == rest[j - 1];
      if id in next.slipped && Unconfirmed(rest, 0, id) {
        SlippedByStep(w, steps[0], id);
        assert Unconfirmed(steps, 1, id);
      } else {
        var i :| 0 <= i < |rest| && SlipsOf(rest[i], id) && Unconfirmed(rest, i + 1, id);
        assert SlipsOf(steps[i + 1], id) && Unconfirmed(steps, i + 2, id);
      }
    }
  }

  lemma SlippedByStep(w: World, s: Step, id: Id)
    requires Enabled(w, s) && id in Next(w, s).slipped
    ensures (id in w.slipped && !Confirms(s, id)) || SlipsOf(s, id)
  {
  }

  lemma NothingSlips(disk: Runs, steps: seq<Step>)
    requires AllEnabled(Quiet(disk), steps) && Repeated(steps)
    ensures Interleaving(Quiet(disk), steps).slipped == {}
  {
    forall id | id in Interleaving(Quiet(disk), steps).slipped
      ensures false
    {
      SlipsRemain(Quiet(disk), steps, id);
    }
  }

  /**
   As long as every acknowledgement that failed after reaching the disk was repeated with
   success, a reconnection commits over settled runs only, on disk and in memory.
   */
  lemma ReconnectionSeesSettledRuns(disk: Runs, steps: seq<Step>, p: Pid)
    requires AllEnabled(Quiet(disk), steps) && Repeated(steps)
    requires Enabled(Interleaving(Quiet(disk), steps), RebindCommit(p))
    ensures var w := Interleaving(Quiet(disk), steps);
            && AllSettled(w.disk)
            && forall q :: IsServing(w, q) ==> AllSettled(w.hosts[q].memory)
  {
    ReconnectionIsGuarded(disk, steps, p);
    NothingSlips(disk, steps);
    var w := Interleaving(Quiet(disk), steps);
    forall q, id | IsServing(w, q) && id in w.hosts[q].memory ensures w.hosts[q].memory[id] {
      assert id !in w.slipped;
    }
  }

  lemma Prepended(w: World, s: Step, rest: seq<Step>)
    requires Enabled(w, s) && AllEnabled(Next(w, s), rest)
    ensures AllEnabled(w, [s] + rest)
    ensures Interleaving(w, [s] + rest) == Interleaving(Next(w, s), rest)
  {
    assert ([s] + rest)[1..] == rest;
  }

  /** A serving host between two calls, whose only unsettled run is an unowned one, with nothing else going on. */
  predicate OneToAcknowledge(w: World, p: Pid, id: Id) {
    && IsServing(w, p) && w.hosts[p].work.Idle?
    && id in w.hosts[p].memory && !w.hosts[p].memory[id]
    && id !in w.hosts[p].owned && id !in w.hosts[p].reserved
    && (forall other :: other in w.hosts[p].memory && other != id ==> w.hosts[p].memory[other])
    && w.useLock.ExclusiveFree()
  }

  lemma SlipIsEnabled(w: World, p: Pid, id: Id)
    requires Inv(w) && OneToAcknowledge(w, p, id)
    ensures Enabled(w, Acknowledge(p, id, FailedAfter))
    ensures var v := Next(w, Acknowledge(p, id, FailedAfter));
            && v == w.(disk := w.hosts[p].memory[id := true], slipped := w.slipped + {id})
            && AllSettled(v.disk) && v.hostLock.SharedFree()
  {
    assert w.hosts[p := w.hosts[p]] == w.hosts;
    assert p in w.hostLock.sh;
  }

  lemma FourSteps(w: World, a: Step, b: Step, c: Step, d: Step)
    requires Enabled(w, a) && Enabled(Next(w, a), b) && Enabled(Next(Next(w, a), b), c)
    requires Enabled(Next(Next(Next(w, a), b), c), d)
    ensures AllEnabled(w, [a, b, c, d])
    ensures Interleaving(w, [a, b, c, d]) == Next(Next(Next(Next(w, a), b), c), d)
  {
    var w1 := Next(w, a);
    var w2 := Next(w1, b);
    var w3 := Next(w2, c);
    Prepended(w3, d, []);
    assert [d] + [] == [d];
    Prepended(w2, c, [d]);
    assert [c] + [d] == [c, d];
    Prepended(w1, b, [c, d]);
    assert [b] + [c, d] == [b, c, d];
    Prepended(w, a, [b, c, d]);
    assert [a] + [b, c, d] == [a, b, c, d];
  }

  /** A reconnection that took both locks; only its place in the world differs. */
  function Reconnecting(w: World, q: Pid, stage: Rebind): World {
    w.(rebinds := w.rebinds[q := stage],
       hostLock := Lock(None, w.hostLock.sh + {q}),
       useLock := Lock(Some(RebindUse(q)), {}))
  }

  lemma LocksTaken(w: World, q: Pid)
    requires Unused(w, q) && w.hostLock.SharedFree() && w.useLock.ExclusiveFree()
    ensures Enabled(w, RebindStart(q))
    ensures Enabled(Next(w, RebindStart(q)), RebindGuard(q))
    ensures Next(Next(w, RebindStart(q)), RebindGuard(q)) == Reconnecting(w, q, Guarded)
  {
    assert w.rebinds[q := Waiting][q := Guarded] == w.rebinds[q := Guarded];
  }

  lemma LedgerChecked(w: World, q: Pid)
    requires AllSettled(w.disk)
    ensures Enabled(Reconnecting(w, q, Guarded), RebindCheck(q))
    ensures Next(Reconnecting(w, q, Guarded), RebindCheck(q)) == Reconnecting(w, q, Checked)
  {
    assert w.rebinds[q := Guarded][q := Checked] == w.rebinds[q := Checked];
  }

  lemma SavedMeanwhile(w: World, p: Pid, q: Pid)
    requires IsServing(w, p) && w.hosts[p].work.Idle?
    ensures var v := Reconnecting(w, q, Checked);
            && Enabled(v, Save(p, Done))
            && Next(v, Save(p, Done)) == v.(disk := w.hosts[p].memory)
            && Enabled(Next(v, Save(p, Done)), RebindCommit(q))
  {
  }

  lemma ReconnectionPasses(w: World, p: Pid, q: Pid)
    requires IsServing(w, p) && w.hosts[p].work.Idle? && Unused(w, q)
    requires AllSettled(w.disk) && w.hostLock.SharedFree() && w.useLock.ExclusiveFree()
    ensures var steps := [RebindStart(q), RebindGuard(q), RebindCheck(q), Save(p, Done)];
            && AllEnabled(w, steps)
            && Enabled(Interleaving(w, steps), RebindCommit(q))
            && Interleaving(w, steps).disk == w.hosts[p].memory
  {
    LocksTaken(w, q);
    LedgerChecked(w, q);
    SavedMeanwhile(w, p, q);
    FourSteps(w, RebindStart(q), RebindGuard(q), RebindCheck(q), Save(p, Done));
  }

  /**
   The failure, wherever it can start: the acknowledgement of the last unsettled run reaches
   the disk but is taken back in memory, a reconnection reads a settled ledger, and the next
   save makes the ledger unsettled while the reconnection may still commit.
   */
  lemma SlipLetsReconnectionThrough(w: World, p: Pid, id: Id, q: Pid)
    requires Inv(w) && OneToAcknowledge(w, p, id) && Unused(w, q)
    ensures var steps := [Acknowledge(p, id, FailedAfter)] + [RebindStart(q), RebindGuard(q), RebindCheck(q), Save(p, Done)];
            && AllEnabled(w, steps)
            && Enabled(Interleaving(w, steps), RebindCommit(q))
            && !AllSettled(Interleaving(w, steps).disk)
  {
    SlipIsEnabled(w, p, id);
    var v := Next(w, Acknowledge(p, id, FailedAfter));
    ReconnectionPasses(v, p, q);
    Prepended(w, Acknowledge(p, id, FailedAfter), [RebindStart(q), RebindGuard(q), RebindCheck(q), Save(p, Done)]);
  }

  /** The reconnection that may check after the host went on with this step, and waits for its locks. */
  function Guarding(w: World, p: Pid, id: Id, next: Step, q: Pid): seq<Step> {
    [Acknowledge(p, id, FailedAfter), next, RebindStart(q), RebindGuard(q)]
  }

  lemma EndedHostIsGone(w: World, p: Pid, q: Pid)
    requires Inv(w) && IsServing(w, p) && Unused(w, q) && w.useLock.ExclusiveFree()
    ensures Enabled(w, End(p))
    ensures var u := Next(w, End(p));
            u.disk == w.disk && Unused(u, q) && u.hostLock.SharedFree() && u.useLock.ExclusiveFree() && MemoriesSettled(u)
  {
    assert p in w.hostLock.sh;
    assert forall other :: IsServing(w, other) ==> other == p;
  }

  /** The same slip is harmless when its host ends before the check: what only memory knew is gone. */
  lemma SlipOfEndedHostIsHarmless(w: World, p: Pid, id: Id, q: Pid)
    requires Inv(w) && OneToAcknowledge(w, p, id) && Unused(w, q)
    ensures var steps := Guarding(w, p, id, End(p), q);
            && AllEnabled(w, steps)
            && Enabled(Interleaving(w, steps), RebindCheck(q))
            && StaysSettled(Next(Interleaving(w, steps), RebindCheck(q)), q)
  {
    SlipIsEnabled(w, p, id);
    var v := Next(w, Acknowledge(p, id, FailedAfter));
    StepKeepsInv(w, Acknowledge(p, id, FailedAfter));
    EndedHostIsGone(v, p, q);
    var u := Next(v, End(p));
    StepKeepsInv(v, End(p));
    GuardedIsGood(u, q);
    FourSteps(w, Acknowledge(p, id, FailedAfter), End(p), RebindStart(q), RebindGuard(q));
    CheckHoldsIff(Reconnecting(u, q, Guarded), q);
  }

  lemma GuardedIsGood(w: World, q: Pid)
    requires Inv(w) && Unused(w, q) && w.hostLock.SharedFree() && w.useLock.ExclusiveFree()
    ensures Enabled(w, RebindStart(q)) && Enabled(Next(w, RebindStart(q)), RebindGuard(q))
    ensures Next(Next(w, RebindStart(q)), RebindGuard(q)) == Reconnecting(w, q, Guarded)
    ensures Inv(Reconnecting(w, q, Guarded))
    ensures Enabled(Reconnecting(w, q, Guarded), RebindCheck(q)) <==> AllSettled(w.disk)
    ensures MemoriesSettled(Reconnecting(w, q, Guarded)) <==> MemoriesSettled(w)
  {
    LocksTaken(w, q);
    StepKeepsInv(w, RebindStart(q));
    StepKeepsInv(Next(w, RebindStart(q)), RebindGuard(q));
    assert Reconnecting(w, q, Guarded).hosts == w.hosts;
  }

  /** And when its host saves again before the check, the check refuses. */
  lemma SlipSavedAgainIsRefused(w: World, p: Pid, id: Id, q: Pid)
    requires Inv(w) && OneToAcknowledge(w, p, id) && Unused(w, q)
    ensures var steps := Guarding(w, p, id, Save(p, Done), q);
            AllEnabled(w, steps) && !Enabled(Interleaving(w, steps), RebindCheck(q))
  {
    SlipIsEnabled(w, p, id);
    var v := Next(w, Acknowledge(p, id, FailedAfter));
    StepKeepsInv(w, Acknowledge(p, id, FailedAfter));
    SavedAgain(v, p, q);
    var u := Next(v, Save(p, Done));
    StepKeepsInv(v, Save(p, Done));
    GuardedIsGood(u, q);
    FourSteps(w, Acknowledge(p, id, FailedAfter), Save(p, Done), RebindStart(q), RebindGuard(q));
  }

  lemma SavedAgain(w: World, p: Pid, q: Pid)
    requires IsServing(w, p) && w.hosts[p].work.Idle? && Unused(w, q) && w.hostLock.SharedFree() && w.useLock.ExclusiveFree()
    ensures Enabled(w, Save(p, Done))
    ensures var u := Next(w, Save(p, Done));
            u.disk == w.hosts[p].memory && Unused(u, q) && u.hostLock.SharedFree() && u.useLock.ExclusiveFree()
  {
  }

  /** A host has started on the ledger with one unsettled run, numbered 0. */
  function Started(): World {
    World(Lock(Some(1), {}), Lock(None, {1}), Lock(None, {}),
          map[1 := Serving(map[0 := false], {}, {}, Idle)], {}, map[], map[0 := false], {})
  }

  lemma StartIsReachable(rest: seq<Step>)
    requires AllEnabled(Started(), rest)
    ensures var steps := [TakeOwner(1)] + ([TakeExclusive(1)] + ([LetGo(1)] + ([TakeShared(1)] + rest)));
            AllEnabled(Quiet(map[0 := false]), steps)
            && Interleaving(Quiet(map[0 := false]), steps) == Interleaving(Started(), rest)
  {
    var w0 := Quiet(map[0 := false]);
    var w1 := Next(w0, TakeOwner(1));
    var w2 := Next(w1, TakeExclusive(1));
    var w3 := Next(w2, LetGo(1));
    assert Next(w3, TakeShared(1)) == Started();
    Prepended(w3, TakeShared(1), rest);
    Prepended(w2, LetGo(1), [TakeShared(1)] + rest);
    Prepended(w1, TakeExclusive(1), [LetGo(1)] + ([TakeShared(1)] + rest));
    Prepended(w0, TakeOwner(1), [TakeExclusive(1)] + ([LetGo(1)] + ([TakeShared(1)] + rest)));
  }

  /** And it can start: from a ledger with one unsettled run, with one host and one reconnection. */
  lemma SlippedAcknowledgement() returns (steps: seq<Step>)
    ensures AllEnabled(Quiet(map[0 := false]), steps)
    ensures Enabled(Interleaving(Quiet(map[0 := false]), steps), RebindCommit(2))
    ensures !AllSettled(Interleaving(Quiet(map[0 := false]), steps).disk)
  {
    var rest := [Acknowledge(1, 0, FailedAfter)] + [RebindStart(2), RebindGuard(2), RebindCheck(2), Save(1, Done)];
    StartedIsGood();
    SlipLetsReconnectionThrough(Started(), 1, 0, 2);
    StartIsReachable(rest);
    steps := [TakeOwner(1)] + ([TakeExclusive(1)] + ([LetGo(1)] + ([TakeShared(1)] + rest)));
  }

  lemma StartedIsGood()
    ensures Inv(Started()) && OneToAcknowledge(Started(), 1, 0) && Unused(Started(), 2)
  {
  }
}
