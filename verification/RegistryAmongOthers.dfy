/**
 Registry histories inside the lock protocol: beside reconnections, older hosts and other
 processes, whatever the order of their steps, what the protocol guarantees holds of the
 registry.
 */
module RegistryAmongOthers {
  import opened Faults
  import opened RunLedger
  import opened RegistrySpec
  import opened RegistryInvariant
  import opened RegistryRetention
  import opened RegistryRuns
  import opened RegistryCoordination
  import opened RegistrySimulation
  import H = RegistryHistory
  import P = HostCoordination
  import S = ReconnectionSafety

  // ---------------------------------------------------------------- one process among others

  lemma RunStepInWorld(w: P.World, p: P.Pid, s: P.Step)
    requires P.IsRunStep(s) && Ready(PartIn(w, p), p, s)
    requires s.Reserve? ==> w.useLock.SharedFree()
    ensures P.Enabled(w, s)
  {
  }

  lemma CommitStepIsOwn(w: P.World, p: P.Pid, s: P.Step)
    requires Ready(PartIn(w, p), p, s) && P.Enabled(w, s) && P.OfCommit(s)
    ensures PartIn(P.Next(w, s), p) == After(PartIn(w, p), p, s)
  {
  }

  lemma FinishStepIsOwn(w: P.World, p: P.Pid, s: P.Step)
    requires Ready(PartIn(w, p), p, s) && P.Enabled(w, s) && P.OfFinish(s)
    ensures PartIn(P.Next(w, s), p) == After(PartIn(w, p), p, s)
  {
  }

  lemma SaveStepIsOwn(w: P.World, p: P.Pid, s: P.Step)
    requires Ready(PartIn(w, p), p, s) && P.Enabled(w, s) && (s.Save? || s.Rotate? || s.Acknowledge?)
    ensures PartIn(P.Next(w, s), p) == After(PartIn(w, p), p, s)
  {
  }

  lemma StartStepIsOwn(w: P.World, p: P.Pid, s: P.Step)
    requires Ready(PartIn(w, p), p, s) && P.Enabled(w, s) && (P.OfStart(s) || s.End?)
    ensures PartIn(P.Next(w, s), p) == After(PartIn(w, p), p, s)
  {
  }

  /** What a process does to its part does not depend on the other processes. */
  lemma StepIsOwn(w: P.World, p: P.Pid, s: P.Step)
    requires Ready(PartIn(w, p), p, s) && P.Enabled(w, s)
    ensures PartIn(P.Next(w, s), p) == After(PartIn(w, p), p, s)
  {
    if P.OfStart(s) || s.End? {
      StartStepIsOwn(w, p, s);
    } else if P.OfCommit(s) {
      CommitStepIsOwn(w, p, s);
    } else if P.OfFinish(s) {
      FinishStepIsOwn(w, p, s);
    } else {
      SaveStepIsOwn(w, p, s);
    }
  }

  /** Before its start is complete a process leaves the ledger to others. */
  predicate Absent(x: Part) {
    x.host.None? || x.host.value.Owning? || x.host.value.Converting?
  }

  /** The steps of others leave a process alone, and the ledger too unless the process is absent. */
  lemma OtherStepIsApart(w: P.World, p: P.Pid, s: P.Step)
    requires P.Inv(w) && P.Enabled(w, s) && s.pid != p
    ensures PartIn(P.Next(w, s), p) == PartIn(w, p).(disk := P.Next(w, s).disk)
    ensures P.Next(w, s).disk != w.disk ==> Absent(PartIn(w, p))
  {
    OtherHostStays(w, p, s);
    if !Absent(PartIn(w, p)) {
      LedgerStays(w, p, s);
    }
  }

  lemma OtherHostStays(w: P.World, p: P.Pid, s: P.Step)
    requires P.Enabled(w, s) && s.pid != p
    ensures PartIn(P.Next(w, s), p).host == PartIn(w, p).host
  {
  }

  lemma LedgerStays(w: P.World, p: P.Pid, s: P.Step)
    requires P.Locks(w) && P.Enabled(w, s) && s.pid != p && !Absent(PartIn(w, p))
    ensures P.Next(w, s).disk == w.disk
  {
    assert w.ownerLock.ex == Some(p);
  }

  // ---------------------------------------------------------------- what a process sees

  /** A process takes a step, or finds that another one has changed the ledger. */
  datatype Move = Own(step: P.Step) | Changed(disk: P.Runs)

  predicate MayMove(x: Part, p: P.Pid, m: Move) {
    match m
    case Own(s) => Ready(x, p, s)
    case Changed(disk) => Absent(x) && disk != x.disk
  }

  function AfterMove(x: Part, p: P.Pid, m: Move): Part
    requires MayMove(x, p, m)
  {
    match m
    case Own(s) => After(x, p, s)
    case Changed(disk) => x.(disk := disk)
  }

  /** These moves lead a process from one part to the other. */
  predicate Follows(x: Part, p: P.Pid, moves: seq<Move>, y: Part)
    decreases |moves|
  {
    if moves == [] then x == y
    else MayMove(x, p, moves[0]) && Follows(AfterMove(x, p, moves[0]), p, moves[1..], y)
  }

  /** What an interleaving looks like to one process. */
  function Seen(w: P.World, p: P.Pid, steps: seq<P.Step>): seq<Move>
    requires P.AllEnabled(w, steps)
    decreases |steps|
  {
    if steps == [] then []
    else
      var v := P.Next(w, steps[0]);
      (if steps[0].pid == p then [Own(steps[0])] else if v.disk != w.disk then [Changed(v.disk)] else [])
      + Seen(v, p, steps[1..])
  }

  lemma {:induction false} FollowsOn(x: Part, p: P.Pid, a: seq<Move>, y: Part, b: seq<Move>, z: Part)
    requires Follows(x, p, a, y) && Follows(y, p, b, z)
    ensures Follows(x, p, a + b, z)
    decreases |a|
  {
    if a == [] {
      assert a + b == b;
    } else {
      assert (a + b)[0] == a[0] && (a + b)[1..] == a[1..] + b;
      FollowsOn(AfterMove(x, p, a[0]), p, a[1..], y, b, z);
    }
  }

  lemma OneMove(x: Part, p: P.Pid, m: Move)
    requires MayMove(x, p, m)
    ensures Follows(x, p, [m], AfterMove(x, p, m))
  {
    assert [m][1..] == [];
  }

  lemma StepKeeps(w: P.World, s: P.Step)
    requires P.Inv(w) && P.Enabled(w, s)
    ensures P.Inv(P.Next(w, s))
  {
    P.LocksKept(w, s);
    P.HostsKept(w, s);
    P.RebindsKept(w, s);
  }

  lemma RunsTail(x: Part, p: P.Pid, steps: seq<P.Step>, y: Part)
    requires steps != [] && RunsTo(x, p, steps, y)
    ensures Ready(x, p, steps[0]) && RunsTo(After(x, p, steps[0]), p, steps[1..], y)
  {
  }

  lemma SeenTail(w: P.World, p: P.Pid, steps: seq<P.Step>)
    requires steps != [] && P.AllEnabled(w, steps)
    ensures var v := P.Next(w, steps[0]);
            var rest := Seen(v, p, steps[1..]);
            Seen(w, p, steps) ==
              if steps[0].pid == p then [Own(steps[0])] + rest
              else if v.disk != w.disk then [Changed(v.disk)] + rest else rest
  {
  }

  lemma FollowsTail(x: Part, p: P.Pid, m: Move, rest: seq<Move>, y: Part)
    requires Follows(x, p, [m] + rest, y)
    ensures MayMove(x, p, m) && Follows(AfterMove(x, p, m), p, rest, y)
  {
    assert ([m] + rest)[1..] == rest;
  }

  /** However the steps of the others come between, a process ends where the moves it sees lead. */
  lemma {:induction false} MovesDecide(w: P.World, p: P.Pid, steps: seq<P.Step>, y: Part)
    requires P.Inv(w) && P.AllEnabled(w, steps) && Follows(PartIn(w, p), p, Seen(w, p, steps), y)
    ensures PartIn(P.Interleaving(w, steps), p) == y
    decreases |steps|
  {
    if steps != [] {
      var s := steps[0];
      var v := P.Next(w, s);
      var rest := Seen(v, p, steps[1..]);
      StepKeeps(w, s);
      SeenTail(w, p, steps);
      if s.pid == p {
        FollowsTail(PartIn(w, p), p, Own(s), rest, y);
        StepIsOwn(w, p, s);
      } else {
        OtherStepIsApart(w, p, s);
        if v.disk != w.disk {
          FollowsTail(PartIn(w, p), p, Changed(v.disk), rest, y);
        }
      }
      MovesDecide(v, p, steps[1..], y);
    }
  }

  /** The steps of a call can be taken in any world; only a start needs the run-use lock to be free. */
  lemma {:induction false} CallStepsEnabled(w: P.World, p: P.Pid, steps: seq<P.Step>, y: Part, granted: bool)
    requires RunsTo(PartIn(w, p), p, steps, y) && Lawful(steps, granted)
    requires granted ==> w.useLock.SharedFree()
    ensures P.AllEnabled(w, steps) && PartIn(P.Interleaving(w, steps), p) == y
    decreases |steps|
  {
    if steps != [] {
      var s := steps[0];
      RunStepInWorld(w, p, s);
      StepIsOwn(w, p, s);
      assert Lawful(steps[1..], false) by {
        assert forall i :: 0 <= i < |steps[1..]| ==> steps[1..][i] == steps[i + 1];
      }
      CallStepsEnabled(P.Next(w, s), p, steps[1..], y, false);
    }
  }

  /**
   In any world where a process shows the registry, each call is a sequence of enabled steps
   of that process to a world where it shows the registry after the call.
   */
  lemma CallRunsInWorld(tape: Tape, w: P.World, p: P.Pid, r: Registry, call: H.Call)
    requires Inv(r) && H.Enabled(tape, H.Up(r), call) && H.OfRegistry(call) && NewIdentity(r, call)
    requires PartIn(w, p) == PartOf(r)
    requires Granted(call) ==> w.useLock.SharedFree()
    ensures exists steps ::
      && P.AllEnabled(w, steps) && Lawful(steps, Granted(call)) && OfProcess(steps, p)
      && PartIn(P.Interleaving(w, steps), p) == PartOf(H.CallResult(tape, r, call).registry)
  {
    CallIsSimulated(tape, r, call, p);
    var y := PartOf(H.CallResult(tape, r, call).registry);
    var steps :| RunsTo(PartOf(r), p, steps, y) && Lawful(steps, Granted(call));
    CallStepsEnabled(w, p, steps, y, Granted(call));
    ReadyStepsAreOwn(PartOf(r), p, steps);
  }

  predicate OfProcess(steps: seq<P.Step>, p: P.Pid) {
    forall i :: 0 <= i < |steps| ==> steps[i].pid == p
  }

  lemma {:induction false} ReadyStepsAreOwn(x: Part, p: P.Pid, steps: seq<P.Step>)
    requires AllReady(x, p, steps)
    ensures OfProcess(steps, p)
    decreases |steps|
  {
    if steps != [] {
      ReadyStepsAreOwn(After(x, p, steps[0]), p, steps[1..]);
      assert forall i :: 1 <= i < |steps| ==> steps[i] == steps[1..][i - 1];
    }
  }

  // ---------------------------------------------------------------- histories

  function PartOfWorld(v: H.World): Part {
    if v.Down? then Part(None, View(v.disk.ledger.runs)) else PartOf(v.registry)
  }

  ghost predicate Becomes(x: Part, p: P.Pid, y: Part) {
    exists moves :: Follows(x, p, moves, y)
  }

  lemma BecomesOn(x: Part, p: P.Pid, y: Part, z: Part)
    requires Becomes(x, p, y) && Becomes(y, p, z)
    ensures Becomes(x, p, z)
  {
    var a :| Follows(x, p, a, y);
    var b :| Follows(y, p, b, z);
    FollowsOn(x, p, a, y, b, z);
  }

  lemma {:induction false} RunBecomes(x: Part, p: P.Pid, steps: seq<P.Step>, y: Part)
    requires RunsTo(x, p, steps, y)
    ensures Becomes(x, p, y)
    decreases |steps|
  {
    if steps == [] {
      assert Follows(x, p, [], y);
    } else {
      RunsTail(x, p, steps, y);
      StepBecomes(x, p, steps[0]);
      RunBecomes(After(x, p, steps[0]), p, steps[1..], y);
      BecomesOn(x, p, After(x, p, steps[0]), y);
    }
  }

  lemma ReachesBecomes(x: Part, p: P.Pid, y: Part, granted: bool)
    requires Reaches(x, p, y, granted)
    ensures Becomes(x, p, y)
  {
    var steps :| RunsTo(x, p, steps, y) && Lawful(steps, granted);
    RunBecomes(x, p, steps, y);
  }

  lemma StepBecomes(x: Part, p: P.Pid, s: P.Step)
    requires Ready(x, p, s)
    ensures Becomes(x, p, After(x, p, s))
  {
    OneMove(x, p, Own(s));
  }

  lemma ChangeBecomes(x: Part, p: P.Pid, disk: P.Runs)
    requires Absent(x)
    ensures Becomes(x, p, x.(disk := disk))
  {
    if disk == x.disk {
      assert Follows(x, p, [], x);
    } else {
      OneMove(x, p, Changed(disk));
    }
  }

  lemma EndBecomes(h: P.Host, disk: P.Runs, p: P.Pid)
    ensures Becomes(Part(Some(h), disk), p, Part(None, disk))
  {
    StepBecomes(Part(Some(h), disk), p, P.End(p));
  }

  lemma OwnerBecomes(disk: P.Runs, p: P.Pid)
    ensures Becomes(Part(None, disk), p, Part(Some(P.Owning), disk))
    ensures Becomes(Part(Some(P.Owning), disk), p, Part(Some(P.Exclusive), disk))
  {
    StepBecomes(Part(None, disk), p, P.TakeOwner(p));
    StepBecomes(Part(Some(P.Owning), disk), p, P.TakeExclusive(p));
  }

  lemma SharerBecomes(disk: P.Runs, p: P.Pid)
    ensures Becomes(Part(Some(P.Exclusive), disk), p, Part(Some(P.Converting), disk))
    ensures Becomes(Part(Some(P.Converting), disk), p, Part(Some(P.Serving(disk, {}, {}, P.Idle)), disk))
  {
    StepBecomes(Part(Some(P.Exclusive), disk), p, P.LetGo(p));
    StepBecomes(Part(Some(P.Converting), disk), p, P.TakeShared(p));
  }

  /** A host takes its locks and reads the ledger. */
  lemma LocksBecome(disk: P.Runs, p: P.Pid)
    ensures Becomes(Part(None, disk), p, Part(Some(P.Serving(disk, {}, {}, P.Idle)), disk))
  {
    var x := Part(None, disk);
    OwnerBecomes(disk, p);
    SharerBecomes(disk, p);
    BecomesOn(x, p, Part(Some(P.Owning), disk), Part(Some(P.Exclusive), disk));
    BecomesOn(x, p, Part(Some(P.Exclusive), disk), Part(Some(P.Converting), disk));
    BecomesOn(x, p, Part(Some(P.Converting), disk), Part(Some(P.Serving(disk, {}, {}, P.Idle)), disk));
  }

  lemma OpenedView(disk: Disk, clock: nat)
    requires DistinctRuns(disk.ledger.runs) && DistinctRuns(Opened(disk, clock).runs) && Wellformed(disk.ledger.runs)
    ensures View(Opened(disk, clock).runs) == View(disk.ledger.runs)
  {
    var runs := Opened(disk, clock).runs;
    forall i | 0 <= i < |runs|
      ensures runs[i].id in View(disk.ledger.runs) && View(disk.ledger.runs)[runs[i].id] == runs[i].Settled()
    {
      ViewAt(disk.ledger.runs, i);
      assert disk.ledger.runs[i].Wellformed();
    }
    forall id | id in View(disk.ledger.runs) ensures Has(runs, id) {
      ViewKeys(disk.ledger.runs, id);
      assert runs[Position(disk.ledger.runs, id)].id == id;
    }
    ViewIs(runs, View(disk.ledger.runs));
  }

  lemma OpenedShows(disk: Disk, clock: nat)
    requires DiskInv(disk)
    ensures PartOf(Opened(disk, clock))
         == Part(Some(P.Serving(View(disk.ledger.runs), {}, {}, P.Idle)), View(disk.ledger.runs))
  {
    OpenedDistinct(disk, clock);
    OpenedView(disk, clock);
    assert HostView(Opened(disk, clock)).reserved == {} && HostView(Opened(disk, clock)).owned == {};
  }

  lemma OpenReaches(tape: Tape, disk: Disk, clock: nat, now: nat, p: P.Pid)
    requires DiskInv(disk)
    ensures Reaches(PartOf(Opened(disk, clock)), p, PartOf(Open(tape, disk, clock, now).registry), false)
  {
    var r := Opened(disk, clock);
    var s := Open(tape, disk, clock, now).registry;
    OpenedKeeps(disk, clock);
    PersistKeeps(tape, r);
    var saved := Persist(tape, r);
    NothingTaken(r);
    NothingTaken(s);
    PersistReaches(tape, r, r, saved.registry, {}, p);
    if saved.ok {
      CleanupReaches(tape, saved.registry, {}, p);
      CleanupKeeps(tape, saved.registry);
      var cleaned := CleanupRetired(tape, saved.registry);
      ReachesOn(Shown(r, {}), p, Shown(saved.registry, {}), Shown(cleaned.registry, {}), false);
      if cleaned.ok {
        ExpireReaches(tape, cleaned.registry, now, {}, p);
        ReachesOn(Shown(r, {}), p, Shown(cleaned.registry, {}), Shown(s, {}), false);
      }
    }
  }

  lemma StartBecomes(tape: Tape, disk: Disk, clock: nat, now: nat, p: P.Pid)
    requires DiskInv(disk)
    ensures var s := Open(tape, disk, clock, now);
            Becomes(Part(None, View(disk.ledger.runs)), p,
                    PartOfWorld(if s.ok then H.Up(s.registry) else H.Down(s.registry.disk, s.registry.clock)))
  {
    var x := Part(None, View(disk.ledger.runs));
    var s := Open(tape, disk, clock, now);
    LocksBecome(View(disk.ledger.runs), p);
    OpenedShows(disk, clock);
    OpenReaches(tape, disk, clock, now, p);
    ReachesBecomes(PartOf(Opened(disk, clock)), p, PartOf(s.registry), false);
    BecomesOn(x, p, PartOf(Opened(disk, clock)), PartOf(s.registry));
    if !s.ok {
      EndBecomes(HostView(s.registry), View(s.registry.disk.ledger.runs), p);
      BecomesOn(x, p, PartOf(s.registry), Part(None, View(s.registry.disk.ledger.runs)));
    }
  }

  lemma DoBecomes(tape: Tape, v: H.World, call: H.Call, p: P.Pid)
    requires H.Good(v) && H.Enabled(tape, v, call) && (v.Up? ==> NewIdentity(v.registry, call))
    ensures Becomes(PartOfWorld(v), p, PartOfWorld(H.Do(tape, v, call)))
  {
    match call
    case Start(now) => StartBecomes(tape, v.disk, v.clock, now, p);
    case Crash => EndBecomes(HostView(v.registry), View(v.registry.disk.ledger.runs), p);
    case OtherHost(left) => ChangeBecomes(PartOfWorld(v), p, View(left.ledger.runs));
    case _ =>
      CallIsSimulated(tape, v.registry, call, p);
      ReachesBecomes(PartOfWorld(v), p, PartOfWorld(H.Do(tape, v, call)), Granted(call));
  }

  predicate NewIdentities(tape: Tape, v: H.World, calls: seq<H.Call>)
    requires H.AllEnabled(tape, v, calls)
    decreases |calls|
  {
    calls == []
    || ((v.Up? ==> NewIdentity(v.registry, calls[0])) && NewIdentities(tape, H.Do(tape, v, calls[0]), calls[1..]))
  }

  lemma {:induction false} HistoryBecomes(tape: Tape, v: H.World, calls: seq<H.Call>, p: P.Pid)
    requires H.Good(v) && H.AllEnabled(tape, v, calls) && NewIdentities(tape, v, calls)
    ensures Becomes(PartOfWorld(v), p, PartOfWorld(H.History(tape, v, calls)))
    decreases |calls|
  {
    if calls == [] {
      assert Follows(PartOfWorld(v), p, [], PartOfWorld(v));
    } else {
      var next := H.Do(tape, v, calls[0]);
      DoBecomes(tape, v, calls[0], p);
      H.DoKeeps(tape, v, calls[0]);
      HistoryBecomes(tape, next, calls[1..], p);
      BecomesOn(PartOfWorld(v), p, PartOfWorld(next), PartOfWorld(H.History(tape, v, calls)));
    }
  }

  // ---------------------------------------------------------------- a host without others

  /** The locks of a world in which at most this process runs. */
  predicate OnlyOne(w: P.World, p: P.Pid) {
    && w.legacy == {} && w.rebinds == map[] && w.useLock.ex.None? && w.hosts.Keys <= {p}
    && w.ownerLock == P.Lock(if p in w.hosts then Some(p) else None, {})
    && (p in w.hosts && w.hosts[p].Exclusive? ==> w.hostLock == P.Lock(Some(p), {}))
    && (p in w.hosts && w.hosts[p].Serving? ==> w.hostLock == P.Lock(None, {p}))
    && (p !in w.hosts || w.hosts[p].Owning? || w.hosts[p].Converting? ==> w.hostLock == P.Lock(None, {}))
  }

  lemma LoneStart(w: P.World, p: P.Pid, s: P.Step)
    requires OnlyOne(w, p) && Ready(PartIn(w, p), p, s) && !P.IsRunStep(s)
    ensures P.Enabled(w, s) && OnlyOne(P.Next(w, s), p)
  {
  }

  lemma LoneRunStep(w: P.World, p: P.Pid, s: P.Step)
    requires OnlyOne(w, p) && Ready(PartIn(w, p), p, s) && P.IsRunStep(s)
    ensures P.Enabled(w, s) && OnlyOne(P.Next(w, s), p)
  {
    RunStepInWorld(w, p, s);
  }

  lemma LoneStep(w: P.World, p: P.Pid, s: P.Step)
    requires OnlyOne(w, p) && Ready(PartIn(w, p), p, s)
    ensures P.Enabled(w, s) && OnlyOne(P.Next(w, s), p) && PartIn(P.Next(w, s), p) == After(PartIn(w, p), p, s)
  {
    if P.IsRunStep(s) {
      LoneRunStep(w, p, s);
    } else {
      LoneStart(w, p, s);
    }
    StepIsOwn(w, p, s);
  }

  /** Another host comes, changes the ledger and goes. */
  lemma LoneChange(w: P.World, p: P.Pid, disk: P.Runs)
    requires OnlyOne(w, p) && Absent(PartIn(w, p))
    ensures var o := p + 1;
            && P.Enabled(w, P.LegacyStart(o))
            && var a := P.Next(w, P.LegacyStart(o));
               && a.disk == w.disk && P.Enabled(a, P.LegacyWrite(o, disk))
               && var b := P.Next(a, P.LegacyWrite(o, disk));
                  && b.disk == disk && P.Enabled(b, P.End(o))
                  && var c := P.Next(b, P.End(o));
                     OnlyOne(c, p) && PartIn(c, p) == PartIn(w, p).(disk := disk)
  {
  }

  lemma SeenOne(w: P.World, p: P.Pid, s: P.Step, rest: seq<P.Step>)
    requires P.Enabled(w, s) && P.AllEnabled(P.Next(w, s), rest)
    ensures P.AllEnabled(w, [s] + rest)
    ensures Seen(w, p, [s] + rest) ==
      (if s.pid == p then [Own(s)] else if P.Next(w, s).disk != w.disk then [Changed(P.Next(w, s).disk)] else [])
      + Seen(P.Next(w, s), p, rest)
  {
    assert ([s] + rest)[1..] == rest;
  }

  lemma ChangeSeen(w: P.World, p: P.Pid, disk: P.Runs, rest: seq<P.Step>)
    requires OnlyOne(w, p) && Absent(PartIn(w, p)) && disk != w.disk
    requires var o := p + 1;
      P.Enabled(w, P.LegacyStart(o))
      && P.Enabled(P.Next(w, P.LegacyStart(o)), P.LegacyWrite(o, disk))
      && P.Enabled(P.Next(P.Next(w, P.LegacyStart(o)), P.LegacyWrite(o, disk)), P.End(o))
      && P.AllEnabled(P.Next(P.Next(P.Next(w, P.LegacyStart(o)), P.LegacyWrite(o, disk)), P.End(o)), rest)
    ensures var o := p + 1;
      var c := P.Next(P.Next(P.Next(w, P.LegacyStart(o)), P.LegacyWrite(o, disk)), P.End(o));
      var steps := [P.LegacyStart(o)] + ([P.LegacyWrite(o, disk)] + ([P.End(o)] + rest));
      P.AllEnabled(w, steps) && Seen(w, p, steps) == [Changed(disk)] + Seen(c, p, rest)
  {
    var o := p + 1;
    var a := P.Next(w, P.LegacyStart(o));
    var b := P.Next(a, P.LegacyWrite(o, disk));
    SeenOne(b, p, P.End(o), rest);
    SeenOne(a, p, P.LegacyWrite(o, disk), [P.End(o)] + rest);
    SeenOne(w, p, P.LegacyStart(o), [P.LegacyWrite(o, disk)] + ([P.End(o)] + rest));
  }

  /** Every sequence of moves is what one host sees that has the world to itself and to older hosts. */
  lemma {:induction false} LoneMoves(w: P.World, p: P.Pid, moves: seq<Move>, y: Part) returns (steps: seq<P.Step>)
    requires OnlyOne(w, p) && Follows(PartIn(w, p), p, moves, y)
    ensures P.AllEnabled(w, steps) && Seen(w, p, steps) == moves
    decreases |moves|
  {
    if moves == [] {
      steps := [];
    } else {
      match moves[0] {
        case Own(s) =>
          LoneStep(w, p, s);
          var rest := LoneMoves(P.Next(w, s), p, moves[1..], y);
          SeenOne(w, p, s, rest);
          steps := [s] + rest;
        case Changed(disk) =>
          var o := p + 1;
          LoneChange(w, p, disk);
          var c := P.Next(P.Next(P.Next(w, P.LegacyStart(o)), P.LegacyWrite(o, disk)), P.End(o));
          assert PartIn(c, p) == AfterMove(PartIn(w, p), p, moves[0]);
          var rest := LoneMoves(c, p, moves[1..], y);
          ChangeSeen(w, p, disk, rest);
          steps := [P.LegacyStart(o)] + ([P.LegacyWrite(o, disk)] + ([P.End(o)] + rest));
      }
    }
  }

  /** From a world in which nothing has happened: what `p` sees of these steps leads to the registry. */
  ghost predicate Shows(p: P.Pid, steps: seq<P.Step>, v: H.World) {
    && P.AllEnabled(P.Quiet(map[]), steps)
    && Follows(Part(None, map[]), p, Seen(P.Quiet(map[]), p, steps), PartOfWorld(v))
  }

  /**
   Every history of registry calls, failing saves, crashes, restarts and other hosts in between
   is a run of the lock protocol: there are enabled steps from a world in which nothing has
   happened of which one process sees the history.
   */
  lemma HistoryIsSimulated(tape: Tape, calls: seq<H.Call>, p: P.Pid)
    requires H.AllEnabled(tape, H.Down(H.EMPTY_DISK, 0), calls) && NewIdentities(tape, H.Down(H.EMPTY_DISK, 0), calls)
    ensures exists steps :: Shows(p, steps, H.History(tape, H.Down(H.EMPTY_DISK, 0), calls))
  {
    var start := H.Down(H.EMPTY_DISK, 0);
    var v := H.History(tape, start, calls);
    assert PartOfWorld(start) == Part(None, map[]);
    HistoryBecomes(tape, start, calls, p);
    var moves :| Follows(PartOfWorld(start), p, moves, PartOfWorld(v));
    assert OnlyOne(P.Quiet(map[]), p) && PartIn(P.Quiet(map[]), p) == PartOfWorld(start);
    var steps := LoneMoves(P.Quiet(map[]), p, moves, PartOfWorld(v));
    assert Shows(p, steps, v);
  }

  /** Whatever else happens in such a world, the process ends as the registry: memory, starts, held runs and ledger. */
  lemma ShownIsThere(p: P.Pid, steps: seq<P.Step>, v: H.World)
    requires Shows(p, steps, v)
    ensures P.Inv(P.Interleaving(P.Quiet(map[]), steps))
    ensures PartIn(P.Interleaving(P.Quiet(map[]), steps), p) == PartOfWorld(v)
  {
    assert PartIn(P.Quiet(map[]), p) == Part(None, map[]);
    P.InterleavingKeeps(P.Quiet(map[]), steps);
    MovesDecide(P.Quiet(map[]), p, steps, PartOfWorld(v));
  }

  // ---------------------------------------------------------------- what reconnections see

  /** No start is reserved, no run holds its lock, and what is unsettled is in `slipped`. */
  predicate QuietBut(v: H.World, slipped: set<Id>) {
    && (v.Up? ==> v.registry.pending == [] && Owned(v.registry.active) == {})
    && (v.Up? ==> forall i :: 0 <= i < |v.registry.runs| && !v.registry.runs[i].Settled() ==> v.registry.runs[i].id in slipped)
    && (var l := H.DiskOf(v).ledger;
        forall j :: 0 <= j < |l.runs| && !l.runs[j].Settled() ==> l.runs[j].id in slipped)
  }

  lemma QuietView(r: Registry)
    ensures HostView(r).reserved == {} ==> r.pending == []
  {
    if r.pending != [] {
      assert r.pending[0].id in HostView(r).reserved;
    }
  }

  lemma SlippedRuns(runs: seq<Run>, slipped: set<Id>)
    requires DistinctRuns(runs) && forall id :: id in View(runs) && !View(runs)[id] ==> id in slipped
    ensures forall i :: 0 <= i < |runs| && !runs[i].Settled() ==> runs[i].id in slipped
  {
    forall i | 0 <= i < |runs| && !runs[i].Settled() ensures runs[i].id in slipped {
      ViewAt(runs, i);
    }
  }

  lemma GoodIsDistinct(v: H.World)
    requires H.Good(v)
    ensures DistinctRuns(H.DiskOf(v).ledger.runs)
    ensures v.Up? ==> DistinctRuns(v.registry.runs)
  {
  }

  /** What a reconnection may find is read off the process's part. */
  lemma PartIsQuiet(v: H.World, w: P.World, p: P.Pid)
    requires H.Good(v) && PartIn(w, p) == PartOfWorld(v)
    requires forall q :: P.IsServing(w, q) ==> w.hosts[q].reserved == {} && w.hosts[q].owned == {}
    requires forall q, id :: P.IsServing(w, q) && id in w.hosts[q].memory && !w.hosts[q].memory[id] ==> id in w.slipped
    requires forall id :: id in w.disk && !w.disk[id] ==> id in w.slipped
    ensures QuietBut(v, w.slipped)
  {
    GoodIsDistinct(v);
    SlippedRuns(H.DiskOf(v).ledger.runs, w.slipped);
    if v.Up? {
      assert P.IsServing(w, p) && w.hosts[p] == HostView(v.registry);
      QuietView(v.registry);
      SlippedRuns(v.registry.runs, w.slipped);
    }
  }

  /**
   The guarantee of the protocol for the registry itself. Let any registry history be seen by a
   process among reconnections, older hosts and other processes, whose steps come between in any
   order. Whenever a reconnection may commit, the registry has no reserved start and holds no
   run, and every unsettled record, in memory or on disk, is one whose acknowledgement reached
   the disk and reported failure. When every such acknowledgement was repeated with success,
   nothing is unsettled.
   */
  lemma ReconnectionFindsQuietRegistry(tape: Tape, calls: seq<H.Call>, p: P.Pid, steps: seq<P.Step>, q: P.Pid)
    requires H.AllEnabled(tape, H.Down(H.EMPTY_DISK, 0), calls)
    requires Shows(p, steps, H.History(tape, H.Down(H.EMPTY_DISK, 0), calls))
    requires P.Enabled(P.Interleaving(P.Quiet(map[]), steps), P.RebindCommit(q))
    ensures QuietBut(H.History(tape, H.Down(H.EMPTY_DISK, 0), calls), P.Interleaving(P.Quiet(map[]), steps).slipped)
    ensures S.Repeated(steps) ==> QuietBut(H.History(tape, H.Down(H.EMPTY_DISK, 0), calls), {})
  {
    H.HistoryKeeps(tape, H.Down(H.EMPTY_DISK, 0), calls);
    CommitFindsQuiet(H.History(tape, H.Down(H.EMPTY_DISK, 0), calls), p, steps, q);
    if S.Repeated(steps) {
      S.NothingSlips(map[], steps);
    }
  }

  lemma CommitFindsQuiet(v: H.World, p: P.Pid, steps: seq<P.Step>, q: P.Pid)
    requires H.Good(v) && Shows(p, steps, v)
    requires P.Enabled(P.Interleaving(P.Quiet(map[]), steps), P.RebindCommit(q))
    ensures QuietBut(v, P.Interleaving(P.Quiet(map[]), steps).slipped)
  {
    ShownIsThere(p, steps, v);
    P.ReconnectionIsGuarded(map[], steps, q);
    PartIsQuiet(v, P.Interleaving(P.Quiet(map[]), steps), p);
  }

  predicate EverythingSettled(runs: seq<Run>) {
    forall i :: 0 <= i < |runs| ==> runs[i].Settled()
  }

  lemma SettledView(runs: seq<Run>)
    requires DistinctRuns(runs)
    ensures P.AllSettled(View(runs)) <==> EverythingSettled(runs)
  {
    forall i | 0 <= i < |runs| ensures runs[i].id in View(runs) && View(runs)[runs[i].id] == runs[i].Settled() {
      ViewAt(runs, i);
    }
    forall id | id in View(runs) ensures Has(runs, id) && View(runs)[id] == runs[Position(runs, id)].Settled() {
      ViewKeys(runs, id);
    }
  }

  /** The only serving host is the one that shows the registry. */
  lemma OnlyMemory(w: P.World, p: P.Pid, r: Registry)
    requires P.Inv(w) && PartIn(w, p) == PartOf(r)
    ensures S.MemoriesSettled(w) <==> P.AllSettled(View(r.runs))
  {
    assert P.IsServing(w, p) && w.hosts[p] == HostView(r);
    assert forall q :: P.IsServing(w, q) ==> q == p;
  }

  /**
   The exact condition for the registry: while it runs, and whatever happened before, a root
   reconnection may rely on its check until it ends if and only if every run in the registry's
   memory is settled at the check. The check reads the ledger alone.
   */
  lemma ReconnectionMayRelyIff(tape: Tape, calls: seq<H.Call>, p: P.Pid, steps: seq<P.Step>, q: P.Pid)
    requires H.AllEnabled(tape, H.Down(H.EMPTY_DISK, 0), calls)
    requires Shows(p, steps, H.History(tape, H.Down(H.EMPTY_DISK, 0), calls))
    requires H.History(tape, H.Down(H.EMPTY_DISK, 0), calls).Up?
    requires P.Enabled(P.Interleaving(P.Quiet(map[]), steps), P.RebindCheck(q))
    ensures S.StaysSettled(P.Next(P.Interleaving(P.Quiet(map[]), steps), P.RebindCheck(q)), q)
       <==> EverythingSettled(H.History(tape, H.Down(H.EMPTY_DISK, 0), calls).registry.runs)
  {
    var v := H.History(tape, H.Down(H.EMPTY_DISK, 0), calls);
    H.HistoryKeeps(tape, H.Down(H.EMPTY_DISK, 0), calls);
    GoodIsDistinct(v);
    ShownMayRely(v, p, steps, q);
  }

  lemma ShownMayRely(v: H.World, p: P.Pid, steps: seq<P.Step>, q: P.Pid)
    requires v.Up? && DistinctRuns(v.registry.runs) && Shows(p, steps, v)
    requires P.Enabled(P.Interleaving(P.Quiet(map[]), steps), P.RebindCheck(q))
    ensures S.StaysSettled(P.Next(P.Interleaving(P.Quiet(map[]), steps), P.RebindCheck(q)), q)
       <==> EverythingSettled(v.registry.runs)
  {
    var w := P.Interleaving(P.Quiet(map[]), steps);
    ShownIsThere(p, steps, v);
    S.CheckHoldsIff(w, q);
    OnlyMemory(w, p, v.registry);
    SettledView(v.registry.runs);
  }
}
