/** Source-use leases shared by runs and Git mutations (crates/idk/src/model.rs). */
module SourceGateModel {
  import opened Faults

  type Identity = seq<string>
  type Operation = nat

  datatype GateState = GateState(
    ready: bool,
    blocks: map<Operation, string>,
    runs: map<Operation, string>,
    mutation: Option<Operation>,
    generation: nat)
  {
    predicate Open() {
      ready && blocks == map[]
    }
  }

  const IDLE := GateState(false, map[], map[], None, 0)

  datatype Lease = Lease(identity: Identity, operation: Operation, mutation: bool)

  type States = map<Identity, GateState>

  function StateOf(states: States, identity: Identity): GateState {
    if identity in states then states[identity] else IDLE
  }

  /** `reserve`: a run has a name, a mutation has none. Looking an identity up creates its entry. */
  function Reserve(states: States, identity: Identity, operation: Operation, run: Option<string>): (States, bool) {
    var state := StateOf(states, identity);
    if !state.Open() || state.mutation.Some? || (run.None? && state.runs != map[]) || operation in state.runs then
      (states[identity := state], false)
    else if run.Some? then
      (states[identity := state.(runs := state.runs[operation := run.value])], true)
    else
      (states[identity := state.(mutation := Some(operation))], true)
  }

  /** Dropping a lease; only the end of a mutation advances the generation. */
  function Release(states: States, lease: Lease): States {
    if lease.identity !in states then states
    else
      var state := states[lease.identity];
      if lease.mutation && state.mutation == Some(lease.operation) then
        states[lease.identity := state.(mutation := None, generation := state.generation + 1)]
      else if !lease.mutation then
        states[lease.identity := state.(runs := state.runs - {lease.operation})]
      else states
  }

  function SetReady(states: States, identity: Identity, ready: bool): States {
    states[identity := StateOf(states, identity).(ready := ready)]
  }

  function SetBlock(states: States, identity: Identity, id: Operation, reason: Option<string>): States {
    var state := StateOf(states, identity);
    var blocks := if reason.Some? then state.blocks[id := reason.value] else state.blocks - {id};
    states[identity := state.(blocks := blocks)]
  }

  // ---------------------------------------------------------------- leases and entries

  /** The entry that a lease stands for. */
  predicate Entered(states: States, lease: Lease) {
    && lease.identity in states
    && if lease.mutation then states[lease.identity].mutation == Some(lease.operation)
       else lease.operation in states[lease.identity].runs
  }

  /** Outstanding leases and entries of the gate are the same things. */
  ghost predicate OneToOne(states: States, leases: set<Lease>) {
    forall lease: Lease :: lease in leases <==> Entered(states, lease)
  }

  /** No worktree has a run and a mutation at once. */
  predicate Exclusive(states: States) {
    forall identity :: identity in states ==> states[identity].mutation.None? || states[identity].runs == map[]
  }

  ghost predicate GateInv(states: States, leases: set<Lease>) {
    OneToOne(states, leases) && Exclusive(states)
  }

  datatype Act =
    | Acquire(identity: Identity, operation: Operation, run: Option<string>)
    | Drop(lease: Lease)
    | Ready(identity: Identity, ready: bool)
    | Block(identity: Identity, id: Operation, reason: Option<string>)

  datatype Gate = Gate(states: States, leases: set<Lease>)

  /** A granted lease is held until it is dropped, which its owner can do only once. */
  predicate Possible(g: Gate, act: Act) {
    act.Drop? ==> act.lease in g.leases
  }

  function Step(g: Gate, act: Act): Gate
    requires Possible(g, act)
  {
    match act
    case Acquire(identity, operation, run) =>
      var (states, granted) := Reserve(g.states, identity, operation, run);
      Gate(states, if granted then g.leases + {Lease(identity, operation, run.None?)} else g.leases)
    case Drop(lease) => Gate(Release(g.states, lease), g.leases - {lease})
    case Ready(identity, ready) => Gate(SetReady(g.states, identity, ready), g.leases)
    case Block(identity, id, reason) => Gate(SetBlock(g.states, identity, id, reason), g.leases)
  }

  predicate AllPossible(g: Gate, acts: seq<Act>)
    decreases |acts|
  {
    acts == [] || (Possible(g, acts[0]) && AllPossible(Step(g, acts[0]), acts[1..]))
  }

  function History(g: Gate, acts: seq<Act>): Gate
    requires AllPossible(g, acts)
    decreases |acts|
  {
    if acts == [] then g else History(Step(g, acts[0]), acts[1..])
  }

  lemma AcquireKeeps(g: Gate, identity: Identity, operation: Operation, run: Option<string>)
    requires GateInv(g.states, g.leases)
    ensures var s := Step(g, Acquire(identity, operation, run)); GateInv(s.states, s.leases)
    ensures Reserve(g.states, identity, operation, run).1 ==> Lease(identity, operation, run.None?) !in g.leases
  {
    var s := Step(g, Acquire(identity, operation, run));
    var state := StateOf(g.states, identity);
    forall lease: Lease ensures lease in s.leases <==> Entered(s.states, lease) {
      assert lease in g.leases <==> Entered(g.states, lease);
    }
  }

  lemma DropKeeps(g: Gate, lease: Lease)
    requires GateInv(g.states, g.leases) && lease in g.leases
    ensures var s := Step(g, Drop(lease)); GateInv(s.states, s.leases)
  {
    var s := Step(g, Drop(lease));
    assert Entered(g.states, lease);
    forall other: Lease ensures other in s.leases <==> Entered(s.states, other) {
      assert other in g.leases <==> Entered(g.states, other);
    }
  }

  lemma StepKeeps(g: Gate, act: Act)
    requires GateInv(g.states, g.leases) && Possible(g, act)
    ensures var s := Step(g, act); GateInv(s.states, s.leases)
  {
    match act
    case Acquire(identity, operation, run) => AcquireKeeps(g, identity, operation, run);
    case Drop(lease) => DropKeeps(g, lease);
    case Ready(identity, ready) => SameEntries(g, SetReady(g.states, identity, ready), identity);
    case Block(identity, id, reason) => SameEntries(g, SetBlock(g.states, identity, id, reason), identity);
  }

  lemma SameEntries(g: Gate, states: States, identity: Identity)
    requires GateInv(g.states, g.leases) && identity in states
    requires states == g.states[identity := states[identity]]
    requires states[identity].runs == StateOf(g.states, identity).runs
    requires states[identity].mutation == StateOf(g.states, identity).mutation
    ensures GateInv(states, g.leases)
  {
    forall lease: Lease ensures lease in g.leases <==> Entered(states, lease) {
      assert lease in g.leases <==> Entered(g.states, lease);
    }
  }

  /** A held run lease keeps the generation of its worktree and stays entered. */
  lemma StepUnderRunLease(g: Gate, act: Act, lease: Lease)
    requires GateInv(g.states, g.leases) && Possible(g, act)
    requires lease in g.leases && !lease.mutation && act != Drop(lease)
    ensures var s := Step(g, act);
            && lease in s.leases
            && StateOf(s.states, lease.identity).generation == StateOf(g.states, lease.identity).generation
  {
    assert Entered(g.states, lease);
    if act.Drop? {
      assert Entered(g.states, act.lease);
    }
  }

  /**
   From any good gate, whatever runs and mutations are granted and dropped in any order: as long
   as a run lease is held, its worktree has no mutation and the generation stands still, so two
   observations under it carry the same one.
   */
  lemma {:induction false} HistoryUnderRunLease(g: Gate, acts: seq<Act>, lease: Lease)
    requires GateInv(g.states, g.leases) && AllPossible(g, acts)
    requires lease in g.leases && !lease.mutation && Drop(lease) !in acts
    ensures var s := History(g, acts);
            && GateInv(s.states, s.leases)
            && lease in s.leases
            && StateOf(s.states, lease.identity).mutation.None?
            && StateOf(s.states, lease.identity).generation == StateOf(g.states, lease.identity).generation
    decreases |acts|
  {
    assert Entered(g.states, lease);
    if acts != [] {
      StepKeeps(g, acts[0]);
      StepUnderRunLease(g, acts[0], lease);
      HistoryUnderRunLease(Step(g, acts[0]), acts[1..], lease);
    }
  }

  lemma {:induction false} EveryHistoryIsExclusive(g: Gate, acts: seq<Act>)
    requires GateInv(g.states, g.leases) && AllPossible(g, acts)
    ensures GateInv(History(g, acts).states, History(g, acts).leases)
    decreases |acts|
  {
    if acts != [] {
      StepKeeps(g, acts[0]);
      EveryHistoryIsExclusive(Step(g, acts[0]), acts[1..]);
    }
  }

  /** Once every lease of a worktree is dropped, no run and no mutation of it is entered. */
  lemma DroppedGateIsIdle(g: Gate, identity: Identity)
    requires GateInv(g.states, g.leases)
    requires forall lease :: lease in g.leases ==> lease.identity != identity
    ensures StateOf(g.states, identity).runs == map[] && StateOf(g.states, identity).mutation.None?
  {
    var state := StateOf(g.states, identity);
    if identity in g.states {
      if state.mutation.Some? {
        assert Entered(g.states, Lease(identity, state.mutation.value, true));
      }
      forall operation ensures operation !in state.runs {
        assert Lease(identity, operation, false) in g.leases <==> Entered(g.states, Lease(identity, operation, false));
      }
    }
  }

  // ---------------------------------------------------------------- what a lease grants

  /**
   A source is granted exactly when its provider is ready, nothing blocks it, and no lease held now excludes the new
   one: a mutation excludes everything, a run excludes mutations and its own operation, and runs share.
   */
  lemma GrantedIff(g: Gate, identity: Identity, operation: Operation, run: Option<string>)
    requires GateInv(g.states, g.leases)
    ensures Reserve(g.states, identity, operation, run).1 <==>
      (&& identity in g.states && g.states[identity].ready && g.states[identity].blocks == map[]
       && (forall lease :: lease in g.leases && lease.identity == identity ==>
             run.Some? && !lease.mutation && lease.operation != operation))
  {
    var state := StateOf(g.states, identity);
    forall lease | lease in g.leases && lease.identity == identity
      ensures identity in g.states && if lease.mutation then state.mutation == Some(lease.operation) else lease.operation in state.runs
    {
      assert Entered(g.states, lease);
    }
    if state.mutation.Some? {
      assert Entered(g.states, Lease(identity, state.mutation.value, true));
    }
    forall other | other in state.runs ensures Lease(identity, other, false) in g.leases {
      assert Entered(g.states, Lease(identity, other, false));
    }
    if state.runs != map[] {
      var other :| other in state.runs;
      assert Lease(identity, other, false) in g.leases;
    }
  }

  /** Dropping a mutation advances the generation of its worktree by one; nothing else ever moves a generation. */
  lemma GenerationMoves(g: Gate, act: Act, identity: Identity)
    requires GateInv(g.states, g.leases) && Possible(g, act)
    ensures StateOf(Step(g, act).states, identity).generation
         == StateOf(g.states, identity).generation
            + if act.Drop? && act.lease.mutation && act.lease.identity == identity then 1 else 0
  {
    if act.Drop? {
      assert Entered(g.states, act.lease);
    }
  }

  /** A block survives readiness and everything else until it is released itself, and grants nothing meanwhile. */
  lemma {:induction false} BlockedUntilReleased(g: Gate, acts: seq<Act>, identity: Identity, id: Operation)
    requires AllPossible(g, acts)
    requires identity in g.states && id in g.states[identity].blocks
    requires Act.Block(identity, id, None) !in acts
    ensures var s := History(g, acts);
            && identity in s.states && id in s.states[identity].blocks
            && (forall lease :: lease in s.leases && lease.identity == identity ==> lease in g.leases)
    decreases |acts|
  {
    if acts != [] {
      assert acts[0] in acts;
      BlockStays(g, acts[0], identity, id);
      BlockedUntilReleased(Step(g, acts[0]), acts[1..], identity, id);
    }
  }

  lemma BlockStays(g: Gate, act: Act, identity: Identity, id: Operation)
    requires Possible(g, act)
    requires identity in g.states && id in g.states[identity].blocks && act != Act.Block(identity, id, None)
    ensures var s := Step(g, act);
            && identity in s.states && id in s.states[identity].blocks
            && (forall lease :: lease in s.leases && lease.identity == identity ==> lease in g.leases)
  {
  }

  /** The shared gate object. */
  class SourceGate {
    var states: States
    ghost var leases: set<Lease>

    ghost predicate Valid()
      reads this
    {
      GateInv(states, leases)
    }

    constructor ()
      ensures Valid() && states == map[] && leases == {}
    {
      states, leases := map[], {};
    }

    method MarkReady(identity: Identity, ready: bool)
      requires Valid()
      modifies this
      ensures Valid() && leases == old(leases) && states == SetReady(old(states), identity, ready)
    {
      StepKeeps(Gate(states, leases), Act.Ready(identity, ready));
      var state := if identity in states then states[identity] else IDLE;
      states := states[identity := state.(ready := ready)];
    }

    method Restrict(identity: Identity, id: Operation, reason: Option<string>)
      requires Valid()
      modifies this
      ensures Valid() && leases == old(leases) && states == SetBlock(old(states), identity, id, reason)
    {
      StepKeeps(Gate(states, leases), Act.Block(identity, id, reason));
      var state := if identity in states then states[identity] else IDLE;
      if reason.Some? {
        state := state.(blocks := state.blocks[id := reason.value]);
      } else {
        state := state.(blocks := state.blocks - {id});
      }
      states := states[identity := state];
    }

    /** What an observer sees: blocked sources are never reported ready. */
    method Observe(identity: Identity) returns (state: GateState)
      requires Valid()
      ensures state == StateOf(states, identity).(ready := StateOf(states, identity).Open())
      ensures state.mutation.Some? ==> state.runs == map[]
    {
      state := if identity in states then states[identity] else IDLE;
      state := state.(ready := state.ready && state.blocks == map[]);
    }

    method TryReserve(identity: Identity, operation: Operation, run: Option<string>) returns (lease: Option<Lease>)
      requires Valid()
      modifies this
      ensures Valid()
      ensures (states, lease.Some?) == Reserve(old(states), identity, operation, run)
      ensures lease.Some? ==> lease.value == Lease(identity, operation, run.None?) && lease.value !in old(leases)
      ensures leases == old(leases) + (if lease.Some? then {lease.value} else {})
    {
      AcquireKeeps(Gate(states, leases), identity, operation, run);
      var state := if identity in states then states[identity] else IDLE;
      states := states[identity := state];
      if !state.ready || state.blocks != map[] { return None; }
      if state.mutation.Some? || (run.None? && state.runs != map[]) { return None; }
      if operation in state.runs { return None; }
      state := if run.Some? then state.(runs := state.runs[operation := run.value]) else state.(mutation := Some(operation));
      states := states[identity := state];
      assert states == old(states)[identity := state];
      lease := Some(Lease(identity, operation, run.None?));
      leases := leases + {lease.value};
    }

    method DropLease(lease: Lease)
      requires Valid() && lease in leases
      modifies this
      ensures Valid()
      ensures leases == old(leases) - {lease} && states == Release(old(states), lease)
    {
      DropKeeps(Gate(states, leases), lease);
      if lease.identity in states {
        var state := states[lease.identity];
        if lease.mutation && state.mutation == Some(lease.operation) {
          states := states[lease.identity := state.(mutation := None, generation := state.generation + 1)];
        } else if !lease.mutation {
          states := states[lease.identity := state.(runs := state.runs - {lease.operation})];
        }
      }
      leases := leases - {lease};
    }
  }
}
