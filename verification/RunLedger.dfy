/** Run records, the durable ledger and its validation (run_wire.rs, saved_state.rs). */
module RunLedger {
  import opened Faults

  const RUN_RECORD_LIMIT := 64
  const PINNED_RUN_LIMIT := 16
  const PINNED_RESULT_BYTES := 128 * 1024 * 1024
  const RETENTION_MS := 30 * 24 * 60 * 60 * 1000

  /** Identities are compared only; fresh ones are handed in by the caller. */
  type Id = nat

  /** A canonical path as its components, so that prefix means "contains". */
  type Path = seq<string>

  datatype Task = Task(project: Id, task: Id)

  datatype RunState = Preparing | Running | Cancelling | Succeeded | Failed | Cancelled | Unknown {
    predicate IsLive() {
      this == Preparing || this == Running || this == Cancelling
    }
  }

  datatype Run = Run(
    id: Id,
    operation: Id,
    task: Task,
    digest: nat,
    identity: Option<Path>,
    outputs: seq<Path>,
    state: RunState,
    cancelRequested: bool,
    timeoutRequested: bool,
    cleanup: bool,
    pinned: bool,
    finishedAt: Option<nat>,
    result: bool,
    events: bool,
    retainedBytes: nat)
  {
    /** The execution ended and its cleanup is confirmed. */
    predicate Settled() {
      !state.IsLive() && cleanup
    }

    /** The run still owns its build outputs. */
    predicate Busy() {
      state.IsLive() || (state == Unknown && !cleanup)
    }

    predicate Wellformed() {
      && (state.IsLive() ==> !cleanup)
      && (!state.IsLive() && !cleanup ==> state == Unknown)
      && (pinned ==> Settled())
    }
  }

  datatype Retired = Retired(id: Id, result: bool, events: bool)

  datatype Ledger = Ledger(runs: seq<Run>, retired: seq<Retired>)

  // ---------------------------------------------------------------- lookups

  predicate Has(runs: seq<Run>, id: Id) {
    exists i :: 0 <= i < |runs| && runs[i].id == id
  }

  /** The position of the first record with this identity, or |runs|. */
  function Position(runs: seq<Run>, id: Id): (i: nat)
    ensures i <= |runs|
    ensures i < |runs| ==> runs[i].id == id
    ensures i < |runs| <==> Has(runs, id)
  {
    if runs == [] then 0
    else if runs[0].id == id then
      assert Has(runs, id);
      0
    else
      var i := Position(runs[1..], id);
      assert i < |runs[1..]| ==> runs[i + 1].id == id;
      assert Has(runs, id) ==> Has(runs[1..], id) by {
        if Has(runs, id) {
          var k :| 0 <= k < |runs| && runs[k].id == id;
          assert runs[1..][k - 1].id == id;
        }
      }
      i + 1
  }

  predicate HasRetired(retired: seq<Retired>, id: Id) {
    exists i :: 0 <= i < |retired| && retired[i].id == id
  }

  function Unpinned(runs: seq<Run>): (n: nat)
    ensures n <= |runs|
  {
    if runs == [] then 0
    else (if runs[|runs| - 1].pinned then 0 else 1) + Unpinned(runs[..|runs| - 1])
  }

  function PinnedBytes(runs: seq<Run>): nat {
    if runs == [] then 0
    else (if runs[|runs| - 1].pinned then runs[|runs| - 1].retainedBytes else 0) + PinnedBytes(runs[..|runs| - 1])
  }

  // ---------------------------------------------------------------- validation

  predicate DistinctRuns(runs: seq<Run>) {
    && (forall i, j :: 0 <= i < j < |runs| ==> runs[i].id != runs[j].id)
    && (forall i, j :: 0 <= i < j < |runs| ==> runs[i].operation != runs[j].operation)
  }

  predicate DistinctRetired(runs: seq<Run>, retired: seq<Retired>) {
    && (forall i, j :: 0 <= i < j < |retired| ==> retired[i].id != retired[j].id)
    && (forall i, j :: 0 <= i < |retired| && 0 <= j < |runs| ==> retired[i].id != runs[j].id)
  }

  /** `RunLedger::validate`, without the field formats. */
  predicate ValidLedger(l: Ledger) {
    && Unpinned(l.runs) <= RUN_RECORD_LIMIT
    && |l.runs| - Unpinned(l.runs) <= PINNED_RUN_LIMIT
    && PinnedBytes(l.runs) <= PINNED_RESULT_BYTES
    && |l.retired| <= RUN_RECORD_LIMIT
    && DistinctRetired(l.runs, l.retired)
    && DistinctRuns(l.runs)
    && (forall i :: 0 <= i < |l.runs| && l.runs[i].pinned ==> l.runs[i].Settled())
  }

  // ---------------------------------------------------------------- build outputs

  predicate Nested(p: Path, q: Path) {
    p <= q || q <= p
  }

  predicate Conflict(ps: seq<Path>, qs: seq<Path>) {
    exists i, j :: 0 <= i < |ps| && 0 <= j < |qs| && Nested(ps[i], qs[j])
  }

  /** No two runs that still own their outputs write to equal or nested places. */
  predicate SeparateOutputs(runs: seq<Run>) {
    forall i, j :: 0 <= i < j < |runs| && runs[i].Busy() && runs[j].Busy() ==> !Conflict(runs[i].outputs, runs[j].outputs)
  }
}
