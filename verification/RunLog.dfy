/** The description of one run's log (crates/idk/src/run_wire.rs). */
module RunLog {

  datatype LogState = Disabled | Recording | Complete | Limited | Partial | WriteFailed | Expired

  datatype LogDescriptor = LogDescriptor(run: nat, generation: nat, state: LogState, bytes: nat, observed: nat)

  /** Whether a reader that stopped after `parsed` bytes must call its findings partial. */
  predicate IncompleteRead(parsed: nat, d: LogDescriptor) {
    parsed < d.bytes || d.state in {Disabled, Recording, WriteFailed, Expired, Partial}
  }

  /** Whether the log itself left bytes out. */
  predicate LimitedLog(d: LogDescriptor) {
    d.state.Limited? || d.observed > d.bytes
  }
}
