/** Disk steps that may fail, shared by every component that keeps durable state. */
module Faults {

  datatype Option<+T> = None | Some(value: T)

  /**
   How one disk step ends. A rename can reach the disk and still report an error,
   because the directory is synchronised afterwards. Every caller returns at the first
   error, so a failed step also stands for a crash just before or just after it.
   */
  datatype Outcome = Done | FailedBefore | FailedAfter

  /** The outcome of every future disk step, indexed by the number of steps already taken. */
  type Tape = nat -> Outcome

  /** No step fails from `clock` on. */
  ghost predicate QuietFrom(tape: Tape, clock: nat) {
    forall k: nat :: clock <= k ==> tape(k) == Done
  }
}
