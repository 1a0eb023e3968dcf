/**
 Status conditions as the controllers use them.

 A Kubernetes object carries at most one condition per type, so each object keeps one
 slot per condition type it uses. Writing a condition replaces the slot, and reports
 whether status, reason or message differ from what was there.
 */
module Conditions {

  datatype Option<+T> = None | Some(value: T)

  datatype ConditionStatus = True | False | Unknown

  /** The reason strings of the controllers. `Unstated` is the placeholder reason
      "Unknown" that a request gets when it is deleted before it had any condition. */
  datatype Reason = Pending | Starting | Active | Failed | DeadlineExceeded | Completed | Unstated

  datatype Condition = Condition(status: ConditionStatus, reason: Reason, message: string)

  type Slot = Option<Condition>

  /** Whether writing `c` into `slot` changes anything. */
  predicate Changes(slot: Slot, c: Condition) {
    slot != Some(c)
  }

  /** Whether the condition is present and has this reason. */
  predicate ReasonIs(slot: Slot, reason: Reason) {
    slot.Some? && slot.value.reason == reason
  }
}
