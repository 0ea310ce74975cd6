/**
 * The parts of the connectivity engine's (libjuice's) interface the signaling
 * core reads: the result codes of its commands and the agent states it reports.
 */
module Juice {
  /** Result codes of the engine's commands (`JUICE_ERR_*`). */
  const ErrSuccess: int := 0
  const ErrInvalid: int := -1
  const ErrFailed: int := -2
  const ErrNotAvail: int := -3
  const ErrIgnored: int := -4
  const ErrAgain: int := -5
  const ErrTooLarge: int := -6

  /** Agent states reported to the state-changed callback (`juice_state_t`). */
  datatype State = Disconnected | Gathering | Connecting | Connected | Completed | Failed
}
