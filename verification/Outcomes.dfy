/** What client and server alike can learn from one call of `send` or `recv`. */
module Outcomes {
  /** An error number is "would block" or "broken" as the handler at hand treats it. */
  datatype IO = Done | WouldBlock | Broken
}
