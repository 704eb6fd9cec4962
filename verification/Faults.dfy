/** How a database write can go wrong. */
module Faults {

  /** The write works, fails without effect, or takes effect and is reported as failed. */
  datatype Fault = Fine | Lost | Lied
}
