/** The nondeterministic inputs of the system: `uuid4()` and the UTC clock.
    Each draw yields one fresh identifier and one timestamp; the values are
    arbitrary, which is all the modelled code relies on, so operations that
    draw them take the draws as parameters. */
module Env {

  /** One draw of `uuid4()` (as hex or as text) and of `datetime.utcnow()`
      rendered as an ISO string with a trailing "Z". */
  datatype Stamp = Stamp(uuid: string, now: string)

  /** Neither a generated identifier nor a rendered timestamp is ever empty,
      so both are truthy in Python. */
  type FreshStamp = s: Stamp | |s.uuid| > 0 && |s.now| > 0 witness Stamp("0", "0")
}
