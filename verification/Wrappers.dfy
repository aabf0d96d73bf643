/** What several modules need and none of them is about. */
module Wrappers {
  datatype Option<+T> = None | Some(value: T)

  function Deref<T>(p: Option<T>, default: T): T {
    if p.Some? then p.value else default
  }

  /** How a call ends: it works, it is refused, or it takes effect and the answer is lost. */
  datatype Fault = Fine | Refused | Lost

  function Clip(lo: nat, x: nat, hi: nat): (r: nat)
    requires lo <= hi
    ensures lo <= r <= hi
  {
    if x < lo then lo else if x > hi then hi else x
  }
}
