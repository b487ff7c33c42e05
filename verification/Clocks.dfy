/** A context and a timer on one clock, in milliseconds. */
module Clocks {
  import opened GoErrors

  /** When a context is cancelled, if ever. */
  type Cancellation = Option<nat>

  predicate CancelledBy(c: Cancellation, t: nat) {
    c.Some? && c.value <= t
  }

  function Max(a: nat, b: nat): nat {
    if a < b then b else a
  }

  function Min(a: nat, b: nat): nat {
    if a < b then a else b
  }

  function Sum(xs: seq<nat>): nat {
    if xs == [] then 0 else Sum(xs[..|xs| - 1]) + xs[|xs| - 1]
  }

  datatype Woken = Woken(cancelled: bool, at: nat)

  /** `select` on the context and a timer set now: the earlier one, and at the same instant either. */
  function SelectTimer(now: nat, delay: nat, c: Cancellation, tie: bool): (w: Woken)
    ensures now <= w.at <= now + delay
    ensures w.cancelled ==> CancelledBy(c, w.at) && c.Some? && c.value <= w.at
    ensures !w.cancelled ==> w.at == now + delay
    ensures !w.cancelled && c.Some? ==> now + delay <= c.value || delay == 0
    ensures CancelledBy(c, now + delay) && (c.value < now + delay) && delay > 0 ==> w == Woken(true, Max(c.value, now))
  {
    if c.None? || now + delay < Max(c.value, now) then Woken(false, now + delay)
    else if Max(c.value, now) < now + delay then Woken(true, Max(c.value, now))
    else Woken(tie, now + delay)
  }
}
