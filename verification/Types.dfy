/** The values the channel pool handles. */
module Types {

  datatype Option<+T> = None | Some(value: T)

  /** Rust's `u8`; sums are reduced explicitly where they are formed. */
  type U8 = x: int | 0 <= x < 256 witness 0

  /** `usize` on a 64-bit target. */
  const USIZE_VALUES: int := 0x1_0000_0000_0000_0000

  /** An IP address. Only equality and the total order of `IpAddr` matter. */
  type Ip = nat

  /** A clock reading or a deadline, in nanoseconds. */
  type Instant = int

  /** A connected channel; `peer` is the address it was connected to. */
  datatype Channel = Channel(peer: Ip, id: nat)

  /** An element of the ready list. */
  datatype Entry = Entry(ip: Ip, channel: Channel)

  /** `DelayedAddress`: next test time (with the failure count packed into it) and address. */
  datatype Delayed = Delayed(time: Instant, ip: Ip)

  /** The derived order of `DelayedAddress`: time first, then address. */
  predicate Leq(a: Delayed, b: Delayed) {
    a.time < b.time || (a.time == b.time && a.ip <= b.ip)
  }
}
