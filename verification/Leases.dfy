/** The Lease record kept by the API server, its expiry rule and its version check.

    Times and durations are integers in nanoseconds, as in Go's `time` package. */
module Leases {
  import opened Options

  const SECOND := 1_000_000_000

  /** spec of a coordination.k8s.io/v1 Lease; a Go nil pointer is `None`. */
  datatype Lease = Lease(holder: Option<string>, seconds: Option<int>, acquired: Option<int>, renewed: Option<int>)

  /** What a Get returns: no object, or an object with its resource version. */
  datatype Record = Absent | Present(version: nat, lease: Lease)

  /** True once `now` is past RenewTime + LeaseDurationSeconds, or when either is missing. */
  predicate Expired(l: Lease, now: int) {
    l.renewed.None? || l.seconds.None? || now > l.renewed.value + l.seconds.value * SECOND
  }

  /** Go's conversion `int32(x)`: the low 32 bits, read in two's complement. */
  function ToInt32(x: int): (r: int)
    ensures -0x8000_0000 <= r < 0x8000_0000 && (r - x) % 0x1_0000_0000 == 0
  {
    (x + 0x8000_0000) % 0x1_0000_0000 - 0x8000_0000
  }

  /** `int32(d / time.Second)`; Go's division truncates toward zero. */
  function WholeSeconds(d: int): (r: int)
    ensures 0 <= d < 0x8000_0000 * SECOND ==> r * SECOND <= d < (r + 1) * SECOND
  {
    ToInt32(if d >= 0 then d / SECOND else -(-d / SECOND))
  }

  /** Create needs the name to be free; Update needs the version read to be the current one. */
  predicate CanWrite(current: Record, seen: Record) {
    match seen
    case Absent => current.Absent?
    case Present(v, _) => current.Present? && current.version == v
  }

  function Written(current: Record, l: Lease): (r: Record)
    ensures r.Present? && r.lease == l
    ensures current.Present? ==> r.version > current.version
  {
    Present(if current.Present? then current.version + 1 else 0, l)
  }
}
