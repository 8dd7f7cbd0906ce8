/**
 * Python `datetime` values and the clock arithmetic the services do with them.
 * An instant is an integer count of microseconds since the Unix epoch (the
 * resolution of `datetime`); a naive datetime carries no UTC offset.
 */
module Clock {
  import opened Wrappers

  const MicrosPerSecond: int := 1_000_000
  const MicrosPerMinute: int := 60 * MicrosPerSecond
  const MicrosPerHour: int := 60 * MicrosPerMinute

  /** Wall-clock reading in microseconds, and the UTC offset when the datetime is aware. */
  datatype DateTime = DateTime(wall: int, offset: Option<int>) {
    predicate IsNaive() { offset.None? }
  }

  /** The UTC instant of an aware datetime; a naive one is read as UTC. */
  function UtcInstant(d: DateTime): int {
    match d.offset
    case None => d.wall
    case Some(off) => d.wall - off
  }

  /**
   * `d.replace(tzinfo=timezone.utc)` when `d` is naive, else `d.astimezone(timezone.utc)`.
   */
  function AsUtc(d: DateTime): (r: DateTime)
    ensures r.offset == Some(0)
    ensures d.IsNaive() ==> r.wall == d.wall
    ensures !d.IsNaive() ==> UtcInstant(r) == UtcInstant(d)
  {
    DateTime(UtcInstant(d), Some(0))
  }

  /** `max(x, 0)` on a duration. */
  function NonNegative(x: int): (r: nat)
    ensures r >= x && (r == x || r == 0)
  {
    if x > 0 then x else 0
  }

  /** `datetime.hour` of a wall-clock reading in microseconds. */
  function HourOf(wall: int): (h: int)
    ensures 0 <= h < 24
  {
    (wall / MicrosPerHour) % 24
  }
}
