/** The `DateTime` arithmetic the constructors perform. An instant is a count
    of 100-nanosecond ticks since 0001-01-01 00:00, and `DateTime` accepts
    only counts up to the last tick of 9999-12-31. */
module Times {
  import opened Wrappers
  import opened Bags

  /** `DateTime.MaxValue.Ticks` */
  const MaxTicks: int := 3_155_378_975_999_999_999

  /** A value `DateTime` can hold; the clock reading is always one. */
  type Ticks = t: int | 0 <= t <= MaxTicks

  const TicksPerSecond: int := 10_000_000

  /** The ticks of 1970-01-01 00:00 UTC. */
  const UnixEpochTicks: int := 621_355_968_000_000_000

  /** The bounds `DateTimeOffset.FromUnixTimeMilliseconds` accepts. */
  const MinUnixMillis: int := -62_135_596_800_000
  const MaxUnixMillis: int := 253_402_300_799_999

  /** `t.AddSeconds(seconds)` for a whole number of seconds: the instant that
      many seconds later (earlier when negative), or an exception when that
      instant is outside the `DateTime` range. */
  function AddSeconds(key: string, t: Ticks, seconds: int): (r: Decoded<Ticks>)
    ensures r.Ok? <==> 0 <= t + seconds * TicksPerSecond <= MaxTicks
    ensures r.Ok? ==> r.value - t == seconds * TicksPerSecond
    ensures r.Err? ==> r.error == TimeOutOfRange(key)
  {
    var u := t + seconds * TicksPerSecond;
    if 0 <= u <= MaxTicks then Ok(u) else Err(TimeOutOfRange(key))
  }

  /** `DateTimeOffset.FromUnixTimeMilliseconds(ms).DateTime`: the UTC instant
      `ms` milliseconds after the Unix epoch, or an exception outside the
      accepted bounds. */
  function FromUnixMillis(key: string, ms: int): (r: Decoded<Ticks>)
    ensures r.Ok? <==> MinUnixMillis <= ms <= MaxUnixMillis
    ensures r.Ok? ==> r.value == UnixEpochTicks + ms * TicksPerMillisecond
    ensures r.Ok? ==> ToUnixMillis(r.value) == ms
    ensures r.Err? ==> r.error == TimeOutOfRange(key)
  {
    if MinUnixMillis <= ms <= MaxUnixMillis then Ok(UnixEpochTicks + ms * TicksPerMillisecond)
    else Err(TimeOutOfRange(key))
  }

  /** `DateTimeOffset.ToUnixTimeMilliseconds` of a UTC instant: whole
      milliseconds since the epoch, rounded down. */
  function ToUnixMillis(t: Ticks): int {
    (t - UnixEpochTicks) / TicksPerMillisecond
  }

  /** The accepted bounds are exactly the milliseconds whose instant `DateTime`
      can hold. */
  lemma UnixMillisBounds(ms: int)
    ensures MinUnixMillis <= ms <= MaxUnixMillis <==> 0 <= UnixEpochTicks + ms * TicksPerMillisecond <= MaxTicks
  {
  }

  /** Every instant on a millisecond boundary comes back from its Unix time. */
  lemma UnixMillisRoundTrip(t: Ticks)
    requires (t - UnixEpochTicks) % TicksPerMillisecond == 0
    ensures FromUnixMillis("timestamp", ToUnixMillis(t)) == Ok(t)
  {
  }
}
