/** Time values of the ArceOS bindings (library/std/src/sys/arceos/time.rs).
    `Instant` and `SystemTime` wrap the kernel's time value, which counts the
    time since boot (or since the epoch) as `core::time::Duration`: whole
    seconds in a `u64` and a nanosecond part below one second. */
module Time {
  import opened Common

  const NANOS_PER_SEC: nat := 1_000_000_000

  type Nanos = n: nat | n < NANOS_PER_SEC

  /** The number of nanoseconds in the largest `Duration`. */
  const MAX_TOTAL: nat := U64_MAX * NANOS_PER_SEC + (NANOS_PER_SEC - 1)

  /** `core::time::Duration`, also the representation of `AxTimeValue`. */
  datatype Duration = Duration(secs: u64, nanos: Nanos) {

    /** The length of the duration in nanoseconds. */
    function Total(): (n: nat)
      ensures n <= MAX_TOTAL
    {
      secs * NANOS_PER_SEC + nanos
    }

    /** The derived `Ord`: lexicographic on (secs, nanos). */
    predicate Le(other: Duration) {
      secs < other.secs || (secs == other.secs && nanos <= other.nanos)
    }

    /** `Duration::checked_add`: adds seconds with overflow check, then carries
        a full second out of the nanoseconds, again with overflow check. */
    function CheckedAdd(rhs: Duration): (r: Option<Duration>)
      ensures r.None? <==> Total() + rhs.Total() > MAX_TOTAL
      ensures r.Some? ==> r.value.Total() == Total() + rhs.Total()
    {
      if secs + rhs.secs > U64_MAX then None
      else
        var s := secs + rhs.secs;
        var n := nanos + rhs.nanos;
        if n >= NANOS_PER_SEC then
          if s + 1 > U64_MAX then None
          else Some(Duration(s + 1, n - NANOS_PER_SEC))
        else Some(Duration(s, n))
    }

    /** `Duration::checked_sub`: subtracts seconds with underflow check, then
        borrows a second when the nanoseconds would go negative. */
    function CheckedSub(rhs: Duration): (r: Option<Duration>)
      ensures r.None? <==> rhs.Total() > Total()
      ensures r.Some? ==> r.value.Total() == Total() - rhs.Total()
    {
      if secs < rhs.secs then None
      else
        var s := secs - rhs.secs;
        if nanos >= rhs.nanos then Some(Duration(s, nanos - rhs.nanos))
        else if s == 0 then None
        else Some(Duration(s - 1, nanos + NANOS_PER_SEC - rhs.nanos))
    }

    /** The `-` operator on durations, which panics on underflow: callers must
        subtract a duration no longer than this one. */
    function Sub(rhs: Duration): (r: Duration)
      requires rhs.Total() <= Total()
      ensures r.Total() == Total() - rhs.Total()
    {
      CheckedSub(rhs).value
    }
  }

  const ZERO: Duration := Duration(0, 0)

  /** A duration is determined by its length. */
  lemma TotalInjective(a: Duration, b: Duration)
    requires a.Total() == b.Total()
    ensures a == b
  {
    LeIsLengthOrder(a, b);
    LeIsLengthOrder(b, a);
  }

  /** The derived lexicographic order is the order of lengths. */
  lemma LeIsLengthOrder(a: Duration, b: Duration)
    ensures a.Le(b) <==> a.Total() <= b.Total()
  {
    if a.secs < b.secs {
      assert a.Total() < (a.secs + 1) * NANOS_PER_SEC <= b.Total();
    } else if b.secs < a.secs {
      assert b.Total() < (b.secs + 1) * NANOS_PER_SEC <= a.Total();
    }
  }

  /** A successful addition followed by subtracting the same duration gives back
      the original, and the subtraction of a part from a successful sum succeeds. */
  lemma AddThenSub(a: Duration, d: Duration)
    requires a.CheckedAdd(d).Some?
    ensures a.CheckedAdd(d).value.CheckedSub(d) == Some(a)
    ensures a.CheckedAdd(d).value.CheckedSub(a) == Some(d)
  {
    var s := a.CheckedAdd(d).value;
    TotalInjective(s.CheckedSub(d).value, a);
    TotalInjective(s.CheckedSub(a).value, d);
  }

  /** `Instant(AxTimeValue)`: a monotonic time point. */
  datatype Instant = Instant(t: Duration) {

    /** `checked_sub_instant`: the time elapsed from `other` to this instant,
        `None` when `other` is later. */
    function CheckedSubInstant(other: Instant): (r: Option<Duration>)
      ensures r.Some? <==> other.t.Le(t)
      ensures r.Some? ==> r.value.Total() == t.Total() - other.t.Total()
    {
      LeIsLengthOrder(other.t, t);
      t.CheckedSub(other.t)
    }

    /** `checked_add_duration`: `None` exactly when the sum overflows the time value. */
    function CheckedAddDuration(d: Duration): (r: Option<Instant>)
      ensures r.None? <==> t.Total() + d.Total() > MAX_TOTAL
      ensures r.Some? ==> r.value.t.Total() == t.Total() + d.Total()
    {
      match t.CheckedAdd(d)
      case None => None
      case Some(v) => Some(Instant(v))
    }

    /** `checked_sub_duration`: `None` exactly when `d` is longer than the time value. */
    function CheckedSubDuration(d: Duration): (r: Option<Instant>)
      ensures r.None? <==> d.Total() > t.Total()
      ensures r.Some? ==> r.value.t.Total() == t.Total() - d.Total()
    {
      match t.CheckedSub(d)
      case None => None
      case Some(v) => Some(Instant(v))
    }
  }

  /** Moving an instant forward and back by the same duration returns to it. */
  lemma InstantAddThenSub(i: Instant, d: Duration)
    requires i.CheckedAddDuration(d).Some?
    ensures i.CheckedAddDuration(d).value.CheckedSubDuration(d) == Some(i)
  {
    AddThenSub(i.t, d);
  }

  /** `SystemTime(AxTimeValue)`: wall-clock time since the Unix epoch. */
  datatype SystemTime = SystemTime(t: Duration) {

    /** `sub_time`: `Ok(self - other)` when `other` is not later, otherwise
        `Err(other - self)`, the distance the other way. */
    function SubTime(other: SystemTime): (r: Result<Duration, Duration>)
      ensures r.Ok? <==> other.t.Le(t)
      ensures r.Ok? ==> r.value.Total() == t.Total() - other.t.Total()
      ensures r.Err? ==> r.error.Total() == other.t.Total() - t.Total()
    {
      LeIsLengthOrder(other.t, t);
      match t.CheckedSub(other.t)
      case Some(d) => Ok(d)
      case None => Err(other.t.Sub(t))
    }

    /** `checked_add_duration`: `None` exactly when the sum overflows the time value. */
    function CheckedAddDuration(d: Duration): (r: Option<SystemTime>)
      ensures r.None? <==> t.Total() + d.Total() > MAX_TOTAL
      ensures r.Some? ==> r.value.t.Total() == t.Total() + d.Total()
    {
      match t.CheckedAdd(d)
      case None => None
      case Some(v) => Some(SystemTime(v))
    }

    /** `checked_sub_duration`: `None` exactly when `d` is longer than the time value. */
    function CheckedSubDuration(d: Duration): (r: Option<SystemTime>)
      ensures r.None? <==> d.Total() > t.Total()
      ensures r.Some? ==> r.value.t.Total() == t.Total() - d.Total()
    {
      match t.CheckedSub(d)
      case None => None
      case Some(v) => Some(SystemTime(v))
    }
  }

  /** `UNIX_EPOCH`: `AxTimeValue::from_secs(0)`, the zero time value. */
  const UNIX_EPOCH: SystemTime := SystemTime(Duration(0, 0))

  /** The epoch is no later than any time, and the time since it is the time value itself. */
  lemma EpochIsEarliest(s: SystemTime)
    ensures UNIX_EPOCH.t.Total() == 0 && UNIX_EPOCH.t.Le(s.t)
    ensures s.SubTime(UNIX_EPOCH) == Ok(s.t)
  {
    TotalInjective(s.SubTime(UNIX_EPOCH).value, s.t);
  }

  /** `sub_time` of equal times is `Ok` of zero. */
  lemma SubTimeSelf(s: SystemTime)
    ensures s.SubTime(s) == Ok(ZERO)
  {
    TotalInjective(s.SubTime(s).value, ZERO);
  }

  /** Whichever way `sub_time` answers, the duration it returns added to the
      earlier time gives the later one, and swapping the operands swaps `Ok` and
      `Err` unless the times are equal. */
  lemma SubTimeBridgesGap(a: SystemTime, b: SystemTime)
    ensures a.SubTime(b).Ok? ==> b.t.CheckedAdd(a.SubTime(b).value) == Some(a.t)
    ensures a.SubTime(b).Err? ==> a.t.CheckedAdd(a.SubTime(b).error) == Some(b.t)
    ensures a != b ==> (a.SubTime(b).Ok? <==> b.SubTime(a).Err?)
  {
    LeIsLengthOrder(a.t, b.t);
    LeIsLengthOrder(b.t, a.t);
    match a.SubTime(b)
    case Ok(d) => TotalInjective(b.t.CheckedAdd(d).value, a.t);
    case Err(d) => TotalInjective(a.t.CheckedAdd(d).value, b.t);
    if a != b && a.t.Total() == b.t.Total() {
      TotalInjective(a.t, b.t);
    }
  }
}
