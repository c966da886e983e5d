/** Small shared datatypes. */
module Wrappers {
  datatype Option<+T> = None | Some(value: T)
}

/** Instants in nanoseconds and the second-granular stamps the controller stores in annotations. */
module Clock {
  import opened Wrappers

  const SECOND: int := 1_000_000_000

  const WAIT_FOR_CAPACITY := 30 * SECOND
  const WAIT_FOR_REJOIN := 15 * SECOND
  const RETRY_CLOUD_CONFIG := 60 * SECOND
  const RETRY_REBOOT := 60 * SECOND

  /** An RFC 3339 annotation value: missing, a whole second, or text that does not parse. */
  datatype Stamp = Absent | Sec(s: int) | Garbled

  /** Formatting without a fraction drops everything below the second. */
  function Format(t: int): Stamp {
    Sec(t / SECOND)
  }

  function Parse(st: Stamp): Option<int> {
    if st.Sec? then Some(st.s * SECOND) else None
  }

  /** The value openRetryWindow stores at instant `now`. */
  function RetryWindow(now: int, after: int): Stamp {
    Format(now + after)
  }

  /** How long a fresh command must still be held back; zero when no window is open. */
  function RetryWait(st: Stamp, now: int): (wait: int)
    ensures 0 <= wait
  {
    match Parse(st)
    case None => 0
    case Some(notBefore) => if notBefore - now > 0 then notBefore - now else 0
  }

  /** The stored second is the only one in (t - 1s, t]. */
  lemma FormatBounds(t: int)
    ensures Format(t).s * SECOND <= t < Format(t).s * SECOND + SECOND
  {
  }

  /** A window opened at `start` holds commands back for more than 59 s and at most 60 s:
      exactly until the stored second is reached. */
  lemma WindowArithmetic(start: int, now: int)
    requires start <= now
    ensures RetryWait(RetryWindow(start, RETRY_REBOOT), now) <= RETRY_REBOOT
    ensures now - start <= RETRY_REBOOT - SECOND ==> RetryWait(RetryWindow(start, RETRY_REBOOT), now) > 0
    ensures now - start >= RETRY_REBOOT ==> RetryWait(RetryWindow(start, RETRY_REBOOT), now) == 0
    ensures RetryWait(RetryWindow(start, RETRY_REBOOT), now) == 0
       <==> now - start >= RETRY_REBOOT - (start + RETRY_REBOOT) % SECOND
  {
    var t := start + RETRY_REBOOT;
    FormatBounds(t);
    assert t == (t / SECOND) * SECOND + t % SECOND;
  }
}
