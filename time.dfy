/** `struct timeval` readings and `delta_timeval` (http_ping.c:1203-1209). The clock
    itself (`gettimeofday`) is not modelled: readings are inputs. */
module Time {

  datatype Timeval = Timeval(sec: int, usec: int)

  const MicrosPerSecond: int := 1_000_000

  /** A reading as one count of microseconds. */
  function Micros(t: Timeval): int {
    t.sec * MicrosPerSecond + t.usec
  }

  /** `delta_timeval( start, finish )`: seconds and microseconds subtracted separately,
      then combined; the result is the difference of the two readings in microseconds. */
  function Delta(start: Timeval, finish: Timeval): (d: int)
    ensures d == Micros(finish) - Micros(start)
  {
    (finish.sec - start.sec) * MicrosPerSecond + (finish.usec - start.usec)
  }

  /** Consecutive deltas add up, so total = connect + response + data exactly
      (http_ping.c:301-308). */
  lemma DeltaAdditive(s: Timeval, c: Timeval, r: Timeval, f: Timeval)
    ensures Delta(s, c) + Delta(c, r) + Delta(r, f) == Delta(s, f)
  {
  }

  predicate Normal(t: Timeval) {
    0 <= t.usec < MicrosPerSecond
  }

  /** For readings with `tv_usec` in range, the delta is non-negative exactly when the
      finish is not before the start in (seconds, microseconds) order. */
  lemma DeltaSign(s: Timeval, f: Timeval)
    requires Normal(s) && Normal(f)
    ensures Delta(s, f) >= 0 <==> (f.sec > s.sec || (f.sec == s.sec && f.usec >= s.usec))
  {
    if f.sec > s.sec {
      assert (f.sec - s.sec) * MicrosPerSecond >= MicrosPerSecond;
    } else if f.sec < s.sec {
      assert (f.sec - s.sec) * MicrosPerSecond <= -MicrosPerSecond;
    }
  }
}
