/**
 * Self-restarting animations. An animation reads its progress from the
 * shared timer table under its key; reading a progress above 1 ends that
 * timer, starts it again and reports exactly 1.
 */
module Animations {

  /**
   * The process-wide named-timer table: elapsed time per running key.
   * `Utilities.Timer` is not part of this model; starting a key sets its
   * elapsed time to zero and ending it removes the key.
   */
  class Timer {
    var elapsed: map<string, real>

    ghost predicate Valid()
      reads this
    {
      forall key :: key in elapsed ==> elapsed[key] >= 0.0
    }

    constructor ()
      ensures Valid() && elapsed == map[]
    {
      elapsed := map[];
    }

    method StartTimer(key: string)
      requires Valid()
      modifies this
      ensures Valid() && elapsed == old(elapsed)[key := 0.0]
    {
      elapsed := elapsed[key := 0.0];
    }

    method EndTimer(key: string)
      requires Valid()
      modifies this
      ensures Valid() && elapsed == old(elapsed) - {key}
    {
      elapsed := elapsed - {key};
    }

    method CheckTimer(key: string) returns (t: real)
      requires key in elapsed
      ensures t == elapsed[key]
    {
      t := elapsed[key];
    }

    /** The clock: every running timer advances by `dt`. Stands in for the host's passing time. */
    method Elapse(dt: real)
      requires Valid() && dt >= 0.0
      modifies this
      ensures Valid()
      ensures elapsed.Keys == old(elapsed).Keys
      ensures forall key :: key in elapsed ==> elapsed[key] == old(elapsed)[key] + dt
    {
      elapsed := map key | key in elapsed :: elapsed[key] + dt;
    }
  }

  /**
   * The progress a reading of `elapsed` time over an interval yields: the
   * ratio, or exactly 1 once the ratio passes 1. A negative interval gives
   * a ratio of at most 0, which never passes 1.
   */
  function Progress(elapsed: real, intervalLength: int): (p: real)
    requires intervalLength != 0 && elapsed >= 0.0
    ensures p <= 1.0
    ensures p == 1.0 || p * intervalLength as real == elapsed
    ensures intervalLength > 0 ==> 0.0 <= p
    ensures intervalLength > 0 && elapsed <= intervalLength as real ==> p * intervalLength as real == elapsed
    ensures intervalLength < 0 ==> p <= 0.0 && p * intervalLength as real == elapsed
  {
    var ratio := elapsed / intervalLength as real;
    if ratio > 1.0 then 1.0 else ratio
  }

  /** Whether reading `elapsed` restarts the timer: exactly when the interval is positive and the elapsed time exceeds it. */
  lemma RestartsExactlyWhenOverdue(elapsed: real, intervalLength: int)
    requires intervalLength != 0 && elapsed >= 0.0
    ensures elapsed / intervalLength as real > 1.0 <==> intervalLength > 0 && elapsed > intervalLength as real
  {
    var n := intervalLength as real;
    var ratio := elapsed / n;
    assert ratio * n == elapsed;
    if n < 0.0 {
      // a ratio above 1 would make `ratio * n` fall below `n`, which is negative
      assert (ratio - 1.0) * -n == n - elapsed;
    } else {
      assert (ratio - 1.0) * n == elapsed - n;
    }
  }

  /** An animation filter: its timer key, interval length and the table it reads. */
  class Animation {
    var key: string
    const intervalLength: int
    const timer: Timer

    /** Stores the interval, sets the key and starts the timer for that key. */
    constructor (key: string, intervalLength: int, timer: Timer)
      requires timer.Valid()
      modifies timer
      ensures this.key == key && this.intervalLength == intervalLength && this.timer == timer
      ensures timer.Valid() && timer.elapsed == old(timer.elapsed)[key := 0.0]
    {
      this.key := key;
      this.intervalLength := intervalLength;
      this.timer := timer;
      new;
      timer.StartTimer(key);
    }

    function GetName(): (name: string)
      ensures name == "portrait-fire-animation"
    {
      "portrait-fire-animation"
    }

    /**
     * Reads the elapsed time over the interval. Up to 1 the ratio is
     * returned and the table is untouched; above 1 the key's timer is ended
     * and started again and exactly 1 is returned. With a negative interval
     * the ratio is at most 0 and the timer is never restarted.
     */
    method GetProgress() returns (progress: real)
      requires timer.Valid() && key in timer.elapsed && intervalLength != 0
      modifies timer
      ensures timer.Valid() && key in timer.elapsed
      ensures progress == Progress(old(timer.elapsed)[key], intervalLength)
      ensures progress <= 1.0
      ensures old(timer.elapsed)[key] / intervalLength as real <= 1.0 ==> timer.elapsed == old(timer.elapsed)
      ensures old(timer.elapsed)[key] / intervalLength as real > 1.0 ==>
                progress == 1.0 && timer.elapsed == old(timer.elapsed)[key := 0.0]
    {
      var t := timer.CheckTimer(key);
      progress := t / intervalLength as real;
      if progress > 1.0 {
        timer.EndTimer(key);
        timer.StartTimer(key);
        assert (old(timer.elapsed) - {key})[key := 0.0] == old(timer.elapsed)[key := 0.0];
        return 1.0;
      }
    }
  }
}
