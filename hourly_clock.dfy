/** `hourly_clock`: seconds elapsed within the current hour, tracked from
  * successive RTC samples. The RTC read becomes a `Sample` parameter. */
module HourlyClock {
  import opened Common

  /** One `HAL_RTC_GetTime` reading (binary format). */
  datatype Sample = Sample(hours: byte, minutes: byte, seconds: byte)

  /** A reading the RTC can produce: minutes and seconds below 60. */
  predicate Proper(t: Sample)
  {
    t.minutes < 60 && t.seconds < 60
  }

  /** The handle fields `update` reads and writes. */
  datatype State = State(time: Sample, prevSecond: byte, prevMinute: byte, prevHour: byte,
                         elapsed: u32, initialized: bool)

  /** The offset of a reading within its hour, `Seconds + Minutes * 60`. */
  function Offset(t: Sample): nat
  {
    t.seconds + t.minutes * 60
  }

  function CreateState(t: Sample): (s: State)
    ensures s.initialized && s.elapsed == Offset(t)
    ensures s.prevSecond == t.seconds && s.prevMinute == t.minutes && s.prevHour == t.hours
  {
    State(t, t.seconds, t.minutes, t.hours, t.seconds + t.minutes * 60, true)
  }

  /** `hourly_clock_update` on a sample `t`, as written: an hour change
    * restarts from the sample's offset, a minute change keeps the old
    * minute base (`elapsed / 60 * 60`) and adds the new seconds, and a
    * change of seconds alone counts one up, wrapping to 0 at 3600. */
  function UpdateState(s: State, t: Sample): State
  {
    if !s.initialized then s
    else
      var s := s.(time := t);
      if t.seconds == s.prevSecond && t.minutes == s.prevMinute && t.hours == s.prevHour then s
      else
        var e :=
          if t.hours != s.prevHour then U32(t.seconds + t.minutes * 60)
          else if t.minutes != s.prevMinute then U32(s.elapsed / 60 * 60 + t.seconds)
          else
            var e1 := U32(s.elapsed + 1);
            if e1 >= 3600 then 0 else e1;
        s.(elapsed := e, prevSecond := t.seconds, prevMinute := t.minutes, prevHour := t.hours)
  }

  /** An uninitialised handle ignores every sample. */
  lemma UpdateUninitialized(s: State, t: Sample)
    requires !s.initialized
    ensures UpdateState(s, t) == s
  {
  }

  /** A sample equal to the previous one changes nothing but the stored
    * reading. */
  lemma UpdateSameSample(s: State, t: Sample)
    requires s.initialized && t == Sample(s.prevHour, s.prevMinute, s.prevSecond)
    ensures UpdateState(s, t) == s.(time := t)
  {
  }

  /** The three branches of a changed sample, and the previous-sample fields
    * afterwards. */
  lemma UpdateChanged(s: State, t: Sample)
    requires s.initialized && t != Sample(s.prevHour, s.prevMinute, s.prevSecond)
    ensures var r := UpdateState(s, t);
      && r.prevSecond == t.seconds && r.prevMinute == t.minutes && r.prevHour == t.hours
      && r.initialized && r.time == t
      && (t.hours != s.prevHour ==> r.elapsed == Offset(t))
      && (t.hours == s.prevHour && t.minutes != s.prevMinute ==>
            r.elapsed == U32(s.elapsed - s.elapsed % 60 + t.seconds))
      && (t.hours == s.prevHour && t.minutes == s.prevMinute ==>
            r.elapsed == if s.elapsed + 1 >= 3600 then 0 else s.elapsed + 1)
  {
    var s1 := s.(time := t);
    if t.hours != s.prevHour {
      assert Offset(t) < 0x1_0000_0000;
    } else if t.minutes != s.prevMinute {
      assert UpdateState(s, t).elapsed == U32(s1.elapsed / 60 * 60 + t.seconds);
    } else if s.elapsed + 1 == 0x1_0000_0000 {
      assert U32(s.elapsed + 1) == 0;
    } else {
      assert U32(s.elapsed + 1) == s.elapsed + 1;
    }
  }

  /** The counter stays within one hour, 0..3599, as long as the RTC gives
    * proper readings. */
  lemma UpdateKeepsHour(s: State, t: Sample)
    requires s.elapsed < 3600 && Proper(t)
    ensures UpdateState(s, t).elapsed < 3600
  {
  }

  /** The counter the header promises: the offset of the last reading within
    * its hour. */
  predicate Tracks(s: State)
  {
    s.elapsed == s.prevSecond + 60 * s.prevMinute
  }

  /** The minute-change branch loses the minute: at 00:00:59 the counter is
    * 59, and the reading 00:01:00 sets it to 0 instead of 60. */
  lemma MinuteChangeLosesMinute()
    ensures var s := CreateState(Sample(0, 0, 59));
      var r := UpdateState(s, Sample(0, 1, 0));
      Tracks(s) && r.elapsed == 0 && !Tracks(r)
  {
    var s := CreateState(Sample(0, 0, 59));
    assert s.elapsed == 59;
    assert s.elapsed / 60 * 60 + 0 == 0;
    assert U32(0) == 0;
  }

  /** The evidently intended update: every changed reading sets the counter
    * to the reading's offset within the hour. */
  function UpdateIntended(s: State, t: Sample): State
  {
    if !s.initialized then s
    else
      var s := s.(time := t);
      if t.seconds == s.prevSecond && t.minutes == s.prevMinute && t.hours == s.prevHour then s
      else
        var e :=
          if t.hours != s.prevHour || t.minutes != s.prevMinute then Offset(t)
          else if s.elapsed + 1 >= 3600 then 0 else s.elapsed + 1;
        s.(elapsed := e, prevSecond := t.seconds, prevMinute := t.minutes, prevHour := t.hours)
  }

  /** A reading that is the next one the RTC shows after the last: a new
    * minute or hour, or the seconds one further on. */
  predicate NextReading(s: State, t: Sample)
  {
    t.hours != s.prevHour || t.minutes != s.prevMinute || t.seconds == s.prevSecond + 1
  }

  /** With proper readings the intended update keeps the counter equal to
    * the offset of the latest reading within its hour. */
  lemma UpdateIntendedTracks(s: State, t: Sample)
    requires s.initialized && Tracks(s) && Proper(t) && NextReading(s, t)
    ensures Tracks(UpdateIntended(s, t)) && UpdateIntended(s, t).elapsed == Offset(t)
  {
  }

  /** The intended update differs from the code as written only on a new
    * minute within the same hour. */
  lemma UpdateIntendedAgrees(s: State, t: Sample)
    requires s.elapsed < 3600 && Proper(t)
    requires !(s.initialized && t.hours == s.prevHour && t.minutes != s.prevMinute)
    ensures UpdateIntended(s, t) == UpdateState(s, t)
  {
  }

  /** `hourly_clock_check_elapsed` on the counter `current`, in `uint32_t`
    * arithmetic. */
  function CheckElapsed(initialized: bool, current: u32, timestamp: u32, seconds: u32): bool
  {
    if !initialized then false
    else if current < timestamp then U32(current + U32(3600 - timestamp)) >= seconds
    else current - timestamp >= seconds
  }

  /** For timestamps taken from the counter (both within the hour), the
    * check measures the forward distance around the hour. */
  lemma CheckElapsedCircular(current: u32, timestamp: u32, seconds: u32)
    requires current < 3600 && timestamp < 3600
    ensures CheckElapsed(true, current, timestamp, seconds) <==> (current - timestamp) % 3600 >= seconds
  {
  }

  /** An uninitialised clock never reports the time as elapsed. */
  lemma CheckElapsedUninitialized(current: u32, timestamp: u32, seconds: u32)
    ensures !CheckElapsed(false, current, timestamp, seconds)
  {
  }

  /** `hourly_clock_handle`. */
  class Clock {
    var time: Sample
    var prevSecond: byte
    var prevMinute: byte
    var prevHour: byte
    var elapsed: u32
    var initialized: bool

    function Get(): State
      reads this
    {
      State(time, prevSecond, prevMinute, prevHour, elapsed, initialized)
    }

    /** `hourly_clock_create` on the first RTC reading `t`. */
    constructor Create(t: Sample)
      ensures Get() == CreateState(t)
    {
      time := t;
      prevSecond := t.seconds;
      prevMinute := t.minutes;
      prevHour := t.hours;
      elapsed := t.seconds + t.minutes * 60;
      initialized := true;
    }

    /** A zero-filled handle that `create` never touched. */
    constructor Zeroed()
      ensures Get() == State(Sample(0, 0, 0), 0, 0, 0, 0, false)
    {
      time := Sample(0, 0, 0);
      prevSecond, prevMinute, prevHour := 0, 0, 0;
      elapsed := 0;
      initialized := false;
    }

    /** `hourly_clock_update` with the RTC reading `t`. */
    method Update(t: Sample)
      modifies this
      ensures Get() == UpdateState(old(Get()), t)
    {
      if !initialized {
        return;
      }
      ghost var r := UpdateState(Get(), t);
      time := t;
      if time.seconds != prevSecond || time.minutes != prevMinute || time.hours != prevHour {
        if time.hours != prevHour {
          elapsed := 0;
          elapsed := U32(time.seconds + time.minutes * 60);
        } else {
          if time.minutes != prevMinute {
            ghost var e0 := elapsed;
            elapsed := U32(elapsed / 60 * 60);
            assert elapsed == e0 / 60 * 60;
            elapsed := U32(elapsed + time.seconds);
          } else {
            elapsed := U32(elapsed + 1);
            if elapsed >= 3600 {
              elapsed := 0;
            }
          }
        }
        assert elapsed == r.elapsed;
        prevSecond := time.seconds;
        prevMinute := time.minutes;
        prevHour := time.hours;
      }
    }

    /** `hourly_clock_get_elapsed_seconds` and `hourly_clock_get_timestamp`:
      * 0 before initialisation. */
    function ElapsedSeconds(): (r: u32)
      reads this
      ensures !initialized ==> r == 0
      ensures initialized ==> r == elapsed
    {
      if !initialized then 0 else elapsed
    }

    /** `hourly_clock_check_elapsed`. */
    function Check(timestamp: u32, seconds: u32): bool
      reads this
    {
      CheckElapsed(initialized, elapsed, timestamp, seconds)
    }
  }
}
