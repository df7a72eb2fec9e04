/**
 * The task switch of the system settings: the office end time is either "No Time"
 * (no task running) or a UTC clock time twelve hours after the task was started, and
 * the Start and End buttons are enabled only in the state they leave.
 */
module SystemSettings {
  import opened Wrappers
  import opened Text
  import opened Clock

  const NoTime := "No Time"

  /** The requests a switch sends: the daily reset of every user, then the new end time. */
  datatype Request = DailyReset(resetCount: int, newBal: int) | OfficeTime(end: string)

  /** `add12HoursToUTC`: the clock time twelve hours after `now`. */
  function TwelveHoursOn(now: int): (r: string)
    ensures |r| == 8 && r != NoTime
  {
    UtcClockParts(now + 12 * HourMs);
    UtcClock(now + 12 * HourMs)
  }

  /** Euclidean remainder by a minute, from a quotient and a remainder in range. */
  lemma MinuteRemainder(a: int, k: int, s: int)
    requires 0 <= s < 60000 && a == k * 60000 + s
    ensures a % 60000 == s
  {
  }

  /** Moments that agree modulo an hour agree modulo a minute. */
  lemma SameMinuteSecond(a: int, b: int)
    requires a % 3600000 == b % 3600000
    ensures a % 60000 == b % 60000
  {
    var r := a % 3600000;
    var m, s := r / 60000, r % 60000;
    MinuteRemainder(a, a / 3600000 * 60 + m, s);
    MinuteRemainder(b, b / 3600000 * 60 + m, s);
  }

  /** Twelve hours on shows the hour moved by twelve round the day, and the same minutes and seconds. */
  lemma TwelveHoursOnFields(now: int)
    ensures TwelveHoursOn(now) == Pad2(((now % DayMs) / HourMs + 12) % 24) + UtcClock(now)[2..]
  {
    var later := now + 12 * HourMs;
    var ms, ms' := now % DayMs, later % DayMs;
    TwelveHoursLater(now);
    assert HourMs == 3600000 && MinuteMs == 60000;
    SameMinuteSecond(ms', ms);
    var tail := ":" + Pad2(ms % HourMs / MinuteMs) + ":" + Pad2(ms % MinuteMs / SecondMs);
    assert UtcClock(later) == Pad2(((now % DayMs) / HourMs + 12) % 24) + tail;
    assert ms / HourMs < 24;
    assert UtcClock(now) == Pad2(ms / HourMs) + tail;
  }

  class SettingsPage {
    var loading: bool
    var endTime: string
    var currentUtc: string

    constructor(now: int)
      ensures loading && endTime == "" && currentUtc == UtcClock(now)
    {
      loading := true;
      endTime := "";
      currentUtc := UtcClock(now);
    }

    /** `isTaskActive`. */
    predicate IsTaskActive()
      reads this
    {
      endTime != NoTime
    }

    /** Start is disabled while a task runs. */
    function StartEnabled(): (r: bool)
      reads this
      ensures r <==> endTime == NoTime
    {
      !IsTaskActive()
    }

    /** End is disabled while none runs. */
    function EndEnabled(): (r: bool)
      reads this
      ensures r <==> endTime != NoTime
    {
      IsTaskActive()
    }

    /**
     * The first effect: someone who is not an admin is sent away and nothing loads;
     * otherwise the stored end time is shown, and the spinner stops even if the fetch
     * fails.
     */
    method Load(isAdmin: bool, fetched: Option<string>) returns (redirected: bool)
      modifies this`loading, this`endTime
      ensures redirected == !isAdmin
      ensures !isAdmin ==> loading == old(loading) && endTime == old(endTime)
      ensures isAdmin ==> !loading && endTime == (if fetched.Some? then fetched.value else old(endTime))
    {
      if !isAdmin {
        return true;
      }
      if fetched.Some? {
        endTime := fetched.value;
      }
      loading := false;
      return false;
    }

    /** The one-second clock. */
    method Tick(now: int)
      modifies this`currentUtc
      ensures currentUtc == UtcClock(now)
    {
      currentUtc := UtcClock(now);
    }

    /** `updateEndTime`: the end time shows at once; the reset and the new end time are sent. */
    method UpdateEndTime(newEndTime: string) returns (sent: seq<Request>)
      modifies this`endTime
      ensures endTime == newEndTime
      ensures sent == [DailyReset(0, 0), OfficeTime(newEndTime)]
    {
      endTime := newEndTime;
      sent := [DailyReset(0, 0), OfficeTime(newEndTime)];
    }

    /** `handleStartTask`: the task runs until twelve hours from `now`; End is now the enabled button. */
    method StartTask(now: int) returns (sent: seq<Request>)
      modifies this`endTime
      ensures endTime == TwelveHoursOn(now) && sent == [DailyReset(0, 0), OfficeTime(endTime)]
      ensures IsTaskActive() && EndEnabled() && !StartEnabled()
    {
      var end := TwelveHoursOn(now);
      sent := UpdateEndTime(end);
    }

    /** `handleEndTask`: "No Time"; Start is now the enabled button. */
    method EndTask() returns (sent: seq<Request>)
      modifies this`endTime
      ensures endTime == NoTime && sent == [DailyReset(0, 0), OfficeTime(NoTime)]
      ensures !IsTaskActive() && StartEnabled() && !EndEnabled()
    {
      sent := UpdateEndTime(NoTime);
    }
  }
}
