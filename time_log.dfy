/** The time clock of controllers/timeLog.js: a four-action punch state
    machine over the TimeLog rows, and the daily and weekly work and break
    totals. Timestamps are integer milliseconds; the current time and the
    start of the current day and week are parameters. */
module TimeClock {
  import opened Common
  import opened Tenancy

  /** One work session of one employee profile. `clockIn` is required by the
      schema; the lookups still test it, so it stays optional here. */
  datatype TimeLog = TimeLog(
    employee: Id,
    date: Time,
    clockIn: Option<Time>,
    clockOut: Option<Time>,
    breakStart: Option<Time>,
    breakEnd: Option<Time>)

  datatype Action = ClockIn | StartBreak | EndBreak | ClockOut

  /** The `switch (action)` of updateTimeLog. */
  function ParseAction(s: string): Option<Action> {
    if s == "clock-in" then Some(ClockIn)
    else if s == "start-break" then Some(StartBreak)
    else if s == "end-break" then Some(EndBreak)
    else if s == "clock-out" then Some(ClockOut)
    else None
  }

  const NoActiveClockIn: string := "No active clock-in found"

  /** The three row filters the controller queries with. */
  datatype Query =
    | Open     // clockIn set, clockOut unset
    | OnBreak  // breakStart set, clockOut unset
    | AnyRow   // every row of the employee

  predicate Matches(q: Query, e: Id, row: TimeLog) {
    row.employee == e &&
    match q
    case Open => row.clockIn.Some? && row.clockOut.None?
    case OnBreak => row.breakStart.Some? && row.clockOut.None?
    case AnyRow => true
  }

  /** `TimeLog.findOne(filter).sort({date: -1})`: the matching row with the
      greatest date; among rows with equal dates, the earliest stored one. */
  function Latest(logs: seq<TimeLog>, q: Query, e: Id): (r: Option<nat>)
    ensures r.None? <==> forall j :: 0 <= j < |logs| ==> !Matches(q, e, logs[j])
    ensures r.Some? ==> r.value < |logs| && Matches(q, e, logs[r.value])
    ensures r.Some? ==> forall j :: 0 <= j < |logs| && Matches(q, e, logs[j]) ==> logs[j].date <= logs[r.value].date
    ensures r.Some? ==> forall j :: 0 <= j < r.value && Matches(q, e, logs[j]) ==> logs[j].date < logs[r.value].date
  {
    if |logs| == 0 then None
    else
      var p := Latest(logs[..|logs| - 1], q, e);
      var last := |logs| - 1;
      if Matches(q, e, logs[last]) && (p.None? || logs[p.value].date < logs[last].date) then Some(last) else p
  }

  /** A half-open window [lo, hi) of row dates. */
  datatype Window = Window(lo: Time, hi: Time)

  predicate InWindow(w: Window, t: Time) {
    w.lo <= t < w.hi
  }

  const DayMs: int := 24 * 60 * 60 * 1000

  /** From today's 00:00:00.000 to today's 23:59:59.999, the end excluded. */
  function DailyWindow(startOfDay: Time): Window {
    Window(startOfDay, startOfDay + DayMs - 1)
  }

  /** From Sunday 00:00:00.000 to 23:59:59.999 of the day seven days later,
      the end excluded. */
  function WeeklyWindow(startOfWeek: Time): Window {
    Window(startOfWeek, startOfWeek + 7 * DayMs + DayMs - 1)
  }

  /** The daily window leaves out the day's last millisecond. */
  lemma DailyWindowBounds(startOfDay: Time)
    ensures InWindow(DailyWindow(startOfDay), startOfDay)
    ensures InWindow(DailyWindow(startOfDay), startOfDay + DayMs - 2)
    ensures !InWindow(DailyWindow(startOfDay), startOfDay + DayMs - 1)
    ensures !InWindow(DailyWindow(startOfDay), startOfDay - 1)
  {
  }

  /** The weekly window reaches into the following Sunday: eight calendar
      days, less the last millisecond. */
  lemma WeeklyWindowSpansEightDays(startOfWeek: Time)
    ensures InWindow(WeeklyWindow(startOfWeek), startOfWeek + 7 * DayMs)
    ensures InWindow(WeeklyWindow(startOfWeek), startOfWeek + 8 * DayMs - 2)
    ensures !InWindow(WeeklyWindow(startOfWeek), startOfWeek + 8 * DayMs - 1)
  {
  }

  /** What one row adds to the work total: clockOut - clockIn when both are set. */
  function WorkOf(row: TimeLog): int {
    if row.clockIn.Some? && row.clockOut.Some? then row.clockOut.value - row.clockIn.value else 0
  }

  /** What one row adds to the break total: breakEnd - breakStart when both are set. */
  function BreakOf(row: TimeLog): int {
    if row.breakStart.Some? && row.breakEnd.Some? then row.breakEnd.value - row.breakStart.value else 0
  }

  /** The rows `TimeLog.find({employeeProfile, date: {$gte, $lt}})` returns. */
  predicate Counted(e: Id, w: Window, row: TimeLog) {
    row.employee == e && InWindow(w, row.date)
  }

  /** The work total of the employee's rows dated in the window. */
  function WorkTotal(logs: seq<TimeLog>, e: Id, w: Window): int {
    if |logs| == 0 then 0
    else WorkTotal(logs[..|logs| - 1], e, w) + (if Counted(e, w, logs[|logs| - 1]) then WorkOf(logs[|logs| - 1]) else 0)
  }

  /** The break total of the employee's rows dated in the window. */
  function BreakTotal(logs: seq<TimeLog>, e: Id, w: Window): int {
    if |logs| == 0 then 0
    else BreakTotal(logs[..|logs| - 1], e, w) + (if Counted(e, w, logs[|logs| - 1]) then BreakOf(logs[|logs| - 1]) else 0)
  }

  /** Each pair of bounds that is set is in order. */
  predicate WellOrdered(row: TimeLog) {
    (row.clockIn.Some? && row.clockOut.Some? ==> row.clockIn.value <= row.clockOut.value) &&
    (row.breakStart.Some? && row.breakEnd.Some? ==> row.breakStart.value <= row.breakEnd.value)
  }

  /** The totals are never negative when every row is well ordered. */
  lemma {:induction false} TotalsNonNegative(logs: seq<TimeLog>, e: Id, w: Window)
    requires forall i :: 0 <= i < |logs| ==> WellOrdered(logs[i])
    ensures WorkTotal(logs, e, w) >= 0 && BreakTotal(logs, e, w) >= 0
  {
    if |logs| > 0 {
      TotalsNonNegative(logs[..|logs| - 1], e, w);
      assert WellOrdered(logs[|logs| - 1]);
    }
  }

  /** The totals of a concatenation are the sums of the totals: they do not
      depend on how the rows are grouped. */
  lemma {:induction false} TotalsAppend(a: seq<TimeLog>, b: seq<TimeLog>, e: Id, w: Window)
    ensures WorkTotal(a + b, e, w) == WorkTotal(a, e, w) + WorkTotal(b, e, w)
    ensures BreakTotal(a + b, e, w) == BreakTotal(a, e, w) + BreakTotal(b, e, w)
  {
    if |b| == 0 {
      assert a + b == a;
    } else {
      var b' := b[..|b| - 1];
      assert (a + b)[..|a + b| - 1] == a + b';
      assert (a + b)[|a + b| - 1] == b[|b| - 1];
      TotalsAppend(a, b', e, w);
    }
  }

  /** Closing an open session adds clockOut - clockIn to the work total of
      every window that contains the row's date, and leaves the break total. */
  lemma {:induction false} ClockOutAddsSession(logs: seq<TimeLog>, k: nat, t: Time, e: Id, w: Window)
    requires k < |logs| && logs[k].clockIn.Some? && logs[k].clockOut.None?
    ensures WorkTotal(logs[k := logs[k].(clockOut := Some(t))], e, w)
            == WorkTotal(logs, e, w) + (if Counted(e, w, logs[k]) then t - logs[k].clockIn.value else 0)
    ensures BreakTotal(logs[k := logs[k].(clockOut := Some(t))], e, w) == BreakTotal(logs, e, w)
  {
    var logs' := logs[k := logs[k].(clockOut := Some(t))];
    var n := |logs| - 1;
    if k == n {
      assert logs'[..n] == logs[..n];
    } else {
      assert logs'[..n] == logs[..n][k := logs[k].(clockOut := Some(t))];
      ClockOutAddsSession(logs[..n], k, t, e, w);
    }
  }

  /** The worked example: 09:00 to 17:00 with a break from 12:00 to 12:30 on
      one day gives 8 hours of work (breaks are not deducted) and 30 minutes
      of break. */
  lemma EightHourDay(e: Id, startOfDay: Time)
    ensures var h := 60 * 60 * 1000;
            var row := TimeLog(e, startOfDay + 9 * h, Some(startOfDay + 9 * h), Some(startOfDay + 17 * h),
                               Some(startOfDay + 12 * h), Some(startOfDay + 12 * h + h / 2));
            WorkTotal([row], e, DailyWindow(startOfDay)) == 8 * h &&
            BreakTotal([row], e, DailyWindow(startOfDay)) == h / 2
  {
    var h := 60 * 60 * 1000;
    var row := TimeLog(e, startOfDay + 9 * h, Some(startOfDay + 9 * h), Some(startOfDay + 17 * h),
                       Some(startOfDay + 12 * h), Some(startOfDay + 12 * h + h / 2));
    assert [row][..0] == [];
  }

  /** The `forEach` of getWorkLog that accumulates both totals over a window. */
  method SumWindow(logs: seq<TimeLog>, e: Id, w: Window) returns (work: int, breaks: int)
    ensures work == WorkTotal(logs, e, w) && breaks == BreakTotal(logs, e, w)
  {
    work, breaks := 0, 0;
    var i := 0;
    while i < |logs|
      invariant 0 <= i <= |logs|
      invariant work == WorkTotal(logs[..i], e, w)
      invariant breaks == BreakTotal(logs[..i], e, w)
    {
      assert logs[..i + 1][..i] == logs[..i];
      var row := logs[i];
      if row.employee == e && InWindow(w, row.date) {
        if row.clockIn.Some? && row.clockOut.Some? {
          work := work + (row.clockOut.value - row.clockIn.value);
        }
        if row.breakStart.Some? && row.breakEnd.Some? {
          breaks := breaks + (row.breakEnd.value - row.breakStart.value);
        }
      }
      i := i + 1;
    }
    assert logs[..|logs|] == logs;
  }

  /** A second clock-in while a session is open: the earlier session stays
      open beside the new row (nothing enforces a single open session). */
  lemma ClockInKeepsOpenSession(logs: seq<TimeLog>, j: nat, e: Id, now: Time)
    requires j < |logs| && Matches(Open, e, logs[j])
    ensures var logs' := logs + [TimeLog(e, now, Some(now), None, None, None)];
            Matches(Open, e, logs'[j]) && Matches(Open, e, logs'[|logs|])
  {
  }

  /** After a clock-in dated later than every row of the employee, the new
      row is the one start-break and clock-out act on. */
  lemma ClockInBecomesLatest(logs: seq<TimeLog>, e: Id, now: Time)
    requires forall j :: 0 <= j < |logs| && logs[j].employee == e ==> logs[j].date < now
    ensures Latest(logs + [TimeLog(e, now, Some(now), None, None, None)], Open, e) == Some(|logs|)
    ensures Latest(logs + [TimeLog(e, now, Some(now), None, None, None)], AnyRow, e) == Some(|logs|)
  {
    var logs' := logs + [TimeLog(e, now, Some(now), None, None, None)];
    assert logs'[..|logs'| - 1] == logs;
    var open, any := Latest(logs, Open, e), Latest(logs, AnyRow, e);
    assert open.Some? ==> logs[open.value].date < now;
    assert any.Some? ==> logs[any.value].date < now;
  }

  /** Once the only open session is clocked out, another clock-out (and a
      start-break) finds no active clock-in. */
  lemma SecondClockOutFails(logs: seq<TimeLog>, e: Id, t: Time)
    requires Latest(logs, Open, e).Some?
    requires forall j :: 0 <= j < |logs| && Matches(Open, e, logs[j]) ==> j == Latest(logs, Open, e).value
    ensures var k := Latest(logs, Open, e).value;
            Latest(logs[k := logs[k].(clockOut := Some(t))], Open, e).None?
  {
    var k := Latest(logs, Open, e).value;
    var logs' := logs[k := logs[k].(clockOut := Some(t))];
    forall j | 0 <= j < |logs'|
      ensures !Matches(Open, e, logs'[j])
    {
      if j != k {
        assert logs'[j] == logs[j];
      }
    }
  }

  datatype Totals = Totals(work: int, breaks: int)

  /** The payload of getWorkLog. */
  datatype WorkLog = WorkLog(current: Option<TimeLog>, daily: Totals, weekly: Totals)

  /** The caller's own profile is the target employee: the only callers the
      two handlers serve. */
  predicate IsSelf(ms: seq<Membership>, company: Id, target: Option<Id>) {
    InCompany(ms, company) && target.Some? && MembershipFor(ms, company).profile == target.value
  }

  /** The TimeLog collection. */
  class TimeLogStore {
    var logs: seq<TimeLog>

    constructor (logs: seq<TimeLog>)
      ensures this.logs == logs
    {
      this.logs := logs;
    }

    /** updateTimeLog. `ms` are the caller's memberships and `target` the
        profile found for the employeeId in the company, if any. */
    method UpdateTimeLog(ms: seq<Membership>, company: Id, target: Option<Id>, action: string, now: Time)
      returns (r: Result<TimeLog>)
      modifies this
      ensures !InCompany(ms, company) ==> r == Err(401, "User is not part of this company") && logs == old(logs)
      ensures InCompany(ms, company) && target.None? ==> r == Err(404, "Employee not found") && logs == old(logs)
      ensures InCompany(ms, company) && target.Some? && !IsSelf(ms, company, target)
              ==> r == Err(401, "You are not authorized") && logs == old(logs)
      ensures IsSelf(ms, company, target) && ParseAction(action).None?
              ==> r == Err(400, "Invalid action") && logs == old(logs)
      ensures IsSelf(ms, company, target) && ParseAction(action) == Some(ClockIn)
              ==> var row := TimeLog(target.value, now, Some(now), None, None, None);
                  logs == old(logs) + [row] && r == Ok(row)
      ensures IsSelf(ms, company, target) && ParseAction(action) in {Some(StartBreak), Some(ClockOut)}
              ==> match Latest(old(logs), Open, target.value)
                  case None => r == Err(400, NoActiveClockIn) && logs == old(logs)
                  case Some(k) =>
                    var row := if ParseAction(action) == Some(StartBreak)
                               then old(logs)[k].(breakStart := Some(now))
                               else old(logs)[k].(clockOut := Some(now));
                    logs == old(logs)[k := row] && r == Ok(row)
      ensures IsSelf(ms, company, target) && ParseAction(action) == Some(EndBreak)
              ==> match Latest(old(logs), OnBreak, target.value)
                  case None => r == Err(400, NoActiveClockIn) && logs == old(logs)
                  case Some(k) =>
                    var row := old(logs)[k].(breakEnd := Some(now));
                    logs == old(logs)[k := row] && r == Ok(row)
    {
      if !InCompany(ms, company) {
        return Err(401, "User is not part of this company");
      }
      if target.None? {
        return Err(404, "Employee not found");
      }
      var employee := target.value;
      if MembershipFor(ms, company).profile != employee {
        return Err(401, "You are not authorized");
      }
      var a := ParseAction(action);
      if a.None? {
        return Err(400, "Invalid action");
      }
      match a.value {
        case ClockIn =>
          var row := TimeLog(employee, now, Some(now), None, None, None);
          logs := logs + [row];
          r := Ok(row);
        case StartBreak =>
          var found := Latest(logs, Open, employee);
          if found.None? {
            return Err(400, NoActiveClockIn);
          }
          var row := logs[found.value].(breakStart := Some(now));
          logs := logs[found.value := row];
          r := Ok(row);
        case EndBreak =>
          var found := Latest(logs, OnBreak, employee);
          if found.None? {
            return Err(400, NoActiveClockIn);
          }
          var row := logs[found.value].(breakEnd := Some(now));
          logs := logs[found.value := row];
          r := Ok(row);
        case ClockOut =>
          var found := Latest(logs, Open, employee);
          if found.None? {
            return Err(400, NoActiveClockIn);
          }
          var row := logs[found.value].(clockOut := Some(now));
          logs := logs[found.value := row];
          r := Ok(row);
      }
    }

    /** getWorkLog: the totals over today's and this week's windows and the
        employee's most recent row, open or closed. */
    method GetWorkLog(ms: seq<Membership>, company: Id, target: Option<Id>, startOfDay: Time, startOfWeek: Time)
      returns (r: Result<WorkLog>)
      ensures !InCompany(ms, company) ==> r == Err(401, "User is not part of this company")
      ensures InCompany(ms, company) && target.None? ==> r == Err(404, "Employee not found")
      ensures InCompany(ms, company) && target.Some? && !IsSelf(ms, company, target) ==> r == Err(401, "You are not authorized")
      ensures IsSelf(ms, company, target) ==> r.Ok?
      ensures r.Ok? ==>
        var e := target.value;
        r.value.daily == Totals(WorkTotal(logs, e, DailyWindow(startOfDay)), BreakTotal(logs, e, DailyWindow(startOfDay))) &&
        r.value.weekly == Totals(WorkTotal(logs, e, WeeklyWindow(startOfWeek)), BreakTotal(logs, e, WeeklyWindow(startOfWeek))) &&
        (r.value.current.None? <==> forall j :: 0 <= j < |logs| ==> logs[j].employee != e) &&
        (r.value.current.Some? ==>
           r.value.current.value.employee == e &&
           forall j :: 0 <= j < |logs| && logs[j].employee == e ==> logs[j].date <= r.value.current.value.date)
      ensures r.Ok? ==>
        r.value.current == (var l := Latest(logs, AnyRow, target.value); if l.Some? then Some(logs[l.value]) else None)
    {
      if !InCompany(ms, company) {
        return Err(401, "User is not part of this company");
      }
      if target.None? {
        return Err(404, "Employee not found");
      }
      var e := target.value;
      if MembershipFor(ms, company).profile != e {
        return Err(401, "You are not authorized");
      }
      var dailyWork, dailyBreak := SumWindow(logs, e, DailyWindow(startOfDay));
      var weeklyWork, weeklyBreak := SumWindow(logs, e, WeeklyWindow(startOfWeek));
      var latest := Latest(logs, AnyRow, e);
      var current := if latest.Some? then Some(logs[latest.value]) else None;
      r := Ok(WorkLog(current, Totals(dailyWork, dailyBreak), Totals(weeklyWork, weeklyBreak)));
    }
  }
}
