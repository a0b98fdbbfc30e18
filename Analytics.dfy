/** The analytics handlers (controllers/analyticsController.js): counts over
    the caller's habits. Days are day numbers; the weekday (0 = Sunday) and the
    day of the month of a day are supplied by the caller, since they depend on
    the calendar and the time zone. */
module Analytics {
  import opened Wrappers
  import opened Users
  import opened Response
  import opened HabitModel

  // ---------------------------------------------------------------------------
  // getSummary

  datatype Summary = Summary(totalHabits: nat, activeHabits: nat, completedToday: nat, bestStreak: int, currentStreak: int)

  /** The number of active habits. */
  function CountActive(habits: seq<Habit>): (c: nat)
    ensures c <= |habits|
    ensures c == 0 <==> forall h :: h in habits ==> !h.active
    decreases |habits|
  {
    if habits == [] then 0
    else CountActive(habits[..|habits| - 1]) + (if habits[|habits| - 1].active then 1 else 0)
  }

  /** The number of habits with a completed entry on `day`. */
  function CountCompletedOn(habits: seq<Habit>, day: Day): (c: nat)
    ensures c <= |habits|
    decreases |habits|
  {
    if habits == [] then 0
    else CountCompletedOn(habits[..|habits| - 1], day) + (if CompletedOn(habits[|habits| - 1].completions, day) then 1 else 0)
  }

  /** No habit is counted as completed on `day` exactly when none has a
      completed entry that day. */
  lemma {:induction false} CountCompletedOnZero(habits: seq<Habit>, day: Day)
    ensures CountCompletedOn(habits, day) == 0 <==> forall h :: h in habits ==> !CompletedOn(h.completions, day)
    decreases |habits|
  {
    if habits != [] {
      var rest := habits[..|habits| - 1];
      CountCompletedOnZero(rest, day);
      assert habits == rest + [habits[|habits| - 1]];
    }
  }

  /** `Math.max(...values, 0)`. */
  function MaxOrZero(values: seq<int>): (m: int)
    ensures m >= 0
    ensures forall v :: v in values ==> v <= m
    ensures m == 0 || m in values
  {
    if values == [] then 0
    else
      var rest := MaxOrZero(values[1..]);
      assert values == [values[0]] + values[1..];
      if values[0] > rest then values[0] else rest
  }

  function LongestStreaks(habits: seq<Habit>): (r: seq<int>)
    ensures |r| == |habits| && forall i :: 0 <= i < |habits| ==> r[i] == habits[i].longestStreak
  {
    seq(|habits|, i requires 0 <= i < |habits| => habits[i].longestStreak)
  }

  function Streaks(habits: seq<Habit>): (r: seq<int>)
    ensures |r| == |habits| && forall i :: 0 <= i < |habits| ==> r[i] == habits[i].streak
  {
    seq(|habits|, i requires 0 <= i < |habits| => habits[i].streak)
  }

  /** The loop of `getSummary` that counts the habits completed today. */
  method TallyCompleted(habits: seq<Habit>, today: Day) returns (c: nat)
    ensures c == CountCompletedOn(habits, today)
  {
    c := 0;
    var i := 0;
    while i < |habits|
      invariant 0 <= i <= |habits|
      invariant c == CountCompletedOn(habits[..i], today)
    {
      var prefix := habits[..i + 1];
      assert prefix[..i] == habits[..i] && prefix[i] == habits[i];
      if CompletedOn(habits[i].completions, today) {
        c := c + 1;
      }
      i := i + 1;
    }
    assert habits[..i] == habits;
  }

  /** `getSummary`: the counters over the caller's habits; the completion
      percentage is not modelled. */
  method GetSummary(allHabits: seq<Habit>, caller: UserId, today: Day) returns (r: Reply<Summary>)
    ensures r.Success? && r.status == 200 && r.data.Some?
    ensures var habits := OwnedBy(allHabits, caller);
            var s := r.data.value;
            && s.totalHabits == |habits|
            && s.activeHabits == CountActive(habits)
            && s.completedToday == CountCompletedOn(habits, today)
            && s.bestStreak == MaxOrZero(LongestStreaks(habits))
            && s.currentStreak == MaxOrZero(Streaks(habits))
            && s.activeHabits <= s.totalHabits && s.completedToday <= s.totalHabits
            && (habits == [] ==> s.bestStreak == 0 && s.currentStreak == 0)
  {
    var habits := OwnedBy(allHabits, caller);
    var completedToday := TallyCompleted(habits, today);
    var s := Summary(|habits|, CountActive(habits), completedToday,
                     MaxOrZero(LongestStreaks(habits)), MaxOrZero(Streaks(habits)));
    return SuccessReply("Analytics summary fetched successfully", Some(s));
  }

  // ---------------------------------------------------------------------------
  // getWeekly and getMonthly

  /** The `rate` of a day: 0 when nothing is scheduled, else the percentage of
      `completed` over `scheduled` (kept as the pair; the rounding is not modelled). */
  datatype Rate = Zero | Percent(completed: nat, scheduled: nat)

  datatype DayStat = DayStat(date: Day, completed: nat, scheduled: nat, rate: Rate)

  function MakeStat(date: Day, completed: nat, scheduled: nat): (s: DayStat)
    ensures s.date == date && s.completed == completed && s.scheduled == scheduled
    ensures s.scheduled == 0 <==> s.rate == Zero
  {
    DayStat(date, completed, scheduled, if scheduled > 0 then Percent(completed, scheduled) else Zero)
  }

  /** The weekly view's schedule: daily habits every day, weekly ones on
      Sundays, monthly ones on the first of the month. */
  predicate ScheduledInWeekView(h: Habit, weekday: int, dayOfMonth: int) {
    h.frequency == Daily || (h.frequency == Weekly && weekday == 0) || (h.frequency == Monthly && dayOfMonth == 1)
  }

  /** The monthly view's schedule: daily habits only. */
  predicate ScheduledInMonthView(h: Habit) {
    h.frequency == Daily
  }

  /** The number of habits `scheduled` selects. */
  function CountScheduled(habits: seq<Habit>, scheduled: Habit -> bool): (c: nat)
    ensures c <= |habits|
    decreases |habits|
  {
    if habits == [] then 0
    else CountScheduled(habits[..|habits| - 1], scheduled) + (if scheduled(habits[|habits| - 1]) then 1 else 0)
  }

  /** Nothing is scheduled exactly when no habit is selected. */
  lemma {:induction false} CountScheduledZero(habits: seq<Habit>, scheduled: Habit -> bool)
    ensures CountScheduled(habits, scheduled) == 0 <==> forall h :: h in habits ==> !scheduled(h)
    decreases |habits|
  {
    if habits != [] {
      var rest := habits[..|habits| - 1];
      CountScheduledZero(rest, scheduled);
      assert habits == rest + [habits[|habits| - 1]];
    }
  }

  /** The number of scheduled habits with a completed entry on `day`; never
      more than the scheduled ones. */
  function CountScheduledDone(habits: seq<Habit>, scheduled: Habit -> bool, day: Day): (c: nat)
    ensures c <= CountScheduled(habits, scheduled)
    decreases |habits|
  {
    if habits == [] then 0
    else
      var h := habits[|habits| - 1];
      CountScheduledDone(habits[..|habits| - 1], scheduled, day) + (if scheduled(h) && CompletedOn(h.completions, day) then 1 else 0)
  }

  /** A day's entry as the specification defines it. */
  function StatFor(habits: seq<Habit>, scheduled: Habit -> bool, day: Day): (s: DayStat)
    ensures s.date == day && s.completed <= s.scheduled && s.scheduled <= |habits|
    ensures s.scheduled == 0 ==> s.rate == Zero
  {
    MakeStat(day, CountScheduledDone(habits, scheduled, day), CountScheduled(habits, scheduled))
  }

  /** The inner `forEach` of both views: one pass over the habits for one day. */
  method TallyDay(habits: seq<Habit>, scheduled: Habit -> bool, day: Day) returns (s: DayStat)
    ensures s == StatFor(habits, scheduled, day)
  {
    var completed, count := 0, 0;
    var i := 0;
    while i < |habits|
      invariant 0 <= i <= |habits|
      invariant count == CountScheduled(habits[..i], scheduled)
      invariant completed == CountScheduledDone(habits[..i], scheduled, day)
    {
      assert habits[..i + 1][..i] == habits[..i];
      if scheduled(habits[i]) {
        count := count + 1;
        if CompletedOn(habits[i].completions, day) {
          completed := completed + 1;
        }
      }
      i := i + 1;
    }
    assert habits[..i] == habits;
    s := MakeStat(day, completed, count);
  }

  /** The week view's schedule for one day. */
  function WeekSchedule(weekday: Day -> int, dayOfMonth: Day -> int, day: Day): Habit -> bool {
    h => ScheduledInWeekView(h, weekday(day), dayOfMonth(day))
  }

  /** `getWeekly`: seven entries, oldest first, the last one for today. */
  method GetWeekly(allHabits: seq<Habit>, caller: UserId, today: Day, weekday: Day -> int, dayOfMonth: Day -> int)
    returns (r: Reply<seq<DayStat>>)
    ensures r.Success? && r.status == 200 && r.data.Some?
    ensures |r.data.value| == 7
    ensures forall k :: 0 <= k < 7 ==>
              r.data.value[k] == StatFor(OwnedBy(allHabits, caller), WeekSchedule(weekday, dayOfMonth, today - 6 + k), today - 6 + k)
    ensures r.data.value[6].date == today
  {
    var habits := OwnedBy(allHabits, caller);
    var week: seq<DayStat> := [];
    var i := 6;
    while i >= 0
      invariant -1 <= i <= 6 && |week| == 6 - i
      invariant forall k :: 0 <= k < |week| ==>
                  week[k] == StatFor(habits, WeekSchedule(weekday, dayOfMonth, today - 6 + k), today - 6 + k)
    {
      var day := today - i;
      var stat := TallyDay(habits, WeekSchedule(weekday, dayOfMonth, day), day);
      week := week + [stat];
      i := i - 1;
    }
    return SuccessReply("Weekly analytics fetched successfully", Some(week));
  }

  /** `getMonthly`: one entry per day of the month, `monthStart` being the
      first; only daily habits are scheduled. */
  method GetMonthly(allHabits: seq<Habit>, caller: UserId, monthStart: Day, daysInMonth: nat)
    returns (r: Reply<seq<DayStat>>)
    ensures r.Success? && r.status == 200 && r.data.Some?
    ensures |r.data.value| == daysInMonth
    ensures forall k :: 0 <= k < daysInMonth ==>
              r.data.value[k] == StatFor(OwnedBy(allHabits, caller), ScheduledInMonthView, monthStart + k)
  {
    var habits := OwnedBy(allHabits, caller);
    var month: seq<DayStat> := [];
    var day := 1;
    while day <= daysInMonth
      invariant 1 <= day <= daysInMonth + 1 && |month| == day - 1
      invariant forall k :: 0 <= k < |month| ==> month[k] == StatFor(habits, ScheduledInMonthView, monthStart + k)
    {
      var stat := TallyDay(habits, ScheduledInMonthView, monthStart + day - 1);
      month := month + [stat];
      day := day + 1;
    }
    return SuccessReply("Monthly analytics fetched successfully", Some(month));
  }

  /** A day's scheduled count in the month view (daily habits only) never
      exceeds the week view's count for that day. */
  lemma {:induction false} MonthViewCountsDailyOnly(habits: seq<Habit>, weekday: int, dayOfMonth: int)
    ensures CountScheduled(habits, ScheduledInMonthView)
            <= CountScheduled(habits, h => ScheduledInWeekView(h, weekday, dayOfMonth))
    decreases |habits|
  {
    if habits != [] {
      MonthViewCountsDailyOnly(habits[..|habits| - 1], weekday, dayOfMonth);
    }
  }

  // ---------------------------------------------------------------------------
  // getHabitAnalytics

  datatype HabitReport = HabitReport(habitId: nat, name: string, totalCompletions: nat,
                                     currentStreak: int, longestStreak: int, completions: seq<Completion>)

  /** The number of completed entries. */
  function CountCompleted(completions: seq<Completion>): (c: nat)
    ensures c <= |completions|
    ensures c == 0 <==> forall x :: x in completions ==> !x.completed
  {
    if completions == [] then 0
    else (if completions[0].completed then 1 else 0) + CountCompleted(completions[1..])
  }

  /** `getHabitAnalytics`: 404 unless the caller owns the habit. */
  function GetHabitAnalytics(habits: seq<Habit>, caller: UserId, id: nat): (r: Reply<HabitReport>)
    ensures (forall h :: h in habits ==> !(h.id == id && h.userId == caller)) <==> r == ErrorReply("Habit not found", 404)
    ensures r.Success? ==> r.data.Some?
    ensures r.Success? ==>
              exists h :: h in habits && h.id == id && h.userId == caller &&
                r.data == Some(HabitReport(id, h.name, CountCompleted(h.completions), h.streak, h.longestStreak, h.completions))
  {
    match FindOwned(habits, id, caller)
    case None => ErrorReply("Habit not found", 404)
    case Some(i) =>
      var h := habits[i];
      SuccessReply("Habit analytics fetched successfully",
                   Some(HabitReport(h.id, h.name, CountCompleted(h.completions), h.streak, h.longestStreak, h.completions)))
  }
}
