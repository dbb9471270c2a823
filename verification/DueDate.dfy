/** Due dates of "In Progress" transitions: weekday arithmetic under a fixed UTC offset. */
module DueDate {
  import opened Domain

  // One day in nanoseconds.
  const DAY: int := 86_400_000_000_000

  type Weekday = w: int | 0 <= w < 7   // Sunday is 0

  // Instants count nanoseconds since January 1 of year 1, 00:00 UTC, which was a Monday.
  function LocalDay(instant: int, offset: int): int {
    (instant + offset) / 86_400_000_000_000
  }

  function WeekdayOf(day: int): (w: Weekday) {
    (day + 1) % 7
  }

  /** `Truncate(24h)` rounds down to a multiple of a day since the zero time, which is UTC midnight
      whatever the location. */
  function TruncateDay(instant: int): int {
    instant - instant % 86_400_000_000_000
  }

  /** With a fixed offset, `AddDate(0, 0, days)` adds whole days. */
  function AddDays(instant: int, days: int): int {
    instant + days * 86_400_000_000_000
  }

  function NextWeekday(from: int, offset: int, weekday: Weekday): int {
    var midnight := TruncateDay(from);
    var ahead := weekday - WeekdayOf(LocalDay(midnight, offset));
    var daysUntil := if ahead < 0 then ahead + 7 else ahead;
    AddDays(midnight, daysUntil)
  }

  /** `day` is the first day at or after `today` that falls on `weekday`. */
  ghost predicate IsFirstAtOrAfter(day: int, today: int, weekday: Weekday) {
    && today <= day
    && WeekdayOf(day) == weekday
    && forall d :: today <= d < day ==> WeekdayOf(d) != weekday
  }

  lemma FirstWithinWeek(day: int, today: int, weekday: Weekday)
    requires WeekdayOf(day) == weekday
    ensures IsFirstAtOrAfter(day, today, weekday) <==> today <= day <= today + 6
  {
    if today + 6 < day {
      assert WeekdayOf(day - 7) == weekday;
    }
  }

  lemma DayShift(instant: int, offset: int, days: int)
    ensures LocalDay(AddDays(instant, days), offset) == LocalDay(instant, offset) + days
  {
  }

  lemma MidnightIsTodayOrYesterday(from: int, offset: int)
    ensures LocalDay(from, offset) - 1 <= LocalDay(TruncateDay(from), offset) <= LocalDay(from, offset)
  {
  }

  /** The due date is on the configured weekday and between yesterday and six days ahead. It is the
      first such weekday at or after the local date unless UTC midnight still lies on yesterday's
      local date and yesterday was that weekday. */
  lemma SprintEndDate(from: int, offset: int, weekday: Weekday)
    requires -DAY < offset < DAY
    ensures var due := LocalDay(NextWeekday(from, offset, weekday), offset);
            var today := LocalDay(from, offset);
            && WeekdayOf(due) == weekday
            && today - 1 <= due <= today + 6
            && (IsFirstAtOrAfter(due, today, weekday) <==>
                !(LocalDay(TruncateDay(from), offset) == today - 1 && WeekdayOf(today - 1) == weekday))
  {
    var midnight := TruncateDay(from);
    var base := LocalDay(midnight, offset);
    var ahead := weekday - WeekdayOf(base);
    var daysUntil := if ahead < 0 then ahead + 7 else ahead;
    DayShift(midnight, offset, daysUntil);
    MidnightIsTodayOrYesterday(from, offset);
    FirstWithinWeek(base + daysUntil, LocalDay(from, offset), weekday);
  }

  /** In UTC the documented promise holds: the least matching weekday at or after today. */
  lemma SprintEndDateUtc(from: int, weekday: Weekday)
    ensures IsFirstAtOrAfter(LocalDay(NextWeekday(from, 0, weekday), 0), LocalDay(from, 0), weekday)
  {
    SprintEndDate(from, 0, weekday);
    assert LocalDay(TruncateDay(from), 0) == LocalDay(from, 0);
  }

  /** The failing family is inhabited: at 23:00 UTC on a Tuesday seen from UTC+2 it is already
      Wednesday, and asking for Tuesday yields yesterday. */
  lemma SprintEndDateCanBeYesterday()
    ensures var from, offset := 169_200_000_000_000, 7_200_000_000_000;
            LocalDay(NextWeekday(from, offset, 2), offset) == LocalDay(from, offset) - 1
  {
    var from, offset := 169_200_000_000_000, 7_200_000_000_000;
    assert TruncateDay(from) == 86_400_000_000_000;
    assert LocalDay(86_400_000_000_000, offset) == 1 && LocalDay(from, offset) == 2;
    assert WeekdayOf(1) == 2;
    assert NextWeekday(from, offset, 2) == 86_400_000_000_000;
  }

  // ----- CalculateDueDate -----

  function Lower(c: char): char {
    if 'A' <= c <= 'Z' then (c as int + 32) as char else c
  }

  function LowerAll(s: string): (r: string)
    ensures |r| == |s|
  {
    seq(|s|, i requires 0 <= i < |s| => Lower(s[i]))
  }

  predicate IsSpace(c: char) {
    c in {' ', '\t', '\n', '\r', 11 as char, 12 as char}
  }

  function TrimSpace(s: string): string {
    if s == [] then s
    else if IsSpace(s[0]) then TrimSpace(s[1..])
    else if IsSpace(s[|s| - 1]) then TrimSpace(s[..|s| - 1])
    else s
  }

  function ParseWeekday(s: string): Option<Weekday> {
    match LowerAll(TrimSpace(s))
    case "sunday" => Some(0)
    case "monday" => Some(1)
    case "tuesday" => Some(2)
    case "wednesday" => Some(3)
    case "thursday" => Some(4)
    case "friday" => Some(5)
    case "saturday" => Some(6)
    case _ => None
  }

  /** The due instant, or None when the strategy or the weekday name is unknown. */
  function CalculateDueDate(strategy: string, sprintEnd: string, storyPoints: real, now: int, offset: int)
    : Option<int>
  {
    if strategy == "sprint_end" then
      match ParseWeekday(sprintEnd)
      case None => None
      case Some(w) => Some(NextWeekday(now, offset, w))
    else if strategy == "story_points" then
      // int(storyPoints) truncates toward zero; anything below one day becomes one day
      Some(AddDays(now, if storyPoints < 1.0 then 1 else storyPoints.Floor))
    else None
  }

  // ----- the weekday by its name -----

  const NAMES: seq<string> := ["sunday", "monday", "tuesday", "wednesday", "thursday", "friday", "saturday"]

  /** Only white space: tab, line feed, vertical tab, form feed, carriage return, blank. */
  predicate Blank(s: string) {
    forall i :: 0 <= i < |s| ==> s[i] as int in {9, 10, 11, 12, 13, 32}
  }

  /** The same letters as the name, each small or capital. */
  predicate Spells(s: string, name: string) {
    |s| == |name| && forall i :: 0 <= i < |s| ==> s[i] == name[i] || s[i] as int + 32 == name[i] as int
  }

  /** s is this name in any case, with white space around it or not. */
  ghost predicate Names(s: string, name: string) {
    exists i, j :: 0 <= i <= j <= |s| && Blank(s[..i]) && Spells(s[i..j], name) && Blank(s[j..])
  }

  lemma {:induction false} TrimTo(s: string, i: nat, j: nat)
    requires i < j <= |s| && Blank(s[..i]) && Blank(s[j..]) && !IsSpace(s[i]) && !IsSpace(s[j - 1])
    ensures TrimSpace(s) == s[i..j]
    decreases |s|
  {
    if i > 0 {
      assert s[..i][0] == s[0];
      assert s[1..][..i - 1] == s[..i][1..] && s[1..][j - 1..] == s[j..] && s[1..][i - 1..j - 1] == s[i..j];
      TrimTo(s[1..], i - 1, j - 1);
    } else if j < |s| {
      var front := s[..|s| - 1];
      assert s[j..][|s| - 1 - j] == s[|s| - 1];
      assert front[..0] == s[..0] && front[j..] == s[j..][..|s| - 1 - j] && front[i..j] == s[i..j];
      TrimTo(front, i, j);
    } else {
      assert s[i..j] == s;
    }
  }

  lemma {:induction false} TrimIs(s: string) returns (i: nat, j: nat)
    ensures i <= j <= |s| && Blank(s[..i]) && Blank(s[j..]) && TrimSpace(s) == s[i..j]
    decreases |s|
  {
    i, j := 0, |s|;
    if s != [] && IsSpace(s[0]) {
      i, j := TrimIs(s[1..]);
      var rest := s[1..];
      assert s[..i + 1] == [s[0]] + rest[..i] && s[j + 1..] == rest[j..] && s[i + 1..j + 1] == rest[i..j];
      i, j := i + 1, j + 1;
    } else if s != [] && IsSpace(s[|s| - 1]) {
      var front := s[..|s| - 1];
      i, j := TrimIs(front);
      assert s[..i] == front[..i] && s[j..] == front[j..] + [s[|s| - 1]] && s[i..j] == front[i..j];
    }
  }

  predicate Small(name: string) {
    forall i :: 0 <= i < |name| ==> 'a' <= name[i] <= 'z'
  }

  lemma SpellsIsLower(s: string, name: string)
    requires Small(name)
    ensures Spells(s, name) <==> LowerAll(s) == name
  {
    if LowerAll(s) == name {
      forall i | 0 <= i < |s|
        ensures s[i] == name[i] || s[i] as int + 32 == name[i] as int
      {
        assert LowerAll(s)[i] == name[i];
      }
    }
  }

  lemma NamesIsTrimmed(s: string, name: string)
    requires Small(name) && name != []
    ensures Names(s, name) <==> LowerAll(TrimSpace(s)) == name
  {
    if Names(s, name) {
      var i, j :| 0 <= i <= j <= |s| && Blank(s[..i]) && Spells(s[i..j], name) && Blank(s[j..]);
      SpellsIsLower(s[i..j], name);
      assert s[i..j][0] == s[i] && s[i..j][j - i - 1] == s[j - 1];
      TrimTo(s, i, j);
    }
    if LowerAll(TrimSpace(s)) == name {
      var i, j := TrimIs(s);
      SpellsIsLower(s[i..j], name);
    }
  }

  /** Each weekday is known by its English name and by nothing else. */
  lemma ParseWeekdayExactly(s: string, w: Weekday)
    ensures ParseWeekday(s) == Some(w) <==> Names(s, NAMES[w])
  {
    NamesIsTrimmed(s, NAMES[w]);
  }

  /** 1 January 1970 was a Thursday, 719162 days after day 0. */
  lemma EpochIsThursday()
    ensures LocalDay(62_135_596_800_000_000_000, 0) == 719162 && WeekdayOf(719162) == 4
  {
  }

  lemma AtMidnight(from: int, offset: int, w: Weekday)
    ensures NextWeekday(from, offset, w) % 86_400_000_000_000 == 0
  {
    var midnight := TruncateDay(from);
    assert midnight % 86_400_000_000_000 == 0;
    var ahead := w - WeekdayOf(LocalDay(midnight, offset));
    WholeDays(midnight, if ahead < 0 then ahead + 7 else ahead);
  }

  lemma WholeDays(midnight: int, days: int)
    requires midnight % 86_400_000_000_000 == 0
    ensures AddDays(midnight, days) % 86_400_000_000_000 == 0
  {
  }

  /** The sprint_end strategy, for a weekday given by its name (0 is Sunday, and day 0 was a Monday): the
      due date is UTC midnight of a day that falls on that weekday, in local dates one day back to six
      ahead. So it is the first such day from today on, unless it is yesterday: exactly when UTC midnight
      lies on yesterday's local date and yesterday was that weekday. */
  lemma SprintEndByName(name: string, w: Weekday, storyPoints: real, now: int, offset: int)
    requires -86_400_000_000_000 < offset < 86_400_000_000_000 && Names(name, NAMES[w])
    ensures var due := CalculateDueDate("sprint_end", name, storyPoints, now, offset);
            && due.Some? && due.value % 86_400_000_000_000 == 0
            && var day, today := (due.value + offset) / 86_400_000_000_000, (now + offset) / 86_400_000_000_000;
               && (day + 1) % 7 == w
               && today - 1 <= day <= today + 6
               && (day == today - 1 <==>
                   (now - now % 86_400_000_000_000 + offset) / 86_400_000_000_000 == today - 1 && today % 7 == w)
  {
    ParseWeekdayExactly(name, w);
    SprintEndDate(now, offset, w);
    AtMidnight(now, offset, w);
    FirstWithinWeek(LocalDay(NextWeekday(now, offset, w), offset), LocalDay(now, offset), w);
  }

  /** Story points: whole days of local date and time ahead, at least one. */
  lemma StoryPointsExactly(sprintEnd: string, storyPoints: real, now: int, offset: int)
    ensures var due := CalculateDueDate("story_points", sprintEnd, storyPoints, now, offset);
            var days := if storyPoints < 2.0 then 1 else storyPoints.Floor;
            && due == Some(now + days * 86_400_000_000_000)
            && (due.value + offset) / 86_400_000_000_000 == (now + offset) / 86_400_000_000_000 + days
  {
    DayShift(now, offset, if storyPoints < 1.0 then 1 else storyPoints.Floor);
  }

  /** There is no due date exactly when the strategy is unknown, or needs a weekday and has no name of one. */
  lemma DueDateErrors(strategy: string, sprintEnd: string, storyPoints: real, now: int, offset: int)
    ensures CalculateDueDate(strategy, sprintEnd, storyPoints, now, offset).None? <==>
            && strategy != "story_points"
            && (strategy == "sprint_end" ==> forall w: Weekday :: !Names(sprintEnd, NAMES[w]))
  {
    forall w: Weekday ensures ParseWeekday(sprintEnd) == Some(w) <==> Names(sprintEnd, NAMES[w]) {
      ParseWeekdayExactly(sprintEnd, w);
    }
  }

  /** Whatever the strategy, a computed due date is at most one day in the past. */
  lemma DueDateRange(strategy: string, sprintEnd: string, storyPoints: real, now: int, offset: int)
    requires -DAY < offset < DAY
    ensures var due := CalculateDueDate(strategy, sprintEnd, storyPoints, now, offset);
            due.Some? ==> LocalDay(due.value, offset) >= LocalDay(now, offset) - 1
  {
    if strategy == "sprint_end" {
      match ParseWeekday(sprintEnd)
      case None =>
      case Some(w) => SprintEndDate(now, offset, w);
    } else if strategy == "story_points" {
      StoryPointsExactly(sprintEnd, storyPoints, now, offset);
    }
  }
}
