/** The posting-time advisor (`scheduling.py`): a constant weekday -> slots
    table and a constant list of hour windows to avoid, a first-match rating of
    the current hour, and a list of upcoming recommended slots.

    "Now" is a parameter. Instants are described relative to it: a `Target` is
    a number of days after today's date plus a wall-clock time. Time zones,
    daylight-saving shifts and `isoformat()` text are not modelled. */
module Scheduling {
  import opened Common
  import opened Text

  type Weekday = d: int | 0 <= d < 7
  type Hour = h: int | 0 <= h < 24
  type Minute = m: int | 0 <= m < 60

  /** What the advisor reads of the current instant: `now.weekday()`
      (0 = Monday), `now.hour` and `now.minute`. Seconds and microseconds are
      not needed: every slot sits at second 0, microsecond 0, so a slot lies
      strictly after now exactly when its (hour, minute) comes after now's. */
  datatype Clock = Clock(weekday: Weekday, hour: Hour, minute: Minute)

  /** An entry of the optimal-times table: (hour, minute, description). */
  datatype Slot = Slot(hour: Hour, minute: Minute, reason: string)

  /** An entry of the avoid table: (start hour, end hour, reason). */
  datatype AvoidWindow = AvoidWindow(start: int, end: int, reason: string)

  /** `OPTIMAL_TIMES`: the research-based engagement slots of each weekday. */
  function OptimalTimes(day: Weekday): seq<Slot>
  {
    if day == 0 then
      [Slot(13, 0, "Monday afternoon - 4-5x higher engagement")]
    else if day == 1 then
      [Slot(10, 0, "Tuesday mid-morning"), Slot(12, 0, "Tuesday lunchtime")]
    else if day == 2 then
      [Slot(10, 0, "Wednesday 10 AM - peak engagement time"),
       Slot(12, 0, "Wednesday noon"),
       Slot(18, 0, "Wednesday evening")]
    else if day == 3 then
      [Slot(10, 0, "Thursday morning"), Slot(17, 0, "Thursday evening")]
    else if day == 4 then
      [Slot(10, 0, "Friday morning"), Slot(17, 0, "Friday evening")]
    else if day == 5 then
      [Slot(11, 0, "Saturday late morning"), Slot(15, 0, "Saturday afternoon")]
    else
      [Slot(11, 0, "Sunday late morning"), Slot(15, 0, "Sunday afternoon")]
  }

  /** `AVOID_TIMES`, checked in this order. */
  const AvoidTimes: seq<AvoidWindow> := [
    AvoidWindow(23, 6, "Late night to early morning - lowest engagement"),
    AvoidWindow(13, 16, "Weekday afternoons - deep work block")
  ]

  const WeekdayNames: seq<string> :=
    ["Monday", "Tuesday", "Wednesday", "Thursday", "Friday", "Saturday", "Sunday"]

  // ---------------------------------------------------------------------------
  // Rating the current hour
  // ---------------------------------------------------------------------------

  datatype Quality = Poor | Okay | Good | Excellent

  datatype Assessment = Assessment(quality: Quality, score: int, reason: string, suggestion: string)

  /** The avoid test exactly as written: `start <= hour < end`, with no
      wrap-around past midnight. */
  predicate InWindow(w: AvoidWindow, hour: int)
  {
    w.start <= hour < w.end
  }

  /** `abs(hour - opt_hour) <= 1`. */
  predicate Near(s: Slot, hour: int)
  {
    -1 <= hour - s.hour <= 1
  }

  /** The index of the first window that contains `hour`; `|ws|` if none does. */
  function FirstAvoid(ws: seq<AvoidWindow>, hour: int): (k: nat)
    ensures k <= |ws|
    ensures forall j :: 0 <= j < k ==> !InWindow(ws[j], hour)
    ensures k < |ws| ==> InWindow(ws[k], hour)
    decreases |ws|
  {
    if ws == [] || InWindow(ws[0], hour) then 0 else 1 + FirstAvoid(ws[1..], hour)
  }

  /** The index of the first slot within one hour of `hour`; `|slots|` if none is. */
  function FirstNear(slots: seq<Slot>, hour: int): (k: nat)
    ensures k <= |slots|
    ensures forall j :: 0 <= j < k ==> !Near(slots[j], hour)
    ensures k < |slots| ==> Near(slots[k], hour)
    decreases |slots|
  {
    if slots == [] || Near(slots[0], hour) then 0 else 1 + FirstNear(slots[1..], hour)
  }

  /** `_assess_current_time`: avoid windows first, then the day's slots, each
      list searched for its first match; otherwise "okay". */
  function Assess(now: Clock): Assessment
  {
    var w := FirstAvoid(AvoidTimes, now.hour);
    if w < |AvoidTimes| then
      Assessment(Poor, 2, AvoidTimes[w].reason, "Consider waiting for a better time")
    else
      var slots := OptimalTimes(now.weekday);
      var k := FirstNear(slots, now.hour);
      if k < |slots| then
        var exact := now.hour == slots[k].hour;
        Assessment(if exact then Excellent else Good, if exact then 9 else 7,
                   slots[k].reason, "Great time to post!")
      else
        Assessment(Okay, 5, "Not peak engagement time, but acceptable",
                   "Posting now is fine, but optimal times may get more engagement")
  }

  /** Only the 13-16 window can ever match: `23 <= hour < 6` holds for no hour,
      so the overnight window is inert. */
  lemma AvoidMatchesOnlyAfternoon(hour: int)
    ensures !InWindow(AvoidTimes[0], hour)
    ensures FirstAvoid(AvoidTimes, hour) < |AvoidTimes| <==> 13 <= hour < 16
  {
    assert AvoidTimes[1..] == [AvoidTimes[1]];
  }

  /** The rating is "poor" (score 2) exactly for the hours 13, 14 and 15, on
      every weekday. */
  lemma PoorExactlyAfternoon(now: Clock)
    ensures Assess(now).quality == Poor <==> 13 <= now.hour < 16
    ensures Assess(now).quality == Poor ==> Assess(now).score == 2
  {
    AvoidMatchesOnlyAfternoon(now.hour);
  }

  /** Avoid windows take precedence: Monday 13:00 is an optimal slot, yet any
      minute of Monday's 13 o'clock hour is rated "poor" with score 2. */
  lemma MondayPeakRatedPoor(minute: Minute)
    ensures Slot(13, 0, "Monday afternoon - 4-5x higher engagement") in OptimalTimes(0)
    ensures Assess(Clock(0, 13, minute)).quality == Poor
    ensures Assess(Clock(0, 13, minute)).score == 2
    ensures Assess(Clock(0, 13, minute)).reason == "Weekday afternoons - deep work block"
  {
    AvoidMatchesOnlyAfternoon(13);
  }

  /** Within a day the slots are in ascending order and at least two hours apart. */
  lemma SlotsSpaced(day: Weekday)
    ensures forall i, j :: 0 <= i < j < |OptimalTimes(day)| ==>
              OptimalTimes(day)[i].hour + 2 <= OptimalTimes(day)[j].hour
  {
  }

  /** Every weekday has at least one slot. */
  lemma EveryDayHasSlots(day: Weekday)
    ensures |OptimalTimes(day)| >= 1
  {
  }

  /** Outside the 13-16 window the rating depends on the day's slots alone:
      "excellent" exactly when the hour is a slot's hour, "good" when a slot is
      one hour off and none is on the hour, "okay" when no slot is within an
      hour. The reason is that of the first slot within an hour. */
  lemma RatingOutsideAvoid(now: Clock)
    requires !(13 <= now.hour < 16)
    ensures var a := Assess(now);
      var slots := OptimalTimes(now.weekday);
      && (a.quality == Excellent <==> exists s :: s in slots && s.hour == now.hour)
      && (a.quality == Good <==>
            (exists s :: s in slots && Near(s, now.hour)) && !(exists s :: s in slots && s.hour == now.hour))
      && (a.quality == Okay <==> forall s :: s in slots ==> !Near(s, now.hour))
      && (a.quality != Okay ==>
            exists j :: 0 <= j < |slots| && Near(slots[j], now.hour) && a.reason == slots[j].reason
              && forall i :: 0 <= i < j ==> !Near(slots[i], now.hour))
  {
    AvoidMatchesOnlyAfternoon(now.hour);
    SlotsSpaced(now.weekday);
    var slots := OptimalTimes(now.weekday);
    var h := now.hour;
    var k := FirstNear(slots, h);
    if k < |slots| {
      if exists s :: s in slots && s.hour == h {
        var s :| s in slots && s.hour == h;
        var j :| 0 <= j < |slots| && slots[j] == s;
        assert j == k;
      }
    } else {
      forall s | s in slots
        ensures !Near(s, h)
      {
        var j :| 0 <= j < |slots| && slots[j] == s;
      }
    }
  }

  /** The score is always one of 2, 5, 7, 9 and tracks the quality. */
  lemma ScoreMatchesQuality(now: Clock)
    ensures Assess(now).score in {2, 5, 7, 9}
    ensures Assess(now).score == match Assess(now).quality
      case Poor => 2
      case Okay => 5
      case Good => 7
      case Excellent => 9
  {
  }

  /** As written, 23:00 and the small hours are rated "okay" (score 5) on every
      weekday, not "poor": the overnight window never matches and no slot lies
      within an hour of them. */
  lemma NightRatedOkay(now: Clock)
    requires now.hour == 23 || now.hour < 6
    ensures Assess(now).quality == Okay && Assess(now).score == 5
  {
    AvoidMatchesOnlyAfternoon(now.hour);
    SlotHours(now.weekday);
    var slots := OptimalTimes(now.weekday);
    assert FirstNear(slots, now.hour) == |slots|;
  }

  /** Every slot lies between 10:00 and 18:00. */
  lemma SlotHours(day: Weekday)
    ensures forall s :: s in OptimalTimes(day) ==> 10 <= s.hour <= 18
  {
    var slots := OptimalTimes(day);
    assert forall i :: 0 <= i < |slots| ==> 10 <= slots[i].hour <= 18;
    forall s | s in slots
      ensures 10 <= s.hour <= 18
    {
      var i :| 0 <= i < |slots| && slots[i] == s;
    }
  }

  // ---------------------------------------------------------------------------
  // Recommendations
  // ---------------------------------------------------------------------------

  datatype Relative = Today | Tomorrow

  datatype Priority = High | Medium

  /** An instant `daysAhead` days after today's date at `hour:minute:00`,
      falling on `weekday`. */
  datatype Target = Target(daysAhead: nat, weekday: Weekday, hour: Hour, minute: Minute)

  /** One entry of "recommendations": when, relative day label, `%I:%M %p`
      text, `%A` day name, reason and priority. */
  datatype Recommendation = Recommendation(
    at: Target, relative: Relative, time: string, day: string, reason: string, priority: Priority)

  /** `"high" if "peak" in desc.lower() else "medium"`. */
  function PriorityOf(reason: string): Priority
  {
    if Contains(Lower(reason), "peak") then High else Medium
  }

  /** The priority is "high" exactly when "peak" occurs somewhere in the
      lowered description. */
  lemma PriorityMeansPeak(reason: string)
    ensures PriorityOf(reason) == High <==> exists k: nat :: OccursAt(Lower(reason), "peak", k)
  {
    if PriorityOf(reason) == High {
      ContainsWitness(Lower(reason), "peak");
    } else if exists k: nat :: OccursAt(Lower(reason), "peak", k) {
      var k: nat :| OccursAt(Lower(reason), "peak", k);
      ContainsAt(Lower(reason), "peak", k);
    }
  }

  function Pad2(n: nat): string
    requires n < 100
  {
    [DigitChar(n / 10), DigitChar(n % 10)]
  }

  /** `strftime("%I:%M %p")`: 12-hour clock, zero-padded, with AM or PM. */
  function ClockText(hour: Hour, minute: Minute): string
  {
    Pad2(if hour % 12 == 0 then 12 else hour % 12) + ":" + Pad2(minute) + " "
      + (if hour < 12 then "AM" else "PM")
  }

  /** Two zero-padded digits that read back as the number. */
  lemma Pad2ReadsBack(n: nat)
    requires n < 100
    ensures |Pad2(n)| == 2 && ParseNat(Pad2(n)) == Some(n)
  {
    var r := Pad2(n);
    assert r[..1][..0] == [];
    assert DigitsValue(r[..1]) == n / 10;
    assert DigitsValue(r) == (n / 10) * 10 + n % 10;
  }

  /** The clock text is "hh:mm AM" or "hh:mm PM": the hour on the 12-hour dial
      (1 to 12), the minute, and the half of the day; together they give back
      the hour and minute. */
  lemma ClockTextReadsBack(hour: Hour, minute: Minute)
    ensures var r := ClockText(hour, minute);
      && |r| == 8 && r[2] == ':' && r[5] == ' '
      && ParseNat(r[3..5]) == Some(minute)
      && ParseNat(r[..2]).Some? && 1 <= ParseNat(r[..2]).value <= 12
      && (r[6..] == "AM" || r[6..] == "PM")
      && (r[6..] == "AM" <==> hour < 12)
      && hour == ParseNat(r[..2]).value % 12 + (if r[6..] == "PM" then 12 else 0)
  {
    var h := if hour % 12 == 0 then 12 else hour % 12;
    var half := if hour < 12 then "AM" else "PM";
    var r := ClockText(hour, minute);
    Pad2ReadsBack(h);
    Pad2ReadsBack(minute);
    assert r == Pad2(h) + ":" + Pad2(minute) + " " + half;
    assert r[..2] == Pad2(h);
    assert r[3..5] == Pad2(minute);
    assert r[6..] == half;
  }

  /** A recommendation describes its slot: the slot's hour and minute on the
      given day, the `%A` name of that day, the `%I:%M %p` text that reads back
      as the slot's time, its description, and "high" priority exactly when
      "peak" occurs in the lowered description. */
  lemma RecommendDescribesSlot(s: Slot, daysAhead: nat, day: Weekday, rel: Relative)
    ensures var r := Recommend(s, daysAhead, day, rel);
      && r.at == Target(daysAhead, day, s.hour, s.minute)
      && r.day == WeekdayNames[r.at.weekday]
      && ParseNat(r.time[3..5]) == Some(s.minute)
      && s.hour == ParseNat(r.time[..2]).value % 12 + (if r.time[6..] == "PM" then 12 else 0)
      && r.reason == s.reason
      && (r.priority == High <==> exists k: nat :: OccursAt(Lower(s.reason), "peak", k))
  {
    ClockTextReadsBack(s.hour, s.minute);
    PriorityMeansPeak(s.reason);
  }

  function Recommend(s: Slot, daysAhead: nat, day: Weekday, rel: Relative): Recommendation
  {
    Recommendation(Target(daysAhead, day, s.hour, s.minute), rel,
                   ClockText(s.hour, s.minute), WeekdayNames[day], s.reason, PriorityOf(s.reason))
  }

  /** One recommendation per slot, in slot order. */
  function RecommendAll(slots: seq<Slot>, daysAhead: nat, day: Weekday, rel: Relative): (r: seq<Recommendation>)
    ensures |r| == |slots|
    ensures forall i :: 0 <= i < |r| ==> r[i] == Recommend(slots[i], daysAhead, day, rel)
    decreases |slots|
  {
    if slots == [] then []
    else RecommendAll(slots[..|slots| - 1], daysAhead, day, rel)
           + [Recommend(slots[|slots| - 1], daysAhead, day, rel)]
  }

  lemma RecommendAllSnoc(slots: seq<Slot>, s: Slot, daysAhead: nat, day: Weekday, rel: Relative)
    ensures RecommendAll(slots + [s], daysAhead, day, rel)
            == RecommendAll(slots, daysAhead, day, rel) + [Recommend(s, daysAhead, day, rel)]
  {
    assert (slots + [s])[..|slots|] == slots;
  }

  /** `optimal_time > now` for a slot of today. */
  predicate Later(s: Slot, now: Clock)
  {
    s.hour > now.hour || (s.hour == now.hour && s.minute > now.minute)
  }

  function LaterThan(now: Clock): Slot -> bool
  {
    s => Later(s, now)
  }

  /** `(today + 1) % 7`. */
  function NextDay(day: Weekday): Weekday
  {
    (day + 1) % 7
  }

  /** The list `get_optimal_times` builds before truncating it: today's slots
      that lie after now, then every slot of the next weekday. */
  function Upcoming(now: Clock): seq<Recommendation>
  {
    RecommendAll(Filter(OptimalTimes(now.weekday), LaterThan(now)), 0, now.weekday, Today)
      + RecommendAll(OptimalTimes(NextDay(now.weekday)), 1, NextDay(now.weekday), Tomorrow)
  }

  /** The list is never empty: the next weekday always contributes its slots. */
  lemma UpcomingNonEmpty(now: Clock)
    ensures |Upcoming(now)| >= |OptimalTimes(NextDay(now.weekday))| >= 1
  {
    EveryDayHasSlots(NextDay(now.weekday));
  }

  /** Today's recommendations are exactly today's slots strictly after now,
      all of them come before tomorrow's, and tomorrow's are every slot of
      weekday `(today + 1) % 7`, in table order. */
  lemma UpcomingContents(now: Clock)
    ensures var u := Upcoming(now);
      var today := OptimalTimes(now.weekday);
      && (forall s :: s in today ==> (Later(s, now) <==> Recommend(s, 0, now.weekday, Today) in u))
      && (forall r :: r in u && r.relative == Today ==> r.at.daysAhead == 0 && r.at.weekday == now.weekday)
      && (forall i, j :: 0 <= i < j < |u| && u[j].relative == Today ==> u[i].relative == Today)
      && (exists k :: 0 <= k <= |u| &&
            u[k..] == RecommendAll(OptimalTimes(NextDay(now.weekday)), 1, NextDay(now.weekday), Tomorrow))
  {
    var today := OptimalTimes(now.weekday);
    var kept := Filter(today, LaterThan(now));
    var first := RecommendAll(kept, 0, now.weekday, Today);
    var second := RecommendAll(OptimalTimes(NextDay(now.weekday)), 1, NextDay(now.weekday), Tomorrow);
    var u := Upcoming(now);
    assert u == first + second;
    forall s | s in today
      ensures Later(s, now) <==> Recommend(s, 0, now.weekday, Today) in u
    {
      FilterMembership(today, LaterThan(now), s);
      if Later(s, now) {
        var j :| 0 <= j < |kept| && kept[j] == s;
        assert first[j] == Recommend(s, 0, now.weekday, Today);
      }
      if Recommend(s, 0, now.weekday, Today) in u {
        var j :| 0 <= j < |u| && u[j] == Recommend(s, 0, now.weekday, Today);
        assert j < |first|;
        assert kept[j] == s;
      }
    }
    assert u[|first|..] == second;
  }

  /** The only slot given priority "high" is Wednesday 10:00, the one whose
      description mentions "peak". */
  lemma OnlyWednesdayMorningIsHigh(day: Weekday, s: Slot)
    requires s in OptimalTimes(day)
    ensures PriorityOf(s.reason) == High <==> day == 2 && s.hour == 10
  {
    if day == 2 && s.hour == 10 {
      assert s.reason == "Wednesday 10 AM - peak engagement time";
      WednesdayMorningSaysPeak();
    } else {
      OtherReasonsHaveNoP(day, s);
      LowerHasNoP(s.reason);
      NoP(Lower(s.reason));
    }
  }

  lemma WednesdayMorningSaysPeak()
    ensures Contains(Lower("Wednesday 10 AM - peak engagement time"), "peak")
  {
    var r := "Wednesday 10 AM - peak engagement time";
    var lowered := Lower(r);
    assert r[18..22] == "peak";
    forall i | 18 <= i < 22
      ensures lowered[i] == r[i]
    {
      assert LowerChar(r[i]) == r[i];
    }
    assert lowered[18..22] == "peak";
    ContainsAt(lowered, "peak", 18);
  }

  /** Neither 'p' nor 'P' occurs in `s`. */
  predicate NoLetterP(s: string)
  {
    forall i :: 0 <= i < |s| ==> s[i] != 'p' && s[i] != 'P'
  }

  /** No description other than Wednesday 10:00's has the letter p, in either case. */
  lemma OtherReasonsHaveNoP(day: Weekday, s: Slot)
    requires s in OptimalTimes(day)
    requires !(day == 2 && s.hour == 10)
    ensures NoLetterP(s.reason)
  {
    var slots := OptimalTimes(day);
    var i :| 0 <= i < |slots| && slots[i] == s;
    if day == 0 {
      MondayReasonsHaveNoP();
    } else if day == 1 {
      TuesdayReasonsHaveNoP();
    } else if day == 2 {
      WednesdayReasonsHaveNoP();
    } else if day == 3 {
      ThursdayReasonsHaveNoP();
    } else if day == 4 {
      FridayReasonsHaveNoP();
    } else if day == 5 {
      SaturdayReasonsHaveNoP();
    } else {
      SundayReasonsHaveNoP();
    }
  }

  lemma MondayReasonsHaveNoP()
    ensures NoLetterP(OptimalTimes(0)[0].reason)
  {
  }

  lemma TuesdayReasonsHaveNoP()
    ensures NoLetterP(OptimalTimes(1)[0].reason)
    ensures NoLetterP(OptimalTimes(1)[1].reason)
  {
  }

  lemma WednesdayReasonsHaveNoP()
    ensures NoLetterP(OptimalTimes(2)[1].reason)
    ensures NoLetterP(OptimalTimes(2)[2].reason)
  {
  }

  lemma ThursdayReasonsHaveNoP()
    ensures NoLetterP(OptimalTimes(3)[0].reason)
    ensures NoLetterP(OptimalTimes(3)[1].reason)
  {
  }

  lemma FridayReasonsHaveNoP()
    ensures NoLetterP(OptimalTimes(4)[0].reason)
    ensures NoLetterP(OptimalTimes(4)[1].reason)
  {
  }

  lemma SaturdayReasonsHaveNoP()
    ensures NoLetterP(OptimalTimes(5)[0].reason)
    ensures NoLetterP(OptimalTimes(5)[1].reason)
  {
  }

  lemma SundayReasonsHaveNoP()
    ensures NoLetterP(OptimalTimes(6)[0].reason)
    ensures NoLetterP(OptimalTimes(6)[1].reason)
  {
  }

  lemma LowerHasNoP(s: string)
    requires NoLetterP(s)
    ensures forall i :: 0 <= i < |Lower(s)| ==> Lower(s)[i] != 'p'
  {
  }

  /** A string without the letter 'p' contains no "peak". */
  lemma {:induction false} NoP(s: string)
    requires forall i :: 0 <= i < |s| ==> s[i] != 'p'
    ensures !Contains(s, "peak")
    decreases |s|
  {
    if s != [] {
      assert s[0] != 'p';
      NoP(s[1..]);
    }
  }

  /** Wednesday 10:00 of the date `e` days from today has not passed yet, by the
      hour test the code uses. */
  predicate WednesdayTenAhead(now: Clock, e: nat)
  {
    (now.weekday + e) % 7 == 2 && (e > 0 || now.hour < 10)
  }

  /** `days_until_wednesday`: the number of days to the next Wednesday-10:00
      slot, 0..7. It is 7 exactly when today is Wednesday and the hour is 10 or
      later, and it is the smallest offset landing on a Wednesday that is not
      today-after-10. */
  function DaysUntilWednesday(now: Clock): (d: nat)
    ensures d <= 7
    ensures (now.weekday + d) % 7 == 2
    ensures d == 7 <==> now.weekday == 2 && now.hour >= 10
    ensures WednesdayTenAhead(now, d)
    ensures forall e :: 0 <= e < d ==> !WednesdayTenAhead(now, e)
  {
    var d := (2 - now.weekday) % 7;
    if d == 0 && now.hour >= 10 then 7 else d
  }

  datatype BestTime = BestTime(at: Target, description: string)

  /** One entry of "times_to_avoid": `"{start}:00 - {end}:00"` and the reason. */
  datatype AvoidNote = AvoidNote(hours: string, reason: string)

  function AvoidNotes(): seq<AvoidNote>
  {
    seq(|AvoidTimes|, i requires 0 <= i < |AvoidTimes| =>
      AvoidNote(ShowInt(AvoidTimes[i].start) + ":00 - " + ShowInt(AvoidTimes[i].end) + ":00",
                AvoidTimes[i].reason))
  }

  /** The "times_to_avoid" list as returned: the late-night window is shown as
      "23:00 - 6:00" even though the hour test never matches it. */
  lemma AvoidNotesText()
    ensures AvoidNotes() == [
      AvoidNote("23:00 - 6:00", "Late night to early morning - lowest engagement"),
      AvoidNote("13:00 - 16:00", "Weekday afternoons - deep work block")]
  {
    ShowTwoDigits(23);
    ShowTwoDigits(13);
    ShowTwoDigits(16);
    assert ShowInt(6) == "6";
    assert ShowInt(23) + ":00 - " + ShowInt(6) + ":00" == "23:00 - 6:00";
    assert ShowInt(13) + ":00 - " + ShowInt(16) + ":00" == "13:00 - 16:00";
  }

  lemma ShowTwoDigits(n: nat)
    requires 10 <= n < 100
    ensures ShowInt(n) == [DigitChar(n / 10), DigitChar(n % 10)]
  {
    assert ShowNat(n / 10) == [DigitChar(n / 10)];
  }

  /** What `get_optimal_times` returns, apart from the current time and the
      time-zone name. */
  datatype Advice = Advice(
    current: Assessment, recommendations: seq<Recommendation>, bestThisWeek: BestTime,
    avoid: seq<AvoidNote>)

  /** `get_optimal_times`: builds the recommendation list with two loops and
      keeps the first five entries. */
  method GetOptimalTimes(now: Clock) returns (advice: Advice)
    ensures advice.recommendations == Upcoming(now)[..Min(5, |Upcoming(now)|)]
    ensures 1 <= |advice.recommendations| <= 5
    ensures advice.current == Assess(now)
    ensures advice.bestThisWeek.at == Target(DaysUntilWednesday(now), 2, 10, 0)
    ensures advice.avoid == AvoidNotes()
  {
    var recommendations := RemainingToday(OptimalTimes(now.weekday), now);
    var tomorrow := NextDay(now.weekday);
    recommendations := AddWholeDay(recommendations, OptimalTimes(tomorrow), tomorrow);

    var best := BestTime(Target(DaysUntilWednesday(now), 2, 10, 0),
                         "Wednesday 10 AM - statistically the best time for engagement");

    assert recommendations == Upcoming(now);
    UpcomingNonEmpty(now);
    var kept := recommendations[..Min(5, |recommendations|)];
    advice := Advice(Assess(now), kept, best, AvoidNotes());
  }

  /** The first loop of `get_optimal_times`: one "today" entry for each of
      today's slots that lies after now. */
  method RemainingToday(today: seq<Slot>, now: Clock) returns (result: seq<Recommendation>)
    ensures result == RecommendAll(Filter(today, LaterThan(now)), 0, now.weekday, Today)
  {
    result := [];
    for i := 0 to |today|
      invariant result == RecommendAll(Filter(today[..i], LaterThan(now)), 0, now.weekday, Today)
    {
      TodayStep(today, i, now);
      if Later(today[i], now) {
        result := result + [Recommend(today[i], 0, now.weekday, Today)];
      }
    }
    assert today[..|today|] == today;
  }

  /** Extending the examined prefix of today's slots by one slot adds one
      recommendation exactly when that slot lies after now. */
  lemma TodayStep(today: seq<Slot>, i: nat, now: Clock)
    requires i < |today|
    ensures RecommendAll(Filter(today[..i + 1], LaterThan(now)), 0, now.weekday, Today)
            == RecommendAll(Filter(today[..i], LaterThan(now)), 0, now.weekday, Today)
               + (if Later(today[i], now) then [Recommend(today[i], 0, now.weekday, Today)] else [])
  {
    assert today[..i + 1] == today[..i] + [today[i]];
    FilterSnoc(today[..i], today[i], LaterThan(now));
    if Later(today[i], now) {
      RecommendAllSnoc(Filter(today[..i], LaterThan(now)), today[i], 0, now.weekday, Today);
    }
  }

  /** The second loop of `get_optimal_times`: appends a "tomorrow" entry for
      every slot of the next weekday. */
  method AddWholeDay(recommendations: seq<Recommendation>, slots: seq<Slot>, day: Weekday)
    returns (result: seq<Recommendation>)
    ensures result == recommendations + RecommendAll(slots, 1, day, Tomorrow)
  {
    result := recommendations;
    for i := 0 to |slots|
      invariant result == recommendations + RecommendAll(slots[..i], 1, day, Tomorrow)
    {
      assert slots[..i + 1] == slots[..i] + [slots[i]];
      RecommendAllSnoc(slots[..i], slots[i], 1, day, Tomorrow);
      result := result + [Recommend(slots[i], 1, day, Tomorrow)];
    }
    assert slots[..|slots|] == slots;
  }

  datatype ContentSuggestion = ContentSuggestion(preferredTimes: seq<string>, reason: string)

  /** The content-type table of `suggest_posting_time`. */
  const ContentSuggestions: map<string, ContentSuggestion> := map[
    "announcement" := ContentSuggestion(["morning", "wednesday"],
      "Announcements perform best mid-week mornings when attention is highest"),
    "technical" := ContentSuggestion(["morning"],
      "Technical content does well in morning hours when devs are fresh"),
    "casual" := ContentSuggestion(["lunch", "evening"],
      "Casual content performs well during breaks and wind-down time"),
    "engagement" := ContentSuggestion(["evening", "weekend"],
      "Questions and discussions get more replies in evenings/weekends")
  ]

  /** The table entry for a content type, falling back to "casual". */
  function SuggestionFor(contentType: string): (s: ContentSuggestion)
    ensures contentType !in ContentSuggestions.Keys ==> s == ContentSuggestions["casual"]
    ensures contentType in ContentSuggestions.Keys ==> s == ContentSuggestions[contentType]
  {
    if contentType in ContentSuggestions then ContentSuggestions[contentType]
    else ContentSuggestions["casual"]
  }

  datatype PostingSuggestion = PostingSuggestion(
    contentType: string, suggestion: ContentSuggestion, optimal: Advice)

  /** `suggest_posting_time`: the content-type suggestion plus the advice for now. */
  method SuggestPostingTime(contentType: string, now: Clock) returns (r: PostingSuggestion)
    ensures r.contentType == contentType
    ensures r.suggestion == SuggestionFor(contentType)
    ensures r.suggestion.preferredTimes != []
    ensures r.optimal.recommendations == Upcoming(now)[..Min(5, |Upcoming(now)|)]
    ensures r.optimal.current == Assess(now)
    ensures r.optimal.bestThisWeek.at == Target(DaysUntilWednesday(now), 2, 10, 0)
    ensures r.optimal.avoid == AvoidNotes()
  {
    var optimal := GetOptimalTimes(now);
    r := PostingSuggestion(contentType, SuggestionFor(contentType), optimal);
  }
}
