/**
 When an agent's usage limit resets: the message names a time of day, the reader looks for the day.
 Local times are seconds on the wall clock, all other times seconds in UTC.
 */
module UsageLimitResets {

  const DAY := 86400

  /** The UTC offset of a wall-clock time; `true` asks for its second occurrence where the clock is set back. */
  type Zone = (int, bool) -> int

  /** Offsets are smaller than a day, as in the time zone database. */
  ghost predicate IsZone(zone: Zone)
  {
    forall wall, fold :: -DAY < zone(wall, fold) < DAY
  }

  function Occurrence(zone: Zone, wall: int, fold: bool): int
  {
    wall - zone(wall, fold)
  }

  /** The time after which a search from this day must succeed. */
  ghost function Left(wall: int, ended: int): nat
  {
    if wall <= ended + DAY then ended + DAY - wall + 1 else 0
  }

  /**
   The reset time of a message: the earlier of the occurrences of this wall-clock time that lie ahead,
   or else, unless the message names its date, that of the next day.
   */
  function GetNextResetTime(zone: Zone, wall: int, isDated: bool, ended: int): int
    requires IsZone(zone)
    decreases Left(wall, ended)
  {
    var first, second := Occurrence(zone, wall, false), Occurrence(zone, wall, true);
    if first > ended && second > ended then (if second < first then second else first)
    else if first > ended then first
    else if second > ended then second
    else if isDated then first
    else GetNextResetTime(zone, wall + DAY, isDated, ended)
  }

  /** The wall-clock time with this time of day on the day the session ended; `offset` was in force then. */
  function ResetOnEndDay(ended: int, offset: int, timeOfDay: int): int
  {
    (ended + offset) / DAY * DAY + timeOfDay
  }

  /** The same wall-clock time some days later, or earlier. */
  function OnDay(wall: int, days: int): int
  {
    wall + days * DAY
  }

  ghost predicate IsAhead(zone: Zone, wall: int, ended: int)
  {
    Occurrence(zone, wall, false) > ended || Occurrence(zone, wall, true) > ended
  }

  /** The earliest occurrence of a wall-clock time that lies ahead. */
  ghost predicate IsNearestOf(zone: Zone, wall: int, ended: int, reset: int)
  {
    var first, second := Occurrence(zone, wall, false), Occurrence(zone, wall, true);
    && reset > ended && (reset == first || reset == second)
    && (first > ended ==> reset <= first) && (second > ended ==> reset <= second)
  }

  /** The search ends, with the nearest occurrence on the first day that has one ahead. */
  lemma {:induction false} ResetIsFirstAhead(zone: Zone, wall: int, ended: int) returns (days: nat)
    requires IsZone(zone)
    ensures forall k: nat :: k < days ==> !IsAhead(zone, OnDay(wall, k), ended)
    ensures IsNearestOf(zone, OnDay(wall, days), ended, GetNextResetTime(zone, wall, false, ended))
    decreases Left(wall, ended)
  {
    assert OnDay(wall, 0) == wall;
    if IsAhead(zone, wall, ended) {
      days := 0;
    } else {
      var rest := ResetIsFirstAhead(zone, wall + DAY, ended);
      days := rest + 1;
      assert OnDay(wall + DAY, rest) == OnDay(wall, days);
      forall k: nat | k < days ensures !IsAhead(zone, OnDay(wall, k), ended) {
        if k > 0 {
          assert OnDay(wall + DAY, k - 1) == OnDay(wall, k);
          assert !IsAhead(zone, OnDay(wall + DAY, k - 1), ended);
        }
      }
    }
  }

  /** A day later, at any fold, this wall-clock time comes no earlier. */
  ghost predicate Advances(zone: Zone, wall: int)
  {
    forall fold, fold' :: Occurrence(zone, wall, fold) <= Occurrence(zone, OnDay(wall, 1), fold')
  }

  ghost predicate DaysAdvance(zone: Zone, wall: int)
  {
    forall k: nat :: Advances(zone, OnDay(wall, k))
  }

  lemma {:induction false} LaterDaysAreLater(zone: Zone, wall: int, i: nat, j: nat, fold: bool, fold': bool)
    requires DaysAdvance(zone, wall) && i < j
    ensures Occurrence(zone, OnDay(wall, i), fold) <= Occurrence(zone, OnDay(wall, j), fold')
    decreases j
  {
    assert OnDay(OnDay(wall, j - 1), 1) == OnDay(wall, j);
    assert Advances(zone, OnDay(wall, j - 1));
    if i < j - 1 {
      LaterDaysAreLater(zone, wall, i, j - 1, fold, fold');
    }
  }

  /** Where the days advance, no occurrence on any day from the first on lies between the end and the reset. */
  lemma ResetIsEarliest(zone: Zone, wall: int, ended: int, k: nat, fold: bool)
    requires IsZone(zone) && DaysAdvance(zone, wall)
    requires Occurrence(zone, OnDay(wall, k), fold) > ended
    ensures GetNextResetTime(zone, wall, false, ended) <= Occurrence(zone, OnDay(wall, k), fold)
  {
    var days := ResetIsFirstAhead(zone, wall, ended);
    assert IsAhead(zone, OnDay(wall, k), ended);
    if days < k {
      LaterDaysAreLater(zone, wall, days, k, false, fold);
      LaterDaysAreLater(zone, wall, days, k, true, fold);
    }
  }

  lemma EndDayBounds(ended: int, offset: int, timeOfDay: int)
    requires 0 <= timeOfDay < DAY
    ensures ResetOnEndDay(ended, offset, timeOfDay) < ended + offset + DAY
    ensures (ResetOnEndDay(ended, offset, timeOfDay) - timeOfDay) % DAY == 0
  {
  }

  /** The zone's offsets, and the one in force at the end, lie this close together. */
  ghost predicate IsWithin(zone: Zone, offset: int, spread: nat)
  {
    && (forall w, v, fold, fold' :: zone(w, fold) - zone(v, fold') <= spread)
    && (forall w, fold :: offset - zone(w, fold) <= spread)
  }

  /** The reset is the earliest of all the times the clock shows this time of day after the end, on any day. */
  ghost predicate IsEarliest(zone: Zone, wall: int, ended: int, reset: int)
  {
    forall d: int, fold :: Occurrence(zone, OnDay(wall, d), fold) > ended ==>
                             reset <= Occurrence(zone, OnDay(wall, d), fold)
  }

  /** On this earlier day the clock shows the time of day after the end, and before the end day itself does. */
  ghost predicate IsMissed(zone: Zone, wall: int, ended: int, day: int)
  {
    exists fold :: && ended < Occurrence(zone, OnDay(wall, day), fold)
                   && forall fold' :: Occurrence(zone, OnDay(wall, day), fold) < Occurrence(zone, wall, fold')
  }

  lemma NoneIsEarlier(zone: Zone, ended: int, offset: int, timeOfDay: int, d: int, fold: bool)
    requires IsZone(zone) && -DAY < offset < DAY && 0 <= timeOfDay < DAY
    requires var wall := ResetOnEndDay(ended, offset, timeOfDay);
             && DaysAdvance(zone, OnDay(wall, -2))
             && !IsMissed(zone, wall, ended, -1) && !IsMissed(zone, wall, ended, -2)
             && Occurrence(zone, OnDay(wall, d), fold) > ended
    ensures var wall := ResetOnEndDay(ended, offset, timeOfDay);
            GetNextResetTime(zone, wall, false, ended) <= Occurrence(zone, OnDay(wall, d), fold)
  {
    var wall := ResetOnEndDay(ended, offset, timeOfDay);
    EndDayBounds(ended, offset, timeOfDay);
    LaterDaysAdvance(zone, OnDay(wall, -2), 2);
    assert OnDay(wall, 0) == wall == OnDay(OnDay(wall, -2), 2);
    assert -DAY < zone(OnDay(wall, d), fold) < DAY;
    if d >= 0 {
      ResetIsEarliest(zone, wall, ended, d, fold);
    } else {
      assert d in {-1, -2} && !IsMissed(zone, wall, ended, d);
      var fold' :| Occurrence(zone, wall, fold') <= Occurrence(zone, OnDay(wall, d), fold);
      assert OnDay(OnDay(wall, -2), 2 + d) == OnDay(wall, d);
      LaterDaysAreLater(zone, OnDay(wall, -2), 2 + d, 2, fold, fold');
      ResetIsEarliest(zone, wall, ended, 0, fold');
    }
  }

  lemma LaterDaysAdvance(zone: Zone, wall: int, days: nat)
    requires DaysAdvance(zone, wall)
    ensures DaysAdvance(zone, OnDay(wall, days))
  {
    forall k: nat ensures Advances(zone, OnDay(OnDay(wall, days), k)) {
      assert OnDay(OnDay(wall, days), k) == OnDay(wall, days + k);
    }
  }

  /**
   In a zone where from two days before the end day on each day comes no earlier than the day before it, the
   reader answers with the earliest occurrence after the end unless the clock, set back over midnight, shows
   the time of day again on one of those two days.
   */
  lemma ResetIsEarliestIff(zone: Zone, ended: int, offset: int, timeOfDay: int)
    requires IsZone(zone) && -DAY < offset < DAY && 0 <= timeOfDay < DAY
    requires DaysAdvance(zone, OnDay(ResetOnEndDay(ended, offset, timeOfDay), -2))
    ensures var wall := ResetOnEndDay(ended, offset, timeOfDay);
            IsEarliest(zone, wall, ended, GetNextResetTime(zone, wall, false, ended))
            <==> !IsMissed(zone, wall, ended, -1) && !IsMissed(zone, wall, ended, -2)
  {
    var wall := ResetOnEndDay(ended, offset, timeOfDay);
    var reset := GetNextResetTime(zone, wall, false, ended);
    if IsMissed(zone, wall, ended, -1) {
      MissedIsEarlier(zone, wall, ended, -1);
    } else if IsMissed(zone, wall, ended, -2) {
      MissedIsEarlier(zone, wall, ended, -2);
    } else {
      forall d: int, fold | Occurrence(zone, OnDay(wall, d), fold) > ended
        ensures reset <= Occurrence(zone, OnDay(wall, d), fold)
      {
        NoneIsEarlier(zone, ended, offset, timeOfDay, d, fold);
      }
    }
  }

  lemma MissedIsEarlier(zone: Zone, wall: int, ended: int, day: int)
    requires IsZone(zone) && IsMissed(zone, wall, ended, day)
    ensures !IsEarliest(zone, wall, ended, GetNextResetTime(zone, wall, false, ended))
  {
    var reset := GetNextResetTime(zone, wall, false, ended);
    var fold :| ended < Occurrence(zone, OnDay(wall, day), fold)
                && forall fold' :: Occurrence(zone, OnDay(wall, day), fold) < Occurrence(zone, wall, fold');
    assert reset > Occurrence(zone, OnDay(wall, day), fold);
  }

  /**
   Only the day before can be missed where the offset two days before is at most a day behind the one at
   the end; and where no two of these days' offsets lie a whole day apart, any occurrence ahead on it is.
   */
  lemma OnlyDayBeforeIsMissed(zone: Zone, ended: int, offset: int, timeOfDay: int)
    requires 0 <= timeOfDay < DAY
    ensures var wall := ResetOnEndDay(ended, offset, timeOfDay);
            && ((forall fold :: offset - zone(OnDay(wall, -2), fold) <= DAY) ==> !IsMissed(zone, wall, ended, -2))
            && ((forall fold, fold' :: zone(wall, fold') - zone(OnDay(wall, -1), fold) < DAY) ==>
                  (IsMissed(zone, wall, ended, -1) <==> IsAhead(zone, OnDay(wall, -1), ended)))
  {
    var wall := ResetOnEndDay(ended, offset, timeOfDay);
    EndDayBounds(ended, offset, timeOfDay);
    if forall fold, fold' :: zone(wall, fold') - zone(OnDay(wall, -1), fold) < DAY {
      forall fold, fold' ensures Occurrence(zone, OnDay(wall, -1), fold) < Occurrence(zone, wall, fold') {
        assert zone(wall, fold') - zone(OnDay(wall, -1), fold) < DAY;
      }
    }
  }

  /** A zone that goes from two and a half hours behind to three and a half at 24:01, back to 23:01. */
  function SetBackOverMidnight(midnight: int): Zone
  {
    (wall, fold) =>
      if wall < midnight - 3540 || (wall < midnight + 60 && !fold) then -9000 else -12600
  }

  /** A session that ends in such a zone half a minute into the day is told "11:45 PM" and waits a day too long. */
  lemma SetBackMissesDayBefore(midnight: int)
    requires midnight % DAY == 0
    ensures var zone, ended := SetBackOverMidnight(midnight), midnight + 30 + 9000;
            var wall := ResetOnEndDay(ended, -9000, 85500);
            && IsZone(zone) && IsWithin(zone, -9000, 3600) && Occurrence(zone, midnight + 30, false) == ended
            && IsMissed(zone, wall, ended, -1)
            && GetNextResetTime(zone, wall, false, ended) == Occurrence(zone, OnDay(wall, -1), true) + DAY
  {
    var zone, ended := SetBackOverMidnight(midnight), midnight + 30 + 9000;
    var wall := ResetOnEndDay(ended, -9000, 85500);
    assert wall == midnight + 85500;
    assert ended < Occurrence(zone, OnDay(wall, -1), true);
  }

  /**
   Where a day comes earlier than the day before it, the reader can miss a nearer occurrence on a later day:
   the first day with one ahead need not have the nearest.
   */
  lemma SkippedDayMissesNearest(wall: int)
    ensures var zone: Zone := (w, fold) => if w >= wall + DAY then DAY - 1 else 1 - DAY;
            && IsZone(zone) && !Advances(zone, wall)
            && GetNextResetTime(zone, wall, false, wall) > Occurrence(zone, OnDay(wall, 1), false) > wall
  {
    var zone: Zone := (w, fold) => if w >= wall + DAY then DAY - 1 else 1 - DAY;
    assert Occurrence(zone, wall, false) > Occurrence(zone, OnDay(wall, 1), false);
  }

  /** How late the reset can be: a day after the end, and what the offset can change. */
  lemma ResetIsNear(zone: Zone, ended: int, offset: int, timeOfDay: int, spread: nat)
    requires IsZone(zone) && 0 <= timeOfDay < DAY && IsWithin(zone, offset, spread)
    ensures var reset := GetNextResetTime(zone, ResetOnEndDay(ended, offset, timeOfDay), false, ended);
            ended < reset <= ended + DAY + spread
  {
    var wall := ResetOnEndDay(ended, offset, timeOfDay);
    EndDayBounds(ended, offset, timeOfDay);
    var days := ResetIsFirstAhead(zone, wall, ended);
    var day := OnDay(wall, days);
    if days == 0 {
      assert day == wall;
      assert offset - zone(wall, false) <= spread && offset - zone(wall, true) <= spread;
    } else {
      var previous := OnDay(wall, days - 1);
      assert !IsAhead(zone, previous, ended) && previous + DAY == day;
      assert zone(previous, false) - zone(day, false) <= spread;
      assert zone(previous, false) - zone(day, true) <= spread;
    }
  }

  /** In a zone with one offset the reset is the next time the clock shows that time of day. */
  lemma ResetInFixedZone(offset: int, ended: int, timeOfDay: int)
    requires -DAY < offset < DAY && 0 <= timeOfDay < DAY
    ensures var zone: Zone := (w, fold) => offset;
            var reset := GetNextResetTime(zone, ResetOnEndDay(ended, offset, timeOfDay), false, ended);
            ended < reset <= ended + DAY && (reset + offset - timeOfDay) % DAY == 0
  {
    var zone: Zone := (w, fold) => offset;
    var wall := ResetOnEndDay(ended, offset, timeOfDay);
    EndDayBounds(ended, offset, timeOfDay);
    ResetIsNear(zone, ended, offset, timeOfDay, 0);
    var days := ResetIsFirstAhead(zone, wall, ended);
    assert GetNextResetTime(zone, wall, false, ended) + offset == OnDay(wall, days);
    SameTimeOfDay(wall - timeOfDay, days);
  }

  lemma SameTimeOfDay(midnight: int, days: nat)
    requires midnight % DAY == 0
    ensures OnDay(midnight, days) % DAY == 0
  {
  }

  /** A message that names its date is taken at its word, also when that time has passed. */
  lemma DatedResetIsTheirs(zone: Zone, wall: int, ended: int)
    requires IsZone(zone)
    ensures IsAhead(zone, wall, ended) ==>
              IsNearestOf(zone, wall, ended, GetNextResetTime(zone, wall, true, ended))
    ensures !IsAhead(zone, wall, ended) ==>
              GetNextResetTime(zone, wall, true, ended) == Occurrence(zone, wall, false)
  {
  }
}
