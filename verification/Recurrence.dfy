/**
 Recurrence rules and the occurrence after a given one. A local time is an integer count of
 microseconds since 1 January of year 1.
 */
module Recurrence {
  import opened Wrappers
  import opened Calendar

  datatype Kind = Once | Daily | Weekly | Monthly

  datatype RecurrenceRule = RecurrenceRule(
    kind: Kind,
    interval: int,
    weekdays: set<int>,
    monthday: Option<int>,
    count: Option<int>,
    until: Option<int>)

  /** The rules the constructor accepts. */
  predicate ValidRule(rule: RecurrenceRule) {
    && 1 <= rule.interval <= 365
    && (forall d | d in rule.weekdays :: 0 <= d <= 6)
    && (rule.monthday.Some? ==> 1 <= rule.monthday.value <= 31)
    && (rule.count.Some? ==> 1 <= rule.count.value <= 10000)
    && (rule.kind == Once ==>
          rule.interval == 1 && rule.weekdays == {} && rule.monthday == None && rule.count == None
            && rule.until == None)
    && (rule.kind == Daily ==> rule.weekdays == {} && rule.monthday == None)
    && (rule.kind == Weekly ==> rule.monthday == None)
    && (rule.kind == Monthly ==> rule.weekdays == {})
  }

  type Rule = r: RecurrenceRule | ValidRule(r) witness RecurrenceRule(Once, 1, {}, None, None, None)

  predicate IsLocal(local: int) {
    0 <= local < END_DAY * DAY
  }

  type Local = l: int | IsLocal(l) witness 0

  // Arithmetic of multiples

  lemma {:induction false} MultiplesAreOrdered(j: int, k: int, p: int)
    requires 0 < p && j < k
    ensures j * p + p <= k * p
    decreases k - j
  {
    assert k * p == (k - 1) * p + p;
    if j < k - 1 {
      MultiplesAreOrdered(j, k - 1, p);
    }
  }

  lemma QuotientIsUnique(x: int, p: int, q: int)
    requires 0 < p && q * p <= x < q * p + p
    ensures x / p == q && x % p == x - q * p
  {
    var d := x / p;
    assert d * p <= x < d * p + p;
    if d < q {
      MultiplesAreOrdered(d, q, p);
    } else if q < d {
      MultiplesAreOrdered(q, d, p);
    }
  }

  lemma Distribute(a: int, b: int, p: int)
    ensures (a + b) * p == a * p + b * p
  {
  }

  // Weekly rules

  /** Days on a weekly rule's grid: a selected weekday in every interval-th week from the anchor's week. */
  predicate OnWeeklyGrid(interval: int, weekdays: set<int>, anchorDay: int, day: int)
    requires 0 < interval
  {
    var anchorWeek := anchorDay - anchorDay % 7;
    (day - anchorWeek) / 7 % interval == 0 && anchorWeek <= day && day % 7 in weekdays
  }

  function SelectedWeekdays(rule: RecurrenceRule, anchorDay: int): (days: set<int>)
    requires ValidRule(rule)
    ensures days != {} && forall d | d in days :: 0 <= d <= 6
  {
    if rule.weekdays != {} then rule.weekdays else {anchorDay % 7}
  }

  ghost predicate IsNextWeekly(interval: int, weekdays: set<int>, anchorDay: int, afterDay: int, day: int)
    requires 0 < interval
  {
    && afterDay < day && OnWeeklyGrid(interval, weekdays, anchorDay, day)
    && forall d | afterDay < d < day :: !OnWeeklyGrid(interval, weekdays, anchorDay, d)
  }

  lemma WholeWeeksStayOnGrid(interval: int, weekdays: set<int>, weekday: int, anchorDay: int, weeks: int, day: int)
    requires 0 < interval && weekday in weekdays && 0 <= weekday <= 6
    requires day == anchorDay - anchorDay % 7 + weekday + 7 * (weeks * interval) && anchorDay - anchorDay % 7 <= day
    ensures OnWeeklyGrid(interval, weekdays, anchorDay, day)
  {
    var k := weeks * interval;
    QuotientIsUnique(k, interval, weeks);
    assert (day - (anchorDay - anchorDay % 7)) / 7 == k;
  }

  /** Every stretch of 7 * interval days holds a day of the grid, so the search cap is never reached. */
  lemma WeeklyGridIsDense(interval: int, weekdays: set<int>, weekday: int, anchorDay: int,
    afterDay: int) returns (day: int)
    requires 0 < interval && weekday in weekdays && 0 <= weekday <= 6 && anchorDay <= afterDay
    ensures afterDay < day <= afterDay + 7 * interval
    ensures OnWeeklyGrid(interval, weekdays, anchorDay, day)
  {
    hide OnWeeklyGrid;
    var anchorWeek := anchorDay - anchorDay % 7;
    var p, x := 7 * interval, afterDay - anchorWeek - weekday;
    var weeks := x / p + 1;
    Distribute(x / p, 1, p);
    assert weeks * p == 7 * (weeks * interval);
    day := anchorWeek + weekday + 7 * (weeks * interval);
    WholeWeeksStayOnGrid(interval, weekdays, weekday, anchorDay, weeks, day);
  }

  lemma {:induction false} LeastOnWeeklyGrid(interval: int, weekdays: set<int>, anchorDay: int, afterDay: int,
    bound: int)
    requires 0 < interval && afterDay < bound && OnWeeklyGrid(interval, weekdays, anchorDay, bound)
    ensures exists day :: day <= bound && IsNextWeekly(interval, weekdays, anchorDay, afterDay, day)
    decreases bound - afterDay
  {
    if day :| afterDay < day < bound && OnWeeklyGrid(interval, weekdays, anchorDay, day) {
      LeastOnWeeklyGrid(interval, weekdays, anchorDay, afterDay, day);
    } else {
      assert IsNextWeekly(interval, weekdays, anchorDay, afterDay, bound);
    }
  }

  lemma NextWeeklyExists(rule: RecurrenceRule, anchorDay: int, afterDay: int)
    requires ValidRule(rule) && anchorDay <= afterDay
    ensures exists day :: day <= afterDay + 7 * rule.interval &&
                          IsNextWeekly(rule.interval, SelectedWeekdays(rule, anchorDay), anchorDay, afterDay, day)
  {
    var weekdays := SelectedWeekdays(rule, anchorDay);
    var weekday :| weekday in weekdays;
    var bound := WeeklyGridIsDense(rule.interval, weekdays, weekday, anchorDay, afterDay);
    LeastOnWeeklyGrid(rule.interval, weekdays, anchorDay, afterDay, bound);
  }

  /** The least later day of the grid, which comes within 7 * interval days. */
  ghost function NextWeeklyDay(rule: RecurrenceRule, anchorDay: int, afterDay: int): (day: int)
    requires ValidRule(rule) && anchorDay <= afterDay
    ensures IsNextWeekly(rule.interval, SelectedWeekdays(rule, anchorDay), anchorDay, afterDay, day)
    ensures day <= afterDay + 7 * rule.interval
  {
    NextWeeklyExists(rule, anchorDay, afterDay);
    var d :| d <= afterDay + 7 * rule.interval &&
             IsNextWeekly(rule.interval, SelectedWeekdays(rule, anchorDay), anchorDay, afterDay, d);
    d
  }

  // Monthly rules

  /** The k-th month of a monthly rule's grid. */
  function GridMonth(anchorMonth: int, interval: int, k: int): int {
    anchorMonth + k * interval
  }

  predicate IsGridDate(anchorMonth: int, interval: int, monthday: int, k: int) {
    IsDate(GridMonth(anchorMonth, interval, k), monthday)
  }

  ghost predicate IsNextMonthly(anchorMonth: int, interval: int, monthday: int, after: int, k: int) {
    && after < k && IsGridDate(anchorMonth, interval, monthday, k)
    && forall j | after < j < k :: !IsGridDate(anchorMonth, interval, monthday, j)
  }

  lemma {:induction false} LeastGridDate(anchorMonth: int, interval: int, monthday: int, after: int, bound: int)
    requires after < bound && IsGridDate(anchorMonth, interval, monthday, bound)
    ensures exists k :: k <= bound && IsNextMonthly(anchorMonth, interval, monthday, after, k)
    decreases bound - after
  {
    if k :| after < k < bound && IsGridDate(anchorMonth, interval, monthday, k) {
      LeastGridDate(anchorMonth, interval, monthday, after, k);
    } else {
      assert IsNextMonthly(anchorMonth, interval, monthday, after, bound);
    }
  }

  /** The first step after a given one at which the grid has a date, if it ever has one. */
  ghost function NextMonthlyStep(anchorMonth: int, interval: int, monthday: int, after: int): (k: Option<int>)
    ensures match k
            case Some(step) => IsNextMonthly(anchorMonth, interval, monthday, after, step)
            case None => forall j | after < j :: !IsGridDate(anchorMonth, interval, monthday, j)
  {
    if exists k :: after < k && IsGridDate(anchorMonth, interval, monthday, k) then
      var k :| after < k && IsGridDate(anchorMonth, interval, monthday, k);
      LeastGridDate(anchorMonth, interval, monthday, after, k);
      var step :| IsNextMonthly(anchorMonth, interval, monthday, after, step);
      Some(step)
    else None
  }

  predicate IsLong(month: int) {
    var m := month % 12;
    m != 1 && m != 3 && m != 5 && m != 8 && m != 10
  }

  lemma LongMonthSoon(m: int, s: int)
    requires 0 <= m < 12 && 1 <= s < 12
    ensures IsLong(m) || IsLong(m + s) || IsLong(m + 2 * s) || IsLong(m + 3 * s) || IsLong(m + 4 * s)
            || IsLong(m + 5 * s)
  {
    if s == 1 {
    } else if s == 2 {
    } else if s == 3 {
    } else if s == 4 {
    } else if s == 5 {
    } else if s == 6 {
    } else if s == 7 {
    } else if s == 8 {
    } else if s == 9 {
    } else if s == 10 {
    } else {
    }
  }

  lemma SameMonthOfYear(a: int, b: int, years: int)
    requires a == b + 12 * years
    ensures IsLong(a) == IsLong(b)
  {
  }

  /** The months of a grid depend only on the interval modulo 12. */
  lemma GridMonthOfYear(anchorMonth: int, interval: int, k: int, i: int)
    ensures IsLong(GridMonth(anchorMonth, interval, k + i)) ==
            IsLong(GridMonth(anchorMonth, interval, k) % 12 + i * (interval % 12))
  {
    var month := GridMonth(anchorMonth, interval, k);
    var t, s := interval / 12, interval % 12;
    Distribute(k, i, interval);
    Distribute(12 * t, s, i);
    assert i * interval == 12 * (t * i) + i * s;
    SameMonthOfYear(GridMonth(anchorMonth, interval, k + i), month % 12 + i * s, month / 12 + t * i);
  }

  /** Unless the grid stays in one month of the year, one of any six steps in a row is a month of 31 days. */
  lemma LongMonthWithinSix(anchorMonth: int, interval: int, k: int) returns (j: int)
    requires 0 < interval && interval % 12 != 0
    ensures k <= j < k + 6 && IsLong(GridMonth(anchorMonth, interval, j))
  {
    var m, s := GridMonth(anchorMonth, interval, k) % 12, interval % 12;
    LongMonthSoon(m, s);
    var i: int := if IsLong(m) then 0 else if IsLong(m + s) then 1 else if IsLong(m + 2 * s) then 2
                  else if IsLong(m + 3 * s) then 3 else if IsLong(m + 4 * s) then 4 else 5;
    GridMonthOfYear(anchorMonth, interval, k, i);
    j := k + i;
  }

  lemma {:induction false} NoDateAfterLastYear(anchorMonth: int, interval: int, monthday: int, j: int, k: int)
    requires 0 < interval && j < k && END_MONTH <= GridMonth(anchorMonth, interval, j)
    ensures !IsGridDate(anchorMonth, interval, monthday, k)
  {
    MultiplesAreOrdered(j, k, interval);
  }

  /** A grid that stays in one month of the year repeats its dates every 400 steps. */
  lemma EarlierInLeapCycle(anchorMonth: int, interval: int, monthday: int, k: int)
    requires 0 < interval && interval % 12 == 0 && FIRST_MONTH <= anchorMonth && 400 <= k
    requires IsGridDate(anchorMonth, interval, monthday, k)
    ensures IsGridDate(anchorMonth, interval, monthday, k - 400)
  {
    var years := interval / 12;
    Distribute(k - 400, 400, interval);
    assert 400 * interval == 4800 * years;
    LeapCycle(GridMonth(anchorMonth, interval, k - 400), years);
    assert (k - 400) * interval >= 0;
  }

  lemma {:induction false} DateInFirstCycle(anchorMonth: int, interval: int, monthday: int, after: int, k: int)
    requires 0 < interval && interval % 12 == 0 && FIRST_MONTH <= anchorMonth && 0 <= after < k
    requires IsGridDate(anchorMonth, interval, monthday, k)
    ensures exists j :: after < j <= after + 400 && IsGridDate(anchorMonth, interval, monthday, j)
    decreases k
  {
    if after + 400 < k {
      EarlierInLeapCycle(anchorMonth, interval, monthday, k);
      DateInFirstCycle(anchorMonth, interval, monthday, after, k - 400);
    }
  }

  /**
   Giving up after 1200 steps never loses a date: a grid that leaves its month of the year meets a
   month of 31 days within six steps, and one that does not repeats after 400.
   */
  lemma SearchCapLosesNothing(anchorMonth: int, interval: int, monthday: int, after: int, k: int)
    requires 0 < interval && FIRST_MONTH <= anchorMonth && 0 <= after < k && 1 <= monthday <= 31
    requires forall j | after < j <= after + 1200 :: !IsGridDate(anchorMonth, interval, monthday, j)
    ensures !IsGridDate(anchorMonth, interval, monthday, k)
  {
    if interval % 12 == 0 {
      if IsGridDate(anchorMonth, interval, monthday, k) {
        DateInFirstCycle(anchorMonth, interval, monthday, after, k);
      }
    } else if after + 1200 < k {
      var j := LongMonthWithinSix(anchorMonth, interval, after + 1);
      assert GridMonth(anchorMonth, interval, j) >= FIRST_MONTH by {
        assert j * interval >= 0;
      }
      assert !IsGridDate(anchorMonth, interval, monthday, j);
      NoDateAfterLastYear(anchorMonth, interval, monthday, j, k);
    }
  }

  /** Unless the grid stays in one month of the year, the search ends within six steps or has left year 9999. */
  lemma MonthlySearchIsShort(anchorMonth: int, interval: int, monthday: int, after: int)
    requires 0 < interval && interval % 12 != 0 && FIRST_MONTH <= anchorMonth && 0 <= after && 1 <= monthday <= 31
    ensures match NextMonthlyStep(anchorMonth, interval, monthday, after)
            case Some(k) => k <= after + 6
            case None => END_MONTH <= GridMonth(anchorMonth, interval, after + 6)
  {
    var j := LongMonthWithinSix(anchorMonth, interval, after + 1);
    assert j * interval >= 0;
    if j < after + 6 {
      MultiplesAreOrdered(j, after + 6, interval);
    }
    var k := NextMonthlyStep(anchorMonth, interval, monthday, after);
    if k.Some? && j < k.value {
      assert !IsGridDate(anchorMonth, interval, monthday, j);
      NoDateAfterLastYear(anchorMonth, interval, monthday, j, k.value);
    } else if k.None? {
      assert !IsGridDate(anchorMonth, interval, monthday, j);
    }
  }

  // The occurrence after a given one

  function MonthdayOf(rule: RecurrenceRule, anchor: int): int
    requires IsLocal(anchor)
  {
    if rule.monthday.Some? then rule.monthday.value
    else anchor / DAY - MonthStart(MonthOf(anchor / DAY)) + 1
  }

  ghost function Following(rule: RecurrenceRule, anchor: int, after: int): Result<int>
    requires ValidRule(rule) && rule.kind != Once && IsLocal(anchor) && IsLocal(after) && anchor <= after
  {
    var timeOfDay := anchor % DAY;
    match rule.kind
    case Weekly =>
      var day := NextWeeklyDay(rule, anchor / DAY, after / DAY);
      if day < END_DAY then Ok(day * DAY + timeOfDay) else Err(OverflowError)
    case Monthly =>
      var anchorMonth := MonthOf(anchor / DAY);
      var monthday := MonthdayOf(rule, anchor);
      (match NextMonthlyStep(anchorMonth, rule.interval, monthday, (MonthOf(after / DAY) - anchorMonth) / rule.interval)
       case Some(k) => Ok((MonthStart(GridMonth(anchorMonth, rule.interval, k)) + monthday - 1) * DAY + timeOfDay)
       case None => Err(ValueError))
    case _ =>
      if IsLocal(after + rule.interval * DAY) then Ok(after + rule.interval * DAY) else Err(OverflowError)
  }

  ghost function UpTo(rule: RecurrenceRule, candidate: int): Result<Option<int>> {
    Ok(if rule.until.Some? && rule.until.value < candidate then None else Some(candidate))
  }

  ghost function NextOccurrence(rule: RecurrenceRule, anchor: int, after: Option<int>,
    emitted: int): (r: Result<Option<int>>)
    requires ValidRule(rule) && IsLocal(anchor) && (after.Some? ==> IsLocal(after.value))
    ensures after.None? && 0 <= emitted ==> r.Ok?
  {
    if after.Some? && after.value < anchor then Err(ValueError)
    else if emitted < 0 then Err(ValueError)
    else if rule.count.Some? && rule.count.value <= emitted then Ok(None)
    else if after.None? then UpTo(rule, anchor)
    else if rule.kind == Once then Ok(None)
    else match Following(rule, anchor, after.value)
         case Ok(candidate) => UpTo(rule, candidate)
         case Err(error) => Err(error)
  }

  lemma MonthStepAfter(anchorMonth: int, interval: int, month: int, k: int)
    requires 0 < interval
    ensures (month - anchorMonth) / interval < k <==> month < GridMonth(anchorMonth, interval, k)
  {
    var q := (month - anchorMonth) / interval;
    assert q * interval <= month - anchorMonth < q * interval + interval;
    if q < k {
      MultiplesAreOrdered(q, k, interval);
    } else if k < q {
      MultiplesAreOrdered(k, q, interval);
    }
  }

  lemma FollowingIsLater(rule: RecurrenceRule, anchor: int, after: int)
    requires ValidRule(rule) && rule.kind != Once && IsLocal(anchor) && IsLocal(after) && anchor <= after
    ensures match Following(rule, anchor, after)
            case Ok(next) => after < next && IsLocal(next)
            case Err(_) => true
  {
    if rule.kind == Monthly {
      var anchorMonth := MonthOf(anchor / DAY);
      var month := MonthOf(after / DAY);
      var monthday := MonthdayOf(rule, anchor);
      var k := NextMonthlyStep(anchorMonth, rule.interval, monthday, (month - anchorMonth) / rule.interval);
      if k.Some? {
        MonthStepAfter(anchorMonth, rule.interval, month, k.value);
        LaterMonthIsLater(after / DAY, GridMonth(anchorMonth, rule.interval, k.value), monthday);
        DateRoundTrip(GridMonth(anchorMonth, rule.interval, k.value), monthday);
      }
    }
  }

  // The occurrences of a rule, first to last

  lemma NextIsLater(rule: RecurrenceRule, anchor: int, previous: int, n: nat)
    requires ValidRule(rule) && IsLocal(anchor) && IsLocal(previous)
    ensures match NextOccurrence(rule, anchor, Some(previous), n)
            case Ok(Some(next)) => anchor <= previous < next && IsLocal(next)
            case _ => true
  {
    hide Following;
    if anchor <= previous && rule.kind != Once {
      FollowingIsLater(rule, anchor, previous);
    }
  }

  ghost function NextOrNone(rule: RecurrenceRule, anchor: int, previous: int, n: nat): (o: Option<int>)
    requires ValidRule(rule) && IsLocal(anchor) && IsLocal(previous)
    ensures o.Some? ==> anchor <= previous < o.value && IsLocal(o.value)
  {
    NextIsLater(rule, anchor, previous, n);
    hide NextOccurrence;
    match NextOccurrence(rule, anchor, Some(previous), n)
    case Ok(next) => next
    case Err(_) => None
  }

  /** The n-th occurrence, counting from 0, if the rule has that many. */
  ghost function Occurrence(rule: RecurrenceRule, anchor: int, n: nat): (o: Option<int>)
    requires ValidRule(rule) && IsLocal(anchor)
    ensures o.Some? ==> anchor <= o.value && IsLocal(o.value)
  {
    if n == 0 then
      NextOccurrence(rule, anchor, None, 0).value
    else
      match Occurrence(rule, anchor, n - 1)
      case None => None
      case Some(previous) => NextOrNone(rule, anchor, previous, n)
  }

  lemma {:induction false} OccurrencesIncrease(rule: RecurrenceRule, anchor: int, i: nat, j: nat)
    requires ValidRule(rule) && IsLocal(anchor) && i < j && Occurrence(rule, anchor, j).Some?
    ensures Occurrence(rule, anchor, i).Some?
    ensures Occurrence(rule, anchor, i).value < Occurrence(rule, anchor, j).value
    ensures rule.count.Some? ==> j < rule.count.value
    ensures rule.until.Some? ==> Occurrence(rule, anchor, j).value <= rule.until.value
    decreases j
  {
    if i < j - 1 {
      OccurrencesIncrease(rule, anchor, i, j - 1);
    }
  }

  /** The local times a rule selects after its anchor. */
  predicate OnGrid(rule: RecurrenceRule, anchor: int, local: int)
    requires ValidRule(rule) && IsLocal(anchor) && IsLocal(local)
  {
    match rule.kind
    case Once => false
    case Daily => (local - anchor) % (rule.interval * DAY) == 0
    case Weekly =>
      local % DAY == anchor % DAY &&
      OnWeeklyGrid(rule.interval, SelectedWeekdays(rule, anchor / DAY), anchor / DAY, local / DAY)
    case Monthly =>
      var month := MonthOf(local / DAY);
      local % DAY == anchor % DAY &&
      MonthOf(anchor / DAY) < month && (month - MonthOf(anchor / DAY)) % rule.interval == 0 &&
      local / DAY - MonthStart(month) + 1 == MonthdayOf(rule, anchor)
  }

  lemma DailyIsFirst(rule: RecurrenceRule, anchor: int, after: int, local: int)
    requires ValidRule(rule) && rule.kind == Daily && IsLocal(anchor) && IsLocal(after) && anchor <= after
    requires after == anchor || OnGrid(rule, anchor, after)
    requires IsLocal(local) && after < local && OnGrid(rule, anchor, local)
    ensures after + rule.interval * DAY <= local
  {
    var p := rule.interval * DAY;
    var i, j := (after - anchor) / p, (local - anchor) / p;
    if after == anchor {
      QuotientIsUnique(0, p, 0);
    }
    assert i * p == after - anchor && j * p == local - anchor;
    if i < j {
      MultiplesAreOrdered(i, j, p);
    } else if j < i {
      MultiplesAreOrdered(j, i, p);
    }
  }

  lemma MonthlyIsFirst(rule: RecurrenceRule, anchor: int, after: int, local: int)
    requires ValidRule(rule) && rule.kind == Monthly && IsLocal(anchor) && IsLocal(after) && anchor <= after
    requires after == anchor || OnGrid(rule, anchor, after)
    requires IsLocal(local) && after < local && OnGrid(rule, anchor, local)
    ensures Following(rule, anchor, after).Ok? && Following(rule, anchor, after).value <= local
  {
    hide MonthStart, DaysIn;
    var anchorMonth, month := MonthOf(anchor / DAY), MonthOf(local / DAY);
    var monthday := MonthdayOf(rule, anchor);
    var q := (MonthOf(after / DAY) - anchorMonth) / rule.interval;
    var j := (month - anchorMonth) / rule.interval;
    assert month == GridMonth(anchorMonth, rule.interval, j);
    SameMonthSameDay(rule, anchor, after, local);
    MonthStepAfter(anchorMonth, rule.interval, MonthOf(after / DAY), j);
    assert IsGridDate(anchorMonth, rule.interval, monthday, j);
    var k := NextMonthlyStep(anchorMonth, rule.interval, monthday, q).value;
    if k < j {
      MultiplesAreOrdered(k, j, rule.interval);
      MonthsAreOrdered(GridMonth(anchorMonth, rule.interval, k), month);
    }
  }

  /** The following occurrence is the first later local time on the grid, if there is any. */
  lemma FollowingIsFirst(rule: RecurrenceRule, anchor: int, after: int, local: int)
    requires ValidRule(rule) && IsLocal(anchor) && IsLocal(after) && anchor <= after
    requires after == anchor || OnGrid(rule, anchor, after)
    requires IsLocal(local) && after < local && OnGrid(rule, anchor, local)
    ensures Following(rule, anchor, after).Ok? && Following(rule, anchor, after).value <= local
  {
    match rule.kind {
      case Daily =>
        DailyIsFirst(rule, anchor, after, local);
      case Weekly =>
        var day := NextWeeklyDay(rule, anchor / DAY, after / DAY);
        assert after / DAY < local / DAY;
        assert day <= local / DAY;
      case Monthly =>
        MonthlyIsFirst(rule, anchor, after, local);
    }
  }

  lemma MonthlyIsOnGrid(rule: RecurrenceRule, anchor: int, after: int)
    requires ValidRule(rule) && rule.kind == Monthly && IsLocal(anchor) && IsLocal(after) && anchor <= after
    requires Following(rule, anchor, after).Ok?
    ensures var next := Following(rule, anchor, after).value;
            IsLocal(next) && OnGrid(rule, anchor, next)
  {
    hide MonthStart, DaysIn;
    FollowingIsLater(rule, anchor, after);
    var next := Following(rule, anchor, after).value;
    var anchorMonth, month := MonthOf(anchor / DAY), MonthOf(after / DAY);
    var monthday := MonthdayOf(rule, anchor);
    var k := NextMonthlyStep(anchorMonth, rule.interval, monthday, (month - anchorMonth) / rule.interval).value;
    DateRoundTrip(GridMonth(anchorMonth, rule.interval, k), monthday);
    MonthStepAfter(anchorMonth, rule.interval, month, k);
    QuotientIsUnique(k * rule.interval, rule.interval, k);
    if month < anchorMonth {
      MonthsAreOrdered(month, anchorMonth);
    }
  }

  lemma DailyIsOnGrid(rule: RecurrenceRule, anchor: int, after: int)
    requires ValidRule(rule) && rule.kind == Daily && IsLocal(anchor) && IsLocal(after) && anchor <= after
    requires after == anchor || OnGrid(rule, anchor, after)
    requires IsLocal(after + rule.interval * DAY)
    ensures OnGrid(rule, anchor, after + rule.interval * DAY)
  {
    var p := rule.interval * DAY;
    var i := (after - anchor) / p;
    if after == anchor {
      QuotientIsUnique(0, p, 0);
    }
    assert i * p == after - anchor;
    Distribute(i, 1, p);
    QuotientIsUnique(after + p - anchor, p, i + 1);
  }

  lemma WeeklyIsOnGrid(rule: RecurrenceRule, anchor: int, after: int)
    requires ValidRule(rule) && rule.kind == Weekly && IsLocal(anchor) && IsLocal(after) && anchor <= after
    requires Following(rule, anchor, after).Ok?
    ensures var next := Following(rule, anchor, after).value;
            IsLocal(next) && OnGrid(rule, anchor, next)
  {
    FollowingIsLater(rule, anchor, after);
    var next := Following(rule, anchor, after).value;
    var day := NextWeeklyDay(rule, anchor / DAY, after / DAY);
    assert next / DAY == day && next % DAY == anchor % DAY;
  }

  /** And it lies on the grid itself. */
  lemma FollowingIsOnGrid(rule: RecurrenceRule, anchor: int, after: int)
    requires ValidRule(rule) && rule.kind != Once && IsLocal(anchor) && IsLocal(after) && anchor <= after
    requires after == anchor || OnGrid(rule, anchor, after)
    requires Following(rule, anchor, after).Ok?
    ensures var next := Following(rule, anchor, after).value;
            IsLocal(next) && OnGrid(rule, anchor, next)
  {
    if rule.kind == Daily {
      DailyIsOnGrid(rule, anchor, after);
    } else if rule.kind == Weekly {
      hide Following, OnGrid;
      WeeklyIsOnGrid(rule, anchor, after);
    } else {
      hide Following, OnGrid;
      MonthlyIsOnGrid(rule, anchor, after);
    }
  }

  lemma SameMonthSameDay(rule: RecurrenceRule, anchor: int, after: int, local: int)
    requires ValidRule(rule) && rule.kind == Monthly && IsLocal(anchor) && IsLocal(after) && IsLocal(local)
    requires anchor <= after < local
    requires after == anchor || OnGrid(rule, anchor, after)
    requires OnGrid(rule, anchor, local)
    ensures MonthOf(after / DAY) < MonthOf(local / DAY)
  {
    var a, b := MonthOf(after / DAY), MonthOf(local / DAY);
    if b < a {
      MonthsAreOrdered(b, a);
    }
  }

  /** Every occurrence is the anchor or on the grid. */
  lemma {:induction false} OccurrenceIsOnGrid(rule: RecurrenceRule, anchor: int, n: nat)
    requires ValidRule(rule) && IsLocal(anchor) && Occurrence(rule, anchor, n).Some?
    ensures var o := Occurrence(rule, anchor, n).value;
            o == anchor || OnGrid(rule, anchor, o)
  {
    if 0 < n {
      OccurrenceIsOnGrid(rule, anchor, n - 1);
      FollowingIsOnGrid(rule, anchor, Occurrence(rule, anchor, n - 1).value);
    }
  }

  /** Counting on from the n-th occurrence, every later grid time up to the limits of the rule is reached. */
  lemma {:induction false} GridTimeIsReached(rule: RecurrenceRule, anchor: int, n: nat, local: int) returns (m: nat)
    requires ValidRule(rule) && IsLocal(anchor) && rule.count == None
    requires rule.until.Some? ==> local <= rule.until.value
    requires IsLocal(local) && OnGrid(rule, anchor, local)
    requires Occurrence(rule, anchor, n).Some? && Occurrence(rule, anchor, n).value < local
    ensures Occurrence(rule, anchor, m) == Some(local)
    decreases local - Occurrence(rule, anchor, n).value
  {
    assert rule.kind != Once;
    hide Following, OnGrid;
    var o := Occurrence(rule, anchor, n).value;
    OccurrenceIsOnGrid(rule, anchor, n);
    FollowingIsFirst(rule, anchor, o, local);
    FollowingIsLater(rule, anchor, o);
    if Following(rule, anchor, o).value == local {
      m := n + 1;
    } else {
      m := GridTimeIsReached(rule, anchor, n + 1, local);
    }
  }

  /**
   Iterating the rule from its anchor yields exactly the anchor and the later times of its grid, up to
   its last date: none is skipped and none is added.
   */
  lemma OccurrencesAreTheGrid(rule: RecurrenceRule, anchor: int, local: int)
    requires ValidRule(rule) && IsLocal(anchor) && IsLocal(local) && rule.count == None
    ensures (exists n: nat :: Occurrence(rule, anchor, n) == Some(local)) <==>
            (local == anchor || (anchor < local && OnGrid(rule, anchor, local))) &&
            (rule.until.Some? ==> local <= rule.until.value)
  {
    if n: nat :| Occurrence(rule, anchor, n) == Some(local) {
      OccurrenceIsOnGrid(rule, anchor, n);
      if 0 < n {
        OccurrencesIncrease(rule, anchor, 0, n);
      }
    } else if (local == anchor || (anchor < local && OnGrid(rule, anchor, local))) &&
              (rule.until.Some? ==> local <= rule.until.value) {
      assert Occurrence(rule, anchor, 0) == Some(anchor);
      if anchor < local {
        var m := GridTimeIsReached(rule, anchor, 0, local);
      }
      assert false;
    }
  }

  lemma FollowingIgnoresCount(rule: RecurrenceRule, anchor: int, after: int)
    requires ValidRule(rule) && rule.kind != Once && IsLocal(anchor) && IsLocal(after) && anchor <= after
    ensures Following(rule, anchor, after) == Following(rule.(count := None), anchor, after)
  {
    if rule.kind == Weekly {
      var free := rule.(count := None);
      var a, b := NextWeeklyDay(rule, anchor / DAY, after / DAY), NextWeeklyDay(free, anchor / DAY, after / DAY);
      assert SelectedWeekdays(rule, anchor / DAY) == SelectedWeekdays(free, anchor / DAY);
      assert a == b;
    }
  }

  /** A rule with a count has that many of the occurrences it would have without one, the first. */
  lemma {:induction false} OccurrencesAreCounted(rule: RecurrenceRule, anchor: int, n: nat)
    requires ValidRule(rule) && IsLocal(anchor) && rule.count.Some?
    ensures Occurrence(rule, anchor, n) ==
            if n < rule.count.value then Occurrence(rule.(count := None), anchor, n) else None
  {
    hide Following;
    var free := rule.(count := None);
    if 0 < n {
      OccurrencesAreCounted(rule, anchor, n - 1);
      var previous := Occurrence(free, anchor, n - 1);
      if n < rule.count.value && previous.Some? {
        FollowingIgnoresCount(rule, anchor, previous.value);
      }
    }
  }

  // The grid in numbers

  /** The Monday of a day's week; the first day of the calendar is a Monday. */
  function Monday(day: int): int {
    day - day % 7
  }

  lemma WeeksApart(interval: int, anchorDay: int, day: int)
    requires 0 < interval && anchorDay <= day
    ensures (day - Monday(anchorDay)) / 7 % interval == 0 <==> (Monday(day) - Monday(anchorDay)) % (7 * interval) == 0
  {
    var w := (day - Monday(anchorDay)) / 7;
    assert Monday(day) - Monday(anchorDay) == 7 * w;
    var q, r := w / interval, w % interval;
    assert w == q * interval + r;
    assert 7 * w == 7 * (q * interval) + 7 * r && 7 * (q * interval) == q * (7 * interval);
    QuotientIsUnique(7 * w - 7 * r, 7 * interval, q);
    assert 0 <= 7 * r < 7 * interval;
    RemainderIsUnique(7 * w, 7 * interval, q, 7 * r);
  }

  lemma RemainderIsUnique(x: int, p: int, q: int, r: int)
    requires 0 < p && x == q * p + r && 0 <= r < p
    ensures x % p == r
  {
    var d := x / p - q;
    assert x == x / p * p + x % p;
    Distribute(x / p, -q, p);
    assert d * p == r - x % p;
    if 0 < d {
      MultiplesAreOrdered(0, d, p);
    } else if d < 0 {
      MultiplesAreOrdered(d, 0, p);
    }
  }

  /** The weekly grid: the anchor's time of day, on a selected weekday, or the anchor's, whole intervals of weeks on. */
  lemma WeeklyGrid(rule: RecurrenceRule, anchor: int, local: int)
    requires ValidRule(rule) && rule.kind == Weekly && IsLocal(anchor) && IsLocal(local) && anchor < local
    ensures OnGrid(rule, anchor, local) <==>
            && local % DAY == anchor % DAY
            && (if rule.weekdays == {} then local / DAY % 7 == anchor / DAY % 7 else local / DAY % 7 in rule.weekdays)
            && (Monday(local / DAY) - Monday(anchor / DAY)) % (7 * rule.interval) == 0
  {
    WeeksApart(rule.interval, anchor / DAY, local / DAY);
  }

  /**
   The monthly grid: the anchor's time of day, whole intervals of months on, on the rule's day of the month,
   or the anchor's.
   */
  lemma MonthlyGrid(rule: RecurrenceRule, anchor: int, local: int)
    requires ValidRule(rule) && rule.kind == Monthly && IsLocal(anchor) && IsLocal(local)
    ensures OnGrid(rule, anchor, local) <==>
            var month, anchorMonth := MonthOf(local / DAY), MonthOf(anchor / DAY);
            && local % DAY == anchor % DAY
            && anchorMonth < month && (month - anchorMonth) % rule.interval == 0
            && local / DAY - MonthStart(month) + 1 ==
               (if rule.monthday.Some? then rule.monthday.value else anchor / DAY - MonthStart(anchorMonth) + 1)
  {
    hide MonthStart;
  }

  /** The day of the month, or the weekday, that is not given is the anchor's. */
  lemma FollowingKeepsDay(rule: RecurrenceRule, anchor: int, after: int)
    requires ValidRule(rule) && rule.kind != Once && IsLocal(anchor) && IsLocal(after) && anchor <= after
    requires after == anchor || OnGrid(rule, anchor, after)
    requires Following(rule, anchor, after).Ok?
    ensures var next := Following(rule, anchor, after).value;
            && IsLocal(next)
            && (rule.kind == Daily ==> next == after + rule.interval * DAY)
            && (rule.kind == Weekly && rule.weekdays == {} ==> next / DAY % 7 == anchor / DAY % 7)
            && (rule.kind == Weekly && rule.weekdays != {} ==> next / DAY % 7 in rule.weekdays)
            && (rule.kind == Monthly ==>
                  next / DAY - MonthStart(MonthOf(next / DAY)) + 1 ==
                  if rule.monthday.Some? then rule.monthday.value
                  else anchor / DAY - MonthStart(MonthOf(anchor / DAY)) + 1)
  {
    hide MonthStart, Following, OnGrid;
    FollowingIsOnGrid(rule, anchor, after);
    FollowingIsLater(rule, anchor, after);
    var next := Following(rule, anchor, after).value;
    match rule.kind {
      case Daily => DailyFollowing(rule, anchor, after);
      case Weekly => WeeklyGrid(rule, anchor, next);
      case Monthly => MonthlyGrid(rule, anchor, next);
    }
  }

  lemma DailyFollowing(rule: RecurrenceRule, anchor: int, after: int)
    requires ValidRule(rule) && rule.kind == Daily && IsLocal(anchor) && IsLocal(after) && anchor <= after
    requires Following(rule, anchor, after).Ok?
    ensures Following(rule, anchor, after).value == after + rule.interval * DAY
  {
  }

  lemma DailyNext(rule: RecurrenceRule, anchor: int, previous: int, n: nat)
    requires ValidRule(rule) && rule.kind == Daily && rule.count == None && rule.until == None
    requires IsLocal(anchor) && IsLocal(previous) && anchor <= previous
    ensures NextOrNone(rule, anchor, previous, n) ==
            var next := previous + rule.interval * DAY; if IsLocal(next) then Some(next) else None
  {
  }

  /** A daily rule without limits selects every interval-th day at the anchor's time. */
  lemma {:induction false} DailyOccurrences(rule: RecurrenceRule, anchor: int, n: nat)
    requires ValidRule(rule) && rule.kind == Daily && IsLocal(anchor) && rule.count == None && rule.until == None
    ensures var local := anchor + n * (rule.interval * DAY);
            Occurrence(rule, anchor, n) == if IsLocal(local) then Some(local) else None
  {
    if n == 0 {
      assert 0 * (rule.interval * DAY) == 0;
    } else {
      hide Occurrence, IsLocal;
      DailyOccurrences(rule, anchor, n - 1);
      OneMoreInterval(n, rule.interval * DAY);
      DailyStep(rule, anchor, anchor + (n - 1) * (rule.interval * DAY), n);
    }
  }

  lemma OneMoreInterval(n: nat, length: nat)
    requires 0 < n
    ensures n * length == (n - 1) * length + length && 0 <= (n - 1) * length
  {
  }

  lemma DailyStep(rule: RecurrenceRule, anchor: int, previous: int, n: nat)
    requires ValidRule(rule) && rule.kind == Daily && IsLocal(anchor) && rule.count == None && rule.until == None
    requires 0 < n && anchor <= previous
    requires Occurrence(rule, anchor, n - 1) == if IsLocal(previous) then Some(previous) else None
    ensures var local := previous + rule.interval * DAY;
            Occurrence(rule, anchor, n) == if IsLocal(local) then Some(local) else None
  {
    hide NextOrNone;
    if IsLocal(previous) {
      DailyNext(rule, anchor, previous, n);
    }
  }

  // The searches

  /** Scans the days after the cursor; the cap of 3660 days is never reached. */
  method FindNextWeekly(rule: RecurrenceRule, anchor: int, after: int) returns (r: Result<int>)
    requires ValidRule(rule) && rule.kind == Weekly && IsLocal(anchor) && IsLocal(after) && anchor <= after
    ensures r == Following(rule, anchor, after)
  {
    var anchorDay, afterDay := anchor / DAY, after / DAY;
    var weekdays := SelectedWeekdays(rule, anchorDay);
    ghost var next := NextWeeklyDay(rule, anchorDay, afterDay);
    for offset := 1 to 3661
      invariant afterDay + offset <= next && afterDay + offset - 1 < END_DAY
    {
      var day := afterDay + offset;
      if END_DAY <= day {
        return Err(OverflowError);
      }
      if OnWeeklyGrid(rule.interval, weekdays, anchorDay, day) {
        return Ok(day * DAY + anchor % DAY);
      }
    }
    assert false;
  }

  /** Steps through the months of the grid, skipping those without the date, at most 1200 times. */
  method FindNextMonthly(rule: RecurrenceRule, anchor: int, after: int) returns (r: Result<int>)
    requires ValidRule(rule) && rule.kind == Monthly && IsLocal(anchor) && IsLocal(after) && anchor <= after
    ensures r == Following(rule, anchor, after)
  {
    hide MonthStart, DaysIn, NextMonthlyStep;
    var anchorMonth := MonthOf(anchor / DAY);
    var monthday := MonthdayOf(rule, anchor);
    var elapsed := MonthOf(after / DAY) - anchorMonth;
    var step := (elapsed / rule.interval + 1) * rule.interval;
    ghost var q := elapsed / rule.interval;
    for i := 0 to 1200
      invariant step == (q + 1 + i) * rule.interval
      invariant forall j | q < j <= q + i :: !IsGridDate(anchorMonth, rule.interval, monthday, j)
    {
      var month := anchorMonth + step;
      assert month == GridMonth(anchorMonth, rule.interval, q + 1 + i);
      if IsDate(month, monthday) {
        FirstStepFound(anchorMonth, rule.interval, monthday, q, q + 1 + i);
        return Ok((MonthStart(month) + monthday - 1) * DAY + anchor % DAY);
      }
      Distribute(q + 1 + i, 1, rule.interval);
      step := step + rule.interval;
    }
    CursorIsNotBefore(anchor, after);
    MonthdayIsPossible(rule, anchor);
    NoStepIsLeft(anchorMonth, rule.interval, monthday, q);
    return Err(ValueError);
  }

  lemma NoStepIsLeft(anchorMonth: int, interval: int, monthday: int, q: int)
    requires 0 < interval && FIRST_MONTH <= anchorMonth && 0 <= q && 1 <= monthday <= 31
    requires forall j | q < j <= q + 1200 :: !IsGridDate(anchorMonth, interval, monthday, j)
    ensures NextMonthlyStep(anchorMonth, interval, monthday, q) == None
  {
    hide IsGridDate;
    forall k | q < k ensures !IsGridDate(anchorMonth, interval, monthday, k) {
      SearchCapLosesNothing(anchorMonth, interval, monthday, q, k);
    }
  }

  lemma FirstStepFound(anchorMonth: int, interval: int, monthday: int, q: int, k: int)
    requires q < k && IsGridDate(anchorMonth, interval, monthday, k)
    requires forall j | q < j < k :: !IsGridDate(anchorMonth, interval, monthday, j)
    ensures NextMonthlyStep(anchorMonth, interval, monthday, q) == Some(k)
  {
    hide IsGridDate;
    assert IsNextMonthly(anchorMonth, interval, monthday, q, k);
  }

  lemma CursorIsNotBefore(anchor: int, after: int)
    requires IsLocal(anchor) && IsLocal(after) && anchor <= after
    ensures MonthOf(anchor / DAY) <= MonthOf(after / DAY)
  {
    hide MonthStart, DaysIn;
    if MonthOf(after / DAY) < MonthOf(anchor / DAY) {
      MonthsAreOrdered(MonthOf(after / DAY), MonthOf(anchor / DAY));
    }
  }

  lemma MonthdayIsPossible(rule: RecurrenceRule, anchor: int)
    requires ValidRule(rule) && IsLocal(anchor)
    ensures 1 <= MonthdayOf(rule, anchor) <= 31
  {
    hide MonthStart;
  }

  method FindNextOccurrence(rule: RecurrenceRule, anchor: int, after: Option<int>, emitted: int)
    returns (r: Result<Option<int>>)
    requires ValidRule(rule) && IsLocal(anchor) && (after.Some? ==> IsLocal(after.value))
    ensures r == NextOccurrence(rule, anchor, after, emitted)
  {
    if after.Some? && after.value < anchor {
      return Err(ValueError);
    }
    if emitted < 0 {
      return Err(ValueError);
    }
    if rule.count.Some? && rule.count.value <= emitted {
      return Ok(None);
    }
    var candidate;
    if after.None? {
      candidate := Ok(anchor);
    } else if rule.kind == Once {
      return Ok(None);
    } else if rule.kind == Daily {
      var next := after.value + rule.interval * DAY;
      candidate := if IsLocal(next) then Ok(next) else Err(OverflowError);
    } else if rule.kind == Weekly {
      candidate := FindNextWeekly(rule, anchor, after.value);
    } else {
      candidate := FindNextMonthly(rule, anchor, after.value);
    }
    match candidate {
      case Err(error) => return Err(error);
      case Ok(local) =>
        if rule.until.Some? && rule.until.value < local {
          return Ok(None);
        }
        return Ok(Some(local));
    }
  }
}
