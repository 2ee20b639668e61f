/** The effective date of a billing-cycle-day (BCD) change: on which local date a
    new BCD takes effect, given the date it is requested from. */
module BillCycleDay {
  import opened Outcomes
  import opened Calendar

  /** Where a BCD change lands: immediately (the call context's creation time) or
      on a local date, which the caller converts to the account's time zone. */
  datatype BcdEffective = Immediate | On(date: Date)

  /** The day of month on which `bcd` falls in month `m` of year `y`: the BCD
      itself, or the last day of the month when the month is shorter. */
  function ClampedDay(bcd: int, y: int, m: int): int
    requires 1 <= m <= 12
  {
    if bcd <= DaysInMonth(y, m) then bcd else DaysInMonth(y, m)
  }

  /** `d` is a billing day for `bcd`. */
  predicate FallsOnBcd(d: Date, bcd: int)
    requires 1 <= d.month <= 12
  {
    d.day == ClampedDay(bcd, d.year, d.month)
  }

  /** The date the change is requested from: the explicit date, else today as
      seen by the account. */
  function StartDate(effectiveFrom: Option<Date>, today: Date): Date
  {
    if effectiveFrom.Some? then effectiveFrom.value else today
  }

  /** `getEffectiveDateForNewBCD(bcd, effectiveFromDate, context)`. `today` is the
      context's creation time as a local date of the account and `hasAccountRecord`
      says whether the context carries an account record id. */
  function EffectiveDateForNewBcd(bcd: int, effectiveFrom: Option<Date>, today: Date, hasAccountRecord: bool)
    : (r: Result<BcdEffective>)
    requires Valid(today)
    requires effectiveFrom.Some? ==> Valid(effectiveFrom.value)
    ensures !hasAccountRecord ==> r == Err(MissingAccountRecordId)
    ensures hasAccountRecord && bcd < 1 ==> r == Err(IllegalDayOfMonth)
    ensures r.Err? ==> !hasAccountRecord || bcd < 1
    // equal to today's day and no explicit date: immediate, and only then
    ensures r == Ok(Immediate) <==> hasAccountRecord && effectiveFrom.None? && bcd == today.day
    // an explicit date equal to the BCD is taken as is
    ensures hasAccountRecord && effectiveFrom.Some? && bcd == effectiveFrom.value.day
            ==> r == Ok(On(effectiveFrom.value))
    // a BCD before the start day: next month (December wraps), clamped
    ensures r.Ok? && r.value.On? && bcd < StartDate(effectiveFrom, today).day ==>
              var s := StartDate(effectiveFrom, today);
              (r.value.date.year, r.value.date.month) == NextMonth(s.year, s.month)
              && r.value.date.day == ClampedDay(bcd, r.value.date.year, r.value.date.month)
    // a BCD after the start day: the same month, clamped
    ensures r.Ok? && r.value.On? && bcd > StartDate(effectiveFrom, today).day ==>
              var s := StartDate(effectiveFrom, today);
              r.value.date == Date(s.year, s.month, ClampedDay(bcd, s.year, s.month))
    // every scheduled date exists, is a billing day for the BCD and is not before the start
    ensures r.Ok? && r.value.On? ==>
              Valid(r.value.date)
              && FallsOnBcd(r.value.date, bcd)
              && NotAfter(StartDate(effectiveFrom, today), r.value.date)
  {
    if !hasAccountRecord then Err(MissingAccountRecordId)
    else
      var start := StartDate(effectiveFrom, today);
      var currentDay := start.day;
      var lastDayOfMonth := DaysInMonth(start.year, start.month);
      if bcd < currentDay then
        var plusOne := PlusOneMonth(start);
        var lastDayOfNextMonth := DaysInMonth(plusOne.year, plusOne.month);
        var day := if bcd <= lastDayOfNextMonth then bcd else lastDayOfNextMonth;
        if day < 1 then Err(IllegalDayOfMonth)
        else Ok(On(Date(plusOne.year, plusOne.month, day)))
      else if bcd == currentDay && effectiveFrom.None? then
        Ok(Immediate)
      else if bcd <= lastDayOfMonth then
        Ok(On(Date(start.year, start.month, bcd)))
      else
        Ok(On(Date(start.year, start.month, lastDayOfMonth)))
  }

  /** The scheduled date is the FIRST billing day for the BCD on or after the
      start date: no valid date between the start and it falls on the BCD. */
  lemma ScheduledDateIsEarliest(bcd: int, effectiveFrom: Option<Date>, today: Date, e: Date)
    requires Valid(today)
    requires effectiveFrom.Some? ==> Valid(effectiveFrom.value)
    requires EffectiveDateForNewBcd(bcd, effectiveFrom, today, true).Ok?
    requires EffectiveDateForNewBcd(bcd, effectiveFrom, today, true).value.On?
    requires Valid(e)
    requires NotAfter(StartDate(effectiveFrom, today), e)
    requires Before(e, EffectiveDateForNewBcd(bcd, effectiveFrom, today, true).value.date)
    ensures !FallsOnBcd(e, bcd)
  {
  }

  /** Immediate effect happens only when today is already a billing day for the
      BCD and no date was given. The converse fails at the end of a short month;
      see `EndOfMonthSchedulesToday`. */
  lemma ImmediateOnlyOnBillingDay(bcd: int, today: Date)
    requires Valid(today)
    requires EffectiveDateForNewBcd(bcd, None, today, true) == Ok(Immediate)
    ensures FallsOnBcd(today, bcd)
  {
  }

  /** On the last day of a month, a larger BCD falls on today, yet the change is
      scheduled on today's date rather than taking effect immediately: only a BCD
      equal to today's day of month takes the immediate branch. */
  lemma EndOfMonthSchedulesToday(bcd: int, today: Date)
    requires Valid(today)
    requires today.day == DaysInMonth(today.year, today.month) < bcd
    ensures FallsOnBcd(today, bcd)
    ensures EffectiveDateForNewBcd(bcd, None, today, true) == Ok(On(today))
  {
  }

  /** A scheduled date is a fixed point: requesting the same BCD from that date
      schedules it on that very date. */
  lemma ScheduledDateIsFixedPoint(bcd: int, effectiveFrom: Option<Date>, today: Date)
    requires Valid(today)
    requires effectiveFrom.Some? ==> Valid(effectiveFrom.value)
    requires EffectiveDateForNewBcd(bcd, effectiveFrom, today, true).Ok?
    requires EffectiveDateForNewBcd(bcd, effectiveFrom, today, true).value.On?
    ensures var d := EffectiveDateForNewBcd(bcd, effectiveFrom, today, true).value.date;
            EffectiveDateForNewBcd(bcd, Some(d), today, true) == Ok(On(d))
  {
  }

  /** Worked examples: month-end clamping (leap and common years), the year wrap,
      the immediate case, and a BCD of 30 requested with no date on February 28. */
  lemma Examples()
    ensures EffectiveDateForNewBcd(31, Some(Date(2023, 2, 15)), Date(2023, 1, 1), true) == Ok(On(Date(2023, 2, 28)))
    ensures EffectiveDateForNewBcd(31, Some(Date(2024, 2, 15)), Date(2023, 1, 1), true) == Ok(On(Date(2024, 2, 29)))
    ensures EffectiveDateForNewBcd(10, Some(Date(2023, 12, 15)), Date(2023, 1, 1), true) == Ok(On(Date(2024, 1, 10)))
    ensures EffectiveDateForNewBcd(31, Some(Date(2023, 3, 31)), Date(2023, 1, 1), true) == Ok(On(Date(2023, 3, 31)))
    ensures EffectiveDateForNewBcd(30, Some(Date(2023, 1, 31)), Date(2023, 1, 1), true) == Ok(On(Date(2023, 2, 28)))
    ensures EffectiveDateForNewBcd(10, None, Date(2023, 6, 10), true) == Ok(Immediate)
    ensures EffectiveDateForNewBcd(30, None, Date(2023, 2, 28), true) == Ok(On(Date(2023, 2, 28)))
  {
  }
}
