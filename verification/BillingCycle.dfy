/** Billing cycles: calendar months from a settlement day, or fixed lengths from an anchor
    (hysteria/cycle.py). */
module BillingCycle {
  import opened Calendar
  import opened Wrappers

  const DEFAULT_DAY := 12
  const DEFAULT_LENGTH := 30
  const MIN_LENGTH := 1
  const MAX_LENGTH := 90

  /** Stored settings; a missing or unreadable one is `None`. */
  datatype Meta = Meta(settlementDay: Option<int>, cycleLength: Option<int>, anchor: Option<Date>)

  /** The arguments a caller may pass beside the date. */
  datatype Query = Query(day: Option<int>, length: Option<int>, anchor: Option<Date>, meta: Meta)

  function Clamp(v: Option<int>, default: int, low: int, high: int): int
    requires low <= default <= high
  {
    if v.None? then default else if v.value < low then low else if v.value > high then high else v.value
  }

  function ClampDay(v: Option<int>): int {
    Clamp(v, DEFAULT_DAY, 1, 28)
  }

  function CycleLength(q: Query): (length: int)
    ensures MIN_LENGTH <= length <= MAX_LENGTH
  {
    Clamp(q.length, Clamp(q.meta.cycleLength, DEFAULT_LENGTH, MIN_LENGTH, MAX_LENGTH), MIN_LENGTH, MAX_LENGTH)
  }

  function SettlementDay(q: Query): (day: int)
    ensures 1 <= day <= 28
  {
    if q.day.Some? then ClampDay(q.day) else ClampDay(q.meta.settlementDay)
  }

  function SettlementAnchor(today: Date, day: int): Date {
    if today.day >= day then today.(day := day) else DayBefore(today.(day := 1)).(day := day)
  }

  predicate CalendarMode(q: Query) {
    CycleLength(q) == DEFAULT_LENGTH && q.anchor.None?
  }

  function AnchorOf(q: Query, today: Date): Date {
    if q.anchor.Some? then q.anchor.value
    else if q.day.None? && q.meta.anchor.Some? then q.meta.anchor.value
    else SettlementAnchor(today, SettlementDay(q))
  }

  function CycleStart(q: Query, today: Date): Date {
    if CalendarMode(q) then SettlementAnchor(today, SettlementDay(q))
    else
      var anchor, length := AnchorOf(q, today), CycleLength(q);
      if !Leq(anchor, today) then anchor
      else
        var offset := Ordinal(today) - Ordinal(anchor);
        var whole := (offset / length) * length;
        if whole < 0 then anchor else AddDays(anchor, whole)
  }

  function NextCycleStart(q: Query, today: Date): Date {
    var start := CycleStart(q, today);
    if !CalendarMode(q) then AddDays(start, CycleLength(q))
    else AddDays(start.(day := 1), 32).(day := SettlementDay(q))
  }

  predicate ValidQuery(q: Query) {
    (q.anchor.Some? ==> ValidDate(q.anchor.value)) && (q.meta.anchor.Some? ==> ValidDate(q.meta.anchor.value))
  }

  /** A fixed-length cycle counted from an explicit or stored origin. */
  predicate FixedMode(q: Query) {
    !CalendarMode(q) && (q.anchor.Some? || (q.day.None? && q.meta.anchor.Some?))
  }

  // --------------------------------------------------------------- reading the settings

  function Distance(x: int, y: int): nat {
    if x >= y then x - y else y - x
  }

  /** The nearest value of a range. */
  ghost predicate Nearest(v: int, low: int, high: int, r: int) {
    low <= r <= high && forall x | low <= x <= high :: Distance(v, r) <= Distance(v, x)
  }

  /** The settlement day is the one asked for, else the stored one, else the 12th; a day
      outside 1 to 28 counts as the nearest. */
  lemma SettlementDayIsRead(q: Query)
    ensures var asked := if q.day.Some? then q.day else q.meta.settlementDay;
            if asked.None? then SettlementDay(q) == 12 else Nearest(asked.value, 1, 28, SettlementDay(q))
  {
  }

  /** The length likewise, with 30 days for none and the range 1 to 90. */
  lemma CycleLengthIsRead(q: Query)
    ensures var asked := if q.length.Some? then q.length else q.meta.cycleLength;
            if asked.None? then CycleLength(q) == 30 else Nearest(asked.value, 1, 90, CycleLength(q))
  {
  }

  /** A cycle follows the calendar exactly when it has 30 days and no explicit origin; a
      fixed one counts from the explicit origin, else from the stored one unless a day is
      asked for, else from the last settlement day. */
  lemma OriginIsRead(q: Query, today: Date)
    requires ValidDate(today)
    ensures CalendarMode(q) <==> CycleLength(q) == 30 && q.anchor.None?
    ensures var a := AnchorOf(q, today);
            && (q.anchor.Some? ==> Some(a) == q.anchor)
            && (q.anchor.None? && q.day.None? && q.meta.anchor.Some? ==> Some(a) == q.meta.anchor)
            && (q.anchor.None? && (q.day.Some? || q.meta.anchor.None?) ==>
                  a.day == SettlementDay(q) && Ordinal(a) <= Ordinal(today)
                  && MonthIndex(a) >= MonthIndex(today) - 1)
  {
    SettlementAnchorMeans(today, SettlementDay(q));
  }

  // ------------------------------------------------------------------- the boundaries

  /** `m` months after the first of month 1 of year 0. */
  function MonthIndex(d: Date): int {
    12 * d.year + d.month - 1
  }

  lemma SettlementAnchorMeans(today: Date, day: int)
    requires ValidDate(today) && 1 <= day <= 28
    ensures var s := SettlementAnchor(today, day);
            && ValidDate(s) && s.day == day && Ordinal(s) <= Ordinal(today)
            && MonthIndex(s) == MonthIndex(today) - (if today.day >= day then 0 else 1)
  {
    if today.day < day {
      var first := today.(day := 1);
      DayBeforeMeans(first);
      OrderIsOrdinal(SettlementAnchor(today, day), today);
    } else {
      OrderIsOrdinal(today.(day := day), today);
    }
  }

  /** Thirty-two days after the first of a month lies in the next month. */
  lemma NextMonth(first: Date)
    requires ValidDate(first) && first.day == 1
    ensures var n := AddDays(first, 32);
            ValidDate(n) && MonthIndex(n) == MonthIndex(first) + 1
  {
    hide DaysBeforeYear, AddDays;
    AddDaysMeans(first, 32);
    var n := if first.month < 12 then Date(first.year, first.month + 1, 33 - DaysIn(first.year, first.month))
             else Date(first.year + 1, 1, 2);
    assert Ordinal(n) == Ordinal(first) + 32 by {
      YearStep(first.year);
      MonthsMakeYear(first.year);
    }
    OrderIsOrdinal(n, AddDays(first, 32));
  }

  lemma MonthOrder(a: Date, b: Date)
    requires ValidDate(a) && ValidDate(b)
    ensures Ordinal(a) <= Ordinal(b) <==>
              MonthIndex(a) < MonthIndex(b) || (MonthIndex(a) == MonthIndex(b) && a.day <= b.day)
  {
    OrderIsOrdinal(a, b);
  }

  lemma CalendarBoundaries(q: Query, today: Date)
    requires ValidDate(today) && CalendarMode(q)
    ensures var s, n := CycleStart(q, today), NextCycleStart(q, today);
            && ValidDate(s) && ValidDate(n) && s.day == SettlementDay(q) && n.day == SettlementDay(q)
            && MonthIndex(n) == MonthIndex(s) + 1
            && MonthIndex(s) == MonthIndex(today) - (if today.day >= SettlementDay(q) then 0 else 1)
  {
    SettlementAnchorMeans(today, SettlementDay(q));
    NextMonth(CycleStart(q, today).(day := 1));
  }

  lemma FixedBoundaries(q: Query, today: Date)
    requires ValidDate(today) && ValidQuery(q) && !CalendarMode(q) && ValidDate(AnchorOf(q, today))
    ensures var s, n, a, l := CycleStart(q, today), NextCycleStart(q, today), AnchorOf(q, today), CycleLength(q);
            && ValidDate(s) && ValidDate(n) && Ordinal(n) == Ordinal(s) + l
            && (Ordinal(a) <= Ordinal(today) ==>
                  Ordinal(s) == Ordinal(a) + ((Ordinal(today) - Ordinal(a)) / l) * l)
            && (Ordinal(a) > Ordinal(today) ==> s == a)
  {
    var a, l := AnchorOf(q, today), CycleLength(q);
    OrderIsOrdinal(a, today);
    if Leq(a, today) {
      var offset := Ordinal(today) - Ordinal(a);
      WholeCycles(offset, l);
      AddDaysMeans(a, (offset / l) * l);
    }
    AddDaysMeans(CycleStart(q, today), l);
  }

  lemma WholeCycles(offset: int, l: int)
    requires offset >= 0 && l >= 1
    ensures 0 <= (offset / l) * l <= offset < (offset / l) * l + l
  {
    assert offset == (offset / l) * l + offset % l;
  }

  // ---------------------------------------------------------------------- theorems

  predicate Steady(q: Query, today: Date) {
    ValidDate(today) && ValidQuery(q) && (CalendarMode(q) || (FixedMode(q)
        && Ordinal(AnchorOf(q, today)) <= Ordinal(today)))
  }

  /** Today lies in its cycle. */
  lemma CycleHoldsToday(q: Query, today: Date)
    requires Steady(q, today)
    ensures Ordinal(CycleStart(q, today)) <= Ordinal(today) < Ordinal(NextCycleStart(q, today))
  {
    if CalendarMode(q) {
      CalendarBoundaries(q, today);
      MonthOrder(CycleStart(q, today), today);
      MonthOrder(NextCycleStart(q, today), today);
    } else {
      FixedBoundaries(q, today);
      WholeCycles(Ordinal(today) - Ordinal(AnchorOf(q, today)), CycleLength(q));
    }
  }

  /** Cycles partition the days: another day has the same boundaries exactly when it lies
      between them. */
  lemma CyclesPartition(q: Query, today: Date, other: Date)
    requires Steady(q, today) && Steady(q, other)
    ensures Ordinal(CycleStart(q, today)) <= Ordinal(other) < Ordinal(NextCycleStart(q, today)) <==>
              CycleStart(q, other) == CycleStart(q, today)
    ensures CycleStart(q, other) == CycleStart(q, today) ==> NextCycleStart(q, other) == NextCycleStart(q, today)
  {
    CycleHoldsToday(q, other);
    if Ordinal(CycleStart(q, today)) <= Ordinal(other) < Ordinal(NextCycleStart(q, today)) {
      if CalendarMode(q) {
        SameMonthlyCycle(q, today, other);
      } else {
        SameFixedCycle(q, today, other);
      }
    }
  }

  lemma SameMonthlyCycle(q: Query, today: Date, other: Date)
    requires ValidDate(today) && ValidDate(other) && CalendarMode(q)
    requires Ordinal(CycleStart(q, today)) <= Ordinal(other) < Ordinal(NextCycleStart(q, today))
    ensures CycleStart(q, other) == CycleStart(q, today)
  {
    hide CycleStart, NextCycleStart, Ordinal, DaysIn, SettlementAnchor, SettlementDay, CalendarMode;
    CalendarBoundaries(q, today);
    CalendarBoundaries(q, other);
    MonthOrder(CycleStart(q, today), other);
    MonthOrder(NextCycleStart(q, today), other);
    var s, t := CycleStart(q, other), CycleStart(q, today);
    assert MonthIndex(s) == MonthIndex(t);
  }

  lemma SameFixedCycle(q: Query, today: Date, other: Date)
    requires Steady(q, today) && Steady(q, other) && FixedMode(q)
    requires Ordinal(CycleStart(q, today)) <= Ordinal(other) < Ordinal(NextCycleStart(q, today))
    ensures CycleStart(q, other) == CycleStart(q, today)
  {
    FixedBoundaries(q, today);
    FixedBoundaries(q, other);
    var a, l := Ordinal(AnchorOf(q, today)), CycleLength(q);
    SameQuotient(Ordinal(other) - a, (Ordinal(today) - a) / l, l);
    OrderIsOrdinal(CycleStart(q, other), CycleStart(q, today));
  }

  lemma Multiples(a: int, b: int, l: int)
    requires a <= b && l >= 1
    ensures a * l <= b * l && (a + 1) * l == a * l + l
  {
  }

  lemma SameQuotient(x: int, k: int, l: int)
    requires l >= 1 && k * l <= x < k * l + l
    ensures x / l == k
  {
    var m := x / l;
    assert x == m * l + x % l;
    if m < k {
      Multiples(m + 1, k, l);
    } else if k < m {
      Multiples(k + 1, m, l);
    }
    Multiples(m, m + 1, l);
    Multiples(k, k + 1, l);
  }

  /** The next start is the first day of its own cycle. */
  lemma NextStartBegins(q: Query, today: Date)
    requires Steady(q, today)
    ensures Steady(q, NextCycleStart(q, today))
    ensures CycleStart(q, NextCycleStart(q, today)) == NextCycleStart(q, today)
  {
    if CalendarMode(q) {
      NextMonthBegins(q, today);
    } else {
      NextFixedBegins(q, today);
    }
  }

  lemma NextMonthBegins(q: Query, today: Date)
    requires ValidDate(today) && CalendarMode(q)
    ensures ValidDate(NextCycleStart(q, today))
    ensures CycleStart(q, NextCycleStart(q, today)) == NextCycleStart(q, today)
  {
    hide CycleStart, NextCycleStart, DaysIn, SettlementAnchor;
    CalendarBoundaries(q, today);
    CalendarBoundaries(q, NextCycleStart(q, today));
  }

  lemma NextFixedBegins(q: Query, today: Date)
    requires Steady(q, today) && FixedMode(q)
    ensures Steady(q, NextCycleStart(q, today))
    ensures CycleStart(q, NextCycleStart(q, today)) == NextCycleStart(q, today)
  {
    hide CycleStart, NextCycleStart, Ordinal, DaysIn, SettlementAnchor, CycleLength, ValidDate;
    var n := NextCycleStart(q, today);
    FixedBoundaries(q, today);
    NextWhole(Ordinal(today) - Ordinal(AnchorOf(q, today)), CycleLength(q));
    FixedBoundaries(q, n);
    OrderIsOrdinal(CycleStart(q, n), n);
  }

  lemma NextWhole(x: int, l: int)
    requires x >= 0 && l >= 1
    ensures var y := (x / l) * l + l; y > 0 && (y / l) * l == y
  {
    var k := x / l;
    WholeCycles(x, l);
    assert (k + 1) * l == k * l + l;
    SameQuotient((k + 1) * l, k + 1, l);
  }

  /** A fixed cycle has begun exactly when its anchor is not in the future. */
  lemma FixedCycleBegunExactly(q: Query, today: Date)
    requires ValidDate(today) && ValidQuery(q) && FixedMode(q)
    ensures Ordinal(CycleStart(q, today)) <= Ordinal(today) <==> Ordinal(AnchorOf(q, today)) <= Ordinal(today)
  {
    FixedBoundaries(q, today);
    if Ordinal(AnchorOf(q, today)) <= Ordinal(today) {
      WholeCycles(Ordinal(today) - Ordinal(AnchorOf(q, today)), CycleLength(q));
    }
  }

  // -------------------------------------------------------------- unanchored cycles

  /** The other day has the same boundaries exactly when it lies between them. */
  predicate PartitionAt(q: Query, today: Date, other: Date) {
    Ordinal(CycleStart(q, today)) <= Ordinal(other) < Ordinal(NextCycleStart(q, today)) <==>
      CycleStart(q, other) == CycleStart(q, today)
  }

  ghost predicate Partitions(q: Query) {
    forall today, other :: ValidDate(today) && ValidDate(other) ==> PartitionAt(q, today, other)
  }

  /** A fixed length without an origin of its own counts from the last settlement day. */
  predicate Unanchored(q: Query) {
    ValidQuery(q) && !CalendarMode(q) && !FixedMode(q)
  }

  lemma OneDayCycles(q: Query, today: Date)
    requires Unanchored(q) && ValidDate(today) && CycleLength(q) == 1
    ensures ValidDate(CycleStart(q, today)) && CycleStart(q, today) == today
    ensures Ordinal(NextCycleStart(q, today)) == Ordinal(today) + 1
  {
    SettlementAnchorMeans(today, SettlementDay(q));
    FixedBoundaries(q, today);
    OrderIsOrdinal(CycleStart(q, today), today);
  }

  lemma DayBeforeSettles(s: Date, next: Date, day: int)
    requires ValidDate(s) && ValidDate(next) && s.day == day && next.day == day && 1 <= day <= 28
    requires MonthIndex(next) == MonthIndex(s) + 1
    ensures ValidDate(DayBefore(next)) && SettlementAnchor(DayBefore(next), day) == s
  {
    DayBeforeMeans(next);
    SettlementAnchorMeans(DayBefore(next), day);
  }

  /** A length that does not divide the month before a settlement day: the last cycle of
      that month reaches into the next. */
  lemma CyclesOverlap(q: Query, s: Date, next: Date)
    requires Unanchored(q) && ValidDate(s) && ValidDate(next) && s.day == SettlementDay(q) && next.day == s.day
    requires MonthIndex(next) == MonthIndex(s) + 1
    requires Ordinal(next) > Ordinal(s) && (Ordinal(next) - Ordinal(s)) % CycleLength(q) != 0
    ensures !PartitionAt(q, DayBefore(next), next)
  {
    hide CycleStart, NextCycleStart, Ordinal, DaysIn, SettlementAnchor, CycleLength, ValidDate, DayBefore;
    var last, l, month := DayBefore(next), CycleLength(q), Ordinal(next) - Ordinal(s);
    DayBeforeMeans(next);
    DayBeforeSettles(s, next, SettlementDay(q));
    SettlesItself(next);
    FixedBoundaries(q, last);
    FixedBoundaries(q, next);
    WholeCycles(month - 1, l);
    NotWhole(month, (month - 1) / l, l);
    assert (0 / l) * l == 0 by {
      WholeCycles(0, l);
    }
  }

  lemma SettlesItself(d: Date)
    ensures SettlementAnchor(d, d.day) == d
  {
  }

  lemma NotWhole(x: int, k: int, l: int)
    requires l >= 1 && x % l != 0 && x <= k * l + l
    ensures x < k * l + l
  {
    SameQuotient(k * l + l, k + 1, l);
    Multiples(k, k + 1, l);
  }

  /** Without an origin, fixed cycles start over at every settlement day: they partition
      the days if and only if they are one day long. */
  lemma UnanchoredPartitionExactly(q: Query)
    requires Unanchored(q)
    ensures Partitions(q) <==> CycleLength(q) == 1
  {
    var day, l := SettlementDay(q), CycleLength(q);
    if l == 1 {
      forall today, other | ValidDate(today) && ValidDate(other) ensures PartitionAt(q, today, other) {
        OneDayCycles(q, today);
        OneDayCycles(q, other);
        OrderIsOrdinal(today, other);
      }
    } else {
      hide CycleStart, NextCycleStart, CycleLength, SettlementDay;
      if 31 % l != 0 {
        assert DaysBeforeMonth(2025, 2) == 31 && DaysBeforeMonth(2025, 1) == 0;
        CyclesOverlap(q, Date(2025, 1, day), Date(2025, 2, day));
        DayBeforeMeans(Date(2025, 2, day));
      } else {
        ThirtyOneOrThirty(l);
        assert DaysBeforeMonth(2025, 5) == DaysBeforeMonth(2025, 4) + 30;
        CyclesOverlap(q, Date(2025, 4, day), Date(2025, 5, day));
        DayBeforeMeans(Date(2025, 5, day));
      }
    }
  }

  lemma ThirtyOneOrThirty(l: int)
    requires l >= 2 && 31 % l == 0
    ensures 30 % l != 0
  {
    var k, m := 31 / l, 30 / l;
    assert 31 == k * l && 30 == m * l + 30 % l;
    Product(k - m, l);
    assert k * l - m * l == (k - m) * l;
  }

  lemma Product(d: int, l: int)
    requires l >= 2
    ensures d * l != 1
  {
    if d >= 1 {
      Multiples(1, d, l);
    } else {
      Multiples(d, 0, l);
    }
  }

  // ------------------------------------------------------------------- cycle_days

  /** The days from `start` on, `n` of them. */
  function Days(start: Date, n: nat): (s: seq<Date>)
    ensures |s| == n
  {
    if n == 0 then [] else Days(start, n - 1) + [AddDays(start, n - 1)]
  }

  method CycleDays(q: Query, today: Date) returns (out: seq<Date>)
    requires ValidDate(today) && ValidQuery(q) && (CalendarMode(q) || ValidDate(AnchorOf(q, today)))
    ensures Steady(q, today) ==>
      Ordinal(CycleStart(q, today)) <= Ordinal(today) &&
      out == Days(CycleStart(q, today), Ordinal(today) - Ordinal(CycleStart(q, today)) + 1)
    ensures FixedMode(q) && !Steady(q, today) ==> out == []
  {
    hide CycleStart, NextCycleStart, Ordinal, DayBefore, DayAfter, Leq, ValidDate;
    var start, next := CycleStart(q, today), NextCycleStart(q, today);
    if CalendarMode(q) {
      CalendarBoundaries(q, today);
    } else {
      FixedBoundaries(q, today);
    }
    DayBeforeMeans(next);
    var end := if Leq(DayBefore(next), today) then DayBefore(next) else today;
    OrderIsOrdinal(DayBefore(next), today);
    out := [];
    var cur := start;
    OrderIsOrdinal(cur, end);
    while Leq(cur, end)
      invariant ValidDate(cur) && cur == AddDays(start, |out|) && out == Days(start, |out|)
      invariant Ordinal(cur) == Ordinal(start) + |out|
      invariant Leq(cur, end) <==> Ordinal(cur) <= Ordinal(end)
      invariant Ordinal(start) <= Ordinal(end) ==> Ordinal(cur) <= Ordinal(end) + 1
      invariant Ordinal(start) > Ordinal(end) ==> out == []
      decreases Ordinal(end) - Ordinal(cur)
    {
      AddDaysOneMore(start, |out|);
      DayAfterMeans(cur);
      out := out + [cur];
      cur := DayAfter(cur);
      OrderIsOrdinal(cur, end);
    }
    if Steady(q, today) {
      CycleHoldsToday(q, today);
    }
  }

  lemma {:induction false} AddDaysOneMore(d: Date, n: nat)
    ensures AddDays(d, n + 1) == DayAfter(AddDays(d, n))
    decreases n
  {
    if n > 0 {
      AddDaysOneMore(DayAfter(d), n - 1);
    }
  }
}
