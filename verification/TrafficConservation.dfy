/** What refreshing and resetting do to the displayed totals. */
module TrafficConservation {
  import opened OrderedTable
  import opened TrafficLedger
  import opened Wrappers

  const NOTHING: Entry := Record(0, 0, Some(0))

  /** The days of `days` that `zeroed` lacks. */
  function Outside(days: seq<Day>, zeroed: seq<Day>): seq<Day> {
    if days == [] then []
    else
      Outside(days[..|days| - 1], zeroed) + (if days[|days| - 1] in zeroed then [] else [days[|days| - 1]])
  }

  lemma {:induction false} NoneOutside(days: seq<Day>, zeroed: seq<Day>)
    requires forall d :: d in days ==> d in zeroed
    ensures Outside(days, zeroed) == []
  {
    if days != [] {
      NoneOutside(days[..|days| - 1], zeroed);
    }
  }

  lemma OneMoreDay(daily: map<Day, Usage>, days: seq<Day>, d: Day, u: User)
    ensures CycleRaw(daily, days + [d], u) == Counted(CycleRaw(daily, days, u), Found(daily, d, u))
  {
    assert (days + [d])[..|days|] == days;
  }

  lemma ZeroedFound(daily: map<Day, Usage>, zeroed: seq<Day>, users: set<User>, d: Day, u: User, r: Reading)
    ensures Counted(r, Found(ZeroedDaily(daily, zeroed, users), d, u))
            == if u in users && d in zeroed then r else Counted(r, Found(daily, d, u))
  {
  }

  /** After zeroing, only the days outside count for the zeroed users. */
  lemma {:induction false} ZeroedReading(daily: map<Day, Usage>, zeroed: seq<Day>, days: seq<Day>,
      users: set<User>, u: User)
    ensures CycleRaw(ZeroedDaily(daily, zeroed, users), days, u)
            == CycleRaw(daily, if u in users then Outside(days, zeroed) else days, u)
    decreases |days|
  {
    if days != [] {
      var front, last := days[..|days| - 1], days[|days| - 1];
      assert days == front + [last];
      ZeroedReading(daily, zeroed, front, users, u);
      ReadingWithDay(daily, zeroed, front, users, last, u);
    }
  }

  lemma ReadingWithDay(daily: map<Day, Usage>, zeroed: seq<Day>, front: seq<Day>, users: set<User>, last: Day, u: User)
    requires CycleRaw(ZeroedDaily(daily, zeroed, users), front, u)
             == CycleRaw(daily, if u in users then Outside(front, zeroed) else front, u)
    ensures CycleRaw(ZeroedDaily(daily, zeroed, users), front + [last], u)
            == CycleRaw(daily, if u in users then Outside(front + [last], zeroed) else front + [last], u)
  {
    hide CycleRaw, ZeroedDaily, Counted, Found;
    OneMoreDay(ZeroedDaily(daily, zeroed, users), front, last, u);
    ZeroedFound(daily, zeroed, users, last, u, CycleRaw(ZeroedDaily(daily, zeroed, users), front, u));
    if u in users {
      OutsideOneMore(front, zeroed, last);
      if last !in zeroed {
        OneMoreDay(daily, Outside(front, zeroed), last, u);
      }
    } else {
      OneMoreDay(daily, front, last, u);
    }
  }

  lemma OutsideOneMore(front: seq<Day>, zeroed: seq<Day>, last: Day)
    ensures Outside(front + [last], zeroed) == if last in zeroed then Outside(front, zeroed)
        else Outside(front, zeroed) + [last]
  {
    assert (front + [last])[..|front|] == front;
  }

  lemma {:induction false} OthersTotal(daily: map<Day, Usage>, zeroed: seq<Day>, days: seq<Day>, users: set<User>,
      people: seq<User>)
    requires forall v :: v in people ==> v !in users
    ensures CycleTotal(ZeroedDaily(daily, zeroed, users), days, people) == CycleTotal(daily, days, people)
  {
    if people != [] {
      ZeroedReading(daily, zeroed, days, users, people[0]);
      OthersTotal(daily, zeroed, days, users, people[1..]);
    }
  }

  lemma {:induction false} TotalWithout(daily: map<Day, Usage>, zeroed: seq<Day>, days: seq<Day>, u: User,
      people: seq<User>)
    requires Distinct(people) && u in people
    ensures CycleTotal(ZeroedDaily(daily, zeroed, {u}), days, people) + CycleRaw(daily, days, u).total
            == CycleTotal(daily, days, people) + CycleRaw(daily, Outside(days, zeroed), u).total
  {
    ZeroedReading(daily, zeroed, days, {u}, people[0]);
    if people[0] == u {
      assert u !in people[1..];
      OthersTotal(daily, zeroed, days, {u}, people[1..]);
    } else {
      TotalWithout(daily, zeroed, days, u, people[1..]);
    }
  }

  lemma PreservedGrows(preserved: map<CycleKey, Usage>, key: CycleKey, u: User, r: Reading)
    ensures PreservedSum(Bucket(Preserving(preserved, key, u, r), key))
        == PreservedSum(Bucket(preserved, key)) + r.total
  {
    var before, after := Bucket(preserved, key), Bucket(Preserving(preserved, key, u, r), key);
    if r.total > 0 {
      PreservedSumSplits(after, u);
      assert after - {u} == before - {u};
      if u in before {
        PreservedSumSplits(before, u);
      } else {
        assert before - {u} == before;
      }
    }
  }

  /** Refreshing a user conserves the displayed cycle total; resetting lowers it by exactly
      the user's cycle bytes. */
  lemma RefreshConserves(b: Books, c: Cycle, people: seq<User>, u: User)
    requires Distinct(people) && u in people
    ensures Displayed(Mutated(b, c, u, true), c, people) == Displayed(b, c, people)
    ensures Displayed(Mutated(b, c, u, false), c, people) + CycleRaw(b.daily, c.days, u).total
        == Displayed(b, c, people)
  {
    NoneOutside(c.days, c.days);
    TotalWithout(b.daily, c.days, c.days, u, people);
    PreservedGrows(b.preserved, c.key, u, CycleRaw(b.daily, c.days, u));
  }

  /** A refresh cut short by a crash between its saves shows at least the conserved total:
      bytes may count twice until the daily file is saved, but none is lost. */
  lemma InterruptedRefreshLosesNothing(b: Books, c: Cycle, people: seq<User>, u: User, n: nat)
    requires Distinct(people) && u in people && n <= 4
    ensures Displayed(MutatedUpTo(b, c, u, true, n), c, people)
            == Displayed(b, c, people) + (if 1 <= n <= 2 then CycleRaw(b.daily, c.days, u).total else 0)
  {
    NoneOutside(c.days, c.days);
    TotalWithout(b.daily, c.days, c.days, u, people);
    PreservedGrows(b.preserved, c.key, u, CycleRaw(b.daily, c.days, u));
  }

  /** The user reads zero afterwards, in every file. */
  lemma UserReadsZero(b: Books, c: Cycle, u: User, preserve: bool)
    ensures var n := Mutated(b, c, u, preserve);
            && CycleRaw(n.daily, c.days, u) == Reading(0, 0, 0)
            && (forall h :: h in n.hourly && h.n >= c.firstHour.n && u in n.hourly[h] ==> n.hourly[h][u] == Zero())
            && c.month in n.usage && u in n.usage[c.month] && n.usage[c.month][u] == Zero()
  {
    NoneOutside(c.days, c.days);
    ZeroedReading(b.daily, c.days, c.days, {u}, u);
  }

  ghost predicate SameFor(v: User, m: map<Stamp, Usage>, n: map<Stamp, Usage>) {
    forall k :: k in m ==> k in n && (v in m[k] <==> v in n[k]) && (v in m[k] ==> m[k][v] == n[k][v])
  }

  lemma OthersDaily(b: Books, c: Cycle, u: User, v: User, preserve: bool)
    requires v != u
    ensures var n := Mutated(b, c, u, preserve);
            && n.daily.Keys == b.daily.Keys && SameFor(v, b.daily, n.daily)
            && (forall d :: d in b.daily && d !in c.days ==> n.daily[d] == b.daily[d])
  {
    hide Preserving, ZeroedUsage, ZeroedHourly, CycleRaw;
  }

  lemma OthersHourly(b: Books, c: Cycle, u: User, v: User, preserve: bool)
    requires v != u
    ensures var n := Mutated(b, c, u, preserve);
            && n.hourly.Keys == b.hourly.Keys && SameFor(v, b.hourly, n.hourly)
            && (forall h :: h in b.hourly && h.n < c.firstHour.n ==> n.hourly[h] == b.hourly[h])
  {
    hide Preserving, ZeroedUsage, ZeroedDaily, CycleRaw;
  }

  /** A month the user lacks, or of nobody yet, gains the user's zero and nothing else. */
  lemma OthersMonthly(usage: map<Month, Usage>, month: Month, users: set<User>, v: User)
    requires v !in users
    ensures var n := ZeroedUsage(usage, month, users);
            && n.Keys == usage.Keys + {month}
            && (forall m :: m in usage && m != month ==> n[m] == usage[m])
            && (forall m :: m in usage ==> (v in n[m] <==> v in usage[m]) && (v in usage[m] ==> n[m][v] == usage[m][v]))
            && (month !in usage ==> v !in n[month])
  {
  }

  lemma OthersPreserved(preserved: map<CycleKey, Usage>, key: CycleKey, u: User, r: Reading, v: User)
    requires v != u
    ensures var n := Preserving(preserved, key, u, r);
            && (forall k :: k in preserved && k.n > key.n ==> k in n && n[k] == preserved[k])
            && (v in Bucket(n, key) <==> v in Bucket(preserved, key))
            && (v in Bucket(preserved, key) ==> Bucket(n, key)[v] == Bucket(preserved, key)[v])
  {
  }

  /** Nobody else's entry changes in any file, and nothing outside the cycle does; of the
      preserved buckets only those of earlier cycles are dropped. */
  lemma OthersUntouched(b: Books, c: Cycle, u: User, v: User, preserve: bool)
    requires v != u
    ensures var n := Mutated(b, c, u, preserve);
            && n.daily.Keys == b.daily.Keys && n.hourly.Keys == b.hourly.Keys
            && SameFor(v, b.daily, n.daily) && SameFor(v, b.hourly, n.hourly)
            && CycleRaw(n.daily, c.days, v) == CycleRaw(b.daily, c.days, v)
            && (forall d :: d in b.daily && d !in c.days ==> n.daily[d] == b.daily[d])
            && (forall h :: h in b.hourly && h.n < c.firstHour.n ==> n.hourly[h] == b.hourly[h])
            && (forall k :: k in b.preserved && k.n > c.key.n ==> k in n.preserved && n.preserved[k] == b.preserved[k])
            && (v in Bucket(n.preserved, c.key) <==> v in Bucket(b.preserved, c.key))
            && (v in Bucket(b.preserved, c.key) ==> Bucket(n.preserved, c.key)[v] == Bucket(b.preserved, c.key)[v])
            && n.usage.Keys == b.usage.Keys + {c.month}
            && (forall m :: m in b.usage && m != c.month ==> n.usage[m] == b.usage[m])
            && (forall m :: m in b.usage ==>
                  (v in n.usage[m] <==> v in b.usage[m]) && (v in b.usage[m] ==> n.usage[m][v] == b.usage[m][v]))
            && (c.month !in b.usage ==> v !in n.usage[c.month])
  {
    OthersMonthly(b.usage, c.month, {u}, v);
    hide Preserving, ZeroedUsage, ZeroedDaily, ZeroedHourly, CycleRaw, SameFor, Bucket;
    OthersDaily(b, c, u, v, preserve);
    OthersHourly(b, c, u, v, preserve);
    OthersPreserved(b.preserved, c.key, u, CycleRaw(b.daily, c.days, u), v);
    ZeroedReading(b.daily, c.days, c.days, {u}, v);
  }

  /** The four saves in their order, each of one file: the preserved bytes, then the month,
      the days and the hours. */
  lemma SavesInOrder(b: Books, c: Cycle, u: User, preserve: bool)
    ensures var all := Mutated(b, c, u, preserve);
            && MutatedUpTo(b, c, u, preserve, 0) == b
            && MutatedUpTo(b, c, u, preserve, 1) == b.(preserved := all.preserved)
            && MutatedUpTo(b, c, u, preserve, 2) == b.(preserved := all.preserved, usage := all.usage)
            && MutatedUpTo(b, c, u, preserve, 3) == all.(hourly := b.hourly)
            && MutatedUpTo(b, c, u, preserve, 4) == all
  {
    hide ZeroedDaily, ZeroedHourly, ZeroedUsage, Preserving, CycleRaw;
  }

  // --------------------------------------------------------------- what is preserved

  /** A refresh adds the user's reading, direction by direction, to what was preserved for
      the user under the cycle, drops the buckets of earlier cycles, and with nothing to
      add leaves the preserved file alone, as a reset does. */
  lemma PreservedMeans(b: Books, c: Cycle, u: User)
    ensures var n, r := Mutated(b, c, u, true).preserved, CycleRaw(b.daily, c.days, u);
            var was := Found(b.preserved, c.key, u);
            && (r.total == 0 ==> n == b.preserved)
            && (r.total > 0 ==>
                  && c.key in n && u in n[c.key] && n[c.key][u].Record? && n[c.key][u].total.Some?
                  && n[c.key][u].tx == r.tx + (if was.Record? then was.tx else 0)
                  && n[c.key][u].rx == r.rx + (if was.Record? then was.rx else 0)
                  && n[c.key][u].total.value == r.total + PreservedBytes(was)
                  && (forall k :: k in n <==> k == c.key || (k in b.preserved && k.n >= c.key.n)))
    ensures Mutated(b, c, u, false).preserved == b.preserved
  {
    hide CycleRaw, ZeroedDaily, ZeroedHourly, ZeroedUsage;
  }

  /** The user's own entries turn to zero inside the cycle and stay as they are outside it,
      and no file but the month's gains one. */
  lemma OwnEntries(b: Books, c: Cycle, u: User, preserve: bool)
    ensures var n := Mutated(b, c, u, preserve);
            && (forall d :: d in b.daily ==> d in n.daily && (u in n.daily[d] <==> u in b.daily[d]))
            && (forall d :: d in b.daily && d in c.days && u in b.daily[d] ==> n.daily[d][u] == NOTHING)
            && (forall h :: h in b.hourly ==> h in n.hourly && (u in n.hourly[h] <==> u in b.hourly[h]))
            && (forall h :: h in b.hourly && u in b.hourly[h] ==>
                  n.hourly[h][u] == if h.n >= c.firstHour.n then NOTHING else b.hourly[h][u])
            && c.month in n.usage && u in n.usage[c.month] && n.usage[c.month][u] == NOTHING
  {
    hide Preserving, CycleRaw;
  }

  // -------------------------------------------------------------------- reset of all

  lemma ResetDaily(b: Books, c: Cycle, users: set<User>, v: User)
    ensures var n := ResetBooks(b, c, users);
            && n.daily.Keys == b.daily.Keys
            && (v !in users ==> SameFor(v, b.daily, n.daily))
            && (forall d :: d in b.daily && d !in c.days ==> n.daily[d] == b.daily[d])
            && (v in users ==> forall d :: d in b.daily ==>
                  && (v in n.daily[d] <==> v in b.daily[d])
                  && (d in c.days && v in b.daily[d] ==> n.daily[d][v] == NOTHING))
  {
  }

  lemma ResetHourly(b: Books, c: Cycle, users: set<User>, v: User)
    ensures var n := ResetBooks(b, c, users);
            && n.hourly.Keys == b.hourly.Keys
            && (v !in users ==> SameFor(v, b.hourly, n.hourly))
            && (forall h :: h in b.hourly && h.n < c.firstHour.n ==> n.hourly[h] == b.hourly[h])
            && (v in users ==> forall h :: h in b.hourly ==>
                  && (v in n.hourly[h] <==> v in b.hourly[h])
                  && (h.n >= c.firstHour.n && v in b.hourly[h] ==> n.hourly[h][v] == NOTHING))
  {
  }

  /** A reset of all zeroes every listed user inside the cycle, in every file, and leaves
      everybody else, everything outside it and the preserved bytes as they are. */
  lemma ResetAllMeans(b: Books, c: Cycle, users: set<User>, v: User)
    ensures var n := ResetBooks(b, c, users);
            && n.preserved == b.preserved
            && CycleRaw(n.daily, c.days, v) == (if v in users then Reading(0, 0, 0) else CycleRaw(b.daily, c.days, v))
            && (v !in users ==> SameFor(v, b.daily, n.daily) && SameFor(v, b.hourly, n.hourly))
            && (forall d :: d in b.daily && d !in c.days ==> n.daily[d] == b.daily[d])
            && (forall h :: h in b.hourly && h.n < c.firstHour.n ==> n.hourly[h] == b.hourly[h])
            && (v in users ==> c.month in n.usage && v in n.usage[c.month] && n.usage[c.month][v] == NOTHING)
            && (forall m :: m in b.usage && m != c.month ==> n.usage[m] == b.usage[m])
            && (v !in users ==> forall m :: m in b.usage ==>
                  && m in n.usage && (v in n.usage[m] <==> v in b.usage[m])
                  && (v in b.usage[m] ==> n.usage[m][v] == b.usage[m][v]))
  {
    ZeroedReading(b.daily, c.days, c.days, users, v);
    NoneOutside(c.days, c.days);
    ResetDaily(b, c, users, v);
    ResetHourly(b, c, users, v);
    if v !in users {
      OthersMonthly(b.usage, c.month, users, v);
    }
    ResetOtherMonths(b, c, users);
    hide ZeroedDaily, ZeroedHourly, CycleRaw, SameFor, Outside;
  }

  lemma ResetOtherMonths(b: Books, c: Cycle, users: set<User>)
    ensures forall m :: m in b.usage && m != c.month ==>
              m in ResetBooks(b, c, users).usage && ResetBooks(b, c, users).usage[m] == b.usage[m]
  {
  }

  lemma {:induction false} NobodyReads(daily: map<Day, Usage>, days: seq<Day>, users: set<User>, people: seq<User>)
    requires forall v :: v in people ==> v in users
    ensures CycleTotal(ZeroedDaily(daily, days, users), days, people) == 0
  {
    if people != [] {
      ZeroedReading(daily, days, days, users, people[0]);
      NoneOutside(days, days);
      NobodyReads(daily, days, users, people[1..]);
    }
  }

  /** With everybody listed, what is still displayed is what was preserved. */
  lemma ResetAllDisplays(b: Books, c: Cycle, users: set<User>, people: seq<User>)
    requires forall v :: v in people ==> v in users
    ensures Displayed(ResetBooks(b, c, users), c, people) == PreservedSum(Bucket(b.preserved, c.key))
  {
    NobodyReads(b.daily, c.days, users, people);
  }

  /** Refreshing again right away preserves nothing more. */
  lemma RefreshTwice(b: Books, c: Cycle, u: User)
    ensures Mutated(Mutated(b, c, u, true), c, u, true) == Mutated(b, c, u, true)
  {
    var n := Mutated(b, c, u, true);
    UserReadsZero(b, c, u, true);
    forall x: Usage ensures ZeroedBucket(ZeroedBucket(x, {u}), {u}) == ZeroedBucket(x, {u}) {
    }
    assert ZeroedDaily(n.daily, c.days, {u}) == n.daily;
    assert ZeroedHourly(n.hourly, c.firstHour, {u}) == n.hourly;
    assert ZeroedMonth(n.usage[c.month], {u}) == n.usage[c.month];
  }

  // ------------------------------------------- settings changed while refreshing

  /** A refresh that reads the cycle settings three times: it sums the days of `read`,
      preserves under the key of `kept` and zeroes the days of `zeroed`. */
  function Torn(b: Books, read: Cycle, kept: Cycle, zeroed: Cycle, u: User): Books {
    b.(preserved := Preserving(b.preserved, kept.key, u, CycleRaw(b.daily, read.days, u)),
       daily := ZeroedDaily(b.daily, zeroed.days, {u}))
  }

  /** The shown bucket, if preserving `r` under a later key drops it. */
  ghost function Dropped(preserved: map<CycleKey, Usage>, kept: CycleKey, shown: CycleKey, r: Reading): nat {
    if r.total > 0 && shown.n < kept.n then PreservedSum(Bucket(preserved, shown)) else 0
  }

  lemma BucketAfter(preserved: map<CycleKey, Usage>, kept: CycleKey, shown: CycleKey, u: User, r: Reading)
    ensures PreservedSum(Bucket(Preserving(preserved, kept, u, r), shown)) + Dropped(preserved, kept, shown, r)
            == PreservedSum(Bucket(preserved, shown)) + (if shown == kept then r.total else 0)
  {
    if shown == kept {
      PreservedGrows(preserved, kept, u, r);
    } else {
      hide PreservedSum;
      if r.total > 0 && shown.n < kept.n {
        assert shown !in Preserving(preserved, kept, u, r);
        EmptySum();
      } else {
        assert Bucket(Preserving(preserved, kept, u, r), shown) == Bucket(preserved, shown);
      }
    }
  }

  lemma EmptySum()
    ensures PreservedSum(map[]) == 0
  {
  }

  /** What the console then shows, whatever settings it and the three readings see. */
  lemma SettingsChangeExactly(b: Books, read: Cycle, kept: Cycle, zeroed: Cycle, shown: Cycle,
                              people: seq<User>, u: User)
    requires Distinct(people) && u in people
    ensures var r := CycleRaw(b.daily, read.days, u);
            Displayed(Torn(b, read, kept, zeroed, u), shown, people)
            + CycleRaw(b.daily, shown.days, u).total + Dropped(b.preserved, kept.key, shown.key, r)
            == Displayed(b, shown, people)
               + CycleRaw(b.daily, Outside(shown.days, zeroed.days), u).total
               + (if shown.key == kept.key then r.total else 0)
  {
    hide Preserving, CycleRaw, PreservedSum, Outside, ZeroedDaily, CycleTotal, Dropped;
    TotalWithout(b.daily, zeroed.days, shown.days, u, people);
    BucketAfter(b.preserved, kept.key, shown.key, u, CycleRaw(b.daily, read.days, u));
  }

  /** The cycle's days run from its first one, which is its key, to today. */
  ghost predicate Until(c: Cycle, today: int) {
    && c.key.n <= today && |c.days| == today - c.key.n + 1
    && forall i :: 0 <= i < |c.days| ==> c.days[i] == Stamp(c.key.n + i)
  }

  lemma {:induction false} RawSplits(daily: map<Day, Usage>, a: seq<Day>, b: seq<Day>, u: User)
    ensures CycleRaw(daily, a + b, u).total == CycleRaw(daily, a, u).total + CycleRaw(daily, b, u).total
    decreases |b|
  {
    if b == [] {
      assert a + b == a;
    } else {
      var front, last := b[..|b| - 1], b[|b| - 1];
      assert b == front + [last] && a + b == (a + front) + [last];
      RawSplits(daily, a, front, u);
      hide CycleRaw;
      OneMoreDay(daily, a + front, last, u);
      OneMoreDay(daily, front, last, u);
    }
  }

  lemma {:induction false} OutsideOfSuffix(a: seq<Day>, b: seq<Day>, zeroed: seq<Day>)
    requires forall d :: d in a ==> d !in zeroed
    requires forall d :: d in b ==> d in zeroed
    ensures Outside(a + b, zeroed) == a
    decreases |a| + |b|
  {
    if b != [] {
      var front, last := b[..|b| - 1], b[|b| - 1];
      assert a + b == (a + front) + [last];
      OutsideOfSuffix(a, front, zeroed);
      OutsideOneMore(a + front, zeroed, last);
    } else if a != [] {
      var front, last := a[..|a| - 1], a[|a| - 1];
      assert a + b == front + [last] && front + [] == front && a == front + [last];
      OutsideOfSuffix(front, [], zeroed);
      OutsideOneMore(front, zeroed, last);
    }
  }

  /** Of two cycles up to today, the later one's days end the earlier one's. */
  lemma LaterIsSuffix(early: Cycle, late: Cycle, today: int)
    requires Until(early, today) && Until(late, today) && early.key.n <= late.key.n
    ensures var k := late.key.n - early.key.n;
            && k <= |early.days| && early.days == early.days[..k] + late.days
            && (forall d :: d in early.days[..k] ==> d !in late.days)
            && (early.key == late.key ==> early.days == late.days)
  {
  }

  lemma RawOfLater(daily: map<Day, Usage>, early: Cycle, late: Cycle, today: int, u: User)
    requires Until(early, today) && Until(late, today) && early.key.n <= late.key.n
    ensures CycleRaw(daily, early.days, u).total
            == CycleRaw(daily, Outside(early.days, late.days), u).total + CycleRaw(daily, late.days, u).total
    ensures Outside(late.days, early.days) == []
    ensures early.key == late.key ==> early.days == late.days
  {
    LaterIsSuffix(early, late, today);
    var k := late.key.n - early.key.n;
    RawSplits(daily, early.days[..k], late.days, u);
    OutsideOfSuffix(early.days[..k], late.days, late.days);
    NoneOutside(late.days, early.days);
  }

  /** Settings that change after the days were summed: the bytes on the days between the
      two first days count twice when the cycle now begins later, and are lost when it now
      begins earlier, so the total is conserved exactly when the user has none there. */
  lemma ChangeBeforePreserving(b: Books, former: Cycle, current: Cycle, today: int, people: seq<User>, u: User)
    requires Distinct(people) && u in people && Until(former, today) && Until(current, today)
    ensures var n := Torn(b, former, current, current, u);
            if former.key.n <= current.key.n then
              Displayed(n, current, people)
              == Displayed(b, current, people) + CycleRaw(b.daily, Outside(former.days, current.days), u).total
            else
              Displayed(n, current, people) + CycleRaw(b.daily, Outside(current.days, former.days), u).total
              == Displayed(b, current, people)
  {
    SettingsChangeExactly(b, former, current, current, current, people, u);
    NoneOutside(current.days, current.days);
    hide CycleRaw, Displayed, Torn, PreservedSum, Outside;
    NothingRead(b.daily, u);
    if former.key.n <= current.key.n {
      RawOfLater(b.daily, former, current, today, u);
    } else {
      RawOfLater(b.daily, current, former, today, u);
    }
  }

  /** Settings that change after the bytes were preserved: they are then shown exactly when
      both cycles begin on the same day, or the user had none in the current cycle; else
      the console loses all of them. */
  lemma ChangeBeforeZeroing(b: Books, former: Cycle, current: Cycle, today: int, people: seq<User>, u: User)
    requires Distinct(people) && u in people && Until(former, today) && Until(current, today)
    ensures var n, raw := Torn(b, former, former, current, u), CycleRaw(b.daily, current.days, u).total;
            && Displayed(n, current, people) <= Displayed(b, current, people)
            && (Displayed(n, current, people) == Displayed(b, current, people)
                <==> former.key == current.key || raw == 0)
            && (former.key != current.key ==>
                  Displayed(n, current, people) <= Displayed(b, current, people) - raw)
  {
    SettingsChangeExactly(b, former, former, current, current, people, u);
    NoneOutside(current.days, current.days);
    hide CycleRaw, Displayed, Torn, PreservedSum;
    if former.key.n <= current.key.n {
      RawOfLater(b.daily, former, current, today, u);
    } else {
      RawOfLater(b.daily, current, former, today, u);
    }
  }

  /** Settings that change once the refresh is done: the preserved bytes are shown exactly
      when both cycles begin on the same day, or the user had none on their common days. */
  lemma ChangeAfterRefresh(b: Books, former: Cycle, current: Cycle, today: int, people: seq<User>, u: User)
    requires Distinct(people) && u in people && Until(former, today) && Until(current, today)
    ensures var n := Torn(b, former, former, former, u);
            var common := if former.key.n <= current.key.n then current else former;
            && Displayed(n, current, people) <= Displayed(b, current, people)
            && (Displayed(n, current, people) == Displayed(b, current, people)
                <==> former.key == current.key || CycleRaw(b.daily, common.days, u).total == 0)
  {
    SettingsChangeExactly(b, former, former, former, current, people, u);
    hide CycleRaw, Displayed, Torn, PreservedSum, Outside;
    if former.key.n <= current.key.n {
      RawOfLater(b.daily, former, current, today, u);
      NothingRead(b.daily, u);
    } else {
      RawOfLater(b.daily, current, former, today, u);
    }
  }

  lemma NothingRead(daily: map<Day, Usage>, u: User)
    ensures CycleRaw(daily, [], u).total == 0
  {
  }
}
