/** What a user's usage is: the strict sum that authorizes and the cycle reading that the
    console shows count the same bytes, wherever the strict one accepts the books. */
module UsageMeaning {
  import opened OrderedTable
  import opened Wrappers
  import A = AccessPlan
  import L = TrafficLedger

  // ------------------------------------------------------------- one stored entry

  /** The bytes of a stored counter: its total, or else both directions. */
  function Bytes(e: L.Entry): nat {
    match e
    case Scalar(n) => n
    case Record(tx, rx, Some(total)) => total
    case Record(tx, rx, None) => tx + rx
  }

  /** The same counter as the strict reader finds it in the file. */
  function Stored(e: L.Entry): A.Entry {
    match e
    case Scalar(n) => A.Scalar(A.Parsed(n))
    case Record(tx, rx, total) =>
      A.Object(A.Parsed(tx), A.Parsed(rx), if total.Some? then A.Parsed(total.value) else A.Missing, false)
  }

  /** Its total, missing or not, adds up. */
  predicate AddsUp(e: L.Entry) {
    e.Record? ==> (if e.total.Some? then e.total.value else 0) == e.tx + e.rx
  }

  /** The strict reader accepts numbers and their decimal texts from zero on, and nothing
      for a missing field; a record only without unknown fields and if it adds up. */
  lemma StrictEntryExactly(v: A.Value, tx: A.Value, rx: A.Value, total: A.Value, unknown: bool, n: nat)
    ensures A.Amount(v) == Some(n) <==> (v == A.Missing && n == 0) || v == A.Parsed(n) || v == A.Text(n, true)
    ensures A.EntryTotal(A.Scalar(v)) == A.Amount(v)
    ensures A.EntryTotal(A.Object(tx, rx, total, unknown)) == Some(n) <==>
              && !unknown && A.Amount(total) == Some(n)
              && A.Amount(tx).Some? && A.Amount(rx).Some? && A.Amount(tx).value + A.Amount(rx).value == n
  {
  }

  lemma StoredTotal(e: L.Entry)
    ensures A.EntryTotal(Stored(e)) == if AddsUp(e) then Some(Bytes(e)) else None
  {
    match e
    case Scalar(n) => assert Stored(e) == A.Scalar(A.Parsed(n));
    case Record(tx, rx, Some(total)) =>
      assert Stored(e) == A.Object(A.Parsed(tx), A.Parsed(rx), A.Parsed(total), false);
    case Record(tx, rx, None) =>
      assert Stored(e) == A.Object(A.Parsed(tx), A.Parsed(rx), A.Missing, false);
  }

  lemma CountedBytes(r: L.Reading, e: L.Entry)
    ensures L.Counted(r, e).total == r.total + Bytes(e)
    ensures L.Counted(r, e).tx == r.tx + (if e.Record? then e.tx else 0)
    ensures L.Counted(r, e).rx == r.rx + (if e.Record? then e.rx else 0)
  {
  }

  // ---------------------------------------------------------------- a user's cycle

  /** The strict reader's view of these days of the books. */
  ghost predicate Same(books: map<L.Day, L.Usage>, days: seq<L.Day>, daily: A.Daily, names: seq<A.Day>) {
    && |names| == |days|
    && forall i :: 0 <= i < |days| ==> SameDay(books, days[i], daily, names[i])
  }

  ghost predicate SameDay(books: map<L.Day, L.Usage>, day: L.Day, daily: A.Daily, name: A.Day) {
    && (name in daily <==> day in books)
    && (name in daily ==> daily[name] == A.Bucket(map u | u in books[day] :: Stored(books[day][u])))
  }

  /** Every entry of the user on these days adds up. */
  predicate Accepted(books: map<L.Day, L.Usage>, days: seq<L.Day>, user: L.User) {
    forall i :: 0 <= i < |days| && days[i] in books && user in books[days[i]] ==> AddsUp(books[days[i]][user])
  }

  /** The user's bytes, day by day. */
  function Total(books: map<L.Day, L.Usage>, days: seq<L.Day>, user: L.User): nat {
    if days == [] then 0
    else (if days[0] in books && user in books[days[0]] then Bytes(books[days[0]][user]) else 0)
         + Total(books, days[1..], user)
  }

  lemma {:induction false} TotalOneMore(books: map<L.Day, L.Usage>, days: seq<L.Day>, d: L.Day, user: L.User)
    ensures Total(books, days + [d], user)
            == Total(books, days, user) + (if d in books && user in books[d] then Bytes(books[d][user]) else 0)
  {
    if days == [] {
      assert days + [d] == [d] && [d][1..] == [];
    } else {
      assert (days + [d])[1..] == days[1..] + [d];
      TotalOneMore(books, days[1..], d, user);
    }
  }

  /** The console's reading is that total. */
  lemma {:induction false} ReadingIsTotal(books: map<L.Day, L.Usage>, days: seq<L.Day>, user: L.User)
    ensures L.CycleRaw(books, days, user).total == Total(books, days, user)
    decreases |days|
  {
    if days != [] {
      var front, last := days[..|days| - 1], days[|days| - 1];
      assert days == front + [last];
      ReadingIsTotal(books, front, user);
      TotalOneMore(books, front, last, user);
      CountedBytes(L.CycleRaw(books, front, user), L.Found(books, last, user));
    }
  }

  /** The bytes the user has on one day, if the strict reader accepts them. */
  lemma DayAgrees(books: map<L.Day, L.Usage>, day: L.Day, daily: A.Daily, name: A.Day, user: L.User)
    requires SameDay(books, day, daily, name)
    ensures A.DayTotal(daily, name, user)
            == if day !in books || user !in books[day] then Some(0)
               else if AddsUp(books[day][user]) then Some(Bytes(books[day][user])) else None
  {
    if day in books && user in books[day] {
      StoredTotal(books[day][user]);
    }
    hide A.EntryTotal, Stored, Bytes, AddsUp;
  }

  lemma SameRest(books: map<L.Day, L.Usage>, days: seq<L.Day>, daily: A.Daily, names: seq<A.Day>)
    requires Same(books, days, daily, names) && days != []
    ensures SameDay(books, days[0], daily, names[0]) && Same(books, days[1..], daily, names[1..])
  {
    hide SameDay;
    forall i | 0 <= i < |days[1..]| ensures SameDay(books, days[1..][i], daily, names[1..][i]) {
      assert SameDay(books, days[i + 1], daily, names[i + 1]);
    }
  }

  lemma {:induction false} StrictSumIsTotal(books: map<L.Day, L.Usage>, days: seq<L.Day>, daily: A.Daily,
      names: seq<A.Day>, user: L.User)
    requires Same(books, days, daily, names)
    ensures A.StrictSum(daily, names, user)
            == if Accepted(books, days, user) then Some(Total(books, days, user)) else None
    decreases |days|
  {
    if days != [] {
      SameRest(books, days, daily, names);
      DayAgrees(books, days[0], daily, names[0], user);
      AcceptedSplits(books, days, user);
      StrictSumIsTotal(books, days[1..], daily, names[1..], user);
      hide Same, SameDay, Accepted, A.DayTotal, Bytes, AddsUp;
    }
  }

  /** Authorization counts the bytes that the console shows, and refuses to count exactly
      when some entry of the user in the cycle does not add up. */
  lemma StrictSumIsReading(books: map<L.Day, L.Usage>, days: seq<L.Day>, daily: A.Daily, names: seq<A.Day>,
      user: L.User)
    requires Same(books, days, daily, names)
    ensures A.StrictSum(daily, names, user)
            == if Accepted(books, days, user) then Some(L.CycleRaw(books, days, user).total) else None
  {
    ReadingIsTotal(books, days, user);
    StrictSumIsTotal(books, days, daily, names, user);
    hide Same, Accepted, Total, L.CycleRaw, A.StrictSum;
  }

  lemma AcceptedSplits(books: map<L.Day, L.Usage>, days: seq<L.Day>, user: L.User)
    requires days != []
    ensures Accepted(books, days, user) <==>
              && (days[0] in books && user in books[days[0]] ==> AddsUp(books[days[0]][user]))
              && Accepted(books, days[1..], user)
  {
    var rest := days[1..];
    assert forall i :: 0 <= i < |rest| ==> rest[i] == days[i + 1];
    if Accepted(books, rest, user) {
      assert forall i :: 0 < i < |days| ==> days[i] == rest[i - 1];
    }
  }

  /** A malformed day rejects the user's sum, wherever it is in the cycle. */
  lemma {:induction false} MalformedDayRejects(daily: A.Daily, names: seq<A.Day>, user: A.User, i: nat)
    requires i < |names| && names[i] in daily && daily[names[i]].Malformed?
    ensures A.StrictSum(daily, names, user).None?
    decreases i
  {
    if i > 0 {
      assert names[1..][i - 1] == names[i];
      MalformedDayRejects(daily, names[1..], user, i - 1);
    }
  }

  /** The quota is used up from the very byte that reaches it. */
  lemma QuotaBoundary(used: nat, quota: nat)
    ensures A.OverQuota(used, 1.0, quota) <==> used >= quota
    ensures forall m: real :: used as real * m == quota as real ==> A.OverQuota(used, m, quota)
    ensures forall m: real :: used as real * m < quota as real ==> !A.OverQuota(used, m, quota)
  {
  }

  // ------------------------------------------------------------------- the cache

  /** Trimming drops the sums used longest ago. */
  lemma {:induction false} TrimmedKeepsRecent(c: A.Cache, limit: nat)
    ensures A.Trimmed(c, limit).order == if |c.order| <= limit then c.order else c.order[|c.order| - limit..]
    decreases |c.order|
  {
    if |c.order| > limit {
      TrimmedKeepsRecent(Shifted(c), limit);
    }
  }

  /** A cached answer makes its sum the most recently used one. */
  lemma AnswerIsRecent(c: A.Cache, daily: A.Daily, days: seq<A.Day>, user: A.User, version: A.Version, limit: nat)
    requires limit > 0 && A.StrictSum(daily, days, user).Some?
    ensures var n := A.Lookup(c, daily, days, user, Some(version), limit).0;
            n.order != [] && n.order[|n.order| - 1] == A.Key(days, version, user)
  {
    var k := A.Key(days, version, user);
    if k in c.entries {
      TrimmedKeepsRecent(A.Refreshed(c, k, c.entries[k]), limit);
    } else {
      TrimmedKeepsRecent(A.Refreshed(c, k, A.StrictSum(daily, days, user).value), limit);
    }
  }
}
