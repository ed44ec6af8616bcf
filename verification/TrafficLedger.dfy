/** Usage books of a billing cycle: refreshing a user moves its bytes to the preserved
    bucket, resetting drops them (hysteria/billing_service.py,
    hysteria/traffic_mutation_service.py). */
module TrafficLedger {
  import opened Wrappers

  type User = string
  type Month = string

  /** A date or hour key, numbered in calendar order. */
  datatype Stamp = Stamp(n: int)

  type Day = Stamp
  type Hour = Stamp
  type CycleKey = Stamp  // the first day of a cycle

  /** A stored counter; a record may lack its total. */
  datatype Entry = Scalar(n: nat) | Record(tx: nat, rx: nat, total: Option<nat>)

  type Usage = map<User, Entry>

  /** The four usage files. */
  datatype Books = Books(
    daily: map<Day, Usage>,
    hourly: map<Hour, Usage>,
    preserved: map<CycleKey, Usage>,
    usage: map<Month, Usage>)

  /** What one reading of the clock and the cycle settings yields. */
  datatype Cycle = Cycle(days: seq<Day>, key: CycleKey, firstHour: Hour, month: Month)

  datatype Reading = Reading(tx: nat, rx: nat, total: nat)

  function Zero(): Entry {
    Record(0, 0, Some(0))
  }

  // ---------------------------------------------------------------- value functions

  function Found(books: map<Stamp, Usage>, k: Stamp, u: User): Entry {
    if k in books && u in books[k] then books[k][u] else Scalar(0)
  }

  function Counted(r: Reading, e: Entry): Reading {
    match e
    case Scalar(n) => Reading(r.tx, r.rx, r.total + n)
    case Record(tx, rx, total) => Reading(r.tx + tx, r.rx + rx, r.total + (if total.Some? then total.value
        else tx + rx))
  }

  function CycleRaw(daily: map<Day, Usage>, days: seq<Day>, u: User): Reading {
    if days == [] then Reading(0, 0, 0)
    else Counted(CycleRaw(daily, days[..|days| - 1], u), Found(daily, days[|days| - 1], u))
  }

  function PreservedBytes(e: Entry): nat {
    match e
    case Scalar(n) => n
    case Record(_, _, total) => if total.Some? then total.value else 0
  }

  ghost function PreservedSum(m: Usage): nat
    decreases |m|
  {
    if m == map[] then 0
    else
      var u :| u in m;
      PreservedBytes(m[u]) + PreservedSum(m - {u})
  }

  function Bucket(preserved: map<CycleKey, Usage>, key: CycleKey): Usage {
    if key in preserved then preserved[key] else map[]
  }

  /** `cur.get(...)` on the entry already preserved. */
  function Enlarged(e: Entry, r: Reading): Entry {
    match e
    case Scalar(n) => Record(r.tx, r.rx, Some(n + r.total))
    case Record(tx, rx, total) => Record(tx + r.tx, rx + r.rx, Some((if total.Some? then total.value else 0) + r.total))
  }

  function Preserving(preserved: map<CycleKey, Usage>, key: CycleKey, u: User, r: Reading): map<CycleKey, Usage> {
    if r.total == 0 then preserved
    else
      var grown := Bucket(preserved, key)[u := Enlarged(Found(preserved, key, u), r)];
      map k | k in preserved.Keys + {key} && k.n >= key.n :: if k == key then grown else preserved[k]
  }

  function ZeroedBucket(bucket: Usage, users: set<User>): Usage {
    map v | v in bucket :: if v in users then Zero() else bucket[v]
  }

  function ZeroedDaily(daily: map<Day, Usage>, days: seq<Day>, users: set<User>): map<Day, Usage> {
    map d | d in daily :: if d in days then ZeroedBucket(daily[d], users) else daily[d]
  }

  function ZeroedHourly(hourly: map<Hour, Usage>, firstHour: Hour, users: set<User>): map<Hour, Usage> {
    map h | h in hourly :: if h.n >= firstHour.n then ZeroedBucket(hourly[h], users) else hourly[h]
  }

  /** Unlike the daily buckets, the month's bucket gains the users it lacks. */
  function ZeroedMonth(bucket: Usage, users: set<User>): Usage {
    map v | v in bucket.Keys + users :: if v in users then Zero() else bucket[v]
  }

  function ZeroedUsage(usage: map<Month, Usage>, month: Month, users: set<User>): map<Month, Usage> {
    usage[month := ZeroedMonth(if month in usage then usage[month] else map[], users)]
  }

  /** The files after the first n of the four saves of a refresh (`preserve`) or reset. */
  function MutatedUpTo(b: Books, c: Cycle, u: User, preserve: bool, n: nat): Books {
    Books(
      if n >= 3 then ZeroedDaily(b.daily, c.days, {u}) else b.daily,
      if n >= 4 then ZeroedHourly(b.hourly, c.firstHour, {u}) else b.hourly,
      if n >= 1 && preserve then Preserving(b.preserved, c.key, u, CycleRaw(b.daily, c.days, u)) else b.preserved,
      if n >= 2 then ZeroedUsage(b.usage, c.month, {u}) else b.usage)
  }

  function Mutated(b: Books, c: Cycle, u: User, preserve: bool): Books {
    MutatedUpTo(b, c, u, preserve, 4)
  }

  /** The files after a reset of all listed users. */
  function ResetBooks(b: Books, c: Cycle, users: set<User>): Books {
    b.(daily := ZeroedDaily(b.daily, c.days, users), hourly := ZeroedHourly(b.hourly, c.firstHour, users),
       usage := ZeroedUsage(b.usage, c.month, users))
  }

  /** The server's cycle total as displayed: everyone's cycle bytes and the preserved ones. */
  ghost function Displayed(b: Books, c: Cycle, people: seq<User>): nat {
    CycleTotal(b.daily, c.days, people) + PreservedSum(Bucket(b.preserved, c.key))
  }

  function CycleTotal(daily: map<Day, Usage>, days: seq<Day>, people: seq<User>): nat {
    if people == [] then 0
    else CycleRaw(daily, days, people[0]).total + CycleTotal(daily, days, people[1..])
  }

  // -------------------------------------------------------------------- the ledger

  datatype Outcome = NotFound | Conflict | Success(before: Reading)

  class Ledger {
    var daily: map<Day, Usage>
    var hourly: map<Hour, Usage>
    var preserved: map<CycleKey, Usage>
    var usage: map<Month, Usage>

    constructor (b: Books)
      ensures View() == b
    {
      daily, hourly, preserved, usage := b.daily, b.hourly, b.preserved, b.usage;
    }

    ghost function View(): Books
      reads this
    {
      Books(daily, hourly, preserved, usage)
    }

    method CycleRawForUser(u: User, days: seq<Day>) returns (r: Reading)
      ensures r == CycleRaw(daily, days, u)
    {
      hide CycleRaw;
      r := Reading(0, 0, 0);
      CycleRawStarts(daily, days, u);
      var i := 0;
      while i < |days|
        invariant 0 <= i <= |days| && r == CycleRaw(daily, days[..i], u)
      {
        CycleRawStep(daily, days, i, u);
        var e := if days[i] in daily && u in daily[days[i]] then daily[days[i]][u] else Scalar(0);
        if e.Record? {
          var total := if e.total.Some? then e.total.value else e.tx + e.rx;
          r := Reading(r.tx + e.tx, r.rx + e.rx, r.total + total);
        } else {
          r := r.(total := r.total + e.n);
        }
        i := i + 1;
      }
      assert days[..i] == days;
    }

    method PreservedRawForCycle(key: CycleKey) returns (total: nat)
      ensures total == PreservedSum(Bucket(preserved, key))
    {
      total := 0;
      var bucket := if key in preserved then preserved[key] else map[];
      var rest := bucket;
      while rest != map[]
        invariant PreservedSum(bucket) == total + PreservedSum(rest)
        decreases |rest|
      {
        var u :| u in rest;
        PreservedSumSplits(rest, u);
        total := total + (match rest[u] case Scalar(n) => n case Record(_, _, t) => if t.Some? then t.value else 0);
        rest := rest - {u};
      }
    }

    method AddPreservedForUser(u: User, r: Reading, key: CycleKey)
      modifies this`preserved
      ensures preserved == Preserving(old(preserved), key, u, r)
    {
      if r.total == 0 {
        return;
      }
      var data := preserved;
      if key !in data {
        data := data[key := map[]];
      }
      var cur := if u in data[key] then data[key][u] else Record(0, 0, None);
      if cur.Scalar? {
        cur := Record(0, 0, Some(cur.n));
      }
      var total := if cur.total.Some? then cur.total.value else 0;
      data := data[key := data[key][u := Record(cur.tx + r.tx, cur.rx + r.rx, Some(total + r.total))]];
      ghost var all := data;
      var todo := data.Keys;
      while todo != {}
        invariant todo <= all.Keys
        invariant forall k :: k in data <==> k in all && (k in todo || k.n >= key.n)
        invariant forall k :: k in data ==> data[k] == all[k]
      {
        var k :| k in todo;
        todo := todo - {k};
        if k.n < key.n {
          data := data - {k};
        }
      }
      preserved := data;
    }

    static method ZeroBucket(bucket: Usage, users: seq<User>) returns (zeroed: Usage)
      ensures zeroed == ZeroedBucket(bucket, set v | v in users)
    {
      zeroed := bucket;
      var i := 0;
      while i < |users|
        invariant 0 <= i <= |users| && zeroed == ZeroedBucket(bucket, set v | v in users[..i])
      {
        assert users[..i + 1] == users[..i] + [users[i]];
        if users[i] in zeroed {
          zeroed := zeroed[users[i] := Record(0, 0, Some(0))];
        }
        i := i + 1;
      }
      assert users[..i] == users;
    }

    method ZeroCycleDailyHourly(users: seq<User>, c: Cycle)
      modifies this`daily, this`hourly
      ensures daily == ZeroedDaily(old(daily), c.days, set v | v in users)
      ensures hourly == ZeroedHourly(old(hourly), c.firstHour, set v | v in users)
    {
      ghost var selected := set v | v in users;
      var todo := daily.Keys;
      while todo != {}
        invariant todo <= old(daily).Keys && daily.Keys == old(daily).Keys && hourly == old(hourly)
        invariant forall d :: d in daily ==>
          daily[d] == if d in todo || d !in c.days then old(daily)[d] else ZeroedBucket(old(daily)[d], selected)
      {
        var d :| d in todo;
        todo := todo - {d};
        if d in c.days {
          var bucket := ZeroBucket(daily[d], users);
          daily := daily[d := bucket];
        }
      }
      assert daily == ZeroedDaily(old(daily), c.days, selected);
      var hours := hourly.Keys;
      while hours != {}
        invariant daily == ZeroedDaily(old(daily), c.days, selected)
        invariant hours <= old(hourly).Keys && hourly.Keys == old(hourly).Keys
        invariant forall h :: h in hourly ==>
          hourly[h] == if h in hours || h.n < c.firstHour.n then old(hourly)[h]
              else ZeroedBucket(old(hourly)[h], selected)
      {
        var h :| h in hours;
        hours := hours - {h};
        if h.n >= c.firstHour.n {
          var bucket := ZeroBucket(hourly[h], users);
          hourly := hourly[h := bucket];
        }
      }
    }

    /** `reset_user`, or `refresh_user` when `preserve`; `users` holds the revisions. */
    method MutateUserUsage(users: map<User, nat>, u: User, expected: nat, preserve: bool, c: Cycle) returns (r: Outcome)
      modifies this
      ensures r.NotFound? <==> u !in users
      ensures r.Conflict? <==> u in users && users[u] != expected
      ensures !r.Success? ==> View() == old(View())
      ensures r.Success? ==>
        View() == Mutated(old(View()), c, u, preserve) && r.before == CycleRaw(old(daily), c.days, u)
    {
      if u !in users {
        return NotFound;
      }
      if users[u] != expected {
        return Conflict;
      }
      var before := CycleRawForUser(u, c.days);
      if preserve {
        AddPreservedForUser(u, before, c.key);
      }
      var month := if c.month in usage then usage[c.month] else map[];
      usage := usage[c.month := month[u := Record(0, 0, Some(0))]];
      assert month[u := Record(0, 0, Some(0))] == ZeroedMonth(month, {u});
      ZeroCycleDailyHourly([u], c);
      assert (set v | v in [u]) == {u};
      r := Success(before);
    }

    /** `reset_all` over the listed users. */
    method ResetAll(users: seq<User>, c: Cycle)
      modifies this
      ensures View() == ResetBooks(old(View()), c, set v | v in users)
    {
      var month: Usage := if c.month in usage then usage[c.month] else map[];
      ghost var before := month;
      var i := 0;
      while i < |users|
        invariant 0 <= i <= |users| && month == ZeroedMonth(before, set v | v in users[..i])
      {
        assert users[..i + 1] == users[..i] + [users[i]];
        month := month[users[i] := Record(0, 0, Some(0))];
        i := i + 1;
      }
      assert users[..i] == users;
      usage := usage[c.month := month];
      ZeroCycleDailyHourly(users, c);
    }
  }

  // ----------------------------------------------------------------------- sums

  lemma CycleRawStarts(daily: map<Day, Usage>, days: seq<Day>, u: User)
    ensures CycleRaw(daily, days[..0], u) == Reading(0, 0, 0)
  {
  }

  lemma CycleRawStep(daily: map<Day, Usage>, days: seq<Day>, i: nat, u: User)
    requires i < |days|
    ensures CycleRaw(daily, days[..i + 1], u) == Counted(CycleRaw(daily, days[..i], u), Found(daily, days[i], u))
  {
    assert days[..i + 1][..i] == days[..i];
  }

  lemma {:induction false} PreservedSumSplits(m: Usage, u: User)
    requires u in m
    ensures PreservedSum(m) == PreservedBytes(m[u]) + PreservedSum(m - {u})
    decreases |m|
  {
    var v :| v in m && PreservedSum(m) == PreservedBytes(m[v]) + PreservedSum(m - {v});
    if v != u {
      PreservedSumSplits(m - {v}, u);
      PreservedSumSplits(m - {u}, v);
      assert m - {v} - {u} == m - {u} - {v};
    }
  }
}
