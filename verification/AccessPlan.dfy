/** The static-access plan and the bounded cache behind its usage sums
    (hysteria/authorization_service.py). */
module AccessPlan {
  import opened OrderedTable
  import opened Wrappers

  type User = string
  type Day = string
  type Egress = string

  datatype Result<T> = Rejected | Ok(value: T)

  // ------------------------------------------------------------------- usage sums

  /** A stored JSON value where an integer is expected: `canonical` when a text is the
      decimal form of its integer. */
  datatype Value = Missing | Boolean | Parsed(n: int) | Text(n: int, canonical: bool) | Unparsable

  datatype Entry = Scalar(v: Value) | Object(tx: Value, rx: Value, total: Value, unknownFields: bool)

  datatype Bucket = Malformed | Bucket(entries: map<User, Entry>)

  type Daily = map<Day, Bucket>

  function Amount(v: Value): Option<nat> {
    match v
    case Missing => Some(0)
    case Parsed(n) => if n >= 0 then Some(n) else None
    case Text(n, canonical) => if n >= 0 && canonical then Some(n) else None
    case _ => None
  }

  function EntryTotal(e: Entry): Option<nat> {
    match e
    case Scalar(v) => Amount(v)
    case Object(tx, rx, total, unknown) =>
      var (t, r, all) := (Amount(tx), Amount(rx), Amount(total));
      if unknown || t.None? || r.None? || all.None? || all.value != t.value + r.value then None else all
  }

  function DayTotal(daily: Daily, day: Day, user: User): Option<nat> {
    if day !in daily then Some(0)
    else if daily[day].Malformed? then None
    else if user !in daily[day].entries then Some(0)
    else EntryTotal(daily[day].entries[user])
  }

  /** The cycle bytes of one user; absent when any entry is invalid. */
  function StrictSum(daily: Daily, days: seq<Day>, user: User): Option<nat> {
    if days == [] then Some(0)
    else
      var (first, rest) := (DayTotal(daily, days[0], user), StrictSum(daily, days[1..], user));
      if first.None? || rest.None? then None else Some(first.value + rest.value)
  }

  // ------------------------------------------------------------------------ cache

  /** Modification time and size of the usage file. */
  datatype Version = Version(mtime: int, size: int)

  datatype Key = Key(days: seq<Day>, version: Version, user: User)

  type Cache = Table<Key, nat>

  function Trimmed(c: Cache, limit: nat): Cache
    decreases |c.order|
  {
    if |c.order| <= limit then c else Trimmed(Shifted(c), limit)
  }

  function Refreshed(c: Cache, k: Key, used: nat): Cache {
    Appended(Popped(c, k), k, used)
  }

  function Lookup(c: Cache, daily: Daily, days: seq<Day>, user: User, version: Option<Version>,
      limit: nat): (Cache, Option<nat>) {
    if version.None? then (c, StrictSum(daily, days, user))
    else
      var k := Key(days, version.value, user);
      if k in c.entries then (Trimmed(Refreshed(c, k, c.entries[k]), limit), Some(c.entries[k]))
      else
        match StrictSum(daily, days, user)
        case None => (c, None)
        case Some(used) => (Trimmed(Refreshed(c, k, used), limit), Some(used))
  }

  /** Every cached sum is the sum of the content its version stands for. */
  ghost predicate Sound(c: Cache, content: Version -> Daily) {
    && WellFormed(c)
    && forall k :: k in c.entries ==> StrictSum(content(k.version), k.days, k.user) == Some(c.entries[k])
  }

  lemma {:induction false} TrimmedMeans(c: Cache, limit: nat)
    requires WellFormed(c)
    ensures WellFormed(Trimmed(c, limit)) && |Trimmed(c, limit).order| <= limit
    ensures forall k :: k in Trimmed(c, limit).entries ==>
        k in c.entries && Trimmed(c, limit).entries[k] == c.entries[k]
    decreases |c.order|
  {
    if |c.order| > limit {
      ShiftedMeans(c);
      TrimmedMeans(Shifted(c), limit);
    }
  }

  lemma RefreshedSound(c: Cache, content: Version -> Daily, k: Key, used: nat)
    requires Sound(c, content) && StrictSum(content(k.version), k.days, k.user) == Some(used)
    ensures Sound(Refreshed(c, k, used), content)
  {
    PoppedMeans(c, k);
    AppendedMeans(Popped(c, k), k, used);
  }

  /** Any sound cache answers like the direct sum, rejections included, stays sound, and is
      within the current bound after every cached answer. */
  lemma LookupIsDirect(c: Cache, content: Version -> Daily, daily: Daily, days: seq<Day>, user: User,
                       version: Option<Version>, limit: nat)
    requires Sound(c, content) && (version.Some? ==> content(version.value) == daily)
    ensures var (n, used) := Lookup(c, daily, days, user, version, limit);
            && used == StrictSum(daily, days, user) && Sound(n, content)
            && (version.Some? && used.Some? ==> |n.order| <= limit)
            && (version.None? || used.None? ==> n == c)
  {
    if version.Some? {
      var k := Key(days, version.value, user);
      var used := StrictSum(daily, days, user);
      if used.Some? {
        RefreshedSound(c, content, k, used.value);
        TrimmedMeans(Refreshed(c, k, used.value), limit);
      }
    }
  }

  datatype Call = Call(daily: Daily, days: seq<Day>, user: User, version: Option<Version>, limit: nat)

  function Calls(c: Cache, calls: seq<Call>): (Cache, seq<Option<nat>>)
    decreases |calls|
  {
    if calls == [] then (c, [])
    else
      var a := calls[0];
      var (n, used) := Lookup(c, a.daily, a.days, a.user, a.version, a.limit);
      var (last, more) := Calls(n, calls[1..]);
      (last, [used] + more)
  }

  function Sums(calls: seq<Call>): seq<Option<nat>> {
    if calls == [] then [] else [StrictSum(calls[0].daily, calls[0].days, calls[0].user)] + Sums(calls[1..])
  }

  /** Every sequence of lookups answers like direct summation. */
  lemma {:induction false} CallsAreDirect(c: Cache, content: Version -> Daily, calls: seq<Call>)
    requires Sound(c, content)
    requires forall i :: 0 <= i < |calls| && calls[i].version.Some? ==>
        content(calls[i].version.value) == calls[i].daily
    ensures Calls(c, calls).1 == Sums(calls) && Sound(Calls(c, calls).0, content)
    decreases |calls|
  {
    if calls != [] {
      var a := calls[0];
      LookupIsDirect(c, content, a.daily, a.days, a.user, a.version, a.limit);
      CallsAreDirect(Lookup(c, a.daily, a.days, a.user, a.version, a.limit).0, content, calls[1..]);
    }
  }

  // ------------------------------------------------------------------------- plan

  /** A text with the UUID it parses to. */
  datatype Uuid = Uuid(text: string, hex: Option<nat>)

  datatype Allowed = NoneAllowed | NotAList | Nodes(ids: seq<Egress>)

  /** A user's record: the verdicts of the compatibility helpers and the stored identities. */
  datatype Account = Account(name: User, validName: bool, configError: bool, inactive: bool, metered: bool, quota: nat,
                             uuid: Uuid, landing: Uuid, allowed: Allowed, selected: Option<Egress>)

  type Plan = map<User, Option<Uuid>>

  predicate Metered(a: Account) {
    a.metered && a.quota > 0
  }

  predicate OverQuota(used: nat, multiplier: real, quota: nat) {
    used as real * multiplier >= quota as real
  }

  function ExhaustedDirectly(a: Account, daily: Daily, days: seq<Day>, m: real): Option<bool> {
    if !Metered(a) then Some(false)
    else
      match StrictSum(daily, days, a.name)
      case None => None
      case Some(used) => Some(OverQuota(used, m, a.quota))
  }

  function PlanFrom(accounts: seq<Account>, daily: Daily, days: seq<Day>, m: real, plan: Plan,
      claimed: set<nat>): Result<Plan> {
    if accounts == [] then Ok(plan)
    else
      var (a, rest) := (accounts[0], accounts[1..]);
      var exhausted := ExhaustedDirectly(a, daily, days, m);
      if !a.validName || a.configError then Rejected
      else if a.inactive then PlanFrom(rest, daily, days, m, plan[a.name := None], claimed)
      else if exhausted.None? then Rejected
      else if exhausted.value then PlanFrom(rest, daily, days, m, plan[a.name := None], claimed)
      else if a.uuid.text == "" then PlanFrom(rest, daily, days, m, plan, claimed)
      else if a.uuid.hex.None? || a.uuid.hex.value in claimed then Rejected
      else PlanFrom(rest, daily, days, m, plan[a.name := Some(a.uuid)], claimed + {a.uuid.hex.value})
  }

  function DirectPlan(accounts: seq<Account>, daily: Daily, days: seq<Day>, metaValid: bool,
      m: Option<real>): Result<Plan> {
    if !metaValid || m.None? then Rejected else PlanFrom(accounts, daily, days, m.value, map[], {})
  }

  datatype Landing = Landing(uuid: nat, selected: Option<Egress>)

  function DirectIdentities(plan: Plan): set<nat> {
    set u | u in plan && plan[u].Some? && plan[u].value.hex.Some? :: plan[u].value.hex.value
  }

  function Permitted(ids: seq<Egress>, nodes: set<Egress>): set<Egress> {
    set e | e in ids && e in nodes
  }

  function LandingFrom(accounts: seq<Account>, plan: Plan, nodes: set<Egress>, result: map<User, Landing>,
      claimed: set<nat>): Result<map<User, Landing>> {
    if accounts == [] then Ok(result)
    else
      var (a, rest) := (accounts[0], accounts[1..]);
      if a.name !in plan || plan[a.name].None? || a.allowed.NoneAllowed? || a.allowed == Nodes([]) then
        LandingFrom(rest, plan, nodes, result, claimed)
      else if a.allowed.NotAList? || a.landing.hex.None? || a.landing.hex.value in claimed then Rejected
      else
        var (ids, hex) := (Permitted(a.allowed.ids, nodes), a.landing.hex.value);
        if ids == {} then LandingFrom(rest, plan, nodes, result, claimed)
        else
          var selected := if a.selected.Some? && a.selected.value in ids then a.selected else None;
          LandingFrom(rest, plan, nodes, result[a.name := Landing(hex, selected)], claimed + {hex})
  }

  /** The residential identities beside a direct plan; accounts come sorted by name. */
  function LandingPlan(accounts: seq<Account>, plan: Plan, nodes: set<Egress>): Result<map<User, Landing>> {
    if exists u :: u in plan && plan[u].Some? && plan[u].value.hex.None? then Rejected
    else LandingFrom(accounts, plan, nodes, map[], DirectIdentities(plan))
  }

  // -------------------------------------------------------------------- the service

  class AuthorizationService {
    const hardMax: nat
    const floor: nat
    var cache: Cache

    constructor (hard: nat, low: nat)
      ensures hardMax == hard && floor == low && cache == Empty()
    {
      hardMax, floor, cache := hard, low, Empty();
    }

    function CacheBound(userCount: nat): nat {
      var scaled := if floor >= 4 * userCount then floor else 4 * userCount;
      if hardMax <= scaled then hardMax else scaled
    }

    method PruneCycleUsageCache(limit: nat)
      modifies this`cache
      ensures cache == Trimmed(old(cache), limit)
    {
      while |cache.order| > limit
        invariant Trimmed(cache, limit) == Trimmed(old(cache), limit)
        decreases |cache.order|
      {
        cache := Shifted(cache);
      }
    }

    method CycleUsageSumStrict(daily: Daily, days: seq<Day>, user: User) returns (used: Option<nat>)
      ensures used == StrictSum(daily, days, user)
    {
      var sum: nat, i := 0, 0;
      while i < |days|
        invariant 0 <= i <= |days|
        invariant StrictSum(daily, days, user) == Plus(sum, StrictSum(daily, days[i..], user))
      {
        assert days[i..][1..] == days[i + 1..];
        var total := DayTotal(daily, days[i], user);
        if total.None? {
          return None;
        }
        sum := sum + total.value;
        i := i + 1;
      }
      used := Some(sum);
    }

    method CachedCycleUsageSum(daily: Daily, days: seq<Day>, user: User, version: Option<Version>, limit: nat)
      returns (used: Option<nat>)
      modifies this`cache
      ensures (cache, used) == Lookup(old(cache), daily, days, user, version, limit)
    {
      if version.None? {
        used := CycleUsageSumStrict(daily, days, user);
        return;
      }
      var k := Key(days, version.value, user);
      if k in cache.entries {
        used := Some(cache.entries[k]);
        cache := Appended(Popped(cache, k), k, used.value);
        PruneCycleUsageCache(limit);
        return;
      }
      used := CycleUsageSumStrict(daily, days, user);
      if used.Some? {
        cache := Appended(Popped(cache, k), k, used.value);
        PruneCycleUsageCache(limit);
      }
    }

    /** Whether a metered account is over quota; absent when its usage is invalid. */
    method Exhausted(a: Account, daily: Daily, days: seq<Day>, m: real, version: Option<Version>, limit: nat,
                     ghost content: Version -> Daily) returns (verdict: Option<bool>)
      requires Sound(cache, content) && (version.Some? ==> content(version.value) == daily)
      modifies this`cache
      ensures verdict == ExhaustedDirectly(a, daily, days, m)
      ensures Sound(cache, content) && (version.None? ==> cache == old(cache))
      ensures cache == old(cache) || |cache.order| <= limit
    {
      hide Sound, Lookup, StrictSum, OverQuota;
      if !(a.metered && a.quota > 0) {
        return Some(false);
      }
      LookupIsDirect(cache, content, daily, days, a.name, version, limit);
      var used := CachedCycleUsageSum(daily, days, a.name, version, limit);
      verdict := if used.None? then None else Some(OverQuota(used.value, m, a.quota));
    }

    /** Built through the cache, the plan is the plan of direct summation. */
    method BuildStaticAccessPlan(accounts: seq<Account>, daily: Daily, days: seq<Day>, metaValid: bool, m: Option<real>,
                                 live: bool, usageVersion: Option<Version>,
                                     ghost content: Version -> Daily) returns (r: Result<Plan>)
      requires Sound(cache, content) && (usageVersion.Some? ==> content(usageVersion.value) == daily)
      modifies this`cache
      ensures r == DirectPlan(accounts, daily, days, metaValid, m)
      ensures Sound(cache, content)
      ensures !live || usageVersion.None? ==> cache == old(cache)
      ensures cache == old(cache) || |cache.order| <= CacheBound(|accounts|)
    {
      hide Sound, ExhaustedDirectly;
      if !metaValid || m.None? {
        return Rejected;
      }
      var version := if live then usageVersion else None;
      var plan: Plan, claimed: set<nat> := map[], {};
      var i := 0;
      while i < |accounts|
        invariant 0 <= i <= |accounts| && Sound(cache, content)
        invariant version.None? ==> cache == old(cache)
        invariant cache == old(cache) || |cache.order| <= CacheBound(|accounts|)
        invariant PlanFrom(accounts[i..], daily, days, m.value, plan, claimed)
            == PlanFrom(accounts, daily, days, m.value, map[], {})
      {
        var a := accounts[i];
        assert accounts[i..][1..] == accounts[i + 1..];
        i := i + 1;
        if !a.validName || a.configError {
          return Rejected;
        }
        if a.inactive {
          plan := plan[a.name := None];
          continue;
        }
        var exhausted := Exhausted(a, daily, days, m.value, version, CacheBound(|accounts|), content);
        if exhausted.None? {
          return Rejected;
        }
        if exhausted.value {
          plan := plan[a.name := None];
          continue;
        }
        if a.uuid.text != "" {
          if a.uuid.hex.None? || a.uuid.hex.value in claimed {
            return Rejected;
          }
          claimed := claimed + {a.uuid.hex.value};
          plan := plan[a.name := Some(a.uuid)];
        }
      }
      r := Ok(plan);
    }

    method BuildLandingAccessPlan(accounts: seq<Account>, plan: Plan, nodes: set<Egress>)
      returns (r: Result<map<User, Landing>>)
      ensures r == LandingPlan(accounts, plan, nodes)
    {
      var claimed: set<nat>, todo := {}, plan.Keys;
      while todo != {}
        invariant todo <= plan.Keys
        invariant forall u :: u in plan && u !in todo && plan[u].Some? ==> plan[u].value.hex.Some?
        invariant claimed == set u | u in plan && u !in todo && plan[u].Some? && plan[u].value.hex.Some? ::
            plan[u].value.hex.value
      {
        var u :| u in todo;
        if plan[u].Some? {
          if plan[u].value.hex.None? {
            return Rejected;
          }
          claimed := claimed + {plan[u].value.hex.value};
        }
        todo := todo - {u};
      }
      assert claimed == DirectIdentities(plan) && accounts[0..] == accounts;
      var result: map<User, Landing> := map[];
      var i := 0;
      while i < |accounts|
        invariant 0 <= i <= |accounts|
        invariant LandingFrom(accounts[i..], plan, nodes, result, claimed)
            == LandingFrom(accounts, plan, nodes, map[], DirectIdentities(plan))
      {
        var a := accounts[i];
        assert accounts[i..][1..] == accounts[i + 1..];
        i := i + 1;
        if a.name !in plan || plan[a.name].None? || a.allowed.NoneAllowed? || a.allowed == Nodes([]) {
          continue;
        }
        if a.allowed.NotAList? || a.landing.hex.None? || a.landing.hex.value in claimed {
          return Rejected;
        }
        var ids := set e | e in a.allowed.ids && e in nodes;
        if ids == {} {
          continue;
        }
        var selected := if a.selected.Some? && a.selected.value in ids then a.selected else None;
        claimed := claimed + {a.landing.hex.value};
        result := result[a.name := Landing(a.landing.hex.value, selected)];
      }
      r := Ok(result);
    }
  }

  function Plus(sum: nat, rest: Option<nat>): Option<nat> {
    if rest.None? then None else Some(sum + rest.value)
  }
}
