/** The limiter of expensive password checks: sliding windows over the grants, a bounded
    least-recently-used table of sources, and a counted set of leases
    (hysteria/auth_service.py, `PasswordWorkLimiter` and `_PasswordWorkLease`). */
module PasswordWorkLimiter {
  import opened OrderedTable

  type Source = string
  type Tracking = Table<Source, seq<real>>

  const MAX_SOURCE_LENGTH: nat := 128

  datatype Config = Config(window: real, perSource: nat, globalBurst: nat, maxSources: nat, maxConcurrent: nat)

  predicate ValidConfig(c: Config) {
    c.window > 0.0 && c.perSource > 0 && c.globalBurst > 0 && c.maxSources > 0 && c.maxConcurrent > 0
  }

  /** The table tracks the least recently used source first. */
  datatype State = State(attempts: seq<real>, table: Tracking, permits: nat)

  // -------------------------------------------------------------- value functions

  function Pruned(events: seq<real>, cutoff: real): seq<real> {
    if events != [] && events[0] <= cutoff then Pruned(events[1..], cutoff) else events
  }

  function CleanedOne(t: Tracking, s: Source, cutoff: real): Tracking {
    if s !in t.entries then t
    else
      var left := Pruned(t.entries[s], cutoff);
      if left == [] then Popped(t, s) else t.(entries := t.entries[s := left])
  }

  function Cleaned(t: Tracking, todo: seq<Source>, cutoff: real): Tracking
    decreases |todo|
  {
    if todo == [] then t else Cleaned(CleanedOne(t, todo[0], cutoff), todo[1..], cutoff)
  }

  function Evicted(t: Tracking, maxSources: nat): Tracking
    decreases |t.order|
  {
    if |t.order| < maxSources || t.order == [] then t
    else Evicted(Shifted(t), maxSources)
  }

  function Roomy(t: Tracking, maxSources: nat, cutoff: real): Tracking {
    Evicted(if |t.order| >= maxSources then Cleaned(t, t.order, cutoff) else t, maxSources)
  }

  function Events(t: Tracking, s: Source): seq<real> {
    if s in t.entries then t.entries[s] else []
  }

  /** The source's own events leave the table, which keeps room for them. */
  function Touched(c: Config, t: Tracking, s: Source, cutoff: real): Tracking {
    if s in t.entries then Popped(t, s) else Roomy(t, c.maxSources, cutoff)
  }

  /** `try_acquire` once the request is well formed and before its deadline. */
  function Acquire(c: Config, st: State, s: Source, now: real): (State, bool) {
    var cutoff := now - c.window;
    var attempts := Pruned(st.attempts, cutoff);
    var room := Touched(c, st.table, s, cutoff);
    var mine := Pruned(Events(st.table, s), cutoff);
    if |attempts| >= c.globalBurst || |mine| >= c.perSource || st.permits == 0 then
      (State(attempts, Appended(room, s, mine), st.permits), false)
    else
      (State(attempts + [now], Appended(room, s, mine + [now]), st.permits - 1), true)
  }

  // ------------------------------------------------------------------- the class

  class Lease {
    const limiter: Limiter
    var released: bool

    constructor (l: Limiter)
      ensures limiter == l && !released
    {
      limiter, released := l, false;
    }

    /** Releasing twice returns one permit. */
    method Release()
      requires limiter.Valid() && this in limiter.leases
      modifies this, limiter`permits
      ensures limiter.Valid() && released
      ensures limiter.permits == old(limiter.permits) + (if old(released) then 0 else 1)
      ensures limiter.permits <= limiter.c.maxConcurrent
    {
      if released {
        return;
      }
      ghost var before := limiter.Held();
      assert this in before;
      released := true;
      limiter.permits := limiter.permits + 1;
      assert limiter.Held() == before - {this};
    }
  }

  class Limiter {
    const c: Config
    var attempts: seq<real>
    var sources: Tracking
    var permits: nat
    ghost var leases: set<Lease>

    ghost function View(): State
      reads this
    {
      State(attempts, sources, permits)
    }

    /** The leases not yet released. */
    ghost function Held(): set<Lease>
      reads this`leases, leases
    {
      set l | l in leases && !l.released
    }

    ghost predicate Valid()
      reads this, leases
    {
      && ValidConfig(c) && WellFormed(sources) && |sources.order| <= c.maxSources
      && (forall l :: l in leases ==> l.limiter == this)
      && permits + |Held()| == c.maxConcurrent
    }

    constructor (config: Config)
      requires ValidConfig(config)
      ensures Valid() && c == config && View() == State([], Empty(), config.maxConcurrent) && leases == {}
    {
      c, attempts, sources, permits := config, [], Empty(), config.maxConcurrent;
      leases := {};
    }

    static method Prune(list: seq<real>, cutoff: real) returns (kept: seq<real>)
      ensures kept == Pruned(list, cutoff)
    {
      kept := list;
      while kept != [] && kept[0] <= cutoff
        invariant Pruned(kept, cutoff) == Pruned(list, cutoff)
      {
        kept := kept[1..];
      }
    }

    method CleanupSources(cutoff: real)
      modifies this`sources
      ensures sources == Cleaned(old(sources), old(sources.order), cutoff)
    {
      var snapshot := sources.order;
      ghost var before := sources;
      var i := 0;
      while i < |snapshot|
        invariant 0 <= i <= |snapshot|
        invariant Cleaned(sources, snapshot[i..], cutoff) == Cleaned(before, snapshot, cutoff)
      {
        assert snapshot[i..][1..] == snapshot[i + 1..];
        CleanSource(snapshot[i], cutoff);
        i := i + 1;
      }
      assert snapshot[i..] == [];
    }

    method CleanSource(s: Source, cutoff: real)
      modifies this`sources
      ensures sources == CleanedOne(old(sources), s, cutoff)
    {
      if s in sources.entries {
        var left := Prune(sources.entries[s], cutoff);
        if left == [] {
          sources := Popped(sources, s);
        } else {
          sources := sources.(entries := sources.entries[s := left]);
        }
      }
    }

    /** `deadline` is absent when the caller gave none. */
    method TryAcquire(s: Source, now: real, hasDeadline: bool, deadline: real) returns (lease: Lease?)
      requires Valid()
      modifies this
      ensures Valid()
      ensures (s == "" || |s| > MAX_SOURCE_LENGTH || (hasDeadline && now >= deadline)) ==>
          lease == null && View() == old(View())
      ensures !(s == "" || |s| > MAX_SOURCE_LENGTH || (hasDeadline && now >= deadline)) ==>
        (View(), lease != null) == Acquire(c, old(View()), s, now)
      ensures lease == null ==> leases == old(leases)
      ensures lease != null ==> fresh(lease) && leases == old(leases) + {lease} && !lease.released
      ensures permits <= c.maxConcurrent && |sources.order| <= c.maxSources
    {
      lease := null;
      if s == "" || |s| > MAX_SOURCE_LENGTH || (hasDeadline && now >= deadline) {
        return;
      }
      lease := Attempt(s, now);
    }

    /** The section under the limiter's lock. */
    method Attempt(s: Source, now: real) returns (lease: Lease?)
      requires Valid()
      modifies this
      ensures Valid()
      ensures (View(), lease != null) == Acquire(c, old(View()), s, now)
      ensures if lease == null then leases == old(leases)
              else fresh(lease) && leases == old(leases) + {lease} && !lease.released
    {
      hide WellFormed, Pruned, Touched, Appended;
      lease := null;
      var cutoff := now - c.window;
      attempts := Prune(attempts, cutoff);
      var mine := TouchSource(s, cutoff);
      if |attempts| >= c.globalBurst || |mine| >= c.perSource || permits == 0 {
        Track(s, mine);
        return;
      }
      attempts := attempts + [now];
      Track(s, mine + [now]);
      lease := GrantLease();
    }

    method Track(s: Source, list: seq<real>)
      requires WellFormed(sources) && s !in sources.entries && |sources.order| < c.maxSources
      modifies this`sources
      ensures sources == Appended(old(sources), s, list)
      ensures WellFormed(sources) && |sources.order| <= c.maxSources
    {
      AppendedMeans(sources, s, list);
      sources := Appended(sources, s, list);
    }

    method GrantLease() returns (lease: Lease)
      requires Valid() && permits > 0
      modifies this`permits, this`leases
      ensures Valid() && permits == old(permits) - 1
      ensures fresh(lease) && leases == old(leases) + {lease} && !lease.released
    {
      ghost var held := Held();
      permits := permits - 1;
      lease := new Lease(this);
      leases := leases + {lease};
      assert Held() == held + {lease};
    }

    method TouchSource(s: Source, cutoff: real) returns (mine: seq<real>)
      requires ValidConfig(c) && WellFormed(sources) && |sources.order| <= c.maxSources
      modifies this`sources
      ensures sources == Touched(c, old(sources), s, cutoff)
      ensures mine == Pruned(Events(old(sources), s), cutoff)
      ensures WellFormed(sources) && s !in sources.entries && |sources.order| < c.maxSources
    {
      PoppedMeans(sources, s);
      if s in sources.entries {
        mine := Prune(sources.entries[s], cutoff);
        sources := Popped(sources, s);
      } else {
        mine := [];
        MakeRoom(cutoff);
      }
    }

    method MakeRoom(cutoff: real)
      requires ValidConfig(c) && WellFormed(sources)
      modifies this`sources
      ensures sources == Roomy(old(sources), c.maxSources, cutoff)
      ensures WellFormed(sources) && |sources.order| < c.maxSources
      ensures forall s :: s in sources.entries ==> s in old(sources.entries)
    {
      if |sources.order| >= c.maxSources {
        CleanedMeans(sources, sources.order, cutoff);
        CleanupSources(cutoff);
      }
      ghost var before := sources;
      while |sources.order| >= c.maxSources
        invariant WellFormed(sources)
        invariant Evicted(sources, c.maxSources) == Evicted(before, c.maxSources)
        invariant forall s :: s in sources.entries ==> s in before.entries
        decreases |sources.order|
      {
        ShiftedMeans(sources);
        sources := Shifted(sources);
      }
    }
  }

  // ------------------------------------------------------------- table facts

  /** Cleaning keeps exactly the sources with an unexpired grant, pruned. */
  lemma {:induction false} CleanedMeans(t: Tracking, todo: seq<Source>, cutoff: real)
    requires WellFormed(t) && Distinct(todo)
    ensures var r := Cleaned(t, todo, cutoff);
            && WellFormed(r) && |r.order| <= |t.order|
            && forall s :: (s in r.entries <==> s in t.entries && (s in todo ==> Pruned(t.entries[s], cutoff) != []))
                           && (s in r.entries ==>
                               r.entries[s] == if s in todo then Pruned(t.entries[s], cutoff) else t.entries[s])
    decreases |todo|
  {
    if todo != [] {
      var s0 := todo[0];
      PoppedMeans(t, s0);
      var m := CleanedOne(t, s0, cutoff);
      CleanedMeans(m, todo[1..], cutoff);
      assert todo == [s0] + todo[1..];
      assert s0 !in todo[1..];
    }
  }

  // ------------------------------------------------------------- who is forgotten

  /** The order without some sources. */
  function Omitting(order: seq<Source>, gone: set<Source>): seq<Source> {
    if order == [] then []
    else (if order[0] in gone then [] else [order[0]]) + Omitting(order[1..], gone)
  }

  /** Of these, the tracked sources whose grants have all expired. */
  function Forgotten(t: Tracking, todo: seq<Source>, cutoff: real): set<Source> {
    set s | s in todo && s in t.entries && Pruned(t.entries[s], cutoff) == []
  }

  /** Pruning drops the expired grants at the front and no other. */
  lemma {:induction false} PrunedMeans(events: seq<real>, cutoff: real) returns (gone: seq<real>)
    ensures events == gone + Pruned(events, cutoff)
    ensures forall x :: x in gone ==> x <= cutoff
    ensures Pruned(events, cutoff) != [] ==> Pruned(events, cutoff)[0] > cutoff
  {
    gone := [];
    if events != [] && events[0] <= cutoff {
      var rest := PrunedMeans(events[1..], cutoff);
      gone := [events[0]] + rest;
    }
  }

  /** Making room in a full table drops the least recently used sources, one too many for
      the newcomer and no more; the others keep their order and their grants. */
  lemma {:induction false} EvictedMeans(t: Tracking, maxSources: nat)
    requires WellFormed(t) && maxSources > 0
    ensures var k := if |t.order| < maxSources then 0 else |t.order| - maxSources + 1;
            var n := Evicted(t, maxSources);
            && WellFormed(n) && n.order == t.order[k..]
            && forall s :: s in n.entries ==> s in t.entries && n.entries[s] == t.entries[s]
    decreases |t.order|
  {
    if |t.order| >= maxSources {
      hide WellFormed;
      ShiftedMeans(t);
      EvictedMeans(Shifted(t), maxSources);
    }
  }

  lemma {:induction false} WithoutNone(order: seq<Source>)
    ensures Omitting(order, {}) == order
  {
    if order != [] {
      WithoutNone(order[1..]);
    }
  }

  lemma {:induction false} WithoutOneMore(order: seq<Source>, gone: set<Source>, s: Source)
    ensures Without(Omitting(order, gone), s) == Omitting(order, gone + {s})
  {
    if order != [] {
      WithoutOneMore(order[1..], gone, s);
      var rest := Omitting(order[1..], gone);
      assert ([order[0]] + rest)[1..] == rest;
      assert [] + rest == rest;
    }
  }

  lemma {:induction false} CleanedOrder(t: Tracking, order: seq<Source>, gone: set<Source>, todo: seq<Source>,
                                        cutoff: real)
    requires t.order == Omitting(order, gone) && Distinct(todo)
    ensures Cleaned(t, todo, cutoff).order == Omitting(order, gone + Forgotten(t, todo, cutoff))
    decreases |todo|
  {
    if todo == [] {
      assert gone + Forgotten(t, todo, cutoff) == gone;
    } else {
      var s0, m := todo[0], CleanedOne(t, todo[0], cutoff);
      assert todo == [s0] + todo[1..] && s0 !in todo[1..];
      WithoutOneMore(order, gone, s0);
      var more := if s0 in t.entries && Pruned(t.entries[s0], cutoff) == [] then gone + {s0} else gone;
      CleanedOrder(m, order, more, todo[1..], cutoff);
      ForgottenSplits(t, todo, cutoff);
      assert gone + Forgotten(t, todo, cutoff) == more + Forgotten(m, todo[1..], cutoff);
    }
  }

  lemma ForgottenSplits(t: Tracking, todo: seq<Source>, cutoff: real)
    requires todo != [] && Distinct(todo)
    ensures var (s0, m) := (todo[0], CleanedOne(t, todo[0], cutoff));
            Forgotten(t, todo, cutoff)
            == (if s0 in t.entries && Pruned(t.entries[s0], cutoff) == [] then {s0} else {})
               + Forgotten(m, todo[1..], cutoff)
  {
    assert todo == [todo[0]] + todo[1..] && todo[0] !in todo[1..];
  }

  /** Who is tracked after a request, and in what order: the one that asked is the most
      recent; when it is new and the table full, those whose grants have all expired are
      dropped, and of the rest the least recently used, until there is room for one. */
  lemma RequestIsRecent(c: Config, st: State, s: Source, now: real)
    requires ValidConfig(c) && WellFormed(st.table) && |st.table.order| <= c.maxSources
    ensures var (t, cutoff) := (st.table, now - c.window);
            var gone := if s in t.entries then {s}
                        else if |t.order| < c.maxSources then {}
                        else Forgotten(t, t.order, cutoff);
            var left := Omitting(t.order, gone);
            var k := if |left| < c.maxSources then 0 else |left| - c.maxSources + 1;
            Acquire(c, st, s, now).0.table.order == left[k..] + [s]
  {
    hide Acquire, Pruned, Touched, WellFormed, Omitting, Forgotten;
    AcquireOrder(c, st, s, now);
    TouchedOrder(c, st.table, s, now - c.window);
  }

  lemma AcquireOrder(c: Config, st: State, s: Source, now: real)
    ensures Acquire(c, st, s, now).0.table.order == Touched(c, st.table, s, now - c.window).order + [s]
  {
    hide Pruned, Touched, Events;
  }

  lemma TouchedOrder(c: Config, t: Tracking, s: Source, cutoff: real)
    requires ValidConfig(c) && WellFormed(t) && |t.order| <= c.maxSources
    ensures var gone := if s in t.entries then {s}
                        else if |t.order| < c.maxSources then {}
                        else Forgotten(t, t.order, cutoff);
            var left := Omitting(t.order, gone);
            var k := if |left| < c.maxSources then 0 else |left| - c.maxSources + 1;
            Touched(c, t, s, cutoff).order == left[k..]
  {
    hide Pruned, Evicted, WellFormed, Cleaned, Forgotten, Omitting, Without;
    WithoutNone(t.order);
    if s in t.entries {
      WithoutOneMore(t.order, {}, s);
      assert {} + {s} == {s};
      PoppedMeans(t, s);
      assert Touched(c, t, s, cutoff).order[0..] == Touched(c, t, s, cutoff).order;
    } else if |t.order| < c.maxSources {
      EvictedMeans(t, c.maxSources);
    } else {
      TableDistinct(t);
      CleanedOrder(t, t.order, {}, t.order, cutoff);
      assert {} + Forgotten(t, t.order, cutoff) == Forgotten(t, t.order, cutoff);
      CleanedMeans(t, t.order, cutoff);
      EvictedMeans(Cleaned(t, t.order, cutoff), c.maxSources);
    }
  }

  lemma TableDistinct(t: Tracking)
    requires WellFormed(t)
    ensures Distinct(t.order)
  {
  }

  /** What a request costs: a refused one nothing but what has expired, a granted one a
      permit and one event in each of the two windows. */
  lemma RequestCosts(c: Config, st: State, s: Source, now: real)
    ensures var (n, granted) := Acquire(c, st, s, now);
            var (all, mine) := (Pruned(st.attempts, now - c.window), Pruned(Events(st.table, s), now - c.window));
            && (granted <==> |all| < c.globalBurst && |mine| < c.perSource && st.permits > 0)
            && n.attempts == (if granted then all + [now] else all)
            && Events(n.table, s) == (if granted then mine + [now] else mine)
            && n.permits == (if granted then st.permits - 1 else st.permits)
  {
    hide Pruned, Touched;
  }

  /** And what it leaves the others: their grants, or those of them that have not expired. */
  lemma OtherSourcesKept(c: Config, st: State, s: Source, v: Source, now: real)
    requires ValidConfig(c) && WellFormed(st.table) && v != s
    ensures var t := Acquire(c, st, s, now).0.table;
            v in t.entries ==>
              && v in st.table.entries
              && t.entries[v] in {st.table.entries[v], Pruned(st.table.entries[v], now - c.window)}
  {
    hide Pruned, Evicted, WellFormed;
    var t, cutoff := st.table, now - c.window;
    TableDistinct(t);
    CleanedMeans(t, t.order, cutoff);
    EvictedMeans(t, c.maxSources);
    EvictedMeans(Cleaned(t, t.order, cutoff), c.maxSources);
    if v in t.entries {
      TableHas(t, v);
    }
  }

  lemma TableHas(t: Tracking, v: Source)
    requires WellFormed(t)
    ensures v in t.entries <==> v in t.order
  {
  }
}
