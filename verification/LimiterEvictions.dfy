/** The per-source bound of the password limiter holds over all runs exactly when the global
    burst is smaller than the table of sources, or no larger than the source burst: else a
    run evicts a source that has an unexpired grant and then serves it in full again. */
module LimiterEvictions {
  import opened OrderedTable
  import opened PasswordWorkLimiter
  import opened LimiterWindows

  // ------------------------------------------------------------------ building runs

  /** A run from the fresh limiter ends here, at this reading of the clock. */
  ghost predicate Reachable(c: Config, y: Sys, clock: real) {
    exists calls :: Ordered(calls, 0.0) && Run(c, Fresh(c), calls) == y && Clock(calls, 0.0) == clock
  }

  lemma {:induction false} RunsOn(c: Config, y: Sys, calls: seq<Call>, clock: real, a: Call)
    requires Ordered(calls, clock) && Clock(calls, clock) <= After(a, Clock(calls, clock))
    ensures Ordered(calls + [a], clock) && Run(c, y, calls + [a]) == Step(c, Run(c, y, calls), a)
    ensures Clock(calls + [a], clock) == After(a, Clock(calls, clock))
    decreases calls
  {
    hide Step, After;
    if calls == [] {
      assert calls + [a] == [a] && [a][1..] == [];
    } else {
      assert (calls + [a])[1..] == calls[1..] + [a];
      RunsOn(c, Step(c, y, calls[0]), calls[1..], After(calls[0], clock), a);
    }
  }

  lemma Reaches(c: Config, y: Sys, clock: real, a: Call)
    requires Reachable(c, y, clock) && clock <= After(a, clock)
    ensures Reachable(c, Step(c, y, a), After(a, clock))
  {
    hide Step, After, Run, Ordered, Clock;
    var calls :| Ordered(calls, 0.0) && Run(c, Fresh(c), calls) == y && Clock(calls, 0.0) == clock;
    RunsOn(c, Fresh(c), calls, 0.0, a);
  }

  predicate Named(s: Source) {
    s != "" && |s| <= MAX_SOURCE_LENGTH
  }

  /** Every lease has been released. */
  ghost predicate Rested(c: Config, y: Sys) {
    y.st.permits == c.maxConcurrent && forall i :: i in y.released ==> i < |y.grants|
  }

  /** One request, and the release of its lease if it got one. */
  function Served(c: Config, y: Sys, s: Source, now: real): Sys {
    Step(c, Step(c, y, Ask(s, now, false)), Release(|y.grants|))
  }

  predicate Granted(c: Config, y: Sys, s: Source, now: real) {
    && |Pruned(y.st.attempts, now - c.window)| < c.globalBurst
    && |Pruned(Events(y.st.table, s), now - c.window)| < c.perSource
  }

  lemma ServedMeans(c: Config, y: Sys, clock: real, s: Source, now: real)
    requires ValidConfig(c) && Rested(c, y) && Named(s) && Reachable(c, y, clock) && clock <= now
    ensures var n := Served(c, y, s, now);
            var stamp := if Granted(c, y, s, now) then [now] else [];
            && Rested(c, n) && Reachable(c, n, now)
            && n.st.attempts == Pruned(y.st.attempts, now - c.window) + stamp
            && n.st.table == Appended(Touched(c, y.st.table, s, now - c.window), s,
                                      Pruned(Events(y.st.table, s), now - c.window) + stamp)
            && n.grants == y.grants + (if Granted(c, y, s, now) then [Grant(s, now)] else [])
  {
    hide Pruned, Touched, Appended, Events;
    Reaches(c, y, clock, Ask(s, now, false));
    var m := Step(c, y, Ask(s, now, false));
    Reaches(c, m, now, Release(|y.grants|));
    if !Granted(c, y, s, now) {
      assert Pruned(y.st.attempts, now - c.window) + [] == Pruned(y.st.attempts, now - c.window);
      assert Pruned(Events(y.st.table, s), now - c.window) + [] == Pruned(Events(y.st.table, s), now - c.window);
      assert y.grants + [] == y.grants;
    }
  }

  /** A request with room in both windows. */
  lemma GrantServed(c: Config, y: Sys, clock: real, s: Source, now: real, mine: seq<real>, list: seq<real>,
                     a: Source)
    requires list == mine + [now]
    requires ValidConfig(c) && Rested(c, y) && Named(s) && Reachable(c, y, clock) && clock <= now
    requires Pruned(Events(y.st.table, s), now - c.window) == mine && |mine| < c.perSource
    requires |Pruned(y.st.attempts, now - c.window)| < c.globalBurst
    ensures var n := Served(c, y, s, now);
            && Rested(c, n) && Reachable(c, n, now)
            && n.st.attempts == Pruned(y.st.attempts, now - c.window) + [now]
            && n.st.table == Appended(Touched(c, y.st.table, s, now - c.window), s, list)
            && TimesOf(n.grants, a) == if s == a then TimesOf(y.grants, a) + [now] else TimesOf(y.grants, a)
  {
    hide Pruned, Touched, Appended, Events, Served, Reachable, TimesOf;
    ServedMeans(c, y, clock, s, now);
    TimesGrow(y.grants, s, now, a);
  }

  /** The first grant of a source. */
  lemma FirstGrant(c: Config, y: Sys, clock: real, s: Source, now: real)
    requires ValidConfig(c) && Rested(c, y) && Named(s) && Reachable(c, y, clock) && clock <= now
    requires Pruned(Events(y.st.table, s), now - c.window) == [] && TimesOf(y.grants, s) == []
    requires |Pruned(y.st.attempts, now - c.window)| < c.globalBurst
    ensures var n := Served(c, y, s, now);
            && Rested(c, n) && Reachable(c, n, now)
            && n.st.attempts == Pruned(y.st.attempts, now - c.window) + [now]
            && n.st.table == Appended(Touched(c, y.st.table, s, now - c.window), s, [now])
            && TimesOf(n.grants, s) == [now]
  {
    hide Pruned, Touched, Appended, Events, Served, Reachable, TimesOf;
    assert [] + [now] == [now];
    GrantServed(c, y, clock, s, now, [], [now], s);
  }

  /** A request in a full global window. */
  lemma RefusalServed(c: Config, y: Sys, clock: real, s: Source, now: real, mine: seq<real>)
    requires ValidConfig(c) && Rested(c, y) && Named(s) && Reachable(c, y, clock) && clock <= now
    requires Pruned(Events(y.st.table, s), now - c.window) == mine
    requires Pruned(y.st.attempts, now - c.window) == y.st.attempts && |y.st.attempts| >= c.globalBurst
    ensures var n := Served(c, y, s, now);
            && Rested(c, n) && Reachable(c, n, now) && n.st.attempts == y.st.attempts && n.grants == y.grants
            && n.st.table == Appended(Touched(c, y.st.table, s, now - c.window), s, mine)
  {
    hide Pruned, Touched, Appended, Events, Served, Reachable;
    ServedMeans(c, y, clock, s, now);
    assert mine + [] == mine && y.st.attempts + [] == y.st.attempts && y.grants + [] == y.grants;
  }

  lemma TimesGrow(g: seq<Grant>, s: Source, now: real, a: Source)
    ensures TimesOf(g + [Grant(s, now)], a) == if s == a then TimesOf(g, a) + [now] else TimesOf(g, a)
  {
    assert TimesOf(g, a) + [] == TimesOf(g, a);
    assert (g + [Grant(s, now)])[..|g|] == g;
  }

  // ---------------------------------------------------------------------- the table

  /** Every tracked source has only unexpired grants. */
  ghost predicate Alive(t: Tracking, cutoff: real) {
    WellFormed(t) && forall x :: x in t.entries ==> t.entries[x] != [] && Above(t.entries[x], cutoff)
  }

  lemma {:induction false} CleanedSame(t: Tracking, todo: seq<Source>, cutoff: real)
    requires Alive(t, cutoff)
    ensures Cleaned(t, todo, cutoff) == t
    decreases |todo|
  {
    if todo != [] {
      assert CleanedOne(t, todo[0], cutoff) == t;
      CleanedSame(t, todo[1..], cutoff);
    }
  }

  /** A newcomer to a full table of unexpired grants evicts the least recently used. */
  lemma NewcomerEvicts(c: Config, t: Tracking, s: Source, cutoff: real)
    requires ValidConfig(c) && Alive(t, cutoff) && s !in t.entries && |t.order| <= c.maxSources
    ensures Touched(c, t, s, cutoff) == if |t.order| >= c.maxSources then Shifted(t) else t
  {
    CleanedSame(t, t.order, cutoff);
    hide WellFormed, Cleaned;
    if |t.order| >= c.maxSources {
      assert Evicted(Shifted(t), c.maxSources) == Shifted(t);
    }
  }

  lemma WithoutFront(order: seq<Source>)
    requires Distinct(order) && order != []
    ensures Without(order, order[0]) == order[1..]
  {
    WithoutAbsent(order[1..], order[0]);
  }

  function Last(q: seq<Source>, m: nat): seq<Source> {
    if |q| <= m then q else q[|q| - m..]
  }

  lemma LastGrows(q: seq<Source>, x: Source, m: nat)
    requires m > 0
    ensures var l := Last(q, m);
            && (if |l| >= m then l[1..] else l) == Last(q, m - 1)
            && Last(q, m - 1) + [x] == Last(q + [x], m)
  {
  }

  // ------------------------------------------------------------- the fillers, at time 0

  ghost predicate AllAt(list: seq<real>, x: real) {
    forall i :: 0 <= i < |list| ==> list[i] == x
  }

  /** The table tracks the last of the sources served, each with one grant at time 0. */
  ghost predicate FilledTable(t: Tracking, served: seq<Source>, m: nat) {
    && WellFormed(t) && t.order == Last(served, m)
    && forall x :: x in t.entries ==> t.entries[x] == [0.0]
  }

  /** The first i fillers have been granted one request each. */
  ghost predicate Filled(c: Config, y: Sys, fillers: seq<Source>, a: Source, i: nat) {
    && i <= |fillers| && Rested(c, y) && Reachable(c, y, 0.0)
    && |y.st.attempts| == i && AllAt(y.st.attempts, 0.0)
    && FilledTable(y.st.table, fillers[..i], c.maxSources)
    && TimesOf(y.grants, a) == []
  }

  /** The cast: one source to be served twice, one to evict it, and the fillers. */
  ghost predicate Cast(c: Config, a: Source, z: Source, fillers: seq<Source>) {
    && ValidConfig(c) && c.maxSources <= c.globalBurst && c.perSource < c.globalBurst
    && Distinct(fillers) && |fillers| == c.globalBurst - 1 && a != z && a !in fillers && z !in fillers
    && Named(a) && Named(z) && forall f :: f in fillers ==> Named(f)
  }

  lemma FilledStarts(c: Config, a: Source, z: Source, fillers: seq<Source>)
    requires Cast(c, a, z, fillers)
    ensures Filled(c, Fresh(c), fillers, a, 0)
  {
    assert Ordered([], 0.0) && Run(c, Fresh(c), []) == Fresh(c) && Clock([], 0.0) == 0.0;
  }

  /** A newcomer to that table takes the end of it, and the oldest source leaves. */
  lemma NewcomerJoins(c: Config, t: Tracking, served: seq<Source>, s: Source, stamp: real, cutoff: real)
    requires ValidConfig(c) && FilledTable(t, served, c.maxSources) && s !in served && cutoff < 0.0
    ensures s !in t.entries
    ensures var n := Appended(Touched(c, t, s, cutoff), s, [stamp]);
            && WellFormed(n) && n.order == Last(served, c.maxSources - 1) + [s]
            && n.order == Last(served + [s], c.maxSources)
            && forall x :: x in n.entries ==> n.entries[x] == if x == s then [stamp] else [0.0]
  {
    var m := c.maxSources;
    assert forall x :: x in t.order ==> x in served;
    assert Alive(t, cutoff);
    NewcomerEvicts(c, t, s, cutoff);
    LastGrows(served, s, m);
    var room := if |t.order| >= m then Shifted(t) else t;
    if |t.order| >= m {
      ShiftedMeans(t);
    }
    AppendedMeans(room, s, [stamp]);
  }

  lemma Unknown(t: Tracking, s: Source, cutoff: real)
    requires s !in t.entries
    ensures Pruned(Events(t, s), cutoff) == []
  {
  }

  lemma FillerJoins(c: Config, t: Tracking, served: seq<Source>, s: Source, next: seq<Source>, cutoff: real)
    requires ValidConfig(c) && FilledTable(t, served, c.maxSources) && s !in served && cutoff < 0.0
    requires next == served + [s]
    ensures Pruned(Events(t, s), cutoff) == []
    ensures FilledTable(Appended(Touched(c, t, s, cutoff), s, [0.0]), next, c.maxSources)
  {
    NewcomerJoins(c, t, served, s, 0.0, cutoff);
    Unknown(t, s, cutoff);
    hide WellFormed, Touched, Last, Pruned;
  }

  lemma PrunedAbove(list: seq<real>, x: real, cutoff: real)
    requires AllAt(list, x) && cutoff < x
    ensures Pruned(list, cutoff) == list
  {
  }

  lemma NextFiller(c: Config, a: Source, z: Source, fillers: seq<Source>, i: nat)
    requires Cast(c, a, z, fillers) && i < |fillers|
    ensures ValidConfig(c) && i + 1 < c.globalBurst && Named(fillers[i]) && fillers[i] != a
    ensures fillers[i] !in fillers[..i] && fillers[..i + 1] == fillers[..i] + [fillers[i]]
  {
    assert fillers[i] in fillers;
  }

  lemma OneMoreZero(list: seq<real>)
    requires AllAt(list, 0.0)
    ensures AllAt(list + [0.0], 0.0)
  {
  }

  lemma FillerGrant(c: Config, y: Sys, s: Source, a: Source)
    requires ValidConfig(c) && Rested(c, y) && Named(s) && Reachable(c, y, 0.0) && s != a
    requires Pruned(Events(y.st.table, s), 0.0 - c.window) == []
    requires AllAt(y.st.attempts, 0.0) && |y.st.attempts| < c.globalBurst
    ensures var n := Served(c, y, s, 0.0);
            && Rested(c, n) && Reachable(c, n, 0.0)
            && AllAt(n.st.attempts, 0.0) && |n.st.attempts| == |y.st.attempts| + 1
            && n.st.table == Appended(Touched(c, y.st.table, s, 0.0 - c.window), s, [0.0])
            && TimesOf(n.grants, a) == TimesOf(y.grants, a)
  {
    hide Pruned, Touched, Appended, Events, Served, Reachable, TimesOf, AllAt;
    PrunedAbove(y.st.attempts, 0.0, 0.0 - c.window);
    OneMoreZero(y.st.attempts);
    assert [] + [0.0] == [0.0];
    GrantServed(c, y, 0.0, s, 0.0, [], [0.0], a);
  }

  lemma FillOne(c: Config, y: Sys, fillers: seq<Source>, a: Source, z: Source, i: nat)
    requires Cast(c, a, z, fillers) && Filled(c, y, fillers, a, i) && i < |fillers|
    ensures Filled(c, Served(c, y, fillers[i], 0.0), fillers, a, i + 1)
  {
    hide Served, Touched, Reachable, Distinct, TimesOf, FilledTable, Appended, Pruned, Rested, Events, Cast, AllAt,
        Named;
    NextFiller(c, a, z, fillers, i);
    FillerJoins(c, y.st.table, fillers[..i], fillers[i], fillers[..i + 1], 0.0 - c.window);
    FillerGrant(c, y, fillers[i], a);
  }

  lemma {:induction false} FillAll(c: Config, y: Sys, fillers: seq<Source>, a: Source, z: Source, i: nat)
    requires Cast(c, a, z, fillers) && Filled(c, y, fillers, a, i) && i <= |fillers|
    ensures exists n :: Filled(c, n, fillers, a, |fillers|)
    decreases |fillers| - i
  {
    hide Filled, Cast, Served;
    if i < |fillers| {
      FillOne(c, y, fillers, a, z, i);
      FillAll(c, Served(c, y, fillers[i], 0.0), fillers, a, z, i + 1);
    }
  }

  // -------------------------------------------------- half a window later: the eviction

  ghost predicate TurnedTable(t: Tracking, tracked: seq<Source>, a: Source, half: real, j: nat)
    requires j <= |tracked|
  {
    && WellFormed(t) && t.order == tracked[j..] + [a] + tracked[..j]
    && forall x :: x in t.entries ==> t.entries[x] == if x == a then [half] else [0.0]
  }

  /** The global window is full: all but the last attempt are at time 0. */
  ghost predicate FullAttempts(list: seq<real>, burst: nat, half: real) {
    burst > 1 && |list| == burst && AllAt(list[..burst - 1], 0.0) && list[burst - 1] == half
  }

  /** The source has its first grant; j of the tracked fillers were refused since. */
  ghost predicate Turned(c: Config, y: Sys, tracked: seq<Source>, a: Source, j: nat) {
    && j <= |tracked| && |tracked| == c.maxSources - 1 && Distinct(tracked) && a !in tracked
    && Rested(c, y) && Reachable(c, y, c.window / 2.0)
    && FullAttempts(y.st.attempts, c.globalBurst, c.window / 2.0)
    && TurnedTable(y.st.table, tracked, a, c.window / 2.0, j)
    && TimesOf(y.grants, a) == [c.window / 2.0]
  }

  lemma TrackedFillers(c: Config, a: Source, z: Source, fillers: seq<Source>)
    requires Cast(c, a, z, fillers)
    ensures var tracked := Last(fillers, c.maxSources - 1);
            && |tracked| == c.maxSources - 1 && Distinct(tracked) && a !in tracked && z !in tracked
            && forall x :: x in tracked ==> Named(x)
    ensures ValidConfig(c) && c.globalBurst > 1 && |fillers| == c.globalBurst - 1 && Named(a) && a !in fillers
    ensures fillers[..|fillers|] == fillers
  {
    var tracked := Last(fillers, c.maxSources - 1);
    assert forall x :: x in tracked ==> x in fillers;
  }

  lemma TurnedJoins(c: Config, t: Tracking, fillers: seq<Source>, a: Source, half: real, cutoff: real)
    requires ValidConfig(c) && FilledTable(t, fillers, c.maxSources) && a !in fillers && cutoff < 0.0
    ensures TurnedTable(Appended(Touched(c, t, a, cutoff), a, [half]), Last(fillers, c.maxSources - 1), a, half, 0)
  {
    NewcomerJoins(c, t, fillers, a, half, cutoff);
    hide WellFormed, Touched;
    var tracked := Last(fillers, c.maxSources - 1);
    assert tracked[0..] + [a] + tracked[..0] == tracked + [a];
  }

  lemma NowFull(list: seq<real>, burst: nat, half: real)
    requires burst > 1 && |list| == burst - 1 && AllAt(list, 0.0)
    ensures FullAttempts(list + [half], burst, half)
  {
    assert (list + [half])[..burst - 1] == list;
  }

  lemma TurnStarts(c: Config, y: Sys, fillers: seq<Source>, a: Source, z: Source)
    requires Cast(c, a, z, fillers) && Filled(c, y, fillers, a, |fillers|)
    ensures Turned(c, Served(c, y, a, c.window / 2.0), Last(fillers, c.maxSources - 1), a, 0)
  {
    hide Served, Touched, Reachable, Distinct, TimesOf, FilledTable, Appended, Pruned, Rested, Events, Last,
         TurnedTable, FullAttempts, Cast, AllAt, Named;
    var half := c.window / 2.0;
    var cutoff := half - c.window;
    TrackedFillers(c, a, z, fillers);
    PrunedAbove(y.st.attempts, 0.0, cutoff);
    NewcomerJoins(c, y.st.table, fillers, a, half, cutoff);
    Unknown(y.st.table, a, cutoff);
    TurnedJoins(c, y.st.table, fillers, a, half, cutoff);
    FirstGrant(c, y, 0.0, a, half);
    NowFull(y.st.attempts, c.globalBurst, half);
  }

  lemma AttemptsStay(list: seq<real>, burst: nat, half: real, cutoff: real)
    requires FullAttempts(list, burst, half) && cutoff < 0.0
    ensures Pruned(list, cutoff) == list && |list| == burst
  {
    assert list[..burst - 1][0] == 0.0;
  }

  lemma Rotated(tracked: seq<Source>, a: Source, j: nat)
    requires j < |tracked|
    ensures var order := tracked[j..] + [a] + tracked[..j];
            order[0] == tracked[j] && order[1..] + [tracked[j]] == tracked[j + 1..] + [a] + tracked[..j + 1]
  {
  }

  lemma FrontMoves(t: Tracking, s: Source, list: seq<real>)
    requires WellFormed(t) && t.order != [] && t.order[0] == s && t.entries[s] == list
    ensures Appended(Popped(t, s), s, list) == Table(t.order[1..] + [s], t.entries)
    ensures WellFormed(Table(t.order[1..] + [s], t.entries))
  {
    WithoutFront(t.order);
    PoppedMeans(t, s);
    AppendedMeans(Popped(t, s), s, list);
    assert (t.entries - {s})[s := list] == t.entries;
  }

  lemma MovedToEnd(c: Config, t: Tracking, tracked: seq<Source>, a: Source, half: real, j: nat, cutoff: real)
    requires j < |tracked| && TurnedTable(t, tracked, a, half, j) && a !in tracked
    ensures Events(t, tracked[j]) == [0.0]
    ensures TurnedTable(Appended(Touched(c, t, tracked[j], cutoff), tracked[j], [0.0]), tracked, a, half, j + 1)
  {
    var s := tracked[j];
    Rotated(tracked, a, j);
    assert s in t.order;
    FrontMoves(t, s, [0.0]);
    hide WellFormed, Popped;
  }

  lemma OneZero(cutoff: real)
    requires cutoff < 0.0
    ensures Pruned([0.0], cutoff) == [0.0]
  {
  }

  lemma TurnOne(c: Config, y: Sys, tracked: seq<Source>, a: Source, j: nat)
    requires ValidConfig(c) && Turned(c, y, tracked, a, j) && j < |tracked| && Named(tracked[j])
    ensures Turned(c, Served(c, y, tracked[j], c.window / 2.0), tracked, a, j + 1)
  {
    hide Served, Reachable, Distinct, TurnedTable, Touched, TimesOf, Appended, Pruned, Events, FullAttempts, Rested;
    var half := c.window / 2.0;
    var cutoff := half - c.window;
    OneZero(cutoff);
    AttemptsStay(y.st.attempts, c.globalBurst, half, cutoff);
    MovedToEnd(c, y.st.table, tracked, a, half, j, cutoff);
    RefusalServed(c, y, half, tracked[j], half, [0.0]);
  }

  lemma {:induction false} TurnAll(c: Config, y: Sys, tracked: seq<Source>, a: Source, j: nat)
    requires ValidConfig(c) && Turned(c, y, tracked, a, j) && j <= |tracked|
    requires forall x :: x in tracked ==> Named(x)
    ensures exists n :: Turned(c, n, tracked, a, |tracked|)
    decreases |tracked| - j
  {
    hide Turned, Served, Named;
    if j < |tracked| {
      TurnOne(c, y, tracked, a, j);
      TurnAll(c, Served(c, y, tracked[j], c.window / 2.0), tracked, a, j + 1);
    }
  }

  /** The source is tracked no more, and j more grants of it lie a full window after the
      fillers'. */
  ghost predicate Again(c: Config, y: Sys, a: Source, j: nat) {
    && Rested(c, y) && Reachable(c, y, if j == 0 then c.window / 2.0 else c.window)
    && |Pruned(y.st.attempts, 0.0)| == 1 + j && |Pruned(Events(y.st.table, a), 0.0)| == j
    && TimesOf(y.grants, a) == [c.window / 2.0] + seq(j, _ => c.window)
  }

  lemma {:induction false} ZerosPruned(list: seq<real>, half: real)
    requires AllAt(list, 0.0) && half > 0.0
    ensures Pruned(list + [half], 0.0) == [half]
  {
    if list == [] {
      assert list + [half] == [half];
    } else {
      assert (list + [half])[1..] == list[1..] + [half];
      ZerosPruned(list[1..], half);
    }
  }

  lemma StrangerJoins(c: Config, t: Tracking, tracked: seq<Source>, a: Source, z: Source, half: real, cutoff: real)
    requires ValidConfig(c) && TurnedTable(t, tracked, a, half, |tracked|) && |tracked| == c.maxSources - 1
    requires z != a && z !in tracked && cutoff < 0.0 < half
    ensures Pruned(Events(t, z), cutoff) == []
    ensures Pruned(Events(Appended(Touched(c, t, z, cutoff), z, []), a), 0.0) == []
  {
    assert t.order == [a] + tracked;
    assert z !in t.order;
    assert Alive(t, cutoff);
    NewcomerEvicts(c, t, z, cutoff);
  }

  lemma OnlyHalfStays(list: seq<real>, burst: nat, half: real)
    requires FullAttempts(list, burst, half) && half > 0.0
    ensures Pruned(list, 0.0) == [half]
  {
    assert list == list[..burst - 1] + [half];
    ZerosPruned(list[..burst - 1], half);
  }

  lemma StrangerEvicts(c: Config, y: Sys, tracked: seq<Source>, a: Source, z: Source)
    requires ValidConfig(c) && Turned(c, y, tracked, a, |tracked|)
    requires Named(z) && z != a && z !in tracked
    ensures Again(c, Served(c, y, z, c.window / 2.0), a, 0)
  {
    hide Served, Reachable, Distinct, TurnedTable, Touched, TimesOf, Appended, Pruned, Events, FullAttempts, Rested;
    var half := c.window / 2.0;
    var cutoff := half - c.window;
    AttemptsStay(y.st.attempts, c.globalBurst, half, cutoff);
    StrangerJoins(c, y.st.table, tracked, a, z, half, cutoff);
    RefusalServed(c, y, half, z, half, []);
    OnlyHalfStays(y.st.attempts, c.globalBurst, half);
    assert [half] + seq(0, _ => c.window) == [half];
  }

  // ------------------------------------------------- a full window later: served again

  lemma {:induction false} PrunedHead(list: seq<real>, cutoff: real)
    ensures Pruned(list, cutoff) == [] || Pruned(list, cutoff)[0] > cutoff
  {
    if list != [] && list[0] <= cutoff {
      PrunedHead(list[1..], cutoff);
    }
  }

  lemma PrunedThenLater(list: seq<real>, cutoff: real, x: real)
    requires x > cutoff
    ensures Pruned(Pruned(list, cutoff) + [x], cutoff) == Pruned(list, cutoff) + [x]
  {
    PrunedHead(list, cutoff);
  }

  lemma AgainOne(c: Config, y: Sys, a: Source, j: nat)
    requires ValidConfig(c) && c.perSource < c.globalBurst && Named(a) && Again(c, y, a, j) && j < c.perSource
    ensures Again(c, Served(c, y, a, c.window), a, j + 1)
  {
    hide Pruned, Touched, Reachable, TimesOf, Served;
    ServedMeans(c, y, if j == 0 then c.window / 2.0 else c.window, a, c.window);
    PrunedThenLater(y.st.attempts, 0.0, c.window);
    PrunedThenLater(Events(y.st.table, a), 0.0, c.window);
    TimesGrow(y.grants, a, c.window, a);
    assert c.window - c.window == 0.0;
    assert [c.window / 2.0] + seq(j, _ => c.window) + [c.window] == [c.window / 2.0] + seq(j + 1, _ => c.window);
  }

  lemma {:induction false} AgainAll(c: Config, y: Sys, a: Source, j: nat)
    requires ValidConfig(c) && c.perSource < c.globalBurst && Named(a) && Again(c, y, a, j) && j <= c.perSource
    ensures exists n :: Again(c, n, a, c.perSource)
    decreases c.perSource - j
  {
    if j < c.perSource {
      AgainOne(c, y, a, j);
      hide Again, Served;
      AgainAll(c, Served(c, y, a, c.window), a, j + 1);
    }
  }

  lemma {:induction false} AllInside(times: seq<real>, from: real, to: real)
    requires forall i :: 0 <= i < |times| ==> from < times[i] <= to
    ensures CountIn(times, from, to) == |times|
  {
    if times != [] {
      AllInside(times[1..], from, to);
    }
  }

  // -------------------------------------------------------------------- the theorem

  /** What the window that begins here holds of the source is within its burst. */
  ghost predicate WithinBurst(c: Config, calls: seq<Call>, s: Source, from: real) {
    CountIn(TimesOf(Run(c, Fresh(c), calls).grants, s), from, from + c.window) <= c.perSource
  }

  /** In no run does any window hold more grants of a source than its burst. */
  ghost predicate SourceBoundHolds(c: Config) {
    forall calls, clock, s, from :: Ordered(calls, clock) ==> WithinBurst(c, calls, s, from)
  }

  lemma EvictionBreaksTheBound(c: Config, a: Source, z: Source, fillers: seq<Source>)
    requires Cast(c, a, z, fillers)
    ensures !SourceBoundHolds(c)
  {
    hide Filled, Turned;
    FilledStarts(c, a, z, fillers);
    FillAll(c, Fresh(c), fillers, a, z, 0);
    var full :| Filled(c, full, fillers, a, |fillers|);
    TurnStarts(c, full, fillers, a, z);
    var tracked := Last(fillers, c.maxSources - 1);
    TrackedFillers(c, a, z, fillers);
    TurnAll(c, Served(c, full, a, c.window / 2.0), tracked, a, 0);
    var turned :| Turned(c, turned, tracked, a, |tracked|);
    StrangerEvicts(c, turned, tracked, a, z);
    AgainAll(c, Served(c, turned, z, c.window / 2.0), a, 0);
    var n :| Again(c, n, a, c.perSource);
    TooManyGrants(c, n, a);
  }

  lemma TooManyGrants(c: Config, n: Sys, a: Source)
    requires ValidConfig(c) && Again(c, n, a, c.perSource)
    ensures !SourceBoundHolds(c)
  {
    hide Run, Ordered, Clock, CountIn, TimesOf, Pruned;
    var calls :| Ordered(calls, 0.0) && Run(c, Fresh(c), calls) == n;
    var from := c.window / 4.0;
    AllInside(TimesOf(n.grants, a), from, from + c.window);
    assert !WithinBurst(c, calls, a, from);
  }

  /** With names enough for the global burst, the per-source bound holds over all runs if
      and only if one of the two conditions on the configuration does. */
  lemma SourceBoundExactly(c: Config, names: seq<Source>)
    requires ValidConfig(c) && Distinct(names) && |names| == c.globalBurst + 1
    requires forall s :: s in names ==> Named(s)
    ensures SourceBoundHolds(c) <==> c.globalBurst < c.maxSources || c.globalBurst <= c.perSource
  {
    hide Run, Ordered, CountIn, TimesOf;
    if c.globalBurst < c.maxSources || c.globalBurst <= c.perSource {
      forall calls, clock, s, from | Ordered(calls, clock)
        ensures WithinBurst(c, calls, s, from)
      {
        if c.globalBurst < c.maxSources {
          SourceWindow(c, calls, clock, s, from);
        } else {
          SourceWithinGlobal(c, calls, clock, s, from);
        }
      }
    } else {
      var fillers := names[2..];
      assert forall i :: 0 <= i < |fillers| ==> fillers[i] == names[i + 2];
      assert names[0] in names && names[1] in names;
      EvictionBreaksTheBound(c, names[0], names[1], fillers);
    }
  }

  /** Single characters are names enough for any burst below 55000. */
  lemma NamesExist(n: nat)
    requires n <= 55000
    ensures exists names: seq<Source> :: |names| == n && Distinct(names) && forall s :: s in names ==> Named(s)
  {
    var names := seq(n, i requires 0 <= i < n => [i as char]);
    assert |names| == n && Distinct(names);
  }
}
