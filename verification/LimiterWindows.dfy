/** The password limiter over whole runs: what it grants in any window, which sources it
    forgets, and how many leases are out. */
module LimiterWindows {
  import opened OrderedTable
  import opened PasswordWorkLimiter

  datatype Grant = Grant(source: Source, at: real)

  /** Lease i belongs to grant i. */
  datatype Sys = Sys(st: State, grants: seq<Grant>, released: set<nat>)

  datatype Call =
    | Ask(source: Source, now: real, late: bool)  // late: the deadline has passed
    | Release(lease: nat)

  predicate Askable(a: Call) {
    a.Ask? && a.source != "" && |a.source| <= MAX_SOURCE_LENGTH && !a.late
  }

  function Step(c: Config, y: Sys, a: Call): Sys {
    match a
    case Ask(s, now, _) =>
      if !Askable(a) then y
      else
        var (st, granted) := Acquire(c, y.st, s, now);
        Sys(st, if granted then y.grants + [Grant(s, now)] else y.grants, y.released)
    case Release(i) =>
      if i >= |y.grants| || i in y.released then y
      else y.(st := y.st.(permits := y.st.permits + 1), released := y.released + {i})
  }

  function Run(c: Config, y: Sys, calls: seq<Call>): Sys
    decreases calls
  {
    if calls == [] then y else Run(c, Step(c, y, calls[0]), calls[1..])
  }

  function After(a: Call, clock: real): real {
    if Askable(a) then a.now else clock
  }

  /** Readings of the monotonic clock. */
  predicate Ordered(calls: seq<Call>, clock: real)
    decreases calls
  {
    calls != [] ==> clock <= After(calls[0], clock) && Ordered(calls[1..], After(calls[0], clock))
  }

  function Clock(calls: seq<Call>, clock: real): real
    decreases calls
  {
    if calls == [] then clock else Clock(calls[1..], After(calls[0], clock))
  }

  function Fresh(c: Config): Sys {
    Sys(State([], Empty(), c.maxConcurrent), [], {})
  }

  // -------------------------------------------------------------- grant histories

  function TimesOf(g: seq<Grant>, s: Source): seq<real> {
    if g == [] then []
    else TimesOf(g[..|g| - 1], s) + (if g[|g| - 1].source == s then [g[|g| - 1].at] else [])
  }

  function Times(g: seq<Grant>): seq<real> {
    if g == [] then [] else Times(g[..|g| - 1]) + [g[|g| - 1].at]
  }

  /** Grants in the half-open window (from, to]. */
  function CountIn(times: seq<real>, from: real, to: real): nat {
    if times == [] then 0 else (if from < times[0] <= to then 1 else 0) + CountIn(times[1..], from, to)
  }

  predicate Monotone(times: seq<real>, clock: real) {
    && (forall i, j :: 0 <= i < j < |times| ==> times[i] <= times[j])
    && (forall i :: 0 <= i < |times| ==> times[i] <= clock)
  }

  /** `list` is the end of `times`; what it misses had expired. */
  predicate Covers(list: seq<real>, times: seq<real>, expired: real) {
    && |list| <= |times| && list == times[|times| - |list|..]
    && (forall i :: 0 <= i < |times| - |list| ==> times[i] <= expired)
  }

  predicate Above(list: seq<real>, cutoff: real) {
    forall i :: 0 <= i < |list| ==> list[i] > cutoff
  }

  predicate Spaced(times: seq<real>, window: real, burst: nat) {
    forall i :: 0 <= i && i + burst < |times| ==> times[i] + window <= times[i + burst]
  }

  lemma {:induction false} NoneLate(times: seq<real>, from: real, to: real)
    requires forall i :: 0 <= i < |times| ==> times[i] > to
    ensures CountIn(times, from, to) == 0
  {
    if times != [] {
      NoneLate(times[1..], from, to);
    }
  }

  lemma {:induction false} CountPrefix(times: seq<real>, n: nat, from: real, to: real)
    requires forall i :: n <= i < |times| ==> times[i] > to
    ensures CountIn(times, from, to) <= n
    decreases |times|
  {
    if n == 0 {
      NoneLate(times, from, to);
    } else if times != [] {
      CountPrefix(times[1..], n - 1, from, to);
    }
  }

  /** Spaced grants fill no window beyond the burst. */
  lemma {:induction false} SpacedWindows(times: seq<real>, clock: real, window: real, burst: nat, from: real)
    requires Monotone(times, clock) && Spaced(times, window, burst) && window > 0.0
    ensures CountIn(times, from, from + window) <= burst
  {
    if times != [] {
      var rest := times[1..];
      if times[0] <= from {
        forall i | 0 <= i && i + burst < |rest| ensures rest[i] + window <= rest[i + burst] {
          assert times[i + 1] + window <= times[(i + 1) + burst];
        }
        SpacedWindows(rest, clock, window, burst, from);
      } else {
        forall i | burst <= i < |times| ensures times[i] > from + window {
          assert times[0] + window <= times[0 + burst];
        }
        CountPrefix(times, burst, from, from + window);
      }
    }
  }

  /** Pruning keeps what a later cutoff needs, and only that. */
  lemma {:induction false} PrunedCovers(list: seq<real>, times: seq<real>, expired: real, cutoff: real, clock: real)
    requires Covers(list, times, expired) && expired <= cutoff && Monotone(times, clock)
    ensures Covers(Pruned(list, cutoff), times, cutoff)
    ensures |Pruned(list, cutoff)| <= |list|
    ensures Above(Pruned(list, cutoff), cutoff)
    decreases |list|
  {
    if list != [] && list[0] <= cutoff {
      assert list[1..] == times[|times| - |list[1..]|..];
      PrunedCovers(list[1..], times, cutoff, cutoff, clock);
    }
  }

  lemma AppendSpaced(list: seq<real>, times: seq<real>, now: real, window: real, burst: nat)
    requires Covers(list, times, now - window) && |list| < burst && Spaced(times, window, burst)
    ensures Spaced(times + [now], window, burst)
    ensures Covers(list + [now], times + [now], now - window)
  {
  }

  lemma CoversTail(list: seq<real>, times: seq<real>, cutoff: real)
    requires Covers(list, times, cutoff) && times != []
    ensures if |list| == |times| then list[0] == times[0] && Covers(list[1..], times[1..], cutoff)
            else times[0] <= cutoff && Covers(list, times[1..], cutoff)
  {
  }

  lemma {:induction false} CountedExactly(list: seq<real>, times: seq<real>, cutoff: real, now: real)
    requires Covers(list, times, cutoff) && Monotone(times, now) && Above(list, cutoff)
    ensures CountIn(times, cutoff, now) == |list|
    decreases |times|
  {
    hide Covers, Monotone;
    CoversShorter(list, times, cutoff);
    if times != [] {
      MonotoneTail(times, now);
      CoversTail(list, times, cutoff);
      if |list| == |times| {
        CountedExactly(list[1..], times[1..], cutoff, now);
      } else {
        CountedExactly(list, times[1..], cutoff, now);
      }
    }
  }

  lemma MonotoneTail(times: seq<real>, clock: real)
    requires Monotone(times, clock) && times != []
    ensures times[0] <= clock && Monotone(times[1..], clock)
  {
  }

  lemma MonotoneLater(times: seq<real>, clock: real, now: real)
    requires Monotone(times, clock) && clock <= now
    ensures Monotone(times, now)
  {
  }

  lemma CoversShorter(list: seq<real>, times: seq<real>, cutoff: real)
    requires Covers(list, times, cutoff)
    ensures |list| <= |times|
  {
  }

  lemma {:induction false} TimesMeans(g: seq<Grant>)
    ensures |Times(g)| == |g| && forall i :: 0 <= i < |g| ==> Times(g)[i] == g[i].at
  {
    if g != [] {
      TimesMeans(g[..|g| - 1]);
    }
  }

  lemma {:induction false} TimesOfMeans(g: seq<Grant>, s: Source)
    ensures forall x :: x in TimesOf(g, s) ==> exists k :: 0 <= k < |g| && g[k] == Grant(s, x)
    ensures forall k :: 0 <= k < |g| && g[k].source == s ==> g[k].at in TimesOf(g, s)
  {
    if g != [] {
      var front := g[..|g| - 1];
      TimesOfMeans(front, s);
      forall x | x in TimesOf(g, s) ensures exists k :: 0 <= k < |g| && g[k] == Grant(s, x) {
        if x in TimesOf(front, s) {
          var k :| 0 <= k < |front| && front[k] == Grant(s, x);
          assert g[k] == Grant(s, x);
        } else {
          assert g[|g| - 1] == Grant(s, x);
        }
      }
    }
  }

  lemma {:induction false} HistoryMonotone(g: seq<Grant>, s: Source, clock: real)
    requires Monotone(Times(g), clock)
    ensures Monotone(TimesOf(g, s), clock)
    decreases |g|
  {
    if g != [] {
      var front, last := g[..|g| - 1], g[|g| - 1];
      var all := Times(g);
      assert all == Times(front) + [last.at] && all[|all| - 1] == last.at;
      assert forall i :: 0 <= i < |Times(front)| ==> Times(front)[i] == all[i] <= all[|all| - 1];
      HistoryMonotone(front, s, last.at);
    }
  }

  function Sources(g: seq<Grant>): set<Source> {
    if g == [] then {} else {g[0].source} + Sources(g[1..])
  }

  lemma {:induction false} SourcesMeans(g: seq<Grant>)
    ensures |Sources(g)| <= |g|
    ensures forall k :: 0 <= k < |g| ==> g[k].source in Sources(g)
  {
    if g != [] {
      SourcesMeans(g[1..]);
    }
  }

  // ---------------------------------------------------------------- the invariant

  ghost predicate Shape(c: Config, y: Sys, clock: real) {
    && ValidConfig(c) && WellFormed(y.st.table) && |y.st.table.order| <= c.maxSources
    && (forall i :: i in y.released ==> i < |y.grants|)
    && y.st.permits + |y.grants| - |y.released| == c.maxConcurrent && |y.released| <= |y.grants|
    && Monotone(Times(y.grants), clock)
  }

  ghost predicate GlobalOk(c: Config, y: Sys, clock: real) {
    && Covers(y.st.attempts, Times(y.grants), clock - c.window)
    && |y.st.attempts| <= c.globalBurst && Spaced(Times(y.grants), c.window, c.globalBurst)
  }

  ghost predicate SourceOk(c: Config, y: Sys, clock: real, s: Source) {
    && Covers(Events(y.st.table, s), TimesOf(y.grants, s), clock - c.window)
    && Spaced(TimesOf(y.grants, s), c.window, c.perSource)
  }

  ghost predicate SourcesOk(c: Config, y: Sys, clock: real) {
    forall s :: SourceOk(c, y, clock, s)
  }

  // ------------------------------------------------------------------- one request

  /** With fewer grants in a window than tracked sources, cleaning alone makes room:
      a source that still has an unexpired grant is never evicted. */
  lemma CleaningMakesRoom(c: Config, y: Sys, clock: real, now: real)
    requires Shape(c, y, clock) && GlobalOk(c, y, clock) && SourcesOk(c, y, clock)
    requires clock <= now && c.globalBurst < c.maxSources
    ensures var t := y.st.table;
            Roomy(t, c.maxSources, now - c.window)
            == if |t.order| >= c.maxSources then Cleaned(t, t.order, now - c.window) else t
  {
    hide Covers, Spaced, Monotone, Times, TimesOf, Pruned, Cleaned, Sources, SourceOk;
    var t, cutoff := y.st.table, now - c.window;
    if |t.order| >= c.maxSources {
      var r := Cleaned(t, t.order, cutoff);
      CleanedMeans(t, t.order, cutoff);
      var attempts := Pruned(y.st.attempts, cutoff);
      PrunedCovers(y.st.attempts, Times(y.grants), clock - c.window, cutoff, clock);
      CoversShorter(attempts, Times(y.grants), cutoff);
      TimesMeans(y.grants);
      var recent := y.grants[|y.grants| - |attempts|..];
      SourcesMeans(recent);
      forall s | s in r.order ensures s in Sources(recent) {
        assert SourceOk(c, y, clock, s);
        LiveSourceIsRecent(c, y, clock, cutoff, s, attempts);
      }
      OrderFits(r.order, Sources(recent));
    }
  }

  lemma LiveSourceIsRecent(c: Config, y: Sys, clock: real, cutoff: real, s: Source, attempts: seq<real>)
    requires Shape(c, y, clock) && SourceOk(c, y, clock, s) && clock - c.window <= cutoff
    requires Covers(attempts, Times(y.grants), cutoff)
    requires Pruned(Events(y.st.table, s), cutoff) != []
    ensures |Times(y.grants)| == |y.grants| && s in Sources(y.grants[|y.grants| - |attempts|..])
  {
    hide Shape, SourceOk, Pruned, TimesOf, Times, Spaced, Monotone;
    var g := y.grants;
    PrunedFacts(c, y, clock, cutoff, s);
    var x := Pruned(Events(y.st.table, s), cutoff)[0];
    TimesMeans(g);
    TimesOfMeans(g, s);
    assert x in TimesOf(g, s);
    var k :| 0 <= k < |g| && g[k] == Grant(s, x);
    assert Times(g)[k] == x > cutoff;
    var recent := g[|g| - |attempts|..];
    assert recent[k - (|g| - |attempts|)] == g[k];
    SourcesMeans(recent);
  }

  lemma EvictedMeans(t: Tracking, maxSources: nat)
    requires WellFormed(t) && maxSources > 0
    ensures WellFormed(Evicted(t, maxSources)) && |Evicted(t, maxSources).order| < maxSources
    ensures forall s :: s in Evicted(t, maxSources).entries ==> s in t.entries
    decreases |t.order|
  {
    if |t.order| >= maxSources && t.order != [] {
      ShiftedMeans(t);
      EvictedMeans(Shifted(t), maxSources);
    }
  }

  lemma TouchedShape(c: Config, t: Tracking, s: Source, cutoff: real)
    requires ValidConfig(c) && WellFormed(t) && |t.order| <= c.maxSources
    ensures var r := Touched(c, t, s, cutoff); WellFormed(r) && |r.order| < c.maxSources && s !in r.entries
  {
    PoppedMeans(t, s);
    if s !in t.entries {
      if |t.order| >= c.maxSources {
        CleanedMeans(t, t.order, cutoff);
        EvictedMeans(Cleaned(t, t.order, cutoff), c.maxSources);
      } else {
        EvictedMeans(t, c.maxSources);
      }
    }
  }

  lemma ShapeKept(c: Config, y: Sys, clock: real, a: Call)
    requires Shape(c, y, clock) && clock <= After(a, clock)
    ensures Shape(c, Step(c, y, a), After(a, clock))
  {
    hide Touched, Pruned;
    var n := Step(c, y, a);
    if Askable(a) {
      var cutoff := a.now - c.window;
      TouchedShape(c, y.st.table, a.source, cutoff);
      var room, mine := Touched(c, y.st.table, a.source, cutoff), Pruned(Events(y.st.table, a.source), cutoff);
      AppendedMeans(room, a.source, mine);
      AppendedMeans(room, a.source, mine + [a.now]);
      if n.grants != y.grants {
        assert n.grants[..|y.grants|] == y.grants;
        assert Times(n.grants) == Times(y.grants) + [a.now];
      }
    } else if a.Release? && n != y {
      ReleasedFits(n.released, |n.grants|);
    }
  }

  lemma {:induction false} ReleasedFits(s: set<nat>, n: nat)
    requires forall i :: i in s ==> i < n
    ensures |s| <= n
  {
    if n > 0 {
      ReleasedFits(s - {n - 1}, n - 1);
    } else {
      assert s == {};
    }
  }

  lemma GlobalKept(c: Config, y: Sys, clock: real, a: Call)
    requires Shape(c, y, clock) && GlobalOk(c, y, clock) && clock <= After(a, clock)
    ensures GlobalOk(c, Step(c, y, a), After(a, clock))
  {
    hide Touched, Appended, WellFormed, Covers, Spaced, Monotone, Pruned, Above, Events;
    var n := Step(c, y, a);
    if Askable(a) {
      var cutoff := a.now - c.window;
      PrunedCovers(y.st.attempts, Times(y.grants), clock - c.window, cutoff, clock);
      if n.grants != y.grants {
        assert n.grants[..|y.grants|] == y.grants;
        AppendSpaced(Pruned(y.st.attempts, cutoff), Times(y.grants), a.now, c.window, c.globalBurst);
      }
    }
  }

  /** What the table holds of a source that did not ask. */
  lemma OtherSource(c: Config, y: Sys, clock: real, a: Call, s: Source)
    requires Shape(c, y, clock) && GlobalOk(c, y, clock) && SourcesOk(c, y, clock)
    requires Askable(a) && clock <= a.now && c.globalBurst < c.maxSources && s != a.source
    ensures SourceOk(c, Step(c, y, a), a.now, s)
  {
    hide Shape, GlobalOk, Covers, Spaced, Pruned, Cleaned, Roomy;
    var t, cutoff := y.st.table, a.now - c.window;
    var n := Step(c, y, a);
    assert SourceOk(c, y, clock, s);
    PrunedFacts(c, y, clock, cutoff, s);
    CleaningMakesRoom(c, y, clock, a.now);
    ShapeTable(c, y, clock);
    CleanedMeans(t, t.order, cutoff);
    if n.grants != y.grants {
      assert n.grants[..|y.grants|] == y.grants;
    }
    assert TimesOf(n.grants, s) == TimesOf(y.grants, s);
    assert Events(n.st.table, s) in {Events(t, s), Pruned(Events(t, s), cutoff)};
  }

  lemma ShapeTable(c: Config, y: Sys, clock: real)
    requires Shape(c, y, clock)
    ensures WellFormed(y.st.table) && Monotone(Times(y.grants), clock)
  {
    hide WellFormed, Monotone;
  }

  lemma PrunedFacts(c: Config, y: Sys, clock: real, cutoff: real, s: Source)
    requires Shape(c, y, clock) && SourceOk(c, y, clock, s) && clock - c.window <= cutoff
    ensures Covers(Events(y.st.table, s), TimesOf(y.grants, s), cutoff)
    ensures Covers(Pruned(Events(y.st.table, s), cutoff), TimesOf(y.grants, s), cutoff)
    ensures Above(Pruned(Events(y.st.table, s), cutoff), cutoff)
  {
    hide Pruned, Spaced, Monotone, Times, TimesOf, WellFormed;
    HistoryMonotone(y.grants, s, clock);
    PrunedCovers(Events(y.st.table, s), TimesOf(y.grants, s), clock - c.window, cutoff, clock);
  }

  lemma AskedSource(c: Config, y: Sys, clock: real, a: Call)
    requires Askable(a) && clock <= a.now
    requires Shape(c, y, clock) && SourceOk(c, y, clock, a.source)
    ensures SourceOk(c, Step(c, y, a), a.now, a.source)
  {
    hide Touched, WellFormed, Covers, Spaced, Pruned, Shape;
    var cutoff := a.now - c.window;
    var n := Step(c, y, a);
    PrunedFacts(c, y, clock, cutoff, a.source);
    if n.grants != y.grants {
      assert n.grants[..|y.grants|] == y.grants;
      AppendSpaced(Pruned(Events(y.st.table, a.source), cutoff), TimesOf(y.grants, a.source), a.now, c.window,
          c.perSource);
    }
  }

  lemma SourcesKept(c: Config, y: Sys, clock: real, a: Call)
    requires Shape(c, y, clock) && GlobalOk(c, y, clock) && SourcesOk(c, y, clock)
    requires clock <= After(a, clock) && c.globalBurst < c.maxSources
    ensures SourcesOk(c, Step(c, y, a), After(a, clock))
  {
    var n := Step(c, y, a);
    forall s ensures SourceOk(c, n, After(a, clock), s) {
      assert SourceOk(c, y, clock, s);
      if Askable(a) {
        if s == a.source {
          AskedSource(c, y, clock, a);
        } else {
          OtherSource(c, y, clock, a, s);
        }
      }
    }
  }

  lemma {:induction false} RunKeeps(c: Config, y: Sys, clock: real, calls: seq<Call>)
    requires Shape(c, y, clock) && GlobalOk(c, y, clock) && Ordered(calls, clock)
    requires c.globalBurst < c.maxSources ==> SourcesOk(c, y, clock)
    ensures var n := Run(c, y, calls);
            && Shape(c, n, Clock(calls, clock)) && GlobalOk(c, n, Clock(calls, clock))
            && (c.globalBurst < c.maxSources ==> SourcesOk(c, n, Clock(calls, clock)))
    decreases calls
  {
    hide Shape, GlobalOk, SourcesOk, Step;
    if calls != [] {
      var a := calls[0];
      ShapeKept(c, y, clock, a);
      GlobalKept(c, y, clock, a);
      if c.globalBurst < c.maxSources {
        SourcesKept(c, y, clock, a);
      }
      RunKeeps(c, Step(c, y, a), After(a, clock), calls[1..]);
    }
  }

  lemma EmptyOk(c: Config, clock: real)
    requires ValidConfig(c)
    ensures Shape(c, Fresh(c), clock) && GlobalOk(c, Fresh(c), clock) && SourcesOk(c, Fresh(c), clock)
  {
  }

  // ------------------------------------------------------------------ the theorems

  /** No window of the configured length holds more grants than the global burst. */
  lemma GlobalWindow(c: Config, calls: seq<Call>, clock: real, from: real)
    requires ValidConfig(c) && Ordered(calls, clock)
    ensures CountIn(Times(Run(c, Fresh(c), calls).grants), from, from + c.window) <= c.globalBurst
  {
    hide Covers, Spaced, Monotone, CountIn, Times, TimesOf, Run, Fresh, Ordered, WellFormed;
    EmptyOk(c, clock);
    RunKeeps(c, Fresh(c), clock, calls);
    SpacedWindows(Times(Run(c, Fresh(c), calls).grants), Clock(calls, clock), c.window, c.globalBurst, from);
  }

  /** Nor more of one source than its own burst. */
  lemma SourceWindow(c: Config, calls: seq<Call>, clock: real, s: Source, from: real)
    requires ValidConfig(c) && Ordered(calls, clock) && c.globalBurst < c.maxSources
    ensures CountIn(TimesOf(Run(c, Fresh(c), calls).grants, s), from, from + c.window) <= c.perSource
  {
    hide Covers, Spaced, Monotone, CountIn, Times, TimesOf, Run, Fresh, Ordered, WellFormed;
    EmptyOk(c, clock);
    RunKeeps(c, Fresh(c), clock, calls);
    var n := Run(c, Fresh(c), calls);
    assert SourceOk(c, n, Clock(calls, clock), s);
    HistoryMonotone(n.grants, s, Clock(calls, clock));
    SpacedWindows(TimesOf(n.grants, s), Clock(calls, clock), c.window, c.perSource, from);
  }

  lemma {:induction false} SourceCountBelow(g: seq<Grant>, s: Source, from: real, to: real)
    ensures CountIn(TimesOf(g, s), from, to) <= CountIn(Times(g), from, to)
  {
    if g != [] {
      var front, last := g[..|g| - 1], g[|g| - 1];
      SourceCountBelow(front, s, from, to);
      CountAppend(Times(front), last.at, from, to);
      CountAppend(TimesOf(front, s), last.at, from, to);
      assert TimesOf(front, s) + [] == TimesOf(front, s);
    }
  }

  lemma {:induction false} CountAppend(times: seq<real>, x: real, from: real, to: real)
    ensures CountIn(times + [x], from, to) == CountIn(times, from, to) + (if from < x <= to then 1 else 0)
  {
    if times == [] {
      assert times + [x] == [x] && [x][1..] == [];
    } else {
      assert (times + [x])[1..] == times[1..] + [x];
      CountAppend(times[1..], x, from, to);
    }
  }

  /** A source burst of at least the global burst holds for any number of tracked sources. */
  lemma SourceWithinGlobal(c: Config, calls: seq<Call>, clock: real, s: Source, from: real)
    requires ValidConfig(c) && Ordered(calls, clock) && c.globalBurst <= c.perSource
    ensures CountIn(TimesOf(Run(c, Fresh(c), calls).grants, s), from, from + c.window) <= c.perSource
  {
    hide Run, Ordered, Fresh, CountIn, Times, TimesOf;
    GlobalWindow(c, calls, clock, from);
    SourceCountBelow(Run(c, Fresh(c), calls).grants, s, from, from + c.window);
  }

  /** A request is granted exactly when both windows ending now have room and a permit is
      free: the bounded table decides like the full history. */
  lemma DecisionIsExact(c: Config, calls: seq<Call>, clock: real, a: Call)
    requires ValidConfig(c) && Ordered(calls + [a], clock) && c.globalBurst < c.maxSources && Askable(a)
    ensures var y := Run(c, Fresh(c), calls);
            Step(c, y, a).grants == y.grants + [Grant(a.source, a.now)] <==>
              && CountIn(Times(y.grants), a.now - c.window, a.now) < c.globalBurst
              && CountIn(TimesOf(y.grants, a.source), a.now - c.window, a.now) < c.perSource
              && |y.grants| - |y.released| < c.maxConcurrent
  {
    OrderedPrefix(calls, a, clock);
    EmptyOk(c, clock);
    RunKeeps(c, Fresh(c), clock, calls);
    var y := Run(c, Fresh(c), calls);
    assert SourceOk(c, y, Clock(calls, clock), a.source);
    DecisionFollowsCounts(c, y, Clock(calls, clock), a);
  }

  lemma DecisionFollowsCounts(c: Config, y: Sys, clock: real, a: Call)
    requires Askable(a) && clock <= a.now
    requires Shape(c, y, clock) && GlobalOk(c, y, clock) && SourceOk(c, y, clock, a.source)
    ensures Step(c, y, a).grants == y.grants + [Grant(a.source, a.now)] <==>
              && CountIn(Times(y.grants), a.now - c.window, a.now) < c.globalBurst
              && CountIn(TimesOf(y.grants, a.source), a.now - c.window, a.now) < c.perSource
              && |y.grants| - |y.released| < c.maxConcurrent
  {
    hide Touched, Appended, WellFormed, Covers, Spaced, Monotone, Pruned, Times, TimesOf, CountIn, Above;
    var cutoff := a.now - c.window;
    MonotoneLater(Times(y.grants), clock, a.now);
    PrunedFacts(c, y, clock, cutoff, a.source);
    PrunedCovers(y.st.attempts, Times(y.grants), clock - c.window, cutoff, clock);
    HistoryMonotone(y.grants, a.source, a.now);
    CountedExactly(Pruned(Events(y.st.table, a.source), cutoff), TimesOf(y.grants, a.source), cutoff, a.now);
    CountedExactly(Pruned(y.st.attempts, cutoff), Times(y.grants), cutoff, a.now);
  }

  lemma {:induction false} OrderedPrefix(calls: seq<Call>, a: Call, clock: real)
    requires Ordered(calls + [a], clock)
    ensures Ordered(calls, clock) && Clock(calls, clock) <= After(a, Clock(calls, clock))
    decreases calls
  {
    if calls == [] {
      assert (calls + [a])[0] == a;
    } else {
      assert (calls + [a])[1..] == calls[1..] + [a];
      OrderedPrefix(calls[1..], a, After(calls[0], clock));
    }
  }

  /** A source with an unexpired grant is still tracked. */
  lemma LiveSourcesStay(c: Config, calls: seq<Call>, clock: real, k: nat)
    requires ValidConfig(c) && Ordered(calls, clock) && c.globalBurst < c.maxSources
    requires k < |Run(c, Fresh(c), calls).grants|
    requires Run(c, Fresh(c), calls).grants[k].at > Clock(calls, clock) - c.window
    ensures Run(c, Fresh(c), calls).grants[k].source in Run(c, Fresh(c), calls).st.table.entries
  {
    hide Spaced, Monotone, CountIn, Run, Fresh, Ordered, WellFormed, Times, TimesOf;
    EmptyOk(c, clock);
    RunKeeps(c, Fresh(c), clock, calls);
    var n := Run(c, Fresh(c), calls);
    var s := n.grants[k].source;
    assert SourceOk(c, n, Clock(calls, clock), s);
    TimesOfMeans(n.grants, s);
  }

  /** Tracked sources and outstanding leases stay within their caps, and releasing a
      lease again changes nothing. */
  lemma CapsHold(c: Config, calls: seq<Call>, clock: real, lease: nat)
    requires ValidConfig(c) && Ordered(calls, clock)
    ensures var n := Run(c, Fresh(c), calls);
            && |n.st.table.order| <= c.maxSources
            && n.st.permits + (|n.grants| - |n.released|) == c.maxConcurrent
            && |n.grants| - |n.released| <= c.maxConcurrent
            && Step(c, Step(c, n, Release(lease)), Release(lease)) == Step(c, n, Release(lease))
  {
    EmptyOk(c, clock);
    RunKeeps(c, Fresh(c), clock, calls);
  }
}
