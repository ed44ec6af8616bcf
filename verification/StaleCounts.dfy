/** Requests that use any count, however old, at any time, whatever has expired: exactly
    which worlds let the connections exceed the limit. */
module StaleCounts {
  import opened DurableFile
  import opened DeviceAdmission
  import opened DeviceSlots
  import opened Wrappers

  /** Every moment differs from the one before by one connect or one disconnect. */
  ghost predicate Stepwise(moments: seq<Moment>) {
    forall k :: 0 < k < |moments| ==> Steps(moments[k - 1], moments[k])
  }

  predicate Steps(m: Moment, n: Moment) {
    n == Moment(m.live + 1, m.connected + 1) || (m.live > 0 && n == Moment(m.live - 1, m.connected))
  }

  lemma {:induction false} StepwiseInRuns(w: World, u: User, limit: nat, events: seq<Event>)
    requires w.moments != [] && Stepwise(w.moments)
    ensures Stepwise(Run(w, u, limit, events).moments)
    decreases events
  {
    hide Reserved;
    if events != [] {
      StepwiseInRuns(After(w, u, limit, events[0]), u, limit, events[1..]);
    }
  }

  // ------------------------------------------------------------- what may still happen

  /** No clock reading of these events lies before this time. */
  predicate NotBefore(events: seq<Event>, from: real)
    decreases events
  {
    events != [] ==> Clock(events[0], from) >= from && NotBefore(events[1..], from)
  }

  /** The clock after an event. */
  function Clock(e: Event, clock: real): real {
    if e.Request? || e.OtherUser? then e.now else clock
  }

  /** Even with counts in order and nothing expired from now on, some continuation has more
      connections than the limit. */
  ghost predicate Exceeds(w: World, u: User, limit: nat, from: real)
    requires w.moments != []
  {
    exists events ::
      PossibleRun(w, u, limit, events) && NotBefore(events, from) && Now(Run(w, u, limit, events)).live > limit
  }

  lemma StepExceeds(w: World, u: User, limit: nat, from: real, e: Event)
    requires w.moments != [] && Possible(w, u, e) && Clock(e, from) >= from
    requires After(w, u, limit, e).moments != [] && Exceeds(After(w, u, limit, e), u, limit, from)
    ensures Exceeds(w, u, limit, from)
  {
    hide After, Possible, Clock;
    var n := After(w, u, limit, e);
    var rest :| PossibleRun(n, u, limit, rest) && NotBefore(rest, from) && Now(Run(n, u, limit, rest)).live > limit;
    var events := [e] + rest;
    assert events[1..] == rest;
    assert PossibleRun(w, u, limit, events);
  }

  lemma {:induction false} ConnectingExceeds(w: World, u: User, limit: nat, from: real)
    requires w.moments != [] && Now(w).connected <= w.admitted
    requires Now(w).live + w.admitted > limit + Now(w).connected
    ensures Exceeds(w, u, limit, from)
    decreases w.admitted - Now(w).connected
  {
    if Now(w).connected == w.admitted {
      assert PossibleRun(w, u, limit, []) && NotBefore([], from) && Run(w, u, limit, []) == w;
    } else {
      ConnectingExceeds(After(w, u, limit, Connect), u, limit, from);
      StepExceeds(w, u, limit, from, Connect);
    }
  }

  // ------------------------------------------------------------------ what every run keeps

  /** What the source lets happen at all: any count taken so far, at any time a request is
      not refused for. */
  predicate Accepted(w: World, u: User, e: Event)
    requires w.moments != []
  {
    match e
    case Connect => Now(w).connected < w.admitted
    case Disconnect => true
    case Request(i, now, _) => i < |w.moments| && now >= 0.0
    case OtherUser(v, _, _, now) => v != u && now >= 0.0
  }

  predicate AcceptedRun(w: World, u: User, limit: nat, events: seq<Event>)
    requires w.moments != []
    decreases events
  {
    events != [] ==> Accepted(w, u, events[0]) && AcceptedRun(After(w, u, limit, events[0]), u, limit, events[1..])
  }

  /** The user's record is for this count, and within the limit. */
  ghost predicate Fits(l: Ledger, u: User, limit: nat, count: nat) {
    if u in l then
      && l[u].pending != [] && l[u].observed == Some(count) && count + |l[u].pending| <= limit
      && forall i :: 0 <= i < |l[u].pending| ==> l[u].pending[i] >= 0.0
    else count <= limit
  }

  ghost predicate Formed(w: World, u: User, limit: nat) {
    Counted(w, limit) && Fits(w.ledger, u, limit, w.moments[w.seen].live)
  }

  /** What every saved request leaves: nothing expired, and an empty record only when every
      slot is taken. */
  ghost predicate Settled(w: World, u: User, limit: nat, now: real) {
    && Formed(w, u, limit) && NoneExpired(w, u, now)
    && (Pending(w, u) == 0 ==> w.moments[w.seen].live == limit)
  }

  /** Admitted devices that no pending reservation covers. */
  ghost predicate Uncovered(w: World, u: User) {
    w.seen < |w.moments| && w.admitted > w.moments[w.seen].connected + Pending(w, u)
  }

  lemma {:induction false} UnexpiredMeans(stamps: seq<real>, cutoff: real)
    ensures var left := Unexpired(stamps, cutoff);
            |left| <= |stamps| && forall i :: 0 <= i < |left| ==> left[i] in stamps && left[i] > cutoff
  {
    if stamps != [] {
      UnexpiredMeans(stamps[1..], cutoff);
    }
  }

  /** The reservations of the user that have not expired. */
  function Left(l: Ledger, u: User, now: real): nat {
    if u in l then |Unexpired(l[u].pending, now - TTL)| else 0
  }

  lemma PrunedFits(l: Ledger, u: User, limit: nat, count: nat, now: real)
    requires Fits(l, u, limit, count)
    ensures var kept := Pruned(l, now - TTL);
            && Fits(kept, u, limit, count)
            && Left(l, u, now) == (if u in kept then |kept[u].pending| else 0)
            && (u in kept ==> forall i :: 0 <= i < |kept[u].pending| ==> kept[u].pending[i] > now - TTL)
  {
    if u in l {
      UnexpiredMeans(l[u].pending, now - TTL);
    }
  }

  lemma RequestFits(l: Ledger, u: User, limit: nat, before: nat, here: nat, now: real)
    requires Fits(l, u, limit, before) && here <= limit && now >= 0.0
    ensures var (n, allowed) := Reserved(l, u, limit, here, now);
            var left := if u in n then |n[u].pending| else 0;
            var had := Left(l, u, now);
            && Fits(n, u, limit, here)
            && (u in n ==> forall i :: 0 <= i < |n[u].pending| ==> n[u].pending[i] > now - TTL)
            && (left == 0 ==> here == limit)
            && left == (if here <= before then had else if had + before <= here then 0 else had + before - here)
                       + (if allowed then 1 else 0)
            && (allowed <==> here + left - (if allowed then 1 else 0) < limit)
  {
    PrunedFits(l, u, limit, before, now);
    hide Pruned, Unexpired, Left;
  }

  /** A saved request with any count at any time. */
  lemma RequestSettles(w: World, u: User, limit: nat, i: nat, now: real, o: Outcome)
    requires Formed(w, u, limit) && i < |w.moments| && now >= 0.0 && !o.NotReplaced?
    ensures var n := After(w, u, limit, Request(i, now, o));
            Settled(n, u, limit, now) && n.moments == w.moments && n.seen == i && n.admitted >= w.admitted
  {
    var n := After(w, u, limit, Request(i, now, o));
    assert w.moments[i].live <= limit;
    RequestFits(w.ledger, u, limit, w.moments[w.seen].live, w.moments[i].live, now);
    hide Reserved;
    CountsKept(w, n, limit);
    hide Counted;
  }

  /** And how far it moves the reservations, when nothing has expired. */
  lemma RequestMoves(w: World, u: User, limit: nat, i: nat, now: real)
    requires Formed(w, u, limit) && NoneExpired(w, u, now) && i < |w.moments| && now >= 0.0
    ensures var n := After(w, u, limit, Request(i, now, Durable));
            var seen, here := w.moments[w.seen].live, w.moments[i].live;
            && n.admitted >= w.admitted
            && Pending(n, u) == (if here <= seen then Pending(w, u)
                                 else if Pending(w, u) + seen <= here then 0
                                 else Pending(w, u) + seen - here)
                                + (n.admitted - w.admitted)
            && (n.admitted > w.admitted <==> here + Pending(n, u) - (n.admitted - w.admitted) < limit)
  {
    assert w.moments[i].live <= limit;
    RequestFits(w.ledger, u, limit, w.moments[w.seen].live, w.moments[i].live, now);
    if u in w.ledger {
      NothingExpires(w.ledger[u].pending, now - TTL);
    }
    assert Left(w.ledger, u, now) == Pending(w, u);
    hide Reserved, Counted, Unexpired;
  }

  lemma OtherForms(w: World, u: User, limit: nat, e: Event)
    requires Formed(w, u, limit) && e.OtherUser? && e.other != u
    ensures var n := After(w, u, limit, e);
            Formed(n, u, limit) && NoneExpired(n, u, e.now) && n == w.(ledger := n.ledger)
  {
    PrunedFits(w.ledger, u, limit, w.moments[w.seen].live, e.now);
    OtherPrunes(w.ledger, u, e.other, e.limit, e.count, e.now);
    CountsOnly(w, After(w, u, limit, e), limit);
    hide Counted, Pruned, Reserved;
  }

  lemma OtherPrunes(l: Ledger, u: User, v: User, limit: nat, count: nat, now: real)
    requires v != u
    ensures var n, kept := Reserved(l, v, limit, count, now).0, Pruned(l, now - TTL);
            (u in n <==> u in kept) && (u in kept ==> n[u] == kept[u])
  {
    hide Pruned, Admitted;
  }

  lemma FormedStep(w: World, u: User, limit: nat, e: Event)
    requires Formed(w, u, limit) && Accepted(w, u, e) && (e.Connect? ==> Now(w).live < limit)
    ensures Formed(After(w, u, limit, e), u, limit)
  {
    hide Reserved;
    match e
    case Connect =>
      ConnectCounts(w, u, limit);
    case Disconnect =>
      DisconnectCounts(w, u, limit);
    case Request(i, now, o) =>
      if !o.NotReplaced? {
        RequestSettles(w, u, limit, i, now, o);
      } else {
        CountsKept(w, After(w, u, limit, e), limit);
      }
    case OtherUser(_, _, _, _) => OtherForms(w, u, limit, e);
  }

  // ------------------------------------------------------- an uncovered device gets in

  /** Reading the newest count until no slot looks free, the uncovered devices remain. */
  lemma {:induction false} FillingExceeds(w: World, u: User, limit: nat, now: real)
    requires Settled(w, u, limit, now) && Uncovered(w, u) && w.seen == |w.moments| - 1 && now >= 0.0
    ensures Exceeds(w, u, limit, now)
    decreases limit - Now(w).live - Pending(w, u)
  {
    if Now(w).live + Pending(w, u) == limit {
      ConnectingExceeds(w, u, limit, now);
    } else {
      var e := Request(w.seen, now, Durable);
      RequestSettles(w, u, limit, w.seen, now, Durable);
      RequestMoves(w, u, limit, w.seen, now);
      hide After, Exceeds, Counted;
      FillingExceeds(After(w, u, limit, e), u, limit, now);
      StepExceeds(w, u, limit, now, e);
    }
  }

  lemma NextMoment(w: World, u: User, limit: nat, now: real)
    requires Settled(w, u, limit, now) && Uncovered(w, u) && Stepwise(w.moments) && w.seen < |w.moments| - 1
    requires now >= 0.0
    ensures var n := After(w, u, limit, Request(w.seen + 1, now, Durable));
            Settled(n, u, limit, now) && Uncovered(n, u) && n.moments == w.moments && n.seen == w.seen + 1
  {
    RequestSettles(w, u, limit, w.seen + 1, now, Durable);
    RequestMoves(w, u, limit, w.seen + 1, now);
    assert Steps(w.moments[w.seen], w.moments[w.seen + 1]);
    assert w.moments[w.seen + 1].live <= limit;
    hide After;
  }

  /** Reading the counts one after the other misses no connect: none comes while all slots
      are taken, so every connect finds a reservation to release. */
  lemma {:induction false} SamplingExceeds(w: World, u: User, limit: nat, now: real)
    requires Settled(w, u, limit, now) && Uncovered(w, u) && Stepwise(w.moments) && now >= 0.0
    ensures Exceeds(w, u, limit, now)
    decreases |w.moments| - w.seen
  {
    if w.seen == |w.moments| - 1 {
      FillingExceeds(w, u, limit, now);
    } else {
      var e := Request(w.seen + 1, now, Durable);
      NextMoment(w, u, limit, now);
      hide After, Exceeds, Counted;
      SamplingExceeds(After(w, u, limit, e), u, limit, now);
      StepExceeds(w, u, limit, now, e);
    }
  }

  /** Reading the same count once more settles the record and covers no device. */
  lemma UncoveredExceeds(w: World, u: User, limit: nat, now: real)
    requires Formed(w, u, limit) && Stepwise(w.moments) && NoneExpired(w, u, now) && Uncovered(w, u) && now >= 0.0
    ensures Exceeds(w, u, limit, now)
  {
    var e := Request(w.seen, now, Durable);
    RequestSettles(w, u, limit, w.seen, now, Durable);
    RequestMoves(w, u, limit, w.seen, now);
    hide After, Exceeds, Counted;
    SamplingExceeds(After(w, u, limit, e), u, limit, now);
    StepExceeds(w, u, limit, now, e);
  }

  lemma CoveredNeverExceeds(w: World, u: User, limit: nat, from: real)
    requires Formed(w, u, limit) && !Uncovered(w, u)
    ensures Covered(w, u, limit) && !Exceeds(w, u, limit, from)
  {
    assert Covered(w, u, limit);
    forall events | PossibleRun(w, u, limit, events) ensures Now(Run(w, u, limit, events)).live <= limit {
      CoveredInRuns(w, u, limit, events);
    }
  }

  // ----------------------------------------------------------------------- the theorems

  lemma {:induction false} MomentsStay(w: World, u: User, limit: nat, events: seq<Event>)
    requires w.moments != []
    ensures w.moments <= Run(w, u, limit, events).moments
    decreases events
  {
    hide Reserved;
    if events != [] {
      MomentsStay(After(w, u, limit, events[0]), u, limit, events[1..]);
    }
  }

  /** No count taken so far is over the limit. */
  predicate Within(w: World, limit: nat) {
    forall i :: 0 <= i < |w.moments| ==> w.moments[i].live <= limit
  }

  lemma {:induction false} FormedInRuns(w: World, u: User, limit: nat, events: seq<Event>)
    requires Formed(w, u, limit) && AcceptedRun(w, u, limit, events) && Within(Run(w, u, limit, events), limit)
    ensures Formed(Run(w, u, limit, events), u, limit)
    decreases events
  {
    if events != [] {
      var e, n := events[0], After(w, u, limit, events[0]);
      MomentsStay(n, u, limit, events[1..]);
      assert e.Connect? ==> n.moments[|n.moments| - 1].live == Now(w).live + 1;
      FormedStep(w, u, limit, e);
      hide Formed, After, Accepted;
      FormedInRuns(n, u, limit, events[1..]);
    }
  }

  lemma QuietForms(live: nat, others: Ledger, u: User, limit: nat)
    requires live <= limit && u !in others
    ensures Formed(Quiet(live, others), u, limit) && Stepwise(Quiet(live, others).moments)
    ensures !Uncovered(Quiet(live, others), u)
  {
  }

  /** After any run, with counts in any order, reservations expired at any point, failed
      saves and other users' requests, that has not exceeded the limit yet: some
      continuation will if and only if the admitted devices outnumber those connected by
      the moment last used and the reservations pending. */
  lemma OverfillsExactly(live: nat, others: Ledger, u: User, limit: nat, events: seq<Event>)
    requires live <= limit && u !in others && AcceptedRun(Quiet(live, others), u, limit, events)
    requires Within(Run(Quiet(live, others), u, limit, events), limit)
    ensures var n := Run(Quiet(live, others), u, limit, events);
            && n.seen < |n.moments|
            && ((exists from :: from >= 0.0 && Exceeds(n, u, limit, from)) <==>
                  n.admitted > n.moments[n.seen].connected + Pending(n, u))
  {
    var n := Run(Quiet(live, others), u, limit, events);
    QuietForms(live, others, u, limit);
    FormedInRuns(Quiet(live, others), u, limit, events);
    StepwiseInRuns(Quiet(live, others), u, limit, events);
    assert NoneExpired(n, u, 0.0);
    hide Run, AcceptedRun, Exceeds;
    if Uncovered(n, u) {
      UncoveredExceeds(n, u, limit, 0.0);
    } else {
      forall from ensures !Exceeds(n, u, limit, from) {
        CoveredNeverExceeds(n, u, limit, from);
      }
    }
  }

  /** Right after a saved request, with any count at any time, the same holds without the
      clock ever going back. */
  lemma CountOverfillsExactly(live: nat, others: Ledger, u: User, limit: nat, events: seq<Event>,
                              i: nat, now: real, o: Outcome)
    requires live <= limit && u !in others && AcceptedRun(Quiet(live, others), u, limit, events)
    requires var w := Run(Quiet(live, others), u, limit, events);
             Within(w, limit) && i < |w.moments| && now >= 0.0 && !o.NotReplaced?
    ensures var n := After(Run(Quiet(live, others), u, limit, events), u, limit, Request(i, now, o));
            && n.moments != []
            && (Exceeds(n, u, limit, now) <==> n.admitted > n.moments[i].connected + Pending(n, u))
  {
    var w := Run(Quiet(live, others), u, limit, events);
    QuietForms(live, others, u, limit);
    FormedInRuns(Quiet(live, others), u, limit, events);
    StepwiseInRuns(Quiet(live, others), u, limit, events);
    RequestSettles(w, u, limit, i, now, o);
    var n := After(w, u, limit, Request(i, now, o));
    hide After, Run, AcceptedRun, Exceeds, Counted;
    if Uncovered(n, u) {
      UncoveredExceeds(n, u, limit, now);
    } else {
      CoveredNeverExceeds(n, u, limit, now);
    }
  }

  /** Expiry alone, after any run: when another user's request prunes the ledger, the limit
      can be exceeded if and only if the admitted devices outnumber those connected by the
      moment last used and the reservations that have not expired. */
  lemma ExpiryOverfillsExactly(live: nat, others: Ledger, u: User, limit: nat, events: seq<Event>, e: Event)
    requires live <= limit && u !in others && AcceptedRun(Quiet(live, others), u, limit, events)
    requires Within(Run(Quiet(live, others), u, limit, events), limit)
    requires e.OtherUser? && Accepted(Run(Quiet(live, others), u, limit, events), u, e)
    ensures var w := Run(Quiet(live, others), u, limit, events);
            && w.seen < |w.moments|
            && (Exceeds(After(w, u, limit, e), u, limit, e.now) <==>
                  w.admitted > w.moments[w.seen].connected + Left(w.ledger, u, e.now))
  {
    var w := Run(Quiet(live, others), u, limit, events);
    QuietForms(live, others, u, limit);
    FormedInRuns(Quiet(live, others), u, limit, events);
    StepwiseInRuns(Quiet(live, others), u, limit, events);
    PrunedFits(w.ledger, u, limit, w.moments[w.seen].live, e.now);
    OtherPrunes(w.ledger, u, e.other, e.limit, e.count, e.now);
    OtherForms(w, u, limit, e);
    var n := After(w, u, limit, e);
    assert Pending(n, u) == Left(w.ledger, u, e.now) && n.moments == w.moments && n.seen == w.seen;
    hide After, Run, AcceptedRun, Exceeds, Counted, Left, Reserved, Pruned;
    if Uncovered(n, u) {
      UncoveredExceeds(n, u, limit, e.now);
    } else {
      CoveredNeverExceeds(n, u, limit, e.now);
    }
  }

  /** At no point of the run can a continuation from that time on exceed the limit. */
  ghost predicate AlwaysSafe(w: World, u: User, limit: nat, events: seq<Event>, clock: real)
    requires w.moments != []
    decreases events
  {
    && !Exceeds(w, u, limit, clock)
    && (events != [] ==> AlwaysSafe(After(w, u, limit, events[0]), u, limit, events[1..], Clock(events[0], clock)))
  }

  ghost predicate AlwaysCovered(w: World, u: User, limit: nat, events: seq<Event>)
    requires w.moments != []
    decreases events
  {
    !Uncovered(w, u) && (events != [] ==> AlwaysCovered(After(w, u, limit, events[0]), u, limit, events[1..]))
  }

  /** Only a save uncovers a device, and what it leaves has not expired. */
  lemma UncoveredBySave(w: World, u: User, limit: nat, e: Event)
    requires Formed(w, u, limit) && !Uncovered(w, u) && Accepted(w, u, e) && Uncovered(After(w, u, limit, e), u)
    ensures (e.Request? || e.OtherUser?) && e.now >= 0.0 && NoneExpired(After(w, u, limit, e), u, e.now)
  {
    hide Reserved;
    match e
    case Connect =>
    case Disconnect =>
    case Request(i, now, o) =>
      if !o.NotReplaced? {
        RequestSettles(w, u, limit, i, now, o);
      }
    case OtherUser(_, _, _, _) => OtherForms(w, u, limit, e);
  }

  lemma {:induction false} SafeExactly(w: World, u: User, limit: nat, events: seq<Event>, clock: real)
    requires Formed(w, u, limit) && Stepwise(w.moments) && !Uncovered(w, u) && AcceptedRun(w, u, limit, events)
    ensures AlwaysSafe(w, u, limit, events, clock) <==> AlwaysCovered(w, u, limit, events)
    ensures AlwaysCovered(w, u, limit, events) ==> Now(Run(w, u, limit, events)).live <= limit
    decreases events
  {
    CoveredNeverExceeds(w, u, limit, clock);
    if events != [] {
      var e, n := events[0], After(w, u, limit, events[0]);
      if e.Connect? {
        ConnectKeeps(w, u, limit);
      }
      FormedStep(w, u, limit, e);
      StepwiseInRuns(w, u, limit, [e]);
      assert [e][1..] == [] && Run(w, u, limit, [e]) == n;
      if Uncovered(n, u) {
        UncoveredBySave(w, u, limit, e);
        UncoveredExceeds(n, u, limit, e.now);
        hide After, Exceeds, Formed, Accepted;
        assert !AlwaysSafe(n, u, limit, events[1..], Clock(e, clock));
      } else {
        hide After, Exceeds, Formed, Accepted;
        SafeExactly(n, u, limit, events[1..], Clock(e, clock));
      }
    } else {
      hide Exceeds;
      assert Now(w).live <= limit;
    }
  }

  /** Over every run: no point of it lets the connections exceed the limit, then or in any
      continuation, if and only if at no point the admitted devices outnumber those
      connected by the moment last used and the reservations pending. */
  lemma SlotsHoldExactly(live: nat, others: Ledger, u: User, limit: nat, events: seq<Event>, clock: real)
    requires live <= limit && u !in others && AcceptedRun(Quiet(live, others), u, limit, events)
    ensures AlwaysSafe(Quiet(live, others), u, limit, events, clock) <==>
              AlwaysCovered(Quiet(live, others), u, limit, events)
    ensures AlwaysCovered(Quiet(live, others), u, limit, events) ==>
              Now(Run(Quiet(live, others), u, limit, events)).live <= limit
  {
    QuietForms(live, others, u, limit);
    SafeExactly(Quiet(live, others), u, limit, events, clock);
  }
}
