/** Alert claims over whole runs of processes, clears, kills and machine crashes. */
module AlertRuns {
  import opened DurableFile
  import opened AlertClaims
  import opened Wrappers

  /** Tokens are unique: a claim names its issued token in every possible content. */
  ghost predicate TokensOk(s: Sys) {
    && Coherent(s.file)
    && (forall t :: t in s.holders ==> t < s.nextToken)
    && (forall c: Slots, p: Place :: c in s.file.possible && p in c && c[p].Claimed? ==> c[p].token < s.nextToken)
  }

  lemma TokensKept(s: Sys, a: Act)
    requires TokensOk(s) && Enabled(s, a)
    ensures TokensOk(Apply(s, a))
  {
  }

  lemma {:induction false} TokensInRuns(s: Sys, acts: seq<Act>)
    requires TokensOk(s) && Allowed(s, acts)
    ensures TokensOk(Run(s, acts))
    decreases acts
  {
    if acts != [] {
      hide TokensOk;
      TokensKept(s, acts[0]);
      TokensInRuns(Apply(s, acts[0]), acts[1..]);
    }
  }

  ghost predicate Says(f: File<Slots>, p: Place, key: Key) {
    exists c :: c in f.possible && p in c && c[p] == Delivered(key)
  }

  /** A key becomes stored as delivered, in any content a crash may leave, only when the
      process holding the claim in the slot finishes after every configured channel, at
      least one, was sent. */
  lemma DeliveredOnlyByHolder(s: Sys, a: Act, p: Place, key: Key)
    requires TokensOk(s) && Enabled(s, a)
    requires Says(Apply(s, a).file, p, key) && !Says(s.file, p, key)
    ensures a.Finish? && a.token in s.holders
    ensures var h := s.holders[a.token];
            && h.place == p && h.key == key && h.result.Some? && Succeeded(h.result.value)
            && Holds(s.file.visible, p, key, a.token)
  {
    var n := Apply(s, a);
    var c :| c in n.file.possible && p in c && c[p] == Delivered(key);
    assert c !in s.file.possible;
    assert s.file.visible in s.file.possible;
    assert !(p in s.file.visible && s.file.visible[p] == Delivered(key));
  }

  // --------------------------------------------------------------- stale processes

  /** The token has been issued and its process, if there still is one, no longer holds
      the slot. */
  ghost predicate Lost(s: Sys, t: Token) {
    && t < s.nextToken
    && (t in s.holders ==> !Holds(s.file.visible, s.holders[t].place, s.holders[t].key, t))
  }

  lemma LostThroughClaim(s: Sys, t: Token, a: Act)
    requires Lost(s, t) && a.Claim?
    ensures Lost(Apply(s, a), t)
  {
  }

  lemma LostThroughFinish(s: Sys, t: Token, a: Act)
    requires Lost(s, t) && a.Finish?
    ensures Lost(Apply(s, a), t)
  {
  }

  lemma LostThroughClear(s: Sys, t: Token, a: Act)
    requires Lost(s, t) && (a.ClearQuota? || a.ClearUsers?)
    ensures Lost(Apply(s, a), t)
  {
  }

  lemma LostKept(s: Sys, t: Token, a: Act)
    requires Lost(s, t)
    ensures Lost(Apply(s, a), t)
  {
    match a
    case Claim(_, _, _, _) => LostThroughClaim(s, t, a);
    case Finish(_, _) => LostThroughFinish(s, t, a);
    case ClearQuota(_, _) => LostThroughClear(s, t, a);
    case ClearUsers(_, _) => LostThroughClear(s, t, a);
    case Dispatch(_, _, _) =>
    case Die(_) =>
    case MachineCrash(_) =>
  }

  /** Once its slot is gone, and whatever other processes, clears and crashes do
      afterwards, the finish of a stale process changes nothing. */
  lemma {:induction false} StaleFinishChangesNothing(s: Sys, acts: seq<Act>, t: Token, o: Outcome)
    requires Lost(s, t)
    ensures Lost(Run(s, acts), t)
    ensures Apply(Run(s, acts), Finish(t, o)).file == Run(s, acts).file
    decreases acts
  {
    if acts != [] {
      LostKept(s, t, acts[0]);
      hide Lost, Apply;
      StaleFinishChangesNothing(Apply(s, acts[0]), acts[1..], t, o);
    }
  }

  /** A finish with a dispatch result changes the file exactly when its process has not
      lost the slot. */
  lemma FinishActsExactly(s: Sys, t: Token, o: Outcome)
    requires t in s.holders && t < s.nextToken && s.holders[t].result.Some? && !o.NotReplaced?
    ensures Apply(s, Finish(t, o)).file != s.file <==> !Lost(s, t)
  {
    var h := s.holders[t];
    var slots := Finished(s.file.visible, h.place, h.key, t, Succeeded(h.result.value));
    if !Lost(s, t) {
      assert !(h.place in slots && slots[h.place] == s.file.visible[h.place]);
      assert Apply(s, Finish(t, o)).file.visible == slots;
    }
  }

  lemma EveryKind(k: Kind)
    ensures k in ALL_KINDS
  {
    assert ALL_KINDS == {Quota80, Quota100, Anomaly, ExpirySoon, ExpiryExpired};
    match k {
      case Quota80 =>
      case Quota100 =>
      case Anomaly =>
      case ExpirySoon =>
      case ExpiryExpired =>
    }
  }

  /** The saved acts that take the slot, or the process, away. */
  ghost predicate Takes(s: Sys, a: Act, t: Token)
    requires t in s.holders
  {
    var h := s.holders[t];
    match a
    case Claim(p, key, now, o) =>
      p == h.place && !Malformed(p, key, now) && !Suppressed(s.file.visible, p, key, now, TTL) && !o.NotReplaced?
    case Finish(u, _) => u == t && h.result.Some?
    case ClearQuota(users, o) => h.place.kind in QUOTA_KINDS && h.place.user in users && !o.NotReplaced?
    case ClearUsers(users, o) => h.place.user in users && !o.NotReplaced?
    case Die(u) => u == t
    case MachineCrash(_) => true
    case Dispatch(_, _, _) => false
  }

  /** A process loses its slot by exactly these acts. */
  lemma LostExactlyWhenTaken(s: Sys, t: Token, a: Act)
    requires TokensOk(s) && t in s.holders && !Lost(s, t)
    ensures Lost(Apply(s, a), t) <==> Takes(s, a, t)
  {
    var h := s.holders[t];
    assert Holds(s.file.visible, h.place, h.key, t);
    match a
    case Claim(p, key, now, o) => TakenByClaim(s, t, p, key, now, o);
    case Finish(u, o) =>
    case ClearQuota(users, o) => TakenByClear(s.file, h.place, h.key, t, QUOTA_KINDS, users, o);
    case ClearUsers(users, o) =>
      EveryKind(h.place.kind);
      TakenByClear(s.file, h.place, h.key, t, ALL_KINDS, users, o);
    case Dispatch(_, _, _) =>
    case Die(_) =>
    case MachineCrash(_) =>
  }

  lemma TakenByClaim(s: Sys, t: Token, p: Place, key: Key, now: real, o: Outcome)
    requires TokensOk(s) && t in s.holders && !Lost(s, t)
    ensures Lost(Apply(s, Claim(p, key, now, o)), t) <==> Takes(s, Claim(p, key, now, o), t)
  {
    assert s.file.visible[p := Claimed(key, s.nextToken, now)][p].token == s.nextToken;
  }

  lemma TakenByClear(f: File<Slots>, p: Place, key: Key, t: Token, kinds: set<Kind>, users: set<User>, o: Outcome)
    requires Holds(f.visible, p, key, t)
    ensures Holds(Mutated(f, Cleared(f.visible, kinds, users), o).visible, p, key, t) <==>
            o.NotReplaced? || !(p.kind in kinds && p.user in users)
  {
  }

  // ----------------------------------------------------------------- claims apart

  /** The slot is this claim, or the delivery that came of it. */
  ghost predicate Keeps(c: Slots, p: Place, key: Key, token: Token, at: real) {
    p in c && (c[p] == Delivered(key) || c[p] == Claimed(key, token, at))
  }

  /** Every content a crash may leave keeps the claim. */
  ghost predicate Reserved(f: File<Slots>, p: Place, key: Key, token: Token, at: real) {
    Coherent(f) && forall c: Slots :: c in f.possible ==> Keeps(c, p, key, token, at)
  }

  /** The acts that give the key up: a saved release by the holder of the slot, a clear,
      a claim of another key in its place. */
  ghost predicate Separates(s: Sys, a: Act, p: Place, key: Key) {
    match a
    case Claim(q, k, now, o) => q == p && k != key && !Malformed(q, k, now) && !o.NotReplaced?
    case Finish(t, o) =>
      && t in s.holders && s.holders[t].place == p && s.holders[t].key == key && s.holders[t].result.Some?
      && !Succeeded(s.holders[t].result.value) && Holds(s.file.visible, p, key, t) && !o.NotReplaced?
    case ClearQuota(users, o) => p.kind in QUOTA_KINDS && p.user in users && !o.NotReplaced?
    case ClearUsers(users, o) => p.user in users && !o.NotReplaced?
    case Dispatch(_, _, _) => false
    case Die(_) => false
    case MachineCrash(_) => false
  }

  /** A claim of the same key that the reservation does not refuse. */
  ghost predicate Reclaims(s: Sys, a: Act, p: Place, key: Key, at: real) {
    && a.Claim? && a.place == p && a.key == key && !Malformed(p, key, a.now) && !a.o.NotReplaced?
    && p in s.file.visible && s.file.visible[p].Claimed? && (a.now < at || a.now >= at + TTL)
  }

  lemma SavedKeeps(f: File<Slots>, slots: Slots, o: Outcome, p: Place, key: Key, token: Token, at: real)
    requires Reserved(f, p, key, token, at)
    ensures Reserved(Mutated(f, slots, o), p, key, token, at) <==> o.NotReplaced? || Keeps(slots, p, key, token, at)
  {
    var g := Mutated(f, slots, o);
    if !o.NotReplaced? {
      assert slots in g.possible;
    }
  }

  lemma ClaimKeeps(s: Sys, q: Place, k: Key, now: real, o: Outcome, p: Place, key: Key, token: Token, at: real)
    requires Reserved(s.file, p, key, token, at) && !Malformed(p, key, at)
    ensures var a := Claim(q, k, now, o);
            Reserved(Apply(s, a).file, p, key, token, at) <==> !Separates(s, a, p, key) && !Reclaims(s, a, p, key, at)
  {
    assert Keeps(s.file.visible, p, key, token, at);
    SavedKeeps(s.file, s.file.visible[q := Claimed(k, s.nextToken, now)], o, p, key, token, at);
    hide Reserved, Mutated;
  }

  lemma FinishKeeps(s: Sys, t: Token, o: Outcome, p: Place, key: Key, token: Token, at: real)
    requires Reserved(s.file, p, key, token, at)
    ensures Reserved(Apply(s, Finish(t, o)).file, p, key, token, at) <==> !Separates(s, Finish(t, o), p, key)
  {
    assert Keeps(s.file.visible, p, key, token, at);
    if t in s.holders && s.holders[t].result.Some? {
      var h := s.holders[t];
      SavedKeeps(s.file, Finished(s.file.visible, h.place, h.key, t, Succeeded(h.result.value)), o, p, key, token, at);
    }
    hide Reserved, Mutated;
  }

  lemma ClearKeeps(f: File<Slots>, kinds: set<Kind>, users: set<User>, o: Outcome,
                   p: Place, key: Key, token: Token, at: real)
    requires Reserved(f, p, key, token, at)
    ensures Reserved(Mutated(f, Cleared(f.visible, kinds, users), o), p, key, token, at) <==>
            o.NotReplaced? || !(p.kind in kinds && p.user in users)
  {
    assert Keeps(f.visible, p, key, token, at);
    SavedKeeps(f, Cleared(f.visible, kinds, users), o, p, key, token, at);
    hide Reserved, Mutated;
  }

  /** One act ends a reservation exactly when it gives the key up or claims it again; a
      machine crash, the death of the process and a stale finish do not. */
  lemma ReservationEndsExactly(s: Sys, a: Act, p: Place, key: Key, token: Token, at: real)
    requires Reserved(s.file, p, key, token, at) && !Malformed(p, key, at) && Enabled(s, a)
    ensures Reserved(Apply(s, a).file, p, key, token, at) <==>
            !Separates(s, a, p, key) && !Reclaims(s, a, p, key, at)
  {
    match a
    case Claim(q, k, now, o) => ClaimKeeps(s, q, k, now, o, p, key, token, at);
    case Finish(t, o) => FinishKeeps(s, t, o, p, key, token, at);
    case ClearQuota(users, o) => ClearKeeps(s.file, QUOTA_KINDS, users, o, p, key, token, at);
    case ClearUsers(users, o) =>
      EveryKind(p.kind);
      ClearKeeps(s.file, ALL_KINDS, users, o, p, key, token, at);
    case Dispatch(_, _, _) =>
    case Die(_) =>
    case MachineCrash(_) =>
  }

  ghost predicate NoneSeparates(s: Sys, acts: seq<Act>, p: Place, key: Key)
    decreases acts
  {
    acts != [] ==> !Separates(s, acts[0], p, key) && NoneSeparates(Apply(s, acts[0]), acts[1..], p, key)
  }

  /** The clock readings of the claims of this key lie within the TTL. */
  predicate Within(acts: seq<Act>, p: Place, key: Key, at: real)
    decreases acts
  {
    acts != [] ==>
      && (acts[0].Claim? && acts[0].place == p && acts[0].key == key ==> at <= acts[0].now < at + TTL)
      && Within(acts[1..], p, key, at)
  }

  lemma {:induction false} ReservedInRuns(s: Sys, acts: seq<Act>, p: Place, key: Key, token: Token, at: real)
    requires Reserved(s.file, p, key, token, at) && !Malformed(p, key, at)
    requires Allowed(s, acts) && NoneSeparates(s, acts, p, key) && Within(acts, p, key, at)
    ensures Reserved(Run(s, acts).file, p, key, token, at)
    decreases acts
  {
    if acts != [] {
      hide Reserved, Separates;
      ReservationEndsExactly(s, acts[0], p, key, token, at);
      ReservedInRuns(Apply(s, acts[0]), acts[1..], p, key, token, at);
    }
  }

  /** The claim returns its token to the caller. */
  ghost predicate Granted(s: Sys, a: Act)
    requires a.Claim?
  {
    s.nextToken in Apply(s, a).holders
  }

  lemma ClaimReserves(s: Sys, p: Place, key: Key, at: real)
    requires TokensOk(s) && Granted(s, Claim(p, key, at, Durable))
    ensures Reserved(Apply(s, Claim(p, key, at, Durable)).file, p, key, s.nextToken, at) && !Malformed(p, key, at)
  {
    var slots := s.file.visible[p := Claimed(key, s.nextToken, at)];
    assert slots[p].token == s.nextToken;
    assert slots != s.file.visible;
  }

  /** A granted claim keeps the key, through every crash, death and stale finish: as long
      as nothing gives the key up, another claim of it is granted exactly when the slot is
      still this claim and the clock reads at least the TTL later, or earlier. */
  lemma ClaimsAreApart(s: Sys, p: Place, key: Key, at: real, acts: seq<Act>, again: real, o: Outcome)
    requires TokensOk(s) && Granted(s, Claim(p, key, at, Durable))
    requires var m := Apply(s, Claim(p, key, at, Durable));
             Allowed(m, acts) && NoneSeparates(m, acts, p, key) && Within(acts, p, key, at)
    ensures var n := Run(Apply(s, Claim(p, key, at, Durable)), acts);
            && Keeps(n.file.visible, p, key, s.nextToken, at)
            && (Granted(n, Claim(p, key, again, o)) <==>
                  && n.file.visible[p].Claimed? && o.Durable? && 0.0 <= again
                  && (again < at || again >= at + TTL))
  {
    var a := Claim(p, key, at, Durable);
    var m := Apply(s, a);
    ClaimReserves(s, p, key, at);
    TokensKept(s, a);
    TokensInRuns(m, acts);
    ReservedInRuns(m, acts, p, key, s.nextToken, at);
    var n := Run(m, acts);
    assert n.file.visible in n.file.possible && n.nextToken !in n.holders;
    hide Run, Allowed, NoneSeparates, Within, TokensOk;
  }

  /** A slot that is free, or holds another key, delivered or claimed, never stands in the
      way of a claim. */
  lemma OtherKeyIsGranted(s: Sys, p: Place, key: Key, now: real)
    requires TokensOk(s) && p.user != "" && key != "" && now >= 0.0
    requires p in s.file.visible ==> s.file.visible[p].key != key
    ensures Granted(s, Claim(p, key, now, Durable))
    ensures Apply(s, Claim(p, key, now, Durable)).file
            == Rebooted(s.file.visible[p := Claimed(key, s.nextToken, now)])
    ensures Apply(s, Claim(p, key, now, Durable)).holders[s.nextToken] == Holder(p, key, None)
  {
    assert s.file.visible[p := Claimed(key, s.nextToken, now)][p].token == s.nextToken;
  }

  /** The holder of the slot leaves it delivered after a dispatch that reached every
      channel, and free for the next attempt after any other. */
  lemma FinishSettles(s: Sys, t: Token)
    requires t in s.holders && s.holders[t].result.Some?
    requires Holds(s.file.visible, s.holders[t].place, s.holders[t].key, t)
    ensures var h := s.holders[t];
            var n := Apply(s, Finish(t, Durable));
            && t !in n.holders
            && n.file == Rebooted(if h.result.value.attempted != {} && h.result.value.failed == {}
                                  then s.file.visible[h.place := Delivered(h.key)] else s.file.visible - {h.place})
  {
    var h := s.holders[t];
    assert s.file.visible[h.place := Delivered(h.key)][h.place] != s.file.visible[h.place];
    assert h.place !in s.file.visible - {h.place};
  }

  /** What a whole dispatch leaves of the file: the slot delivered when every configured
      channel was reached, and free otherwise, and every other slot as it was. */
  function Settled(slots: Slots, p: Place, key: Key, telegram: Option<Try>, webhook: Option<Try>): Slots {
    if (telegram.Some? || webhook.Some?)
        && (telegram.Some? ==> telegram.value.Sent?) && (webhook.Some? ==> webhook.value.Sent?)
    then slots[p := Delivered(key)] else slots - {p}
  }

  /** Claim, dispatch and finish as a run, in one process: a crash then finds the same. */
  lemma DispatchRuns(s: Sys, p: Place, key: Key, now: real, telegram: Option<Try>, webhook: Option<Try>)
    requires TokensOk(s) && p.user != "" && key != "" && now >= 0.0
    requires p in s.file.visible ==> s.file.visible[p].key != key
    ensures var (t, left) := (s.nextToken, Settled(s.file.visible, p, key, telegram, webhook));
            var acts := [Claim(p, key, now, Durable), Dispatch(t, telegram, webhook), Finish(t, Durable)];
            && Run(s, acts).file == Rebooted(left) && t !in Run(s, acts).holders
            && Run(s, acts + [MachineCrash(left)]) == Sys(Rebooted(left), map[], s.nextToken + 1)
  {
    var (t, left) := (s.nextToken, Settled(s.file.visible, p, key, telegram, webhook));
    var (a, b, c) := (Claim(p, key, now, Durable), Dispatch(t, telegram, webhook), Finish(t, Durable));
    DispatchLeaves(s, p, key, now, telegram, webhook);
    RunOfThree(s, a, b, c, MachineCrash(left));
    Crashes(Apply(Apply(Apply(s, a), b), c), left);
    hide TokensOk, Settled, Run, Apply;
  }

  lemma Crashes(s: Sys, content: Slots)
    ensures Apply(s, MachineCrash(content)) == Sys(Rebooted(content), map[], s.nextToken)
  {
  }

  lemma DispatchLeaves(s: Sys, p: Place, key: Key, now: real, telegram: Option<Try>, webhook: Option<Try>)
    requires TokensOk(s) && p.user != "" && key != "" && now >= 0.0
    requires p in s.file.visible ==> s.file.visible[p].key != key
    ensures var t := s.nextToken;
            var n := Apply(Apply(Apply(s, Claim(p, key, now, Durable)), Dispatch(t, telegram, webhook)),
                           Finish(t, Durable));
            && n.file == Rebooted(Settled(s.file.visible, p, key, telegram, webhook))
            && t !in n.holders && n.nextToken == t + 1
  {
    var t := s.nextToken;
    var x := Apply(s, Claim(p, key, now, Durable));
    OtherKeyIsGranted(s, p, key, now);
    TokensSpent(s, Claim(p, key, now, Durable));
    var y := Apply(x, Dispatch(t, telegram, webhook));
    DispatchRecords(x, t, telegram, webhook);
    FinishSettles(y, t);
    TokensSpent(y, Finish(t, Durable));
    hide Apply, TokensOk, Dispatched;
    SucceededMeansAllSent(telegram, webhook);
    assert s.file.visible[p := Claimed(key, t, now)][p := Delivered(key)] == s.file.visible[p := Delivered(key)];
    assert s.file.visible[p := Claimed(key, t, now)] - {p} == s.file.visible - {p};
  }

  lemma TokensSpent(s: Sys, a: Act)
    ensures Apply(s, a).nextToken == s.nextToken + (if a.Claim? then 1 else 0)
  {
  }

  lemma DispatchRecords(s: Sys, t: Token, telegram: Option<Try>, webhook: Option<Try>)
    requires t in s.holders
    ensures Apply(s, Dispatch(t, telegram, webhook))
            == s.(holders := s.holders[t := s.holders[t].(result := Some(Dispatched(telegram, webhook)))])
  {
  }

  lemma RunOfThree(s: Sys, a: Act, b: Act, c: Act, d: Act)
    ensures Run(s, [a, b, c]) == Apply(Apply(Apply(s, a), b), c)
    ensures Run(s, [a, b, c] + [d]) == Apply(Apply(Apply(Apply(s, a), b), c), d)
  {
    var x := Apply(s, a);
    var y := Apply(x, b);
    var z := Apply(y, c);
    RunOne(s, a, [b, c]);
    RunOne(x, b, [c]);
    RunOne(y, c, []);
    RunOne(s, a, [b, c, d]);
    RunOne(x, b, [c, d]);
    RunOne(y, c, [d]);
    RunOne(z, d, []);
    hide Apply;
    assert [a] + [b, c] == [a, b, c] && [b] + [c] == [b, c] && [c] + [] == [c] && [d] + [] == [d];
    assert [a] + [b, c, d] == [a, b, c] + [d] && [b] + [c, d] == [b, c, d] && [c] + [d] == [c, d];
  }

  lemma RunOne(s: Sys, a: Act, rest: seq<Act>)
    ensures Run(s, []) == s && Run(s, [a] + rest) == Run(Apply(s, a), rest)
  {
    hide Apply;
    assert ([a] + rest)[1..] == rest;
  }

  /** A reset clears exactly the quota alerts of its users, a deletion all of theirs. */
  lemma ClearedExactly(s: Sys, users: set<User>, p: Place)
    ensures var quota := Apply(s, ClearQuota(users, Durable)).file.visible;
            var all := Apply(s, ClearUsers(users, Durable)).file.visible;
            && (p in quota <==> p in s.file.visible && !(p.user in users && (p.kind.Quota80? || p.kind.Quota100?)))
            && (p in all <==> p in s.file.visible && p.user !in users)
            && (p in quota ==> quota[p] == s.file.visible[p]) && (p in all ==> all[p] == s.file.visible[p])
  {
    EveryKind(p.kind);
  }

  /** A claim whose process died can be claimed again once the TTL has passed. */
  lemma DeadClaimExpires(s: Sys, p: Place, key: Key, now: real)
    requires TokensOk(s) && p in s.file.visible && s.file.visible[p].Claimed?
    requires !Malformed(p, key, now) && now >= s.file.visible[p].at + TTL
    ensures var n := Apply(s, Claim(p, key, now, Durable));
            s.nextToken in n.holders && n.file.possible == {s.file.visible[p := Claimed(key, s.nextToken, now)]}
  {
    assert s.file.visible[p := Claimed(key, s.nextToken, now)][p].token == s.nextToken;
    assert s.file.visible[p].token < s.nextToken;
  }
}
