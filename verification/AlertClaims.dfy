/** Alert deduplication between processes: claim a key, dispatch outside the lock, then
    complete or release the claim (hysteria/alerts.py). */
module AlertClaims {
  import opened DurableFile
  import opened Wrappers

  type User = string
  type Key = string
  type Token = nat

  datatype Kind = Quota80 | Quota100 | Anomaly | ExpirySoon | ExpiryExpired
  datatype Place = Place(kind: Kind, user: User)

  const TTL: real := 60.0

  datatype Slot =
    | Delivered(key: Key)
    | Claimed(key: Key, token: Token, at: real)

  type Slots = map<Place, Slot>

  // --------------------------------------------------------------------- transport

  datatype Try = Sent | Refused | Threw
  datatype Channel = Telegram | Webhook
  datatype Result = Result(attempted: set<Channel>, failed: set<Channel>)

  /** `dispatch`: an exception fails every channel attempted so far and skips the rest. */
  function Dispatched(telegram: Option<Try>, webhook: Option<Try>): Result {
    var first := if telegram.None? then Result({}, {}) else Result({Telegram}, if telegram.value.Sent? then {}
        else {Telegram});
    if (telegram.Some? && telegram.value.Threw?) || webhook.None? then first
    else
      var attempted := first.attempted + {Webhook};
      match webhook.value
      case Sent => Result(attempted, first.failed)
      case Refused => Result(attempted, first.failed + {Webhook})
      case Threw => Result(attempted, attempted)
  }

  predicate Succeeded(r: Result) {
    r.attempted != {} && r.failed == {}
  }

  /** Success means that a channel is configured and every configured channel was sent. */
  lemma SucceededMeansAllSent(telegram: Option<Try>, webhook: Option<Try>)
    ensures Succeeded(Dispatched(telegram, webhook)) <==>
              && (telegram.Some? || webhook.Some?)
              && (telegram.Some? ==> telegram.value.Sent?) && (webhook.Some? ==> webhook.value.Sent?)
  {
    var r := Dispatched(telegram, webhook);
    assert telegram.Some? ==> Telegram in r.attempted;
    assert telegram.Some? && !telegram.value.Sent? ==> Telegram in r.failed;
    assert (telegram.None? || !telegram.value.Threw?) && webhook.Some? ==> Webhook in r.attempted;
    assert (telegram.None? || !telegram.value.Threw?) && webhook.Some? && !webhook.value.Sent? ==> Webhook in r.failed;
  }

  /** The channels reported as tried are the configured ones up to the first exception;
      failed are the refused ones, and with an exception all tried so far. */
  lemma DispatchReport(telegram: Option<Try>, webhook: Option<Try>)
    ensures var r := Dispatched(telegram, webhook);
            var reached := webhook.Some? && !(telegram.Some? && telegram.value.Threw?);
            && (Telegram in r.attempted <==> telegram.Some?)
            && (Webhook in r.attempted <==> reached)
            && (Telegram in r.failed <==>
                  telegram.Some? && (!telegram.value.Sent? || (reached && webhook.value.Threw?)))
            && (Webhook in r.failed <==> reached && !webhook.value.Sent?)
  {
  }

  // --------------------------------------------------------------- state functions

  /** A delivered key and an unexpired claim of it suppress another claim. */
  predicate Suppressed(slots: Slots, p: Place, key: Key, now: real, ttl: real) {
    p in slots &&
    match slots[p]
    case Delivered(k) => k == key
    case Claimed(k, _, at) => k == key && 0.0 <= now - at < ttl
  }

  /** Requests refused with an exception: empty names, a claim time the schema rejects. */
  predicate Malformed(p: Place, key: Key, now: real) {
    p.user == "" || key == "" || now < 0.0
  }

  predicate Holds(slots: Slots, p: Place, key: Key, token: Token) {
    p in slots && slots[p].Claimed? && slots[p].key == key && slots[p].token == token
  }

  function Finished(slots: Slots, p: Place, key: Key, token: Token, delivered: bool): Slots {
    if !Holds(slots, p, key, token) then slots
    else if delivered then slots[p := Delivered(key)]
    else slots - {p}
  }

  function Cleared(slots: Slots, kinds: set<Kind>, users: set<User>): Slots {
    map p | p in slots && !(p.kind in kinds && p.user in users) :: slots[p]
  }

  const QUOTA_KINDS: set<Kind> := {Quota80, Quota100}
  const ALL_KINDS: set<Kind> := {Quota80, Quota100, Anomaly, ExpirySoon, ExpiryExpired}

  /** `mutate_state` saves only a changed state. */
  function Mutated(f: File<Slots>, slots: Slots, o: Outcome): File<Slots> {
    if slots == f.visible then f else Written(f, slots, o)
  }

  // ------------------------------------------------------------------------ system

  /** A process between its claim and its finish. */
  datatype Holder = Holder(place: Place, key: Key, result: Option<Result>)

  datatype Sys = Sys(file: File<Slots>, holders: map<Token, Holder>, nextToken: Token)

  datatype Act =
    | Claim(place: Place, key: Key, now: real, o: Outcome)
    | Dispatch(token: Token, telegram: Option<Try>, webhook: Option<Try>)
    | Finish(token: Token, o: Outcome)
    | ClearQuota(users: set<User>, o: Outcome)
    | ClearUsers(users: set<User>, o: Outcome)
    | Die(token: Token)        // a dispatching process is killed
    | MachineCrash(content: Slots)

  function Apply(s: Sys, a: Act): Sys {
    match a
    case Claim(p, key, now, o) =>
      if Malformed(p, key, now) || Suppressed(s.file.visible, p, key, now, TTL) then s.(nextToken := s.nextToken + 1)
      else
        var file := Mutated(s.file, s.file.visible[p := Claimed(key, s.nextToken, now)], o);
        Sys(file, if o.Durable? then s.holders[s.nextToken := Holder(p, key, None)] else s.holders, s.nextToken + 1)
    case Dispatch(t, telegram, webhook) =>
      if t !in s.holders then s
      else s.(holders := s.holders[t := s.holders[t].(result := Some(Dispatched(telegram, webhook)))])
    case Finish(t, o) =>
      if t !in s.holders || s.holders[t].result.None? then s
      else
        var h := s.holders[t];
        s.(file := Mutated(s.file, Finished(s.file.visible, h.place, h.key, t, Succeeded(h.result.value)), o),
           holders := s.holders - {t})
    case ClearQuota(users, o) => s.(file := Mutated(s.file, Cleared(s.file.visible, QUOTA_KINDS, users), o))
    case ClearUsers(users, o) => s.(file := Mutated(s.file, Cleared(s.file.visible, ALL_KINDS, users), o))
    case Die(t) => s.(holders := s.holders - {t})
    case MachineCrash(content) => s.(file := Rebooted(content), holders := map[])
  }

  predicate Enabled(s: Sys, a: Act) {
    a.MachineCrash? ==> a.content in s.file.possible
  }

  function Run(s: Sys, acts: seq<Act>): Sys
    decreases acts
  {
    if acts == [] then s else Run(Apply(s, acts[0]), acts[1..])
  }

  predicate Allowed(s: Sys, acts: seq<Act>)
    decreases acts
  {
    acts != [] ==> Enabled(s, acts[0]) && Allowed(Apply(s, acts[0]), acts[1..])
  }

  function Start(): Sys {
    Sys(Rebooted(map[]), map[], 1)
  }

  // -------------------------------------------------------------------- the class

  /** Tokens are not issued twice: no content a crash may leave names the next one. */
  ghost predicate Unissued(f: File<Slots>, token: Token) {
    && Coherent(f)
    && forall c: Slots, p: Place :: c in f.possible && p in c && c[p].Claimed? ==> c[p].token < token
  }

  class AlertState {
    var file: File<Slots>
    var nextToken: Token

    ghost predicate Valid()
      reads this
    {
      Unissued(file, nextToken)
    }

    constructor ()
      ensures Valid() && file == Rebooted(map[]) && nextToken == 1
    {
      file, nextToken := File(map[], {map[]}), 1;
    }

    method Save(slots: Slots, o: Outcome) returns (raised: bool)
      modifies this`file
      ensures file == Mutated(old(file), slots, o)
      ensures raised <==> slots != old(file.visible) && !o.Durable?
    {
      raised := false;
      if slots != file.visible {
        file := Written(file, slots, o);
        raised := !o.Durable?;
      }
    }

    /** A token exactly for a well-formed claim that nothing suppresses and that is durably
        saved; an exception for the malformed and the unsaved ones. */
    method ClaimAlert(p: Place, key: Key, now: real, ttl: real, o: Outcome)
      returns (token: Option<Token>, raised: bool)
      requires Valid()
      modifies this
      ensures Valid() && nextToken == old(nextToken) + 1
      ensures
        var suppressed := Suppressed(old(file.visible), p, key, now, if ttl < 0.0 then 0.0 else ttl);
        var claims := !suppressed && !Malformed(p, key, now);
        && file == (if claims then Written(old(file), old(file.visible)[p := Claimed(key, old(nextToken), now)], o)
                    else old(file))
        && token == (if claims && o.Durable? then Some(old(nextToken)) else None)
        && (raised <==> p.user == "" || key == "" || (!suppressed && (now < 0.0 || !o.Durable?)))
      ensures token.Some? ==> Holds(file.visible, p, key, token.value)
      ensures ttl == TTL ==>
        var n := Apply(Sys(old(file), map[], old(nextToken)), Claim(p, key, now, o));
        n.file == file && n.nextToken == nextToken && (token.Some? <==> old(nextToken) in n.holders)
    {
      var limit := if ttl < 0.0 then 0.0 else ttl;
      var issued := nextToken;
      nextToken := nextToken + 1;
      if p.user == "" || key == "" {
        return None, true;
      }
      if p in file.visible {
        var current := file.visible[p];
        if current.Delivered? && current.key == key {
          return None, false;
        }
        if current.Claimed? && current.key == key && 0.0 <= now - current.at < limit {
          return None, false;
        }
      }
      if now < 0.0 {
        return None, true;
      }
      ghost var before: Slots := file.visible;
      assert before[p := Claimed(key, issued, now)][p].token == issued;
      assert before[p := Claimed(key, issued, now)] != before;
      raised := Save(file.visible[p := Claimed(key, issued, now)], o);
      token := if raised then None else Some(issued);
    }

    /** Compare-and-swap on the claim's token. */
    method FinishAlertClaim(p: Place, key: Key, token: Token, delivered: bool, o: Outcome)
      returns (done: bool, raised: bool)
      requires Valid()
      modifies this`file
      ensures Valid()
      ensures
        if Holds(old(file.visible), p, key, token) then
          file == Written(old(file), if delivered then old(file.visible)[p := Delivered(key)]
                                     else old(file.visible) - {p}, o)
        else file == old(file)
      ensures done <==> Holds(old(file.visible), p, key, token) && o.Durable?
      ensures raised <==> Holds(old(file.visible), p, key, token) && !o.Durable?
    {
      if p !in file.visible {
        return false, false;
      }
      var current := file.visible[p];
      if !current.Claimed? || current.key != key || current.token != token {
        return false, false;
      }
      var slots := file.visible;
      if delivered {
        slots := slots[p := Delivered(key)];
        assert slots[p] != file.visible[p];
      } else {
        slots := slots - {p};
        assert p !in slots;
      }
      raised := Save(slots, o);
      done := !raised;
    }

    method Clear(kinds: seq<Kind>, users: seq<User>, o: Outcome) returns (raised: bool)
      modifies this`file
      ensures file == Mutated(old(file), Cleared(old(file.visible), (set k | k in kinds), (set u | u in users)), o)
      ensures raised ==> !o.Durable?
    {
      var slots := file.visible;
      var i := 0;
      while i < |kinds|
        invariant 0 <= i <= |kinds|
        invariant slots == Cleared(file.visible, set k | k in kinds[..i], set u | u in users)
      {
        ghost var before := slots;
        var j := 0;
        while j < |users|
          invariant 0 <= j <= |users|
          invariant slots == Cleared(before, {kinds[i]}, set u | u in users[..j])
        {
          slots := slots - {Place(kinds[i], users[j])};
          assert users[..j + 1] == users[..j] + [users[j]];
          j := j + 1;
        }
        assert users[..j] == users;
        assert kinds[..i + 1] == kinds[..i] + [kinds[i]];
        i := i + 1;
      }
      assert kinds[..i] == kinds;
      raised := Save(slots, o);
    }

    /** Claim, dispatch outside the lock, then complete or release; `None` when a save
        raised.  A granted claim is always dispatched, and settles its slot. */
    method DispatchOnce(p: Place, key: Key, now: real, telegram: Option<Try>, webhook: Option<Try>,
                        claim: Outcome, finish: Outcome) returns (result: Option<Result>)
      requires Valid()
      modifies this
      ensures Valid()
      ensures
        var suppressed := Suppressed(old(file.visible), p, key, now, TTL);
        var granted := !suppressed && !Malformed(p, key, now) && claim.Durable?;
        var r := Dispatched(telegram, webhook);
        && (granted ==> result == if finish.Durable? then Some(r) else None)
        && (suppressed && p.user != "" && key != "" ==> result == Some(Result({}, {})))
        && (!granted && !(suppressed && p.user != "" && key != "") ==> result == None)
        && (suppressed || Malformed(p, key, now) ==> file == old(file))
        && (granted && finish.Durable? ==>
              file == Rebooted(if Succeeded(r) then old(file.visible)[p := Delivered(key)]
                               else old(file.visible) - {p}))
        && (granted && finish.NotReplaced? ==>
              file == Rebooted(old(file.visible)[p := Claimed(key, old(nextToken), now)]))
      ensures forall q :: q != p ==> (q in file.visible <==> q in old(file.visible))
      ensures forall q :: q != p && q in file.visible ==> file.visible[q] == old(file.visible)[q]
    {
      ghost var before: Slots, issued := file.visible, nextToken;
      var token, raised := ClaimAlert(p, key, now, TTL, claim);
      if raised {
        return None;
      }
      if token.None? {
        return Some(Result({}, {}));
      }
      var r := Dispatched(telegram, webhook);
      var delivered := r.attempted != {} && r.failed == {};
      var done;
      done, raised := FinishAlertClaim(p, key, token.value, delivered, finish);
      assert before[p := Claimed(key, issued, now)][p := Delivered(key)] == before[p := Delivered(key)];
      assert before[p := Claimed(key, issued, now)] - {p} == before - {p};
      result := if raised then None else Some(r);
    }
  }
}
