/** One user's connections against the ledger, over runs in which no reservation expires. */
module DeviceSlots {
  import opened DurableFile
  import opened DeviceAdmission
  import opened Wrappers

  /** What could be counted at one moment of the run. */
  datatype Moment = Moment(live: nat, connected: nat)

  /** `admitted`: authentications allowed so far; `connected` of a moment: how many of them
      had reached the server by then.  `seen`: the moment the last request observed. */
  datatype World = World(ledger: Ledger, moments: seq<Moment>, admitted: nat, seen: nat)

  datatype Event =
    | Connect                                    // an admitted device reaches the server
    | Disconnect
    | Request(observed: nat, now: real, o: Outcome)  // observed: the moment of the online count
    | OtherUser(other: User, limit: nat, count: nat, now: real)

  function Now(w: World): Moment
    requires w.moments != []
  {
    w.moments[|w.moments| - 1]
  }

  function After(w: World, u: User, limit: nat, e: Event): World
    requires w.moments != []
  {
    match e
    case Connect => w.(moments := w.moments + [Moment(Now(w).live + 1, Now(w).connected + 1)])
    case Disconnect => if Now(w).live == 0 then w
        else w.(moments := w.moments + [Moment(Now(w).live - 1, Now(w).connected)])
    case Request(i, now, o) =>
      if i >= |w.moments| then w
      else
        var (l, allowed) := Reserved(w.ledger, u, limit, w.moments[i].live, now);
        World(if o.NotReplaced? then w.ledger else l, w.moments,
              w.admitted + (if allowed && o.Durable? then 1 else 0), if o.NotReplaced? then w.seen else i)
    case OtherUser(v, n, count, now) => w.(ledger := Reserved(w.ledger, v, n, count, now).0)
  }

  /** No reservation of the user has reached its expiry. */
  predicate NoneExpired(w: World, u: User, now: real) {
    u in w.ledger ==> forall i :: 0 <= i < |w.ledger[u].pending| ==> w.ledger[u].pending[i] > now - TTL
  }

  /** Only admitted devices connect; counts are observed in the order they are used. */
  predicate Possible(w: World, u: User, e: Event)
    requires w.moments != []
  {
    match e
    case Connect => Now(w).connected < w.admitted
    case Disconnect => true
    case Request(i, now, _) => w.seen <= i < |w.moments| && NoneExpired(w, u, now)
    case OtherUser(v, _, _, now) => v != u && NoneExpired(w, u, now)
  }

  function Run(w: World, u: User, limit: nat, events: seq<Event>): (n: World)
    requires w.moments != []
    ensures n.moments != []
    decreases events
  {
    if events == [] then w else Run(After(w, u, limit, events[0]), u, limit, events[1..])
  }

  predicate PossibleRun(w: World, u: User, limit: nat, events: seq<Event>)
    requires w.moments != []
    decreases events
  {
    events != [] ==> Possible(w, u, events[0]) && PossibleRun(After(w, u, limit, events[0]), u, limit, events[1..])
  }

  function Pending(w: World, u: User): nat {
    if u in w.ledger then |w.ledger[u].pending| else 0
  }

  ghost predicate Counted(w: World, limit: nat) {
    && w.moments != [] && w.seen < |w.moments|
    && (forall i, j :: 0 <= i <= j < |w.moments| ==>
          && w.moments[i].connected <= w.moments[j].connected
          && w.moments[j].live + w.moments[i].connected <= w.moments[i].live + w.moments[j].connected)
    && Now(w).connected <= w.admitted
    && forall i :: 0 <= i < |w.moments| ==> w.moments[i].live <= limit
  }

  /** Pending reservations cover the admitted devices not yet observed. */
  ghost predicate Covered(w: World, u: User, limit: nat) {
    && Counted(w, limit)
    && (u in w.ledger ==> w.ledger[u].pending != [] && w.ledger[u].observed == Some(w.moments[w.seen].live))
    && w.admitted <= w.moments[w.seen].connected + Pending(w, u)
    && w.moments[w.seen].live + Pending(w, u) <= limit
  }

  lemma {:induction false} NothingExpires(stamps: seq<real>, cutoff: real)
    requires forall i :: 0 <= i < |stamps| ==> stamps[i] > cutoff
    ensures Unexpired(stamps, cutoff) == stamps
  {
    if stamps != [] {
      NothingExpires(stamps[1..], cutoff);
    }
  }

  lemma RequestKeeps(w: World, u: User, limit: nat, i: nat, now: real, o: Outcome)
    requires Covered(w, u, limit) && Possible(w, u, Request(i, now, o))
    ensures Covered(After(w, u, limit, Request(i, now, o)), u, limit)
  {
    hide Counted, Reserved;
    CoveredMoments(w, u, limit);
    MomentsApart(w, limit, i);
    RequestLeaves(w.ledger, u, limit, w.moments[w.seen], w.moments[i], now);
    var n := After(w, u, limit, Request(i, now, o));
    CountsKept(w, n, limit);
  }

  lemma MomentsApart(w: World, limit: nat, i: nat)
    requires Counted(w, limit) && w.seen <= i < |w.moments|
    ensures w.moments[w.seen].connected <= w.moments[i].connected
    ensures w.moments[i].live + w.moments[w.seen].connected <= w.moments[w.seen].live + w.moments[i].connected
    ensures w.moments[i].live <= limit
  {
  }

  lemma CountsKept(w: World, n: World, limit: nat)
    requires Counted(w, limit) && n.moments == w.moments && n.seen < |n.moments| && n.admitted >= w.admitted
    ensures Counted(n, limit)
  {
  }

  /** One request, from the moment last observed to the moment observed now: the drop of
      pending reservations is at most the number of devices that connected between. */
  lemma RequestLeaves(l: Ledger, u: User, limit: nat, seen: Moment, here: Moment, now: real)
    requires u in l ==> l[u].pending != [] && l[u].observed == Some(seen.live)
    requires u in l ==> forall i :: 0 <= i < |l[u].pending| ==> l[u].pending[i] > now - TTL
    requires seen.connected <= here.connected && here.live + seen.connected <= seen.live + here.connected
    requires here.live <= limit && (u in l ==> seen.live + |l[u].pending| <= limit)
    ensures var (n, allowed) := Reserved(l, u, limit, here.live, now);
            var before := if u in l then |l[u].pending| else 0;
            var left := if u in n then |n[u].pending| else 0;
            && (u in n ==> n[u].pending != [] && n[u].observed == Some(here.live))
            && left + here.connected >= before + seen.connected + (if allowed then 1 else 0)
            && here.live + left <= limit
  {
    if u in l {
      NothingExpires(l[u].pending, now - TTL);
    }
    var kept := Pruned(l, now - TTL);
    assert (u in kept <==> u in l) && (u in kept ==> kept[u] == l[u]);
  }

  lemma OtherLeaves(l: Ledger, u: User, v: User, limit: nat, count: nat, now: real)
    requires u != v && (u in l ==> forall i :: 0 <= i < |l[u].pending| ==> l[u].pending[i] > now - TTL)
    requires u in l ==> l[u].pending != []
    ensures var n := Reserved(l, v, limit, count, now).0; (u in n <==> u in l) && (u in l ==> n[u] == l[u])
  {
    if u in l {
      NothingExpires(l[u].pending, now - TTL);
    }
  }

  lemma OtherKeeps(w: World, u: User, limit: nat, e: Event)
    requires Covered(w, u, limit) && e.OtherUser? && Possible(w, u, e)
    ensures Covered(After(w, u, limit, e), u, limit)
  {
    hide Reserved, Counted;
    CoveredMoments(w, u, limit);
    OtherLeaves(w.ledger, u, e.other, e.limit, e.count, e.now);
    CountsOnly(w, After(w, u, limit, e), limit);
  }

  lemma CountsOnly(w: World, n: World, limit: nat)
    requires Counted(w, limit) && n == w.(ledger := n.ledger)
    ensures Counted(n, limit)
  {
  }

  lemma ConnectCounts(w: World, u: User, limit: nat)
    requires Counted(w, limit) && Now(w).connected < w.admitted && Now(w).live < limit
    ensures Counted(After(w, u, limit, Connect), limit)
  {
    var n := After(w, u, limit, Connect);
    forall i, j | 0 <= i <= j < |n.moments|
      ensures n.moments[i].connected <= n.moments[j].connected
      ensures n.moments[j].live + n.moments[i].connected <= n.moments[i].live + n.moments[j].connected
    {
      if j == |w.moments| && i < j {
        assert w.moments[i].connected <= Now(w).connected;
        assert Now(w).live + w.moments[i].connected <= w.moments[i].live + Now(w).connected;
      }
    }
  }

  lemma DisconnectCounts(w: World, u: User, limit: nat)
    requires Counted(w, limit)
    ensures Counted(After(w, u, limit, Disconnect), limit)
  {
    var n := After(w, u, limit, Disconnect);
    forall i, j | 0 <= i <= j < |n.moments|
      ensures n.moments[i].connected <= n.moments[j].connected
      ensures n.moments[j].live + n.moments[i].connected <= n.moments[i].live + n.moments[j].connected
    {
      if n != w && j == |w.moments| && i < j {
        assert w.moments[i].connected <= Now(w).connected;
        assert Now(w).live + w.moments[i].connected <= w.moments[i].live + Now(w).connected;
      }
    }
  }

  lemma ConnectKeeps(w: World, u: User, limit: nat)
    requires Covered(w, u, limit) && Possible(w, u, Connect)
    ensures Now(w).live < limit && Covered(After(w, u, limit, Connect), u, limit)
  {
    assert Now(w).live + w.moments[w.seen].connected <= w.moments[w.seen].live + Now(w).connected;
    ConnectCounts(w, u, limit);
    hide Counted;
  }

  lemma DisconnectKeeps(w: World, u: User, limit: nat)
    requires Covered(w, u, limit)
    ensures Covered(After(w, u, limit, Disconnect), u, limit)
  {
    CoveredMoments(w, u, limit);
    DisconnectCounts(w, u, limit);
    hide Counted;
  }

  lemma {:induction false} CoveredInRuns(w: World, u: User, limit: nat, events: seq<Event>)
    requires Covered(w, u, limit) && PossibleRun(w, u, limit, events)
    ensures Covered(Run(w, u, limit, events), u, limit)
    decreases events
  {
    hide Covered, After, Possible;
    if events != [] {
      var e := events[0];
      CoveredMoments(w, u, limit);
      match e {
        case Connect => ConnectKeeps(w, u, limit);
        case Disconnect => DisconnectKeeps(w, u, limit);
        case Request(i, now, o) => RequestKeeps(w, u, limit, i, now, o);
        case OtherUser(_, _, _, _) => OtherKeeps(w, u, limit, e);
      }
      CoveredInRuns(After(w, u, limit, e), u, limit, events[1..]);
    }
  }

  lemma CoveredMoments(w: World, u: User, limit: nat)
    requires Covered(w, u, limit)
    ensures w.moments != [] && w.seen < |w.moments|
  {
  }

  /** Nothing is pending; `live` devices are connected. */
  function Quiet(live: nat, others: Ledger): World {
    World(others, [Moment(live, 0)], 0, 0)
  }

  /** Live connections never exceed the limit, for any lag of the online count, any
      connects, disconnects, failed saves and other users' requests, as long as no
      reservation expires and no count is older than one already used. */
  lemma SlotsHold(live: nat, others: Ledger, u: User, limit: nat, events: seq<Event>)
    requires live <= limit && u !in others && PossibleRun(Quiet(live, others), u, limit, events)
    ensures Now(Run(Quiet(live, others), u, limit, events)).live <= limit
  {
    CoveredInRuns(Quiet(live, others), u, limit, events);
  }

  /** And no slot is wasted once every admitted device has been observed: the next request
      is admitted exactly when a device slot is free. */
  lemma FreeSlotIsGranted(w: World, u: User, limit: nat, now: real)
    requires w.moments != [] && u !in w.ledger
    ensures var n := After(w, u, limit, Request(|w.moments| - 1, now, Durable));
            n.admitted == w.admitted + 1 <==> Now(w).live < limit
  {
    assert u !in Pruned(w.ledger, now - TTL);
  }

  // ---------------------------------------------------------------------- witnesses

  /** A count that overtakes a newer one: the device it misses is already unreserved. */
  lemma OvertakingCountOverfills(u: User, w1: World, w2: World, w3: World, w4: World, n: World)
    requires w1 == After(Quiet(0, map[]), u, 1, Request(0, 1.0, Durable)) && w2 == After(w1, u, 1, Connect)
    requires w3 == After(w2, u, 1, Request(1, 2.0, Durable)) && w4 == After(w3, u, 1, Request(0, 3.0, Durable))
    requires Possible(w4, u, Connect) ==> n == After(w4, u, 1, Connect)
    ensures Possible(w4, u, Connect) && Now(n).live == 2
    ensures !Possible(w3, u, Request(0, 3.0, Durable)) && NoneExpired(w3, u, 3.0)
  {
    assert Pruned(map[], 1.0 - TTL) == map[];
    assert [] + [1.0] == [1.0];
    assert w1.ledger == map[u := Record(Some(0), [1.0])];
    NothingExpires([1.0], 2.0 - TTL);
    assert w3.ledger == map[] && w3.admitted == 1;
    assert Pruned(map[], 3.0 - TTL) == map[];
  }

  /** A reservation that expires before its device connects: the limit is exceeded. */
  lemma ExpiryOverfills(u: User, w1: World, w2: World, w3: World)
    requires w1 == After(Quiet(0, map[]), u, 1, Request(0, 1.0, Durable))
    requires w2 == After(w1, u, 1, Request(0, 21.0, Durable)) && w3 == After(w2, u, 1, Connect)
    ensures !NoneExpired(w1, u, 21.0)
    ensures Possible(w3, u, Connect) && Now(After(w3, u, 1, Connect)).live == 2
  {
    assert Pruned(map[], 1.0 - TTL) == map[];
    assert [] + [1.0] == [1.0];
    assert w1.ledger == map[u := Record(Some(0), [1.0])];
    assert Unexpired([1.0], 21.0 - TTL) == [];
    assert Pruned(w1.ledger, 21.0 - TTL) == map[];
    assert w2.admitted == 2;
  }
}
