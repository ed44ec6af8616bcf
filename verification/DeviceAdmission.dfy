/** The device-slot ledger: short reservations bridge the lag of the online count
    (hysteria/auth_backend.py, `reserve_device_admission`). */
module DeviceAdmission {
  import opened DurableFile
  import opened Wrappers

  type User = string

  const TTL: real := 20.0

  /** `observed` is absent in the list-only format of the first implementation. */
  datatype Record = Record(observed: Option<nat>, pending: seq<real>)

  type Ledger = map<User, Record>

  datatype Reply = Invalid | Raised | Decided(allowed: bool)

  function Unexpired(stamps: seq<real>, cutoff: real): seq<real> {
    if stamps == [] then []
    else (if stamps[0] > cutoff then [stamps[0]] else []) + Unexpired(stamps[1..], cutoff)
  }

  function Pruned(l: Ledger, cutoff: real): Ledger {
    map u | u in l && Unexpired(l[u].pending, cutoff) != [] :: Record(l[u].observed, Unexpired(l[u].pending, cutoff))
  }

  function Found(l: Ledger, u: User, observed: nat): Record {
    if u in l then l[u] else Record(Some(observed), [])
  }

  /** How far the online count rose since the record was written. */
  function Reflected(r: Record, observed: nat): nat {
    if r.observed.Some? && observed > r.observed.value then observed - r.observed.value else 0
  }

  function Unreflected(r: Record, observed: nat): seq<real> {
    var n := Reflected(r, observed);
    if n >= |r.pending| then [] else r.pending[n..]
  }

  /** The record after one reservation attempt: kept only while something is pending. */
  function Admitted(r: Record, limit: nat, observed: nat, now: real): (Record, bool) {
    var pending := Unreflected(r, observed);
    var allowed := observed + |pending| < limit;
    (Record(Some(observed), if allowed then pending + [now] else pending), allowed)
  }

  function Reserved(l: Ledger, u: User, limit: nat, observed: nat, now: real): (Ledger, bool) {
    var kept := Pruned(l, now - TTL);
    var (r, allowed) := Admitted(Found(kept, u, observed), limit, observed, now);
    (if r.pending == [] then kept - {u} else kept[u := r], allowed)
  }

  /** Stamp by stamp, those later than the cutoff, in their order. */
  lemma {:induction false} UnexpiredMeans(a: seq<real>, b: seq<real>, x: real, cutoff: real)
    ensures Unexpired([], cutoff) == []
    ensures Unexpired([x], cutoff) == if x > cutoff then [x] else []
    ensures Unexpired(a + b, cutoff) == Unexpired(a, cutoff) + Unexpired(b, cutoff)
  {
    assert [x][1..] == [];
    if a == [] {
      assert a + b == b;
    } else {
      assert (a + b)[1..] == a[1..] + b;
      UnexpiredMeans(a[1..], b, x, cutoff);
    }
  }

  /** The reservations of the user that the clock has not ended. */
  function Running(l: Ledger, u: User, now: real): seq<real> {
    if u in l then Unexpired(l[u].pending, now - 20.0) else []
  }

  /** How many of them the online count does not show yet: all, less the rise of the count
      since the record was written, when that is known. */
  function Hidden(l: Ledger, u: User, observed: nat, now: real): (n: nat)
    ensures n <= |Running(l, u, now)|
  {
    var running := |Running(l, u, now)|;
    if running == 0 || l[u].observed.None? || observed <= l[u].observed.value then running
    else if observed - l[u].observed.value >= running then 0
    else running - (observed - l[u].observed.value)
  }

  /** A device is admitted exactly while the count and the hidden reservations are below the
      limit; the newest hidden ones stay, and then the new one. */
  lemma DecisionMeans(l: Ledger, u: User, limit: nat, observed: nat, now: real)
    ensures var (n, allowed) := Reserved(l, u, limit, observed, now);
            var (running, hidden) := (Running(l, u, now), Hidden(l, u, observed, now));
            && (allowed <==> observed + hidden < limit)
            && (u in n <==> allowed || hidden > 0)
            && (u in n ==>
                  n[u] == Record(Some(observed), running[|running| - hidden..] + if allowed then [now] else []))
  {
    hide Unexpired;
    var running := Running(l, u, now);
    assert running[0..] == running && running[|running|..] == [];
    var found := Found(Pruned(l, now - TTL), u, observed);
    FoundMeans(l, u, observed, now);
    hide Pruned, Found;
    assert Unreflected(found, observed) == running[|running| - Hidden(l, u, observed, now)..];
  }

  lemma FoundMeans(l: Ledger, u: User, observed: nat, now: real)
    ensures var found := Found(Pruned(l, now - TTL), u, observed);
            && found.pending == Running(l, u, now)
            && found.observed == if Running(l, u, now) == [] then Some(observed) else l[u].observed
  {
    hide Unexpired;
  }

  /** Everybody else only loses what has expired. */
  lemma OtherUsersKept(l: Ledger, u: User, v: User, limit: nat, observed: nat, now: real)
    requires v != u
    ensures var n := Reserved(l, u, limit, observed, now).0;
            && (v in n <==> Running(l, v, now) != [])
            && (v in n ==> n[v] == Record(l[v].observed, Running(l, v, now)))
  {
    hide Unexpired, Admitted;
  }

  lemma {:induction false} UnexpiredAbove(stamps: seq<real>, cutoff: real)
    ensures forall x :: x in Unexpired(stamps, cutoff) ==> x > cutoff
    ensures (forall x :: x in stamps ==> x > cutoff) ==> Unexpired(stamps, cutoff) == stamps
    ensures |Unexpired(stamps, cutoff)| <= |stamps|
  {
    if stamps != [] {
      UnexpiredAbove(stamps[1..], cutoff);
      assert stamps[0] in stamps && forall x :: x in stamps[1..] ==> x in stamps;
    }
  }

  lemma PrunedWhenSame(l: Ledger, u: User, limit: nat, observed: nat, now: real)
    requires Reserved(l, u, limit, observed, now).0 == l
    ensures Pruned(l, now - TTL) == l
  {
    hide Unexpired, Reserved, Pruned;
    forall v | v in l ensures Running(l, v, now) == l[v].pending != [] {
      UnexpiredAbove(l[v].pending, now - TTL);
      if v == u {
        DecisionMeans(l, u, limit, observed, now);
        var (running, hidden) := (Running(l, u, now), Hidden(l, u, observed, now));
        assert forall x :: x in running[|running| - hidden..] ==> x in running;
      } else {
        OtherUsersKept(l, u, v, limit, observed, now);
      }
    }
    RunningIsPruned(l, now);
  }

  lemma RunningIsPruned(l: Ledger, now: real)
    requires forall v :: v in l ==> Running(l, v, now) == l[v].pending != []
    ensures Pruned(l, now - TTL) == l
  {
    hide Unexpired;
  }

  /** The source saves exactly when that changes the ledger. */
  lemma SavedExactly(l: Ledger, u: User, limit: nat, observed: nat, now: real)
    ensures var kept := Pruned(l, now - TTL);
            var r := Found(kept, u, observed);
            var (n, allowed) := Reserved(l, u, limit, observed, now);
            kept != l || allowed || Reflected(r, observed) > 0 || r.observed != Some(observed) <==> n != l
  {
    hide Unexpired;
    if Reserved(l, u, limit, observed, now).0 == l {
      PrunedWhenSame(l, u, limit, observed, now);
    } else if u !in l {
      assert l - {u} == l;
    }
  }

  class DeviceLedger {
    var ledger: Ledger

    constructor (initial: Ledger)
      ensures ledger == initial
    {
      ledger := initial;
    }

    static method Prune(admissions: Ledger, cutoff: real) returns (pruned: Ledger)
      ensures pruned == Pruned(admissions, cutoff)
    {
      pruned := map[];
      var todo := admissions.Keys;
      while todo != {}
        invariant todo <= admissions.Keys
        invariant forall u :: u in pruned <==>
            u in admissions && u !in todo && Unexpired(admissions[u].pending, cutoff) != []
        invariant forall u :: u in pruned ==>
            pruned[u] == Record(admissions[u].observed, Unexpired(admissions[u].pending, cutoff))
      {
        var u :| u in todo;
        todo := todo - {u};
        var pending := Unexpired(admissions[u].pending, cutoff);
        if pending != [] {
          pruned := pruned[u := Record(admissions[u].observed, pending)];
        }
      }
    }

    static method Admit(r: Record, limit: nat, observed: nat, now: real)
      returns (pending: seq<real>, reflected: bool, allowed: bool)
      ensures (Record(Some(observed), pending), allowed) == Admitted(r, limit, observed, now)
      ensures reflected <==> Reflected(r, observed) > 0
    {
      var previous := if r.observed.Some? then r.observed.value else observed;
      pending := r.pending;
      reflected := observed > previous;
      if reflected {
        pending := pending[if observed - previous < |pending| then observed - previous else |pending|..];
      }
      allowed := observed + |pending| < limit;
      if allowed {
        pending := pending + [now];
      }
    }

    /** `limit` and `observed` are the parsed integers; `o` is how the save ends. */
    method Reserve(u: User, limit: int, observed: int, now: real, o: Outcome) returns (reply: Reply)
      modifies this
      ensures (u == "" || now < 0.0 || observed < 0 || limit <= 0) <==> reply.Invalid?
      ensures reply.Invalid? ==> ledger == old(ledger)
      ensures !reply.Invalid? ==>
                var (next, allowed) := Reserved(old(ledger), u, limit, observed, now);
                && ledger == (if o.NotReplaced? then old(ledger) else next)
                && reply == if next != old(ledger) && !o.Durable? then Raised else Decided(allowed)
    {
      if u == "" || now < 0.0 || limit < 0 || observed < 0 || limit == 0 {
        return Invalid;
      }
      var pruned := Prune(ledger, now - TTL);
      var changed := pruned != ledger;
      var r := if u in pruned then pruned[u] else Record(Some(observed), []);
      var pending, reflected, allowed := Admit(r, limit, observed, now);
      if pending != [] {
        pruned := pruned[u := Record(Some(observed), pending)];
      } else {
        pruned := pruned - {u};
      }
      if allowed || reflected || r.observed != Some(observed) {
        changed := true;
      }
      SavedExactly(ledger, u, limit, observed, now);
      if changed {
        if !o.NotReplaced? {
          ledger := pruned;
        }
        if !o.Durable? {
          return Raised;
        }
      }
      reply := Decided(allowed);
    }
  }
}
