/** Short-lived recovery receipts of self-service rotations
    (hysteria/rotation_recovery.py).

    A receipt key is the digest of a user and a request id; a session is named by its
    digest, a positive number, 0 being the missing session. */
module RotationReceipts {
  import opened Credentials
  import opened DurableFile

  const RECEIPT_TTL_SECONDS := 300
  const RECEIPT_MAX_ENTRIES := 256
  const SESSIONS_KEPT := 4

  type Key = nat
  type Session = nat

  datatype Receipt = Receipt(
    user: User, previous: Gen, token: nat,
    sessions: seq<Session>, createdAt: nat, expiresAt: nat)

  type Receipts = map<Key, Receipt>

  function Live(rs: Receipts, now: nat): Receipts {
    map k | k in rs && rs[k].expiresAt > now :: rs[k]
  }

  datatype LookupReply = NotBound | Found(receipt: Receipt) | LookupFailed(o: Outcome)

  datatype PrepareReply =
    | Ready(receipt: Receipt)
    | NotPermitted
    | Full
    | SaveFailed(o: Outcome)

  predicate BoundTo(r: Receipt, session: Session) {
    session in r.sessions
  }

  function LookupFile(f: File<Receipts>, key: Key, session: Session, now: nat, o: Outcome): (File<Receipts>,
      LookupReply) {
    if session == 0 then (f, NotBound)
    else
      var live := Live(f.visible, now);
      var saved := if live == f.visible then f else Written(f, live, o);
      if live != f.visible && !o.Durable? then (saved, LookupFailed(o))
      else if key in live && BoundTo(live[key], session) then (saved, Found(live[key]))
      else (saved, NotBound)
  }

  function PrepareFile(f: File<Receipts>, key: Key, user: User, session: Session, previous: Gen, token: nat,
                       now: nat, o: Outcome): (File<Receipts>, PrepareReply) {
    var live := Live(f.visible, now);
    if key in live then
      var r := live[key];
      if r.user != user || !BoundTo(r, session) || r.previous != previous then (f, NotPermitted)
      else (Written(f, live, o), if o.Durable? then Ready(r) else SaveFailed(o))
    else if |live| >= RECEIPT_MAX_ENTRIES then (f, Full)
    else
      var r := Receipt(user, previous, token, [session], now, now + RECEIPT_TTL_SECONDS);
      (Written(f, live[key := r], o), if o.Durable? then Ready(r) else SaveFailed(o))
  }

  function LastFour(s: seq<Session>): seq<Session> {
    if |s| <= SESSIONS_KEPT then s else s[|s|-SESSIONS_KEPT..]
  }

  function BindFile(f: File<Receipts>, key: Key, original: Session, replacement: Session,
                    now: nat, o: Outcome): File<Receipts> {
    var live := Live(f.visible, now);
    if replacement == 0 || key !in live || !BoundTo(live[key], original) then f
    else
      var r := live[key];
      var bound := if replacement in r.sessions then r else r.(sessions := LastFour(r.sessions + [replacement]));
      Written(f, live[key := bound], o)
  }

  function DiscardFile(f: File<Receipts>, key: Key, o: Outcome): File<Receipts> {
    if key in f.visible then Written(f, f.visible - {key}, o) else f
  }

  function PruneFile(f: File<Receipts>, now: nat, o: Outcome): File<Receipts> {
    var live := Live(f.visible, now);
    if live == f.visible then f else Written(f, live, o)
  }

  ghost predicate Bounded(f: File<Receipts>) {
    forall c :: c in f.possible ==> |c| <= RECEIPT_MAX_ENTRIES
  }

  lemma LiveIsSmaller(rs: Receipts, now: nat)
    ensures |Live(rs, now)| <= |rs|
  {
    assert Live(rs, now).Keys <= rs.Keys;
    SubsetSize(Live(rs, now).Keys, rs.Keys);
  }

  lemma {:induction false} SubsetSize(a: set<Key>, b: set<Key>)
    requires a <= b
    ensures |a| <= |b|
    decreases b
  {
    if x :| x in b {
      SubsetSize(a - {x}, b - {x});
    }
  }

  /** One process's view of the receipt file; every method runs under the file lock. */
  class ReceiptStore {
    var file: File<Receipts>

    ghost predicate Valid()
      reads this
    {
      Coherent(file) && Bounded(file)
    }

    constructor ()
      ensures Valid() && file == Rebooted(map[])
    {
      file := File(map[], {map[]});
    }

    method LookupBound(key: Key, session: Session, now: nat, o: Outcome) returns (r: LookupReply)
      requires Valid()
      modifies this
      ensures Valid()
      ensures (file, r) == LookupFile(old(file), key, session, now, o)
      ensures r.Found? ==> BoundTo(r.receipt, session) && r.receipt.expiresAt > now
    {
      if session == 0 {
        return NotBound;
      }
      var original := file.visible;
      var data := Live(original, now);
      LiveIsSmaller(original, now);
      if data != original {
        file := Written(file, data, o);
        if !o.Durable? {
          return LookupFailed(o);
        }
      }
      if key !in data {
        return NotBound;
      }
      var item := data[key];
      if session !in item.sessions {
        return NotBound;
      }
      return Found(item);
    }

    method Prepare(key: Key, user: User, session: Session, previous: Gen, token: nat, now: nat, o: Outcome)
      returns (r: PrepareReply)
      requires Valid() && session != 0
      modifies this
      ensures Valid()
      ensures (file, r) == PrepareFile(old(file), key, user, session, previous, token, now, o)
      ensures r.Ready? ==> Everywhere(file, c => key in c && c[key] == r.receipt)
      ensures r.Ready? ==> BoundTo(r.receipt, session) && r.receipt.user == user && r.receipt.previous == previous
    {
      var data := Live(file.visible, now);
      LiveIsSmaller(file.visible, now);
      if key in data {
        var existing := data[key];
        if existing.user != user || session !in existing.sessions || existing.previous != previous {
          return NotPermitted;
        }
        file := Written(file, data, o);
        return if o.Durable? then Ready(existing) else SaveFailed(o);
      }
      if |data| >= RECEIPT_MAX_ENTRIES {
        return Full;
      }
      var item := Receipt(user, previous, token, [session], now, now + RECEIPT_TTL_SECONDS);
      data := data[key := item];
      file := Written(file, data, o);
      return if o.Durable? then Ready(item) else SaveFailed(o);
    }

    method BindReplacementSession(key: Key, original: Session, replacement: Session, now: nat, o: Outcome)
      returns (bound: bool)
      requires Valid()
      modifies this
      ensures Valid()
      ensures file == BindFile(old(file), key, original, replacement, now, o)
      ensures bound ==> key in file.visible && BoundTo(file.visible[key], replacement)
      ensures key in old(file.visible) && key in file.visible ==>
                var a, b := old(file.visible)[key], file.visible[key];
                a.(sessions := []) == b.(sessions := [])
    {
      if replacement == 0 {
        return false;
      }
      var data := Live(file.visible, now);
      LiveIsSmaller(file.visible, now);
      if key !in data {
        return false;
      }
      var item := data[key];
      if original !in item.sessions {
        return false;
      }
      if replacement !in item.sessions {
        var sessions := item.sessions + [replacement];
        if |sessions| > SESSIONS_KEPT {
          sessions := sessions[|sessions|-SESSIONS_KEPT..];
        }
        assert sessions[|sessions|-1] == replacement;
        item := item.(sessions := sessions);
      }
      assert data[key := item].Keys == data.Keys;
      file := Written(file, data[key := item], o);
      return o.Durable?;
    }

    method Discard(key: Key, o: Outcome)
      requires Valid()
      modifies this
      ensures Valid()
      ensures file == DiscardFile(old(file), key, o)
      ensures o.Durable? ==> key !in file.visible
    {
      var data := file.visible;
      if key in data {
        data := data - {key};
        SubsetSize(data.Keys, file.visible.Keys);
        file := Written(file, data, o);
      }
    }

    method PruneExpired(now: nat, o: Outcome)
      requires Valid()
      modifies this
      ensures Valid()
      ensures file == PruneFile(old(file), now, o)
      ensures o.Durable? ==> forall k :: k in file.visible ==> file.visible[k].expiresAt > now
    {
      var data := Live(file.visible, now);
      LiveIsSmaller(file.visible, now);
      if data != file.visible {
        file := Written(file, data, o);
      }
    }
  }
}
