/** The leased, bounded write-ahead queue of credential revocations
    (hysteria/revocation_queue.py).

    A task id is the digest of a user and a nonce, here a natural number; the order
    of ids is the order of the digests.  `static_services` is kept sorted by the
    source and is a set here. */
module RevocationQueue {
  import opened Credentials
  import opened DurableFile

  const TASK_TTL_SECONDS := 600
  const TASK_MAX_ENTRIES := 512
  const CLAIM_LEASE_SECONDS := 15
  const SECOND_KICK_DELAY_SECONDS := 2
  const RETRY_DELAY_SECONDS := 5

  datatype Service = Xray | Tuic

  type TaskId = nat

  datatype Task = Task(
    user: User, previous: Gen, target: Gen,
    createdAt: nat, expiresAt: nat,
    nextAttemptAt: nat, leaseUntil: nat,
    kickSuccesses: nat, attempts: nat,
    services: set<Service>)

  type Tasks = map<TaskId, Task>

  datatype PrepareReply = Prepared(task: Task) | BindingMismatch | CapacityFull | PrepareFailed(o: Outcome)

  function Min(a: nat, b: nat): nat {
    if a <= b then a else b
  }

  // ---------------------------------------------------------------- contents

  predicate Bound(t: Task, user: User, previous: Gen, target: Gen) {
    t.user == user && t.previous == previous && t.target == target
  }

  function NewTask(user: User, previous: Gen, target: Gen, services: set<Service>, now: nat): Task {
    Task(user, previous, target, now, now + TASK_TTL_SECONDS, now, 0, 0, 0, services)
  }

  function AfterPrepare(q: Tasks, id: TaskId, user: User, previous: Gen, target: Gen,
                        services: set<Service>, now: nat): Tasks {
    if id in q then q else q[id := NewTask(user, previous, target, services, now)]
  }

  function AfterRequire(q: Tasks, id: TaskId, wanted: set<Service>, now: nat): Tasks
    requires id in q
  {
    q[id := q[id].(services := q[id].services + wanted, nextAttemptAt := Min(q[id].nextAttemptAt, now))]
  }

  predicate Due(t: Task, now: nat) {
    t.nextAttemptAt <= now && t.leaseUntil <= now
  }

  /** The sort key of `claim_due`: next attempt, then creation, then id. */
  predicate Before(q: Tasks, a: TaskId, b: TaskId)
    requires a in q && b in q
  {
    if q[a].nextAttemptAt != q[b].nextAttemptAt then q[a].nextAttemptAt < q[b].nextAttemptAt
    else if q[a].createdAt != q[b].createdAt then q[a].createdAt < q[b].createdAt
    else a < b
  }

  ghost predicate IsHead(q: Tasks, now: nat, id: TaskId) {
    && id in q && Due(q[id], now)
    && forall x :: x in q && Due(q[x], now) && x != id ==> Before(q, id, x)
  }

  function AfterClaim(q: Tasks, id: TaskId, now: nat): Tasks
    requires id in q
  {
    q[id := q[id].(leaseUntil := now + CLAIM_LEASE_SECONDS, attempts := q[id].attempts + 1)]
  }

  function AfterRelease(q: Tasks, id: TaskId, delay: nat, now: nat): Tasks
    requires id in q
  {
    q[id := q[id].(leaseUntil := 0, nextAttemptAt := now + if delay < 1 then 1 else delay)]
  }

  function Attempted(t: Task, kickOk: bool, handled: set<Service>): Task {
    t.(kickSuccesses := if kickOk then Min(2, t.kickSuccesses + 1) else 0, services := t.services - handled)
  }

  predicate Finished(t: Task) {
    t.kickSuccesses >= 2 && t.services == {}
  }

  function Without(q: Tasks, id: TaskId): Tasks {
    q - {id}
  }

  function AfterAttempt(q: Tasks, id: TaskId, kickOk: bool, handled: set<Service>, now: nat): Tasks
    requires id in q
  {
    var t := Attempted(q[id], kickOk, handled);
    if Finished(t) then Without(q, id)
    else q[id := t.(leaseUntil := 0,
                    nextAttemptAt := now + if kickOk then SECOND_KICK_DELAY_SECONDS else RETRY_DELAY_SECONDS)]
  }

  // ------------------------------------------------------------------- files

  /** The file after `prepare`, and what the caller sees. */
  function PrepareFile(f: File<Tasks>, id: TaskId, user: User, previous: Gen, target: Gen,
                       services: set<Service>, now: nat, o: Outcome): (File<Tasks>, PrepareReply) {
    var q := f.visible;
    if id in q && !Bound(q[id], user, previous, target) then (f, BindingMismatch)
    else if id !in q && |q| >= TASK_MAX_ENTRIES then (f, CapacityFull)
    else
      var next := AfterPrepare(q, id, user, previous, target, services, now);
      (Written(f, next, o), if o.Durable? then Prepared(next[id]) else PrepareFailed(o))
  }

  function DiscardFile(f: File<Tasks>, id: TaskId, o: Outcome): File<Tasks> {
    if id in f.visible then Written(f, Without(f.visible, id), o) else f
  }

  function RequireFile(f: File<Tasks>, id: TaskId, wanted: set<Service>, now: nat, o: Outcome): File<Tasks> {
    if wanted == {} || id !in f.visible then f
    else Written(f, AfterRequire(f.visible, id, wanted, now), o)
  }

  function ReleaseFile(f: File<Tasks>, id: TaskId, delay: nat, now: nat, o: Outcome): File<Tasks> {
    if id !in f.visible then f else Written(f, AfterRelease(f.visible, id, delay, now), o)
  }

  function CompleteFile(f: File<Tasks>, id: TaskId, kickOk: bool, handled: set<Service>,
                        now: nat, o: Outcome): File<Tasks> {
    if id !in f.visible then f else Written(f, AfterAttempt(f.visible, id, kickOk, handled, now), o)
  }

  ghost predicate SizeBounded(f: File<Tasks>) {
    forall c :: c in f.possible ==> |c| <= TASK_MAX_ENTRIES
  }

  datatype ClaimReply = NothingDue | Claimed(id: TaskId, task: Task) | ClaimFailed(o: Outcome)

  datatype AttemptReply =
    | Missing
    | Recorded(complete: bool, kickSuccesses: nat, pending: set<Service>)
    | AttemptFailed(o: Outcome)

  /** One process's view of the queue file; every method runs under the file lock. */
  class TaskQueue {
    var file: File<Tasks>

    ghost predicate Valid()
      reads this
    {
      Coherent(file) && SizeBounded(file)
    }

    constructor ()
      ensures Valid() && file == Rebooted(map[])
    {
      file := File(map[], {map[]});
    }

    method Prepare(id: TaskId, user: User, previous: Gen, target: Gen, services: set<Service>,
                   now: nat, o: Outcome) returns (r: PrepareReply)
      requires Valid()
      modifies this
      ensures Valid()
      ensures (file, r) == PrepareFile(old(file), id, user, previous, target, services, now, o)
      ensures r.Prepared? ==> Everywhere(file, q => id in q && Bound(q[id], user, previous, target))
      ensures r.Prepared? && id !in old(file.visible) ==> r.task == NewTask(user, previous, target, services, now)
    {
      var data := file.visible;
      if id in data {
        var existing := data[id];
        if existing.user != user || existing.previous != previous || existing.target != target {
          return BindingMismatch;
        }
        file := Written(file, data, o);
        return if o.Durable? then Prepared(existing) else PrepareFailed(o);
      }
      if |data| >= TASK_MAX_ENTRIES {
        return CapacityFull;
      }
      var item := NewTask(user, previous, target, services, now);
      data := data[id := item];
      file := Written(file, data, o);
      return if o.Durable? then Prepared(item) else PrepareFailed(o);
    }

    method AddStaticServices(id: TaskId, wanted: set<Service>, now: nat, o: Outcome) returns (added: bool)
      requires Valid()
      modifies this
      ensures Valid()
      ensures file == RequireFile(old(file), id, wanted, now, o)
      ensures added <==> wanted != {} && id in old(file.visible) && o.Durable?
    {
      if wanted == {} {
        return false;
      }
      var data := file.visible;
      if id !in data {
        return false;
      }
      var item := data[id];
      item := item.(services := item.services + wanted);
      item := item.(nextAttemptAt := Min(item.nextAttemptAt, now));
      SameKeys(data, id, item);
      file := Written(file, data[id := item], o);
      return o.Durable?;
    }

    /** Leases the first due task in the order of the sort key. */
    method ClaimDue(now: nat, o: Outcome) returns (r: ClaimReply)
      requires Valid()
      modifies this
      ensures Valid()
      ensures r.NothingDue? <==> forall id :: id in old(file.visible) ==> !Due(old(file.visible)[id], now)
      ensures r.NothingDue? ==> file == old(file)
      ensures r.Claimed? ==> o.Durable? && IsHead(old(file.visible), now, r.id)
      ensures r.Claimed? ==> file == Written(old(file), AfterClaim(old(file.visible), r.id, now), o)
      ensures r.Claimed? ==> r.task == file.visible[r.id]
      ensures r.ClaimFailed? ==> r.o == o && !o.Durable?
      ensures r.ClaimFailed? ==>
                (exists id :: IsHead(old(file.visible), now, id)
                              && file == Written(old(file), AfterClaim(old(file.visible), id, now), o))
    {
      var data := file.visible;
      var head: TaskId := 0;
      var found := false;
      var rest := data.Keys;
      while rest != {}
        invariant rest <= data.Keys
        invariant found ==> head in data && head !in rest && Due(data[head], now)
        invariant found ==> forall x :: x in data && x !in rest && Due(data[x], now) && x != head ==>
            Before(data, head, x)
        invariant !found ==> forall x :: x in data && x !in rest ==> !Due(data[x], now)
        decreases rest
      {
        var id :| id in rest;
        rest := rest - {id};
        if Due(data[id], now) && (!found || Before(data, id, head)) {
          head, found := id, true;
        }
      }
      if !found {
        return NothingDue;
      }
      assert IsHead(data, now, head);
      var item := data[head];
      item := item.(leaseUntil := now + CLAIM_LEASE_SECONDS, attempts := item.attempts + 1);
      SameKeys(data, head, item);
      file := Written(file, data[head := item], o);
      return if o.Durable? then Claimed(head, item) else ClaimFailed(o);
    }

    method ReleaseClaim(id: TaskId, delay: nat, now: nat, o: Outcome) returns (released: bool)
      requires Valid()
      modifies this
      ensures Valid()
      ensures file == ReleaseFile(old(file), id, delay, now, o)
      ensures released <==> id in old(file.visible) && o.Durable?
    {
      var data := file.visible;
      if id !in data {
        return false;
      }
      var item := data[id];
      item := item.(leaseUntil := 0);
      item := item.(nextAttemptAt := now + if delay < 1 then 1 else delay);
      SameKeys(data, id, item);
      file := Written(file, data[id := item], o);
      return o.Durable?;
    }

    method CompleteAttempt(id: TaskId, kickOk: bool, handled: set<Service>, now: nat, o: Outcome)
      returns (r: AttemptReply)
      requires Valid()
      modifies this
      ensures Valid()
      ensures file == CompleteFile(old(file), id, kickOk, handled, now, o)
      ensures r.Missing? <==> id !in old(file.visible)
      ensures r.Recorded? ==> o.Durable? && (r.complete <==> id !in file.visible)
      ensures r.Recorded? ==> r.kickSuccesses == Attempted(old(file.visible)[id], kickOk, handled).kickSuccesses
      ensures r.Recorded? ==> r.pending == Attempted(old(file.visible)[id], kickOk, handled).services
      ensures r.AttemptFailed? ==> !o.Durable?
    {
      var data := file.visible;
      if id !in data {
        return Missing;
      }
      var item := data[id];
      var successes := item.kickSuccesses;
      if kickOk {
        successes := Min(2, successes + 1);
      } else {
        successes := 0;
      }
      item := item.(kickSuccesses := successes);
      item := item.(services := item.services - handled);
      var complete := successes >= 2 && item.services == {};
      if complete {
        SmallerWithout(data, id);
        data := data - {id};
      } else {
        item := item.(leaseUntil := 0);
        item := item.(nextAttemptAt := now + if kickOk then SECOND_KICK_DELAY_SECONDS else RETRY_DELAY_SECONDS);
        SameKeys(data, id, item);
        data := data[id := item];
      }
      file := Written(file, data, o);
      return if o.Durable? then Recorded(complete, successes, item.services) else AttemptFailed(o);
    }

    method Discard(id: TaskId, o: Outcome)
      requires Valid()
      modifies this
      ensures Valid()
      ensures file == DiscardFile(old(file), id, o)
      ensures o.Durable? && id in old(file.visible) ==> Everywhere(file, q => id !in q)
    {
      var data := file.visible;
      if id in data {
        SmallerWithout(data, id);
        data := data - {id};
        file := Written(file, data, o);
      }
    }
  }

  lemma SameKeys(q: Tasks, id: TaskId, t: Task)
    requires id in q
    ensures |q[id := t]| == |q| && q[id := t].Keys == q.Keys
  {
    assert q[id := t].Keys == q.Keys;
  }

  lemma SmallerWithout(q: Tasks, id: TaskId)
    requires id in q
    ensures |Without(q, id)| == |q| - 1
  {
    assert Without(q, id).Keys == q.Keys - {id};
  }
}
