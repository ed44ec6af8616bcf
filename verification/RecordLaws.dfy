/** What each saved operation does to the two write-ahead files, told by what a reader sees
    later: when a task is due again, whose record changes, who may still use a receipt. */
module RecordLaws {
  import opened Credentials
  import opened DurableFile
  import Q = RevocationQueue
  import T = QueueRuns
  import R = RotationReceipts

  // ------------------------------------------------------------------ the task queue

  /** The task is due from this time on, and not before. */
  ghost predicate DueFrom(t: Q.Task, time: nat) {
    forall now: nat :: Q.Due(t, now) <==> now >= time
  }

  /** A new task is due at once and expires after 600 s; an existing one is not touched. */
  lemma PreparedTask(q: Q.Tasks, id: Q.TaskId, user: User, previous: Gen, target: Gen, services: set<Q.Service>,
                     now: nat)
    ensures var n := T.Step(q, T.At(T.Prepare(id, user, previous, target, services), now));
            && (id in q ==> n == q)
            && (id !in q && |q| < Q.TASK_MAX_ENTRIES ==>
                  && id in n && DueFrom(n[id], now) && n[id].expiresAt == now + 600 && n[id].createdAt == now
                  && Q.Bound(n[id], user, previous, target) && n[id].services == services
                  && n[id].kickSuccesses == 0 && n[id].attempts == 0)
            && (id !in q && |q| >= Q.TASK_MAX_ENTRIES ==> n == q)
  {
  }

  /** The head is the due task with the earliest next attempt, among those the one created
      first, and among those the one with the least id; there is one whenever a task is due. */
  lemma HeadIsFirst(q: Q.Tasks, now: nat, id: Q.TaskId)
    requires id in q
    ensures Q.IsHead(q, now, id) <==>
              && Q.Due(q[id], now)
              && forall x :: x in q && Q.Due(q[x], now) && x != id ==>
                   || q[id].nextAttemptAt < q[x].nextAttemptAt
                   || (q[id].nextAttemptAt == q[x].nextAttemptAt && q[id].createdAt < q[x].createdAt)
                   || (q[id].nextAttemptAt == q[x].nextAttemptAt && q[id].createdAt == q[x].createdAt && id < x)
  {
  }

  lemma {:induction false} SomeHead(q: Q.Tasks, now: nat, among: set<Q.TaskId>) returns (head: Q.TaskId)
    requires among != {} && forall x :: x in among ==> x in q && Q.Due(q[x], now)
    ensures head in among && forall x :: x in among && x != head ==> Q.Before(q, head, x)
    decreases among
  {
    head :| head in among;
    if among != {head} {
      var rest := SomeHead(q, now, among - {head});
      var least := if Q.Before(q, rest, head) then rest else head;
      forall x | x in among && x != least ensures Q.Before(q, least, x) {
        assert x != head && x != rest ==> x in among - {head} && Q.Before(q, rest, x);
      }
      head := least;
    }
  }

  /** A due task never waits for want of a head. */
  lemma DueTaskHasHead(q: Q.Tasks, now: nat, id: Q.TaskId)
    requires id in q && Q.Due(q[id], now)
    ensures exists head :: Q.IsHead(q, now, head)
  {
    var due := set x | x in q && Q.Due(q[x], now);
    assert id in due;
    var head := SomeHead(q, now, due);
    assert Q.IsHead(q, now, head);
  }

  /** A claimed task is due again 15 s later, counted as one more attempt. */
  lemma ClaimedTask(q: Q.Tasks, id: Q.TaskId, now: nat)
    requires id in q && Q.Due(q[id], now)
    ensures var n := T.Step(q, T.At(T.Claim(id), now));
            && id in n && DueFrom(n[id], now + 15) && n[id].attempts == q[id].attempts + 1
            && n[id].services == q[id].services && n[id].kickSuccesses == q[id].kickSuccesses
  {
  }

  /** A released task is due after its delay, at least a second, with its progress. */
  lemma ReleasedTask(q: Q.Tasks, id: Q.TaskId, delay: nat, now: nat)
    requires id in q
    ensures var n := T.Step(q, T.At(T.Release(id, delay), now));
            && id in n && DueFrom(n[id], if delay == 0 then now + 1 else now + delay)
            && n[id].services == q[id].services && n[id].kickSuccesses == q[id].kickSuccesses
            && n[id].attempts == q[id].attempts
  {
  }

  /** An attempt that does not finish the task makes it due in 2 s for the second kick, or
      in 5 s after a failed one. */
  lemma AttemptedTask(q: Q.Tasks, id: Q.TaskId, kickOk: bool, handled: set<Q.Service>, now: nat)
    requires id in q
    ensures var n := T.Step(q, T.At(T.Attempt(id, kickOk, handled), now));
            id in n ==>
              && DueFrom(n[id], if kickOk then now + 2 else now + 5)
              && n[id].services == q[id].services - handled && n[id].attempts == q[id].attempts
              && (!kickOk ==> n[id].kickSuccesses == 0)
  {
  }

  /** Services required again make a waiting task due at once, and keep a lease. */
  lemma RequiredTask(q: Q.Tasks, id: Q.TaskId, services: set<Q.Service>, now: nat)
    requires id in q && services != {}
    ensures var n := T.Step(q, T.At(T.Require(id, services), now));
            && id in n && n[id].services == q[id].services + services
            && (q[id].leaseUntil <= now ==> Q.Due(n[id], now))
            && (forall time: nat :: Q.Due(q[id], time) ==> Q.Due(n[id], time))
            && (forall time: nat :: Q.Due(n[id], time) ==> time >= q[id].leaseUntil)
  {
  }

  /** No operation touches another task, or what a task is bound to, or when it was made. */
  lemma OthersKept(q: Q.Tasks, e: T.Timed, id: Q.TaskId)
    ensures var n := T.Step(q, e);
            && (id in q && id in n ==>
                  && Q.Bound(n[id], q[id].user, q[id].previous, q[id].target)
                  && n[id].createdAt == q[id].createdAt && n[id].expiresAt == q[id].expiresAt)
            && (id != e.op.id ==> (id in n <==> id in q) && (id in q ==> n[id] == q[id]))
            && (id in q && id !in n ==> (e.op.Discard? || e.op.Attempt?) && e.op.id == id)
            && (id !in q && id in n ==> e.op.Prepare? && e.op.id == id)
            && (e.op == T.Discard(id) ==> id !in n)
  {
  }

  /** The file after one operation whose save ends like this. */
  function Operated(f: File<Q.Tasks>, e: T.Timed, o: Outcome): File<Q.Tasks> {
    match e.op
    case Prepare(id, u, p, g, s) => Q.PrepareFile(f, id, u, p, g, s, e.now, o).0
    case Require(id, s) => Q.RequireFile(f, id, s, e.now, o)
    case Claim(id) => if id in f.visible then Written(f, Q.AfterClaim(f.visible, id, e.now), o) else f
    case Release(id, d) => Q.ReleaseFile(f, id, d, e.now, o)
    case Attempt(id, ok, h) => Q.CompleteFile(f, id, ok, h, e.now, o)
    case Discard(id) => Q.DiscardFile(f, id, o)
  }

  /** A save that replaced the file shows the next content of the run, one that did not
      leaves the file, and a durable one leaves a crash nothing else to find; an operation
      that changes nothing for want of its task does not save at all. */
  lemma OperationsAreSteps(f: File<Q.Tasks>, e: T.Timed, o: Outcome)
    ensures var n := Operated(f, e, o);
            && (o.NotReplaced? ==> n == f)
            && (!o.NotReplaced? ==> n.visible == T.Step(f.visible, e))
            && (o.Durable? && T.Step(f.visible, e) != f.visible ==> n.possible == {n.visible})
            && (forall c :: c in n.possible ==> c in f.possible || c == T.Step(f.visible, e))
            && (!o.Durable? ==> forall c :: c in f.possible ==> c in n.possible)
            && (!e.op.Prepare? && e.op.id !in f.visible ==> n == f)
  {
    if e.op.Discard? && e.op.id !in f.visible {
      assert f.visible - {e.op.id} == f.visible;
    }
  }

  /** A prepared task is the one in the file, bound as asked, in every possible content; it
      is refused exactly when another binding has the id, or when 512 tasks are queued. */
  lemma PrepareRepliesExactly(f: File<Q.Tasks>, id: Q.TaskId, user: User, previous: Gen, target: Gen,
                              services: set<Q.Service>, now: nat, o: Outcome)
    ensures var (n, reply) := Q.PrepareFile(f, id, user, previous, target, services, now, o);
            var known := id in f.visible;
            var same := known && f.visible[id].user == user && f.visible[id].previous == previous
                        && f.visible[id].target == target;
            && (reply.BindingMismatch? <==> known && !same)
            && (reply.CapacityFull? <==> !known && |f.visible| >= 512)
            && (reply.Prepared? <==> o.Durable? && (same || (!known && |f.visible| < 512)))
            && (reply.Prepared? ==> n.possible == {n.visible} && id in n.visible && reply.task == n.visible[id]
                                    && Q.Bound(reply.task, user, previous, target))
            && (reply.BindingMismatch? || reply.CapacityFull? ==> n == f)
            && (reply.PrepareFailed? ==> reply.o == o)
  {
  }

  // ------------------------------------------------------------------- the receipts

  /** The session may still use the receipt of the key. */
  predicate MayUse(c: R.Receipts, key: R.Key, session: R.Session, now: nat) {
    key in c && c[key].expiresAt > now && session in c[key].sessions
  }

  /** A receipt is found exactly by a session that may use it, unless dropping the expired
      ones could not be saved. */
  lemma FoundExactly(f: File<R.Receipts>, key: R.Key, session: R.Session, now: nat, o: Outcome)
    ensures var (n, reply) := R.LookupFile(f, key, session, now, o);
            && (reply.Found? ==>
                  MayUse(f.visible, key, session, now) && session != 0 && reply.receipt == f.visible[key])
            && (MayUse(f.visible, key, session, now) && session != 0 && o.Durable? ==> reply.Found?)
            && (reply.LookupFailed? ==> !o.Durable? && exists k :: k in f.visible && f.visible[k].expiresAt <= now)
            && (forall k :: k in n.visible ==> k in f.visible && n.visible[k] == f.visible[k])
            && (forall k :: k in f.visible && k !in n.visible ==> f.visible[k].expiresAt <= now)
  {
    var live := R.Live(f.visible, now);
    if live != f.visible {
      assert exists k :: k in f.visible && f.visible[k].expiresAt <= now;
    }
  }

  predicate SomeExpired(c: R.Receipts, now: nat) {
    exists k :: k in c && c[k].expiresAt <= now
  }

  /** What a lookup, a cleanup and a discard save: the receipts without the expired ones when
      there are any, and without the discarded one when it is there; otherwise nothing. */
  lemma DroppedExactly(f: File<R.Receipts>, key: R.Key, session: R.Session, now: nat, o: Outcome)
    ensures var (looked, pruned) := (R.LookupFile(f, key, session, now, o).0, R.PruneFile(f, now, o));
            var live := map k | k in f.visible && f.visible[k].expiresAt > now :: f.visible[k];
            && looked == (if session != 0 && SomeExpired(f.visible, now) then Written(f, live, o) else f)
            && pruned == (if SomeExpired(f.visible, now) then Written(f, live, o) else f)
    ensures R.DiscardFile(f, key, o) == if key in f.visible then Written(f, f.visible - {key}, o) else f
  {
    var live := R.Live(f.visible, now);
    if live == f.visible {
      assert forall k :: k in f.visible ==> k in live;
    } else {
      assert exists k :: k in f.visible && f.visible[k].expiresAt <= now;
    }
  }

  /** Preparing gives the session a receipt for 300 s with the credential offered, or the
      receipt it already has; it is refused exactly to strangers, other users and other
      previous generations, and when 256 receipts live. */
  lemma PreparedExactly(f: File<R.Receipts>, key: R.Key, user: User, session: R.Session, previous: Gen, token: nat,
                        now: nat, o: Outcome)
    ensures var (n, reply) := R.PrepareFile(f, key, user, session, previous, token, now, o);
            var live := R.Live(f.visible, now);
            var mine := key in live && live[key].user == user && session in live[key].sessions
                        && live[key].previous == previous;
            && (reply.NotPermitted? <==> key in live && !mine)
            && (reply.Full? <==> key !in live && |live| >= 256)
            && (reply.Ready? <==> o.Durable? && (mine || (key !in live && |live| < 256)))
            && (reply.Ready? && mine ==> reply.receipt == f.visible[key] && n.visible == live)
            && (reply.Ready? && key !in live ==>
                  && reply.receipt == R.Receipt(user, previous, token, [session], now, now + 300)
                  && n.visible == live[key := reply.receipt])
            && (reply.NotPermitted? || reply.Full? ==> n == f)
  {
  }

  /** A replacement session is let in exactly by one that may use the receipt; both may use
      it afterwards, and nobody else comes in. */
  lemma BoundExactly(f: File<R.Receipts>, key: R.Key, original: R.Session, replacement: R.Session, now: nat, o: Outcome)
    requires key in f.visible ==> |f.visible[key].sessions| <= R.SESSIONS_KEPT
    ensures var n := R.BindFile(f, key, original, replacement, now, o);
            var may := replacement != 0 && MayUse(f.visible, key, original, now);
            && (!may ==> n == f)
            && (may && !o.NotReplaced? ==>
                  && MayUse(n.visible, key, replacement, now)
                  && |n.visible[key].sessions| <= R.SESSIONS_KEPT
                  && (forall x :: x in n.visible[key].sessions ==> x == replacement || x in f.visible[key].sessions)
                  && n.visible[key].(sessions := []) == f.visible[key].(sessions := [])
                  && (|f.visible[key].sessions| < R.SESSIONS_KEPT ==>
                        forall x :: x in f.visible[key].sessions ==> x in n.visible[key].sessions)
                  && (replacement !in f.visible[key].sessions && |f.visible[key].sessions| == R.SESSIONS_KEPT ==>
                        n.visible[key].sessions == f.visible[key].sessions[1..] + [replacement]))
            && (forall k :: k != key && k in n.visible ==> k in f.visible && n.visible[k] == f.visible[k])
            && (forall k :: k in f.visible && k !in n.visible ==> f.visible[k].expiresAt <= now)
  {
    var live := R.Live(f.visible, now);
    if replacement != 0 && key in live && original in live[key].sessions {
      var r := live[key];
      var longer := r.sessions + [replacement];
      assert longer[|r.sessions|] == replacement;
      assert forall x :: x in longer <==> x in r.sessions || x == replacement;
      if |r.sessions| == R.SESSIONS_KEPT {
        assert longer[1..][|r.sessions| - 1] == replacement;
        assert longer[1..] == r.sessions[1..] + [replacement];
      }
    }
  }
}
