/** What the revocation worker makes of a task it has claimed, from what users.json shows. */
module WorkerOutcomes {
  import opened Credentials
  import opened DurableFile
  import opened CredentialProtocol
  import opened RecordLaws
  import opened RequestOutcomes
  import Q = RevocationQueue

  /** users.json shows the previous generation of the task. */
  predicate ShowsPrevious(users: Users, t: Q.Task) {
    match t.previous
    case CredGen(p) => p > 0 && Shown(users, t.user, p)
    case NoGen => CredOf(users, t.user) == 0
    case _ => false
  }

  /** A rotation task: carried out while users.json shows its target; given back while that
      still shows the previous credential and the request may be replayed; retired once it
      may not, or when another credential is shown. */
  lemma RotationVerdict(s: Sys, c: Check)
    requires s.worker.Claimed? && c.loads && s.worker.task.target.CredGen? && s.worker.task.target.token > 0
    ensures var (n, purged) := WorkerCheck(s, c);
            var t, users := s.worker.task, s.users.visible;
            var committed := Shown(users, t.user, t.target.token);
            && !purged && n == s.(worker := n.worker)
            && n.worker.Decided? && n.worker.id == s.worker.id && n.worker.task == t
            && (n.worker.verdict.Proceed? <==> committed)
            && (n.worker.verdict.GiveBack? <==> !committed && ShowsPrevious(users, t) && s.now < t.expiresAt)
            && (n.worker.verdict.Retire? <==> !committed && (!ShowsPrevious(users, t) || s.now >= t.expiresAt))
  {
  }

  /** A deletion task is never retired: it removes the very revision it names, or an absent
      user once more, and passes only with that save durable and the history purged; with
      another revision in its place it passes without touching anything. */
  lemma DeletionVerdict(s: Sys, c: Check)
    requires s.worker.Claimed? && c.loads && s.worker.task.target == UserDeleted
    ensures var (n, purged) := WorkerCheck(s, c);
            var t, users := s.worker.task, s.users.visible;
            var other := t.user in users && t.previous != RevisionOf(users[t.user]);
            && n.worker.Decided? && n.worker.id == s.worker.id && n.worker.task == t && !n.worker.verdict.Retire?
            && (purged <==> !other && c.save.Durable?)
            && (n.worker.verdict.Proceed? <==> other || (c.save.Durable? && c.purges))
            && (n.worker.verdict.Proceed? ==> n.passed == s.passed + {s.worker.id})
            && (n.worker.verdict.GiveBack? ==> n.passed == s.passed)
            && n.users == (if other then s.users else Written(s.users, users - {t.user}, c.save))
            && n.queue == s.queue && n.receipts == s.receipts && n.nextToken == s.nextToken
  {
    if s.worker.task.user !in s.users.visible {
      assert s.users.visible - {s.worker.task.user} == s.users.visible;
    }
  }

  /** When users.json cannot be read the task is given back and nothing changes. */
  lemma UnreadableVerdict(s: Sys, c: Check)
    requires s.worker.Claimed? && !c.loads
    ensures WorkerCheck(s, c) == (s.(worker := Decided(s.worker.id, s.worker.task, GiveBack)), false)
  {
  }

  /** Settled durably, a retired task has left every possible queue content, a task given
      back is due again after 5 s with its progress, and one carried out is recorded. */
  lemma VerdictSettled(s: Sys, kickOk: bool, handled: set<Q.Service>)
    requires s.worker.Decided? && s.worker.id in s.queue.visible
    ensures var n, id := WorkerFinish(s, kickOk, handled, Durable), s.worker.id;
            var q := s.queue.visible;
            && n.worker.Idle? && n.queue.possible == {n.queue.visible} && n.users == s.users && n.receipts == s.receipts
            && (forall k :: k != id ==> (k in n.queue.visible <==> k in q) && (k in q ==> n.queue.visible[k] == q[k]))
            && (s.worker.verdict.Retire? ==> id !in n.queue.visible)
            && (s.worker.verdict.GiveBack? ==>
                  && id in n.queue.visible && DueFrom(n.queue.visible[id], s.now + 5)
                  && n.queue.visible[id].services == q[id].services
                  && n.queue.visible[id].kickSuccesses == q[id].kickSuccesses)
            && (s.worker.verdict.Proceed? ==>
                  && (id !in n.queue.visible <==>
                        kickOk && q[id].kickSuccesses >= 1 && q[id].services <= handled)
                  && (id in n.queue.visible ==> n.queue.visible[id].services == q[id].services - handled))
  {
    var id, q := s.worker.id, s.queue.visible;
    assert forall x :: x in q[id].services - handled <==> x in q[id].services && x !in handled;
  }

  /** A handler that records its kick for a deletion stops being one. */
  lemma HandlerRecords(s: Sys, key: Key, kickOk: bool, handled: set<Q.Service>, o: Outcome)
    ensures var n := HandlerKick(s, key, kickOk, handled, o);
            && n.queue == Q.CompleteFile(s.queue, key, kickOk, handled, s.now, o)
            && n.users == s.users && n.receipts == s.receipts && key !in n.deleting
            && (key in s.deleting ==> key in n.kicked)
  {
  }
}
