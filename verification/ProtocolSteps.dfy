/** Every step of the credential protocol keeps the core invariant. */
module ProtocolSteps {
  import opened Credentials
  import opened DurableFile
  import opened CredentialProtocol
  import opened ProtocolInvariant
  import Q = RevocationQueue
  import R = RotationReceipts

  // -------------------------------------------------------------- queue contents

  /** A new task id belongs to its kind: nonces name deletions, and no handler or worker
      of another kind uses it. */
  ghost predicate Fits(s: Sys, id: Key, user: User, previous: Gen, target: Gen) {
    && id in s.used
    && TaskWf(s, Q.NewTask(user, previous, target, {}, s.now))
    && (target == UserDeleted ==> id in s.nonces && id !in s.rotating && id !in s.deleting
                                  && (s.worker.Idle? || s.worker.id != id))
    && (target != UserDeleted ==> id !in s.deleting
                                  && (s.worker.Idle? || s.worker.id != id || !IsDeletion(s.worker.task)))
  }

  lemma TaskPrepared(s: Sys, id: Key, user: User, previous: Gen, target: Gen, services: set<Q.Service>, o: Outcome)
    requires Core(s) && Fits(s, id, user, previous, target)
    ensures Core(s.(queue := Q.PrepareFile(s.queue, id, user, previous, target, services, s.now, o).0))
  {
    var q := s.queue.visible;
    var n := Q.AfterPrepare(q, id, user, previous, target, services, s.now);
    assert QueueCore(s, q);
    assert QueueCore(s, n);
    QueueSaved(s, n, o);
  }

  /** Contents that differ only in times, counters of non-attempts and services. */
  lemma TaskTouched(s: Sys, id: Key, t: Q.Task, o: Outcome)
    requires Core(s) && id in s.queue.visible
    requires Q.Bound(t, s.queue.visible[id].user, s.queue.visible[id].previous, s.queue.visible[id].target)
    requires t.kickSuccesses == s.queue.visible[id].kickSuccesses
    ensures Core(s.(queue := Written(s.queue, s.queue.visible[id := t], o)))
  {
    assert QueueCore(s, s.queue.visible);
    var n := s.queue.visible[id := t];
    assert QueueCore(s, n);
    QueueSaved(s, n, o);
  }

  /** The worker is not relying on this task being in the queue. */
  ghost predicate NotRelied(s: Sys, id: Key) {
    s.worker.Claimed? && IsDeletion(s.worker.task) && s.worker.id == id ==>
      var t := s.worker.task;
      t.previous.RevisionOf? && t.previous.entry.Account? && Past(s.users.visible, t.user, t.previous.entry)
  }

  lemma TaskDropped(s: Sys, id: Key, o: Outcome)
    requires Core(s) && NotRelied(s, id)
    ensures Core(s.(queue := Q.DiscardFile(s.queue, id, o)))
  {
    if id in s.queue.visible {
      var n := Q.Without(s.queue.visible, id);
      assert QueueCore(s, s.queue.visible);
      assert QueueCore(s, n);
      QueueSaved(s, n, o);
    }
  }

  lemma Marked(s: Sys, key: Key)
    requires Core(s)
    ensures Core(s.(last := MarkDone(s.last, key)))
  {
    var n := s.(last := MarkDone(s.last, key));
    forall d | d in n.receipts.possible ensures ReceiptsCore(n, d) {
      assert ReceiptsCore(s, d);
    }
    forall d | d in n.queue.possible ensures QueueCore(n, d) {
      assert QueueCore(s, d);
    }
    forall d | d in n.users.possible ensures UsersCore(n, d) {
      assert UsersCore(s, d);
    }
    assert HistoryCore(n);
  }

  /** An attempt may be recorded for a deletion only by its handler or after the worker
      has carried it out. */
  ghost predicate MayRecord(s: Sys, id: Key) {
    id in s.queue.visible && IsDeletion(s.queue.visible[id]) ==>
      id in s.passed || (id in s.kicked && s.queue.visible[id].kickSuccesses == 0)
  }

  lemma AttemptContent(s: Sys, id: Key, ok: bool, handled: set<Q.Service>)
    requires Core(s) && MayRecord(s, id) && id in s.queue.visible
    requires Q.Finished(Q.Attempted(s.queue.visible[id], ok, handled)) ==> NotRelied(s, id)
    ensures var n := Q.AfterAttempt(s.queue.visible, id, ok, handled, s.now);
            QueueCore(s, n) && SameKind(s, n)
  {
    assert QueueCore(s, s.queue.visible);
  }

  lemma AttemptRecorded(s: Sys, id: Key, ok: bool, handled: set<Q.Service>, o: Outcome)
    requires Core(s) && MayRecord(s, id)
    requires id in s.queue.visible && Q.Finished(Q.Attempted(s.queue.visible[id], ok, handled)) ==> NotRelied(s, id)
    ensures Core(RecordAttempt(s, id, ok, handled, o))
  {
    hide Core, QueueCore;
    if id in s.queue.visible {
      var n := Q.AfterAttempt(s.queue.visible, id, ok, handled, s.now);
      AttemptContent(s, id, ok, handled);
      QueueSaved(s, n, o);
      var s1 := s.(queue := Written(s.queue, n, o));
      if id !in s1.queue.visible {
        Marked(s1, id);
      }
    }
  }

  // ------------------------------------------------------------ receipt contents

  lemma LiveKept(s: Sys, o: Outcome)
    requires Core(s)
    ensures ReceiptsCore(s, R.Live(s.receipts.visible, s.now))
    ensures Core(s.(receipts := Written(s.receipts, R.Live(s.receipts.visible, s.now), o)))
  {
    assert ReceiptsCore(s, s.receipts.visible);
    ReceiptsSaved(s, R.Live(s.receipts.visible, s.now), o);
  }

  lemma ReceiptAdded(s: Sys, live: R.Receipts, key: Key, n: R.Receipt)
    requires ReceiptsCore(s, live) && key !in live
    requires n.previous.CredGen? && n.previous.token < n.token && 0 < n.token < s.nextToken
    requires n.token !in s.installs
    requires forall k :: k in live ==> live[k].token != n.token
    ensures ReceiptsCore(s, live[key := n])
  {
    var c := live[key := n];
    forall k, l | k in c && l in c && c[k].token == c[l].token ensures k == l {
      if k != key && l != key {
        assert live[k].token == live[l].token;
      }
    }
  }

  lemma ReceiptPrepared(s: Sys, key: Key, user: User, session: R.Session, previous: Gen, token: nat, o: Outcome)
    requires Core(s)
    requires key in R.Live(s.receipts.visible, s.now) ||
             (previous.CredGen? && previous.token < token && 0 < token < s.nextToken && token !in s.installs
              && forall k :: k in s.receipts.visible ==> s.receipts.visible[k].token != token)
    ensures Core(s.(receipts := R.PrepareFile(s.receipts, key, user, session, previous, token, s.now, o).0))
  {
    hide Core, ReceiptsCore;
    LiveKept(s, o);
    var live := R.Live(s.receipts.visible, s.now);
    if key !in live && |live| < R.RECEIPT_MAX_ENTRIES {
      var n := R.Receipt(user, previous, token, [session], s.now, s.now + R.RECEIPT_TTL_SECONDS);
      ReceiptAdded(s, live, key, n);
      ReceiptsSaved(s, live[key := n], o);
    }
  }

  lemma SessionBound(s: Sys, key: Key, a: R.Session, b: R.Session, o: Outcome)
    requires Core(s)
    ensures Core(s.(receipts := R.BindFile(s.receipts, key, a, b, s.now, o)))
  {
    hide Core, ReceiptsCore;
    LiveKept(s, o);
    var live := R.Live(s.receipts.visible, s.now);
    if b != 0 && key in live && R.BoundTo(live[key], a) {
      var r := live[key];
      var bound := if b in r.sessions then r else r.(sessions := R.LastFour(r.sessions + [b]));
      ReceiptRebound(s, live, key, bound);
      ReceiptsSaved(s, live[key := bound], o);
    }
  }

  lemma ReceiptRebound(s: Sys, live: R.Receipts, key: Key, bound: R.Receipt)
    requires ReceiptsCore(s, live) && key in live
    requires bound.(sessions := []) == live[key].(sessions := [])
    ensures ReceiptsCore(s, live[key := bound])
  {
    var c := live[key := bound];
    assert forall k :: k in c ==> c[k].token == live[k].token && c[k].user == live[k].user
                                  && c[k].previous == live[k].previous && c[k].expiresAt == live[k].expiresAt;
  }

  lemma ReceiptDropped(s: Sys, key: Key, o: Outcome)
    requires Core(s)
    ensures Core(DropReceipt(s, key, o))
  {
    if key in s.receipts.visible {
      assert ReceiptsCore(s, s.receipts.visible);
      assert ReceiptsCore(s, s.receipts.visible - {key});
      ReceiptsSaved(s, s.receipts.visible - {key}, o);
    }
  }

  // ---------------------------------------------------------------------- rotation

  lemma RotationKeyKinds(s: Sys, key: Key)
    requires Core(s) && key !in s.nonces
    ensures forall q: Q.Tasks :: q in s.queue.possible && key in q ==> !IsDeletion(q[key])
    ensures key !in s.deleting
  {
    forall q: Q.Tasks | q in s.queue.possible && key in q ensures !IsDeletion(q[key]) {
      assert QueueCore(s, q);
    }
  }

  lemma AnsweredKeeps(s: Sys, r: Rotation, receipt: R.Receipt, replayed: bool)
    requires Core(s) && r.key in s.used && r.key !in s.nonces
    ensures Core(Answered(s, r, receipt, replayed).0)
  {
    hide Core;
    RotationKeyKinds(s, r.key);
    HandlerAdded(s, r.key);
  }

  ghost predicate Promised(s: Sys, r: Rotation, receipt: R.Receipt) {
    && receipt.user == r.user
    && s.receipts.possible == {s.receipts.visible}
    && r.key in s.receipts.visible && s.receipts.visible[r.key] == receipt
  }

  lemma PromiseInstallable(s: Sys, r: Rotation, receipt: R.Receipt)
    requires Core(s)
    requires r.user in s.users.visible && s.users.visible[r.user].Account?
    requires Promised(s, r, receipt)
    requires TokenGen(CredOf(s.users.visible, r.user)) == receipt.previous
    ensures Installable(s, r.user, receipt.token)
  {
    assert ReceiptsCore(s, s.receipts.visible);
  }

  lemma RotationNotRelied(s: Sys, key: Key)
    requires Core(s) && key !in s.nonces
    ensures NotRelied(s, key) && s.nonces <= s.used
  {
  }

  lemma CommitOrReplayKeeps(s: Sys, r: Rotation, receipt: R.Receipt, replayed: bool)
    requires Core(s) && r.key in s.used && r.key !in s.nonces
    requires r.user in s.users.visible && s.users.visible[r.user].Account?
    requires Promised(s, r, receipt)
    ensures Core(CommitOrReplay(s, r, receipt, replayed).0)
  {
    hide Core;
    var current := CredOf(s.users.visible, r.user);
    if TokenGen(current) == TokenGen(receipt.token) {
      Rewritten(s, r.save);
      AnsweredKeeps(Rewrite(s, r.save), r, receipt, replayed);
    } else if TokenGen(current) == receipt.previous && SecretEqual(r.posted, current) {
      PromiseInstallable(s, r, receipt);
      Installed(s, r.user, receipt.token, r.key, r.save);
      AnsweredKeeps(Install(s, r.user, receipt.token, r.key, r.save), r, receipt, replayed);
    } else {
      ReceiptDropped(s, r.key, r.dropReceipt);
      var s1 := DropReceipt(s, r.key, r.dropReceipt);
      RotationNotRelied(s1, r.key);
      TaskDropped(s1, r.key, r.dropTask);
    }
  }

  lemma WithTaskKeeps(s: Sys, r: Rotation, receipt: R.Receipt, replayed: bool)
    requires Core(s) && r.key !in s.nonces
    requires r.user in s.users.visible && s.users.visible[r.user].Account?
    requires Promised(s, r, receipt)
    ensures Core(WithTask(s, r, receipt, replayed).0)
  {
    assert ReceiptsCore(s, s.receipts.visible);
    Advanced(s, s.now, s.nextToken, s.used + {r.key}, s.nonces);
    var s0 := s.(used := s.used + {r.key});
    assert Fits(s0, r.key, r.user, receipt.previous, TokenGen(receipt.token));
    TaskPrepared(s0, r.key, r.user, receipt.previous, TokenGen(receipt.token), BOTH, r.task);
    var (f, reply) := Q.PrepareFile(s.queue, r.key, r.user, receipt.previous, TokenGen(receipt.token),
                                    BOTH, s.now, r.task);
    if reply.Prepared? {
      CommitOrReplayKeeps(s0.(queue := f), r, receipt, replayed);
    }
  }

  lemma WithReceiptKeeps(s: Sys, r: Rotation, previous: Gen, token: nat, replayed: bool)
    requires Core(s) && r.key !in s.nonces
    requires r.user in s.users.visible && s.users.visible[r.user].Account?
    requires r.key in R.Live(s.receipts.visible, s.now) ||
             (previous.CredGen? && previous.token < token && 0 < token < s.nextToken && token !in s.installs
              && forall k :: k in s.receipts.visible ==> s.receipts.visible[k].token != token)
    ensures Core(WithReceipt(s, r, previous, token, replayed).0)
  {
    ReceiptPrepared(s, r.key, r.user, r.session, previous, token, r.receipt);
    var (f, reply) := R.PrepareFile(s.receipts, r.key, r.user, r.session, previous, token, s.now, r.receipt);
    if reply.Ready? {
      WithTaskKeeps(s.(receipts := f), r, reply.receipt, replayed);
    }
  }

  /** The next fresh credential is newer than everything stored or promised. */
  lemma FreshIsNew(s: Sys, user: User)
    requires Core(s) && user in s.users.visible && s.users.visible[user].Account?
    ensures s.users.visible[user].cred < s.nextToken && 0 < s.nextToken && s.nextToken !in s.installs
    ensures forall c: R.Receipts, k :: c in s.receipts.possible && k in c ==> c[k].token != s.nextToken
    ensures forall k :: k in s.receipts.visible ==> s.receipts.visible[k].token != s.nextToken
  {
    assert UsersCore(s, s.users.visible);
    assert s.users.visible[user].cred == CredOf(s.users.visible, user);
    forall c: R.Receipts, k | c in s.receipts.possible && k in c ensures c[k].token != s.nextToken {
      assert ReceiptsCore(s, c);
    }
  }

  lemma RotateKeeps(s: Sys, r: Rotation)
    requires Core(s) && r.key !in s.nonces
    ensures Core(Rotate(s, r).0)
  {
    hide Core, ReceiptsCore, WithReceipt;
    if r.validId {
      var (f, found) := R.LookupFile(s.receipts, r.key, r.session, s.now, r.lookup);
      var s1 := s.(receipts := f);
      LiveKept(s, r.lookup);
      assert Core(s1);
      if !found.LookupFailed? && r.user in s.users.visible && s.users.visible[r.user].Account? {
        if found.Found? {
          assert r.key in R.Live(s1.receipts.visible, s1.now);
          WithReceiptKeeps(s1, r, found.receipt.previous, found.receipt.token, true);
        } else {
          var entry := s.users.visible[r.user];
          if r.session != 0 && r.sessionAllows && SecretEqual(r.posted, entry.cred)
             && !entry.disabled && !IsExpired(entry, r.today) {
            RotationNotRelied(s1, r.key);
            Advanced(s1, s1.now, s1.nextToken + 1, s1.used, s1.nonces);
            var s2 := s1.(nextToken := s1.nextToken + 1);
            FreshIsNew(s1, r.user);
            WithReceiptKeeps(s2, r, TokenGen(entry.cred), s1.nextToken, false);
          }
        }
      }
    }
  }

  /** What a self-service rotation leaves alone. */
  ghost predicate RotationFrame(s: Sys, n: Sys) {
    n.passed == s.passed && n.nonces == s.nonces && n.worker == s.worker && n.nextToken >= s.nextToken
  }

  lemma CommitFrame(s: Sys, r: Rotation, receipt: R.Receipt, replayed: bool)
    ensures RotationFrame(s, CommitOrReplay(s, r, receipt, replayed).0)
  {
    hide Written, R.DiscardFile, Q.DiscardFile, TokenGen, CredOf;
  }

  lemma WithReceiptFrame(s: Sys, r: Rotation, previous: Gen, token: nat, replayed: bool)
    ensures RotationFrame(s, WithReceipt(s, r, previous, token, replayed).0)
  {
    hide R.PrepareFile, Q.PrepareFile, CommitOrReplay;
    var (f, reply) := R.PrepareFile(s.receipts, r.key, r.user, r.session, previous, token, s.now, r.receipt);
    if reply.Ready? {
      var receipt := reply.receipt;
      var (g, ready) := Q.PrepareFile(s.queue, r.key, r.user, receipt.previous, TokenGen(receipt.token),
                                      BOTH, s.now, r.task);
      CommitFrame(s.(receipts := f, queue := g, used := s.used + {r.key}), r, receipt, replayed);
    }
  }

  lemma RotateFrame(s: Sys, r: Rotation)
    ensures RotationFrame(s, Rotate(s, r).0)
  {
    hide R.LookupFile, WithReceipt;
    if r.validId && r.user in s.users.visible && s.users.visible[r.user].Account? {
      var (f, found) := R.LookupFile(s.receipts, r.key, r.session, s.now, r.lookup);
      var s1 := s.(receipts := f);
      if found.Found? {
        WithReceiptFrame(s1, r, found.receipt.previous, found.receipt.token, true);
      } else {
        WithReceiptFrame(s1.(nextToken := s1.nextToken + 1), r, TokenGen(s.users.visible[r.user].cred),
                         s1.nextToken, false);
      }
    }
  }

  lemma HandlerAdded(s: Sys, key: Key)
    requires Core(s) && key in s.used
    requires forall q: Q.Tasks :: q in s.queue.possible && key in q ==> !IsDeletion(q[key])
    requires key !in s.deleting
    ensures Core(s.(rotating := s.rotating + {key}))
  {
    var n := s.(rotating := s.rotating + {key});
    forall d | d in n.receipts.possible ensures ReceiptsCore(n, d) {
      assert ReceiptsCore(s, d);
    }
    forall d | d in n.queue.possible ensures QueueCore(n, d) {
      assert QueueCore(s, d);
    }
    forall d | d in n.users.possible ensures UsersCore(n, d) {
      assert UsersCore(s, d);
    }
  }

  /** A key never used for a task is unknown to the queue, the handlers and the worker. */
  lemma NewKeyUnknown(s: Sys, key: Key)
    requires Core(s) && key !in s.used
    ensures key !in s.queue.visible && key !in s.deleting && key !in s.rotating
    ensures key !in s.kicked && key !in s.passed && s.nonces <= s.used
    ensures !s.worker.Idle? ==> s.worker.id != key
  {
    assert QueueCore(s, s.queue.visible);
  }

  lemma AdminCommitKeeps(s: Sys, r: AdminRotation, token: nat)
    requires Core(s) && r.key in s.used && r.key !in s.deleting
    requires Installable(s, r.user, token)
    requires forall q: Q.Tasks :: q in s.queue.possible && r.key in q ==> !IsDeletion(q[r.key])
    ensures Core(Install(s, r.user, token, r.key, r.save))
    ensures var n := Install(s, r.user, token, r.key, r.save);
            Core(n.(rotating := n.rotating + {r.key}))
  {
    hide Core;
    Installed(s, r.user, token, r.key, r.save);
    HandlerAdded(Install(s, r.user, token, r.key, r.save), r.key);
  }

  lemma AdminRotateKeeps(s: Sys, r: AdminRotation)
    requires Core(s) && r.key !in s.used
    ensures Core(AdminRotate(s, r).0)
  {
    hide Core, Install;
    var users := s.users.visible;
    if r.user in users && users[r.user].Account? && users[r.user] == r.expected {
      var token := s.nextToken;
      FreshIsNew(s, r.user);
      NewKeyUnknown(s, r.key);
      Advanced(s, s.now, token + 1, s.used + {r.key}, s.nonces + {r.key});
      var s0 := s.(nextToken := token + 1, used := s.used + {r.key}, nonces := s.nonces + {r.key});
      assert Fits(s0, r.key, r.user, TokenGen(users[r.user].cred), TokenGen(token));
      TaskPrepared(s0, r.key, r.user, TokenGen(users[r.user].cred), TokenGen(token), BOTH, r.task);
      var (f, reply) := Q.PrepareFile(s.queue, r.key, r.user, TokenGen(users[r.user].cred), TokenGen(token),
                                      BOTH, s.now, r.task);
      var s1 := s0.(queue := f);
      if reply.Prepared? {
        assert Installable(s1, r.user, token);
        AdminCommitKeeps(s1, r, token);
      }
    }
  }

  ghost predicate NewDeletion(s: Sys, key: Key, user: User, entry: Entry) {
    && key in s.used && key in s.nonces && key !in s.kicked && key !in s.rotating && key !in s.passed
    && (s.worker.Idle? || s.worker.id != key)
    && (forall q: Q.Tasks :: q in s.queue.possible ==>
        key in q && Q.Bound(q[key], user, RevisionOf(entry), UserDeleted))
    && entry.Account? && entry.cred < s.nextToken
    && ((user in s.users.visible && s.users.visible[user] == entry) || user !in s.users.visible)
  }

  lemma DeletionQueued(s: Sys, key: Key, user: User, entry: Entry, d: Q.Tasks)
    requires Core(s) && NewDeletion(s, key, user, entry) && d in s.queue.possible
    ensures QueueCore(s.(deleting := s.deleting[key := Deletion(user, entry)]), d)
  {
    assert QueueCore(s, d);
  }

  lemma DeletionHandlerAdded(s: Sys, key: Key, user: User, entry: Entry)
    requires Core(s) && NewDeletion(s, key, user, entry)
    ensures Core(s.(deleting := s.deleting[key := Deletion(user, entry)]))
  {
    var n := s.(deleting := s.deleting[key := Deletion(user, entry)]);
    forall d | d in n.receipts.possible ensures ReceiptsCore(n, d) {
      assert ReceiptsCore(s, d);
    }
    forall d | d in n.queue.possible ensures QueueCore(n, d) {
      DeletionQueued(s, key, user, entry, d);
    }
    forall d | d in n.users.possible ensures UsersCore(n, d) {
      assert UsersCore(s, d);
    }
    hide QueueCore, ReceiptsCore, UsersCore;
  }

  lemma DeletionCommitKeeps(s: Sys, r: DeleteRequest, entry: Entry)
    requires Core(s) && r.key in s.used && r.key in s.nonces && r.key !in s.kicked
    requires r.key !in s.rotating && r.key !in s.passed
    requires s.worker.Idle? || s.worker.id != r.key
    requires forall q: Q.Tasks :: q in s.queue.possible ==>
        r.key in q && Q.Bound(q[r.key], r.user, RevisionOf(entry), UserDeleted)
    requires entry.Account? && entry.cred < s.nextToken
    requires r.user in s.users.visible && s.users.visible[r.user] == entry
    ensures var n := Remove(s, r.user, r.key, r.save);
            Core(n.(deleting := n.deleting[r.key := Deletion(r.user, entry)]))
  {
    hide Core;
    Removed(s, r.user, r.key, r.save);
    DeletionHandlerAdded(Remove(s, r.user, r.key, r.save), r.key, r.user, entry);
  }

  lemma DeleteKeeps(s: Sys, r: DeleteRequest)
    requires Core(s) && r.key !in s.used
    ensures Core(Delete(s, r).0)
  {
    hide Core, Remove;
    var users := s.users.visible;
    if r.user in users && users[r.user].Account? && users[r.user] == r.expected {
      var entry := users[r.user];
      FreshIsNew(s, r.user);
      NewKeyUnknown(s, r.key);
      Advanced(s, s.now, s.nextToken, s.used + {r.key}, s.nonces + {r.key});
      var s0 := s.(used := s.used + {r.key}, nonces := s.nonces + {r.key});
      assert Fits(s0, r.key, r.user, RevisionOf(entry), UserDeleted);
      TaskPrepared(s0, r.key, r.user, RevisionOf(entry), UserDeleted, BOTH, r.task);
      var (f, reply) := Q.PrepareFile(s.queue, r.key, r.user, RevisionOf(entry), UserDeleted, BOTH, s.now, r.task);
      if reply.Prepared? {
        DeletionCommitKeeps(s0.(queue := f), r, entry);
      }
    }
  }

  // ------------------------------------------------------------- handlers and worker

  lemma RequireKeeps(s: Sys, key: Key, services: set<Q.Service>, o: Outcome)
    requires Core(s)
    ensures Core(HandlerRequire(s, key, services, o))
  {
    if services != {} && key in s.queue.visible {
      TaskTouched(s, key, Q.AfterRequire(s.queue.visible, key, services, s.now)[key], o);
    }
  }

  lemma HandlerKicked(s: Sys, key: Key)
    requires Core(s) && key in s.deleting
    ensures Core(s.(deleting := s.deleting - {key}, kicked := s.kicked + {key}))
  {
    var n := s.(deleting := s.deleting - {key}, kicked := s.kicked + {key});
    forall d | d in n.receipts.possible ensures ReceiptsCore(n, d) {
      assert ReceiptsCore(s, d);
    }
    forall d | d in n.queue.possible ensures QueueCore(n, d) {
      assert QueueCore(s, d);
    }
    forall d | d in n.users.possible ensures UsersCore(n, d) {
      assert UsersCore(s, d);
    }
  }

  /** A deletion handler's kick completes its task only after the worker has carried
      the deletion out. */
  lemma HandlerKickKeeps(s: Sys, key: Key, ok: bool, handled: set<Q.Service>, o: Outcome)
    requires Core(s) && (key in s.rotating || key in s.deleting)
    ensures Core(HandlerKick(s, key, ok, handled, o))
  {
    assert QueueCore(s, s.queue.visible);
    if key in s.deleting {
      HandlerKicked(s, key);
      var n := s.(deleting := s.deleting - {key}, kicked := s.kicked + {key});
      AttemptRecorded(n, key, ok, handled, o);
      assert HandlerKick(s, key, ok, handled, o) == RecordAttempt(n, key, ok, handled, o);
    } else {
      AttemptRecorded(s, key, ok, handled, o);
    }
  }

  /** The worker takes a task that every possible content of the queue holds. */
  lemma Held(s: Sys, id: Key)
    requires Core(s) && s.worker.Idle? && s.queue.possible == {s.queue.visible} && id in s.queue.visible
    ensures Core(s.(worker := Claimed(id, s.queue.visible[id])))
  {
    var n := s.(worker := Claimed(id, s.queue.visible[id]));
    assert QueueCore(s, s.queue.visible);
    forall d | d in n.receipts.possible ensures ReceiptsCore(n, d) {
      assert ReceiptsCore(s, d);
    }
    forall d | d in n.queue.possible ensures QueueCore(n, d) {
      assert QueueCore(s, d);
    }
    forall d | d in n.users.possible ensures UsersCore(n, d) {
      assert UsersCore(s, d);
    }
    assert WorkerCore(n);
  }

  lemma ClaimKeeps(s: Sys, id: Key, o: Outcome)
    requires Core(s) && s.worker.Idle?
    ensures Core(WorkerClaim(s, id, o))
  {
    hide Core;
    if id in s.queue.visible {
      var q := Q.AfterClaim(s.queue.visible, id, s.now);
      TaskTouched(s, id, q[id], o);
      var s1 := s.(queue := Written(s.queue, q, o));
      if o.Durable? {
        Held(s1, id);
      } else {
        assert WorkerClaim(s, id, o) == s1;
      }
    }
  }

  /** The worker settles on a verdict; a carried-out deletion is recorded as passed. */
  lemma VerdictKeeps(s: Sys, verdict: Verdict, passed: set<Key>)
    requires Core(s) && s.worker.Claimed?
    requires passed == s.passed || (passed == s.passed + {s.worker.id} &&
             (s.worker.id in s.deleting ==>
                (s.deleting[s.worker.id].entry.Account?
                 && Past(s.users.visible, s.deleting[s.worker.id].user, s.deleting[s.worker.id].entry))))
    requires verdict.Proceed? && IsDeletion(s.worker.task) ==> s.worker.id in passed
    requires verdict.Retire? ==> !IsDeletion(s.worker.task)
    ensures Core(s.(worker := Decided(s.worker.id, s.worker.task, verdict), passed := passed))
  {
    var n := s.(worker := Decided(s.worker.id, s.worker.task, verdict), passed := passed);
    forall d | d in n.receipts.possible ensures ReceiptsCore(n, d) {
      assert ReceiptsCore(s, d);
    }
    forall d | d in n.queue.possible ensures QueueCore(n, d) {
      assert QueueCore(s, d);
    }
    forall d | d in n.users.possible ensures UsersCore(n, d) {
      assert UsersCore(s, d);
    }
    assert HandlersCore(n);
    assert WorkerCore(n);
  }

  /** Once the named revision is not the visible one, the handler of the deletion, if it
      still runs, is past it. */
  lemma GoneIsPast(s: Sys)
    requires Core(s) && s.worker.Claimed? && IsDeletion(s.worker.task)
    requires Superseded(s.users.visible, s.worker.task) || s.worker.task.user !in s.users.visible
    ensures s.worker.id in s.deleting ==>
              s.deleting[s.worker.id].entry.Account?
              && Past(s.users.visible, s.deleting[s.worker.id].user, s.deleting[s.worker.id].entry)
  {
  }

  lemma DeletionCheckKeeps(s: Sys, c: Check)
    requires Core(s) && s.worker.Claimed? && IsDeletion(s.worker.task)
    requires !Superseded(s.users.visible, s.worker.task)
    ensures Core(Remove(s, s.worker.task.user, s.worker.id, c.save))
    ensures var s1 := Remove(s, s.worker.task.user, s.worker.id, c.save);
            && Core(s1.(worker := Decided(s.worker.id, s.worker.task, GiveBack)))
            && (c.save.Durable? ==>
                  Core(s1.(worker := Decided(s.worker.id, s.worker.task, Proceed), passed := s.passed + {s.worker.id})))
  {
    hide Core;
    Removed(s, s.worker.task.user, s.worker.id, c.save);
    var s1 := Remove(s, s.worker.task.user, s.worker.id, c.save);
    VerdictKeeps(s1, GiveBack, s.passed);
    if c.save.Durable? {
      GoneIsPast(s1);
      VerdictKeeps(s1, Proceed, s.passed + {s.worker.id});
    }
  }

  lemma CheckKeeps(s: Sys, c: Check)
    requires Core(s)
    ensures Core(WorkerCheck(s, c).0)
  {
    hide Core, Remove;
    if s.worker.Claimed? {
      var id, task := s.worker.id, s.worker.task;
      if !c.loads {
        VerdictKeeps(s, GiveBack, s.passed);
      } else if IsDeletion(task) {
        if Superseded(s.users.visible, task) {
          GoneIsPast(s);
          VerdictKeeps(s, Proceed, s.passed + {id});
        } else {
          DeletionCheckKeeps(s, c);
        }
      } else {
        var generation := CredentialGeneration(s.users.visible, task.user);
        var verdict :=
          if generation == task.target then Proceed
          else if generation == task.previous && task.expiresAt > s.now then GiveBack
          else Retire;
        VerdictKeeps(s, verdict, s.passed);
      }
    }
  }

  lemma WorkerFreed(s: Sys)
    requires Core(s)
    ensures Core(s.(worker := Idle))
  {
    var n := s.(worker := Idle);
    forall d | d in n.receipts.possible ensures ReceiptsCore(n, d) {
      assert ReceiptsCore(s, d);
    }
    forall d | d in n.queue.possible ensures QueueCore(n, d) {
      assert QueueCore(s, d);
    }
    forall d | d in n.users.possible ensures UsersCore(n, d) {
      assert UsersCore(s, d);
    }
  }

  lemma FinishKeeps(s: Sys, ok: bool, handled: set<Q.Service>, o: Outcome)
    requires Core(s)
    ensures Core(WorkerFinish(s, ok, handled, o))
  {
    if s.worker.Decided? {
      WorkerFreed(s);
      var id := s.worker.id;
      var s1 := s.(worker := Idle);
      match s.worker.verdict
      case Retire => TaskDropped(s1, id, o);
      case GiveBack =>
        if id in s1.queue.visible {
          TaskTouched(s1, id, Q.AfterRelease(s1.queue.visible, id, Q.RETRY_DELAY_SECONDS, s1.now)[id], o);
        }
      case Proceed => AttemptRecorded(s1, id, ok, handled, o);
    }
  }

  // ------------------------------------------------------------------------ crashes

  lemma KilledKeeps(s: Sys)
    requires Core(s)
    ensures Core(Killed(s))
  {
    var n := Killed(s);
    forall d | d in n.receipts.possible ensures ReceiptsCore(n, d) {
      assert ReceiptsCore(s, d);
    }
    forall d | d in n.queue.possible ensures QueueCore(n, d) {
      assert QueueCore(s, d);
    }
    forall d | d in n.users.possible ensures UsersCore(n, d) {
      assert UsersCore(s, d);
    }
  }

  lemma UsersRolledBack(s: Sys, u: Users)
    requires Core(s) && s.worker.Idle? && s.deleting == map[] && u in s.users.possible
    ensures Core(s.(users := Rebooted(u), installs := multiset{}))
  {
    var n := s.(users := Rebooted(u), installs := multiset{});
    forall d | d in n.receipts.possible ensures ReceiptsCore(n, d) {
      assert ReceiptsCore(s, d);
    }
    forall d | d in n.queue.possible ensures QueueCore(n, d) {
      assert QueueCore(s, d);
    }
    assert UsersCore(s, u);
    assert forall x :: x in n.last && ShowsSomewhere(n.users, x, n.last[x].target)
                       ==> ShowsEffect(u, x, n.last[x].target);
  }

  lemma QueueRolledBack(s: Sys, q: Q.Tasks)
    requires Core(s) && q in s.queue.possible
    ensures Core(s.(queue := Rebooted(q)))
  {
    hide Core, QueueCore;
    QueueContentCore(s, q);
    QueueSaved(s, q, Durable);
  }

  lemma QueueContentCore(s: Sys, q: Q.Tasks)
    requires Core(s) && q in s.queue.possible
    ensures QueueCore(s, q) && SameKind(s, q)
  {
    assert QueueCore(s, q);
  }

  lemma ReceiptsRolledBack(s: Sys, r: R.Receipts)
    requires Core(s) && r in s.receipts.possible
    ensures Core(s.(receipts := Rebooted(r)))
  {
    ReceiptsSaved(s, r, Durable);
  }

  lemma CrashKeeps(s: Sys, u: Users, q: Q.Tasks, r: R.Receipts)
    requires Core(s) && u in s.users.possible && q in s.queue.possible && r in s.receipts.possible
    ensures Core(Apply(s, MachineCrash(u, q, r)))
  {
    hide Core;
    KilledKeeps(s);
    var k := Killed(s);
    UsersRolledBack(k, u);
    var k1 := k.(users := Rebooted(u), installs := multiset{});
    QueueRolledBack(k1, q);
    ReceiptsRolledBack(k1.(queue := Rebooted(q)), r);
  }

  /** The core invariant holds initially and is kept by every enabled step. */
  lemma InitialCore(s: Sys)
    requires Initial(s)
    ensures Core(s)
  {
    forall c | c in s.users.possible ensures UsersCore(s, c) {
      assert c == s.users.visible;
    }
  }

  lemma CoreKept(s: Sys, e: Step)
    requires Core(s) && Enabled(s, e)
    ensures Core(Next(s, e))
  {
    Advanced(s, e.now, s.nextToken, s.used, s.nonces);
    var t := s.(now := e.now);
    match e.op
    case SelfRotate(r) => RotateKeeps(t, r);
    case Administer(r) => AdminRotateKeeps(t, r);
    case DeleteUser(r) => DeleteKeeps(t, r);
    case CreateUser(u, d, x, rest, o) => Created(t, u, d, x, rest, o);
    case BindSession(k, a, b, o) => SessionBound(t, k, a, b, o);
    case PruneReceipts(o) => LiveKept(t, o);
    case RequireServices(k, services, o) => RequireKeeps(t, k, services, o);
    case Kick(k, ok, handled, o) => HandlerKickKeeps(t, k, ok, handled, o);
    case ClaimTask(id, o) => ClaimKeeps(t, id, o);
    case CheckTask(c) => CheckKeeps(t, c);
    case FinishTask(ok, handled, o) => FinishKeeps(t, ok, handled, o);
    case ProcessCrash => KilledKeeps(t);
    case MachineCrash(u, q, r) => CrashKeeps(t, u, q, r);
  }
}
