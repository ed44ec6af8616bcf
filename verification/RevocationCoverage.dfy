/** No visible credential change loses its revocation: while a commit can be seen in
    users.json, its task is in every possible queue content or has been completed,
    unless a later commit for the same user had become visible.

    The worker inspects users.json and discards a retired task in different locked
    sections.  `CoverageIsExact` says exactly when that breaks the property,
    `RunsAreCovered` which runs keep it, `CollisionLosesTask` shows one that does not. */
module RevocationCoverage {
  import opened Credentials
  import opened DurableFile
  import opened CredentialProtocol
  import opened ProtocolInvariant
  import opened ProtocolSteps
  import Q = RevocationQueue
  import R = RotationReceipts

  /** u's latest commit is not completed and may be seen after a crash. */
  ghost predicate Needed(s: Sys, u: User) {
    u in s.last && !s.last[u].done && ShowsSomewhere(s.users, u, s.last[u].target)
  }

  ghost predicate Covered(s: Sys) {
    forall u :: Needed(s, u) ==>
      forall q :: q in s.queue.possible ==> Names(q, s.last[u].key, u, s.last[u].target)
  }

  /** The worker is about to discard the task of a commit that users.json shows. */
  ghost predicate LosesTask(s: Sys, e: Step) {
    && e.op.FinishTask? && !e.op.o.NotReplaced?
    && s.worker.Decided? && s.worker.verdict.Retire?
    && s.worker.id in s.queue.visible
    && exists u :: u in s.last && s.last[u].key == s.worker.id && !s.last[u].done
                   && ShowsEffect(s.users.visible, u, s.last[u].target)
  }

  // -------------------------------------------------------------- queue contents

  lemma QueueSaveCovers(s: Sys, q: Q.Tasks, o: Outcome)
    requires Covered(s)
    requires forall u :: Needed(s, u) ==> Names(q, s.last[u].key, u, s.last[u].target)
    ensures Covered(s.(queue := Written(s.queue, q, o)))
  {
    var n := s.(queue := Written(s.queue, q, o));
    forall u, d | Needed(n, u) && d in n.queue.possible
      ensures Names(d, n.last[u].key, u, n.last[u].target)
    {
      assert Needed(s, u);
    }
  }

  /** A content that keeps every task's user and target keeps the coverage. */
  lemma TouchCovers(s: Sys, q: Q.Tasks, o: Outcome)
    requires Covered(s) && Coherent(s.queue)
    requires forall id :: id in s.queue.visible ==>
               id in q && q[id].user == s.queue.visible[id].user && q[id].target == s.queue.visible[id].target
    ensures Covered(s.(queue := Written(s.queue, q, o)))
  {
    QueueSaveCovers(s, q, o);
  }

  lemma PrepareCovers(s: Sys, id: Key, user: User, previous: Gen, target: Gen, services: set<Q.Service>, o: Outcome)
    requires Covered(s) && Coherent(s.queue)
    ensures var (f, reply) := Q.PrepareFile(s.queue, id, user, previous, target, services, s.now, o);
            Covered(s.(queue := f))
            && (reply.Prepared? ==> forall q :: q in f.possible ==> Names(q, id, user, target))
  {
    TouchCovers(s, Q.AfterPrepare(s.queue.visible, id, user, previous, target, services, s.now), o);
  }

  /** A completed task leaves the queue together with the need for it. */
  lemma CompletionCovers(s: Sys, n: Sys, id: Key, o: Outcome)
    requires Covered(s) && Coherent(s.queue)
    requires n == s.(queue := Written(s.queue, Q.Without(s.queue.visible, id), o), last := MarkDone(s.last, id))
    ensures Covered(n)
  {
    forall u, d | Needed(n, u) && d in n.queue.possible
      ensures Names(d, n.last[u].key, u, n.last[u].target)
    {
      assert Needed(s, u);
      assert Names(s.queue.visible, s.last[u].key, u, s.last[u].target);
    }
  }

  lemma AttemptCovers(s: Sys, id: Key, ok: bool, handled: set<Q.Service>, o: Outcome)
    requires Core(s) && Covered(s)
    ensures Covered(RecordAttempt(s, id, ok, handled, o))
  {
    var n := RecordAttempt(s, id, ok, handled, o);
    if id in s.queue.visible {
      var q := Q.AfterAttempt(s.queue.visible, id, ok, handled, s.now);
      if o.NotReplaced? {
        SameFilesCover(s, n);
      } else if id in q {
        TouchCovers(s, q, o);
      } else {
        CompletionCovers(s, n, id, o);
      }
    }
  }

  // --------------------------------------------------------------- users contents

  lemma RewriteCovers(s: Sys, o: Outcome)
    requires Core(s) && Covered(s)
    ensures Covered(Rewrite(s, o))
    ensures forall u :: Needed(Rewrite(s, o), u) ==> Needed(s, u)
  {
    var n := Rewrite(s, o);
    forall u | Needed(n, u) ensures Needed(s, u) {
      var c :| c in n.users.possible && ShowsEffect(c, u, n.last[u].target);
      assert c in s.users.possible;
    }
  }

  /** After a commit for `user`, what is needed for another user was needed before. */
  lemma OthersNeeded(s: Sys, n: Sys, user: User, content: Users, o: Outcome, u: User)
    requires Core(s) && n.users == Written(s.users, content, o) && !o.NotReplaced?
    requires u != user && u in s.last && u in n.last && n.last[u] == s.last[u]
    requires u in content <==> u in s.users.visible
    requires u in content ==> content[u] == s.users.visible[u]
    requires Needed(n, u)
    ensures Needed(s, u)
  {
    OthersKeepHistory(s, n, user, content, o, u);
  }

  lemma InstallCovers(s: Sys, user: User, token: nat, key: Key, o: Outcome)
    requires Core(s) && Covered(s)
    requires user in s.users.visible && s.users.visible[user].Account?
    requires forall q :: q in s.queue.possible ==> Names(q, key, user, TokenGen(token))
    ensures Covered(Install(s, user, token, key, o))
    ensures forall u :: Needed(Install(s, user, token, key, o), u) && u != user ==> Needed(s, u)
  {
    if !o.NotReplaced? {
      var n := Install(s, user, token, key, o);
      var content := s.users.visible[user := s.users.visible[user].(cred := token)];
      forall u | Needed(n, u) && u != user ensures Needed(s, u) {
        OthersNeeded(s, n, user, content, o, u);
      }
    }
  }

  lemma RemoveCovers(s: Sys, user: User, key: Key, o: Outcome)
    requires Core(s) && Covered(s)
    requires user in s.users.visible ==> forall q :: q in s.queue.possible ==> Names(q, key, user, UserDeleted)
    ensures Covered(Remove(s, user, key, o))
    ensures forall u :: Needed(Remove(s, user, key, o), u) && u != user ==> Needed(s, u)
  {
    var n := Remove(s, user, key, o);
    if !o.NotReplaced? {
      if user !in s.users.visible {
        RewriteCovers(s, o);
      } else {
        forall u | Needed(n, u) && u != user ensures Needed(s, u) {
          OthersNeeded(s, n, user, s.users.visible - {user}, o, u);
        }
      }
    }
  }

  lemma CreateCovers(s: Sys, user: User, disabled: bool, expiresOn: nat, rest: nat, o: Outcome)
    requires Core(s) && Covered(s)
    ensures Covered(Create(s, user, disabled, expiresOn, rest, o))
    ensures forall u :: Needed(Create(s, user, disabled, expiresOn, rest, o), u) ==> Needed(s, u)
  {
    var n := Create(s, user, disabled, expiresOn, rest, o);
    if user !in s.users.visible && !o.NotReplaced? {
      var content := s.users.visible[user := Account(s.nextToken, disabled, expiresOn, rest)];
      forall u | Needed(n, u) ensures Needed(s, u) {
        OthersNeeded(s, n, user, content, o, u);
      }
    }
  }

  // ------------------------------------------------------------------------ requests

  /** What only receipts, handlers, clocks and tokens changed is as covered as before. */
  lemma SameFilesCover(s: Sys, n: Sys)
    requires Covered(s) && n.users == s.users && n.queue == s.queue && n.last == s.last
    ensures Covered(n)
    ensures forall u :: Needed(n, u) <==> Needed(s, u)
  {
    forall u ensures Needed(n, u) <==> Needed(s, u) {
    }
  }

  lemma AbandonCovers(s: Sys, r: Rotation, target: Gen)
    requires Core(s) && Covered(s)
    requires Names(s.queue.visible, r.key, r.user, target) && !ShowsEffect(s.users.visible, r.user, target)
    ensures Covered(Abandon(s, r).0)
  {
    var s1 := DropReceipt(s, r.key, r.dropReceipt);
    SameFilesCover(s, s1);
    if r.key in s.queue.visible {
      var q := Q.Without(s1.queue.visible, r.key);
      forall u | Needed(s1, u) ensures Names(q, s1.last[u].key, u, s1.last[u].target) {
        assert Names(s.queue.visible, s.last[u].key, u, s.last[u].target);
        assert Needed(s, u);
        if s.last[u].key == r.key {
          assert false;
        }
      }
      QueueSaveCovers(s1, q, r.dropTask);
    }
  }

  lemma CommitOrReplayCovers(s: Sys, r: Rotation, receipt: R.Receipt, replayed: bool)
    requires Core(s) && Covered(s) && r.user in s.users.visible && s.users.visible[r.user].Account?
    requires receipt.token > 0
    requires forall q :: q in s.queue.possible ==> Names(q, r.key, r.user, TokenGen(receipt.token))
    ensures Covered(CommitOrReplay(s, r, receipt, replayed).0)
  {
    var current := CredOf(s.users.visible, r.user);
    if TokenGen(current) == TokenGen(receipt.token) {
      RewriteCovers(s, r.save);
      SameFilesCover(Rewrite(s, r.save), CommitOrReplay(s, r, receipt, replayed).0);
    } else if TokenGen(current) == receipt.previous && SecretEqual(r.posted, current) {
      InstallCovers(s, r.user, receipt.token, r.key, r.save);
      SameFilesCover(Install(s, r.user, receipt.token, r.key, r.save), CommitOrReplay(s, r, receipt, replayed).0);
    } else {
      AbandonCovers(s, r, TokenGen(receipt.token));
    }
  }

  lemma WithReceiptCovers(s: Sys, r: Rotation, previous: Gen, token: nat, replayed: bool)
    requires Core(s) && Covered(s) && r.key !in s.nonces
    requires r.user in s.users.visible && s.users.visible[r.user].Account?
    requires r.key in R.Live(s.receipts.visible, s.now) ||
             (previous.CredGen? && previous.token < token && 0 < token < s.nextToken && token !in s.installs
              && forall k :: k in s.receipts.visible ==> s.receipts.visible[k].token != token)
    ensures Covered(WithReceipt(s, r, previous, token, replayed).0)
  {
    hide Core, Covered;
    ReceiptPrepared(s, r.key, r.user, r.session, previous, token, r.receipt);
    var (f, reply) := R.PrepareFile(s.receipts, r.key, r.user, r.session, previous, token, s.now, r.receipt);
    var s1 := s.(receipts := f);
    SameFilesCover(s, s1);
    if reply.Ready? {
      WithTaskCovers(s1, r, reply.receipt, replayed);
    }
  }

  lemma PromiseFits(s: Sys, r: Rotation, receipt: R.Receipt)
    requires Core(s) && r.key !in s.nonces && Promised(s, r, receipt)
    ensures Core(s.(used := s.used + {r.key}))
    ensures Fits(s.(used := s.used + {r.key}), r.key, r.user, receipt.previous, TokenGen(receipt.token))
    ensures receipt.token > 0 && Coherent(s.queue)
  {
    assert ReceiptsCore(s, s.receipts.visible);
    Advanced(s, s.now, s.nextToken, s.used + {r.key}, s.nonces);
  }

  lemma WithTaskCovers(s: Sys, r: Rotation, receipt: R.Receipt, replayed: bool)
    requires Core(s) && Covered(s) && r.key !in s.nonces
    requires r.user in s.users.visible && s.users.visible[r.user].Account?
    requires Promised(s, r, receipt)
    ensures Covered(WithTask(s, r, receipt, replayed).0)
  {
    hide Core, Covered;
    PromiseFits(s, r, receipt);
    var s0 := s.(used := s.used + {r.key});
    SameFilesCover(s, s0);
    TaskPrepared(s0, r.key, r.user, receipt.previous, TokenGen(receipt.token), BOTH, r.task);
    PrepareCovers(s0, r.key, r.user, receipt.previous, TokenGen(receipt.token), BOTH, r.task);
    var (f, reply) := Q.PrepareFile(s.queue, r.key, r.user, receipt.previous, TokenGen(receipt.token),
                                    BOTH, s.now, r.task);
    if reply.Prepared? {
      CommitOrReplayCovers(s0.(queue := f), r, receipt, replayed);
    }
  }

  lemma RotateCovers(s: Sys, r: Rotation)
    requires Core(s) && Covered(s) && r.key !in s.nonces
    ensures Covered(Rotate(s, r).0)
  {
    hide Core, Covered, ReceiptsCore, WithReceipt;
    if r.validId {
      var (f, found) := R.LookupFile(s.receipts, r.key, r.session, s.now, r.lookup);
      var s1 := s.(receipts := f);
      LiveKept(s, r.lookup);
      assert Core(s1);
      SameFilesCover(s, s1);
      if !found.LookupFailed? && r.user in s.users.visible && s.users.visible[r.user].Account? {
        if found.Found? {
          WithReceiptCovers(s1, r, found.receipt.previous, found.receipt.token, true);
        } else {
          var entry := s.users.visible[r.user];
          if r.session != 0 && r.sessionAllows && SecretEqual(r.posted, entry.cred)
             && !entry.disabled && !IsExpired(entry, r.today) {
            RotationNotRelied(s1, r.key);
            Advanced(s1, s1.now, s1.nextToken + 1, s1.used, s1.nonces);
            var s2 := s1.(nextToken := s1.nextToken + 1);
            SameFilesCover(s1, s2);
            FreshIsNew(s1, r.user);
            WithReceiptCovers(s2, r, TokenGen(entry.cred), s1.nextToken, false);
          }
        }
      }
    }
  }

  lemma AdminCommitCovers(s: Sys, r: AdminRotation, token: nat)
    requires Core(s) && Covered(s) && r.user in s.users.visible && s.users.visible[r.user].Account?
    requires forall q :: q in s.queue.possible ==> Names(q, r.key, r.user, TokenGen(token))
    ensures Covered(Install(s, r.user, token, r.key, r.save))
    ensures var n := Install(s, r.user, token, r.key, r.save);
            Covered(n.(rotating := n.rotating + {r.key}))
  {
    hide Core, Covered;
    InstallCovers(s, r.user, token, r.key, r.save);
    var n := Install(s, r.user, token, r.key, r.save);
    SameFilesCover(n, n.(rotating := n.rotating + {r.key}));
  }

  lemma AdminRotateCovers(s: Sys, r: AdminRotation)
    requires Core(s) && Covered(s) && r.key !in s.used
    ensures Covered(AdminRotate(s, r).0)
  {
    hide Core, Covered, Install;
    var users := s.users.visible;
    if r.user in users && users[r.user].Account? && users[r.user] == r.expected {
      var token := s.nextToken;
      FreshIsNew(s, r.user);
      NewKeyUnknown(s, r.key);
      Advanced(s, s.now, token + 1, s.used + {r.key}, s.nonces + {r.key});
      var s0 := s.(nextToken := token + 1, used := s.used + {r.key}, nonces := s.nonces + {r.key});
      SameFilesCover(s, s0);
      QueueCoherent(s0);
      TaskPrepared(s0, r.key, r.user, TokenGen(users[r.user].cred), TokenGen(token), BOTH, r.task);
      PrepareCovers(s0, r.key, r.user, TokenGen(users[r.user].cred), TokenGen(token), BOTH, r.task);
      var (f, reply) := Q.PrepareFile(s.queue, r.key, r.user, TokenGen(users[r.user].cred), TokenGen(token),
                                      BOTH, s.now, r.task);
      if reply.Prepared? {
        AdminCommitCovers(s0.(queue := f), r, token);
      }
    }
  }

  lemma QueueCoherent(s: Sys)
    requires Core(s)
    ensures Coherent(s.queue)
  {
  }

  lemma DeleteCovers(s: Sys, r: DeleteRequest)
    requires Core(s) && Covered(s) && r.key !in s.used
    ensures Covered(Delete(s, r).0)
  {
    hide Core, Covered, Remove;
    var users := s.users.visible;
    if r.user in users && users[r.user].Account? && users[r.user] == r.expected {
      var entry := users[r.user];
      FreshIsNew(s, r.user);
      NewKeyUnknown(s, r.key);
      Advanced(s, s.now, s.nextToken, s.used + {r.key}, s.nonces + {r.key});
      var s0 := s.(used := s.used + {r.key}, nonces := s.nonces + {r.key});
      SameFilesCover(s, s0);
      QueueCoherent(s0);
      TaskPrepared(s0, r.key, r.user, RevisionOf(entry), UserDeleted, BOTH, r.task);
      PrepareCovers(s0, r.key, r.user, RevisionOf(entry), UserDeleted, BOTH, r.task);
      var (f, reply) := Q.PrepareFile(s.queue, r.key, r.user, RevisionOf(entry), UserDeleted, BOTH, s.now, r.task);
      if reply.Prepared? {
        RemoveCovers(s0.(queue := f), r.user, r.key, r.save);
        SameFilesCover(Remove(s0.(queue := f), r.user, r.key, r.save), Delete(s, r).0);
      }
    }
  }

  // ------------------------------------------------------------------------ the worker

  lemma ClaimCovers(s: Sys, id: Key, o: Outcome)
    requires Core(s) && Covered(s)
    ensures Covered(WorkerClaim(s, id, o))
  {
    if id in s.queue.visible {
      TouchCovers(s, Q.AfterClaim(s.queue.visible, id, s.now), o);
      SameFilesCover(s.(queue := Written(s.queue, Q.AfterClaim(s.queue.visible, id, s.now), o)), WorkerClaim(s, id, o));
    }
  }

  lemma HeldDeletion(s: Sys)
    requires Core(s) && s.worker.Claimed? && IsDeletion(s.worker.task)
    requires !Superseded(s.users.visible, s.worker.task) && s.worker.task.user in s.users.visible
    ensures forall q :: q in s.queue.possible ==> Names(q, s.worker.id, s.worker.task.user, UserDeleted)
  {
    forall q | q in s.queue.possible ensures Names(q, s.worker.id, s.worker.task.user, UserDeleted) {
      assert QueueCore(s, q);
    }
  }

  lemma CheckCovers(s: Sys, c: Check)
    requires Core(s) && Covered(s)
    ensures Covered(WorkerCheck(s, c).0)
  {
    var n := WorkerCheck(s, c).0;
    if s.worker.Claimed? && c.loads && IsDeletion(s.worker.task) && !Superseded(s.users.visible, s.worker.task) {
      var task := s.worker.task;
      if task.user in s.users.visible {
        HeldDeletion(s);
      }
      RemoveCovers(s, task.user, s.worker.id, c.save);
      SameFilesCover(Remove(s, task.user, s.worker.id, c.save), n);
    } else {
      SameFilesCover(s, n);
    }
  }

  lemma RetireCoversExactly(s: Sys, ok: bool, handled: set<Q.Service>, o: Outcome, now: nat)
    requires Core(s) && Covered(s) && s.worker.Decided? && s.worker.verdict.Retire?
    ensures Covered(WorkerFinish(s, ok, handled, o)) <==> !LosesTask(s, Step(FinishTask(ok, handled, o), now))
  {
    var e := Step(FinishTask(ok, handled, o), now);
    var n := WorkerFinish(s, ok, handled, o);
    var id := s.worker.id;
    if id !in s.queue.visible || o.NotReplaced? {
      SameFilesCover(s, n);
    } else {
      var q := Q.Without(s.queue.visible, id);
      if LosesTask(s, e) {
        var u :| u in s.last && s.last[u].key == id && !s.last[u].done
                 && ShowsEffect(s.users.visible, u, s.last[u].target);
        assert Needed(n, u);
        assert q in n.queue.possible && !Names(q, id, u, s.last[u].target);
      } else {
        forall u | Needed(s, u) ensures Names(q, s.last[u].key, u, s.last[u].target) {
          assert Names(s.queue.visible, s.last[u].key, u, s.last[u].target);
        }
        QueueSaveCovers(s, q, o);
        SameFilesCover(s.(queue := Written(s.queue, q, o)), n);
      }
    }
  }

  lemma FinishCoversExactly(s: Sys, ok: bool, handled: set<Q.Service>, o: Outcome, now: nat)
    requires Core(s) && Covered(s) && s.worker.Decided?
    ensures Covered(WorkerFinish(s, ok, handled, o)) <==> !LosesTask(s, Step(FinishTask(ok, handled, o), now))
  {
    var id := s.worker.id;
    var s1 := s.(worker := Idle);
    SameFilesCover(s, s1);
    match s.worker.verdict
    case Retire => RetireCoversExactly(s, ok, handled, o, now);
    case GiveBack =>
      if id in s1.queue.visible {
        TouchCovers(s1, Q.AfterRelease(s1.queue.visible, id, Q.RETRY_DELAY_SECONDS, s1.now), o);
      }
    case Proceed =>
      WorkerFreed(s);
      AttemptCovers(s1, id, ok, handled, o);
  }

  lemma CrashCovers(s: Sys, u: Users, q: Q.Tasks, r: R.Receipts)
    requires Core(s) && Covered(s) && u in s.users.possible && q in s.queue.possible
    ensures Covered(Apply(s, MachineCrash(u, q, r)))
  {
    var n := Apply(s, MachineCrash(u, q, r));
    forall x, d | Needed(n, x) && d in n.queue.possible
      ensures Names(d, n.last[x].key, x, n.last[x].target)
    {
      var c :| c in n.users.possible && ShowsEffect(c, x, n.last[x].target);
      assert c == u;
      assert Needed(s, x);
    }
  }

  lemma HandlersCover(s: Sys, op: Op)
    requires Core(s) && Covered(s) && (op.RequireServices? || op.Kick?)
    ensures Covered(Apply(s, op))
  {
    match op
    case RequireServices(k, services, o) =>
      if services != {} && k in s.queue.visible {
        TouchCovers(s, Q.AfterRequire(s.queue.visible, k, services, s.now), o);
      }
    case Kick(k, ok, handled, o) =>
      AttemptCovers(s, k, ok, handled, o);
      SameFilesCover(RecordAttempt(s, k, ok, handled, o), HandlerKick(s, k, ok, handled, o));
  }

  /** In a covered state, a step loses the coverage exactly when the worker discards the
      task of a commit that users.json shows. */
  lemma CoverageIsExact(s: Sys, e: Step)
    requires Core(s) && Covered(s) && Enabled(s, e)
    ensures Covered(Next(s, e)) <==> !LosesTask(s, e)
  {
    hide Core, Covered;
    Advanced(s, e.now, s.nextToken, s.used, s.nonces) by {
      RotationFacts(s);
    }
    var t := s.(now := e.now);
    SameFilesCover(s, t);
    match e.op
    case SelfRotate(r) => RotateCovers(t, r);
    case Administer(r) => AdminRotateCovers(t, r);
    case DeleteUser(r) => DeleteCovers(t, r);
    case CreateUser(u, d, x, rest, o) => CreateCovers(t, u, d, x, rest, o);
    case BindSession(_, _, _, _) => SameFilesCover(t, Next(s, e));
    case PruneReceipts(_) => SameFilesCover(t, Next(s, e));
    case RequireServices(_, _, _) => HandlersCover(t, e.op);
    case Kick(_, _, _, _) => HandlersCover(t, e.op);
    case ClaimTask(id, o) => ClaimCovers(t, id, o);
    case CheckTask(c) => CheckCovers(t, c);
    case FinishTask(ok, handled, o) =>
      FinishCoversExactly(t, ok, handled, o, e.now);
      assert LosesTask(t, e) <==> LosesTask(s, e);
    case ProcessCrash => SameFilesCover(t, Next(s, e));
    case MachineCrash(u, q, r) => CrashCovers(t, u, q, r);
  }

  lemma RotationFacts(s: Sys)
    requires Core(s)
    ensures s.nonces <= s.used
  {
  }

  // -------------------------------------------------------------------------- runs

  ghost function Run(s: Sys, es: seq<Step>): Sys
    decreases es
  {
    if es == [] then s else Run(Next(s, es[0]), es[1..])
  }

  ghost predicate Allowed(s: Sys, es: seq<Step>)
    decreases es
  {
    es != [] ==> Enabled(s, es[0]) && Allowed(Next(s, es[0]), es[1..])
  }

  ghost predicate AlwaysCovered(s: Sys, es: seq<Step>)
    decreases es
  {
    Covered(s) && (es != [] ==> AlwaysCovered(Next(s, es[0]), es[1..]))
  }

  ghost predicate NeverLosesTask(s: Sys, es: seq<Step>)
    decreases es
  {
    es != [] ==> !LosesTask(s, es[0]) && NeverLosesTask(Next(s, es[0]), es[1..])
  }

  lemma {:induction false} CoreInRuns(s: Sys, es: seq<Step>)
    requires Core(s) && Allowed(s, es)
    ensures Core(Run(s, es))
    decreases es
  {
    if es != [] {
      CoreKept(s, es[0]);
      CoreInRuns(Next(s, es[0]), es[1..]);
    }
  }

  /** Over every run of requests, replays, deletions, worker steps and crashes: all its
      states are covered if and only if the worker never discards the task of a commit
      that users.json shows at that moment. */
  lemma {:induction false} RunsCoveredExactly(s: Sys, es: seq<Step>)
    requires Core(s) && Covered(s) && Allowed(s, es)
    ensures AlwaysCovered(s, es) <==> NeverLosesTask(s, es)
    decreases es
  {
    if es != [] {
      hide Core, Covered;
      CoreKept(s, es[0]);
      CoverageIsExact(s, es[0]);
      if Covered(Next(s, es[0])) {
        RunsCoveredExactly(Next(s, es[0]), es[1..]);
      }
    }
  }

  // ------------------------------------------------------------------ no collisions

  /** A request makes a credential visible for the very task the worker holds. */
  ghost predicate CommitsHeldTask(s: Sys, e: Step) {
    && e.op.SelfRotate? && !s.worker.Idle? && s.worker.id == e.op.rotation.key
    && Next(s, e).installs != s.installs
  }

  /** What the worker saw of its task still tells what users.json may show of it. */
  ghost predicate Snapshot(s: Sys) {
    && (s.worker.Claimed? ==>
          forall u :: Needed(s, u) && s.last[u].key == s.worker.id ==>
            u == s.worker.task.user && s.last[u].target == s.worker.task.target)
    && (s.worker.Decided? && s.worker.verdict.Retire? ==>
          forall u :: Needed(s, u) ==> s.last[u].key != s.worker.id)
  }

  /** Commits that n has and s does not. */
  ghost predicate OnlyCommits(s: Sys, n: Sys, key: Key) {
    forall u :: Needed(n, u) ==> n.last[u].key == key || (Needed(s, u) && n.last[u] == s.last[u])
  }

  ghost predicate NoCommits(s: Sys, n: Sys) {
    forall u :: Needed(n, u) ==> Needed(s, u) && n.last[u] == s.last[u]
  }

  lemma RewriteCommits(s: Sys, o: Outcome)
    requires Coherent(s.users)
    ensures NoCommits(s, Rewrite(s, o)) && Rewrite(s, o).worker == s.worker
  {
    var n := Rewrite(s, o);
    forall u | Needed(n, u) ensures Needed(s, u) {
      var c :| c in n.users.possible && ShowsEffect(c, u, n.last[u].target);
      assert c in s.users.possible;
    }
  }

  lemma InstallCommits(s: Sys, user: User, token: nat, key: Key, o: Outcome)
    requires Core(s)
    ensures var n := Install(s, user, token, key, o);
            && n.worker == s.worker
            && if n.installs == s.installs then NoCommits(s, n) else OnlyCommits(s, n, key)
  {
    var n := Install(s, user, token, key, o);
    if user in s.users.visible && s.users.visible[user].Account? && !o.NotReplaced? {
      assert n.installs[token] == s.installs[token] + 1;
      var content := s.users.visible[user := s.users.visible[user].(cred := token)];
      forall u | Needed(n, u) && u != user ensures Needed(s, u) && n.last[u] == s.last[u] {
        OthersNeeded(s, n, user, content, o, u);
      }
    }
  }

  lemma SameNeeds(s: Sys, n: Sys)
    requires n.users == s.users && n.last == s.last
    ensures NoCommits(s, n)
  {
    assert forall u :: Needed(n, u) ==> Needed(s, u);
  }

  lemma NeedsTransfer(s: Sys, m: Sys, n: Sys, key: Key)
    requires m.users == n.users && m.last == n.last
    ensures NoCommits(s, m) ==> NoCommits(s, n)
    ensures OnlyCommits(s, m, key) ==> OnlyCommits(s, n, key)
  {
    assert forall u :: Needed(n, u) <==> Needed(m, u);
  }

  lemma CommitOrReplayCommits(s: Sys, r: Rotation, receipt: R.Receipt, replayed: bool)
    requires Core(s) && r.user in s.users.visible && s.users.visible[r.user].Account?
    ensures var n := CommitOrReplay(s, r, receipt, replayed).0;
            && n.worker == s.worker
            && if n.installs == s.installs then NoCommits(s, n) else OnlyCommits(s, n, r.key)
  {
    hide Core, NoCommits, OnlyCommits;
    UsersCoherent(s);
    var n := CommitOrReplay(s, r, receipt, replayed).0;
    var current := CredOf(s.users.visible, r.user);
    if TokenGen(current) == TokenGen(receipt.token) {
      RewriteCommits(s, r.save);
      NeedsTransfer(s, Rewrite(s, r.save), n, r.key);
    } else if TokenGen(current) == receipt.previous && SecretEqual(r.posted, current) {
      InstallCommits(s, r.user, receipt.token, r.key, r.save);
      NeedsTransfer(s, Install(s, r.user, receipt.token, r.key, r.save), n, r.key);
    } else {
      SameNeeds(s, n);
    }
  }

  lemma UsersCoherent(s: Sys)
    requires Core(s)
    ensures Coherent(s.users)
  {
  }

  lemma WithReceiptCommits(s: Sys, r: Rotation, previous: Gen, token: nat, replayed: bool)
    requires Core(s) && r.key !in s.nonces
    requires r.user in s.users.visible && s.users.visible[r.user].Account?
    requires r.key in R.Live(s.receipts.visible, s.now) ||
             (previous.CredGen? && previous.token < token && 0 < token < s.nextToken && token !in s.installs
              && forall k :: k in s.receipts.visible ==> s.receipts.visible[k].token != token)
    ensures var n := WithReceipt(s, r, previous, token, replayed).0;
            && n.worker == s.worker
            && if n.installs == s.installs then NoCommits(s, n) else OnlyCommits(s, n, r.key)
  {
    hide Core;
    ReceiptPrepared(s, r.key, r.user, r.session, previous, token, r.receipt);
    var (f, reply) := R.PrepareFile(s.receipts, r.key, r.user, r.session, previous, token, s.now, r.receipt);
    var s1 := s.(receipts := f);
    if reply.Ready? {
      var receipt := reply.receipt;
      PromiseFits(s1, r, receipt);
      var s2 := s1.(used := s1.used + {r.key});
      TaskPrepared(s2, r.key, r.user, receipt.previous, TokenGen(receipt.token), BOTH, r.task);
      var (g, ready) := Q.PrepareFile(s.queue, r.key, r.user, receipt.previous, TokenGen(receipt.token),
                                      BOTH, s.now, r.task);
      if ready.Prepared? {
        var s3 := s2.(queue := g);
        CommitOrReplayCommits(s3, r, receipt, replayed);
        assert forall u :: Needed(s3, u) ==> Needed(s, u);
      }
    }
  }

  lemma LookupCommits(s: Sys, r: Rotation)
    requires Core(s)
    ensures var (f, found) := R.LookupFile(s.receipts, r.key, r.session, s.now, r.lookup);
            Core(s.(receipts := f)) && (found.Found? ==> r.key in R.Live(f.visible, s.now))
  {
    hide Core;
    LiveKept(s, r.lookup);
  }

  /** Commits depend on the last commits and users.json alone. */
  lemma CommitsFrom(s: Sys, m: Sys, n: Sys, key: Key)
    requires m.last == s.last && m.users == s.users
    ensures NoCommits(m, n) ==> NoCommits(s, n)
    ensures OnlyCommits(m, n, key) ==> OnlyCommits(s, n, key)
  {
    assert forall u :: Needed(m, u) <==> Needed(s, u);
  }

  lemma NothingCommitted(s: Sys, n: Sys)
    requires n.last == s.last && n.users == s.users
    ensures NoCommits(s, n)
  {
    assert forall u :: Needed(n, u) <==> Needed(s, u);
  }

  lemma RotateCommits(s: Sys, r: Rotation)
    requires Core(s) && r.key !in s.nonces
    ensures var n := Rotate(s, r).0;
            && n.worker == s.worker
            && if n.installs == s.installs then NoCommits(s, n) else OnlyCommits(s, n, r.key)
  {
    hide Core, WithReceipt, NoCommits, OnlyCommits, R.LookupFile;
    NothingCommitted(s, s);
    if r.validId {
      var (f, found) := R.LookupFile(s.receipts, r.key, r.session, s.now, r.lookup);
      var s1 := s.(receipts := f);
      LookupCommits(s, r);
      NothingCommitted(s, s1);
      if !found.LookupFailed? && r.user in s.users.visible && s.users.visible[r.user].Account? {
        if found.Found? {
          WithReceiptCommits(s1, r, found.receipt.previous, found.receipt.token, true);
          CommitsFrom(s, s1, Rotate(s, r).0, r.key);
        } else {
          var entry := s.users.visible[r.user];
          if r.session != 0 && r.sessionAllows && SecretEqual(r.posted, entry.cred)
             && !entry.disabled && !IsExpired(entry, r.today) {
            RotationNotRelied(s1, r.key);
            Advanced(s1, s1.now, s1.nextToken + 1, s1.used, s1.nonces);
            var s2 := s1.(nextToken := s1.nextToken + 1);
            FreshIsNew(s1, r.user);
            WithReceiptCommits(s2, r, TokenGen(entry.cred), s1.nextToken, false);
            CommitsFrom(s, s2, Rotate(s, r).0, r.key);
          }
        }
      }
    }
  }

  lemma AdminRotateCommits(s: Sys, r: AdminRotation)
    requires Core(s)
    ensures OnlyCommits(s, AdminRotate(s, r).0, r.key) && AdminRotate(s, r).0.worker == s.worker
  {
    var n := AdminRotate(s, r).0;
    forall u | Needed(n, u) && n.last[u].key != r.key
      ensures Needed(s, u) && n.last[u] == s.last[u]
    {
      if n.users == s.users {
        assert n.last[u] == s.last[u];
      } else {
        var content := s.users.visible[r.user := s.users.visible[r.user].(cred := s.nextToken)];
        OthersNeeded(s, n, r.user, content, r.save, u);
      }
    }
  }

  lemma RemoveCommits(s: Sys, user: User, key: Key, o: Outcome)
    requires Core(s)
    ensures OnlyCommits(s, Remove(s, user, key, o), key) && Remove(s, user, key, o).worker == s.worker
  {
    var n := Remove(s, user, key, o);
    forall u | Needed(n, u) && n.last[u].key != key
      ensures Needed(s, u) && n.last[u] == s.last[u]
    {
      if user !in s.users.visible {
        var c :| c in n.users.possible && ShowsEffect(c, u, n.last[u].target);
        assert c in s.users.possible;
      } else if !o.NotReplaced? {
        OthersNeeded(s, n, user, s.users.visible - {user}, o, u);
      }
    }
  }

  lemma AttemptCommits(s: Sys, id: Key, ok: bool, handled: set<Q.Service>, o: Outcome)
    ensures NoCommits(s, RecordAttempt(s, id, ok, handled, o))
  {
  }

  lemma CreateCommits(s: Sys, user: User, disabled: bool, expiresOn: nat, rest: nat, o: Outcome)
    requires Core(s)
    ensures NoCommits(s, Create(s, user, disabled, expiresOn, rest, o))
    ensures Create(s, user, disabled, expiresOn, rest, o).worker == s.worker
  {
    var n := Create(s, user, disabled, expiresOn, rest, o);
    if user !in s.users.visible && !o.NotReplaced? {
      var content := s.users.visible[user := Account(s.nextToken, disabled, expiresOn, rest)];
      forall u | Needed(n, u) ensures Needed(s, u) {
        OthersNeeded(s, n, user, content, o, u);
      }
    }
  }

  /** Whatever others do while the worker holds its task leaves the snapshot true. */
  lemma SnapshotUndisturbed(s: Sys, n: Sys, key: Key)
    requires Snapshot(s) && n.worker == s.worker
    requires NoCommits(s, n) || (OnlyCommits(s, n, key) && (s.worker.Idle? || key != s.worker.id))
    ensures Snapshot(n)
  {
  }

  lemma ClaimSnapshots(s: Sys, id: Key, o: Outcome)
    requires Core(s) && Covered(s) && s.worker.Idle?
    ensures Snapshot(WorkerClaim(s, id, o))
  {
    var n := WorkerClaim(s, id, o);
    if n.worker.Claimed? {
      forall u | Needed(n, u) && n.last[u].key == id
        ensures u == n.worker.task.user && n.last[u].target == n.worker.task.target
      {
        assert Needed(s, u);
        assert Names(s.queue.visible, id, u, s.last[u].target);
      }
    }
  }

  lemma CheckSnapshots(s: Sys, c: Check)
    requires Core(s) && Snapshot(s) && s.worker.Claimed?
    ensures Snapshot(WorkerCheck(s, c).0)
  {
    var n := WorkerCheck(s, c).0;
    if n.worker.verdict.Retire? {
      assert forall u :: Needed(n, u) ==> Needed(s, u);
    }
  }

  lemma IdleSnapshot(s: Sys)
    requires s.worker.Idle?
    ensures Snapshot(s)
  {
  }

  lemma OthersKeepSnapshot(s: Sys, e: Step)
    requires Core(s) && Covered(s) && Snapshot(s) && Enabled(s, e) && !CommitsHeldTask(s, e) && s.now == e.now
    requires !e.op.ClaimTask? && !e.op.CheckTask? && !e.op.FinishTask?
    ensures Snapshot(Next(s, e))
  {
    hide Core, Covered, Snapshot, NoCommits, OnlyCommits, Rotate, AdminRotate, Delete, Create;
    var n := Next(s, e);
    match e.op
    case SelfRotate(r) =>
      RotateCommits(s, r);
      SnapshotUndisturbed(s, n, r.key);
    case Administer(r) =>
      AdminRotateCommits(s, r);
      NewKeyUnknown(s, r.key);
      SnapshotUndisturbed(s, n, r.key);
    case DeleteUser(r) =>
      DeleteCommits(s, r);
      NewKeyUnknown(s, r.key);
      SnapshotUndisturbed(s, n, r.key);
    case CreateUser(u, d, x, rest, o) =>
      CreateCommits(s, u, d, x, rest, o);
      SnapshotUndisturbed(s, n, 0);
    case BindSession(_, _, _, _) =>
      SameNeeds(s, n);
      SnapshotUndisturbed(s, n, 0);
    case PruneReceipts(_) =>
      SameNeeds(s, n);
      SnapshotUndisturbed(s, n, 0);
    case RequireServices(_, _, _) =>
      SameNeeds(s, n);
      SnapshotUndisturbed(s, n, 0);
    case Kick(k, ok, handled, o) =>
      AttemptCommits(s, k, ok, handled, o);
      NeedsTransfer(s, RecordAttempt(s, k, ok, handled, o), n, k);
      SnapshotUndisturbed(s, n, 0);
    case ProcessCrash => IdleSnapshot(n);
    case MachineCrash(_, _, _) => IdleSnapshot(n);
  }

  lemma DeleteCommits(s: Sys, r: DeleteRequest)
    requires Core(s) && r.key !in s.used
    ensures OnlyCommits(s, Delete(s, r).0, r.key) && Delete(s, r).0.worker == s.worker
  {
    hide Core;
    var users := s.users.visible;
    if r.user in users && users[r.user].Account? && users[r.user] == r.expected {
      var entry := users[r.user];
      FreshIsNew(s, r.user);
      NewKeyUnknown(s, r.key);
      Advanced(s, s.now, s.nextToken, s.used + {r.key}, s.nonces + {r.key});
      var s0 := s.(used := s.used + {r.key}, nonces := s.nonces + {r.key});
      TaskPrepared(s0, r.key, r.user, RevisionOf(entry), UserDeleted, BOTH, r.task);
      var (f, reply) := Q.PrepareFile(s.queue, r.key, r.user, RevisionOf(entry), UserDeleted, BOTH, s.now, r.task);
      if reply.Prepared? {
        RemoveCommits(s0.(queue := f), r.user, r.key, r.save);
      }
    }
  }

  lemma SnapshotKept(s: Sys, e: Step)
    requires Core(s) && Covered(s) && Snapshot(s) && Enabled(s, e) && !CommitsHeldTask(s, e)
    ensures Snapshot(Next(s, e))
    ensures !LosesTask(s, e)
  {
    var t := s.(now := e.now);
    RotationFacts(s);
    Advanced(s, e.now, s.nextToken, s.used, s.nonces);
    SameFilesCover(s, t);
    match e.op
    case ClaimTask(id, o) => ClaimSnapshots(t, id, o);
    case CheckTask(c) => CheckSnapshots(t, c);
    case FinishTask(_, _, _) => RetireIsSafe(s, e);
    case _ =>
      assert Next(t, e) == Next(s, e);
      OthersKeepSnapshot(t, e);
  }

  lemma RetireIsSafe(s: Sys, e: Step)
    requires Core(s) && Snapshot(s) && e.op.FinishTask? && s.worker.Decided?
    ensures !LosesTask(s, e) && Snapshot(Next(s, e))
  {
    assert forall u :: u in s.last && !s.last[u].done && ShowsEffect(s.users.visible, u, s.last[u].target)
                       ==> Needed(s, u);
  }

  ghost predicate NeverCommitsHeldTask(s: Sys, es: seq<Step>)
    decreases es
  {
    es != [] ==> !CommitsHeldTask(s, es[0]) && NeverCommitsHeldTask(Next(s, es[0]), es[1..])
  }

  lemma {:induction false} CoveredFrom(s: Sys, es: seq<Step>)
    requires Core(s) && Covered(s) && Snapshot(s) && Allowed(s, es) && NeverCommitsHeldTask(s, es)
    ensures AlwaysCovered(s, es) && Core(Run(s, es))
    decreases es
  {
    if es != [] {
      hide Core, Covered, Snapshot;
      CoreKept(s, es[0]);
      SnapshotKept(s, es[0]);
      CoverageIsExact(s, es[0]);
      CoveredFrom(Next(s, es[0]), es[1..]);
    }
  }

  /** Every run from an initial state in which no request commits the task the worker is
      holding keeps every visible change covered, through any crash. */
  lemma RunsAreCovered(s: Sys, es: seq<Step>)
    requires Initial(s) && Allowed(s, es) && NeverCommitsHeldTask(s, es)
    ensures AlwaysCovered(s, es)
  {
    InitialCore(s);
    CoveredFrom(s, es);
  }
}
