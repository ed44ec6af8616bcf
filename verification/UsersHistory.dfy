/** What users.json may become: every content a crash may leave is an earlier one, or
    moves one account to a newer credential, so no account ever comes back. */
module UsersHistory {
  import opened Credentials
  import opened DurableFile
  import opened CredentialProtocol
  import opened ProtocolInvariant
  import opened ProtocolSteps
  import opened RevocationCoverage
  import Q = RevocationQueue
  import R = RotationReceipts

  /** One account is removed, created with a fresh credential, or moved to a newer one. */
  ghost predicate Follows(a: Users, b: Users, user: User, next: nat) {
    && (forall v :: v != user ==> (v in b <==> v in a) && (v in b ==> b[v] == a[v]))
    && (user in b ==>
          b[user].Account? &&
          if user in a then a[user].Account? && b[user].cred > a[user].cred else b[user].cred >= next)
  }

  ghost predicate Reached(s: Sys, c: Users) {
    c in s.users.possible || exists u :: Follows(s.users.visible, c, u, s.nextToken)
  }

  ghost predicate Evolves(s: Sys, n: Sys) {
    s.nextToken <= n.nextToken && forall c :: c in n.users.possible ==> Reached(s, c)
  }

  lemma RewriteEvolves(s: Sys, o: Outcome)
    requires Coherent(s.users)
    ensures Evolves(s, Rewrite(s, o))
  {
  }

  lemma InstallEvolves(s: Sys, user: User, token: nat, key: Key, o: Outcome)
    requires user in s.users.visible && s.users.visible[user].Account? ==> s.users.visible[user].cred < token
    ensures Evolves(s, Install(s, user, token, key, o))
  {
    var n := Install(s, user, token, key, o);
    if n != s {
      var content := s.users.visible[user := s.users.visible[user].(cred := token)];
      assert Follows(s.users.visible, content, user, s.nextToken);
      forall c | c in n.users.possible ensures Reached(s, c) {
        assert c == content || c in s.users.possible;
      }
    }
  }

  lemma RemoveEvolves(s: Sys, user: User, key: Key, o: Outcome)
    requires Coherent(s.users)
    ensures Evolves(s, Remove(s, user, key, o))
  {
    var n := Remove(s, user, key, o);
    assert Follows(s.users.visible, s.users.visible - {user}, user, s.nextToken);
    forall c | c in n.users.possible ensures Reached(s, c) {
      assert c == s.users.visible - {user} || c in s.users.possible;
    }
  }

  lemma CreateEvolves(s: Sys, user: User, disabled: bool, expiresOn: nat, rest: nat, o: Outcome)
    requires Coherent(s.users)
    ensures Evolves(s, Create(s, user, disabled, expiresOn, rest, o))
  {
    var n := Create(s, user, disabled, expiresOn, rest, o);
    var content := s.users.visible[user := Account(s.nextToken, disabled, expiresOn, rest)];
    assert user !in s.users.visible ==> Follows(s.users.visible, content, user, s.nextToken);
    forall c | c in n.users.possible ensures Reached(s, c) {
      assert c == content || c in s.users.possible;
    }
  }

  /** Only users.json and the supply of credentials matter. */
  lemma SameEvolution(s: Sys, m: Sys, n: Sys, k: Sys)
    requires Evolves(m, n) && m.users == s.users && n.users == k.users
    requires s.nextToken <= m.nextToken && n.nextToken <= k.nextToken
    ensures Evolves(s, k)
  {
    forall c | c in k.users.possible ensures Reached(s, c) {
      assert Reached(m, c);
      if c !in m.users.possible {
        var u :| Follows(m.users.visible, c, u, m.nextToken);
        assert Follows(s.users.visible, c, u, s.nextToken);
      }
    }
  }

  lemma Unchanged(s: Sys, n: Sys)
    requires n.users == s.users && s.nextToken <= n.nextToken
    ensures Evolves(s, n)
  {
  }

  // ------------------------------------------------------------------- the rotation

  /** The save of users.json inside a self-service rotation. */
  function Saved(s: Sys, r: Rotation, receipt: R.Receipt): Sys {
    var current := CredOf(s.users.visible, r.user);
    if TokenGen(current) == TokenGen(receipt.token) then Rewrite(s, r.save)
    else if TokenGen(current) == receipt.previous && SecretEqual(r.posted, current) then
      Install(s, r.user, receipt.token, r.key, r.save)
    else s
  }

  lemma CommitEvolves(s: Sys, r: Rotation, receipt: R.Receipt, replayed: bool)
    requires Core(s) && Promised(s, r, receipt)
    ensures Evolves(s, CommitOrReplay(s, r, receipt, replayed).0)
  {
    assert ReceiptsCore(s, s.receipts.visible);
    UsersCoherent(s);
    var m, n := Saved(s, r, receipt), CommitOrReplay(s, r, receipt, replayed).0;
    hide Core, Evolves, ReceiptsCore;
    var current := CredOf(s.users.visible, r.user);
    if TokenGen(current) == TokenGen(receipt.token) {
      RewriteEvolves(s, r.save);
    } else if TokenGen(current) == receipt.previous && SecretEqual(r.posted, current) {
      InstallEvolves(s, r.user, receipt.token, r.key, r.save);
    } else {
      Unchanged(s, s);
    }
    assert m.users == n.users && m.nextToken == n.nextToken;
    SameEvolution(s, s, m, n);
  }

  lemma WithReceiptEvolves(s: Sys, r: Rotation, previous: Gen, token: nat, replayed: bool)
    requires Core(s) && r.key !in s.nonces
    requires r.user in s.users.visible && s.users.visible[r.user].Account?
    requires r.key in R.Live(s.receipts.visible, s.now) ||
             (previous.CredGen? && previous.token < token && 0 < token < s.nextToken && token !in s.installs
              && forall k :: k in s.receipts.visible ==> s.receipts.visible[k].token != token)
    ensures Evolves(s, WithReceipt(s, r, previous, token, replayed).0)
  {
    hide Core, CommitOrReplay, Evolves;
    ReceiptPrepared(s, r.key, r.user, r.session, previous, token, r.receipt);
    var (f, reply) := R.PrepareFile(s.receipts, r.key, r.user, r.session, previous, token, s.now, r.receipt);
    var s1 := s.(receipts := f);
    var n := WithReceipt(s, r, previous, token, replayed).0;
    Unchanged(s, s1);
    if reply.Ready? {
      var receipt := reply.receipt;
      PromiseFits(s1, r, receipt);
      var s2 := s1.(used := s1.used + {r.key});
      TaskPrepared(s2, r.key, r.user, receipt.previous, TokenGen(receipt.token), BOTH, r.task);
      var (g, ready) := Q.PrepareFile(s.queue, r.key, r.user, receipt.previous, TokenGen(receipt.token),
                                      BOTH, s.now, r.task);
      var s3 := s2.(queue := g);
      Unchanged(s, s3);
      if ready.Prepared? {
        CommitEvolves(s3, r, receipt, replayed);
        SameEvolution(s, s3, n, n);
      }
    }
  }

  lemma RotateEvolves(s: Sys, r: Rotation)
    requires Core(s) && r.key !in s.nonces
    ensures Evolves(s, Rotate(s, r).0)
  {
    hide Core, WithReceipt, Evolves, R.LookupFile;
    Unchanged(s, s);
    if r.validId {
      var (f, found) := R.LookupFile(s.receipts, r.key, r.session, s.now, r.lookup);
      var s1 := s.(receipts := f);
      LookupCommits(s, r);
      Unchanged(s, s1);
      if !found.LookupFailed? && r.user in s.users.visible && s.users.visible[r.user].Account? {
        if found.Found? {
          WithReceiptEvolves(s1, r, found.receipt.previous, found.receipt.token, true);
          SameEvolution(s, s1, Rotate(s, r).0, Rotate(s, r).0);
        } else {
          var entry := s.users.visible[r.user];
          if r.session != 0 && r.sessionAllows && SecretEqual(r.posted, entry.cred)
             && !entry.disabled && !IsExpired(entry, r.today) {
            RotationNotRelied(s1, r.key);
            Advanced(s1, s1.now, s1.nextToken + 1, s1.used, s1.nonces);
            var s2 := s1.(nextToken := s1.nextToken + 1);
            FreshIsNew(s1, r.user);
            WithReceiptEvolves(s2, r, TokenGen(entry.cred), s1.nextToken, false);
            SameEvolution(s, s2, Rotate(s, r).0, Rotate(s, r).0);
          }
        }
      }
    }
  }

  lemma AdminEvolves(s: Sys, r: AdminRotation)
    requires Core(s)
    ensures Evolves(s, AdminRotate(s, r).0)
  {
    var n := AdminRotate(s, r).0;
    if r.user in s.users.visible && s.users.visible[r.user].Account? {
      FreshIsNew(s, r.user);
    }
    hide Core, Evolves, Q.PrepareFile;
    Unchanged(s, s);
    InstallEvolves(s, r.user, s.nextToken, r.key, r.save);
    if n.users == s.users {
      Unchanged(s, n);
    } else {
      SameEvolution(s, s, Install(s, r.user, s.nextToken, r.key, r.save), n);
    }
  }

  lemma DeleteEvolves(s: Sys, r: DeleteRequest)
    requires Coherent(s.users)
    ensures Evolves(s, Delete(s, r).0)
  {
    hide Evolves, Q.PrepareFile;
    var n := Delete(s, r).0;
    RemoveEvolves(s, r.user, r.key, r.save);
    if n.users == s.users {
      Unchanged(s, n);
    } else {
      SameEvolution(s, s, Remove(s, r.user, r.key, r.save), n);
    }
  }

  lemma CheckEvolves(s: Sys, c: Check)
    requires Coherent(s.users)
    ensures Evolves(s, WorkerCheck(s, c).0)
  {
    hide Evolves;
    var n := WorkerCheck(s, c).0;
    if s.worker.Claimed? {
      RemoveEvolves(s, s.worker.task.user, s.worker.id, c.save);
      if n.users == s.users {
        Unchanged(s, n);
      } else {
        SameEvolution(s, s, Remove(s, s.worker.task.user, s.worker.id, c.save), n);
      }
    } else {
      Unchanged(s, n);
    }
  }

  lemma OthersLeaveUsers(s: Sys, op: Op)
    requires op.BindSession? || op.PruneReceipts? || op.RequireServices? || op.Kick? || op.ClaimTask?
             || op.FinishTask? || op.ProcessCrash?
    ensures Apply(s, op).users == s.users && Apply(s, op).nextToken == s.nextToken
  {
  }

  lemma StepEvolves(s: Sys, e: Step)
    requires Core(s) && Enabled(s, e)
    ensures Evolves(s, Next(s, e))
  {
    RotationFacts(s);
    Advanced(s, e.now, s.nextToken, s.used, s.nonces);
    UsersCoherent(s);
    hide Core, Evolves, Rotate, AdminRotate, Delete, Create, WorkerCheck;
    var t := s.(now := e.now);
    var n := Next(s, e);
    match e.op
    case SelfRotate(r) => RotateEvolves(t, r); SameEvolution(s, t, n, n);
    case Administer(r) => AdminEvolves(t, r); SameEvolution(s, t, n, n);
    case DeleteUser(r) => DeleteEvolves(t, r); SameEvolution(s, t, n, n);
    case CreateUser(u, d, x, rest, o) => CreateEvolves(t, u, d, x, rest, o); SameEvolution(s, t, n, n);
    case CheckTask(c) => CheckEvolves(t, c); SameEvolution(s, t, n, n);
    case MachineCrash(_, _, _) => CrashEvolves(s, e);
    case _ =>
      OthersLeaveUsers(t, e.op);
      Unchanged(s, n);
  }

  lemma CrashEvolves(s: Sys, e: Step)
    requires Enabled(s, e) && e.op.MachineCrash?
    ensures Evolves(s, Next(s, e))
  {
  }

  // ---------------------------------------------------------------- never back again

  /** Every content a crash may leave has lost the user, or moved it to credential t or a
      later one. */
  ghost predicate Beyond(f: File<Users>, user: User, t: nat) {
    forall c: Users :: c in f.possible && user in c ==> c[user].Account? && c[user].cred >= t
  }

  lemma BeyondKept(s: Sys, e: Step, user: User, t: nat)
    requires Core(s) && Enabled(s, e) && Beyond(s.users, user, t) && t <= s.nextToken
    ensures Beyond(Next(s, e).users, user, t) && t <= Next(s, e).nextToken
  {
    StepEvolves(s, e);
    UsersCoherent(s);
    hide Core, Next, Enabled;
    var n := Next(s, e);
    forall c: Users | c in n.users.possible && user in c ensures c[user].Account? && c[user].cred >= t {
      assert Reached(s, c);
    }
  }

  /** Over every run, crashes and replays included. */
  lemma {:induction false} StaysBeyond(s: Sys, es: seq<Step>, user: User, t: nat)
    requires Core(s) && Allowed(s, es) && Beyond(s.users, user, t) && t <= s.nextToken
    ensures Beyond(Run(s, es).users, user, t)
    decreases es
  {
    if es != [] {
      hide Core, Beyond, Next, Enabled;
      CoreKept(s, es[0]);
      BeyondKept(s, es[0], user, t);
      StaysBeyond(Next(s, es[0]), es[1..], user, t);
    }
  }
}
