/** How often a request's credential becomes visible: never again after a durable save,
    and again after a crash that undoes an unsynced one. */
module RotationReinstalls {
  import opened Credentials
  import opened DurableFile
  import opened CredentialProtocol
  import opened ProtocolInvariant
  import opened ProtocolSteps
  import opened RevocationCoverage
  import opened RotationOnce
  import opened UsersHistory
  import Q = RevocationQueue
  import R = RotationReceipts

  /** Between two machine crashes no credential becomes visible twice. */
  lemma InstalledAtMostOnce(s: Sys, es: seq<Step>, token: nat)
    requires Initial(s) && Allowed(s, es)
    ensures Run(s, es).installs[token] <= 1
  {
    InitialCore(s);
    CoreInRuns(s, es);
  }

  /** The step makes the credential visible in users.json. */
  ghost predicate Installs(s: Sys, e: Step, token: nat) {
    !e.op.MachineCrash? && Next(s, e).installs[token] > s.installs[token]
  }

  ghost predicate SomeInstalls(s: Sys, es: seq<Step>, token: nat)
    decreases es
  {
    es != [] && (Installs(s, es[0], token) || SomeInstalls(Next(s, es[0]), es[1..], token))
  }

  // ---------------------------------------------------------------- after a durable save

  /** The credential is promised to this user only. */
  ghost predicate PromisedOnly(f: File<R.Receipts>, user: User, token: nat) {
    Coherent(f) && forall c: R.Receipts, k :: c in f.possible && k in c && c[k].token == token ==> c[k].user == user
  }

  lemma LookupKeepsPromise(f: File<R.Receipts>, key: Key, session: R.Session, now: nat, o: Outcome, user: User, t: nat)
    requires PromisedOnly(f, user, t)
    ensures PromisedOnly(R.LookupFile(f, key, session, now, o).0, user, t)
    ensures R.LookupFile(f, key, session, now, o).1.Found? ==>
        key in R.Live(R.LookupFile(f, key, session, now, o).0.visible, now)
  {
  }

  lemma PrepareKeepsPromise(f: File<R.Receipts>, key: Key, who: User, session: R.Session, previous: Gen, token: nat,
                            now: nat, o: Outcome, user: User, t: nat)
    requires PromisedOnly(f, user, t) && (token != t || key in R.Live(f.visible, now))
    ensures PromisedOnly(R.PrepareFile(f, key, who, session, previous, token, now, o).0, user, t)
  {
  }

  lemma WithReceiptKeepsPromise(s: Sys, r: Rotation, previous: Gen, token: nat, replayed: bool, user: User, t: nat)
    requires PromisedOnly(s.receipts, user, t) && (token != t || r.key in R.Live(s.receipts.visible, s.now))
    ensures PromisedOnly(WithReceipt(s, r, previous, token, replayed).0.receipts, user, t)
  {
    hide PromisedOnly, R.PrepareFile, Q.PrepareFile;
    PrepareKeepsPromise(s.receipts, r.key, r.user, r.session, previous, token, s.now, r.receipt, user, t);
    var (f, reply) := R.PrepareFile(s.receipts, r.key, r.user, r.session, previous, token, s.now, r.receipt);
    DropKeepsPromise(f, r.key, r.dropReceipt, user, t);
  }

  lemma DropKeepsPromise(f: File<R.Receipts>, key: Key, o: Outcome, user: User, t: nat)
    requires PromisedOnly(f, user, t)
    ensures PromisedOnly(R.DiscardFile(f, key, o), user, t)
  {
  }

  lemma RotateKeepsPromise(s: Sys, r: Rotation, user: User, t: nat)
    requires PromisedOnly(s.receipts, user, t) && t < s.nextToken
    ensures PromisedOnly(Rotate(s, r).0.receipts, user, t)
  {
    hide PromisedOnly, WithReceipt, R.LookupFile;
    if r.validId {
      LookupKeepsPromise(s.receipts, r.key, r.session, s.now, r.lookup, user, t);
      var (f, found) := R.LookupFile(s.receipts, r.key, r.session, s.now, r.lookup);
      var s1 := s.(receipts := f);
      if !found.LookupFailed? && r.user in s.users.visible && s.users.visible[r.user].Account? {
        if found.Found? {
          WithReceiptKeepsPromise(s1, r, found.receipt.previous, found.receipt.token, true, user, t);
        } else {
          WithReceiptKeepsPromise(s1.(nextToken := s1.nextToken + 1), r, TokenGen(s.users.visible[r.user].cred),
                                  s1.nextToken, false, user, t);
        }
      }
    }
  }

  lemma PromiseKept(s: Sys, e: Step, user: User, t: nat)
    requires Enabled(s, e) && PromisedOnly(s.receipts, user, t) && t < s.nextToken
    ensures PromisedOnly(Next(s, e).receipts, user, t)
  {
    hide Rotate, AdminRotate, Delete, Create, WorkerCheck, WorkerClaim, WorkerFinish, HandlerKick, HandlerRequire;
    var t0 := s.(now := e.now);
    match e.op
    case SelfRotate(r) => RotateKeepsPromise(t0, r, user, t);
    case BindSession(_, _, _, _) =>
    case PruneReceipts(_) =>
    case MachineCrash(_, _, _) =>
    case ProcessCrash =>
    case _ => OthersLeaveReceipts(t0, e.op);
  }

  lemma ChangeIsNew(s: Sys, n: Sys, r: Rotation, reply: RotationReply, user: User, t: nat)
    requires Established(s, n, r, reply) && n.installs != s.installs && Coherent(s.users) && Beyond(s.users, user, t)
    requires PromisedOnly(n.receipts, user, t)
    requires var rc := n.receipts.visible[r.key]; rc.previous.CredGen? && rc.previous.token < rc.token
    ensures n.installs[t] <= s.installs[t]
  {
    hide R.Live;
    var rc := n.receipts.visible[r.key];
    assert n.installs == s.installs + multiset{rc.token};
    assert rc.token == t ==> r.user == user;
  }

  /** A rotation cannot install t over a credential that is already t or later. */
  lemma RotationSparesPast(s: Sys, r: Rotation, user: User, t: nat)
    requires Core(s) && r.key !in s.nonces && Beyond(s.users, user, t)
    requires PromisedOnly(s.receipts, user, t) && 0 < t < s.nextToken
    ensures Rotate(s, r).0.installs[t] <= s.installs[t]
  {
    var (n, reply) := Rotate(s, r);
    hide Rotate, R.Live, Beyond, PromisedOnly;
    UsersCoherent(s);
    RotateKeeps(s, r);
    hide Core;
    RotateEstablishes(s, r);
    RotateKeepsPromise(s, r, user, t);
    if n.installs != s.installs {
      ReceiptOrdered(n, r.key);
      ChangeIsNew(s, n, r, reply, user, t);
    }
  }

  lemma ReceiptOrdered(s: Sys, key: Key)
    requires Core(s) && key in s.receipts.visible
    ensures var rc := s.receipts.visible[key]; rc.previous.CredGen? && rc.previous.token < rc.token
  {
    assert ReceiptsCore(s, s.receipts.visible);
  }

  lemma OthersInstallFresh(s: Sys, op: Op, t: nat)
    requires t < s.nextToken && !op.SelfRotate? && !op.MachineCrash?
    ensures Apply(s, op).installs[t] <= s.installs[t] && s.nextToken <= Apply(s, op).nextToken
  {
    hide Q.PrepareFile, Written, Q.CompleteFile, Q.DiscardFile, Q.ReleaseFile, MarkDone;
  }

  lemma StepSparesPast(s: Sys, e: Step, user: User, t: nat)
    requires Core(s) && Enabled(s, e) && Beyond(s.users, user, t)
    requires PromisedOnly(s.receipts, user, t) && 0 < t < s.nextToken
    ensures !Installs(s, e, t) && t < Next(s, e).nextToken
  {
    RotationFacts(s);
    Advanced(s, e.now, s.nextToken, s.used, s.nonces);
    hide Core, Rotate, AdminRotate, Delete, Create, WorkerCheck, Beyond, PromisedOnly;
    var t0 := s.(now := e.now);
    if e.op.SelfRotate? {
      RotationSparesPast(t0, e.op.rotation, user, t);
      RotateFrame(t0, e.op.rotation);
    } else if !e.op.MachineCrash? {
      OthersInstallFresh(t0, e.op, t);
    }
  }

  /** While every possible content of users.json has lost the user or moved it to t or
      later, as after a durable save, no run of requests, replays and crashes makes t
      visible again. */
  lemma {:induction false} NeverInstalledAgain(s: Sys, es: seq<Step>, user: User, t: nat)
    requires Core(s) && Allowed(s, es) && Beyond(s.users, user, t)
    requires PromisedOnly(s.receipts, user, t) && 0 < t < s.nextToken
    ensures !SomeInstalls(s, es, t)
    decreases es
  {
    if es != [] {
      hide Core, Beyond, PromisedOnly, Next, Enabled, Installs;
      var e := es[0];
      StepSparesPast(s, e, user, t);
      CoreKept(s, e);
      BeyondKept(s, e, user, t);
      PromiseKept(s, e, user, t);
      NeverInstalledAgain(Next(s, e), es[1..], user, t);
    }
  }

  // --------------------------------------------------------------- after an unsynced save

  /** The request once more, with every save durable. */
  function Replay(r: Rotation): Rotation {
    r.(lookup := Durable, receipt := Durable, task := Durable, save := Durable)
  }

  /** After a crash back to the content before the save, the replay installs again. */
  lemma ReplayInstalls(m: Sys, r: Rotation, rc: R.Receipt)
    requires r.validId && r.session != 0
    requires m.receipts == Rebooted(m.receipts.visible) && R.Live(m.receipts.visible, m.now) == m.receipts.visible
    requires r.key in m.receipts.visible && m.receipts.visible[r.key] == rc
    requires R.BoundTo(rc, r.session) && rc.user == r.user
    requires r.key in m.queue.visible && Q.Bound(m.queue.visible[r.key], r.user, rc.previous, TokenGen(rc.token))
    requires r.user in m.users.visible && m.users.visible[r.user].Account?
    requires TokenGen(m.users.visible[r.user].cred) == rc.previous != TokenGen(rc.token)
    requires SecretEqual(r.posted, m.users.visible[r.user].cred)
    ensures Rotate(m, Replay(r)).0.installs == m.installs + multiset{rc.token}
  {
    hide R.Live;
    var q := Replay(r);
    var (f, found) := R.LookupFile(m.receipts, q.key, q.session, m.now, Durable);
    assert f == m.receipts && found == R.Found(rc);
    var (g, reply) := R.PrepareFile(m.receipts, q.key, q.user, q.session, rc.previous, rc.token, m.now, Durable);
    assert g == m.receipts && reply == R.Ready(rc);
    var (h, ready) := Q.PrepareFile(m.queue, q.key, q.user, rc.previous, TokenGen(rc.token), BOTH, m.now, Durable);
    assert ready.Prepared?;
    var m1 := m.(queue := h, used := m.used + {q.key});
    assert Rotate(m, q) == CommitOrReplay(m1, q, rc, true);
  }

  /** The crash that undoes the save, and the replay. */
  function Undoing(s: Sys, e: Step): seq<Step>
    requires e.op.SelfRotate?
  {
    [Step(MachineCrash(s.users.visible, Next(s, e).queue.visible, Next(s, e).receipts.visible), e.now),
     Step(SelfRotate(Replay(e.op.rotation)), e.now)]
  }

  /** The state after that crash. */
  function Undone(s: Sys, e: Step): Sys
    requires e.op.SelfRotate?
  {
    Killed(Next(s, e)).(users := Rebooted(s.users.visible), queue := Rebooted(Next(s, e).queue.visible),
                        receipts := Rebooted(Next(s, e).receipts.visible), installs := multiset{}, now := e.now)
  }

  lemma CrashUndoes(s: Sys, e: Step)
    requires Core(s) && Enabled(s, e) && e.op.SelfRotate? && e.op.rotation.save.Unsynced?
    requires Next(s, e).installs != s.installs
    ensures Enabled(Next(s, e), Undoing(s, e)[0]) && Next(Next(s, e), Undoing(s, e)[0]) == Undone(s, e)
    ensures e.op.rotation.key !in Undone(s, e).nonces && Undone(s, e).now == e.now
    ensures Established(s.(now := e.now), Next(s, e), e.op.rotation, Rotate(s.(now := e.now), e.op.rotation).1)
  {
    var t0, n, r := s.(now := e.now), Next(s, e), e.op.rotation;
    CoreKept(s, e);
    UsersCoherent(s);
    CoherentFiles(n);
    RotateEstablishes(t0, r);
    RotateFrame(t0, r);
    hide Core, Rotate, R.Live, Established;
    OldContentPossible(t0, n, r, Rotate(t0, r).1);
    CrashTo(n, e.now, s.users.visible);
  }

  lemma OldContentPossible(s: Sys, n: Sys, r: Rotation, reply: RotationReply)
    requires Established(s, n, r, reply) && n.installs != s.installs && r.save.Unsynced? && Coherent(s.users)
    ensures s.users.visible in n.users.possible && n.now == s.now
  {
    hide R.Live;
  }

  lemma CrashTo(n: Sys, now: nat, users: Users)
    requires users in n.users.possible && Coherent(n.queue) && Coherent(n.receipts) && n.now <= now
    ensures var e := Step(MachineCrash(users, n.queue.visible, n.receipts.visible), now);
            && Enabled(n, e)
            && Next(n, e) == Killed(n).(users := Rebooted(users), queue := Rebooted(n.queue.visible),
                                        receipts := Rebooted(n.receipts.visible), installs := multiset{}, now := now)
  {
  }

  lemma CoherentFiles(s: Sys)
    requires Core(s)
    ensures Coherent(s.queue) && Coherent(s.receipts)
  {
  }

  lemma UndoneSaveReinstalls(s: Sys, e: Step)
    requires Core(s) && Enabled(s, e) && e.op.SelfRotate? && e.op.rotation.save.Unsynced?
    requires Next(s, e).installs != s.installs
    ensures var n := Next(s, e);
            && e.op.rotation.key in n.receipts.visible
            && Allowed(n, Undoing(s, e))
            && SomeInstalls(n, Undoing(s, e), n.receipts.visible[e.op.rotation.key].token)
  {
    CrashUndoes(s, e);
    hide Core, Rotate, R.Live, Enabled;
    var n, m, r, es := Next(s, e), Undone(s, e), e.op.rotation, Undoing(s, e);
    var rc := n.receipts.visible[r.key];
    ReplayInstalls(m, r, rc);
    assert m.(now := e.now) == m;
    assert Enabled(m, es[1]) by {
      EnabledReplay(m, r);
    }
    assert Installs(m, es[1], rc.token);
    RunsOf(n, es[0], es[1], rc.token);
  }

  lemma EnabledReplay(m: Sys, r: Rotation)
    requires r.key !in m.nonces
    ensures Enabled(m, Step(SelfRotate(Replay(r)), m.now))
  {
  }

  lemma RunsOf(n: Sys, first: Step, second: Step, t: nat)
    requires Enabled(n, first) && Enabled(Next(n, first), second) && Installs(Next(n, first), second, t)
    ensures Allowed(n, [first, second]) && SomeInstalls(n, [first, second], t)
  {
    hide Next, Enabled, Installs;
    var es := [first, second];
    assert es[1..] == [second] && es[1..][1..] == [];
    assert Allowed(Next(n, first), es[1..]);
    assert SomeInstalls(Next(n, first), es[1..], t);
  }

  /** After the save that made its credential visible, some run makes it visible again if
      and only if that save was not durable, which the request learns from the save. */
  lemma ReinstalledExactly(s: Sys, e: Step)
    requires Core(s) && Enabled(s, e) && e.op.SelfRotate? && Next(s, e).installs != s.installs
    ensures var n, key := Next(s, e), e.op.rotation.key;
            && key in n.receipts.visible
            && ((exists es :: Allowed(n, es) && SomeInstalls(n, es, n.receipts.visible[key].token))
                <==> e.op.rotation.save.Unsynced?)
  {
    var t0, n, r := s.(now := e.now), Next(s, e), e.op.rotation;
    RotateEstablishes(t0, r);
    CoreKept(s, e);
    if r.save.Unsynced? {
      UndoneSaveReinstalls(s, e);
    } else {
      ReceiptFacts(n, r.key);
      hide Core, Rotate, R.Live, Allowed, SomeInstalls;
      var rc := n.receipts.visible[r.key];
      assert r.save.Durable? && Beyond(n.users, r.user, rc.token);
      assert PromisedOnly(n.receipts, r.user, rc.token);
      forall es | Allowed(n, es) ensures !SomeInstalls(n, es, rc.token) {
        NeverInstalledAgain(n, es, r.user, rc.token);
      }
    }
  }

  lemma ReceiptFacts(s: Sys, key: Key)
    requires Core(s) && key in s.receipts.visible
    ensures var rc := s.receipts.visible[key];
            && 0 < rc.token < s.nextToken
            && forall k :: k in s.receipts.visible && s.receipts.visible[k].token == rc.token ==> k == key
  {
    assert ReceiptsCore(s, s.receipts.visible);
  }
}
