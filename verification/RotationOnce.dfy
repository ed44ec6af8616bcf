/** Self-service rotation happens at most once per request: from the first durable receipt
    on, one (user, request id) installs one credential and answers with that credential. */
module RotationOnce {
  import opened Credentials
  import opened DurableFile
  import opened CredentialProtocol
  import opened ProtocolInvariant
  import opened ProtocolSteps
  import opened RevocationCoverage
  import Q = RevocationQueue
  import R = RotationReceipts

  /** Every receipt file a crash may leave binds the key to this credential. */
  ghost predicate Pledged(f: File<R.Receipts>, key: Key, token: nat, expiresAt: nat) {
    && Coherent(f)
    && forall c: R.Receipts :: c in f.possible ==> key in c && c[key].token == token && c[key].expiresAt == expiresAt
  }

  /** The request replies with, and installs, no other credential. */
  ghost predicate Agrees(s: Sys, n: Sys, reply: RotationReply, token: nat) {
    && (reply.Ok? ==> reply.token == token)
    && (n.installs == s.installs || n.installs == s.installs + multiset{token})
  }

  // ------------------------------------------------------------------ one request

  /** A saved receipt is a pledge, before any credential is installed. */
  lemma ReadyIsPledged(f: File<R.Receipts>, key: Key, user: User, session: R.Session, previous: Gen, token: nat,
                       now: nat, o: Outcome)
    requires R.PrepareFile(f, key, user, session, previous, token, now, o).1.Ready?
    ensures var (g, reply) := R.PrepareFile(f, key, user, session, previous, token, now, o);
            && Pledged(g, key, reply.receipt.token, reply.receipt.expiresAt) && reply.receipt.expiresAt > now
            && g == Rebooted(g.visible) && g.visible[key] == reply.receipt && R.Live(g.visible, now) == g.visible
            && R.BoundTo(reply.receipt, session) && reply.receipt.user == user && reply.receipt.previous == previous
  {
  }

  lemma LookupKeepsPledge(f: File<R.Receipts>, other: Key, session: R.Session, now: nat, o: Outcome,
                          key: Key, t: nat, x: nat)
    requires Pledged(f, key, t, x) && now < x
    ensures Pledged(R.LookupFile(f, other, session, now, o).0, key, t, x)
  {
  }

  lemma PrepareKeepsPledge(f: File<R.Receipts>, other: Key, user: User, session: R.Session, previous: Gen, token: nat,
                           now: nat, o: Outcome, key: Key, t: nat, x: nat)
    requires Pledged(f, key, t, x) && now < x
    ensures var (g, reply) := R.PrepareFile(f, other, user, session, previous, token, now, o);
            && Pledged(g, key, t, x)
            && (other == key && reply.Ready? ==> reply.receipt.token == t && reply.receipt.expiresAt == x)
  {
    assert key in R.Live(f.visible, now);
  }

  lemma CommitAgrees(s: Sys, r: Rotation, receipt: R.Receipt, replayed: bool, key: Key, t: nat, x: nat)
    requires Pledged(s.receipts, key, t, x) && (r.key == key ==> receipt.token == t)
    ensures var (n, reply) := CommitOrReplay(s, r, receipt, replayed);
            && (r.key == key ==> Agrees(s, n, reply, t))
            && (Pledged(n.receipts, key, t, x) ||
                (r.key == key && key !in n.receipts.visible && n.installs == s.installs && !reply.Ok?))
  {
  }

  lemma WithReceiptAgrees(s: Sys, r: Rotation, previous: Gen, token: nat, replayed: bool, key: Key, t: nat, x: nat)
    requires Pledged(s.receipts, key, t, x) && s.now < x
    ensures var (n, reply) := WithReceipt(s, r, previous, token, replayed);
            && (r.key == key ==> Agrees(s, n, reply, t))
            && (Pledged(n.receipts, key, t, x) ||
                (r.key == key && key !in n.receipts.visible && n.installs == s.installs && !reply.Ok?))
  {
    hide CommitOrReplay, R.PrepareFile, Q.PrepareFile, Pledged;
    PrepareKeepsPledge(s.receipts, r.key, r.user, r.session, previous, token, s.now, r.receipt, key, t, x);
    var (f, reply) := R.PrepareFile(s.receipts, r.key, r.user, r.session, previous, token, s.now, r.receipt);
    if reply.Ready? {
      var receipt := reply.receipt;
      var (g, ready) := Q.PrepareFile(s.queue, r.key, r.user, receipt.previous, TokenGen(receipt.token),
                                      BOTH, s.now, r.task);
      if ready.Prepared? {
        CommitAgrees(s.(receipts := f, queue := g, used := s.used + {r.key}), r, receipt, replayed, key, t, x);
      }
    }
  }

  /** While a pledge lives, every request with its key installs and answers with the
      pledged credential only; the pledge ends, short of its expiry, only when such a
      request finds itself superseded and drops the receipt, without installing anything. */
  lemma RequestAgrees(s: Sys, r: Rotation, key: Key, t: nat, x: nat)
    requires Pledged(s.receipts, key, t, x) && s.now < x
    ensures var (n, reply) := Rotate(s, r);
            && (r.key == key ==> Agrees(s, n, reply, t))
            && (Pledged(n.receipts, key, t, x) ||
                (r.key == key && key !in n.receipts.visible && n.installs == s.installs && !reply.Ok?))
  {
    hide WithReceipt, R.LookupFile, Pledged;
    if r.validId {
      LookupKeepsPledge(s.receipts, r.key, r.session, s.now, r.lookup, key, t, x);
      var (f, found) := R.LookupFile(s.receipts, r.key, r.session, s.now, r.lookup);
      var s1 := s.(receipts := f);
      if !found.LookupFailed? && r.user in s.users.visible && s.users.visible[r.user].Account? {
        if found.Found? {
          WithReceiptAgrees(s1, r, found.receipt.previous, found.receipt.token, true, key, t, x);
        } else {
          WithReceiptAgrees(s1.(nextToken := s1.nextToken + 1), r, TokenGen(s.users.visible[r.user].cred),
                            s1.nextToken, false, key, t, x);
        }
      }
    }
  }

  // -------------------------------------------------------------------------- runs

  lemma PledgeKept(s: Sys, e: Step, key: Key, t: nat, x: nat)
    requires Pledged(s.receipts, key, t, x) && e.now < x && Enabled(s, e)
    ensures Pledged(Next(s, e).receipts, key, t, x) || key !in Next(s, e).receipts.visible
  {
    hide Rotate, AdminRotate, Delete, Create, WorkerCheck, WorkerClaim, WorkerFinish, HandlerKick, HandlerRequire;
    var t0 := s.(now := e.now);
    match e.op
    case SelfRotate(r) => RequestAgrees(t0, r, key, t, x);
    case BindSession(_, _, _, _) =>
    case PruneReceipts(_) =>
    case MachineCrash(_, _, _) =>
    case ProcessCrash =>
    case _ => OthersLeaveReceipts(t0, e.op);
  }

  lemma OthersLeaveReceipts(s: Sys, op: Op)
    requires op.Administer? || op.DeleteUser? || op.CreateUser? || op.RequireServices? || op.Kick? || op.ClaimTask?
             || op.CheckTask? || op.FinishTask?
    ensures Apply(s, op).receipts == s.receipts
  {
    hide Q.PrepareFile, Written, Q.CompleteFile, Q.DiscardFile, Q.ReleaseFile, MarkDone;
  }

  /** In this run every request with the key replies with, and installs, only `token`. */
  ghost predicate AllAgree(s: Sys, es: seq<Step>, key: Key, token: nat)
    decreases es
  {
    es != [] ==>
      && (es[0].op.SelfRotate? && es[0].op.rotation.key == key ==>
            var (n, reply) := Rotate(s.(now := es[0].now), es[0].op.rotation);
            Agrees(s, n, reply, token))
      && AllAgree(Next(s, es[0]), es[1..], key, token)
  }

  /** Before every step of the run the receipt file shows the key, which has not expired. */
  ghost predicate Listed(s: Sys, es: seq<Step>, key: Key, expiresAt: nat)
    decreases es
  {
    es != [] ==>
      key in s.receipts.visible && es[0].now < expiresAt && Listed(Next(s, es[0]), es[1..], key, expiresAt)
  }

  /** Over all interleavings, replays and crashes: from a durable receipt on, and while it
      lives, its request installs and answers with one and the same credential. */
  lemma {:induction false} OneCredentialPerReceipt(s: Sys, es: seq<Step>, key: Key, t: nat, x: nat)
    requires Pledged(s.receipts, key, t, x) && Allowed(s, es) && Listed(s, es, key, x)
    ensures AllAgree(s, es, key, t)
    decreases es
  {
    if es != [] {
      hide Pledged, Next, Enabled, Rotate;
      var e := es[0];
      PledgeKept(s, e, key, t, x);
      if e.op.SelfRotate? && e.op.rotation.key == key {
        RequestAgrees(s.(now := e.now), e.op.rotation, key, t, x);
      }
      if es[1..] != [] {
        OneCredentialPerReceipt(Next(s, e), es[1..], key, t, x);
      }
    }
  }

  // -------------------------------------------------- requests that installed or answered

  /** What a request that installed a credential or answered `ok` leaves behind: its
      receipt is the only possible one and names the session, its task is queued, and
      what it installed, if anything, is the receipt's credential. */
  ghost predicate Established(s: Sys, n: Sys, r: Rotation, reply: RotationReply) {
    && r.validId && r.session != 0 && n.now == s.now
    && r.key in n.receipts.visible && n.receipts == Rebooted(n.receipts.visible)
    && R.Live(n.receipts.visible, n.now) == n.receipts.visible
    && var rc := n.receipts.visible[r.key];
    && R.BoundTo(rc, r.session) && rc.user == r.user && rc.expiresAt > n.now
    && r.key in n.queue.visible && Q.Bound(n.queue.visible[r.key], r.user, rc.previous, TokenGen(rc.token))
    && Agrees(s, n, reply, rc.token)
    && (n.installs != s.installs ==> Changed(s, n, r, rc))
  }

  /** The save that installed the receipt's credential over the previous one. */
  ghost predicate Changed(s: Sys, n: Sys, r: Rotation, rc: R.Receipt) {
    && r.user in s.users.visible && s.users.visible[r.user].Account?
    && var entry := s.users.visible[r.user];
    && TokenGen(entry.cred) == rc.previous != TokenGen(rc.token) && SecretEqual(r.posted, entry.cred)
    && !r.save.NotReplaced?
    && n.users == Written(s.users, s.users.visible[r.user := entry.(cred := rc.token)], r.save)
  }

  lemma CommitEstablishes(s: Sys, r: Rotation, receipt: R.Receipt, replayed: bool)
    requires r.validId && r.session != 0 && r.user in s.users.visible && s.users.visible[r.user].Account?
    requires s.receipts == Rebooted(s.receipts.visible) && R.Live(s.receipts.visible, s.now) == s.receipts.visible
    requires r.key in s.receipts.visible && s.receipts.visible[r.key] == receipt
    requires R.BoundTo(receipt, r.session) && receipt.user == r.user && receipt.expiresAt > s.now
    requires r.key in s.queue.visible && Q.Bound(s.queue.visible[r.key], r.user, receipt.previous,
        TokenGen(receipt.token))
    ensures var (n, reply) := CommitOrReplay(s, r, receipt, replayed);
            n.installs != s.installs || reply.Ok? ==> Established(s, n, r, reply)
  {
    hide R.Live;
  }

  lemma WithReceiptEstablishes(s: Sys, r: Rotation, previous: Gen, token: nat, replayed: bool)
    requires r.validId && r.session != 0 && r.user in s.users.visible && s.users.visible[r.user].Account?
    ensures var (n, reply) := WithReceipt(s, r, previous, token, replayed);
            n.installs != s.installs || reply.Ok? ==> Established(s, n, r, reply)
  {
    hide CommitOrReplay, R.PrepareFile, R.Live, Pledged, Agrees, Changed;
    var (f, reply) := R.PrepareFile(s.receipts, r.key, r.user, r.session, previous, token, s.now, r.receipt);
    if reply.Ready? {
      ReadyIsPledged(s.receipts, r.key, r.user, r.session, previous, token, s.now, r.receipt);
      var receipt := reply.receipt;
      var (g, ready) := Q.PrepareFile(s.queue, r.key, r.user, receipt.previous, TokenGen(receipt.token),
                                      BOTH, s.now, r.task);
      if ready.Prepared? {
        var s1 := s.(receipts := f, queue := g, used := s.used + {r.key});
        CommitEstablishes(s1, r, receipt, replayed);
        SameBeginning(s, s1, r, replayed, receipt);
      }
    }
  }

  /** Receipts and queue play no part in what the save changed. */
  lemma SameBeginning(s: Sys, m: Sys, r: Rotation, replayed: bool, receipt: R.Receipt)
    requires m.users == s.users && m.installs == s.installs && m.now == s.now
    ensures var (n, reply) := CommitOrReplay(m, r, receipt, replayed); Established(m, n, r, reply) ==>
        Established(s, n, r, reply)
  {
    hide CommitOrReplay, R.Live;
  }

  lemma RotateEstablishes(s: Sys, r: Rotation)
    ensures var (n, reply) := Rotate(s, r);
            n.installs != s.installs || reply.Ok? ==> Established(s, n, r, reply)
  {
    hide WithReceipt, Agrees, Changed, R.Live;
    if r.validId {
      var (f, found) := R.LookupFile(s.receipts, r.key, r.session, s.now, r.lookup);
      var s1 := s.(receipts := f);
      if !found.LookupFailed? && r.user in s.users.visible && s.users.visible[r.user].Account? {
        var (n, reply) := Rotate(s, r);
        if found.Found? {
          WithReceiptEstablishes(s1, r, found.receipt.previous, found.receipt.token, true);
          BeginningMoved(s, s1, n, r, reply);
        } else if r.session != 0 {
          var s2 := s1.(nextToken := s1.nextToken + 1);
          WithReceiptEstablishes(s2, r, TokenGen(s.users.visible[r.user].cred), s1.nextToken, false);
          BeginningMoved(s, s2, n, r, reply);
        }
      }
    }
  }

  lemma BeginningMoved(s: Sys, m: Sys, n: Sys, r: Rotation, reply: RotationReply)
    requires m.users == s.users && m.installs == s.installs && m.now == s.now
    ensures Established(m, n, r, reply) ==> Established(s, n, r, reply)
  {
    hide R.Live;
  }

  /** Whether the request answered, failed or died after installing: from then on, while
      its receipt lives, only that credential is installed and answered for it. */
  lemma OneCredentialPerRequest(s: Sys, e: Step, es: seq<Step>)
    requires e.op.SelfRotate? && Allowed(Next(s, e), es)
    requires Next(s, e).installs != s.installs || Rotate(s.(now := e.now), e.op.rotation).1.Ok?
    ensures var n, key := Next(s, e), e.op.rotation.key;
            && key in n.receipts.visible
            && Agrees(s, n, Rotate(s.(now := e.now), e.op.rotation).1, n.receipts.visible[key].token)
            && (Listed(n, es, key, n.receipts.visible[key].expiresAt) ==>
                  AllAgree(n, es, key, n.receipts.visible[key].token))
  {
    hide Rotate;
    var t, n, key := s.(now := e.now), Next(s, e), e.op.rotation.key;
    RotateEstablishes(t, e.op.rotation);
    var rc := n.receipts.visible[key];
    assert Pledged(n.receipts, key, rc.token, rc.expiresAt);
    if Listed(n, es, key, rc.expiresAt) {
      OneCredentialPerReceipt(n, es, key, rc.token, rc.expiresAt);
    }
  }

  /** An `ok` reply, and an installed credential whatever the reply, is backed by a receipt
      that is in every possible receipt file and names the requesting session. */
  lemma ReplyIsBacked(s: Sys, r: Rotation)
    requires Rotate(s, r).1.Ok? || Rotate(s, r).0.installs != s.installs
    ensures var (n, reply) := Rotate(s, r);
            && r.key in n.receipts.visible && n.receipts.possible == {n.receipts.visible}
            && R.BoundTo(n.receipts.visible[r.key], r.session) && n.receipts.visible[r.key].user == r.user
            && (reply.Ok? ==> reply.token == n.receipts.visible[r.key].token)
  {
    hide Rotate;
    RotateEstablishes(s, r);
  }
}
