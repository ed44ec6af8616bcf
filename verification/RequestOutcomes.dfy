/** What a caller learns from the reply of a credential request, and when it gets it. */
module RequestOutcomes {
  import opened Credentials
  import opened DurableFile
  import opened CredentialProtocol
  import opened ProtocolInvariant
  import opened ProtocolSteps
  import opened RevocationCoverage
  import opened UsersHistory
  import Q = RevocationQueue
  import R = RotationReceipts

  /** users.json shows the credential. */
  predicate Shown(users: Users, user: User, token: nat) {
    user in users && users[user].Account? && users[user].cred == token
  }

  /** Every content a crash may leave shows it. */
  ghost predicate ShownEverywhere(f: File<Users>, user: User, token: nat) {
    forall c: Users :: c in f.possible ==> Shown(c, user, token)
  }

  // ----------------------------------------------------------- self-service rotation

  /** The receipt that the first lookup of a request finds. */
  predicate Held(s: Sys, r: Rotation) {
    && r.session != 0 && r.key in s.receipts.visible && s.receipts.visible[r.key].expiresAt > s.now
    && r.session in s.receipts.visible[r.key].sessions
  }

  /** The lookup does not have to drop expired receipts, or saves the rest. */
  predicate LookupSaved(s: Sys, r: Rotation) {
    || r.session == 0 || r.lookup.Durable?
    || forall k :: k in s.receipts.visible ==> s.receipts.visible[k].expiresAt > s.now
  }

  lemma LookupMeans(s: Sys, r: Rotation)
    ensures var (f, found) := R.LookupFile(s.receipts, r.key, r.session, s.now, r.lookup);
            && (found.LookupFailed? <==> !LookupSaved(s, r))
            && (found.Found? <==> LookupSaved(s, r) && Held(s, r))
            && (found.Found? ==> found.receipt == s.receipts.visible[r.key] && r.key in R.Live(f.visible, s.now)
                                 && R.Live(f.visible, s.now)[r.key] == found.receipt)
            && (LookupSaved(s, r) ==> R.Live(f.visible, s.now) == R.Live(s.receipts.visible, s.now))
  {
    var live := R.Live(s.receipts.visible, s.now);
    assert live == s.receipts.visible <==>
      forall k :: k in s.receipts.visible ==> s.receipts.visible[k].expiresAt > s.now;
    assert R.Live(live, s.now) == live;
  }

  lemma CommitReplyMeans(s: Sys, r: Rotation, receipt: R.Receipt, replayed: bool)
    requires r.user in s.users.visible && s.users.visible[r.user].Account? && receipt.token > 0
    ensures var (n, reply) := CommitOrReplay(s, r, receipt, replayed);
            reply.Ok? ==>
              && reply.token == receipt.token && Shown(n.users.visible, r.user, reply.token)
              && (!reply.durabilityUncertain ==> ShownEverywhere(n.users, r.user, reply.token))
              && (reply.durabilityUncertain <==> r.save.Unsynced?)
              && (reply.syncPending <==> r.save.Unsynced? || r.sync.Critical?) && reply.replayed == replayed
              && (r.save.Unsynced? ==> r.readable) && !r.save.NotReplaced?
  {
  }

  /** What becomes of a request whose two records are durable: committed when users.json
      shows its credential, or the previous one and the request posts it, and the save goes
      through; superseded otherwise, and told so once both records are gone. */
  lemma CommitReplyExact(s: Sys, r: Rotation, receipt: R.Receipt, replayed: bool)
    requires r.user in s.users.visible && s.users.visible[r.user].Account? && receipt.token > 0
    ensures var (n, reply) := CommitOrReplay(s, r, receipt, replayed);
            var current := s.users.visible[r.user].cred;
            var mine := current == receipt.token
                        || (current > 0 && receipt.previous == CredGen(current) && r.posted == current);
            var saved := (r.save.Durable? && !r.sync.OtherError?) || (r.save.Unsynced? && r.readable);
            var dropped := (r.key in s.receipts.visible ==> r.dropReceipt.Durable?)
                           && (r.key in s.queue.visible ==> r.dropTask.Durable?);
            && (reply.Ok? <==> mine && saved) && (reply.Conflicting? <==> !mine && dropped)
            && (!reply.Ok? && !reply.Conflicting? ==> reply.Raised?)
            && (mine ==>
                  n.users == Written(s.users,
                                     s.users.visible[r.user := s.users.visible[r.user].(cred := receipt.token)],
                                     r.save))
            && (!mine ==> n.users == s.users)
            && (reply.Conflicting? ==> r.key !in n.receipts.visible && r.key !in n.queue.visible)
  {
    var e := s.users.visible[r.user];
    assert e.cred == receipt.token ==> s.users.visible[r.user := e.(cred := receipt.token)] == s.users.visible;
  }

  lemma WithReceiptReplyMeans(s: Sys, r: Rotation, previous: Gen, token: nat, replayed: bool)
    requires r.user in s.users.visible && s.users.visible[r.user].Account? && token > 0
    requires r.key in R.Live(s.receipts.visible, s.now) ==> R.Live(s.receipts.visible, s.now)[r.key].token > 0
    ensures var (n, reply) := WithReceipt(s, r, previous, token, replayed);
            reply.Ok? ==>
              && Shown(n.users.visible, r.user, reply.token)
              && (!reply.durabilityUncertain ==> ShownEverywhere(n.users, r.user, reply.token))
              && (reply.durabilityUncertain <==> r.save.Unsynced?)
              && (reply.syncPending <==> r.save.Unsynced? || r.sync.Critical?) && reply.replayed == replayed
              && reply.token == (if r.key in R.Live(s.receipts.visible, s.now)
                                 then R.Live(s.receipts.visible, s.now)[r.key].token else token)
  {
    hide CommitOrReplay, Q.PrepareFile, R.Live, ShownEverywhere, Shown;
    var (f, reply) := R.PrepareFile(s.receipts, r.key, r.user, r.session, previous, token, s.now, r.receipt);
    if reply.Ready? {
      var receipt := reply.receipt;
      var (g, ready) := Q.PrepareFile(s.queue, r.key, r.user, receipt.previous, TokenGen(receipt.token),
                                      BOTH, s.now, r.task);
      if ready.Prepared? {
        CommitReplyMeans(s.(receipts := f, queue := g, used := s.used + {r.key}), r, receipt, replayed);
      }
    }
  }

  lemma LiveTokens(s: Sys, key: Key)
    requires Core(s)
    ensures key in R.Live(s.receipts.visible, s.now) ==> R.Live(s.receipts.visible, s.now)[key].token > 0
    ensures s.nextToken > 0
  {
    assert ReceiptsCore(s, s.receipts.visible);
  }

  /** An `ok` reply names the credential that users.json shows for the user, in every
      content a crash may leave unless the reply says that this is uncertain; it is the
      one of the receipt the session held, or a fresh one. */
  lemma ReplyIsShown(s: Sys, r: Rotation)
    requires Core(s)
    ensures var (n, reply) := Rotate(s, r);
            reply.Ok? ==>
              && Shown(n.users.visible, r.user, reply.token)
              && (!reply.durabilityUncertain ==> ShownEverywhere(n.users, r.user, reply.token))
              && (reply.durabilityUncertain <==> r.save.Unsynced?)
              && (reply.syncPending <==> r.save.Unsynced? || r.sync.Critical?)
              && (reply.replayed <==> Held(s, r))
              && reply.token == (if r.key in R.Live(s.receipts.visible, s.now)
                                 then R.Live(s.receipts.visible, s.now)[r.key].token else s.nextToken)
  {
    LiveTokens(s, r.key);
    LookupMeans(s, r);
    hide Core, WithReceipt, R.LookupFile, R.Live, Shown, ShownEverywhere, Held, LookupSaved;
    if r.validId {
      var (f, found) := R.LookupFile(s.receipts, r.key, r.session, s.now, r.lookup);
      var s1 := s.(receipts := f);
      if !found.LookupFailed? && r.user in s.users.visible && s.users.visible[r.user].Account? {
        if found.Found? {
          WithReceiptReplyMeans(s1, r, found.receipt.previous, found.receipt.token, true);
        } else {
          WithReceiptReplyMeans(s1.(nextToken := s1.nextToken + 1), r, TokenGen(s.users.visible[r.user].cred),
                                s1.nextToken, false);
        }
      }
    }
  }

  /** And keeps doing so: after a reply that is not uncertain, no run of requests, deletions
      and crashes ever shows an earlier credential of the user again. */
  lemma ReplyIsKept(s: Sys, e: Step, es: seq<Step>)
    requires Core(s) && Enabled(s, e) && e.op.SelfRotate? && Allowed(Next(s, e), es)
    requires var reply := Rotate(s.(now := e.now), e.op.rotation).1; reply.Ok? && !reply.durabilityUncertain
    ensures var token := Rotate(s.(now := e.now), e.op.rotation).1.token;
            && ShownEverywhere(Next(s, e).users, e.op.rotation.user, token)
            && forall c: Users :: c in Run(Next(s, e), es).users.possible && e.op.rotation.user in c ==>
                 c[e.op.rotation.user].Account? && c[e.op.rotation.user].cred >= token
  {
    var t, user := s.(now := e.now), e.op.rotation.user;
    RotationFacts(s);
    Advanced(s, e.now, s.nextToken, s.used, s.nonces);
    ReplyIsShown(t, e.op.rotation);
    CoreKept(s, e);
    var n, token := Next(s, e), Rotate(t, e.op.rotation).1.token;
    UsersCoherent(n);
    ShownIsOld(n, user, token);
    hide Core, Rotate;
    StaysBeyond(n, es, user, token);
  }

  lemma ShownIsOld(s: Sys, user: User, token: nat)
    requires Core(s) && Shown(s.users.visible, user, token)
    ensures token < s.nextToken
  {
    assert UsersCore(s, s.users.visible);
    assert CredOf(s.users.visible, user) == token;
  }

  // --------------------------------------------------------------- refusals

  /** The request may have a fresh credential: its session and its current credential are
      right, and the account is neither disabled nor expired. */
  predicate MayRotate(s: Sys, r: Rotation) {
    && Proves(s, r) && !s.users.visible[r.user].disabled && !Lapsed(s.users.visible[r.user], r.today)
  }

  predicate Proves(s: Sys, r: Rotation) {
    && r.session != 0 && r.sessionAllows && r.user in s.users.visible && s.users.visible[r.user].Account?
    && r.posted != 0 && s.users.visible[r.user].cred == r.posted
  }

  /** The last day is over. */
  predicate Lapsed(e: Entry, today: nat)
    requires e.Account?
  {
    e.expiresOn != 0 && today > e.expiresOn
  }

  lemma CommitRefusals(s: Sys, r: Rotation, receipt: R.Receipt, replayed: bool)
    ensures var (n, reply) := CommitOrReplay(s, r, receipt, replayed);
            && !reply.BadRequest? && !reply.Disabled? && !reply.Expired? && !reply.Forbidden?
            && (reply.Ok? ==> reply.replayed == replayed)
            && (!reply.Ok? && !reply.Raised? ==> n.users == s.users)
            && (reply.Conflicting? ==> n.users == s.users && n.nextToken == s.nextToken
                                       && r.key !in n.receipts.visible && r.key !in n.queue.visible)
  {
  }

  lemma WithReceiptRefusals(s: Sys, r: Rotation, previous: Gen, token: nat, replayed: bool)
    ensures var (n, reply) := WithReceipt(s, r, previous, token, replayed);
            && !reply.BadRequest? && !reply.Disabled? && !reply.Expired?
            && (!reply.Ok? && !reply.Raised? ==> n.users == s.users)
            && (reply.Ok? ==> reply.replayed == replayed)
  {
    hide CommitOrReplay, R.PrepareFile, Q.PrepareFile;
    var (f, reply) := R.PrepareFile(s.receipts, r.key, r.user, r.session, previous, token, s.now, r.receipt);
    if reply.Ready? {
      var receipt := reply.receipt;
      var (g, ready) := Q.PrepareFile(s.queue, r.key, r.user, receipt.previous, TokenGen(receipt.token),
                                      BOTH, s.now, r.task);
      CommitRefusals(s.(receipts := f, queue := g, used := s.used + {r.key}), r, receipt, replayed);
    }
  }

  /** Every refusal with its exact reason; a refused request leaves users.json as it is. */
  lemma RefusalsExact(s: Sys, r: Rotation)
    ensures var (n, reply) := Rotate(s, r);
            && (reply.BadRequest? <==> !r.validId)
            && (reply.Disabled? <==>
                  && r.validId && LookupSaved(s, r) && !Held(s, r) && Proves(s, r) && s.users.visible[r.user].disabled)
            && (reply.Expired? <==>
                  && r.validId && LookupSaved(s, r) && !Held(s, r) && Proves(s, r)
                  && !s.users.visible[r.user].disabled && Lapsed(s.users.visible[r.user], r.today))
            && (r.validId && LookupSaved(s, r) && !Held(s, r) && !Proves(s, r) ==> reply.Forbidden?)
            && (reply.Ok? && !reply.replayed ==> MayRotate(s, r))
            && (!reply.Ok? && !reply.Raised? ==> n.users == s.users)
  {
    LookupMeans(s, r);
    hide WithReceipt, R.LookupFile, R.Live;
    if r.validId {
      var (f, found) := R.LookupFile(s.receipts, r.key, r.session, s.now, r.lookup);
      var s1 := s.(receipts := f);
      if !found.LookupFailed? && r.user in s.users.visible && s.users.visible[r.user].Account? {
        if found.Found? {
          WithReceiptRefusals(s1, r, found.receipt.previous, found.receipt.token, true);
        } else {
          var s2 := s1.(nextToken := s1.nextToken + 1);
          WithReceiptRefusals(s2, r, TokenGen(s.users.visible[r.user].cred), s1.nextToken, false);
          assert s2.users == s.users;
        }
      }
    }
  }

  // ---------------------------------------------------------------- service

  /** Every save of the request succeeds. */
  predicate Smooth(r: Rotation) {
    r.lookup.Durable? && r.receipt.Durable? && r.task.Durable? && r.save.Durable? && !r.sync.OtherError?
  }

  predicate RoomFor(s: Sys, r: Rotation) {
    r.key !in s.queue.visible && |s.queue.visible| < Q.TASK_MAX_ENTRIES
  }

  /** A request that may rotate, with room for its two records, gets a fresh credential:
      users.json changes in that account's credential and in nothing else. */
  lemma FreshRequestIsServed(s: Sys, r: Rotation)
    requires r.validId && MayRotate(s, r) && Smooth(r) && RoomFor(s, r) && s.nextToken > s.users.visible[r.user].cred
    requires r.key !in R.Live(s.receipts.visible, s.now)
    requires |R.Live(s.receipts.visible, s.now)| < R.RECEIPT_MAX_ENTRIES
    ensures var (n, reply) := Rotate(s, r);
            && reply == Ok(s.nextToken, false, r.sync.Critical?, false)
            && n.users == Rebooted(s.users.visible[r.user := s.users.visible[r.user].(cred := s.nextToken)])
            && r.key in n.queue.visible && n.queue.possible == {n.queue.visible}
            && Q.Bound(n.queue.visible[r.key], r.user, TokenGen(r.posted), TokenGen(s.nextToken))
            && r.key in n.receipts.visible && n.receipts.possible == {n.receipts.visible}
            && n.receipts.visible[r.key] == R.Receipt(r.user, TokenGen(r.posted), s.nextToken, [r.session],
                                                      s.now, s.now + R.RECEIPT_TTL_SECONDS)
            && r.key in n.rotating
  {
    LookupMeans(s, r);
    var (f, found) := R.LookupFile(s.receipts, r.key, r.session, s.now, r.lookup);
    var s1 := s.(receipts := f, nextToken := s.nextToken + 1);
    hide R.LookupFile;
    FreshRecords(s1, r, s.users.visible[r.user].cred, s.nextToken);
    hide WithReceipt, R.Live;
  }

  lemma FreshRecords(s: Sys, r: Rotation, cred: nat, token: nat)
    requires Smooth(r) && RoomFor(s, r) && 0 < cred < token && r.posted == cred
    requires r.user in s.users.visible && s.users.visible[r.user].Account? && s.users.visible[r.user].cred == cred
    requires r.key !in R.Live(s.receipts.visible, s.now)
    requires |R.Live(s.receipts.visible, s.now)| < R.RECEIPT_MAX_ENTRIES
    ensures var (n, reply) := WithReceipt(s, r, TokenGen(cred), token, false);
            && reply == Ok(token, false, r.sync.Critical?, false)
            && n.users == Rebooted(s.users.visible[r.user := s.users.visible[r.user].(cred := token)])
            && r.key in n.queue.visible && n.queue.possible == {n.queue.visible}
            && Q.Bound(n.queue.visible[r.key], r.user, TokenGen(cred), TokenGen(token))
            && r.key in n.receipts.visible && n.receipts.possible == {n.receipts.visible}
            && n.receipts.visible[r.key] == R.Receipt(r.user, TokenGen(cred), token, [r.session],
                                                      s.now, s.now + R.RECEIPT_TTL_SECONDS)
            && r.key in n.rotating
  {
    var (f, reply) := R.PrepareFile(s.receipts, r.key, r.user, r.session, TokenGen(cred), token, s.now, r.receipt);
    assert reply.Ready?;
    var receipt := reply.receipt;
    hide R.PrepareFile, R.Live;
    var (g, ready) := Q.PrepareFile(s.queue, r.key, r.user, receipt.previous, TokenGen(receipt.token),
                                    BOTH, s.now, r.task);
    assert ready.Prepared?;
    hide Q.PrepareFile;
  }

  /** A replay of the session that holds the receipt gets the receipt's credential while
      users.json shows it, or shows the previous one and the request posts it. */
  lemma ReplayIsServed(s: Sys, r: Rotation)
    requires r.validId && Smooth(r) && Held(s, r) && r.user in s.users.visible && s.users.visible[r.user].Account?
    requires var rc := s.receipts.visible[r.key];
             && rc.user == r.user && rc.token > 0
             && (Shown(s.users.visible, r.user, rc.token)
                 || (r.posted != 0 && rc.previous == CredGen(r.posted) && Shown(s.users.visible, r.user, r.posted)))
    requires if r.key in s.queue.visible
             then Q.Bound(s.queue.visible[r.key], r.user, s.receipts.visible[r.key].previous,
                          CredGen(s.receipts.visible[r.key].token))
             else |s.queue.visible| < Q.TASK_MAX_ENTRIES
    ensures var (n, reply) := Rotate(s, r);
            && reply == Ok(s.receipts.visible[r.key].token, false, r.sync.Critical?, true)
            && n.users == Rebooted(s.users.visible[r.user := s.users.visible[r.user].(cred := reply.token)])
  {
    LookupMeans(s, r);
    var (f, found) := R.LookupFile(s.receipts, r.key, r.session, s.now, r.lookup);
    hide R.LookupFile;
    var rc := found.receipt;
    var s1 := s.(receipts := f);
    HeldRecords(s1, r, rc);
    hide WithReceipt, R.Live;
  }

  lemma HeldRecords(s: Sys, r: Rotation, rc: R.Receipt)
    requires Smooth(r) && r.user in s.users.visible && s.users.visible[r.user].Account?
    requires r.key in R.Live(s.receipts.visible, s.now) && R.Live(s.receipts.visible, s.now)[r.key] == rc
    requires rc.user == r.user && R.BoundTo(rc, r.session) && rc.token > 0
    requires Shown(s.users.visible, r.user, rc.token)
             || (r.posted != 0 && rc.previous == CredGen(r.posted) && Shown(s.users.visible, r.user, r.posted))
    requires if r.key in s.queue.visible
             then Q.Bound(s.queue.visible[r.key], r.user, rc.previous, CredGen(rc.token))
             else |s.queue.visible| < Q.TASK_MAX_ENTRIES
    ensures var (n, reply) := WithReceipt(s, r, rc.previous, rc.token, true);
            && reply == Ok(rc.token, false, r.sync.Critical?, true)
            && n.users == Rebooted(s.users.visible[r.user := s.users.visible[r.user].(cred := rc.token)])
  {
    var (f, reply) := R.PrepareFile(s.receipts, r.key, r.user, r.session, rc.previous, rc.token, s.now, r.receipt);
    assert reply == R.Ready(rc);
    hide R.PrepareFile, R.Live;
    var (g, ready) := Q.PrepareFile(s.queue, r.key, r.user, rc.previous, TokenGen(rc.token), BOTH, s.now, r.task);
    assert ready.Prepared?;
    hide Q.PrepareFile;
    if Shown(s.users.visible, r.user, rc.token) {
      assert s.users.visible[r.user := s.users.visible[r.user].(cred := rc.token)] == s.users.visible;
    }
  }

  // ------------------------------------------------------------- the administrator

  /** Every reply of an administrator rotation with its exact reason, and what it leaves. */
  lemma AdminReplyExact(s: Sys, r: AdminRotation)
    requires r.key !in s.queue.visible
    ensures var (n, reply) := AdminRotate(s, r);
            var there := r.user in s.users.visible && s.users.visible[r.user].Account?;
            var current := there && s.users.visible[r.user] == r.expected;
            var room := r.task.Durable? && |s.queue.visible| < Q.TASK_MAX_ENTRIES;
            var saved := (r.save.Durable? && !r.sync.OtherError?) || (r.save.Unsynced? && r.readable);
            && (reply.NotFound? <==> !there)
            && (reply.StaleRevision? <==> there && !current)
            && (reply.Success? <==> current && room && saved)
            && (reply.NotFound? || reply.StaleRevision? ==> n == s)
            && (!room || r.save.NotReplaced? ==> n.users == s.users)
            && (current && room && !r.save.NotReplaced? ==>
                  n.users == Written(s.users, s.users.visible[r.user := r.expected.(cred := s.nextToken)], r.save))
            && (reply.Success? ==>
                  && reply.token == s.nextToken && Shown(n.users.visible, r.user, reply.token)
                  && (r.save.Durable? ==> ShownEverywhere(n.users, r.user, reply.token))
                  && n.queue.possible == {n.queue.visible} && r.key in n.queue.visible
                  && Q.Bound(n.queue.visible[r.key], r.user, TokenGen(r.expected.cred), TokenGen(reply.token)))
  {
  }

  /** Likewise for a deletion: accepted with its task durably queued, whether or not the
      account could be removed at once; history is purged exactly after a durable save. */
  lemma DeleteReplyExact(s: Sys, r: DeleteRequest)
    requires r.key !in s.queue.visible && Coherent(s.users)
    ensures var (n, reply, purged) := Delete(s, r);
            var there := r.user in s.users.visible && s.users.visible[r.user].Account?;
            var current := there && s.users.visible[r.user] == r.expected;
            var room := r.task.Durable? && |s.queue.visible| < Q.TASK_MAX_ENTRIES;
            && (reply.NotFound? <==> !there)
            && (reply.StaleRevision? <==> there && !current)
            && (reply.Success? <==> current && room)
            && (!current ==> n == s)
            && (purged <==> reply.Success? && r.save.Durable?)
            && (reply.Success? ==>
                  && n.users == Written(s.users, s.users.visible - {r.user}, r.save)
                  && n.queue.possible == {n.queue.visible} && r.key in n.queue.visible
                  && Q.Bound(n.queue.visible[r.key], r.user, RevisionOf(r.expected), UserDeleted)
                  && r.key in n.deleting && n.deleting[r.key] == Deletion(r.user, r.expected))
            && (!reply.Success? ==> n.users == s.users)
  {
  }

  /** A creation takes a free name only, with a fresh credential. */
  lemma CreateMeans(s: Sys, user: User, disabled: bool, expiresOn: nat, rest: nat, o: Outcome)
    ensures var n := Create(s, user, disabled, expiresOn, rest, o);
            && (user in s.users.visible ==> n == s)
            && (user !in s.users.visible ==>
                  && n.nextToken > s.nextToken
                  && n.users == Written(s.users,
                                        s.users.visible[user := Account(s.nextToken, disabled, expiresOn, rest)], o))
            && n.queue == s.queue && n.receipts == s.receipts
  {
  }

  // ------------------------------------------------------ what the histories record

  /** The commit of a change counts as completed only from the attempt that removed its task
      from the queue. */
  lemma DoneIsEarned(s: Sys, op: Op, user: User)
    requires user in Apply(s, op).last && Apply(s, op).last[user].done
    ensures user in s.last
    ensures || Apply(s, op).last[user] == s.last[user]
            || (&& (op.Kick? || op.FinishTask?)
                && Apply(s, op).last[user] == s.last[user].(done := true)
                && s.last[user].key in s.queue.visible && s.last[user].key !in Apply(s, op).queue.visible)
  {
    match op {
      case SelfRotate(r) => hide Rotate; RotateMarksNone(s, r);
      case Administer(r) => hide AdminRotate; AdminMarksNone(s, r);
      case DeleteUser(r) => hide Delete; DeletionMarksNone(s, r);
      case CheckTask(_) =>
      case Kick(_, _, _, _) => hide Q.CompleteFile;
      case FinishTask(_, _, _) => hide Q.CompleteFile, Q.ReleaseFile, Q.DiscardFile;
      case _ => hide Q.RequireFile, R.BindFile, R.PruneFile;
    }
  }

  /** Only the worker passes a deletion, and only its handler records a kick for it. */
  lemma DeletionsPassByWorker(s: Sys, op: Op)
    ensures Apply(s, op).passed != s.passed ==>
              op.CheckTask? && s.worker.Claimed? && Apply(s, op).passed == s.passed + {s.worker.id}
    ensures Apply(s, op).kicked != s.kicked ==>
              op.Kick? && op.key in s.deleting && Apply(s, op).kicked == s.kicked + {op.key}
  {
    match op {
      case SelfRotate(r) => hide Rotate; RotateMarksNone(s, r);
      case Administer(r) => hide AdminRotate; AdminMarksNone(s, r);
      case DeleteUser(r) => hide Delete; DeletionMarksNone(s, r);
      case CheckTask(_) =>
      case Kick(_, _, _, _) => hide Q.CompleteFile;
      case FinishTask(_, _, _) => hide Q.CompleteFile, Q.ReleaseFile, Q.DiscardFile;
      case _ => hide Q.RequireFile, R.BindFile, R.PruneFile;
    }
  }

  lemma AdminMarksNone(s: Sys, r: AdminRotation)
    ensures var n := AdminRotate(s, r).0;
            && (forall u :: u in n.last && n.last[u].done ==> u in s.last && n.last[u] == s.last[u])
            && n.passed == s.passed && n.kicked == s.kicked
  {
    hide Q.PrepareFile;
  }

  lemma DeletionMarksNone(s: Sys, r: DeleteRequest)
    ensures var n := Delete(s, r).0;
            && (forall u :: u in n.last && n.last[u].done ==> u in s.last && n.last[u] == s.last[u])
            && n.passed == s.passed && n.kicked == s.kicked
  {
    hide Q.PrepareFile;
  }

  lemma RotateMarksNone(s: Sys, r: Rotation)
    ensures var n := Rotate(s, r).0;
            && (forall u :: u in n.last && n.last[u].done ==> u in s.last && n.last[u] == s.last[u])
            && n.passed == s.passed && n.kicked == s.kicked
  {
    hide R.LookupFile, WithReceipt;
    if r.validId {
      var (f, found) := R.LookupFile(s.receipts, r.key, r.session, s.now, r.lookup);
      var s1 := s.(receipts := f);
      if !found.LookupFailed? && r.user in s.users.visible && s.users.visible[r.user].Account? {
        if found.Found? {
          WithReceiptMarksNone(s1, r, found.receipt.previous, found.receipt.token, true);
        } else {
          WithReceiptMarksNone(s1.(nextToken := s1.nextToken + 1), r, TokenGen(s.users.visible[r.user].cred),
                               s1.nextToken, false);
        }
      }
    }
  }

  lemma WithReceiptMarksNone(s: Sys, r: Rotation, previous: Gen, offered: nat, replayed: bool)
    ensures var n := WithReceipt(s, r, previous, offered, replayed).0;
            && (forall u :: u in n.last && n.last[u].done ==> u in s.last && n.last[u] == s.last[u])
            && n.passed == s.passed && n.kicked == s.kicked
  {
    hide R.PrepareFile, Q.PrepareFile;
  }

  /** Every credential that a step other than a crash makes users.json show is counted. */
  lemma AppearancesCounted(s: Sys, op: Op, user: User, token: nat)
    requires !op.MachineCrash? && token > 0
    requires Shown(Apply(s, op).users.visible, user, token) && !Shown(s.users.visible, user, token)
    ensures Apply(s, op).installs == s.installs + multiset{token}
  {
    match op {
      case SelfRotate(r) => hide Rotate; RotateCounts(s, r, user, token);
      case Administer(r) => hide AdminRotate; AdminCounts(s, r, user, token);
      case DeleteUser(r) => hide Delete; DeletionShows(s, r, user, token);
      case CheckTask(c) => hide WorkerCheck; CheckShows(s, c, user, token);
      case _ => hide Q.CompleteFile, Q.RequireFile, R.BindFile, R.PruneFile;
    }
  }

  lemma AdminCounts(s: Sys, r: AdminRotation, user: User, token: nat)
    ensures var n := AdminRotate(s, r).0;
            Shown(n.users.visible, user, token) && !Shown(s.users.visible, user, token) ==>
              n.installs == s.installs + multiset{token}
  {
    hide Q.PrepareFile;
  }

  lemma DeletionShows(s: Sys, r: DeleteRequest, user: User, token: nat)
    ensures Shown(Delete(s, r).0.users.visible, user, token) ==> Shown(s.users.visible, user, token)
  {
    hide Q.PrepareFile;
  }

  lemma CheckShows(s: Sys, c: Check, user: User, token: nat)
    ensures Shown(WorkerCheck(s, c).0.users.visible, user, token) ==> Shown(s.users.visible, user, token)
  {
  }

  lemma RotateCounts(s: Sys, r: Rotation, user: User, token: nat)
    requires Shown(Rotate(s, r).0.users.visible, user, token) && !Shown(s.users.visible, user, token)
    ensures Rotate(s, r).0.installs == s.installs + multiset{token}
  {
    hide R.LookupFile, WithReceipt, Shown;
    if r.validId {
      var (f, found) := R.LookupFile(s.receipts, r.key, r.session, s.now, r.lookup);
      var s1 := s.(receipts := f);
      if !found.LookupFailed? && r.user in s.users.visible && s.users.visible[r.user].Account? {
        if found.Found? {
          WithReceiptCounts(s1, r, found.receipt.previous, found.receipt.token, true, user, token);
        } else {
          WithReceiptCounts(s1.(nextToken := s1.nextToken + 1), r, TokenGen(s.users.visible[r.user].cred),
                            s1.nextToken, false, user, token);
        }
      }
    }
  }

  lemma WithReceiptCounts(s: Sys, r: Rotation, previous: Gen, offered: nat, replayed: bool, user: User, token: nat)
    ensures var n := WithReceipt(s, r, previous, offered, replayed).0;
            Shown(n.users.visible, user, token) && !Shown(s.users.visible, user, token) ==>
              n.installs == s.installs + multiset{token}
  {
    hide R.PrepareFile, Q.PrepareFile;
  }

  // ------------------------------------------------------------- what may happen next

  /** Nothing holds back a crash, a creation, a session change or a cleanup; the handler of a
      committed change may always record what it did, and the idle worker claim the head. */
  lemma NothingWaits(s: Sys, now: nat, users: Users, queue: Q.Tasks, receipts: R.Receipts, o: Outcome)
    requires s.now <= now
    ensures Enabled(s, Step(ProcessCrash, now)) && Enabled(s, Step(PruneReceipts(o), now))
    ensures users in s.users.possible && queue in s.queue.possible && receipts in s.receipts.possible ==>
              Enabled(s, Step(MachineCrash(users, queue, receipts), now))
    ensures forall u, d, e, rest: nat :: Enabled(s, Step(CreateUser(u, d, e, rest, o), now))
    ensures forall k, a, b :: Enabled(s, Step(BindSession(k, a, b, o), now))
    ensures forall k, services :: k in s.rotating + s.deleting.Keys ==>
              Enabled(s, Step(RequireServices(k, services, o), now))
    ensures forall k, ok, handled :: k in s.rotating + s.deleting.Keys ==>
              Enabled(s, Step(Kick(k, ok, handled, o), now))
    ensures forall id :: s.worker.Idle? && Q.IsHead(s.queue.visible, now, id) ==>
              Enabled(s, Step(ClaimTask(id, o), now))
  {
  }
}
