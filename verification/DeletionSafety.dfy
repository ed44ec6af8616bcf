/** Deleting a user purges history only when the deletion cannot be undone by a crash,
    never touches a same-name replacement, and completes only once it took effect. */
module DeletionSafety {
  import opened Credentials
  import opened DurableFile
  import opened CredentialProtocol
  import opened ProtocolInvariant
  import opened ProtocolSteps
  import opened RevocationCoverage
  import opened UsersHistory
  import Q = RevocationQueue
  import R = RotationReceipts

  /** The user whose history this step purges, if any. */
  ghost predicate Purges(s: Sys, e: Step, user: User) {
    match e.op
    case DeleteUser(r) => r.user == user && Delete(s.(now := e.now), r).2
    case CheckTask(c) => s.worker.Claimed? && s.worker.task.user == user && WorkerCheck(s.(now := e.now), c).1
    case _ => false
  }

  /** A purge happens only when no content a crash may leave holds the user, and the
      account that was there is the incarnation named by the request or the task. */
  lemma PurgeIsSafe(s: Sys, e: Step, user: User)
    requires Core(s) && Enabled(s, e) && Purges(s, e, user)
    ensures forall c :: c in Next(s, e).users.possible ==> user !in c
    ensures user in s.users.visible ==>
              RevisionOf(s.users.visible[user]) ==
              if e.op.DeleteUser? then RevisionOf(e.op.deletion.expected) else s.worker.task.previous
  {
    hide Core, Q.PrepareFile;
  }

  // --------------------------------------------------------- a purge is never undone

  /** Once a user has been purged, no content a crash may leave at any later time holds any
      incarnation of the account that was possible before: whoever has the name then was
      created after the purge. */
  lemma PurgedStaysGone(s: Sys, e: Step, es: seq<Step>, user: User)
    requires Core(s) && Enabled(s, e) && Purges(s, e, user) && Allowed(Next(s, e), es)
    ensures forall c: Users :: c in Run(Next(s, e), es).users.possible && user in c ==>
              c[user].Account? && c[user].cred >= Next(s, e).nextToken
    ensures forall c: Users, d: Users ::
              c in Run(Next(s, e), es).users.possible && d in s.users.possible && user in c && user in d ==>
                c[user] != d[user]
  {
    PurgeIsSafe(s, e, user);
    CoreKept(s, e);
    OldCredentials(s, e, user);
    StaysBeyond(Next(s, e), es, user, Next(s, e).nextToken);
    hide Core, Purges, Run, Next;
  }

  lemma OldCredentials(s: Sys, e: Step, user: User)
    requires Core(s) && Enabled(s, e)
    ensures forall d: Users :: d in s.users.possible && user in d ==> CredOf(d, user) < Next(s, e).nextToken
  {
    StepEvolves(s, e);
    forall d: Users | d in s.users.possible && user in d ensures CredOf(d, user) < s.nextToken {
      assert UsersCore(s, d);
    }
    hide Core, Next, Enabled;
  }

  /** A late task for a purged incarnation, claimed at any time after it, neither removes
      nor purges the account that has taken the name since. */
  lemma ReplacementSurvives(s: Sys, e: Step, es: seq<Step>, user: User, c: Check)
    requires Core(s) && Enabled(s, e) && Purges(s, e, user) && Allowed(Next(s, e), es)
    requires var m := Run(Next(s, e), es);
             && m.worker.Claimed? && IsDeletion(m.worker.task) && m.worker.task.user == user
             && user in m.users.visible
             && exists d :: d in s.users.possible && user in d && m.worker.task.previous == RevisionOf(d[user])
    ensures var m := Run(Next(s, e), es);
            && WorkerCheck(m, c).0.users == m.users && !WorkerCheck(m, c).1
  {
    PurgedStaysGone(s, e, es, user);
    CoreKept(s, e);
    CoreInRuns(Next(s, e), es);
    var m := Run(Next(s, e), es);
    UsersCoherent(m);
    hide Core, Purges, Run, Next;
    assert Superseded(m.users.visible, m.worker.task);
  }

  // ------------------------------------------------------- only named accounts go

  /** The step takes the account off users.json, or purges its history. */
  ghost predicate Ends(s: Sys, e: Step, user: User) {
    && !e.op.MachineCrash? && user in s.users.visible
    && (user !in Next(s, e).users.visible || Purges(s, e, user))
  }

  /** The request or the task names the very revision that has the name now. */
  ghost predicate NamesIt(s: Sys, e: Step, user: User)
    requires user in s.users.visible
  {
    match e.op
    case DeleteUser(r) => r.user == user && r.expected == s.users.visible[user]
    case CheckTask(_) =>
      && s.worker.Claimed? && IsDeletion(s.worker.task) && s.worker.task.user == user
      && s.worker.task.previous == RevisionOf(s.users.visible[user])
    case _ => false
  }

  lemma CommitKeepsNames(s: Sys, r: Rotation, receipt: R.Receipt, replayed: bool, user: User)
    requires user in s.users.visible
    ensures user in CommitOrReplay(s, r, receipt, replayed).0.users.visible
  {
  }

  lemma WithReceiptKeepsNames(s: Sys, r: Rotation, previous: Gen, token: nat, replayed: bool, user: User)
    requires user in s.users.visible
    ensures user in WithReceipt(s, r, previous, token, replayed).0.users.visible
  {
    hide CommitOrReplay, R.PrepareFile, Q.PrepareFile;
    var (f, reply) := R.PrepareFile(s.receipts, r.key, r.user, r.session, previous, token, s.now, r.receipt);
    if reply.Ready? {
      var (g, ready) := Q.PrepareFile(s.queue, r.key, r.user, reply.receipt.previous, TokenGen(reply.receipt.token),
                                      BOTH, s.now, r.task);
      CommitKeepsNames(s.(receipts := f, queue := g, used := s.used + {r.key}), r, reply.receipt, replayed, user);
    }
  }

  lemma RotateKeepsNames(s: Sys, r: Rotation, user: User)
    requires user in s.users.visible
    ensures user in Rotate(s, r).0.users.visible
  {
    hide WithReceipt, R.LookupFile;
    if r.validId && r.user in s.users.visible && s.users.visible[r.user].Account? {
      var (f, found) := R.LookupFile(s.receipts, r.key, r.session, s.now, r.lookup);
      var s1 := s.(receipts := f);
      if found.Found? {
        WithReceiptKeepsNames(s1, r, found.receipt.previous, found.receipt.token, true, user);
      } else {
        WithReceiptKeepsNames(s1.(nextToken := s1.nextToken + 1), r, TokenGen(s.users.visible[r.user].cred),
                              s1.nextToken, false, user);
      }
    }
  }

  lemma OthersKeepNames(s: Sys, op: Op, user: User)
    requires user in s.users.visible
    requires !op.SelfRotate? && !op.DeleteUser? && !op.CheckTask? && !op.MachineCrash?
    ensures user in Apply(s, op).users.visible
  {
    hide Q.PrepareFile, Q.CompleteFile, Q.DiscardFile, Q.ReleaseFile, MarkDone;
  }

  lemma EndingIsNamed(s: Sys, e: Step, user: User)
    requires Core(s) && Enabled(s, e) && Ends(s, e, user)
    ensures NamesIt(s, e, user)
  {
    hide Core, Rotate, Q.PrepareFile;
    var t := s.(now := e.now);
    if e.op.SelfRotate? {
      RotateKeepsNames(t, e.op.rotation, user);
    } else if !e.op.DeleteUser? && !e.op.CheckTask? {
      hide Apply;
      OthersKeepNames(t, e.op, user);
    }
  }

  ghost predicate OnlyNamedEnd(s: Sys, es: seq<Step>)
    decreases es
  {
    es != [] ==>
      && (forall user :: Ends(s, es[0], user) ==> NamesIt(s, es[0], user))
      && OnlyNamedEnd(Next(s, es[0]), es[1..])
  }

  /** In every run, interleavings, replays and crashes included, no account is removed and
      no history purged except of the revision that the request or the task names. */
  lemma {:induction false} OnlyNamedAccountsEnd(s: Sys, es: seq<Step>)
    requires Core(s) && Allowed(s, es)
    ensures OnlyNamedEnd(s, es)
    decreases es
  {
    if es != [] {
      hide Core, Ends, NamesIt, Next, Enabled;
      forall user | Ends(s, es[0], user) ensures user in s.users.visible && NamesIt(s, es[0], user) {
        EndingHadName(s, es[0], user);
        EndingIsNamed(s, es[0], user);
      }
      CoreKept(s, es[0]);
      OnlyNamedAccountsEnd(Next(s, es[0]), es[1..]);
    }
  }

  lemma EndingHadName(s: Sys, e: Step, user: User)
    requires Ends(s, e, user)
    ensures user in s.users.visible
  {
  }

  // ---------------------------------------------------------------- completed deletions

  /** When a deletion passes, the named revision is not the visible one; unless another
      revision had taken the name, no possible content holds the user. */
  lemma PassingMeansGone(s: Sys, e: Step, id: Key)
    requires Core(s) && Enabled(s, e) && id !in s.passed && id in Next(s, e).passed
    ensures s.worker.Claimed? && s.worker.id == id && IsDeletion(s.worker.task)
    ensures var t, n := s.worker.task, Next(s, e);
            if t.user in s.users.visible && RevisionOf(s.users.visible[t.user]) != t.previous
            then n.users == s.users
            else forall c :: c in n.users.possible ==> t.user !in c
  {
    OnlyChecksPass(s, e);
  }

  lemma OnlyChecksPass(s: Sys, e: Step)
    ensures e.op.CheckTask? || Next(s, e).passed == s.passed
  {
    hide Rotate, Q.PrepareFile, Written;
    if e.op.SelfRotate? {
      RotateFrame(s.(now := e.now), e.op.rotation);
    }
  }

  /** Every content of the queue that a crash may leave holds the deletion task. */
  ghost predicate HoldsDeletion(f: File<Q.Tasks>, id: Key) {
    forall q :: q in f.possible ==> id in q && IsDeletion(q[id])
  }

  lemma CommitHolds(s: Sys, r: Rotation, receipt: R.Receipt, replayed: bool, id: Key)
    requires HoldsDeletion(s.queue, id) && Coherent(s.queue) && r.key != id
    ensures HoldsDeletion(CommitOrReplay(s, r, receipt, replayed).0.queue, id)
  {
    hide HoldsDeletion;
    DropHolds(s.queue, r.key, r.dropTask, id);
  }

  lemma WithReceiptHolds(s: Sys, r: Rotation, previous: Gen, token: nat, replayed: bool, id: Key)
    requires HoldsDeletion(s.queue, id) && Coherent(s.queue) && r.key != id
    ensures HoldsDeletion(WithReceipt(s, r, previous, token, replayed).0.queue, id)
  {
    hide HoldsDeletion, Coherent, CommitOrReplay;
    var (f, reply) := R.PrepareFile(s.receipts, r.key, r.user, r.session, previous, token, s.now, r.receipt);
    if reply.Ready? {
      var receipt := reply.receipt;
      PrepareHolds(s.queue, r.key, r.user, receipt.previous, TokenGen(receipt.token), s.now, r.task, id);
      var (g, ready) := Q.PrepareFile(s.queue, r.key, r.user, receipt.previous, TokenGen(receipt.token),
                                      BOTH, s.now, r.task);
      CommitHolds(s.(receipts := f, queue := g, used := s.used + {r.key}), r, receipt, replayed, id);
    }
  }

  lemma RotateKeepsDeletions(s: Sys, r: Rotation, id: Key)
    requires HoldsDeletion(s.queue, id) && Coherent(s.queue) && r.key != id
    ensures HoldsDeletion(Rotate(s, r).0.queue, id)
  {
    hide HoldsDeletion, Coherent, WithReceipt;
    if r.validId && r.user in s.users.visible && s.users.visible[r.user].Account? {
      var (f, found) := R.LookupFile(s.receipts, r.key, r.session, s.now, r.lookup);
      var s1 := s.(receipts := f);
      if found.Found? {
        WithReceiptHolds(s1, r, found.receipt.previous, found.receipt.token, true, id);
      } else {
        WithReceiptHolds(s1.(nextToken := s1.nextToken + 1), r, TokenGen(s.users.visible[r.user].cred),
                         s1.nextToken, false, id);
      }
    }
  }

  lemma RequestsHold(s: Sys, op: Op, id: Key)
    requires HoldsDeletion(s.queue, id) && Coherent(s.queue) && (op.Administer? || op.DeleteUser?)
    ensures HoldsDeletion(Apply(s, op).queue, id)
  {
    hide HoldsDeletion, Coherent, Q.PrepareFile;
    match op
    case Administer(r) =>
      if r.user in s.users.visible && s.users.visible[r.user].Account? {
        PrepareHolds(s.queue, r.key, r.user, TokenGen(s.users.visible[r.user].cred), TokenGen(s.nextToken),
                     s.now, r.task, id);
      }
    case DeleteUser(r) =>
      if r.user in s.users.visible {
        PrepareHolds(s.queue, r.key, r.user, RevisionOf(s.users.visible[r.user]), UserDeleted, s.now, r.task, id);
      }
  }

  lemma QueueUntouched(s: Sys, op: Op)
    requires op.CreateUser? || op.BindSession? || op.PruneReceipts? || op.CheckTask? || op.ProcessCrash?
    ensures Apply(s, op).queue == s.queue
  {
    hide Written, R.BindFile, R.PruneFile;
  }

  lemma OthersHold(s: Sys, op: Op, id: Key)
    requires HoldsDeletion(s.queue, id) && Coherent(s.queue)
    requires op.CreateUser? || op.BindSession? || op.PruneReceipts? || op.RequireServices? || op.ClaimTask?
             || op.CheckTask? || op.ProcessCrash? || (op.MachineCrash? && op.queue in s.queue.possible)
    ensures HoldsDeletion(Apply(s, op).queue, id)
  {
    match op
    case RequireServices(_, _, _) =>
    case ClaimTask(_, _) =>
    case MachineCrash(_, _, _) =>
    case _ =>
      hide HoldsDeletion, Apply;
      QueueUntouched(s, op);
  }

  lemma VisibleHolds(f: File<Q.Tasks>, id: Key)
    requires HoldsDeletion(f, id) && Coherent(f)
    ensures id in f.visible && IsDeletion(f.visible[id])
  {
  }

  lemma PrepareHolds(f: File<Q.Tasks>, key: Key, user: User, previous: Gen, target: Gen, now: nat, o: Outcome, id: Key)
    requires HoldsDeletion(f, id) && Coherent(f)
    ensures HoldsDeletion(Q.PrepareFile(f, key, user, previous, target, BOTH, now, o).0, id)
    ensures Coherent(Q.PrepareFile(f, key, user, previous, target, BOTH, now, o).0)
  {
  }

  lemma DropHolds(f: File<Q.Tasks>, key: Key, o: Outcome, id: Key)
    requires HoldsDeletion(f, id) && Coherent(f) && key != id
    ensures HoldsDeletion(Q.DiscardFile(f, key, o), id)
  {
  }

  lemma AttemptHolds(s: Sys, key: Key, ok: bool, handled: set<Q.Service>, o: Outcome, id: Key)
    requires HoldsDeletion(s.queue, id) && Coherent(s.queue)
    requires key == id && key in s.queue.visible && s.queue.visible[key].kickSuccesses >= 1 ==> id in s.passed
    ensures HoldsDeletion(RecordAttempt(s, key, ok, handled, o).queue, id) || id in s.passed
  {
  }

  lemma FinishHolds(s: Sys, ok: bool, handled: set<Q.Service>, o: Outcome, id: Key)
    requires Core(s) && s.worker.Decided? && HoldsDeletion(s.queue, id)
    ensures HoldsDeletion(WorkerFinish(s, ok, handled, o).queue, id) || id in s.passed
  {
    VisibleHolds(s.queue, id);
    if s.worker.id != id {
      match s.worker.verdict
      case Retire => DropHolds(s.queue, s.worker.id, o, id);
      case GiveBack =>
      case Proceed => AttemptHolds(s.(worker := Idle), s.worker.id, ok, handled, o, id);
    } else {
      assert IsDeletion(s.worker.task);
    }
  }

  lemma KickHolds(s: Sys, key: Key, ok: bool, handled: set<Q.Service>, o: Outcome, id: Key)
    requires Core(s) && (key in s.rotating || key in s.deleting) && HoldsDeletion(s.queue, id)
    ensures HoldsDeletion(HandlerKick(s, key, ok, handled, o).queue, id) || id in s.passed
  {
    VisibleHolds(s.queue, id);
    assert QueueCore(s, s.queue.visible);
    AttemptHolds(s, key, ok, handled, o, id);
  }

  /** Whatever happens, crashes included, a durably queued deletion leaves the queue in
      one way only: completed, after the worker carried it out or found it superseded. */
  lemma DeletionsLeaveCompleted(s: Sys, e: Step, id: Key)
    requires Core(s) && Enabled(s, e) && HoldsDeletion(s.queue, id) && id in s.nonces
    ensures HoldsDeletion(Next(s, e).queue, id) || id in Next(s, e).passed
  {
    var t := s.(now := e.now);
    RotationFacts(s);
    Advanced(s, e.now, s.nextToken, s.used, s.nonces);
    QueueCoherent(s);
    VisibleHolds(s.queue, id);
    hide Core, HoldsDeletion, Rotate, AdminRotate, Delete, HandlerKick, WorkerFinish, WorkerCheck;
    match e.op
    case SelfRotate(r) => RotateKeepsDeletions(t, r, id);
    case Administer(_) => RequestsHold(t, e.op, id);
    case DeleteUser(_) => RequestsHold(t, e.op, id);
    case Kick(k, ok, h, o) =>
      KickHolds(t, k, ok, h, o, id);
      HistoryGrows(s, e);
    case FinishTask(ok, h, o) =>
      FinishHolds(t, ok, h, o, id);
      HistoryGrows(s, e);
    case _ => OthersHold(t, e.op, id);
  }

  /** In every run, a deletion that was durably queued is still in every possible queue
      content or has been carried out (or found superseded). */
  lemma {:induction false} DeletionsAreCarriedOut(s: Sys, es: seq<Step>, id: Key)
    requires Core(s) && Allowed(s, es) && HoldsDeletion(s.queue, id) && id in s.nonces
    ensures HoldsDeletion(Run(s, es).queue, id) || id in Run(s, es).passed
    decreases es
  {
    if es != [] {
      hide Core, HoldsDeletion;
      CoreKept(s, es[0]);
      DeletionsLeaveCompleted(s, es[0], id);
      HistoryGrows(s, es[0]);
      if HoldsDeletion(Next(s, es[0]).queue, id) {
        DeletionsAreCarriedOut(Next(s, es[0]), es[1..], id);
      } else {
        StaysPassed(Next(s, es[0]), es[1..], id);
      }
    }
  }

  lemma HistoryGrows(s: Sys, e: Step)
    ensures s.passed <= Next(s, e).passed && s.nonces <= Next(s, e).nonces
  {
    hide Rotate, AdminRotate, Delete, HandlerKick, WorkerCheck, WorkerFinish, Q.PrepareFile, Written;
    var t := s.(now := e.now);
    match e.op
    case SelfRotate(r) => RotateFrame(t, r);
    case Administer(r) => AdministerGrows(t, r);
    case DeleteUser(r) => DeleteGrows(t, r);
    case Kick(k, ok, handled, o) => KickGrows(t, k, ok, handled, o);
    case CheckTask(c) => CheckGrows(t, c);
    case FinishTask(ok, handled, o) => FinishGrows(t, ok, handled, o);
    case _ =>
  }

  lemma AdministerGrows(s: Sys, r: AdminRotation)
    ensures s.passed == AdminRotate(s, r).0.passed && s.nonces <= AdminRotate(s, r).0.nonces
  {
    hide Q.PrepareFile, Written;
  }

  lemma DeleteGrows(s: Sys, r: DeleteRequest)
    ensures s.passed == Delete(s, r).0.passed && s.nonces <= Delete(s, r).0.nonces
  {
    hide Q.PrepareFile, Written;
  }

  lemma KickGrows(s: Sys, k: Key, ok: bool, handled: set<Q.Service>, o: Outcome)
    ensures s.passed == HandlerKick(s, k, ok, handled, o).passed && s.nonces == HandlerKick(s, k, ok, handled, o).nonces
  {
    hide Q.CompleteFile, MarkDone;
  }

  lemma CheckGrows(s: Sys, c: Check)
    ensures s.passed <= WorkerCheck(s, c).0.passed && s.nonces == WorkerCheck(s, c).0.nonces
  {
    hide Written;
  }

  lemma FinishGrows(s: Sys, ok: bool, handled: set<Q.Service>, o: Outcome)
    ensures s.passed == WorkerFinish(s, ok, handled, o).passed && s.nonces == WorkerFinish(s, ok, handled, o).nonces
  {
    hide Q.CompleteFile, Q.DiscardFile, Q.ReleaseFile, MarkDone;
  }

  lemma {:induction false} StaysPassed(s: Sys, es: seq<Step>, id: Key)
    requires id in s.passed
    ensures id in Run(s, es).passed
    decreases es
  {
    if es != [] {
      HistoryGrows(s, es[0]);
      StaysPassed(Next(s, es[0]), es[1..], id);
    }
  }
}
