/** The credential services as they run: requests and the worker change the files and
    the server's memory in place, write by write.  Each method is proved against its
    transaction in `CredentialProtocol`. */
module CredentialServer {
  import opened Credentials
  import opened DurableFile
  import opened CredentialProtocol
  import Q = RevocationQueue
  import R = RotationReceipts

  class Server {
    var users: File<Users>
    const queue: Q.TaskQueue
    const receipts: R.ReceiptStore
    var worker: Holding
    var rotating: set<Key>
    var deleting: map<Key, Deletion>
    var nextToken: nat
    var now: nat
    ghost var last: map<User, Commit>
    ghost var installs: multiset<nat>
    ghost var passed: set<Key>
    ghost var kicked: set<Key>
    ghost var nonces: set<Key>
    ghost var used: set<Key>

    ghost function View(): Sys
      reads this, queue, receipts
    {
      Sys(users, queue.file, receipts.file, worker, rotating, deleting, nextToken, now,
          last, installs, passed, kicked, nonces, used)
    }

    ghost predicate Valid()
      reads this, queue, receipts
    {
      Coherent(users) && queue.Valid() && receipts.Valid()
    }

    constructor (initial: Users, firstToken: nat)
      requires firstToken > 0
      requires forall u :: u in initial ==> CredOf(initial, u) < firstToken
      ensures Valid() && Initial(View()) && View().users == Rebooted(initial)
      ensures fresh(queue) && fresh(receipts)
    {
      users := File(initial, {initial});
      var q := new Q.TaskQueue();
      var r := new R.ReceiptStore();
      queue, receipts := q, r;
      worker, rotating, deleting := Idle, {}, map[];
      nextToken, now := firstToken, 0;
      last, installs := map[], multiset{};
      passed, kicked, nonces, used := {}, {}, {}, {};
    }

    // ------------------------------------------------------------ users.json

    /** `_save_users_for_rotation`: true when the replace happened but its directory entry
        may not be durable; `raised` when the caller sees the exception. */
    method SaveRotated(user: User, token: nat, key: Key, o: Outcome, readable: bool)
      returns (uncertain: bool, raised: bool)
      requires Valid() && user in users.visible && users.visible[user].Account?
      modifies this`users, this`last, this`installs
      ensures Valid()
      ensures View() == Install(old(View()), user, token, key, o)
      ensures raised <==> o.NotReplaced? || (o.Unsynced? && !readable)
      ensures uncertain <==> o.Unsynced? && readable
    {
      var content := users.visible;
      content := content[user := content[user].(cred := token)];
      users := Written(users, content, o);
      if !o.NotReplaced? {
        last := last[user := Commit(key, TokenGen(token), false)];
        installs := installs + multiset{token};
      }
      raised := o.NotReplaced? || (o.Unsynced? && !readable);
      uncertain := o.Unsynced? && readable;
    }

    method SaveWithout(user: User, key: Key, o: Outcome)
      requires Valid()
      modifies this`users, this`last
      ensures Valid()
      ensures View() == Remove(old(View()), user, key, o)
    {
      var content := users.visible;
      if user in content {
        content := content - {user};
        if !o.NotReplaced? {
          last := last[user := Commit(key, UserDeleted, false)];
        }
      }
      users := Written(users, content, o);
    }

    // -------------------------------------------------------------- requests

    method RecoverableUserRotation(r: Rotation) returns (reply: RotationReply)
      requires Valid()
      modifies this, queue, receipts
      ensures Valid()
      ensures (View(), reply) == Rotate(old(View()), r)
    {
      if !r.validId {
        return BadRequest;
      }
      var found := receipts.LookupBound(r.key, r.session, now, r.lookup);
      if found.LookupFailed? {
        return Raised;
      }
      if r.user !in users.visible || users.visible[r.user].Malformed? {
        return Forbidden;
      }
      var entry := users.visible[r.user];
      var replayed := found.Found?;
      var previous, token;
      if replayed {
        previous, token := found.receipt.previous, found.receipt.token;
      } else {
        if r.session == 0 || !r.sessionAllows || !SecretEqual(r.posted, entry.cred) {
          return Forbidden;
        }
        if entry.disabled {
          return Disabled;
        }
        if IsExpired(entry, r.today) {
          return Expired;
        }
        previous, token := TokenGen(entry.cred), nextToken;
        nextToken := nextToken + 1;
      }
      reply := CommitWithReceipt(r, previous, token, replayed);
    }

    method CommitWithReceipt(r: Rotation, previous: Gen, token: nat, replayed: bool) returns (reply: RotationReply)
      requires Valid() && r.session != 0
      requires r.user in users.visible && users.visible[r.user].Account?
      modifies this, queue, receipts
      ensures Valid()
      ensures (View(), reply) == WithReceipt(old(View()), r, previous, token, replayed)
    {
      var prepared := receipts.Prepare(r.key, r.user, r.session, previous, token, now, r.receipt);
      if prepared.NotPermitted? {
        return Forbidden;
      }
      if !prepared.Ready? {
        return Raised;
      }
      var receipt := prepared.receipt;
      used := used + {r.key};
      var queued := queue.Prepare(r.key, r.user, receipt.previous, TokenGen(receipt.token), BOTH, now, r.task);
      if queued.BindingMismatch? {
        return Conflicting;
      }
      if !queued.Prepared? {
        return Raised;
      }
      reply := CommitCanonical(r, receipt, replayed);
    }

    method CommitCanonical(r: Rotation, receipt: R.Receipt, replayed: bool) returns (reply: RotationReply)
      requires Valid() && r.user in users.visible && users.visible[r.user].Account?
      modifies this, queue, receipts
      ensures Valid()
      ensures (View(), reply) == CommitOrReplay(old(View()), r, receipt, replayed)
    {
      var current := users.visible[r.user].cred;
      var raised: bool;
      if TokenGen(current) != TokenGen(receipt.token) {
        if TokenGen(current) != receipt.previous || !SecretEqual(r.posted, current) {
          var held := r.key in receipts.file.visible;
          receipts.Discard(r.key, r.dropReceipt);
          if held && !r.dropReceipt.Durable? {
            return Raised;
          }
          held := r.key in queue.file.visible;
          queue.Discard(r.key, r.dropTask);
          return if held && !r.dropTask.Durable? then Raised else Conflicting;
        }
        var uncertain;
        uncertain, raised := SaveRotated(r.user, receipt.token, r.key, r.save, r.readable);
      } else {
        users := Written(users, users.visible, r.save);
        raised := r.save.NotReplaced? || (r.save.Unsynced? && !r.readable);
      }
      if raised || (r.save.Durable? && r.sync.OtherError?) {
        return Raised;
      }
      rotating := rotating + {r.key};
      return Ok(receipt.token, r.save.Unsynced?, r.save.Unsynced? || r.sync.Critical?, replayed);
    }

    method AdminRotateUser(r: AdminRotation) returns (reply: MutationReply)
      requires Valid()
      modifies this, queue
      ensures Valid()
      ensures (View(), reply) == AdminRotate(old(View()), r)
    {
      hide Q.PrepareFile, Written;
      if r.user !in users.visible || users.visible[r.user].Malformed? {
        return NotFound;
      }
      var entry := users.visible[r.user];
      if entry != r.expected {
        return StaleRevision;
      }
      var token := nextToken;
      nextToken := nextToken + 1;
      used, nonces := used + {r.key}, nonces + {r.key};
      var queued := queue.Prepare(r.key, r.user, TokenGen(entry.cred), TokenGen(token), BOTH, now, r.task);
      if !queued.Prepared? {
        return Failed;
      }
      var uncertain, raised := SaveRotated(r.user, token, r.key, r.save, r.readable);
      if raised || (r.save.Durable? && r.sync.OtherError?) {
        return Failed;
      }
      rotating := rotating + {r.key};
      return Success(token);
    }

    method DeleteAccount(r: DeleteRequest) returns (reply: MutationReply, purged: bool)
      requires Valid()
      modifies this, queue
      ensures Valid()
      ensures (View(), reply, purged) == Delete(old(View()), r)
    {
      purged := false;
      if r.user !in users.visible || users.visible[r.user].Malformed? {
        reply := NotFound;
        return;
      }
      var entry := users.visible[r.user];
      if entry != r.expected {
        reply := StaleRevision;
        return;
      }
      used, nonces := used + {r.key}, nonces + {r.key};
      var queued := queue.Prepare(r.key, r.user, RevisionOf(entry), UserDeleted, BOTH, now, r.task);
      if !queued.Prepared? {
        reply := Failed;
        return;
      }
      SaveWithout(r.user, r.key, r.save);
      // A failed save is left to the worker, which may redo exactly this revision.
      purged := r.save.Durable?;
      deleting := deleting[r.key := Deletion(r.user, entry)];
      reply := Success(0);
    }

    // ------------------------------------------------------------ the worker

    method ClaimTask(o: Outcome) returns (claimed: bool)
      requires Valid() && worker.Idle?
      modifies this, queue
      ensures Valid()
      ensures claimed <==> worker.Claimed?
      ensures View().(queue := old(View()).queue, worker := Idle) == old(View())
      ensures claimed ==> Q.IsHead(old(queue.file.visible), now, worker.id)
                          && View() == WorkerClaim(old(View()), worker.id, o)
      ensures (exists id :: id in old(queue.file.visible) && Q.Due(old(queue.file.visible)[id], now)) && o.Durable?
              ==> claimed
    {
      var r := queue.ClaimDue(now, o);
      if r.Claimed? {
        worker := Claimed(r.id, r.task);
        return true;
      }
      return false;
    }

    method InspectUsers(c: Check) returns (purged: bool)
      requires Valid() && worker.Claimed?
      modifies this
      ensures Valid()
      ensures (View(), purged) == WorkerCheck(old(View()), c)
    {
      var id, task := worker.id, worker.task;
      purged := false;
      if !c.loads {
        worker := Decided(id, task, GiveBack);
        return;
      }
      var data := users.visible;
      if IsDeletion(task) {
        var superseded := task.user in data && RevisionOf(data[task.user]) != task.previous;
        if !superseded {
          SaveWithout(task.user, id, c.save);
          if !c.save.Durable? {
            worker := Decided(id, task, GiveBack);
            return;
          }
          purged := true;
          if !c.purges {
            worker := Decided(id, task, GiveBack);
            return;
          }
        }
        passed := passed + {id};
        worker := Decided(id, task, Proceed);
        return;
      }
      var generation := CredentialGeneration(data, task.user);
      if generation != task.target {
        if generation == task.previous {
          worker := Decided(id, task, if task.expiresAt <= now then Retire else GiveBack);
        } else {
          worker := Decided(id, task, Retire);
        }
        return;
      }
      worker := Decided(id, task, Proceed);
    }

    method SettleTask(kickOk: bool, handled: set<Q.Service>, o: Outcome)
      requires Valid() && worker.Decided?
      modifies this, queue
      ensures Valid()
      ensures View() == WorkerFinish(old(View()), kickOk, handled, o)
    {
      var id, verdict := worker.id, worker.verdict;
      worker := Idle;
      match verdict
      case Retire => queue.Discard(id, o);
      case GiveBack => var released := queue.ReleaseClaim(id, Q.RETRY_DELAY_SECONDS, now, o);
      case Proceed => Record(id, kickOk, handled, o);
    }

    // ----------------------------------------------------------- the handlers

    method Record(key: Key, kickOk: bool, handled: set<Q.Service>, o: Outcome)
      requires Valid()
      modifies this`last, queue
      ensures Valid()
      ensures View() == RecordAttempt(old(View()), key, kickOk, handled, o)
    {
      ghost var before := queue.file.visible;
      var r := queue.CompleteAttempt(key, kickOk, handled, now, o);
      if key in before && key !in queue.file.visible {
        last := MarkDone(last, key);
      }
    }

    method RecordKickAttempt(key: Key, kickOk: bool, handled: set<Q.Service>, o: Outcome)
      requires Valid()
      modifies this, queue
      ensures Valid()
      ensures View() == HandlerKick(old(View()), key, kickOk, handled, o)
    {
      Record(key, kickOk, handled, o);
      if key in deleting {
        deleting := deleting - {key};
        kicked := kicked + {key};
      }
    }
  }
}
