/** Credential rotation, deletion and revocation as one state machine over three
    crash-prone files (hysteria/credential_service.py, admin_credential_service.py,
    user_deletion_service.py, revocation_service.py).

    Each section that runs under the usage lock is one step; a crash between two of
    its writes is the later write not replacing anything, followed by a crash step.
    The worker claims a task, inspects users.json and settles the task in three
    separate steps, because the source takes three separate locks. */
module CredentialProtocol {
  import opened Credentials
  import opened DurableFile
  import Q = RevocationQueue
  import R = RotationReceipts

  type Key = nat

  datatype Verdict = Retire | GiveBack | Proceed

  /** What the worker holds between its locked sections. */
  datatype Holding =
    | Idle
    | Claimed(id: Key, task: Q.Task)
    | Decided(id: Key, task: Q.Task, verdict: Verdict)

  /** The latest commit that became visible for a user, and whether its task has been
      completed since. */
  datatype Commit = Commit(key: Key, target: Gen, done: bool)

  datatype Deletion = Deletion(user: User, entry: Entry)

  datatype Sys = Sys(
    users: File<Users>,
    queue: File<Q.Tasks>,
    receipts: File<R.Receipts>,
    worker: Holding,
    rotating: set<Key>,            // rotation handlers that may still record a kick
    deleting: map<Key, Deletion>,  // deletion handlers that have not recorded theirs
    nextToken: nat,
    now: nat,
    // history
    last: map<User, Commit>,
    installs: multiset<nat>,       // credentials made visible since the last machine crash
    passed: set<Key>,              // deletion tasks the worker has carried out or found superseded
    kicked: set<Key>,              // deletion tasks whose handler recorded its kick
    nonces: set<Key>,              // digests of server-side nonces
    used: set<Key>)                // digests of every task ever prepared

  datatype Sync = Synced | Critical | OtherError

  // --------------------------------------------------------- self-service rotation

  datatype Rotation = Rotation(
    validId: bool, user: User, posted: nat, key: Key, session: R.Session,
    sessionAllows: bool, today: nat,
    lookup: Outcome, receipt: Outcome, task: Outcome, save: Outcome, readable: bool,
    dropReceipt: Outcome, dropTask: Outcome, sync: Sync)

  datatype RotationReply =
    | BadRequest | Forbidden | Disabled | Expired | Conflicting
    | Raised
    | Ok(token: nat, durabilityUncertain: bool, syncPending: bool, replayed: bool)

  const BOTH: set<Q.Service> := {Q.Xray, Q.Tuic}

  function Rotate(s: Sys, r: Rotation): (Sys, RotationReply) {
    if !r.validId then (s, BadRequest)
    else
      var (f, found) := R.LookupFile(s.receipts, r.key, r.session, s.now, r.lookup);
      var s1 := s.(receipts := f);
      if found.LookupFailed? then (s1, Raised)
      else if r.user !in s.users.visible || s.users.visible[r.user].Malformed? then (s1, Forbidden)
      else if found.Found? then
        WithReceipt(s1, r, found.receipt.previous, found.receipt.token, true)
      else
        var entry := s.users.visible[r.user];
        if r.session == 0 || !r.sessionAllows || !SecretEqual(r.posted, entry.cred) then (s1, Forbidden)
        else if entry.disabled then (s1, Disabled)
        else if IsExpired(entry, r.today) then (s1, Expired)
        else WithReceipt(s1.(nextToken := s1.nextToken + 1), r, TokenGen(entry.cred), s1.nextToken, false)
  }

  function WithReceipt(s: Sys, r: Rotation, previous: Gen, token: nat, replayed: bool): (Sys, RotationReply) {
    var (f, reply) := R.PrepareFile(s.receipts, r.key, r.user, r.session, previous, token, s.now, r.receipt);
    var s1 := s.(receipts := f);
    match reply
    case NotPermitted => (s1, Forbidden)
    case Full => (s1, Raised)
    case SaveFailed(_) => (s1, Raised)
    case Ready(receipt) => WithTask(s1, r, receipt, replayed)
  }

  function WithTask(s: Sys, r: Rotation, receipt: R.Receipt, replayed: bool): (Sys, RotationReply) {
    var (f, reply) := Q.PrepareFile(s.queue, r.key, r.user, receipt.previous, TokenGen(receipt.token),
                                    BOTH, s.now, r.task);
    var s1 := s.(queue := f, used := s.used + {r.key});
    match reply
    case BindingMismatch => (s1, Conflicting)
    case CapacityFull => (s1, Raised)
    case PrepareFailed(_) => (s1, Raised)
    case Prepared(_) => CommitOrReplay(s1, r, receipt, replayed)
  }

  function CommitOrReplay(s: Sys, r: Rotation, receipt: R.Receipt, replayed: bool): (Sys, RotationReply) {
    var current := CredOf(s.users.visible, r.user);
    if TokenGen(current) == TokenGen(receipt.token) then
      Answered(Rewrite(s, r.save), r, receipt, replayed)
    else if TokenGen(current) == receipt.previous && SecretEqual(r.posted, current) then
      Answered(Install(s, r.user, receipt.token, r.key, r.save), r, receipt, replayed)
    else
      Abandon(s, r)
  }

  /** The superseded request: both its records are dropped. */
  function Abandon(s: Sys, r: Rotation): (Sys, RotationReply) {
    var s1 := DropReceipt(s, r.key, r.dropReceipt);
    if r.key in s.receipts.visible && !r.dropReceipt.Durable? then (s1, Raised)
    else
      var s2 := s1.(queue := Q.DiscardFile(s1.queue, r.key, r.dropTask));
      if r.key in s1.queue.visible && !r.dropTask.Durable? then (s2, Raised) else (s2, Conflicting)
  }

  function DropReceipt(s: Sys, key: Key, o: Outcome): Sys {
    s.(receipts := R.DiscardFile(s.receipts, key, o))
  }

  function Answered(s: Sys, r: Rotation, receipt: R.Receipt, replayed: bool): (Sys, RotationReply) {
    if r.save.NotReplaced? || (r.save.Unsynced? && !r.readable) then (s, Raised)
    else if r.save.Durable? && r.sync.OtherError? then (s, Raised)
    else
      (s.(rotating := s.rotating + {r.key}),
       Ok(receipt.token, r.save.Unsynced?, r.save.Unsynced? || r.sync.Critical?, replayed))
  }

  /** Saving users.json unchanged, to establish a fresh durability point. */
  function Rewrite(s: Sys, o: Outcome): Sys {
    s.(users := Written(s.users, s.users.visible, o))
  }

  /** Saving users.json with a new credential for an existing account. */
  function Install(s: Sys, user: User, token: nat, key: Key, o: Outcome): Sys
  {
    if o.NotReplaced? || user !in s.users.visible || s.users.visible[user].Malformed? then s
    else
      var content := s.users.visible[user := s.users.visible[user].(cred := token)];
      s.(users := Written(s.users, content, o),
         last := s.last[user := Commit(key, TokenGen(token), false)],
         installs := s.installs + multiset{token})
  }

  // -------------------------------------------------------------- other requests

  datatype AdminRotation = AdminRotation(
    user: User, expected: Entry, key: Key,
    task: Outcome, save: Outcome, readable: bool, sync: Sync)

  datatype MutationReply = NotFound | StaleRevision | Failed | Success(token: nat)

  function AdminRotate(s: Sys, r: AdminRotation): (Sys, MutationReply) {
    var users := s.users.visible;
    if r.user !in users || users[r.user].Malformed? then (s, NotFound)
    else if users[r.user] != r.expected then (s, StaleRevision)
    else
      var token := s.nextToken;
      var (f, reply) := Q.PrepareFile(s.queue, r.key, r.user, TokenGen(users[r.user].cred), TokenGen(token),
                                      BOTH, s.now, r.task);
      var s1 := s.(queue := f, nextToken := token + 1, used := s.used + {r.key}, nonces := s.nonces + {r.key});
      if !reply.Prepared? then (s1, Failed)
      else
        var s2 := Install(s1, r.user, token, r.key, r.save);
        if r.save.NotReplaced? || (r.save.Unsynced? && !r.readable) then (s2, Failed)
        else if r.save.Durable? && r.sync.OtherError? then (s2, Failed)
        else (s2.(rotating := s2.rotating + {r.key}), Success(token))
  }

  datatype DeleteRequest = DeleteRequest(
    user: User, expected: Entry, key: Key, task: Outcome, save: Outcome)

  /** The deletion request, and whether it went on to purge the user's history. */
  function Delete(s: Sys, r: DeleteRequest): (Sys, MutationReply, bool) {
    var users := s.users.visible;
    if r.user !in users || users[r.user].Malformed? then (s, NotFound, false)
    else if users[r.user] != r.expected then (s, StaleRevision, false)
    else
      var entry := users[r.user];
      var (f, reply) := Q.PrepareFile(s.queue, r.key, r.user, RevisionOf(entry), UserDeleted, BOTH, s.now, r.task);
      var s1 := s.(queue := f, used := s.used + {r.key}, nonces := s.nonces + {r.key});
      if !reply.Prepared? then (s1, Failed, false)
      else
        var s2 := Remove(s1, r.user, r.key, r.save);
        (s2.(deleting := s2.deleting[r.key := Deletion(r.user, entry)]), Success(0), r.save.Durable?)
  }

  /** Saving users.json without the user. */
  function Remove(s: Sys, user: User, key: Key, o: Outcome): Sys {
    if o.NotReplaced? then s
    else if user !in s.users.visible then Rewrite(s, o)
    else
      s.(users := Written(s.users, s.users.visible - {user}, o),
         last := s.last[user := Commit(key, UserDeleted, false)])
  }

  /** A same-name replacement: account creation draws a fresh credential. */
  function Create(s: Sys, user: User, disabled: bool, expiresOn: nat, rest: nat, o: Outcome): Sys {
    if user in s.users.visible then s
    else
      var s1 := s.(nextToken := s.nextToken + 1);
      if o.NotReplaced? then s1
      else
        var content := s.users.visible[user := Account(s.nextToken, disabled, expiresOn, rest)];
        s1.(users := Written(s.users, content, o), last := s.last - {user},
            installs := s.installs + multiset{s.nextToken})
  }

  // -------------------------------------------------- side effects of the handlers

  function HandlerRequire(s: Sys, key: Key, services: set<Q.Service>, o: Outcome): Sys {
    s.(queue := Q.RequireFile(s.queue, key, services, s.now, o))
  }

  /** Recording an attempt; a task that leaves the queue is completed. */
  function RecordAttempt(s: Sys, key: Key, kickOk: bool, handled: set<Q.Service>, o: Outcome): Sys {
    var f := Q.CompleteFile(s.queue, key, kickOk, handled, s.now, o);
    var completed := key in s.queue.visible && key !in f.visible;
    s.(queue := f,
       last := if completed then MarkDone(s.last, key) else s.last)
  }

  function MarkDone(last: map<User, Commit>, key: Key): map<User, Commit> {
    map u | u in last :: if last[u].key == key then last[u].(done := true) else last[u]
  }

  function HandlerKick(s: Sys, key: Key, kickOk: bool, handled: set<Q.Service>, o: Outcome): Sys {
    var s1 := RecordAttempt(s, key, kickOk, handled, o);
    if key in s.deleting then s1.(deleting := s.deleting - {key}, kicked := s.kicked + {key}) else s1
  }

  // ------------------------------------------------------------------- the worker

  function WorkerClaim(s: Sys, id: Key, o: Outcome): Sys {
    if id !in s.queue.visible then s
    else
      var q := Q.AfterClaim(s.queue.visible, id, s.now);
      s.(queue := Written(s.queue, q, o), worker := if o.Durable? then Claimed(id, q[id]) else Idle)
  }

  predicate IsDeletion(task: Q.Task) {
    task.target == UserDeleted
  }

  /** The user is present, but not as the account incarnation the task names. */
  predicate Superseded(users: Users, task: Q.Task) {
    task.user in users && RevisionOf(users[task.user]) != task.previous
  }

  datatype Check = Check(loads: bool, save: Outcome, purges: bool)

  /** The worker's section under the usage lock, and whether it purged history. */
  function WorkerCheck(s: Sys, c: Check): (Sys, bool) {
    if !s.worker.Claimed? then (s, false)
    else
      var id, task := s.worker.id, s.worker.task;
      if !c.loads then (s.(worker := Decided(id, task, GiveBack)), false)
      else if IsDeletion(task) then
        if Superseded(s.users.visible, task) then
          (s.(worker := Decided(id, task, Proceed), passed := s.passed + {id}), false)
        else
          var s1 := Remove(s, task.user, id, c.save);
          if !c.save.Durable? then (s1.(worker := Decided(id, task, GiveBack)), false)
          else if !c.purges then (s1.(worker := Decided(id, task, GiveBack)), true)
          else (s1.(worker := Decided(id, task, Proceed), passed := s.passed + {id}), true)
      else
        var generation := CredentialGeneration(s.users.visible, task.user);
        var verdict :=
          if generation == task.target then Proceed
          else if generation == task.previous && task.expiresAt > s.now then GiveBack
          else Retire;
        (s.(worker := Decided(id, task, verdict)), false)
  }

  function WorkerFinish(s: Sys, kickOk: bool, handled: set<Q.Service>, o: Outcome): Sys {
    if !s.worker.Decided? then s
    else
      var id := s.worker.id;
      var s1 := s.(worker := Idle);
      match s.worker.verdict
      case Retire => s1.(queue := Q.DiscardFile(s1.queue, id, o))
      case GiveBack => s1.(queue := Q.ReleaseFile(s1.queue, id, Q.RETRY_DELAY_SECONDS, s1.now, o))
      case Proceed => RecordAttempt(s1, id, kickOk, handled, o)
  }

  // ------------------------------------------------------------------------- steps

  datatype Op =
    | SelfRotate(rotation: Rotation)
    | Administer(admin: AdminRotation)
    | DeleteUser(deletion: DeleteRequest)
    | CreateUser(user: User, disabled: bool, expiresOn: nat, rest: nat, o: Outcome)
    | BindSession(key: Key, original: R.Session, replacement: R.Session, o: Outcome)
    | PruneReceipts(o: Outcome)
    | RequireServices(key: Key, services: set<Q.Service>, o: Outcome)
    | Kick(key: Key, kickOk: bool, handled: set<Q.Service>, o: Outcome)
    | ClaimTask(id: Key, o: Outcome)
    | CheckTask(check: Check)
    | FinishTask(kickOk: bool, handled: set<Q.Service>, o: Outcome)
    | ProcessCrash
    | MachineCrash(users: Users, queue: Q.Tasks, receipts: R.Receipts)

  function Killed(s: Sys): Sys {
    s.(worker := Idle, rotating := {}, deleting := map[])
  }

  function Apply(s: Sys, op: Op): Sys {
    match op
    case SelfRotate(r) => Rotate(s, r).0
    case Administer(r) => AdminRotate(s, r).0
    case DeleteUser(r) => Delete(s, r).0
    case CreateUser(u, d, e, rest, o) => Create(s, u, d, e, rest, o)
    case BindSession(k, a, b, o) => s.(receipts := R.BindFile(s.receipts, k, a, b, s.now, o))
    case PruneReceipts(o) => s.(receipts := R.PruneFile(s.receipts, s.now, o))
    case RequireServices(k, services, o) => HandlerRequire(s, k, services, o)
    case Kick(k, ok, handled, o) => HandlerKick(s, k, ok, handled, o)
    case ClaimTask(id, o) => WorkerClaim(s, id, o)
    case CheckTask(c) => WorkerCheck(s, c).0
    case FinishTask(ok, handled, o) => WorkerFinish(s, ok, handled, o)
    case ProcessCrash => Killed(s)
    case MachineCrash(u, q, r) =>
      Killed(s).(users := Rebooted(u), queue := Rebooted(q), receipts := Rebooted(r), installs := multiset{})
  }

  datatype Step = Step(op: Op, now: nat)

  function Next(s: Sys, e: Step): Sys {
    Apply(s.(now := e.now), e.op)
  }

  /** The assumptions on the environment: time does not go back, nonces and digests do
      not collide, handlers record only for tasks they committed, the worker claims the
      head of the line, and a crash leaves one of the possible contents. */
  ghost predicate Enabled(s: Sys, e: Step) {
    && s.now <= e.now
    && match e.op
       case SelfRotate(r) => r.key !in s.nonces
       case Administer(r) => r.key !in s.used
       case DeleteUser(r) => r.key !in s.used
       case RequireServices(k, _, _) => k in s.rotating || k in s.deleting
       case Kick(k, _, _, _) => k in s.rotating || k in s.deleting
       case ClaimTask(id, _) => s.worker.Idle? && Q.IsHead(s.queue.visible, e.now, id)
       case CheckTask(_) => s.worker.Claimed?
       case FinishTask(_, _, _) => s.worker.Decided?
       case MachineCrash(u, q, r) => u in s.users.possible && q in s.queue.possible && r in s.receipts.possible
       case _ => true
  }

  ghost predicate Initial(s: Sys) {
    && s.users == Rebooted(s.users.visible)
    && s.queue == Rebooted(map[]) && s.receipts == Rebooted(map[])
    && s.worker == Idle && s.rotating == {} && s.deleting == map[]
    && s.nextToken > 0
    && (forall u :: u in s.users.visible ==> CredOf(s.users.visible, u) < s.nextToken)
    && s.last == map[] && s.installs == multiset{}
    && s.passed == {} && s.kicked == {} && s.nonces == {} && s.used == {}
  }
}
