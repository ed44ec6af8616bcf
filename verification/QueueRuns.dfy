/** What the revocation queue guarantees over whole runs: when a task may be
    completed, how leases exclude one another, and that waiting tasks advance. */
module QueueRuns {
  import opened Credentials
  import opened RevocationQueue

  datatype Op =
    | Prepare(id: TaskId, user: User, previous: Gen, target: Gen, services: set<Service>)
    | Require(id: TaskId, services: set<Service>)
    | Claim(id: TaskId)
    | Release(id: TaskId, delay: nat)
    | Attempt(id: TaskId, kickOk: bool, handled: set<Service>)
    | Discard(id: TaskId)

  datatype Timed = At(op: Op, now: nat)

  /** The content after one saved operation; refusals leave it as it is. */
  function Step(q: Tasks, e: Timed): Tasks {
    match e.op
    case Prepare(id, u, p, g, s) =>
      if id !in q && |q| >= TASK_MAX_ENTRIES then q else AfterPrepare(q, id, u, p, g, s, e.now)
    case Require(id, s) => if id in q && s != {} then AfterRequire(q, id, s, e.now) else q
    case Claim(id) => if id in q then AfterClaim(q, id, e.now) else q
    case Release(id, d) => if id in q then AfterRelease(q, id, d, e.now) else q
    case Attempt(id, ok, h) => if id in q then AfterAttempt(q, id, ok, h, e.now) else q
    case Discard(id) => Without(q, id)
  }

  /** `claim_due` returns only the head; callers release with a delay of at most 15 s. */
  ghost predicate Allowed(q: Tasks, e: Timed) {
    && (e.op.Claim? ==> IsHead(q, e.now, e.op.id))
    && (e.op.Release? ==> e.op.delay <= CLAIM_LEASE_SECONDS)
  }

  ghost function Exec(q: Tasks, run: seq<Timed>): Tasks
    decreases run
  {
    if run == [] then q else Exec(Step(q, run[0]), run[1..])
  }

  ghost predicate ValidRun(q: Tasks, start: nat, run: seq<Timed>)
    decreases run
  {
    run != [] ==>
      && start <= run[0].now
      && Allowed(q, run[0])
      && ValidRun(Step(q, run[0]), run[0].now, run[1..])
  }

  // ---------------------------------------------------------------- completion

  /** What has happened to one task since it was created. */
  datatype Stage = Required(services: set<Service>) | Tried(kickOk: bool, handled: set<Service>)

  /** The length of the trailing run of successful attempts. */
  function TrailingSuccesses(h: seq<Stage>): nat {
    if h == [] then 0
    else
      var last := h[|h|-1];
      if last.Required? then TrailingSuccesses(h[..|h|-1])
      else if last.kickOk then 1 + TrailingSuccesses(h[..|h|-1])
      else 0
  }

  /** Service s was required at some stage and no later stage handled it. */
  ghost predicate Outstanding(h: seq<Stage>, s: Service) {
    exists i :: 0 <= i < |h| && h[i].Required? && s in h[i].services
                && forall j :: i < j < |h| && h[j].Tried? ==> s !in h[j].handled
  }

  /** A content together with the history of each task in it. */
  datatype Traced = Traced(tasks: Tasks, past: map<TaskId, seq<Stage>>)

  function TracedStep(t: Traced, e: Timed): Traced {
    var q := Step(t.tasks, e);
    var past :=
      match e.op
      case Prepare(id, u, p, g, s) =>
        if id in t.tasks || id !in q then t.past else t.past[id := [Required(s)]]
      case Require(id, s) =>
        if id in t.past && s != {} then t.past[id := t.past[id] + [Required(s)]] else t.past
      case Claim(id) => t.past
      case Release(id, d) => t.past
      case Attempt(id, ok, h) =>
        if id !in t.past then t.past
        else if id in q then t.past[id := t.past[id] + [Tried(ok, h)]]
        else t.past - {id}
      case Discard(id) => t.past - {id};
    Traced(q, past)
  }

  ghost predicate Faithful(task: Task, h: seq<Stage>) {
    && task.kickSuccesses == Min(2, TrailingSuccesses(h))
    && forall s :: s in task.services <==> Outstanding(h, s)
  }

  ghost predicate TracedInv(t: Traced) {
    && t.tasks.Keys == t.past.Keys
    && forall id :: id in t.tasks ==> Faithful(t.tasks[id], t.past[id])
  }

  lemma OutstandingAfterRequired(h: seq<Stage>, services: set<Service>, s: Service)
    ensures Outstanding(h + [Required(services)], s) <==> Outstanding(h, s) || s in services
  {
    var g := h + [Required(services)];
    if s in services {
      assert g[|h|].Required? && s in g[|h|].services;
    }
    if Outstanding(h, s) {
      var i :| 0 <= i < |h| && h[i].Required? && s in h[i].services
               && forall j :: i < j < |h| && h[j].Tried? ==> s !in h[j].handled;
      assert g[i].Required? && s in g[i].services;
      assert forall j :: i < j < |g| && g[j].Tried? ==> g[j] == h[j];
    }
    if Outstanding(g, s) && s !in services {
      var i :| 0 <= i < |g| && g[i].Required? && s in g[i].services
               && forall j :: i < j < |g| && g[j].Tried? ==> s !in g[j].handled;
      assert i < |h| && h[i] == g[i];
      assert forall j :: i < j < |h| ==> h[j] == g[j];
    }
  }

  lemma OutstandingAfterTried(h: seq<Stage>, ok: bool, handled: set<Service>, s: Service)
    ensures Outstanding(h + [Tried(ok, handled)], s) <==> Outstanding(h, s) && s !in handled
  {
    var g := h + [Tried(ok, handled)];
    if Outstanding(h, s) && s !in handled {
      var i :| 0 <= i < |h| && h[i].Required? && s in h[i].services
               && forall j :: i < j < |h| && h[j].Tried? ==> s !in h[j].handled;
      assert g[i].Required? && s in g[i].services;
      assert forall j :: i < j < |h| ==> h[j] == g[j];
    }
    if Outstanding(g, s) {
      var i :| 0 <= i < |g| && g[i].Required? && s in g[i].services
               && forall j :: i < j < |g| && g[j].Tried? ==> s !in g[j].handled;
      assert i < |h| && h[i] == g[i];
      assert g[|h|].Tried?;
      assert forall j :: i < j < |h| ==> h[j] == g[j];
    }
  }

  lemma FaithfulAfterTried(task: Task, h: seq<Stage>, ok: bool, handled: set<Service>)
    requires Faithful(task, h)
    ensures Faithful(Attempted(task, ok, handled), h + [Tried(ok, handled)])
  {
    var g := h + [Tried(ok, handled)];
    assert g[..|g|-1] == h;
    forall s ensures Outstanding(g, s) <==> Outstanding(h, s) && s !in handled {
      OutstandingAfterTried(h, ok, handled, s);
    }
  }

  lemma FaithfulAfterRequired(task: Task, h: seq<Stage>, services: set<Service>)
    requires Faithful(task, h)
    ensures Faithful(task.(services := task.services + services), h + [Required(services)])
  {
    var g := h + [Required(services)];
    assert g[..|g|-1] == h;
    forall s ensures Outstanding(g, s) <==> Outstanding(h, s) || s in services {
      OutstandingAfterRequired(h, services, s);
    }
  }

  lemma FaithfulNew(user: User, previous: Gen, target: Gen, services: set<Service>, now: nat)
    ensures Faithful(NewTask(user, previous, target, services, now), [Required(services)])
  {
    var h := [Required(services)];
    assert TrailingSuccesses(h) == TrailingSuccesses(h[..0]) == 0;
    forall s ensures Outstanding(h, s) <==> s in services {
      assert h[0].Required?;
    }
  }

  lemma FaithfulIgnoresTimes(a: Task, b: Task, h: seq<Stage>)
    requires Faithful(a, h) && a.kickSuccesses == b.kickSuccesses && a.services == b.services
    ensures Faithful(b, h)
  {
  }

  lemma TracedInvKept(t: Traced, e: Timed)
    requires TracedInv(t)
    ensures TracedInv(TracedStep(t, e))
  {
    var n := TracedStep(t, e);
    var id := e.op.id;
    assert n.tasks.Keys == n.past.Keys;
    forall x | x in n.tasks
      ensures Faithful(n.tasks[x], n.past[x])
    {
      if x != id {
        assert x in t.tasks && n.tasks[x] == t.tasks[x] && n.past[x] == t.past[x];
      } else if id !in t.tasks {
        FaithfulNew(e.op.user, e.op.previous, e.op.target, e.op.services, e.now);
      } else {
        match e.op
        case Require(_, s) =>
          if s != {} {
            FaithfulAfterRequired(t.tasks[id], t.past[id], s);
            FaithfulIgnoresTimes(t.tasks[id].(services := t.tasks[id].services + s), n.tasks[id], n.past[id]);
          }
        case Attempt(_, ok, h) =>
          FaithfulAfterTried(t.tasks[id], t.past[id], ok, h);
          FaithfulIgnoresTimes(Attempted(t.tasks[id], ok, h), n.tasks[id], n.past[id]);
        case Discard(_) =>
        case Prepare(_, _, _, _, _) =>
          FaithfulIgnoresTimes(t.tasks[id], n.tasks[id], n.past[id]);
        case Claim(_) =>
          FaithfulIgnoresTimes(t.tasks[id], n.tasks[id], n.past[id]);
        case Release(_, _) =>
          FaithfulIgnoresTimes(t.tasks[id], n.tasks[id], n.past[id]);
      }
    }
  }

  ghost function TracedExec(t: Traced, run: seq<Timed>): Traced
    decreases run
  {
    if run == [] then t else TracedExec(TracedStep(t, run[0]), run[1..])
  }

  /** Over every history: the recorded success count is min(2, trailing successes), and
      the recorded services are those required and not handled since. */
  lemma {:induction false} HistoriesAreFaithful(t: Traced, run: seq<Timed>)
    requires TracedInv(t)
    ensures TracedInv(TracedExec(t, run))
    ensures TracedExec(t, run).tasks == Exec(t.tasks, run)
    decreases run
  {
    if run != [] {
      TracedInvKept(t, run[0]);
      HistoriesAreFaithful(TracedStep(t, run[0]), run[1..]);
    }
  }

  ghost function Attempts(h: seq<Stage>): seq<Stage> {
    if h == [] then []
    else Attempts(h[..|h|-1]) + if h[|h|-1].Tried? then [h[|h|-1]] else []
  }

  ghost predicate LastTwoSucceeded(h: seq<Stage>) {
    var a := Attempts(h);
    |a| >= 2 && a[|a|-1].Tried? && a[|a|-1].kickOk && a[|a|-2].Tried? && a[|a|-2].kickOk
  }

  lemma {:induction false} TrailingIsLastAttempts(h: seq<Stage>)
    ensures TrailingSuccesses(h) >= 1 <==>
            |Attempts(h)| >= 1 && Attempts(h)[|Attempts(h)|-1].Tried? && Attempts(h)[|Attempts(h)|-1].kickOk
    ensures TrailingSuccesses(h) >= 2 <==> LastTwoSucceeded(h)
    decreases h
  {
    if h != [] {
      TrailingIsLastAttempts(h[..|h|-1]);
    }
  }

  /** A task leaves the queue through `complete_attempt` exactly when, counting this
      attempt, the last two attempts succeeded and every service ever required has
      been handled after it was last required. */
  lemma CompletionIsEarned(t: Traced, id: TaskId, ok: bool, handled: set<Service>, now: nat)
    requires TracedInv(t) && id in t.tasks
    ensures id !in TracedStep(t, At(Attempt(id, ok, handled), now)).tasks <==>
              var h := t.past[id] + [Tried(ok, handled)];
              LastTwoSucceeded(h) && forall s :: !Outstanding(h, s)
  {
    hide LastTwoSucceeded, Outstanding, TrailingSuccesses;
    var h := t.past[id] + [Tried(ok, handled)];
    FaithfulAfterTried(t.tasks[id], t.past[id], ok, handled);
    TrailingIsLastAttempts(h);
    var after := Attempted(t.tasks[id], ok, handled);
    assert after.services == {} <==> forall s :: s !in after.services;
  }

  // -------------------------------------------------------------------- leases

  ghost predicate EndsLease(op: Op, id: TaskId) {
    (op.Release? || op.Attempt? || op.Discard?) && op.id == id
  }

  lemma {:induction false} TimesIncrease(q: Tasks, start: nat, run: seq<Timed>, k: nat)
    requires ValidRun(q, start, run) && k < |run|
    ensures start <= run[0].now <= run[k].now
    decreases run
  {
    if k > 0 {
      TimesIncrease(Step(q, run[0]), run[0].now, run[1..], k - 1);
    }
  }

  /** A task whose lease is running is claimed again only after something ended it. */
  lemma {:induction false} LeaseEndsFirst(q: Tasks, start: nat, run: seq<Timed>, id: TaskId, j: nat)
    requires ValidRun(q, start, run) && j < |run| && run[j].op == Claim(id)
    requires id in q && run[j].now < q[id].leaseUntil
    ensures exists k :: 0 <= k < j && EndsLease(run[k].op, id)
    decreases run
  {
    TimesIncrease(q, start, run, j);
    if !EndsLease(run[0].op, id) {
      var n := Step(q, run[0]);
      assert run[0].op != Claim(id);
      assert j > 0 && id in n && n[id].leaseUntil == q[id].leaseUntil;
      LeaseEndsFirst(n, run[0].now, run[1..], id, j - 1);
      var k :| 0 <= k < j - 1 && EndsLease(run[1..][k].op, id);
      assert EndsLease(run[k+1].op, id);
    } else {
      assert run[0].op != Claim(id);
    }
  }

  /** Two claims of one task less than a lease apart have a release, a completion
      attempt or a discard of that task between them. */
  lemma {:induction false} ClaimsAreSeparated(q: Tasks, start: nat, run: seq<Timed>, i: nat, j: nat, id: TaskId)
    requires ValidRun(q, start, run)
    requires i < j < |run| && run[i].op == Claim(id) && run[j].op == Claim(id)
    requires run[j].now < run[i].now + CLAIM_LEASE_SECONDS
    ensures exists k :: i < k < j && EndsLease(run[k].op, id)
    decreases run
  {
    var n := Step(q, run[0]);
    if i == 0 {
      assert n[id].leaseUntil == run[0].now + CLAIM_LEASE_SECONDS;
      LeaseEndsFirst(n, run[0].now, run[1..], id, j - 1);
      var k :| 0 <= k < j - 1 && EndsLease(run[1..][k].op, id);
      assert EndsLease(run[k+1].op, id);
    } else {
      ClaimsAreSeparated(n, run[0].now, run[1..], i - 1, j - 1, id);
      var k :| i - 1 < k < j - 1 && EndsLease(run[1..][k].op, id);
      assert EndsLease(run[k+1].op, id);
    }
  }

  // ------------------------------------------------------------------ progress

  ghost predicate ClaimableBy(q: Tasks, deadline: nat) {
    forall id :: id in q ==> Due(q[id], deadline)
  }

  lemma {:induction false} StepsStayClaimable(q: Tasks, start: nat, run: seq<Timed>)
    requires ValidRun(q, start, run)
    requires ClaimableBy(q, start + CLAIM_LEASE_SECONDS)
    ensures ClaimableBy(Exec(q, run), (if run == [] then start else run[|run|-1].now) + CLAIM_LEASE_SECONDS)
    decreases run
  {
    if run != [] {
      StepsStayClaimable(Step(q, run[0]), run[0].now, run[1..]);
    }
  }

  /** After any run from an empty queue every task is claimable again within a lease
      of the last operation, and the queue never exceeds its bound. */
  lemma EveryTaskBecomesClaimable(run: seq<Timed>)
    requires ValidRun(map[], 0, run) && run != []
    ensures ClaimableBy(Exec(map[], run), run[|run|-1].now + CLAIM_LEASE_SECONDS)
    ensures |Exec(map[], run)| <= TASK_MAX_ENTRIES
  {
    StepsStayClaimable(map[], 0, run);
    SizeStaysBounded(map[], run);
  }

  lemma {:induction false} SizeStaysBounded(q: Tasks, run: seq<Timed>)
    requires |q| <= TASK_MAX_ENTRIES
    ensures |Exec(q, run)| <= TASK_MAX_ENTRIES
    decreases run
  {
    if run != [] {
      var n := Step(q, run[0]);
      var id := run[0].op.id;
      if id in q {
        if id in n {
          assert n.Keys == q.Keys;
        } else {
          assert n.Keys == q.Keys - {id};
        }
      } else if run[0].op.Discard? {
        assert n == q;
      }
      assert |n.Keys| <= TASK_MAX_ENTRIES;
      SizeStaysBounded(n, run[1..]);
    }
  }

  /** The tasks ordered ahead of w. */
  ghost function Ahead(q: Tasks, w: TaskId): set<TaskId>
    requires w in q
  {
    set x | x in q && Before(q, x, w)
  }

  /** Neither an insertion nor a service addition. */
  ghost predicate NoArrivals(run: seq<Timed>) {
    forall e :: e in run ==> !e.op.Prepare? && !e.op.Require?
  }

  ghost predicate Spares(run: seq<Timed>, w: TaskId) {
    forall e :: e in run ==> e.op.id != w
  }

  ghost predicate Waiting(q: Tasks, w: TaskId, now: nat) {
    w in q && Due(q[w], now)
  }

  /** Finishing any other task puts it behind a waiting due task, or out of the queue. */
  lemma FinishingMovesBehind(q: Tasks, e: Timed, w: TaskId)
    requires Waiting(q, w, e.now) && e.op.id != w
    requires e.op.Release? || e.op.Attempt? || e.op.Discard?
    ensures w in Step(q, e) && Step(q, e)[w] == q[w]
    ensures Ahead(Step(q, e), w) == Ahead(q, w) - {e.op.id}
  {
    var n := Step(q, e);
    forall x
      ensures x in Ahead(n, w) <==> x in Ahead(q, w) - {e.op.id}
    {
      if x != e.op.id {
        assert x in n <==> x in q;
        assert x in q ==> n[x] == q[x];
      }
    }
  }

  lemma OthersKeepTheOrder(q: Tasks, e: Timed, w: TaskId)
    requires w in q && e.op.Claim?
    ensures w in Step(q, e) && Ahead(Step(q, e), w) == Ahead(q, w)
  {
    var n := Step(q, e);
    assert n.Keys == q.Keys;
    forall x ensures x in Ahead(n, w) <==> x in Ahead(q, w) {
    }
  }

  /** The claims of tasks other than w that were finished in this run. */
  ghost function FinishedAhead(q: Tasks, run: seq<Timed>, w: TaskId): nat
    requires w in q
    decreases run
  {
    if run == [] then 0
    else
      var e := run[0];
      var n := Step(q, e);
      (if EndsLease(e.op, e.op.id) && e.op.id in Ahead(q, w) then 1 else 0)
      + if w in n then FinishedAhead(n, run[1..], w) else 0
  }

  /** With no arrivals, only tasks ahead of a waiting due task w are claimed, and every
      such claim that finishes shortens the line before w: at most |Ahead| of them
      finish before it is w's turn. */
  lemma {:induction false} WaitingTaskAdvances(q: Tasks, start: nat, run: seq<Timed>, w: TaskId)
    requires ValidRun(q, start, run) && NoArrivals(run) && Spares(run, w)
    requires Waiting(q, w, start)
    ensures w in Exec(q, run)
    ensures |Ahead(Exec(q, run), w)| + FinishedAhead(q, run, w) == |Ahead(q, w)|
    ensures forall e :: e in run && e.op.Claim? ==> e.op.id in Ahead(q, w)
    decreases run
  {
    if run != [] {
      var e := run[0];
      assert e in run;
      var n := Step(q, e);
      if e.op.Claim? {
        OthersKeepTheOrder(q, e, w);
      } else {
        FinishingMovesBehind(q, e, w);
      }
      assert n[w] == q[w];
      forall x | x in run[1..] ensures x in run {
      }
      WaitingTaskAdvances(n, e.now, run[1..], w);
      forall c | c in run && c.op.Claim? ensures c.op.id in Ahead(q, w) {
        if c != e {
          assert c in run[1..];
        }
      }
    }
  }
}
