/** Concrete runs of the credential protocol showing that the conditions of the run
    theorems cannot be dropped. */
module ProtocolWitnesses {
  import opened Credentials
  import opened DurableFile
  import opened CredentialProtocol
  import opened ProtocolInvariant
  import opened RevocationCoverage
  import Q = RevocationQueue
  import R = RotationReceipts

  const ALICE: User := "alice"
  const KEY: Key := 7
  const OLD := Account(1, false, 0, 0)

  function Start(): Sys {
    Sys(Rebooted(map[ALICE := OLD]), Rebooted(map[]), Rebooted(map[]), Idle, {}, map[], 2, 0,
        map[], multiset{}, {}, {}, {}, {})
  }

  /** The user's own request, posted with the given credential. */
  function Request(posted: nat, save: Outcome): Rotation {
    Rotation(true, ALICE, posted, KEY, 5, true, 0, Durable, Durable, Durable, save, true, Durable, Durable, Synced)
  }

  function ReceiptFor(token: nat): R.Receipt {
    R.Receipt(ALICE, CredGen(1), token, [5], 1000, 1300)
  }

  function TaskFor(token: nat): Q.Task {
    Q.Task(ALICE, CredGen(1), CredGen(token), 1000, 1600, 1000, 0, 0, 0, BOTH)
  }

  /** After a request whose save of users.json did not happen. */
  function Prepared(): Sys {
    Start().(now := 1000, nextToken := 3, used := {KEY},
             receipts := Rebooted(map[KEY := ReceiptFor(2)]), queue := Rebooted(map[KEY := TaskFor(2)]))
  }

  lemma PreparedByRequest()
    ensures Next(Start(), Step(SelfRotate(Request(1, NotReplaced)), 1000)) == Prepared()
  {
    var s := Start().(now := 1000);
    assert R.Live(s.receipts.visible, 1000) == map[];
    var (f, reply) := R.PrepareFile(s.receipts, KEY, ALICE, 5, CredGen(1), 2, 1000, Durable);
    assert f == Rebooted(map[KEY := ReceiptFor(2)]);
  }

  /** The worker's lease on that task. */
  function Leased(): Sys {
    var t := TaskFor(2).(leaseUntil := 1015, attempts := 1);
    Prepared().(queue := Rebooted(map[KEY := t]), worker := Claimed(KEY, t))
  }

  lemma LeasedByWorker()
    ensures Next(Prepared(), Step(ClaimTask(KEY, Durable), 1000)) == Leased()
    ensures Enabled(Prepared(), Step(ClaimTask(KEY, Durable), 1000))
  {
    var q := Prepared().queue.visible;
    assert Q.AfterClaim(q, KEY, 1000) == Leased().queue.visible;
    assert Q.IsHead(q, 1000, KEY);
  }

  /** A copy of the request posted with another credential drops receipt and task. */
  function Dropped(): Sys {
    Leased().(receipts := Rebooted(map[]), queue := Rebooted(map[]))
  }

  lemma DroppedByConflict()
    ensures Next(Leased(), Step(SelfRotate(Request(9, Durable)), 1000)) == Dropped()
  {
    hide CommitOrReplay, R.PrepareFile, Q.PrepareFile;
    var s := Leased();
    assert R.Live(s.receipts.visible, 1000) == s.receipts.visible;
    assert s.used + {KEY} == s.used;
    HeldRecords();
    AbandonedByConflict();
  }

  lemma HeldRecords()
    ensures var s := Leased();
            && R.PrepareFile(s.receipts, KEY, ALICE, 5, CredGen(1), 2, 1000, Durable)
                == (s.receipts, R.Ready(ReceiptFor(2)))
            && Q.PrepareFile(s.queue, KEY, ALICE, CredGen(1), CredGen(2), BOTH, 1000, Durable).0 == s.queue
            && Q.PrepareFile(s.queue, KEY, ALICE, CredGen(1), CredGen(2), BOTH, 1000, Durable).1.Prepared?
  {
    var s := Leased();
    assert R.Live(s.receipts.visible, 1000) == s.receipts.visible;
  }

  lemma AbandonedByConflict()
    ensures CommitOrReplay(Leased(), Request(9, Durable), ReceiptFor(2), true).0 == Dropped()
  {
    var s := Leased();
    assert s.receipts.visible - {KEY} == map[] && s.queue.visible - {KEY} == map[];
  }

  /** The request is repeated and commits a second fresh credential. */
  function Committed(): Sys {
    Dropped().(users := Rebooted(map[ALICE := OLD.(cred := 3)]), nextToken := 4,
               receipts := Rebooted(map[KEY := ReceiptFor(3)]), queue := Rebooted(map[KEY := TaskFor(3)]),
               rotating := {KEY}, last := map[ALICE := Commit(KEY, CredGen(3), false)],
               installs := multiset{3})
  }

  lemma CommittedByRepeat()
    ensures Next(Dropped(), Step(SelfRotate(Request(1, Durable)), 1000)) == Committed()
  {
    var s := Dropped();
    assert R.Live(s.receipts.visible, 1000) == map[];
    var (f, reply) := R.PrepareFile(s.receipts, KEY, ALICE, 5, CredGen(1), 3, 1000, Durable);
    assert f == Rebooted(map[KEY := ReceiptFor(3)]);
    var (g, ready) := Q.PrepareFile(s.queue, KEY, ALICE, CredGen(1), CredGen(3), BOTH, 1000, Durable);
    assert g == Rebooted(map[KEY := TaskFor(3)]) && ready.Prepared?;
    assert s.used + {KEY} == s.used;
    var s1 := s.(receipts := f, queue := g, nextToken := 4);
    var s2 := Install(s1, ALICE, 3, KEY, Durable);
    assert s2.users.visible == map[ALICE := OLD.(cred := 3)];
    assert s2.installs == multiset{3};
    assert CommitOrReplay(s1, Request(1, Durable), ReceiptFor(3), false)
        == Answered(s2, Request(1, Durable), ReceiptFor(3), false);
  }

  const CHECK := CheckTask(Check(true, Durable, true))
  const FINISH := FinishTask(true, {}, Durable)

  function Discarded(): Sys {
    Committed().(queue := Rebooted(map[]), worker := Idle)
  }

  /** The worker judges the new state by the task it claimed, and discards its key. */
  lemma DiscardedByWorker()
    ensures var checked := Next(Committed(), Step(CHECK, 1000));
            && Enabled(Committed(), Step(CHECK, 1000))
            && Enabled(checked, Step(FINISH, 1000))
            && Next(checked, Step(FINISH, 1000)) == Discarded()
  {
    var checked := Next(Committed(), Step(CHECK, 1000));
    assert CredOf(Committed().users.visible, ALICE) == 3;
    assert checked == Committed().(worker := Decided(KEY, Leased().worker.task, Retire));
    assert Committed().queue.visible - {KEY} == map[];
  }

  lemma DiscardUncovers()
    ensures !Covered(Discarded())
  {
    var end := Discarded();
    assert ShowsEffect(end.users.visible, ALICE, CredGen(3));
    assert Needed(end, ALICE);
    assert map[] in end.queue.possible;
  }

  /** A run that loses the task of a committed rotation: the worker decides on what it
      claimed, and discards the task prepared since under the same key. */
  lemma CollisionLosesTask()
    ensures Initial(Start())
    ensures var es := [Step(SelfRotate(Request(1, NotReplaced)), 1000), Step(ClaimTask(KEY, Durable), 1000),
                       Step(SelfRotate(Request(9, Durable)), 1000), Step(SelfRotate(Request(1, Durable)), 1000),
                       Step(CHECK, 1000), Step(FINISH, 1000)];
            Allowed(Start(), es) && !Covered(Run(Start(), es))
  {
    var es := [Step(SelfRotate(Request(1, NotReplaced)), 1000), Step(ClaimTask(KEY, Durable), 1000),
               Step(SelfRotate(Request(9, Durable)), 1000), Step(SelfRotate(Request(1, Durable)), 1000),
               Step(CHECK, 1000), Step(FINISH, 1000)];
    assert CredOf(Start().users.visible, ALICE) == 1;
    PreparedByRequest();
    LeasedByWorker();
    DroppedByConflict();
    CommittedByRepeat();
    DiscardedByWorker();
    DiscardUncovers();
    hide Next, Rotate, Covered;
    RunOfSix(Start(), es);
  }

  lemma RunOfSix(s: Sys, es: seq<Step>)
    requires |es| == 6
    ensures var a := Next(s, es[0]); var b := Next(a, es[1]); var c := Next(b, es[2]);
            var d := Next(c, es[3]); var e := Next(d, es[4]);
            && Run(s, es) == Next(e, es[5])
            && ((Enabled(s, es[0]) && Enabled(a, es[1]) && Enabled(b, es[2])
                 && Enabled(c, es[3]) && Enabled(d, es[4]) && Enabled(e, es[5])) ==> Allowed(s, es))
  {
    hide Next, Enabled;
    var a := Next(s, es[0]);
    var b := Next(a, es[1]);
    var c := Next(b, es[2]);
    var d := Next(c, es[3]);
    var e := Next(d, es[4]);
    var t1, t2, t3, t4, t5 := es[1..], es[1..][1..], es[1..][1..][1..], es[1..][1..][1..][1..],
        es[1..][1..][1..][1..][1..];
    assert Run(s, es) == Run(a, t1);
    assert Run(a, t1) == Run(b, t2);
    assert Run(b, t2) == Run(c, t3);
    assert Run(c, t3) == Run(d, t4);
    assert Run(d, t4) == Run(e, t5);
    assert Run(e, t5) == Run(Next(e, es[5]), t5[1..]);
    assert Allowed(e, t5) <==> Enabled(e, es[5]) && Allowed(Next(e, es[5]), t5[1..]);
    assert Allowed(d, t4) <==> Enabled(d, es[4]) && Allowed(e, t5);
    assert Allowed(c, t3) <==> Enabled(c, es[3]) && Allowed(d, t4);
    assert Allowed(b, t2) <==> Enabled(b, es[2]) && Allowed(c, t3);
    assert Allowed(a, t1) <==> Enabled(a, es[1]) && Allowed(b, t2);
  }
}
