/** Concrete runs of the updater showing that the conditions of its run theorems cannot be
    dropped, and that its permanent barrier can be reached. */
module UpdaterWitnesses {
  import opened DurableFile
  import opened UpdaterProtocol
  import opened UpdaterSafety
  import opened UpdaterRuns
  import opened Wrappers

  const OLD: Bin := 1
  const NEW: Bin := 2

  function Start(): Sys {
    Sys(Rebooted(IdleRecord()), Rebooted(OLD), Rebooted(None), Free, 1, map[], map[], {}, multiset{}, false)
  }

  ghost predicate Reaches(s: Sys, acts: seq<Act>, n: Sys) {
    Allowed(s, acts) && Run(s, acts) == n
  }

  lemma {:induction false} Joined(s: Sys, a: seq<Act>, m: Sys, b: seq<Act>, n: Sys)
    requires Reaches(s, a, m) && Reaches(m, b, n)
    ensures Reaches(s, a + b, n)
    decreases a
  {
    if a == [] {
      assert a + b == b;
    } else {
      hide Apply, Enabled;
      Joined(Apply(s, a[0]), a[1..], m, b, n);
      assert (a + b)[1..] == a[1..] + b;
    }
  }

  lemma One(s: Sys, a: Act)
    requires Enabled(s, a)
    ensures Reaches(s, [a], Apply(s, a))
  {
    OneStep(s, a);
  }

  lemma Two(s: Sys, a: Act, b: Act)
    requires Enabled(s, a) && Enabled(Apply(s, a), b)
    ensures Reaches(s, [a, b], Apply(Apply(s, a), b))
  {
    TwoSteps(s, a, b);
  }

  // --------------------------------------------------------------------- an update

  function Preparing(): Record {
    Record(Downloading, 1, true, 0, None, false, 0, true, false)
  }

  function Applying1(): Record {
    Record(Applying, 1, true, 0, Some(NEW), false, 1, true, false)
  }

  function Fetched(): Sys {
    Sys(Rebooted(Preparing()), Rebooted(OLD), Rebooted(None), Sane(Preparing(), NEW), 2,
        map[1 := OLD], map[1 := NEW], {}, multiset{1}, false)
  }

  function Replaced(): Sys {
    Sys(Rebooted(Applying1()), Rebooted(NEW), Rebooted(Some(OLD)), Installed(Applying1()), 2,
        map[1 := OLD], map[1 := NEW], {}, multiset{1}, false)
  }

  const FETCH := [StartAutomatic(true, Durable), Decide(Proceed, Durable), Fetch(true, NEW)]
  const REPLACE := [Backup(Durable), Arm(Durable), Install(Durable)]

  lemma FetchedByUpdate()
    ensures Reaches(Start(), FETCH, Fetched())
  {
    var a := Apply(Start(), FETCH[0]);
    var b := Apply(a, FETCH[1]);
    assert a.phase == Started(a.state.visible) && a.before == map[1 := OLD];
    assert b.phase == Fetching(Preparing()) && b.downloads == multiset{1};
    Two(Start(), FETCH[0], FETCH[1]);
    One(b, FETCH[2]);
    Joined(Start(), [FETCH[0], FETCH[1]], b, [FETCH[2]], Fetched());
    assert [FETCH[0], FETCH[1]] + [FETCH[2]] == FETCH;
  }

  lemma ReplacedByUpdate()
    ensures Reaches(Fetched(), REPLACE, Replaced())
  {
    var a := Apply(Fetched(), REPLACE[0]);
    var b := Apply(a, REPLACE[1]);
    assert a.phase == BackedUp(Preparing().(rollbackOperation := 1), NEW);
    assert b.phase.Armed? && b.state == Replaced().state;
    Two(Fetched(), REPLACE[0], REPLACE[1]);
    One(b, REPLACE[2]);
    Joined(Fetched(), [REPLACE[0], REPLACE[1]], b, [REPLACE[2]], Replaced());
    assert [REPLACE[0], REPLACE[1]] + [REPLACE[2]] == REPLACE;
  }

  lemma ReplacedFromStart()
    ensures Initial(Start()) && Reaches(Start(), FETCH + REPLACE, Replaced())
  {
    FetchedByUpdate();
    ReplacedByUpdate();
    Joined(Start(), FETCH, Fetched(), REPLACE, Replaced());
  }

  // ------------------------------------------------------------- two reconciliations

  /** The reinstall is visible but not durable. */
  function HalfRestored(): Sys {
    Replaced().(live := File(OLD, {NEW, OLD}), phase := Free)
  }

  const FIRST := [ProcessCrash, Reconcile, Restore(Unsynced, false), ProcessCrash]
  const SECOND := [Reconcile, Close(Durable)]

  lemma FirstReconcileKilled()
    ensures Reaches(Replaced(), FIRST, HalfRestored())
  {
    var a := Apply(Replaced(), FIRST[0]);
    var b := Apply(a, FIRST[1]);
    var c := Apply(b, FIRST[2]);
    assert b == Replaced().(phase := Restoring(Applying1(), false));
    assert c.live.possible == {NEW, OLD};
    Two(Replaced(), FIRST[0], FIRST[1]);
    Two(b, FIRST[2], FIRST[3]);
    Joined(Replaced(), [FIRST[0], FIRST[1]], b, [FIRST[2], FIRST[3]], HalfRestored());
    assert [FIRST[0], FIRST[1]] + [FIRST[2], FIRST[3]] == FIRST;
  }

  function Misreported(): Sys {
    HalfRestored().(state := Rebooted(Terminal(Applying1(), Failed)))
  }

  lemma SecondReconcileMisreports()
    ensures Reaches(HalfRestored(), SECOND, Misreported())
    ensures TrustsUnsettled(HalfRestored(), Reconcile)
  {
    var a := Apply(HalfRestored(), Reconcile);
    assert a == HalfRestored().(phase := Closing(Applying1(), Failed));
    assert NEW in HalfRestored().live.possible;
    Two(HalfRestored(), SECOND[0], SECOND[1]);
  }

  /** Two interrupted reconciliations and a crash end in `failed` with the new binary
      live: the first reinstalls without becoming durable and is killed, the second takes
      the visible old binary for proof that nothing was replaced, and the machine crash
      brings the new binary back. */
  lemma InterruptedReconcileMisreports()
    ensures var crash := MachineCrash(Terminal(Applying1(), Failed), NEW, Some(OLD));
            var acts := FETCH + REPLACE + FIRST + SECOND + [crash];
            var n := Run(Start(), acts);
            && Initial(Start()) && Allowed(Start(), acts)
            && n.state.visible.status.Failed? && n.state.visible.operation == 1
            && 1 in n.before && n.before[1] == OLD && n.live == Rebooted(NEW)
            && !StatusTells(n, n.state.visible, n.live.visible)
  {
    var crash := MachineCrash(Terminal(Applying1(), Failed), NEW, Some(OLD));
    ReplacedFromStart();
    FirstReconcileKilled();
    SecondReconcileMisreports();
    hide Reaches;
    Joined(Start(), FETCH + REPLACE, Replaced(), FIRST, HalfRestored());
    Joined(Start(), FETCH + REPLACE + FIRST, HalfRestored(), SECOND, Misreported());
    assert NEW in Misreported().live.possible;
    One(Misreported(), crash);
    var n := Apply(Misreported(), crash);
    Joined(Start(), FETCH + REPLACE + FIRST + SECOND, Misreported(), [crash], n);
    ReachesMeans(Start(), FETCH + REPLACE + FIRST + SECOND + [crash], n);
  }

  lemma ReachesMeans(s: Sys, acts: seq<Act>, n: Sys)
    requires Reaches(s, acts, n)
    ensures Allowed(s, acts) && Run(s, acts) == n
  {
  }

  // ------------------------------------------------- a new operation on an old binary

  function Verifying1(): Record {
    Applying1().(status := Verifying, liveReplaced := true)
  }

  /** The update ended as done, but neither that record nor the reinstall that followed
      its failed save is durable. */
  function Unsettled(): Sys {
    var done := Terminal(Verifying1(), Done);
    Replaced().(state := File(done, {Verifying1(), done}), live := File(OLD, {NEW, OLD}), phase := Free, ready := {1})
  }

  const VERIFY := [Confirm(Durable), Probe(true), Accept(Unsynced), Unwind]
  const UNDO := [Restore(Unsynced, false), Close(NotReplaced)]
  const AGAIN := [Schedule(Durable), ReportFailed(2, 1, Durable)]

  lemma VerifiedUnsynced()
    ensures var done := Terminal(Verifying1(), Done);
            Reaches(Replaced(), VERIFY,
                    Replaced().(state := File(done, {Verifying1(), done}), phase := Restoring(done, true),
                                ready := {1}, liveReady := true))
  {
    var a := Apply(Replaced(), VERIFY[0]);
    var b := Apply(a, VERIFY[1]);
    var c := Apply(b, VERIFY[2]);
    var done := Terminal(Verifying1(), Done);
    assert b.phase == Accepted(Verifying1()) && b.ready == {1};
    assert c.state == File(done, {Verifying1(), done}) && c.phase == Unwinding(done);
    Two(Replaced(), VERIFY[0], VERIFY[1]);
    Two(b, VERIFY[2], VERIFY[3]);
    Joined(Replaced(), [VERIFY[0], VERIFY[1]], b, [VERIFY[2], VERIFY[3]], Apply(c, VERIFY[3]));
    assert [VERIFY[0], VERIFY[1]] + [VERIFY[2], VERIFY[3]] == VERIFY;
  }

  lemma UnsettledByUpdate()
    ensures Reaches(Replaced(), VERIFY + UNDO, Unsettled())
  {
    var done := Terminal(Verifying1(), Done);
    var d := Replaced().(state := File(done, {Verifying1(), done}), phase := Restoring(done, true),
                         ready := {1}, liveReady := true);
    var e := Apply(d, UNDO[0]);
    assert e.live == File(OLD, {NEW, OLD}) && e.phase == Closing(done, RollbackFailed) && !e.liveReady;
    assert Apply(e, UNDO[1]) == Unsettled();
    VerifiedUnsynced();
    Two(d, UNDO[0], UNDO[1]);
    Joined(Replaced(), VERIFY, d, UNDO, Unsettled());
  }

  function FailedRecord(): Record {
    Record(Failed, 2, true, 1, None, false, 0, false, false)
  }

  function AfterReport(): Sys {
    Unsettled().(state := Rebooted(FailedRecord()), nextOperation := 3, before := map[1 := OLD, 2 := OLD])
  }

  lemma ScheduledAndFailed()
    ensures Reaches(Unsettled(), AGAIN, AfterReport())
  {
    var a := Apply(Unsettled(), AGAIN[0]);
    assert a.before == map[1 := OLD, 2 := OLD];
    assert a.state == Rebooted(FailedRecord().(status := Scheduled));
    Two(Unsettled(), AGAIN[0], AGAIN[1]);
  }

  /** A new operation starts from the visible old binary, its delivery fails, and a crash
      brings the binary of the operation before back under `failed`. */
  lemma ScheduleOnUnsettledMisreports()
    ensures var crash := MachineCrash(FailedRecord(), NEW, Some(OLD));
            var acts := FETCH + REPLACE + (VERIFY + UNDO) + AGAIN + [crash];
            var n := Run(Start(), acts);
            && Initial(Start()) && Allowed(Start(), acts) && TrustsUnsettled(Unsettled(), AGAIN[0])
            && n.state.visible == FailedRecord() && 2 in n.before && n.before[2] == OLD && n.live == Rebooted(NEW)
            && !StatusTells(n, n.state.visible, n.live.visible)
  {
    var crash := MachineCrash(FailedRecord(), NEW, Some(OLD));
    assert NEW in Unsettled().live.possible;
    ScheduledAndFailed();
    ReplacedFromStart();
    UnsettledByUpdate();
    var m := AfterReport();
    One(m, crash);
    var n := Apply(m, crash);
    hide Reaches;
    Joined(Start(), FETCH + REPLACE, Replaced(), VERIFY + UNDO, Unsettled());
    Joined(Start(), FETCH + REPLACE + (VERIFY + UNDO), Unsettled(), AGAIN, m);
    Joined(Start(), FETCH + REPLACE + (VERIFY + UNDO) + AGAIN, m, [crash], n);
    ReachesMeans(Start(), FETCH + REPLACE + (VERIFY + UNDO) + AGAIN + [crash], n);
  }

  // ------------------------------------------------------------ the permanent barrier

  const BLOCK := [ProcessCrash, Reconcile, Restore(Durable, false), ProbeRestored(false, false)]

  function BlockedRecord(): Record {
    Terminal(Applying1(), RollbackFailed)
  }

  function Blocked(): Sys {
    Replaced().(live := Rebooted(OLD), phase := Closing(Applying1(), RollbackFailed))
  }

  lemma BlockedByReconcile()
    ensures Reaches(Replaced(), BLOCK, Blocked())
  {
    var a := Apply(Replaced(), BLOCK[0]);
    var b := Apply(a, BLOCK[1]);
    var c := Apply(b, BLOCK[2]);
    assert b == Replaced().(phase := Restoring(Applying1(), false));
    assert c == Replaced().(live := Rebooted(OLD), phase := Restored(Applying1(), false));
    Two(Replaced(), BLOCK[0], BLOCK[1]);
    Two(b, BLOCK[2], BLOCK[3]);
    Joined(Replaced(), [BLOCK[0], BLOCK[1]], b, [BLOCK[2], BLOCK[3]], Blocked());
    assert [BLOCK[0], BLOCK[1]] + [BLOCK[2], BLOCK[3]] == BLOCK;
  }

  /** An update killed between the replacement and its record, and a reconciliation whose
      restarted service fails its probes, end in a barrier that nothing leaves. */
  lemma BarrierIsReached(later: seq<Act>)
    ensures var acts := FETCH + REPLACE + BLOCK + [Close(Durable)];
            var n := Run(Start(), acts);
            && Initial(Start()) && Allowed(Start(), acts) && PermanentBarrier(n, BlockedRecord(), OLD)
            && (Allowed(n, later) ==> PermanentBarrier(Run(n, later), BlockedRecord(), OLD))
  {
    var n := Apply(Blocked(), Close(Durable));
    assert PermanentBarrier(n, BlockedRecord(), OLD);
    ReplacedFromStart();
    BlockedByReconcile();
    One(Blocked(), Close(Durable));
    hide Reaches, Apply, PermanentBarrier;
    Joined(Start(), FETCH + REPLACE, Replaced(), BLOCK, Blocked());
    Joined(Start(), FETCH + REPLACE + BLOCK, Blocked(), [Close(Durable)], n);
    ReachesMeans(Start(), FETCH + REPLACE + BLOCK + [Close(Durable)], n);
    if Allowed(n, later) {
      BarrierIsPermanent(n, later, BlockedRecord(), OLD);
    }
  }
}
