/** A terminal updater status fixes the live binary, whatever crashes happened; every
    operation downloads at most once; the rollback barrier is left only through a
    proved rollback. */
module UpdaterSafety {
  import opened DurableFile
  import opened UpdaterProtocol
  import opened Wrappers

  // ---------------------------------------------------------------- the invariant

  /** What status `r` says about live binary `lv`. */
  ghost predicate Truth(s: Sys, r: Record, lv: Bin) {
    var op := r.operation;
    op != 0 ==>
      && op in s.before
      && (r.status in {Failed, Skipped, RolledBack, Scheduled, Downloading} ==> lv == s.before[op])
      && (r.status == Done ==> lv == s.before[op] || (op in s.verified && lv == s.verified[op] && op in s.ready))
      && (r.status in {Applying, Verifying, RollbackFailed} ==>
            lv == s.before[op] || (op in s.verified && lv == s.verified[op]))
  }

  /** Last-good is this operation's, in every possible content. */
  ghost predicate Recoverable(s: Sys, r: Record) {
    && r.operation in s.before && r.operation in s.verified && r.digest == Some(s.verified[r.operation])
    && forall lg :: lg in s.lastGood.possible ==> lg == Some(s.before[r.operation])
  }

  ghost predicate WellFormed(s: Sys, r: Record) {
    && r.operation < s.nextOperation
    && (r.operation == 0 ==> r.status in {Idle, Checked})
    && (r.operation != 0 ==> r.operation in s.before)
    && (r.rollbackOperation != 0 ==> r.rollbackOperation == r.operation)
    && (r.digest.Some? ==> r.rollbackOperation == r.operation && r.operation != 0)
    && (r.liveReplaced ==> r.digest.Some?)
    && (r.rollbackOperation != 0 && r.digest.Some? ==> Recoverable(s, r))
    && (r.status in {Scheduled, Downloading} ==> r.rollbackOperation == 0)
    && (r.status in {Applying, Verifying, RollbackFailed} ==> r.digest.Some?)
    && (r.pendingConfirm <==> r.status in {Downloading, Applying, Verifying})
    && (r.status == Verifying ==> r.liveReplaced)
  }

  ghost predicate RecordOk(s: Sys, r: Record) {
    WellFormed(s, r) && forall lv :: lv in s.live.possible ==> Truth(s, r, lv)
  }

  ghost predicate LiveIs(s: Sys, b: Bin) {
    forall lv :: lv in s.live.possible ==> lv == b
  }

  ghost predicate SameOperation(s: Sys, op: Operation) {
    forall r :: r in s.state.possible ==> r.operation == op
  }

  /** The holder of the lock may restore last-good. */
  ghost predicate Context(s: Sys, mem: Record) {
    && mem.operation != 0 && mem.rollbackOperation == mem.operation && mem.operation < s.nextOperation
    && Recoverable(s, mem) && SameOperation(s, mem.operation)
    && forall lv :: lv in s.live.possible ==> lv == s.before[mem.operation] || lv == s.verified[mem.operation]
  }

  /** Memory of an operation that has not touched the live binary. */
  ghost predicate Untouched(s: Sys, mem: Record) {
    && mem.operation != 0 && mem.operation < s.nextOperation && mem.operation in s.before
    && mem.rollbackOperation in {0, mem.operation}
    && (mem.digest.Some? ==> mem.rollbackOperation == mem.operation && Recoverable(s, mem))
    && (mem.liveReplaced ==> mem.digest.Some?)
    && LiveIs(s, s.before[mem.operation])
  }

  ghost predicate PhaseOk(s: Sys) {
    match s.phase
    case Free => true
    case Started(mem) =>
      && WellFormed(s, mem) && mem.status.Scheduled? && mem.operation != 0 && !mem.liveReplaced
      && LiveIs(s, s.before[mem.operation]) && s.downloads[mem.operation] == 0
      && s.state.visible.status.Scheduled?
    case Fetching(mem) =>
      s.state.possible == {mem} && mem.status.Downloading? && mem.operation in s.downloads
          && mem.operation !in s.verified
    case Sane(mem, c) =>
      s.state.possible == {mem} && mem.status.Downloading? && mem.operation in s.verified
          && s.verified[mem.operation] == c
    case BackedUp(mem, c) =>
      && s.state.possible == {mem.(rollbackOperation := 0)} && mem.status.Downloading?
      && mem.operation != 0 && mem.rollbackOperation == mem.operation
      && mem.operation in s.before && mem.operation in s.verified && s.verified[mem.operation] == c
      && (forall lg :: lg in s.lastGood.possible ==> lg == Some(s.before[mem.operation]))
    case Armed(mem, c) =>
      && s.state.possible == {mem} && mem.status.Applying? && Untouched(s, mem)
      && mem.digest == Some(c) && mem.rollbackOperation == mem.operation && !mem.liveReplaced
    case Installed(mem) =>
      s.state.possible == {mem} && mem.status.Applying? && Context(s, mem) && LiveIs(s, s.verified[mem.operation])
    case Confirming(mem) =>
      s.state.possible == {mem} && mem.status.Verifying? && Context(s, mem) && LiveIs(s, s.verified[mem.operation])
    case Accepted(mem) =>
      && s.state.possible == {mem} && mem.status.Verifying? && Context(s, mem) && LiveIs(s, s.verified[mem.operation])
      && mem.operation in s.ready
    case Unwinding(mem) =>
      && (if Owned(mem, s.live.visible) then Context(s, mem) else Untouched(s, mem))
      && !s.state.visible.status.RollbackFailed?
    case Restoring(mem, unwinding) =>
      Context(s, mem) && s.lastGood.visible.Some? && (unwinding ==> !s.state.visible.status.RollbackFailed?)
    case Restored(mem, unwinding) =>
      && Context(s, mem) && LiveIs(s, s.before[mem.operation])
      && (unwinding ==> !s.state.visible.status.RollbackFailed?)
    case Closing(mem, status) =>
      && status in {Failed, RolledBack, RollbackFailed}
      && (status.Failed? ==> Untouched(s, mem) && !s.state.visible.status.RollbackFailed?)
      && (!status.Failed? ==> Context(s, mem))
      && (status.RolledBack? ==> LiveIs(s, s.before[mem.operation]))
  }

  ghost predicate DownloadsOk(s: Sys) {
    forall op :: op in s.downloads ==>
      && s.downloads[op] == 1 && op < s.nextOperation
      && (forall r :: r in s.state.possible && r.operation == op ==> !r.status.Scheduled?)
  }

  ghost predicate HistoryOk(s: Sys) {
    && s.nextOperation > 0
    && (forall op :: op in s.before ==> op < s.nextOperation)
    && (forall op :: op in s.verified ==> op in s.before)
    && s.ready <= s.before.Keys
    && (forall op :: op in s.downloads ==> op in s.before)
    && (forall op :: op in s.verified ==> op in s.downloads)
  }

  ghost predicate Inv(s: Sys) {
    && Coherent(s.state) && Coherent(s.live) && Coherent(s.lastGood)
    && (forall r :: r in s.state.possible ==> RecordOk(s, r))
    && (s.state.visible.status in {Applying, Verifying, RollbackFailed} ==>
          SameOperation(s, s.state.visible.operation))
    && PhaseOk(s) && DownloadsOk(s) && HistoryOk(s)
  }

  /** A decision that takes the live binary for settled although it is not: reconcile and
      a new operation trust the visible one whose directory entry is not known to be
      durable, and an update whose reinstall failed without a message reports that the
      old binary is live. */
  ghost predicate TrustsUnsettled(s: Sys, a: Act) {
    match a
    case Reconcile =>
      s.live.possible != {s.live.visible} && Converge(s).phase.Closing? && Converge(s).phase.status.Failed?
    case Schedule(o) => NewOnUnsettled(s, o)
    case StartAutomatic(_, o) => NewOnUnsettled(s, o)
    case Restore(o, silent) =>
      && s.phase.Restoring? && s.phase.unwinding && silent && !o.Durable? && s.lastGood.visible.Some?
      && s.live.possible != {s.lastGood.visible.value}
    case _ => false
  }

  ghost predicate NewOnUnsettled(s: Sys, o: Outcome) {
    && s.live.possible != {s.live.visible} && !o.NotReplaced?
    && !Pending(s.state.visible) && !s.state.visible.status.RollbackFailed?
  }

  // ----------------------------------------------------------------- step by step

  /** Saving a sound record and moving to a sound phase keeps the invariant. */
  lemma Saved(s: Sys, n: Sys, r: Record, o: Outcome)
    requires Inv(s) && n == s.(state := Written(s.state, r, o), phase := n.phase)
    requires RecordOk(s, r) && PhaseOk(n)
    requires r.status.Scheduled? ==> s.downloads[r.operation] == 0
    requires !o.NotReplaced? && r.status in {Applying, Verifying, RollbackFailed} && o.Unsynced? ==>
        SameOperation(s, r.operation)
    ensures Inv(n)
  {
    forall x | x in n.state.possible ensures RecordOk(n, x) {
      assert x == r || x in s.state.possible;
      assert RecordOk(s, x);
    }
  }

  lemma ScheduleKeeps(s: Sys, o: Outcome, manual: bool, generation: nat)
    requires Inv(s) && s.phase.Free? && !Pending(s.state.visible) && !s.state.visible.status.RollbackFailed?
    requires s.live.possible == {s.live.visible} || o.NotReplaced?
    ensures var mem := Fresh(s, s.state.visible, manual).(generation := generation);
            var n := Save(NewOperation(s), mem, o);
            Inv(n) && (o.Durable? ==> Inv(n.(phase := Started(mem))))
  {
    hide Inv, PhaseOk;
    var mem := Fresh(s, s.state.visible, manual).(generation := generation);
    var m := NewOperation(s);
    NewOperationKeeps(s);
    var n := Save(m, mem, o);
    FreeIsOk(n);
    if o.NotReplaced? {
      assert n == m;
    } else {
      Saved(m, n, mem, o);
    }
    if o.Durable? {
      StartedIsOk(n.(phase := Started(mem)));
      Moved(n, n.(phase := Started(mem)));
    }
  }

  lemma NewOperationKeeps(s: Sys)
    requires Inv(s) && s.phase.Free?
    ensures Inv(NewOperation(s)) && s.downloads[s.nextOperation] == 0 && s.nextOperation > 0
  {
    var m := NewOperation(s);
    forall x | x in m.state.possible ensures RecordOk(m, x) {
      assert RecordOk(s, x);
    }
  }

  lemma StartedIsOk(s: Sys)
    requires s.phase.Started? && s.phase.mem == s.state.visible && s.state.visible.status.Scheduled?
    requires WellFormed(s, s.phase.mem) && s.phase.mem.operation != 0 && !s.phase.mem.liveReplaced
    requires LiveIs(s, s.before[s.phase.mem.operation]) && s.downloads[s.phase.mem.operation] == 0
    ensures PhaseOk(s)
  {
  }

  lemma VisibleOk(s: Sys)
    requires Inv(s)
    ensures RecordOk(s, s.state.visible)
    ensures s.state.visible.status.Scheduled? ==> s.downloads[s.state.visible.operation] == 0
  {
  }

  lemma EntryKeeps(s: Sys, a: Act)
    requires Inv(s) && s.phase.Free?
    requires a.Redeliver? || a.ReportUnknown? || a.ReportFailed? || a.RecordCheck?
    ensures Inv(Apply(s, a))
  {
    hide Inv;
    var r := s.state.visible;
    VisibleOk(s);
    match a
    case Redeliver(op, o) =>
      if r.status.Scheduled? && r.operation == op {
        Saved(s, Apply(s, a), r.(generation := r.generation + 1, pendingConfirm := false, liveReplaced := false,
                                 rollbackOperation := 0, deliveryUnknown := false), o);
      }
    case ReportUnknown(op, g, o) =>
      if SameDelivery(r, op, g) {
        Saved(s, Apply(s, a), r.(deliveryUnknown := true), o);
      }
    case ReportFailed(op, g, o) =>
      if SameDelivery(r, op, g) {
        Saved(s, Apply(s, a), Terminal(r, Failed), o);
      }
    case RecordCheck(o) =>
      if !Pending(r) && !r.status.RollbackFailed? {
        Saved(s, Apply(s, a), r.(status := Checked, pendingConfirm := false), o);
      }
  }

  lemma DeliverKeeps(s: Sys, op: Operation)
    requires Inv(s) && s.phase.Free?
    ensures Inv(Apply(s, Deliver(op)))
  {
    VisibleOk(s);
    var n := Apply(s, Deliver(op));
    forall x | x in n.state.possible ensures RecordOk(n, x) {
      assert RecordOk(s, x);
    }
  }

  lemma DecideKeeps(s: Sys, d: Decision, o: Outcome)
    requires Inv(s) && s.phase.Started? && !d.Proceed?
    ensures Inv(Apply(s, Decide(d, o)))
  {
    var mem := s.phase.mem;
    var n := Apply(s, Decide(d, o));
    assert mem.digest.None?;
    match d
    case CheckFailed => Saved(s, n, Terminal(mem, Failed), o);
    case NotAllowed => Saved(s, n, Terminal(mem, Skipped), o);
    case NothingNewer => Saved(s, n, Terminal(mem, Done), o);
    case NoAsset => Saved(s, n, Terminal(mem, Failed), o);
  }

  lemma ProceedKeeps(s: Sys, o: Outcome)
    requires Inv(s) && s.phase.Started?
    ensures Inv(Apply(s, Decide(Proceed, o)))
  {
    var mem := s.phase.mem;
    var n := Apply(s, Decide(Proceed, o));
    var started := mem.(status := Downloading, pendingConfirm := true, liveReplaced := false, rollbackOperation := 0);
    assert RecordOk(s, started);
    if o.Durable? {
      assert n.state.possible == {started};
      assert RecordOk(n, started);
      assert mem.operation !in s.downloads;
      assert DownloadsOk(n);
    } else {
      assert Untouched(n, started);
      Saved(s, n, started, o);
    }
  }

  lemma FetchKeeps(s: Sys, ok: bool, candidate: Bin)
    requires Inv(s) && s.phase.Fetching?
    ensures Inv(Apply(s, Fetch(ok, candidate)))
  {
    var mem := s.phase.mem;
    assert RecordOk(s, mem);
    var n := Apply(s, Fetch(ok, candidate));
    forall x | x in n.state.possible ensures RecordOk(n, x) {
      assert x == mem;
    }
  }

  lemma BackupKeeps(s: Sys, o: Outcome)
    requires Inv(s) && s.phase.Sane?
    ensures Inv(Apply(s, Backup(o)))
  {
    var mem := s.phase.mem;
    assert RecordOk(s, mem);
    var n := Apply(s, Backup(o));
    forall x | x in n.state.possible ensures RecordOk(n, x) {
      assert x == mem;
    }
    assert s.live.visible == s.before[mem.operation];
    assert mem.(rollbackOperation := 0) == mem;
  }

  lemma ArmKeeps(s: Sys, o: Outcome)
    requires Inv(s) && s.phase.BackedUp?
    ensures Inv(Apply(s, Arm(o)))
  {
    var mem := s.phase.mem;
    var r := mem.(rollbackOperation := 0);
    assert RecordOk(s, r);
    var n := Apply(s, Arm(o));
    var armed := mem.(status := Applying, digest := Some(s.phase.candidate), pendingConfirm := true,
                      liveReplaced := false);
    assert RecordOk(s, armed);
    assert Untouched(n, armed);
    if !o.Durable? && Owned(armed, n.live.visible) {
      assert Context(n, armed);
    }
    Saved(s, n, armed, o);
  }

  lemma InstallKeeps(s: Sys, o: Outcome)
    requires Inv(s) && s.phase.Armed?
    ensures Inv(Apply(s, Install(o)))
  {
    var mem := s.phase.mem;
    assert RecordOk(s, mem);
    var n := Apply(s, Install(o));
    forall x | x in n.state.possible ensures RecordOk(n, x) {
      assert x == mem;
    }
    assert Context(n, mem);
  }

  lemma ConfirmKeeps(s: Sys, o: Outcome)
    requires Inv(s) && s.phase.Installed?
    ensures Inv(Apply(s, Confirm(o)))
  {
    var mem := s.phase.mem;
    assert RecordOk(s, mem);
    var n := Apply(s, Confirm(o));
    var confirming := mem.(status := Verifying, liveReplaced := true, pendingConfirm := true);
    assert RecordOk(s, confirming);
    assert Context(n, confirming);
    Saved(s, n, confirming, o);
  }

  lemma ProbeKeeps(s: Sys, ok: bool)
    requires Inv(s) && s.phase.Confirming?
    ensures Inv(Apply(s, Probe(ok)))
  {
    var mem := s.phase.mem;
    assert RecordOk(s, mem);
    var n := Apply(s, Probe(ok));
    forall x | x in n.state.possible ensures RecordOk(n, x) {
      assert x == mem;
    }
    assert Context(n, mem);
  }

  lemma AcceptKeeps(s: Sys, o: Outcome)
    requires Inv(s) && s.phase.Accepted?
    ensures Inv(Apply(s, Accept(o)))
  {
    var mem := s.phase.mem;
    assert RecordOk(s, mem);
    var n := Apply(s, Accept(o));
    var done := Terminal(mem, Done);
    assert RecordOk(s, done);
    assert Context(n, done);
    Saved(s, n, done, o);
  }

  /** Moving to a sound phase without touching a file keeps the invariant. */
  lemma Moved(s: Sys, n: Sys)
    requires Inv(s) && n == s.(phase := n.phase) && PhaseOk(n)
    ensures Inv(n)
  {
    hide PhaseOk;
    forall x | x in n.state.possible ensures RecordOk(n, x) {
      assert RecordOk(s, x);
    }
  }

  lemma PhaseFact(s: Sys)
    requires Inv(s)
    ensures PhaseOk(s)
  {
    hide PhaseOk;
  }

  lemma UnwindKeeps(s: Sys)
    requires Inv(s) && s.phase.Unwinding?
    ensures Inv(Apply(s, Unwind))
  {
    hide Inv;
    PhaseFact(s);
    Moved(s, Apply(s, Unwind));
  }

  lemma RestoreKeeps(s: Sys, o: Outcome, silent: bool)
    requires Inv(s) && s.phase.Restoring? && !TrustsUnsettled(s, Restore(o, silent))
    ensures Inv(Apply(s, Restore(o, silent)))
  {
    var mem := s.phase.mem;
    var n := Apply(s, Restore(o, silent));
    assert s.lastGood.visible == Some(s.before[mem.operation]);
    forall x | x in n.state.possible ensures RecordOk(n, x) {
      assert RecordOk(s, x);
      forall lv | lv in n.live.possible ensures Truth(n, x, lv) {
        assert lv in s.live.possible || lv == s.before[mem.operation];
      }
    }
    assert Context(n, mem);
  }

  lemma ProbeRestoredKeeps(s: Sys, ok: bool, silent: bool)
    requires Inv(s) && s.phase.Restored?
    ensures Inv(Apply(s, ProbeRestored(ok, silent)))
  {
    hide Inv;
    PhaseFact(s);
    var n := Apply(s, ProbeRestored(ok, silent));
    Moved(s, n.(liveReady := s.liveReady));
    ReadinessFree(n.(liveReady := s.liveReady), n);
  }

  /** The readiness history plays no part in the invariant. */
  lemma ReadinessFree(s: Sys, n: Sys)
    requires Inv(s) && n == s.(liveReady := n.liveReady)
    ensures Inv(n)
  {
    forall x | x in n.state.possible ensures RecordOk(n, x) {
      assert RecordOk(s, x);
    }
  }

  lemma ClosingRecordOk(s: Sys)
    requires PhaseOk(s) && s.phase.Closing?
    ensures RecordOk(s, Terminal(s.phase.mem, s.phase.status))
  {
  }

  lemma CloseKeeps(s: Sys, o: Outcome)
    requires Inv(s) && s.phase.Closing?
    ensures Inv(Apply(s, Close(o)))
  {
    hide Inv;
    PhaseFact(s);
    var mem, status := s.phase.mem, s.phase.status;
    ClosingRecordOk(s);
    Saved(s, Apply(s, Close(o)), Terminal(mem, status), o);
  }

  lemma ReconcileKeeps(s: Sys)
    requires Inv(s) && s.phase.Free? && !TrustsUnsettled(s, Reconcile)
    ensures Inv(Apply(s, Reconcile))
  {
    hide Inv;
    var n := Apply(s, Reconcile);
    var r := s.state.visible;
    VisibleOk(s);
    if n.phase.Restoring? || (n.phase.Closing? && n.phase.status.RollbackFailed?) {
      VisibleContext(s);
    } else if n.phase.Closing? {
      assert s.live.possible == {s.live.visible};
      assert Untouched(n, r);
    }
    Moved(s, n);
  }

  /** A record past the backup carries the rollback context. */
  lemma VisibleContext(s: Sys)
    requires Inv(s) && s.state.visible.status in {Applying, Verifying, RollbackFailed}
    ensures Context(s, s.state.visible)
  {
    hide PhaseOk;
    assert RecordOk(s, s.state.visible);
  }

  lemma CrashKeeps(s: Sys, st: Record, lv: Bin, lg: Option<Bin>)
    requires Inv(s) && st in s.state.possible && lv in s.live.possible && lg in s.lastGood.possible
    ensures Inv(Apply(s, MachineCrash(st, lv, lg)))
  {
    hide PhaseOk;
    assert RecordOk(s, st);
    var n := Apply(s, MachineCrash(st, lv, lg));
    assert RecordOk(n, st);
    FreeIsOk(n);
  }

  lemma FreeIsOk(s: Sys)
    requires s.phase.Free?
    ensures PhaseOk(s)
  {
  }

  lemma ProcessCrashKeeps(s: Sys)
    requires Inv(s)
    ensures Inv(Apply(s, ProcessCrash))
  {
    hide Inv;
    Moved(s, Apply(s, ProcessCrash));
  }

  /** Acts that wait for the updater lock. */
  ghost predicate IsEntry(a: Act) {
    || a.Schedule? || a.Redeliver? || a.ReportUnknown? || a.ReportFailed? || a.RecordCheck?
    || a.Deliver? || a.StartAutomatic? || a.Reconcile?
  }

  lemma EntryInvKept(s: Sys, a: Act)
    requires Inv(s) && IsEntry(a) && Enabled(s, a) && !TrustsUnsettled(s, a)
    ensures Inv(Apply(s, a))
  {
    hide Inv, Coherent, Converge;
    var r := s.state.visible;
    if a.Schedule? {
      if !Pending(r) && !r.status.RollbackFailed? {
        ScheduleKeeps(s, a.o, true, r.generation + 1);
      }
    } else if a.StartAutomatic? {
      if !Pending(r) && !r.status.RollbackFailed? {
        ScheduleKeeps(s, a.o, a.manual, r.generation);
      }
    } else if a.Deliver? {
      DeliverKeeps(s, a.operation);
    } else if a.Reconcile? {
      ReconcileKeeps(s);
    } else {
      EntryKeeps(s, a);
    }
  }

  lemma PreparationInvKept(s: Sys, a: Act)
    requires Inv(s) && (a.Decide? || a.Fetch? || a.Backup? || a.Arm? || a.Install? || a.Confirm?)
    ensures Inv(Apply(s, a))
  {
    hide Inv, Coherent;
    if a.Decide? && s.phase.Started? {
      if a.decision.Proceed? { ProceedKeeps(s, a.o); } else { DecideKeeps(s, a.decision, a.o); }
    }
    if a.Fetch? && s.phase.Fetching? { FetchKeeps(s, a.ok, a.candidate); }
    if a.Backup? && s.phase.Sane? { BackupKeeps(s, a.o); }
    if a.Arm? && s.phase.BackedUp? { ArmKeeps(s, a.o); }
    if a.Install? && s.phase.Armed? { InstallKeeps(s, a.o); }
    if a.Confirm? && s.phase.Installed? { ConfirmKeeps(s, a.o); }
  }

  lemma ConclusionInvKept(s: Sys, a: Act)
    requires Inv(s) && (a.Probe? || a.Accept? || a.Unwind? || a.Restore? || a.ProbeRestored? || a.Close?)
    requires !TrustsUnsettled(s, a)
    ensures Inv(Apply(s, a))
  {
    hide Inv, Coherent;
    if a.Probe? && s.phase.Confirming? { ProbeKeeps(s, a.ok); }
    if a.Accept? && s.phase.Accepted? { AcceptKeeps(s, a.o); }
    if a.Unwind? && s.phase.Unwinding? { UnwindKeeps(s); }
    if a.Restore? && s.phase.Restoring? { RestoreKeeps(s, a.o, a.silent); }
    if a.ProbeRestored? && s.phase.Restored? { ProbeRestoredKeeps(s, a.ok, a.silent); }
    if a.Close? && s.phase.Closing? { CloseKeeps(s, a.o); }
  }

  /** Every act keeps the invariant, unless it trusts an unsettled live binary. */
  lemma InvKept(s: Sys, a: Act)
    requires Inv(s) && Enabled(s, a) && !TrustsUnsettled(s, a)
    ensures Inv(Apply(s, a))
  {
    hide Inv, Apply, TrustsUnsettled;
    if IsEntry(a) {
      EntryInvKept(s, a);
    } else if a.MachineCrash? {
      CrashKeeps(s, a.state, a.live, a.lastGood);
    } else if a.ProcessCrash? {
      ProcessCrashKeeps(s);
    } else if a.Decide? || a.Fetch? || a.Backup? || a.Arm? || a.Install? || a.Confirm? {
      PreparationInvKept(s, a);
    } else {
      ConclusionInvKept(s, a);
    }
  }
}
