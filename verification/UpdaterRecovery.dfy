/** How the updater comes to rest: what a reconcile makes of every status a killed update
    can leave, and which requests a status admits. */
module UpdaterRecovery {
  import opened DurableFile
  import opened UpdaterProtocol
  import opened UpdaterSafety
  import opened UpdaterRuns
  import opened Wrappers

  // ------------------------------------------------------------------- reconcile

  /** The acts of a reconcile that nothing disturbs, with every save durable; `healthy` is
      what the probes find should it restart the service. */
  function Undisturbed(s: Sys, healthy: bool): seq<Act> {
    match Apply(s, Reconcile).phase
    case Restoring(_, _) => [Reconcile, Restore(Durable, false), ProbeRestored(healthy, false), Close(Durable)]
    case Closing(_, _) => [Reconcile, Close(Durable)]
    case _ => [Reconcile]
  }

  /** The candidate has taken the place of the binary from before the operation. */
  predicate CandidateIsLive(s: Sys, r: Record) {
    r.liveReplaced || r.digest == Some(s.live.visible)
  }

  lemma VisibleSound(s: Sys)
    requires Inv(s)
    ensures WellFormed(s, s.state.visible) && Truth(s, s.state.visible, s.live.visible)
    ensures s.lastGood.visible in s.lastGood.possible
  {
    assert RecordOk(s, s.state.visible);
  }

  /** Where a reconcile goes from each status: it restores last-good after an update killed
      with its candidate live, and behind the barrier when it can; it closes one killed
      before that; and it leaves every finished or scheduled operation alone. */
  lemma ReconcileGoes(s: Sys)
    requires Inv(s) && s.phase.Free?
    ensures var n, r := Apply(s, Reconcile), s.state.visible;
            && n == s.(phase := n.phase)
            && (r.status.Downloading? ==> n.phase == Closing(r, Failed))
            && (r.status.Applying? ==>
                  n.phase == if CandidateIsLive(s, r) then Restoring(r, false) else Closing(r, Failed))
            && (r.status.Verifying? ==> n.phase == Restoring(r, false))
            && (r.status.RollbackFailed? ==>
                  n.phase == if CandidateIsLive(s, r) then Restoring(r, false) else Free)
            && (r.status in {Idle, Checked, Scheduled, Done, Failed, Skipped, RolledBack} ==> n.phase == Free)
  {
    VisibleSound(s);
    hide Inv, PhaseOk, Truth;
  }

  lemma RestoreRuns(s: Sys, r: Record, healthy: bool)
    requires s.phase.Free? && Apply(s, Reconcile) == s.(phase := Restoring(r, false)) && s.lastGood.visible.Some?
    ensures var n := Run(s, Undisturbed(s, healthy));
            && Allowed(s, Undisturbed(s, healthy)) && n.phase.Free?
            && n.state == Rebooted(Terminal(r, if healthy then RolledBack else RollbackFailed))
            && n.live == Rebooted(s.lastGood.visible.value) && n.lastGood == s.lastGood && n.liveReady == healthy
            && n.before == s.before
  {
    var a := s.(phase := Restoring(r, false));
    var status := if healthy then RolledBack else RollbackFailed;
    RestoreSteps(a, r, healthy, status);
    hide Apply, Terminal;
    FourSteps(s, Reconcile, Restore(Durable, false), ProbeRestored(healthy, false), Close(Durable));
  }

  lemma RestoreSteps(a: Sys, r: Record, healthy: bool, status: Status)
    requires a.phase == Restoring(r, false) && a.lastGood.visible.Some?
    requires status == if healthy then RolledBack else RollbackFailed
    ensures var b := a.(live := Rebooted(a.lastGood.visible.value), phase := Restored(r, false), liveReady := false);
            var c := b.(phase := Closing(r, status), liveReady := healthy);
            && Apply(a, Restore(Durable, false)) == b && Apply(b, ProbeRestored(healthy, false)) == c
            && Apply(c, Close(Durable)) == c.(state := Rebooted(Terminal(r, status)), phase := Free)
  {
  }

  lemma FourSteps(s: Sys, a: Act, b: Act, c: Act, d: Act)
    ensures var x := Apply(s, a); var y := Apply(x, b); var z := Apply(y, c);
            && Run(s, [a, b, c, d]) == Apply(z, d)
            && (Enabled(s, a) && Enabled(x, b) && Enabled(y, c) && Enabled(z, d) ==> Allowed(s, [a, b, c, d]))
  {
    hide Apply, Enabled;
    ThreeSteps(Apply(s, a), b, c, d);
    assert [a, b, c, d][0] == a && [a, b, c, d][1..] == [b, c, d];
  }

  lemma CloseRuns(s: Sys, r: Record, healthy: bool)
    requires s.phase.Free? && Apply(s, Reconcile) == s.(phase := Closing(r, Failed))
    ensures var n := Run(s, Undisturbed(s, healthy));
            && Allowed(s, Undisturbed(s, healthy)) && n == s.(state := Rebooted(Terminal(r, Failed)))
  {
    TwoSteps(s, Reconcile, Close(Durable));
  }

  /** An undisturbed reconcile settles an interrupted update: one killed while downloading,
      or while applying with the old binary live, ends as failed with the live binary
      untouched; one killed with its candidate live ends as rolled_back, or as
      rollback_failed when the probes fail, with the binary from before the operation
      durably live.  Nothing of the update stays pending. */
  lemma ReconcileSettles(s: Sys, healthy: bool)
    requires Inv(s) && s.phase.Free? && s.state.visible.status in {Downloading, Applying, Verifying}
    ensures var n, r := Run(s, Undisturbed(s, healthy)), s.state.visible;
            && Allowed(s, Undisturbed(s, healthy)) && n.phase.Free?
            && n.state == Rebooted(n.state.visible) && n.state.visible.operation == r.operation
            && !n.state.visible.pendingConfirm
            && r.operation in s.before
            && (if r.status.Downloading? || (r.status.Applying? && !CandidateIsLive(s, r)) then
                  n.state.visible.status.Failed? && n.live == s.live && s.live.visible == s.before[r.operation]
                else
                  && n.state.visible.status == (if healthy then RolledBack else RollbackFailed)
                  && n.live == Rebooted(s.before[r.operation]) && n.liveReady == healthy)
  {
    ReconcileGoes(s);
    VisibleSound(s);
    hide Inv, PhaseOk, Apply;
    var r := s.state.visible;
    if r.status.Downloading? || (r.status.Applying? && !CandidateIsLive(s, r)) {
      CloseRuns(s, r, healthy);
    } else {
      assert s.lastGood.visible == Some(s.before[r.operation]);
      RestoreRuns(s, r, healthy);
    }
  }

  /** Behind the barrier an undisturbed reconcile brings back the binary from before the
      operation, and leaves the barrier when that passes the probes. */
  lemma BarrierSettles(s: Sys, healthy: bool)
    requires Inv(s) && s.phase.Free? && s.state.visible.status.RollbackFailed?
    ensures var n, r := Run(s, Undisturbed(s, healthy)), s.state.visible;
            && Allowed(s, Undisturbed(s, healthy)) && n.phase.Free? && r.operation in s.before
            && (if CandidateIsLive(s, r) then
                  && n.state == Rebooted(Terminal(r, if healthy then RolledBack else RollbackFailed))
                  && n.live == Rebooted(s.before[r.operation])
                else n == s)
  {
    ReconcileGoes(s);
    VisibleSound(s);
    hide Inv, PhaseOk, Apply;
    var r := s.state.visible;
    if CandidateIsLive(s, r) {
      assert s.lastGood.visible == Some(s.before[r.operation]);
      RestoreRuns(s, r, healthy);
    } else {
      OneStep(s, Reconcile);
    }
  }

  // ------------------------------------------------------------------- admission

  /** The statuses of an operation that is not over. */
  const OPEN: set<Status> := {Scheduled, Downloading, Applying, Verifying, RollbackFailed}

  /** A new operation, an automatic update and a recorded check each find the visible
      status open and change nothing, or start afresh. */
  lemma OpenRefusesExactly(s: Sys, manual: bool)
    ensures var r := s.state.visible;
            && (Apply(s, Schedule(Durable)) == s <==> r.status in OPEN)
            && (Apply(s, StartAutomatic(manual, Durable)) == s <==> r.status in OPEN)
            && (r.status in OPEN ==> Apply(s, RecordCheck(Durable)) == s)
            && (r.status !in OPEN ==>
                  && Apply(s, RecordCheck(Durable))
                     == s.(state := Rebooted(r.(status := Checked, pendingConfirm := false)))
                  && NewRecord(s, Apply(s, Schedule(Durable)).state, true, r.generation + 1)
                  && NewRecord(s, Apply(s, StartAutomatic(manual, Durable)).state, manual, r.generation)
                  && Apply(s, StartAutomatic(manual, Durable)).phase.Started?
                  && Apply(s, Schedule(Durable)).phase == s.phase)
  {
    if s.state.visible.status !in OPEN {
      assert Apply(s, Schedule(Durable)).nextOperation != s.nextOperation;
      assert Apply(s, StartAutomatic(manual, Durable)).nextOperation != s.nextOperation;
    }
  }

  /** A durable record of a fresh operation that owns nothing yet. */
  ghost predicate NewRecord(s: Sys, f: File<Record>, manual: bool, generation: nat) {
    && f == Rebooted(f.visible)
    && f.visible.(manual := manual, generation := generation)
       == Record(Scheduled, s.nextOperation, manual, generation, None, false, 0, false, false)
    && f.visible.manual == manual && f.visible.generation == generation
  }

  /** A worker starts, is delivered again and is reported exactly for the operation that is
      scheduled, and reports only for the generation they name. */
  lemma DeliveriesExact(s: Sys, op: Operation, generation: nat)
    requires s.phase.Free?
    ensures var r := s.state.visible;
            var mine := r.status.Scheduled? && r.operation == op;
            && (Apply(s, Deliver(op)).phase.Started? <==> mine)
            && (!mine ==> Apply(s, Deliver(op)) == s && Apply(s, Redeliver(op, Durable)) == s)
            && (mine ==>
                  && Apply(s, Deliver(op))
                     == s.(phase := Started(r.(digest := None, liveReplaced := false, rollbackOperation := 0)))
                  && Apply(s, Redeliver(op, Durable)).state.visible.status.Scheduled?
                  && Apply(s, Redeliver(op, Durable)).state.visible.operation == op
                  && Apply(s, Redeliver(op, Durable)).state.visible.generation == r.generation + 1
                  && Apply(s, Redeliver(op, Durable)).state.visible.manual == r.manual
                  && !Apply(s, Redeliver(op, Durable)).state.visible.deliveryUnknown
                  && Apply(s, Redeliver(op, Durable)).state == Rebooted(Apply(s, Redeliver(op, Durable)).state.visible))
            && Apply(s, ReportFailed(op, generation, Durable))
               == (if mine && r.generation == generation
                   then s.(state := Rebooted(r.(status := Failed, pendingConfirm := false))) else s)
            && Apply(s, ReportUnknown(op, generation, Durable))
               == (if mine && r.generation == generation then s.(state := Rebooted(r.(deliveryUnknown := true))) else s)
  {
  }

  /** A gate that stops an update says why by its status, and touches no binary. */
  lemma GatesEnd(s: Sys, d: Decision)
    requires s.phase.Started? && !d.Proceed?
    ensures var n := Apply(s, Decide(d, Durable));
            && n == s.(state := n.state, phase := Free)
            && n.state == Rebooted(s.phase.mem.(status := n.state.visible.status, pendingConfirm := false))
            && (n.state.visible.status.Failed? <==> d.CheckFailed? || d.NoAsset?)
            && (n.state.visible.status.Skipped? <==> d.NotAllowed?)
            && (n.state.visible.status.Done? <==> d.NothingNewer?)
  {
  }

  // ------------------------------------------------------------------ the update's steps

  /** Each step of an update goes on exactly when its save is durable, its download is sane
      or its service answers, and unwinds otherwise; each writes one file or none. */
  lemma StepsGoOn(s: Sys, o: Outcome, ok: bool, candidate: Bin)
    ensures s.phase.Started? ==>
              var n := Apply(s, Decide(Proceed, o));
              && OnlyPhase(s, n.(state := s.state, downloads := s.downloads))
              && (n.phase.Fetching? <==> o.Durable?) && (n.phase.Unwinding? <==> !o.Durable?)
              && (!o.NotReplaced? ==> n.state.visible.status.Downloading? && n.state.visible.pendingConfirm)
    ensures s.phase.Fetching? ==>
              var n := Apply(s, Fetch(ok, candidate));
              && OnlyPhase(s, n.(verified := s.verified)) && (n.phase.Sane? <==> ok) && (n.phase.Unwinding? <==> !ok)
              && (ok ==> n.phase.candidate == candidate && n.verified == s.verified[s.phase.mem.operation := candidate])
    ensures s.phase.Sane? ==>
              var n := Apply(s, Backup(o));
              && OnlyPhase(s, n.(lastGood := s.lastGood)) && n.lastGood == Written(s.lastGood, Some(s.live.visible), o)
              && (n.phase.BackedUp? <==> o.Durable?) && (n.phase.Unwinding? <==> !o.Durable?)
    ensures s.phase.BackedUp? ==>
              var n := Apply(s, Arm(o));
              && OnlyPhase(s, n.(state := s.state)) && (n.phase.Armed? <==> o.Durable?)
              && (n.phase.Unwinding? <==> !o.Durable?)
              && (!o.NotReplaced? ==> n.state.visible.status.Applying? && !n.state.visible.liveReplaced
                                      && n.state.visible.digest == Some(s.phase.candidate))
  {
  }

  /** So do the replacement of the binary and what follows it. */
  lemma ReplacementGoesOn(s: Sys, o: Outcome, ok: bool)
    ensures s.phase.Armed? ==>
              var n := Apply(s, Install(o));
              && OnlyPhase(s, n.(live := s.live, liveReady := s.liveReady))
              && n.live == Written(s.live, s.phase.candidate, o)
              && (n.phase.Installed? <==> o.Durable?) && (n.phase.Unwinding? <==> !o.Durable?)
    ensures s.phase.Installed? ==>
              var n := Apply(s, Confirm(o));
              && OnlyPhase(s, n.(state := s.state)) && (n.phase.Confirming? <==> o.Durable?)
              && (n.phase.Unwinding? <==> !o.Durable?)
              && (!o.NotReplaced? ==> n.state.visible.status.Verifying? && n.state.visible.liveReplaced)
    ensures s.phase.Confirming? ==>
              var n := Apply(s, Probe(ok));
              && OnlyPhase(s, n.(ready := s.ready, liveReady := s.liveReady))
              && (n.phase.Accepted? <==> ok) && (n.phase.Unwinding? <==> !ok)
              && n.ready == s.ready + (if ok then {s.phase.mem.operation} else {})
    ensures s.phase.Accepted? ==>
              var n := Apply(s, Accept(o));
              && OnlyPhase(s, n.(state := s.state)) && (n.phase.Free? <==> o.Durable?)
              && (n.phase.Unwinding? <==> !o.Durable?)
              && (!o.NotReplaced? ==> n.state.visible.status.Done? && !n.state.visible.pendingConfirm)
  {
  }

  /** Nothing but the step the program is at. */
  ghost predicate OnlyPhase(s: Sys, n: Sys) {
    n == s.(phase := n.phase)
  }

  /** The live binary counts as ready only since a probe it passed: replacing it, and a
      crash, end that. */
  lemma ReadyIsSeen(s: Sys, a: Act)
    ensures Apply(s, a).liveReady ==>
              || a == Probe(true) || (a.ProbeRestored? && a.ok)
              || (s.liveReady && Apply(s, a).live == s.live && !a.MachineCrash?)
  {
  }

  /** A crash leaves one content of each of the three files and frees the lock. */
  lemma CrashLeaves(s: Sys, r: Record, live: Bin, lastGood: Option<Bin>)
    ensures var n := Apply(s, MachineCrash(r, live, lastGood));
            && n.state == Rebooted(r) && n.live == Rebooted(live) && n.lastGood == Rebooted(lastGood)
            && n.phase.Free? && !n.liveReady
  {
  }
}
