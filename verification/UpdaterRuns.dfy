/** The updater's guarantees over whole runs of requests, deliveries, updates,
    reconciliations and crashes. */
module UpdaterRuns {
  import opened DurableFile
  import opened UpdaterProtocol
  import opened UpdaterSafety
  import opened Wrappers

  ghost function Run(s: Sys, acts: seq<Act>): Sys
    decreases acts
  {
    if acts == [] then s else Run(Apply(s, acts[0]), acts[1..])
  }

  ghost predicate Allowed(s: Sys, acts: seq<Act>)
    decreases acts
  {
    acts != [] ==> Enabled(s, acts[0]) && Allowed(Apply(s, acts[0]), acts[1..])
  }

  ghost predicate NeverTrustsUnsettled(s: Sys, acts: seq<Act>)
    decreases acts
  {
    acts != [] ==> !TrustsUnsettled(s, acts[0]) && NeverTrustsUnsettled(Apply(s, acts[0]), acts[1..])
  }

  // ------------------------------------------------------------------ live binary

  /** What a terminal status promises about the live binary. */
  ghost predicate StatusTells(s: Sys, r: Record, live: Bin) {
    r.operation != 0 ==>
      && r.operation in s.before
      && (r.status in {Failed, Skipped, RolledBack} ==> live == s.before[r.operation])
      && (r.status.Done? && live != s.before[r.operation] ==>
            r.operation in s.verified && live == s.verified[r.operation] && r.operation in s.ready)
  }

  lemma {:induction false} InvInRuns(s: Sys, acts: seq<Act>)
    requires Inv(s) && Allowed(s, acts) && NeverTrustsUnsettled(s, acts)
    ensures Inv(Run(s, acts))
    decreases acts
  {
    if acts != [] {
      hide Inv;
      InvKept(s, acts[0]);
      InvInRuns(Apply(s, acts[0]), acts[1..]);
    }
  }

  /** After any run, whatever state and binary a crash leaves: `failed`, `skipped` and
      `rolled_back` mean the binary from before the operation, and a changed binary with
      `done` is the verified candidate that passed readiness. */
  lemma StatusFixesBinary(s: Sys, acts: seq<Act>, r: Record, live: Bin)
    requires Initial(s) && Allowed(s, acts) && NeverTrustsUnsettled(s, acts)
    requires r in Run(s, acts).state.possible && live in Run(s, acts).live.possible
    ensures StatusTells(Run(s, acts), r, live)
  {
    InvInRuns(s, acts);
    assert RecordOk(Run(s, acts), r);
    assert Truth(Run(s, acts), r, live);
  }

  // ------------------------------------------------ what an unsettled binary costs

  /** Some state and binary a crash may leave contradict each other. */
  ghost predicate Misreports(s: Sys) {
    exists r, live :: r in s.state.possible && live in s.live.possible && !StatusTells(s, r, live)
  }

  /** Some continuation without such a decision ends in a misreport. */
  ghost predicate MayMisreport(s: Sys) {
    exists acts :: Allowed(s, acts) && NeverTrustsUnsettled(s, acts) && Misreports(Run(s, acts))
  }

  lemma SoundTells(s: Sys)
    requires Inv(s)
    ensures !Misreports(s)
  {
    forall r, live | r in s.state.possible && live in s.live.possible ensures StatusTells(s, r, live) {
      assert RecordOk(s, r);
      assert Truth(s, r, live);
    }
  }

  /** `failed` is wrong as soon as two binaries are possible. */
  lemma FailedMisreports(s: Sys, a: Bin, b: Bin)
    requires Coherent(s.state) && s.state.visible.status.Failed? && s.state.visible.operation != 0
    requires a in s.live.possible && b in s.live.possible && a != b
    ensures Misreports(s)
  {
    var r := s.state.visible;
    if r.operation in s.before {
      assert a != s.before[r.operation] || b != s.before[r.operation];
      var live := if a != s.before[r.operation] then a else b;
      assert r in s.state.possible && live in s.live.possible && !StatusTells(s, r, live);
    } else {
      assert r in s.state.possible && a in s.live.possible && !StatusTells(s, r, a);
    }
  }

  lemma OneStep(s: Sys, a: Act)
    ensures Run(s, [a]) == Apply(s, a)
    ensures Enabled(s, a) ==> Allowed(s, [a])
    ensures !TrustsUnsettled(s, a) ==> NeverTrustsUnsettled(s, [a])
  {
    hide Apply, Enabled, TrustsUnsettled;
    assert [a][1..] == [];
  }

  lemma TwoSteps(s: Sys, a: Act, b: Act)
    ensures Run(s, [a, b]) == Apply(Apply(s, a), b)
    ensures Enabled(s, a) && Enabled(Apply(s, a), b) ==> Allowed(s, [a, b])
    ensures !TrustsUnsettled(s, a) && !TrustsUnsettled(Apply(s, a), b) ==> NeverTrustsUnsettled(s, [a, b])
  {
    hide Apply, Enabled, TrustsUnsettled;
    OneStep(Apply(s, a), b);
    assert [a, b][0] == a && [a, b][1..] == [b];
  }

  lemma Another(f: File<Bin>, b: Bin)
    requires Coherent(f) && f.possible != {b}
    ensures exists c :: c in f.possible && c != b
  {
    assert (forall c :: c in f.possible ==> c == b) ==> f.possible == {b};
  }

  lemma ThreeSteps(s: Sys, a: Act, b: Act, c: Act)
    ensures Run(s, [a, b, c]) == Apply(Apply(Apply(s, a), b), c)
    ensures Enabled(s, a) && Enabled(Apply(s, a), b) && Enabled(Apply(Apply(s, a), b), c) ==> Allowed(s, [a, b, c])
    ensures !TrustsUnsettled(s, a) && !TrustsUnsettled(Apply(s, a), b) && !TrustsUnsettled(Apply(Apply(s, a), b), c) ==>
              NeverTrustsUnsettled(s, [a, b, c])
  {
    hide Apply, Enabled, TrustsUnsettled;
    TwoSteps(Apply(s, a), b, c);
    assert [a, b, c][0] == a && [a, b, c][1..] == [b, c];
  }

  /** The new operation is scheduled, its delivery fails, and `failed` names a binary that
      a crash may yet take away. */
  lemma NewOperationMisreports(s: Sys, a: Act)
    requires Inv(s) && s.phase.Free? && (a.Schedule? || a.StartAutomatic?) && NewOnUnsettled(s, a.o)
    ensures MayMisreport(Apply(s, a))
  {
    hide Inv, PhaseOk;
    LiveCoherent(s);
    Another(s.live, s.live.visible);
    var other :| other in s.live.possible && other != s.live.visible;
    var n := Apply(s, a);
    assert n.live == s.live && n.state.visible.status.Scheduled? && n.state.visible.operation != 0;
    DeliveryFails(n, other, s.live.visible);
  }

  /** The operation is scheduled again and the delivery of that generation fails. */
  lemma DeliveryFails(s: Sys, a: Bin, b: Bin)
    requires s.state.visible.status.Scheduled? && s.state.visible.operation != 0
    requires a in s.live.possible && b in s.live.possible && a != b
    ensures MayMisreport(s)
  {
    var r := s.state.visible;
    var again := Redeliver(r.operation, Durable);
    var report := ReportFailed(r.operation, r.generation + 1, Durable);
    ThreeSteps(s, ProcessCrash, again, report);
    var scheduled := Apply(Apply(s, ProcessCrash), again);
    assert scheduled.phase.Free? && SameDelivery(scheduled.state.visible, r.operation, r.generation + 1);
    var end := Apply(scheduled, report);
    assert end.state == Rebooted(Terminal(scheduled.state.visible, Failed)) && end.live == s.live;
    FailedMisreports(end, a, b);
  }

  lemma LiveCoherent(s: Sys)
    requires Inv(s)
    ensures Coherent(s.live) && Coherent(s.state) && s.nextOperation > 0
  {
  }

  lemma InterruptedMisreports(s: Sys)
    requires Inv(s) && s.phase.Free? && TrustsUnsettled(s, Reconcile)
    ensures MayMisreport(Apply(s, Reconcile))
  {
    var r, n := s.state.visible, Apply(s, Reconcile);
    assert RecordOk(s, r);
    assert Truth(s, r, s.live.visible);
    hide Inv, PhaseOk, TrustsUnsettled;
    LiveCoherent(s);
    Another(s.live, s.live.visible);
    var other :| other in s.live.possible && other != s.live.visible;
    CloseTrustsNothing(n);
    OneStep(n, Close(Durable));
    FailedMisreports(Apply(n, Close(Durable)), other, s.live.visible);
    assert Misreports(Run(n, [Close(Durable)]));
  }

  lemma CloseTrustsNothing(s: Sys)
    ensures !TrustsUnsettled(s, Close(Durable)) && Enabled(s, Close(Durable))
  {
  }

  lemma SilentMisreports(s: Sys, a: Act)
    requires Inv(s) && a.Restore? && TrustsUnsettled(s, a)
    ensures MayMisreport(Apply(s, a))
  {
    var mem, n := s.phase.mem, Apply(s, a);
    assert Context(s, mem) && s.lastGood.visible == Some(s.before[mem.operation]);
    hide Inv, PhaseOk;
    LiveCoherent(s);
    var former := s.before[mem.operation];
    Another(s.live, former);
    var other :| other in s.live.possible && other != former;
    CloseTrustsNothing(n);
    OneStep(n, Close(Durable));
    var end := Apply(n, Close(Durable));
    assert end.state.visible == Terminal(mem, Failed) && other in end.live.possible;
    assert !StatusTells(end, end.state.visible, other);
    assert Misreports(Run(n, [Close(Durable)]));
  }

  /** The condition of `StatusFixesBinary` is exact, decision by decision: from a sound
      state, what an act leaves may end in a misreport if and only if that act trusts an
      unsettled binary. */
  lemma TrustIsExact(s: Sys, a: Act)
    requires Inv(s) && Enabled(s, a)
    ensures TrustsUnsettled(s, a) <==> MayMisreport(Apply(s, a))
  {
    if TrustsUnsettled(s, a) {
      if a.Reconcile? {
        InterruptedMisreports(s);
      } else if a.Restore? {
        SilentMisreports(s, a);
      } else {
        NewOperationMisreports(s, a);
      }
    } else {
      hide Inv, Apply, TrustsUnsettled, Misreports;
      InvKept(s, a);
      forall acts | Allowed(Apply(s, a), acts) && NeverTrustsUnsettled(Apply(s, a), acts)
        ensures !Misreports(Run(Apply(s, a), acts))
      {
        InvInRuns(Apply(s, a), acts);
        SoundTells(Run(Apply(s, a), acts));
      }
    }
  }

  // -------------------------------------------------------- downloads and delivery

  ghost predicate PhaseDelivery(s: Sys) {
    && (s.phase.Started? ==>
          s.phase.mem.operation !in s.downloads && s.phase.mem.operation < s.nextOperation
          && s.phase.mem.status.Scheduled? && s.state.visible.status.Scheduled?
          && s.state.visible.operation == s.phase.mem.operation)
    && (!s.phase.Free? && !s.phase.Started? ==>
          s.phase.mem.operation < s.nextOperation && !s.phase.mem.status.Scheduled?)
    && (s.phase.Closing? ==> !s.phase.status.Scheduled?)
  }

  /** What every run keeps, even one that trusts an unsettled binary. */
  ghost predicate DeliveryInv(s: Sys) {
    && Coherent(s.state) && Coherent(s.live) && Coherent(s.lastGood) && s.nextOperation > 0
    && (forall r :: r in s.state.possible ==> r.operation < s.nextOperation)
    && (forall op :: op in s.downloads ==>
          && s.downloads[op] == 1 && op < s.nextOperation
          && (forall r :: r in s.state.possible && r.operation == op ==> !r.status.Scheduled?))
    && PhaseDelivery(s)
  }

  lemma SaveDelivers(s: Sys, n: Sys, r: Record, o: Outcome)
    requires DeliveryInv(s) && PhaseDelivery(n)
    requires n == s.(state := Written(s.state, r, o), phase := n.phase, nextOperation := n.nextOperation,
        before := n.before)
    requires s.nextOperation <= n.nextOperation && r.operation < n.nextOperation
    requires r.status.Scheduled? ==> r.operation !in s.downloads
    ensures DeliveryInv(n)
  {
  }

  /** A save under the free lock, whatever it is followed by. */
  lemma EntryDelivers(s: Sys, a: Act)
    requires DeliveryInv(s) && s.phase.Free? && IsEntry(a)
    ensures DeliveryInv(Apply(s, a))
  {
    hide DeliveryInv, Converge;
    VisibleDelivers(s);
    var n, r := Apply(s, a), s.state.visible;
    if a.Deliver? {
      SameStateDelivers(s, n);
    } else if a.Reconcile? {
      ReconcileDelivers(s);
    } else if a.Schedule? && !Pending(r) && !r.status.RollbackFailed? {
      SaveDelivers(s, n, Fresh(s, r, true).(generation := r.generation + 1), a.o);
    } else if a.StartAutomatic? && !Pending(r) && !r.status.RollbackFailed? {
      SaveDelivers(s, n, Fresh(s, r, a.manual), a.o);
    } else if a.Redeliver? && r.status.Scheduled? && r.operation == a.operation {
      SaveDelivers(s, n, r.(generation := r.generation + 1, pendingConfirm := false, liveReplaced := false,
                            rollbackOperation := 0, deliveryUnknown := false), a.o);
    } else if a.ReportUnknown? && SameDelivery(r, a.operation, a.generation) {
      SaveDelivers(s, n, r.(deliveryUnknown := true), a.o);
    } else if a.ReportFailed? && SameDelivery(r, a.operation, a.generation) {
      SaveDelivers(s, n, Terminal(r, Failed), a.o);
    } else if a.RecordCheck? && !Pending(r) && !r.status.RollbackFailed? {
      SaveDelivers(s, n, r.(status := Checked, pendingConfirm := false), a.o);
    }
  }

  lemma VisibleDelivers(s: Sys)
    requires DeliveryInv(s)
    ensures PhaseDelivery(s) && s.state.visible.operation < s.nextOperation && s.nextOperation !in s.downloads
    ensures s.state.visible.status.Scheduled? ==> s.state.visible.operation !in s.downloads
  {
  }

  lemma ReconcileDelivers(s: Sys)
    requires DeliveryInv(s) && s.phase.Free?
    ensures DeliveryInv(Converge(s))
  {
    hide DeliveryInv;
    VisibleDelivers(s);
    SameStateDelivers(s, Converge(s));
  }

  lemma ProceedDelivers(s: Sys, o: Outcome)
    requires DeliveryInv(s) && s.phase.Started?
    ensures DeliveryInv(Apply(s, Decide(Proceed, o)))
  {
    var n := Apply(s, Decide(Proceed, o));
    if o.Durable? {
      assert n.state.possible == {n.state.visible};
    } else {
      var mem := s.phase.mem;
      SaveDelivers(s, n, mem.(status := Downloading, pendingConfirm := true, liveReplaced := false,
                              rollbackOperation := 0), o);
    }
  }

  lemma DecisionDelivers(s: Sys, d: Decision, o: Outcome)
    requires DeliveryInv(s) && s.phase.Started?
    ensures DeliveryInv(Apply(s, Decide(d, o)))
  {
    hide DeliveryInv;
    VisibleDelivers(s);
    if d.Proceed? {
      ProceedDelivers(s, o);
    } else {
      var status := if d.NotAllowed? then Skipped else if d.NothingNewer? then Done else Failed;
      SaveDelivers(s, Apply(s, Decide(d, o)), Terminal(s.phase.mem, status), o);
    }
  }

  lemma SavingDelivers(s: Sys, a: Act)
    requires DeliveryInv(s) && (a.Arm? || a.Confirm? || a.Accept? || a.Close?) && Apply(s, a) != s
    ensures DeliveryInv(Apply(s, a))
  {
    hide DeliveryInv;
    VisibleDelivers(s);
    var n, mem := Apply(s, a), s.phase.mem;
    if a.Arm? {
      SaveDelivers(s, n, mem.(status := Applying, digest := Some(s.phase.candidate), pendingConfirm := true,
                              liveReplaced := false), a.o);
    } else if a.Confirm? {
      SaveDelivers(s, n, mem.(status := Verifying, liveReplaced := true, pendingConfirm := true), a.o);
    } else if a.Accept? {
      SaveDelivers(s, n, Terminal(mem, Done), a.o);
    } else {
      SaveDelivers(s, n, Terminal(mem, s.phase.status), a.o);
    }
  }

  lemma UpdateDelivers(s: Sys, a: Act)
    requires DeliveryInv(s) && !IsEntry(a) && !a.MachineCrash?
    ensures DeliveryInv(Apply(s, a))
  {
    hide DeliveryInv;
    if Apply(s, a) == s {
    } else if a.Decide? {
      DecisionDelivers(s, a.decision, a.o);
    } else if a.Arm? || a.Confirm? || a.Accept? || a.Close? {
      SavingDelivers(s, a);
    } else if a.Backup? || a.Install? || a.Restore? {
      BinaryDelivers(s, a);
    } else {
      VisibleDelivers(s);
      SameStateDelivers(s, Apply(s, a));
    }
  }

  lemma BinaryDelivers(s: Sys, a: Act)
    requires DeliveryInv(s) && (a.Backup? || a.Install? || a.Restore?)
    ensures DeliveryInv(Apply(s, a))
  {
    hide DeliveryInv;
    VisibleDelivers(s);
    SameStateDelivers(s, Apply(s, a));
  }

  lemma CrashDelivers(s: Sys, a: Act)
    requires DeliveryInv(s) && Enabled(s, a) && a.MachineCrash?
    ensures DeliveryInv(Apply(s, a))
  {
  }

  lemma SameStateDelivers(s: Sys, n: Sys)
    requires DeliveryInv(s) && PhaseDelivery(n)
    requires n.state == s.state && n.downloads == s.downloads && n.nextOperation == s.nextOperation
    requires Coherent(s.live) ==> Coherent(n.live)
    requires Coherent(s.lastGood) ==> Coherent(n.lastGood)
    ensures DeliveryInv(n)
  {
  }

  lemma DeliveryInvKept(s: Sys, a: Act)
    requires DeliveryInv(s) && Enabled(s, a)
    ensures DeliveryInv(Apply(s, a))
  {
    hide DeliveryInv, Apply;
    if IsEntry(a) {
      EntryDelivers(s, a);
    } else if a.MachineCrash? {
      CrashDelivers(s, a);
    } else {
      UpdateDelivers(s, a);
    }
  }

  lemma {:induction false} DeliveryInRuns(s: Sys, acts: seq<Act>)
    requires DeliveryInv(s) && Allowed(s, acts)
    ensures DeliveryInv(Run(s, acts))
    decreases acts
  {
    if acts != [] {
      hide DeliveryInv;
      DeliveryInvKept(s, acts[0]);
      DeliveryInRuns(Apply(s, acts[0]), acts[1..]);
    }
  }

  /** Whatever redeliveries, restarts and crashes: no operation saves the start of its
      download durably twice. */
  lemma DownloadsOnce(s: Sys, acts: seq<Act>, op: Operation)
    requires Initial(s) && Allowed(s, acts)
    ensures Run(s, acts).downloads[op] <= 1
  {
    DeliveryInRuns(s, acts);
    if op in Run(s, acts).downloads {
    }
  }

  /** The operation's record becomes visible as `downloading`. */
  ghost predicate Enters(s: Sys, a: Act, op: Operation) {
    a.Decide? && a.decision.Proceed? && s.phase.Started? && s.phase.mem.operation == op && !a.o.NotReplaced?
  }

  ghost predicate EntersIn(s: Sys, acts: seq<Act>, op: Operation)
    decreases acts
  {
    acts != [] && (Enters(s, acts[0], op) || EntersIn(Apply(s, acts[0]), acts[1..], op))
  }

  lemma DownloadsStay(s: Sys, a: Act, op: Operation)
    requires op in s.downloads
    ensures op in Apply(s, a).downloads
  {
  }

  lemma {:induction false} NeverEntersAgain(s: Sys, acts: seq<Act>, op: Operation)
    requires DeliveryInv(s) && Allowed(s, acts) && op in s.downloads
    ensures !EntersIn(s, acts, op)
    decreases acts
  {
    if acts != [] {
      VisibleDelivers(s);
      hide DeliveryInv, Apply;
      DeliveryInvKept(s, acts[0]);
      DownloadsStay(s, acts[0], op);
      NeverEntersAgain(Apply(s, acts[0]), acts[1..], op);
    }
  }

  /** A crash takes the record back to `scheduled`, and the delivery starts over. */
  function StartingOver(s: Sys, op: Operation): seq<Act> {
    [MachineCrash(s.state.visible, s.live.visible, s.lastGood.visible), Deliver(op), Decide(Proceed, Durable)]
  }

  lemma EntersAgain(s: Sys, op: Operation)
    requires DeliveryInv(s) && Enters(s, Decide(Proceed, Unsynced), op)
    ensures var n := Apply(s, Decide(Proceed, Unsynced));
            Allowed(n, StartingOver(s, op)) && EntersIn(n, StartingOver(s, op), op)
  {
    var n, acts := Apply(s, Decide(Proceed, Unsynced)), StartingOver(s, op);
    var m := Apply(n, acts[0]);
    var k := Apply(m, acts[1]);
    assert Enabled(n, acts[0]) && m.phase.Free? && m.state.visible == s.state.visible;
    assert k.phase.Started? && k.phase.mem.operation == op;
    hide DeliveryInv, Apply;
    assert acts[1..] == [acts[1], acts[2]] && acts[1..][1..] == [acts[2]] && acts[1..][1..][1..] == [];
    assert EntersIn(k, acts[1..][1..], op);
    assert EntersIn(m, acts[1..], op);
    assert Allowed(k, acts[1..][1..]);
    assert Allowed(m, acts[1..]);
  }

  /** After any run, an operation that has become `downloading` may become so again if and
      only if that save was not durable. */
  lemma EnteredAgainExactly(s: Sys, acts: seq<Act>, a: Act, op: Operation)
    requires Initial(s) && Allowed(s, acts) && Enters(Run(s, acts), a, op)
    ensures var n := Apply(Run(s, acts), a);
            (exists more :: Allowed(n, more) && EntersIn(n, more, op)) <==> a.o.Unsynced?
  {
    DeliveryInRuns(s, acts);
    var m := Run(s, acts);
    var n := Apply(m, a);
    DeliveryInvKept(m, a);
    if a.o.Unsynced? {
      EntersAgain(m, op);
    } else {
      assert op in n.downloads;
      hide DeliveryInv, Apply, Enters;
      forall more | Allowed(n, more) ensures !EntersIn(n, more, op) {
        NeverEntersAgain(n, more, op);
      }
    }
  }

  /** A failed-delivery report changes only a delivery nobody has advanced: the very
      generation is still scheduled and its operation never started to download. */
  lemma ReportNeverOverwrites(s: Sys, acts: seq<Act>, op: Operation, generation: nat, o: Outcome)
    requires Initial(s) && Allowed(s, acts)
    requires Apply(Run(s, acts), ReportFailed(op, generation, o)).state != Run(s, acts).state
    ensures var r := Run(s, acts).state.visible;
            r.status.Scheduled? && r.operation == op && r.generation == generation
    ensures Run(s, acts).downloads[op] == 0
  {
    DeliveryInRuns(s, acts);
  }

  // --------------------------------------------------------------- rollback barrier

  ghost predicate BarrierInv(s: Sys) {
    && (s.state.visible.status.RollbackFailed? ==>
          s.phase.Free? || ((s.phase.Restoring? || s.phase.Restored? || (s.phase.Closing? && !s.phase.status.Failed?))
                            && s.phase.mem.operation == s.state.visible.operation))
    && (s.phase.Restoring? || s.phase.Restored? ==>
          s.phase.unwinding ==> !s.state.visible.status.RollbackFailed?)
    && (s.phase.Restoring? || s.phase.Restored? || (s.phase.Closing? && s.phase.status.RolledBack?) ==>
          s.phase.mem.rollbackOperation == s.phase.mem.operation && s.phase.mem.operation != 0
          && s.lastGood.visible.Some?)
    && (s.phase.Restored? || (s.phase.Closing? && s.phase.status.RolledBack?) ==>
          s.live.possible == {s.lastGood.visible.value})
    && (s.phase.Closing? ==> s.phase.status in {Failed, RolledBack, RollbackFailed})
    && (s.phase.Closing? && s.phase.status.RolledBack? ==> s.liveReady)
  }

  lemma BarrierEntry(s: Sys, a: Act)
    requires BarrierInv(s) && s.phase.Free? && IsEntry(a)
    ensures BarrierInv(Apply(s, a))
  {
  }

  lemma BarrierUpdate(s: Sys, a: Act)
    requires BarrierInv(s) && !IsEntry(a) && !s.phase.Restoring? && !s.phase.Restored? && !s.phase.Closing?
    ensures BarrierInv(Apply(s, a))
  {
  }

  lemma BarrierRollback(s: Sys, a: Act)
    requires BarrierInv(s) && !IsEntry(a) && (s.phase.Restoring? || s.phase.Restored? || s.phase.Closing?)
    ensures BarrierInv(Apply(s, a))
  {
  }

  lemma BarrierInvKept(s: Sys, a: Act)
    requires BarrierInv(s) && Enabled(s, a)
    ensures BarrierInv(Apply(s, a))
  {
    hide BarrierInv, Apply;
    if IsEntry(a) {
      BarrierEntry(s, a);
    } else if s.phase.Restoring? || s.phase.Restored? || s.phase.Closing? {
      BarrierRollback(s, a);
    } else {
      BarrierUpdate(s, a);
    }
  }

  lemma {:induction false} BarrierInRuns(s: Sys, acts: seq<Act>)
    requires BarrierInv(s) && Allowed(s, acts)
    ensures BarrierInv(Run(s, acts))
    decreases acts
  {
    if acts != [] {
      hide BarrierInv;
      BarrierInvKept(s, acts[0]);
      BarrierInRuns(Apply(s, acts[0]), acts[1..]);
    }
  }

  lemma BarrierExit(s: Sys, a: Act)
    requires BarrierInv(s) && s.state.visible.status.RollbackFailed? && Enabled(s, a) && !a.MachineCrash?
    requires !Apply(s, a).state.visible.status.RollbackFailed?
    ensures s.phase.Closing? && s.phase.status.RolledBack? && a.Close? && !a.o.NotReplaced?
  {
  }

  /** Short of a machine crash, `rollback_failed` is left only when reconcile has durably
      reinstalled the last-good binary of this operation, has seen it pass the probes and
      is closing as rolled back. */
  lemma BarrierLeftByRollback(s: Sys, acts: seq<Act>, a: Act)
    requires Initial(s) && Allowed(s, acts)
    requires var n := Run(s, acts);
             n.state.visible.status.RollbackFailed? && Enabled(n, a) && !a.MachineCrash?
             && !Apply(n, a).state.visible.status.RollbackFailed?
    ensures var n := Run(s, acts);
            && n.phase == Closing(n.phase.mem, RolledBack) && n.phase.mem.operation == n.state.visible.operation
            && n.phase.mem.rollbackOperation == n.phase.mem.operation
            && n.lastGood.visible.Some? && n.live.possible == {n.lastGood.visible.value} && n.liveReady
            && Apply(n, a).state.visible.status.RolledBack?
  {
    BarrierInRuns(s, acts);
    hide Run, Allowed;
    BarrierExit(Run(s, acts), a);
    hide Converge;
  }

  /** Reconcile can act on the barrier exactly when the record says the live binary was
      replaced, or the candidate is live; otherwise the barrier is permanent. */
  lemma BarrierCanBeLeftExactly(s: Sys)
    requires Inv(s) && s.phase.Free? && s.state.visible.status.RollbackFailed?
    ensures var r := s.state.visible;
            Apply(s, Reconcile) != s <==> r.liveReplaced || r.digest == Some(s.live.visible)
  {
    assert RecordOk(s, s.state.visible);
    assert s.lastGood.visible in s.lastGood.possible;
  }

  ghost predicate PermanentBarrier(s: Sys, r: Record, live: Bin) {
    && s.state == Rebooted(r) && r.status.RollbackFailed? && !r.liveReplaced
    && s.live == Rebooted(live) && r.digest != Some(live)
    && s.phase.Free?
  }

  /** A barrier saved after a reinstall whose restart failed, in an operation that crashed
      before recording the replacement, is never left, whatever happens next. */
  lemma {:induction false} BarrierIsPermanent(s: Sys, acts: seq<Act>, r: Record, live: Bin)
    requires PermanentBarrier(s, r, live) && Allowed(s, acts)
    ensures PermanentBarrier(Run(s, acts), r, live)
    decreases acts
  {
    if acts != [] {
      BarrierIsPermanent(Apply(s, acts[0]), acts[1..], r, live);
    }
  }
}
