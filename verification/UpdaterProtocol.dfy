/** The binary updater as a state machine with one file write a step
    (hysteria/hysteria_update.py: schedule_apply_async, apply_update, reconcile,
    check_and_record).

    A binary is the number of its digest.  Between the steps of an update the process
    or the machine may crash: the updater lock is lost and memory with it. */
module UpdaterProtocol {
  import opened DurableFile
  import opened Wrappers

  type Bin = nat
  type Operation = nat  // 0: none

  datatype Status =
    | Idle | Checked | Scheduled | Downloading | Applying | Verifying
    | Done | Failed | Skipped | RolledBack | RollbackFailed

  /** The persisted updater state, as far as recovery depends on it. */
  datatype Record = Record(
    status: Status,
    operation: Operation,
    manual: bool,
    generation: nat,
    digest: Option<Bin>,       // 'sha256' of the candidate
    liveReplaced: bool,
    rollbackOperation: Operation,
    pendingConfirm: bool,
    deliveryUnknown: bool)

  predicate Pending(r: Record) {
    r.status in {Scheduled, Downloading, Applying, Verifying}
  }

  predicate Interrupted(r: Record) {
    r.pendingConfirm && r.status in {Downloading, Applying, Verifying}
  }

  /** Where the holder of the updater lock is. */
  datatype Phase =
    | Free
    | Started(mem: Record)
    | Fetching(mem: Record)
    | Sane(mem: Record, candidate: Bin)
    | BackedUp(mem: Record, candidate: Bin)
    | Armed(mem: Record, candidate: Bin)
    | Installed(mem: Record)
    | Confirming(mem: Record)
    | Accepted(mem: Record)
    | Unwinding(mem: Record)                   // the except clause of apply_update
    | Restoring(mem: Record, unwinding: bool)  // about to reinstall last-good
    | Restored(mem: Record, unwinding: bool)
    | Closing(mem: Record, status: Status)     // about to save a terminal status

  datatype Sys = Sys(
    state: File<Record>,
    live: File<Bin>,
    lastGood: File<Option<Bin>>,
    phase: Phase,
    nextOperation: Operation,
    // history
    before: map<Operation, Bin>,    // the live binary when the operation was created
    verified: map<Operation, Bin>,  // its candidate, once checksum and version passed
    ready: set<Operation>,          // its candidate passed the readiness probes
    downloads: multiset<Operation>, // downloads started
    liveReady: bool)                // the probes passed since the live binary was last written

  // ------------------------------------------------------------- rollback context

  predicate Owned(r: Record, live: Bin) {
    r.operation != 0 && r.rollbackOperation == r.operation && (r.liveReplaced || r.digest == Some(live))
  }

  predicate Eligible(r: Record, live: Bin, lastGood: Option<Bin>) {
    Owned(r, live) && lastGood.Some?
  }

  function Terminal(r: Record, status: Status): Record {
    r.(status := status, pendingConfirm := false)
  }

  /** The status after a failed reinstall: the except clause of apply_update tests the
      message of the exception, reconcile does not. */
  function NotRestored(unwinding: bool, silent: bool): Status {
    if unwinding && silent then Failed else RollbackFailed
  }

  // ------------------------------------------------------------------------ steps

  datatype Decision = CheckFailed | NotAllowed | NothingNewer | NoAsset | Proceed

  datatype Act =
    | Schedule(o: Outcome)                      // a new manual operation
    | Redeliver(operation: Operation, o: Outcome)
    | ReportUnknown(operation: Operation, generation: nat, o: Outcome)
    | ReportFailed(operation: Operation, generation: nat, o: Outcome)
    | RecordCheck(o: Outcome)
    | Deliver(operation: Operation)             // a worker starts apply_update
    | StartAutomatic(manual: bool, o: Outcome)  // apply_update without an operation id
    | Decide(decision: Decision, o: Outcome)
    | Fetch(ok: bool, candidate: Bin)           // download, checksum, version sanity
    | Backup(o: Outcome)
    | Arm(o: Outcome)
    | Install(o: Outcome)
    | Confirm(o: Outcome)
    | Probe(ok: bool)
    | Accept(o: Outcome)
    | Unwind
    | Restore(o: Outcome, silent: bool)         // `silent`: a failure without any message
    | ProbeRestored(ok: bool, silent: bool)
    | Close(o: Outcome)
    | Reconcile
    | ProcessCrash
    | MachineCrash(state: Record, live: Bin, lastGood: Option<Bin>)

  function Fresh(s: Sys, r: Record, manual: bool): Record {
    r.(status := Scheduled, operation := s.nextOperation, manual := manual, digest := None,
       liveReplaced := false, rollbackOperation := 0, pendingConfirm := false, deliveryUnknown := false)
  }

  function Save(s: Sys, r: Record, o: Outcome): Sys {
    s.(state := Written(s.state, r, o))
  }

  predicate SameDelivery(r: Record, operation: Operation, generation: nat) {
    r.operation == operation && r.status.Scheduled? && r.generation == generation
  }

  function NewOperation(s: Sys): Sys {
    s.(nextOperation := s.nextOperation + 1, before := s.before[s.nextOperation := s.live.visible])
  }

  /** `reconcile` up to its decision. */
  function Converge(s: Sys): Sys {
    var r := s.state.visible;
    if !r.status.RollbackFailed? && !Interrupted(r) then s
    else if Eligible(r, s.live.visible, s.lastGood.visible) then s.(phase := Restoring(r, false))
    else if r.status.RollbackFailed? then s
    else s.(phase := Closing(r, if Owned(r, s.live.visible) then RollbackFailed else Failed))
  }

  function Apply(s: Sys, a: Act): Sys {
    var r := s.state.visible;
    match a
    case Schedule(o) =>
      if Pending(r) || r.status.RollbackFailed? then s
      else Save(NewOperation(s), Fresh(s, r, true).(generation := r.generation + 1), o)
    case Redeliver(op, o) =>
      if !r.status.Scheduled? || r.operation != op then s
      else Save(s, r.(generation := r.generation + 1, pendingConfirm := false, liveReplaced := false,
                      rollbackOperation := 0, deliveryUnknown := false), o)
    case ReportUnknown(op, g, o) =>
      if SameDelivery(r, op, g) then Save(s, r.(deliveryUnknown := true), o) else s
    case ReportFailed(op, g, o) =>
      if SameDelivery(r, op, g) then Save(s, Terminal(r, Failed), o) else s
    case RecordCheck(o) =>
      if Pending(r) || r.status.RollbackFailed? then s
      else Save(s, r.(status := Checked, pendingConfirm := false), o)
    case Deliver(op) =>
      if !r.status.Scheduled? || r.operation != op then s
      else s.(phase := Started(r.(liveReplaced := false, rollbackOperation := 0, digest := None)))
    case StartAutomatic(manual, o) =>
      if Pending(r) || r.status.RollbackFailed? then s
      else
        var mem := Fresh(s, r, manual);
        Save(NewOperation(s), mem, o).(phase := if o.Durable? then Started(mem) else Free)
    case Decide(d, o) =>
      if !s.phase.Started? then s
      else
        var mem := s.phase.mem;
        (match d
         case CheckFailed => Save(s, Terminal(mem, Failed), o).(phase := Free)
         case NotAllowed => Save(s, Terminal(mem, Skipped), o).(phase := Free)
         case NothingNewer => Save(s, Terminal(mem, Done), o).(phase := Free)
         case NoAsset => Save(s, Terminal(mem, Failed), o).(phase := Free)
         case Proceed =>
           var started := mem.(status := Downloading, pendingConfirm := true, liveReplaced := false,
                               rollbackOperation := 0);
           Save(s, started, o).(phase := if o.Durable? then Fetching(started) else Unwinding(started),
                                downloads := if o.Durable? then s.downloads + multiset{mem.operation} else s.downloads))
    case Fetch(ok, candidate) =>
      if !s.phase.Fetching? then s
      else if !ok then s.(phase := Unwinding(s.phase.mem))
      else s.(phase := Sane(s.phase.mem, candidate), verified := s.verified[s.phase.mem.operation := candidate])
    case Backup(o) =>
      if !s.phase.Sane? then s
      else
        var mem := s.phase.mem;
        var backed := s.(lastGood := Written(s.lastGood, Some(s.live.visible), o));
        if o.Durable? then backed.(phase := BackedUp(mem.(rollbackOperation := mem.operation), s.phase.candidate))
        else backed.(phase := Unwinding(mem))
    case Arm(o) =>
      if !s.phase.BackedUp? then s
      else
        var armed := s.phase.mem.(status := Applying, digest := Some(s.phase.candidate), pendingConfirm := true,
                                  liveReplaced := false);
        Save(s, armed, o).(phase := if o.Durable? then Armed(armed, s.phase.candidate) else Unwinding(armed))
    case Install(o) =>
      if !s.phase.Armed? then s
      else
        s.(live := Written(s.live, s.phase.candidate, o), liveReady := s.liveReady && o.NotReplaced?,
           phase := if o.Durable? then Installed(s.phase.mem) else Unwinding(s.phase.mem))
    case Confirm(o) =>
      if !s.phase.Installed? then s
      else
        var confirming := s.phase.mem.(status := Verifying, liveReplaced := true, pendingConfirm := true);
        Save(s, confirming, o).(phase := if o.Durable? then Confirming(confirming) else Unwinding(confirming))
    case Probe(ok) =>
      if !s.phase.Confirming? then s
      else if ok then
        s.(phase := Accepted(s.phase.mem), ready := s.ready + {s.phase.mem.operation}, liveReady := true)
      else s.(phase := Unwinding(s.phase.mem))
    case Accept(o) =>
      if !s.phase.Accepted? then s
      else
        var done := Terminal(s.phase.mem, Done);
        Save(s, done, o).(phase := if o.Durable? then Free else Unwinding(done))
    case Unwind =>
      if !s.phase.Unwinding? then s
      else
        var mem := s.phase.mem;
        if Eligible(mem, s.live.visible, s.lastGood.visible) then s.(phase := Restoring(mem, true))
        else s.(phase := Closing(mem, if Owned(mem, s.live.visible) then RollbackFailed else Failed))
    case Restore(o, silent) =>
      if !s.phase.Restoring? || s.lastGood.visible.None? then s
      else
        s.(live := Written(s.live, s.lastGood.visible.value, o), liveReady := s.liveReady && o.NotReplaced?,
           phase := if o.Durable? then Restored(s.phase.mem, s.phase.unwinding)
                    else Closing(s.phase.mem, NotRestored(s.phase.unwinding, silent)))
    case ProbeRestored(ok, silent) =>
      if !s.phase.Restored? then s
      else
        s.(phase := Closing(s.phase.mem, if ok then RolledBack else NotRestored(s.phase.unwinding, silent)),
           liveReady := ok)
    case Close(o) =>
      if !s.phase.Closing? then s
      else Save(s, Terminal(s.phase.mem, s.phase.status), o).(phase := Free)
    case Reconcile => Converge(s)
    case ProcessCrash => s.(phase := Free)
    case MachineCrash(st, lv, lg) =>
      s.(state := Rebooted(st), live := Rebooted(lv), lastGood := Rebooted(lg), phase := Free, liveReady := false)
  }

  /** Entry points wait for the updater lock; a crash leaves one of the possible contents. */
  predicate Enabled(s: Sys, a: Act) {
    match a
    case Schedule(_) => s.phase.Free?
    case Redeliver(_, _) => s.phase.Free?
    case ReportUnknown(_, _, _) => s.phase.Free?
    case ReportFailed(_, _, _) => s.phase.Free?
    case RecordCheck(_) => s.phase.Free?
    case Deliver(_) => s.phase.Free?
    case StartAutomatic(_, _) => s.phase.Free?
    case Reconcile => s.phase.Free?
    case MachineCrash(st, lv, lg) => st in s.state.possible && lv in s.live.possible && lg in s.lastGood.possible
    case _ => true
  }

  function IdleRecord(): Record {
    Record(Idle, 0, false, 0, None, false, 0, false, false)
  }

  predicate Initial(s: Sys) {
    && s.state == Rebooted(IdleRecord()) && s.live == Rebooted(s.live.visible)
    && s.lastGood == Rebooted(s.lastGood.visible)
    && s.phase.Free? && s.nextOperation > 0
    && s.before == map[] && s.verified == map[] && s.ready == {} && s.downloads == multiset{} && !s.liveReady
  }
}
