/** The updater as it runs: the state file, the live binary and the last-good copy change
    in place, one write after the other.  Every method extends a trace of
    `UpdaterProtocol`, so a kill between two writes is the same trace cut there. */
module Updater {
  import opened DurableFile
  import opened UpdaterProtocol
  import opened UpdaterSafety
  import opened UpdaterRuns
  import opened Wrappers

  /** What the updater meets: releases, gates, downloads, probes and disk writes. */
  datatype World = World(
    checked: bool, newer: bool, allowed: bool, freshBackup: bool, asset: bool, checksum: bool,
    fetched: bool, candidate: Bin, healthy: bool, restoredHealthy: bool, silent: bool,
    announce: Outcome, begin: Outcome, backup: Outcome, arm: Outcome, install: Outcome,
    confirm: Outcome, accept: Outcome, restore: Outcome, close: Outcome)

  datatype Reply =
    | Stale                    // StaleOperation
    | Busy                     // LockTimeout: another operation is pending
    | Raised                   // a save failed
    | Returned(record: Record)

  predicate Smooth(w: World) {
    && w.fetched && w.healthy && w.begin.Durable? && w.backup.Durable? && w.arm.Durable?
    && w.install.Durable? && w.confirm.Durable? && w.accept.Durable?
  }

  /** The gates of an update, the policy's only for one nobody forced. */
  predicate GatesPass(w: World, forced: bool) {
    w.checked && (forced || w.allowed) && w.newer && w.freshBackup && w.asset && w.checksum
  }

  lemma {:induction false} RunExtends(s: Sys, acts: seq<Act>, a: Act)
    ensures Run(s, acts + [a]) == Apply(Run(s, acts), a)
    ensures Allowed(s, acts) && Enabled(Run(s, acts), a) ==> Allowed(s, acts + [a])
    decreases acts
  {
    hide Apply, Enabled;
    if acts == [] {
      assert acts + [a] == [a];
      assert [a][1..] == [];
    } else {
      RunExtends(Apply(s, acts[0]), acts[1..], a);
      assert (acts + [a])[1..] == acts[1..] + [a];
    }
  }

  lemma SupplyPositive(s: Sys, acts: seq<Act>)
    requires Initial(s) && Allowed(s, acts)
    ensures Run(s, acts).nextOperation > 0
  {
    DeliveryInRuns(s, acts);
  }

  /** What each gate closes the operation with. */
  lemma GatesClose(s: Sys, mem: Record, o: Outcome)
    requires s.phase == Started(mem)
    ensures Apply(s, Decide(CheckFailed, o)) == Save(s, Terminal(mem, Failed), o).(phase := Free)
    ensures Apply(s, Decide(NotAllowed, o)) == Save(s, Terminal(mem, Skipped), o).(phase := Free)
    ensures Apply(s, Decide(NothingNewer, o)) == Save(s, Terminal(mem, Done), o).(phase := Free)
    ensures Apply(s, Decide(NoAsset, o)) == Save(s, Terminal(mem, Failed), o).(phase := Free)
  {
  }

  class Updater {
    var state: File<Record>
    var live: File<Bin>
    var lastGood: File<Option<Bin>>
    var nextOperation: Operation
    ghost var origin: Sys
    ghost var trace: seq<Act>

    ghost function Model(): Sys
      reads this
    {
      Run(origin, trace)
    }

    ghost predicate Agrees(s: Sys)
      reads this
    {
      s.state == state && s.live == live && s.lastGood == lastGood && s.nextOperation == nextOperation
    }

    ghost predicate Valid()
      reads this
    {
      Initial(origin) && Allowed(origin, trace) && Agrees(Model())
    }

    ghost predicate Unlocked()
      reads this
    {
      Valid() && Model().phase.Free?
    }

    constructor (binary: Bin, rescue: Option<Bin>)
      ensures Unlocked() && trace == [] && live == Rebooted(binary) && lastGood == Rebooted(rescue)
    {
      state, live := File(IdleRecord(), {IdleRecord()}), File(binary, {binary});
      lastGood, nextOperation := File(rescue, {rescue}), 1;
      origin := Sys(Rebooted(IdleRecord()), Rebooted(binary), Rebooted(rescue), Free, 1,
                    map[], map[], {}, multiset{}, false);
      trace := [];
    }

    /** The files have moved by one step of the protocol. */
    ghost method Log(a: Act)
      requires Initial(origin) && Allowed(origin, trace)
      requires Enabled(Model(), a) && Agrees(Apply(Model(), a))
      modifies this`trace
      ensures Valid() && trace == old(trace) + [a] && Model() == Apply(old(Model()), a)
    {
      RunExtends(origin, trace, a);
      trace := trace + [a];
    }

    /** Status and binary agree after every operation of a run that never trusted an
        unsettled binary. */
    lemma StatusHolds()
      requires Valid() && NeverTrustsUnsettled(origin, trace)
      ensures StatusTells(Model(), state.visible, live.visible)
    {
      InvInRuns(origin, trace);
      StatusFixesBinary(origin, trace, state.visible, live.visible);
    }

    /** The locked section of `schedule_apply_async`. */
    method Schedule(operation: Operation, o: Outcome) returns (reply: Reply)
      requires Unlocked()
      modifies this
      ensures Unlocked() && origin == old(origin) && old(trace) <= trace
      ensures live == old(live) && lastGood == old(lastGood)
      ensures reply.Returned? ==>
        && state == Rebooted(reply.record) && reply.record.status.Scheduled?
        && reply.record.generation == old(state.visible.generation) + 1
        && reply.record.operation == (if operation == 0 then old(nextOperation) else operation)
      ensures reply.Busy? <==>
        operation == 0 && old(state.visible.status) in {Scheduled, Downloading, Applying, Verifying, RollbackFailed}
      ensures reply.Stale? <==>
        operation != 0 && !(old(state.visible.status.Scheduled?) && old(state.visible.operation) == operation)
      ensures reply.Busy? || reply.Stale? ==> state == old(state)
      ensures !reply.Busy? && !reply.Stale? ==> (reply.Returned? <==> o.Durable?)
    {
      var r := state.visible;
      if operation == 0 {
        if Pending(r) || r.status.RollbackFailed? {
          return Busy;
        }
        r := r.(operation := nextOperation, manual := true, digest := None);
        nextOperation := nextOperation + 1;
      } else if !r.status.Scheduled? || r.operation != operation {
        return Stale;
      }
      r := r.(status := Scheduled, pendingConfirm := false, liveReplaced := false, rollbackOperation := 0,
              generation := r.generation + 1, deliveryUnknown := false);
      state := Written(state, r, o);
      Log(if operation == 0 then UpdaterProtocol.Schedule(o) else Redeliver(operation, o));
      reply := if o.Durable? then Returned(r) else Raised;
    }

    /** The report after a definite delivery failure (`failed`) or an unknown one. */
    method ReportDelivery(operation: Operation, generation: nat, failed: bool, o: Outcome)
      requires Unlocked()
      modifies this
      ensures Unlocked() && origin == old(origin) && old(trace) <= trace
      ensures live == old(live) && lastGood == old(lastGood)
      ensures
        var r := old(state.visible);
        if r.status.Scheduled? && r.operation == operation && r.generation == generation then
          state == Written(old(state), if failed then r.(status := Failed, pendingConfirm := false)
                                       else r.(deliveryUnknown := true), o)
        else state == old(state)
    {
      var r := state.visible;
      if !(r.operation == operation && r.status.Scheduled? && r.generation == generation) {
        return;
      }
      if failed {
        r := Terminal(r, Failed);
      } else {
        r := r.(deliveryUnknown := true);
      }
      state := Written(state, r, o);
      Log(if failed then ReportFailed(operation, generation, o) else ReportUnknown(operation, generation, o));
    }

    /** `apply_update`; `request` is 0 when no operation id is given. */
    method ApplyUpdate(request: Operation, force: bool, w: World) returns (reply: Reply)
      requires Unlocked()
      modifies this
      ensures Unlocked() && origin == old(origin) && old(trace) <= trace
      ensures old(state.visible.status.RollbackFailed?) ==>
          live == old(live) && state == old(state) && lastGood == old(lastGood)
      ensures reply.Stale? <==>
        request != 0 && !(old(state.visible.status.Scheduled?) && old(state.visible.operation) == request)
      ensures reply.Busy? <==>
        request == 0 && old(state.visible.status) in {Scheduled, Downloading, Applying, Verifying}
      ensures
        || reply.Stale? || reply.Busy? || !w.checked || !w.newer || !w.freshBackup || !w.asset || !w.checksum
        || (!w.allowed && !(if request == 0 then force else old(state.visible.manual))) ==>
        live == old(live) && lastGood == old(lastGood)
      ensures (reply.Returned? && reply.record.status.Done? && live != old(live)) ==>
        live == Rebooted(w.candidate) && lastGood == Rebooted(Some(old(live.visible)))
      ensures
        && GatesPass(w, if request == 0 then force else old(state.visible.manual)) && Smooth(w)
        && w.announce.Durable? && !(reply.Stale? || reply.Busy?) && !old(state.visible.status.RollbackFailed?) ==>
        reply.Returned? && reply.record.status.Done? && state == Rebooted(reply.record) && live == Rebooted(w.candidate)
    {
      SupplyPositive(origin, trace);
      var mem := state.visible;
      if request != 0 && (!mem.status.Scheduled? || mem.operation != request) {
        return Stale;
      }
      if request == 0 && Pending(mem) {
        return Busy;
      }
      if mem.status.RollbackFailed? {
        return Returned(mem);
      }
      var forced := if request == 0 then force else mem.manual;
      mem := mem.(manual := forced, liveReplaced := false, rollbackOperation := 0, digest := None);
      if request == 0 {
        mem := mem.(operation := nextOperation, status := Scheduled, pendingConfirm := false, deliveryUnknown := false);
        nextOperation := nextOperation + 1;
        state := Written(state, mem, w.announce);
        Log(StartAutomatic(force, w.announce));
        if !w.announce.Durable? {
          return Raised;
        }
      } else {
        Log(Deliver(request));
      }
      reply := PassGates(mem, forced, w);
    }

    method PassGates(mem: Record, forced: bool, w: World) returns (reply: Reply)
      requires Valid() && Model().phase == Started(mem) && mem.operation != 0
      modifies this
      ensures reply.Returned? || reply.Raised?
      ensures Unlocked() && origin == old(origin) && old(trace) <= trace
      ensures
        || !w.checked || (!w.allowed && !forced) || !w.newer || !w.freshBackup || !w.asset || !w.checksum ==>
        && live == old(live) && lastGood == old(lastGood) && (reply.Returned? <==> w.close.Durable?)
        && (reply.Returned? ==>
              && state == Rebooted(reply.record)
              && reply.record.status ==
                 (if !w.checked then Failed else if !w.allowed && !forced then Skipped
                  else if !w.newer then Done else if !w.freshBackup then Skipped else Failed))
      ensures (reply.Returned? && reply.record.status.Done? && live != old(live)) ==>
        live == Rebooted(w.candidate) && lastGood == Rebooted(Some(old(live.visible)))
      ensures GatesPass(w, forced) && Smooth(w) ==>
        reply.Returned? && reply.record.status.Done? && state == Rebooted(reply.record) && live == Rebooted(w.candidate)
    {
      hide Apply;
      GatesClose(Model(), mem, w.close);
      if !w.checked {
        reply := Finish(Terminal(mem, Failed), w.close, CheckFailed);
      } else if !forced && !w.allowed {
        reply := Finish(Terminal(mem, Skipped), w.close, NotAllowed);
      } else if !w.newer {
        reply := Finish(Terminal(mem, Done), w.close, NothingNewer);
      } else if !w.freshBackup {
        reply := Finish(Terminal(mem, Skipped), w.close, NotAllowed);
      } else if !w.asset || !w.checksum {
        reply := Finish(Terminal(mem, Failed), w.close, NoAsset);
      } else {
        reply := Replace(mem, w);
      }
    }

    method Finish(r: Record, o: Outcome, ghost why: Decision) returns (reply: Reply)
      requires Valid() && Model().phase.Started? && !why.Proceed?
      requires Apply(Model(), Decide(why, o)) == Save(Model(), r, o).(phase := Free)
      modifies this
      ensures Unlocked() && origin == old(origin) && old(trace) <= trace
      ensures live == old(live) && lastGood == old(lastGood) && state == Written(old(state), r, o)
      ensures reply == if o.Durable? then Returned(r) else Raised
    {
      state := Written(state, r, o);
      Log(Decide(why, o));
      reply := if o.Durable? then Returned(r) else Raised;
    }

    /** Back up, arm, install, verify; any failure unwinds. */
    method Replace(started: Record, w: World) returns (reply: Reply)
      requires Valid() && Model().phase == Started(started) && started.operation != 0
      modifies this
      ensures reply.Returned? || reply.Raised?
      ensures Unlocked() && origin == old(origin) && old(trace) <= trace
      ensures w.close.Durable? && !(w.begin.Durable? && w.fetched && w.backup.Durable?) ==>
        reply.Returned? && reply.record.status.Failed? && state == Rebooted(reply.record) && live == old(live)
      ensures
        && w.close.Durable? && w.begin.Durable? && w.fetched && w.backup.Durable? && w.arm.Durable?
        && w.install.Durable? && w.restore.Durable? && !(w.confirm.Durable? && w.healthy && w.accept.Durable?) ==>
        && reply.Returned? && state == Rebooted(reply.record) && live == Rebooted(old(live.visible))
        && reply.record.status ==
           (if w.restoredHealthy then RolledBack else if w.silent then Failed else RollbackFailed)
      ensures (reply.Returned? && reply.record.status.Done?) ==>
        live == Rebooted(w.candidate) && lastGood == Rebooted(Some(old(live.visible)))
      ensures Smooth(w) ==> reply.Returned? && reply.record.status.Done? && state == Rebooted(reply.record)
    {
      hide Apply;
      var mem, ok := Download(started, w);
      if ok {
        mem, ok := BackUp(mem, w);
      }
      if ok {
        mem, ok := Install(mem, w);
      }
      if ok {
        mem, ok := Verify(mem, w);
      }
      if ok {
        return Returned(mem);
      }
      reply := Rollback(mem, w);
    }

    method Download(started: Record, w: World) returns (mem: Record, ok: bool)
      requires Valid() && Model().phase == Started(started)
      modifies this
      ensures Valid() && origin == old(origin) && old(trace) <= trace
      ensures live == old(live) && lastGood == old(lastGood)
      ensures Model().phase == if ok then Sane(mem, w.candidate) else Unwinding(mem)
      ensures mem == started.(status := Downloading, pendingConfirm := true, liveReplaced := false,
                              rollbackOperation := 0)
      ensures ok <==> w.begin.Durable? && w.fetched
    {
      mem := started.(status := Downloading, pendingConfirm := true, liveReplaced := false, rollbackOperation := 0);
      state := Written(state, mem, w.begin);
      Log(Decide(Proceed, w.begin));
      ok := w.begin.Durable?;
      if ok {
        Log(Fetch(w.fetched, w.candidate));
        ok := w.fetched;
      }
    }

    method BackUp(sane: Record, w: World) returns (mem: Record, ok: bool)
      requires Valid() && Model().phase == Sane(sane, w.candidate)
      modifies this
      ensures Valid() && origin == old(origin) && old(trace) <= trace && live == old(live)
      ensures Model().phase == if ok then BackedUp(mem, w.candidate) else Unwinding(mem)
      ensures mem == if ok then sane.(rollbackOperation := sane.operation) else sane
      ensures ok <==> w.backup.Durable?
      ensures ok ==> lastGood == Rebooted(Some(live.visible))
    {
      mem := sane;
      lastGood := Written(lastGood, Some(live.visible), w.backup);
      Log(Backup(w.backup));
      ok := w.backup.Durable?;
      if ok {
        mem := mem.(rollbackOperation := mem.operation);
      }
    }

    /** The record is saved as `applying` before the live binary is replaced. */
    method Install(backed: Record, w: World) returns (mem: Record, ok: bool)
      requires Valid() && Model().phase == BackedUp(backed, w.candidate)
      modifies this
      ensures Valid() && origin == old(origin) && old(trace) <= trace && lastGood == old(lastGood)
      ensures Model().phase == if ok then Installed(mem) else Unwinding(mem)
      ensures mem == backed.(status := Applying, digest := Some(w.candidate), pendingConfirm := true,
                             liveReplaced := false)
      ensures ok <==> w.arm.Durable? && w.install.Durable?
      ensures ok ==> live == Rebooted(w.candidate)
    {
      mem := backed.(status := Applying, digest := Some(w.candidate), pendingConfirm := true, liveReplaced := false);
      state := Written(state, mem, w.arm);
      Log(Arm(w.arm));
      if !w.arm.Durable? {
        return mem, false;
      }
      live := Written(live, w.candidate, w.install);
      Log(UpdaterProtocol.Install(w.install));
      ok := w.install.Durable?;
    }

    /** Restart and readiness, then the verdict. */
    method Verify(installed: Record, w: World) returns (mem: Record, ok: bool)
      requires Valid() && Model().phase == Installed(installed)
      modifies this
      ensures Valid() && origin == old(origin) && old(trace) <= trace && lastGood == old(lastGood) && live == old(live)
      ensures if ok then Model().phase.Free? && state == Rebooted(mem)
          && mem.status.Done? else Model().phase == Unwinding(mem)
      ensures ok <==> w.confirm.Durable? && w.healthy && w.accept.Durable?
      ensures mem.operation == installed.operation && mem.rollbackOperation == installed.rollbackOperation
      ensures mem.digest == installed.digest
    {
      mem := installed.(status := Verifying, liveReplaced := true, pendingConfirm := true);
      state := Written(state, mem, w.confirm);
      Log(Confirm(w.confirm));
      if !w.confirm.Durable? {
        return mem, false;
      }
      mem, ok := Admit(mem, w);
    }

    method Admit(confirming: Record, w: World) returns (mem: Record, ok: bool)
      requires Valid() && Model().phase == Confirming(confirming)
      modifies this
      ensures Valid() && origin == old(origin) && old(trace) <= trace
      ensures lastGood == old(lastGood) && live == old(live)
      ensures if ok then Model().phase.Free? && state == Rebooted(mem) && mem.status.Done?
              else Model().phase == Unwinding(mem)
      ensures ok <==> w.healthy && w.accept.Durable?
      ensures mem.operation == confirming.operation && mem.rollbackOperation == confirming.rollbackOperation
      ensures mem.digest == confirming.digest
    {
      mem := confirming;
      Log(Probe(w.healthy));
      if !w.healthy {
        return mem, false;
      }
      mem := Terminal(mem, Done);
      state := Written(state, mem, w.accept);
      Log(Accept(w.accept));
      ok := w.accept.Durable?;
    }

    /** Whether the operation owns the rollback context, and has a binary to go back to. */
    method EnterRollback(mem: Record) returns (owned: bool, eligible: bool)
      requires Valid() && Model().phase == Unwinding(mem)
      modifies this`trace
      ensures Valid() && old(trace) <= trace
      ensures owned == Owned(mem, live.visible) && eligible == Eligible(mem, live.visible, lastGood.visible)
      ensures Model().phase == if eligible then Restoring(mem, true)
                               else Closing(mem, if owned then RollbackFailed else Failed)
    {
      owned := Owned(mem, live.visible);
      eligible := owned && lastGood.visible.Some?;
      Log(Unwind);
    }

    /** The except clause of `apply_update`: a failed reinstall counts by its message. */
    method Rollback(mem: Record, w: World) returns (reply: Reply)
      requires Valid() && Model().phase == Unwinding(mem)
      modifies this
      ensures reply.Returned? || reply.Raised?
      ensures Unlocked() && origin == old(origin) && old(trace) <= trace
      ensures reply.Returned? <==> w.close.Durable?
      ensures reply.Returned? ==>
        && state == Rebooted(reply.record)
        && reply.record.status ==
           (if !old(Owned(mem, live.visible)) then Failed
            else if lastGood.visible.Some? && w.restore.Durable? && w.restoredHealthy then RolledBack
            else if lastGood.visible.Some? && w.silent then Failed else RollbackFailed)
      ensures !old(Owned(mem, live.visible)) ==> live == old(live)
      ensures old(Owned(mem, live.visible)) && lastGood.visible.Some? && w.restore.Durable? ==>
        live == Rebooted(lastGood.visible.value)
      ensures lastGood == old(lastGood)
    {
      var owned, eligible := EnterRollback(mem);
      var status := if owned then RollbackFailed else Failed;
      if eligible {
        var restored := RestoreLastGood(mem, true, w);
        status := if restored then RolledBack else if w.silent then Failed else RollbackFailed;
      }
      reply := Conclude(mem, status, w.close);
    }

    /** `_restore_last_good`: reinstall, restart and probe. */
    method RestoreLastGood(mem: Record, ghost unwinding: bool, w: World) returns (restored: bool)
      requires Valid() && Model().phase == Restoring(mem, unwinding) && lastGood.visible.Some?
      modifies this
      ensures Valid() && origin == old(origin) && old(trace) <= trace && lastGood == old(lastGood)
      ensures Model().phase == Closing(mem, if restored then RolledBack else NotRestored(unwinding, w.silent))
      ensures restored <==> w.restore.Durable? && w.restoredHealthy
      ensures w.restore.Durable? ==> live == Rebooted(lastGood.visible.value)
    {
      live := Written(live, lastGood.visible.value, w.restore);
      Log(Restore(w.restore, w.silent));
      if !w.restore.Durable? {
        return false;
      }
      Log(ProbeRestored(w.restoredHealthy, w.silent));
      restored := w.restoredHealthy;
    }

    method Conclude(mem: Record, status: Status, o: Outcome) returns (reply: Reply)
      requires Valid() && Model().phase == Closing(mem, status)
      modifies this
      ensures Unlocked() && origin == old(origin) && old(trace) <= trace
      ensures live == old(live) && lastGood == old(lastGood)
      ensures state == Written(old(state), Terminal(mem, status), o)
      ensures reply == if o.Durable? then Returned(Terminal(mem, status)) else Raised
    {
      state := Written(state, Terminal(mem, status), o);
      Log(Close(o));
      reply := if o.Durable? then Returned(Terminal(mem, status)) else Raised;
    }

    ghost method EnterReconcile(r: Record, owned: bool, eligible: bool)
      requires Unlocked() && r == state.visible && (r.status.RollbackFailed? || Interrupted(r))
      requires owned == Owned(r, live.visible) && eligible == Eligible(r, live.visible, lastGood.visible)
      requires r.status.RollbackFailed? ==> eligible
      modifies this`trace
      ensures Valid() && old(trace) <= trace
      ensures Model().phase == if eligible then Restoring(r, false)
                               else Closing(r, if owned then RollbackFailed else Failed)
    {
      Log(UpdaterProtocol.Reconcile);
    }

    /** `reconcile`. */
    method Reconcile(w: World) returns (reply: Reply)
      requires Unlocked()
      modifies this
      ensures Unlocked() && origin == old(origin) && old(trace) <= trace && lastGood == old(lastGood)
      ensures old(state.visible.status in {Idle, Checked, Scheduled, Done, Failed, Skipped, RolledBack}) ==>
        reply == Returned(old(state.visible)) && state == old(state) && live == old(live)
      ensures
        && old(state.visible.status in {Downloading, Applying, Verifying} && state.visible.pendingConfirm)
        && w.close.Durable? ==>
        && reply.Returned? && state == Rebooted(reply.record) && !reply.record.pendingConfirm
        && reply.record.operation == old(state.visible.operation)
        && reply.record.status ==
           (if !old(Owned(state.visible, live.visible)) then Failed
            else if lastGood.visible.Some? && w.restore.Durable? && w.restoredHealthy then RolledBack
            else RollbackFailed)
        && (reply.record.status.Failed? ==> live == old(live))
      ensures
        && old(state.visible.status.RollbackFailed? && Owned(state.visible, live.visible)) && lastGood.visible.Some?
        && w.close.Durable? && w.restore.Durable? && w.restoredHealthy ==>
        reply.Returned? && reply.record.status.RolledBack?
      ensures old(state.visible.status.RollbackFailed?) && reply.Returned? && !reply.record.status.RollbackFailed? ==>
        reply.record.status.RolledBack? && Some(live.visible) == lastGood.visible && live == Rebooted(live.visible)
    {
      var r := state.visible;
      var barrier := r.status.RollbackFailed?;
      if !barrier && !Interrupted(r) {
        return Returned(r);
      }
      var owned := Owned(r, live.visible);
      var eligible := owned && lastGood.visible.Some?;
      if !eligible && barrier {
        return Returned(r);
      }
      EnterReconcile(r, owned, eligible);
      reply := Recover(r, owned, eligible, w);
    }

    /** The rest of `reconcile`: reinstall if it can, and close. */
    method Recover(r: Record, owned: bool, eligible: bool, w: World) returns (reply: Reply)
      requires Valid() && (eligible ==> owned && lastGood.visible.Some?)
      requires Model().phase == if eligible then Restoring(r, false)
                                else Closing(r, if owned then RollbackFailed else Failed)
      modifies this
      ensures Unlocked() && origin == old(origin) && old(trace) <= trace && lastGood == old(lastGood)
      ensures reply.Returned? <==> w.close.Durable?
      ensures reply.Returned? ==>
        && state == Rebooted(reply.record)
        && reply.record == Terminal(r, if !owned then Failed
                                       else if eligible && w.restore.Durable? && w.restoredHealthy then RolledBack
                                       else RollbackFailed)
      ensures !eligible ==> live == old(live)
      ensures eligible && w.restore.Durable? ==> live == Rebooted(lastGood.visible.value)
    {
      var status := if owned then RollbackFailed else Failed;
      if eligible {
        var restored := RestoreLastGood(r, false, w);
        status := if restored then RolledBack else RollbackFailed;
      }
      reply := Conclude(r, status, w.close);
    }
  }
}
