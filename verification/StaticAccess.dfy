/** Fail-closed stops and marked recoveries of a static-auth proxy service
    (hysteria/static_access.py).

    A running process is the number of the configuration it loaded.  Between any two
    commands of a recovery the service may die or be started by systemd or an operator,
    and a fail-closed stop may run: a stop takes no lock that a recovery holds. */
module StaticAccess {
  import opened DurableFile
  import opened Wrappers

  const STABILITY_PROBES := 3

  /** `probes`: readiness probes answered "active" since the last start command.
      History: `intent` is a durably written marker that no recovery begun after it has
      answered; `since`, such a marker written since the last recovery looked for one. */
  datatype Sys = Sys(process: Option<nat>, config: File<nat>, marker: File<bool>, probes: nat,
                     intent: bool, since: bool)

  /** A concurrent fail-closed stop is its marker, followed by the death it causes. */
  datatype Event = Dies | StartedByOthers | Marks(mark: Outcome)

  /** systemctl: exit status 0, or an error or timeout that may still have had its effect. */
  datatype Command = Done | Failed(effect: bool)

  /** What a recovery meets: disturbances before each command, then the command's end. */
  datatype Probing = Probing(before: seq<Event>, answered: bool)

  datatype Script = Script(
    beforeStop: seq<Event>, stop: Command, afterStop: seq<Event>, start: Command,
    first: Probing, second: Probing, third: Probing, beforeUnlink: seq<Event>, unlink: Outcome)

  /** The marker is written as true. */
  function Marked(s: Sys, o: Outcome): Sys {
    s.(marker := Written(s.marker, true, o), intent := s.intent || o.Durable?, since := s.since || o.Durable?)
  }

  function Disturbed(s: Sys, events: seq<Event>): Sys
    decreases events
  {
    if events == [] then s
    else
      match events[0]
      case Dies => Disturbed(s.(process := None), events[1..])
      case StartedByOthers =>
        Disturbed(if s.process.None? then s.(process := Some(s.config.visible)) else s, events[1..])
      case Marks(o) => Disturbed(Marked(s, o), events[1..])
  }

  function Stopped(s: Sys, c: Command): Sys {
    if c == Failed(false) then s else s.(process := None)
  }

  /** Starting a running service does nothing. */
  function Started(s: Sys, c: Command): Sys {
    var n := s.(probes := 0);
    if c == Failed(false) || s.process.Some? then n else n.(process := Some(s.config.visible))
  }

  function Probed(s: Sys, p: Probing): (Sys, bool) {
    var n := Disturbed(s, p.before);
    if p.answered && n.process.Some? then (n.(probes := n.probes + 1), true) else (n, false)
  }

  /** The removed marker answers every one written before the recovery looked for it. */
  function Unmarked(s: Sys, w: Script): (Sys, bool) {
    var n := Disturbed(s, w.beforeUnlink);
    (n.(marker := Written(n.marker, false, w.unlink), intent := if w.unlink.NotReplaced? then n.intent else n.since),
     w.unlink.Durable?)
  }

  function Confirmed(s: Sys, w: Script): (Sys, bool) {
    var (one, ok1) := Probed(s, w.first);
    if !ok1 then (one, false)
    else
      var (two, ok2) := Probed(one, w.second);
      if !ok2 then (two, false)
      else
        var (three, ok3) := Probed(two, w.third);
        if !ok3 then (three, false) else Unmarked(three, w)
  }

  /** `recover_if_pending` */
  function Recovered(s: Sys, live: bool, w: Script): (Sys, bool) {
    if !live || !s.marker.visible then (s, false)
    else
      var stopped := Stopped(Disturbed(s.(since := false), w.beforeStop), w.stop);
      if !w.stop.Done? then (stopped, false)
      else
        var started := Started(Disturbed(stopped, w.afterStop), w.start);
        if !w.start.Done? then (started, false) else Confirmed(started, w)
  }

  /** Stop and start succeeded and all three probes found the service active. */
  predicate Proven(s: Sys, w: Script) {
    w.stop.Done? && w.start.Done? &&
    var stopped := Stopped(Disturbed(s.(since := false), w.beforeStop), w.stop);
    var started := Started(Disturbed(stopped, w.afterStop), w.start);
    var (one, ok1) := Probed(started, w.first);
    var (two, ok2) := Probed(one, w.second);
    ok1 && ok2 && Probed(two, w.third).1
  }

  /** How a fail-closed stop ends. */
  datatype StopResult = NotLive | StopFailed(markerPersisted: bool) | StopDone(markerPersisted: bool)

  predicate Ok(r: StopResult) {
    r.StopDone? && r.markerPersisted
  }

  /** `stop_fail_closed`: the marker first, whether or not it could be saved, then the stop. */
  function FailClosed(s: Sys, live: bool, mark: Outcome, chmod: bool, stop: Command): (Sys, StopResult) {
    if !live then (s, NotLive)
    else
      var marked := Stopped(Marked(s, mark), stop);
      var persisted := mark.Durable? && chmod;
      (marked, if stop.Done? then StopDone(persisted) else StopFailed(persisted))
  }

  class Service {
    var process: Option<nat>
    var config: File<nat>
    var marker: File<bool>
    ghost var probes: nat
    ghost var intent: bool
    ghost var since: bool

    ghost function View(): Sys
      reads this
    {
      Sys(process, config, marker, probes, intent, since)
    }

    constructor (version: nat)
      ensures View() == Sys(None, Rebooted(version), Rebooted(false), 0, false, false)
    {
      process, config, marker, probes := None, File(version, {version}), File(false, {false}), 0;
      intent, since := false, false;
    }

    method MarkPending(o: Outcome)
      modifies this`marker, this`intent, this`since
      ensures View() == Marked(old(View()), o)
    {
      marker := Written(marker, true, o);
      intent, since := intent || o.Durable?, since || o.Durable?;
    }

    method Disturb(events: seq<Event>)
      modifies this`process, this`marker, this`intent, this`since
      ensures View() == Disturbed(old(View()), events)
    {
      var i := 0;
      while i < |events|
        invariant 0 <= i <= |events|
        invariant Disturbed(View(), events[i..]) == Disturbed(old(View()), events)
      {
        assert events[i..][1..] == events[i + 1..];
        match events[i] {
          case Dies => process := None;
          case StartedByOthers =>
            if process.None? {
              process := Some(config.visible);
            }
          case Marks(o) => MarkPending(o);
        }
        i := i + 1;
      }
    }

    method StopFailClosed(live: bool, mark: Outcome, chmod: bool, stop: Command) returns (r: StopResult)
      modifies this
      ensures (View(), r) == FailClosed(old(View()), live, mark, chmod, stop)
      ensures Ok(r) ==> process.None? && marker == Rebooted(true)
    {
      if !live {
        return NotLive;
      }
      MarkPending(mark);
      var persisted := mark.Durable? && chmod;
      if stop != Failed(false) {
        process := None;
      }
      r := if stop.Done? then StopDone(persisted) else StopFailed(persisted);
    }

    method Probe(p: Probing) returns (ok: bool)
      modifies this`process, this`probes, this`marker, this`intent, this`since
      ensures (View(), ok) == Probed(old(View()), p)
    {
      Disturb(p.before);
      ok := p.answered && process.Some?;
      if ok {
        probes := probes + 1;
      }
    }

    /** True only when the running process, if it still runs, loaded the current
        configuration, every probe found it active, and the marker is durably gone. */
    method RecoverIfPending(live: bool, w: Script) returns (ok: bool)
      modifies this
      ensures (View(), ok) == Recovered(old(View()), live, w)
      ensures ok ==>
        && (process.None? || process == Some(config.visible))
        && probes == STABILITY_PROBES && marker == Rebooted(false)
      ensures config == old(config)
    {
      RecoveryMeans(View(), live, w);
      if !live || !marker.visible {
        return false;
      }
      since := false;
      Disturb(w.beforeStop);
      if w.stop != Failed(false) {
        process := None;
      }
      if !w.stop.Done? {
        return false;
      }
      Disturb(w.afterStop);
      probes := 0;
      if w.start != Failed(false) && process.None? {
        process := Some(config.visible);
      }
      if !w.start.Done? {
        return false;
      }
      ok := AwaitReady(w);
    }

    method AwaitReady(w: Script) returns (ok: bool)
      modifies this
      ensures (View(), ok) == Confirmed(old(View()), w)
    {
      var script := [w.first, w.second, w.third];
      var before := 0;
      ghost var start := View();
      while before < STABILITY_PROBES
        invariant 0 <= before <= 3
        invariant before == 0 ==> View() == start
        invariant before == 1 ==> (View(), true) == Probed(start, w.first)
        invariant before == 2 ==> (View(), true) == Probed(Probed(start, w.first).0, w.second)
                                  && Probed(start, w.first).1
        invariant before == 3 ==> (View(), true) == Probed(Probed(Probed(start, w.first).0, w.second).0, w.third)
                                  && Probed(start, w.first).1 && Probed(Probed(start, w.first).0, w.second).1
      {
        ok := Probe(script[before]);
        if !ok {
          return;
        }
        before := before + 1;
      }
      Disturb(w.beforeUnlink);
      marker := Written(marker, false, w.unlink);
      intent := if w.unlink.NotReplaced? then intent else since;
      ok := w.unlink.Durable?;
    }
  }

  // -------------------------------------------------------------------- one operation

  /** Disturbances never load anything but the current configuration. */
  ghost predicate Current(s: Sys) {
    s.process.None? || s.process == Some(s.config.visible)
  }

  predicate MarkedIn(events: seq<Event>) {
    exists i :: 0 <= i < |events| && events[i] == Marks(Durable)
  }

  /** No marker has been removed, and a new intent has its marker. */
  ghost predicate Held(s: Sys, n: Sys) {
    && n.config == s.config
    && (s.marker.visible ==> n.marker.visible)
    && (false in n.marker.possible ==> false in s.marker.possible)
    && (s.marker == Rebooted(true) ==> n.marker == Rebooted(true))
    && (s.intent ==> n.intent) && (n.intent && !s.intent ==> n.marker == Rebooted(true))
  }

  lemma {:induction false} DisturbedHeld(s: Sys, events: seq<Event>)
    ensures var n := Disturbed(s, events);
            && Held(s, n) && (Current(s) ==> Current(n)) && n.probes == s.probes
            && (n.since <==> s.since || MarkedIn(events))
    decreases events
  {
    if events != [] {
      var rest := events[1..];
      assert MarkedIn(events) <==> events[0] == Marks(Durable) || MarkedIn(rest) by {
        assert forall i :: 0 < i < |events| ==> events[i] == rest[i - 1];
        assert forall i :: 0 <= i < |rest| ==> rest[i] == events[i + 1];
      }
      var n := match events[0]
        case Dies => s.(process := None)
        case StartedByOthers => if s.process.None? then s.(process := Some(s.config.visible)) else s
        case Marks(o) => Marked(s, o);
      DisturbedHeld(n, rest);
    }
  }

  lemma MarkedInEither(a: seq<Event>, b: seq<Event>)
    ensures MarkedIn(a + b) <==> MarkedIn(a) || MarkedIn(b)
  {
    if MarkedIn(a) {
      var i :| 0 <= i < |a| && a[i] == Marks(Durable);
      assert (a + b)[i] == Marks(Durable);
    }
    if MarkedIn(b) {
      var i :| 0 <= i < |b| && b[i] == Marks(Durable);
      assert (a + b)[|a| + i] == Marks(Durable);
    }
    if MarkedIn(a + b) {
      var i :| 0 <= i < |a + b| && (a + b)[i] == Marks(Durable);
      assert if i < |a| then a[i] == Marks(Durable) else b[i - |a|] == Marks(Durable);
    }
  }

  lemma ProbedHeld(s: Sys, p: Probing)
    ensures var (n, ok) := Probed(s, p);
            && Held(s, n) && (Current(s) ==> Current(n)) && (n.since <==> s.since || MarkedIn(p.before))
            && (ok ==> n.probes == s.probes + 1)
  {
    DisturbedHeld(s, p.before);
    hide MarkedIn;
  }

  lemma StillHeld(s: Sys, m: Sys, n: Sys)
    requires Held(s, m) && Held(m, n)
    ensures Held(s, n)
  {
  }

  function AfterStop(s: Sys, w: Script): Sys {
    Stopped(Disturbed(s.(since := false), w.beforeStop), w.stop)
  }

  function AfterStart(s: Sys, w: Script): Sys {
    Started(Disturbed(AfterStop(s, w), w.afterStop), w.start)
  }

  /** The state in which a recovery removes the marker. */
  function BeforeUnlink(s: Sys, w: Script): Sys {
    var one := Probed(AfterStart(s, w), w.first).0;
    Disturbed(Probed(Probed(one, w.second).0, w.third).0, w.beforeUnlink)
  }

  /** What may happen between the look for the marker and its removal. */
  function Gaps(w: Script): seq<Event> {
    w.beforeStop + w.afterStop + w.first.before + w.second.before + w.third.before + w.beforeUnlink
  }

  lemma StopHeld(s: Sys, w: Script)
    ensures Held(s, AfterStop(s, w)) && (AfterStop(s, w).since <==> MarkedIn(w.beforeStop))
    ensures w.stop.Done? ==> AfterStop(s, w).process.None?
  {
    DisturbedHeld(s.(since := false), w.beforeStop);
    hide MarkedIn, Disturbed;
  }

  lemma StartHeld(s: Sys, w: Script)
    ensures var n := AfterStart(s, w);
            && Held(s, n) && (n.since <==> MarkedIn(w.beforeStop + w.afterStop)) && n.probes == 0
            && (w.stop.Done? ==> Current(n))
  {
    StopHeld(s, w);
    var m := AfterStop(s, w);
    DisturbedHeld(m, w.afterStop);
    MarkedInEither(w.beforeStop, w.afterStop);
    hide MarkedIn, Disturbed, AfterStop;
    StillHeld(s, m, Disturbed(m, w.afterStop));
  }

  lemma ReachesUnlink(s: Sys, w: Script)
    requires w.stop.Done?
    ensures var n := BeforeUnlink(s, w);
            && Held(s, n) && Current(n) && (n.since <==> MarkedIn(Gaps(w)))
            && (Proven(s, w) ==> n.probes == STABILITY_PROBES)
  {
    StartHeld(s, w);
    hide Disturbed, Held, MarkedIn, Current;
    var zero := AfterStart(s, w);
    var one := Probed(zero, w.first).0;
    var two := Probed(one, w.second).0;
    var three := Probed(two, w.third).0;
    ProbedHeld(zero, w.first);
    ProbedHeld(one, w.second);
    ProbedHeld(two, w.third);
    DisturbedHeld(three, w.beforeUnlink);
    StillHeld(s, zero, one);
    StillHeld(s, one, two);
    StillHeld(s, two, three);
    StillHeld(s, three, BeforeUnlink(s, w));
    var a := w.beforeStop + w.afterStop;
    MarkedInEither(a, w.first.before);
    MarkedInEither(a + w.first.before, w.second.before);
    MarkedInEither(a + w.first.before + w.second.before, w.third.before);
    MarkedInEither(a + w.first.before + w.second.before + w.third.before, w.beforeUnlink);
  }

  /** A recovery cut short removes no marker. */
  lemma UnprovenHeld(s: Sys, w: Script)
    requires s.marker.visible && !Proven(s, w)
    ensures Held(s, Recovered(s, true, w).0) && !Recovered(s, true, w).1
  {
    StopHeld(s, w);
    StartHeld(s, w);
    hide Disturbed, MarkedIn, Held, Current;
    var zero := AfterStart(s, w);
    var (one, ok1) := Probed(zero, w.first);
    var (two, ok2) := Probed(one, w.second);
    ProbedHeld(zero, w.first);
    ProbedHeld(one, w.second);
    ProbedHeld(two, w.third);
    StillHeld(s, zero, one);
    StillHeld(s, one, two);
    StillHeld(s, two, Probed(two, w.third).0);
  }

  lemma ProvenUnlinks(s: Sys, w: Script)
    requires s.marker.visible && Proven(s, w)
    ensures var m := BeforeUnlink(s, w);
            Recovered(s, true, w)
            == (m.(marker := Written(m.marker, false, w.unlink), intent := if w.unlink.NotReplaced? then m.intent
                else m.since),
                w.unlink.Durable?)
  {
    hide Disturbed;
  }

  /** From any state, marked by whatever run: a recovery that returns true leaves the
      current configuration running and the marker durably gone; one that changes
      anything found the marker; and no marker goes, visibly or after a crash, before a
      confirmed stop, a start and all three probes. */
  lemma RecoveryMeans(s: Sys, live: bool, w: Script)
    ensures var (n, ok) := Recovered(s, live, w);
            && (ok ==> Current(n) && n.probes == STABILITY_PROBES && n.marker == Rebooted(false))
            && (n != s ==> s.marker.visible && live)
            && ((s.marker.visible && !n.marker.visible) || (false in n.marker.possible && false !in s.marker.possible)
                ==> Proven(s, w) && n.probes == STABILITY_PROBES && Current(n))
            && n.config == s.config
  {
    if live && s.marker.visible {
      if Proven(s, w) {
        ProvenUnlinks(s, w);
        ReachesUnlink(s, w);
      } else {
        UnprovenHeld(s, w);
      }
      hide Recovered, BeforeUnlink, Proven;
    }
  }
}
