/** Markers and processes over whole runs. */
module StaticAccessRuns {
  import opened DurableFile
  import opened StaticAccess
  import opened Wrappers

  datatype Act =
    | WriteConfig(o: Outcome)
    | Stop(live: bool, mark: Outcome, chmod: bool, stop: Command)
    | Recover(live: bool, w: Script)
    | Disturbance(e: Event)
    | MachineCrash(config: nat, marker: bool)

  function Apply(s: Sys, a: Act): Sys {
    match a
    case WriteConfig(o) => s.(config := Written(s.config, s.config.visible + 1, o))
    case Stop(live, mark, chmod, stop) => FailClosed(s, live, mark, chmod, stop).0
    case Recover(live, w) => Recovered(s, live, w).0
    case Disturbance(e) => Disturbed(s, [e])
    case MachineCrash(c, m) => s.(process := None, config := Rebooted(c), marker := Rebooted(m), probes := 0)
  }

  predicate Enabled(s: Sys, a: Act) {
    a.MachineCrash? ==> a.config in s.config.possible && a.marker in s.marker.possible
  }

  function Run(s: Sys, acts: seq<Act>): Sys
    decreases acts
  {
    if acts == [] then s else Run(Apply(s, acts[0]), acts[1..])
  }

  predicate Allowed(s: Sys, acts: seq<Act>)
    decreases acts
  {
    acts != [] ==> Enabled(s, acts[0]) && Allowed(Apply(s, acts[0]), acts[1..])
  }

  // --------------------------------------------------------------- single operations

  /** A fail-closed stop stops the service whether or not its marker could be saved, and is
      ok exactly with both done; outside the live state it does nothing. */
  lemma StopsAnyway(s: Sys, live: bool, mark: Outcome, chmod: bool, stop: Command)
    ensures var (n, r) := FailClosed(s, live, mark, chmod, stop);
            && (!live ==> n == s && r == NotLive)
            && (live && (stop.Done? || stop.effect) ==> n.process.None?)
            && (live && stop == Failed(false) ==> n.process == s.process)
            && (live ==> n.marker == Written(s.marker, true, mark))
            && n.config == s.config
            && (Ok(r) <==> live && stop.Done? && mark.Durable? && chmod)
            && (r.StopDone? <==> live && stop.Done?) && (r.StopFailed? <==> live && !stop.Done?)
            && (live ==> (r.markerPersisted <==> mark.Durable? && chmod))
  {
  }

  /** A start loads the current configuration into a stopped service, and changes nothing
      in a running one. */
  lemma StartLoadsCurrent(s: Sys, c: Command)
    ensures var n := Started(s, c);
            && n == s.(process := n.process, probes := 0)
            && (s.process.Some? || c == Failed(false) ==> n.process == s.process)
            && (s.process.None? && (c.Done? || c.effect) ==> n.process == Some(s.config.visible))
  {
  }

  /** A recovery is tried exactly for a live, marked service, and returns true only if every
      command succeeded and every probe was answered. */
  lemma RecoveryNeedsAll(s: Sys, live: bool, w: Script)
    ensures !live || !s.marker.visible ==> Recovered(s, live, w) == (s, false)
    ensures Recovered(s, live, w).1 ==>
              && live && s.marker.visible && w.stop.Done? && w.start.Done? && w.unlink.Durable?
              && w.first.answered && w.second.answered && w.third.answered
  {
  }

  /** Nothing comes between the commands, and all succeed. */
  predicate Calm(w: Script) {
    && w.stop.Done? && w.start.Done? && w.unlink.Durable? && Gaps(w) == []
    && w.first.answered && w.second.answered && w.third.answered
  }

  /** An undisturbed recovery of a marked service restarts it on the current configuration
      and removes the marker, whatever process it found. */
  lemma CalmRecoverySucceeds(s: Sys, w: Script)
    requires s.marker.visible && Calm(w)
    ensures Recovered(s, true, w)
            == (Sys(Some(s.config.visible), s.config, Rebooted(false), STABILITY_PROBES, false, false), true)
  {
    NoGaps(w);
    var one := Sys(Some(s.config.visible), s.config, s.marker, 1, s.intent, false);
    assert AfterStart(s, w) == one.(probes := 0);
    assert Probed(one.(probes := 0), w.first) == (one, true);
    assert Probed(one, w.second) == (one.(probes := 2), true);
    assert Probed(one.(probes := 2), w.third) == (one.(probes := 3), true);
    assert BeforeUnlink(s, w) == one.(probes := 3);
    assert Proven(s, w);
    ProvenUnlinks(s, w);
  }

  lemma NoGaps(w: Script)
    requires Gaps(w) == []
    ensures w.beforeStop == [] && w.afterStop == [] && w.first.before == [] && w.second.before == []
    ensures w.third.before == [] && w.beforeUnlink == []
  {
    assert |Gaps(w)| == |w.beforeStop| + |w.afterStop| + |w.first.before| + |w.second.before| + |w.third.before|
                        + |w.beforeUnlink|;
  }

  /** A probe is answered only while the service runs. */
  lemma ProbeSeesProcess(s: Sys, p: Probing)
    ensures Probed(s, p).1 <==> p.answered && Disturbed(s, p.before).process.Some?
    ensures Probed(s, p).1 ==> Probed(s, p).0.process.Some?
  {
  }

  // ------------------------------------------------------------------- the intent

  /** A recovery that restarted the service, saw it active and removed the marker. */
  predicate Completes(s: Sys, a: Act) {
    a.Recover? && a.live && s.marker.visible && Proven(s, a.w) && !a.w.unlink.NotReplaced?
  }

  /** A completed recovery in which a fail-closed stop durably wrote its marker between
      the recovery's look for the marker and its removal. */
  predicate Overlaps(s: Sys, a: Act) {
    Completes(s, a) && MarkedIn(Gaps(a.w))
  }

  /** An unanswered intent has its marker in every content a crash may leave. */
  ghost predicate Kept(s: Sys) {
    s.intent ==> s.marker == Rebooted(true)
  }

  /** The intent of a durably marked stop ends with a completed recovery that began after
      it, and in no other way. */
  lemma IntentEndsExactly(s: Sys, a: Act)
    requires s.intent
    ensures !Apply(s, a).intent <==> Completes(s, a) && !MarkedIn(Gaps(a.w))
  {
    match a
    case Recover(live, w) =>
      hide Recovered, Proven, Gaps, MarkedIn;
      if live && s.marker.visible {
        RecoveryEnds(s, w);
      } else {
        NothingRecovered(s, live, w);
      }
    case Disturbance(e) => DisturbedHeld(s, [e]);
    case _ =>
  }

  lemma NothingRecovered(s: Sys, live: bool, w: Script)
    requires !live || !s.marker.visible
    ensures Recovered(s, live, w) == (s, false)
  {
  }

  /** What a recovery makes of intent and marker. */
  lemma RecoveryEnds(s: Sys, w: Script)
    requires s.marker.visible
    ensures var n := Recovered(s, true, w).0;
            if Proven(s, w) && !w.unlink.NotReplaced? then
              !n.marker.visible && (n.intent <==> MarkedIn(Gaps(w)))
            else Held(s, n)
  {
    if Proven(s, w) {
      ProvenUnlinks(s, w);
      ReachesUnlink(s, w);
    } else {
      UnprovenHeld(s, w);
    }
    hide Recovered, BeforeUnlink, Proven, MarkedIn, Gaps;
  }

  /** One act loses a kept intent exactly when it is an overlapped recovery. */
  lemma KeptExactly(s: Sys, a: Act)
    requires Kept(s) && Enabled(s, a)
    ensures Kept(Apply(s, a)) <==> !Overlaps(s, a)
  {
    match a
    case Recover(live, w) =>
      hide Recovered, Proven, Gaps, MarkedIn;
      if live && s.marker.visible {
        RecoveryEnds(s, w);
      } else {
        NothingRecovered(s, live, w);
      }
    case Disturbance(e) => DisturbedHeld(s, [e]);
    case _ =>
  }

  predicate NoneOverlaps(s: Sys, acts: seq<Act>)
    decreases acts
  {
    acts != [] ==> !Overlaps(s, acts[0]) && NoneOverlaps(Apply(s, acts[0]), acts[1..])
  }

  ghost predicate KeptThroughout(s: Sys, acts: seq<Act>)
    decreases acts
  {
    Kept(s) && (acts != [] ==> KeptThroughout(Apply(s, acts[0]), acts[1..]))
  }

  /** Over every run of writes, stops, recoveries, disturbances and crashes, the recovery
      intent of every fail-closed stop survives until a recovery begun after it completes,
      if and only if no recovery that completes has a stop marked in its midst. */
  lemma {:induction false} IntentSurvives(s: Sys, acts: seq<Act>)
    requires Kept(s) && Allowed(s, acts)
    ensures KeptThroughout(s, acts) <==> NoneOverlaps(s, acts)
    decreases acts
  {
    if acts != [] {
      hide Kept, Overlaps, Apply, Enabled;
      KeptExactly(s, acts[0]);
      if Kept(Apply(s, acts[0])) {
        IntentSurvives(Apply(s, acts[0]), acts[1..]);
      } else {
        assert !KeptThroughout(Apply(s, acts[0]), acts[1..]);
      }
    }
  }

  // ------------------------------------------------------------------ the operator

  /** Acts of this module other than marking, and crashes; nobody else starts the service. */
  predicate Unaided(acts: seq<Act>)
    decreases acts
  {
    acts != [] ==>
      && (acts[0].Disturbance? ==> acts[0].e.Dies?)
      && (acts[0].Stop? ==> !acts[0].live)
      && Unaided(acts[1..])
  }

  lemma OneDeath(s: Sys)
    ensures Disturbed(s, [Dies]) == s.(process := None)
  {
    assert [Dies][1..] == [];
  }

  /** An operator's stop is never undone: without a marker, no run of recoveries, config
      writes and crashes starts the service. */
  lemma {:induction false} ManualStopStands(s: Sys, acts: seq<Act>)
    requires s.process.None? && s.marker == Rebooted(false) && Allowed(s, acts) && Unaided(acts)
    ensures Run(s, acts).process.None?
    decreases acts
  {
    if acts != [] {
      if acts[0].Disturbance? {
        OneDeath(s);
      } else if acts[0].Recover? {
        NothingRecovered(s, acts[0].live, acts[0].w);
      }
      ManualStopStands(Apply(s, acts[0]), acts[1..]);
    }
  }

  function Start(): Sys {
    Sys(Some(0), Rebooted(0), Rebooted(false), 0, false, false)
  }

  const CALM := Probing([], true)

  /** A recovery meets a second fail-closed stop after its third probe. */
  function Crossing(): Script {
    Script([], Done, [], Done, CALM, CALM, CALM, [Marks(Durable), Dies], Durable)
  }

  /** Two fail-closed stops and one recovery: the second stop has its marker on disk and
      its service down, the recovery reports success, the marker is gone, and no later
      recovery starts the service. */
  lemma CrossedStopIsLost()
    ensures var acts := [Stop(true, Durable, true, Done), Recover(true, Crossing())];
            var n := Run(Start(), acts);
            && Kept(Start()) && Allowed(Start(), acts)
            && n.intent && n.process.None? && n.marker == Rebooted(false)
            && Recovered(Apply(Start(), acts[0]), true, Crossing()).1
            && forall later :: Allowed(n, later) && Unaided(later) ==> Run(n, later).process.None?
  {
    var acts := [Stop(true, Durable, true, Done), Recover(true, Crossing())];
    var s := Apply(Start(), acts[0]);
    var w := Crossing();
    var zero := AfterStart(s, w);
    var three := zero.(probes := 3);
    assert zero == Sys(Some(0), Rebooted(0), Rebooted(true), 0, true, false);
    assert Probed(zero, CALM) == (zero.(probes := 1), true);
    assert Probed(zero.(probes := 1), CALM) == (zero.(probes := 2), true);
    assert Probed(zero.(probes := 2), CALM) == (three, true);
    assert Proven(s, w);
    CrossingEvents(three);
    ProvenUnlinks(s, w);
    assert acts[1..] == [acts[1]] && acts[1..][1..] == [];
    var n := Run(Start(), acts);
    forall later | Allowed(n, later) && Unaided(later) ensures Run(n, later).process.None? {
      ManualStopStands(n, later);
    }
  }

  lemma CrossingEvents(s: Sys)
    ensures Disturbed(s, [Marks(Durable), Dies]) == Marked(s, Durable).(process := None)
  {
    var events := [Marks(Durable), Dies];
    assert events[1..] == [Dies] && events[1..][1..] == [];
    assert Disturbed(Marked(s, Durable), [Dies]) == Marked(s, Durable).(process := None);
  }

  /** After any run, when a recovery returns true the process was started after the last
      configuration write, however stale the process it found, and has been probed. */
  lemma RecoveryLoadsLastWrite(s: Sys, acts: seq<Act>, o: Outcome, between: seq<Event>, live: bool, w: Script)
    requires var written := Apply(Run(s, acts), WriteConfig(o));
             Recovered(Disturbed(written, between), live, w).1
    ensures var written := Apply(Run(s, acts), WriteConfig(o));
            var n := Recovered(Disturbed(written, between), live, w).0;
            && n.config == written.config && (n.process.None? || n.process == Some(written.config.visible))
            && n.probes == STABILITY_PROBES && n.marker == Rebooted(false)
            && Disturbed(written, between).marker.visible
  {
    var written := Apply(Run(s, acts), WriteConfig(o));
    DisturbedHeld(written, between);
    hide MarkedIn;
    RecoveryMeans(Disturbed(written, between), live, w);
  }
}
