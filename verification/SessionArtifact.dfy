/** The timeline a session writes about itself reads back as written. */
module SessionArtifact {
  import opened Text
  import opened SessionTypes
  import opened Session
  import opened Names
  import opened JsonLayout
  import opened Timeline
  import L = Lifecycle
  import R = Recording
  import T = TrackText

  function HappeningOf(e: Event): Happening
    requires e.timestampMs >= 0
  {
    Happening(e.timestampMs, e.tick, EventTypeText(e.eventType), e.source, e.entityIds, e.summary, e.details)
  }

  function Happenings(events: seq<Event>): (r: seq<Happening>)
    requires forall e <- events :: e.timestampMs >= 0
    ensures |r| == |events| && forall i :: 0 <= i < |r| ==> r[i] == HappeningOf(events[i])
  {
    if events == [] then [] else [HappeningOf(events[0])] + Happenings(events[1..])
  }

  /** The track state the artifacts report. */
  function ReportedTrack(s: State): bool
    requires s.log.snapshots != []
  {
    match T.LastTold(s.log.events)
    case Some(told) => told
    case None => R.Last(s.log.snapshots).track.active
  }

  function ArtifactOf(s: State): Artifact
    requires s.log.snapshots != [] && forall e <- s.log.events :: e.timestampMs >= 0
  {
    var tracked, angle := ReportedTrack(s), R.Last(s.log.snapshots).launchAngleDeg;
    Artifact("icss-replay-timeline-v1", NatText(s.cfg.sessionId), PhaseText(s.phase), |s.log.snapshots|, |s.log.events|,
             CodeText(s.engagement.assessment.code), if tracked then "tracked" else "untracked",
             if tracked then "tracked_intercept" else "unguided_intercept",
             if angle < 0.0 then 0 else angle.Floor, ResilienceCase(s.exercised), Happenings(s.log.events))
  }

  // ---------------------------------------------------------------------------
  // Every reachable session can be written

  predicate WholeAngle(a: real) { 0.0 <= a <= 90.0 && a == a.Floor as real }

  ghost predicate Dated(s: State) {
    && s.cfg.intervalMs > 0 && s.log.clockMs >= 0
    && (forall i :: 0 <= i < |s.log.events| ==> s.log.events[i].timestampMs >= 0)
    && (forall i :: 0 <= i < |s.log.snapshots| ==> WholeAngle(s.log.snapshots[i].launchAngleDeg))
  }

  lemma StepKeepsDates(s: State, step: Step)
    requires L.Coherent(s) && Dated(s)
    ensures L.Coherent(Apply(s, step)) && Dated(Apply(s, step))
  {
    hide Apply, R.Recorded, L.Coherent, R.Appended;
    var base, t := R.Base(s, step), Apply(s, step);
    L.StepIsCoherent(s, step);
    R.StepRecords(s, step);
    R.ConfigAndTick(s, step);
    R.RecordsAreAppended(base, t);
    ValidAngle(t);
    NewAngle(base, t);
    AppendedAreDated(base, t);
  }

  lemma AppendedAreDated(base: Log, t: State)
    requires R.Appended(base, t) && base.clockMs >= 0 && t.cfg.intervalMs > 0
    requires forall i :: 0 <= i < |base.events| ==> base.events[i].timestampMs >= 0
    requires forall i :: 0 <= i < |base.snapshots| ==> WholeAngle(base.snapshots[i].launchAngleDeg)
    requires |t.log.snapshots| > |base.snapshots| ==> WholeAngle(R.Last(t.log.snapshots).launchAngleDeg)
    ensures Dated(t)
  {
    assert forall i :: 0 <= i < |base.events| ==> t.log.events[i] == base.events[i];
    assert forall i :: 0 <= i < |base.snapshots| ==> t.log.snapshots[i] == base.snapshots[i];
  }

  lemma ValidAngle(t: State)
    requires L.Coherent(t)
    ensures 0 <= t.scenario.launchAngleDeg <= 90
  {
  }

  lemma NewAngle(base: Log, t: State)
    requires R.Recorded(base, t)
    ensures |t.log.snapshots| > |base.snapshots| ==> R.Last(t.log.snapshots).launchAngleDeg == t.scenario.launchAngleDeg as real
  {
    hide R.Stamped;
  }

  lemma {:induction false} RunKeepsDates(s: State, steps: seq<Step>)
    requires L.Coherent(s) && Dated(s)
    ensures Dated(Run(s, steps))
    decreases |steps|
  {
    hide Apply, Dated, L.Coherent;
    if steps != [] {
      StepKeepsDates(s, steps[0]);
      RunKeepsDates(Apply(s, steps[0]), steps[1..]);
    }
  }

  lemma ReachableIsDated(s: State)
    requires Reachable(s)
    ensures Dated(s)
  {
    hide Apply, Run, L.Coherent;
    var cfg: Config, scenario: Scenario, steps: seq<Step> :|
      cfg.Valid() && scenario.Valid() && s == Run(Init(cfg, scenario), steps);
    L.InitIsCoherent(cfg, scenario);
    RunKeepsDates(Init(cfg, scenario), steps);
  }

  lemma PhaseTextIsPlain(phase: Phase)
    ensures Plain(PhaseText(phase))
  {
  }

  lemma CodeTextIsPlain(code: AssessmentCode)
    ensures Plain(CodeText(code))
  {
  }

  predicate AboutStations(eventType: EventType) {
    eventType in {SessionStarted, SessionEnded, ClientJoined, ClientLeft, ClientReconnected}
  }

  lemma StationTextIsPlain(eventType: EventType)
    requires AboutStations(eventType)
    ensures Plain(EventTypeText(eventType))
  {
  }

  lemma OrderTextIsPlain(eventType: EventType)
    requires eventType in {EngageOrderAccepted, EngageOrderRejected, AssessmentProduced}
    ensures Plain(EventTypeText(eventType))
  {
  }

  lemma UpdateTextIsPlain(eventType: EventType)
    requires eventType in {TrackUpdated, InterceptorUpdated, ResilienceTriggered}
    ensures Plain(EventTypeText(eventType))
  {
  }

  lemma EventTypeTextIsPlain(eventType: EventType)
    ensures Plain(EventTypeText(eventType))
  {
    hide EventTypeText, Plain;
    if AboutStations(eventType) {
      StationTextIsPlain(eventType);
    } else if eventType in {TrackUpdated, InterceptorUpdated, ResilienceTriggered} {
      UpdateTextIsPlain(eventType);
    } else {
      OrderTextIsPlain(eventType);
    }
  }

  lemma HeadingTextsArePlain()
    ensures Plain("icss-replay-timeline-v1") && Plain("tracked") && Plain("untracked")
  {
  }

  lemma ProfileTextsArePlain()
    ensures Plain("tracked_intercept") && Plain("unguided_intercept")
  {
  }

  lemma NumberIsPlain(n: nat)
    ensures Plain(NatText(n))
  {
    hide NatText;
  }

  /** Which paths were exercised can be told from the text. */
  lemma CaseTellsPaths(x: Exercised, y: Exercised)
    requires ResilienceCase(x) == ResilienceCase(y)
    ensures x == y
  {
    CaseLength(x);
    CaseLength(y);
    hide ResilienceCase;
  }

  lemma CaseLength(x: Exercised)
    ensures var n := (if x.reconnect then 21 else 0) + (if x.packetGap then 29 else 0) + (if x.timeout then 19 else 0);
            |ResilienceCase(x)| == if n == 0 then 4 else n - 1
  {
  }

  /** What the file says of a session: its phase, its verdict, how much it recorded, and every event as it
      happened. */
  predicate Tells(t: Artifact, s: State)
    requires forall e <- s.log.events :: e.timestampMs >= 0
  {
    && PhaseOf(t.finalPhase) == s.phase && CodeOf(t.assessmentCode) == s.engagement.assessment.code
    && t.snapshotCount == |s.log.snapshots| && t.eventCount == |t.events| == |s.log.events|
    && (s.log.snapshots != [] ==> t.launchAngleDeg as real == R.Last(s.log.snapshots).launchAngleDeg)
    && forall i :: 0 <= i < |t.events| ==> t.events[i] == HappeningOf(s.log.events[i])
  }

  /** The file written by any reachable session with something to show reads back as written, and tells
      of that session, as long as its clock, tick and logs fit the reader's 64-bit integers. */
  lemma SessionTimelineRoundTrip(s: State)
    requires Reachable(s) && s.log.snapshots != []
    requires s.log.clockMs < TWO_63 && s.tick < TWO_63
    requires |s.log.events| < TWO_63 && |s.log.snapshots| < TWO_63
    ensures forall e <- s.log.events :: e.timestampMs >= 0
    ensures ReadTimeline(TimelineText(ArtifactOf(s))) == Ok(ArtifactOf(s)) && Tells(ArtifactOf(s), s)
  {
    hide Reachable, PhaseOf, CodeOf, NatText, PhaseText, CodeText, EventTypeText, ResilienceCase, ReadTimeline, TimelineText, Plain,
         T.LastTold;
    ReachableIsDated(s);
    R.ReachableObeysLogLaws(s);
    HeadingTextsArePlain();
    ProfileTextsArePlain();
    NumberIsPlain(s.cfg.sessionId);
    PhaseTextIsPlain(s.phase);
    CodeTextIsPlain(s.engagement.assessment.code);
    PhaseIsRead(s.phase);
    CodeIsRead(s.engagement.assessment.code);
    var t := ArtifactOf(s);
    forall e <- t.events ensures Plain(e.eventType) && e.timestampMs < TWO_63 && e.tick < TWO_63 {
      var i :| 0 <= i < |t.events| && t.events[i] == e;
      EventTypeTextIsPlain(s.log.events[i].eventType);
    }
    TimelineRoundTrip(t);
  }
}
