/** The track filter over whole runs. */
module TrackRuns {
  import opened Numerics
  import opened SessionTypes
  import opened Messages
  import opened Session
  import L = Lifecycle
  import R = Recording
  import Tracker

  predicate Positive(f: Filter) {
    && 0.0 < f.positionVariance.x == f.positionVariance.y
    && 0.0 < f.velocityVariance.x == f.velocityVariance.y
  }

  /** The published track file shows the filter. */
  predicate Published(track: Track, f: Filter) {
    && track.estimatedPosition == f.estimate && track.estimatedVelocity == f.velocity
    && track.measurementPosition == f.measurement && track.measurementValid == f.measurementValid
    && track.ageTicks == f.ageTicks && track.missedUpdates == f.missedUpdates
    && track.covarianceTrace == Tracker.CovarianceTrace(f.positionVariance, f.velocityVariance)
  }

  /** An active track has a sound filter. Until the run is archived the filter also keeps the
      bounds of the measurement schedule; the archiving tick skips one update, and no later one does. */
  ghost predicate Sound(s: State) {
    s.track.active ==>
      && Positive(s.filter) && Published(s.track, s.filter)
      && if s.phase == Archived then Tracker.Late(s.filter, s.tick) else Tracker.Bounded(s.filter, s.tick)
  }

  lemma UpdateKeepsPositive(m: Math, f: Filter, targetAt: Vec, tick: nat)
    requires Positive(f)
    ensures Tracker.Runnable(f) && Positive(Tracker.UpdateFilter(m, f, targetAt, tick))
  {
    var p := Tracker.Predict(f);
    Tracker.GainBounds(p.positionVariance.x, 25.0);
    Tracker.GainBounds(p.velocityVariance.x, 100.0);
    hide Tracker.Gain, Tracker.Shrunk;
  }

  lemma UpdateIsSound(s: State)
    requires s.track.active ==> Positive(s.filter) && Published(s.track, s.filter)
    ensures var t := UpdateTrack(s);
            t.track.active ==> Positive(t.filter) && Published(t.track, t.filter)
    ensures s.track.active && s.tick > 0 && Tracker.Bounded(s.filter, s.tick - 1) ==>
              Tracker.Bounded(UpdateTrack(s).filter, s.tick)
    ensures s.track.active && s.tick > 0 && Tracker.Late(s.filter, s.tick - 1) ==>
              Tracker.Late(UpdateTrack(s).filter, s.tick)
  {
    hide Tracker.UpdateFilter, Tracker.Bounded, Tracker.Late, Positive;
    if s.track.active {
      UpdateKeepsPositive(s.cfg.math, s.filter, s.world.targetAt, s.tick);
      if s.tick > 0 && Tracker.Bounded(s.filter, s.tick - 1) {
        Tracker.UpdateKeepsBounds(s.cfg.math, s.filter, s.world.targetAt, s.tick - 1);
      }
      if s.tick > 0 && Tracker.Late(s.filter, s.tick - 1) {
        Tracker.UpdateKeepsLate(s.cfg.math, s.filter, s.world.targetAt, s.tick - 1);
      }
    }
  }

  /** A tick's motion changes the track only by updating it with the moved target. */
  lemma MotionUpdatesTrack(s: State)
    ensures var u := UpdateTrack(MoveTarget(s.(tick := s.tick + 1)));
            Motion(s).track == u.track && Motion(s).filter == u.filter
  {
    hide UpdateTrack, MoveTarget, CapSpeed, Steered, Confined, RoundToGrid, NormalizeAngleDeg;
  }

  lemma MoveKeepsTrack(s: State)
    ensures var t := MoveTarget(s); t.track == s.track && t.filter == s.filter && t.tick == s.tick
  {
    hide Bounce, RoundToGrid;
  }

  lemma AssessKeepsFilter(s: State)
    ensures var t := Assess(s);
            && t.filter == s.filter && (t.track == s.track || t.track == s.track.(active := false))
  {
    hide Say, WithinRadius;
  }

  lemma ArchivingTickIsSound(s: State)
    requires Sound(s) && s.phase == Assessed
    ensures Sound(AdvanceTick(s))
  {
    hide AdvanceTick, Motion, Assess, Positive, Published, Tracker.Bounded, Tracker.Late;
    TickKeepsTrack(s);
    if s.track.active { Tracker.BoundedIsLate(s.filter, s.tick); }
  }

  lemma MovingTickIsSound(s: State)
    requires Sound(s) && s.phase != Assessed
    ensures Sound(AdvanceTick(s))
  {
    hide AdvanceTick, Motion, Assess, MoveTarget, UpdateTrack, BeginIntercept, Positive, Published,
         Tracker.Bounded, Tracker.Late;
    var moved := MoveTarget(s.(tick := s.tick + 1));
    ArchiveIsKept(s);
    AssessKeepsFilter(Motion(s));
    MotionUpdatesTrack(s);
    MoveKeepsTrack(s.(tick := s.tick + 1));
    UpdateIsSound(moved);
    TickKeepsTrack(s);
  }

  /** Ticks lead neither into the archive, but for the one that archives, nor out of it. */
  lemma ArchiveIsKept(s: State)
    requires s.phase != Assessed
    ensures Assess(Motion(s)).phase == Archived <==> s.phase == Archived
    ensures Assess(Motion(s)).tick == s.tick + 1 && Motion(s).track.active == s.track.active
  {
    hide Motion, Assess;
    L.MotionKeeps(s);
    L.AssessmentOutcomes(Motion(s));
  }

  lemma TickIsSound(s: State)
    requires L.Coherent(s) && Sound(s)
    ensures Sound(AdvanceTick(s))
  {
    hide AdvanceTick, Sound;
    if s.phase == Assessed { ArchivingTickIsSound(s); } else { MovingTickIsSound(s); }
  }

  lemma TickKeepsTrack(s: State)
    ensures var t := AdvanceTick(s);
            if s.phase == Assessed then
              t.track == s.track && t.filter == s.filter && t.world == s.world && t.phase == Archived && t.tick == s.tick + 1
            else t.track == Assess(Motion(s)).track && t.filter == Assess(Motion(s)).filter && t.world == Assess(Motion(s)).world
                 && t.phase == Assess(Motion(s)).phase && t.tick == Assess(Motion(s)).tick
  {
    hide Say, Capture, Motion, Assess;
  }

  lemma SeedIsSound(s: State)
    ensures var t := SeedTrack(s);
            && t == s.(track := t.track, filter := t.filter) && t.track.active
            && Positive(t.filter) && Published(t.track, t.filter) && Tracker.Bounded(t.filter, s.tick)
  {
    Tracker.SeedIsBounded(s.cfg.math, s.world.targetAt, s.world.targetVelocity, s.tick);
  }

  lemma RequestIsSound(s: State)
    requires Sound(s)
    ensures Sound(RequestTrack(s).0)
  {
    SeedIsSound(s);
    hide Say, Capture, SeedTrack, Positive, Published, Tracker.Bounded, Tracker.Late;
  }

  lemma OtherStepIsSound(s: State, step: Step)
    requires L.Coherent(s) && Sound(s) && step != Tick && step != AcquireTrack
    ensures Sound(Apply(s, step))
  {
    hide Say, Capture, RoleName, Math.Launch, StartingWorld, Scenario.Valid, Positive, Published, Tracker.Bounded,
         Tracker.Late, AdvanceTick, RequestTrack;
    if s.track.active && s.phase != Archived { Tracker.BoundedIsLate(s.filter, s.tick); }
  }

  lemma StepIsSound(s: State, step: Step)
    requires L.Coherent(s) && Sound(s)
    ensures Sound(Apply(s, step))
  {
    hide Sound, L.Coherent, AdvanceTick, RequestTrack, ReleaseTrack, StartScenario, ActivateAsset, IssueCommand,
         ConnectClient, DisconnectClient, TimeoutClient, RecordTransportRejection, ConfigureScenario, ResetSession,
         ArchiveSession;
    match step {
      case Tick => TickIsSound(s);
      case AcquireTrack => RequestIsSound(s);
      case _ => OtherStepIsSound(s, step);
    }
  }

  /** What a reader of an active, not yet archived track file can count on. */
  predicate Readable(track: Track, phase: Phase) {
    track.active && phase != Archived ==>
      track.ageTicks <= 5 && track.missedUpdates <= 1 && 0.0 < track.covarianceTrace < 447.0
  }

  lemma SoundIsReadable(s: State)
    requires Sound(s)
    ensures Readable(s.track, s.phase)
  {
    if s.track.active && s.phase != Archived {
      Tracker.BoundedTrace(s.filter, s.tick);
    }
    hide Tracker.Bounded;
  }

  /** The tracker bounds, in the state and in every retained snapshot. */
  ghost predicate Bounded(s: State) {
    && L.Coherent(s) && Sound(s)
    && forall i :: 0 <= i < |s.log.snapshots| ==> Readable(s.log.snapshots[i].track, s.log.snapshots[i].phase)
  }

  lemma StepIsBounded(s: State, step: Step)
    requires Bounded(s)
    ensures Bounded(Apply(s, step))
  {
    hide Apply, Sound, L.Coherent, Readable, R.Stamped;
    L.StepIsCoherent(s, step);
    StepIsSound(s, step);
    var base, t := R.Base(s, step), Apply(s, step);
    SoundIsReadable(t);
    R.StepRecords(s, step);
    assert forall i :: 0 <= i < |base.snapshots| ==> t.log.snapshots[i] == base.snapshots[i];
  }

  lemma {:induction false} RunIsBounded(s: State, steps: seq<Step>)
    requires Bounded(s)
    ensures Bounded(Run(s, steps))
    decreases |steps|
  {
    hide Apply, Bounded;
    if steps != [] {
      StepIsBounded(s, steps[0]);
      RunIsBounded(Apply(s, steps[0]), steps[1..]);
    }
  }

  /** In every reachable state an active track has a filter that can be updated, with equal and
      positive variances on both axes; before the archive its published file is at most five ticks
      old, has missed at most one measurement, and its covariance trace stays below 447. */
  lemma ReachableTracksAreBounded(s: State)
    requires Reachable(s)
    ensures s.track.active ==> Tracker.Runnable(s.filter) && Positive(s.filter) && Published(s.track, s.filter)
    ensures s.track.active && s.phase != Archived ==> Tracker.Bounded(s.filter, s.tick)
    ensures s.track.active && s.phase == Archived ==> Tracker.Late(s.filter, s.tick)
    ensures Readable(s.track, s.phase)
    ensures forall i :: 0 <= i < |s.log.snapshots| ==> Readable(s.log.snapshots[i].track, s.log.snapshots[i].phase)
  {
    hide Apply, Run, Readable, L.Coherent;
    var cfg: Config, scenario: Scenario, steps: seq<Step> :|
      cfg.Valid() && scenario.Valid() && s == Run(Init(cfg, scenario), steps);
    L.InitIsCoherent(cfg, scenario);
    RunIsBounded(Init(cfg, scenario), steps);
    SoundIsReadable(s);
  }

  /** A filter right after a measurement. */
  predicate Sharp(f: Filter) {
    && 0.0 < f.positionVariance.x == f.positionVariance.y < 25.0
    && 0.0 < f.velocityVariance.x == f.velocityVariance.y <= 26.0
    && f.ageTicks == 0 && f.missedUpdates == 0
  }

  /** Every component gives part of the residual, and only part of it, to the estimate. */
  predicate ProperGains(f: Filter) {
    && f.positionVariance.x > 0.0 && f.positionVariance.y > 0.0 && f.velocityVariance.x > 0.0 && f.velocityVariance.y > 0.0
    && 0.0 < Tracker.Gain(f.positionVariance.x, 25.0) < 1.0 && 0.0 < Tracker.Gain(f.positionVariance.y, 25.0) < 1.0
    && 0.0 < Tracker.Gain(f.velocityVariance.x, 100.0) < 1.0 && 0.0 < Tracker.Gain(f.velocityVariance.y, 100.0) < 1.0
  }

  /** In every reachable state, archived ones included: a tick that takes a fresh measurement leaves an
      active track with a position variance below 25 and a velocity variance of at most 26 on both
      axes, an age of 0 and nothing missed; the gains of that update lie strictly between 0 and 1.
      Only the tick that archives an assessed run takes no measurement. */
  lemma FreshMeasurementSharpensTrack(s: State)
    requires Reachable(s) && s.phase != Assessed && s.track.active && Tracker.MeasurementAvailable(s.tick + 1)
    ensures Sharp(AdvanceTick(s).filter) && ProperGains(Tracker.Predict(s.filter))
  {
    hide Reachable, AdvanceTick, Motion, Assess, MoveTarget, Readable, Published, Tracker.Bounded, Tracker.Late,
         Tracker.Gain, Tracker.MeasurementAvailable, Tracker.UpdateFilter;
    ReachableTracksAreBounded(s);
    TickUpdatesFilter(s);
    var targetAt := MoveTarget(s.(tick := s.tick + 1)).world.targetAt;
    if s.phase != Archived { Tracker.BoundedIsLate(s.filter, s.tick); }
    Tracker.UpdateKeepsLate(s.cfg.math, s.filter, targetAt, s.tick);
    PredictedGains(s.filter);
    UpdateKeepsPositive(s.cfg.math, s.filter, targetAt, s.tick + 1);
  }

  lemma PredictedGains(f: Filter)
    requires Positive(f)
    ensures ProperGains(Tracker.Predict(f))
  {
    var p := Tracker.Predict(f);
    Tracker.GainBounds(p.positionVariance.x, 25.0);
    Tracker.GainBounds(p.velocityVariance.x, 100.0);
    hide Tracker.Gain, Tracker.Shrunk;
  }

  /** The filter after a tick is the updated one, with the target where it has moved to. */
  lemma TickUpdatesFilter(s: State)
    requires s.phase != Assessed && s.track.active && Tracker.Runnable(s.filter)
    ensures AdvanceTick(s).filter
         == Tracker.UpdateFilter(s.cfg.math, s.filter, MoveTarget(s.(tick := s.tick + 1)).world.targetAt, s.tick + 1)
  {
    hide Tracker.UpdateFilter, Tracker.Runnable, Tracker.Publish, Motion, Assess, AdvanceTick, Bounce, RoundToGrid;
    TickKeepsTrack(s);
    AssessKeepsFilter(Motion(s));
    MotionUpdatesTrack(s);
    MoveKeepsTrack(s.(tick := s.tick + 1));
    assert MoveTarget(s.(tick := s.tick + 1)).cfg == s.cfg;
  }
}
