/** What the seeker and the snapshot say about the aim: headings, the lock, and the predicted intercept. */
module Sights {
  import opened Numerics
  import opened SessionTypes
  import opened Messages
  import opened Session
  import L = Lifecycle
  import R = Recording
  import T = TrackRuns
  import G = Guidance
  import Tracker

  /** A launch in the heading of a velocity goes the way of the velocity. */
  lemma HeadingPointsAlong(m: Math, v: Vec)
    requires m.Lawful() && (Abs(v.x) > 0.00001 || Abs(v.y) > 0.00001)
    ensures Scale(m.LaunchAt(m.HeadingDeg(v), 1), m.Length(v)) == v
  {
    var a := m.atan2(v.y, v.x);
    DegreesAndBack(a);
    assert m.LaunchAt(m.HeadingDeg(v), 1) == Vec(m.cos(a), m.sin(a)) by { One(m.cos(a)); One(m.sin(a)); }
    hide Times;
  }

  lemma DegreesAndBack(a: real)
    ensures a * 180.0 / 3.1415926535 * 3.1415926535 / 180.0 == a
  {
  }

  lemma One(a: real)
    ensures Times(a, 1.0) == a
  {
  }

  /** The angle between two headings, on the shorter side, up to whole turns. */
  ghost predicate AngleBetween(off: real, a: real, b: real) {
    0.0 <= off <= 180.0 && exists turns: int :: Turned(off, a, b, turns)
  }

  predicate Turned(off: real, a: real, b: real, turns: int) { off == Abs(a - b + 360.0 * turns as real) }

  lemma NormalizedIsAngleBetween(a: real, b: real)
    ensures AngleBetween(Abs(NormalizeAngleDeg(a - b)), a, b)
  {
    var turns := NormalizedAngleIsTheSameDirection(a - b);
    hide NormalizeAngleDeg;
    assert Turned(Abs(NormalizeAngleDeg(a - b)), a, b, turns);
  }

  /** The line of sight and the seeker after the motion of a tick: while an engagement is guided by a track
      the off-boresight angle is that between the line of sight and the flight, and the seeker has locked
      exactly when it is within the field of view. Otherwise nothing is sighted. */
  lemma SeekerLocksExactly(s: State)
    ensures Sighted(Motion(s))
  {
    hide Sighted, PointSeeker, FlyInterceptor, BeginIntercept, UpdateTrack, MoveTarget;
    SeekerPoints(FlyInterceptor(BeginIntercept(UpdateTrack(MoveTarget(s.(tick := s.tick + 1))))));
  }

  ghost predicate Sighted(u: State) {
    var m, w, los := u.cfg.math, u.world, Sub(u.world.targetAt, u.world.assetAt);
    if Guiding(u) && u.track.active then
      && AngleBetween(w.offBoresightDeg, m.HeadingDeg(los), m.HeadingDeg(w.assetVelocity))
      && (w.seekerLock <==> m.Length(los) > 0.0 && w.offBoresightDeg <= u.scenario.seekerFovDeg as real)
    else !w.seekerLock && w.offBoresightDeg == 0.0
  }

  lemma SeekerPoints(f: State)
    ensures Sighted(PointSeeker(f))
  {
    var m, w := f.cfg.math, f.world;
    NormalizedIsAngleBetween(m.HeadingDeg(Sub(w.targetAt, w.assetAt)), m.HeadingDeg(w.assetVelocity));
    hide NormalizeAngleDeg, Math.HeadingDeg, Math.Length, AngleBetween;
  }

  /** A lock is never kept without a track, beyond the field of view, or before an engage order. */
  predicate LockIsHonest(s: State) {
    s.world.seekerLock ==>
      && s.track.active && s.phase in {EngageOrdered, Intercepting, Assessed, Archived}
      && 0.0 <= s.world.offBoresightDeg <= s.scenario.seekerFovDeg as real
  }

  lemma TickKeepsLockHonest(s: State)
    requires L.Coherent(s) && LockIsHonest(s)
    ensures LockIsHonest(AdvanceTick(s))
  {
    L.TickIsCoherent(s);
    T.TickKeepsTrack(s);
    if s.phase != Assessed {
      SeekerLocksExactly(s);
      L.MotionKeeps(s);
      MotionLockIsHonest(s);
      AssessKeepsLockHonest(Motion(s));
      L.AssessmentOutcomes(Motion(s));
    }
    hide AdvanceTick, Motion, Assess, L.Coherent, AngleBetween;
  }

  lemma MotionLockIsHonest(s: State)
    requires L.Coherent(s) && s.phase != Assessed
    ensures LockIsHonest(Motion(s))
  {
    SeekerLocksExactly(s);
    L.MotionKeeps(s);
    hide Motion;
  }

  lemma AssessKeepsLockHonest(u: State)
    requires LockIsHonest(u)
    ensures LockIsHonest(Assess(u))
  {
    hide Say, WithinRadius;
  }

  lemma StepKeepsLockHonest(s: State, step: Step)
    requires L.Coherent(s) && LockIsHonest(s)
    ensures LockIsHonest(Apply(s, step))
  {
    hide L.Coherent, LockIsHonest, AdvanceTick, StartScenario, RequestTrack, ReleaseTrack, ActivateAsset, IssueCommand,
         ConnectClient, DisconnectClient, TimeoutClient, RecordTransportRejection, ConfigureScenario, ResetSession,
         ArchiveSession;
    match step {
      case Tick => TickKeepsLockHonest(s);
      case AcquireTrack => TrackKeepsLockHonest(s);
      case DropTrack => TrackKeepsLockHonest(s);
      case Start | ReadyInterceptor | Engage => OrderKeepsLockHonest(s);
      case _ => OtherStepKeepsLockHonest(s, step);
    }
  }

  lemma OrderKeepsLockHonest(s: State)
    requires LockIsHonest(s)
    ensures LockIsHonest(StartScenario(s).0) && LockIsHonest(ActivateAsset(s).0) && LockIsHonest(IssueCommand(s).0)
  {
    hide Say, Capture, Math.Launch;
  }

  lemma OtherStepKeepsLockHonest(s: State, step: Step)
    requires LockIsHonest(s) && !L.IsCommand(step) && step != Tick
    ensures LockIsHonest(Apply(s, step))
  {
    hide Say, Capture, RoleName, Scenario.Valid, AdvanceTick, StartScenario, RequestTrack, ReleaseTrack, ActivateAsset, IssueCommand;
  }

  lemma TrackKeepsLockHonest(s: State)
    requires L.Coherent(s) && LockIsHonest(s)
    ensures LockIsHonest(RequestTrack(s).0) && LockIsHonest(ReleaseTrack(s).0)
  {
    hide Say, Capture, Tracker.Seed;
  }

  lemma {:induction false} RunKeepsLockHonest(s: State, steps: seq<Step>)
    requires L.Coherent(s) && LockIsHonest(s)
    ensures LockIsHonest(Run(s, steps))
    decreases |steps|
  {
    hide Apply, L.Coherent, LockIsHonest;
    if steps != [] {
      StepKeepsLockHonest(s, steps[0]);
      L.StepIsCoherent(s, steps[0]);
      RunKeepsLockHonest(Apply(s, steps[0]), steps[1..]);
    }
  }

  lemma ReachableLockIsHonest(s: State)
    requires Reachable(s)
    ensures LockIsHonest(s)
  {
    hide Apply, Run, L.Coherent;
    var cfg: Config, scenario: Scenario, steps: seq<Step> :|
      cfg.Valid() && scenario.Valid() && s == Run(Init(cfg, scenario), steps);
    L.InitIsCoherent(cfg, scenario);
    RunKeepsLockHonest(Init(cfg, scenario), steps);
  }

  /** The intercept that a snapshot shows is the place the guidance steers for, and a lock that it shows is
      within the field of view it shows. */
  lemma ShownAimIsReal(s: State, step: Step, x: Snapshot)
    requires Reachable(s) && Apply(s, step).log.snapshots == R.Base(s, step).snapshots + [x]
    ensures var t := Apply(s, step);
            && (x.predictedInterceptValid ==>
                  && t.track.active
                  && x.predictedIntercept == G.Lead(t.cfg.math, t.world, Max(0.1, t.scenario.interceptorSpeed as real)))
            && (x.seekerLock ==> t.track.active && t.world.offBoresightDeg <= x.seekerFovDeg)
            && x.interceptorAcceleration == Acceleration(t.scenario)
  {
    hide Reachable, Apply, R.Stamped, R.Predicts, G.Lead, R.FitsRate, OnGrid, Math.HeadingDeg, Math.Length;
    ReachableStep(s, step);
    ReachableLockIsHonest(Apply(s, step));
    R.StepRecords(s, step);
    if x.predictedInterceptValid { PredictionIsLead(x, Apply(s, step)); }
  }

  lemma PredictionIsLead(x: Snapshot, t: State)
    requires R.Predicts(x, t)
    ensures t.track.active && x.predictedIntercept == G.Lead(t.cfg.math, t.world, Max(0.1, t.scenario.interceptorSpeed as real))
  {
    QuotientOf(x.timeToIntercept, Max(0.1, t.scenario.interceptorSpeed as real));
    hide Math.Length;
  }

  lemma QuotientOf(q: real, b: real)
    requires b > 0.0
    ensures q * b / b == q
  {
  }
}
