/** The control buttons of the display: what they send, when they are enabled, and how the display
    edits its own picture when the command is acknowledged. */
module ViewerControl {
  import opened Text
  import opened Numerics
  import opened Messages
  import opened SessionTypes
  import opened Session
  import opened Viewer
  import opened Convergence
  import opened LiveRuns
  import opened Delivery
  import opened LiveServer
  import R = Recording
  import L = Lifecycle
  import D = Decisions

  datatype Button = StartButton | TrackButton | ReadyButton | EngageButton

  predicate Enabled(b: Button, x: Snapshot) {
    match b
    case StartButton => x.phase == Standby
    case TrackButton => x.phase in {Detecting, Tracking, InterceptorReady}
    case ReadyButton => x.phase == Tracking && x.track.active
    case EngageButton => x.phase == InterceptorReady && x.interceptorStatus == Ready
  }

  /** The command a button sends; the track button toggles. */
  function Sent(b: Button, x: Snapshot): Step {
    match b
    case StartButton => Start
    case TrackButton => if x.track.active then DropTrack else AcquireTrack
    case ReadyButton => ReadyInterceptor
    case EngageButton => Engage
  }

  /** The session's answer to a command. */
  function Answer(s: State, step: Step): CommandResult
    requires L.IsCommand(step)
  {
    match step
    case Start => StartScenario(s).1
    case AcquireTrack => RequestTrack(s).1
    case DropTrack => ReleaseTrack(s).1
    case ReadyInterceptor => ActivateAsset(s).1
    case Engage => IssueCommand(s).1
  }

  function Begun(v: View): View {
    var x := v.snapshot;
    v.(snapshot := x.(phase := Detecting, target := x.target.(active := true), engageStatus := NoOrder,
                      interceptorStatus := Idle, interceptorVelocity := ORIGIN, interceptorHeadingDeg := 0.0),
       trackShown := false, targetHistory := [], interceptorHistory := [])
  }

  function Toggled(v: View): View {
    var x := v.snapshot;
    if x.track.active then
      v.(snapshot := x.(phase := if x.phase == Tracking then Detecting else x.phase, track := NO_TRACK), trackShown := false)
    else
      v.(snapshot := x.(phase := if x.phase == Detecting then Tracking else x.phase, track := x.track.(active := true)),
         trackShown := true)
  }

  /** The display's own edits after an accepted command, before the next snapshot. `m` is the display's
      arithmetic, with which it previews the launch. */
  function Edited(v: View, b: Button, m: Math): View {
    var x := v.snapshot;
    var u := v.(panel := v.panel.(visible := false));
    match b
    case StartButton =>
      Begun(u)
    case ReadyButton =>
      u.(snapshot := x.(phase := InterceptorReady, interceptor := x.interceptor.(active := true), interceptorStatus := Ready))
    case TrackButton =>
      Toggled(u)
    case EngageButton =>
      u.(snapshot := x.(phase := EngageOrdered, engageStatus := Accepted, interceptorStatus := Ready,
                        interceptorVelocity := m.LaunchAt(x.launchAngleDeg, x.interceptorSpeed),
                        interceptorHeadingDeg := x.launchAngleDeg))
  }

  function Label(b: Button, x: Snapshot): string {
    match b
    case StartButton => "Start"
    case TrackButton => if x.track.active then "Drop Track" else "Acquire Track"
    case ReadyButton => "Ready"
    case EngageButton => "Engage"
  }

  function ControlLine(name: string, ok: bool, message: string): string {
    (if ok then "[control accepted] " else "[control rejected] ") + name + " | " + message
  }

  /** The display after the answer to a command: the answer is shown and told, and the edits are made
      if it was accepted. */
  function Acknowledged(v: View, b: Button, m: Math, accepted: bool, reason: string): View {
    var name := Label(b, v.snapshot);
    var u := PushTimeline(v.(control := Control(accepted, name, reason)), ControlLine(name, accepted, reason));
    if accepted then Edited(u, b, m) else u
  }

  /** The preview of the scenario that was sent with an accepted start. */
  function Previewed(x: Snapshot, scenario: Scenario, m: Math): Snapshot {
    x.(worldWidth := scenario.worldWidth, worldHeight := scenario.worldHeight,
       target := x.target.(position := scenario.targetStart), interceptor := x.interceptor.(position := scenario.interceptorStart),
       targetWorld := ToVec(scenario.targetStart), interceptorWorld := ToVec(scenario.interceptorStart),
       targetVelocityGrid := scenario.targetVelocity, targetVelocity := ToVec(scenario.targetVelocity),
       interceptorVelocity := ORIGIN, targetHeadingDeg := m.HeadingDeg(ToVec(scenario.targetVelocity)),
       interceptorHeadingDeg := 0.0, interceptorSpeed := scenario.interceptorSpeed,
       interceptorAcceleration := Max(1.0, scenario.interceptorSpeed as real * 0.28),
       interceptRadius := scenario.interceptRadius, engagementTimeoutTicks := scenario.engagementTimeoutTicks,
       seekerFovDeg := scenario.seekerFovDeg as real, launchAngleDeg := scenario.launchAngleDeg as real,
       seekerLock := false, offBoresightDeg := 0.0, predictedInterceptValid := false, predictedIntercept := ORIGIN,
       timeToIntercept := 0.0, track := NO_TRACK)
  }

  function StartLine(s: Scenario): string {
    "[start randomized] target=(" + IntText(s.targetStart.x) + "," + IntText(s.targetStart.y)
    + ") velocity=(" + IntText(s.targetVelocity.x) + "," + IntText(s.targetVelocity.y)
    + ") launch_angle=" + IntText(s.launchAngleDeg)
  }

  /** The display after the answer to a start with that scenario. */
  function StartAcknowledged(v: View, scenario: Scenario, m: Math, accepted: bool, reason: string): View {
    var u := Acknowledged(v, StartButton, m, accepted, reason);
    if accepted then PushTimeline(u.(snapshot := Previewed(u.snapshot, scenario, m)), StartLine(scenario)) else u
  }

  /** The display shows what the buttons depend on as the session has it. */
  predicate InSync(x: Snapshot, s: State) {
    x.phase == s.phase && x.track.active == s.track.active && x.interceptorStatus == s.engagement.interceptor
  }

  /** A display that agrees with the server shows the buttons the session's present state. */
  lemma AgreeingDisplayIsInSync(w: System)
    requires Converging(w) && w.server.session.log.snapshots != []
    requires w.view.receivedSnapshot && Sequence(w.view) == w.server.session.log.sequence
    ensures InSync(w.view.snapshot, w.server.session)
  {
    hide Reachable, Timed, AllGenuine, NewestSent, QueuedInOrder, ShowsTelemetry, R.LogLaws;
    var s, history := w.server.session, w.server.trace.history;
    R.ReachableObeysLogLaws(s);
    LawsShowNewest(s);
    assert R.Last(s.log.snapshots) == R.Last(history);
    assert Picture(w.view).phase == w.view.snapshot.phase;
  }

  lemma LawsShowNewest(s: State)
    requires R.LogLaws(s)
    ensures R.NewestIsCurrent(s)
  {
    hide L.Coherent, R.Orderly, R.ReconnectShownOnce;
  }

  /** What the phase says about the track and the interceptor in a coherent state. */
  lemma Faces(s: State)
    requires L.Coherent(s)
    ensures s.phase in {Standby, Detecting} ==> !s.track.active && s.engagement.interceptor == Idle
    ensures s.phase == Tracking ==> s.track.active && s.engagement.interceptor == Idle
    ensures s.phase == InterceptorReady ==> s.engagement.interceptor == Ready && s.world.asset.active
    ensures s.phase == EngageOrdered ==> s.engagement.interceptor == Ready
    ensures s.phase == Detecting ==> s.world.target.active && s.engagement.order in {NoOrder, Rejected}
  {
  }

  /** A button is enabled exactly when the session would accept what it sends. */
  lemma ButtonsAreHonest(s: State, x: Snapshot, b: Button)
    requires Reachable(s) && InSync(x, s) && s.console.connection != Disconnected
    ensures Enabled(b, x) <==> Answer(s, Sent(b, x)).accepted
  {
    hide Reachable, L.Coherent, L.Refused, StartScenario, RequestTrack, ReleaseTrack, ActivateAsset, IssueCommand;
    L.ReachableIsCoherent(s);
    Faces(s);
    match b {
      case StartButton => L.StartScenarioOutcome(s);
      case TrackButton => if x.track.active { L.ReleaseTrackOutcome(s); } else { L.RequestTrackOutcome(s); }
      case ReadyButton => L.ActivateAssetOutcome(s);
      case EngageButton => L.IssueCommandOutcome(s);
    }
  }

  /** The command as it is sent; a start carries the scenario the display has planned. */
  function Command(b: Button, x: Snapshot, scenario: Scenario): LiveServer.Command {
    match b
    case StartButton => StartRun(scenario)
    case TrackButton => if x.track.active then Drop(TARGET_ID) else Acquire(TARGET_ID)
    case ReadyButton => ReadyAsset(ASSET_ID)
    case EngageButton => Order(ASSET_ID, TARGET_ID)
  }

  /** In every run: of a display that is in sync, and whose console has joined, a button is enabled exactly
      when the server acknowledges its command as accepted. */
  lemma EnabledButtonsAreAccepted(v: Server, net: set<Datagram>, sender: Envelope, x: Snapshot, b: Button, scenario: Scenario)
    requires Live(v, net) && v.console && InSync(x, v.session)
    requires v.consoleSender != 0 && sender.sessionId == SESSION_ID && sender.senderId == v.consoleSender
    requires scenario.name == v.session.scenario.name && scenario.Valid()
    ensures var t := OnCommand(v, sender, Command(b, x, scenario));
            && t.replies != [] && R.Last(t.replies).Ack?
            && (Enabled(b, x) <==> R.Last(t.replies).accepted)
  {
    hide Live, OnCommand, Scenario.Valid, L.Coherent, D.Effective, D.Refuses;
    D.EveryCommandIsDecided(v, net, sender, Command(b, x, scenario));
    D.LiveIsLinked(v, net);
    Faces(v.session);
  }

  /** A started run has no order yet. */
  lemma StartClearsOrder(s: State)
    ensures StartScenario(s).1.accepted ==> StartScenario(s).0.engagement.order == NoOrder
  {
    hide Say, Capture;
  }

  lemma OrderKeepsTrack(s: State)
    ensures IssueCommand(s).0.track == s.track
  {
    hide Say, Capture, Math.Launch;
  }

  /** What the edits of an accepted command come to, seen from the session. */
  predicate EditAgrees(t: State, u: View, b: Button) {
    var x := u.snapshot;
    && InSync(x, t)
    && (b == StartButton ==> x.target.active == t.world.target.active && x.engageStatus == t.engagement.order)
    && (b == ReadyButton ==> x.interceptor.active == t.world.asset.active)
    && (b == EngageButton ==> x.engageStatus == t.engagement.order)
    && (b == TrackButton ==> u.trackShown == t.track.active)
  }

  lemma StartEditAgrees(s: State, v: View, m: Math)
    requires L.Coherent(s) && InSync(v.snapshot, s) && s.phase == Standby && s.console.connection != Disconnected
    ensures EditAgrees(StartScenario(s).0, Edited(v, StartButton, m), StartButton)
  {
    hide L.Coherent, L.Refused, StartScenario, Math.LaunchAt;
    Faces(s);
    L.StartScenarioOutcome(s);
    StartClearsOrder(s);
    Faces(StartScenario(s).0);
  }

  lemma TrackEditAgrees(s: State, v: View, m: Math)
    requires L.Coherent(s) && InSync(v.snapshot, s) && s.phase in {Detecting, Tracking, InterceptorReady}
    ensures EditAgrees(if v.snapshot.track.active then ReleaseTrack(s).0 else RequestTrack(s).0, Edited(v, TrackButton, m),
                       TrackButton)
  {
    hide L.Coherent, L.Refused, ReleaseTrack, RequestTrack, Math.LaunchAt;
    Faces(s);
    if v.snapshot.track.active {
      L.ReleaseTrackOutcome(s);
      Faces(ReleaseTrack(s).0);
    } else {
      L.RequestTrackOutcome(s);
      Faces(RequestTrack(s).0);
    }
  }

  lemma LaunchEditAgrees(s: State, v: View, m: Math)
    requires L.Coherent(s) && InSync(v.snapshot, s)
    ensures s.phase == Tracking ==> EditAgrees(ActivateAsset(s).0, Edited(v, ReadyButton, m), ReadyButton)
    ensures s.phase == InterceptorReady ==> EditAgrees(IssueCommand(s).0, Edited(v, EngageButton, m), EngageButton)
  {
    hide L.Coherent, L.Refused, ActivateAsset, IssueCommand, Math.LaunchAt;
    Faces(s);
    L.ActivateAssetOutcome(s);
    Faces(ActivateAsset(s).0);
    L.IssueCommandOutcome(s);
    OrderKeepsTrack(s);
    Faces(IssueCommand(s).0);
  }

  /** After an accepted command the edited picture is in step with the session again. */
  lemma EditsAgree(s: State, v: View, b: Button, m: Math)
    requires Reachable(s) && InSync(v.snapshot, s) && s.console.connection != Disconnected
    requires Enabled(b, v.snapshot)
    ensures EditAgrees(Apply(s, Sent(b, v.snapshot)), Edited(v, b, m), b)
  {
    hide Reachable, L.Coherent, EditAgrees, Edited, StartScenario, RequestTrack, ReleaseTrack, ActivateAsset,
         IssueCommand;
    L.ReachableIsCoherent(s);
    match b {
      case StartButton => StartEditAgrees(s, v, m);
      case TrackButton => TrackEditAgrees(s, v, m);
      case _ => LaunchEditAgrees(s, v, m);
    }
  }

  lemma LaunchIs(s: State)
    ensures IssueCommand(s).1.accepted ==>
              IssueCommand(s).0.world.assetVelocity == s.cfg.math.Launch(s.scenario.launchAngleDeg, s.scenario.interceptorSpeed)
  {
    hide Say, Capture, Math.Launch;
  }

  /** The launch the display previews, in the heading it shows, is the launch of the session, if it shows the session's launch
      angle and interceptor speed. */
  lemma PreviewedLaunchIsReal(s: State, v: View, reason: string)
    requires Reachable(s) && InSync(v.snapshot, s) && Enabled(EngageButton, v.snapshot)
    requires v.snapshot.launchAngleDeg == s.scenario.launchAngleDeg as real
    requires v.snapshot.interceptorSpeed == s.scenario.interceptorSpeed
    ensures var u := Acknowledged(v, EngageButton, s.cfg.math, IssueCommand(s).1.accepted, reason);
            && IssueCommand(s).1.accepted && u.snapshot.interceptorVelocity == IssueCommand(s).0.world.assetVelocity
            && u.snapshot.interceptorVelocity == s.cfg.math.LaunchAt(u.snapshot.interceptorHeadingDeg, s.scenario.interceptorSpeed)
  {
    hide Reachable, L.Coherent, L.Refused, IssueCommand, Math.LaunchAt, ControlLine, Label;
    L.ReachableIsCoherent(s);
    Faces(s);
    L.IssueCommandOutcome(s);
    LaunchIs(s);
  }

  /** Where a started run begins. */
  lemma StartIs(s: State, scenario: Scenario)
    requires s.phase == Standby && scenario.Valid()
    ensures var t := Apply(s, Configure(scenario));
            && t.phase == Standby && t.console == s.console && t.scenario == scenario
            && (StartScenario(t).1.accepted ==>
                  && StartScenario(t).0.world == StartingWorld(scenario).(target := StartingWorld(scenario).target.(active := true))
                  && StartScenario(t).0.track == NO_TRACK
                  && StartScenario(t).0.phase == Detecting && StartScenario(t).0.cfg == s.cfg
                  && StartScenario(t).0.scenario == scenario
                  && StartScenario(t).0.engagement.order == NoOrder && StartScenario(t).0.engagement.interceptor == Idle)
  {
    hide Say, Capture;
  }

  /** The same scene: bodies, their places, velocities and headings, the interceptor's limits, the aim, the track. */
  predicate SameScene(x: Snapshot, y: Snapshot) {
    && x.phase == y.phase && x.worldWidth == y.worldWidth && x.worldHeight == y.worldHeight
    && x.target.position == y.target.position && x.target.active == y.target.active
    && x.interceptor.position == y.interceptor.position
    && x.targetWorld == y.targetWorld && x.interceptorWorld == y.interceptorWorld
    && x.targetVelocity == y.targetVelocity && x.interceptorVelocity == y.interceptorVelocity
    && x.targetHeadingDeg == y.targetHeadingDeg && x.interceptorHeadingDeg == y.interceptorHeadingDeg
    && x.interceptorSpeed == y.interceptorSpeed && x.interceptorAcceleration == y.interceptorAcceleration
    && x.interceptRadius == y.interceptRadius && x.engagementTimeoutTicks == y.engagementTimeoutTicks
    && x.seekerFovDeg == y.seekerFovDeg && x.launchAngleDeg == y.launchAngleDeg
    && x.seekerLock == y.seekerLock && x.offBoresightDeg == y.offBoresightDeg && x.timeToIntercept == y.timeToIntercept
    && x.predictedInterceptValid == y.predictedInterceptValid && x.predictedIntercept == y.predictedIntercept
    && x.track == y.track && x.interceptorStatus == y.interceptorStatus && x.engageStatus == y.engageStatus
  }

  lemma RestHasNoHeading(m: Math)
    ensures m.HeadingDeg(ORIGIN) == 0.0
  {
  }

  lemma StartPictures(t: State)
    requires StartScenario(t).1.accepted
    ensures var u := StartScenario(t).0; u.log.snapshots != [] && R.Pictures(R.Last(u.log.snapshots), u)
  {
    R.SnapshotsPicture();
    hide Say, Capture, R.Pictures;
  }

  /** After an accepted start with a scenario the display shows the scene of the snapshot that the session
      records: both bodies, their motion, the limits, and no track. */
  lemma StartPreviewIsReal(s: State, v: View, scenario: Scenario, reason: string)
    requires s.phase == Standby && scenario.Valid()
    ensures var (t, r) := StartScenario(Apply(s, Configure(scenario)));
            var u := StartAcknowledged(v, scenario, s.cfg.math, true, reason);
            r.accepted ==> t.log.snapshots != [] && SameScene(u.snapshot, R.Last(t.log.snapshots)) && !u.trackShown
  {
    hide StartScenario, Apply, ControlLine, StartLine, Label, Math.HeadingDeg, Math.Length, Scenario.Valid, R.FitsRate, OnGrid,
         R.Predicts;
    StartIs(s, scenario);
    RestHasNoHeading(s.cfg.math);
    if StartScenario(Apply(s, Configure(scenario))).1.accepted { StartPictures(Apply(s, Configure(scenario))); }
  }

  /** The answer to a command is shown as it was given, under the name of what was sent, and told in front of the
      timeline; refused, it changes nothing else. */
  lemma AnswerIsShown(v: View, b: Button, m: Math, accepted: bool, reason: string, scenario: Scenario)
    ensures var u, command := Acknowledged(v, b, m, accepted, reason), Command(b, v.snapshot, scenario);
            && u.control == Control(accepted, NameOf(command), reason)
            && u.timeline != [] && Announces(u.timeline[0], accepted, NameOf(command), reason)
            && if accepted then !u.panel.visible
               else u == v.(control := u.control, timeline := u.timeline, scrollLines := u.scrollLines)
  {
    LineIs(Label(b, v.snapshot), accepted, reason);
    LabelIsName(b, v.snapshot, scenario);
    var asked := v.(control := Control(accepted, Label(b, v.snapshot), reason));
    MessageIsInFront(asked, ControlLine(Label(b, v.snapshot), accepted, reason));
    EditsKeepAnswer(PushTimeline(asked, ControlLine(Label(b, v.snapshot), accepted, reason)), b, m);
    hide ControlLine, Label, NameOf, Command, Announces, Edited, PushTimeline;
  }

  lemma MessageIsInFront(v: View, message: string)
    ensures var u := PushTimeline(v, message);
            u.timeline != [] && u.timeline[0] == message && u == v.(timeline := u.timeline, scrollLines := u.scrollLines)
  {
  }

  lemma EditsKeepAnswer(v: View, b: Button, m: Math)
    ensures var u := Edited(v, b, m); u.control == v.control && u.timeline == v.timeline && !u.panel.visible
  {
    hide Math.LaunchAt;
  }

  predicate Announces(line: string, accepted: bool, name: string, reason: string) {
    line == (if accepted then "[control accepted]" else "[control rejected]") + " " + name + " | " + reason
  }

  lemma LabelIsName(b: Button, x: Snapshot, scenario: Scenario)
    ensures Label(b, x) == NameOf(Command(b, x, scenario))
  {
  }

  lemma LineIs(name: string, accepted: bool, reason: string)
    ensures Announces(ControlLine(name, accepted, reason), accepted, name, reason)
  {
  }

  /** The name of a command a button sends. */
  function NameOf(command: LiveServer.Command): string {
    match command
    case StartRun(_) => "Start"
    case Acquire(_) => "Acquire Track"
    case Drop(_) => "Drop Track"
    case ReadyAsset(_) => "Ready"
    case Order(_, _) => "Engage"
    case _ => ""
  }
}
