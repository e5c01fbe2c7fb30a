/** What each console command makes of the session, and that the acknowledgement says so. */
module Decisions {
  import opened Text
  import opened SessionTypes
  import opened Session
  import opened LiveServer
  import opened LiveRuns
  import ServerGrowth
  import Answers
  import Messages
  import Numerics
  import Tracker
  import ReplayCursor
  import L = Lifecycle
  import R = Recording

  /** The commands by which a console drives the session. */
  predicate Drives(command: Command) {
    command.StartRun? || command.StopRun? || command.ResetRun? || command.Acquire? || command.Drop? || command.ReadyAsset?
    || command.Order?
  }

  /** It names the entities of the session, and for a start a scenario that can be run. */
  predicate Understood(s: State, command: Command) {
    match command
    case StartRun(scenario) => scenario.name == s.scenario.name && scenario.Valid()
    case Acquire(target) => target == TARGET_ID
    case Drop(target) => target == TARGET_ID
    case ReadyAsset(asset) => asset == ASSET_ID
    case Order(asset, target) => asset == ASSET_ID && target == TARGET_ID
    case _ => true
  }

  /** The phase a command leads to, from the phase and the track alone; none if it is refused. */
  function Leads(phase: Phase, tracked: bool, command: Command): Option<Phase> {
    match command
    case StartRun(_) => if phase == Standby then Some(Detecting) else None
    case StopRun(_) => if phase in {Standby, Archived} then None else Some(Archived)
    case ResetRun(_) => Some(Standby)
    case Acquire(_) =>
      if phase == Detecting then Some(Tracking) else if phase == InterceptorReady && !tracked then Some(InterceptorReady) else None
    case Drop(_) =>
      if phase == Tracking then Some(Detecting) else if phase == InterceptorReady && tracked then Some(InterceptorReady) else None
    case ReadyAsset(_) => if phase == Tracking then Some(InterceptorReady) else None
    case Order(_, _) => if phase == InterceptorReady then Some(EngageOrdered) else None
    case _ => None
  }

  /** Whether a target is tracked after an accepted command. */
  predicate TracksAfter(tracked: bool, command: Command) {
    if command.StartRun? || command.ResetRun? || command.Drop? then false else if command.Acquire? then true else tracked
  }

  function Opened(w: World): World { w.(target := w.target.(active := true)) }

  /** What else an accepted command leaves. */
  predicate Effective(s: State, t: State, command: Command) {
    match command
    case StartRun(scenario) =>
      t.scenario == scenario && t.engagement == NO_ENGAGEMENT && t.tick == s.tick && t.world == Opened(StartingWorld(scenario))
    case StopRun(_) => t.engagement == s.engagement && t.world == s.world && t.tick == s.tick
    case ResetRun(_) => t.tick == 0 && t.log.events == [] && t.world == StartingWorld(s.scenario) && t.engagement == NO_ENGAGEMENT
    case ReadyAsset(_) =>
      && t.engagement == s.engagement.(interceptor := Ready) && t.tick == s.tick
      && t.world == s.world.(asset := s.world.asset.(active := true))
    case Order(_, _) =>
      && t.engagement == s.engagement.(order := Accepted, started := Some(s.tick)) && t.tick == s.tick
      && t.world == s.world.(assetVelocity := s.cfg.math.Launch(s.scenario.launchAngleDeg, s.scenario.interceptorSpeed))
    case _ => t.engagement == s.engagement && t.world == s.world && t.tick == s.tick
  }

  /** A refusal leaves the run alone. One by the session, of a command it understands but for its phase,
      overwrites an order that is not assessed; one by the transport does not. */
  predicate Refuses(s: State, t: State, command: Command) {
    && t.phase == s.phase && t.tick == s.tick && t.world == s.world && t.track == s.track && t.scenario == s.scenario
    && if !Understood(s, command) || command.StartRun? || command.StopRun? || s.engagement.assessment.ready
       then t.engagement == s.engagement
       else t.engagement.order == Rejected
  }

  /** The verdict on a command: what it leads to, and how it is acknowledged. */
  predicate Decided(v: Server, t: Server, sender: Envelope, command: Command) {
    var s, s' := v.session, t.session;
    var to := if Understood(s, command) then Leads(s.phase, s.track.active, command) else None;
    && (to.Some? ==> s'.phase == to.value && s'.track.active == TracksAfter(s.track.active, command) && Effective(s, s', command))
    && (to.None? ==> Refuses(s, s', command))
    && t.replies != [] && R.Last(t.replies).Ack? && R.Last(t.replies).accepted == to.Some?
    && R.Last(t.replies).sessionId == sender.sessionId && R.Last(t.replies).sequence == v.serverSequence + 1
  }

  // ---------------------------------------------------------------------------
  // The session's part

  /** The session's verdict, when it is asked. */
  predicate Ruled(s: State, t: State, accepted: bool, command: Command) {
    var to := Leads(s.phase, s.track.active, command);
    && accepted == to.Some?
    && (if to.Some? then t.phase == to.value && t.track.active == TracksAfter(s.track.active, command) && Effective(s, t, command)
        else L.Refused(s, t))
  }

  /** The table, for the commands the session is asked about. */
  lemma Table(phase: Phase, tracked: bool, asset: string, target: string)
    ensures Leads(phase, tracked, ReadyAsset(asset)) == if phase == Tracking then Some(InterceptorReady) else None
    ensures Leads(phase, tracked, Order(asset, target)) == if phase == InterceptorReady then Some(EngageOrdered) else None
    ensures TracksAfter(tracked, ReadyAsset(asset)) == TracksAfter(tracked, Order(asset, target)) == tracked
    ensures Leads(phase, tracked, Acquire(target))
         == if phase == Detecting then Some(Tracking)
            else if phase == InterceptorReady && !tracked then Some(InterceptorReady) else None
    ensures Leads(phase, tracked, Drop(target))
         == if phase == Tracking then Some(Detecting)
            else if phase == InterceptorReady && tracked then Some(InterceptorReady) else None
    ensures TracksAfter(tracked, Acquire(target)) && !TracksAfter(tracked, Drop(target))
  {
  }

  /** The verdict follows from what the session's operation is known to do. */
  lemma Rule(s: State, r: (State, CommandResult), command: Command)
    requires var to := Leads(s.phase, s.track.active, command);
             && r.1.accepted == to.Some?
             && if to.Some? then r.0.phase == to.value && r.0.track.active == TracksAfter(s.track.active, command)
                else L.Refused(s, r.0)
    requires r.1.accepted ==> Effective(s, r.0, command)
    ensures Ruled(s, r.0, r.1.accepted, command)
  {
    hide L.Refused, Effective;
  }

  lemma RequestIsRuled(s: State, target: string)
    requires L.Coherent(s)
    ensures Ruled(s, RequestTrack(s).0, RequestTrack(s).1.accepted, Acquire(target))
  {
    hide *;
    Table(s.phase, s.track.active, "", target);
    L.RequestTrackOutcome(s);
    TrackKeepsTheRest(s, target);
    Rule(s, RequestTrack(s), Acquire(target));
  }

  lemma ReleaseIsRuled(s: State, target: string)
    requires L.Coherent(s)
    ensures Ruled(s, ReleaseTrack(s).0, ReleaseTrack(s).1.accepted, Drop(target))
  {
    hide *;
    Table(s.phase, s.track.active, "", target);
    L.ReleaseTrackOutcome(s);
    TrackKeepsTheRest(s, target);
    Rule(s, ReleaseTrack(s), Drop(target));
  }

  lemma TrackKeepsTheRest(s: State, target: string)
    ensures RequestTrack(s).1.accepted ==> Effective(s, RequestTrack(s).0, Acquire(target))
    ensures ReleaseTrack(s).1.accepted ==> Effective(s, ReleaseTrack(s).0, Drop(target))
  {
    hide Messages.Say, Capture, Tracker.Seed;
  }

  lemma ActivationIsRuled(s: State, asset: string)
    requires L.Coherent(s)
    ensures Ruled(s, ActivateAsset(s).0, ActivateAsset(s).1.accepted, ReadyAsset(asset))
  {
    hide *;
    Table(s.phase, s.track.active, asset, "");
    L.ActivateAssetOutcome(s);
    OrderKeepsTheRest(s, asset, "");
    Rule(s, ActivateAsset(s), ReadyAsset(asset));
  }

  lemma OrderIsRuled(s: State, asset: string, target: string)
    requires L.Coherent(s)
    ensures Ruled(s, IssueCommand(s).0, IssueCommand(s).1.accepted, Order(asset, target))
  {
    hide *;
    Table(s.phase, s.track.active, asset, target);
    L.IssueCommandOutcome(s);
    OrderKeepsTheRest(s, asset, target);
    Rule(s, IssueCommand(s), Order(asset, target));
  }

  lemma OrderKeepsTheRest(s: State, asset: string, target: string)
    ensures ActivateAsset(s).1.accepted ==>
              Effective(s, ActivateAsset(s).0, ReadyAsset(asset)) && ActivateAsset(s).0.track == s.track
    ensures IssueCommand(s).1.accepted ==>
              Effective(s, IssueCommand(s).0, Order(asset, target)) && IssueCommand(s).0.track == s.track
  {
    hide Messages.Say, Capture, Numerics.Math.Launch;
  }

  lemma StartIsRuled(s: State, scenario: Scenario)
    requires L.Coherent(s) && s.phase == Standby && scenario.Valid() && s.console.connection != Disconnected
    ensures var u := Apply(s, Configure(scenario));
            && StartScenario(u).1.accepted && StartScenario(u).0.phase == Detecting && !StartScenario(u).0.track.active
            && Effective(s, StartScenario(u).0, StartRun(scenario))
  {
    hide Messages.Say, Capture, StartingWorld, Scenario.Valid;
  }

  lemma EndIsRuled(s: State)
    ensures s.phase != Archived ==> Apply(s, Archive).phase == Archived && Effective(s, Apply(s, Archive), StopRun(""))
                                    && Apply(s, Archive).track == s.track
    ensures var t := Apply(s, Reset); t.phase == Standby && !t.track.active && Effective(s, t, ResetRun(""))
  {
    hide Messages.Say, Capture, StartingWorld;
  }

  // ---------------------------------------------------------------------------
  // The server's part

  /** A console that has joined is on: its session does not show it disconnected. */
  predicate Linked(v: Server) { v.consoleSender != 0 ==> v.session.console.connection != Disconnected }

  lemma SessionSurvives()
    ensures forall v: Server {:trigger SendPending(v)} :: SendPending(v).session == v.session
    ensures forall v: Server, sender: Envelope, accepted: bool, reason: string {:trigger SendAck(v, sender, accepted, reason)} ::
              SendAck(v, sender, accepted, reason).session == v.session
  {
    hide SendPending;
    forall v: Server ensures SendPending(v).session == v.session { ServerGrowth.SendPendingTouches(v); }
  }

  lemma RefusalRules(v: Server, sender: Envelope, r: Refusal, command: Command)
    requires v.console && Drives(command)
    requires !Understood(v.session, command) ||
             ((command.StartRun? || command.StopRun?) && Leads(v.session.phase, v.session.track.active, command) == None)
    ensures Decided(v, Refuse(v, sender, r), sender, command)
  {
    Answers.RefusalAnswers(v, sender, r);
    RejectionIsLogged(v.session, Wording(r).0, Wording(r).1, Wording(r).2);
    SessionSurvives();
    hide Wording, Apply, SendAck, Understood, Leads;
  }

  lemma RejectionIsLogged(s: State, summary: string, reason: string, ids: seq<string>)
    ensures var t := Apply(s, TransportRejection(summary, reason, ids));
            && t.phase == s.phase && t.tick == s.tick && t.world == s.world && t.track == s.track && t.scenario == s.scenario
            && t.engagement == s.engagement && OnlyLogged(s, t, reason)
  {
    hide Messages.Say;
  }

  /** All that is left is one more event, which tells the reason. */
  ghost predicate OnlyLogged(s: State, t: State, reason: string) {
    && t == s.(log := t.log) && t.log.snapshots == s.log.snapshots
    && |t.log.events| == |s.log.events| + 1 && s.log.events <= t.log.events
    && R.Last(t.log.events).eventType == EngageOrderRejected && R.Last(t.log.events).details == reason
  }

  /** A second connection is turned away: the first one and all it has said are untouched. */
  lemma SecondConnectionIsRefused(v: Server)
    ensures v.console ==>
              && OnAccept(v) == v.(session := OnAccept(v).session, trace := OnAccept(v).trace)
              && exists reason: string :: OnlyLogged(v.session, OnAccept(v).session, reason)
    ensures OnAccept(v).console
  {
    var w := Wording(SecondConnection);
    RejectionIsLogged(v.session, w.0, w.1, w.2);
    hide Wording, Apply, OnlyLogged;
  }

  /** A frame that cannot be read is logged with its fault and not answered; a review request that cannot be
      read is answered with its fault and not logged. */
  lemma BrokenFrameIsToldOnce(v: Server, reason: string)
    requires v.console
    ensures var t := OnRequest(v, Unreadable(reason));
            && OnlyLogged(v.session, t.session, reason) && t.replies == v.replies && t.serverSequence == v.serverSequence
            && t.console && t.consoleSender == v.consoleSender && t.viewer == v.viewer && t.pending == v.pending
    ensures var t := OnRequest(v, BadReview(reason));
            && t.session == v.session && t.replies == v.replies + [Ack(SESSION_ID, v.serverSequence + 1, false, reason)]
            && t.consoleSender == v.consoleSender && t.pending == v.pending && t.cursor == v.cursor
  {
    var w := Wording(UnreadableFrame(reason));
    RejectionIsLogged(v.session, w.0, w.1, w.2);
    assert w.1 == reason;
    hide Wording, Apply, OnlyLogged;
  }

  lemma DecisionRules(v: Server, sender: Envelope, step: Step, r: CommandResult, command: Command)
    requires v.console && Drives(command) && Understood(v.session, command) && !command.StartRun? && !command.StopRun?
    requires Ruled(v.session, Apply(v.session, step), r.accepted, command)
    ensures Decided(v, Decide(v, sender, step, r), sender, command)
  {
    Answers.DecisionAnswers(v, sender, step, r);
    SessionSurvives();
    hide Apply, SendAck, SendPending, Understood, Leads, Effective;
  }

  lemma StartRules(v: Server, sender: Envelope, scenario: Scenario)
    requires v.console && L.Coherent(v.session) && v.session.console.connection != Disconnected
    ensures Decided(v, OnStart(v, sender, scenario), sender, StartRun(scenario))
  {
    hide Refuse, Decide, Apply, StartScenario, Scenario.Valid, Scenario.Fault, L.Coherent, Wording, StartingWorld;
    if v.session.phase != Standby {
      RefusalRules(v, sender, NotStandby, StartRun(scenario));
    } else if scenario.name != v.session.scenario.name {
      RefusalRules(v, sender, OtherScenario, StartRun(scenario));
    } else if !scenario.Valid() {
      RefusalRules(v, sender, InvalidScenario(scenario.Fault()), StartRun(scenario));
    } else {
      StartIsRuled(v.session, scenario);
      var t := Perform(v, Configure(scenario));
      Answers.DecisionAnswers(t, sender, Start, StartScenario(t.session).1);
      StartDecides(t, sender);
    }
  }

  lemma StartDecides(t: Server, sender: Envelope)
    ensures Decide(t, sender, Start, StartScenario(t.session).1).session == StartScenario(t.session).0
  {
    SessionSurvives();
    hide SendPending, SendAck, StartScenario;
  }

  lemma EndRules(v: Server, sender: Envelope, reason: string, answer: string)
    requires v.console
    ensures v.session.phase !in {Standby, Archived} ==>
              Decided(v, SendPending(SendAck(Perform(v, Archive), sender, true, reason)), sender, StopRun(reason))
    ensures var t := ResetDeliveryCursor(Perform(v, Reset).(cursor := ReplayCursor.NO_CURSOR));
            Decided(v, SendPending(SendAck(t, sender, true, answer)), sender, ResetRun(reason))
  {
    hide SendPending, SendAck, Apply, StartingWorld;
    EndIsRuled(v.session);
    SessionSurvives();
    Answers.SessionStaysSilent();
    var t := ResetDeliveryCursor(Perform(v, Reset).(cursor := ReplayCursor.NO_CURSOR));
    Answers.AckAnswers(Perform(v, Archive), sender, true, reason);
    Answers.AckAnswers(t, sender, true, answer);
  }

  /** From a console that has joined, every driving command is decided by the phase and the track alone:
      the session moves as the table says and nothing else, and the acknowledgement says whether it did. */
  lemma CommandIsDecided(v: Server, sender: Envelope, command: Command)
    requires v.console && L.Coherent(v.session) && Linked(v) && Drives(command)
    requires v.consoleSender != 0 && sender.sessionId == SESSION_ID && sender.senderId == v.consoleSender
    ensures Decided(v, OnCommand(v, sender, command), sender, command)
  {
    hide Refuse, Decide, Perform, SendAck, SendPending, OnStart, ResetDeliveryCursor, Decided, L.Coherent, Wording, RequestTrack,
         ReleaseTrack, ActivateAsset, IssueCommand, ResetSession, Ruled, Scenario.Valid;
    match command {
      case StartRun(scenario) => StartRules(v, sender, scenario);
      case StopRun(reason) =>
        if v.session.phase in {Standby, Archived} { RefusalRules(v, sender, NothingToStop, command); }
        else { EndRules(v, sender, reason, ""); }
      case ResetRun(reason) => EndRules(v, sender, reason, ResetSession(v.session).1.reason);
      case Acquire(target) =>
        if target != TARGET_ID { RefusalRules(v, sender, OtherTrackTarget, command); }
        else { RequestIsRuled(v.session, target); DecisionRules(v, sender, AcquireTrack, RequestTrack(v.session).1, command); }
      case Drop(target) =>
        if target != TARGET_ID { RefusalRules(v, sender, OtherReleaseTarget, command); }
        else { ReleaseIsRuled(v.session, target); DecisionRules(v, sender, DropTrack, ReleaseTrack(v.session).1, command); }
      case ReadyAsset(asset) =>
        if asset != ASSET_ID { RefusalRules(v, sender, OtherInterceptor, command); }
        else { ActivationIsRuled(v.session, asset); DecisionRules(v, sender, ReadyInterceptor, ActivateAsset(v.session).1, command); }
      case Order(asset, target) =>
        if asset != ASSET_ID || target != TARGET_ID { RefusalRules(v, sender, OtherEntities, command); }
        else { OrderIsRuled(v.session, asset, target); DecisionRules(v, sender, Engage, IssueCommand(v.session).1, command); }
    }
  }

  /** A command from anyone else is refused, and is only logged, with the reason it is answered with. */
  lemma StrangerIsRefused(v: Server, sender: Envelope, command: Command)
    requires v.console && !command.JoinConsole?
    requires v.consoleSender == 0 || sender.sessionId != SESSION_ID || sender.senderId != v.consoleSender
    ensures var t := OnCommand(v, sender, command);
            && t.console && t.consoleSender == v.consoleSender
            && t.replies != [] && R.Last(t.replies).Ack? && !R.Last(t.replies).accepted
            && OnlyLogged(v.session, t.session, R.Last(t.replies).reason)
  {
    hide Wording, Apply, SendAck;
    hide OnlyLogged;
    var r := EnvelopeRefusal(v, sender).value;
    Answers.RefusalAnswers(v, sender, r);
    SessionSurvives();
    RejectionIsLogged(v.session, Wording(r).0, Wording(r).1, Wording(r).2);
    RefusalKeepsConsole(v, sender, r);
    RefusalTellsReason(v, sender, r);
  }

  lemma RefusalTellsReason(v: Server, sender: Envelope, r: Refusal)
    requires v.console
    ensures var t := Refuse(v, sender, r); t.replies != [] && R.Last(t.replies).Ack? && R.Last(t.replies).reason == Wording(r).1
  {
    hide Wording, Apply;
  }

  lemma RefusalKeepsConsole(v: Server, sender: Envelope, r: Refusal)
    ensures Refuse(v, sender, r).consoleSender == v.consoleSender
  {
    hide Wording, Apply;
  }

  /** A join is accepted exactly in the role of a console, for this session, and unless another console has
      joined; the console is then the sender and is on. */
  lemma JoinIsDecided(v: Server, sender: Envelope, role: string)
    requires v.console && Linked(v)
    ensures var t := OnConsoleJoin(v, sender, role);
            var joins := role == RoleName(FireControlConsole) && sender.sessionId == SESSION_ID
                         && (v.consoleSender == 0 || sender.senderId == v.consoleSender);
            && t.replies != [] && R.Last(t.replies).Ack? && R.Last(t.replies).accepted == joins
            && t.consoleSender == (if joins then sender.senderId else v.consoleSender)
            && (joins && sender.senderId != 0 ==> t.session.console.connection != Disconnected)
            && t.session.phase == v.session.phase && t.session.engagement == v.session.engagement
  {
    hide Wording, Apply, SendAck, RoleName, Joined;
    SessionSurvives();
    JoinKeepsRun(v.session, sender.senderId);
    Answers.AckAnswers(v, sender, true, Joined());
    var u := Perform(v.(consoleSender := sender.senderId), Connect(FireControlConsole, sender.senderId));
    Answers.SessionStaysSilent();
    Answers.AckAnswers(u, sender, true, Joined());
    AckKeepsConsole(v, sender);
    AckKeepsConsole(u, sender);
    forall r <- {NotAConsole, JoinsOtherSession, SecondConsole} ensures JoinRefused(v, Refuse(v, sender, r)) {
      Answers.RefusalAnswers(v, sender, r);
      RefusalKeepsConsole(v, sender, r);
      RejectionIsLogged(v.session, Wording(r).0, Wording(r).1, Wording(r).2);
    }
    hide Refuse, Perform;
  }

  predicate JoinRefused(v: Server, t: Server) {
    && t.consoleSender == v.consoleSender && t.session.phase == v.session.phase && t.session.engagement == v.session.engagement
    && t.replies != [] && R.Last(t.replies).Ack? && !R.Last(t.replies).accepted
  }

  lemma AckKeepsConsole(v: Server, sender: Envelope)
    ensures SendAck(v, sender, true, Joined()).consoleSender == v.consoleSender
  {
    hide Joined;
  }

  lemma JoinKeepsRun(s: State, sender: nat)
    ensures var t := Apply(s, Connect(FireControlConsole, sender));
            t.console.connection != Disconnected && t.phase == s.phase && t.engagement == s.engagement
  {
    hide Messages.Say;
  }

  // ---------------------------------------------------------------------------
  // A joined console is on, in every run

  predicate ConsoleIsOn(s: State) { s.console.connection != Disconnected }

  lemma StepKeepsConsoleOn(s: State, step: Step)
    requires !step.Disconnect? || step.role != FireControlConsole
    ensures ConsoleIsOn(s) ==> ConsoleIsOn(Apply(s, step))
    ensures step.Connect? && step.role == FireControlConsole ==> ConsoleIsOn(Apply(s, step))
  {
    hide Messages.Say, Capture, StartingWorld, Scenario.Valid, Motion, Assess, RequestTrack, ReleaseTrack;
    L.MotionKeeps(s);
    L.AssessmentOutcomes(Motion(s));
    TrackKeepsConsole(s);
  }

  lemma TrackKeepsConsole(s: State)
    ensures RequestTrack(s).0.console == s.console && ReleaseTrack(s).0.console == s.console
  {
    hide Messages.Say, Capture, Tracker.Seed;
  }

  predicate KeepsLink(v: Server, t: Server) { Linked(v) ==> Linked(t) }

  lemma PartsKeepLink()
    ensures forall v: Server, step: Step {:trigger Perform(v, step)} ::
              !step.Disconnect? || step.role != FireControlConsole ==> KeepsLink(v, Perform(v, step))
    ensures forall v: Server {:trigger SendPending(v)} :: KeepsLink(v, SendPending(v))
    ensures forall v: Server, sender: Envelope, accepted: bool, reason: string {:trigger SendAck(v, sender, accepted, reason)} ::
              KeepsLink(v, SendAck(v, sender, accepted, reason))
  {
    hide Apply, SendPending;
    forall v: Server, step: Step | !step.Disconnect? || step.role != FireControlConsole ensures KeepsLink(v, Perform(v, step)) {
      StepKeepsConsoleOn(v.session, step);
    }
    forall v: Server ensures KeepsLink(v, SendPending(v)) { ServerGrowth.SendPendingTouches(v); }
  }

  lemma CloseKeepsLink(v: Server, reason: string)
    ensures Linked(v) ==> Linked(CloseConsole(v, reason))
  {
    hide Apply;
  }

  lemma RefusalKeepsLink(v: Server, sender: Envelope, r: Refusal)
    ensures KeepsLink(v, Refuse(v, sender, r))
  {
    PartsKeepLink();
    hide Perform, SendAck, Wording, Linked;
  }

  lemma ConnectingLinks(v: Server, sender: nat)
    ensures Linked(Perform(v.(consoleSender := sender), Connect(FireControlConsole, sender)))
  {
    StepKeepsConsoleOn(v.session, Connect(FireControlConsole, sender));
    hide Apply;
  }

  lemma JoinKeepsLink(v: Server, sender: Envelope, role: string)
    ensures KeepsLink(v, OnConsoleJoin(v, sender, role))
  {
    PartsKeepLink();
    ConnectingLinks(v, sender.senderId);
    RefusalKeepsLink(v, sender, NotAConsole);
    RefusalKeepsLink(v, sender, JoinsOtherSession);
    RefusalKeepsLink(v, sender, SecondConsole);
    hide Perform, SendAck, Refuse, RoleName, Joined, Linked;
  }

  lemma CommandKeepsLink(v: Server, sender: Envelope, command: Command)
    ensures KeepsLink(v, OnCommand(v, sender, command))
  {
    PartsKeepLink();
    match command {
      case JoinConsole(role) => JoinKeepsLink(v, sender, role);
      case Leave(reason) => CloseKeepsLink(FlushReplies(SendAck(v, sender, true, reason)), reason);
      case _ =>
    }
    hide Perform, SendPending, SendAck, OnConsoleJoin, CloseConsole, RequestTrack, ReleaseTrack, ActivateAsset, IssueCommand,
         ResetSession, EnvelopeRefusal, ReplayCursor.Resolve, StartScenario, Scenario.Valid, Scenario.Fault, Wording;
  }

  lemma DriverKeepsLink(v: Server, nowMs: int, role: Role, reason: string)
    ensures KeepsLink(v, OnTick(v, nowMs)) && KeepsLink(v, OnArchive(v)) && KeepsLink(v, OnAccept(v))
    ensures KeepsLink(v, TimeoutViewer(v, role, reason)) && KeepsLink(v, OnDisconnect(v, role, reason))
  {
    PartsKeepLink();
    CloseKeepsLink(v, reason);
    hide Perform, SendPending, Wording, CloseConsole;
  }

  lemma DisplayKeepsLink(v: Server, input: Input)
    requires input.DisplayJoin? || input.DisplayHeartbeat?
    ensures KeepsLink(v, Handle(v, input))
  {
    PartsKeepLink();
    hide Perform, SendPending, Wording, OnTick, OnArchive, OnDisconnect, TimeoutViewer, OnAccept, CloseConsole, OnRequest;
  }

  lemma RequestKeepsLink(v: Server, request: Request)
    ensures KeepsLink(v, OnRequest(v, request))
  {
    PartsKeepLink();
    if request.Commanded? { CommandKeepsLink(v, request.sender, request.command); }
    hide Perform, SendAck, OnCommand, Wording;
  }

  lemma InputKeepsLink(v: Server, input: Input)
    ensures KeepsLink(v, Handle(v, input))
  {
    match input {
      case TickAt(nowMs) => DriverKeepsLink(v, nowMs, TacticalDisplay, "");
      case ArchiveCall => DriverKeepsLink(v, 0, TacticalDisplay, "");
      case DisconnectCall(role, reason) => DriverKeepsLink(v, 0, role, reason);
      case TimeoutCall(role, reason) => DriverKeepsLink(v, 0, role, reason);
      case AcceptConsole => DriverKeepsLink(v, 0, TacticalDisplay, "");
      case ConsoleClosed(reason) => CloseKeepsLink(v, reason);
      case ConsoleFrame(request) => RequestKeepsLink(v, request);
      case DisplayJoin(_, _, _, _) => DisplayKeepsLink(v, input);
      case DisplayHeartbeat(_, _, _, _, _, _) => DisplayKeepsLink(v, input);
      case SendNext =>
      case FlushConsole(_) =>
    }
    hide OnTick, OnArchive, OnDisconnect, TimeoutViewer, OnAccept, CloseConsole, OnRequest, OnJoin, OnHeartbeat;
  }

  lemma {:induction false} RunKeepsLink(v: Server, inputs: seq<Input>)
    requires Linked(v)
    ensures Linked(Serve(v, inputs))
    decreases |inputs|
  {
    hide Handle;
    if inputs != [] {
      InputKeepsLink(v, inputs[0]);
      RunKeepsLink(Handle(v, inputs[0]), inputs[1..]);
    }
  }

  lemma LiveIsLinked(v: Server, net: set<Datagram>)
    requires Live(v, net)
    ensures Linked(v) && L.Coherent(v.session)
  {
    LiveIsServing(v, net);
    L.ReachableIsCoherent(v.session);
    hide Serving, Serve, NetOf, Config.Valid, Scenario.Valid, L.Coherent;
    var options: Options, cfg: Config, scenario: Scenario, inputs: seq<Input> :|
      && cfg.Valid() && scenario.Valid()
      && v == Serve(Launch(options, Init(cfg, scenario)), inputs)
      && net == NetOf(Launch(options, Init(cfg, scenario)), inputs, {});
    RunKeepsLink(Launch(options, Init(cfg, scenario)), inputs);
  }

  /** In every run: a driving command from the console that has joined is decided by the phase and the
      track alone. */
  lemma EveryCommandIsDecided(v: Server, net: set<Datagram>, sender: Envelope, command: Command)
    requires Live(v, net) && v.console && Drives(command)
    requires v.consoleSender != 0 && sender.sessionId == SESSION_ID && sender.senderId == v.consoleSender
    ensures Decided(v, OnCommand(v, sender, command), sender, command)
  {
    hide Live, OnCommand, Decided, L.Coherent;
    LiveIsLinked(v, net);
    CommandIsDecided(v, sender, command);
  }
}
