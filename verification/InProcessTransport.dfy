/** The in-process transport: a wrapper that checks the sender and the entities of a command before the
    session sees it, and the sample run over it. What it hands straight on, as starts and ticks, is
    called on the session here. */
module InProcessTransport {
  import opened Text
  import opened SessionTypes
  import opened Messages
  import opened LiveServer
  import opened SimulationSession
  import opened SampleRun
  import L = Lifecycle
  import S = Session
  import D = Decisions

  /** The commands that are dispatched as payloads. */
  predicate Dispatchable(command: Command) { command.Acquire? || command.Drop? || command.ReadyAsset? || command.Order? }

  /** The refusal of a command about other entities than those of the session. */
  function Mismatch(command: Command): Refusal
    requires Dispatchable(command)
  {
    match command
    case Acquire(_) => OtherTrackTarget
    case Drop(_) => OtherReleaseTarget
    case ReadyAsset(_) => OtherInterceptor
    case Order(_, _) => OtherEntities
  }

  predicate Matches(command: Command)
    requires Dispatchable(command)
  {
    match command
    case Acquire(target) => target == TARGET_ID
    case Drop(target) => target == TARGET_ID
    case ReadyAsset(asset) => asset == ASSET_ID
    case Order(asset, target) => asset == ASSET_ID && target == TARGET_ID
  }

  function StepOf(command: Command): S.Step
    requires Dispatchable(command)
  {
    match command
    case Acquire(_) => S.AcquireTrack
    case Drop(_) => S.DropTrack
    case ReadyAsset(_) => S.ReadyInterceptor
    case Order(_, _) => S.Engage
  }

  function Decision(s: S.State, command: Command): (S.State, CommandResult)
    requires Dispatchable(command)
  {
    match command
    case Acquire(_) => S.RequestTrack(s)
    case Drop(_) => S.ReleaseTrack(s)
    case ReadyAsset(_) => S.ActivateAsset(s)
    case Order(_, _) => S.IssueCommand(s)
  }

  /** Why the sender of a command is not heard. */
  function SenderRefusal(expected: nat, sender: Envelope): Option<Refusal> {
    if expected == 0 then Some(NoConsole)
    else if sender.sessionId != SESSION_ID then Some(OtherSession)
    else if sender.senderId != expected then Some(OtherSender)
    else None
  }

  /** A wrong sender is refused under the command's own summary. */
  function Dispatched(s: S.State, expected: nat, sender: Envelope, command: Command): (S.State, CommandResult)
    requires Dispatchable(command)
  {
    var wrongSender, (summary, reason, ids) := SenderRefusal(expected, sender), Wording(Mismatch(command));
    if wrongSender.Some? then S.RecordTransportRejection(s, summary, Wording(wrongSender.value).1, [])
    else if !Matches(command) then S.RecordTransportRejection(s, summary, reason, ids)
    else Decision(s, command)
  }

  class InProcessTransport {
    const session: SimulationSession
    var commandSender: nat
    var viewerSender: nat

    constructor (cfg: Config, scenario: Scenario)
      ensures fresh(session) && session.State() == S.Init(cfg, scenario) && commandSender == 0 && viewerSender == 0
    {
      session := new SimulationSession(cfg, scenario);
      commandSender, viewerSender := 0, 0;
    }

    method ConnectClient(role: Role, senderId: nat)
      modifies this, session
      ensures session.State() == S.ConnectClient(old(session.State()), role, senderId)
      ensures commandSender == if role == FireControlConsole then senderId else old(commandSender)
      ensures viewerSender == if role == FireControlConsole then old(viewerSender) else senderId
    {
      hide S.ConnectClient;
      if role == FireControlConsole {
        commandSender := senderId;
      } else {
        viewerSender := senderId;
      }
      session.ConnectClient(role, senderId);
    }

    method DisconnectClient(role: Role, reason: string)
      modifies this, session
      ensures session.State() == S.DisconnectClient(old(session.State()), role, reason)
      ensures commandSender == if role == FireControlConsole then 0 else old(commandSender)
      ensures viewerSender == if role == FireControlConsole then old(viewerSender) else 0
    {
      hide S.DisconnectClient;
      if role == FireControlConsole {
        commandSender := 0;
      } else {
        viewerSender := 0;
      }
      session.DisconnectClient(role, reason);
    }

    method RejectPayload(summary: string, reason: string, ids: seq<string>) returns (r: CommandResult)
      modifies session
      ensures (session.State(), r) == S.RecordTransportRejection(old(session.State()), summary, reason, ids)
    {
      r := session.RecordTransportRejection(summary, reason, ids);
    }

    method ValidateEnvelope(sender: Envelope, summary: string) returns (r: Option<CommandResult>)
      modifies session
      ensures match SenderRefusal(commandSender, sender)
              case None => r == None && session.State() == old(session.State())
              case Some(refusal) =>
                var (s, result) := S.RecordTransportRejection(old(session.State()), summary, Wording(refusal).1, []);
                r == Some(result) && session.State() == s
    {
      hide S.RecordTransportRejection, Wording;
      if commandSender == 0 {
        var result := RejectPayload(summary, Wording(NoConsole).1, []);
        return Some(result);
      }
      if sender.sessionId != SESSION_ID {
        var result := RejectPayload(summary, Wording(OtherSession).1, []);
        return Some(result);
      }
      if sender.senderId != commandSender {
        var result := RejectPayload(summary, Wording(OtherSender).1, []);
        return Some(result);
      }
      r := None;
    }

    method Dispatch(sender: Envelope, command: Command) returns (r: CommandResult)
      requires Dispatchable(command)
      modifies session
      ensures (session.State(), r) == Dispatched(old(session.State()), commandSender, sender, command)
    {
      hide S.RecordTransportRejection, S.RequestTrack, S.ReleaseTrack, S.ActivateAsset, S.IssueCommand, Wording,
           SenderRefusal;
      var (summary, reason, ids) := Wording(Mismatch(command));
      var invalid := ValidateEnvelope(sender, summary);
      if invalid.Some? {
        return invalid.value;
      }
      if !Matches(command) {
        r := RejectPayload(summary, reason, ids);
        return;
      }
      match command {
        case Acquire(_) => r := session.RequestTrack();
        case Drop(_) => r := session.ReleaseTrack();
        case ReadyAsset(_) => r := session.ActivateAsset();
        case Order(_, _) => r := session.IssueCommand();
      }
    }
  }

  /** A wrong sender or a wrong entity is refused without touching the engagement; otherwise the
      session decides, by the phase and the track alone. */
  lemma DispatchOutcome(s: S.State, expected: nat, sender: Envelope, command: Command)
    requires Dispatchable(command) && L.Coherent(s)
    ensures var (t, r) := Dispatched(s, expected, sender, command);
            if SenderRefusal(expected, sender).Some? || !Matches(command) then
              && !r.accepted && t.phase == s.phase && t.engagement == s.engagement && t.track == s.track && t.world == s.world
            else (t, r) == Decision(s, command) && D.Ruled(s, t, r.accepted, command)
    ensures L.Coherent(Dispatched(s, expected, sender, command).0)
  {
    hide S.RequestTrack, S.ReleaseTrack, S.ActivateAsset, S.IssueCommand, Wording, SenderRefusal, L.Coherent, D.Ruled;
    var (summary, reason, ids) := Wording(Mismatch(command));
    match command {
      case Acquire(target) => D.RequestIsRuled(s, target);
      case Drop(target) => D.ReleaseIsRuled(s, target);
      case ReadyAsset(asset) => D.ActivationIsRuled(s, asset);
      case Order(asset, target) => D.OrderIsRuled(s, asset, target);
    }
    L.StepIsCoherent(s, StepOf(command));
    L.StepIsCoherent(s, S.TransportRejection(summary, reason, ids));
    if SenderRefusal(expected, sender).Some? {
      L.StepIsCoherent(s, S.TransportRejection(summary, Wording(SenderRefusal(expected, sender).value).1, []));
    }
  }

  // ---------------------------------------------------------------------------
  // The sample run

  const CONSOLE: nat := 101
  const DISPLAY: nat := 201

  function FromConsole(sequence: nat): Envelope { Envelope(SESSION_ID, CONSOLE, sequence) }

  /** Commands about the session's own entities, from its console, are decided by the session. */
  lemma OwnCommandIsDecided(s: S.State, sequence: nat, command: Command)
    requires Dispatchable(command) && Matches(command)
    ensures Dispatched(s, CONSOLE, FromConsole(sequence), command) == Decision(s, command)
  {
    hide S.RequestTrack, S.ReleaseTrack, S.ActivateAsset, S.IssueCommand, Wording;
  }

  /** Everything up to the engage order. `failure` is the exception of the first refused command. */
  method PrepareTransport(transport: InProcessTransport, unguided: bool) returns (failure: Option<string>)
    requires transport.session.scenario.Valid()
    requires transport.session.State() == S.Init(transport.session.cfg, transport.session.scenario)
    modifies transport, transport.session
    ensures failure == None && transport.commandSender == CONSOLE
    ensures L.Coherent(transport.session.State()) && transport.session.phase == InterceptorReady
  {
    hide Say, L.Coherent, S.Init, S.ConnectClient, S.DisconnectClient, S.StartScenario, S.RequestTrack, S.ReleaseTrack,
         S.ActivateAsset, S.AdvanceTick, Dispatched;
    var session := transport.session;
    failure := None;
    FreshSession(session.cfg, session.scenario);
    ClientsKeep(session.State(), FireControlConsole, CONSOLE, "");
    transport.ConnectClient(FireControlConsole, CONSOLE);
    ClientsKeep(session.State(), TacticalDisplay, DISPLAY, "");
    transport.ConnectClient(TacticalDisplay, DISPLAY);

    L.StartScenarioOutcome(session.State());
    var result := session.StartScenario();
    if !result.accepted {
      failure := Some("baseline start_scenario rejected");
    }
    if failure.None? {
      L.RequestTrackOutcome(session.State());
      OwnCommandIsDecided(session.State(), 1, Acquire(TARGET_ID));
      result := transport.Dispatch(FromConsole(1), Acquire(TARGET_ID));
      if !result.accepted {
        failure := Some("baseline track_acquire rejected");
      }
    }
    if failure.None? {
      L.TickIsCoherent(session.State());
      session.AdvanceTick();
      L.ActivateAssetOutcome(session.State());
      OwnCommandIsDecided(session.State(), 2, ReadyAsset(ASSET_ID));
      result := transport.Dispatch(FromConsole(2), ReadyAsset(ASSET_ID));
      if !result.accepted {
        failure := Some("baseline interceptor_ready rejected");
      }
    }
    if failure.None? && unguided {
      L.ReleaseTrackOutcome(session.State());
      OwnCommandIsDecided(session.State(), 3, Drop(TARGET_ID));
      result := transport.Dispatch(FromConsole(3), Drop(TARGET_ID));
      if !result.accepted {
        failure := Some("baseline track_drop rejected");
      }
    }
    if failure.None? {
      ReconnectDisplay(transport);
    }
  }

  method ReconnectDisplay(transport: InProcessTransport)
    requires L.Coherent(transport.session.State())
    modifies transport, transport.session
    ensures L.Coherent(transport.session.State()) && transport.session.phase == old(transport.session.phase)
    ensures transport.commandSender == old(transport.commandSender)
  {
    hide L.Coherent, S.ConnectClient, S.DisconnectClient;
    var reason := "viewer reconnect exercised for resilience evidence";
    ClientsKeep(transport.session.State(), TacticalDisplay, DISPLAY, reason);
    transport.DisconnectClient(TacticalDisplay, reason);
    ClientsKeep(transport.session.State(), TacticalDisplay, DISPLAY, reason);
    transport.ConnectClient(TacticalDisplay, DISPLAY);
  }

  /** The sample run over the transport: for every valid scenario no command is refused, neither by the
      transport nor by the session, and the run ends assessed. */
  method DriveSampleTransportSequence(transport: InProcessTransport, unguided: bool) returns (failure: Option<string>)
    requires transport.session.scenario.Valid()
    requires transport.session.State() == S.Init(transport.session.cfg, transport.session.scenario)
    modifies transport, transport.session
    ensures failure == None
    ensures transport.session.phase == Assessed && L.Ended(transport.session.State())
  {
    hide Say, L.Coherent, S.IssueCommand, S.AdvanceTick, S.Init, Dispatched;
    var session := transport.session;
    failure := PrepareTransport(transport, unguided);
    OrderIsCaptured(session.State());
    L.IssueCommandOutcome(session.State());
    var sequence := if unguided then 4 else 3;
    OwnCommandIsDecided(session.State(), sequence, Order(ASSET_ID, TARGET_ID));
    var result := transport.Dispatch(FromConsole(sequence), Order(ASSET_ID, TARGET_ID));
    if !result.accepted {
      failure := Some("baseline engage_order rejected");
    }
    if failure.None? {
      AwaitAssessment(session);
    }
    AssessedHasEnded(session.State());
  }
}
