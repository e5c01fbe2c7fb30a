/** What the console hears: one answer to every command, in the order of the commands. */
module Answers {
  import opened Text
  import opened SessionTypes
  import opened Session
  import opened ReplayCursor
  import opened LiveServer
  import opened ServerGrowth
  import opened LiveRuns
  import R = Recording

  /** Nothing was said to the console. */
  predicate Silent(v: Server, t: Server) {
    && t.console == v.console && t.replies == v.replies && t.room == v.room
    && t.serverSequence == v.serverSequence && t.trace.taken == v.trace.taken
  }

  /** One more reply waits for the console. */
  predicate Answered(v: Server, t: Server, sender: Envelope) {
    && t.console && t.trace.taken == v.trace.taken && t.serverSequence == v.serverSequence + 1
    && t.replies != [] && t.replies[..|t.replies| - 1] == v.replies
    && R.Last(t.replies).sessionId == sender.sessionId && R.Last(t.replies).sequence == t.serverSequence
  }

  lemma SessionStaysSilent()
    ensures forall v: Server, step: Step {:trigger Perform(v, step)} :: Silent(v, Perform(v, step))
    ensures forall v: Server {:trigger SendPending(v)} :: Silent(v, SendPending(v))
  {
    hide Apply, SendPending;
    forall v: Server ensures Silent(v, SendPending(v)) { SendPendingTouches(v); }
  }

  lemma AckAnswers(v: Server, sender: Envelope, accepted: bool, reason: string)
    requires v.console
    ensures var t := SendAck(v, sender, accepted, reason);
            Answered(v, t, sender) && R.Last(t.replies) == Ack(sender.sessionId, v.serverSequence + 1, accepted, reason)
  {
  }

  lemma RefusalAnswers(v: Server, sender: Envelope, r: Refusal)
    requires v.console
    ensures var t := Refuse(v, sender, r);
            Answered(v, t, sender) && R.Last(t.replies) == Ack(sender.sessionId, v.serverSequence + 1, false, Wording(r).1)
  {
    hide Perform, SendAck, Wording;
    SessionStaysSilent();
    AckAnswers(LogRefusal(v, r), sender, false, Wording(r).1);
  }

  lemma DecisionAnswers(v: Server, sender: Envelope, step: Step, r: CommandResult)
    requires v.console
    ensures var t := Decide(v, sender, step, r);
            Answered(v, t, sender) && R.Last(t.replies) == Ack(sender.sessionId, v.serverSequence + 1, r.accepted, r.reason)
  {
    hide Perform, SendAck, SendPending;
    SessionStaysSilent();
    AckAnswers(Perform(v, step), sender, r.accepted, r.reason);
  }

  lemma JoinAnswers(v: Server, sender: Envelope, role: string)
    requires v.console
    ensures Answered(v, OnConsoleJoin(v, sender, role), sender) && R.Last(OnConsoleJoin(v, sender, role).replies).Ack?
  {
    hide Perform, SendAck, Refuse, RoleName, Joined;
    SessionStaysSilent();
    RefusalAnswers(v, sender, NotAConsole);
    RefusalAnswers(v, sender, JoinsOtherSession);
    RefusalAnswers(v, sender, SecondConsole);
    AckAnswers(v, sender, true, Joined());
    AckAnswers(Perform(v.(consoleSender := sender.senderId), Connect(FireControlConsole, sender.senderId)), sender, true, Joined());
  }

  lemma StartAnswers(v: Server, sender: Envelope, scenario: Scenario)
    requires v.console
    ensures Answered(v, OnStart(v, sender, scenario), sender) && R.Last(OnStart(v, sender, scenario).replies).Ack?
  {
    hide Perform, Refuse, Decide, StartScenario, Scenario.Valid, Scenario.Fault;
    SessionStaysSilent();
    RefusalAnswers(v, sender, NotStandby);
    RefusalAnswers(v, sender, OtherScenario);
    if !scenario.Valid() { RefusalAnswers(v, sender, InvalidScenario(scenario.Fault())); }
    var t := Perform(v, Configure(scenario));
    DecisionAnswers(t, sender, Start, StartScenario(t.session).1);
  }

  lemma StopAnswers(v: Server, sender: Envelope, step: Step, reason: string)
    requires v.console
    ensures var t := SendPending(SendAck(Perform(v, step), sender, true, reason));
            Answered(v, t, sender) && R.Last(t.replies).Ack?
    ensures var t := SendPending(SendAck(ResetDeliveryCursor(Perform(v, step).(cursor := NO_CURSOR)), sender, true, reason));
            Answered(v, t, sender) && R.Last(t.replies).Ack?
  {
    hide Perform, SendAck, SendPending;
    SessionStaysSilent();
    AckAnswers(Perform(v, step), sender, true, reason);
    AckAnswers(ResetDeliveryCursor(Perform(v, step).(cursor := NO_CURSOR)), sender, true, reason);
  }

  /** Every command is answered by exactly one reply, numbered next: a review when it is a review
      request of the connected console, an acknowledgement otherwise. Only a leave ends the
      connection; its acknowledgement still goes out if the connection has room. */
  lemma EveryCommandIsAnswered(v: Server, sender: Envelope, command: Command)
    requires v.console
    ensures var t, known := OnCommand(v, sender, command), EnvelopeRefusal(v, sender).None?;
            if command.Leave? && known then
              && !t.console && t.replies == [] && t.serverSequence == v.serverSequence + 1
              && (v.room > |v.replies| ==>
                    t.trace.taken == v.trace.taken + v.replies
                                     + [Ack(sender.sessionId, v.serverSequence + 1, true, command.reason)])
            else
              Answered(v, t, sender) && (R.Last(t.replies).Review? <==> command.ReviewEvents? && known)
  {
    hide Perform, SendPending, SendAck, Refuse, Decide, CloseConsole, OnStart, OnConsoleJoin, ResetDeliveryCursor,
         RequestTrack, ReleaseTrack, ActivateAsset, IssueCommand, ResetSession, EnvelopeRefusal, Resolve, Wording,
         FlushReplies;
    var refusal := EnvelopeRefusal(v, sender);
    if command.JoinConsole? {
      JoinAnswers(v, sender, command.role);
    } else if refusal.Some? {
      RefusalAnswers(v, sender, refusal.value);
    } else {
      match command {
        case Leave(reason) => LeaveAnswers(v, sender, reason);
        case StartRun(scenario) => StartAnswers(v, sender, scenario);
        case StopRun(reason) => RefusalAnswers(v, sender, NothingToStop); StopAnswers(v, sender, Archive, reason);
        case ResetRun(_) => StopAnswers(v, sender, Reset, ResetSession(v.session).1.reason);
        case Acquire(_) =>
          RefusalAnswers(v, sender, OtherTrackTarget);
          DecisionAnswers(v, sender, AcquireTrack, RequestTrack(v.session).1);
        case Drop(_) =>
          RefusalAnswers(v, sender, OtherReleaseTarget);
          DecisionAnswers(v, sender, DropTrack, ReleaseTrack(v.session).1);
        case ReadyAsset(_) =>
          RefusalAnswers(v, sender, OtherInterceptor);
          DecisionAnswers(v, sender, ReadyInterceptor, ActivateAsset(v.session).1);
        case Order(_, _) =>
          RefusalAnswers(v, sender, OtherEntities);
          DecisionAnswers(v, sender, Engage, IssueCommand(v.session).1);
        case ReviewEvents(_, _) =>
      }
    }
  }

  lemma LeaveAnswers(v: Server, sender: Envelope, reason: string)
    requires v.console
    ensures var t := CloseConsole(FlushReplies(SendAck(v, sender, true, reason)), reason);
            && !t.console && t.replies == [] && t.serverSequence == v.serverSequence + 1
            && (v.room > |v.replies| ==>
                  t.trace.taken == v.trace.taken + v.replies + [Ack(sender.sessionId, v.serverSequence + 1, true, reason)])
  {
    hide Perform;
    SessionStaysSilent();
  }

  /** In every run the replies the console's connections took, and then those still waiting, are
      numbered in the order they were made. */
  lemma RepliesComeInOrder(v: Server, net: set<Datagram>)
    requires Live(v, net)
    ensures InOrder(Replies(v), v.serverSequence)
  {
    hide Serve, NetOf, Init, Config.Valid, Scenario.Valid;
    var options: Options, cfg: Config, scenario: Scenario, inputs: seq<Input> :|
      && cfg.Valid() && scenario.Valid()
      && v == Serve(Launch(options, Init(cfg, scenario)), inputs)
      && net == NetOf(Launch(options, Init(cfg, scenario)), inputs, {});
    ServeGrows(Launch(options, Init(cfg, scenario)), inputs);
  }
}
