/** A run in which a command that comes together with the end of the connection is lost. */
module LostStart {
  import opened Text
  import opened SessionTypes
  import opened Messages
  import opened Reassembly
  import opened JsonFrame
  import opened LiveServer
  import opened LiveRuns
  import opened ConsoleMessages
  import opened ConsoleLink
  import opened ConsoleTurns
  import ServerGrowth
  import L = Lifecycle
  import S = Session

  const SENDER: nat := 101

  function Join(): Said { Said(Envelope(SESSION_ID, SENDER, 1), JoinConsole(RoleName(FireControlConsole))) }
  function Begin(scenario: Scenario): Said { Said(Envelope(SESSION_ID, SENDER, 2), StartRun(scenario)) }

  /** A server whose console has just connected. */
  function Fresh(options: Options, cfg: Config, scenario: Scenario): Server {
    OnAccept(Launch(options, S.Init(cfg, scenario)))
  }

  /** What the steps of the run do. */
  lemma StepsAre(s: S.State, scenario: Scenario)
    ensures S.Apply(s, S.Connect(FireControlConsole, SENDER)).console.connection != Disconnected
    ensures var t := S.Apply(s, S.Configure(scenario)); t.phase == s.phase && t.console == s.console
    ensures S.Apply(s, S.Start) == S.StartScenario(s).0
  {
    hide Say, S.StartingWorld, S.StartScenario, Scenario.Valid;
  }

  /** The join is accepted; the session waits in standby. */
  lemma JoinIs(v: Server)
    requires v.console && v.consoleSender == 0 && L.Coherent(v.session)
    ensures var t := OnRequest(v, Commanded(Join().sender, Join().command));
            && t.console && t.consoleSender == SENDER && L.Coherent(t.session) && t.session.phase == v.session.phase
            && t.session.scenario == v.session.scenario && t.session.console.connection != Disconnected
  {
    hide S.Apply, RoleName, Joined, L.Coherent;
    StepsAre(v.session, v.session.scenario);
    L.ClientStepsAreCoherent(v.session, S.Connect(FireControlConsole, SENDER));
  }

  /** The start is accepted; the session detects. */
  lemma BeginIs(v: Server, scenario: Scenario)
    requires v.console && v.consoleSender == SENDER && L.Coherent(v.session) && v.session.phase == Standby
    requires v.session.scenario.name == scenario.name && scenario.Valid() && v.session.console.connection != Disconnected
    ensures var t := OnRequest(v, Commanded(Begin(scenario).sender, Begin(scenario).command));
            t.console && t.session.phase == Detecting && L.Coherent(t.session)
  {
    hide S.Apply, S.StartScenario, L.Coherent, SendPending, Scenario.Valid, Scenario.Fault, L.Refused;
    var configured := Perform(v, S.Configure(scenario));
    StepsAre(v.session, scenario);
    L.SessionStepsAreCoherent(v.session, S.Configure(scenario));
    L.StartScenarioOutcome(configured.session);
    StepsAre(configured.session, scenario);
    var r := S.StartScenario(configured.session).1;
    ServerGrowth.SendPendingTouches(SendAck(Perform(configured, S.Start), Begin(scenario).sender, r.accepted, r.reason));
  }

  lemma HangupIs(v: Server)
    requires L.Coherent(v.session)
    ensures Hangup(v).session.phase == v.session.phase
  {
    hide S.Apply, L.Coherent;
    L.ClientStepsAreCoherent(v.session, S.Disconnect(FireControlConsole, CLOSED));
  }

  /** The talk is a join and then a start: after the join alone the session is in standby, after both it
      detects. */
  lemma TalkIs(options: Options, cfg: Config, scenario: Scenario)
    requires scenario.Valid()
    ensures var v := Fresh(options, cfg, scenario);
            && v.console
            && Hangup(Serve(v, Inputs([Join()]))).session.phase == Standby
            && Hangup(Serve(v, Inputs([Join(), Begin(scenario)]))).session.phase == Detecting
  {
    hide Handle, OnRequest, L.Coherent, Hangup, Join, Begin, Scenario.Valid, S.Apply;
    var v := Fresh(options, cfg, scenario);
    L.InitIsCoherent(cfg, scenario);
    assert v.session == S.Init(cfg, scenario);
    JoinIs(v);
    var t := OnRequest(v, Commanded(Join().sender, Join().command));
    BeginIs(t, scenario);
    HandledFrame(v, Commanded(Join().sender, Join().command));
    HandledFrame(t, Commanded(Begin(scenario).sender, Begin(scenario).command));
    var u := OnRequest(t, Commanded(Begin(scenario).sender, Begin(scenario).command));
    HangupIs(t);
    HangupIs(u);
    assert Inputs([Join()])[1..] == [];
    var both := Inputs([Join(), Begin(scenario)]);
    assert both[1..][0] == ConsoleFrame(Commanded(Begin(scenario).sender, Begin(scenario).command)) && both[1..][1..] == [];
    assert Serve(v, both) == Serve(t, both[1..]) == Serve(u, both[1..][1..]) == u;
  }

  /** A join, and then a start in the same turn as the close: the start is lost and the session stays in
      standby. Had it come one turn earlier, the session would be detecting. */
  lemma StartWithTheCloseIsLost(options: Options, cfg: Config, scenario: Scenario)
    requires scenario.Valid() && Sayable(Begin(scenario))
    ensures AllSayable([Join()]) && AllSayable([Begin(scenario)])
    ensures var v, join, start := Fresh(options, cfg, scenario), LineStream([Join()]), LineStream([Begin(scenario)]);
            && LineTurns(v, [Turn(join, false), Turn(start, true)]).server.session.phase == Standby
            && LineTurns(v, [Turn(join, false), Turn(start, false), Turn("", true)]).server.session.phase == Detecting
  {
    hide Fresh, Hangup, Serve, Scenario.Valid, Join, Begin, Sayable, LineStream, LineTurns, NextLine, LineRequest, Pass,
         Passes, Concat;
    JoinIsSayable();
    TalkIs(options, cfg, scenario);
    var v, talk := Fresh(options, cfg, scenario), [Join(), Begin(scenario)];
    var join, start := LineStream([Join()]), LineStream([Begin(scenario)]);
    TwoLines(Join(), Begin(scenario));
    TurnsAre(v, join, start);
    assert join + "" == join && (join + start) + "" == join + start && join + (start + "") == join + start;
    LineClosingIsServed(v, [Join()], "", [join], start);
    LineClosingIsServed(v, talk, "", [join, start], "");
  }

  lemma JoinIsSayable()
    ensures Sayable(Join())
  {
    hide RoleName;
  }

  lemma TwoLines(a: Said, b: Said)
    requires AllSayable([a]) && AllSayable([b])
    ensures AllSayable([a, b]) && LineStream([a, b]) == LineStream([a]) + LineStream([b])
  {
    hide Sayable, FrameFor, Line, EncodeJson;
    assert [a][0] == a && [b][0] == b;
    var both, first, second := Encodings(Frames([a, b])), Encodings(Frames([a])), Encodings(Frames([b]));
    assert both[0] == first[0] && both[1..] == second && first[1..] == [];
    assert Stream(Line, both) == Line(first[0]) + Stream(Line, second);
    assert Stream(Line, first) == Line(first[0]) + Stream(Line, []) == Line(first[0]) + "";
  }

  lemma OnePass<M>(next: string -> Parse<M>, request: M -> Option<Request>, link: Link, arrived: string)
    ensures Passes(next, request, link, [arrived]) == Pass(next, request, link, arrived, false)
  {
    hide Pass;
    assert [arrived][1..] == [];
    assert Passes(next, request, link, [arrived])
        == Passes(next, request, Pass(next, request, link, arrived, false), [arrived][1..]);
  }

  lemma TurnsAre(v: Server, join: string, start: string)
    ensures LineTurns(v, [Turn(join, false), Turn(start, true)])
         == Pass(NextLine, LineRequest, Passes(NextLine, LineRequest, Link(v, "", false), [join]), start, true)
    ensures LineTurns(v, [Turn(join, false), Turn(start, false), Turn("", true)])
         == Pass(NextLine, LineRequest, Passes(NextLine, LineRequest, Link(v, "", false), [join, start]), "", true)
    ensures Concat([join]) == join + "" && Concat([join, start]) == join + (start + "")
  {
    hide NextLine, LineRequest, Pass;
    var together, apart := [Turn(join, false), Turn(start, true)], [Turn(join, false), Turn(start, false), Turn("", true)];
    assert together[1..] == [Turn(start, true)] && together[1..][1..] == [];
    assert apart[1..] == [Turn(start, false), Turn("", true)];
    assert apart[1..][1..] == [Turn("", true)] && apart[1..][1..][1..] == [];
    var link := Link(v, "", false);
    var joined := Pass(NextLine, LineRequest, link, join, false);
    var begun := Pass(NextLine, LineRequest, joined, start, false);
    OnePass(NextLine, LineRequest, link, join);
    OnePass(NextLine, LineRequest, joined, start);
    assert [join, start][1..] == [start];
    assert Passes(NextLine, LineRequest, link, [join, start]) == Passes(NextLine, LineRequest, joined, [join, start][1..]);
    assert Concat([start]) == start + "" by { assert [start][1..] == []; }
    assert [join][1..] == [];
    assert Turns(NextLine, LineRequest, link, together) == Turns(NextLine, LineRequest, joined, together[1..]);
    assert Turns(NextLine, LineRequest, link, apart) == Turns(NextLine, LineRequest, begun, apart[1..][1..]);
  }
}
