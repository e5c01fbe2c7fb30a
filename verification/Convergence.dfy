/** The server, a network that loses, reorders and repeats datagrams, and a display: whatever
    happens, the display shows a picture the server really recorded, never an older one than before,
    and the newest datagram makes it agree with the server. */
module Convergence {
  import opened Text
  import opened Numerics
  import opened SessionTypes
  import opened Session
  import opened Names
  import opened Broadcast
  import opened LiveServer
  import opened Delivery
  import opened LiveRuns
  import opened Viewer
  import opened ServerGrowth
  import R = Recording
  import T = TrackRuns

  /** What a display shows of a recorded snapshot. */
  function Shown(x: Snapshot): Snapshot {
    x.(track := x.track.(ageTicks := NonNegative(ToSigned(x.track.ageTicks)),
                         missedUpdates := NonNegative(ToSigned(x.track.missedUpdates))),
       assessment := x.assessment.(summary := ""), displayConnection := Disconnected, telemetry := NO_TELEMETRY)
  }

  /** The part of the display's state that snapshot datagrams decide. */
  function Picture(v: View): Snapshot {
    v.snapshot.(displayConnection := Disconnected, telemetry := NO_TELEMETRY)
  }

  /** Sending and parsing lose nothing of what is shown. */
  lemma PictureIsCarried(x: Snapshot, shown: Snapshot)
    requires shown.assessment.summary == ""
    ensures PictureOf(shown, ToSnapshotPayload(x))
         == Shown(x).(displayConnection := shown.displayConnection, telemetry := shown.telemetry)
  {
    PhaseIsRead(x.phase);
    InterceptorIsRead(x.interceptorStatus);
    OrderIsRead(x.engageStatus);
    CodeIsRead(x.assessment.code);
    hide PhaseText, PhaseOf, InterceptorText, InterceptorOf, OrderText, OrderOf, CodeText, CodeOf, NonNegative, ToSigned;
  }

  // ---------------------------------------------------------------------------
  // The display against the history

  function Sequence(v: View): nat { v.snapshot.header.sequence }

  /** When the snapshot whose telemetry is shown was recorded. */
  function Stamp(v: View): int { v.snapshot.telemetry.lastSnapshotTimestampMs }

  function EventShown(v: View): (nat, string, string) { (v.eventTick, v.eventType, v.eventSummary) }

  /** The display shows nothing yet, or the one recorded snapshot of its number; its telemetry is
      that of one recorded snapshot. */
  ghost predicate ShowsHistory(v: View, history: seq<Snapshot>) {
    && v.snapshot.assessment.summary == ""
    && (v.receivedSnapshot ==> 1 <= Sequence(v) <= |history| && Picture(v) == Shown(history[Sequence(v) - 1]))
    && (v.receivedTelemetry ==> exists k :: 0 <= k < |history| && ShowsTelemetry(v, history[k]))
  }

  predicate ShowsTelemetry(v: View, x: Snapshot) {
    v.snapshot.telemetry == x.telemetry && v.snapshot.displayConnection == x.displayConnection
  }

  ghost predicate Enumerated(history: seq<Snapshot>) {
    forall i :: 0 <= i < |history| ==> history[i].header.sequence == i + 1
  }

  /** A snapshot datagram: an old one is dropped, a newer one becomes the picture. */
  lemma SnapshotIsAdopted(v: View, x: Snapshot)
    requires v.snapshot.assessment.summary == ""
    ensures var t := ApplySnapshot(v, ToSnapshotPayload(x));
            && (v.receivedSnapshot && x.header.sequence <= Sequence(v) ==> t == v)
            && (!v.receivedSnapshot || x.header.sequence > Sequence(v) ==>
                  && t.receivedSnapshot && Picture(t) == Shown(x) && Sequence(t) == x.header.sequence
                  && t.snapshot.assessment.summary == "" && t.receivedTelemetry == v.receivedTelemetry
                  && t.snapshot.telemetry == v.snapshot.telemetry
                  && t.snapshot.displayConnection == v.snapshot.displayConnection)
  {
    PictureIsCarried(x, v.snapshot);
    assert ToSnapshotPayload(x).header == x.header;
    assert Shown(x).header == x.header && Shown(x).assessment.summary == "";
    hide ToSnapshotPayload, PictureOf, Shown, ReviewAvailable, BeforeOrder, Extended, NoPanel;
  }

  /** A telemetry datagram replaces the telemetry unless it is from an older snapshot, or tells an older
      event of the same; it leaves the picture alone. */
  lemma TelemetryIsAdopted(v: View, q: TelemetryPayload, x: Snapshot)
    requires TellsOf(q, x)
    ensures var t := ApplyTelemetry(v, q);
            && Picture(t) == Picture(v) && t.receivedSnapshot == v.receivedSnapshot
            && t.snapshot.assessment.summary == v.snapshot.assessment.summary
            && var shown, sent := Stamp(v), q.sample.lastSnapshotTimestampMs;
            if v.receivedTelemetry && (sent < shown || (sent == shown && q.eventTick < v.eventTick)) then t == v
            else
              && t.receivedTelemetry && ShowsTelemetry(t, x)
              && EventShown(t) == if q.eventType == "none" then EventShown(v) else (q.eventTick, q.eventType, q.eventSummary)
  {
    ConnectionIsRead(x.displayConnection);
    TellingKeepsPicture(v.(snapshot := v.snapshot.(telemetry := q.sample, displayConnection := ConnectionOf(q.connection)),
                           receivedTelemetry := true, telemetryCount := v.telemetryCount + 1), q);
    hide ConnectionText, ConnectionOf, TellEvent;
  }

  lemma TellingKeepsPicture(v: View, q: TelemetryPayload)
    ensures var t := TellEvent(v, q);
            && t.snapshot == v.snapshot && t.receivedSnapshot == v.receivedSnapshot && t.receivedTelemetry == v.receivedTelemetry
            && EventShown(t) == if q.eventType == "none" then EventShown(v) else (q.eventTick, q.eventType, q.eventSummary)
  {
    hide EventLine;
  }

  function Receive(v: View, d: Datagram): View {
    match d
    case SnapshotGram(_, p) => ApplySnapshot(v, p)
    case TelemetryGram(_, q) => ApplyTelemetry(v, q)
    case HeartbeatAck(_, _, _, _, _) => v
  }

  /** Any genuine datagram, however late or often it comes, keeps the display on the history and
      never takes it back. */
  lemma ReceiveShowsHistory(v: View, d: Datagram, history: seq<Snapshot>)
    requires ShowsHistory(v, history) && Genuine(history, d) && Enumerated(history)
    ensures var t := Receive(v, d);
            && ShowsHistory(t, history)
            && (v.receivedSnapshot ==> t.receivedSnapshot && Sequence(v) <= Sequence(t))
  {
    hide ApplySnapshot, ApplyTelemetry, ToSnapshotPayload, Shown, TellsOf, ShowsTelemetry, StaleTelemetry;
    match d {
      case SnapshotGram(_, p) =>
        var k :| 0 <= k < |history| && p == ToSnapshotPayload(history[k]);
        SnapshotIsAdopted(v, history[k]);
        SameTelemetry(v, ApplySnapshot(v, p), history);
      case TelemetryGram(_, q) =>
        var k :| 0 <= k < |history| && TellsOf(q, history[k]);
        TelemetryIsAdopted(v, q, history[k]);
        assert Sequence(ApplyTelemetry(v, q)) == Picture(ApplyTelemetry(v, q)).header.sequence;
        assert Sequence(v) == Picture(v).header.sequence;
      case HeartbeatAck(_, _, _, _, _) =>
    }
  }

  lemma SameTelemetry(v: View, t: View, history: seq<Snapshot>)
    requires t.snapshot.telemetry == v.snapshot.telemetry && t.snapshot.displayConnection == v.snapshot.displayConnection
    ensures forall k :: 0 <= k < |history| && ShowsTelemetry(v, history[k]) ==> ShowsTelemetry(t, history[k])
  {
  }

  // ---------------------------------------------------------------------------
  // The whole system

  /** `net` holds every datagram ever sent: delivering any of them, at any time, any number of
      times, or never, covers loss, reordering and duplication. */
  datatype System = System(server: Server, net: set<Datagram>, view: View)

  datatype Transition = Input(input: LiveServer.Input) | Deliver(d: Datagram)

  function Next(w: System, h: Transition): System {
    match h
    case Input(input) => System(Handle(w.server, input), NetAfter(w.server, input, w.net), w.view)
    case Deliver(d) => if d in w.net then w.(view := Receive(w.view, d)) else w
  }

  function After(w: System, hs: seq<Transition>): System
    decreases |hs|
  {
    hide Next;
    if hs == [] then w else After(Next(w, hs[0]), hs[1..])
  }

  function Begin(options: Options, cfg: Config, scenario: Scenario): System {
    System(Launch(options, Init(cfg, scenario)), {}, NoView())
  }

  ghost predicate Converging(w: System) {
    Serving(w.server, w.net) && ShowsHistory(w.view, w.server.trace.history)
  }

  lemma BeginConverges(options: Options, cfg: Config, scenario: Scenario)
    requires cfg.Valid() && scenario.Valid()
    ensures Converging(Begin(options, cfg, scenario))
  {
    LaunchServes(options, cfg, scenario);
    hide Serving, Init, Config.Valid, Scenario.Valid, Shown;
  }

  lemma HistoryStaysShown(v: View, a: seq<Snapshot>, b: seq<Snapshot>)
    requires ShowsHistory(v, a) && a <= b
    ensures ShowsHistory(v, b)
  {
    hide Shown, ShowsTelemetry, Picture;
    assert forall k :: 0 <= k < |a| ==> a[k] == b[k];
  }

  lemma TransitionConverges(w: System, h: Transition)
    requires Converging(w)
    ensures Converging(Next(w, h))
    ensures w.server.trace.history <= Next(w, h).server.trace.history
    ensures w.view.receivedSnapshot ==>
              Next(w, h).view.receivedSnapshot && Sequence(w.view) <= Sequence(Next(w, h).view)
  {
    hide ShowsHistory, Handle, NetAfter, Serving, Receive, Genuine;
    var history := w.server.trace.history;
    ServingKnows(w.server, w.net);
    match h
    case Input(input) =>
      HandleServes(w.server, input, w.net);
      HandleGrows(w.server, input);
      HistoryStaysShown(w.view, history, Handle(w.server, input).trace.history);
    case Deliver(d) =>
      if d in w.net { ReceiveShowsHistory(w.view, d, history); }
  }

  // ---------------------------------------------------------------------------
  // Telemetry never goes back

  /** Telemetry is not replaced by any from an older snapshot, nor its event by an older one from the same. */
  predicate KeepsUp(v: View, t: View) {
    v.receivedTelemetry ==>
      t.receivedTelemetry && Stamp(v) <= Stamp(t) && (Stamp(v) == Stamp(t) ==> v.eventTick <= t.eventTick)
  }

  lemma ReceiveKeepsUp(v: View, d: Datagram)
    ensures KeepsUp(v, Receive(v, d))
    ensures d.TelemetryGram? ==>
              Receive(v, d).receivedTelemetry && d.telemetry.sample.lastSnapshotTimestampMs <= Stamp(Receive(v, d))
  {
    hide PictureOf, Moved, ReviewAvailable, BeforeOrder, NoPanel, EventLine, ConnectionOf, Extended;
    if d.SnapshotGram? { SnapshotKeepsTelemetry(v, d.snapshot); }
  }

  lemma SnapshotKeepsTelemetry(v: View, p: SnapshotPayload)
    ensures var t := ApplySnapshot(v, p);
            && t.receivedTelemetry == v.receivedTelemetry && t.eventTick == v.eventTick
            && t.snapshot.telemetry == v.snapshot.telemetry
  {
    hide PhaseOf, InterceptorOf, OrderOf, CodeOf, Moved, ReviewAvailable, BeforeOrder, NoPanel, Extended;
  }

  lemma {:induction false} RunKeepsUp(w: System, hs: seq<Transition>)
    ensures KeepsUp(w.view, After(w, hs).view)
    decreases |hs|
  {
    if hs != [] {
      if hs[0].Deliver? { ReceiveKeepsUp(w.view, hs[0].d); }
      hide Handle, NetAfter, Receive;
      RunKeepsUp(Next(w, hs[0]), hs[1..]);
    }
  }

  /** Whatever arrives, in whatever order: what is drawn agrees with the picture. */
  lemma {:induction false} DrawingFollowsPicture(w: System, hs: seq<Transition>)
    requires Drawn(w.view) && Grown(w.view.targetHistory) && Grown(w.view.interceptorHistory)
    ensures var v := After(w, hs).view; Drawn(v) && Grown(v.targetHistory) && Grown(v.interceptorHistory)
    decreases |hs|
  {
    if hs != [] {
      if hs[0].Deliver? && hs[0].d.SnapshotGram? { SnapshotIsDrawn(w.view, hs[0].d.snapshot); }
      if hs[0].Deliver? && hs[0].d.TelemetryGram? { TelemetryKeepsDrawing(w.view, hs[0].d.telemetry); }
      hide Handle, NetAfter, ApplySnapshot, ApplyTelemetry, Drawn, Grown;
      DrawingFollowsPicture(Next(w, hs[0]), hs[1..]);
    }
  }

  /** From the start on, over every run: the paths lead to the bodies that are shown, the track is drawn as
      the picture has it, the review is offered when there is one, and in standby nothing is drawn. */
  lemma DrawingIsConsistent(options: Options, cfg: Config, scenario: Scenario, hs: seq<Transition>)
    ensures Drawn(After(Begin(options, cfg, scenario), hs).view)
  {
    DrawingFollowsPicture(Begin(options, cfg, scenario), hs);
    hide After, Init;
  }

  lemma ServingKnows(v: Server, net: set<Datagram>)
    requires Serving(v, net)
    ensures Enumerated(v.trace.history) && forall d <- net :: Genuine(v.trace.history, d)
    ensures forall i :: 0 <= i < |v.trace.history| ==> T.Readable(v.trace.history[i].track, v.trace.history[i].phase)
  {
    hide Reachable, Genuine, T.Readable, NewestSent, Timed, QueuedInOrder;
  }

  lemma {:induction false} RunConverges(w: System, hs: seq<Transition>)
    requires Converging(w)
    ensures Converging(After(w, hs))
    ensures w.server.trace.history <= After(w, hs).server.trace.history
    ensures w.view.receivedSnapshot ==>
              After(w, hs).view.receivedSnapshot && Sequence(w.view) <= Sequence(After(w, hs).view)
    decreases |hs|
  {
    hide Converging, Next;
    if hs != [] {
      TransitionConverges(w, hs[0]);
      RunConverges(Next(w, hs[0]), hs[1..]);
    }
  }

  /** For every run: the display's picture is that of the one recorded snapshot with its number; it
      may only be replaced by a newer one, as may the telemetry, and what was recorded stays recorded. */
  lemma PictureIsGenuine(options: Options, cfg: Config, scenario: Scenario, before: seq<Transition>,
                         after: seq<Transition>)
    requires cfg.Valid() && scenario.Valid()
    ensures var w := After(Begin(options, cfg, scenario), before);
            var u := After(w, after);
            && (u.view.receivedSnapshot ==>
                  && 1 <= Sequence(u.view) <= |u.server.trace.history|
                  && Picture(u.view) == Shown(u.server.trace.history[Sequence(u.view) - 1])
                  && forall i :: 0 <= i < |u.server.trace.history| ==>
                       (u.server.trace.history[i].header.sequence == Sequence(u.view) <==> i == Sequence(u.view) - 1))
            && (w.view.receivedSnapshot ==> u.view.receivedSnapshot && Sequence(w.view) <= Sequence(u.view))
            && KeepsUp(w.view, u.view)
            && w.server.trace.history <= u.server.trace.history
  {
    hide After, Serving, Begin, Config.Valid, Scenario.Valid, Shown, Picture, ShowsTelemetry, T.Readable, KeepsUp;
    var start := Begin(options, cfg, scenario);
    BeginConverges(options, cfg, scenario);
    RunConverges(start, before);
    RunConverges(After(start, before), after);
    RunKeepsUp(After(start, before), after);
    ServingKnows(After(After(start, before), after).server, After(After(start, before), after).net);
  }

  /** An active track that is not archived is shown with its true age and miss counters: in no run do
      they outgrow what the payload carries. */
  lemma ActiveTrackIsShownExactly(options: Options, cfg: Config, scenario: Scenario, hs: seq<Transition>)
    requires cfg.Valid() && scenario.Valid()
    ensures var w := After(Begin(options, cfg, scenario), hs);
            w.view.receivedSnapshot ==>
              && 1 <= Sequence(w.view) <= |w.server.trace.history|
              && var x := w.server.trace.history[Sequence(w.view) - 1];
                 x.track.active && x.phase != Archived ==> w.view.snapshot.track == x.track
  {
    hide After, Begin, Config.Valid, Scenario.Valid, Converging;
    BeginConverges(options, cfg, scenario);
    RunConverges(Begin(options, cfg, scenario), hs);
    var w := After(Begin(options, cfg, scenario), hs);
    if w.view.receivedSnapshot { TrackIsShown(w); }
  }

  lemma TrackIsShown(w: System)
    requires Converging(w) && w.view.receivedSnapshot
    ensures 1 <= Sequence(w.view) <= |w.server.trace.history|
    ensures var x := w.server.trace.history[Sequence(w.view) - 1];
            x.track.active && x.phase != Archived ==> w.view.snapshot.track == x.track
  {
    hide Serving, Shown, ShowsTelemetry, T.Readable;
    var x := w.server.trace.history[Sequence(w.view) - 1];
    ServingKnows(w.server, w.net);
    assert w.view.snapshot.track == Picture(w.view).track == Shown(x).track;
    ReadableIsShown(x);
  }

  lemma ReadableIsShown(x: Snapshot)
    requires T.Readable(x.track, x.phase)
    ensures x.track.active && x.phase != Archived ==> Shown(x).track == x.track
  {
  }

  /** While a display is registered and there is anything to show, the newest snapshot is queued for
      it or already sent; and once it arrives the display agrees with the server, whatever came
      before. */
  lemma NewestDatagramConverges(w: System, d: Datagram)
    requires Converging(w) && w.server.viewer.Some? && w.server.session.log.snapshots != []
    requires d == SnapshotGram(w.server.viewer.value, ToSnapshotPayload(R.Last(w.server.session.log.snapshots)))
    ensures d in w.server.pending || d in w.net
    ensures var v := Receive(w.view, d);
            && v.receivedSnapshot && Sequence(v) == w.server.session.log.sequence
            && Picture(v) == Shown(R.Last(w.server.session.log.snapshots))
  {
    hide Shown, Picture, ToSnapshotPayload, ApplySnapshot, Reachable, Genuine, TracksAreReadable, Timed,
         QueuedInOrder, ShowsTelemetry;
    var x, history := R.Last(w.server.session.log.snapshots), w.server.trace.history;
    assert x == R.Last(history) && x.header.sequence == |history|;
    SnapshotIsAdopted(w.view, x);
  }

  /** `n` datagrams leave the queue. */
  function Sends(n: nat): seq<Transition> { seq(n, _ => Input(SendNext)) }

  lemma {:induction false} SendingEmptiesTheQueue(w: System)
    ensures var u := After(w, Sends(|w.server.pending|));
            && u.view == w.view && u.server == w.server.(pending := [])
            && u.net == w.net + (set d | d in w.server.pending)
    decreases |w.server.pending|
  {
    hide Next;
    var n := |w.server.pending|;
    if n == 0 {
      assert w.net + (set d | d in w.server.pending) == w.net;
    } else {
      var first := w.server.pending[0];
      var next := Next(w, Input(SendNext));
      SendOne(w);
      assert Sends(n)[0] == Input(SendNext) && Sends(n)[1..] == Sends(n - 1);
      SendingEmptiesTheQueue(next);
      assert w.server.pending == [first] + next.server.pending;
      assert (set d | d in w.server.pending) == {first} + (set d | d in next.server.pending);
    }
  }

  lemma SendOne(w: System)
    requires w.server.pending != []
    ensures Next(w, Input(SendNext)) == System(w.server.(pending := w.server.pending[1..]), w.net + {w.server.pending[0]}, w.view)
  {
    hide OnTick, OnArchive, OnDisconnect, TimeoutViewer, OnAccept, CloseConsole, OnRequest, OnJoin, OnHeartbeat;
  }

  /** The telemetry of the newest snapshot is shown once it has arrived, whatever came before. */
  lemma NewestTelemetryIsShown(w: System, q: TelemetryPayload)
    requires Converging(w) && w.server.trace.history != [] && TellsOf(q, R.Last(w.server.trace.history))
    ensures ShowsTelemetry(ApplyTelemetry(w.view, q), R.Last(w.server.trace.history))
  {
    hide Shown, Picture, Reachable, Genuine, TracksAreReadable, QueuedInOrder, ApplyTelemetry, NewestSent,
         NewestTold, ConnectionText;
    var history := w.server.trace.history;
    var x := R.Last(history);
    TelemetryIsAdopted(w.view, q, x);
    assert q.sample == x.telemetry;
    if w.view.receivedTelemetry {
      var k :| 0 <= k < |history| && ShowsTelemetry(w.view, history[k]);
      assert history[k].telemetry.lastSnapshotTimestampMs < x.telemetry.lastSnapshotTimestampMs || k == |history| - 1;
    }
  }

  /** The same for telemetry: a datagram with that of the newest snapshot is queued or already sent,
      and any such datagram makes the display show it. */
  lemma NewestTelemetryConverges(w: System)
    requires Converging(w) && w.server.viewer.Some? && w.server.session.log.snapshots != []
    ensures var x := R.Last(w.server.session.log.snapshots);
            exists d: Datagram :: Tells(d, w.server.viewer.value, x) && (d in w.server.pending || d in w.net)
    ensures var x := R.Last(w.server.session.log.snapshots);
            forall d: Datagram :: Tells(d, w.server.viewer.value, x) ==> ShowsTelemetry(Receive(w.view, d), x)
  {
    var x := R.Last(w.server.session.log.snapshots);
    NewestIsLast(w);
    forall d | Tells(d, w.server.viewer.value, x) ensures ShowsTelemetry(Receive(w.view, d), x) {
      NewestTelemetryIsShown(w, d.telemetry);
    }
    hide Reachable, Genuine, TracksAreReadable, Timed, QueuedInOrder, ShowsTelemetry, ShowsHistory, Receive, TellsOf;
  }

  lemma NewestIsLast(w: System)
    requires Converging(w) && w.server.session.log.snapshots != []
    ensures w.server.trace.history != []
    ensures R.Last(w.server.trace.history) == R.Last(w.server.session.log.snapshots)
  {
    hide Reachable, Genuine, TracksAreReadable, Timed, QueuedInOrder, ShowsHistory;
  }

  /** The display agrees with the server: it shows the newest snapshot and its telemetry. */
  ghost predicate Agrees(w: System) {
    && w.server.session.log.snapshots != [] && w.view.receivedSnapshot
    && var x := R.Last(w.server.session.log.snapshots);
    && Sequence(w.view) == w.server.session.log.sequence && Picture(w.view) == Shown(x) && ShowsTelemetry(w.view, x)
  }

  /** Sending the queue and then delivering the two datagrams makes them agree. */
  ghost predicate CatchesUp(w: System, d: Datagram, e: Datagram) {
    var u := After(w, Sends(|w.server.pending|) + [Deliver(d), Deliver(e)]);
    u.server.session == w.server.session && Agrees(u)
  }

  lemma DisplayCatchesUp(w: System)
    requires Converging(w) && w.server.viewer.Some? && w.server.session.log.snapshots != []
    ensures exists d: Datagram, e: Datagram :: CatchesUp(w, d, e)
  {
    hide Converging, Shown, Picture, ToSnapshotPayload, Receive, ShowsTelemetry, Tells;
    var x, sends := R.Last(w.server.session.log.snapshots), Sends(|w.server.pending|);
    var d := SnapshotGram(w.server.viewer.value, ToSnapshotPayload(x));
    SendingEmptiesTheQueue(w);
    RunConverges(w, sends);
    var u := After(w, sends);
    NewestDatagramConverges(w, d);
    TransitionConverges(u, Deliver(d));
    var t := Next(u, Deliver(d));
    NewestTelemetryConverges(t);
    var e :| Tells(e, t.server.viewer.value, x) && (e in t.server.pending || e in t.net);
    TelemetryKeepsPicture(t.view, e, t.server.viewer.value, x);
    AfterAppend(w, sends, [Deliver(d), Deliver(e)]);
    TwoTransitions(u, Deliver(d), Deliver(e));
    assert CatchesUp(w, d, e);
  }

  lemma TelemetryKeepsPicture(v: View, d: Datagram, viewer: Endpoint, x: Snapshot)
    requires Tells(d, viewer, x)
    ensures var t := Receive(v, d);
            Picture(t) == Picture(v) && Sequence(t) == Sequence(v) && t.receivedSnapshot == v.receivedSnapshot
  {
    hide ApplyTelemetry, TellsOf, StaleTelemetry, ShowsTelemetry;
    TelemetryIsAdopted(v, d.telemetry, x);
    assert Sequence(v) == Picture(v).header.sequence;
    assert Sequence(Receive(v, d)) == Picture(Receive(v, d)).header.sequence;
  }

  /** From every reachable situation with a registered display, sending the queue and delivering the
      newest snapshot and its telemetry brings display and server to agree. */
  lemma DisplayCanAlwaysCatchUp(options: Options, cfg: Config, scenario: Scenario, hs: seq<Transition>)
    requires cfg.Valid() && scenario.Valid()
    requires var w := After(Begin(options, cfg, scenario), hs);
             w.server.viewer.Some? && w.server.session.log.snapshots != []
    ensures var w := After(Begin(options, cfg, scenario), hs);
            exists d: Datagram, e: Datagram :: CatchesUp(w, d, e)
  {
    hide Converging, After, Begin, CatchesUp, Config.Valid, Scenario.Valid;
    BeginConverges(options, cfg, scenario);
    RunConverges(Begin(options, cfg, scenario), hs);
    DisplayCatchesUp(After(Begin(options, cfg, scenario), hs));
  }

  lemma TwoTransitions(w: System, g: Transition, h: Transition)
    ensures After(w, [g, h]) == Next(Next(w, g), h)
  {
    hide Next;
    assert After(w, [g, h]) == After(Next(w, g), [g, h][1..]) == After(Next(Next(w, g), h), [g, h][1..][1..]);
  }

  lemma {:induction false} AfterAppend(w: System, a: seq<Transition>, b: seq<Transition>)
    ensures After(w, a + b) == After(After(w, a), b)
    decreases |a|
  {
    hide Next;
    if a == [] {
      assert a + b == b;
    } else {
      assert (a + b)[0] == a[0] && (a + b)[1..] == a[1..] + b;
      AfterAppend(Next(w, a[0]), a[1..], b);
    }
  }
}
