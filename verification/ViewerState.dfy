/** The display's state as an object. */
module ViewerState {
  import opened Numerics
  import opened SessionTypes
  import opened Names
  import opened Broadcast
  import opened Viewer
  import opened ViewerControl

  class ViewerState {
    var snapshot: Snapshot
    var receivedSnapshot: bool
    var receivedTelemetry: bool
    var snapshotCount: nat
    var telemetryCount: nat
    var trackShown: bool
    var targetHistory: seq<Vec>
    var interceptorHistory: seq<Vec>
    var eventTick: nat
    var eventType: string
    var eventSummary: string
    var timeline: seq<string>
    var scrollLines: nat
    var panel: Panel
    var control: Control

    ghost function Value(): View
      reads this
    {
      View(snapshot, receivedSnapshot, receivedTelemetry, snapshotCount, telemetryCount, trackShown, targetHistory,
           interceptorHistory, eventTick, eventType, eventSummary, timeline, scrollLines, panel, control)
    }

    constructor ()
      ensures Value() == NoView()
    {
      snapshot, receivedSnapshot, receivedTelemetry := NO_SNAPSHOT, false, false;
      snapshotCount, telemetryCount, trackShown := 0, 0, false;
      targetHistory, interceptorHistory := [], [];
      eventTick, eventType, eventSummary := 0, "none", "no server event";
      timeline, scrollLines, panel, control := [], 0, NoPanel(), NoControl();
    }

    method ExtendPath(path: seq<Vec>, at: Vec) returns (longer: seq<Vec>)
      ensures longer == Extended(path, at)
    {
      hide Moved;
      longer := path;
      if path == [] || Moved(path[|path| - 1], at) {
        longer := longer + [at];
        ghost var all := longer;
        while |longer| > MAX_HISTORY
          invariant |longer| <= |all| && longer == all[|all| - |longer|..]
          invariant |longer| >= MAX_HISTORY || longer == all
        {
          longer := longer[1..];
        }
      }
    }

    method SetPicture(x: Snapshot)
      modifies this
      ensures Value() == ShowPicture(old(Value()), x)
    {
      hide BeforeOrder;
      snapshot := x;
      receivedSnapshot := true;
      snapshotCount := snapshotCount + 1;
      if BeforeOrder(snapshot.phase) {
        trackShown := snapshot.track.active;
      }
    }

    method SetPanel()
      modifies this`panel, this`scrollLines
      ensures Value() == RefreshPanel(old(Value()))
    {
      hide NoPanel, ReviewAvailable;
      panel := panel.(available := ReviewAvailable(snapshot));
      if !panel.available {
        panel := NoPanel();
        scrollLines := 0;
      }
    }

    method AddPathPoints()
      modifies this`targetHistory, this`interceptorHistory
      ensures Value() == ExtendPaths(old(Value()))
    {
      hide Extended, Moved;
      targetHistory := ExtendPath(targetHistory, snapshot.targetWorld);
      interceptorHistory := ExtendPath(interceptorHistory, snapshot.interceptorWorld);
    }

    method ApplySnapshot(p: SnapshotPayload)
      modifies this
      ensures Value() == Viewer.ApplySnapshot(old(Value()), p)
    {
      hide PictureOf, ShowPicture, RefreshPanel, ExtendPaths;
      if receivedSnapshot && p.header.sequence <= snapshot.header.sequence {
        return;
      }
      SetPicture(PictureOf(snapshot, p));
      SetPanel();
      AddPathPoints();
      if snapshot.phase == Standby {
        trackShown := false;
        targetHistory, interceptorHistory := [], [];
      }
    }

    method PushTimelineEntry(message: string)
      modifies this`timeline, this`scrollLines
      ensures Value() == PushTimeline(old(Value()), message)
    {
      if timeline != [] && timeline[0] == message {
        return;
      }
      if scrollLines > 0 {
        scrollLines := scrollLines + 1;
      }
      ghost var longer, scrolled := [message] + timeline, scrollLines;
      timeline := [message] + timeline;
      while |timeline| > MAX_TIMELINE
        invariant timeline <= longer && (|timeline| >= MAX_TIMELINE || timeline == longer)
        invariant scrollLines == scrolled
      {
        timeline := timeline[..|timeline| - 1];
      }
      assert timeline == longer[..|timeline|] && (|timeline| == |longer| ==> timeline == longer);
    }

    method TellServerEvent(q: TelemetryPayload)
      modifies this`eventTick, this`eventType, this`eventSummary, this`timeline, this`scrollLines
      ensures Value() == TellEvent(old(Value()), q)
    {
      hide PushTimeline, EventLine;
      if q.eventType != "none"
         && (q.eventTick != eventTick || q.eventType != eventType || q.eventSummary != eventSummary) {
        eventTick, eventType, eventSummary := q.eventTick, q.eventType, q.eventSummary;
        PushTimelineEntry(EventLine(q));
      }
    }

    method ApplyTelemetry(q: TelemetryPayload)
      modifies this
      ensures Value() == Viewer.ApplyTelemetry(old(Value()), q)
    {
      hide TellEvent, ConnectionOf;
      if receivedTelemetry {
        var shown := snapshot.telemetry.lastSnapshotTimestampMs;
        if q.sample.lastSnapshotTimestampMs < shown {
          return;
        }
        if q.sample.lastSnapshotTimestampMs == shown && q.eventTick < eventTick {
          return;
        }
      }
      snapshot := snapshot.(telemetry := q.sample, displayConnection := ConnectionOf(q.connection));
      receivedTelemetry := true;
      telemetryCount := telemetryCount + 1;
      TellServerEvent(q);
    }

    method BeginRun()
      modifies this`snapshot, this`trackShown, this`targetHistory, this`interceptorHistory
      ensures Value() == Begun(old(Value()))
    {
      snapshot := snapshot.(phase := Detecting, target := snapshot.target.(active := true), engageStatus := NoOrder,
                            interceptorStatus := Idle, interceptorVelocity := ORIGIN, interceptorHeadingDeg := 0.0);
      trackShown := false;
      targetHistory, interceptorHistory := [], [];
    }

    method ToggleTrack()
      modifies this`snapshot, this`trackShown
      ensures Value() == Toggled(old(Value()))
    {
      if !snapshot.track.active {
        var phase := if snapshot.phase == Detecting then Tracking else snapshot.phase;
        snapshot := snapshot.(phase := phase, track := snapshot.track.(active := true));
        trackShown := true;
      } else {
        var phase := if snapshot.phase == Tracking then Detecting else snapshot.phase;
        snapshot := snapshot.(phase := phase, track := NO_TRACK);
        trackShown := false;
      }
    }

    /** The edits of an accepted command. */
    method EditAfterAck(b: Button, m: Math)
      modifies this
      ensures Value() == Edited(old(Value()), b, m)
    {
      hide Math.LaunchAt, Begun, Toggled;
      panel := panel.(visible := false);
      match b {
        case StartButton =>
          BeginRun();
        case ReadyButton =>
          snapshot := snapshot.(phase := InterceptorReady, interceptor := snapshot.interceptor.(active := true),
                                interceptorStatus := Ready);
        case TrackButton =>
          ToggleTrack();
        case EngageButton =>
          snapshot := snapshot.(phase := EngageOrdered, engageStatus := Accepted, interceptorStatus := Ready,
                                interceptorVelocity := m.LaunchAt(snapshot.launchAngleDeg, snapshot.interceptorSpeed),
                                interceptorHeadingDeg := snapshot.launchAngleDeg);
      }
    }

    /** The answer to a command is shown and told; an accepted one is followed by the edits. */
    method TakeAck(b: Button, m: Math, accepted: bool, reason: string)
      modifies this
      ensures Value() == Acknowledged(old(Value()), b, m, accepted, reason)
    {
      hide Edited, PushTimeline, ControlLine, Label;
      var name := Label(b, snapshot);
      control := Control(accepted, name, reason);
      PushTimelineEntry(ControlLine(name, accepted, reason));
      if accepted {
        EditAfterAck(b, m);
      }
    }

    /** The answer to a start: the scenario that was sent is previewed if it was accepted. */
    method TakeStartAck(scenario: Scenario, m: Math, accepted: bool, reason: string)
      modifies this
      ensures Value() == StartAcknowledged(old(Value()), scenario, m, accepted, reason)
    {
      hide Acknowledged, PushTimeline, StartLine, Previewed;
      TakeAck(StartButton, m, accepted, reason);
      if accepted {
        snapshot := Previewed(snapshot, scenario, m);
        PushTimelineEntry(StartLine(scenario));
      }
    }
  }
}
