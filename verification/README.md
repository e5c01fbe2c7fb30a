# A verified model of the intercept control simulation

This project models the authoritative simulation session, the live transport around it, the wire and artifact
formats, and the tactical display, and proves what holds of them in every run. `dafny verify dfyconfig.toml`
checks all of it.

## How it is organised

Where the program changes objects step by step, a class with the same fields and methods is proved to compute
functions on plain values, and everything else is proved about those functions.

- **Session.** `SessionTypes`, `Messages`, `Numerics`, `Tracker` hold the entities, the texts, the vector arithmetic and
  the tracker. `Session` gives every public operation as a function on the session's state and a run as a list of
  operations in any order. `SimulationSession` is the class. `Lifecycle`, `Recording`, `TrackRuns`, `Kinematics` and
  `EventSourcing` (with `TrackText`) prove the invariants and the properties of whole runs. `Guidance`, `Homing` and `Passing` (over
  `Vectors`) are where the interceptor flies, `Estimation` where the track estimate lies, `Sights` what seeker and
  snapshots say about the aim, `Resilience` what the log tells of exercises and refusals, and `Attribution` whom it names. `SampleRun` and
  `InProcessTransport` are the two sample drivers, the latter with the transport it goes through.
- **Formats.** `Reassembly`, `FrameCodec`, `JsonFrame` and `TcpInput` are the framed byte stream; `FieldCodec`, `Names`,
  `Payloads`, `PayloadKeys` and `PayloadLaws` the payloads; `ConsoleMessages` and `DatagramText` what is said in them,
  as records; `MiniJson`, `JsonLayout`, `Timeline`, `TimelineWriter` and
  `SessionArtifact` the JSON reader and the timeline file.
- **Delivery.** `Broadcast`, `ReplayCursor` and `LiveServer` give the server side of the live transport as functions,
  `SocketLiveTransport` is the class, and `Delivery`, `ServerGrowth`, `LiveRuns` and `DeliveryModes` prove the delivery
  laws over every sequence of inputs. `Decisions` is what each command makes of the session, `Presence` when a display
  is dropped. `Answers` is what the console hears, `ConsoleLink` leads from the bytes of its
  connection to the server, and `ConsoleTurns` follows them to the end of the connection (`LostStart` is a run of it).
- **Display.** `Viewer`, `ViewerState` (the class) and `ViewerControl` are the display, `LinkDelay` its delay estimate, and
  `Convergence` puts server, network and display together.

## What the model takes as given

- Real numbers stand for floating-point numbers. `sqrt`, `sin`, `cos` and `atan2` are a parameter of the configuration
  (`Math`) with three laws: a length is non-negative and squares to the sum of squares, a launch direction has squared
  norm one, and `atan2` is the angle whose cosine and sine, times the length, are the vector.
- Times that come from clocks, endpoints of datagrams, and the moments at which datagrams arrive are inputs, and the
  theorems are for all of them.
- A scenario is configured only in standby and only when it passes the configuration check, as the live transport
  ensures (common/src/transport_socket_live.cpp:514-547).
- The network is the set of all datagrams ever sent; any of them may arrive at any time, any number of times, or never.
  Datagrams that the server never sent do not arrive.

## Findings

- The scenario documents promise that out-of-order commands are rejected (docs/scenario.md:37-42). They are, but a
  command refused by the session while an engagement is under way also overwrites the order status, and the engagement
  is then never assessed (`Lifecycle.RefusalBlocksAssessment`, with a concrete run in
  `Lifecycle.RepeatedTrackRequestBlocksAssessment`). `Lifecycle.EngagementIsAssessedInTime` gives the exact condition.
  A refusal by the transport does not have this effect (`Lifecycle.ClientStepsAreCoherent`).
- Several refusals inside the session can never happen (`Lifecycle.ReleaseTrackOutcome`,
  `Lifecycle.ActivateAssetOutcome`, `Lifecycle.IssueCommandOutcome`), nor can the branch of the delivery that clears the
  queue and skips to the newest snapshot (`Delivery.SendPendingOutcome`, `LiveRuns.RegisteredDisplayHasNoBacklog`).
- A tracked target at rest is intercepted when the interceptor flies less than the diameter of the intercept radius in a
  tick and has room and time to turn (`Homing.RestingTargetIsIntercepted`, `Homing.FarTargetIsInReach`). One that flies
  farther in a tick can pass it, and time out with ticks to spare for the distance: `Passing.FastInterceptorPasses`.
- The speed cap after the steering never acts (`Guidance.SpeedCapIsIdle`): a step towards a velocity of full speed does not
  leave the circle of that speed.
- Commands that arrive in the same turn of the receive loop as the end of the connection are dropped unread, because
  the buffer is cleared before it is decoded (common/src/transport_socket_live.cpp:432-435). In the run of
  `LostStart.StartWithTheCloseIsLost` a start is lost. `ConsoleTurns.BinaryTalkIsAnsweredExactlyIf` and
  `ConsoleTurns.LineTalkIsAnsweredExactlyIf` give the exact condition: every command is answered if and only if the last
  byte has come before the closing turn and no command follows a leave. What is obeyed, and that nothing else has an
  effect, is `ConsoleTurns.BinaryTurnsAreServed` and `ConsoleTurns.LineTurnsAreServed`.

## Model

| member | source | states |
|---|---|---|
| `Lifecycle.EngagementIsAssessedInTime` | common/src/simulation.cpp:76-112 | for every run without archive or reset: once `engagement_timeout_ticks` ticks have passed since an engage order the engagement is assessed, and archived a tick later, if and only if no command was issued while it was under way; otherwise it is still under way with its order rejected |
| `Lifecycle.RefusalBlocksAssessment` | common/src/simulation_state.cpp:136-150 | an engagement whose order status was overwritten by a refusal keeps its phase and is never assessed, over any run without archive or reset |
| `Lifecycle.RepeatedTrackRequestBlocksAssessment` | common/src/simulation_commands.cpp:65-105 | a concrete run that shows it: asking for a track right after the engage order, then any number of ticks |
| `Lifecycle.ReachableIsCoherent` | common/src/simulation.cpp:11-126 | every reachable state ties phase, interceptor status, order status, assessment, track, entities and engagement timer together: an assessment is ready only when assessed or archived, with a terminal code; success means target and track inactive and no velocity |
| `Lifecycle.StartScenarioOutcome` | common/src/simulation_commands.cpp:7-29 | starting is accepted exactly in standby with a console that is not disconnected; a refusal changes only log, order status and assessment |
| `Lifecycle.RequestTrackOutcome` | common/src/simulation_commands.cpp:65-105 | a track request is accepted exactly while detecting, or for a ready interceptor without a track |
| `Lifecycle.ReleaseTrackOutcome` | common/src/simulation_commands.cpp:107-152 | a release is accepted exactly while tracking, or for a ready interceptor with a track: the refusal for a missing track while tracking is unreachable |
| `Lifecycle.ActivateAssetOutcome` | common/src/simulation_commands.cpp:154-175 | activation is accepted exactly while tracking: the refusal for a missing track is unreachable |
| `Lifecycle.IssueCommandOutcome` | common/src/simulation_commands.cpp:177-207 | an engage order is accepted exactly when the interceptor is ready: the second refusal is unreachable |
| `Lifecycle.AssessmentOutcomes` | common/src/simulation.cpp:76-112 | an assessment happens only to an executing, intercepting engagement, is a success exactly within the intercept radius, and is due at the timeout |
| `Lifecycle.ClientStepsAreCoherent` | common/src/simulation_commands.cpp:209-218 | client changes and refusals by the transport leave phase, tick, scenario and the whole engagement alone |
| `SampleRun.DriveSampleSessionSequence` | common/src/runtime.cpp:118-146 | on a fresh session with any valid scenario, tracked or unguided, no command of the sample run is refused and it ends assessed |
| `SampleRun.PrepareEngagement` | common/src/runtime.cpp:121-141 | the commands before the engage order are all accepted and end with a ready interceptor |
| `SampleRun.LatestSnapshot` | common/src/simulation_state.cpp:164-169 | the newest snapshot, or an error exactly when none is recorded |
| `InProcessTransport.DriveSampleTransportSequence` | common/src/runtime.cpp:87-116 | the sample run over the in-process transport: for every valid scenario, tracked or unguided, neither the transport nor the session refuses a command, and it ends assessed |
| `InProcessTransport.PrepareTransport` | common/src/runtime.cpp:88-109 | its commands up to the engage order, sent as payloads with their senders and sequence numbers, are all accepted |
| `InProcessTransport.DispatchOutcome` | common/src/transport_inprocess.cpp:53-100 | a command from a wrong sender or about other entities is refused and touches no phase, engagement, track or world; every other command is decided by the session, with acceptance, new phase, track and effect as the table of `Decisions` gives them |
| `InProcessTransport.InProcessTransport.Dispatch` | common/src/transport_inprocess.cpp:53-100 | new session state and answer: sender check under the summary of the command, entity check, decision |
| `InProcessTransport.InProcessTransport.ValidateEnvelope` | common/src/transport_inprocess.cpp:151-166 | the three refusals of a sender in their order, each logged with its reason; otherwise nothing changes |
| `InProcessTransport.InProcessTransport.ConnectClient` | common/src/transport_inprocess.cpp:28-35 | the sender of the role is kept and the session hears of the connection |
| `InProcessTransport.InProcessTransport.DisconnectClient` | common/src/transport_inprocess.cpp:37-44 | the sender of the role is forgotten and the session hears of it |
| `SimulationSession.SimulationSession.AdvanceTick` | common/src/simulation.cpp:11-126 | the object moves to the state the tick function gives: motion, tracker, guidance, seeker, assessment, packet gap and snapshot, or the archive after an assessment |
| `SimulationSession.SimulationSession.MoveTarget` | common/src/simulation.cpp:20-25 | the target moves and bounces on both axes if it is active |
| `SimulationSession.SimulationSession.FlyInterceptor` | common/src/simulation.cpp:31-59 | order pickup, steering, speed cap and confinement of the interceptor |
| `SimulationSession.SimulationSession.SteeredVelocity` | common/src/simulation.cpp:39-49 | the new velocity is the one of which `Guidance.SteersToTheIntercept` says where it leads and how fast it gets there |
| `SimulationSession.SimulationSession.PointSeeker` | common/src/simulation.cpp:61-74 | seeker lock and off-boresight angle |
| `SimulationSession.SimulationSession.AssessEngagement` | common/src/simulation.cpp:76-112 | success within the radius, timeout otherwise when due, with the whole new engagement state |
| `SimulationSession.SimulationSession.StartScenario` | common/src/simulation_commands.cpp:7-29 | new state and answer are those of the session function that `Lifecycle.StartScenarioOutcome` is about; both refusals first |
| `SimulationSession.SimulationSession.ConfigureScenario` | common/src/simulation_commands.cpp:31-39 | the new state has the scenario, its starting world, no track and no engagement, and the same phase and log |
| `SimulationSession.SimulationSession.ResetSession` | common/src/simulation_commands.cpp:41-63 | the new state is standby at tick 0 with an empty event log and one snapshot; clock and sequence number go on |
| `SimulationSession.SimulationSession.RequestTrack` | common/src/simulation_commands.cpp:65-105 | new state and answer for all phases, with the seeded tracker and the entity ids of each refusal |
| `SimulationSession.SimulationSession.ReleaseTrack` | common/src/simulation_commands.cpp:107-152 | new state and answer for all phases, with the cleared tracker and the entity ids of each refusal |
| `SimulationSession.SimulationSession.ActivateAsset` | common/src/simulation_commands.cpp:154-175 | new state and answer, with the armed interceptor |
| `SimulationSession.SimulationSession.IssueCommand` | common/src/simulation_commands.cpp:177-207 | new state and answer, with the launch velocity, the engagement clock and the event text that tells the track flag |
| `SimulationSession.SimulationSession.RecordTransportRejection` | common/src/simulation_commands.cpp:209-218 | only the log and the clock change |
| `SimulationSession.SimulationSession.ArchiveSession` | common/src/simulation_commands.cpp:220-231 | archives once; a second call changes nothing |
| `SimulationSession.SimulationSession.RejectCommand` | common/src/simulation_state.cpp:136-150 | the order status and assessment are overwritten unless an assessment is ready |
| `SimulationSession.SimulationSession.PushEvent` | common/src/simulation_state.cpp:115-134 | one event, one clock interval |
| `SimulationSession.SimulationSession.RecordSnapshot` | common/src/simulation_snapshot.cpp:25-89 | one snapshot of the whole state, one sequence number, one clock interval; a reconnected display is connected afterwards |
| `SimulationSession.SimulationSession.ConnectClient` | common/src/simulation_clients.cpp:5-30 | the client is connected, or reconnected when it was known, with one or two events; the resilience flag is set on a reconnection |
| `SimulationSession.SimulationSession.DisconnectClient` | common/src/simulation_clients.cpp:32-40 | disconnection with its event |
| `SimulationSession.SimulationSession.TimeoutClient` | common/src/simulation_clients.cpp:42-52 | timeout with its event and snapshot |
| `SimulationSession.SimulationSession.UpdateTrackState` | common/src/simulation_state.cpp:58-102 | predict, correct on a visible measurement, publish; where that leaves the estimate is `Estimation.FreshMeasurementPullsTrack` |
| `SimulationSession.SimulationSession.SeedTrackStateFromTarget` | common/src/simulation_state.cpp:38-56 | the tracker starts from the target and its first noisy measurement |
| `EventSourcing.EventsReconstructTheSession` | common/src/simulation_commands.cpp:7-231 | in every reachable state, replaying the events since the last reset gives the phase (order and interception taken together) and the track flag; the milestones started, interceptor updated, order accepted, assessed come in this order, each at most once, possibly closed by one end; the launch event tells the track flag |
| `EventSourcing.RunIsTelling` | common/src/simulation_commands.cpp:7-231 | every run keeps that, step by step |
| `EventSourcing.ArtifactTrackState` | common/src/simulation_summary.cpp:37-45 | the track state the artifacts print, recovered from event texts alone, is the real flag until an interception, and from the launch on the flag every snapshot of the flight shows |
| `TrackText.ArtifactTrackActive` | common/src/simulation_summary.cpp:37-45 | the scan from the newest event stops at the first one that tells a track; the snapshot decides when none does |
| `TrackText.EstablishedIsTold` | common/src/simulation_summary.cpp:18-35 | the text written when a track is established reads as active |
| `TrackText.DropIsTold` | common/src/simulation_summary.cpp:18-35 | the text written when a track is dropped reads as inactive |
| `TrackText.LaunchIsTold` | common/src/simulation_summary.cpp:18-35 | the text written at launch reads as whether there was a track, for every launch angle |
| `Text.PatternIsInsideAWord` | common/src/simulation_summary.cpp:18-35 | a search pattern without spaces is only ever found inside one word of a text |
| `Recording.ClockAndSequenceAreConserved` | common/src/simulation_state.cpp:115-134 | over any run with resets, the clock is its start plus the interval times all events and snapshots ever recorded, and the sequence number counts the snapshots |
| `Recording.ReachableObeysLogLaws` | common/src/simulation_snapshot.cpp:25-89 | in every reachable state retained snapshots are numbered consecutively up to the present number, stamps strictly increase and fill every clock slot, ticks do not decrease, the newest snapshot shows the present phase, track and interceptor, and no two neighbouring snapshots show a reconnection without one between them |
| `Recording.StepRecords` | common/src/simulation_snapshot.cpp:25-89 | every operation appends at most two events and then at most one snapshot, each one interval after the record before it, and the snapshot pictures the new state |
| `Recording.StepIsOrderly` | common/src/simulation_snapshot.cpp:25-55 | order, numbering and gaplessness are kept by every operation, resets included |
| `Recording.NewestStaysCurrent` | common/src/simulation_snapshot.cpp:25-55 | no operation leaves the newest snapshot behind the phase, track or interceptor state |
| `Recording.ReconnectShownOnceStep` | common/src/simulation_snapshot.cpp:84-88 | no operation makes a reconnection show twice |
| `Resilience.ReachableFlagsAreTrue` | common/src/simulation_clients.cpp:5-52 | in every reachable state each of the three exercise flags is set if and only if the log since the last reset tells of the exercise, and the packet gap is told only at tick 2 |
| `Resilience.GapComesWithSecondTick` | common/src/simulation.cpp:114-125 | a tick shows a packet loss of 25 in its snapshot exactly if it is the second one, and does not archive |
| `Resilience.RefusalsTellTheirReason` | common/src/simulation_state.cpp:136-150 | the reason of a refusal is the same in the answer, the event log and, unless assessed, the assessment |
| `Resilience.ClientsFollowTheirSteps` | common/src/simulation_clients.cpp:5-52 | only steps of its own role move a client, to reconnected if it was known and to connected otherwise, disconnected or timed out; a reconnection is over for the display exactly when a snapshot is recorded and for both at a reset; nothing else moves it |
| `Attribution.ReachableIsAttributed` | common/src/simulation_commands.cpp:7-231 | in every reachable state every event of the log names its source and its entities: commands the console, clients themselves, everything else the server, with the target, the interceptor, both in their order, or neither by the type of the event |
| `TrackRuns.ReachableTracksAreBounded` | common/src/simulation_state.cpp:58-102 | in every reachable state an active track has equal positive variances on both axes; before the archive they keep the bounds of the measurement schedule, the file is at most 5 ticks old, has missed at most one measurement and its covariance trace is positive and below 447, in the state and in every retained snapshot; of an archived track the velocity variance will be at most 35 when the next measurement comes |
| `TrackRuns.FreshMeasurementSharpensTrack` | common/src/simulation_state.cpp:70-84 | from every reachable state with an active track, archived sessions included, a tick that takes a fresh measurement leaves a position variance below 25 and a velocity variance of at most 26 on both axes, an age of 0 and nothing missed, and its gains lie strictly between 0 and 1; only the tick that archives an assessed session takes none |
| `Tracker.UpdateKeepsBounds` | common/src/simulation_state.cpp:58-102 | one update keeps the variance bounds: below 25 and at most 26 right after a measurement, growing on schedule between |
| `Estimation.FreshMeasurementPullsTrack` | common/src/simulation_state.cpp:58-102 | in every reachable state a tick with a measurement leaves each coordinate of the published estimate between prediction and measurement, strictly closer to it when they differ, changes the velocity in the direction of the residual by less than it, and leaves the estimate no farther from the target on either axis than the prediction was or the noise can be |
| `Estimation.CorrectionPulls` | common/src/simulation_state.cpp:70-87 | the same of the filter alone, for any positive variances |
| `Estimation.CorrectionIsWeightedMean` | common/src/simulation_state.cpp:74-87 | the corrected estimate is the mean of prediction and measurement, each weighted by the variance of the other, and the corrected variance is that of the two combined; the velocity likewise with four times the noise |
| `Estimation.CoastingInClosedForm` | common/src/simulation_state.cpp:59-63 | any number of ticks without a measurement move the estimate in a straight line, let the velocity variance grow linearly and the position variance with its sum |
| `Estimation.CalmSessionTracksExactly` | common/src/simulation_state.cpp:38-102 | over every run in which the target meets no wall and no measurement is noisy, an active track is exactly at the target with its velocity, through all commands, skipped and missed measurements |
| `Estimation.CalmRunIsExact` | common/src/simulation_state.cpp:58-102 | the same from any reachable state in which it is so |
| `Estimation.TrackStartsOnTarget` | common/src/simulation_state.cpp:38-56 | an established track starts on the target with its velocity, a covariance trace of 96 and nothing missed, and its measurement is off by the noise alone |
| `Estimation.NoiseIsBounded` | common/src/simulation_support.cpp:95-101 | the measurement noise is at most 3.5 and 3 on the two axes |
| `Tracker.UpdateKeepsLate` | common/src/simulation_state.cpp:58-102 | the same for a filter that has missed a tick: whatever the archive skipped, a measurement again leaves the variances below 25 and at most 26 |
| `Tracker.BoundedIsLate` | common/src/simulation.cpp:11-19 | a tick without an update, as the archiving one is, leaves at most 35 of velocity variance for the next measurement |
| `Tracker.GainBounds` | common/src/simulation_state.cpp:70-84 | the gain lies strictly between 0 and 1 and the corrected variance is positive and below the measurement noise |
| `Tracker.ScheduleGap` | common/src/simulation_support.cpp:103-113 | the measurement schedule never leaves more than five ticks between available measurements |
| `Tracker.ScheduleIs` | common/src/simulation_support.cpp:103-113 | a measurement is available exactly at the ticks that leave 0, 3, 6 or 12 modulo 15, and due but missed exactly at those that leave 9 |
| `Tracker.BoundedTrace` | common/src/simulation_support.cpp:91-93 | the trace that follows from the bounds |
| `Tracker.SeedIsBounded` | common/src/simulation_state.cpp:38-56 | a seeded filter meets the bounds |
| `Kinematics.ReachableIsPhysical` | common/src/simulation.cpp:20-59 | in every reachable state both bodies are inside the world, at the grid positions nearest to them, and the interceptor is no faster than its limit |
| `Kinematics.EarliestIntercept` | common/src/simulation.cpp:76-79 | a success k ticks after the launch bounds, on each axis, the separation at launch by the radius plus k times (interceptor speed plus target speed on that axis) |
| `Kinematics.ChaseIsBounded` | common/src/simulation.cpp:31-59 | the separation can shrink no faster than that, over any run |
| `Kinematics.SteeringIsBounded` | common/src/simulation.cpp:39-49 | one tick changes the velocity by no more than the acceleration, and without a track not at all |
| `Guidance.SteersToTheIntercept` | common/src/simulation.cpp:39-49 | with a track, some positive time at the velocity aimed at, which is full speed, leads from the interceptor exactly to the target position plus the time to intercept times the target velocity; a tick shortens the error to that velocity by exactly min(acceleration, error) |
| `Guidance.SpeedCapIsIdle` | common/src/simulation.cpp:50-53 | in no reachable state does steering exceed the speed limit, so that the cap after it never acts |
| `Guidance.FlightComesNear` | common/src/simulation.cpp:39-56 | one tick towards a resting place ends within the left-over velocity error of one step along the straight line, and gains no more than the speed |
| `Guidance.AimTurnsLittle` | common/src/simulation.cpp:39-49 | beyond one step of the place, the velocity error after a tick exceeds what the steering left of it by at most that rest times the speed, in proportion to the distance left |
| `Guidance.TickGains` | common/src/simulation.cpp:39-79 | so a tick ends within the radius, or pays nine tenths of the speed off the distance plus eleven times the error |
| `Homing.RestingTargetIsIntercepted` | common/src/simulation.cpp:31-97 | a tracked target at rest is intercepted, in every run without further commands, archive or reset, if the radius is more than half a tick's flight, the launch is outside it and close enough to the aim or far enough away to turn, and the timeout leaves enough ticks |
| `Homing.FarTargetIsInReach` | common/src/simulation.cpp:31-97 | for every launch angle, thirty ticks' flight are far enough, and a timeout that lasts for the distance and twenty-two ticks' flight at nine tenths of the speed leaves enough |
| `Passing.FastInterceptorPasses` | common/src/simulation.cpp:31-112 | without the condition on the radius it fails: for every scenario in which the launch points straight at a target at rest, whose distance is some flights and a remainder, both farther from it than the radius, the engagement times out although the timeout leaves more ticks than the flight takes |
| `Homing.HomingRun` | common/src/simulation.cpp:31-97 | over any such run the interceptor stays on its way with ticks to spare until the target is gone |
| `Homing.MotionFliesStraight` | common/src/simulation.cpp:31-59 | a tick moves the interceptor by its new velocity, undisturbed by cap and confinement, and the resting target not at all |
| `Vectors.Triangle` | common/src/simulation_support.cpp:54-64 | lengths obey the triangle inequality |
| `Vectors.DirectionsAreNear` | common/src/simulation_support.cpp:70-76 | two directions differ by no more than the vectors do, measured at the shorter one |
| `Sights.HeadingPointsAlong` | common/src/simulation_support.cpp:78-83 | a launch in the heading of a velocity, as long as the velocity, is the velocity |
| `Sights.SeekerLocksExactly` | common/src/simulation.cpp:61-74 | after the motion of a tick, while a track guides an engagement, the off-boresight angle is that between line of sight and flight up to whole turns, within 180 degrees, and the seeker has locked exactly if it is within the field of view; otherwise neither is there |
| `Sights.ReachableLockIsHonest` | common/src/simulation.cpp:61-91 | in every reachable state a lock comes with a track, after an engage order, and within the field of view |
| `Sights.ShownAimIsReal` | common/src/simulation_snapshot.cpp:37-51 | the predicted intercept every recorded snapshot shows is the point that the guidance leads to, and a lock it shows is within the field of view it shows |
| `Kinematics.TargetFollowsTriangleWave` | common/src/simulation.cpp:20-25 | over any run without reset the target is on the triangle wave of its start and velocity, at the number of ticks on which it moved |
| `Numerics.BounceIsTriangleWave` | common/src/simulation_support.cpp:38-52 | the bounce loop in closed form: after n steps the position is the triangle wave with period 2(limit - 1) at x0 + n v0, and the velocity is the first one up to sign |
| `Numerics.BounceStep` | common/src/simulation_support.cpp:38-52 | one bounce keeps the position within the limit and the speed unchanged |
| `Numerics.ClampIsIdle` | common/src/simulation_support.cpp:38-52 | within the speed limit the last clamp does nothing |
| `Numerics.CapSpeedBounds` | common/src/simulation.cpp:50-53 | the capped velocity is no longer than the cap, and unchanged when it was within it |
| `Numerics.LaunchSpeed` | common/src/simulation_commands.cpp:190-197 | the launch velocity has exactly the configured speed |
| `Numerics.NormalizedAngleIsTheSameDirection` | common/src/simulation_support.cpp:85-89 | the normalised angle differs from the given one by whole turns and lies in [-180, 180] |
| `Numerics.WrapAngleDeg` | common/src/simulation_support.cpp:85-89 | the two loops compute the normalised angle |
| `Reassembly.ChunkingIsInvisible` | common/src/transport_socket_live.cpp:418-461 | any byte stream, well formed or not, gives the same messages and the same rest however it is cut into chunks |
| `Reassembly.StreamIsReassembled` | common/src/transport_socket_live.cpp:418-461 | encoded messages in any chunks are received exactly, in order, with an incomplete tail kept |
| `FrameCodec.BinaryRoundTrip` | common/src/frame_codec.cpp:102-122 | a binary frame below 2^32 bytes decodes to its kind and payload, whatever follows it |
| `FrameCodec.BinaryLayout` | common/src/frame_codec.cpp:78-110 | on the wire a frame is the length of the kind in four bytes, most significant first, the kind, the length of the payload likewise, and the payload |
| `FrameCodec.BinaryPrefixWaits` | common/src/frame_codec.cpp:124-143 | on every strict prefix of a frame the decoder waits |
| `FrameCodec.BinaryIsIncremental` | common/src/frame_codec.cpp:124-143 | bytes that arrive later never change what was decoded, for any bytes and with the 32-bit wrap-around of the sizes |
| `FrameCodec.BinaryFaultsStay` | common/src/frame_codec.cpp:124-143 | a header that makes decoding throw is not repaired by later bytes, below the 2^32 bytes of the sizes |
| `TcpInput.TcpInput.TryDecodeBinaryFrame` | common/src/frame_codec.cpp:124-143 | a whole frame at the front of the buffer is taken off it, the beginning of a frame makes the decoder wait with the buffer unchanged, and reading outside the buffer throws |
| `TcpInput.BinaryStreamIsReassembled` | common/src/transport_socket_live.cpp:418-461 | any list of frames, concatenated and cut into any chunks, is received in order; the beginning of a further frame stays buffered |
| `TcpInput.PassesAdd` | common/src/transport_socket_live.cpp:418-461 | two receive passes give what one pass over all chunks gives |
| `ConsoleLink.BinaryTalkIsServed` | common/src/transport_socket_live.cpp:418-461 | while the connection stays open, whatever a console says, serialized, framed, concatenated and cut into any pieces, acts on the server exactly as the commands themselves in their order, up to a leave; the beginning of a further frame stays buffered |
| `ConsoleLink.LineTalkIsServed` | common/src/transport_socket_live.cpp:440-452 | the same for JSON lines, for commands of any size; the turn in which the connection ends is in `ConsoleTurns` |
| `ConsoleTurns.BinaryTurnsAreServed` | common/src/transport_socket_live.cpp:418-461 | turn by turn up to the end of the connection, for any talk in any pieces: the server obeys exactly the commands whose frames are complete before the closing turn, in their order, then disconnects the console; nothing else it said has any effect |
| `ConsoleTurns.LineTurnsAreServed` | common/src/transport_socket_live.cpp:418-452 | the same for JSON lines |
| `ConsoleTurns.BinaryClosingIsServed` | common/src/transport_socket_live.cpp:432-435 | an end of the connection after whole commands, and perhaps the beginning of a further one: the commands are obeyed, the console is disconnected, and the bytes that come with the end change nothing |
| `ConsoleTurns.LineClosingIsServed` | common/src/transport_socket_live.cpp:432-435 | the same for JSON lines |
| `ConsoleTurns.BinaryTalkIsAnsweredExactlyIf` | common/src/transport_socket_live.cpp:432-461 | every command of any talk is answered if and only if none follows a leave that the server obeys and the last byte comes in a turn before the one that ends the connection |
| `ConsoleTurns.LineTalkIsAnsweredExactlyIf` | common/src/transport_socket_live.cpp:432-452 | the same for JSON lines |
| `ConsoleTurns.WithoutLeaveStaysOn` | common/src/transport_socket_live.cpp:468-678 | a talk without a leave, or with one only at its end, meets the first of the two conditions |
| `LostStart.StartWithTheCloseIsLost` | common/src/transport_socket_live.cpp:432-435 | a concrete run: a start that comes together with the end of the connection leaves the session in standby; one turn earlier the session would be detecting |
| `ConsoleTurns.TurnsArePasses` | common/src/transport_socket_live.cpp:418-461 | turns are passes over what arrives before the end; the end drops what is buffered, and a connection that is gone takes nothing more |
| `ConsoleTurns.AllAreHeard` | common/src/transport_socket_live.cpp:440-460 | all messages, frames or lines, are complete before the closing turn exactly when the last byte of their stream is; always when there is none |
| `ConsoleLink.BinaryArrivalsAreOneStream` | common/src/transport_socket_live.cpp:418-461 | any bytes, well formed or not, in any pieces and passes, give the same server, the same failure and the same left-over bytes as one pass over all of them; the bound is that of the 32-bit sizes |
| `ConsoleLink.LineArrivalsAreOneStream` | common/src/transport_socket_live.cpp:440-452 | the same for JSON lines, without a bound |
| `ConsoleMessages.RequestRoundTrip` | common/src/transport_socket_live.cpp:468-678 | every command a console can write, with all members within their widths, is understood by the server with its sender, its kind and its members |
| `ConsoleMessages.ReplyRoundTrip` | common/src/transport_socket_live.cpp:353-392 | every acknowledgement and every review is read back as it was meant, with code, cursor, resilience case and event |
| `ConsoleMessages.KindIsUnderstood` | common/src/transport_socket_live.cpp:468-677 | the kinds the server accepts on the connection are told apart, and each command travels under one of them |
| `JsonFrame.JsonRoundTrip` | common/src/frame_codec.cpp:94-100 | a JSON frame decodes to its kind and payload for all strings, including ones that contain the search needles |
| `JsonFrame.PayloadIsFound` | common/src/frame_codec.cpp:52-75 | the first occurrence of the payload needle is the real one, never inside or across the escaped kind |
| `JsonFrame.JsonIsOneLine` | common/src/frame_codec.cpp:94-96 | an encoded frame contains no newline |
| `JsonFrame.JsonStreamIsReassembled` | common/src/transport_socket_live.cpp:440-453 | a stream of JSON lines in any chunks is received exactly, in order |
| `JsonFrame.EscapeLoop` | common/src/frame_codec.cpp:9-23 | for every string the loop yields the escaped text that `JsonFrame.JsonRoundTrip` undoes |
| `JsonFrame.UnescapeLoop` | common/src/frame_codec.cpp:25-50 | for every string the loop yields the text or the error of the unescaping that the round trip uses, a dangling backslash included |
| `JsonFrame.RawFieldLoop` | common/src/frame_codec.cpp:52-75 | the scan stops at the first unescaped quote, or takes everything |
| `PayloadLaws.PayloadRoundTrip` | common/src/serialization.cpp:257-728 | for each of the 18 payload kinds, reading what the writer printed gives every value back, over full integer ranges and arbitrary strings; writer and reader have tables of their own |
| `PayloadLaws.WriterAndReaderAgree` | common/src/serialization.cpp:257-728 | for each kind the keys the writer prints are those the reader asks for, in the same order |
| `DatagramText.SnapshotRoundTrip` | common/src/serialization.cpp:409-686 | the text of a snapshot datagram is read as that snapshot, all 58 members of it, with its floats as the float printer and reader leave them |
| `DatagramText.RecordedIsStorable` | common/src/transport_common.cpp:37-93 | every snapshot the session can record has a text the reader accepts, as long as its numbers are within the widths of the wire |
| `DatagramText.TelemetryRoundTrip` | common/src/serialization.cpp:473-700 | the same for telemetry |
| `PayloadLaws.OtherKindsAreRefused` | common/src/serialization.cpp:180-184 | a payload read as any other kind is refused |
| `PayloadLaws.ReadingIsStable` | common/src/serialization.cpp:526-728 | whatever text was read, its values are in range, and printing and reading them again changes nothing |
| `PayloadLaws.ScalarRoundTrip` | common/src/serialization.cpp:105-170 | decimals of 32 and 64 bits, signed narrowing, booleans and checked names survive printing and reading |
| `PayloadKeys.SchemaIsDistinct` | common/src/serialization.cpp:257-524 | no key of a payload contains a separator, is the kind key, or occurs twice |
| `FieldCodec.ValueRoundTrip` | common/src/serialization.cpp:15-50 | percent-encoding is undone by decoding for every string, and its output holds no separator |
| `FieldCodec.CharIsHex` | common/src/serialization.cpp:15-50 | exactly the percent sign, the two separators and control characters are written as a percent sign and two upper-case hexadecimal digits; the reader takes lower-case digits as well |
| `FieldCodec.FieldsRoundTrip` | common/src/serialization.cpp:67-103 | parsing joined fields gives each value under its key, the first one where keys repeat |
| `FieldCodec.EncodeLoop` | common/src/serialization.cpp:15-29 | for every string the loop yields the encoding that `FieldCodec.ValueRoundTrip` undoes |
| `FieldCodec.SplitLoop` | common/src/serialization.cpp:52-65 | the loop yields exactly the parts between the separators, empty ones included |
| `FieldCodec.ParseFieldsLoop` | common/src/serialization.cpp:67-80 | the loop yields the field map of `FieldCodec.FieldsRoundTrip`, or the first error |
| `Names.PhaseIsRead` | common/include/icss/core/types.hpp:180-192 | the text of every phase is accepted by the payload parser and read back by the display |
| `Names.InterceptorIsRead` | common/include/icss/core/types.hpp:194-202 | the same for interceptor states |
| `Names.OrderIsRead` | common/include/icss/core/types.hpp:204-213 | the same for order states |
| `Names.CodeIsRead` | common/include/icss/core/types.hpp:215-223 | the same for assessment codes |
| `Names.ConnectionIsRead` | clients/tactical-viewer-gui/src/app_labels.cpp:34-39 | connection texts are read back by the display |
| `MiniJson.ParseText` | common/include/icss/support/minijson.hpp:212-217 | the recursive-descent parser ends on every input, with the value the reference functions describe or an error |
| `MiniJson.Parser.ReadValue` | common/include/icss/support/minijson.hpp:43-69 | one value, and the cursor behind it |
| `MiniJson.Parser.ReadArray` | common/include/icss/support/minijson.hpp:168-185 | an array, and the cursor behind it |
| `MiniJson.Parser.ReadObject` | common/include/icss/support/minijson.hpp:187-206 | an object whose first member of a name wins, and the cursor behind it |
| `MiniJson.Parser.ReadString` | common/include/icss/support/minijson.hpp:93-121 | a string with its escapes, and the cursor behind it |
| `MiniJson.Parser.ReadNumber` | common/include/icss/support/minijson.hpp:123-145 | an integer or fractional token, and the cursor behind it |
| `JsonLayout.PrintedIsRead` | common/include/icss/support/minijson.hpp:43-206 | any printed document, with any white space of its own, is read as its meaning, and reading stops right after it |
| `JsonLayout.DocumentRoundTrip` | common/include/icss/support/minijson.hpp:212-217 | a whole text: a printed document with nothing or white space behind it is read as its meaning, one with anything else behind it is refused |
| `JsonLayout.EscapedIsRead` | common/src/simulation_support.cpp:11-23 | text escaped by the writers is read back for every string |
| `Timeline.TimelineRoundTrip` | common/src/simulation_summary.cpp:81-114 | reading the timeline file gives every field and every event back, for arbitrary texts and numbers below 2^63 |
| `Timeline.ReadReplayTimeline` | common/src/artifact_readers.cpp:79-113 | the nested reading loops yield the artifact of the round trip, or an error, on every input text |
| `TimelineWriter.WriteTimeline` | common/src/simulation_summary.cpp:81-114 | the writing loops produce exactly the document of the round trip |
| `TimelineWriter.WriteEvent` | common/src/simulation_summary.cpp:95-111 | the line-by-line writer appends exactly the printed event, entity ids included |
| `SessionArtifact.SessionTimelineRoundTrip` | common/src/simulation_summary.cpp:73-114 | for every reachable session the timeline written about it reads back as written, and tells its phase, its assessment code, its counts, the launch angle of its newest snapshot and every event with all members |
| `SessionArtifact.CaseTellsPaths` | common/src/simulation_support.cpp:115-138 | the resilience text tells which paths were exercised |
| `LiveRuns.RegisteredDisplayHasNoBacklog` | common/src/transport_socket_live.cpp:815-842 | after every input in every run a registered display has nothing left to be queued and latest-only delivery never skips; what was queued for it are exactly the snapshots replayed at its registration and all those recorded since, each once and in order; the session is always one the session laws hold for |
| `LiveRuns.EverySnapshotSinceTheJoinIsQueued` | common/src/transport_socket_live.cpp:765-863 | counted from the join, in every run: one retained snapshot in latest-only mode, or as many as the batch limit allows, and then every snapshot recorded after the join has been queued, whatever inputs followed, as long as the display stays registered |
| `LiveRuns.HandleServes` | common/src/transport_socket_live.cpp:158-210 | every input keeps: no backlog, genuine datagrams, the newest snapshot queued or sent, a cursor within bounds |
| `Delivery.SendPendingOutcome` | common/src/transport_socket_live.cpp:815-842 | within its slack delivery takes neither the skip branch nor leaves anything behind: the whole backlog is queued, oldest first |
| `DeliveryModes.ModesAgree` | common/src/transport_socket_live.cpp:852-863 | servers that differ only in delivery options go through the same sessions, bindings and replies; what they queued for a display differs only in the replays at its registration, all numbered no later than the join, and is the same from there on |
| `LiveRuns.ReviewShowsAnEvent` | common/src/transport_socket_live.cpp:353-380 | in every run a review is answered with the event under the resolved cursor, or none exactly when the log is empty, and with the assessment code and the exercised paths of the session, which it leaves alone |
| `ReplayCursor.ResolutionIsInBounds` | common/src/transport_socket_live.cpp:680-707 | the resolved cursor is within the log or both are zero, and `clamped` holds exactly when an absolute request was past the end of a log with events or a step could not move; any other control is reported as clamped and moves nothing |
| `ReplayCursor.StepsUndo` | common/include/icss/view/replay_cursor.hpp:19-34 | steps back undo steps forward that did not reach the end |
| `ReplayCursor.ForwardReaches` | common/include/icss/view/replay_cursor.hpp:19-27 | k steps forward reach index + k or the last event |
| `SocketLiveTransport.SocketLiveTransport.SendPendingSnapshots` | common/src/transport_socket_live.cpp:815-842 | the object queues exactly what the delivery function says, in both modes |
| `SocketLiveTransport.SocketLiveTransport.ResetViewerDeliveryCursor` | common/src/transport_socket_live.cpp:852-863 | the cursor goes back by one snapshot in latest-only mode, by at most the batch limit otherwise |
| `SocketLiveTransport.SocketLiveTransport.ClearViewerBinding` | common/src/transport_socket_live.cpp:844-850 | afterwards there is no viewer, no heartbeat time, an empty queue and a delivery cursor at zero |
| `SocketLiveTransport.SocketLiveTransport.ReceiveJoin` | common/src/transport_socket_live.cpp:765-799 | registration, renewal and refusal of a display |
| `SocketLiveTransport.SocketLiveTransport.ReceiveHeartbeat` | common/src/transport_socket_live.cpp:732-761 | acknowledgement, with the wall-clock times of arrival and answer, and revival of a display |
| `SocketLiveTransport.SocketLiveTransport.MaybeTimeoutViewer` | common/src/transport_socket_live.cpp:803-813 | the check of which `Presence.TimeoutCheckDecides` says exactly when it drops the display |
| `SocketLiveTransport.SocketLiveTransport.AdvanceTick` | common/src/transport_socket_live.cpp:201-205 | timeout, tick, delivery |
| `SocketLiveTransport.SocketLiveTransport.ArchiveSession` | common/src/transport_socket_live.cpp:207-210 | archive, delivery |
| `SocketLiveTransport.SocketLiveTransport.TimeoutClient` | common/src/transport_socket_live.cpp:186-192 | the session times the client out, a display is unbound, and then snapshots are sent |
| `SocketLiveTransport.SocketLiveTransport.DisconnectClient` | common/src/transport_socket_live.cpp:169-185 | the console loses its connection with its waiting replies and received bytes, or the display its binding, and the session hears of it only if a sender was known |
| `SocketLiveTransport.SocketLiveTransport.ProcessTcpFrame` | common/src/transport_socket_live.cpp:468-678 | one frame as the parsers leave it: a command, an unreadable review request, or an unreadable frame; a console that leaves takes the buffered bytes with it |
| `SocketLiveTransport.SocketLiveTransport.ReceiveTcpMessages` | common/src/transport_socket_live.cpp:418-461 | one turn of the receive loop in both framings: what arrived is buffered, dropped if the console has closed, and the whole frames are obeyed; a faulty binary header throws |
| `SocketLiveTransport.SocketLiveTransport.DrainFrames` | common/src/transport_socket_live.cpp:454-460 | the binary frames in the buffer are obeyed one by one until one is incomplete, faulty, or a leave |
| `SocketLiveTransport.SocketLiveTransport.DrainLines` | common/src/transport_socket_live.cpp:440-452 | the lines in the buffer are obeyed one by one, empty ones skipped |
| `SocketLiveTransport.SocketLiveTransport.ProcessTcpWire` | common/src/transport_socket_live.cpp:464-466 | one JSON line is obeyed, or logged with the reason why it cannot be decoded |
| `SocketLiveTransport.SocketLiveTransport.FlushTcpWrites` | common/src/transport_socket_live.cpp:305-323 | waiting replies go out oldest first until the connection would block |
| `SocketLiveTransport.SocketLiveTransport.FlushUdpDatagram` | common/src/transport_socket_live.cpp:335-351 | the oldest queued datagram goes out |
| `Answers.EveryCommandIsAnswered` | common/src/transport_socket_live.cpp:468-678 | every command on the connection is answered by exactly one reply with the next number and the session of the request: a review for a review request of the connected console, an acknowledgement otherwise; only a leave ends the connection, and its acknowledgement, numbered next, still goes out if there is room |
| `Answers.RepliesComeInOrder` | common/src/transport_socket_live.cpp:353-392 | in every run the replies taken by the connections and those still waiting are numbered in the order they were made |
| `ServerGrowth.HandleGrows` | common/src/transport_socket_live.cpp:158-210 | no input takes a snapshot out of the history, changes the options, breaks the order of the replies or leads the replay cursor out of bounds, and only a join changes a registration |
| `Decisions.EveryCommandIsDecided` | common/src/transport_socket_live.cpp:468-654 | in every run, for each of start, stop, reset, acquire, drop, ready and order from the joined console: a table of phase, track and understood entities says whether it is acknowledged as accepted, the new phase and track, and what else changes; a refused one changes no phase, tick, world, track or scenario |
| `Decisions.CommandIsDecided` | common/src/transport_socket_live.cpp:468-654 | the same for any server with a coherent session |
| `Decisions.StrangerIsRefused` | common/src/transport_socket_live.cpp:269-280 | a command from anyone but the joined console is refused, and all it leaves in the session is one event with the reason of the answer |
| `Decisions.JoinIsDecided` | common/src/transport_socket_live.cpp:471-496 | a console join is acknowledged as accepted exactly with the role, the session and no other console, and exactly then the sender is the console |
| `Decisions.SecondConnectionIsRefused` | common/src/transport_socket_live.cpp:394-416 | a second connection leaves the first one, its replies and everything but the event log as they were |
| `Decisions.BrokenFrameIsToldOnce` | common/src/transport_socket_live.cpp:464-466 | an unreadable frame is logged with its fault and not answered; an unreadable review request is answered and not logged |
| `Presence.TimeoutCheckDecides` | common/src/transport_socket_live.cpp:803-813 | a bound display is still bound after the timeout check, with nothing else changed, if and only if it was last heard less than the timeout ago; otherwise it is unbound and shown as timed out |
| `Presence.TickDecides` | common/src/transport_socket_live.cpp:201-205 | the same for the whole tick, after which the newest snapshot shows the timeout |
| `Presence.DisplayStaysWhileHeard` | common/src/transport_socket_live.cpp:732-813 | over every run in which each tick comes within the timeout of the last heartbeat or join, and nobody ends the registration, a display stays registered |
| `Presence.DisplayIsDroppedExactlyIfSilent` | common/src/transport_socket_live.cpp:732-813 | after such a run from its registration, the next tick drops the display if and only if it has been silent for the timeout, and then the newest snapshot shows it as timed out |
| `Presence.HeartbeatIsAnswered` | common/src/transport_socket_live.cpp:732-761 | in every run a heartbeat is acknowledged exactly if it is from the registered sender and endpoint, with its own number and time; it brings a display shown as timed out back, and any other changes nothing |
| `Presence.DisconnectUnbinds` | common/src/transport_socket_live.cpp:169-185 | a disconnected display leaves no binding, queue or heartbeat behind, and the session shows it as disconnected |
| `SocketLiveTransport.SocketLiveTransport.ProcessCommand` | common/src/transport_socket_live.cpp:468-678 | the whole effect of a command on session, replies, received bytes and delivery, for every branch; what each command decides is `Decisions.EveryCommandIsDecided` |
| `SocketLiveTransport.SocketLiveTransport.JoinCommandClient` | common/src/transport_socket_live.cpp:471-496 | the console join, all five branches |
| `SocketLiveTransport.SocketLiveTransport.StartConfigured` | common/src/transport_socket_live.cpp:508-552 | the refusals, the last one with the first complaint of the configuration check, then configure, start, acknowledge, deliver |
| `SocketLiveTransport.SocketLiveTransport.StopScenario` | common/src/transport_socket_live.cpp:553-570 | a stop archives a running session |
| `SocketLiveTransport.SocketLiveTransport.ResetScenario` | common/src/transport_socket_live.cpp:571-583 | a reset also resets cursor and delivery |
| `SocketLiveTransport.SocketLiveTransport.ReviewReplay` | common/src/transport_socket_live.cpp:655-676 | the resolved cursor is kept and answered; the event index is within the log |
| `SocketLiveTransport.SocketLiveTransport.ValidateCommandEnvelope` | common/src/transport_socket_live.cpp:269-280 | the three envelope refusals in their order |
| `SocketLiveTransport.SocketLiveTransport.AcceptTcpClient` | common/src/transport_socket_live.cpp:394-416 | the first connection is kept, others are refused; `Decisions.SecondConnectionIsRefused` says what that leaves alone |
| `Broadcast.FindLatest` | common/src/transport_common.cpp:27-35 | the loop yields the newest event no later than a tick: all events after it are later than the tick |
| `Broadcast.LatestAtOrBefore` | common/src/transport_common.cpp:27-35 | the event has a position in the log behind which every event is later than the tick, and none is found only if all are later |
| `Broadcast.TelemetryTellsNewestEvent` | common/src/transport_common.cpp:95-113 | telemetry of a snapshot tells the newest event no later than its tick, with its type and summary, and that there is none only if there is none |
| `Convergence.PictureIsGenuine` | clients/tactical-viewer-gui/src/app_snapshot.cpp:13-124 | for every run of server inputs, losses, reorderings and repetitions, the picture is that of the one snapshot ever recorded with its number and that number never decreases; the timestamp of the telemetry shown never decreases either, nor does its event tick at an equal timestamp; and what was recorded stays recorded |
| `Convergence.ActiveTrackIsShownExactly` | clients/tactical-viewer-gui/src/app_snapshot.cpp:13-60 | in every run an active track that is not archived is shown with its true age and miss counters: they never outgrow the signed members that carry them |
| `Convergence.NewestDatagramConverges` | clients/tactical-viewer-gui/src/app_snapshot.cpp:13-60 | while a display is registered the newest snapshot is queued or sent, and its arrival makes picture and server agree whatever came before |
| `Convergence.DisplayCanAlwaysCatchUp` | common/src/transport_socket_live.cpp:815-842 | from every reachable situation with a registered display, sending the queue and delivering the newest snapshot and its telemetry ends in agreement on picture, number, telemetry and connection |
| `Convergence.NewestTelemetryConverges` | clients/tactical-viewer-gui/src/app_snapshot.cpp:99-113 | while a display is registered telemetry of the newest snapshot is queued or sent, and its arrival makes the display show it whatever came before |
| `Convergence.RunKeepsUp` | clients/tactical-viewer-gui/src/app_snapshot.cpp:99-108 | over every run, the timestamp of the telemetry shown never decreases once telemetry was received, and at an equal timestamp neither does the event tick |
| `Convergence.ReceiveKeepsUp` | clients/tactical-viewer-gui/src/app_snapshot.cpp:99-108 | the same for each datagram, genuine or not; and the telemetry shown after a telemetry datagram is not older than it |
| `Convergence.DrawingIsConsistent` | clients/tactical-viewer-gui/src/app_snapshot.cpp:61-96 | over every run the paths end where the bodies are shown and have moved at every point, the track is drawn before an order exactly if there is one, the review is offered exactly if there is one, and in standby nothing is drawn |
| `Convergence.ReceiveShowsHistory` | clients/tactical-viewer-gui/src/app_snapshot.cpp:13-113 | any genuine datagram keeps the display on the history and never takes it back |
| `Convergence.SnapshotIsAdopted` | clients/tactical-viewer-gui/src/app_snapshot.cpp:13-60 | an old snapshot changes nothing, a newer one becomes the picture |
| `Convergence.TelemetryIsAdopted` | clients/tactical-viewer-gui/src/app_snapshot.cpp:99-124 | telemetry never changes the picture; it is dropped if and only if its snapshot is older than the one whose telemetry is shown, or the same with an older event; otherwise its sample, connection and event are shown |
| `Convergence.PictureIsCarried` | common/src/transport_common.cpp:37-93 | conversion to a payload and parsing it lose nothing that is shown |
| `ViewerState.ViewerState.ApplySnapshot` | clients/tactical-viewer-gui/src/app_snapshot.cpp:13-97 | the whole new display state after a snapshot datagram, paths and panel included |
| `ViewerState.ViewerState.ApplyTelemetry` | clients/tactical-viewer-gui/src/app_snapshot.cpp:99-124 | the whole new display state after a telemetry datagram, for which `Convergence.TelemetryIsAdopted` gives the order |
| `ViewerState.ViewerState.ExtendPath` | clients/tactical-viewer-gui/src/app_snapshot.cpp:75-90 | a path grows when its end has moved and keeps its newest 72 points |
| `ViewerState.ViewerState.PushTimelineEntry` | clients/tactical-viewer-gui/src/app_support.cpp:9-20 | a new message goes to the front; the newest 64 are kept |
| `Viewer.TelemetryStaysLimited` | clients/tactical-viewer-gui/src/app_support.cpp:9-20 | the limits hold after telemetry, no message repeats in a row, and what changes the timeline is an event that is put in front of it |
| `Viewer.SnapshotStaysLimited` | clients/tactical-viewer-gui/src/app_snapshot.cpp:75-90 | the limits hold after a snapshot |
| `Viewer.SnapshotIsDrawn` | clients/tactical-viewer-gui/src/app_snapshot.cpp:61-96 | one snapshot keeps that, whatever it shows |
| `ViewerControl.ButtonsAreHonest` | clients/tactical-viewer-gui/src/app_labels.cpp:241-257 | in every reachable session with a connected console and a display in step with it, Start, Track, Ready and Engage are enabled exactly when the session would accept what they send |
| `ViewerControl.EnabledButtonsAreAccepted` | common/src/transport_socket_live.cpp:468-654 | in every run of the live server, for a display in step with it: a button is enabled if and only if the server acknowledges the command it sends as accepted |
| `ViewerControl.EditsAgree` | clients/tactical-viewer-gui/src/app_control.cpp:45-82 | after an accepted command the display's own edits of phase, track and interceptor state equal the session's new state |
| `ViewerControl.AgreeingDisplayIsInSync` | clients/tactical-viewer-gui/src/app_snapshot.cpp:13-60 | a display that shows the newest number is in step with the session, in every reachable situation |
| `ViewerState.ViewerState.EditAfterAck` | clients/tactical-viewer-gui/src/app_control.cpp:45-75 | all edits of an accepted command, for each of the four buttons and both directions of the track toggle, the previewed launch included |
| `ViewerState.ViewerState.TakeAck` | clients/tactical-viewer-gui/src/app_control.cpp:25-75 | the display after the answer to a command: control status, timeline entry and, if accepted, the edits |
| `ViewerState.ViewerState.TakeStartAck` | clients/tactical-viewer-gui/src/app_control.cpp:96-124 | the same for a start, with the preview of the scenario that was sent and its timeline entry |
| `ViewerControl.PreviewedLaunchIsReal` | clients/tactical-viewer-gui/src/app_control.cpp:70-81 | the launch velocity the display previews after an accepted order, in the heading it shows, is the one the session launches with, if the display shows the session's launch angle and speed |
| `ViewerControl.StartPreviewIsReal` | clients/tactical-viewer-gui/src/app_setup.cpp:159-188 | after an accepted start the display shows the scene of the snapshot that the session records: bodies, places, velocities, headings, limits of the interceptor, no aim and no track |
| `ViewerControl.AnswerIsShown` | clients/tactical-viewer-gui/src/app_control.cpp:25-45 | the answer to a command is shown with its verdict and reason under the name of the command that was sent, and told in front of the timeline; a refused command changes nothing else |
| `LinkDelay.SamplesComeInOrder` | clients/tactical-viewer-gui/src/app_net.cpp:62-94 | over any run at most 32 heartbeats wait with rising ids, each yields at most one sample, and samples come in the order of the ids |
| `LinkDelay.RoundTripIsMeasured` | clients/tactical-viewer-gui/src/app_net.cpp:62-94 | over every run in which the clock does not go back, an acknowledgement is sampled if and only if its heartbeat was sent, is newer than all sampled before and among the last 32; the sample is the time since that very heartbeat was sent, and moves the delay by one fifth of the difference, rounded |
| `LinkDelay.ValueStaysWithinSamples` | clients/tactical-viewer-gui/src/app_net.cpp:85-92 | the smoothed value stays within the bounds of the samples |
| `LinkDelay.ErrorShrinks` | clients/tactical-viewer-gui/src/app_net.cpp:89-91 | a sample strictly reduces an error above 2 ms, and an error of at most 2 ms stays |
| `LinkDelay.ConstantSampleSettles` | clients/tactical-viewer-gui/src/app_net.cpp:89-91 | repeated smoothing towards the same sample brings the error to at most 2 ms, after which the value stays |
| `LinkDelay.ConstantRunIsSettling` | clients/tactical-viewer-gui/src/app_net.cpp:62-94 | a run of the estimator, with any heartbeats lost, late or repeated, whose samples are all the same does as many steps of the smoothing as there were samples; the first sample is taken as it is |
| `LinkDelay.ConstantDelaySettles` | clients/tactical-viewer-gui/src/app_net.cpp:62-94 | in such a run the error never grows, is at most 2 ms after as many samples as it was milliseconds above that, and from then on the value does not move |
| `LinkDelay.DelayEstimator.UpdateLinkDelay` | clients/tactical-viewer-gui/src/app_net.cpp:69-94 | unknown, too early and matching acknowledgements |
| `LinkDelay.DelayEstimator.SendDisplayHeartbeat` | clients/tactical-viewer-gui/src/app_net.cpp:182-187 | a new id waits, the oldest beyond 32 are dropped |

## Left out

- Rounding of floating-point numbers, the text of a printed float and its parsing: `DatagramText` takes the two as a pair of functions, and its floats come out as these leave them.
- Socket calls, replies of which the connection takes only a part, buffer sizes of datagrams, file access, signals and the drawing of the display.
- The datagrams the display sends: joins and heartbeats reach `LiveServer` as read, unreadable ones are dropped by the program without effect.
- The order of the calls within one turn of the poll loop: the theorems are for any order of the inputs.
- Loading of configuration files and command lines; the configuration check is taken as the predicate `Scenario.Valid`, with its complaints as `Scenario.Fault`.
- The summary files, the runtime log and its escapes, which the repository's own reader does not accept, and the sample output.
- Headers of binary frames that announce more than the program can address.
- In `SimulationSession` the fields are grouped into records (world, engagement, log, filter); aliasing between them does not arise.
- The Reset and Review buttons of the display, its planned scenario, and the random choice of a start scenario.
- `SimulationSession.SimulationSession.RecordSnapshot`: the wall-clock capture time of a snapshot is left out; no decision of the program depends on it, and `DatagramText` takes it as an input where it is printed.
- `SimulationSession.SimulationSession.UpdateTrackState`: a filter whose variances are negative is left alone, so that every division is defined; `TrackRuns.ReachableTracksAreBounded` shows that no reachable active track has one.
- `MiniJson.Parser.ReadNumber`: a fractional number is kept as its token, and one that is too large for a double is not refused.
- `ConsoleLink.BinaryArrivalsAreOneStream`: it is stated for fewer than 2^32 buffered bytes, because from there on later bytes can make a header readable that threw before; `ConsoleLink.BinaryTalkIsServed` needs no such bound.
- `LinkDelay.ValueStaysWithinSamples`: the arithmetic is in exact tenths, which the doubles of the program match only as far as their precision goes.
- `Homing.RestingTargetIsIntercepted`: a sufficient condition. With a radius of at most half a tick's flight (of which `Passing.FastInterceptorPasses` is a failing family), or from so near that there is no room to turn, the interceptor may pass the target; which of these flights end in an interception later, and flights against a moving target, are left open.
