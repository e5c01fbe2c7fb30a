/** What is said on the command connection: how the server understands a frame and how a console writes
    one, and how the replies are written and read. */
module ConsoleMessages {
  import opened Text
  import opened Numerics
  import opened SessionTypes
  import opened FrameCodec
  import opened LiveServer
  import opened PayloadLaws
  import opened Names
  import opened ReplayCursor
  import P = Payloads

  // ---------------------------------------------------------------------------
  // Reading

  /** The kinds the server accepts on the connection. */
  function KindOf(text: string): Option<P.Kind> {
    if text == P.KindText(P.SessionJoin) then Some(P.SessionJoin)
    else if text == P.KindText(P.SessionLeave) then Some(P.SessionLeave)
    else if text == P.KindText(P.ScenarioStart) then Some(P.ScenarioStart)
    else if text == P.KindText(P.ScenarioStop) then Some(P.ScenarioStop)
    else if text == P.KindText(P.ScenarioReset) then Some(P.ScenarioReset)
    else if text == P.KindText(P.TrackAcquire) then Some(P.TrackAcquire)
    else if text == P.KindText(P.TrackDrop) then Some(P.TrackDrop)
    else if text == P.KindText(P.ReadyInterceptor) then Some(P.ReadyInterceptor)
    else if text == P.KindText(P.EngageOrder) then Some(P.EngageOrder)
    else if text == P.KindText(P.AarRequest) then Some(P.AarRequest)
    else None
  }

  // The value of one member of a payload.

  function IntAt(values: seq<P.Value>, i: nat): int {
    if i < |values| && values[i].Num? then values[i].n else 0
  }

  function NatAt(values: seq<P.Value>, i: nat): nat {
    if IntAt(values, i) < 0 then 0 else IntAt(values, i)
  }

  function TextAt(values: seq<P.Value>, i: nat): string {
    if i < |values| && values[i].Str? then values[i].s else ""
  }

  function GridAt(values: seq<P.Value>, i: nat): Grid { Grid(IntAt(values, i), IntAt(values, i + 1)) }

  function SenderOf(values: seq<P.Value>): Envelope { Envelope(NatAt(values, 0), NatAt(values, 1), NatAt(values, 2)) }

  function ScenarioOf(values: seq<P.Value>): Scenario {
    Scenario(TextAt(values, 3), IntAt(values, 4), IntAt(values, 5), GridAt(values, 6), GridAt(values, 8), GridAt(values, 10),
             IntAt(values, 12), IntAt(values, 13), IntAt(values, 14), IntAt(values, 15), IntAt(values, 16))
  }

  /** The command of a payload of one of the accepted kinds. */
  function CommandOf(kind: P.Kind, values: seq<P.Value>): Command {
    match kind
    case SessionJoin => JoinConsole(TextAt(values, 3))
    case SessionLeave => Leave(TextAt(values, 3))
    case ScenarioStart => StartRun(ScenarioOf(values))
    case ScenarioStop => StopRun(TextAt(values, 3))
    case ScenarioReset => ResetRun(TextAt(values, 3))
    case TrackAcquire => Acquire(TextAt(values, 3))
    case TrackDrop => Drop(TextAt(values, 3))
    case ReadyInterceptor => ReadyAsset(TextAt(values, 3))
    case EngageOrder => Order(TextAt(values, 3), TextAt(values, 4))
    case _ => ReviewEvents(NatAt(values, 3), TextAt(values, 4))
  }

  function RequestOf(frame: Frame): Request {
    match KindOf(frame.kind)
    case None => Unreadable("unsupported tcp payload kind: " + frame.kind)
    case Some(kind) =>
      match P.Parse(kind, frame.payload)
      case Ok(values) => Commanded(SenderOf(values), CommandOf(kind, values))
      case Error(message) =>
        if kind == P.AarRequest then BadReview("aar_request rejected: " + message) else Unreadable(message)
  }

  // ---------------------------------------------------------------------------
  // Writing

  function KindFor(command: Command): P.Kind {
    match command
    case JoinConsole(_) => P.SessionJoin
    case Leave(_) => P.SessionLeave
    case StartRun(_) => P.ScenarioStart
    case StopRun(_) => P.ScenarioStop
    case ResetRun(_) => P.ScenarioReset
    case Acquire(_) => P.TrackAcquire
    case Drop(_) => P.TrackDrop
    case ReadyAsset(_) => P.ReadyInterceptor
    case Order(_, _) => P.EngageOrder
    case ReviewEvents(_, _) => P.AarRequest
  }

  function ScenarioValues(s: Scenario): seq<P.Value> {
    [P.Str(s.name), P.Num(s.worldWidth), P.Num(s.worldHeight), P.Num(s.targetStart.x), P.Num(s.targetStart.y),
     P.Num(s.targetVelocity.x), P.Num(s.targetVelocity.y), P.Num(s.interceptorStart.x), P.Num(s.interceptorStart.y),
     P.Num(s.interceptorSpeed), P.Num(s.interceptRadius), P.Num(s.engagementTimeoutTicks), P.Num(s.seekerFovDeg),
     P.Num(s.launchAngleDeg)]
  }

  function BodyValues(command: Command): seq<P.Value> {
    match command
    case JoinConsole(role) => [P.Str(role)]
    case Leave(reason) => [P.Str(reason)]
    case StartRun(scenario) => ScenarioValues(scenario)
    case StopRun(reason) => [P.Str(reason)]
    case ResetRun(reason) => [P.Str(reason)]
    case Acquire(target) => [P.Str(target)]
    case Drop(target) => [P.Str(target)]
    case ReadyAsset(asset) => [P.Str(asset)]
    case Order(asset, target) => [P.Str(asset), P.Str(target)]
    case ReviewEvents(requested, control) => [P.Num(requested), P.Str(control)]
  }

  function SenderValues(sender: Envelope): seq<P.Value> {
    [P.Num(sender.sessionId), P.Num(sender.senderId), P.Num(sender.sequence)]
  }

  function ValuesOf(sender: Envelope, command: Command): seq<P.Value> { SenderValues(sender) + BodyValues(command) }

  predicate Fits32(n: int) { -TWO_31 <= n < TWO_31 }

  /** What the members of the console's payloads can hold: 32-bit and 64-bit numbers, any texts, and
      the three review controls. */
  predicate Sendable(sender: Envelope, command: Command) {
    && sender.sessionId < TWO_32 && sender.senderId < TWO_32 && sender.sequence < TWO_64
    && (command.ReviewEvents? ==> command.requested < TWO_64 && command.control in CONTROLS)
    && (command.StartRun? ==>
          var s := command.scenario;
          && Fits32(s.worldWidth) && Fits32(s.worldHeight) && Fits32(s.targetStart.x) && Fits32(s.targetStart.y)
          && Fits32(s.targetVelocity.x) && Fits32(s.targetVelocity.y) && Fits32(s.interceptorStart.x)
          && Fits32(s.interceptorStart.y) && Fits32(s.interceptorSpeed) && Fits32(s.interceptRadius)
          && Fits32(s.engagementTimeoutTicks) && Fits32(s.seekerFovDeg) && Fits32(s.launchAngleDeg))
  }

  function FrameOf(sender: Envelope, command: Command): Frame
    requires Sendable(sender, command)
  {
    ValuesFit(sender, command);
    WriterAndReaderAgree(KindFor(command));
    Frame(P.KindText(KindFor(command)), P.Serialize(KindFor(command), ValuesOf(sender, command)))
  }

  // ---------------------------------------------------------------------------
  // What is written is understood

  lemma ScenarioFits(sender: Envelope, scenario: Scenario)
    requires Sendable(sender, StartRun(scenario))
    ensures P.WellFormed(P.ScenarioFields(), ScenarioValues(scenario))
  {
  }

  lemma BodyFits(sender: Envelope, command: Command)
    requires Sendable(sender, command)
    ensures P.WellFormed(P.BodyFields(KindFor(command)), BodyValues(command))
  {
    hide P.ScenarioFields, ScenarioValues;
    if command.StartRun? { ScenarioFits(sender, command.scenario); }
  }

  lemma SenderFits(sender: Envelope, command: Command)
    requires Sendable(sender, command)
    ensures P.WellFormed(P.EnvelopeFields(), SenderValues(sender))
  {
  }

  lemma FieldsJoin(a: seq<P.Field>, b: seq<P.Field>, m: seq<P.Value>, n: seq<P.Value>)
    requires P.WellFormed(a, m) && P.WellFormed(b, n)
    ensures P.WellFormed(a + b, m + n)
  {
    hide P.Holds;
  }

  lemma ValuesFit(sender: Envelope, command: Command)
    requires Sendable(sender, command)
    ensures P.WellFormed(P.Schema(KindFor(command)), ValuesOf(sender, command))
  {
    BodyFits(sender, command);
    SenderFits(sender, command);
    FieldsJoin(P.EnvelopeFields(), P.BodyFields(KindFor(command)), SenderValues(sender), BodyValues(command));
    hide P.WellFormed, P.EnvelopeFields, P.BodyFields, SenderValues, BodyValues, Sendable;
  }

  lemma ValuesAreUnderstood(sender: Envelope, command: Command)
    ensures SenderOf(ValuesOf(sender, command)) == sender
    ensures CommandOf(KindFor(command), ValuesOf(sender, command)) == command
  {
  }

  lemma KindIsUnderstood(command: Command)
    ensures KindOf(P.KindText(KindFor(command))) == Some(KindFor(command))
  {
    hide P.KindText;
    forall other: P.Kind | other != KindFor(command) ensures P.KindText(other) != P.KindText(KindFor(command)) {
      KindsDiffer(KindFor(command), other);
    }
  }

  /** Every command a console can write is understood as it was meant: its sender, its kind and all
      its members. */
  lemma RequestRoundTrip(sender: Envelope, command: Command)
    requires Sendable(sender, command)
    ensures RequestOf(FrameOf(sender, command)) == Commanded(sender, command)
  {
    hide KindOf, P.KindText, P.Serialize, P.Parse, ValuesOf, Sendable;
    ValuesFit(sender, command);
    KindIsUnderstood(command);
    PayloadRoundTrip(KindFor(command), ValuesOf(sender, command));
    ValuesAreUnderstood(sender, command);
  }

  // ---------------------------------------------------------------------------
  // Replies

  function ReplyKind(r: Reply): P.Kind { if r.Ack? then P.CommandAck else P.AarResponse }

  function ReplyBody(r: Reply): seq<P.Value> {
    match r
    case Ack(_, _, accepted, reason) => [P.Bool(accepted), P.Str(reason)]
    case Review(_, _, resolution, code, exercised, event) =>
      [P.Num(resolution.cursor.index), P.Str(resolution.control), P.Num(resolution.requested), P.Bool(resolution.clamped),
       P.Str(CodeText(code)), P.Str(ResilienceCase(exercised)), P.Num(resolution.cursor.total),
       P.Str(if event.Some? then EventTypeText(event.value.eventType) else "none"),
       P.Str(if event.Some? then event.value.summary else "no event")]
  }

  function ReplyValues(r: Reply): seq<P.Value> {
    SenderValues(Envelope(r.sessionId, SERVER_SENDER_ID, r.sequence)) + ReplyBody(r)
  }

  predicate Repliable(r: Reply) {
    && r.sessionId < TWO_32 && r.sequence < TWO_64
    && (r.Review? ==>
          && r.resolution.cursor.index < TWO_64 && r.resolution.cursor.total < TWO_64
          && r.resolution.requested < TWO_64 && r.resolution.control in CONTROLS)
  }

  function ReplyFrame(r: Reply): Frame
    requires Repliable(r)
  {
    ReplyFits(r);
    WriterAndReaderAgree(ReplyKind(r));
    Frame(P.KindText(ReplyKind(r)), P.Serialize(ReplyKind(r), ReplyValues(r)))
  }

  /** What a console learns from a reply. */
  datatype Heard =
    | HeardAck(from: Envelope, accepted: bool, reason: string)
    | HeardReview(from: Envelope, resolution: Resolution, code: AssessmentCode, resilienceCase: string,
                  eventType: string, eventSummary: string)

  function FlagAt(values: seq<P.Value>, i: nat): bool { i < |values| && values[i].Bool? && values[i].b }

  function HeardIn(kind: P.Kind, values: seq<P.Value>): Heard {
    if kind == P.CommandAck then HeardAck(SenderOf(values), FlagAt(values, 3), TextAt(values, 4))
    else HeardReview(SenderOf(values),
                     Resolution(Cursor(NatAt(values, 3), NatAt(values, 9)), TextAt(values, 4), NatAt(values, 5), FlagAt(values, 6)),
                     CodeOf(TextAt(values, 7)), TextAt(values, 8), TextAt(values, 10), TextAt(values, 11))
  }

  /** What the server means a console to learn. */
  function Meant(r: Reply): Heard {
    match r
    case Ack(sessionId, sequence, accepted, reason) =>
      HeardAck(Envelope(sessionId, SERVER_SENDER_ID, sequence), accepted, reason)
    case Review(sessionId, sequence, resolution, code, exercised, event) =>
      HeardReview(Envelope(sessionId, SERVER_SENDER_ID, sequence), resolution, code, ResilienceCase(exercised),
                  if event.Some? then EventTypeText(event.value.eventType) else "none",
                  if event.Some? then event.value.summary else "no event")
  }

  lemma PlainValuesFit()
    ensures forall n: int :: 0 <= n < TWO_64 ==> P.Holds(P.U64, P.Num(n))
    ensures forall b: bool :: P.Holds(P.Flag, P.Bool(b))
    ensures forall s: string :: P.Holds(P.Text, P.Str(s))
    ensures forall names, s: string :: s in names ==> P.Holds(P.Choice(names), P.Str(s))
  {
  }

  lemma ReviewFits(r: Reply)
    requires Repliable(r) && r.Review?
    ensures P.WellFormed(P.ReviewFields(), ReplyBody(r))
  {
    hide P.Holds, CodeText, EventTypeText, ResilienceCase, CodeOf;
    PlainValuesFit();
    CodeIsRead(r.code);
  }

  lemma AckFits(r: Reply)
    requires r.Ack?
    ensures P.WellFormed(P.BodyFields(P.CommandAck), ReplyBody(r))
  {
  }

  lemma ReplyFits(r: Reply)
    requires Repliable(r)
    ensures P.WellFormed(P.Schema(ReplyKind(r)), ReplyValues(r))
  {
    hide P.Holds, P.WellFormed, P.EnvelopeFields, P.ReviewFields, SenderValues, ReplyBody;
    if r.Review? { ReviewFits(r); } else { AckFits(r); }
    SenderFits(Envelope(r.sessionId, SERVER_SENDER_ID, r.sequence), Leave(""));
    FieldsJoin(P.EnvelopeFields(), P.BodyFields(ReplyKind(r)), SenderValues(Envelope(r.sessionId, SERVER_SENDER_ID, r.sequence)),
               ReplyBody(r));
  }

  lemma ReplyIsHeard(r: Reply)
    ensures HeardIn(ReplyKind(r), ReplyValues(r)) == Meant(r)
  {
    hide P.KindText, EventTypeText, ResilienceCase, CodeText, CodeOf;
    if r.Review? { CodeIsRead(r.code); }
  }

  /** Every reply is heard as it was meant, an acknowledgement and a review alike. */
  lemma ReplyRoundTrip(r: Reply)
    requires Repliable(r)
    ensures var kind, frame := ReplyKind(r), ReplyFrame(r);
            && frame.kind == P.KindText(kind) && P.Parse(kind, frame.payload).Ok?
            && HeardIn(kind, P.Parse(kind, frame.payload).value) == Meant(r)
  {
    hide P.KindText, P.Serialize, P.Parse, EventTypeText, ResilienceCase, CodeText, CodeOf, ReplyValues, HeardIn,
         Repliable;
    ReplyFits(r);
    PayloadRoundTrip(ReplyKind(r), ReplyValues(r));
    ReplyIsHeard(r);
  }
}
