/** The payloads: which keys the writer of each kind prints, which fields its reader asks for, and
    how values are printed and read. */
module Payloads {
  import opened Text
  import opened FieldCodec
  import opened Names

  datatype Kind =
    | SessionCreate | SessionJoin | SessionLeave | ScenarioStart | ScenarioStop | ScenarioReset
    | TrackAcquire | TrackDrop | ReadyInterceptor | EngageOrder | AssessmentReport | CommandAck
    | AarResponse | WorldSnapshot | TelemetrySample | DisplayHeartbeat | DisplayHeartbeatAck | AarRequest

  /** `Real` fields are carried as their printed text. */
  datatype Form = U32 | U64 | I32 | Flag | Text | Real | Choice(names: seq<string>)
  datatype Absent = Missing | Default(text: string) | Alias(key: string)
  datatype Field = Field(key: string, form: Form, absent: Absent)

  datatype Value = Num(n: int) | Bool(b: bool) | Str(s: string)

  // ---------------------------------------------------------------------------
  // The kinds and the fields their readers ask for

  function KindText(kind: Kind): string {
    match kind
    case SessionCreate => "session_create"
    case SessionJoin => "session_join"
    case SessionLeave => "session_leave"
    case ScenarioStart => "scenario_start"
    case ScenarioStop => "scenario_stop"
    case ScenarioReset => "scenario_reset"
    case TrackAcquire => "track_acquire"
    case TrackDrop => "track_drop"
    case ReadyInterceptor => "interceptor_ready"
    case EngageOrder => "engage_order"
    case AssessmentReport => "assessment"
    case CommandAck => "command_ack"
    case AarResponse => "aar_response"
    case WorldSnapshot => "world_snapshot"
    case TelemetrySample => "telemetry"
    case DisplayHeartbeat => "display_heartbeat"
    case DisplayHeartbeatAck => "display_heartbeat_ack"
    case AarRequest => "aar_request"
  }

  function EnvelopeFields(): seq<Field> {
    [Field("session_id", U32, Missing), Field("sender_id", U32, Missing), Field("sequence", U64, Missing)]
  }

  function ScenarioFields(): seq<Field> {
    [Field("scenario_name", Text, Missing),
     Field("world_width", I32, Default("2304")),
     Field("world_height", I32, Default("1536")),
     Field("target_start_x", I32, Default("480")),
     Field("target_start_y", I32, Default("1200")),
     Field("target_velocity_x", I32, Default("5")),
     Field("target_velocity_y", I32, Default("-3")),
     Field("interceptor_start_x", I32, Default("0")),
     Field("interceptor_start_y", I32, Default("0")),
     Field("interceptor_speed_per_tick", I32, Default("32")),
     Field("intercept_radius", I32, Default("24")),
     Field("engagement_timeout_ticks", I32, Default("60")),
     Field("seeker_fov_deg", I32, Default("45")),
     Field("launch_angle_deg", I32, Default("45"))]
  }

  function ReviewFields(): seq<Field> {
    [Field("replay_cursor_index", U64, Missing),
     Field("control", Choice(CONTROLS), Missing),
     Field("requested_index", U64, Missing),
     Field("clamped", Flag, Missing),
     Field("assessment_code", Choice(CODES), Missing),
     Field("resilience_case", Text, Missing),
     Field("total_events", U64, Missing),
     Field("event_type", Text, Missing),
     Field("event_summary", Text, Missing)]
  }

  function TelemetryFields(): seq<Field> {
    [Field("tick", U64, Missing),
     Field("tick_interval_ms", U32, Alias("latency_ms")),
     Field("packet_loss_pct", Real, Missing),
     Field("last_snapshot_timestamp_ms", U64, Missing),
     Field("last_snapshot_wall_time_ms", U64, Missing),
     Field("connection_state", Text, Missing),
     Field("event_tick", U64, Missing),
     Field("event_type", Text, Missing),
     Field("event_summary", Text, Missing)]
  }

  function HeaderFields(): seq<Field> {
    [Field("tick", U64, Missing),
     Field("timestamp_ms", U64, Missing),
     Field("snapshot_sequence", U64, Missing),
     Field("capture_wall_time_ms", U64, Missing),
     Field("phase", Choice(PHASES), Missing),
     Field("world_width", I32, Default("2304")),
     Field("world_height", I32, Default("1536"))]
  }

  function TargetFields(): seq<Field> {
    [Field("target_id", Text, Missing),
     Field("target_active", Flag, Missing),
     Field("target_x", I32, Missing),
     Field("target_y", I32, Missing),
     Field("target_world_x", Real, Default("0")),
     Field("target_world_y", Real, Default("0")),
     Field("target_velocity_x", I32, Default("0")),
     Field("target_velocity_y", I32, Default("0")),
     Field("target_velocity_world_x", Real, Default("0")),
     Field("target_velocity_world_y", Real, Default("0")),
     Field("target_heading_deg", Real, Default("0"))]
  }

  function InterceptorFields(): seq<Field> {
    [Field("interceptor_id", Text, Missing),
     Field("interceptor_active", Flag, Missing),
     Field("interceptor_x", I32, Missing),
     Field("interceptor_y", I32, Missing),
     Field("interceptor_world_x", Real, Default("0")),
     Field("interceptor_world_y", Real, Default("0")),
     Field("interceptor_velocity_world_x", Real, Default("0")),
     Field("interceptor_velocity_world_y", Real, Default("0")),
     Field("interceptor_heading_deg", Real, Default("0")),
     Field("interceptor_speed_per_tick", I32, Default("0")),
     Field("interceptor_acceleration_per_tick", Real, Default("0"))]
  }

  function GuidanceFields(): seq<Field> {
    [Field("intercept_radius", I32, Default("0")),
     Field("engagement_timeout_ticks", I32, Default("0")),
     Field("seeker_fov_deg", Real, Default("0")),
     Field("seeker_lock", Flag, Default("false")),
     Field("off_boresight_deg", Real, Default("0")),
     Field("predicted_intercept_valid", Flag, Default("false")),
     Field("predicted_intercept_x", Real, Default("0")),
     Field("predicted_intercept_y", Real, Default("0")),
     Field("time_to_intercept_s", Real, Default("0"))]
  }

  function TrackFields(): seq<Field> {
    [Field("track_active", Flag, Missing),
     Field("track_estimated_x", Real, Default("0")),
     Field("track_estimated_y", Real, Default("0")),
     Field("track_estimated_vx", Real, Default("0")),
     Field("track_estimated_vy", Real, Default("0")),
     Field("track_measurement_valid", Flag, Default("false")),
     Field("track_measurement_x", Real, Default("0")),
     Field("track_measurement_y", Real, Default("0")),
     Field("track_measurement_residual_distance", Real, Default("0")),
     Field("track_covariance_trace", Real, Default("0")),
     Field("track_measurement_age_ticks", I32, Default("0")),
     Field("track_missed_updates", I32, Default("0"))]
  }

  function StatusFields(): seq<Field> {
    [Field("interceptor_status", Choice(INTERCEPTOR_STATUSES), Missing),
     Field("engage_order_status", Choice(ORDER_STATUSES), Missing),
     Field("assessment_ready", Flag, Missing),
     Field("assessment_code", Choice(CODES), Missing),
     Field("launch_angle_deg", Real, Default("45"))]
  }

  /** What follows the envelope, or the whole payload of a session request. */
  function BodyFields(kind: Kind): seq<Field> {
    match kind
    case SessionCreate => [Field("requested_sender_id", U32, Missing), Field("scenario_name", Text, Missing)]
    case SessionJoin => [Field("client_role", Text, Missing)]
    case SessionLeave | ScenarioStop | ScenarioReset => [Field("reason", Text, Missing)]
    case ScenarioStart => ScenarioFields()
    case TrackAcquire | TrackDrop => [Field("target_id", Text, Missing)]
    case ReadyInterceptor => [Field("interceptor_id", Text, Missing)]
    case EngageOrder => [Field("interceptor_id", Text, Missing), Field("target_id", Text, Missing)]
    case AssessmentReport => [Field("accepted", Flag, Missing), Field("outcome", Text, Missing)]
    case CommandAck => [Field("accepted", Flag, Missing), Field("reason", Text, Missing)]
    case AarResponse => ReviewFields()
    case WorldSnapshot => HeaderFields() + TargetFields() + InterceptorFields() + GuidanceFields() + TrackFields() + StatusFields()
    case TelemetrySample => TelemetryFields()
    case DisplayHeartbeat => [Field("heartbeat_id", U64, Missing), Field("client_send_wall_time_ms", U64, Missing)]
    case DisplayHeartbeatAck =>
      [Field("heartbeat_id", U64, Missing), Field("client_send_wall_time_ms", U64, Missing),
       Field("server_receive_wall_time_ms", U64, Missing), Field("server_send_wall_time_ms", U64, Missing)]
    case AarRequest => [Field("replay_cursor_index", U64, Missing), Field("control", Choice(CONTROLS), Missing)]
  }

  function Schema(kind: Kind): seq<Field> {
    if kind == SessionCreate then BodyFields(kind) else EnvelopeFields() + BodyFields(kind)
  }

  // ---------------------------------------------------------------------------
  // The keys the writers print

  function ScenarioKeys(): seq<string> {
    ["scenario_name", "world_width", "world_height", "target_start_x", "target_start_y", "target_velocity_x",
     "target_velocity_y", "interceptor_start_x", "interceptor_start_y", "interceptor_speed_per_tick", "intercept_radius",
     "engagement_timeout_ticks", "seeker_fov_deg", "launch_angle_deg"]
  }

  function ReviewKeys(): seq<string> {
    ["replay_cursor_index", "control", "requested_index", "clamped", "assessment_code", "resilience_case", "total_events",
     "event_type", "event_summary"]
  }

  function TelemetryKeys(): seq<string> {
    ["tick", "tick_interval_ms", "packet_loss_pct", "last_snapshot_timestamp_ms", "last_snapshot_wall_time_ms",
     "connection_state", "event_tick", "event_type", "event_summary"]
  }

  function HeaderKeys(): seq<string> {
    ["tick", "timestamp_ms", "snapshot_sequence", "capture_wall_time_ms", "phase", "world_width", "world_height"]
  }

  function TargetKeys(): seq<string> {
    ["target_id", "target_active", "target_x", "target_y", "target_world_x", "target_world_y", "target_velocity_x",
     "target_velocity_y", "target_velocity_world_x", "target_velocity_world_y", "target_heading_deg"]
  }

  function InterceptorKeys(): seq<string> {
    ["interceptor_id", "interceptor_active", "interceptor_x", "interceptor_y", "interceptor_world_x", "interceptor_world_y",
     "interceptor_velocity_world_x", "interceptor_velocity_world_y", "interceptor_heading_deg", "interceptor_speed_per_tick",
     "interceptor_acceleration_per_tick"]
  }

  function GuidanceKeys(): seq<string> {
    ["intercept_radius", "engagement_timeout_ticks", "seeker_fov_deg", "seeker_lock", "off_boresight_deg",
     "predicted_intercept_valid", "predicted_intercept_x", "predicted_intercept_y", "time_to_intercept_s"]
  }

  function TrackKeys(): seq<string> {
    ["track_active", "track_estimated_x", "track_estimated_y", "track_estimated_vx", "track_estimated_vy",
     "track_measurement_valid", "track_measurement_x", "track_measurement_y", "track_measurement_residual_distance",
     "track_covariance_trace", "track_measurement_age_ticks", "track_missed_updates"]
  }

  function StatusKeys(): seq<string> {
    ["interceptor_status", "engage_order_status", "assessment_ready", "assessment_code", "launch_angle_deg"]
  }

  function BodyKeys(kind: Kind): seq<string> {
    match kind
    case SessionCreate => ["requested_sender_id", "scenario_name"]
    case SessionJoin => ["client_role"]
    case SessionLeave | ScenarioStop | ScenarioReset => ["reason"]
    case ScenarioStart => ScenarioKeys()
    case TrackAcquire | TrackDrop => ["target_id"]
    case ReadyInterceptor => ["interceptor_id"]
    case EngageOrder => ["interceptor_id", "target_id"]
    case AssessmentReport => ["accepted", "outcome"]
    case CommandAck => ["accepted", "reason"]
    case AarResponse => ReviewKeys()
    case WorldSnapshot => HeaderKeys() + TargetKeys() + InterceptorKeys() + GuidanceKeys() + TrackKeys() + StatusKeys()
    case TelemetrySample => TelemetryKeys()
    case DisplayHeartbeat => ["heartbeat_id", "client_send_wall_time_ms"]
    case DisplayHeartbeatAck =>
      ["heartbeat_id", "client_send_wall_time_ms", "server_receive_wall_time_ms", "server_send_wall_time_ms"]
    case AarRequest => ["replay_cursor_index", "control"]
  }

  function EnvelopeKeys(): seq<string> { ["session_id", "sender_id", "sequence"] }

  function WrittenKeys(kind: Kind): seq<string> {
    if kind == SessionCreate then BodyKeys(kind) else EnvelopeKeys() + BodyKeys(kind)
  }

  // ---------------------------------------------------------------------------
  // Values

  /** The values a member of this form can have in the program. */
  predicate Holds(form: Form, value: Value) {
    match form
    case U32 => value.Num? && 0 <= value.n < TWO_32
    case U64 => value.Num? && 0 <= value.n < TWO_64
    case I32 => value.Num? && -TWO_31 <= value.n < TWO_31
    case Flag => value.Bool?
    case Text | Real => value.Str?
    case Choice(names) => value.Str? && value.s in names
  }

  predicate WellFormed(schema: seq<Field>, values: seq<Value>) {
    |values| == |schema| && forall i :: 0 <= i < |values| ==> Holds(schema[i].form, values[i])
  }

  function Printed(value: Value): string {
    match value
    case Num(n) => IntText(n)
    case Bool(b) => if b then "true" else "false"
    case Str(s) => s
  }

  /** `std::from_chars` into an unsigned integer: the digits at the front, whatever follows them. */
  function ParseUnsigned(text: string, bound: nat, complaint: string): Result<nat> {
    var digits := DigitPrefix(text).0;
    if digits == "" || Decimal(digits) >= bound then Error(complaint) else Ok(Decimal(digits))
  }

  /** `std::from_chars` into a 64-bit signed integer. */
  function ParseSigned(text: string): Result<int> {
    if text != "" && text[0] == '-' then
      var magnitude := DigitPrefix(text[1..]).0;
      var n: int := Decimal(magnitude);
      if magnitude == "" || n > TWO_63 then Error("invalid int64 field") else Ok(-n)
    else
      var digits := DigitPrefix(text).0;
      if digits == "" || Decimal(digits) >= TWO_63 then Error("invalid int64 field") else Ok(Decimal(digits))
  }

  /** The conversion to `int`. */
  function Narrow(n: int): int { (n + TWO_31) % TWO_32 - TWO_31 }

  function ParseScalar(form: Form, key: string, text: string): Result<Value> {
    match form
    case U32 => var n :- ParseUnsigned(text, TWO_32, "invalid uint32 field"); Ok(Num(n))
    case U64 => var n :- ParseUnsigned(text, TWO_64, "invalid uint64 field"); Ok(Num(n))
    case I32 => var n :- ParseSigned(text); Ok(Num(Narrow(n)))
    case Flag => if text == "true" then Ok(Bool(true)) else if text == "false" then Ok(Bool(false)) else Error("invalid bool field")
    case Text | Real => Ok(Str(text))
    case Choice(names) => if text in names then Ok(Str(text)) else Error("invalid enum field: " + key)
  }

  function Require(fields: FieldMap, key: string): Result<string> {
    if key in fields then Ok(fields[key]) else Error("missing field: " + key)
  }

  function FieldText(field: Field, fields: FieldMap): Result<string> {
    if field.key in fields then Ok(fields[field.key])
    else match field.absent
         case Missing => Error("missing field: " + field.key)
         case Default(text) => Ok(text)
         case Alias(key) => Require(fields, key)
  }

  // ---------------------------------------------------------------------------
  // Payloads

  function Pairs(keys: seq<string>, values: seq<Value>): (r: seq<Pair>)
    requires |values| == |keys|
    ensures |r| == |keys|
    ensures forall i :: 0 <= i < |r| ==> r[i] == Pair(keys[i], Printed(values[i]))
  {
    if keys == [] then [] else [Pair(keys[0], Printed(values[0]))] + Pairs(keys[1..], values[1..])
  }

  function AllPairs(kind: Kind, values: seq<Value>): seq<Pair>
    requires |values| == |WrittenKeys(kind)|
  {
    [Pair("kind", KindText(kind))] + Pairs(WrittenKeys(kind), values)
  }

  function Serialize(kind: Kind, values: seq<Value>): string
    requires |values| == |WrittenKeys(kind)|
  {
    JoinFields(AllPairs(kind, values))
  }

  function ParseValues(schema: seq<Field>, fields: FieldMap): Result<seq<Value>> {
    if schema == [] then Ok([])
    else
      var text :- FieldText(schema[0], fields);
      var value :- ParseScalar(schema[0].form, schema[0].key, text);
      var rest :- ParseValues(schema[1..], fields);
      Ok([value] + rest)
  }

  function Parse(kind: Kind, wire: string): Result<seq<Value>> {
    var fields :- ParseFields(wire);
    var found :- Require(fields, "kind");
    if found != KindText(kind) then Error("unexpected payload kind") else ParseValues(Schema(kind), fields)
  }
}
