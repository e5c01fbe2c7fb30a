/** The keys of the payloads hold no separator, and no two fields of a payload share one. */
module PayloadKeys {
  import opened FieldCodec
  import opened Payloads

  /** A number for each key, found from its length and its first, last and fourth-last letters. */
  ghost function Rank(key: string): int {
    if |key| < 4 then -1
    else
      var a, b, c := key[0], key[|key| - 4], key[|key| - 1];
      match |key|
      case 4 => if a == 'k' then 0 else 9
      case 5 => 25
      case 6 => 11
      case 7 => if a == 'o' then 12 else if c == 'l' then 13 else 21
      case 8 => if a == 's' then 4 else if a == 'a' then 7 else if c == 'x' then 35 else 36
      case 9 => if a == 's' then 3 else 32
      case 10 => if a == 's' then 2 else if c == 'k' then 30 else 85
      case 11 => if a == 'c' then 6 else if a == 'w' then 27 else 60
      case 12 => if a == 'h' then 10
          else if a == 't' then (if c == 's' then (if b == 'p' then 14 else 84) else 66) else 29
      case 13 => if a == 's' then 5 else if a == 't' then 34 else if a == 'i' then (if c == 'x' then 48 else 49) else 86
      case 14 => if a == 't' then (if c == 'x' then (if b == 'r' then 31 else 37) else if b == 'r' then 33 else 38)
          else if a == 'i' then 46 else 59
      case 15 => if a == 'r' then (if c == 'x' then 17 else 83) else if a == 'p' then 19 else 81
      case 16 => if a == 't' then 15 else if a == 'c' then 28 else if a == 'i' then 57 else if a == 'a' then 80 else 82
      case 17 => if a == 's' then 18 else if a == 't' then (if c == 'x' then (if b == 't' then 39 else 67)
          else if b == 't' then 40 else 68) else 61
      case 18 => if a == 't' then (if c == 'g' then 45 else if c == 'x' then 69 else 70)
          else if c == 'e' then 47 else 78
      case 19 => if a == 'r' then (if c == 'd' then 1 else 8)
          else if a == 'i' then (if c == 'x' then (if b == 'r' then 41 else 50) else if b == 'r' then 43 else 51)
          else if a == 't' then (if c == 's' then 65 else if c == 'x' then 72 else 73) else 79
      case 20 => if a == 'c' then 22 else 77
      case 21 => if c == 'x' then 63 else 64
      case 22 => 75
      case 23 => if a == 't' then (if c == 'x' then 42 else if c == 'y' then 44 else 71) else 54
      case 24 => if a == 'c' then 16 else if a == 's' then 24 else 58
      case 25 => 62
      case 26 => if a == 'l' then (if b == 'p' then 23 else 26) else 55
      case 27 => if a == 's' then 20 else 76
      case 28 => if c == 'x' then 52 else 53
      case 33 => 56
      case 35 => 74
      case _ => -1
  }

  /** Lower-case letters and underscores only: all of them come after the separators. */
  predicate Lettered(key: string) { forall i :: 0 <= i < |key| ==> key[i] >= '_' }

  ghost predicate Ranked(fields: seq<Field>, low: int, high: int) {
    && (forall i :: 0 <= i < |fields| ==> Lettered(fields[i].key) && low <= Rank(fields[i].key) < high)
    && (forall i :: 0 < i < |fields| ==> Rank(fields[i - 1].key) < Rank(fields[i].key))
  }

  lemma RankedJoin(a: seq<Field>, b: seq<Field>, low: int, mid: int, high: int)
    requires Ranked(a, low, mid) && Ranked(b, mid, high) && low <= mid <= high
    ensures Ranked(a + b, low, high)
  {
    hide Rank, Lettered;
    var s := a + b;
    forall i | 0 < i < |s| ensures Rank(s[i - 1].key) < Rank(s[i].key) {
      assert i < |a| ==> s[i - 1] == a[i - 1] && s[i] == a[i];
      assert i > |a| ==> s[i - 1] == b[i - |a| - 1] && s[i] == b[i - |a|];
    }
  }

  ghost predicate Distinct(fields: seq<Field>) {
    && (forall f <- fields :: PlainKey(f.key) && f.key != "kind")
    && (forall i, j :: 0 <= i < j < |fields| ==> fields[i].key != fields[j].key)
  }

  lemma {:induction false} RankGrows(fields: seq<Field>, low: int, high: int, i: nat, j: nat)
    requires Ranked(fields, low, high) && i < j < |fields|
    ensures Rank(fields[i].key) < Rank(fields[j].key)
  {
    hide Rank, Lettered;
    if i + 1 < j { RankGrows(fields, low, high, i, j - 1); }
  }

  lemma RankedIsDistinct(fields: seq<Field>, high: int)
    requires Ranked(fields, 1, high)
    ensures Distinct(fields)
  {
    KindRank();
    hide Rank;
    forall i, j | 0 <= i < j < |fields| ensures fields[i].key != fields[j].key { RankGrows(fields, 1, high, i, j); }
  }

  lemma EnvelopeRanks()
    ensures Rank("session_id") == 2 && Rank("sender_id") == 3 && Rank("sequence") == 4
  {
  }

  lemma EnvelopeLetters()
    ensures Lettered("session_id") && Lettered("sender_id") && Lettered("sequence")
  {
  }

  lemma EnvelopeIsRanked()
    ensures Ranked(EnvelopeFields(), 2, 5)
  {
    hide Rank, Lettered;
    EnvelopeRanks(); EnvelopeLetters();
  }

  lemma ScenarioRanks()
    ensures Rank("scenario_name") == 5 && Rank("world_width") == 27 && Rank("world_height") == 29
    ensures Rank("target_start_x") == 31 && Rank("target_start_y") == 33 && Rank("target_velocity_x") == 39
    ensures Rank("target_velocity_y") == 40 && Rank("interceptor_start_x") == 41
    ensures Rank("interceptor_start_y") == 43 && Rank("interceptor_speed_per_tick") == 55
    ensures Rank("intercept_radius") == 57 && Rank("engagement_timeout_ticks") == 58
    ensures Rank("seeker_fov_deg") == 59 && Rank("launch_angle_deg") == 82
  {
  }

  lemma ScenarioLetters1()
    ensures Lettered("scenario_name") && Lettered("world_width") && Lettered("world_height")
    ensures Lettered("target_start_x") && Lettered("target_start_y")
    ensures Lettered("target_velocity_x") && Lettered("target_velocity_y") && Lettered("interceptor_start_x")
    ensures Lettered("interceptor_start_y")
  {
  }

  lemma ScenarioLetters2()
    ensures Lettered("interceptor_speed_per_tick") && Lettered("intercept_radius")
    ensures Lettered("engagement_timeout_ticks")
    ensures Lettered("seeker_fov_deg") && Lettered("launch_angle_deg")
  {
  }

  lemma ScenarioIsRanked()
    ensures Ranked(ScenarioFields(), 5, 83)
  {
    hide Rank, Lettered;
    ScenarioRanks(); ScenarioLetters1(); ScenarioLetters2();
  }

  lemma ReviewRanks()
    ensures Rank("replay_cursor_index") == 8 && Rank("control") == 13 && Rank("requested_index") == 17
    ensures Rank("clamped") == 21 && Rank("assessment_code") == 81 && Rank("resilience_case") == 83
    ensures Rank("total_events") == 84 && Rank("event_type") == 85 && Rank("event_summary") == 86
  {
  }

  lemma ReviewLetters()
    ensures Lettered("replay_cursor_index") && Lettered("control") && Lettered("requested_index")
    ensures Lettered("clamped") && Lettered("assessment_code")
    ensures Lettered("resilience_case") && Lettered("total_events") && Lettered("event_type")
    ensures Lettered("event_summary")
  {
  }

  lemma ReviewIsRanked()
    ensures Ranked(ReviewFields(), 8, 87)
  {
    hide Rank, Lettered;
    ReviewRanks(); ReviewLetters();
  }

  lemma TelemetryRanks()
    ensures Rank("tick") == 9 && Rank("tick_interval_ms") == 15 && Rank("packet_loss_pct") == 19
    ensures Rank("last_snapshot_timestamp_ms") == 23 && Rank("last_snapshot_wall_time_ms") == 26
    ensures Rank("connection_state") == 28 && Rank("event_tick") == 30 && Rank("event_type") == 85
    ensures Rank("event_summary") == 86
  {
  }

  lemma TelemetryLetters()
    ensures Lettered("tick") && Lettered("tick_interval_ms") && Lettered("packet_loss_pct")
    ensures Lettered("last_snapshot_timestamp_ms")
    ensures Lettered("last_snapshot_wall_time_ms") && Lettered("connection_state") && Lettered("event_tick")
    ensures Lettered("event_type") && Lettered("event_summary")
  {
  }

  lemma TelemetryIsRanked()
    ensures Ranked(TelemetryFields(), 9, 87)
  {
    hide Rank, Lettered;
    TelemetryRanks(); TelemetryLetters();
  }

  lemma HeaderRanks()
    ensures Rank("tick") == 9 && Rank("timestamp_ms") == 14 && Rank("snapshot_sequence") == 18
    ensures Rank("capture_wall_time_ms") == 22 && Rank("phase") == 25 && Rank("world_width") == 27
    ensures Rank("world_height") == 29
  {
  }

  lemma HeaderLetters()
    ensures Lettered("tick") && Lettered("timestamp_ms") && Lettered("snapshot_sequence")
    ensures Lettered("capture_wall_time_ms") && Lettered("phase") && Lettered("world_width")
    ensures Lettered("world_height")
  {
  }

  lemma HeaderIsRanked()
    ensures Ranked(HeaderFields(), 9, 30)
  {
    hide Rank, Lettered;
    HeaderRanks(); HeaderLetters();
  }

  lemma TargetRanks()
    ensures Rank("target_id") == 32 && Rank("target_active") == 34 && Rank("target_x") == 35
    ensures Rank("target_y") == 36 && Rank("target_world_x") == 37 && Rank("target_world_y") == 38
    ensures Rank("target_velocity_x") == 39 && Rank("target_velocity_y") == 40
    ensures Rank("target_velocity_world_x") == 42 && Rank("target_velocity_world_y") == 44
    ensures Rank("target_heading_deg") == 45
  {
  }

  lemma TargetLetters1()
    ensures Lettered("target_id") && Lettered("target_active") && Lettered("target_x") && Lettered("target_y")
    ensures Lettered("target_world_x") && Lettered("target_world_y")
  {
  }

  lemma TargetLetters2()
    ensures Lettered("target_velocity_x") && Lettered("target_velocity_y")
    ensures Lettered("target_velocity_world_x")
    ensures Lettered("target_velocity_world_y") && Lettered("target_heading_deg")
  {
  }

  lemma TargetIsRanked()
    ensures Ranked(TargetFields(), 32, 46)
  {
    hide Rank, Lettered;
    TargetRanks(); TargetLetters1(); TargetLetters2();
  }

  lemma InterceptorRanks()
    ensures Rank("interceptor_id") == 46 && Rank("interceptor_active") == 47 && Rank("interceptor_x") == 48
    ensures Rank("interceptor_y") == 49 && Rank("interceptor_world_x") == 50
    ensures Rank("interceptor_world_y") == 51 && Rank("interceptor_velocity_world_x") == 52
    ensures Rank("interceptor_velocity_world_y") == 53 && Rank("interceptor_heading_deg") == 54
    ensures Rank("interceptor_speed_per_tick") == 55 && Rank("interceptor_acceleration_per_tick") == 56
  {
  }

  lemma InterceptorLetters1()
    ensures Lettered("interceptor_id") && Lettered("interceptor_active") && Lettered("interceptor_x")
    ensures Lettered("interceptor_y") && Lettered("interceptor_world_x") && Lettered("interceptor_world_y")
  {
  }

  lemma InterceptorLetters2()
    ensures Lettered("interceptor_velocity_world_x") && Lettered("interceptor_velocity_world_y")
  {
  }

  lemma InterceptorLetters3()
    ensures Lettered("interceptor_heading_deg") && Lettered("interceptor_speed_per_tick")
    ensures Lettered("interceptor_acceleration_per_tick")
  {
  }

  lemma InterceptorIsRanked()
    ensures Ranked(InterceptorFields(), 46, 57)
  {
    hide Rank, Lettered;
    InterceptorRanks(); InterceptorLetters1(); InterceptorLetters2(); InterceptorLetters3();
  }

  lemma GuidanceRanks()
    ensures Rank("intercept_radius") == 57 && Rank("engagement_timeout_ticks") == 58
    ensures Rank("seeker_fov_deg") == 59 && Rank("seeker_lock") == 60 && Rank("off_boresight_deg") == 61
    ensures Rank("predicted_intercept_valid") == 62 && Rank("predicted_intercept_x") == 63
    ensures Rank("predicted_intercept_y") == 64 && Rank("time_to_intercept_s") == 65
  {
  }

  lemma GuidanceLetters1()
    ensures Lettered("intercept_radius") && Lettered("engagement_timeout_ticks") && Lettered("seeker_fov_deg")
    ensures Lettered("seeker_lock")
    ensures Lettered("off_boresight_deg") && Lettered("predicted_intercept_valid")
    ensures Lettered("predicted_intercept_x")
  {
  }

  lemma GuidanceLetters2()
    ensures Lettered("predicted_intercept_y") && Lettered("time_to_intercept_s")
  {
  }

  lemma GuidanceIsRanked()
    ensures Ranked(GuidanceFields(), 57, 66)
  {
    hide Rank, Lettered;
    GuidanceRanks(); GuidanceLetters1(); GuidanceLetters2();
  }

  lemma TrackRanks()
    ensures Rank("track_active") == 66 && Rank("track_estimated_x") == 67 && Rank("track_estimated_y") == 68
    ensures Rank("track_estimated_vx") == 69 && Rank("track_estimated_vy") == 70
    ensures Rank("track_measurement_valid") == 71 && Rank("track_measurement_x") == 72
    ensures Rank("track_measurement_y") == 73 && Rank("track_measurement_residual_distance") == 74
    ensures Rank("track_covariance_trace") == 75 && Rank("track_measurement_age_ticks") == 76
    ensures Rank("track_missed_updates") == 77
  {
  }

  lemma TrackLetters1()
    ensures Lettered("track_active") && Lettered("track_estimated_x") && Lettered("track_estimated_y")
    ensures Lettered("track_estimated_vx")
    ensures Lettered("track_estimated_vy") && Lettered("track_measurement_valid")
    ensures Lettered("track_measurement_x")
  {
  }

  lemma TrackLetters2()
    ensures Lettered("track_measurement_y") && Lettered("track_measurement_residual_distance")
  {
  }

  lemma TrackLetters3()
    ensures Lettered("track_covariance_trace") && Lettered("track_measurement_age_ticks")
    ensures Lettered("track_missed_updates")
  {
  }

  lemma TrackIsRanked()
    ensures Ranked(TrackFields(), 66, 78)
  {
    hide Rank, Lettered;
    TrackRanks(); TrackLetters1(); TrackLetters2(); TrackLetters3();
  }

  lemma StatusRanks()
    ensures Rank("interceptor_status") == 78 && Rank("engage_order_status") == 79
    ensures Rank("assessment_ready") == 80 && Rank("assessment_code") == 81 && Rank("launch_angle_deg") == 82
  {
  }

  lemma StatusLetters()
    ensures Lettered("interceptor_status") && Lettered("engage_order_status") && Lettered("assessment_ready")
    ensures Lettered("assessment_code")
    ensures Lettered("launch_angle_deg")
  {
  }

  lemma StatusIsRanked()
    ensures Ranked(StatusFields(), 78, 83)
  {
    hide Rank, Lettered;
    StatusRanks(); StatusLetters();
  }

  lemma LetteredIsPlain(key: string)
    requires Lettered(key)
    ensures PlainKey(key)
  {
  }

  lemma SmallBodyIsRanked(kind: Kind)
    requires kind !in {ScenarioStart, EngageOrder, AarResponse, WorldSnapshot, TelemetrySample}
    ensures Ranked(BodyFields(kind), if kind == SessionCreate then 1 else 5, 87)
  {
    RequestRanks();
    ScenarioRanks(); ReviewRanks(); TargetRanks(); InterceptorRanks();
    RequestLetters(); ReceiptLetters();
    ScenarioLetters1(); ReviewLetters(); TargetLetters1(); InterceptorLetters1();
    hide Rank, Lettered;
  }

  lemma RequestRanks()
    ensures Rank("requested_sender_id") == 1 && Rank("client_role") == 6 && Rank("accepted") == 7
    ensures Rank("heartbeat_id") == 10 && Rank("reason") == 11 && Rank("outcome") == 12
    ensures Rank("client_send_wall_time_ms") == 16 && Rank("server_receive_wall_time_ms") == 20
    ensures Rank("server_send_wall_time_ms") == 24
  {
  }

  lemma RequestLetters()
    ensures Lettered("requested_sender_id") && Lettered("client_role") && Lettered("accepted")
    ensures Lettered("heartbeat_id") && Lettered("reason") && Lettered("outcome")
  {
  }

  lemma ReceiptLetters()
    ensures Lettered("client_send_wall_time_ms") && Lettered("server_receive_wall_time_ms")
    ensures Lettered("server_send_wall_time_ms")
  {
  }

  lemma SnapshotBodyIsRanked()
    ensures Ranked(BodyFields(WorldSnapshot), 9, 87)
  {
    HeaderIsRanked(); TargetIsRanked(); InterceptorIsRanked(); GuidanceIsRanked(); TrackIsRanked(); StatusIsRanked();
    hide Rank, Lettered, Ranked, HeaderFields, TargetFields, InterceptorFields, GuidanceFields, TrackFields, StatusFields;
    var two := HeaderFields() + TargetFields();
    var three := two + InterceptorFields();
    var four := three + GuidanceFields();
    Widen(HeaderFields(), 9, 30, 9, 32);
    RankedJoin(HeaderFields(), TargetFields(), 9, 32, 46);
    RankedJoin(two, InterceptorFields(), 9, 46, 57);
    RankedJoin(three, GuidanceFields(), 9, 57, 66);
    RankedJoin(four, TrackFields(), 9, 66, 78);
    Widen(StatusFields(), 78, 83, 78, 87);
    RankedJoin(four + TrackFields(), StatusFields(), 9, 78, 87);
  }

  lemma Widen(fields: seq<Field>, low: int, high: int, lower: int, higher: int)
    requires Ranked(fields, low, high) && lower <= low && high <= higher
    ensures Ranked(fields, lower, higher)
  {
    hide Rank, Lettered;
  }

  /** No key of a payload holds a separator, is `kind`, or occurs twice. */
  lemma SchemaIsDistinct(kind: Kind)
    ensures Distinct(Schema(kind))
  {
    if kind == EngageOrder {
      OrderIsDistinct();
    } else {
      BodyIsRanked(kind);
      EnvelopeIsRanked();
      hide BodyFields, EnvelopeFields, Ranked, Rank, Lettered, Distinct;
      if kind != SessionCreate {
        Widen(EnvelopeFields(), 2, 5, 1, 5);
        RankedJoin(EnvelopeFields(), BodyFields(kind), 1, 5, 87);
      }
      RankedIsDistinct(Schema(kind), 87);
    }
  }

  lemma BodyIsRanked(kind: Kind)
    requires kind != EngageOrder
    ensures Ranked(BodyFields(kind), if kind == SessionCreate then 1 else 5, 87)
  {
    hide Rank, Lettered, Ranked;
    match kind
    case ScenarioStart =>
      ScenarioIsRanked(); Widen(ScenarioFields(), 5, 83, 5, 87);
    case AarResponse =>
      ReviewIsRanked(); Widen(ReviewFields(), 8, 87, 5, 87);
    case TelemetrySample =>
      TelemetryIsRanked(); Widen(TelemetryFields(), 9, 87, 5, 87);
    case WorldSnapshot =>
      SnapshotBodyIsRanked(); Widen(BodyFields(WorldSnapshot), 9, 87, 5, 87);
    case _ =>
      SmallBodyIsRanked(kind);
  }

  lemma OrderIsDistinct()
    ensures Distinct(Schema(EngageOrder))
  {
    hide Rank, Lettered, PlainKey;
    EnvelopeRanks(); TargetRanks(); InterceptorRanks(); KindRank();
    var ranks := [2, 3, 4, 46, 32];
    assert forall k :: 0 <= k < |ranks| ==> Rank(Schema(EngageOrder)[k].key) == ranks[k];
    OrderIsPlain();
  }

  lemma OrderIsPlain()
    ensures forall f <- Schema(EngageOrder) :: PlainKey(f.key)
  {
    hide Lettered, PlainKey;
    EnvelopeLetters(); TargetLetters1(); InterceptorLetters1();
    forall f <- Schema(EngageOrder) ensures PlainKey(f.key) { LetteredIsPlain(f.key); }
  }

  lemma KindRank()
    ensures Rank("kind") == 0
  {
  }
}
