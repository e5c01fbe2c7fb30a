/** The replay timeline file: its writer, its reader, and the round trip between them. */
module Timeline {
  import opened Text
  import opened MiniJson
  import opened JsonLayout

  datatype Happening = Happening(
    timestampMs: nat, tick: nat, eventType: string, source: string, entityIds: seq<string>,
    summary: string, details: string)

  datatype Artifact = Artifact(
    schemaVersion: string, sessionId: string, finalPhase: string, snapshotCount: nat, eventCount: nat,
    assessmentCode: string, effectiveTrackState: string, interceptProfile: string, launchAngleDeg: nat,
    resilienceCase: string, events: seq<Happening>)


  // ---------------------------------------------------------------------------
  // What the writer prints

  function IdLayouts(ids: seq<string>): (r: seq<Layout>)
    ensures |r| == |ids| && forall i :: 0 <= i < |r| ==> r[i] == Quoted(ids[i])
  {
    if ids == [] then [] else [Quoted(ids[0])] + IdLayouts(ids[1..])
  }

  function EventMembers(e: Happening): seq<Member> {
    [Member("timestamp_ms", Number(e.timestampMs)),
     Member("tick", Number(e.tick)),
     Member("event_type", Raw(e.eventType)),
     Member("source", Quoted(e.source)),
     Member("entity_ids", List(IdLayouts(e.entityIds), "", " ", "")),
     Member("summary", Quoted(e.summary)),
     Member("details", Quoted(e.details))]
  }

  function EventLayout(e: Happening): Layout { Record(EventMembers(e), "\n      ", "\n      ", "\n    ") }

  function EventLayouts(events: seq<Happening>): (r: seq<Layout>)
    ensures |r| == |events| && forall i :: 0 <= i < |r| ==> r[i] == EventLayout(events[i])
  {
    if events == [] then [] else [EventLayout(events[0])] + EventLayouts(events[1..])
  }

  function Members(t: Artifact): seq<Member> {
    [Member("schema_version", Raw(t.schemaVersion)),
     Member("session_id", Raw(t.sessionId)),
     Member("final_phase", Raw(t.finalPhase)),
     Member("snapshot_count", Number(t.snapshotCount)),
     Member("event_count", Number(t.eventCount)),
     Member("assessment_code", Raw(t.assessmentCode)),
     Member("effective_track_state", Raw(t.effectiveTrackState)),
     Member("intercept_profile", Raw(t.interceptProfile)),
     Member("launch_angle_deg", Number(t.launchAngleDeg)),
     Member("resilience_case", Quoted(t.resilienceCase)),
     Member("events", List(EventLayouts(t.events), "\n    ", "\n    ", "\n  "))]
  }

  function TimelineLayout(t: Artifact): Layout { Record(Members(t), "\n  ", "\n  ", "\n") }

  function TimelineText(t: Artifact): string { Print(TimelineLayout(t), "\n") }

  // ---------------------------------------------------------------------------
  // What the reader returns

  function Field(fields: map<string, Value>, key: string): Result<Value> {
    if key in fields then Ok(fields[key]) else Error("missing json field: " + key)
  }

  function TextField(fields: map<string, Value>, key: string): Result<string> {
    var value :- Field(fields, key);
    if value.Str? then Ok(value.s) else Error("bad variant access")
  }

  /** The conversion of a 64-bit signed integer to an unsigned one of the given range. */
  function NumberField(fields: map<string, Value>, key: string, range: nat): Result<nat>
    requires range > 0
  {
    var value :- Field(fields, key);
    if value.Int? then Ok(value.n % range) else Error("bad variant access")
  }

  function ListField(fields: map<string, Value>, key: string): Result<seq<Value>> {
    var value :- Field(fields, key);
    if value.Array? then Ok(value.items) else Error("bad variant access")
  }

  function ReadIds(values: seq<Value>, ids: seq<string>): Result<seq<string>> {
    if values == [] then Ok(ids)
    else if !values[0].Str? then Error("bad variant access")
    else ReadIds(values[1..], ids + [values[0].s])
  }

  function ReadEvent(value: Value): Result<Happening> {
    if !value.Object? then Error("bad variant access")
    else
      var fields := value.fields;
      var timestampMs :- NumberField(fields, "timestamp_ms", TWO_64);
      var tick :- NumberField(fields, "tick", TWO_64);
      var eventType :- TextField(fields, "event_type");
      var source :- TextField(fields, "source");
      var summary :- TextField(fields, "summary");
      var details :- TextField(fields, "details");
      var listed :- ListField(fields, "entity_ids");
      var ids :- ReadIds(listed, []);
      Ok(Happening(timestampMs, tick, eventType, source, ids, summary, details))
  }

  function ReadEvents(values: seq<Value>, events: seq<Happening>): Result<seq<Happening>> {
    if values == [] then Ok(events)
    else
      var event :- ReadEvent(values[0]);
      ReadEvents(values[1..], events + [event])
  }

  /** The artifact without its events. */
  function ReadHeading(fields: map<string, Value>): Result<Artifact> {
    var schemaVersion :- TextField(fields, "schema_version");
    var sessionId :- TextField(fields, "session_id");
    var finalPhase :- TextField(fields, "final_phase");
    var snapshotCount :- NumberField(fields, "snapshot_count", TWO_64);
    var eventCount :- NumberField(fields, "event_count", TWO_64);
    var assessmentCode :- TextField(fields, "assessment_code");
    var trackState :- TextField(fields, "effective_track_state");
    var profile :- TextField(fields, "intercept_profile");
    var launchAngleDeg :- NumberField(fields, "launch_angle_deg", TWO_32);
    var resilienceCase :- TextField(fields, "resilience_case");
    Ok(Artifact(schemaVersion, sessionId, finalPhase, snapshotCount, eventCount, assessmentCode, trackState,
                profile, launchAngleDeg, resilienceCase, []))
  }

  function ReadTimeline(text: string): Result<Artifact> {
    var parsed :- Parse(text);
    if !parsed.Object? then Error("bad variant access")
    else
      var heading :- ReadHeading(parsed.fields);
      var listed :- ListField(parsed.fields, "events");
      var events :- ReadEvents(listed, []);
      Ok(heading.(events := events))
  }

  // ---------------------------------------------------------------------------
  // The loops of the reader

  predicate Same<T(==)>(r: Result<T>, spec: Result<T>) { if spec.Ok? then r == spec else r.Error? }

  method ReadIdsLoop(values: seq<Value>) returns (r: Result<seq<string>>)
    ensures Same(r, ReadIds(values, []))
  {
    var ids := [];
    assert values[0..] == values;
    for i := 0 to |values|
      invariant ReadIds(values[i..], ids) == ReadIds(values, [])
    {
      assert values[i..][1..] == values[i + 1..];
      if !values[i].Str? {
        return Error("bad variant access");
      }
      ids := ids + [values[i].s];
    }
    r := Ok(ids);
  }

  method ReadEventLoop(value: Value) returns (r: Result<Happening>)
    ensures Same(r, ReadEvent(value))
  {
    if !value.Object? {
      return Error("bad variant access");
    }
    var fields := value.fields;
    var timestampMs :- NumberField(fields, "timestamp_ms", TWO_64);
    var tick :- NumberField(fields, "tick", TWO_64);
    var eventType :- TextField(fields, "event_type");
    var source :- TextField(fields, "source");
    var summary :- TextField(fields, "summary");
    var details :- TextField(fields, "details");
    var listed :- ListField(fields, "entity_ids");
    var ids :- ReadIdsLoop(listed);
    r := Ok(Happening(timestampMs, tick, eventType, source, ids, summary, details));
  }

  method ReadReplayTimeline(text: string) returns (r: Result<Artifact>)
    ensures Same(r, ReadTimeline(text))
  {
    hide ReadHeading, ReadEvent, Parse;
    var parsed := ParseText(text);
    if parsed.Error? {
      return Error(parsed.message);
    }
    if !parsed.value.Object? {
      return Error("bad variant access");
    }
    var heading := ReadHeading(parsed.value.fields);
    if heading.Error? {
      return heading;
    }
    var listed := ListField(parsed.value.fields, "events");
    if listed.Error? {
      return Error(listed.message);
    }
    var events, values := [], listed.value;
    assert values[0..] == values;
    for i := 0 to |values|
      invariant ReadEvents(values[i..], events) == ReadEvents(values, [])
    {
      assert values[i..][1..] == values[i + 1..];
      var event := ReadEventLoop(values[i]);
      if event.Error? {
        return Error(event.message);
      }
      events := events + [event.value];
    }
    r := Ok(heading.value.(events := events));
  }

  // ---------------------------------------------------------------------------
  // The round trip

  /** What the session prints: unescaped texts are plain, and counts fit the reader's integers. */
  predicate Writable(t: Artifact) {
    && Plain(t.schemaVersion) && Plain(t.sessionId) && Plain(t.finalPhase) && Plain(t.assessmentCode)
    && Plain(t.effectiveTrackState) && Plain(t.interceptProfile)
    && t.snapshotCount < TWO_63 && t.eventCount < TWO_63 && t.launchAngleDeg < TWO_32
    && forall e <- t.events :: Plain(e.eventType) && e.timestampMs < TWO_63 && e.tick < TWO_63
  }

  /** A number that tells the keys of one object apart. */
  ghost function Mark(key: string): int
    requires |key| > 1
  {
    100 * |key| + key[0] as int + 3 * key[1] as int
  }

  ghost predicate Marked(members: seq<Member>, marks: seq<int>) {
    && |marks| == |members|
    && (forall i :: 0 <= i < |members| ==> |members[i].key| > 1 && Mark(members[i].key) == marks[i])
    && (forall i, j :: 0 <= i < j < |marks| ==> marks[i] != marks[j])
  }

  lemma {:induction false} LookupMember(members: seq<Member>, fields: map<string, Value>, i: nat)
    requires i < |members| && members[i].key !in fields
    requires forall j :: 0 <= j < i ==> members[j].key != members[i].key
    ensures var named := Named(members, fields);
            members[i].key in named && named[members[i].key] == Meaning(members[i].value)
    decreases |members|
  {
    hide Meaning;
    var m := members[0];
    var more := if m.key in fields then fields else fields[m.key := Meaning(m.value)];
    if i == 0 {
      NamedStays(members[1..], more, m.key);
    } else {
      assert members[1..][i - 1] == members[i];
      assert forall j :: 0 <= j < i - 1 ==> members[1..][j] == members[j + 1];
      LookupMember(members[1..], more, i - 1);
    }
  }

  lemma {:induction false} NamedStays(members: seq<Member>, fields: map<string, Value>, key: string)
    requires key in fields
    ensures key in Named(members, fields) && Named(members, fields)[key] == fields[key]
    decreases |members|
  {
    hide Meaning;
    if members != [] {
      var m := members[0];
      NamedStays(members[1..], if m.key in fields then fields else fields[m.key := Meaning(m.value)], key);
    }
  }

  /** Every member of an object with distinct keys is found under its key. */
  lemma AllMembersFound(members: seq<Member>, marks: seq<int>)
    requires Marked(members, marks)
    ensures forall i :: 0 <= i < |members| ==>
              Field(Named(members, map[]), members[i].key) == Ok(Meaning(members[i].value))
  {
    hide Meaning, Named, Mark;
    forall i | 0 <= i < |members|
      ensures Field(Named(members, map[]), members[i].key) == Ok(Meaning(members[i].value))
    {
      LookupMember(members, map[], i);
    }
  }

  lemma EventMarks()
    ensures Mark("timestamp_ms") == 1631 && Mark("tick") == 831 && Mark("event_type") == 1455
    ensures Mark("source") == 1048 && Mark("entity_ids") == 1431 && Mark("summary") == 1166
    ensures Mark("details") == 1103
  {
  }

  lemma EventKeys(e: Happening)
    ensures exists marks :: Marked(EventMembers(e), marks)
  {
    EventMarks();
    hide Mark;
    assert Marked(EventMembers(e), [1631, 831, 1455, 1048, 1431, 1166, 1103]);
  }

  lemma TimelineMarks()
    ensures Mark("schema_version") == 1812 && Mark("session_id") == 1418 && Mark("final_phase") == 1517
    ensures Mark("snapshot_count") == 1845 && Mark("event_count") == 1555 && Mark("assessment_code") == 1942
    ensures Mark("effective_track_state") == 2507 && Mark("intercept_profile") == 2135
    ensures Mark("launch_angle_deg") == 1999 && Mark("resilience_case") == 1917 && Mark("events") == 1055
  {
  }

  lemma TimelineKeys(t: Artifact)
    ensures exists marks :: Marked(Members(t), marks)
  {
    TimelineMarks();
    hide Mark;
    assert Marked(Members(t), [1812, 1418, 1517, 1845, 1555, 1942, 2507, 2135, 1999, 1917, 1055]);
  }

  lemma {:induction false} IdsAreRead(ids: seq<string>, acc: seq<string>)
    ensures ReadIds(Meanings(IdLayouts(ids)), acc) == Ok(acc + ids)
    decreases |ids|
  {
    if ids == [] {
      assert acc + ids == acc;
    } else {
      var layouts := IdLayouts(ids);
      assert layouts[1..] == IdLayouts(ids[1..]);
      assert Meanings(layouts)[1..] == Meanings(layouts[1..]);
      IdsAreRead(ids[1..], acc + [ids[0]]);
      assert acc + [ids[0]] + ids[1..] == acc + ids;
    }
  }

  lemma NumberIsKept(n: nat, range: nat)
    requires n < range
    ensures n % range == n
  {
  }

  lemma EventIsRead(e: Happening)
    requires e.timestampMs < TWO_63 && e.tick < TWO_63
    ensures ReadEvent(Meaning(EventLayout(e))) == Ok(e)
  {
    hide Named, Mark, IdLayouts, Field;
    var m := EventMembers(e);
    EventKeys(e);
    var marks :| Marked(m, marks);
    AllMembersFound(m, marks);
    var fields := Named(m, map[]);
    NumberIsKept(e.timestampMs, TWO_64);
    NumberIsKept(e.tick, TWO_64);
    IdsAreRead(e.entityIds, []);
    assert [] + e.entityIds == e.entityIds;
    assert Field(fields, m[0].key) == Ok(Int(e.timestampMs)) && Field(fields, m[1].key) == Ok(Int(e.tick));
    assert Field(fields, m[2].key) == Ok(Str(e.eventType)) && Field(fields, m[3].key) == Ok(Str(e.source));
    assert Field(fields, m[4].key) == Ok(Array(Meanings(IdLayouts(e.entityIds))));
    assert Field(fields, m[5].key) == Ok(Str(e.summary)) && Field(fields, m[6].key) == Ok(Str(e.details));
  }

  lemma {:induction false} EventsAreRead(events: seq<Happening>, acc: seq<Happening>)
    requires forall e <- events :: e.timestampMs < TWO_63 && e.tick < TWO_63
    ensures ReadEvents(Meanings(EventLayouts(events)), acc) == Ok(acc + events)
    decreases |events|
  {
    hide Meaning, ReadEvent, EventLayout, EventMembers, IdLayouts, ReadIds, EventLayouts;
    if events == [] {
      assert acc + events == acc;
    } else {
      var layouts := EventLayouts(events);
      assert layouts[1..] == EventLayouts(events[1..]);
      assert Meanings(layouts)[1..] == Meanings(layouts[1..]) && Meanings(layouts)[0] == Meaning(EventLayout(events[0]));
      assert events[0] in events && forall e <- events[1..] :: e in events;
      EventIsRead(events[0]);
      EventsAreRead(events[1..], acc + [events[0]]);
      assert acc + [events[0]] + events[1..] == acc + events;
    }
  }

  lemma HeadingIsRead(t: Artifact)
    requires t.snapshotCount < TWO_63 && t.eventCount < TWO_63 && t.launchAngleDeg < TWO_32
    ensures var fields := Named(Members(t), map[]);
            && ReadHeading(fields) == Ok(t.(events := []))
            && Field(fields, "events") == Ok(Array(Meanings(EventLayouts(t.events))))
  {
    hide Named, Mark, EventLayouts, Field;
    var m := Members(t);
    TimelineKeys(t);
    var marks :| Marked(m, marks);
    AllMembersFound(m, marks);
    var fields := Named(m, map[]);
    NumberIsKept(t.snapshotCount, TWO_64);
    NumberIsKept(t.eventCount, TWO_64);
    NumberIsKept(t.launchAngleDeg, TWO_32);
    assert Field(fields, m[0].key) == Ok(Str(t.schemaVersion)) && Field(fields, m[1].key) == Ok(Str(t.sessionId));
    assert Field(fields, m[2].key) == Ok(Str(t.finalPhase)) && Field(fields, m[3].key) == Ok(Int(t.snapshotCount));
    assert Field(fields, m[4].key) == Ok(Int(t.eventCount)) && Field(fields, m[5].key) == Ok(Str(t.assessmentCode));
    assert Field(fields, m[6].key) == Ok(Str(t.effectiveTrackState));
    assert Field(fields, m[7].key) == Ok(Str(t.interceptProfile));
    assert Field(fields, m[8].key) == Ok(Int(t.launchAngleDeg));
    assert Field(fields, m[9].key) == Ok(Str(t.resilienceCase));
    assert Field(fields, m[10].key) == Ok(Array(Meanings(EventLayouts(t.events))));
  }

  lemma MeaningOfTimeline(t: Artifact)
    ensures Meaning(TimelineLayout(t)) == Object(Named(Members(t), map[]))
  {
    hide Members, Named;
  }

  lemma Gaps()
    ensures Spaces("") && Spaces(" ") && Spaces("\n") && Spaces("\n  ") && Spaces("\n    ") && Spaces("\n      ")
  {
  }

  lemma EventKeysArePlain()
    ensures Plain("timestamp_ms") && Plain("tick") && Plain("event_type") && Plain("source")
    ensures Plain("entity_ids") && Plain("summary") && Plain("details")
  {
  }

  lemma HeadingKeysArePlain()
    ensures Plain("schema_version") && Plain("session_id") && Plain("final_phase") && Plain("snapshot_count")
    ensures Plain("event_count") && Plain("events")
  {
  }

  lemma StateKeysArePlain()
    ensures Plain("assessment_code") && Plain("effective_track_state")
  {
  }

  lemma ProfileKeysArePlain()
    ensures Plain("intercept_profile") && Plain("launch_angle_deg") && Plain("resilience_case")
  {
  }

  lemma EventIsReadable(e: Happening)
    requires Plain(e.eventType) && e.timestampMs < TWO_63 && e.tick < TWO_63
    ensures Readable(EventLayout(e))
  {
    Gaps();
    EventKeysArePlain();
    hide Plain, Spaces, IdLayouts;
    assert forall i :: 0 <= i < |e.entityIds| ==> Readable(IdLayouts(e.entityIds)[i]);
    var ids := List(IdLayouts(e.entityIds), "", " ", "");
    assert Readable(ids);
    var m := EventMembers(e);
    assert forall i :: 0 <= i < |m| ==> Plain(m[i].key) && Readable(m[i].value);
  }

  lemma TimelineIsReadable(t: Artifact)
    requires Writable(t)
    ensures Readable(TimelineLayout(t))
  {
    Gaps();
    HeadingKeysArePlain();
    StateKeysArePlain();
    ProfileKeysArePlain();
    hide Plain, Spaces, EventLayouts, EventLayout;
    forall i | 0 <= i < |t.events| ensures Readable(EventLayouts(t.events)[i]) { EventIsReadable(t.events[i]); }
    var events := List(EventLayouts(t.events), "\n    ", "\n    ", "\n  ");
    assert Readable(events);
    var m := Members(t);
    assert forall i :: 0 <= i < |m| ==> Plain(m[i].key) && Readable(m[i].value);
  }

  /** Reading the file the session wrote gives every field and every event back. */
  lemma TimelineRoundTrip(t: Artifact)
    requires Writable(t)
    ensures ReadTimeline(TimelineText(t)) == Ok(t)
  {
    hide Parse, Print, Meaning, Named, Readable, Spaces, ReadHeading, ReadEvents, Members, Field;
    TimelineIsReadable(t);
    Gaps();
    DocumentRoundTrip(TimelineLayout(t), "\n");
    MeaningOfTimeline(t);
    HeadingIsRead(t);
    EventsAreRead(t.events, []);
    assert [] + t.events == t.events;
  }
}
