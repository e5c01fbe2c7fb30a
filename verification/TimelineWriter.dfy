/** The loops that write the replay timeline, line by line. */
module TimelineWriter {
  import opened Text
  import opened JsonLayout
  import opened Timeline

  /** One line of an object: a member, and a comma unless it is the last. */
  function Line(indent: string, key: string, value: string, last: bool): string {
    indent + ("\"" + (key + ("\"" + (": " + (value + if last then "\n" else ",\n")))))
  }

  function Lines(members: seq<Member>, values: seq<string>, indent: string): string
    requires |values| == |members|
  {
    if members == [] then ""
    else Line(indent, members[0].key, values[0], |members| == 1) + Lines(members[1..], values[1..], indent)
  }

  function Plainly(s: string): string { "\"" + (s + "\"") }
  function Escaped(s: string): string { "\"" + (Escape(s) + "\"") }

  function IdText(ids: seq<string>): string {
    if ids == [] then "" else Escaped(ids[0]) + ((if |ids| == 1 then "" else ", ") + IdText(ids[1..]))
  }

  function IdListText(ids: seq<string>): string { "[" + (IdText(ids) + "]") }

  function EventValues(e: Happening): (r: seq<string>)
    ensures |r| == |EventMembers(e)|
  {
    [NatText(e.timestampMs), NatText(e.tick), Plainly(e.eventType), Escaped(e.source), IdListText(e.entityIds),
     Escaped(e.summary), Escaped(e.details)]
  }

  function EventText(e: Happening): string { "{\n" + (Lines(EventMembers(e), EventValues(e), "      ") + "    }") }

  function EventTexts(events: seq<Happening>): string {
    if events == [] then ""
    else "    " + (EventText(events[0]) + ((if |events| == 1 then "\n" else ",\n") + EventTexts(events[1..])))
  }

  function EventListText(events: seq<Happening>): string { "[\n" + (EventTexts(events) + "  ]") }

  function Values(t: Artifact): (r: seq<string>)
    ensures |r| == |Members(t)|
  {
    [Plainly(t.schemaVersion), Plainly(t.sessionId), Plainly(t.finalPhase), NatText(t.snapshotCount),
     NatText(t.eventCount), Plainly(t.assessmentCode), Plainly(t.effectiveTrackState), Plainly(t.interceptProfile),
     NatText(t.launchAngleDeg), Escaped(t.resilienceCase), EventListText(t.events)]
  }

  // ---------------------------------------------------------------------------
  // The lines are the printed document

  ghost predicate Shows(l: Layout, text: string) { forall post :: Print(l, post) == text + post }

  lemma ScalarsShow()
    ensures forall n: nat :: Shows(Number(n), NatText(n))
    ensures forall s :: Shows(Raw(s), Plainly(s)) && Shows(Quoted(s), Escaped(s))
  {
    hide NatText, Escape;
    forall s, post: string ensures Print(Raw(s), post) == Plainly(s) + post { }
    forall s, post: string ensures Print(Quoted(s), post) == Escaped(s) + post { }
  }

  lemma {:induction false} LinesArePrinted(members: seq<Member>, values: seq<string>, p: string, indent: string,
                                           post: string)
    requires |values| == |members| > 0
    requires forall i :: 0 <= i < |members| ==> Shows(members[i].value, values[i])
    ensures PrintMembers(members, p + ("\n" + indent), "\n" + indent, "\n" + post)
         == p + ("\n" + (Lines(members, values, indent) + post))
    decreases |members|
  {
    hide Print;
    var next := "\n" + indent;
    var key, value := members[0].key, values[0];
    var rest := PrintMembers(members[1..], "," + next, next, "\n" + post);
    var end := if |members| == 1 then "\n" else ",\n";
    var more := Lines(members[1..], values[1..], indent) + post;
    if |members| > 1 {
      assert forall i :: 0 <= i < |members| - 1 ==> members[1..][i] == members[i + 1] && values[1..][i] == values[i + 1];
      LinesArePrinted(members[1..], values[1..], ",", indent, post);
    }
    assert rest == end + more;
    assert Print(members[0].value, rest) == value + rest;
    assert Line(indent, key, value, |members| == 1) + Lines(members[1..], values[1..], indent) == Lines(members, values, indent);
    LineRegroups(p, indent, key, value, end, more);
    assert Lines(members, values, indent) + post == Line(indent, key, value, |members| == 1) + more;
  }

  lemma LineRegroups(p: string, indent: string, key: string, value: string, end: string, more: string)
    ensures (p + ("\n" + indent)) + ("\"" + (key + ("\"" + (": " + (value + (end + more))))))
         == p + ("\n" + ((indent + ("\"" + (key + ("\"" + (": " + (value + end)))))) + more))
  {
  }

  lemma RecordShows(members: seq<Member>, values: seq<string>, indent: string, outer: string)
    requires |values| == |members| > 0
    requires forall i :: 0 <= i < |members| ==> Shows(members[i].value, values[i])
    ensures Shows(Record(members, "\n" + indent, "\n" + indent, "\n" + outer),
                  "{\n" + (Lines(members, values, indent) + (outer + "}")))
  {
    hide Lines, Print;
    forall post: string
      ensures Print(Record(members, "\n" + indent, "\n" + indent, "\n" + outer), post)
           == "{\n" + (Lines(members, values, indent) + (outer + "}")) + post
    {
      RecordIsPrinted(members, values, indent, outer, post);
    }
  }

  lemma RecordIsPrinted(members: seq<Member>, values: seq<string>, indent: string, outer: string, post: string)
    requires |values| == |members| > 0
    requires forall i :: 0 <= i < |members| ==> Shows(members[i].value, values[i])
    ensures Print(Record(members, "\n" + indent, "\n" + indent, "\n" + outer), post)
         == "{\n" + (Lines(members, values, indent) + (outer + "}")) + post
  {
    hide Shows, Lines, PrintMembers;
    var tail := outer + ("}" + post);
    LinesArePrinted(members, values, "", indent, tail);
    assert "" + ("\n" + indent) == "\n" + indent;
    assert ("\n" + outer) + ("}" + post) == "\n" + tail;
    RecordRegroups(Lines(members, values, indent), outer, post);
  }

  lemma RecordRegroups(lines: string, outer: string, post: string)
    ensures "{" + ("" + ("\n" + (lines + (outer + ("}" + post))))) == "{\n" + (lines + (outer + "}")) + post
  {
  }

  lemma Regroup(a: string, b: string, c: string, d: string)
    ensures a + (b + (c + d)) == (a + (b + c)) + d && a + ((b + c) + d) == (a + (b + c)) + d
  {
  }

  lemma {:induction false} IdsArePrinted(ids: seq<string>, gap: string, post: string)
    requires ids != []
    ensures PrintItems(IdLayouts(ids), gap, " ", post) == gap + (IdText(ids) + post)
    decreases |ids|
  {
    hide Print, Escaped;
    ScalarsShow();
    assert IdLayouts(ids)[0] == Quoted(ids[0]) && IdLayouts(ids)[1..] == IdLayouts(ids[1..]);
    var id, rest := Escaped(ids[0]), PrintItems(IdLayouts(ids[1..]), ", ", " ", post);
    assert "," + " " == ", ";
    assert PrintItems(IdLayouts(ids), gap, " ", post) == gap + (id + rest);
    if |ids| == 1 {
      assert IdText(ids) == id by { assert id + ("" + "") == id; }
    } else {
      IdsArePrinted(ids[1..], ", ", post);
      Regroup(id, ", ", IdText(ids[1..]), post);
    }
  }

  lemma IdListShows(ids: seq<string>)
    ensures Shows(List(IdLayouts(ids), "", " ", ""), IdListText(ids))
  {
    hide Print, IdListText;
    forall post: string ensures Print(List(IdLayouts(ids), "", " ", ""), post) == IdListText(ids) + post {
      IdListIsPrinted(ids, post);
    }
  }

  lemma IdListIsPrinted(ids: seq<string>, post: string)
    ensures Print(List(IdLayouts(ids), "", " ", ""), post) == IdListText(ids) + post
  {
    hide PrintItems, IdText;
    var tail := "" + ("]" + post);
    assert PrintItems(IdLayouts(ids), "", " ", tail) == IdText(ids) + tail by { WholeIdList(ids, tail); }
    Regroup("[", IdText(ids), "]", post);
  }

  lemma WholeIdList(ids: seq<string>, post: string)
    ensures PrintItems(IdLayouts(ids), "", " ", post) == IdText(ids) + post
  {
    hide Print;
    if ids == [] {
      assert IdText(ids) + post == post;
    } else {
      IdsArePrinted(ids, "", post);
      hide PrintItems, IdText;
      assert "" + (IdText(ids) + post) == IdText(ids) + post;
    }
  }

  lemma EventShows(e: Happening)
    ensures Shows(EventLayout(e), EventText(e))
  {
    hide Lines, Print, NatText, Plainly, Escaped, IdListText, IdLayouts;
    ScalarsShow();
    IdListShows(e.entityIds);
    assert "\n" + "      " == "\n      " && "\n" + "    " == "\n    " && "    " + "}" == "    }";
    RecordShows(EventMembers(e), EventValues(e), "      ", "    ");
  }

  lemma {:induction false} EventsArePrinted(events: seq<Happening>, p: string, post: string)
    ensures PrintItems(EventLayouts(events), p + ("\n" + "    "), "\n    ", "\n" + post)
         == if events == [] then "\n" + post else p + ("\n" + (EventTexts(events) + post))
    decreases |events|
  {
    hide Print, EventText, EventLayout;
    if events == [] {
      assert EventTexts(events) + post == post;
    } else {
      var layouts, rest := EventLayouts(events), events[1..];
      assert layouts[1..] == EventLayouts(rest);
      EventShows(events[0]);
      EventsArePrinted(rest, ",", post);
      var end := if |events| == 1 then "\n" else ",\n";
      var more := EventTexts(rest) + post;
      assert "," + "\n    " == "," + ("\n" + "    ");
      assert PrintItems(layouts[1..], "," + "\n    ", "\n    ", "\n" + post) == end + more;
      assert EventTexts(events) == "    " + (EventText(events[0]) + (end + EventTexts(rest)));
      EventRegroups(p, EventText(events[0]), end, EventTexts(rest), post);
    }
  }

  lemma EventRegroups(p: string, text: string, end: string, rest: string, post: string)
    ensures (p + ("\n" + "    ")) + (text + (end + (rest + post)))
         == p + ("\n" + (("    " + (text + (end + rest))) + post))
  {
  }

  lemma EventListShows(events: seq<Happening>)
    ensures Shows(List(EventLayouts(events), "\n    ", "\n    ", "\n  "), EventListText(events))
  {
    hide Print, EventListText, EventLayouts;
    forall post: string
      ensures Print(List(EventLayouts(events), "\n    ", "\n    ", "\n  "), post) == EventListText(events) + post
    {
      EventListIsPrinted(events, post);
    }
  }

  lemma EventListIsPrinted(events: seq<Happening>, post: string)
    ensures Print(List(EventLayouts(events), "\n    ", "\n    ", "\n  "), post) == EventListText(events) + post
  {
    hide PrintItems, EventTexts, EventLayouts;
    EventsArePrinted(events, "", "  " + ("]" + post));
    assert "" + ("\n" + "    ") == "\n    " && "\n  " + ("]" + post) == "\n" + ("  " + ("]" + post));
    assert events == [] ==> EventTexts(events) == "" by { NoEvents(); }
    ListRegroups(EventTexts(events), post);
  }

  lemma NoEvents()
    ensures EventTexts([]) == ""
  {
  }

  lemma ListRegroups(texts: string, post: string)
    ensures "[" + ("" + ("\n" + (texts + ("  " + ("]" + post))))) == ("[\n" + (texts + "  ]")) + post
    ensures "[" + ("\n" + ("  " + ("]" + post))) == ("[\n" + ("" + "  ]")) + post
  {
  }

  /** The lines of the file are the printed document. */
  lemma FileIsPrinted(t: Artifact)
    ensures TimelineText(t) == "{\n" + (Lines(Members(t), Values(t), "  ") + "}\n")
  {
    hide Lines, Print, NatText, Plainly, Escaped, EventListText, EventLayouts;
    ScalarsShow();
    EventListShows(t.events);
    RecordShows(Members(t), Values(t), "  ", "");
    assert "\n" + "  " == "\n  " && "\n" + "" == "\n" && "" + "}" == "}";
    var lines := Lines(Members(t), Values(t), "  ");
    assert ("{\n" + (lines + "}")) + "\n" == "{\n" + (lines + "}\n");
  }

  // ---------------------------------------------------------------------------
  // The loops

  /** Writing line `k` leaves the lines after it to be written. */
  lemma LineIsWritten(out: string, members: seq<Member>, values: seq<string>, indent: string, k: nat)
    requires |values| == |members| && k < |members|
    ensures out + Lines(members[k..], values[k..], indent)
         == (out + Line(indent, members[k].key, values[k], k + 1 == |members|)) + Lines(members[k + 1..], values[k + 1..], indent)
  {
    assert members[k..][1..] == members[k + 1..] && values[k..][1..] == values[k + 1..];
  }

  method WriteIds(out: string, ids: seq<string>) returns (timeline: string)
    ensures timeline == out + IdText(ids)
  {
    timeline := out;
    assert ids[0..] == ids;
    for i := 0 to |ids|
      invariant timeline + IdText(ids[i..]) == out + IdText(ids)
    {
      hide Escaped;
      assert ids[i..][1..] == ids[i + 1..];
      timeline := timeline + Escaped(ids[i]);
      if i + 1 != |ids| {
        timeline := timeline + ", ";
      }
    }
  }

  /** What is left to write from line `k` on. */
  ghost function LinesFrom(members: seq<Member>, values: seq<string>, indent: string, k: nat): string
    requires |values| == |members| && k <= |members|
  {
    Lines(members[k..], values[k..], indent)
  }

  method WriteLine(out: string, ghost members: seq<Member>, ghost values: seq<string>, ghost k: nat,
                   indent: string, key: string, value: string, last: bool) returns (timeline: string)
    requires |values| == |members| && k < |members|
    requires key == members[k].key && value == values[k] && last == (k + 1 == |members|)
    ensures timeline + LinesFrom(members, values, indent, k + 1) == out + LinesFrom(members, values, indent, k)
  {
    LineIsWritten(out, members, values, indent, k);
    timeline := out + Line(indent, key, value, last);
  }

  lemma LinesEnd(out: string, members: seq<Member>, values: seq<string>, indent: string)
    requires |values| == |members|
    ensures LinesFrom(members, values, indent, 0) == Lines(members, values, indent)
    ensures out + LinesFrom(members, values, indent, |members|) == out
  {
    assert members[0..] == members && values[0..] == values;
    assert members[|members|..] == [] && values[|members|..] == [];
  }

  method WriteEvent(out: string, e: Happening) returns (timeline: string)
    ensures timeline == out + EventText(e)
  {
    hide Lines, LinesFrom, NatText, Plainly, Escaped, IdText;
    ghost var m, v := EventMembers(e), EventValues(e);
    timeline := out + "{\n";
    timeline := WriteLine(timeline, m, v, 0, "      ", "timestamp_ms", NatText(e.timestampMs), false);
    timeline := WriteLine(timeline, m, v, 1, "      ", "tick", NatText(e.tick), false);
    timeline := WriteLine(timeline, m, v, 2, "      ", "event_type", Plainly(e.eventType), false);
    timeline := WriteLine(timeline, m, v, 3, "      ", "source", Escaped(e.source), false);
    var ids := WriteIds("[", e.entityIds);
    timeline := WriteLine(timeline, m, v, 4, "      ", "entity_ids", ids + "]", false);
    timeline := WriteLine(timeline, m, v, 5, "      ", "summary", Escaped(e.summary), false);
    timeline := WriteLine(timeline, m, v, 6, "      ", "details", Escaped(e.details), true);
    LinesEnd(timeline, m, v, "      ");
    timeline := timeline + "    }";
  }

  /** Writing event `index` leaves the events after it to be written. */
  lemma EventIsWritten(out: string, events: seq<Happening>, index: nat)
    requires index < |events|
    ensures out + EventTexts(events[index..])
         == (((out + "    ") + EventText(events[index])) + if index + 1 == |events| then "\n" else ",\n")
            + EventTexts(events[index + 1..])
  {
    hide EventText;
    assert events[index..][1..] == events[index + 1..];
  }

  method WriteEvents(out: string, events: seq<Happening>) returns (timeline: string)
    ensures timeline == out + EventTexts(events)
  {
    hide EventText, EventTexts;
    timeline := out;
    assert events[0..] == events;
    for index := 0 to |events|
      invariant timeline + EventTexts(events[index..]) == out + EventTexts(events)
    {
      EventIsWritten(timeline, events, index);
      timeline := timeline + "    ";
      timeline := WriteEvent(timeline, events[index]);
      timeline := timeline + if index + 1 == |events| then "\n" else ",\n";
    }
    NoEvents();
    assert events[|events|..] == [];
  }

  /** The whole file: what the round trip is about. */
  method WriteTimeline(t: Artifact) returns (timeline: string)
    ensures timeline == TimelineText(t)
  {
    hide Lines, LinesFrom, NatText, Plainly, Escaped, EventTexts, TimelineText;
    ghost var m, v := Members(t), Values(t);
    timeline := "{\n";
    timeline := WriteLine(timeline, m, v, 0, "  ", "schema_version", Plainly(t.schemaVersion), false);
    timeline := WriteLine(timeline, m, v, 1, "  ", "session_id", Plainly(t.sessionId), false);
    timeline := WriteLine(timeline, m, v, 2, "  ", "final_phase", Plainly(t.finalPhase), false);
    timeline := WriteLine(timeline, m, v, 3, "  ", "snapshot_count", NatText(t.snapshotCount), false);
    timeline := WriteLine(timeline, m, v, 4, "  ", "event_count", NatText(t.eventCount), false);
    timeline := WriteLine(timeline, m, v, 5, "  ", "assessment_code", Plainly(t.assessmentCode), false);
    timeline := WriteLine(timeline, m, v, 6, "  ", "effective_track_state", Plainly(t.effectiveTrackState), false);
    timeline := WriteLine(timeline, m, v, 7, "  ", "intercept_profile", Plainly(t.interceptProfile), false);
    timeline := WriteLine(timeline, m, v, 8, "  ", "launch_angle_deg", NatText(t.launchAngleDeg), false);
    timeline := WriteLine(timeline, m, v, 9, "  ", "resilience_case", Escaped(t.resilienceCase), false);
    var events := WriteEvents("[\n", t.events);
    assert events + "  ]" == EventListText(t.events);
    timeline := WriteLine(timeline, m, v, 10, "  ", "events", events + "  ]", true);
    LinesEnd(timeline, m, v, "  ");
    FileIsPrinted(t);
    timeline := timeline + "}\n";
  }
}
