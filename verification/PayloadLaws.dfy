/** Payload round trips: what is printed is read back, as that kind and as no other. */
module PayloadLaws {
  import opened Text
  import opened FieldCodec
  import opened Payloads
  import opened PayloadKeys

  // ---------------------------------------------------------------------------
  // Single values

  lemma UnsignedRoundTrip(n: nat, bound: nat, complaint: string)
    requires n < bound
    ensures ParseUnsigned(NatText(n), bound, complaint) == Ok(n)
  {
    hide Decimal, NatText, DigitPrefix;
    DecimalOfNatText(n);
    DigitPrefixOfDigits(NatText(n), "");
    assert NatText(n) + "" == NatText(n);
  }

  lemma SignedRoundTrip(n: int)
    requires -TWO_63 <= n < TWO_63
    ensures ParseSigned(IntText(n)) == Ok(n)
  {
    hide Decimal, NatText, DigitPrefix;
    var magnitude := NatText(if n < 0 then -n else n);
    DecimalOfNatText(if n < 0 then -n else n);
    DigitPrefixOfDigits(magnitude, "");
    assert magnitude + "" == magnitude && magnitude[0] in magnitude;
    assert n < 0 ==> IntText(n)[1..] == magnitude;
  }

  lemma NarrowIsIdle(n: int)
    requires -TWO_31 <= n < TWO_31
    ensures Narrow(n) == n
  {
  }

  lemma ScalarRoundTrip(form: Form, key: string, value: Value)
    requires Holds(form, value)
    ensures ParseScalar(form, key, Printed(value)) == Ok(value)
  {
    hide NatText, ParseUnsigned, ParseSigned, Narrow;
    match form
    case U32 => UnsignedRoundTrip(value.n, TWO_32, "invalid uint32 field");
    case U64 => UnsignedRoundTrip(value.n, TWO_64, "invalid uint64 field");
    case I32 => SignedRoundTrip(value.n); NarrowIsIdle(value.n);
    case Flag => assert |"true"| == 4 && |"false"| == 5;
    case _ =>
  }

  /** A value that is read is one the member can hold. */
  lemma ScalarIsHeld(form: Form, key: string, text: string)
    requires ParseScalar(form, key, text).Ok?
    ensures Holds(form, ParseScalar(form, key, text).value)
  {
    hide Decimal, DigitPrefix, ParseSigned;
  }

  // ---------------------------------------------------------------------------
  // All values of a payload

  lemma {:induction false} ValuesRoundTrip(schema: seq<Field>, values: seq<Value>, fields: FieldMap)
    requires WellFormed(schema, values)
    requires forall i :: 0 <= i < |schema| ==>
        schema[i].key in fields && fields[schema[i].key] == Printed(values[i])
    ensures ParseValues(schema, fields) == Ok(values)
    decreases |schema|
  {
    hide ParseScalar, Printed, Holds;
    if schema == [] {
    } else {
      ScalarRoundTrip(schema[0].form, schema[0].key, values[0]);
      var schemaRest, rest := schema[1..], values[1..];
      assert forall i :: 0 <= i < |schemaRest| ==> schemaRest[i] == schema[i + 1] && rest[i] == values[i + 1];
      ValuesRoundTrip(schemaRest, rest, fields);
      assert [values[0]] + rest == values;
    }
  }

  lemma {:induction false} ValuesAreHeld(schema: seq<Field>, fields: FieldMap)
    requires ParseValues(schema, fields).Ok?
    ensures WellFormed(schema, ParseValues(schema, fields).value)
    decreases |schema|
  {
    hide ParseScalar, FieldText, Holds;
    if schema == [] {
    } else {
      ScalarIsHeld(schema[0].form, schema[0].key, FieldText(schema[0], fields).value);
      ValuesAreHeld(schema[1..], fields);
    }
  }

  // ---------------------------------------------------------------------------
  // Whole payloads

  function Keys(fields: seq<Field>): (r: seq<string>)
    ensures |r| == |fields| && forall i :: 0 <= i < |r| ==> r[i] == fields[i].key
  {
    if fields == [] then [] else [fields[0].key] + Keys(fields[1..])
  }

  lemma GroupsAgree()
    ensures EnvelopeKeys() == Keys(EnvelopeFields()) && ScenarioKeys() == Keys(ScenarioFields())
    ensures ReviewKeys() == Keys(ReviewFields()) && TelemetryKeys() == Keys(TelemetryFields())
  {
    hide Keys;
  }

  lemma SnapshotGroupsAgree()
    ensures HeaderKeys() == Keys(HeaderFields()) && TargetKeys() == Keys(TargetFields())
    ensures InterceptorKeys() == Keys(InterceptorFields()) && GuidanceKeys() == Keys(GuidanceFields())
    ensures TrackKeys() == Keys(TrackFields()) && StatusKeys() == Keys(StatusFields())
  {
    hide Keys;
  }

  lemma BodiesAgree(kind: Kind)
    ensures BodyKeys(kind) == Keys(BodyFields(kind))
  {
    GroupsAgree();
    SnapshotGroupsAgree();
    hide Keys, HeaderFields, TargetFields, InterceptorFields, GuidanceFields, TrackFields, StatusFields, ScenarioFields,
         ReviewFields, TelemetryFields, HeaderKeys, TargetKeys, InterceptorKeys, GuidanceKeys, TrackKeys, StatusKeys,
         ScenarioKeys, ReviewKeys, TelemetryKeys;
  }

  /** What each writer prints is what the reader of the kind asks for, in the same order. */
  lemma WriterAndReaderAgree(kind: Kind)
    ensures WrittenKeys(kind) == Keys(Schema(kind))
  {
    GroupsAgree();
    BodiesAgree(kind);
    hide Keys, BodyFields, BodyKeys, EnvelopeFields, EnvelopeKeys;
  }

  /** The fields a payload is read from: its kind, and every value under its key. */
  lemma SentFields(kind: Kind, values: seq<Value>)
    requires |values| == |Schema(kind)|
    ensures |values| == |WrittenKeys(kind)| && ParseFields(Serialize(kind, values)).Ok?
    ensures var fields := ParseFields(Serialize(kind, values)).value;
            && Require(fields, "kind") == Ok(KindText(kind))
            && forall i :: 0 <= i < |values| ==>
                 Schema(kind)[i].key in fields && fields[Schema(kind)[i].key] == Printed(values[i])
  {
    hide Schema, WrittenKeys, KindText, Printed, JoinFields, Split, AddParts, AddPairs, PlainKey;
    SchemaIsDistinct(kind);
    WriterAndReaderAgree(kind);
    var schema, pairs := Schema(kind), AllPairs(kind, values);
    assert pairs[0] == Pair("kind", KindText(kind));
    assert forall i :: 0 < i < |pairs| ==> pairs[i] == Pair(schema[i - 1].key, Printed(values[i - 1]));
    assert PlainKey("kind") by { KindKey(); }
    forall p <- pairs ensures PlainKey(p.key) {
      var k :| 0 <= k < |pairs| && pairs[k] == p;
      assert k > 0 ==> schema[k - 1] in schema;
    }
    FieldsRoundTrip(pairs, map[]);
    LookupPair(pairs, map[], 0);
    forall i | 0 <= i < |values|
      ensures schema[i].key in AddPairs(pairs, map[]) && AddPairs(pairs, map[])[schema[i].key] == Printed(values[i])
    {
      assert schema[i] in schema && pairs[i + 1].key == schema[i].key;
      LookupPair(pairs, map[], i + 1);
    }
  }

  lemma KindKey()
    ensures PlainKey("kind")
  {
  }

  /** Reading a payload that was printed gives all its values back. */
  lemma PayloadRoundTrip(kind: Kind, values: seq<Value>)
    requires WellFormed(Schema(kind), values)
    ensures |values| == |WrittenKeys(kind)| && Parse(kind, Serialize(kind, values)) == Ok(values)
  {
    hide Schema, WrittenKeys, KindText, ParseFields, Serialize, Holds, Printed;
    SentFields(kind, values);
    ValuesRoundTrip(Schema(kind), values, ParseFields(Serialize(kind, values)).value);
  }

  /** Reading it as any other kind fails. */
  lemma OtherKindsAreRefused(kind: Kind, other: Kind, values: seq<Value>)
    requires |values| == |Schema(kind)| && other != kind
    ensures |values| == |WrittenKeys(kind)| && Parse(other, Serialize(kind, values)) == Error("unexpected payload kind")
  {
    hide Schema, WrittenKeys, KindText, ParseFields, Serialize, Printed;
    SentFields(kind, values);
    KindsDiffer(kind, other);
  }

  lemma KindsDiffer(kind: Kind, other: Kind)
    requires kind != other
    ensures KindText(kind) != KindText(other)
  {
    KindIsShaped(kind);
    KindIsShaped(other);
    hide KindText;
  }

  /** The kind whose text has this length and this second-last letter. */
  ghost function KindOfShape(length: nat, letter: char): Kind {
    match length
    case 14 => if letter == 't' then SessionCreate else if letter == 'e' then ScenarioReset
               else if letter == 'r' then ScenarioStart else WorldSnapshot
    case 12 => if letter == 'i' then SessionJoin else if letter == 'e' then EngageOrder else AarResponse
    case 13 => if letter == 'v' then SessionLeave else if letter == 'o' then ScenarioStop else TrackAcquire
    case 10 => if letter == 'o' then TrackDrop else AssessmentReport
    case 17 => if letter == 'd' then ReadyInterceptor else DisplayHeartbeat
    case 11 => if letter == 'c' then CommandAck else AarRequest
    case 9 => TelemetrySample
    case _ => DisplayHeartbeatAck
  }

  lemma KindIsShaped(kind: Kind)
    ensures |KindText(kind)| > 1
    ensures KindOfShape(|KindText(kind)|, KindText(kind)[|KindText(kind)| - 2]) == kind
  {
  }

  /** Whatever text was read, printing the values and reading them again changes nothing. */
  lemma ReadingIsStable(kind: Kind, wire: string)
    requires Parse(kind, wire).Ok?
    ensures var values := Parse(kind, wire).value;
            && WellFormed(Schema(kind), values) && |values| == |WrittenKeys(kind)|
            && Parse(kind, Serialize(kind, values)) == Ok(values)
  {
    hide Schema, WrittenKeys, KindText, Serialize, ParseFields, WellFormed;
    ValuesAreHeld(Schema(kind), ParseFields(wire).value);
    PayloadRoundTrip(kind, Parse(kind, wire).value);
  }
}
