/** Storing pending interrupts in session state and reading them back
    (agui/interrupt_state.go). A session service may keep the Go value it was given or
    hand back what JSON makes of it. */
module Persistence {
  import opened Values
  import opened Protocol
  import opened Schema
  import opened Interrupts

  /** What a value looks like after being encoded to JSON and decoded into `any`. */
  function JsonForm(v: Value): Value {
    match v
    case Int(_, n) => Float64(n as real)
    case Float32(f) => Float64(f)
    case Strings(names) => List(seq(|names|, i requires 0 <= i < |names| => Str(names[i])))
    case List(items) => List(seq(|items|, i requires 0 <= i < |items| => JsonForm(items[i])))
    case Object(fields) => Object(map k | k in fields :: JsonForm(fields[k]))
    case Pending(records) =>
      if records == [] then Nil
      else List(seq(|records|, i requires 0 <= i < |records| => EncodeRecord(records[i])))
    case _ => v
  }

  /** A record as a JSON object: an empty expiry and an empty schema are omitted. */
  function EncodeRecord(r: PendingRecord): Value {
    var required: Fields := map["id" := Str(r.id), "reason" := Str(r.reason)];
    var expiry: Fields := if r.expiresAt == "" then map[] else map["expiresAt" := Str(r.expiresAt)];
    var schema: Fields := if r.schema.Object? && r.schema.fields != map[] then map["responseSchema" := JsonForm(r.schema)]
                          else map[];
    Object(required + expiry + schema)
  }

  /** Decoding a string field: absent and null both leave it empty. */
  function StringField(fields: Fields, key: string): Option<string> {
    match Keyword(fields, key)
    case Str(s) => Some(s)
    case Nil => Some("")
    case _ => None
  }

  function SchemaField(fields: Fields): Option<Value> {
    match Keyword(fields, "responseSchema")
    case Object(s) => Some(JsonForm(Object(s)))
    case Nil => Some(Nil)
    case _ => None
  }

  function DecodeRecord(v: Value): Option<PendingRecord> {
    match v
    case Nil => Some(PendingRecord("", "", "", Nil))
    case Object(fields) =>
      var id, reason, expiry := StringField(fields, "id"), StringField(fields, "reason"), StringField(fields, "expiresAt");
      var schema := SchemaField(fields);
      if id.None? || reason.None? || expiry.None? || schema.None? then None
      else Some(PendingRecord(id.value, reason.value, expiry.value, schema.value))
    case _ => None
  }

  function DecodeList(items: seq<Value>): Option<seq<PendingRecord>> {
    if items == [] then Some([])
    else
      var front, last := DecodeList(items[..|items| - 1]), DecodeRecord(items[|items| - 1]);
      if front.None? || last.None? then None else Some(front.value + [last.value])
  }

  /** Reading the stored value back: the typed slice as it is, anything else through JSON. */
  function DecodeRecords(raw: Value): Option<seq<PendingRecord>> {
    match raw
    case Pending(records) => Some(records)
    case List(items) => DecodeList(items)
    case Nil => Some([])
    case Strings(names) => if names == [] then Some([]) else None
    case _ => None
  }

  /** A nil schema or an object: the two values of a `map[string]any` field. */
  predicate WellTyped(r: PendingRecord) {
    r.schema.Nil? || r.schema.Object?
  }

  /** The record that comes back after a JSON round trip. */
  function Restored(r: PendingRecord): PendingRecord {
    r.(schema := if r.schema.Object? && r.schema.fields != map[] then JsonForm(r.schema) else Nil)
  }

  function RestoredAll(records: seq<PendingRecord>): seq<PendingRecord> {
    seq(|records|, i requires 0 <= i < |records| => Restored(records[i]))
  }

  lemma {:induction false} JsonFormIsStable(v: Value)
    requires IsJson(v)
    ensures JsonForm(v) == v
  {
    match v
    case List(items) =>
      forall i | 0 <= i < |items|
        ensures JsonForm(items[i]) == items[i]
      {
        JsonFormIsStable(items[i]);
      }
      assert JsonForm(v).items == items;
    case Object(fields) =>
      forall k | k in fields
        ensures JsonForm(fields[k]) == fields[k]
      {
        JsonFormIsStable(fields[k]);
      }
      assert JsonForm(v).fields == fields;
    case _ =>
  }

  lemma {:induction false} JsonFormIsJson(v: Value)
    ensures IsJson(JsonForm(v))
    decreases v, 0
  {
    match v
    case List(items) =>
      forall i | 0 <= i < |items|
        ensures IsJson(JsonForm(items[i]))
      {
        JsonFormIsJson(items[i]);
      }
    case Object(fields) =>
      forall k | k in fields
        ensures IsJson(JsonForm(fields[k]))
      {
        JsonFormIsJson(fields[k]);
      }
    case Pending(records) =>
      forall i | 0 <= i < |records|
        ensures IsJson(EncodeRecord(records[i]))
      {
        EncodedIsJson(records[i]);
      }
    case _ =>
  }

  lemma {:induction false} EncodedIsJson(r: PendingRecord)
    ensures IsJson(EncodeRecord(r))
    decreases r, 1
  {
    if r.schema.Object? {
      JsonFormIsJson(r.schema);
    }
  }

  lemma RecordRoundTrip(r: PendingRecord)
    requires WellTyped(r)
    ensures DecodeRecord(EncodeRecord(r)) == Some(Restored(r))
  {
    if r.schema.Object? && r.schema.fields != map[] {
      JsonFormIsJson(r.schema);
      JsonFormIsStable(JsonForm(r.schema));
    }
  }

  lemma {:induction false} ListRoundTrip(records: seq<PendingRecord>, n: nat)
    requires n <= |records| && forall i :: 0 <= i < |records| ==> WellTyped(records[i])
    ensures var encoded := seq(|records|, i requires 0 <= i < |records| => EncodeRecord(records[i]));
            DecodeList(encoded[..n]) == Some(RestoredAll(records)[..n])
  {
    hide EncodeRecord, DecodeRecord, Restored;
    var encoded := seq(|records|, i requires 0 <= i < |records| => EncodeRecord(records[i]));
    if n > 0 {
      ListRoundTrip(records, n - 1);
      RecordRoundTrip(records[n - 1]);
      assert encoded[..n][..n - 1] == encoded[..n - 1];
      assert RestoredAll(records)[..n] == RestoredAll(records)[..n - 1] + [Restored(records[n - 1])];
    }
  }

  /** Writing records and reading them back: unchanged when the service keeps the typed
      slice; with every schema in JSON form when it went through JSON; empty after a clear. */
  lemma StoredFormsDecode(records: seq<PendingRecord>)
    requires forall i :: 0 <= i < |records| ==> WellTyped(records[i])
    ensures DecodeRecords(Pending(records)) == Some(records)
    ensures DecodeRecords(JsonForm(Pending(records))) == Some(RestoredAll(records))
    ensures DecodeRecords(Pending([])) == Some([]) == DecodeRecords(JsonForm(Pending([])))
  {
    if records != [] {
      ListRoundTrip(records, |records|);
      var encoded := seq(|records|, i requires 0 <= i < |records| => EncodeRecord(records[i]));
      assert encoded[..|records|] == encoded;
      assert RestoredAll(records)[..|records|] == RestoredAll(records);
    } else {
      assert RestoredAll(records) == [];
    }
  }

  /** An `enum` that means the same after JSON: if it is a list then, it was one before, and
      every member's JSON form was a member. */
  predicate EnumPortable(e: Value) {
    JsonForm(e).List? ==> e.List? && forall i :: 0 <= i < |e.items| ==> JsonForm(e.items[i]) in e.items
  }

  lemma {:induction false} NumberAbove(items: seq<Value>) returns (bound: real)
    ensures forall i :: 0 <= i < |items| && items[i].Float64? ==> items[i].f < bound
  {
    bound := 0.0;
    if items != [] {
      bound := NumberAbove(items[..|items| - 1]);
      var last := items[|items| - 1];
      if last.Float64? && bound <= last.f {
        bound := last.f + 1.0;
      }
    }
  }

  /** The condition is exact on what a payload can hold: an `enum` admits the same decoded
      JSON values before and after JSON exactly when it is portable. */
  lemma {:induction false} EnumSurvivesIff(e: Value)
    ensures (forall v | IsJson(v) :: EnumAdmits(map["enum" := JsonForm(e)], v) <==> EnumAdmits(map["enum" := e], v))
            <==> EnumPortable(e)
  {
    var before, after: Fields := map["enum" := e], map["enum" := JsonForm(e)];
    JsonFormIsJson(e);
    if EnumPortable(e) {
      forall v | IsJson(v)
        ensures EnumAdmits(after, v) <==> EnumAdmits(before, v)
      {
        EnumSurvives(before, v);
        assert JsonForm(Object(before)).fields["enum"] == JsonForm(e);
      }
    } else {
      var other: Value;
      if e.List? {
        var i :| 0 <= i < |e.items| && JsonForm(e.items[i]) !in e.items;
        other := JsonForm(e.items[i]);
        assert JsonForm(e).items[i] == other;
      } else {
        var bound := NumberAbove(JsonForm(e).items);
        other := Float64(bound);
      }
      assert IsJson(other) && !(EnumAdmits(after, other) <==> EnumAdmits(before, other));
    }
  }

  /** Fragments all of whose enums are portable; no other keyword matters. */
  predicate Portable(schema: Value)
    decreases schema
  {
    schema.Object? ==> EnumPortable(Keyword(schema.fields, "enum")) && PropertiesPortable(schema)
  }

  predicate PropertiesPortable(schema: Value)
    requires schema.Object?
    decreases schema, 0
  {
    "properties" in schema.fields && schema.fields["properties"].Object? ==>
      forall name :: name in schema.fields["properties"].fields ==> Portable(schema.fields["properties"].fields[name])
  }

  lemma StringsSurvive(v: Value)
    ensures JsonForm(v).Str? <==> v.Str?
    ensures v.Str? ==> JsonForm(v) == v
  {
  }

  /** The names under `required` survive whatever Go value holds them. */
  lemma RequiredNamesSurvive(v: Value)
    ensures RequiredNames(JsonForm(v)) == RequiredNames(v)
  {
    if v.Strings? {
      var items := JsonForm(v).items;
      forall n | n in v.names
        ensures n in RequiredNames(JsonForm(v))
      {
        var i :| 0 <= i < |v.names| && v.names[i] == n;
        assert items[i] == Str(n);
      }
    } else if v.List? {
      forall i | 0 <= i < |v.items|
        ensures JsonForm(v).items[i].Str? == v.items[i].Str? && (v.items[i].Str? ==> JsonForm(v).items[i] == v.items[i])
      {
        StringsSurvive(v.items[i]);
      }
    }
  }

  lemma KeywordSurvives(schema: Fields, key: string)
    ensures Keyword(JsonForm(Object(schema)).fields, key) == JsonForm(Keyword(schema, key))
  {
  }

  lemma {:induction false} ConformsSurvives(v: Value, schema: Value)
    requires IsJson(v) && Portable(schema)
    ensures Conforms(v, JsonForm(schema)) <==> Conforms(v, schema)
    decreases schema
  {
    if schema.Object? {
      var before, after := schema.fields, JsonForm(schema).fields;
      KeywordSurvives(before, "type");
      KeywordSurvives(before, "enum");
      PropertiesSurvive(v, schema);
      EnumSurvives(before, v);
      assert TypeKeyword(after) == TypeKeyword(before);
    }
  }

  lemma MembersSurvive(items: seq<Value>, v: Value)
    requires IsJson(v) && forall i :: 0 <= i < |items| ==> JsonForm(items[i]) in items
    ensures v in JsonForm(List(items)).items <==> v in items
  {
    JsonFormIsStable(v);
    hide JsonForm;
    var after := seq(|items|, i requires 0 <= i < |items| => JsonForm(items[i]));
    if i :| 0 <= i < |items| && items[i] == v {
      assert after[i] == v;
    }
    ListForm(items);
  }

  lemma ListForm(items: seq<Value>)
    ensures JsonForm(List(items)) == List(seq(|items|, i requires 0 <= i < |items| => JsonForm(items[i])))
  {
  }

  lemma EnumSurvives(schema: Fields, v: Value)
    requires IsJson(v) && EnumPortable(Keyword(schema, "enum"))
    ensures EnumAdmits(JsonForm(Object(schema)).fields, v) <==> EnumAdmits(schema, v)
  {
    KeywordSurvives(schema, "enum");
    var e := Keyword(schema, "enum");
    if e.List? {
      ListForm(e.items);
      MembersSurvive(e.items, v);
    }
    SameKeys(schema);
    hide JsonForm, IsJson;
  }

  lemma SameKeys(schema: Fields)
    ensures JsonForm(Object(schema)).Object? && JsonForm(Object(schema)).fields.Keys == schema.Keys
  {
  }

  lemma {:induction false} PropertiesSurvive(v: Value, schema: Value)
    requires IsJson(v) && schema.Object? && PropertiesPortable(schema)
    ensures PropertiesConform(v, JsonForm(schema)) <==> PropertiesConform(v, schema)
    decreases schema, 0
  {
    KeywordSurvives(schema.fields, "properties");
    if v.Object? && "properties" in schema.fields && schema.fields["properties"].Object? {
      var props := schema.fields["properties"].fields;
      var props' := JsonForm(schema.fields["properties"]).fields;
      forall name | name in props && name in v.fields
        ensures Conforms(v.fields[name], props'[name]) <==> Conforms(v.fields[name], props[name])
      {
        ConformsSurvives(v.fields[name], props[name]);
      }
    }
  }

  lemma SchemaVerdictSurvives(payload: Fields, r: PendingRecord)
    requires IsJson(Object(payload)) && WellTyped(r) && (r.schema.Object? ==> PropertiesPortable(r.schema))
    ensures PayloadConforms(payload, Restored(r).schema) <==> PayloadConforms(payload, r.schema)
  {
    if r.schema.Object? && r.schema.fields != map[] {
      PropertiesSurvive(Object(payload), r.schema);
      KeywordSurvives(r.schema.fields, "required");
      RequiredNamesSurvive(Keyword(r.schema.fields, "required"));
    }
  }

  lemma {:induction false} RestoredFor(pending: seq<PendingRecord>, id: string)
    requires id in PendingIds(pending)
    ensures PendingIds(RestoredAll(pending)) == PendingIds(pending)
    ensures RecordFor(RestoredAll(pending), id) == Restored(RecordFor(pending, id))
  {
    hide Restored;
    RestoredIds(pending);
    var n := |pending| - 1;
    assert RestoredAll(pending)[n] == Restored(pending[n]);
    RestoredId(pending[n]);
    if pending[n].id != id {
      var front := pending[..n];
      var i :| 0 <= i < |pending| && pending[i].id == id;
      assert front[i].id == id;
      RestoredFor(front, id);
      RestoredIds(front);
      assert RestoredAll(pending)[..n] == RestoredAll(front);
    }
  }

  lemma RestoredId(r: PendingRecord)
    ensures Restored(r).id == r.id
  {
  }

  lemma RestoredIds(pending: seq<PendingRecord>)
    ensures PendingIds(RestoredAll(pending)) == PendingIds(pending)
  {
    var restored := RestoredAll(pending);
    assert forall i :: 0 <= i < |pending| ==> restored[i].id == pending[i].id;
    forall id | id in PendingIds(pending)
      ensures id in PendingIds(restored)
    {
      var i :| 0 <= i < |pending| && pending[i].id == id;
      assert restored[i].id == id;
    }
  }

  /** The verdict on a resume, whose payloads are decoded JSON, is the same whichever form
      the records were stored in. */
  lemma VerdictSurvivesStorage(entries: seq<ResumeEntry>, pending: seq<PendingRecord>, clock: Clock, now: int)
    requires forall i :: 0 <= i < |entries| ==> IsJson(entries[i].payload)
    requires forall i :: 0 <= i < |pending| ==>
               WellTyped(pending[i]) && (pending[i].schema.Object? ==> PropertiesPortable(pending[i].schema))
    ensures Accepted(entries, RestoredAll(pending), clock, now) <==> Accepted(entries, pending, clock, now)
  {
    RestoredIds(pending);
    forall i | 0 <= i < |entries| && entries[i].interruptId in PendingIds(pending)
      ensures var id := entries[i].interruptId;
              var was, now' := RecordFor(pending, id), RecordFor(RestoredAll(pending), id);
              && was.expiresAt == now'.expiresAt
              && (AnswerSound(entries[i], now'.schema) <==> AnswerSound(entries[i], was.schema))
    {
      var id := entries[i].interruptId;
      RestoredFor(pending, id);
      if entries[i].payload.Object? {
        SchemaVerdictSurvives(entries[i].payload.fields, RecordFor(pending, id));
      }
    }
  }

  /** The records this launcher writes survive any storage unchanged. */
  lemma LauncherRecordsSurvive(interrupts: seq<Interrupt>)
    requires forall i :: 0 <= i < |interrupts| ==> interrupts[i].schema == ConfirmationSchema()
    ensures RestoredAll(RecordsOf(interrupts)) == RecordsOf(interrupts)
    ensures DecodeRecords(JsonForm(Pending(RecordsOf(interrupts)))) == Some(RecordsOf(interrupts))
  {
    ConfirmationSchemaIsJson();
    JsonFormIsStable(ConfirmationSchema());
    var records := RecordsOf(interrupts);
    assert "type" in ConfirmationSchema().fields;
    assert forall i :: 0 <= i < |records| ==> Restored(records[i]) == records[i];
    assert RestoredAll(records) == records;
    StoredFormsDecode(records);
  }

  lemma ConfirmationSchemaIsJson()
    ensures IsJson(ConfirmationSchema())
  {
    assert IsJson(ApprovedSchema()) && IsJson(EditedArgsSchema());
    var props: Fields := map["approved" := ApprovedSchema(), "editedArgs" := EditedArgsSchema()];
    assert IsJson(Object(props));
    assert IsJson(List([Str("approved")]));
  }

  /** A string slice under `enum` is ignored until JSON turns it into a list. This launcher
      stores no such schema: its own has no enum at all. */
  lemma StringSliceEnumChangesVerdict()
    ensures var schema := Object(map["properties" := Object(map["q" := Object(map["enum" := Strings(["Q1"])])])]);
            var r := PendingRecord("i", "tool_call", "", schema);
            var payload: Fields := map["q" := Str("Q5")];
            PayloadConforms(payload, r.schema) && !PayloadConforms(payload, Restored(r).schema)
  {
    var fragment := Object(map["enum" := Strings(["Q1"])]);
    var props := Object(map["q" := fragment]);
    var schema := Object(map["properties" := props]);
    var payload: Fields := map["q" := Str("Q5")];
    assert Conforms(payload["q"], fragment);
    var fragment' := JsonForm(fragment);
    assert fragment'.fields["enum"] == List([Str("Q1")]) by {
      assert JsonForm(Strings(["Q1"])).items == [Str("Q1")];
    }
    assert Str("Q5") !in [Str("Q1")];
    assert !Conforms(payload["q"], fragment');
    assert JsonForm(props).fields["q"] == fragment';
    assert JsonForm(schema).fields["properties"] == JsonForm(props);
    assert Object(payload).fields["q"] == payload["q"];
  }
}
