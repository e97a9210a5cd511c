/** The JSON form of a stored record, and which stored values decode into records at all. */
module StoredForm {
  import opened Values
  import opened Persistence

  /** A record as JSON: "id" and "reason" always, "expiresAt" and "responseSchema" only if they
      are not empty, and nothing else. */
  lemma RecordJson(r: PendingRecord)
    ensures EncodeRecord(r).Object?
    ensures var fields, schema := EncodeRecord(r).fields, r.schema.Object? && r.schema.fields != map[];
            && fields.Keys == {"id", "reason"} + (if r.expiresAt == "" then {} else {"expiresAt"}) +
                              (if schema then {"responseSchema"} else {})
            && fields["id"] == Str(r.id) && fields["reason"] == Str(r.reason)
            && (r.expiresAt != "" ==> fields["expiresAt"] == Str(r.expiresAt))
            && (schema ==> fields["responseSchema"] == JsonForm(r.schema))
  {
    hide JsonForm;
  }

  /** A text field that is absent, null or a string. */
  predicate TextLike(fields: Fields, key: string) {
    key in fields ==> fields[key].Nil? || fields[key].Str?
  }

  /** A list item that decodes: null, or an object whose known fields have the right types. */
  predicate RecordLike(v: Value) {
    || v.Nil?
    || (v.Object? && TextLike(v.fields, "id") && TextLike(v.fields, "reason") && TextLike(v.fields, "expiresAt")
        && ("responseSchema" in v.fields ==> v.fields["responseSchema"].Nil? || v.fields["responseSchema"].Object?))
  }

  /** The text under a key; empty if there is none. */
  function TextAt(v: Value, key: string): string {
    if v.Object? && key in v.fields && v.fields[key].Str? then v.fields[key].s else ""
  }

  /** The record that an item stands for. */
  predicate StandsFor(r: PendingRecord, v: Value) {
    && r.id == TextAt(v, "id") && r.reason == TextAt(v, "reason") && r.expiresAt == TextAt(v, "expiresAt")
    && r.schema == if v.Object? && "responseSchema" in v.fields && v.fields["responseSchema"].Object?
                   then JsonForm(v.fields["responseSchema"]) else Nil
  }

  lemma ItemDecodes(v: Value)
    ensures DecodeRecord(v).Some? <==> RecordLike(v)
    ensures RecordLike(v) ==> StandsFor(DecodeRecord(v).value, v)
  {
    hide JsonForm;
  }

  lemma {:induction false} ListDecodes(items: seq<Value>)
    ensures DecodeList(items).Some? <==> forall i :: 0 <= i < |items| ==> RecordLike(items[i])
    ensures DecodeList(items).Some? ==>
              && |DecodeList(items).value| == |items|
              && forall i :: 0 <= i < |items| ==> StandsFor(DecodeList(items).value[i], items[i])
  {
    hide DecodeRecord, RecordLike, StandsFor;
    if items != [] {
      var front, last := items[..|items| - 1], items[|items| - 1];
      ListDecodes(front);
      ItemDecodes(last);
      assert forall i :: 0 <= i < |front| ==> front[i] == items[i];
      assert items[|items| - 1] == last;
    }
  }

  /** Exactly which stored values decode, and to what: the records themselves, nothing at all,
      and lists of record-like items, each read field by field; anything else is corrupt. */
  lemma StoredDecodes(raw: Value)
    ensures DecodeRecords(raw).Some? <==>
              || raw.Pending? || raw.Nil? || raw == Strings([])
              || (raw.List? && forall i :: 0 <= i < |raw.items| ==> RecordLike(raw.items[i]))
    ensures raw.Pending? ==> DecodeRecords(raw) == Some(raw.records)
    ensures raw.Nil? || raw == Strings([]) ==> DecodeRecords(raw) == Some([])
    ensures raw.List? && DecodeRecords(raw).Some? ==>
              && |DecodeRecords(raw).value| == |raw.items|
              && forall i :: 0 <= i < |raw.items| ==> StandsFor(DecodeRecords(raw).value[i], raw.items[i])
  {
    hide RecordLike, StandsFor, DecodeList;
    if raw.List? {
      ListDecodes(raw.items);
    }
  }
}
