/** When a resume is accepted, spelled out on the records, the entries and the clock. */
module Acceptance {
  import opened Values
  import opened Protocol
  import opened Schema
  import opened Interrupts

  /** Record k is the last one under its id. */
  predicate Current(pending: seq<PendingRecord>, k: int) {
    0 <= k < |pending| && forall m :: k < m < |pending| ==> pending[m].id != pending[k].id
  }

  /** The expiry has come: it parses, with or without fractional seconds, to a time not after now. */
  predicate Lapsed(rec: PendingRecord, clock: Clock, now: int) {
    rec.expiresAt != "" &&
    match clock.seconds(rec.expiresAt)
    case Some(t) => t <= now
    case None => clock.nanos(rec.expiresAt).Some? && clock.nanos(rec.expiresAt).value <= now
  }

  /** The user said something that the record allows: an object that conforms, or nothing at all. */
  predicate Replies(entry: ResumeEntry, rec: PendingRecord) {
    || (entry.status == "cancelled" && entry.payload.Nil?)
    || (entry.status == "resolved" && entry.payload.Object? && PayloadConforms(entry.payload.fields, rec.schema))
  }

  predicate Settles(entry: ResumeEntry, rec: PendingRecord, clock: Clock, now: int) {
    entry.interruptId == rec.id != "" && !Lapsed(rec, clock, now) && Replies(entry, rec)
  }

  /** An entry settles the record that its id denotes. */
  predicate SettlesOne(entry: ResumeEntry, pending: seq<PendingRecord>, clock: Clock, now: int) {
    exists k :: 0 <= k < |pending| && Current(pending, k) && Settles(entry, pending[k], clock, now)
  }

  lemma {:induction false} RecordForIsCurrent(pending: seq<PendingRecord>, id: string) returns (k: nat)
    requires id in PendingIds(pending)
    ensures Current(pending, k) && pending[k].id == id && RecordFor(pending, id) == pending[k]
  {
    var n := |pending| - 1;
    if pending[n].id == id {
      k := n;
    } else {
      var front := pending[..n];
      var i :| 0 <= i < |pending| && pending[i].id == id;
      assert front[i].id == id;
      k := RecordForIsCurrent(front, id);
    }
  }

  lemma CurrentIsRecordFor(pending: seq<PendingRecord>, k: nat)
    requires Current(pending, k)
    ensures pending[k].id in PendingIds(pending) && RecordFor(pending, pending[k].id) == pending[k]
  {
    var n := RecordForIsCurrent(pending, pending[k].id);
    assert n == k;
  }

  lemma SettlesIff(entry: ResumeEntry, pending: seq<PendingRecord>, clock: Clock, now: int)
    ensures SettlesOne(entry, pending, clock, now) <==>
              && entry.interruptId != "" && entry.interruptId in PendingIds(pending)
              && Unexpired(clock, RecordFor(pending, entry.interruptId), now)
              && AnswerSound(entry, RecordFor(pending, entry.interruptId).schema)
  {
    hide PendingIds, RecordFor, PayloadConforms, Current;
    if k :| 0 <= k < |pending| && Current(pending, k) && Settles(entry, pending[k], clock, now) {
      CurrentIsRecordFor(pending, k);
    }
    if entry.interruptId in PendingIds(pending) {
      var k := RecordForIsCurrent(pending, entry.interruptId);
      assert pending[k].id == entry.interruptId;
    }
  }

  predicate Named(entries: seq<ResumeEntry>, id: string) {
    exists i :: 0 <= i < |entries| && entries[i].interruptId == id
  }

  lemma NamedIff(entries: seq<ResumeEntry>, pending: seq<PendingRecord>)
    ensures PendingIds(pending) <= EntryIds(entries) <==>
              forall k :: 0 <= k < |pending| ==> Named(entries, pending[k].id)
    ensures EntryIds(entries) <= PendingIds(pending) <==>
              forall i :: 0 <= i < |entries| ==> entries[i].interruptId in PendingIds(pending)
    ensures "" !in EntryIds(entries) <==> forall i :: 0 <= i < |entries| ==> entries[i].interruptId != ""
  {
    forall id
      ensures id in EntryIds(entries) <==> Named(entries, id)
    {
    }
    if PendingIds(pending) <= EntryIds(entries) {
      forall k | 0 <= k < |pending|
        ensures Named(entries, pending[k].id)
      {
        assert pending[k].id in PendingIds(pending);
      }
    }
    forall i | 0 <= i < |entries|
      ensures entries[i].interruptId in EntryIds(entries)
    {
    }
  }

  /** A resume is accepted exactly when no two entries name the same interrupt, every
      pending one is named, and every entry settles the last record under its id: one that
      has not lapsed, with a reply that its schema allows. With nothing pending, exactly
      when there is no entry. */
  lemma AcceptedIff(entries: seq<ResumeEntry>, pending: seq<PendingRecord>, clock: Clock, now: int)
    ensures Accepted(entries, pending, clock, now) <==>
              if pending == [] then entries == []
              else
                && (forall i, j :: 0 <= i < j < |entries| ==> entries[i].interruptId != entries[j].interruptId)
                && (forall k :: 0 <= k < |pending| ==> Named(entries, pending[k].id))
                && (forall i :: 0 <= i < |entries| ==> SettlesOne(entries[i], pending, clock, now))
  {
    hide RecordFor, Unexpired, AnswerSound, SettlesOne, EntryIds, PendingIds, Named;
    NamedIff(entries, pending);
    forall i | 0 <= i < |entries|
      ensures SettlesOne(entries[i], pending, clock, now) <==>
                && entries[i].interruptId != "" && entries[i].interruptId in PendingIds(pending)
                && Unexpired(clock, RecordFor(pending, entries[i].interruptId), now)
                && AnswerSound(entries[i], RecordFor(pending, entries[i].interruptId).schema)
    {
      SettlesIff(entries[i], pending, clock, now);
    }
  }

  /** What the stored schema allows: a yes or no, and edited arguments only as an object. */
  lemma ConfirmationAllows(payload: Fields)
    ensures PayloadConforms(payload, ConfirmationSchema()) <==>
              && "approved" in payload && payload["approved"].Bool?
              && ("editedArgs" in payload ==> payload["editedArgs"].Object?)
  {
    hide ApprovedSchema, EditedArgsSchema;
    ConfirmationKeywords();
    var props := ConfirmationSchema().fields["properties"].fields;
    assert Object(payload).fields == payload;
    forall name | name in props && name in payload
      ensures Conforms(payload[name], props[name]) <==>
                if name == "approved" then payload[name].Bool? else payload[name].Object?
    {
      KeywordsConform(payload[name]);
    }
  }

  function Typed(name: string): Value {
    Object(map["type" := Str(name)])
  }

  /** What each type name admits, Go numbers and decoded JSON alike; an unknown name admits all. */
  lemma TypesAdmit(v: Value, name: string)
    ensures Conforms(v, Typed("boolean")) <==> v.Bool?
    ensures Conforms(v, Typed("string")) <==> v.Str?
    ensures Conforms(v, Typed("object")) <==> v.Object?
    ensures Conforms(v, Typed("number")) <==> v.Int? || v.Float32? || v.Float64?
    ensures Conforms(v, Typed("integer")) <==> v.Int? || (v.Float64? && v.f == v.f.Floor as real)
    ensures name !in {"boolean", "string", "object", "number", "integer"} ==> Conforms(v, Typed(name))
  {
    assert forall n :: TypeKeyword(Typed(n).fields) == n;
  }

  lemma KeywordsConform(v: Value)
    ensures Conforms(v, ApprovedSchema()) <==> v.Bool?
    ensures Conforms(v, EditedArgsSchema()) <==> v.Object?
  {
  }

  /** Each reason says what it says: no id, an id seen before, an id of no record, an expiry
      that has come, and for a record in time what is wrong with the reply. */
  lemma FaultSaysWhy(entries: seq<ResumeEntry>, i: nat, pending: seq<PendingRecord>, clock: Clock, now: int)
    requires i < |entries|
    ensures var entry, fault := entries[i], FaultOf(entries, i, pending, clock, now);
            var seen := exists j :: 0 <= j < i && entries[j].interruptId == entry.interruptId;
            var known := exists k :: 0 <= k < |pending| && pending[k].id == entry.interruptId;
            && (fault == Some(NoId) <==> entry.interruptId == "")
            && (fault == Some(DuplicateId) <==> entry.interruptId != "" && seen)
            && (fault == Some(UnknownId) <==> entry.interruptId != "" && !seen && !known)
            && (forall k :: 0 <= k < |pending| && Current(pending, k) &&
                            pending[k].id == entry.interruptId != "" && !seen ==>
                  && (fault == Some(Expired) <==> Lapsed(pending[k], clock, now))
                  && (!Lapsed(pending[k], clock, now) ==>
                        && (fault == Some(PayloadNotObject) <==> entry.status == "resolved" && !entry.payload.Object?)
                        && (fault == Some(PayloadInvalid) <==>
                              && entry.status == "resolved" && entry.payload.Object?
                              && !PayloadConforms(entry.payload.fields, pending[k].schema))
                        && (fault == Some(UnsupportedStatus) <==> entry.status !in {"resolved", "cancelled"})
                        && (fault == Some(PayloadOnCancel) <==> entry.status == "cancelled" && !entry.payload.Nil?)))
  {
    hide PayloadConforms, RecordFor;
    var entry := entries[i];
    assert entry.interruptId in EntryIds(entries[..i]) <==>
             exists j :: 0 <= j < i && entries[j].interruptId == entry.interruptId by {
      if j :| 0 <= j < i && entries[j].interruptId == entry.interruptId {
        assert entries[..i][j].interruptId == entry.interruptId;
      }
    }
    forall k | 0 <= k < |pending| && Current(pending, k)
      ensures pending[k].id in PendingIds(pending) && RecordFor(pending, pending[k].id) == pending[k]
    {
      CurrentIsRecordFor(pending, k);
    }
  }
}
