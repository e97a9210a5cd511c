/** Pending interrupts and the validation of a resume request (agui/interrupt_state.go). */
module Interrupts {
  import opened Values
  import opened Protocol
  import opened Schema

  /** RFC 3339 timestamp parsing, without and with fractional seconds. */
  datatype Clock = Clock(seconds: string -> Option<int>, nanos: string -> Option<int>)

  function ApprovedSchema(): Value {
    Object(map["type" := Str("boolean")])
  }

  function EditedArgsSchema(): Value {
    Object(map["type" := Str("object"), "description" := Str("Full replacement of the tool args. Not merged.")])
  }

  /** The schema sent to clients with every tool-bound interrupt. */
  function ConfirmationSchema(): Value {
    Object(map[
      "type" := Str("object"),
      "properties" := Object(map["approved" := ApprovedSchema(), "editedArgs" := EditedArgsSchema()]),
      "required" := List([Str("approved")])])
  }

  lemma ApprovedIsExact(v: Value)
    ensures Conforms(v, ApprovedSchema()) <==> StandardAccepts(v, ApprovedSchema())
    ensures RequiredPresent(v, ApprovedSchema())
  {
    assert Keyword(ApprovedSchema().fields, "required") == Nil;
  }

  lemma EditedArgsAreExact(v: Value)
    ensures Conforms(v, EditedArgsSchema()) <==> StandardAccepts(v, EditedArgsSchema())
    ensures RequiredPresent(v, EditedArgsSchema())
  {
    assert Keyword(EditedArgsSchema().fields, "required") == Nil;
  }

  /** On the schema this launcher stores the check agrees with the standard: it is of type
      "object", has no enum and requires nothing below its top level. */
  lemma ConfirmationIsExact(payload: Fields)
    ensures PayloadConforms(payload, ConfirmationSchema()) <==> StandardAccepts(Object(payload), ConfirmationSchema())
    ensures RequiredPresent(Object(payload), ConfirmationSchema()) <==> "approved" in payload
  {
    hide ApprovedSchema, EditedArgsSchema;
    ConfirmationKeywords();
    var schema, v := ConfirmationSchema().fields, Object(payload);
    var props := schema["properties"].fields;
    forall name | name in props && name in payload
      ensures Conforms(payload[name], props[name]) <==> StandardAccepts(payload[name], props[name])
      ensures RequiredPresent(payload[name], props[name])
    {
      ApprovedIsExact(payload[name]);
      EditedArgsAreExact(payload[name]);
    }
  }

  lemma ConfirmationKeywords()
    ensures var schema := ConfirmationSchema().fields;
            && RequiredNames(Keyword(schema, "required")) == {"approved"}
            && schema["properties"].fields.Keys == {"approved", "editedArgs"}
            && schema["properties"].fields["approved"] == ApprovedSchema()
            && schema["properties"].fields["editedArgs"] == EditedArgsSchema()
  {
    assert ConfirmationSchema().fields["required"].items[0] == Str("approved");
  }

  function RecordOf(i: Interrupt): PendingRecord {
    PendingRecord(i.id, i.reason, i.expiresAt, i.schema)
  }

  function RecordsOf(interrupts: seq<Interrupt>): seq<PendingRecord> {
    seq(|interrupts|, i requires 0 <= i < |interrupts| => RecordOf(interrupts[i]))
  }

  /** A timestamp at or before `now`; one that does not parse never expires. */
  predicate IsExpired(clock: Clock, expiresAt: string, now: int) {
    var t := if clock.seconds(expiresAt).Some? then clock.seconds(expiresAt) else clock.nanos(expiresAt);
    t.Some? && t.value <= now
  }

  function EntryIds(entries: seq<ResumeEntry>): set<string> {
    set i | 0 <= i < |entries| :: entries[i].interruptId
  }

  predicate DistinctEntries(entries: seq<ResumeEntry>) {
    forall i, j :: 0 <= i < j < |entries| ==> entries[i].interruptId != entries[j].interruptId
  }

  function PendingIds(pending: seq<PendingRecord>): set<string> {
    set i | 0 <= i < |pending| :: pending[i].id
  }

  /** The record that an id denotes: the last one listed under it. */
  function RecordFor(pending: seq<PendingRecord>, id: string): PendingRecord
    requires id in PendingIds(pending)
    ensures RecordFor(pending, id) in pending && RecordFor(pending, id).id == id
  {
    if pending[|pending| - 1].id == id then pending[|pending| - 1]
    else
      assert exists i :: 0 <= i < |pending| - 1 && pending[i].id == id;
      RecordFor(pending[..|pending| - 1], id)
  }

  predicate Unexpired(clock: Clock, rec: PendingRecord, now: int) {
    rec.expiresAt == "" || !IsExpired(clock, rec.expiresAt, now)
  }

  /** The user's answer is well formed: resolved with a conforming object, or cancelled with nothing. */
  predicate AnswerSound(entry: ResumeEntry, schema: Value) {
    || (entry.status == RESOLVED && entry.payload.Object? && PayloadConforms(entry.payload.fields, schema))
    || (entry.status == CANCELLED && entry.payload.Nil?)
  }

  /** A resume answers the pending interrupts exactly: each once, none unknown, none late. */
  predicate Answers(entries: seq<ResumeEntry>, pending: seq<PendingRecord>, clock: Clock, now: int) {
    && DistinctEntries(entries)
    && "" !in EntryIds(entries)
    && EntryIds(entries) == PendingIds(pending)
    && forall i :: 0 <= i < |entries| ==>
         && entries[i].interruptId in PendingIds(pending)
         && Unexpired(clock, RecordFor(pending, entries[i].interruptId), now)
         && AnswerSound(entries[i], RecordFor(pending, entries[i].interruptId).schema)
  }

  /** When a request may go on to run the agent. */
  predicate Accepted(entries: seq<ResumeEntry>, pending: seq<PendingRecord>, clock: Clock, now: int) {
    if pending == [] then entries == [] else Answers(entries, pending, clock, now)
  }

  datatype ResumeFault =
    | ResumeRequired
    | NothingPending
    | Uncovered(id: string)
    | EntryRejected(index: nat, reason: EntryFault)

  datatype EntryFault =
    | NoId
    | DuplicateId
    | UnknownId
    | Expired
    | PayloadNotObject
    | PayloadInvalid
    | UnsupportedStatus
    | PayloadOnCancel

  /** Why entry i is rejected, in the order in which the source checks. */
  function FaultOf(entries: seq<ResumeEntry>, i: nat, pending: seq<PendingRecord>, clock: Clock,
          now: int): Option<EntryFault>
    requires i < |entries|
  {
    var entry := entries[i];
    if entry.interruptId == "" then Some(NoId)
    else if entry.interruptId in EntryIds(entries[..i]) then Some(DuplicateId)
    else if entry.interruptId !in PendingIds(pending) then Some(UnknownId)
    else
      var rec := RecordFor(pending, entry.interruptId);
      if !Unexpired(clock, rec, now) then Some(Expired)
      else if entry.status == RESOLVED then
        if !entry.payload.Object? then Some(PayloadNotObject)
        else if !PayloadConforms(entry.payload.fields, rec.schema) then Some(PayloadInvalid)
        else None
      else if entry.status != CANCELLED then Some(UnsupportedStatus)
      else if !entry.payload.Nil? then Some(PayloadOnCancel)
      else None
  }

  method IndexPending(pending: seq<PendingRecord>) returns (byId: map<string, PendingRecord>)
    ensures byId.Keys == PendingIds(pending)
    ensures forall id :: id in byId ==> byId[id] == RecordFor(pending, id)
  {
    hide PendingIds, RecordFor;
    byId := map[];
    NoRecords();
    assert pending[..0] == [];
    for i := 0 to |pending|
      invariant byId.Keys == PendingIds(pending[..i])
      invariant forall id :: id in byId ==> byId[id] == RecordFor(pending[..i], id)
    {
      assert pending[..i + 1] == pending[..i] + [pending[i]];
      RecordsOfSnoc(pending[..i], pending[i]);
      byId := byId[pending[i].id := pending[i]];
    }
    assert pending[..|pending|] == pending;
  }

  lemma NoRecords()
    ensures PendingIds([]) == {}
  {
  }

  /** A record listed last is the one its id denotes; the others are as before. */
  lemma RecordsOfSnoc(pending: seq<PendingRecord>, rec: PendingRecord)
    ensures var all := pending + [rec];
            && PendingIds(all) == PendingIds(pending) + {rec.id}
            && forall id :: id in PendingIds(all) ==>
                 RecordFor(all, id) == if id == rec.id then rec else RecordFor(pending, id)
  {
    hide PendingIds;
    IdsOfSnoc(pending, rec);
    assert (pending + [rec])[..|pending|] == pending;
  }

  lemma IdsOfSnoc(pending: seq<PendingRecord>, rec: PendingRecord)
    ensures PendingIds(pending + [rec]) == PendingIds(pending) + {rec.id}
  {
    var all := pending + [rec];
    assert forall i :: 0 <= i < |pending| ==> all[i].id == pending[i].id;
    assert all[|pending|].id == rec.id;
    forall id | id in PendingIds(pending)
      ensures id in PendingIds(all)
    {
      var i :| 0 <= i < |pending| && pending[i].id == id;
      assert all[i].id == id;
    }
  }

  /** Accepts exactly the requests that Accepted describes, whatever the order in which
      the pending map is ranged over; a rejected entry is the first faulty one. */
  method ValidateResumeAgainstPending(entries: seq<ResumeEntry>, pending: seq<PendingRecord>, clock: Clock, now: int)
    returns (fault: Option<ResumeFault>)
    ensures fault.None? <==> Accepted(entries, pending, clock, now)
    ensures fault.Some? && fault.value.EntryRejected? ==>
              && fault.value.index < |entries|
              && FaultOf(entries, fault.value.index, pending, clock, now) == Some(fault.value.reason)
              && forall j :: 0 <= j < fault.value.index ==> FaultOf(entries, j, pending, clock, now).None?
    ensures fault == Some(ResumeRequired) <==> pending != [] && entries == []
    ensures fault == Some(NothingPending) <==> pending == [] && entries != []
    ensures fault.Some? && fault.value.Uncovered? ==>
              && entries != [] && fault.value.id in PendingIds(pending) && fault.value.id !in EntryIds(entries)
              && forall j :: 0 <= j < |entries| ==> FaultOf(entries, j, pending, clock, now).None?
  {
    var pendingById := IndexPending(pending);
    if |pending| > 0 {
      assert pending[0].id in PendingIds(pending);
      if |entries| == 0 {
        return Some(ResumeRequired);
      }
      var resumeIds: set<string> := {};
      for i := 0 to |entries|
        invariant resumeIds == EntryIds(entries[..i])
        invariant forall j :: 0 <= j < i ==> FaultOf(entries, j, pending, clock, now).None?
      {
        var reason := CheckEntry(entries, i, pending, pendingById, resumeIds, clock, now);
        if reason.Some? {
          FaultRejects(entries, i, pending, clock, now);
          return Some(EntryRejected(i, reason.value));
        }
        EntryIdsOfSnoc(entries, i);
        resumeIds := resumeIds + {entries[i].interruptId};
      }
      assert entries[..|entries|] == entries;
      FaultlessEntries(entries, pending, clock, now);
      var open := pendingById.Keys;
      while open != {}
        invariant open <= PendingIds(pending)
        invariant PendingIds(pending) - open <= resumeIds
        decreases |open|
      {
        var id :| id in open;
        open := open - {id};
        if id !in resumeIds {
          return Some(Uncovered(id));
        }
      }
      return None;
    }
    if |entries| > 0 {
      return Some(NothingPending);
    }
    return None;
  }

  /** The body of the loop over resume entries. */
  method CheckEntry(entries: seq<ResumeEntry>, i: nat, pending: seq<PendingRecord>,
                    pendingById: map<string, PendingRecord>, resumeIds: set<string>, clock: Clock, now: int)
    returns (reason: Option<EntryFault>)
    requires i < |entries|
    requires pendingById.Keys == PendingIds(pending)
    requires forall id :: id in pendingById ==> pendingById[id] == RecordFor(pending, id)
    requires resumeIds == EntryIds(entries[..i])
    ensures reason == FaultOf(entries, i, pending, clock, now)
  {
    var entry := entries[i];
    if entry.interruptId == "" {
      return Some(NoId);
    }
    if entry.interruptId in resumeIds {
      return Some(DuplicateId);
    }
    if entry.interruptId !in pendingById {
      return Some(UnknownId);
    }
    var rec := pendingById[entry.interruptId];
    if rec.expiresAt != "" && IsExpired(clock, rec.expiresAt, now) {
      return Some(Expired);
    }
    if entry.status == RESOLVED {
      if !entry.payload.Object? {
        return Some(PayloadNotObject);
      }
      var ok := ValidatePayloadAgainstSchema(entry.payload.fields, rec.schema);
      if !ok {
        return Some(PayloadInvalid);
      }
    } else if entry.status != CANCELLED {
      return Some(UnsupportedStatus);
    } else if entry.payload != Nil {
      return Some(PayloadOnCancel);
    }
    return None;
  }

  lemma EntryIdsOfSnoc(entries: seq<ResumeEntry>, i: nat)
    requires i < |entries|
    ensures EntryIds(entries[..i + 1]) == EntryIds(entries[..i]) + {entries[i].interruptId}
  {
    assert entries[..i + 1][i] == entries[i];
    forall id | id in EntryIds(entries[..i])
      ensures id in EntryIds(entries[..i + 1])
    {
      var j :| 0 <= j < i && entries[..i][j].interruptId == id;
      assert entries[..i + 1][j].interruptId == id;
    }
  }

  /** An entry is faultless exactly when it is sound and its id is new: the verdict is declarative. */
  lemma FaultlessEntries(entries: seq<ResumeEntry>, pending: seq<PendingRecord>, clock: Clock, now: int)
    requires forall j :: 0 <= j < |entries| ==> FaultOf(entries, j, pending, clock, now).None?
    ensures EntryIds(entries) <= PendingIds(pending)
    ensures PendingIds(pending) <= EntryIds(entries) ==> Answers(entries, pending, clock, now)
  {
    forall i, j | 0 <= i < j < |entries|
      ensures entries[i].interruptId != entries[j].interruptId
    {
      assert entries[..j][i].interruptId in EntryIds(entries[..j]);
      assert FaultOf(entries, j, pending, clock, now).None?;
    }
    forall i | 0 <= i < |entries|
      ensures entries[i].interruptId != "" && entries[i].interruptId in PendingIds(pending)
      ensures Unexpired(clock, RecordFor(pending, entries[i].interruptId), now)
      ensures AnswerSound(entries[i], RecordFor(pending, entries[i].interruptId).schema)
    {
      assert FaultOf(entries, i, pending, clock, now).None?;
    }
  }

  lemma FaultRejects(entries: seq<ResumeEntry>, i: nat, pending: seq<PendingRecord>, clock: Clock, now: int)
    requires i < |entries| && FaultOf(entries, i, pending, clock, now).Some?
    ensures !Answers(entries, pending, clock, now)
  {
    var id := entries[i].interruptId;
    assert id in EntryIds(entries);
    if id in EntryIds(entries[..i]) {
      var j :| 0 <= j < i && entries[..i][j].interruptId == id;
      assert entries[j].interruptId == id;
    }
  }

  // ----- what the verdict does not depend on

  /** An accepted resume would have been accepted earlier too. */
  lemma EarlierStillAccepted(entries: seq<ResumeEntry>, pending: seq<PendingRecord>, clock: Clock, now: int,
          earlier: int)
    requires Accepted(entries, pending, clock, now) && earlier <= now
    ensures Accepted(entries, pending, clock, earlier)
  {
    forall i | 0 <= i < |entries| && pending != []
      ensures Unexpired(clock, RecordFor(pending, entries[i].interruptId), earlier)
    {
      assert Unexpired(clock, RecordFor(pending, entries[i].interruptId), now);
    }
  }

  lemma TwiceCounts<T>(s: seq<T>, i: nat, j: nat)
    requires i < j < |s| && s[i] == s[j]
    ensures multiset(s)[s[i]] >= 2
  {
    assert s == s[..j] + s[j..];
    assert s[..j][i] == s[i] && s[j..][0] == s[j];
    assert s[i] in s[..j] && s[i] in s[j..];
  }

  lemma CountsTwice<T>(s: seq<T>, x: T) returns (i: nat, j: nat)
    requires multiset(s)[x] >= 2
    ensures i < j < |s| && s[i] == x && s[j] == x
  {
    i :| 0 <= i < |s| && s[i] == x;
    var rest := s[..i] + s[i + 1..];
    assert s == s[..i] + [x] + s[i + 1..];
    assert multiset(rest)[x] >= 1;
    assert x in rest;
    var k :| 0 <= k < |rest| && rest[k] == x;
    j := if k < i then k else k + 1;
    if j < i {
      i, j := j, i;
    }
  }

  lemma SameMembers<T>(xs: seq<T>, ys: seq<T>)
    requires multiset(xs) == multiset(ys)
    ensures forall x :: x in xs <==> x in ys
  {
    forall x
      ensures x in xs <==> x in ys
    {
      assert x in xs <==> x in multiset(xs);
      assert x in ys <==> x in multiset(ys);
    }
  }

  /** Reordering entries keeps their ids distinct. */
  lemma DistinctIdsPermute(xs: seq<ResumeEntry>, ys: seq<ResumeEntry>)
    requires multiset(xs) == multiset(ys) && DistinctEntries(xs)
    ensures DistinctEntries(ys)
  {
    SameMembers(xs, ys);
    forall i, j | 0 <= i < j < |ys|
      ensures ys[i].interruptId != ys[j].interruptId
    {
      if ys[i] == ys[j] {
        TwiceCounts(ys, i, j);
        var a, b := CountsTwice(xs, ys[i]);
      } else {
        assert ys[i] in xs && ys[j] in xs;
        var a :| 0 <= a < |xs| && xs[a] == ys[i];
        var b :| 0 <= b < |xs| && xs[b] == ys[j];
      }
    }
  }

  lemma IdMembership(entries: seq<ResumeEntry>, id: string)
    ensures id in EntryIds(entries) <==> exists e :: e in entries && e.interruptId == id
  {
    if id in EntryIds(entries) {
      var i :| 0 <= i < |entries| && entries[i].interruptId == id;
      assert entries[i] in entries;
    }
    if e :| e in entries && e.interruptId == id {
      var i :| 0 <= i < |entries| && entries[i] == e;
      assert entries[i].interruptId == id;
    }
  }

  lemma EntryOrderIrrelevantOneWay(xs: seq<ResumeEntry>, ys: seq<ResumeEntry>, pending: seq<PendingRecord>,
          clock: Clock, now: int)
    requires multiset(xs) == multiset(ys) && Answers(xs, pending, clock, now)
    ensures Answers(ys, pending, clock, now)
  {
    DistinctIdsPermute(xs, ys);
    SameMembers(xs, ys);
    forall id
      ensures id in EntryIds(xs) <==> id in EntryIds(ys)
    {
      IdMembership(xs, id);
      IdMembership(ys, id);
    }
    forall i | 0 <= i < |ys|
      ensures ys[i].interruptId in PendingIds(pending)
      ensures Unexpired(clock, RecordFor(pending, ys[i].interruptId), now)
      ensures AnswerSound(ys[i], RecordFor(pending, ys[i].interruptId).schema)
    {
      assert ys[i] in xs;
      var j :| 0 <= j < |xs| && xs[j] == ys[i];
    }
  }

  /** The order of the resume entries does not matter. */
  lemma EntryOrderIrrelevant(xs: seq<ResumeEntry>, ys: seq<ResumeEntry>, pending: seq<PendingRecord>, clock: Clock,
          now: int)
    requires multiset(xs) == multiset(ys)
    ensures Accepted(xs, pending, clock, now) <==> Accepted(ys, pending, clock, now)
  {
    assert xs == [] <==> multiset(xs) == multiset{};
    assert ys == [] <==> multiset(ys) == multiset{};
    if pending != [] && Answers(xs, pending, clock, now) {
      EntryOrderIrrelevantOneWay(xs, ys, pending, clock, now);
    }
    if pending != [] && Answers(ys, pending, clock, now) {
      EntryOrderIrrelevantOneWay(ys, xs, pending, clock, now);
    }
  }

  predicate DistinctRecords(pending: seq<PendingRecord>) {
    forall i, j :: 0 <= i < j < |pending| ==> pending[i].id != pending[j].id
  }

  lemma PendingMembership(pending: seq<PendingRecord>, id: string)
    ensures id in PendingIds(pending) <==> exists r :: r in pending && r.id == id
  {
    if id in PendingIds(pending) {
      var i :| 0 <= i < |pending| && pending[i].id == id;
      assert pending[i] in pending;
    }
    if r :| r in pending && r.id == id {
      var i :| 0 <= i < |pending| && pending[i] == r;
      assert pending[i].id == id;
    }
  }

  /** With distinct ids the order of the pending records does not matter either. */
  lemma PendingOrderIrrelevant(entries: seq<ResumeEntry>, ps: seq<PendingRecord>, qs: seq<PendingRecord>,
          clock: Clock, now: int)
    requires multiset(ps) == multiset(qs) && DistinctRecords(ps)
    ensures Accepted(entries, ps, clock, now) <==> Accepted(entries, qs, clock, now)
  {
    SameMembers(ps, qs);
    assert ps == [] <==> multiset(ps) == multiset{};
    assert qs == [] <==> multiset(qs) == multiset{};
    forall id
      ensures id in PendingIds(ps) <==> id in PendingIds(qs)
    {
      PendingMembership(ps, id);
      PendingMembership(qs, id);
    }
    forall id | id in PendingIds(ps)
      ensures RecordFor(ps, id) == RecordFor(qs, id)
    {
      var p, q := RecordFor(ps, id), RecordFor(qs, id);
      assert q in ps;
      var i :| 0 <= i < |ps| && ps[i] == p;
      var j :| 0 <= j < |ps| && ps[j] == q;
      assert i == j;
    }
    assert PendingIds(ps) == PendingIds(qs);
  }
}
