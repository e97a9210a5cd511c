/** Turning resume entries into ADK confirmation responses (agui/resume.go). */
module Resume {
  import opened Values
  import opened Protocol
  import opened Schema
  import opened Interrupts
  import Launcher

  /** A FunctionResponse part answering one confirmation call. */
  datatype Confirmation = Confirmation(id: string, name: string, response: Fields)

  /** The response map for one entry; None is an error. */
  function ResponseOf(entry: ResumeEntry): Option<Fields> {
    if entry.status == CANCELLED then Some(map["confirmed" := Bool(false)])
    else if entry.status == RESOLVED && entry.payload.Object? && Keyword(entry.payload.fields, "approved").Bool? then
      var payload := entry.payload.fields;
      var response: Fields := map["confirmed" := payload["approved"]];
      if "editedArgs" in payload then Some(response["payload" := payload["editedArgs"]])
      else if payload - {"approved"} != map[] then Some(response["payload" := Object(payload - {"approved"})])
      else Some(response)
    else None
  }

  predicate Convertible(entries: seq<ResumeEntry>) {
    entries != [] && forall i :: 0 <= i < |entries| ==> entries[i].interruptId != "" && ResponseOf(entries[i]).Some?
  }

  /** The confirmation parts of a convertible resume, in entry order. */
  function Confirmations(entries: seq<ResumeEntry>): seq<Confirmation>
    requires forall i :: 0 <= i < |entries| ==> ResponseOf(entries[i]).Some?
  {
    seq(|entries|, i requires 0 <= i < |entries| =>
      Confirmation(entries[i].interruptId, Launcher.CONFIRMATION_NAME, ResponseOf(entries[i]).value))
  }

  method ConfirmationResponseFromResumeEntry(entry: ResumeEntry) returns (result: Option<Fields>)
    ensures result == ResponseOf(entry)
  {
    match entry.status {
      case "cancelled" =>
        return Some(map["confirmed" := Bool(false)]);
      case "resolved" =>
        if !entry.payload.Object? {
          return None;
        }
        var payload := entry.payload.fields;
        if "approved" !in payload || !payload["approved"].Bool? {
          return None;
        }
        var response: Fields := map["confirmed" := Bool(payload["approved"].b)];
        if "editedArgs" in payload {
          response := response["payload" := payload["editedArgs"]];
        } else {
          OnlyApproved(payload);
          if |payload| > 1 {
            var extra := WithoutApproved(payload);
            if |extra| > 0 {
              response := response["payload" := Object(extra)];
            }
          }
        }
        return Some(response);
      case _ =>
        return None;
    }
  }

  method WithoutApproved(payload: Fields) returns (extra: Fields)
    ensures extra == payload - {"approved"}
  {
    extra := map[];
    var rest := payload.Keys;
    while rest != {}
      invariant rest <= payload.Keys
      invariant extra == (map k | k in payload && k !in rest && k != "approved" :: payload[k])
      decreases |rest|
    {
      var k :| k in rest;
      rest := rest - {k};
      if k == "approved" {
        continue;
      }
      extra := extra[k := payload[k]];
    }
  }

  lemma OnlyApproved(payload: Fields)
    requires "approved" in payload
    ensures |payload| > 1 <==> payload - {"approved"} != map[]
    ensures |payload - {"approved"}| > 0 <==> payload - {"approved"} != map[]
  {
    var extra := payload - {"approved"};
    assert extra.Keys == payload.Keys - {"approved"};
    assert |payload.Keys| == |extra.Keys| + 1;
    if extra.Keys == {} {
      assert extra == map[];
    }
  }

  method ResumeEntriesToConfirmationContent(entries: seq<ResumeEntry>) returns (result: Option<seq<Confirmation>>)
    ensures result.Some? <==> Convertible(entries)
    ensures result.Some? ==> result.value == Confirmations(entries)
  {
    if |entries| == 0 {
      return None;
    }
    var parts: seq<Confirmation> := [];
    for i := 0 to |entries|
      invariant forall j :: 0 <= j < i ==> entries[j].interruptId != "" && ResponseOf(entries[j]).Some?
      invariant |parts| == i
      invariant forall j :: 0 <= j < i ==>
        parts[j] == Confirmation(entries[j].interruptId, Launcher.CONFIRMATION_NAME, ResponseOf(entries[j]).value)
    {
      if entries[i].interruptId == "" {
        return None;
      }
      var response := ConfirmationResponseFromResumeEntry(entries[i]);
      if response.None? {
        return None;
      }
      parts := parts + [Confirmation(entries[i].interruptId, Launcher.CONFIRMATION_NAME, response.value)];
    }
    return Some(parts);
  }

  // ----- what a resume delivers

  /** An entry with an id that says yes or no: cancelled, or resolved with a boolean "approved". */
  predicate Decided(entry: ResumeEntry) {
    && entry.interruptId != ""
    && (entry.status == "cancelled" ||
        (entry.status == "resolved" && entry.payload.Object? && "approved" in entry.payload.fields
         && entry.payload.fields["approved"].Bool?))
  }

  /** The response that answers a resolved entry: `confirmed` is `approved`, `payload` is
      `editedArgs`, or else the other fields if there are any, and nothing more. */
  predicate Resolves(response: Fields, answer: Fields) {
    && "approved" in answer && "confirmed" in response && response["confirmed"] == answer["approved"]
    && response.Keys == (if answer.Keys == {"approved"} then {"confirmed"} else {"confirmed", "payload"})
    && ("payload" in response ==>
          response["payload"] ==
          if "editedArgs" in answer then answer["editedArgs"]
          else Object(map k | k in answer && k != "approved" :: answer[k]))
  }

  /** A confirmation response for exactly this entry: under its id, ADK's name, and with its answer. */
  predicate AnswersEntry(part: Confirmation, entry: ResumeEntry) {
    && part.id == entry.interruptId && part.name == "adk_request_confirmation"
    && (entry.status == "cancelled" ==> part.response == map["confirmed" := Bool(false)])
    && (entry.status == "resolved" ==> entry.payload.Object? && Resolves(part.response, entry.payload.fields))
  }

  predicate AnswersEntries(parts: seq<Confirmation>, entries: seq<ResumeEntry>) {
    |parts| == |entries| && forall i :: 0 <= i < |parts| ==> AnswersEntry(parts[i], entries[i])
  }

  lemma ResponseAnswers(entry: ResumeEntry)
    ensures entry.interruptId != "" && ResponseOf(entry).Some? <==> Decided(entry)
    ensures Decided(entry) ==>
              AnswersEntry(Confirmation(entry.interruptId, Launcher.CONFIRMATION_NAME, ResponseOf(entry).value), entry)
  {
    if Decided(entry) && entry.status == "resolved" {
      var answer := entry.payload.fields;
      var extra := answer - {"approved"};
      assert extra == map k | k in answer && k != "approved" :: answer[k];
      assert extra == map[] <==> answer.Keys == {"approved"} by {
        assert extra.Keys == answer.Keys - {"approved"};
        if extra.Keys == {} {
          assert extra == map[];
          assert answer.Keys == {"approved"};
        }
      }
      var response := ResponseOf(entry).value;
      assert response.Keys == if answer.Keys == {"approved"} then {"confirmed"} else {"confirmed", "payload"};
    }
  }

  /** A resume converts exactly when it is not empty and every entry is decided; then each
      entry is answered by one response, in order. */
  lemma ResumeDelivers(entries: seq<ResumeEntry>)
    ensures Convertible(entries) <==> entries != [] && forall i :: 0 <= i < |entries| ==> Decided(entries[i])
    ensures Convertible(entries) ==> AnswersEntries(Confirmations(entries), entries)
  {
    hide ResponseOf, Decided, AnswersEntry;
    forall i | 0 <= i < |entries|
      ensures entries[i].interruptId != "" && ResponseOf(entries[i]).Some? <==> Decided(entries[i])
      ensures Decided(entries[i]) ==>
                AnswersEntry(Confirmation(entries[i].interruptId, Launcher.CONFIRMATION_NAME,
                                          ResponseOf(entries[i]).value), entries[i])
    {
      ResponseAnswers(entries[i]);
    }
  }

  // ----- validated implies convertible

  /** An answer that conforms to the confirmation schema says whether it approves. */
  lemma SoundAnswerConverts(entry: ResumeEntry)
    requires AnswerSound(entry, ConfirmationSchema())
    ensures ResponseOf(entry).Some?
    ensures var response := ResponseOf(entry).value;
            && (entry.status == CANCELLED ==> response == map["confirmed" := Bool(false)])
            && (entry.status == RESOLVED ==>
                  && entry.payload.Object? && "approved" in entry.payload.fields
                  && "confirmed" in response && response["confirmed"] == entry.payload.fields["approved"]
                  && ("editedArgs" in entry.payload.fields ==>
                        "payload" in response && response["payload"] == entry.payload.fields["editedArgs"]
                        && response["payload"].Object?)
                  && ("editedArgs" !in entry.payload.fields ==>
                        if entry.payload.fields.Keys == {"approved"} then "payload" !in response
                        else "payload" in response && response["payload"] == Object(entry.payload.fields - {"approved"})))
  {
    if entry.status == RESOLVED {
      var payload := entry.payload.fields;
      var schema := ConfirmationSchema().fields;
      assert schema["required"].items[0] == Str("approved");
      assert "approved" in RequiredNames(Keyword(schema, "required"));
      var props := schema["properties"].fields;
      assert props["approved"] == Object(map["type" := Str("boolean")]);
      assert Object(payload).fields == payload;
      assert Conforms(payload["approved"], props["approved"]);
      if "editedArgs" in payload {
        assert Conforms(payload["editedArgs"], props["editedArgs"]);
      }
      OnlyApproved(payload);
      assert payload.Keys == {"approved"} <==> payload - {"approved"} == map[];
    }
  }

  /** A resume accepted against the records this launcher stores always converts: one
      part per entry, in order and with that entry's answer, whose ids are exactly the
      pending ids, each once. */
  lemma ValidatedImpliesConvertible(entries: seq<ResumeEntry>, pending: seq<PendingRecord>, clock: Clock, now: int)
    requires entries != [] && Accepted(entries, pending, clock, now)
    requires forall i :: 0 <= i < |pending| ==> pending[i].schema == ConfirmationSchema()
    ensures Convertible(entries)
    ensures var parts := Confirmations(entries);
            && AnswersEntries(parts, entries) && |parts| == |PendingIds(pending)|
            && (set i | 0 <= i < |parts| :: parts[i].id) == PendingIds(pending)
            && (forall i, j :: 0 <= i < j < |parts| ==> parts[i].id != parts[j].id)
  {
    forall i | 0 <= i < |entries|
      ensures entries[i].interruptId != "" && ResponseOf(entries[i]).Some?
    {
      var rec := RecordFor(pending, entries[i].interruptId);
      assert entries[i].interruptId in EntryIds(entries);
      SoundAnswerConverts(entries[i]);
    }
    ResumeDelivers(entries);
    var parts := Confirmations(entries);
    assert forall i :: 0 <= i < |parts| ==> parts[i].id == entries[i].interruptId;
    assert (set i | 0 <= i < |parts| :: parts[i].id) == EntryIds(entries) by {
      forall id | id in EntryIds(entries)
        ensures id in set i | 0 <= i < |parts| :: parts[i].id
      {
        var i :| 0 <= i < |entries| && entries[i].interruptId == id;
        assert parts[i].id == id;
      }
    }
    DistinctCount(entries, |entries|);
    assert entries[..|entries|] == entries;
  }

  lemma {:induction false} DistinctCount(entries: seq<ResumeEntry>, n: nat)
    requires n <= |entries| && DistinctEntries(entries)
    ensures |EntryIds(entries[..n])| == n
  {
    if n == 0 {
      assert EntryIds(entries[..0]) == {};
    } else {
      DistinctCount(entries, n - 1);
      EntryIdsOfSnoc(entries, n - 1);
      assert entries[n - 1].interruptId !in EntryIds(entries[..n - 1]);
    }
  }
}
