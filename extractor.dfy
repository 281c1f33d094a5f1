/** The extractor stage (`Medibot_extractor.py`): fetches the patient record and
    the knowledge-base guidance the routing asks for, withholding the knowledge
    base from callers who are not doctors. */
module Extractor {
  import opened Wrappers
  import opened PyText
  import opened Protocol

  const DenialMessage := "We are unable to provide clinical guideline information due to hospital privacy rules."

  /** The fixed payload a patient gets instead of knowledge-base content. */
  const Denial: KbResponse := Dict(map["message" := DenialMessage])

  /** Python's `f"{x}"` of an optional string field. */
  function Show(s: Option<string>): string {
    if s.Some? then s.value else "None"
  }

  /** The placeholder for a patient the record store does not hold. */
  function NotFound(patientId: Option<string>): (r: Record)
    ensures RecordTruthy(Some(r))
    ensures r.Keys == {"message"} && "No patient found with ID " <= r["message"]
  {
    map["message" := "No patient found with ID " + Show(patientId)]
  }

  /** `get_patient_from_dynamo`: the stored item, or the not-found placeholder;
      only a failure of the store itself escapes. */
  function FetchPatient(patientId: Option<string>, lookup: Option<string> -> Lookup): (r: Invocation<Record>)
    ensures r.Raised? <==> lookup(patientId).StoreError?
    ensures r.Raised? ==> r.message == lookup(patientId).message
    ensures lookup(patientId).Item? ==> r == Returned(lookup(patientId).record)
    ensures lookup(patientId).NoItem? ==>
              && r.Returned? && r.value.Keys == {"message"}
              && r.value["message"] == "No patient found with ID " + Show(patientId)
  {
    match lookup(patientId)
    case Item(record) => Returned(record)
    case NoItem => Returned(NotFound(patientId))
    case StoreError(message) => Raised(message)
  }

  /** The record a successful fetch yields, if the store did not fail. */
  function Fetched(patientId: Option<string>, lookup: Option<string> -> Lookup): Option<Record> {
    match FetchPatient(patientId, lookup)
    case Returned(record) => Some(record)
    case Raised(_) => None
  }

  /** `call_bedrock` as `lambda_handler` calls it (always with `doctor=True`): the knowledge
      service's output with surrounding whitespace removed. */
  function CallKnowledge(query: Option<string>, patientInfo: Option<Record>,
                         guidance: (Option<string>, Option<Record>) -> Completion): (r: Invocation<string>)
    ensures r.Raised? <==> guidance(query, patientInfo).Failed?
    ensures r.Returned? ==> r.value == Strip(guidance(query, patientInfo).text)
  {
    match guidance(query, patientInfo)
    case Completed(text) => Returned(Strip(text))
    case Failed(message) => Raised(message)
  }

  /** Whether the routing asks for the patient record. */
  predicate NeedsRecord(classification: Option<string>) {
    Route(classification).Some? && Route(classification).value.NeedsRecord()
  }

  /** Whether the routing asks for knowledge-base content. */
  predicate NeedsKnowledge(classification: Option<string>) {
    Route(classification).Some? && Route(classification).value.NeedsKnowledge()
  }

  /** The two routing tests are the membership tests `classification in ["dynamo",
      "both"]` and `classification in ["kb", "both"]` on the raw field. */
  lemma RoutingTests(classification: Option<string>)
    ensures NeedsRecord(classification) <==> classification == Some("dynamo") || classification == Some("both")
    ensures NeedsKnowledge(classification) <==> classification == Some("kb") || classification == Some("both")
  {
  }

  /** The patient record the knowledge call sees: the fetched one for `both`,
      none for `kb`. */
  function GuidanceContext(classification: Option<string>, patientInfo: Option<Record>): (r: Option<Record>)
    ensures r.Some? ==> classification == Some("both") && r == patientInfo
    ensures classification == Some("both") ==> r == patientInfo
  {
    if Route(classification) == Some(Both) then patientInfo else None
  }

  /** Step 1 of `lambda_handler`: the patient record, fetched only when the
      routing is `dynamo` or `both`. */
  function FetchStep(classification: Option<string>, patientId: Option<string>,
                     lookup: Option<string> -> Lookup): (o: Outcome<Invocation<Option<Record>>>)
    ensures o.calls == if NeedsRecord(classification) then [Fetch(patientId)] else []
    ensures o.reply.Raised? <==> NeedsRecord(classification) && lookup(patientId).StoreError?
    ensures o.reply.Returned? ==> (o.reply.value.Some? <==> NeedsRecord(classification))
    ensures o.reply.Returned? && NeedsRecord(classification) ==> o.reply.value == Fetched(patientId, lookup)
  {
    if !NeedsRecord(classification) then Outcome(Returned(None), [])
    else
      var calls := [Fetch(patientId)];
      match FetchPatient(patientId, lookup)
      case Returned(record) => Outcome(Returned(Some(record)), calls)
      case Raised(message) => Outcome(Raised(message), calls)
  }

  /** Step 2 of `lambda_handler`: knowledge-base content when the routing is `kb`
      or `both` — the knowledge service's guidance for a doctor, the fixed denial
      (and no call) for anyone else. */
  function KnowledgeStep(classification: Option<string>, role: Role, query: Option<string>,
                         patientInfo: Option<Record>,
                         guidance: (Option<string>, Option<Record>) -> Completion)
    : (o: Outcome<Invocation<Option<KbResponse>>>)
    ensures o.calls == (if NeedsKnowledge(classification) && role == Doctor
                        then [Guidance(query, GuidanceContext(classification, patientInfo))] else [])
    ensures o.reply.Raised? <==>
              && NeedsKnowledge(classification) && role == Doctor
              && guidance(query, GuidanceContext(classification, patientInfo)).Failed?
    ensures o.reply.Returned? ==> (o.reply.value.Some? <==> NeedsKnowledge(classification))
    ensures o.reply.Returned? && NeedsKnowledge(classification) && role == Patient ==>
              o.reply.value == Some(Denial)
    ensures o.reply.Returned? && NeedsKnowledge(classification) && role == Doctor ==>
              var answer := CallKnowledge(query, GuidanceContext(classification, patientInfo), guidance);
              answer.Returned? && o.reply.value == Some(Text(answer.value))
  {
    if !NeedsKnowledge(classification) then Outcome(Returned(None), [])
    else if role == Patient then Outcome(Returned(Some(Denial)), [])
    else
      var context := GuidanceContext(classification, patientInfo);
      var calls := [Guidance(query, context)];
      var answer := CallKnowledge(query, context, guidance);
      assert calls == (if NeedsKnowledge(classification) && role == Doctor
                       then [Guidance(query, GuidanceContext(classification, patientInfo))] else []);
      if answer.Returned? then Outcome(Returned(Some(Text(answer.value))), calls)
      else Outcome(Raised(answer.message), calls)
  }

  /** The extractor's input event; each field may be absent. */
  datatype Event = Event(patientId: Option<string>, query: Option<string>,
                         doctorId: Option<string>, classification: Option<string>)

  /** The record handed on to the synthesizer. */
  datatype Output = Output(patientId: Option<string>, query: Option<string>,
                           doctorId: Option<string>, classification: Option<string>,
                           patientInfo: Option<Record>, kbResponse: Option<KbResponse>)

  /** The calls the stage makes, in order: the store lookup when the routing needs
      the record, then the knowledge call when a doctor needs knowledge and the
      store did not fail. */
  function Trace(event: Event, lookup: Option<string> -> Lookup): (r: seq<Call>)
  {
    (if NeedsRecord(event.classification) then [Fetch(event.patientId)] else [])
    + (if && NeedsKnowledge(event.classification) && RoleOf(event.doctorId) == Doctor
          && !(NeedsRecord(event.classification) && lookup(event.patientId).StoreError?)
       then [Guidance(event.query, GuidanceContext(event.classification, Fetched(event.patientId, lookup)))]
       else [])
  }

  /** `lambda_handler`. `lookup` is the record store, `guidance` the knowledge
      service; neither failure is caught, so either aborts the invocation. */
  function Handle(event: Event, lookup: Option<string> -> Lookup,
                  guidance: (Option<string>, Option<Record>) -> Completion): (o: Outcome<Invocation<Output>>)
    ensures o.calls == Trace(event, lookup)
    // failures: only the store or the knowledge service can abort the stage
    ensures o.reply.Raised? <==>
              || (NeedsRecord(event.classification) && lookup(event.patientId).StoreError?)
              || (&& NeedsKnowledge(event.classification) && RoleOf(event.doctorId) == Doctor
                  && guidance(event.query,
                              GuidanceContext(event.classification, Fetched(event.patientId, lookup))).Failed?)
    // output: the request fields are echoed
    ensures o.reply.Returned? ==>
              var out := o.reply.value;
              && out.patientId == event.patientId && out.query == event.query
              && out.doctorId == event.doctorId && out.classification == event.classification
    // patient_info is set iff the routing needs it, to the record or the placeholder
    ensures o.reply.Returned? ==>
              (o.reply.value.patientInfo.Some? <==> NeedsRecord(event.classification))
    ensures o.reply.Returned? && NeedsRecord(event.classification) ==>
              o.reply.value.patientInfo == Fetched(event.patientId, lookup)
    // kb_response is set iff the routing needs it: guidance text or the denial
    ensures o.reply.Returned? ==>
              (o.reply.value.kbResponse.Some? <==> NeedsKnowledge(event.classification))
    ensures o.reply.Returned? && NeedsKnowledge(event.classification) && RoleOf(event.doctorId) == Patient ==>
              o.reply.value.kbResponse == Some(Denial)
    ensures o.reply.Returned? && NeedsKnowledge(event.classification) && RoleOf(event.doctorId) == Doctor ==>
              var answer := CallKnowledge(event.query,
                                          GuidanceContext(event.classification, Fetched(event.patientId, lookup)),
                                          guidance);
              answer.Returned? && o.reply.value.kbResponse == Some(Text(answer.value))
  {
    var classification := event.classification;
    var role := RoleOf(event.doctorId);
    var fetch := FetchStep(classification, event.patientId, lookup);
    if fetch.reply.Raised? then
      assert fetch.calls + [] == fetch.calls;
      Outcome(Raised(fetch.reply.message), fetch.calls)
    else
      var patientInfo := fetch.reply.value;
      var knowledge := KnowledgeStep(classification, role, event.query, patientInfo, guidance);
      assert GuidanceContext(classification, patientInfo)
             == GuidanceContext(classification, Fetched(event.patientId, lookup));
      var calls := fetch.calls + knowledge.calls;
      match knowledge.reply
      case Raised(message) => Outcome(Raised(message), calls)
      case Returned(kbResponse) =>
        Outcome(Returned(Output(event.patientId, event.query, event.doctorId, classification,
                                patientInfo, kbResponse)), calls)
  }

  /** Fetch policy and access control, on the stage's trace: the store is
      consulted once iff the routing is `dynamo` or `both`; the knowledge service
      at most once, only for a doctor, and then as the last call, with the fetched
      record for `both` and none for `kb`; the stage never classifies or answers. */
  lemma TraceCounts(event: Event, lookup: Option<string> -> Lookup)
    ensures var calls := Trace(event, lookup);
            && Count(calls, FetchCall) == (if NeedsRecord(event.classification) then 1 else 0)
            && (RoleOf(event.doctorId) == Patient ==> Count(calls, GuidanceCall) == 0)
            && Count(calls, GuidanceCall) <= 1
            && (Count(calls, GuidanceCall) == 1 <==>
                  && NeedsKnowledge(event.classification) && RoleOf(event.doctorId) == Doctor
                  && !(NeedsRecord(event.classification) && lookup(event.patientId).StoreError?))
            && (Count(calls, GuidanceCall) == 1 ==>
                  calls[|calls| - 1]
                  == Guidance(event.query, GuidanceContext(event.classification, Fetched(event.patientId, lookup))))
            && Count(calls, ClassifyCall) == 0 && Count(calls, AnswerCall) == 0
  {
    var fetches := if NeedsRecord(event.classification) then [Fetch(event.patientId)] else [];
    var knowledge := Trace(event, lookup)[|fetches|..];
    assert Trace(event, lookup) == fetches + knowledge;
    CountAppend(fetches, knowledge, FetchCall);
    CountAppend(fetches, knowledge, GuidanceCall);
    CountAppend(fetches, knowledge, ClassifyCall);
    CountAppend(fetches, knowledge, AnswerCall);
  }

  /** A `dynamo` request that the store answers: one lookup, the record (or the
      placeholder) as patient data, and no knowledge-base response. */
  lemma RecordRequest(event: Event, lookup: Option<string> -> Lookup,
                      guidance: (Option<string>, Option<Record>) -> Completion)
    requires Route(event.classification) == Some(Dynamo) && !lookup(event.patientId).StoreError?
    ensures Handle(event, lookup, guidance)
            == Outcome(Returned(Output(event.patientId, event.query, event.doctorId, event.classification,
                                       Fetched(event.patientId, lookup), None)),
                       [Fetch(event.patientId)])
  {
  }

  /** A `kb` request from a patient: no call at all, and the denial as the
      knowledge-base response. */
  lemma PatientKnowledgeRequest(event: Event, lookup: Option<string> -> Lookup,
                                guidance: (Option<string>, Option<Record>) -> Completion)
    requires Route(event.classification) == Some(Kb) && RoleOf(event.doctorId) == Patient
    ensures Handle(event, lookup, guidance)
            == Outcome(Returned(Output(event.patientId, event.query, event.doctorId, event.classification,
                                       None, Some(Denial))),
                       [])
  {
  }

  /** A `kb` request from a doctor: one knowledge call without patient data, whose
      stripped output is the knowledge-base response. */
  lemma DoctorKnowledgeRequest(event: Event, lookup: Option<string> -> Lookup,
                               guidance: (Option<string>, Option<Record>) -> Completion)
    requires Route(event.classification) == Some(Kb) && RoleOf(event.doctorId) == Doctor
    requires guidance(event.query, None).Completed?
    ensures Handle(event, lookup, guidance)
            == Outcome(Returned(Output(event.patientId, event.query, event.doctorId, event.classification,
                                       None, Some(Text(Strip(guidance(event.query, None).text))))),
                       [Guidance(event.query, None)])
  {
    assert !NeedsRecord(event.classification) && NeedsKnowledge(event.classification);
    assert GuidanceContext(event.classification, Fetched(event.patientId, lookup)) == None;
    assert Trace(event, lookup) == [] + [Guidance(event.query, None)];
    assert CallKnowledge(event.query, None, guidance) == Returned(Strip(guidance(event.query, None).text));
  }

  /** An absent or unrecognised classification: no call at all, and neither patient
      data nor a knowledge-base response. */
  lemma UnroutedRequest(event: Event, lookup: Option<string> -> Lookup,
                        guidance: (Option<string>, Option<Record>) -> Completion)
    requires Route(event.classification) == None
    ensures Handle(event, lookup, guidance)
            == Outcome(Returned(Output(event.patientId, event.query, event.doctorId, event.classification,
                                       None, None)),
                       [])
  {
    assert Trace(event, lookup) == [] + [];
  }
}
