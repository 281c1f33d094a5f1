/** The three stages run in order, each stage's output record being the next
    stage's input event; a stage that returns an error record or raises ends the
    request. */
module Pipeline {
  import opened Wrappers
  import opened PyText
  import opened Protocol
  import Classifier
  import Extractor
  import Synthesizer

  /** The external services and renderings every stage is given. */
  datatype Services = Services(
    infer: string -> Completion,
    lookup: Option<string> -> Lookup,
    guidance: (Option<string>, Option<Record>) -> Completion,
    answer: (Option<string>, string) -> Completion,
    fmt: Formats)

  /** How a request ends: the classifier's error record, an exception in a later
      stage, or an answer (with the extractor's record kept for inspection). */
  datatype Result =
    | Rejected(statusCode: int, error: string)
    | Aborted(message: string)
    | Answered(extracted: Extractor.Output, final: Synthesizer.Output)

  function ToExtractor(r: Classifier.Reply): Extractor.Event
    requires r.Routed?
  {
    Extractor.Event(Some(r.patientId), Some(r.query), r.doctorId, Some(r.classification))
  }

  function ToSynthesizer(e: Extractor.Output): Synthesizer.Event {
    Synthesizer.Event(e.patientId, e.query, e.doctorId, e.patientInfo, e.kbResponse)
  }

  /** The whole request: the classifier, then the rest of the pipeline if it routed
      the request. */
  function Run(request: Classifier.Event, services: Services): (r: Outcome<Result>)
    ensures r.reply.Rejected? <==> !Truthy(request.patientId) || !Truthy(request.query)
                                   || services.infer(request.query.value).Failed?
    ensures r.reply.Answered? ==>
              && r.reply.final.patientId == request.patientId
              && r.reply.final.query == request.query
              && r.reply.final.doctorId == request.doctorId
  {
    var classified := Classifier.Handle(request, services.infer);
    match classified.reply
    case ErrorRecord(code, error) => Outcome(Rejected(code, error), classified.calls)
    case Routed(_, _, _, _) =>
      var rest := Continue(ToExtractor(classified.reply), services);
      Outcome(rest.reply, classified.calls + rest.calls)
  }

  /** The extractor and then the synthesizer on a routed request. */
  function Continue(event: Extractor.Event, services: Services): (r: Outcome<Result>)
    ensures !r.reply.Rejected?
    ensures r.reply.Answered? ==>
              && r.reply.final.patientId == event.patientId
              && r.reply.final.query == event.query
              && r.reply.final.doctorId == event.doctorId
  {
    var extracted := Extractor.Handle(event, services.lookup, services.guidance);
    match extracted.reply
    case Raised(message) => Outcome(Aborted(message), extracted.calls)
    case Returned(e) =>
      var synthesized := Synthesizer.Synthesis(ToSynthesizer(e), services.fmt, services.answer);
      match synthesized.reply
      case Raised(message) => Outcome(Aborted(message), extracted.calls + synthesized.calls)
      case Returned(f) => Outcome(Answered(e, f), extracted.calls + synthesized.calls)
  }

  /** After routing, a patient's request makes no knowledge call. */
  lemma ContinueWithoutKnowledge(event: Extractor.Event, services: Services)
    requires RoleOf(event.doctorId) == Patient
    ensures Count(Continue(event, services).calls, GuidanceCall) == 0
  {
    var extracted := Extractor.Handle(event, services.lookup, services.guidance);
    Extractor.TraceCounts(event, services.lookup);
    if extracted.reply.Returned? {
      var synthesized := Synthesizer.Synthesis(ToSynthesizer(extracted.reply.value), services.fmt,
                                               services.answer);
      assert Count(synthesized.calls, GuidanceCall) == 0;
      CountAppend(extracted.calls, synthesized.calls, GuidanceCall);
    }
  }

  /** A request without a truthy `doctor_id` never reaches the knowledge service,
      in any stage, whatever the model and the record store answer. */
  lemma PatientNeverReachesKnowledgeService(request: Classifier.Event, services: Services)
    requires RoleOf(request.doctorId) == Patient
    ensures Count(Run(request, services).calls, GuidanceCall) == 0
  {
    var classified := Classifier.Handle(request, services.infer);
    assert Count(classified.calls, GuidanceCall) == 0;
    if classified.reply.Routed? {
      var event := ToExtractor(classified.reply);
      RunRouted(request, services, classified.reply, classified.calls);
      ContinueWithoutKnowledge(event, services);
      CountAppend(classified.calls, Continue(event, services).calls, GuidanceCall);
    }
  }

  /** Every service answers: no inference failure, no store failure. */
  ghost predicate ServicesUp(services: Services) {
    && (forall text :: services.infer(text).Completed?)
    && (forall key :: !services.lookup(key).StoreError?)
    && (forall query, info :: services.guidance(query, info).Completed?)
    && (forall query, context :: services.answer(query, context).Completed?)
  }

  /** The extractor and the synthesizer derive the same role from the same
      `doctor_id`, so a patient's `kb_response` is always the denial dict and the
      synthesizer's `.get('message', '')` never meets a string: a valid request is
      answered whenever every service answers. */
  lemma ValidRequestsAreAnswered(request: Classifier.Event, services: Services)
    requires Truthy(request.patientId) && Truthy(request.query)
    requires ServicesUp(services)
    ensures Run(request, services).reply.Answered?
  {
    var classified := Classifier.Handle(request, services.infer);
    assert services.infer(request.query.value).Completed?;
    var event := ToExtractor(classified.reply);
    var extracted := Extractor.Handle(event, services.lookup, services.guidance);
    assert !services.lookup(event.patientId).StoreError?;
    assert services.guidance(event.query, Extractor.GuidanceContext(event.classification,
                                            Extractor.Fetched(event.patientId, services.lookup))).Completed?;
    var e := extracted.reply.value;
    assert !Synthesizer.NoteUnavailable(e.kbResponse, RoleOf(e.doctorId) == Patient);
    var context := Synthesizer.Render(Synthesizer.Sections(e.patientInfo, e.kbResponse, RoleOf(e.doctorId) == Patient,
                                               services.fmt));
    assert services.answer(e.query, context).Completed?;
  }

  /** In patient mode, a context built from the extractor's possible patient
      responses (none, or the denial) holds no knowledge-base section, and its
      note, if any, is the denial message. */
  lemma DenialSections(patientInfo: Option<Record>, kbResponse: Option<KbResponse>, fmt: Formats)
    requires kbResponse == None || kbResponse == Some(Extractor.Denial)
    ensures !Synthesizer.NoteUnavailable(kbResponse, true)
    ensures var sections := Synthesizer.Sections(patientInfo, kbResponse, true, fmt);
            && !Synthesizer.HasKnowledge(sections)
            && (Synthesizer.HasNote(sections) <==> kbResponse.Some?)
            && (Synthesizer.HasNote(sections) ==>
                  sections[|sections| - 1] == Synthesizer.Note(Extractor.DenialMessage))
  {
    assert Synthesizer.MessageOf(Extractor.Denial.fields) == Extractor.DenialMessage;
    Synthesizer.SectionsPolicy(patientInfo, kbResponse, true, fmt);
  }

  /** An answered request's trace after routing: the extractor's calls, then the
      one call to the answering model on the rendered context. */
  lemma ContinueAnsweredCalls(event: Extractor.Event, services: Services)
    requires Continue(event, services).reply.Answered?
    ensures var r := Continue(event, services);
            var e := r.reply.extracted;
            var extracted := Extractor.Handle(event, services.lookup, services.guidance);
            && extracted.reply == Returned(e)
            && !Synthesizer.NoteUnavailable(e.kbResponse, RoleOf(e.doctorId) == Patient)
            && r.calls
               == extracted.calls
                  + [Answer(e.query, Synthesizer.Render(Synthesizer.Sections(e.patientInfo, e.kbResponse,
                                                                              RoleOf(e.doctorId) == Patient,
                                                                              services.fmt)))]
  {
    var extracted := Extractor.Handle(event, services.lookup, services.guidance);
    var e := extracted.reply.value;
    var synthesized := Synthesizer.Synthesis(ToSynthesizer(e), services.fmt, services.answer);
    assert Continue(event, services).calls == extracted.calls + synthesized.calls;
  }

  /** After routing, the context sent to the answering model on a patient's behalf
      holds at most the patient record and, when the routing asked for knowledge,
      the denial message as a note: never knowledge-base content. This holds for
      every request the extractor completes, whether or not the answering model
      then fails. */
  lemma PatientContextHoldsOnlyDenial(event: Extractor.Event, services: Services)
    requires RoleOf(event.doctorId) == Patient
    requires Extractor.Handle(event, services.lookup, services.guidance).reply.Returned?
    ensures var r := Continue(event, services);
            var e := Extractor.Handle(event, services.lookup, services.guidance).reply.value;
            && (e.kbResponse == None || e.kbResponse == Some(Extractor.Denial))
            && !Synthesizer.NoteUnavailable(e.kbResponse, true)
            && var sections := Synthesizer.Sections(e.patientInfo, e.kbResponse, true, services.fmt);
               && r.calls[|r.calls| - 1] == Answer(event.query, Synthesizer.Render(sections))
               && !Synthesizer.HasKnowledge(sections)
               && (Synthesizer.HasNote(sections) <==> Extractor.NeedsKnowledge(event.classification))
               && (Synthesizer.HasNote(sections) ==>
                     sections[|sections| - 1] == Synthesizer.Note(Extractor.DenialMessage))
  {
    var extracted := Extractor.Handle(event, services.lookup, services.guidance);
    var e := extracted.reply.value;
    DenialSections(e.patientInfo, e.kbResponse, services.fmt);
    var synthesized := Synthesizer.Synthesis(ToSynthesizer(e), services.fmt, services.answer);
    assert Continue(event, services).calls == extracted.calls + synthesized.calls;
  }

  /** The extractor's calls are a prefix of the calls made after routing. */
  lemma ContinueExtends(event: Extractor.Event, services: Services)
    ensures Extractor.Handle(event, services.lookup, services.guidance).calls <= Continue(event, services).calls
  {
    var extracted := Extractor.Handle(event, services.lookup, services.guidance);
    if extracted.reply.Returned? {
      var synthesized := Synthesizer.Synthesis(ToSynthesizer(extracted.reply.value), services.fmt,
                                               services.answer);
      assert Continue(event, services).calls == extracted.calls + synthesized.calls;
    }
  }

  /** A doctor's `both` request hands the fetched patient record to the knowledge
      service. */
  lemma DoctorBothSharesRecord(request: Classifier.Event, services: Services)
    requires Truthy(request.patientId) && Truthy(request.query)
    requires RoleOf(request.doctorId) == Doctor
    requires services.infer(request.query.value).Completed?
    requires Classifier.Normalize(services.infer(request.query.value).text) == Both
    requires !services.lookup(request.patientId).StoreError?
    ensures Extractor.Fetched(request.patientId, services.lookup).Some?
    ensures Guidance(request.query, Extractor.Fetched(request.patientId, services.lookup))
              in Run(request, services).calls
  {
    Classifier.HandleRoutes(request, services.infer, Both);
    var routed := Classifier.Routed(request.patientId.value, request.query.value, request.doctorId, Both.Token());
    var event := ToExtractor(routed);
    RouteToken(Both);
    Extractor.TraceCounts(event, services.lookup);
    var calls := Extractor.Handle(event, services.lookup, services.guidance).calls;
    assert calls[|calls| - 1] in calls;
    ContinueExtends(event, services);
    RunRouted(request, services, routed, [Classify(request.query.value)]);
  }

  /** `Run` on a request the classifier routed. */
  lemma RunRouted(request: Classifier.Event, services: Services, routed: Classifier.Reply, calls: seq<Call>)
    requires Classifier.Handle(request, services.infer) == Outcome(routed, calls) && routed.Routed?
    ensures var rest := Continue(ToExtractor(routed), services);
            Run(request, services) == Outcome(rest.reply, calls + rest.calls)
  {
  }

  /** `Continue` on an event the extractor handled without an exception. */
  lemma ContinueReturned(event: Extractor.Event, services: Services, e: Extractor.Output, calls: seq<Call>,
                         f: Synthesizer.Output, answerCalls: seq<Call>)
    requires Extractor.Handle(event, services.lookup, services.guidance) == Outcome(Returned(e), calls)
    requires Synthesizer.Synthesis(ToSynthesizer(e), services.fmt, services.answer)
             == Outcome(Returned(f), answerCalls)
    ensures Continue(event, services) == Outcome(Answered(e, f), calls + answerCalls)
  {
  }

  /** `Synthesis` on an output record whose context the answering model completes. */
  lemma SynthesisAnswered(e: Extractor.Output, services: Services, context: string)
    requires var patientMode := RoleOf(e.doctorId) == Patient;
             Synthesizer.ContextText(e.patientInfo, e.kbResponse, patientMode, services.fmt) == Returned(context)
    requires services.answer(e.query, context).Completed?
    ensures Synthesizer.Synthesis(ToSynthesizer(e), services.fmt, services.answer)
            == Outcome(Returned(Synthesizer.Output(e.patientId, e.query, e.doctorId,
                                                   Strip(services.answer(e.query, context).text))),
                       [Answer(e.query, context)])
  {
  }


  /** The denial payload makes a context of one note carrying the denial message. */
  lemma DenialContext(fmt: Formats)
    ensures Synthesizer.ContextText(None, Some(Extractor.Denial), true, fmt)
            == Returned(Synthesizer.NoteHeader + Extractor.DenialMessage)
  {
    assert "message" in Extractor.Denial.fields;
    assert Synthesizer.MessageOf(Extractor.Denial.fields) == Extractor.DenialMessage;
    Synthesizer.NoteOnlyContext(Extractor.Denial.fields, fmt);
  }

  /** After routing, a patient's `kb` request makes no knowledge call, and the
      answering model sees only the denial note. */
  lemma PatientKnowledgeContinue(event: Extractor.Event, services: Services)
    requires Route(event.classification) == Some(Kb) && RoleOf(event.doctorId) == Patient
    requires services.answer(event.query, Synthesizer.NoteHeader + Extractor.DenialMessage).Completed?
    ensures var context := Synthesizer.NoteHeader + Extractor.DenialMessage;
            Continue(event, services)
            == Outcome(Answered(Extractor.Output(event.patientId, event.query, event.doctorId, event.classification,
                                                 None, Some(Extractor.Denial)),
                                Synthesizer.Output(event.patientId, event.query, event.doctorId,
                                                   Strip(services.answer(event.query, context).text))),
                       [Answer(event.query, context)])
  {
    Extractor.PatientKnowledgeRequest(event, services.lookup, services.guidance);
    DenialContext(services.fmt);
    var e := Extractor.Output(event.patientId, event.query, event.doctorId, event.classification,
                              None, Some(Extractor.Denial));
    var context := Synthesizer.NoteHeader + Extractor.DenialMessage;
    SynthesisAnswered(e, services, context);
    var f := Synthesizer.Output(event.patientId, event.query, event.doctorId,
                                Strip(services.answer(event.query, context).text));
    ContinueReturned(event, services, e, [], f, [Answer(event.query, context)]);
    assert [] + [Answer(event.query, context)] == [Answer(event.query, context)];
  }

  /** After routing, a doctor's `kb` request makes one knowledge call without
      patient data, and the answering model sees only the stripped guidance. */
  lemma DoctorKnowledgeContinue(event: Extractor.Event, services: Services)
    requires Route(event.classification) == Some(Kb) && RoleOf(event.doctorId) == Doctor
    requires services.guidance(event.query, None).Completed?
    requires var guidance := Strip(services.guidance(event.query, None).text);
             && guidance != ""
             && services.answer(event.query, Synthesizer.KnowledgeHeader + guidance).Completed?
    ensures var guidance := Strip(services.guidance(event.query, None).text);
            var context := Synthesizer.KnowledgeHeader + guidance;
            Continue(event, services)
            == Outcome(Answered(Extractor.Output(event.patientId, event.query, event.doctorId, event.classification,
                                                 None, Some(Text(guidance))),
                                Synthesizer.Output(event.patientId, event.query, event.doctorId,
                                                   Strip(services.answer(event.query, context).text))),
                       [Guidance(event.query, None), Answer(event.query, context)])
  {
    var guidance := Strip(services.guidance(event.query, None).text);
    var e := Extractor.Output(event.patientId, event.query, event.doctorId, event.classification,
                              None, Some(Text(guidance)));
    var context := Synthesizer.KnowledgeHeader + guidance;
    var f := Synthesizer.Output(event.patientId, event.query, event.doctorId,
                                Strip(services.answer(event.query, context).text));
    assert Extractor.Handle(event, services.lookup, services.guidance)
           == Outcome(Returned(e), [Guidance(event.query, None)]) by {
      Extractor.DoctorKnowledgeRequest(event, services.lookup, services.guidance);
    }
    assert Synthesizer.Synthesis(ToSynthesizer(e), services.fmt, services.answer)
           == Outcome(Returned(f), [Answer(event.query, context)]) by {
      Synthesizer.KnowledgeOnlyContext(guidance, services.fmt);
      SynthesisAnswered(e, services, context);
    }
    ContinueReturned(event, services, e, [Guidance(event.query, None)], f, [Answer(event.query, context)]);
    CallPair(Guidance(event.query, None), Answer(event.query, context));
  }

  /** After routing, a `dynamo` request the store answers makes one lookup, and the
      answering model sees only the record, whoever asks. */
  lemma RecordContinue(event: Extractor.Event, services: Services)
    requires Route(event.classification) == Some(Dynamo) && !services.lookup(event.patientId).StoreError?
    requires var record := Extractor.Fetched(event.patientId, services.lookup).value;
             && record != map[]
             && services.answer(event.query, Synthesizer.PatientInfoHeader + services.fmt.dumps(record)).Completed?
    ensures var record := Extractor.Fetched(event.patientId, services.lookup).value;
            var context := Synthesizer.PatientInfoHeader + services.fmt.dumps(record);
            Continue(event, services)
            == Outcome(Answered(Extractor.Output(event.patientId, event.query, event.doctorId, event.classification,
                                                 Some(record), None),
                                Synthesizer.Output(event.patientId, event.query, event.doctorId,
                                                   Strip(services.answer(event.query, context).text))),
                       [Fetch(event.patientId), Answer(event.query, context)])
  {
    Extractor.RecordRequest(event, services.lookup, services.guidance);
    var record := Extractor.Fetched(event.patientId, services.lookup).value;
    Synthesizer.InfoOnlyContext(record, RoleOf(event.doctorId) == Patient, services.fmt);
    var e := Extractor.Output(event.patientId, event.query, event.doctorId, event.classification,
                              Some(record), None);
    var context := Synthesizer.PatientInfoHeader + services.fmt.dumps(record);
    SynthesisAnswered(e, services, context);
    var f := Synthesizer.Output(event.patientId, event.query, event.doctorId,
                                Strip(services.answer(event.query, context).text));
    ContinueReturned(event, services, e, [Fetch(event.patientId)], f, [Answer(event.query, context)]);
    CallPair(Fetch(event.patientId), Answer(event.query, context));
  }

  /** An unknown patient: the not-found placeholder is a non-empty dict, so it is
      handed on as patient data and reaches the answering model as the "Patient
      Info" section. */
  lemma UnknownPatientContinue(event: Extractor.Event, services: Services)
    requires Route(event.classification) == Some(Dynamo) && services.lookup(event.patientId) == NoItem
    requires services.answer(event.query, Synthesizer.PatientInfoHeader
                                          + services.fmt.dumps(Extractor.NotFound(event.patientId))).Completed?
    ensures var placeholder := map["message" := "No patient found with ID " + Extractor.Show(event.patientId)];
            var r := Continue(event, services);
            && r.reply.Answered?
            && r.reply.extracted.patientInfo == Some(placeholder)
            && r.calls == [Fetch(event.patientId),
                           Answer(event.query, Synthesizer.PatientInfoHeader + services.fmt.dumps(placeholder))]
  {
    assert "message" in Extractor.NotFound(event.patientId);
    RecordContinue(event, services);
  }

  /** A patient's `kb` request end to end: the classifier's call and then only the
      answering model's call, on the denial note. */
  lemma PatientKnowledgeQuestion(request: Classifier.Event, services: Services)
    requires Truthy(request.patientId) && Truthy(request.query) && RoleOf(request.doctorId) == Patient
    requires services.infer(request.query.value).Completed?
    requires Classifier.Normalize(services.infer(request.query.value).text) == Kb
    requires services.answer(request.query, Synthesizer.NoteHeader + Extractor.DenialMessage).Completed?
    ensures var r := Run(request, services);
            && r.reply.Answered?
            && r.reply.extracted.kbResponse == Some(Extractor.Denial)
            && r.calls == [Classify(request.query.value),
                           Answer(request.query, Synthesizer.NoteHeader + Extractor.DenialMessage)]
  {
    Classifier.HandleRoutes(request, services.infer, Kb);
    var routed := Classifier.Routed(request.patientId.value, request.query.value, request.doctorId, Kb.Token());
    RouteToken(Kb);
    PatientKnowledgeContinue(ToExtractor(routed), services);
    RunRouted(request, services, routed, [Classify(request.query.value)]);
    CallPair(Classify(request.query.value),
             Answer(request.query, Synthesizer.NoteHeader + Extractor.DenialMessage));
  }
}
