/** The synthesizer stage (`Medibot_LLM.py`): assembles the context handed to the
    answering model from the fetched data, respecting the caller's role. */
module Synthesizer {
  import opened Wrappers
  import opened PyText
  import opened Protocol

  const PatientInfoHeader := "\nPatient Info:\n"
  const KnowledgeHeader := "\nKnowledge Base Response:\n"
  const NoteHeader := "\nNote:\n"

  /** The message of the AttributeError raised by `.get` on a string. */
  const NoGetOnStr := "'str' object has no attribute 'get'"

  /** One part of the assembled context. */
  datatype Section = PatientInfo(json: string) | KnowledgeBase(text: string) | Note(message: string) {
    function Header(): string {
      match this
      case PatientInfo(_) => PatientInfoHeader
      case KnowledgeBase(_) => KnowledgeHeader
      case Note(_) => NoteHeader
    }

    function Body(): string {
      match this
      case PatientInfo(json) => json
      case KnowledgeBase(text) => text
      case Note(message) => message
    }
  }

  /** The context text: each section's header followed by its body, in order. */
  function Render(sections: seq<Section>): (text: string)
    ensures text == "" <==> sections == []
  {
    if sections == [] then "" else sections[0].Header() + sections[0].Body() + Render(sections[1..])
  }

  /** Rendering distributes over concatenation. */
  lemma {:induction false} RenderConcat(a: seq<Section>, b: seq<Section>)
    ensures Render(a + b) == Render(a) + Render(b)
  {
    if a == [] {
      assert a + b == b;
    } else {
      assert (a + b)[1..] == a[1..] + b;
      RenderConcat(a[1..], b);
    }
  }

  /** A context of at most one section is that section's header and body. */
  lemma RenderSingle(sections: seq<Section>)
    requires |sections| <= 1
    ensures Render(sections) == if sections == [] then "" else sections[0].Header() + sections[0].Body()
  {
    if sections != [] {
      assert sections[1..] == [];
    }
  }

  /** Appending a section appends its header and body to the text. */
  lemma RenderAppend(sections: seq<Section>, s: Section)
    ensures Render(sections + [s]) == Render(sections) + s.Header() + s.Body()
  {
    RenderConcat(sections, [s]);
    RenderSingle([s]);
  }

  predicate HasKnowledge(sections: seq<Section>) {
    exists s | s in sections :: s.KnowledgeBase?
  }

  predicate HasNote(sections: seq<Section>) {
    exists s | s in sections :: s.Note?
  }

  /** In patient mode the note is read with `kb_response.get('message', '')`, which
      only a dict has: a truthy text response makes the handler raise. */
  predicate NoteUnavailable(kbResponse: Option<KbResponse>, patientMode: bool) {
    patientMode && KbTruthy(kbResponse) && kbResponse.value.Text?
  }

  /** `f"{kb_response}"`: a string as it is, a dict in Python's `str()` form. */
  function Display(kbResponse: KbResponse, fmt: Formats): string {
    match kbResponse
    case Text(text) => text
    case Dict(fields) => fmt.repr(fields)
  }

  /** `kb_response.get('message', '')` on a dict. */
  function MessageOf(fields: Record): string {
    if "message" in fields then fields["message"] else ""
  }

  /** The sections `generate_final_response` puts into the context, in order: the
      patient data, then the knowledge-base response (doctor) or the note carrying
      its message (patient). */
  function Sections(patientInfo: Option<Record>, kbResponse: Option<KbResponse>, patientMode: bool,
                    fmt: Formats): (sections: seq<Section>)
    requires !NoteUnavailable(kbResponse, patientMode)
    ensures |sections| <= 2
  {
    (if RecordTruthy(patientInfo) then [PatientInfo(fmt.dumps(patientInfo.value))] else [])
    + (if KbTruthy(kbResponse) && !patientMode then [KnowledgeBase(Display(kbResponse.value, fmt))] else [])
    + (if patientMode && KbTruthy(kbResponse) then [Note(MessageOf(kbResponse.value.fields))] else [])
  }

  /** Role-based filtering of the context: patient data first whenever it is
      there; a doctor sees the knowledge-base response and never a note; a patient
      never sees knowledge-base content, only the message of the payload as a note;
      the context is empty exactly when neither input is truthy. */
  lemma SectionsPolicy(patientInfo: Option<Record>, kbResponse: Option<KbResponse>, patientMode: bool,
                       fmt: Formats)
    requires !NoteUnavailable(kbResponse, patientMode)
    ensures var sections := Sections(patientInfo, kbResponse, patientMode, fmt);
            && (RecordTruthy(patientInfo) <==> |sections| > 0 && sections[0].PatientInfo?)
            && (RecordTruthy(patientInfo) ==> sections[0] == PatientInfo(fmt.dumps(patientInfo.value)))
            && (forall i :: 0 < i < |sections| ==> !sections[i].PatientInfo?)
            && (!patientMode ==> (HasKnowledge(sections) <==> KbTruthy(kbResponse)) && !HasNote(sections))
            && (!patientMode && KbTruthy(kbResponse) ==>
                  sections[|sections| - 1] == KnowledgeBase(Display(kbResponse.value, fmt)))
            && (patientMode ==> !HasKnowledge(sections) && (HasNote(sections) <==> KbTruthy(kbResponse)))
            && (patientMode && KbTruthy(kbResponse) ==>
                  sections[|sections| - 1] == Note(MessageOf(kbResponse.value.fields)))
            && !(HasKnowledge(sections) && HasNote(sections))
            && (sections == [] <==> !RecordTruthy(patientInfo) && !KbTruthy(kbResponse))
  {
    var sections := Sections(patientInfo, kbResponse, patientMode, fmt);
    assert sections != [] ==> sections[|sections| - 1] in sections;
  }

  /** The context text `generate_final_response` builds, or the exception it raises. */
  function ContextText(patientInfo: Option<Record>, kbResponse: Option<KbResponse>, patientMode: bool,
                       fmt: Formats): (r: Invocation<string>)
    ensures r.Raised? <==> NoteUnavailable(kbResponse, patientMode)
    ensures r.Returned? ==> r.value == Render(Sections(patientInfo, kbResponse, patientMode, fmt))
    // the context is empty exactly when neither patient data nor a KB response is truthy
    ensures r == Returned("") <==> !RecordTruthy(patientInfo) && !KbTruthy(kbResponse)
  {
    if NoteUnavailable(kbResponse, patientMode) then Raised(NoGetOnStr)
    else Returned(Render(Sections(patientInfo, kbResponse, patientMode, fmt)))
  }

  /** The context spelled out as the three conditional pieces, in source order. */
  lemma ContextPieces(patientInfo: Option<Record>, kbResponse: Option<KbResponse>,
                      patientMode: bool, fmt: Formats)
    requires !NoteUnavailable(kbResponse, patientMode)
    ensures ContextText(patientInfo, kbResponse, patientMode, fmt)
            == Returned((if RecordTruthy(patientInfo) then PatientInfoHeader + fmt.dumps(patientInfo.value) else "")
                        + (if KbTruthy(kbResponse) && !patientMode
                           then KnowledgeHeader + Display(kbResponse.value, fmt) else "")
                        + (if patientMode && KbTruthy(kbResponse)
                           then NoteHeader + MessageOf(kbResponse.value.fields) else ""))
  {
    var info := if RecordTruthy(patientInfo) then [PatientInfo(fmt.dumps(patientInfo.value))] else [];
    var knowledge := if KbTruthy(kbResponse) && !patientMode
                     then [KnowledgeBase(Display(kbResponse.value, fmt))] else [];
    var note := if patientMode && KbTruthy(kbResponse) then [Note(MessageOf(kbResponse.value.fields))] else [];
    RenderConcat(info, knowledge);
    RenderConcat(info + knowledge, note);
    RenderSingle(info);
    RenderSingle(knowledge);
    RenderSingle(note);
  }

  /** A patient record alone gives just the "Patient Info" section, in either mode. */
  lemma InfoOnlyContext(info: Record, patientMode: bool, fmt: Formats)
    requires info != map[]
    ensures ContextText(Some(info), None, patientMode, fmt) == Returned(PatientInfoHeader + fmt.dumps(info))
  {
    ContextPieces(Some(info), None, patientMode, fmt);
    assert PatientInfoHeader + fmt.dumps(info) + "" + "" == PatientInfoHeader + fmt.dumps(info);
  }

  /** A doctor's guidance text alone gives just the knowledge section. */
  lemma KnowledgeOnlyContext(text: string, fmt: Formats)
    requires text != ""
    ensures ContextText(None, Some(Text(text)), false, fmt) == Returned(KnowledgeHeader + text)
  {
    ContextPieces(None, Some(Text(text)), false, fmt);
    assert "" + (KnowledgeHeader + text) + "" == KnowledgeHeader + text;
  }

  /** A patient's dict response alone gives just the note carrying its message. */
  lemma NoteOnlyContext(fields: Record, fmt: Formats)
    requires fields != map[]
    ensures ContextText(None, Some(Dict(fields)), true, fmt) == Returned(NoteHeader + MessageOf(fields))
  {
    ContextPieces(None, Some(Dict(fields)), true, fmt);
    assert "" + "" + (NoteHeader + MessageOf(fields)) == NoteHeader + MessageOf(fields);
  }


  /** The context assembly of `generate_final_response`: the context grows by up to three
      conditional appends to one local string. */
  method AssembleContext(patientInfo: Option<Record>, kbResponse: Option<KbResponse>, patientMode: bool,
                         fmt: Formats) returns (r: Invocation<string>)
    ensures r == ContextText(patientInfo, kbResponse, patientMode, fmt)
  {
    var contextText := "";
    ghost var sections: seq<Section> := [];
    if RecordTruthy(patientInfo) {
      var s := PatientInfo(fmt.dumps(patientInfo.value));
      RenderAppend(sections, s);
      contextText := contextText + PatientInfoHeader + fmt.dumps(patientInfo.value);
      sections := sections + [s];
    }
    if KbTruthy(kbResponse) && !patientMode {
      var s := KnowledgeBase(Display(kbResponse.value, fmt));
      RenderAppend(sections, s);
      contextText := contextText + KnowledgeHeader + Display(kbResponse.value, fmt);
      sections := sections + [s];
    }
    if patientMode && KbTruthy(kbResponse) {
      match kbResponse.value
      case Text(_) =>
        return Raised(NoGetOnStr);
      case Dict(fields) =>
        var s := Note(MessageOf(fields));
        RenderAppend(sections, s);
        contextText := contextText + NoteHeader + MessageOf(fields);
        sections := sections + [s];
    }
    assert sections == Sections(patientInfo, kbResponse, patientMode, fmt);
    return Returned(contextText);
  }

  /** `generate_final_response`: the assembled context goes to the answering model
      together with the query, and its output is stripped. `answer` is that model. */
  function FinalResponse(query: Option<string>, patientInfo: Option<Record>, kbResponse: Option<KbResponse>,
                         patientMode: bool, fmt: Formats,
                         answer: (Option<string>, string) -> Completion): (o: Outcome<Invocation<string>>)
    ensures NoteUnavailable(kbResponse, patientMode) ==> o == Outcome(Raised(NoGetOnStr), [])
    ensures !NoteUnavailable(kbResponse, patientMode) ==>
              var context := Render(Sections(patientInfo, kbResponse, patientMode, fmt));
              && o.calls == [Answer(query, context)]
              && (o.reply.Raised? <==> answer(query, context).Failed?)
              && (o.reply.Returned? ==> o.reply.value == Strip(answer(query, context).text))
    ensures o.reply.Returned? ==> Trimmed(o.reply.value)
  {
    match ContextText(patientInfo, kbResponse, patientMode, fmt)
    case Raised(message) => Outcome(Raised(message), [])
    case Returned(context) =>
      var calls := [Answer(query, context)];
      match answer(query, context)
      case Completed(text) => Outcome(Returned(Strip(text)), calls)
      case Failed(message) => Outcome(Raised(message), calls)
  }

  method GenerateFinalResponse(query: Option<string>, patientInfo: Option<Record>,
                               kbResponse: Option<KbResponse>, patientMode: bool, fmt: Formats,
                               answer: (Option<string>, string) -> Completion)
    returns (o: Outcome<Invocation<string>>)
    ensures o == FinalResponse(query, patientInfo, kbResponse, patientMode, fmt, answer)
  {
    var context := AssembleContext(patientInfo, kbResponse, patientMode, fmt);
    if context.Raised? {
      return Outcome(Raised(context.message), []);
    }
    var calls := [Answer(query, context.value)];
    var completion := answer(query, context.value);
    if completion.Failed? {
      return Outcome(Raised(completion.message), calls);
    }
    return Outcome(Returned(Strip(completion.text)), calls);
  }

  /** The synthesizer's input event; each field may be absent. */
  datatype Event = Event(patientId: Option<string>, query: Option<string>, doctorId: Option<string>,
                         patientInfo: Option<Record>, kbResponse: Option<KbResponse>)

  datatype Output = Output(patientId: Option<string>, query: Option<string>, doctorId: Option<string>,
                           finalAnswer: string)

  /** `lambda_handler`: patient mode is exactly "not a doctor"; the request fields
      are echoed and only `final_answer` is added. */
  function Synthesis(event: Event, fmt: Formats, answer: (Option<string>, string) -> Completion)
    : (o: Outcome<Invocation<Output>>)
    ensures var response := FinalResponse(event.query, event.patientInfo, event.kbResponse,
                                          RoleOf(event.doctorId) == Patient, fmt, answer);
            && o.calls == response.calls
            && (o.reply.Raised? <==> response.reply.Raised?)
            && (o.reply.Returned? ==>
                  o.reply.value == Output(event.patientId, event.query, event.doctorId, response.reply.value))
  {
    var patientMode := RoleOf(event.doctorId) == Patient;
    var response := FinalResponse(event.query, event.patientInfo, event.kbResponse, patientMode, fmt, answer);
    match response.reply
    case Raised(message) => Outcome(Raised(message), response.calls)
    case Returned(finalAnswer) =>
      Outcome(Returned(Output(event.patientId, event.query, event.doctorId, finalAnswer)), response.calls)
  }

  method Handle(event: Event, fmt: Formats, answer: (Option<string>, string) -> Completion)
    returns (o: Outcome<Invocation<Output>>)
    ensures o == Synthesis(event, fmt, answer)
  {
    var userIsDoctor := Truthy(event.doctorId);
    var response := GenerateFinalResponse(event.query, event.patientInfo, event.kbResponse,
                                          !userIsDoctor, fmt, answer);
    if response.reply.Raised? {
      return Outcome(Raised(response.reply.message), response.calls);
    }
    return Outcome(Returned(Output(event.patientId, event.query, event.doctorId, response.reply.value)),
                   response.calls);
  }
}
