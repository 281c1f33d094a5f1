# Medibot routing and access control, modelled in Dafny

Medibot answers a clinical question in three serverless stages. Each stage's
output record is the next stage's input event.

1. **Classifier** (`Medibot_classifier.py`). It checks that the request carries
   a `patientId` and a `query` (otherwise a 400 record). It asks a language
   model whether the question needs the patient record (`dynamo`), the medical
   knowledge base (`kb`) or both. It normalises the answer by stripping and
   lower-casing it, and falls back to `both` for anything else. Any exception
   becomes a 500 record.
2. **Extractor** (`Medibot_extractor.py`). It fetches the patient record when
   the route asks for it; an unknown patient gets a placeholder dict. When the
   route asks for knowledge, it calls the knowledge model only for a doctor,
   that is, only when `doctor_id` is truthy. A patient gets a fixed denial dict
   instead. The stage catches nothing, so a failing store or model aborts the
   request.
3. **Synthesizer** (`Medibot_LLM.py`). It re-derives the role from `doctor_id`
   and assembles a context of up to three sections: patient info, knowledge
   base (doctor only) and note (patient only, the denial's `message`). It asks
   the answering model and strips the reply.

The language models, the record store and the JSON renderings are parameters
of the model: the functions `infer`, `guidance` and `answer` (returning a
`Protocol.Completion`), `lookup` (returning a `Protocol.Lookup`) and the two
renderings of `Protocol.Formats`. Any behaviour of theirs is allowed. Every
stage returns its reply together with the trace of external calls it made (`Protocol.Call`), so access control is
stated about the calls themselves. The main result is
`Pipeline.PatientNeverReachesKnowledgeService`: a request without a truthy
`doctor_id` never makes a knowledge-model call in any stage, whatever the
services answer. The second main result is
`Pipeline.PatientContextHoldsOnlyDenial`: the context sent to the answering
model on a patient's behalf never holds a knowledge-base section: besides the
patient record, it holds at most the denial note.

Modules: `Wrappers` (Option, and `Invocation` = returned or raised),
`PyText` (Python's `str.isspace`, `strip` and `lower`), `Protocol` (the data
crossing stage boundaries, truthiness, roles, call traces), `Classifier`,
`Extractor`, `Synthesizer` and `Pipeline` (the stages composed).

Some behaviours of the code are easy to get wrong:
- The "no patient found" placeholder is a non-empty dict, so it is truthy. The
  synthesizer renders it as a "Patient Info" section, not as "no data"
  (`Pipeline.UnknownPatientContinue`).
- The role is the truthiness of `doctor_id`. An empty string counts as a
  patient.
- The synthesizer derives the role again rather than trusting a flag passed by
  the extractor.
- The instruction to answer "Insuddicient context" is prompt text only; nothing
  in the code enforces it.

## Model

| member | source | states |
|---|---|---|
| PyText.StripLeading | Medibot_classifier.py:66 | the result is a suffix of the input, and what was removed is whitespace |
| PyText.StripTrailing | Medibot_classifier.py:66 | the result is a prefix of the input, and what was removed is whitespace |
| PyText.Strip | Medibot_classifier.py:66 | `str.strip()`: the result has no leading or trailing whitespace and is no longer than the input |
| PyText.StripSurrounds | Medibot_classifier.py:66 | the input is whitespace, then the result, then whitespace |
| PyText.StripLeadingPadded | Medibot_classifier.py:66 | stripping the left of whitespace followed by a non-space start removes exactly that whitespace |
| PyText.StripTrailingPadded | Medibot_classifier.py:66 | stripping the right of a non-space end followed by whitespace removes exactly that whitespace |
| PyText.StripPadded | Medibot_classifier.py:66 | stripping a trimmed text padded on both sides gives back that text |
| PyText.StripIdempotent | Medibot_classifier.py:66 | stripping twice is stripping once |
| PyText.LowerChar | Medibot_classifier.py:66 | `str.lower()` on one character: ASCII capitals and KELVIN SIGN map to their lower-case letters, every other character is kept |
| PyText.Lower | Medibot_classifier.py:66 | `str.lower()` character by character: same length, capitals mapped to lower case, other characters kept |
| PyText.LowerKeepsTrimmed | Medibot_classifier.py:66 | lower-casing neither creates nor removes surrounding whitespace |
| PyText.LowerOfLowercase | Medibot_classifier.py:66-68 | lower-casing a text of lower-case ASCII letters leaves it unchanged |
| Protocol.Parse | Medibot_classifier.py:68-69 | a text is recognised exactly when it equals one of `dynamo`, `kb`, `both`, and then it is that token |
| Protocol.Route | Medibot_extractor.py:24-29 | a route is found only for a field equal to a token, and every token is routed; an absent or unknown field routes nowhere |
| Protocol.RouteToken | Medibot_extractor.py:24-29 | each classification's own token routes to that classification |
| Protocol.RoleOf | Medibot_extractor.py:20 | the user is a doctor exactly when `doctor_id` is present and non-empty |
| Protocol.Truthy | Medibot_classifier.py:25 | Python truthiness of an optional string field: absent and `""` are false |
| Protocol.RecordTruthy | Medibot_LLM.py:34 | Python truthiness of an optional dict: absent and `{}` are false |
| Protocol.KbTruthy | Medibot_LLM.py:37-40 | Python truthiness of `kb_response`: absent, `""` and `{}` are false |
| Classifier.Normalize | Medibot_classifier.py:66-71 | the stripped, lower-cased answer when it is a known token, otherwise `both` |
| Classifier.TokenStripped | Medibot_classifier.py:66 | the three tokens are unchanged by stripping |
| Classifier.TokenLowered | Medibot_classifier.py:66 | the three tokens are unchanged by lower-casing |
| Classifier.NormalizeToken | Medibot_classifier.py:66-69 | a model answer that is exactly a token is kept |
| Classifier.NormalizeIdempotent | Medibot_classifier.py:66-71 | normalising the token of a normalised answer gives the same classification |
| Classifier.NormalizePadded | Medibot_classifier.py:66-69 | any text that lower-cases to a token, padded with whitespace on either side, is classified as that token |
| Classifier.NormalizeExample | Medibot_classifier.py:66-69 | `"  KB\n"` is classified as `kb` |
| Classifier.NormalizeKelvinSign | Medibot_classifier.py:66 | a KELVIN SIGN followed by `B` lower-cases to `kb` and is classified as `kb` |
| Classifier.Handle | Medibot_classifier.py:11-40 | 400 exactly when `patientId` or `query` is missing or empty, with no model call; otherwise one classification call on the query; 500 exactly when that call fails, carrying its message; when it completes the request is always routed, the fields are echoed and the classification is a valid token |
| Classifier.HandleRoutes | Medibot_classifier.py:25-36 | a valid request whose answer normalises to a class is routed with exactly that token and one call |
| Extractor.Show | Medibot_extractor.py:53 | the `{patient_id}` formatting: a present id as it is, an absent one as `None` |
| Extractor.NotFound | Medibot_extractor.py:53 | the placeholder is truthy, with a single `message` key starting "No patient found with ID " |
| Extractor.FetchPatient | Medibot_extractor.py:50-53 | a stored item is returned as is; a missing one yields the truthy placeholder naming the id; a store failure raises |
| Extractor.CallKnowledge | Medibot_extractor.py:55-91 | one knowledge call; its failure raises; its text comes back stripped |
| Extractor.NeedsRecord | Medibot_extractor.py:24 | the routing is `dynamo` or `both` (see `Extractor.RoutingTests`) |
| Extractor.NeedsKnowledge | Medibot_extractor.py:29 | the routing is `kb` or `both` (see `Extractor.RoutingTests`) |
| Extractor.RoutingTests | Medibot_extractor.py:24-29 | the record is needed exactly when the raw field is `"dynamo"` or `"both"`, knowledge exactly when it is `"kb"` or `"both"` |
| Extractor.GuidanceContext | Medibot_extractor.py:31 | the knowledge call sees a record only when the field is `"both"`, and then it sees the fetched one |
| Extractor.FetchStep | Medibot_extractor.py:22-25 | fetches exactly when the route needs the record, making exactly that one call |
| Extractor.KnowledgeStep | Medibot_extractor.py:27-36 | no knowledge call for a patient, who gets the denial (`Extractor.Denial`, the dict whose `message` is `Extractor.DenialMessage`, lines 34-36); for a doctor, one call whose stripped text becomes the KB response |
| Extractor.Trace | Medibot_extractor.py:22-36 | the calls the stage makes, in order: the lookup when the record is needed, then the knowledge call for a doctor whose routing needs it and whose lookup did not fail (its properties are stated by `Extractor.TraceCounts`) |
| Extractor.Handle | Medibot_extractor.py:14-46 | the calls are `Trace`; raises exactly on a store failure or a doctor's failed knowledge call; echoes the fields; `patient_info` present exactly when the route needs the record; `kb_response` present exactly when the route needs knowledge, the denial for a patient |
| Extractor.TraceCounts | Medibot_extractor.py:20-36 | at most one fetch and one knowledge call; no knowledge call for a patient; one exactly for a doctor whose route needs it and whose fetch did not fail, and then it is last and carries the fetched record |
| Extractor.RecordRequest | Medibot_extractor.py:23-25 | a `dynamo` request returns the fetched record, no KB response and a single fetch |
| Extractor.PatientKnowledgeRequest | Medibot_extractor.py:28-36 | a patient's `kb` request returns the denial and makes no call at all |
| Extractor.DoctorKnowledgeRequest | Medibot_extractor.py:28-31 | a doctor's `kb` request makes one knowledge call without a record and returns its stripped text |
| Extractor.UnroutedRequest | Medibot_extractor.py:23-29 | an unknown classification returns neither record nor KB response and makes no call |
| Synthesizer.Render | Medibot_LLM.py:32-42 | the context is empty exactly when there are no sections |
| Synthesizer.RenderConcat | Medibot_LLM.py:32-42 | rendering distributes over concatenation of sections |
| Synthesizer.RenderSingle | Medibot_LLM.py:34-42 | zero or one section renders as its header and body |
| Synthesizer.RenderAppend | Medibot_LLM.py:34-42 | appending a section appends its header and body to the context |
| Synthesizer.NoteUnavailable | Medibot_LLM.py:40-42 | in patient mode, a truthy string `kb_response` has no `.get`, so the handler raises |
| Synthesizer.Display | Medibot_LLM.py:38 | `f"{kb_response}"`: a string as it is, a dict in its `str()` rendering |
| Synthesizer.MessageOf | Medibot_LLM.py:42 | `.get('message', '')` on a dict: the message when present, otherwise empty |
| Synthesizer.Sections | Medibot_LLM.py:32-42 | at most two sections are ever produced |
| Synthesizer.SectionsPolicy | Medibot_LLM.py:32-42 | patient info comes first exactly when truthy; a KB section exactly for a doctor with a truthy response, never a note; a note exactly for a patient with a truthy dict response, never a KB section; no sections exactly when both inputs are falsy |
| Synthesizer.ContextText | Medibot_LLM.py:32-42 | raises exactly when a patient holds a truthy string KB response; otherwise the rendered sections; empty exactly when both inputs are falsy |
| Synthesizer.ContextPieces | Medibot_LLM.py:32-42 | the context is the three conditional pieces in source order |
| Synthesizer.InfoOnlyContext | Medibot_LLM.py:34-35 | a record alone gives the patient info header and its JSON |
| Synthesizer.KnowledgeOnlyContext | Medibot_LLM.py:37-38 | a doctor's KB text alone gives the knowledge header and that text |
| Synthesizer.NoteOnlyContext | Medibot_LLM.py:40-42 | a patient's dict alone gives the note header and its `message` |
| Synthesizer.AssembleContext | Medibot_LLM.py:32-42 | the context built by successive appends is the rendering of the section policy |
| Synthesizer.FinalResponse | Medibot_LLM.py:31-68 | no call when the context raises; otherwise exactly one answering call on the query and context, raising exactly when it fails, and a stripped answer |
| Synthesizer.GenerateFinalResponse | Medibot_LLM.py:31-68 | the method computes `FinalResponse` |
| Synthesizer.Synthesis | Medibot_LLM.py:11-27 | patient mode is "not a doctor"; the request fields are echoed with the final answer added |
| Synthesizer.Handle | Medibot_LLM.py:11-27 | the method computes `Synthesis` |
| Pipeline.Run | Medibot_classifier.py:11-40 | rejected exactly when the classifier returns an error record; an answer echoes the request fields |
| Pipeline.Continue | Medibot_extractor.py:38-46 | a routed request is never rejected; an answer echoes the routed fields |
| Pipeline.ContinueWithoutKnowledge | Medibot_extractor.py:28-36 | after routing, a patient's request makes no knowledge call |
| Pipeline.PatientNeverReachesKnowledgeService | Medibot_extractor.py:20-36 | a request without a truthy `doctor_id` makes no knowledge call in any stage, whatever the services answer |
| Pipeline.ValidRequestsAreAnswered | Medibot_LLM.py:18-42 | a request with `patientId` and `query` is answered whenever every service answers: the synthesizer's `.get` never meets a string |
| Pipeline.DenialSections | Medibot_LLM.py:37-42 | in patient mode, a record and the denial give no KB section, and the note is the denial message |
| Pipeline.ContinueAnsweredCalls | Medibot_LLM.py:60-68 | an answered request ends with one answering call on the context built from the extractor's output |
| Pipeline.PatientContextHoldsOnlyDenial | Medibot_LLM.py:32-65 | whenever the extractor completes a patient's request, the last call goes to the answering model with a context that has no KB section, whether or not that model then fails; the note is present exactly when knowledge was asked for, and is the denial |
| Pipeline.ContinueExtends | Medibot_extractor.py:38-46 | the extractor's calls are a prefix of the request's calls |
| Pipeline.DoctorBothSharesRecord | Medibot_extractor.py:29-31 | for a doctor's `both` request, the knowledge call carries the fetched record |
| Pipeline.RunRouted | Medibot_classifier.py:30-36 | a routed request continues with the routed fields |
| Pipeline.ContinueReturned | Medibot_extractor.py:39-46 | a returned extractor output goes on to the synthesizer |
| Pipeline.SynthesisAnswered | Medibot_LLM.py:22-27 | a returned synthesis ends in an answer |
| Pipeline.DenialContext | Medibot_LLM.py:40-42 | a patient's context from the denial alone is the note header and the denial message |
| Pipeline.PatientKnowledgeContinue | Medibot_extractor.py:33-36 | a patient's `kb` request is answered from the denial note alone, with the answering call as the only call |
| Pipeline.DoctorKnowledgeContinue | Medibot_extractor.py:29-31 | a doctor's `kb` request makes a knowledge call, then an answering call on the knowledge section |
| Pipeline.RecordContinue | Medibot_extractor.py:23-25 | a `dynamo` request makes a fetch, then an answering call on the patient info section |
| Pipeline.UnknownPatientContinue | Medibot_extractor.py:50-53 | an unknown patient's placeholder is rendered as patient info and answered on |
| Pipeline.PatientKnowledgeQuestion | Medibot_extractor.py:28-36 | end to end, a patient's knowledge question is answered from the denial, with one classification call and one answering call |

## Left out

- The language-model calls (Bedrock `invoke_model`, the request JSON, reading the response body) are parameters `infer`, `guidance` and `answer`. The model says nothing about what they return.
- The DynamoDB client is the parameter `lookup`. Its `Item`, missing item and exception cases are modelled.
- `json.dumps` and the dict `str()` rendering are the parameters of `Protocol.Formats`.
- The prompt texts are left out. This includes the non-doctor prompt in `call_bedrock`, which the extractor never reaches, and the "Insuddicient context" instruction, which is prompt text only.
- Sampling parameters (temperature, top-p, max tokens), logging and the model identifiers are left out.
- No orchestrator code is part of this model. `Pipeline` composes the three handlers directly.
- Field values are strings or absent. Other JSON types in the event (numbers, lists) are not modelled.
- Exception messages are strings. The exception classes are not modelled.
- PyText.Lower: maps ASCII capitals and KELVIN SIGN only, because that is enough to decide whether a text lower-cases to one of the three tokens. Other Unicode case mappings are left as identity.
- Synthesizer.FinalResponse: says nothing about the content of the answer beyond being the stripped model output, because that content comes from the answering model.
