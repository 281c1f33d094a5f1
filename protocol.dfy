/** The records the three stages pass to each other, the external services they
    call, and the trace of those calls. */
module Protocol {
  import opened Wrappers

  /** A JSON object with string values: a patient record, the not-found
      placeholder, or the denial payload. */
  type Record = map<string, string>

  /** The routing decision of the classifier stage and its wire tokens. */
  datatype Classification = Dynamo | Kb | Both {
    function Token(): string {
      match this
      case Dynamo => "dynamo"
      case Kb => "kb"
      case Both => "both"
    }

    /** The patient record is needed (`"dynamo"` or `"both"`). */
    predicate NeedsRecord() { Dynamo? || Both? }

    /** General knowledge is needed (`"kb"` or `"both"`). */
    predicate NeedsKnowledge() { Kb? || Both? }
  }

  /** Recognises a wire token; anything else is not a classification. */
  function Parse(s: string): (c: Option<Classification>)
    ensures c.Some? ==> c.value.Token() == s
    ensures c.None? <==> forall k: Classification :: k.Token() != s
  {
    if s == "dynamo" then Some(Dynamo)
    else if s == "kb" then Some(Kb)
    else if s == "both" then Some(Both)
    else None
  }

  /** The routing a stage reads from a `classification` field that may be absent. */
  function Route(classification: Option<string>): (c: Option<Classification>)
    ensures c.Some? ==> classification == Some(c.value.Token())
    ensures classification.Some? && Parse(classification.value).Some? ==> c.Some?
  {
    if classification.Some? then Parse(classification.value) else None
  }

  /** A stage reading a recognised token routes by it. */
  lemma RouteToken(c: Classification)
    ensures Route(Some(c.Token())) == Some(c)
  {
  }

  /** Python truthiness of an optional string field: absent and `""` are false. */
  predicate Truthy(s: Option<string>) {
    s.Some? && s.value != ""
  }

  /** Python truthiness of an optional record: absent and `{}` are false. */
  predicate RecordTruthy(r: Option<Record>) {
    r.Some? && r.value != map[]
  }

  /** The caller's role, derived from `doctor_id` by truthiness. */
  datatype Role = Doctor | Patient

  function RoleOf(doctorId: Option<string>): (r: Role)
    ensures r == Doctor <==> Truthy(doctorId)
  {
    if Truthy(doctorId) then Doctor else Patient
  }

  /** The `kb_response` field: the knowledge service's text (doctor) or a JSON
      object such as the denial payload (patient). */
  datatype KbResponse = Text(text: string) | Dict(fields: Record)

  predicate KbTruthy(k: Option<KbResponse>) {
    match k
    case None => false
    case Some(Text(t)) => t != ""
    case Some(Dict(m)) => m != map[]
  }

  /** What a text-completion call gives back: its output text, or the message of
      the exception it raised (service error, malformed response body). */
  datatype Completion = Completed(text: string) | Failed(message: string)

  /** What a record-store `get_item` by key gives back. */
  datatype Lookup = Item(record: Record) | NoItem | StoreError(message: string)

  /** How values are rendered into prompt text: `json.dumps` of a record and
      Python's `str()` of a dict. */
  datatype Formats = Formats(dumps: Record -> string, repr: Record -> string)

  /** One call to an external service, with the arguments the model gives it. */
  datatype Call =
    | Classify(text: string)
    | Fetch(patientId: Option<string>)
    | Guidance(query: Option<string>, patientInfo: Option<Record>)
    | Answer(query: Option<string>, context: string)
  {
    function Kind(): CallKind {
      match this
      case Classify(_) => ClassifyCall
      case Fetch(_) => FetchCall
      case Guidance(_, _) => GuidanceCall
      case Answer(_, _) => AnswerCall
    }
  }

  datatype CallKind = ClassifyCall | FetchCall | GuidanceCall | AnswerCall

  /** A stage's reply together with the external calls it made, in order. */
  datatype Outcome<+T> = Outcome(reply: T, calls: seq<Call>)

  /** How many calls of one kind a trace holds. */
  function Count(calls: seq<Call>, kind: CallKind): (n: nat)
    ensures n <= |calls|
    ensures n == 0 <==> forall i :: 0 <= i < |calls| ==> calls[i].Kind() != kind
  {
    if calls == [] then 0
    else (if calls[0].Kind() == kind then 1 else 0) + Count(calls[1..], kind)
  }

  /** Two single calls in order make a trace of two calls. */
  lemma CallPair(a: Call, b: Call)
    ensures [a] + [b] == [a, b]
  {
  }

  /** Counting distributes over the concatenation of traces. */
  lemma {:induction false} CountAppend(a: seq<Call>, b: seq<Call>, kind: CallKind)
    ensures Count(a + b, kind) == Count(a, kind) + Count(b, kind)
  {
    if a != [] {
      assert (a + b)[1..] == a[1..] + b;
      CountAppend(a[1..], b, kind);
    } else {
      assert a + b == b;
    }
  }
}
