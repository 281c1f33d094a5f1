/** The classifier stage (`Medibot_classifier.py`): validates the request, asks the
    language model for a routing token and normalises the answer. */
module Classifier {
  import opened Wrappers
  import opened PyText
  import opened Protocol

  const MissingFields := "Missing patientId or query"

  /** The tail of `classify_query_ai`: strip and lower-case the model's raw output;
      anything that is not then a recognised token becomes `both`. */
  function Normalize(raw: string): (c: Classification)
    ensures Parse(Lower(Strip(raw))).Some? ==> c.Token() == Lower(Strip(raw))
    ensures Parse(Lower(Strip(raw))).None? ==> c == Both
  {
    match Parse(Lower(Strip(raw)))
    case Some(k) => k
    case None => Both
  }

  /** A token carries no surrounding whitespace. */
  lemma TokenStripped(c: Classification)
    ensures Strip(c.Token()) == c.Token()
  {
    var t := c.Token();
    assert Trimmed(t);
    assert [] + t + [] == t;
    StripPadded([], t, []);
  }

  /** A token is already lower case. */
  lemma TokenLowered(c: Classification)
    ensures Lower(c.Token()) == c.Token()
  {
    LowerOfLowercase(c.Token());
  }

  /** Every token normalises to itself. */
  lemma NormalizeToken(c: Classification)
    ensures Normalize(c.Token()) == c
  {
    TokenStripped(c);
    TokenLowered(c);
  }

  /** Normalising a normalised token gives it back. */
  lemma NormalizeIdempotent(raw: string)
    ensures Normalize(Normalize(raw).Token()) == Normalize(raw)
  {
    NormalizeToken(Normalize(raw));
  }

  /** Whitespace around the output and upper case inside it do not change the
      routing: any output that lower-cases to a token, padded with whitespace,
      normalises to that token. */
  lemma NormalizePadded(p: string, u: string, q: string, c: Classification)
    requires Padding(p) && Padding(q)
    requires Lower(u) == c.Token()
    ensures Normalize(p + u + q) == c
  {
    var t := c.Token();
    assert Trimmed(t);
    LowerKeepsTrimmed(u);
    StripPadded(p, u, q);
  }

  /** The example output `"  KB\n"` routes to the knowledge base. */
  lemma NormalizeExample()
    ensures Normalize("  KB\n") == Kb
  {
    assert "  KB\n" == "  " + "KB" + "\n";
    NormalizePadded("  ", "KB", "\n", Kb);
  }

  /** U+212A KELVIN SIGN lower-cases to `k`, so `"KB"` also routes to the
      knowledge base. */
  lemma NormalizeKelvinSign()
    ensures Normalize("\U{212A}B") == Kb
  {
    assert "\U{212A}B" == [] + "\U{212A}B" + [];
    NormalizePadded([], "\U{212A}B", [], Kb);
  }

  /** The classifier's input event; each field may be absent. */
  datatype Event = Event(patientId: Option<string>, query: Option<string>, doctorId: Option<string>)

  /** The handler's reply: the routed request, or an error record with an HTTP
      status code and the error text of its JSON body. */
  datatype Reply =
    | Routed(patientId: string, query: string, doctorId: Option<string>, classification: string)
    | ErrorRecord(statusCode: int, error: string)

  /** `lambda_handler`. `infer` is the language model asked to classify the query. */
  function Handle(event: Event, infer: string -> Completion): (o: Outcome<Reply>)
    // validation: a missing or empty field is a 400 and the model is not called
    ensures (o.reply == ErrorRecord(400, MissingFields)) <==> (!Truthy(event.patientId) || !Truthy(event.query))
    ensures !Truthy(event.patientId) || !Truthy(event.query) ==> o.calls == []
    ensures Truthy(event.patientId) && Truthy(event.query) ==> o.calls == [Classify(event.query.value)]
    // an inference failure is a 500 carrying its message, never a default routing
    ensures (o.reply.ErrorRecord? && o.reply.statusCode == 500)
        <==> (Truthy(event.patientId) && Truthy(event.query) && infer(event.query.value).Failed?)
    ensures (o.reply.ErrorRecord? && o.reply.statusCode == 500)
        ==> o.reply.error == infer(event.query.value).message
    // success: a valid request whose inference completes is always routed, with
    // the request fields echoed and a recognised token added
    ensures Truthy(event.patientId) && Truthy(event.query) && infer(event.query.value).Completed?
            ==> o.reply.Routed?
    ensures o.reply.Routed? ==>
              && event.patientId == Some(o.reply.patientId) && event.query == Some(o.reply.query)
              && o.reply.doctorId == event.doctorId
              && Parse(o.reply.classification).Some?
              && o.reply.classification == Normalize(infer(o.reply.query).text).Token()
  {
    if !Truthy(event.patientId) || !Truthy(event.query) then
      Outcome(ErrorRecord(400, MissingFields), [])
    else
      var query := event.query.value;
      var calls := [Classify(query)];
      match infer(query)
      case Failed(message) => Outcome(ErrorRecord(500, message), calls)
      case Completed(raw) =>
        Outcome(Routed(event.patientId.value, query, event.doctorId, Normalize(raw).Token()), calls)
  }

  /** A valid request whose classification normalises to `c` is routed with `c`'s
      token after exactly one model call. */
  lemma HandleRoutes(event: Event, infer: string -> Completion, c: Classification)
    requires Truthy(event.patientId) && Truthy(event.query)
    requires infer(event.query.value).Completed? && Normalize(infer(event.query.value).text) == c
    ensures Handle(event, infer)
            == Outcome(Routed(event.patientId.value, event.query.value, event.doctorId, c.Token()),
                       [Classify(event.query.value)])
  {
  }
}
