/**
 The parts of plan generation the app decides itself: the guards checked
 before any request, the structure test on the parsed reply, and the
 first-match choice of the message shown when generation fails. The request
 to the service and the JSON parser are outside: their results arrive as a
 `Reply`.
 */
module Generation {
  import opened Wrappers
  import opened Text
  import opened Plan

  /** Alert for a schedule text that is empty after trimming. */
  const EmptyInputAlert: string := "Please enter your schedule information"

  /** Alert for a service key that is missing or not shaped like one. */
  const MissingKeyAlert: string := "Please add your OpenAI API key in the yellow box to generate a real plan."

  /** Message of the error raised when a parsed reply holds no days. */
  const InvalidStructureMessage: string := "Invalid plan structure received"

  /** `!inputText.trim()` is false: there is something to send. */
  predicate HasScheduleText(text: string)
  {
    !IsBlank(text)
  }

  /**
   `!apiKey || !apiKey.startsWith('sk-')` is false: the key has the expected
   shape. The empty-key test adds nothing, since an empty key never starts
   with "sk-".
   */
  predicate KeyLooksValid(key: string)
    ensures KeyLooksValid(key) <==> |key| >= 3 && key[..3] == "sk-"
  {
    key != "" && StartsWith(key, "sk-")
  }

  /**
   The JSON object the service's text parsed to, assumed plan-shaped apart
   from `days`: `days` is `None` when the property is missing, and the other
   properties are taken as the plan's own.
   */
  datatype Document = Document(urgent: seq<Task>, days: Option<seq<Day>>, stats: Stats, tips: seq<string>)

  /**
   What the awaited request produced: the service or the client failed with a
   message, the reply text did not parse, or it parsed to a value (`None` for
   a falsy JSON value such as `null`).
   */
  datatype Reply = ServiceError(message: string) | Unparsable(message: string) | Parsed(value: Option<Document>)

  /** The document a plan is read from. */
  function AsDocument(p: Plan): (doc: Document)
    ensures doc.days == Some(p.days)
  {
    Document(p.urgent, Some(p.days), p.stats, p.tips)
  }

  /**
   `if (!plan || !plan.days || plan.days.length === 0) throw …`: a value is
   accepted exactly when it is an object whose `days` is present and
   non-empty; no other property is checked.
   */
  function Accept(value: Option<Document>): (r: Result<Plan, string>)
    ensures r.Success? <==> value.Some? && value.value.days.Some? && |value.value.days.value| > 0
    ensures r.Success? ==> AsDocument(r.value) == value.value
    ensures r.Failure? ==> r.error == InvalidStructureMessage
  {
    match value
    case None => Failure(InvalidStructureMessage)
    case Some(doc) =>
      match doc.days
      case None => Failure(InvalidStructureMessage)
      case Some(days) =>
        if |days| == 0 then Failure(InvalidStructureMessage)
        else Success(Plan(doc.urgent, days, doc.stats, doc.tips))
  }

  /** Any plan with at least one day is accepted as itself. */
  lemma AcceptRoundTrip(p: Plan)
    requires |p.days| > 0
    ensures Accept(Some(AsDocument(p))) == Success(p)
  {
  }

  /** `{"days": []}` and an object without `days` are both rejected as invalid structure. */
  lemma EmptyOrMissingDaysRejected(doc: Document)
    requires doc.days == None || doc.days == Some([])
    ensures Accept(Some(doc)) == Failure(InvalidStructureMessage)
  {
  }

  /**
   The outcome of the `try` block: the accepted plan, or the message of the
   error that reached the `catch`.
   */
  function Outcome(reply: Reply): (r: Result<Plan, string>)
    ensures reply.ServiceError? ==> r == Failure(reply.message)
    ensures reply.Unparsable? ==> r == Failure(reply.message)
    ensures reply.Parsed? ==> r == Accept(reply.value)
    ensures r.Success? <==> reply.Parsed? && Accept(reply.value).Success?
  {
    match reply
    case ServiceError(m) => Failure(m)
    case Unparsable(m) => Failure(m)
    case Parsed(v) => Accept(v)
  }

  /** The remedy shown for a failed generation. */
  datatype Remedy = KeyRejected | OutOfCredits | ModelUnavailable | Other(message: string)

  /** The first test of the `catch` block, as written with its two alternatives. */
  predicate MentionsApiKey(message: string)
  {
    Contains(message, "API key") || Contains(message, "Incorrect API key")
  }

  /** The second alternative of the first test is covered by the first. */
  lemma IncorrectKeyIsCovered(message: string)
    ensures MentionsApiKey(message) <==> Contains(message, "API key")
  {
    if Contains(message, "Incorrect API key") {
      ContainsAt("Incorrect API key", "API key", 10);
      ContainsTransitive(message, "Incorrect API key", "API key");
    }
  }

  /**
   The message chosen by the first test that matches: key problems before
   quota problems before model problems; anything else keeps the original
   message.
   */
  function Classify(message: string): (f: Remedy)
    ensures f == KeyRejected <==> Contains(message, "API key")
    ensures f == OutOfCredits <==>
      !Contains(message, "API key") && (Contains(message, "quota") || Contains(message, "insufficient"))
    ensures f == ModelUnavailable <==>
      !Contains(message, "API key") && !Contains(message, "quota") && !Contains(message, "insufficient")
      && Contains(message, "model")
    ensures f.Other? ==> f.message == message
  {
    IncorrectKeyIsCovered(message);
    if MentionsApiKey(message) then KeyRejected
    else if Contains(message, "quota") || Contains(message, "insufficient") then OutOfCredits
    else if Contains(message, "model") then ModelUnavailable
    else Other(message)
  }

  /** The opening words of the three remedy alerts. */
  const KeyRejectedHeadline: string := "Invalid API key!"
  const OutOfCreditsHeadline: string := "Out of credits!"
  const ModelUnavailableHeadline: string := "Model not available."

  const KeyRejectedAlert: string := KeyRejectedHeadline +
    " Please check:\n\n1. Go to https://platform.openai.com/api-keys\n2. Create a new key\n3. Copy the FULL key (starts with sk-)\n4. Paste it in the yellow box"

  const OutOfCreditsAlert: string := OutOfCreditsHeadline +
    " Please:\n\n1. Go to https://platform.openai.com/account/billing\n2. Add at least $5 credit\n3. Wait a few minutes\n4. Try again"

  const ModelUnavailableAlert: string := ModelUnavailableHeadline +
    " Try using \"gpt-3.5-turbo\" instead."

  const GenericAlertPrefix: string := "Failed to generate plan: "

  /**
   The alert text for a remedy: each remedy alert opens with its own headline
   (so no two remedies share an alert); the generic alert starts with its
   fixed prefix and quotes the message; no remedy alert starts that way.
   */
  function AlertText(f: Remedy): (t: string)
    ensures f == KeyRejected ==> StartsWith(t, KeyRejectedHeadline)
    ensures f == OutOfCredits ==> StartsWith(t, OutOfCreditsHeadline)
    ensures f == ModelUnavailable ==> StartsWith(t, ModelUnavailableHeadline)
    ensures f.Other? ==> StartsWith(t, GenericAlertPrefix) && Contains(t, f.message)
    ensures !f.Other? ==> !StartsWith(t, GenericAlertPrefix)
  {
    match f
    case KeyRejected =>
      assert KeyRejectedAlert[0] == KeyRejectedHeadline[0] != GenericAlertPrefix[0];
      KeyRejectedAlert
    case OutOfCredits =>
      assert OutOfCreditsAlert[0] == OutOfCreditsHeadline[0] != GenericAlertPrefix[0];
      OutOfCreditsAlert
    case ModelUnavailable =>
      assert ModelUnavailableAlert[0] == ModelUnavailableHeadline[0] != GenericAlertPrefix[0];
      ModelUnavailableAlert
    case Other(m) =>
      var t := GenericAlertPrefix + m + "\n\n";
      ContainsAt(t, m, |GenericAlertPrefix|);
      t
  }

  /** The three remedies show three different alerts. */
  lemma RemedyAlertsDiffer()
    ensures AlertText(KeyRejected) != AlertText(OutOfCredits)
    ensures AlertText(KeyRejected) != AlertText(ModelUnavailable)
    ensures AlertText(OutOfCredits) != AlertText(ModelUnavailable)
  {
    assert AlertText(KeyRejected)[0] == KeyRejectedHeadline[0];
    assert AlertText(OutOfCredits)[0] == OutOfCreditsHeadline[0];
    assert AlertText(ModelUnavailable)[0] == ModelUnavailableHeadline[0];
  }

  /** The generic alert quotes the message, so different messages give different alerts. */
  lemma GenericAlertQuotesMessage(m: string, n: string)
    ensures Contains(AlertText(Other(m)), m)
    ensures AlertText(Other(m)) == AlertText(Other(n)) <==> m == n
  {
    var k := |GenericAlertPrefix|;
    ContainsAt(AlertText(Other(m)), m, k);
    assert AlertText(Other(m))[k..k + |m|] == m;
    if AlertText(Other(m)) == AlertText(Other(n)) {
      assert m == AlertText(Other(m))[k..|AlertText(Other(m))| - 2];
      assert n == AlertText(Other(n))[k..|AlertText(Other(n))| - 2];
    }
  }

  /** A reply without days ends in the generic alert naming the structure error. */
  lemma InvalidStructureAlert()
    ensures Classify(InvalidStructureMessage) == Other(InvalidStructureMessage)
  {
    var m := InvalidStructureMessage;
    AbsentCharRulesOut(m, "API key", 0);
    AbsentCharRulesOut(m, "quota", 0);
    AbsentCharRulesOut(m, "insufficient", 4);
    AbsentCharRulesOut(m, "model", 0);
  }
}
