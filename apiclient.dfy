/**
 * The pure part of `apiFetch`: the default message per status, the choice of
 * message and details from an error body, and the classification of caught
 * failures. The request itself, the timer and the body decoding are inputs:
 * an `Exchange` says what `fetch` and `response.json()` produced.
 */
module ApiClient {
  import opened Optional

  /** The `message` property of an error body. */
  datatype BodyMessage = NoMessage | Text(text: string) | List(items: seq<string>)

  /**
   * A decoded JSON body, as far as the client looks into it: `null`, an
   * object (with or without `message`), or any other value, on which
   * `.message` is undefined.
   */
  datatype Json = JsonNull | JsonObject(message: BodyMessage) | JsonOther

  /** What `response.json()` gave: a value, or a rejection (an unparsable body). */
  datatype BodyRead = Parsed(json: Json) | Unparsable

  /** What the request produced, before `apiFetch` looks at it. */
  datatype Exchange =
    | Responded(status: int, body: BodyRead)
    | Aborted       // the timer fired: `fetch` rejects with an AbortError DOMException
    | FetchFailed   // any other rejection of `fetch`

  datatype ClientError =
    | ApiError(message: string, status: int, details: Option<seq<string>>)
    | NetworkError(message: string)
  {
    /** The `name` property each constructor sets. */
    function Name(): string {
      if ApiError? then "ApiError" else "NetworkError"
    }
  }

  /**
   * The settled promise. `BodyRejected` is an ok response whose body does not
   * parse: `return response.json()` hands the rejection on without passing
   * through the `catch` block, so it is neither an ApiError nor a NetworkError.
   */
  datatype FetchOutcome = Resolved(value: Json) | Thrown(error: ClientError) | BodyRejected

  const DefaultNetworkMessage: string := "Impossible de contacter le serveur. V\U{00E9}rifiez votre connexion."
  const TimeoutMessage: string := "La requ\U{00EA}te a expir\U{00E9}. Veuillez r\U{00E9}essayer."
  const GenericMessage: string := "Une erreur est survenue."

  /** `new ApiError(message, status, details)` */
  function NewApiError(message: string, status: int, details: Option<seq<string>>): (e: ClientError)
    ensures e.Name() == "ApiError" && e.ApiError?
    ensures e.message == message && e.status == status && e.details == details
  {
    ApiError(message, status, details)
  }

  /** `new NetworkError(message?)` */
  function NewNetworkError(message: string := DefaultNetworkMessage): (e: ClientError)
    ensures e.Name() == "NetworkError" && e.NetworkError? && e.message == message
  {
    NetworkError(message)
  }

  /** `response.ok` */
  predicate IsOk(status: int) {
    200 <= status <= 299
  }

  /** `getDefaultErrorMessage(status)` */
  function GetDefaultErrorMessage(status: int): string {
    if status == 400 then "Donn\U{00E9}es invalides. Veuillez v\U{00E9}rifier le formulaire."
    else if status == 404 then "Ressource introuvable."
    else if status == 409 then "Conflit : cette ressource existe d\U{00E9}j\U{00E0}."
    else if status == 500 then "Erreur interne du serveur. Veuillez r\U{00E9}essayer plus tard."
    else GenericMessage
  }

  /**
   * The headline: the first element of a list (an empty list gives `undefined`,
   * which `Error` turns into ""), a non-empty string as is, else the default.
   */
  function ErrorMessage(m: BodyMessage, status: int): string {
    match m
    case List(items) => if items != [] then items[0] else ""
    case Text(t) => if t != "" then t else GetDefaultErrorMessage(status)
    case NoMessage => GetDefaultErrorMessage(status)
  }

  /** The details: the whole list, when the message is one. */
  function ErrorDetails(m: BodyMessage): Option<seq<string>> {
    if m.List? then Some(m.items) else None
  }

  /** The `message` an error body carries; an unparsable body reads as `{}`. */
  function BodyMessageOf(body: BodyRead): BodyMessage
    requires body != Parsed(JsonNull)
  {
    if body.Parsed? && body.json.JsonObject? then body.json.message else NoMessage
  }

  /** The `catch` block: an ApiError is rethrown, a timeout and anything else become NetworkErrors. */
  function Translate(thrown: Exchange, raised: Option<ClientError>): (e: ClientError)
    requires raised.Some? ==> raised.value.ApiError?
  {
    if raised.Some? then raised.value
    else if thrown.Aborted? then NewNetworkError(TimeoutMessage)
    else NewNetworkError()
  }

  /** `apiFetch`, from what the exchange produced to how the promise settles. */
  function ApiFetch(ex: Exchange): FetchOutcome {
    match ex
    case Responded(status, body) =>
      if IsOk(status) then
        (if body.Parsed? then Resolved(body.json) else BodyRejected)
      else if body == Parsed(JsonNull) then
        // reading `.message` of null throws a TypeError, caught as a network failure
        Thrown(Translate(ex, None))
      else
        var m := BodyMessageOf(body);
        Thrown(Translate(ex, Some(NewApiError(ErrorMessage(m, status), status, ErrorDetails(m)))))
    case Aborted => Thrown(Translate(ex, None))
    case FetchFailed => Thrown(Translate(ex, None))
  }

  /** The default texts: four fixed statuses, one generic text for every other. */
  lemma DefaultMessageSpec(status: int)
    ensures GetDefaultErrorMessage(status) == GenericMessage <==> status !in {400, 404, 409, 500}
    ensures GetDefaultErrorMessage(500) == "Erreur interne du serveur. Veuillez r\U{00E9}essayer plus tard."
    ensures GetDefaultErrorMessage(404) == "Ressource introuvable."
  {
  }

  /** A list message: its first element is the headline and the whole list the details. */
  lemma ListMessageSpec(status: int, items: seq<string>)
    requires !IsOk(status)
    ensures ApiFetch(Responded(status, Parsed(JsonObject(List(items))))) ==
      Thrown(ApiError(if items != [] then items[0] else "", status, Some(items)))
  {
  }

  /** A non-empty string message is the headline, with no details. */
  lemma TextMessageSpec(status: int, text: string)
    requires !IsOk(status) && text != ""
    ensures ApiFetch(Responded(status, Parsed(JsonObject(Text(text))))) == Thrown(ApiError(text, status, None))
  {
  }

  /** An unparsable body, a body without message or with a falsy one: the default text for the status. */
  lemma DefaultMessageUsed(status: int, body: BodyRead)
    requires !IsOk(status)
    requires body in {Unparsable, Parsed(JsonOther), Parsed(JsonObject(NoMessage)), Parsed(JsonObject(Text("")))}
    ensures ApiFetch(Responded(status, body)) == Thrown(ApiError(GetDefaultErrorMessage(status), status, None))
  {
  }

  /**
   * Classification: an outcome is an ApiError exactly when the server answered
   * with a non-ok status and a non-null body; a timeout gives the timeout text
   * and every other failure the default network text.
   */
  lemma FailureClassification(ex: Exchange)
    ensures (ApiFetch(ex).Thrown? && ApiFetch(ex).error.ApiError?) <==>
      (ex.Responded? && !IsOk(ex.status) && ex.body != Parsed(JsonNull))
    ensures ApiFetch(ex).Thrown? && ApiFetch(ex).error.ApiError? ==> ApiFetch(ex).error.status == ex.status
    ensures ex.Aborted? ==> ApiFetch(ex) == Thrown(NetworkError(TimeoutMessage))
    ensures ex.FetchFailed? ==> ApiFetch(ex) == Thrown(NetworkError(DefaultNetworkMessage))
    ensures ex.Responded? && !IsOk(ex.status) && ex.body == Parsed(JsonNull) ==>
      ApiFetch(ex) == Thrown(NetworkError(DefaultNetworkMessage))
  {
  }

  /** An ok response settles with its parsed body, and only an ok response resolves. */
  lemma SuccessSpec(ex: Exchange)
    ensures ApiFetch(ex).Resolved? <==> ex.Responded? && IsOk(ex.status) && ex.body.Parsed?
    ensures ApiFetch(ex).Resolved? ==> ApiFetch(ex).value == ex.body.json
    ensures ApiFetch(ex).BodyRejected? <==> ex.Responded? && IsOk(ex.status) && ex.body == Unparsable
  {
  }

  /** The client's own test cases. */
  lemma ApiFetchExamples(data: Json)
    ensures ApiFetch(Responded(200, Parsed(data))) == Resolved(data)
    ensures ApiFetch(Responded(404, Parsed(JsonObject(Text("Not found")))))
      == Thrown(ApiError("Not found", 404, None))
    ensures ApiFetch(Responded(400, Parsed(JsonObject(List(["title must be a string", "description is required"])))))
      == Thrown(ApiError("title must be a string", 400, Some(["title must be a string", "description is required"])))
    ensures ApiFetch(Responded(500, Unparsable))
      == Thrown(ApiError("Erreur interne du serveur. Veuillez r\U{00E9}essayer plus tard.", 500, None))
    ensures ApiFetch(FetchFailed).error.NetworkError? && ApiFetch(Aborted).error.NetworkError?
  {
    TextMessageSpec(404, "Not found");
    ListMessageSpec(400, ["title must be a string", "description is required"]);
    DefaultMessageUsed(500, Unparsable);
    DefaultMessageSpec(500);
  }
}
