/**
 * The `/submit` endpoint: forward the validated review to the sentiment
 * service once, and turn how that call ended into the reply.
 */
module IngestionService {
  import opened Wrappers
  import Validation

  /** A JSON document, as sent and received over HTTP. */
  datatype Json =
    | JNull
    | JBool(b: bool)
    | JNumber(n: real)
    | JString(s: string)
    | JArray(items: seq<Json>)
    | JObject(fields: map<string, Json>)

  const ServiceUnavailable: int := 503
  // The two details are written as two sentences so that the verifier can
  // look inside them.
  const NotRespondingDetail: string :=
    "Sentiment Service is not responding." + " Please try again later."
  const UnableToConnectDetail: string :=
    "Unable to connect to Sentiment Service." + " Please check service status."
  const ErrorDetailPrefix: string := "Sentiment Service error: "

  /**
   * The `httpx.RequestError` subclasses the POST can raise. The first four
   * are also `httpx.TimeoutException`s.
   */
  datatype RequestError =
    | ConnectTimeout | ReadTimeout | WriteTimeout | PoolTimeout
    | ConnectError | ReadError | WriteError | CloseError
    | RemoteProtocolError | LocalProtocolError | ProxyError | UnsupportedProtocol
    | DecodingError | TooManyRedirects
  {
    predicate IsTimeout() {
      ConnectTimeout? || ReadTimeout? || WriteTimeout? || PoolTimeout?
    }
  }

  /** A downstream response: its status, its body text, and that text parsed as JSON if it is JSON. */
  datatype HttpResponse = HttpResponse(status: int, text: string, json: Option<Json>) {
    /** `raise_for_status` passes exactly the 2xx statuses. */
    predicate IsSuccess() {
      200 <= status < 300
    }
  }

  /** How the forward call ended. */
  datatype ForwardOutcome = Responded(response: HttpResponse) | Failed(error: RequestError)

  /**
   * The reply of `/submit`: the downstream body, an `HTTPException`, or an
   * exception no clause catches (the framework answers it with status 500).
   * The route is annotated `-> dict`, so the framework also refuses, with a
   * `ResponseValidationError`, a downstream body that is not a JSON object.
   */
  datatype Reply =
    | Body(json: Json)
    | HttpError(status: int, detail: string)
    | Unhandled(typeName: string)

  /** `review.model_dump()`, the JSON body of the forward request. */
  function Payload(review: Validation.Review): (j: Json)
    ensures j.JObject? && j.fields.Keys == {"brand", "text"}
    ensures j.fields["brand"] == JString(review.brand) && j.fields["text"] == JString(review.text)
  {
    JObject(map["brand" := JString(review.brand), "text" := JString(review.text)])
  }

  /**
   * The receiving service reads the forwarded body back as the same review,
   * and its own validator accepts it unchanged.
   */
  lemma PayloadRevalidates(review: Validation.Review)
    requires Validation.ValidReview(review)
    ensures Payload(review).fields.Keys == {"brand", "text"}
    ensures Validation.ValidateReview(
      Payload(review).fields["brand"].s, Payload(review).fields["text"].s) == Success(review)
  {
    Validation.RevalidateReview(review);
  }

  /**
   * The `try`/`except` of `submit_review`. The clauses are tried in order,
   * so a timeout is answered by the `TimeoutException` clause, not by the
   * more general `RequestError` clause that follows it.
   */
  function Respond(outcome: ForwardOutcome): (r: Reply)
    ensures outcome.Failed? && outcome.error.IsTimeout() ==>
      r == HttpError(ServiceUnavailable, NotRespondingDetail)
    ensures outcome.Failed? && !outcome.error.IsTimeout() ==>
      r == HttpError(ServiceUnavailable, UnableToConnectDetail)
    ensures outcome.Responded? && !outcome.response.IsSuccess() ==>
      r == HttpError(outcome.response.status, ErrorDetailPrefix + outcome.response.text)
    ensures outcome.Responded? && outcome.response.IsSuccess() && outcome.response.json.Some? ==>
      r == if outcome.response.json.value.JObject? then Body(outcome.response.json.value)
           else Unhandled("ResponseValidationError")
    ensures outcome.Responded? && outcome.response.IsSuccess() && outcome.response.json.None? ==>
      r == Unhandled("JSONDecodeError")
  {
    match outcome
    case Failed(e) =>
      if e.IsTimeout() then HttpError(ServiceUnavailable, NotRespondingDetail)
      else HttpError(ServiceUnavailable, UnableToConnectDetail)
    case Responded(resp) =>
      if !resp.IsSuccess() then HttpError(resp.status, ErrorDetailPrefix + resp.text)
      else match resp.json
        case Some(j) => if j.JObject? then Body(j) else Unhandled("ResponseValidationError")
        case None => Unhandled("JSONDecodeError")
  }

  /**
   * `submit_review(review)`. `post` stands for the single HTTP POST to the
   * sentiment service: given the request body, it tells how the call ended.
   */
  function SubmitReview(review: Validation.Review, post: Json -> ForwardOutcome): (r: Reply)
    ensures r.Body? <==>
      var o := post(Payload(review));
      o.Responded? && o.response.IsSuccess() && o.response.json.Some? && o.response.json.value.JObject?
    ensures r.Body? ==> Some(r.json) == post(Payload(review)).response.json
  {
    Respond(post(Payload(review)))
  }

  /**
   * The two "service unavailable" details are given exactly when no response
   * arrived; a downstream error, even a 503, carries the prefixed body.
   */
  lemma UnavailableIffNoResponse(outcome: ForwardOutcome)
    ensures (Respond(outcome).HttpError?
             && Respond(outcome).detail in {NotRespondingDetail, UnableToConnectDetail})
            <==> outcome.Failed?
  {
    if outcome.Responded? && !outcome.response.IsSuccess() {
      var d := ErrorDetailPrefix + outcome.response.text;
      assert d[18] == 'e' && NotRespondingDetail[18] == 'i';
      assert d[0] == 'S';
      assert UnableToConnectDetail[0] == 'U';
    }
  }

  /** A downstream error keeps its status, and its body is recoverable from the detail. */
  lemma ErrorDetailCarriesBody(resp: HttpResponse)
    requires !resp.IsSuccess()
    ensures Respond(Responded(resp)).status == resp.status
    ensures Respond(Responded(resp)).detail[..|ErrorDetailPrefix|] == ErrorDetailPrefix
    ensures Respond(Responded(resp)).detail[|ErrorDetailPrefix|..] == resp.text
  {
  }
}
