/**
 * The Lambda handler of the sentiment service: create_response and the
 * choice between the 200, 400 and 500 outcomes of lambda_handler. Decoding of
 * the request body and the classifier are inputs: the handler receives the
 * outcome of json.loads(event['body']) and a classifier from the review value
 * to its top prediction or a failure. Every exception the handler catches is
 * an explicit branch.
 */
module App {
  import opened Wrappers
  import opened Inference

  /** A decoded JSON document, as Python values. */
  datatype JsonValue =
    | JNull
    | JBool(b: bool)
    | JNumber(n: real)
    | JString(s: string)
    | JArray(items: seq<JsonValue>)
    | JObject(fields: map<string, JsonValue>)

  /** Outcome of json.loads(event['body']). */
  datatype BodyParse =
    | BodyKeyMissing        // event has no 'body' key: KeyError
    | BodyNotText           // any other exception from reading or decoding the body
    | InvalidJson           // json.JSONDecodeError
    | Parsed(value: JsonValue)

  /** The classifier's top prediction for a review, or the exception it raised. */
  datatype Classification = Classified(classLabel: string, score: real) | ClassifierFailed

  /** The document json.dumps serialises into the response body. */
  datatype ResponseBody = ErrorBody(error: string) | PredictionBody(prediction: Prediction)

  datatype Response = Response(statusCode: int, body: ResponseBody, headers: map<string, string>)

  const ContentType: string := "Content-Type"
  const AllowOrigin: string := "Access-Control-Allow-Origin"

  const InvalidJsonError: string := "Invalid JSON in request body"
  const MissingReviewError: string := "Missing review text in request body"
  const InternalServerError: string := "Internal server error"

  /** The key of the request body that holds the review. */
  const ReviewKey: string := "review"

  /** Python's truth value of a decoded JSON value. */
  predicate Truthy(v: JsonValue) {
    match v
    case JNull => false
    case JBool(b) => b
    case JNumber(n) => n != 0.0
    case JString(s) => s != ""
    case JArray(items) => items != []
    case JObject(fields) => fields != map[]
  }

  /** Whether v[:100] succeeds: strings and lists can be sliced, nothing else can. */
  predicate Sliceable(v: JsonValue) {
    v.JString? || v.JArray?
  }

  /** dict.get: the value at key, or None (which a JSON null also decodes to). */
  function Get(fields: map<string, JsonValue>, key: string): JsonValue {
    if key in fields then fields[key] else JNull
  }

  /** create_response: the given status and body, and always the same two headers. */
  function CreateResponse(statusCode: int, body: ResponseBody): (r: Response)
    ensures r.statusCode == statusCode && r.body == body
    ensures r.headers.Keys == {ContentType, AllowOrigin}
    ensures r.headers[ContentType] == "application/json" && r.headers[AllowOrigin] == "*"
  {
    Response(statusCode, body, map[ContentType := "application/json", AllowOrigin := "*"])
  }

  /** The review value lambda_handler reads, when the body decodes to an object. */
  function ReviewOf(parse: BodyParse): Option<JsonValue> {
    if parse.Parsed? && parse.value.JObject? then Some(Get(parse.value.fields, ReviewKey)) else None
  }

  /** The one value the classifier is called with, if it is called at all. */
  function AnalyzerInput(parse: BodyParse): Option<JsonValue> {
    match ReviewOf(parse)
    case Some(review) => if Truthy(review) && Sliceable(review) then Some(review) else None
    case None => None
  }

  /**
   * lambda_handler: 400 for a body that is not JSON, 400 for a missing or
   * falsy review, 200 with the prediction when the classifier answers, and
   * 500 for every other exception.
   */
  function LambdaHandler(parse: BodyParse, classify: JsonValue -> Classification): (r: Response)
    ensures r.statusCode in {200, 400, 500}
    ensures r.headers == CreateResponse(r.statusCode, r.body).headers
    ensures r.statusCode == 400 && r.body == ErrorBody(InvalidJsonError) <==> parse == InvalidJson
    ensures r.statusCode == 400 && r.body == ErrorBody(MissingReviewError) <==>
            ReviewOf(parse).Some? && !Truthy(ReviewOf(parse).value)
    ensures r.statusCode == 400 <==> parse == InvalidJson || (ReviewOf(parse).Some? && !Truthy(ReviewOf(parse).value))
    ensures r.statusCode == 200 <==> AnalyzerInput(parse).Some? && classify(AnalyzerInput(parse).value).Classified?
    ensures r.statusCode == 200 ==>
            var c := classify(AnalyzerInput(parse).value);
            r.body == PredictionBody(PredictRating(c.classLabel, c.score))
    ensures r.statusCode == 500 <==> !(r.statusCode == 200 || r.statusCode == 400)
    ensures r.statusCode == 500 ==> r.body == ErrorBody(InternalServerError)
  {
    match parse
    case InvalidJson => CreateResponse(400, ErrorBody(InvalidJsonError))
    case BodyKeyMissing => CreateResponse(500, ErrorBody(InternalServerError))
    case BodyNotText => CreateResponse(500, ErrorBody(InternalServerError))
    case Parsed(body) =>
      if !body.JObject? then
        // body.get raises AttributeError
        CreateResponse(500, ErrorBody(InternalServerError))
      else
        var review := Get(body.fields, ReviewKey);
        if !Truthy(review) then
          CreateResponse(400, ErrorBody(MissingReviewError))
        else if !Sliceable(review) then
          // review_text[:100] raises TypeError
          CreateResponse(500, ErrorBody(InternalServerError))
        else
          match classify(review)
          case ClassifierFailed => CreateResponse(500, ErrorBody(InternalServerError))
          case Classified(classLabel, score) => CreateResponse(200, PredictionBody(PredictRating(classLabel, score)))
  }

  /**
   * The response depends on the classifier only through its answer for
   * AnalyzerInput: when the review is missing or falsy the classifier is never
   * consulted, and otherwise it is consulted on the review alone.
   */
  lemma HandlerConsultsClassifierOnce(parse: BodyParse, c1: JsonValue -> Classification, c2: JsonValue -> Classification)
    requires AnalyzerInput(parse).Some? ==> c1(AnalyzerInput(parse).value) == c2(AnalyzerInput(parse).value)
    ensures LambdaHandler(parse, c1) == LambdaHandler(parse, c2)
  {
  }
}
