/**
 * The decision logic of the `POST /fetch-job` handler (backend/src/server.js):
 * from the request body's `url` field and the outcome of the single upstream
 * call to the Proxycurl job API, the HTTP status and JSON body of the reply.
 * The upstream call itself is not modelled; its outcome is an input.
 */
module FetchJob {
  import opened Wrappers
  import opened Decimal
  import opened JobId

  /**
   * The `url` property of the request body. Absent stands for every falsy
   * value other than the empty string (undefined, null, false, 0, NaN);
   * NonString for a truthy value that is not a string, which has no `match`
   * method, so calling it throws a TypeError.
   */
  datatype UrlField = Absent | Str(text: string) | NonString

  /**
   * What the catch block receives. HttpError: axios rejected with a response
   * (`error.response.status`, `error.response.data.message`); NoResponse: any
   * other error, with its `code` property if it has one.
   */
  datatype Thrown = HttpError(status: nat, dataMessage: Option<string>) | NoResponse(code: Option<string>)

  /** The outcome of the upstream GET: a response whose data has this `description`, or a rejection. */
  datatype Upstream = Answered(description: Option<string>) | Threw(error: Thrown)

  /** The JSON body of the reply: `{ description }` or `{ error }`. */
  datatype Body = Description(text: string) | Error(message: string)

  datatype Reply = Reply(status: nat, body: Body)

  /** Where the handler stands before the upstream call: already replied, or about to fetch this URL. */
  datatype Step = Done(reply: Reply) | Fetch(jobUrl: string)

  const NoUrlMessage: string := "No URL provided"
  const InvalidUrlMessage: string := "Invalid LinkedIn job URL"
  const NoDescriptionMessage: string := "Job description not available"
  const GenericFailureMessage: string := "Failed to fetch job description"
  const BadKeyMessage: string := "Invalid Proxycurl API key"
  const RateLimitMessage: string := "Proxycurl API rate limit exceeded"
  const JobNotFoundMessage: string := "Job not found on LinkedIn"
  const CannotConnectMessage: string := "Cannot connect to Proxycurl API server"
  const TimedOutMessage: string := "Proxycurl API request timed out"

  /** JavaScript truthiness of an optional string property. */
  predicate Truthy(s: Option<string>) {
    s.Some? && s.value != ""
  }

  predicate IsFalsyUrl(url: UrlField) {
    url.Absent? || url == Str("")
  }

  /** The message for an upstream error status outside the fixed table. */
  function ApiErrorMessage(status: nat): (m: string)
    ensures |m| > 28 && m[..28] == "Proxycurl API error (status " && m[|m| - 1] == ')'
    ensures IsNumeral(m[28..|m| - 1]) && Value(m[28..|m| - 1]) == status
  {
    var m := "Proxycurl API error (status " + NatToDecimal(status) + ")";
    assert m[28..|m| - 1] == NatToDecimal(status);
    m
  }

  /** The catch block: the reply for an error thrown anywhere in the handler's try block. */
  function ErrorReply(e: Thrown): (r: Reply)
    ensures r.body.Error? && r.body.message != ""
    ensures r.status == (if e.HttpError? then e.status else 500)
    ensures e.HttpError? && e.status == 401 ==> r.body.message == BadKeyMessage
    ensures e.HttpError? && e.status == 429 ==> r.body.message == RateLimitMessage
    ensures e.HttpError? && e.status == 404 ==> r.body.message == JobNotFoundMessage
    ensures e.HttpError? && e.status !in {401, 404, 429} ==>
      r.body.message == (if Truthy(e.dataMessage) then e.dataMessage.value else ApiErrorMessage(e.status))
    ensures e.NoResponse? ==>
      r.body.message == (if e.code == Some("ECONNREFUSED") || e.code == Some("EHOSTUNREACH") then CannotConnectMessage
                         else if e.code == Some("ETIMEDOUT") then TimedOutMessage
                         else GenericFailureMessage)
  {
    match e
    case HttpError(status, dataMessage) =>
      var message :=
        if status == 401 then BadKeyMessage
        else if status == 429 then RateLimitMessage
        else if status == 404 then JobNotFoundMessage
        else if Truthy(dataMessage) then dataMessage.value
        else ApiErrorMessage(status);
      Reply(status, Error(message))
    case NoResponse(code) =>
      var message :=
        if code == Some("ECONNREFUSED") || code == Some("EHOSTUNREACH") then CannotConnectMessage
        else if code == Some("ETIMEDOUT") then TimedOutMessage
        else GenericFailureMessage;
      Reply(500, Error(message))
  }

  /**
   * The handler up to the upstream call: the URL check, the job-ID
   * extraction, and the canonical URL. A non-string `url` throws at
   * `url.match` and goes to the catch block with no response and no code.
   */
  function Prepare(url: UrlField): (step: Step)
    ensures IsFalsyUrl(url) ==> step == Done(Reply(400, Error(NoUrlMessage)))
    ensures url.NonString? ==> step == Done(Reply(500, Error(GenericFailureMessage)))
    ensures url.Str? && url.text != "" && ExtractJobId(url.text).None? ==> step == Done(Reply(400, Error(InvalidUrlMessage)))
    ensures step.Fetch? <==> url.Str? && ExtractJobId(url.text).Some?
    ensures step.Fetch? ==> ExtractJobId(step.jobUrl) == ExtractJobId(url.text)
  {
    match url
    case Absent => Done(Reply(400, Error(NoUrlMessage)))
    case NonString => Done(ErrorReply(NoResponse(None)))
    case Str(text) =>
      if text == "" then
        Done(Reply(400, Error(NoUrlMessage)))
      else
        match ExtractJobId(text)
        case None => Done(Reply(400, Error(InvalidUrlMessage)))
        case Some(jobId) =>
          CanonicalUrlRoundTrip(jobId);
          Fetch(CanonicalUrl(jobId))
  }

  /** The reply once the upstream call has answered with a 2xx response. */
  function SuccessReply(description: Option<string>): (r: Reply)
    ensures r.status == 200 <==> Truthy(description)
    ensures Truthy(description) ==> r.body == Description(description.value)
    ensures !Truthy(description) ==> r == Reply(404, Error(NoDescriptionMessage))
  {
    if !Truthy(description) then Reply(404, Error(NoDescriptionMessage))
    else Reply(200, Description(description.value))
  }

  /** The whole handler: the reply to `POST /fetch-job` with body field `url`, given the upstream outcome. */
  function HandleFetchJob(url: UrlField, upstream: Upstream): (r: Reply)
    ensures Prepare(url).Done? ==> r == Prepare(url).reply
    ensures Prepare(url).Fetch? && upstream.Answered? ==> r == SuccessReply(upstream.description)
    ensures Prepare(url).Fetch? && upstream.Threw? ==> r == ErrorReply(upstream.error)
    ensures r.body.Description? ==> r.status == 200 && upstream == Answered(Some(r.body.text)) && r.body.text != ""
    ensures r.body.Error? ==> r.body.message != ""
  {
    match Prepare(url)
    case Done(reply) => reply
    case Fetch(_) =>
      match upstream
      case Answered(description) => SuccessReply(description)
      case Threw(error) => ErrorReply(error)
  }

  /** axios rejects every status outside 200-299 and resolves the others, so a rejection never carries a 2xx status. */
  predicate AxiosOutcome(upstream: Upstream) {
    upstream.Threw? && upstream.error.HttpError? ==> !(200 <= upstream.error.status < 300)
  }

  /** A missing or empty `url` is a 400 "No URL provided", whatever else the body holds and whatever upstream would say. */
  lemma MissingUrlIsBadRequest(url: UrlField, upstream: Upstream)
    requires IsFalsyUrl(url)
    ensures HandleFetchJob(url, upstream) == Reply(400, Error(NoUrlMessage))
  {
  }

  /** A string URL matching neither pattern is a 400 "Invalid LinkedIn job URL". */
  lemma UnrecognisedUrlIsBadRequest(text: string, upstream: Upstream)
    requires text != ""
    requires forall i: nat, c: string :: !IsCapture(text, ViewPrefix, i, c) && !IsCapture(text, QueryKey, i, c)
    ensures HandleFetchJob(Str(text), upstream) == Reply(400, Error(InvalidUrlMessage))
  {
    CaptureNoneIffNoMatch(text, ViewPrefix);
    CaptureNoneIffNoMatch(text, QueryKey);
  }

  /** When the handler replies before fetching, the upstream outcome has no influence: the upstream is never consulted. */
  lemma RejectionIgnoresUpstream(url: UrlField, upstream1: Upstream, upstream2: Upstream)
    requires Prepare(url).Done?
    ensures HandleFetchJob(url, upstream1) == HandleFetchJob(url, upstream2)
  {
  }

  /** The handler fetches exactly the canonical URL of the extracted job ID. */
  lemma FetchesCanonicalUrl(text: string, jobId: string)
    requires text != "" && ExtractJobId(text) == Some(jobId)
    ensures Prepare(Str(text)) == Fetch(CanonicalUrl(jobId))
  {
  }

  /**
   * A description is relayed, verbatim and with status 200, exactly when the
   * URL yields a job ID and the upstream answered with a non-empty description.
   */
  lemma DescriptionRelayedIff(url: UrlField, upstream: Upstream, text: string)
    ensures HandleFetchJob(url, upstream) == Reply(200, Description(text)) <==>
      url.Str? && ExtractJobId(url.text).Some? && upstream == Answered(Some(text)) && text != ""
  {
  }

  /** Given that axios rejects every non-2xx status, status 200 occurs exactly when a description is relayed. */
  lemma SuccessStatusIffDescription(url: UrlField, upstream: Upstream)
    requires AxiosOutcome(upstream)
    ensures HandleFetchJob(url, upstream).status == 200 <==> HandleFetchJob(url, upstream).body.Description?
  {
  }

  /** An upstream error response sets the reply's status to the upstream status. */
  lemma UpstreamStatusPassedThrough(text: string, status: nat, dataMessage: Option<string>)
    requires text != "" && ExtractJobId(text).Some?
    ensures HandleFetchJob(Str(text), Threw(HttpError(status, dataMessage))).status == status
  {
  }

  /** Without an upstream response the status is always 500: network errors, timeouts and the non-string `url`. */
  lemma NoResponseIsInternalError(url: UrlField, upstream: Upstream)
    requires url.NonString? || (Prepare(url).Fetch? && upstream.Threw? && upstream.error.NoResponse?)
    ensures HandleFetchJob(url, upstream).status == 500
  {
  }
}
