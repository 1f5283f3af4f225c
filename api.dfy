/** The pure decisions of `generateImage` (src/services/api.ts): the request
    body with its defaults, and the message of the error thrown for a
    response that is not ok. The HTTP exchange itself is external: its
    outcome is the parameter `reply`. */
module Api {
  import opened Wrappers
  import opened Text

  /** `GenerateImageParams`: the prompt and three optional parameters. */
  datatype GenerateImageParams = GenerateImageParams(
    prompt: string,
    negativePrompt: Option<string>,
    numInferenceSteps: Option<int>,
    guidanceScale: Option<real>)

  datatype RequestParameters = RequestParameters(negativePrompt: string, numInferenceSteps: int, guidanceScale: real)

  /** The JSON body posted to the inference endpoint. */
  datatype RequestBody = RequestBody(inputs: string, parameters: RequestParameters)

  const DefaultSteps: int := 50
  const DefaultGuidanceScale: real := 7.5

  /** JavaScript `value || fallback` on an optional string: an absent value
      and the empty string are falsy. */
  function OrString(value: Option<string>, fallback: string): (r: string)
    ensures value.Some? && value.value != "" ==> r == value.value
    ensures value.None? || value.value == "" ==> r == fallback
  {
    if value.Some? && value.value != "" then value.value else fallback
  }

  /** JavaScript `value || fallback` on an optional integer: an absent value
      and 0 are falsy. */
  function OrInt(value: Option<int>, fallback: int): (r: int)
    ensures value.Some? && value.value != 0 ==> r == value.value
    ensures value.None? || value.value == 0 ==> r == fallback
  {
    if value.Some? && value.value != 0 then value.value else fallback
  }

  /** JavaScript `value || fallback` on an optional number: an absent value
      and 0 are falsy. */
  function OrReal(value: Option<real>, fallback: real): (r: real)
    ensures value.Some? && value.value != 0.0 ==> r == value.value
    ensures value.None? || value.value == 0.0 ==> r == fallback
  {
    if value.Some? && value.value != 0.0 then value.value else fallback
  }

  /** The body `generateImage` posts for `p`. */
  function BuildRequestBody(p: GenerateImageParams): (body: RequestBody)
    ensures body.inputs == p.prompt
  {
    RequestBody(p.prompt, RequestParameters(
      OrString(p.negativePrompt, ""),
      OrInt(p.numInferenceSteps, DefaultSteps),
      OrReal(p.guidanceScale, DefaultGuidanceScale)))
  }

  /** With an empty-string fallback, `||` is the same as taking the value
      when there is one: the negative prompt is passed as given, or "" when
      absent. */
  lemma NegativePromptDefault(p: GenerateImageParams)
    ensures BuildRequestBody(p).parameters.negativePrompt == p.negativePrompt.GetOr("")
  {
  }

  /** The step count is 50 when absent or 0, and passed as given otherwise. */
  lemma StepsDefault(p: GenerateImageParams)
    ensures BuildRequestBody(p).parameters.numInferenceSteps ==
      if p.numInferenceSteps.Some? && p.numInferenceSteps.value != 0 then p.numInferenceSteps.value else 50
    ensures BuildRequestBody(p).parameters.numInferenceSteps != 0
  {
  }

  /** The guidance scale is 7.5 when absent or 0, and passed as given
      otherwise. */
  lemma GuidanceScaleDefault(p: GenerateImageParams)
    ensures BuildRequestBody(p).parameters.guidanceScale ==
      if p.guidanceScale.Some? && p.guidanceScale.value != 0.0 then p.guidanceScale.value else 7.5
  {
  }

  /** The JSON body of a response that is not ok: it may fail to parse, and
      its `error` field may be missing. */
  datatype ErrorBody = Unparsable | Parsed(error: Option<string>)

  /** What the HTTP exchange produced: an ok response whose image blob got
      the object URL `objectUrl`, a response that is not ok, or a rejection
      (network failure, unreadable blob) with its message. */
  datatype HttpReply =
    | Ok(objectUrl: string)
    | NotOk(status: nat, body: ErrorBody)
    | Rejected(message: string)

  const LoadingMessage := "Model is loading, please try again in a moment."
  const UnsupportedMessage := "This model is not supported by the Hugging Face API. Please contact support."
  const StatusPrefix := "API request failed with status "

  /** The message for an error body without a usable `error` field. */
  function StatusMessage(status: nat): (m: string)
    ensures m == StatusPrefix + NatToString(status)
    ensures |m| > |StatusPrefix| && m[..|StatusPrefix|] == StatusPrefix
    ensures AllDigits(m[|StatusPrefix|..]) && DigitsValue(m[|StatusPrefix|..]) == status
  {
    var digits := NatToString(status);
    NatToStringRoundTrip(status);
    assert (StatusPrefix + digits)[|StatusPrefix|..] == digits;
    StatusPrefix + digits
  }

  /** The message of the error thrown for a response that is not ok: it
      starts as the status message and is replaced when the body parses and
      has a non-empty `error`: a model-loading error takes precedence over an
      unsupported-model error, and any other error text is used as it is. */
  method SelectErrorMessage(status: nat, body: ErrorBody) returns (errorMessage: string)
    ensures errorMessage == ErrorMessage(status, body)
  {
    errorMessage := StatusMessage(status);
    if body.Parsed? {
      var error := body.error;
      if error.Some? && error.value != "" {
        if Contains(error.value, "currently loading") {
          errorMessage := LoadingMessage;
        } else if Contains(error.value, "is not supported") {
          errorMessage := UnsupportedMessage;
        } else {
          errorMessage := error.value;
        }
      }
    }
  }

  /** The error text the server sent, when the body parsed and it is
      non-empty (a truthy `errorData.error`). */
  function ErrorText(body: ErrorBody): (t: Option<string>)
    ensures t.Some? ==> t.value != "" && body == Parsed(Some(t.value))
    ensures body.Parsed? && body.error.Some? && body.error.value != "" ==> t.Some?
  {
    if body.Parsed? && body.error.Some? && body.error.value != "" then body.error else None
  }

  /** The error message `SelectErrorMessage` settles on. It is never empty,
      and it is the status message whenever there is no error text. */
  function ErrorMessage(status: nat, body: ErrorBody): (m: string)
    ensures m != ""
    ensures ErrorText(body).None? ==> m == StatusMessage(status)
  {
    match ErrorText(body)
    case None => StatusMessage(status)
    case Some(e) =>
      if Contains(e, "currently loading") then LoadingMessage
      else if Contains(e, "is not supported") then UnsupportedMessage
      else e
  }

  /** An error mentioning a loading model gets the loading message, even
      when it also says the model is not supported. */
  lemma LoadingTakesPrecedence(status: nat, pre: string, post: string)
    ensures ErrorMessage(status, Parsed(Some(pre + "currently loading" + post))) == LoadingMessage
  {
    ContainsInfix(pre, "currently loading", post);
  }

  /** An error saying the model is not supported, and not mentioning a
      loading model, gets the unsupported-model message. */
  lemma UnsupportedMessageFor(status: nat, pre: string, post: string)
    requires !Contains(pre + "is not supported" + post, "currently loading")
    ensures ErrorMessage(status, Parsed(Some(pre + "is not supported" + post))) == UnsupportedMessage
  {
    ContainsInfix(pre, "is not supported", post);
  }

  /** Any other non-empty error text becomes the message as it is. */
  lemma OtherErrorVerbatim(status: nat, e: string)
    requires e != "" && !Contains(e, "currently loading") && !Contains(e, "is not supported")
    ensures ErrorMessage(status, Parsed(Some(e))) == e
  {
  }

  /** A missing or empty `error` field, or a body that does not parse, gives
      the status message. */
  lemma NoErrorTextGivesStatus(status: nat)
    ensures ErrorMessage(status, Unparsable) == StatusMessage(status)
    ensures ErrorMessage(status, Parsed(None)) == StatusMessage(status)
    ensures ErrorMessage(status, Parsed(Some(""))) == StatusMessage(status)
  {
  }

  /** The status of the response can be read back from the message whenever
      the body gives no error text. */
  lemma StatusRecoverable(status: nat, body: ErrorBody)
    requires ErrorText(body).None?
    ensures var m := ErrorMessage(status, body);
      && |m| > |StatusPrefix| && m[..|StatusPrefix|] == StatusPrefix
      && AllDigits(m[|StatusPrefix|..]) && DigitsValue(m[|StatusPrefix|..]) == status
  {
  }

  /** One call of `generateImage`: the JSON body it posted and what it
      settled with, an object URL or the message of the error it threw. */
  datatype Exchange = Exchange(posted: RequestBody, outcome: Result<string, string>)

  /** `generateImage(p)`, given what the HTTP exchange produced: it posts
      `BuildRequestBody(p)`, and settles with the object URL when the
      response is ok, otherwise with the error it throws. */
  function GenerateImage(p: GenerateImageParams, reply: HttpReply): (r: Exchange)
    ensures r.posted == BuildRequestBody(p)
    ensures r.posted.inputs == p.prompt && r.posted.parameters.negativePrompt == p.negativePrompt.GetOr("")
    ensures r.outcome.Success? <==> reply.Ok?
    ensures reply.Ok? ==> r.outcome.value == reply.objectUrl
    ensures reply.NotOk? ==> r.outcome.error == ErrorMessage(reply.status, reply.body)
    ensures reply.Rejected? ==> r.outcome.error == reply.message
  {
    var body := BuildRequestBody(p);
    NegativePromptDefault(p);
    match reply
    case Ok(url) => Exchange(body, Success(url))
    case NotOk(status, errorBody) => Exchange(body, Failure(ErrorMessage(status, errorBody)))
    case Rejected(message) => Exchange(body, Failure(message))
  }
}
