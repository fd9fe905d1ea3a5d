/** The API's error classes and `handleError`, which turns anything thrown by a handler
    into a status code and a JSON error body. */
module ApiErrors {
  import opened Wrappers
  import opened Text

  /** An `ApiError`: the status, message, optional code and optional details it was
      constructed with. Details are kept as text; `None` is an absent or falsy value. */
  datatype ApiError = ApiError(statusCode: int, message: string, code: Option<string>, details: Option<string>)

  /** What a handler can throw: one of the API errors, a validation error carrying
      `issues`, another `Error` (its name, falling back to the constructor's name, and its
      message), or any other value. */
  datatype Thrown =
    | Api(e: ApiError)
    | Issues(issues: seq<string>)
    | PlainError(name: string, constructorName: Option<string>, message: string)
    | Other

  function ValidationError(message: string, details: Option<string>): (r: ApiError)
    ensures r.statusCode == 400 && r.message == message && r.code == Some("VALIDATION_ERROR")
    ensures r.details == details
  {
    ApiError(400, message, Some("VALIDATION_ERROR"), details)
  }

  /** `AuthenticationError`; the default message is 'Authentication required'. */
  function AuthenticationError(message: Option<string>): (r: ApiError)
    ensures r.statusCode == 401 && r.code == Some("AUTHENTICATION_ERROR") && r.details.None?
    ensures r.message == message.GetOr("Authentication required")
  {
    ApiError(401, message.GetOr("Authentication required"), Some("AUTHENTICATION_ERROR"), None)
  }

  function ForbiddenError(message: Option<string>): (r: ApiError)
    ensures r.statusCode == 403 && r.code == Some("FORBIDDEN_ERROR") && r.details.None?
    ensures r.message == message.GetOr("Access denied")
  {
    ApiError(403, message.GetOr("Access denied"), Some("FORBIDDEN_ERROR"), None)
  }

  function NotFoundError(message: Option<string>): (r: ApiError)
    ensures r.statusCode == 404 && r.code == Some("NOT_FOUND_ERROR") && r.details.None?
    ensures r.message == message.GetOr("Resource not found")
  {
    ApiError(404, message.GetOr("Resource not found"), Some("NOT_FOUND_ERROR"), None)
  }

  function AIGenerationError(message: string, details: Option<string>): (r: ApiError)
    ensures r.statusCode == 502 && r.message == message && r.code == Some("AI_GENERATION_ERROR")
    ensures r.details == details
  {
    ApiError(502, message, Some("AI_GENERATION_ERROR"), details)
  }

  /** The `details` member of a response body: a text, or the issue list. */
  datatype Details = TextDetails(text: string) | IssueDetails(issues: seq<string>)

  /** The response: status and the `error` object's message, code and details. */
  datatype Response = Response(status: int, message: string, code: Option<string>, details: Option<Details>)

  /** The name `handleError` tests: `error.name || error.constructor?.name || ''`. */
  function ErrorName(name: string, constructorName: Option<string>): (r: string)
    ensures name != "" ==> r == name
    ensures name == "" && constructorName.Some? ==> r == constructorName.value
    ensures name == "" && constructorName.None? ==> r == ""
  {
    if name != "" then name else constructorName.GetOr("")
  }

  /** An `Error` counts as an AI failure when its name mentions Anthropic, LangChain or
      LLM, or its message mentions Anthropic. */
  function IsAIGenerationRelated(name: string, message: string): (r: bool)
    ensures r <==> (OccursIn("Anthropic", name) || OccursIn("LangChain", name)
                    || OccursIn("LLM", name) || OccursIn("Anthropic", message))
  {
    ContainsIffOccurs(name, "Anthropic");
    ContainsIffOccurs(name, "LangChain");
    ContainsIffOccurs(name, "LLM");
    ContainsIffOccurs(message, "Anthropic");
    Contains(name, "Anthropic") || Contains(name, "LangChain") || Contains(name, "LLM")
    || Contains(message, "Anthropic")
  }

  /** `handleError`. An API error answers with its own status, message and code, and its
      details outside production when they are present; an error with `issues` is a 400
      'Validation failed'; an AI failure is a 502 'AI service error' with the original
      message as details outside production; anything else is a 500 'Internal server
      error'. */
  function HandleError(error: Thrown, production: bool): (r: Response)
    ensures error.Api? ==>
      r.status == error.e.statusCode && r.message == error.e.message && r.code == error.e.code
    ensures error.Api? ==>
      (r.details.Some? <==> !production && error.e.details.Some?)
    ensures error.Issues? ==>
      r == Response(400, "Validation failed", Some("VALIDATION_ERROR"), Some(IssueDetails(error.issues)))
    ensures error.PlainError? ==>
      (r.status == 502 <==> IsAIGenerationRelated(ErrorName(error.name, error.constructorName), error.message))
    ensures error.PlainError? && r.status == 502 ==>
      r.message == "AI service error" && r.code == Some("AI_GENERATION_ERROR")
      && (r.details.Some? <==> !production)
      && (r.details.Some? ==> r.details.value == TextDetails(error.message))
    ensures !error.Api? ==> (r.status == 500 <==>
      error.Other? || (error.PlainError? &&
        !IsAIGenerationRelated(ErrorName(error.name, error.constructorName), error.message)))
    ensures !error.Api? && r.status == 500 ==> r == Response(500, "Internal server error", Some("INTERNAL_ERROR"), None)
  {
    match error
    case Api(e) =>
      var details := if !production && e.details.Some? then Some(TextDetails(e.details.value)) else None;
      Response(e.statusCode, e.message, e.code, details)
    case Issues(issues) =>
      Response(400, "Validation failed", Some("VALIDATION_ERROR"), Some(IssueDetails(issues)))
    case PlainError(name, constructorName, message) =>
      if IsAIGenerationRelated(ErrorName(name, constructorName), message) then
        Response(502, "AI service error", Some("AI_GENERATION_ERROR"),
                 if production then None else Some(TextDetails(message)))
      else InternalError
    case Other => InternalError
  }

  const InternalError := Response(500, "Internal server error", Some("INTERNAL_ERROR"), None)

  /** Each error class answers with its own status and code, whatever the environment:
      the class hierarchy and the response agree. */
  lemma ClassStatuses(m: string, o: Option<string>, d: Option<string>, production: bool)
    ensures HandleError(Api(ValidationError(m, d)), production).status == 400
    ensures HandleError(Api(AuthenticationError(o)), production).status == 401
    ensures HandleError(Api(ForbiddenError(o)), production).status == 403
    ensures HandleError(Api(NotFoundError(o)), production).status == 404
    ensures HandleError(Api(AIGenerationError(m, d)), production).status == 502
    ensures HandleError(Api(AuthenticationError(o)), production).details.None?
  {
  }

  /** Production responses never carry an `Error`'s details; only the issue list of a
      validation failure is sent. */
  lemma ProductionHidesDetails(error: Thrown)
    ensures HandleError(error, true).details.Some? ==> error.Issues?
  {
  }

  /** An AI-generation error thrown by the API and an SDK error whose name mentions
      Anthropic reach the client with the same status and code, and a thrown
      `AIGenerationError` keeps its own message. */
  lemma AIFailuresAgree(m: string, d: Option<string>, name: string, message: string, production: bool)
    requires Contains(name, "Anthropic")
    ensures var a := HandleError(Api(AIGenerationError(m, d)), production);
      var b := HandleError(PlainError(name, None, message), production);
      a.status == b.status == 502 && a.code == b.code && a.message == m
  {
  }
}
