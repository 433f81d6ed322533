/**
 * The error values of pkg/types/error.go: provider errors (the only implementation of
 * the AIError interface in the library), validation errors, their message formats, and
 * the helpers that classify an arbitrary Go `error`.
 */
module Errors {
  import opened Wrappers
  import opened Common

  type ErrorType = string

  const ErrorTypeInvalidRequest: ErrorType := "invalid_request_error"
  const ErrorTypeAuthentication: ErrorType := "authentication_error"
  const ErrorTypePermission: ErrorType := "permission_error"
  const ErrorTypeNotFound: ErrorType := "not_found_error"
  const ErrorTypeRateLimit: ErrorType := "rate_limit_error"
  const ErrorTypeQuotaExceeded: ErrorType := "quota_exceeded_error"
  const ErrorTypeServer: ErrorType := "server_error"
  const ErrorTypeTimeout: ErrorType := "timeout_error"
  const ErrorTypeContentFilter: ErrorType := "content_filter_error"
  const ErrorTypeValidation: ErrorType := "validation_error"
  const ErrorTypeUnknown: ErrorType := "unknown_error"

  /** ErrorType.String: the underlying string. */
  function ErrorTypeString(e: ErrorType): (s: string)
    ensures s == e
  {
    e
  }

  /** True when `prefix` is an initial segment of `s`. */
  predicate HasPrefix(s: string, prefix: string) {
    |prefix| <= |s| && s[..|prefix|] == prefix
  }

  /** What the methods of the AIError interface report: Type, Code, StatusCode, Provider and Retryable. */
  datatype AIErrorView = AIErrorView(
    errorType: ErrorType,
    code: string,
    statusCode: int,
    provider: Provider,
    retryable: bool)

  /**
   * A Go `error` value.  `AIErr` is the library's own AIError implementation.  `OtherAIErr`
   * is any other type implementing AIError (a caller's own, say): it is known only through
   * what its methods report and its Error() text.  `ValidationErr` is a validation error, and
   * `PlainError` stands for every error that is not an AIError (a stream error, a context
   * error, ...) and keeps only its message.
   */
  datatype Error =
    | AIErr(provider: ProviderError)
    | OtherAIErr(view: AIErrorView, text: string)
    | ValidationErr(validation: ValidationError)
    | PlainError(text: string)

  datatype ProviderError = ProviderError(
    errorType: ErrorType,
    message: string,
    errorCode: string,
    param: string,
    httpStatus: int,
    providerName: Provider,
    isRetryable: bool,
    innerError: Option<Error>)
  {
    /** The message prefix shared by both formats: "type: message". */
    function Headline(): string {
      errorType + ": " + message
    }

    /**
     * ProviderError.Error: "type: message", followed by " (code: X)" exactly when
     * the code X is non-empty.
     */
    function Error(): (s: string)
      ensures HasPrefix(s, Headline())
      ensures s == Headline() <==> errorCode == ""
      ensures errorCode != "" ==> s[|Headline()|..] == " (code: " + errorCode + ")"
    {
      if errorCode != "" then Headline() + " (code: " + errorCode + ")" else Headline()
    }

    function Type(): ErrorType { errorType }
    function Code(): string { errorCode }
    function StatusCode(): int { httpStatus }
    function Provider(): Provider { providerName }
    function Retryable(): bool { isRetryable }
    function Unwrap(): Option<Error> { innerError }

    /** What this error's AIError methods report. */
    function View(): (v: AIErrorView)
      ensures v.errorType == errorType && v.code == errorCode && v.statusCode == httpStatus
      ensures v.provider == providerName && v.retryable == isRetryable
    {
      AIErrorView(Type(), Code(), StatusCode(), Provider(), Retryable())
    }
  }

  /** NewProviderError: type and message set, every other field at its zero value. */
  function NewProviderError(errType: ErrorType, message: string): (e: ProviderError)
    ensures e.Type() == errType && e.message == message
    ensures e.Code() == "" && e.StatusCode() == 0 && e.Provider() == "" && !e.Retryable()
    ensures e.param == "" && e.Unwrap() == None
  {
    ProviderError(errType, message, "", "", 0, "", false, None)
  }

  /** NewProviderErrorWithCode: as NewProviderError, with the code set as well. */
  function NewProviderErrorWithCode(errType: ErrorType, message: string, code: string): (e: ProviderError)
    ensures e == NewProviderError(errType, message).(errorCode := code)
  {
    ProviderError(errType, message, code, "", 0, "", false, None)
  }

  /** Each accessor returns its field unchanged. */
  lemma AccessorsReturnFields(e: ProviderError)
    ensures e.Type() == e.errorType && e.Code() == e.errorCode && e.StatusCode() == e.httpStatus
    ensures e.Provider() == e.providerName && e.Retryable() == e.isRetryable && e.Unwrap() == e.innerError
  {
  }

  /** The accessors of a constructed provider error return what was put in. */
  lemma ProviderErrorAccessors(errType: ErrorType, message: string, code: string)
    ensures NewProviderErrorWithCode(errType, message, code).Type() == errType
    ensures NewProviderErrorWithCode(errType, message, code).Code() == code
    ensures NewProviderErrorWithCode(errType, message, code).Error()
            == if code == "" then errType + ": " + message
               else errType + ": " + message + " (code: " + code + ")"
  {
  }

  /**
   * The two formats can produce the same text: a code-less error whose message already
   * ends in " (code: c)" prints like an error with code c, so the code cannot be
   * recovered from Error().
   */
  lemma ProviderErrorTextIsAmbiguous(errType: ErrorType, message: string, code: string)
    requires code != ""
    ensures NewProviderError(errType, message + " (code: " + code + ")").Error()
            == NewProviderErrorWithCode(errType, message, code).Error()
    ensures NewProviderError(errType, message + " (code: " + code + ")") != NewProviderErrorWithCode(errType, message, code)
  {
    var longer := message + " (code: " + code + ")";
    assert errType + ": " + longer == errType + ": " + message + " (code: " + code + ")";
    assert |longer| != |message|;
  }

  datatype ValidationError = ValidationError(field: string, message: string) {

    /**
     * ValidationError.Error: the field is named, in single quotes, exactly when it is
     * non-empty; the message always ends the text.
     */
    function Error(): (s: string)
      ensures field != "" <==> HasPrefix(s, "validation error on field '")
      ensures field != "" ==> s == "validation error on field '" + field + "': " + message
      ensures field == "" ==> s == "validation error: " + message
    {
      if field != "" then "validation error on field '" + field + "': " + message
      else
        var s := "validation error: " + message;
        assert s[16] == ':' && "validation error on field '"[16] == ' ';
        s
    }
  }

  /** NewValidationError. */
  function NewValidationError(field: string, message: string): (e: ValidationError)
    ensures e.field == field && e.message == message
  {
    ValidationError(field, message)
  }

  /**
   * err.Error() for every implementation.  The text of a provider error starts with its
   * "type: message" headline, and that of a validation error with "validation error".
   */
  function ErrorText(e: Error): (s: string)
    ensures e.AIErr? ==> s == e.provider.Error() && HasPrefix(s, e.provider.Headline())
    ensures e.ValidationErr? ==> s == e.validation.Error() && HasPrefix(s, "validation error")
    ensures e.OtherAIErr? || e.PlainError? ==> s == e.text
  {
    match e
    case AIErr(p) => p.Error()
    case OtherAIErr(_, t) => t
    case ValidationErr(v) =>
      var t := v.Error();
      assert t[..|"validation error"|] == "validation error";
      t
    case PlainError(t) => t
  }

  /**
   * The `err.(AIError)` type assertion: what the AIError methods of `err` report, if `err`
   * implements AIError; nil does not.
   */
  function AsAIError(err: Option<Error>): (r: Option<AIErrorView>)
    ensures r.Some? <==> err.Some? && (err.value.AIErr? || err.value.OtherAIErr?)
    ensures err.Some? && err.value.AIErr? ==>
              r.value.errorType == err.value.provider.Type() && r.value.code == err.value.provider.Code() &&
              r.value.statusCode == err.value.provider.StatusCode() &&
              r.value.provider == err.value.provider.Provider() && r.value.retryable == err.value.provider.Retryable()
    ensures err.Some? && err.value.OtherAIErr? ==> r.value == err.value.view
  {
    match err
    case Some(AIErr(p)) => Some(p.View())
    case Some(OtherAIErr(v, _)) => Some(v)
    case _ => None
  }

  /** IsRateLimitError: an AIError whose Type() is rate_limit_error. */
  function IsRateLimitError(err: Option<Error>): (b: bool)
    ensures b <==> AsAIError(err).Some? && AsAIError(err).value.errorType == ErrorTypeRateLimit
    ensures err.Some? && err.value.AIErr? ==> (b <==> err.value.provider.Type() == ErrorTypeRateLimit)
  {
    match AsAIError(err)
    case Some(a) => a.errorType == ErrorTypeRateLimit
    case None => false
  }

  /** IsAuthError: an AIError whose Type() is authentication_error. */
  function IsAuthError(err: Option<Error>): (b: bool)
    ensures b <==> AsAIError(err).Some? && AsAIError(err).value.errorType == ErrorTypeAuthentication
    ensures err.Some? && err.value.AIErr? ==> (b <==> err.value.provider.Type() == ErrorTypeAuthentication)
  {
    match AsAIError(err)
    case Some(a) => a.errorType == ErrorTypeAuthentication
    case None => false
  }

  /** IsInvalidRequestError: an AIError whose Type() is invalid_request_error. */
  function IsInvalidRequestError(err: Option<Error>): (b: bool)
    ensures b <==> AsAIError(err).Some? && AsAIError(err).value.errorType == ErrorTypeInvalidRequest
    ensures err.Some? && err.value.AIErr? ==> (b <==> err.value.provider.Type() == ErrorTypeInvalidRequest)
  {
    match AsAIError(err)
    case Some(a) => a.errorType == ErrorTypeInvalidRequest
    case None => false
  }

  /** IsServerError: an AIError whose Type() is server_error. */
  function IsServerError(err: Option<Error>): (b: bool)
    ensures b <==> AsAIError(err).Some? && AsAIError(err).value.errorType == ErrorTypeServer
    ensures err.Some? && err.value.AIErr? ==> (b <==> err.value.provider.Type() == ErrorTypeServer)
  {
    match AsAIError(err)
    case Some(a) => a.errorType == ErrorTypeServer
    case None => false
  }

  /** IsTimeoutError: an AIError whose Type() is timeout_error. */
  function IsTimeoutError(err: Option<Error>): (b: bool)
    ensures b <==> AsAIError(err).Some? && AsAIError(err).value.errorType == ErrorTypeTimeout
    ensures err.Some? && err.value.AIErr? ==> (b <==> err.value.provider.Type() == ErrorTypeTimeout)
  {
    match AsAIError(err)
    case Some(a) => a.errorType == ErrorTypeTimeout
    case None => false
  }

  /** IsRetryable: the Retryable() of an AIError; false for nil and for every other error. */
  function IsRetryable(err: Option<Error>): (b: bool)
    ensures b <==> AsAIError(err).Some? && AsAIError(err).value.retryable
    ensures err.Some? && err.value.AIErr? ==> (b <==> err.value.provider.Retryable())
    ensures err.Some? && (err.value.ValidationErr? || err.value.PlainError?) ==> !b
  {
    match AsAIError(err)
    case Some(a) => a.retryable
    case None => false
  }

  /** Any AIError implementation is classified by what its methods report, not by its type. */
  lemma OtherAIErrorsAreClassified(view: AIErrorView, text: string)
    ensures IsRateLimitError(Some(OtherAIErr(view, text))) <==> view.errorType == ErrorTypeRateLimit
    ensures IsTimeoutError(Some(OtherAIErr(view, text))) <==> view.errorType == ErrorTypeTimeout
    ensures IsRetryable(Some(OtherAIErr(view, text))) == view.retryable
  {
  }

  /** Number of classification predicates that hold of `err`. */
  function KindCount(err: Option<Error>): nat {
    (if IsRateLimitError(err) then 1 else 0) + (if IsAuthError(err) then 1 else 0)
    + (if IsInvalidRequestError(err) then 1 else 0) + (if IsServerError(err) then 1 else 0)
    + (if IsTimeoutError(err) then 1 else 0)
  }

  /** The classification predicates are mutually exclusive; none holds for a non-AIError. */
  lemma AtMostOneKind(err: Option<Error>)
    ensures KindCount(err) <= 1
    ensures AsAIError(err).None? ==> KindCount(err) == 0
  {
  }
}
