/**
 * The older application error of `ResumeTech.Common.Exceptions`. It adds a closed error
 * classification, always defaults the status code to 500, and chooses the fallback user
 * message when the error is constructed rather than when it is projected.
 */
module NummiErrors {
  import opened Wrappers
  import opened Faults
  import opened Collections

  /** `HttpStatusCode.InternalServerError`. */
  const InternalServerError: int := 500

  /** The user message a constructed error falls back on when it has no sub-errors. */
  const SupportMessage: string := "A system error has occurred. Please contact support@nummi.io for Technical Support"

  /** The closed classification of an error; `General` is the enum's default value. */
  datatype AppErrorType = General | AuthenticationFailed | ValidationFailed
  {
    /** `Enum.GetName`: the member's name as written. */
    function Name(): (s: string)
      ensures s != []
    {
      match this
      case General => "General"
      case AuthenticationFailed => "AuthenticationFailed"
      case ValidationFailed => "ValidationFailed"
    }
  }

  /** Distinct classifications have distinct names, so the DTO identifies the classification. */
  lemma NameInjective(a: AppErrorType, b: AppErrorType)
    requires a.Name() == b.Name()
    ensures a == b
  {
  }

  /** The kinds of field-level complaint callers speak of; nothing in the model depends on them. */
  datatype AppSubErrorType = DataMissing | DataInvalid

  /** One invalid or missing field: where it is and what is wrong with it. */
  datatype AppSubError = AppSubError(path: string, message: string)

  /** The wire form of a sub-error; `None` is a key left out of the JSON. */
  datatype AppSubErrorDto = AppSubErrorDto(path: Option<string>, message: Option<string>)

  /** The wire form of an error; `None` is a key left out of the JSON. */
  datatype AppErrorDto = AppErrorDto(
    causedBy: Option<string>,
    errorType: Option<string>,
    userMessage: Option<string>,
    developerMessage: Option<string>,
    subErrors: Option<seq<AppSubErrorDto>>,
    traceId: Option<string>)

  /** An `AppError` wrapped for throwing. */
  datatype AppException = AppException(error: AppError)

  /** An error value, as its constructor leaves it (see `Create`). */
  datatype AppError = AppError(
    causedBy: Option<Cause>,
    errorType: AppErrorType,
    statusCode: int,
    userMessage: Option<string>,
    developerMessage: Option<string>,
    subErrors: seq<AppSubError>)
  {
    /**
     * The status code lies in the 4xx range: its hundreds digit is 4. A 400 is a user error;
     * a 500, and the 0 of a builder whose status code was never set, are not.
     */
    predicate IsUserError(): (b: bool)
      ensures b <==> statusCode / 100 == 4
      ensures statusCode == 400 ==> b
      ensures statusCode == InternalServerError || statusCode == 0 ==> !b
    {
      400 <= statusCode <= 499
    }

    /**
     * The DTO sent to a client under `traceId`: the classification by name, the stored user
     * message as it is, and the cause's type name and developer message only with dev info.
     */
    function ToDto(traceId: string, includeDevInfo: bool): (d: AppErrorDto)
      ensures !includeDevInfo ==> d.causedBy.None? && d.developerMessage.None?
      ensures includeDevInfo ==> (d.causedBy.Some? <==> causedBy.Some?)
      ensures d.causedBy.Some? ==> causedBy.Some? && d.causedBy.value == causedBy.value.typeName
      ensures includeDevInfo ==> d.developerMessage == developerMessage
      ensures d.errorType == Some(errorType.Name())
      ensures d.userMessage == userMessage
      ensures d.subErrors.None? <==> subErrors == []
      ensures d.subErrors.Some? ==> |d.subErrors.value| == |subErrors|
      ensures d.subErrors.Some? ==> forall i :: 0 <= i < |subErrors| ==>
                d.subErrors.value[i].path == Some(subErrors[i].path) &&
                d.subErrors.value[i].message == Some(subErrors[i].message)
      ensures d.traceId == Some(traceId)
    {
      AppErrorDto(
        if includeDevInfo && causedBy.Some? then Some(causedBy.value.typeName) else None,
        Some(errorType.Name()),
        userMessage,
        if includeDevInfo then developerMessage else None,
        if |subErrors| == 0 then None else Some(SubErrorDtos(subErrors)),
        Some(traceId))
    }
  }

  /**
   * `new AppError(...)` with every argument optional (`None` is an omitted or null argument).
   * The classification defaults to `General` and the status code to 500; a missing user
   * message becomes the support message unless sub-errors were given; a missing developer
   * message becomes the cause's message.
   */
  function Create(
    causedBy: Option<Cause> := None,
    errorType: Option<AppErrorType> := None,
    statusCode: Option<int> := None,
    userMessage: Option<string> := None,
    developerMessage: Option<string> := None,
    subErrors: Option<seq<AppSubError>> := None): (e: AppError)
    ensures e.causedBy == causedBy
    ensures errorType.Some? ==> e.errorType == errorType.value
    ensures errorType.None? ==> e.errorType == General
    ensures statusCode.Some? ==> e.statusCode == statusCode.value
    ensures statusCode.None? ==> e.statusCode == InternalServerError
    ensures userMessage.Some? ==> e.userMessage == userMessage
    ensures userMessage.None? && subErrors.Some? && subErrors.value != [] ==> e.userMessage.None?
    ensures userMessage.None? && (subErrors.None? || subErrors.value == []) ==> e.userMessage == Some(SupportMessage)
    ensures developerMessage.Some? ==> e.developerMessage == developerMessage
    ensures developerMessage.None? && causedBy.Some? ==> e.developerMessage == Some(causedBy.value.message)
    ensures developerMessage.None? && causedBy.None? ==> e.developerMessage.None?
    ensures subErrors.Some? ==> e.subErrors == subErrors.value
    ensures subErrors.None? ==> e.subErrors == []
  {
    AppError(
      causedBy,
      if errorType.Some? then errorType.value else General,
      if statusCode.Some? then statusCode.value else InternalServerError,
      if userMessage.Some? then userMessage
      else if subErrors.Some? && |subErrors.value| > 0 then None
      else Some(SupportMessage),
      if developerMessage.Some? then developerMessage
      else if causedBy.Some? then Some(causedBy.value.message)
      else None,
      if subErrors.Some? then subErrors.value else [])
  }

  /** The `Select` of `ToDto`: each sub-error as a DTO, in the same order. */
  function SubErrorDtos(subErrors: seq<AppSubError>): (r: seq<AppSubErrorDto>)
    ensures |r| == |subErrors|
    ensures forall i :: 0 <= i < |subErrors| ==>
              r[i].path == Some(subErrors[i].path) && r[i].message == Some(subErrors[i].message)
  {
    if subErrors == [] then []
    else [AppSubErrorDto(Some(subErrors[0].path), Some(subErrors[0].message))] + SubErrorDtos(subErrors[1..])
  }

  /** Reads sub-errors back from their DTOs; `None` when a DTO lacks a path or a message. */
  function SubErrorsOfDtos(dtos: seq<AppSubErrorDto>): Option<seq<AppSubError>>
  {
    if dtos == [] then Some([])
    else if dtos[0].path.None? || dtos[0].message.None? then None
    else match SubErrorsOfDtos(dtos[1..])
      case None => None
      case Some(rest) => Some([AppSubError(dtos[0].path.value, dtos[0].message.value)] + rest)
  }

  /** Projecting sub-errors into DTOs loses nothing: reading them back gives the same list. */
  lemma {:induction false} SubErrorDtosRoundTrip(subErrors: seq<AppSubError>)
    ensures SubErrorsOfDtos(SubErrorDtos(subErrors)) == Some(subErrors)
  {
    if subErrors != [] {
      var dtos := SubErrorDtos(subErrors);
      SubErrorDtosRoundTrip(subErrors[1..]);
      assert dtos[1..] == SubErrorDtos(subErrors[1..]);
      assert subErrors == [AppSubError(dtos[0].path.value, dtos[0].message.value)] + subErrors[1..];
    }
  }

  /** The sub-errors of an error can be recovered from its DTO, with or without dev info. */
  lemma ToDtoKeepsSubErrors(e: AppError, traceId: string, includeDevInfo: bool)
    ensures var d := e.ToDto(traceId, includeDevInfo);
            if d.subErrors.None? then e.subErrors == [] else SubErrorsOfDtos(d.subErrors.value) == Some(e.subErrors)
  {
    if e.subErrors != [] {
      SubErrorDtosRoundTrip(e.subErrors);
    }
  }

  /** Without dev info the DTO does not depend on the cause, the developer message or the status code. */
  lemma ToDtoHidesDevInfo(e: AppError, f: AppError, traceId: string)
    requires e.errorType == f.errorType && e.userMessage == f.userMessage && e.subErrors == f.subErrors
    ensures e.ToDto(traceId, false) == f.ToDto(traceId, false)
  {
  }

  /**
   * For an error constructed without a user message, the DTO leaves the user message out
   * exactly when sub-errors were given; otherwise it shows the support message.
   */
  lemma DefaultUserMessageInDto(causedBy: Option<Cause>, errorType: Option<AppErrorType>, statusCode: Option<int>,
                                developerMessage: Option<string>, subErrors: Option<seq<AppSubError>>,
                                traceId: string, includeDevInfo: bool)
    ensures var d := Create(causedBy, errorType, statusCode, None, developerMessage, subErrors).ToDto(traceId, includeDevInfo);
            (d.userMessage.None? <==> d.subErrors.Some?) &&
            (d.userMessage.Some? ==> d.userMessage.value == SupportMessage)
  {
  }

  /** On direct construction without a status code, no error is a user error. */
  lemma DefaultStatusIsSystemError(causedBy: Option<Cause>, errorType: Option<AppErrorType>, userMessage: Option<string>,
                                   developerMessage: Option<string>, subErrors: Option<seq<AppSubError>>)
    ensures !Create(causedBy, errorType, None, userMessage, developerMessage, subErrors).IsUserError()
  {
  }

  /** An omitted sub-error list and an explicitly empty one give the same error. */
  lemma AbsentAndEmptySubErrorsAgree(causedBy: Option<Cause>, errorType: Option<AppErrorType>, statusCode: Option<int>,
                                     userMessage: Option<string>, developerMessage: Option<string>)
    ensures Create(causedBy, errorType, statusCode, userMessage, developerMessage, None) ==
            Create(causedBy, errorType, statusCode, userMessage, developerMessage, Some([]))
  {
  }

  /** `AppError.Builder(HttpStatusCode)`: a fresh builder with only the status code set. */
  method Builder(statusCode: int) returns (b: AppErrorBuilder)
    ensures fresh(b)
    ensures b.statusCode == statusCode && b.errorType == General
    ensures b.causedBy.None? && b.userMessage.None? && b.developerMessage.None? && b.subErrors.None?
  {
    b := new AppErrorBuilder();
    b := b.StatusCode(statusCode);
  }

  /** `AppError.Builder(AppErrorType)`: a fresh builder with only the classification set. */
  method BuilderForType(errorType: AppErrorType) returns (b: AppErrorBuilder)
    ensures fresh(b)
    ensures b.errorType == errorType && b.statusCode == 0
    ensures b.causedBy.None? && b.userMessage.None? && b.developerMessage.None? && b.subErrors.None?
  {
    b := new AppErrorBuilder();
    b := b.ErrorType(errorType);
  }

  /**
   * A mutable accumulator for an `AppError`. Each setter overwrites its field and returns the
   * builder itself; sub-errors go into a hash set that is created on first use.
   */
  class AppErrorBuilder {
    var causedBy: Option<Cause>
    /** A non-nullable `AppErrorType`: `General` until `ErrorType` is called. */
    var errorType: AppErrorType
    /** A non-nullable `HttpStatusCode`: 0 until `StatusCode` is called. */
    var statusCode: int
    var userMessage: Option<string>
    var developerMessage: Option<string>
    var subErrors: Option<set<AppSubError>>

    constructor()
      ensures causedBy.None? && errorType == General && statusCode == 0
      ensures userMessage.None? && developerMessage.None? && subErrors.None?
    {
      causedBy, errorType, statusCode := None, General, 0;
      userMessage, developerMessage, subErrors := None, None, None;
    }

    /** The sub-errors accumulated so far. */
    function Accumulated(): set<AppSubError>
      reads this
    {
      if subErrors.Some? then subErrors.value else {}
    }

    /**
     * `e` is what `Build` makes of the current state: the stored classification and status
     * code as they are (both are always passed), the user message defaulted to the support
     * message only when no sub-error was added, the developer message defaulted from the
     * cause, and the accumulated sub-errors listed once each.
     */
    ghost predicate Yields(e: AppError)
      reads this
    {
      e.causedBy == causedBy &&
      e.errorType == errorType &&
      e.statusCode == statusCode &&
      e.userMessage == (if userMessage.Some? then userMessage
                        else if Accumulated() != {} then None
                        else Some(SupportMessage)) &&
      e.developerMessage == (if developerMessage.Some? then developerMessage
                             else if causedBy.Some? then Some(causedBy.value.message)
                             else None) &&
      Distinct(e.subErrors) && Elements(e.subErrors) == Accumulated()
    }

    method CausedBy(exception: Cause) returns (b: AppErrorBuilder)
      modifies this`causedBy
      ensures b == this && causedBy == Some(exception)
    {
      causedBy := Some(exception);
      b := this;
    }

    method ErrorType(t: AppErrorType) returns (b: AppErrorBuilder)
      modifies this`errorType
      ensures b == this && errorType == t
    {
      errorType := t;
      b := this;
    }

    method StatusCode(code: int) returns (b: AppErrorBuilder)
      modifies this`statusCode
      ensures b == this && statusCode == code
    {
      statusCode := code;
      b := this;
    }

    method UserMessage(message: Option<string>) returns (b: AppErrorBuilder)
      modifies this`userMessage
      ensures b == this && userMessage == message
    {
      userMessage := message;
      b := this;
    }

    method DeveloperMessage(message: Option<string>) returns (b: AppErrorBuilder)
      modifies this`developerMessage
      ensures b == this && developerMessage == message
    {
      developerMessage := message;
      b := this;
    }

    /** `SubError(path, message)`: adds the pair; a pair already present is not added again. */
    method SubError(path: string, message: string) returns (b: AppErrorBuilder)
      modifies this`subErrors
      ensures b == this && subErrors == Some(old(Accumulated()) + {AppSubError(path, message)})
    {
      b := AddSubError(AppSubError(path, message));
    }

    /** `SubError(AppSubError)`: adds one sub-error to the set. */
    method AddSubError(subError: AppSubError) returns (b: AppErrorBuilder)
      modifies this`subErrors
      ensures b == this && subErrors == Some(old(Accumulated()) + {subError})
    {
      subErrors := Some(Accumulated() + {subError});
      b := this;
    }

    /** `SubErrors(IEnumerable)`: the set's `UnionWith` the given sub-errors. */
    method SubErrors(more: seq<AppSubError>) returns (b: AppErrorBuilder)
      modifies this`subErrors
      ensures b == this && subErrors == Some(old(Accumulated()) + Elements(more))
    {
      subErrors := Some(Accumulated() + set s | s in more);
      b := this;
    }

    /** Constructs the error, passing every stored field explicitly. */
    method Build() returns (e: AppError)
      ensures Yields(e)
    {
      var list: Option<seq<AppSubError>> := None;
      if subErrors.Some? {
        var xs := ToList(subErrors.value);
        list := Some(xs);
      }
      e := Create(causedBy, Some(errorType), Some(statusCode), userMessage, developerMessage, list);
      DistinctCardinality(e.subErrors);
    }

    /** `new AppException(Build())`. */
    method ToException() returns (x: AppException)
      ensures Yields(x.error)
    {
      var e := Build();
      x := AppException(e);
    }
  }

  /** `Builder(status).SubError(path, message).SubError(path, message).Build()` holds the pair once. */
  method BuildRepeatedSubError(status: int, path: string, message: string) returns (e: AppError)
    ensures e.statusCode == status && e.errorType == General
    ensures e.userMessage.None?
    ensures e.subErrors == [AppSubError(path, message)]
  {
    var b := Builder(status);
    b := b.SubError(path, message);
    b := b.SubError(path, message);
    e := b.Build();
    SingletonList(e.subErrors, AppSubError(path, message));
  }

  /** Two batches of sub-errors are merged as a set union; the built list repeats nothing. */
  method BuildSubErrorUnion(errorType: AppErrorType, first: seq<AppSubError>, second: seq<AppSubError>) returns (e: AppError)
    ensures Distinct(e.subErrors)
    ensures Elements(e.subErrors) == Elements(first) + Elements(second)
    ensures |e.subErrors| == |Elements(first) + Elements(second)|
  {
    var b := BuilderForType(errorType);
    b := b.SubErrors(first);
    b := b.SubErrors(second);
    e := b.Build();
    DistinctCardinality(e.subErrors);
  }

  /**
   * `Builder(errorType).Build()`: status code 0 rather than the 500 default, so not a user
   * error, and the support message as user message.
   */
  method BuildForType(errorType: AppErrorType) returns (e: AppError)
    ensures e.errorType == errorType
    ensures e.statusCode == 0 && !e.IsUserError()
    ensures e.userMessage == Some(SupportMessage)
    ensures e.subErrors == []
  {
    var b := BuilderForType(errorType);
    e := b.Build();
    DistinctCardinality(e.subErrors);
  }

  /** Setters overwrite: after two calls the builder holds the later values. */
  method BuildLastWriteWins(type1: AppErrorType, type2: AppErrorType, status1: int, status2: int) returns (e: AppError)
    ensures e.errorType == type2
    ensures e.statusCode == status2
  {
    var b := Builder(status1);
    b := b.ErrorType(type1);
    b := b.StatusCode(status2);
    b := b.ErrorType(type2);
    e := b.Build();
  }
}
