/**
 * The application error of `ResumeTech.Common.Error`: an error value whose constructor
 * derives defaults, its projection into the wire DTO, and the fluent builder
 * that accumulates sub-errors in a hash set.
 */
module AppErrors {
  import opened Wrappers
  import opened Faults
  import opened Collections

  /** `HttpStatusCode.BadRequest` and `HttpStatusCode.InternalServerError`. */
  const BadRequest: int := 400
  const InternalServerError: int := 500

  /** The display strings the projection falls back on. */
  const MultipleErrorsMessage: string := "Multiple errors occurred"
  const SupportMessage: string := "A system error has occurred. Please contact support@resumetech.io for Technical Support"

  /** The kinds of field-level complaint callers speak of; nothing in the model depends on them. */
  datatype AppSubErrorType = DataMissing | DataInvalid

  /** One invalid or missing field: where it is and what is wrong with it. */
  datatype AppSubError = AppSubError(path: string, message: string)

  /** The wire form of a sub-error; `None` is a key left out of the JSON. */
  datatype AppSubErrorDto = AppSubErrorDto(path: Option<string>, message: Option<string>)

  /** The wire form of an error; `None` is a key left out of the JSON. */
  datatype AppErrorDto = AppErrorDto(
    causedBy: Option<string>,
    errorType: Option<string>,
    userMessage: Option<string>,
    developerMessage: Option<string>,
    subErrors: Option<seq<AppSubErrorDto>>,
    traceId: Option<string>)

  /** An `AppError` wrapped for throwing. */
  datatype AppException = AppException(error: AppError)

  /** An error value, as its constructor leaves it (see `Create`). */
  datatype AppError = AppError(
    causedBy: Option<Cause>,
    statusCode: int,
    userMessage: Option<string>,
    developerMessage: Option<string>,
    subErrors: seq<AppSubError>)
  {
    /**
     * The status code lies in the 4xx range: its hundreds digit is 4. A 400 is a user error;
     * a 500, and the 0 of a builder whose status code was never set, are not.
     */
    predicate IsUserError(): (b: bool)
      ensures b <==> statusCode / 100 == 4
      ensures statusCode == 400 ==> b
      ensures statusCode == InternalServerError || statusCode == 0 ==> !b
    {
      400 <= statusCode <= 499
    }

    /**
     * The DTO sent to a client under `traceId`. The cause's type name and the developer
     * message appear only when `includeDevInfo` holds; a user message is always present.
     */
    function ToDto(traceId: string, includeDevInfo: bool): (d: AppErrorDto)
      ensures !includeDevInfo ==> d.causedBy.None? && d.developerMessage.None?
      ensures includeDevInfo ==> (d.causedBy.Some? <==> causedBy.Some?)
      ensures d.causedBy.Some? ==> causedBy.Some? && d.causedBy.value == causedBy.value.typeName
      ensures includeDevInfo ==> d.developerMessage == developerMessage
      ensures d.errorType.None?
      ensures d.userMessage.Some?
      ensures userMessage.Some? ==> d.userMessage == userMessage
      ensures userMessage.None? && subErrors != [] ==> d.userMessage == Some(MultipleErrorsMessage)
      ensures userMessage.None? && subErrors == [] ==> d.userMessage == Some(SupportMessage)
      ensures d.subErrors.None? <==> subErrors == []
      ensures d.subErrors.Some? ==> |d.subErrors.value| == |subErrors|
      ensures d.subErrors.Some? ==> forall i :: 0 <= i < |subErrors| ==>
                d.subErrors.value[i].path == Some(subErrors[i].path) &&
                d.subErrors.value[i].message == Some(subErrors[i].message)
      ensures d.traceId == Some(traceId)
    {
      AppErrorDto(
        if includeDevInfo && causedBy.Some? then Some(causedBy.value.typeName) else None,
        None,
        Some(DetermineUserMessage(userMessage, Some(subErrors))),
        if includeDevInfo then developerMessage else None,
        if |subErrors| == 0 then None else Some(SubErrorDtos(subErrors)),
        Some(traceId))
    }

    /** `new AppException(this)`. */
    function ToException(): (x: AppException)
      ensures x.error == this
    {
      AppException(this)
    }
  }

  /**
   * `new AppError(...)` with every argument optional (`None` is an omitted or null argument).
   * A missing status code becomes 400 when a user message (even an empty one) or a sub-error
   * is present and 500 otherwise; a missing developer message becomes the cause's message.
   */
  function Create(
    causedBy: Option<Cause> := None,
    statusCode: Option<int> := None,
    userMessage: Option<string> := None,
    developerMessage: Option<string> := None,
    subErrors: Option<seq<AppSubError>> := None): (e: AppError)
    ensures e.causedBy == causedBy
    ensures subErrors.Some? ==> e.subErrors == subErrors.value
    ensures subErrors.None? ==> e.subErrors == []
    ensures statusCode.Some? ==> e.statusCode == statusCode.value
    ensures statusCode.None? && (userMessage.Some? || e.subErrors != []) ==> e.statusCode == BadRequest
    ensures statusCode.None? && userMessage.None? && e.subErrors == [] ==> e.statusCode == InternalServerError
    ensures e.userMessage == userMessage
    ensures developerMessage.Some? ==> e.developerMessage == developerMessage
    ensures developerMessage.None? && causedBy.Some? ==> e.developerMessage == Some(causedBy.value.message)
    ensures developerMessage.None? && causedBy.None? ==> e.developerMessage.None?
  {
    var subs := if subErrors.Some? then subErrors.value else [];
    AppError(
      causedBy,
      if statusCode.Some? then statusCode.value
      else if userMessage.Some? || |subs| > 0 then BadRequest
      else InternalServerError,
      userMessage,
      if developerMessage.Some? then developerMessage
      else if causedBy.Some? then Some(causedBy.value.message)
      else None,
      subs)
  }

  /** The message shown to the user: the explicit one, else one of two generic fallbacks. */
  function DetermineUserMessage(userMessage: Option<string>, subErrors: Option<seq<AppSubError>>): (m: string)
    ensures userMessage.Some? ==> m == userMessage.value
    ensures userMessage.None? && subErrors.Some? && |subErrors.value| > 0 ==> m == MultipleErrorsMessage
    ensures userMessage.None? && (subErrors.None? || subErrors.value == []) ==> m == SupportMessage
  {
    if userMessage.Some? then userMessage.value
    else if subErrors.Some? && |subErrors.value| > 0 then MultipleErrorsMessage
    else SupportMessage
  }

  /** The `Select` of `ToDto`: each sub-error as a DTO, in the same order. */
  function SubErrorDtos(subErrors: seq<AppSubError>): (r: seq<AppSubErrorDto>)
    ensures |r| == |subErrors|
    ensures forall i :: 0 <= i < |subErrors| ==>
              r[i].path == Some(subErrors[i].path) && r[i].message == Some(subErrors[i].message)
  {
    if subErrors == [] then []
    else [AppSubErrorDto(Some(subErrors[0].path), Some(subErrors[0].message))] + SubErrorDtos(subErrors[1..])
  }

  /** Reads sub-errors back from their DTOs; `None` when a DTO lacks a path or a message. */
  function SubErrorsOfDtos(dtos: seq<AppSubErrorDto>): Option<seq<AppSubError>>
  {
    if dtos == [] then Some([])
    else if dtos[0].path.None? || dtos[0].message.None? then None
    else match SubErrorsOfDtos(dtos[1..])
      case None => None
      case Some(rest) => Some([AppSubError(dtos[0].path.value, dtos[0].message.value)] + rest)
  }

  /** Projecting sub-errors into DTOs loses nothing: reading them back gives the same list. */
  lemma {:induction false} SubErrorDtosRoundTrip(subErrors: seq<AppSubError>)
    ensures SubErrorsOfDtos(SubErrorDtos(subErrors)) == Some(subErrors)
  {
    if subErrors != [] {
      var dtos := SubErrorDtos(subErrors);
      SubErrorDtosRoundTrip(subErrors[1..]);
      assert dtos[1..] == SubErrorDtos(subErrors[1..]);
      assert subErrors == [AppSubError(dtos[0].path.value, dtos[0].message.value)] + subErrors[1..];
    }
  }

  /** The sub-errors of an error can be recovered from its DTO, with or without dev info. */
  lemma ToDtoKeepsSubErrors(e: AppError, traceId: string, includeDevInfo: bool)
    ensures var d := e.ToDto(traceId, includeDevInfo);
            if d.subErrors.None? then e.subErrors == [] else SubErrorsOfDtos(d.subErrors.value) == Some(e.subErrors)
  {
    if e.subErrors != [] {
      SubErrorDtosRoundTrip(e.subErrors);
    }
  }

  /** Without dev info the DTO does not depend on the cause, the developer message or the status code. */
  lemma ToDtoHidesDevInfo(e: AppError, f: AppError, traceId: string)
    requires e.userMessage == f.userMessage && e.subErrors == f.subErrors
    ensures e.ToDto(traceId, false) == f.ToDto(traceId, false)
  {
  }

  /** On direct construction without a status code, the error is a user error exactly when a user message or a sub-error was given. */
  lemma DefaultStatusClassifies(causedBy: Option<Cause>, userMessage: Option<string>, developerMessage: Option<string>, subErrors: Option<seq<AppSubError>>)
    ensures Create(causedBy, None, userMessage, developerMessage, subErrors).IsUserError() <==>
            userMessage.Some? || (subErrors.Some? && subErrors.value != [])
  {
  }

  /** An omitted sub-error list and an explicitly empty one give the same error. */
  lemma AbsentAndEmptySubErrorsAgree(causedBy: Option<Cause>, statusCode: Option<int>, userMessage: Option<string>, developerMessage: Option<string>)
    ensures Create(causedBy, statusCode, userMessage, developerMessage, None) ==
            Create(causedBy, statusCode, userMessage, developerMessage, Some([]))
  {
  }

  /** `AppError.Builder(statusCode)`: a fresh builder with only the status code set. */
  method Builder(statusCode: int) returns (b: AppErrorBuilder)
    ensures fresh(b)
    ensures b.statusCode == statusCode
    ensures b.causedBy.None? && b.userMessage.None? && b.developerMessage.None? && b.subErrors.None?
  {
    b := new AppErrorBuilder();
    b := b.StatusCode(statusCode);
  }

  /**
   * A mutable accumulator for an `AppError`. Each setter overwrites its field and returns the
   * builder itself; sub-errors go into a hash set that is created on first use.
   */
  class AppErrorBuilder {
    var causedBy: Option<Cause>
    /** A non-nullable `HttpStatusCode`: 0 until `StatusCode` is called. */
    var statusCode: int
    var userMessage: Option<string>
    var developerMessage: Option<string>
    var subErrors: Option<set<AppSubError>>

    constructor()
      ensures causedBy.None? && statusCode == 0 && userMessage.None? && developerMessage.None? && subErrors.None?
    {
      causedBy, statusCode, userMessage, developerMessage, subErrors := None, 0, None, None, None;
    }

    /** The sub-errors accumulated so far. */
    function Accumulated(): set<AppSubError>
      reads this
    {
      if subErrors.Some? then subErrors.value else {}
    }

    /**
     * `e` is what `Build` makes of the current state: the stored status code as it is (no
     * 400/500 default, since it is always passed), the developer message defaulted from the
     * cause, and the accumulated sub-errors listed once each.
     */
    ghost predicate Yields(e: AppError)
      reads this
    {
      e.causedBy == causedBy &&
      e.statusCode == statusCode &&
      e.userMessage == userMessage &&
      e.developerMessage == (if developerMessage.Some? then developerMessage
                             else if causedBy.Some? then Some(causedBy.value.message)
                             else None) &&
      Distinct(e.subErrors) && Elements(e.subErrors) == Accumulated()
    }

    method CausedBy(exception: Cause) returns (b: AppErrorBuilder)
      modifies this`causedBy
      ensures b == this && causedBy == Some(exception)
    {
      causedBy := Some(exception);
      b := this;
    }

    method StatusCode(code: int) returns (b: AppErrorBuilder)
      modifies this`statusCode
      ensures b == this && statusCode == code
    {
      statusCode := code;
      b := this;
    }

    method UserMessage(message: Option<string>) returns (b: AppErrorBuilder)
      modifies this`userMessage
      ensures b == this && userMessage == message
    {
      userMessage := message;
      b := this;
    }

    method DeveloperMessage(message: Option<string>) returns (b: AppErrorBuilder)
      modifies this`developerMessage
      ensures b == this && developerMessage == message
    {
      developerMessage := message;
      b := this;
    }

    /** `SubError(path, message)`: adds the pair; a pair already present is not added again. */
    method SubError(path: string, message: string) returns (b: AppErrorBuilder)
      modifies this`subErrors
      ensures b == this && subErrors == Some(old(Accumulated()) + {AppSubError(path, message)})
    {
      b := AddSubError(AppSubError(path, message));
    }

    /** `SubError(AppSubError)`: adds one sub-error to the set. */
    method AddSubError(subError: AppSubError) returns (b: AppErrorBuilder)
      modifies this`subErrors
      ensures b == this && subErrors == Some(old(Accumulated()) + {subError})
    {
      subErrors := Some(Accumulated() + {subError});
      b := this;
    }

    /** `SubErrors(IEnumerable)`: the set's `UnionWith` the given sub-errors. */
    method SubErrors(more: seq<AppSubError>) returns (b: AppErrorBuilder)
      modifies this`subErrors
      ensures b == this && subErrors == Some(old(Accumulated()) + Elements(more))
    {
      subErrors := Some(Accumulated() + set s | s in more);
      b := this;
    }

    /** Constructs the error, passing every stored field explicitly. */
    method Build() returns (e: AppError)
      ensures Yields(e)
    {
      var list: Option<seq<AppSubError>> := None;
      if subErrors.Some? {
        var xs := ToList(subErrors.value);
        list := Some(xs);
      }
      e := Create(causedBy, Some(statusCode), userMessage, developerMessage, list);
    }

    /** `new AppException(Build())`. */
    method ToException() returns (x: AppException)
      ensures Yields(x.error)
    {
      var e := Build();
      x := e.ToException();
    }
  }

  /** `Builder(status).SubError(path, message).SubError(path, message).Build()` holds the pair once. */
  method BuildRepeatedSubError(status: int, path: string, message: string) returns (e: AppError)
    ensures e.statusCode == status
    ensures e.subErrors == [AppSubError(path, message)]
  {
    var b := Builder(status);
    b := b.SubError(path, message);
    b := b.SubError(path, message);
    e := b.Build();
    SingletonList(e.subErrors, AppSubError(path, message));
  }

  /** Two batches of sub-errors are merged as a set union; the built list repeats nothing. */
  method BuildSubErrorUnion(status: int, first: seq<AppSubError>, second: seq<AppSubError>) returns (e: AppError)
    ensures Distinct(e.subErrors)
    ensures Elements(e.subErrors) == Elements(first) + Elements(second)
    ensures |e.subErrors| == |Elements(first) + Elements(second)|
  {
    var b := Builder(status);
    b := b.SubErrors(first);
    b := b.SubErrors(second);
    e := b.Build();
    DistinctCardinality(e.subErrors);
  }

  /** A builder whose `StatusCode` is never called builds status 0, which is not a user error. */
  method BuildWithoutStatusCode(userMessage: string, path: string, message: string) returns (e: AppError)
    ensures e.statusCode == 0 && !e.IsUserError()
    ensures e.userMessage == Some(userMessage)
    ensures e.subErrors == [AppSubError(path, message)]
  {
    var b := new AppErrorBuilder();
    b := b.UserMessage(Some(userMessage));
    b := b.SubError(path, message);
    e := b.Build();
    SingletonList(e.subErrors, AppSubError(path, message));
  }

  /** Setters overwrite: after two calls the builder holds the later values. */
  method BuildLastWriteWins(status1: int, status2: int, message1: Option<string>, message2: Option<string>) returns (e: AppError)
    ensures e.statusCode == status2
    ensures e.userMessage == message2
  {
    var b := Builder(status1);
    b := b.UserMessage(message1);
    b := b.StatusCode(status2);
    b := b.UserMessage(message2);
    e := b.Build();
  }

  /** `Builder(status).UserMessage(message).Build().ToDto(traceId, false)` holds only the message and the trace id. */
  method UserMessageDto(status: int, message: string, traceId: string) returns (d: AppErrorDto)
    ensures d == AppErrorDto(None, None, Some(message), None, None, Some(traceId))
  {
    var b := Builder(status);
    b := b.UserMessage(Some(message));
    var e := b.Build();
    DistinctCardinality(e.subErrors);
    d := e.ToDto(traceId, false);
  }
}
