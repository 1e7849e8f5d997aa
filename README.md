# ResumeTech application error model, in Dafny

This project models the error layer of the ResumeTech backend. An application error records
what went wrong while a request was being handled:

- an optional underlying exception;
- an HTTP status code;
- an optional user-facing message and an optional developer message;
- a list of field-level sub-errors, each a `(path, message)` pair.

The error is projected into a DTO for the client. That DTO is keyed by a caller-supplied trace
id and hides developer details unless dev info is switched on. Errors are built either
directly, through a constructor that fills in defaults, or through a fluent builder. The
builder keeps its sub-errors in a hash set, so a repeated complaint is stored once.

The repository has two near-identical families of these types, and both are modelled:

- `AppErrors` (`ResumeTech.Common/Error/AppError.cs`): the status code defaults to 400 or 500
  depending on the messages, and the fallback user message is chosen when the DTO is made.
- `NummiErrors` (`ResumeTech.Common/Exceptions/NummiError.cs`): adds a closed `AppErrorType`
  classification. The status code always defaults to 500, and the fallback user message is
  chosen when the error is constructed.

`NullUtils` (`ResumeTech.Common/Utility/NullUtils.cs`) holds the null-coalescing helpers.
`Wrappers`, `Faults` and `Collections` are small supporting modules.

How the C# constructs are represented:

- A nullable value is an `Option`, and `null` is `None`. A DTO field that JSON leaves out when
  it is null is also `None`.
- An `Exception` is a `Cause(typeName, message)`. The model sees only its runtime type name and
  its `Message`. A thrown exception is the `Failure` of a `Result`.
- `HttpStatusCode` is an `int`.
- An optional constructor argument is an `Option` parameter whose default value is `None`.
- Each builder is a class whose fields its fluent setters overwrite. Each setter returns the
  builder itself, and its `modifies` clause names only the field it changes.
- The builder's lazily created `HashSet<AppSubError>` is an `Option<set<AppSubError>>`.
- `HashSet.ToList()` is `Collections.ToList`. It returns every element exactly once, in an
  order the model leaves unspecified.
- C# overloads take distinct names. `SubError(AppSubError)` is `AddSubError`. The
  `Builder(AppErrorType)` overload of the older family is `BuilderForType`. The two
  `OrElseThrow` overloads are `OrElseThrow` (message) and `OrElseThrowWith` (supplier).

Two details of the code shape the model:

- A builder whose `StatusCode` was never called builds status 0. The builder's field is a
  non-nullable `HttpStatusCode` (AppError.cs:67, NummiError.cs:69), and `Build()` always passes
  it (AppError.cs:113, NummiError.cs:121). The 400/500 default applies only to direct
  construction. See `AppErrors.BuildWithoutStatusCode` and `NummiErrors.BuildForType`.
- The 400 default tests `UserMessage != null` (AppError.cs:28), so an empty user message also
  yields 400.

## Model

| member | source | states |
|---|---|---|
| `AppErrors.Create` | ResumeTech.Common/Error/AppError.cs:25-31 | sub-errors default to empty; a missing status is 400 if a user message (possibly empty) or a sub-error is present, else 500; an explicit status is kept; the user message is kept as given; a missing developer message becomes the cause's message |
| `AppErrors.AppError.IsUserError` | ResumeTech.Common/Error/AppError.cs:23 | holds exactly when the status code's hundreds digit is 4, that is 400 <= status <= 499; true for 400, false for 500 and for the unset builder value 0 |
| `AppErrors.DefaultStatusClassifies` | ResumeTech.Common/Error/AppError.cs:23-28 | without an explicit status, `IsUserError` (status in 400..499) holds exactly when a user message or a sub-error was given |
| `AppErrors.AbsentAndEmptySubErrorsAgree` | ResumeTech.Common/Error/AppError.cs:27-28 | passing no sub-error list and passing an empty one construct the same error |
| `AppErrors.AppError.ToDto` | ResumeTech.Common/Error/AppError.cs:33-44 | without dev info, no cause and no developer message; with dev info, the cause's type name only, and the stored developer message; the user message is always present (explicit, else "Multiple errors occurred" with sub-errors, else the support message); sub-errors are omitted exactly when empty, otherwise copied in order; the error type is absent; the trace id is verbatim |
| `AppErrors.DetermineUserMessage` | ResumeTech.Common/Error/AppError.cs:46-53 | an explicit message wins; otherwise the multi-error message when sub-errors exist, the support message when they are null or empty |
| `AppErrors.SubErrorDtos` | ResumeTech.Common/Error/AppError.cs:38-41 | one DTO per sub-error, same length, same order, path and message copied |
| `AppErrors.SubErrorDtosRoundTrip` | ResumeTech.Common/Error/AppError.cs:38-41 | reading the sub-error DTOs back yields exactly the original list |
| `AppErrors.ToDtoKeepsSubErrors` | ResumeTech.Common/Error/AppError.cs:38-42 | an error's sub-errors can be recovered from its DTO, whatever the dev-info flag |
| `AppErrors.ToDtoHidesDevInfo` | ResumeTech.Common/Error/AppError.cs:33-44 | without dev info, two errors with the same user message and sub-errors give the same DTO, whatever their cause, developer message or status |
| `AppErrors.AppError.ToException` | ResumeTech.Common/Error/AppError.cs:60-62 | the exception wraps this very error |
| `AppErrors.Builder` | ResumeTech.Common/Error/AppError.cs:55-58 | a fresh builder with only the status code set |
| `AppErrors.AppErrorBuilder.constructor` | ResumeTech.Common/Error/AppError.cs:65-70 | every field is null, and the status code is 0 |
| `AppErrors.AppErrorBuilder.CausedBy` | ResumeTech.Common/Error/AppError.cs:72-75 | overwrites only the cause and returns the builder |
| `AppErrors.AppErrorBuilder.StatusCode` | ResumeTech.Common/Error/AppError.cs:77-80 | overwrites only the status code and returns the builder |
| `AppErrors.AppErrorBuilder.UserMessage` | ResumeTech.Common/Error/AppError.cs:82-85 | overwrites only the user message (null allowed) and returns the builder |
| `AppErrors.AppErrorBuilder.DeveloperMessage` | ResumeTech.Common/Error/AppError.cs:87-90 | overwrites only the developer message and returns the builder |
| `AppErrors.AppErrorBuilder.SubError` | ResumeTech.Common/Error/AppError.cs:92-96 | the sub-error set, created if absent, becomes its old contents plus the pair |
| `AppErrors.AppErrorBuilder.AddSubError` | ResumeTech.Common/Error/AppError.cs:98-102 | the sub-error set, created if absent, becomes its old contents plus the sub-error |
| `AppErrors.AppErrorBuilder.SubErrors` | ResumeTech.Common/Error/AppError.cs:104-108 | the sub-error set, created if absent, becomes its union with every given element |
| `AppErrors.AppErrorBuilder.Build` | ResumeTech.Common/Error/AppError.cs:110-118 | the error carries the stored cause, user message and status code (0 if never set, no default), the developer message defaulted from the cause, and the accumulated sub-errors each exactly once |
| `AppErrors.AppErrorBuilder.ToException` | ResumeTech.Common/Error/AppError.cs:120-122 | wraps an error with the same properties as `Build`'s |
| `AppErrors.BuildRepeatedSubError` | ResumeTech.Common/Error/AppError.cs:92-96 | adding the same `(path, message)` twice leaves exactly one sub-error in the built error |
| `AppErrors.BuildSubErrorUnion` | ResumeTech.Common/Error/AppError.cs:104-116 | two batches give a built list without repetitions whose elements are exactly the union of both batches |
| `AppErrors.BuildWithoutStatusCode` | ResumeTech.Common/Error/AppError.cs:67-113 | without a `StatusCode` call the built status is 0 and not a user error, even with a user message and a sub-error |
| `AppErrors.BuildLastWriteWins` | ResumeTech.Common/Error/AppError.cs:77-85 | after two writes of the status code and the user message, the built error holds the later values |
| `AppErrors.UserMessageDto` | ResumeTech.Common/Error/AppError.cs:33-58 | `Builder(s).UserMessage(m).Build().ToDto(t, false)` holds only the user message `m` and the trace id `t` |
| `NummiErrors.AppErrorType.Name` | ResumeTech.Common/Exceptions/NummiError.cs:8-12 | the name of an enum member is never empty |
| `NummiErrors.NameInjective` | ResumeTech.Common/Exceptions/NummiError.cs:44 | distinct classifications have distinct names in the DTO |
| `NummiErrors.Create` | ResumeTech.Common/Exceptions/NummiError.cs:31-39 | the classification defaults to `General`; the status code defaults to 500 whatever the messages; a missing user message becomes the support message when sub-errors are null or empty and stays null otherwise; the developer message defaults to the cause's message; sub-errors default to empty |
| `NummiErrors.AppError.IsUserError` | ResumeTech.Common/Exceptions/NummiError.cs:29 | holds exactly when the status code's hundreds digit is 4, that is 400 <= status <= 499; false for the 500 default and for the unset builder value 0 |
| `NummiErrors.DefaultStatusIsSystemError` | ResumeTech.Common/Exceptions/NummiError.cs:29-34 | without an explicit status, the constructed error is never a user error |
| `NummiErrors.AbsentAndEmptySubErrorsAgree` | ResumeTech.Common/Exceptions/NummiError.cs:35-38 | passing no sub-error list and passing an empty one construct the same error |
| `NummiErrors.AppError.ToDto` | ResumeTech.Common/Exceptions/NummiError.cs:41-53 | the classification appears by name; the user message is copied and may be absent; the cause's type name and the developer message appear only with dev info; sub-errors are omitted exactly when empty, otherwise copied in order; the trace id is verbatim |
| `NummiErrors.DefaultUserMessageInDto` | ResumeTech.Common/Exceptions/NummiError.cs:35-51 | for an error constructed without a user message, the DTO omits the user message exactly when it lists sub-errors, and otherwise shows the support message |
| `NummiErrors.SubErrorDtos` | ResumeTech.Common/Exceptions/NummiError.cs:47-50 | one DTO per sub-error, same length, same order, path and message copied |
| `NummiErrors.SubErrorDtosRoundTrip` | ResumeTech.Common/Exceptions/NummiError.cs:47-50 | reading the sub-error DTOs back yields exactly the original list |
| `NummiErrors.ToDtoKeepsSubErrors` | ResumeTech.Common/Exceptions/NummiError.cs:47-51 | an error's sub-errors can be recovered from its DTO, whatever the dev-info flag |
| `NummiErrors.ToDtoHidesDevInfo` | ResumeTech.Common/Exceptions/NummiError.cs:41-53 | without dev info, two errors with the same classification, user message and sub-errors give the same DTO |
| `NummiErrors.Builder` | ResumeTech.Common/Exceptions/NummiError.cs:55-58 | a fresh builder with only the status code set; the classification stays `General` |
| `NummiErrors.BuilderForType` | ResumeTech.Common/Exceptions/NummiError.cs:60-63 | a fresh builder with only the classification set; the status code stays 0 |
| `NummiErrors.AppErrorBuilder.constructor` | ResumeTech.Common/Exceptions/NummiError.cs:66-72 | every field is null, the classification is `General` and the status code is 0 |
| `NummiErrors.AppErrorBuilder.CausedBy` | ResumeTech.Common/Exceptions/NummiError.cs:74-77 | overwrites only the cause and returns the builder |
| `NummiErrors.AppErrorBuilder.ErrorType` | ResumeTech.Common/Exceptions/NummiError.cs:79-82 | overwrites only the classification and returns the builder |
| `NummiErrors.AppErrorBuilder.StatusCode` | ResumeTech.Common/Exceptions/NummiError.cs:84-87 | overwrites only the status code and returns the builder |
| `NummiErrors.AppErrorBuilder.UserMessage` | ResumeTech.Common/Exceptions/NummiError.cs:89-92 | overwrites only the user message and returns the builder |
| `NummiErrors.AppErrorBuilder.DeveloperMessage` | ResumeTech.Common/Exceptions/NummiError.cs:94-97 | overwrites only the developer message and returns the builder |
| `NummiErrors.AppErrorBuilder.SubError` | ResumeTech.Common/Exceptions/NummiError.cs:99-103 | the sub-error set, created if absent, becomes its old contents plus the pair |
| `NummiErrors.AppErrorBuilder.AddSubError` | ResumeTech.Common/Exceptions/NummiError.cs:105-109 | the sub-error set, created if absent, becomes its old contents plus the sub-error |
| `NummiErrors.AppErrorBuilder.SubErrors` | ResumeTech.Common/Exceptions/NummiError.cs:111-115 | the sub-error set, created if absent, becomes its union with every given element |
| `NummiErrors.AppErrorBuilder.Build` | ResumeTech.Common/Exceptions/NummiError.cs:117-126 | the error carries the stored cause, classification and status code (0 if never set); the user message is the stored one, else null when sub-errors were added, else the support message; the developer message is defaulted from the cause; the accumulated sub-errors appear each exactly once |
| `NummiErrors.AppErrorBuilder.ToException` | ResumeTech.Common/Exceptions/NummiError.cs:128-130 | wraps an error with the same properties as `Build`'s |
| `NummiErrors.BuildRepeatedSubError` | ResumeTech.Common/Exceptions/NummiError.cs:99-103 | adding the same pair twice leaves one sub-error, the classification `General` and no user message |
| `NummiErrors.BuildSubErrorUnion` | ResumeTech.Common/Exceptions/NummiError.cs:111-124 | two batches give a built list without repetitions whose elements are exactly the union of both batches |
| `NummiErrors.BuildForType` | ResumeTech.Common/Exceptions/NummiError.cs:60-72 | `Builder(t).Build()` has classification `t`, status 0 (not 500, not a user error), the support message and no sub-errors |
| `NummiErrors.BuildLastWriteWins` | ResumeTech.Common/Exceptions/NummiError.cs:79-87 | after two writes of the classification and the status code, the built error holds the later values |
| `NullUtils.OrDefault` | ResumeTech.Common/Utility/NullUtils.cs:8-10 | a present value is returned, else the newly constructed default |
| `NullUtils.OrElse` | ResumeTech.Common/Utility/NullUtils.cs:12-14 | a present value is returned, else the fallback |
| `NullUtils.OrBlank` | ResumeTech.Common/Utility/NullUtils.cs:16-18 | a present string is returned, else the empty string |
| `NullUtils.OrBlankIsOrElseEmpty` | ResumeTech.Common/Utility/NullUtils.cs:12-18 | `OrBlank` is `OrElse` with the empty string as fallback |
| `NullUtils.OrElseThrowWith` | ResumeTech.Common/Utility/NullUtils.cs:20-25 | returns exactly when the value is present, and then returns it; otherwise throws the supplier's exception |
| `NullUtils.OrElseThrow` | ResumeTech.Common/Utility/NullUtils.cs:27-32 | returns exactly when the value is present, and then returns it; otherwise throws an `InvalidOperationException` carrying exactly the message |
| `NullUtils.OrElseThrowIsOrElseThrowWith` | ResumeTech.Common/Utility/NullUtils.cs:20-32 | the message overload behaves as the supplier overload whose supplier builds that `InvalidOperationException` |
| `NullUtils.OrElseThrowAgreesWithOrElse` | ResumeTech.Common/Utility/NullUtils.cs:8-32 | when a throwing helper returns, its value is what `OrElse` and `OrDefault` give for any fallback |
| `Collections.ToList` | ResumeTech.Common/Error/AppError.cs:116 | `HashSet.ToList()`: every element of the set exactly once, as many entries as the set has elements |
| `Collections.DistinctCardinality` | ResumeTech.Common/Error/AppError.cs:116 | a list without repetitions has as many entries as distinct elements |
| `Collections.SingletonList` | ResumeTech.Common/Error/AppError.cs:92-96 | a list without repetitions whose only element is `x` is `[x]` |

## Left out

- Exceptions, stack traces and `AppException` itself are not modelled. A cause is only its type name and message, `ToException` wraps the error value, and which exception type the `AppException` is does not matter here.
- JSON serialization is left out. The `WhenWritingNull` attribute is represented by `None` fields in the DTOs, and key casing is not modelled.
- `HashSet` hashing and iteration order are left out. `Collections.ToList` returns the set's elements in an unspecified order, so the order of `Build()`'s list is not specified.
- `NullUtils.OrDefault`: the C# `new T()` depends on the type. The model takes the freshly constructed value as the parameter `newValue`, because Dafny has no parameterless constructor for a type parameter.
- `NullUtils.OrElseThrowWith`: the supplier is a pure function `() -> Cause`. Side effects of a C# supplier are not modelled.
- `AppSubErrorType`, in both families, is declared but carries no behaviour. The model declares it and nothing depends on it.
- Passing a null enumerable to `SubErrors` throws in C#. The model's sequence parameter cannot be null, so this error path is not modelled.
- `HttpStatusCode` values outside the enum are ordinary integers in the model. The cast `(int)StatusCode` is the identity.
- Sub-error lists are modelled by their contents. In C# the constructor stores the caller's `IList` by reference (AppError.cs:27, NummiError.cs:38) and exposes it as mutable. A list changed after construction would change what `ToDto` lists, and in `AppErrors` also its fallback user message. The status code, and in `NummiErrors` the user message, keep the values computed at construction. The model has no sharing and no mutation after construction.
- Equality of errors is the structural equality of Dafny values. C# record equality compares `SubErrors` and `CausedBy` by reference, so `AbsentAndEmptySubErrorsAgree`, in both families, speaks of equal field contents, not of C# `Equals`.
- Only the three declared members of `AppErrorType` are modelled. A C# enum may also hold an undefined value such as `(AppErrorType)7`. For such a value `Enum.GetName` returns null (NummiError.cs:44), and the DTO would then omit `ErrorType`. In the model, `NummiErrors.AppError.ToDto` always has an error type.
