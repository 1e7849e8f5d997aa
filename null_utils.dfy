/** Null-handling helpers: each turns a nullable value into a present one. */
module NullUtils {
  import opened Wrappers
  import opened Faults

  /** `self ?? new T()`; the freshly constructed `T` is supplied as `newValue`. */
  function OrDefault<T>(self: Option<T>, newValue: T): (r: T)
    ensures self.Some? ==> r == self.value
    ensures self.None? ==> r == newValue
  {
    match self
    case Some(v) => v
    case None => newValue
  }

  /** `self ?? other`. */
  function OrElse<T>(self: Option<T>, other: T): (r: T)
    ensures self.Some? ==> r == self.value
    ensures self.None? ==> r == other
  {
    if self.Some? then self.value else other
  }

  /** `self ?? string.Empty`. */
  function OrBlank(self: Option<string>): (r: string)
    ensures self.Some? ==> r == self.value
    ensures self.None? ==> r == []
  {
    if self.Some? then self.value else ""
  }

  /** Returns the value, or throws the exception `supplier` produces when it is null. */
  function OrElseThrowWith<T>(self: Option<T>, supplier: () -> Cause): (r: Result<T, Cause>)
    ensures r.Success? <==> self.Some?
    ensures r.Success? ==> r.value == self.value
    ensures r.Failure? ==> r.error == supplier()
  {
    if self.None? then Failure(supplier()) else Success(self.value)
  }

  /** Returns the value, or throws an `InvalidOperationException` carrying `message` when it is null. */
  function OrElseThrow<T>(self: Option<T>, message: string): (r: Result<T, Cause>)
    ensures r.Success? <==> self.Some?
    ensures r.Success? ==> r.value == self.value
    ensures r.Failure? ==> r.error.typeName == InvalidOperationTypeName && r.error.message == message
  {
    if self.None? then Failure(Cause(InvalidOperationTypeName, message)) else Success(self.value)
  }

  /** `OrBlank` is `OrElse` with the empty string as the fallback. */
  lemma OrBlankIsOrElseEmpty(self: Option<string>)
    ensures OrBlank(self) == OrElse(self, "")
  {
  }

  /** The message overload is the supplier overload with a supplier of `InvalidOperationException(message)`. */
  lemma OrElseThrowIsOrElseThrowWith<T>(self: Option<T>, message: string)
    ensures OrElseThrow(self, message) == OrElseThrowWith(self, () => Cause(InvalidOperationTypeName, message))
  {
  }

  /** Whenever a throwing helper returns, it returns what `OrElse` would, whatever the fallback. */
  lemma OrElseThrowAgreesWithOrElse<T>(self: Option<T>, message: string, other: T)
    requires OrElseThrow(self, message).Success?
    ensures OrElseThrow(self, message).value == OrElse(self, other) == OrDefault(self, other)
  {
  }
}
