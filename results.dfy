/** The success/failure wrappers of Core/Models/Result.cs: `Result`, which
    carries only an outcome, and `Result<T>`, which also carries a value.
    The C# classes have protected constructors, so the only values that
    exist are those built by the static factories; each is a sum type here,
    and the public properties `IsSuccess`, `Error` and `Value` are
    accessor functions. */
module Results {
  import opened Common
  import opened Errors

  /** The non-generic `Result`. */
  datatype Result = Succeeded | Failed(error: Error)
  {
    predicate IsSuccess() { Succeeded? }

    /** The `Error` property: `null` on success. */
    function GetError(): (e: Option<Error>)
      ensures e.None? <==> IsSuccess()
    {
      if Succeeded? then None else Some(error)
    }

    /** `Result.Success()`. */
    static function Success(): (r: Result)
      ensures r.IsSuccess() && r.GetError() == None
    {
      Succeeded
    }

    /** `Result.Failure(error)`. */
    static function Failure(e: Error): (r: Result)
      ensures !r.IsSuccess() && r.GetError() == Some(e)
    {
      Failed(e)
    }

    /** `Match(onSuccess, onFailure)`: the effect of whichever action runs,
        `onSuccess()` on success, else `onFailure` applied to the stored error. */
    function Match<A>(onSuccess: () -> A, onFailure: Error -> A): (a: A)
      ensures IsSuccess() ==> a == onSuccess()
      ensures GetError().Some? ==> a == onFailure(GetError().value)
    {
      if IsSuccess() then onSuccess() else onFailure(error)
    }
  }

  /** The generic `Result<T>`. */
  datatype ValueResult<T> = Ok(value: T) | Err(error: Error)
  {
    predicate IsSuccess() { Ok? }

    /** The `Error` property: `null` on success. */
    function GetError(): (e: Option<Error>)
      ensures e.None? <==> IsSuccess()
    {
      if Ok? then None else Some(error)
    }

    /** The `Value` property; a failure holds `default(T)`, written `None`. */
    function GetValue(): (v: Option<T>)
      ensures v.Some? <==> IsSuccess()
    {
      if Ok? then Some(value) else None
    }

    /** A `Result<T>` used where a `Result` is expected (its base class). */
    function AsResult(): (r: Result)
      ensures r.IsSuccess() == IsSuccess() && r.GetError() == GetError()
    {
      if Ok? then Result.Succeeded else Result.Failed(error)
    }

    /** `Result<T>.Success(value)`. */
    static function Success(v: T): (r: ValueResult<T>)
      ensures r.IsSuccess() && r.GetValue() == Some(v) && r.GetError() == None
    {
      Ok(v)
    }

    /** `Result<T>.Failure(error)`: the default value and the error. */
    static function Failure(e: Error): (r: ValueResult<T>)
      ensures !r.IsSuccess() && r.GetValue() == None && r.GetError() == Some(e)
    {
      Err(e)
    }

    /** `Match(onSuccess, onFailure)`. */
    function Match<U>(onSuccess: T -> U, onFailure: Error -> U): (u: U)
      ensures GetValue().Some? ==> u == onSuccess(GetValue().value)
      ensures GetError().Some? ==> u == onFailure(GetError().value)
    {
      if IsSuccess() then onSuccess(value) else onFailure(error)
    }

    /** `Bind(func)`: chains a computation that may itself fail. */
    function Bind<U>(func: T -> ValueResult<U>): (r: ValueResult<U>)
      ensures IsSuccess() ==> r == func(GetValue().value)
      ensures !IsSuccess() ==> !r.IsSuccess() && r.GetError() == GetError()
    {
      if IsSuccess() then func(value) else ValueResult<U>.Failure(error)
    }

    /** `Map(mapper)`: applies a total function to a successful value. */
    function Map<U>(mapper: T -> U): (r: ValueResult<U>)
      ensures r.IsSuccess() == IsSuccess() && r.GetError() == GetError()
      ensures IsSuccess() ==> r.GetValue() == Some(mapper(GetValue().value))
    {
      if IsSuccess() then ValueResult<U>.Success(mapper(value)) else ValueResult<U>.Failure(error)
    }
  }

  /** `Bind` on a failure never consults `func`: any two functions give the
      same failure, carrying the original error. */
  lemma BindFailureIgnoresFunc<T, U>(r: ValueResult<T>, f: T -> ValueResult<U>, g: T -> ValueResult<U>)
    requires !r.IsSuccess()
    ensures r.Bind(f) == r.Bind(g) == ValueResult<U>.Failure(r.GetError().value)
  {
  }

  /** Left identity: `Success(v).Bind(f) == f(v)`. */
  lemma BindLeftIdentity<T, U>(v: T, f: T -> ValueResult<U>)
    ensures ValueResult<T>.Success(v).Bind(f) == f(v)
  {
  }

  /** Right identity: binding with `Success` gives back the same result. */
  lemma BindRightIdentity<T>(r: ValueResult<T>)
    ensures r.Bind(ValueResult<T>.Success) == r
  {
  }

  /** Associativity of `Bind`. */
  lemma BindAssociative<T, U, V>(r: ValueResult<T>, f: T -> ValueResult<U>, g: U -> ValueResult<V>)
    ensures r.Bind(f).Bind(g) == r.Bind(x => f(x).Bind(g))
  {
  }

  /** `Map` is `Bind` followed by `Success`. */
  lemma MapIsBindSuccess<T, U>(r: ValueResult<T>, f: T -> U)
    ensures r.Map(f) == r.Bind(x => ValueResult<U>.Success(f(x)))
  {
  }

  /** `Map` preserves identity and composes. */
  lemma MapIdentity<T>(r: ValueResult<T>)
    ensures r.Map(x => x) == r
  {
  }

  lemma MapComposes<T, U, V>(r: ValueResult<T>, f: T -> U, g: U -> V)
    ensures r.Map(f).Map(g) == r.Map(x => g(f(x)))
  {
  }

  /** Upcasting keeps success and error, and `Match` agrees across it. */
  lemma MatchAgreesWithBase<T, A>(r: ValueResult<T>, onSuccess: () -> A, onFailure: Error -> A)
    ensures r.AsResult().Match(onSuccess, onFailure) == r.Match(_ => onSuccess(), onFailure)
  {
  }
}
