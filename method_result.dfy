/** The result records every service operation returns: success or failure
    with an optional error message, and a variant that also carries data. */
module MethodResults {
  import opened Common

  /** `record MethodResult(bool IsSuccess, string? Error)` */
  datatype MethodResult = MethodResult(isSuccess: bool, error: Option<string>) {

    static function Ok(): (r: MethodResult)
      ensures r.isSuccess && r.error.None?
    {
      MethodResult(true, None)
    }

    static function Fail(error: string): (r: MethodResult)
      ensures !r.isSuccess && r.error == Some(error)
    {
      MethodResult(false, Some(error))
    }
  }

  /** `record MethodResult<TData>(bool IsSuccess, TData Data, string? Error)`;
      every TData the services use is a reference type, so `default` is null. */
  datatype MethodResultOf<T> = MethodResultOf(isSuccess: bool, data: Option<T>, error: Option<string>) {

    static function Ok(data: T): (r: MethodResultOf<T>)
      ensures r.isSuccess && r.data == Some(data) && r.error.None?
    {
      MethodResultOf(true, Some(data), None)
    }

    static function Fail(error: string): (r: MethodResultOf<T>)
      ensures !r.isSuccess && r.data.None? && r.error == Some(error)
    {
      MethodResultOf(false, None, Some(error))
    }
  }

  /** A result built by the factories is a success exactly when it has no
      error, and the factories can be told apart and inverted. */
  lemma FactoriesDistinct(e: string, e': string)
    ensures MethodResult.Ok() != MethodResult.Fail(e)
    ensures MethodResult.Fail(e) == MethodResult.Fail(e') <==> e == e'
    ensures MethodResult.Fail(e).error.value == e
  {
  }

  lemma FactoriesOfDistinct<T>(d: T, e: string, e': string)
    ensures MethodResultOf.Ok(d) != MethodResultOf<T>.Fail(e)
    ensures MethodResultOf.Ok(d).data.value == d
    ensures MethodResultOf<T>.Fail(e) == MethodResultOf<T>.Fail(e') <==> e == e'
  {
  }
}
