/** The Workers call wrapper (`workers/utils/api-caller.ts`): a provider
    call that fails or yields nothing is replaced by its default, and a
    list of calls yields one value per call. The call itself is an input:
    how its promise settled. */
module WorkersApi {
  import opened Wrappers

  /** How `execute()` settled: resolved with a value (`None` for `null` or
      `undefined`), or rejected with an error message. */
  datatype CallOutcome<T> = Resolved(result: Option<T>) | Rejected(error: string)

  /** An `ApiCall`: its name (used only in the log), how its `execute`
      settles, and its default value. */
  datatype ApiCall<T> = ApiCall(name: string, outcome: CallOutcome<T>, defaultValue: T)

  /** `safeApiCall`: `result ?? defaultValue`, and `defaultValue` when the
      call rejects. It never rejects itself. */
  function SafeApiCall<T>(call: ApiCall<T>): (r: T)
    ensures call.outcome.Resolved? && call.outcome.result.Some? ==> r == call.outcome.result.value
    ensures call.outcome.Rejected? || call.outcome.result.None? ==> r == call.defaultValue
  {
    match call.outcome
    case Resolved(v) => v.GetOr(call.defaultValue)
    case Rejected(_) => call.defaultValue
  }

  /** `parallelApiCalls`: one settled value per call, in call order. */
  function ParallelApiCalls<T>(calls: seq<ApiCall<T>>): (r: seq<T>)
    ensures |r| == |calls|
    ensures forall i :: 0 <= i < |calls| ==> r[i] == SafeApiCall(calls[i])
  {
    seq(|calls|, i requires 0 <= i < |calls| => SafeApiCall(calls[i]))
  }

  // ---- properties ----

  /** The result is always either the call's own value or the default. */
  lemma SafeApiCallIsValueOrDefault<T>(call: ApiCall<T>)
    ensures SafeApiCall(call) == call.defaultValue
            || (call.outcome.Resolved? && call.outcome.result == Some(SafeApiCall(call)))
  {
  }

  /** Wrapping a settled value a second time changes nothing. */
  lemma SafeApiCallIdempotent<T>(call: ApiCall<T>)
    ensures SafeApiCall(call.(outcome := Resolved(Some(SafeApiCall(call))))) == SafeApiCall(call)
  {
  }

  /** One call's failure leaves every other call's value unchanged. */
  lemma FailureIsIsolated<T>(calls: seq<ApiCall<T>>, j: nat, error: string)
    requires j < |calls|
    ensures var failed := calls[j := calls[j].(outcome := Rejected(error))];
            var before := ParallelApiCalls(calls);
            var after := ParallelApiCalls(failed);
            after[j] == calls[j].defaultValue
            && forall i :: 0 <= i < |calls| && i != j ==> after[i] == before[i]
  {
  }

  /** Calls that all succeed with a value yield exactly those values. */
  lemma AllResolvedYieldValues<T>(calls: seq<ApiCall<T>>, values: seq<T>)
    requires |values| == |calls|
    requires forall i :: 0 <= i < |calls| ==> calls[i].outcome == Resolved(Some(values[i]))
    ensures ParallelApiCalls(calls) == values
  {
  }
}
