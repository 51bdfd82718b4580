/**
 * What the abstract provider and the placeholder provider answer without any
 * network traffic: an object with an `error` text.
 */
module ProviderBase {
  import opened JsValues
  import opened Conversation

  const ProviderNotImplemented: string := "Provider not implemented"
  const ProviderNotSet: string := "Provider not set"

  /** `{ error: text }`. */
  function ErrorObject(text: string): (v: Value)
    ensures v.Obj? && Get(v, "error") == Ok(Str(text))
    ensures text != "" ==> Truthy(OptGet(v, "error"))
  {
    Obj(map["error" := Str(text)])
  }

  /** `AIProvider.sendRequest`: the default an adapter without its own inherits. */
  function BaseSendRequest(): Run {
    Run(Returned(ErrorObject(ProviderNotImplemented)), [])
  }

  /** `EmptyAIProvider.sendRequest`. */
  function EmptySendRequest(): Run {
    Run(Returned(ErrorObject(ProviderNotSet)), [])
  }

  /** Neither sends anything or notifies anyone; both resolve to an object whose
    * `error` says which case it is, and the two texts differ. */
  lemma PlaceholdersOnlyReportErrors()
    ensures BaseSendRequest().events == [] && EmptySendRequest().events == []
    ensures Get(BaseSendRequest().outcome.value, "error") == Ok(Str("Provider not implemented"))
    ensures Get(EmptySendRequest().outcome.value, "error") == Ok(Str("Provider not set"))
    ensures BaseSendRequest().outcome != EmptySendRequest().outcome
  {
    assert Get(BaseSendRequest().outcome.value, "error") != Get(EmptySendRequest().outcome.value, "error");
  }
}
