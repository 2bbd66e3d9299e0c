/** Things both deployments share: which deployment a variant belongs to,
    and the JavaScript truthiness tests the handlers apply to request and
    payload fields. */
module Common {
  import opened Wrappers

  /** The repository ships the same logic twice: once in the Express server
      (`server.js`) and once as serverless functions (the `api` directory). Where the
      two copies differ, the model matches on this value. */
  datatype Deployment = ExpressServer | Serverless

  /** A string field is truthy in JavaScript when present and non-empty. */
  predicate Truthy(o: Option<string>) {
    o.Some? && o.value != ""
  }

  /** A numeric field is truthy when present and non-zero. */
  predicate TruthyNat(o: Option<nat>) {
    o.Some? && o.value != 0
  }

  /** `o || default` for a string field. */
  function OrElse(o: Option<string>, default: string): (s: string)
    ensures Truthy(o) ==> s == o.value
    ensures !Truthy(o) ==> s == default
  {
    if Truthy(o) then o.value else default
  }
}
