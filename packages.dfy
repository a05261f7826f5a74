/**
 * How the two packages' result paths relate: they agree except on a completed
 * response whose status lies outside 200-299.
 */
module Packages {
  import opened Wrappers
  import opened Http
  import Client
  import PkgClient

  /** Outside the error statuses the two packages return the same result. */
  lemma AgreeUnlessErrorStatus<T>(ex: Exchange<T>)
    requires !ex.Completed? || IsSuccessStatus(ex.status)
    ensures Client.CallAPI(ex) == PkgClient.DecodeAnyStatus(ex)
  {
  }

  /** On an error status whose body still decodes as the record (an invalid key
      answered with a JSON error object, say), the root package returns an
      ErrorResponse while pkg/tripadvisor returns the decoded record as success. */
  lemma DisagreeOnErrorStatus<T>(c: int, body: Body<T>)
    requires !IsSuccessStatus(c) && body.decoded.Success?
    ensures Client.CallAPI(Completed(c, body)).Failure?
    ensures Client.CallAPI(Completed(c, body)).error.ApiError?
    ensures PkgClient.DecodeAnyStatus(Completed(c, body)) == Success(body.decoded.value)
  {
  }
}
