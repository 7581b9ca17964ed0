/** The result every adapter returns, and the check its constructor makes. */
module Adapter {

  datatype Status = Ok | Partial | Error

  /** `Data` is the adapter's payload, `Issue` its issue codes. */
  datatype AdapterResult<Data, Issue> = AdapterResult(
    data: Data, sdkRequests: int, resources: int, status: Status, issues: seq<Issue>)

  /** `__post_init__` raises exactly when this fails. */
  predicate Constructible<D, I>(r: AdapterResult<D, I>)
  {
    r.sdkRequests >= 0 && r.resources >= 0 && (r.status == Ok <==> r.issues == [])
  }
}
