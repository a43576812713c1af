/** What the storefront's API client hands back to a page: a `{success, data}` body,
    or a request that threw. */
module ClientApi {
  import opened Wrappers

  datatype Response<T> = Answered(success: bool, data: Option<T>) | Threw

  /** `response.success && response.data`: the data of a successful response. */
  function Payload<T>(r: Response<T>): (d: Option<T>)
    ensures d.Some? <==> r.Answered? && r.success && r.data.Some?
    ensures d.Some? ==> r.data == d
  {
    if r.Answered? && r.success then r.data else None
  }
}
