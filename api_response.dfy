/** The uniform response envelope of every service (`ApiResponseUtil`). */
module ApiResponses {
  import opened Wrappers

  datatype PageMeta = PageMeta(page: int, limit: int, total: int)

  /** `details` is free-form in the services; the model carries it as text. */
  datatype ErrorInfo = ErrorInfo(code: string, message: string, details: Option<string>)

  datatype ApiResponse<T> = ApiResponse(
    success: bool,
    data: Option<T>,
    error: Option<ErrorInfo>,
    meta: Option<PageMeta>)

  /** An envelope is either a success carrying no error, or a failure carrying
      an error and no data. */
  predicate WellFormed<T>(r: ApiResponse<T>) {
    (r.success <==> r.error.None?) && !(r.data.Some? && r.error.Some?)
  }

  /** `ApiResponseUtil.success(data, meta)`. */
  function Success<T>(data: T, meta: Option<PageMeta>): (r: ApiResponse<T>)
    ensures r.success && r.data == Some(data) && r.meta == meta && r.error.None?
    ensures WellFormed(r)
  {
    ApiResponse(true, Some(data), None, meta)
  }

  /** `ApiResponseUtil.error(code, message, details)`. */
  function Error<T>(code: string, message: string, details: Option<string>): (r: ApiResponse<T>)
    ensures !r.success && r.data.None? && r.meta.None?
    ensures r.error == Some(ErrorInfo(code, message, details))
    ensures WellFormed(r)
  {
    ApiResponse(false, None, Some(ErrorInfo(code, message, details)), None)
  }

  /** `ApiResponseUtil.paginated(data, total, page, limit)`: note the argument order,
      total before page, while `meta` lists page, limit, total. */
  function Paginated<T>(data: seq<T>, total: int, page: int, limit: int): (r: ApiResponse<seq<T>>)
    ensures r.success && r.data == Some(data) && r.error.None?
    ensures r.meta == Some(PageMeta(page, limit, total))
    ensures WellFormed(r)
  {
    ApiResponse(true, Some(data), None, Some(PageMeta(page, limit, total)))
  }

  /** The two kinds of envelope can never be confused: an error envelope is never
      equal to a success envelope, whatever the arguments. */
  lemma ErrorIsNeverSuccess<T>(code: string, message: string, details: Option<string>,
                               data: T, meta: Option<PageMeta>)
    ensures Error<T>(code, message, details) != Success(data, meta)
  {
    assert Error<T>(code, message, details).success != Success(data, meta).success;
  }
}
