/**
 What the two list pages (src/pages/Dashboard/index.js and
 src/pages/AuditLog.js) have in common: the request parameters, the page
 metadata the server sends, the pagination information the page keeps, the
 outcome of a fetch, and the pure record copies both pages make with object
 spread.
 */
module ListQuery {
  import opened JsValues

  /** The `params` state cell: sort order, sort key, page size and page number. */
  datatype Params = Params(orderBy: Value, sortBy: Value, pageOffset: Value, page: Value)

  /** `response.meta` as the server sends it, in snake_case. */
  datatype Meta = Meta(from: Value, to: Value, total: Value, current_page: Value, per_page: Value, last_page: Value)

  /** The body of a successful list response, `{ data, meta }`. */
  datatype ResponseBody = ResponseBody(data: seq<Value>, meta: Meta)

  /** The `paginationInfo` state cell, in camelCase, plus the page's own `pageLimit`. */
  datatype PaginationInfo = PaginationInfo(
    from: Value, to: Value, total: Value,
    currentPage: Value, perPage: Value, lastPage: Value,
    pageLimit: Value)

  /** `error.response.data` of a rejected request; its `error` field may be absent (undefined). */
  datatype ErrorBody = ErrorBody(error: Value)
  /** `error.response`; `data` may be absent. */
  datatype ErrorResponse = ErrorResponse(data: Option<ErrorBody>)
  /** The rejection value; `response` may be absent (a network error). */
  datatype FetchError = FetchError(response: Option<ErrorResponse>)

  /**
   How the request for the current parameters settled. The request itself is
   outside the model; its result is an input to the page's transition.
   `Failure(None)` is a rejection with a null or undefined reason.
   */
  datatype Outcome = Success(body: ResponseBody) | Failure(error: Option<FetchError>)

  /** The initial `paginationInfo` of both pages: empty-string placeholders and a page limit of 3. */
  function InitialPaginationInfo(): (r: PaginationInfo)
    ensures MetaOf(r) == Meta(Str(""), Str(""), Str(""), Str(""), Str(""), Str(""))
    ensures r.pageLimit == Num(3)
  {
    PaginationInfo(Str(""), Str(""), Str(""), Str(""), Str(""), Str(""), Num(3))
  }

  /** The six server fields a pagination record holds, renamed back to the server's names. */
  function MetaOf(info: PaginationInfo): Meta {
    Meta(info.from, info.to, info.total, info.currentPage, info.perPage, info.lastPage)
  }

  /**
   `{ ...paginationInfo, from, to, total, currentPage: current_page,
   perPage: per_page, lastPage: last_page }`: the server fields replace the
   six pagination fields under their camelCase names, and every other field of
   the record is kept. The renaming loses nothing: reading the six fields back
   gives the server's metadata.
   */
  function ApplyMeta(info: PaginationInfo, meta: Meta): (r: PaginationInfo)
    ensures MetaOf(r) == meta
    ensures r.pageLimit == info.pageLimit
  {
    info.(from := meta.from, to := meta.to, total := meta.total,
          currentPage := meta.current_page, perPage := meta.per_page, lastPage := meta.last_page)
  }

  /** Two pagination records that agree on `pageLimit` and on the server fields are the same record. */
  lemma PaginationInfoDeterminedByMeta(a: PaginationInfo, b: PaginationInfo)
    requires MetaOf(a) == MetaOf(b) && a.pageLimit == b.pageLimit
    ensures a == b
  {
  }

  /** Applying the metadata of two responses in turn leaves only the later one visible. */
  lemma ApplyMetaLastWins(info: PaginationInfo, m1: Meta, m2: Meta)
    ensures ApplyMeta(ApplyMeta(info, m1), m2) == ApplyMeta(info, m2)
  {
  }

  /** `{ ...params, page }`: a pagination click changes the page and nothing else. */
  function WithPage(params: Params, page: Value): (r: Params)
    ensures r.page == page
    ensures r.orderBy == params.orderBy && r.sortBy == params.sortBy && r.pageOffset == params.pageOffset
  {
    params.(page := page)
  }

  /** Selecting the page already shown gives back equal parameters. */
  lemma WithSamePage(params: Params)
    ensures WithPage(params, params.page) == params
  {
  }

  /** Only the last of several clicks matters. */
  lemma WithPageLastWins(params: Params, p1: Value, p2: Value)
    ensures WithPage(WithPage(params, p1), p2) == WithPage(params, p2)
  {
  }

  /**
   The target of `navigate(location.pathname + urlParams ? '?' + urlParams : '')`.
   The conditional operator binds more loosely than `+`, so the condition is
   the concatenation `location.pathname + urlParams`, and the pathname itself
   never reaches the target: a non-empty pathname always yields
   `'?' + urlParams`, and only an empty pathname together with an empty
   `urlParams` yields `''`.
   */
  function NavigationTarget(pathname: string, urlParams: string): (target: string)
    ensures pathname + urlParams != "" ==> target == "?" + urlParams
    ensures pathname != "" ==> target == "?" + urlParams
    ensures target == "" <==> pathname == "" && urlParams == ""
  {
    if pathname + urlParams != "" then "?" + urlParams else ""
  }

  /** Two pages on different paths navigate to the same target for the same parameters. */
  lemma NavigationTargetIgnoresPathname(p1: string, p2: string, urlParams: string)
    requires p1 != "" && p2 != ""
    ensures NavigationTarget(p1, urlParams) == NavigationTarget(p2, urlParams)
  {
  }
}
