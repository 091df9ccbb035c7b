/**
 The list controller of the dashboard page (src/pages/Dashboard/index.js).
 Its state cells are fields of `DashboardPage`; `GetDataList` is the
 transition one settled request makes, with the request's outcome as input.
 The effect at lines 47-49 runs `GetDataList` after mounting and after every
 change of `params`, so a pagination click is `PaginationCallback` followed by
 `GetDataList` with the outcome of the new request.
 */
module Dashboard {
  import opened JsValues
  import opened ListQuery

  /**
   The fixed starting parameters, whatever the URL says: sorted by `id` in
   descending order, two items per page, first page.
   */
  function InitialParams(): (p: Params)
    ensures p.orderBy == Str("DESC") && p.sortBy == Str("id")
    ensures p.pageOffset == Num(2) && p.page == Num(1)
  {
    Params(Str("DESC"), Str("id"), Num(2), Num(1))
  }

  class DashboardPage {
    /** `location.pathname` of the page. */
    const pathname: string
    /** `setHttpParams` from src/utility/utils, which is not part of this model. */
    const setHttpParams: Params -> string

    var params: Params
    var dataList: seq<Value>
    var paginationInfo: PaginationInfo
    /** The target of the last `navigate` call, if any. */
    var navigatedTo: Option<string>

    /**
     Only the page number of `params` ever changes, and the page limit of the
     pagination record stays 3.
     */
    ghost predicate Valid()
      reads this
    {
      && params.orderBy == Str("DESC")
      && params.sortBy == Str("id")
      && params.pageOffset == Num(2)
      && paginationInfo.pageLimit == Num(3)
    }

    constructor (pathname: string, search: string, setHttpParams: Params -> string)
      ensures Valid()
      ensures params == Params(Str("DESC"), Str("id"), Num(2), Num(1))
      ensures dataList == []
      ensures paginationInfo == PaginationInfo(Str(""), Str(""), Str(""), Str(""), Str(""), Str(""), Num(3))
      ensures navigatedTo == None
      ensures this.pathname == pathname && this.setHttpParams == setHttpParams
    {
      this.pathname := pathname;
      this.setHttpParams := setHttpParams;
      params := InitialParams();
      dataList := [];
      paginationInfo := InitialPaginationInfo();
      navigatedTo := None;
    }

    /** `changeUrl`: navigate to the URL built from the current parameters. */
    method ChangeUrl()
      modifies this`navigatedTo
      ensures navigatedTo == Some(NavigationTarget(pathname, setHttpParams(params)))
      ensures pathname != "" ==> navigatedTo == Some("?" + setHttpParams(params))
    {
      var urlParams := setHttpParams(params);
      navigatedTo := Some(NavigationTarget(pathname, urlParams));
    }

    /**
     `getDataList` once its request has settled. On success the items and the
     renamed metadata are stored and the page navigates; on failure the error
     is only logged and nothing changes.
     */
    method GetDataList(outcome: Outcome)
      requires Valid()
      modifies this`dataList, this`paginationInfo, this`navigatedTo
      ensures Valid()
      ensures outcome.Success? ==>
        && dataList == outcome.body.data
        && MetaOf(paginationInfo) == outcome.body.meta
        && paginationInfo.pageLimit == old(paginationInfo.pageLimit)
        && navigatedTo == Some(NavigationTarget(pathname, setHttpParams(params)))
      ensures outcome.Failure? ==>
        dataList == old(dataList) && paginationInfo == old(paginationInfo) && navigatedTo == old(navigatedTo)
    {
      match outcome {
        case Success(response) =>
          dataList := response.data;
          paginationInfo := ApplyMeta(paginationInfo, response.meta);
          ChangeUrl();
        case Failure(_) =>
      }
    }

    /** `paginationCallback`: a click on page `page` replaces the page number only. */
    method PaginationCallback(page: Value)
      requires Valid()
      modifies this`params
      ensures Valid()
      ensures params.page == page
      ensures params == WithPage(old(params), page)
    {
      params := WithPage(params, page);
    }
  }

  /**
   Mounting the page: the state cells take their initial values, and the
   effect on `params` runs the first request, whose outcome is `outcome`.
   */
  method Mount(pathname: string, search: string, setHttpParams: Params -> string, outcome: Outcome)
    returns (page: DashboardPage)
    ensures page.params == Params(Str("DESC"), Str("id"), Num(2), Num(1))
    ensures outcome.Success? ==>
      && page.dataList == outcome.body.data
      && page.paginationInfo == ApplyMeta(InitialPaginationInfo(), outcome.body.meta)
      && page.navigatedTo == Some(NavigationTarget(pathname, setHttpParams(Params(Str("DESC"), Str("id"), Num(2), Num(1)))))
    ensures outcome.Failure? ==>
      && page.dataList == []
      && page.paginationInfo == InitialPaginationInfo()
      && page.navigatedTo == None
  {
    page := new DashboardPage(pathname, search, setHttpParams);
    page.GetDataList(outcome);
    if outcome.Success? {
      PaginationInfoDeterminedByMeta(page.paginationInfo, ApplyMeta(InitialPaginationInfo(), outcome.body.meta));
    }
  }
}
