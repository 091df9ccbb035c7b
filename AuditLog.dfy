/**
 The list controller of the audit-log page (src/pages/AuditLog.js). It differs
 from the dashboard's in three ways: the starting parameters come from the
 URL's query string, a loading flag and a "data has arrived" flag are kept,
 and a failed request produces an error message for a toast.
 */
module AuditLog {
  import opened JsValues
  import opened ListQuery

  /**
   The query string of `location.search` as `URLSearchParams` decodes it: its
   name/value pairs in order.
   */
  type Query = seq<(string, string)>

  ghost predicate HasName(query: Query, name: string) {
    exists i :: 0 <= i < |query| && query[i].0 == name
  }

  /**
   `queryParams.get(name)`: the value of the first pair called `name`, or
   `null` when there is none.
   */
  function Get(query: Query, name: string): (r: Value)
    ensures r.Null? || r.Str?
    ensures r.Null? <==> !HasName(query, name)
  {
    if query == [] then Null
    else if query[0].0 == name then Str(query[0].1)
    else
      assert HasName(query, name) ==> HasName(query[1..], name) by {
        if HasName(query, name) {
          var i :| 0 <= i < |query| && query[i].0 == name;
          assert query[1..][i - 1].0 == name;
        }
      }
      Get(query[1..], name)
  }

  /** The value `get` returns belongs to the first pair with that name. */
  lemma {:induction false} GetIsFirstMatch(query: Query, name: string)
    requires HasName(query, name)
    ensures exists i :: 0 <= i < |query| && query[i] == (name, Get(query, name).s) && !HasName(query[..i], name)
  {
    if query[0].0 == name {
      assert query[..0] == [];
      assert query[0] == (name, Get(query, name).s);
    } else {
      var i :| 0 <= i < |query| && query[i].0 == name;
      assert query[1..][i - 1].0 == name;
      GetIsFirstMatch(query[1..], name);
      var k :| 0 <= k < |query[1..]| && query[1..][k] == (name, Get(query[1..], name).s) && !HasName(query[1..][..k], name);
      assert query[k + 1] == (name, Get(query, name).s);
      var prefix := query[..k + 1];
      forall j | 0 <= j < k + 1
        ensures prefix[j].0 != name
      {
        if j > 0 {
          assert prefix[j] == query[1..][..k][j - 1];
        }
      }
    }
  }

  /**
   `initialParams`: each parameter is taken from the query string when it is
   present there, even as an empty string, because only `null` falls through
   `??`; otherwise `'DESC'`, `'id'`, `10` and `1` apply.
   */
  function InitialParams(query: Query): (p: Params)
    ensures HasName(query, "orderBy") ==> p.orderBy == Get(query, "orderBy") && p.orderBy.Str?
    ensures !HasName(query, "orderBy") ==> p.orderBy == Str("DESC")
    ensures HasName(query, "sortBy") ==> p.sortBy == Get(query, "sortBy") && p.sortBy.Str?
    ensures !HasName(query, "sortBy") ==> p.sortBy == Str("id")
    ensures HasName(query, "pageOffset") ==> p.pageOffset == Get(query, "pageOffset") && p.pageOffset.Str?
    ensures !HasName(query, "pageOffset") ==> p.pageOffset == Num(10)
    ensures HasName(query, "page") ==> p.page == Get(query, "page") && p.page.Str?
    ensures !HasName(query, "page") ==> p.page == Num(1)
  {
    Params(
      Coalesce(Get(query, "orderBy"), Str("DESC")),
      Coalesce(Get(query, "sortBy"), Str("id")),
      Coalesce(Get(query, "pageOffset"), Num(10)),
      Coalesce(Get(query, "page"), Num(1)))
  }

  /** An empty query string gives exactly the defaults. */
  lemma EmptyQueryGivesDefaults()
    ensures InitialParams([]) == Params(Str("DESC"), Str("id"), Num(10), Num(1))
  {
  }

  /** `?page=` selects the empty string as the page, not the default 1. */
  lemma EmptyPageIsKept(query: Query)
    requires |query| >= 1 && query[0] == ("page", "")
    ensures InitialParams(query).page == Str("")
  {
  }

  /** The message of the error toast. */
  datatype Message = ServerMessage(text: Value) | SomethingWentWrong

  /**
   `error?.response?.data?.error`: undefined as soon as a link of the chain is
   missing, and the `error` field at the end of a complete chain.
   */
  function ServerError(error: Option<FetchError>): (r: Value)
    ensures error.None? || error.value.response.None? || error.value.response.value.data.None? ==> r == Undefined
    ensures error.Some? && error.value.response.Some? && error.value.response.value.data.Some? ==>
      r == error.value.response.value.data.value.error
    ensures !r.Undefined? ==>
      && error.Some? && error.value.response.Some? && error.value.response.value.data.Some?
      && r == error.value.response.value.data.value.error
  {
    match error
    case Some(FetchError(Some(ErrorResponse(Some(ErrorBody(e)))))) => e
    case _ => Undefined
  }

  /**
   `error?.response?.data?.error ?? SOMETHING_WENT_WRONG`: the server's message
   whenever the server sent one that is neither null nor undefined, otherwise
   the generic fallback.
   */
  function ErrorMessage(error: Option<FetchError>): (m: Message)
    ensures (&& error.Some? && error.value.response.Some? && error.value.response.value.data.Some?
             && !IsNullish(error.value.response.value.data.value.error)) ==>
      m == ServerMessage(error.value.response.value.data.value.error)
    ensures m.SomethingWentWrong? <==>
      || error.None? || error.value.response.None? || error.value.response.value.data.None?
      || IsNullish(error.value.response.value.data.value.error)
    ensures m.ServerMessage? ==> !IsNullish(m.text)
  {
    var e := ServerError(error);
    if IsNullish(e) then SomethingWentWrong else ServerMessage(e)
  }

  /** A server body `{ error: "Server unavailable" }` shows that text; a network error shows the fallback. */
  lemma ErrorMessageExamples()
    ensures ErrorMessage(Some(FetchError(Some(ErrorResponse(Some(ErrorBody(Str("Server unavailable")))))))) == ServerMessage(Str("Server unavailable"))
    ensures ErrorMessage(Some(FetchError(Some(ErrorResponse(Some(ErrorBody(Undefined))))))) == SomethingWentWrong
    ensures ErrorMessage(Some(FetchError(None))) == SomethingWentWrong
  {
  }

  class AuditLogPage {
    /** `location.pathname` of the page. */
    const pathname: string
    /** `setHttpParams` from src/utility/utils, which is not part of this model. */
    const setHttpParams: Params -> string
    /** The parameters derived from the URL at mount. */
    ghost const initialParams: Params

    var isLoading: bool
    var isSetData: bool
    var params: Params
    var dataList: seq<Value>
    var paginationInfo: PaginationInfo
    /** The target of the last `navigate` call, if any. */
    var navigatedTo: Option<string>

    /**
     Only the page number of `params` changes; the page limit stays 3; and
     until data has arrived the list, the pagination record and the URL are
     as they were at mount, while afterwards the page has navigated.
     */
    ghost predicate Valid()
      reads this
    {
      && params.orderBy == initialParams.orderBy
      && params.sortBy == initialParams.sortBy
      && params.pageOffset == initialParams.pageOffset
      && paginationInfo.pageLimit == Num(3)
      && (isSetData <==> navigatedTo.Some?)
      && (!isSetData ==> dataList == [] && paginationInfo == InitialPaginationInfo())
    }

    constructor (pathname: string, query: Query, setHttpParams: Params -> string)
      ensures Valid()
      ensures initialParams == InitialParams(query) && params == initialParams
      ensures isLoading && !isSetData
      ensures dataList == []
      ensures paginationInfo == PaginationInfo(Str(""), Str(""), Str(""), Str(""), Str(""), Str(""), Num(3))
      ensures navigatedTo == None
      ensures this.pathname == pathname && this.setHttpParams == setHttpParams
    {
      this.pathname := pathname;
      this.setHttpParams := setHttpParams;
      initialParams := InitialParams(query);
      isLoading := true;
      isSetData := false;
      params := InitialParams(query);
      dataList := [];
      paginationInfo := InitialPaginationInfo();
      navigatedTo := None;
    }

    /** `changeUrl`: navigate to the URL built from the current parameters. */
    method ChangeUrl()
      modifies this`navigatedTo
      ensures navigatedTo == Some(NavigationTarget(pathname, setHttpParams(params)))
      ensures pathname != "" ==> navigatedTo == Some("?" + setHttpParams(params))
    {
      var urlParams := setHttpParams(params);
      navigatedTo := Some(NavigationTarget(pathname, urlParams));
    }

    /** The first statement of `getDataList`, before the request is sent. */
    method StartLoading()
      modifies this`isLoading
      ensures isLoading
    {
      isLoading := true;
    }

    /**
     The rest of `getDataList`, once the request has settled. Both paths clear
     the loading flag. Success stores the items and the renamed metadata, marks
     data as set and navigates; failure returns the toast message and changes
     nothing else.
     */
    method Settle(outcome: Outcome) returns (toast: Option<Message>)
      requires Valid()
      modifies this`isLoading, this`dataList, this`paginationInfo, this`isSetData, this`navigatedTo
      ensures Valid()
      ensures !isLoading
      ensures old(isSetData) ==> isSetData
      ensures outcome.Success? ==>
        && toast == None
        && dataList == outcome.body.data
        && MetaOf(paginationInfo) == outcome.body.meta
        && paginationInfo.pageLimit == old(paginationInfo.pageLimit)
        && isSetData
        && navigatedTo == Some(NavigationTarget(pathname, setHttpParams(params)))
      ensures outcome.Failure? ==>
        && toast == Some(ErrorMessage(outcome.error))
        && dataList == old(dataList) && paginationInfo == old(paginationInfo)
        && isSetData == old(isSetData) && navigatedTo == old(navigatedTo)
    {
      match outcome {
        case Success(response) =>
          dataList := response.data;
          paginationInfo := ApplyMeta(paginationInfo, response.meta);
          isLoading := false;
          isSetData := true;
          ChangeUrl();
          toast := None;
        case Failure(error) =>
          isLoading := false;
          toast := Some(ErrorMessage(error));
      }
    }

    /** `getDataList` from start to finish: set the loading flag, then settle. */
    method GetDataList(outcome: Outcome) returns (toast: Option<Message>)
      requires Valid()
      modifies this`isLoading, this`dataList, this`paginationInfo, this`isSetData, this`navigatedTo
      ensures Valid()
      ensures !isLoading
      ensures old(isSetData) ==> isSetData
      ensures outcome.Success? ==>
        && toast == None
        && dataList == outcome.body.data
        && MetaOf(paginationInfo) == outcome.body.meta
        && paginationInfo.pageLimit == old(paginationInfo.pageLimit)
        && isSetData
        && navigatedTo == Some(NavigationTarget(pathname, setHttpParams(params)))
      ensures outcome.Failure? ==>
        && toast == Some(ErrorMessage(outcome.error))
        && dataList == old(dataList) && paginationInfo == old(paginationInfo)
        && isSetData == old(isSetData) && navigatedTo == old(navigatedTo)
    {
      StartLoading();
      toast := Settle(outcome);
    }

    /** `paginationCallback`: a click on page `page` replaces the page number only. */
    method PaginationCallback(page: Value)
      requires Valid()
      modifies this`params
      ensures Valid()
      ensures params.page == page
      ensures params == WithPage(old(params), page)
    {
      params := WithPage(params, page);
    }

    /** `loaderCallback`: the layout sets the loading flag and nothing else. */
    method LoaderCallback(data: bool)
      requires Valid()
      modifies this`isLoading
      ensures Valid()
      ensures isLoading == data
    {
      isLoading := data;
    }
  }

  /**
   Mounting the page: the parameters come from the query string, and the
   effect on `params` runs the first request, whose outcome is `outcome`.
   */
  method Mount(pathname: string, query: Query, setHttpParams: Params -> string, outcome: Outcome)
    returns (page: AuditLogPage, toast: Option<Message>)
    ensures page.params == InitialParams(query)
    ensures !page.isLoading
    ensures page.isSetData <==> outcome.Success?
    ensures outcome.Success? ==>
      && toast == None
      && page.dataList == outcome.body.data
      && page.paginationInfo == ApplyMeta(InitialPaginationInfo(), outcome.body.meta)
      && page.navigatedTo == Some(NavigationTarget(pathname, setHttpParams(InitialParams(query))))
    ensures outcome.Failure? ==>
      && toast == Some(ErrorMessage(outcome.error))
      && page.dataList == []
      && page.paginationInfo == InitialPaginationInfo()
      && page.navigatedTo == None
  {
    page := new AuditLogPage(pathname, query, setHttpParams);
    toast := page.GetDataList(outcome);
    if outcome.Success? {
      PaginationInfoDeterminedByMeta(page.paginationInfo, ApplyMeta(InitialPaginationInfo(), outcome.body.meta));
    }
  }
}
