/**
 * The older plant table of `Table.js`: the same search/fetch/pagination behaviour
 * as the responsive table, with the plants request written inline, a QR modal that
 * does not record the plant code, and no delete action.
 */
module LegacyTable {
  import opened Wrappers
  import opened Api
  import opened PlantRows

  class LegacyPlantTable {
    // props
    var token: string
    var searchResult: SearchResult
    var isLoading: bool
    var error: Option<string>
    // state
    var page: nat
    var rowsPerPage: nat
    var rows: seq<Plant>
    var loading: bool
    var fetchError: Option<string>
    var openQR: bool
    var selectedQR: Option<string>

    /** The first render, before any effect has run. */
    constructor (token: string, searchResult: SearchResult, isLoading: bool, error: Option<string>)
      ensures this.token == token && this.searchResult == searchResult
      ensures this.isLoading == isLoading && this.error == error
      ensures page == 0 && rowsPerPage == 10 && rows == [] && loading && fetchError == None
      ensures !openQR && selectedQR == None
    {
      this.token := token;
      this.searchResult := searchResult;
      this.isLoading := isLoading;
      this.error := error;
      page := 0;
      rowsPerPage := 10;
      rows := [];
      loading := true;
      fetchError := None;
      openQR := false;
      selectedQR := None;
    }

    /**
     * The `fetchData` effect: a truthy search result becomes the rows; otherwise the
     * token check, the status check and the array check run in that order, and any
     * failure records its message and keeps the rows.
     */
    method FetchData(response: Response<Body<Plant>>)
      modifies this`rows, this`loading, this`fetchError
      ensures !loading
      ensures AdoptedRows(searchResult).Some? ==>
        rows == AdoptedRows(searchResult).value && fetchError == old(fetchError)
      ensures AdoptedRows(searchResult).None? ==>
        var fetched := FetchPlants(token, response);
        (fetched.Success? ==> rows == fetched.value && fetchError == old(fetchError)) &&
        (fetched.Failure? ==> rows == old(rows) && fetchError == Some(fetched.error))
    {
      match AdoptedRows(searchResult)
      case Some(adopted) =>
        rows := adopted;
        loading := false;
      case None =>
        match FetchPlants(token, response)
        case Success(data) =>
          rows := data;
          loading := false;
        case Failure(message) =>
          fetchError := Some(message);
          loading := false;
    }

    /** The first commit runs both effects: `fetchData`, then the page reset. */
    method Mount(response: Response<Body<Plant>>)
      modifies this`rows, this`loading, this`fetchError, this`page
      ensures !loading && page == 0
      ensures AdoptedRows(searchResult).Some? ==>
        rows == AdoptedRows(searchResult).value && fetchError == old(fetchError)
      ensures AdoptedRows(searchResult).None? ==>
        var fetched := FetchPlants(token, response);
        (fetched.Success? ==> rows == fetched.value && fetchError == old(fetchError)) &&
        (fetched.Failure? ==> rows == old(rows) && fetchError == Some(fetched.error))
    {
      FetchData(response);
      page := 0;
    }

    /**
     * A re-render with new props: `fetchData` runs again when the token or the search
     * result changed, and the page goes back to 0 when the search result changed.
     * React compares the dependencies with `Object.is`, so the search result counts
     * as changed whenever it is a different object (`searchReplaced`), even one equal
     * to the last; a different value is always a different object.
     */
    method ReceiveProps(newToken: string, newSearchResult: SearchResult, searchReplaced: bool,
                        newIsLoading: bool, newError: Option<string>, response: Response<Body<Plant>>)
      requires newSearchResult != searchResult ==> searchReplaced
      modifies this
      ensures token == newToken && searchResult == newSearchResult
      ensures isLoading == newIsLoading && error == newError
      ensures searchReplaced ==> page == 0
      ensures !searchReplaced ==> page == old(page)
      ensures newToken == old(token) && !searchReplaced ==>
        rows == old(rows) && loading == old(loading) && fetchError == old(fetchError)
      ensures (newToken != old(token) || searchReplaced) ==>
        !loading &&
        (AdoptedRows(newSearchResult).Some? ==>
          rows == AdoptedRows(newSearchResult).value && fetchError == old(fetchError)) &&
        (AdoptedRows(newSearchResult).None? ==>
          var fetched := FetchPlants(newToken, response);
          (fetched.Success? ==> rows == fetched.value && fetchError == old(fetchError)) &&
          (fetched.Failure? ==> rows == old(rows) && fetchError == Some(fetched.error)))
      ensures rowsPerPage == old(rowsPerPage) && openQR == old(openQR) && selectedQR == old(selectedQR)
    {
      if searchReplaced {
        token, searchResult, isLoading, error := newToken, newSearchResult, newIsLoading, newError;
        FetchData(response);
        page := 0;
      } else if newToken != token {
        token, isLoading, error := newToken, newIsLoading, newError;
        FetchData(response);
      } else {
        isLoading, error := newIsLoading, newError;
      }
    }

    /** `handleChangePage`. */
    method ChangePage(newPage: nat)
      modifies this`page
      ensures page == newPage
    {
      page := newPage;
    }

    /** `handleChangeRowsPerPage`: the new page size, back on the first page. */
    method ChangeRowsPerPage(value: nat)
      modifies this`rowsPerPage, this`page
      ensures rowsPerPage == value && page == 0
    {
      rowsPerPage := value;
      page := 0;
    }

    /**
     * `handleOpenQR`: the modal opens with the extracted image, or with no image when
     * the value is falsy or has no image prefix; a value with the prefix but without
     * `base64,` throws before the modal opens.
     */
    method OpenQR(qrData: Option<string>)
      modifies this`selectedQR, this`openQR
      ensures ParseQR(qrData).QrImage? ==> openQR && selectedQR == Some(ParseQR(qrData).dataUri)
      ensures ParseQR(qrData).QrUnavailable? ==> openQR && selectedQR == None
      ensures ParseQR(qrData).QrTypeError? ==> openQR == old(openQR) && selectedQR == old(selectedQR)
    {
      match ParseQR(qrData)
      case QrImage(uri) =>
        selectedQR := Some(uri);
        openQR := true;
      case QrUnavailable =>
        selectedQR := None;
        openQR := true;
      case QrTypeError =>
    }

    /** `handleCloseQR`: the modal closes and keeps the image it showed. */
    method CloseQR()
      modifies this`openQR
      ensures !openQR
    {
      openQR := false;
    }

    /** What the component renders in this state. */
    function View(): (v: TableView)
      reads this
      ensures v.Spinner? <==> loading || isLoading
      ensures v.ErrorAlert? <==> !loading && !isLoading && (Truthy(fetchError) || Truthy(error))
      ensures v.ErrorAlert? ==> v.message == if Truthy(fetchError) then fetchError.value else error.value
      ensures v.RowsView? ==> v.visible == DisplayRows(rows, page, rowsPerPage) && v.count == |rows|
    {
      RenderTable(loading, isLoading, fetchError, error, rows, page, rowsPerPage)
    }
  }

  /**
   * Without a search result and without a token no request is made: the table shows
   * the missing-token error whatever the network would have answered.
   */
  method WithoutToken(response: Response<Body<Plant>>) returns (v: TableView)
    ensures v == ErrorAlert(NoTokenMessage)
  {
    var table := new LegacyPlantTable("", NoSearch, false, None);
    table.Mount(response);
    v := table.View();
  }
}
