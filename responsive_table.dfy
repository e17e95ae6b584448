/**
 * The plant table of `ResponsiveTable/index.js` as a state machine: its state
 * hooks are the fields, its effects and event handlers the methods, and each
 * network call an `Api.Response` supplied by the caller.
 */
module ResponsiveTable {
  import opened Wrappers
  import opened Api
  import opened PlantRows

  class PlantTable {
    // props
    var token: string
    var searchResult: SearchResult
    var isLoading: bool
    var error: Option<string>
    // state
    var page: nat
    var rowsPerPage: nat
    var rows: seq<Plant>
    var loading: bool
    var fetchError: Option<string>
    var qrModalOpen: bool
    var selectedQR: Option<string>
    var selectedPlantCode: Option<string>
    var isDeleteModalOpen: bool
    var plantToDelete: Option<Plant>

    /** The delete confirmation is only ever open for a pending plant. */
    ghost predicate Valid()
      reads this
    {
      isDeleteModalOpen ==> plantToDelete.Some?
    }

    /** The first render, before any effect has run. */
    constructor (token: string, searchResult: SearchResult, isLoading: bool, error: Option<string>)
      ensures Valid()
      ensures this.token == token && this.searchResult == searchResult
      ensures this.isLoading == isLoading && this.error == error
      ensures page == 0 && rowsPerPage == 10 && rows == [] && loading && fetchError == None
      ensures !qrModalOpen && selectedQR == None && selectedPlantCode == None
      ensures !isDeleteModalOpen && plantToDelete == None
    {
      this.token := token;
      this.searchResult := searchResult;
      this.isLoading := isLoading;
      this.error := error;
      page := 0;
      rowsPerPage := 10;
      rows := [];
      loading := true;
      fetchError := None;
      qrModalOpen := false;
      selectedQR := None;
      selectedPlantCode := None;
      isDeleteModalOpen := false;
      plantToDelete := None;
    }

    /**
     * The `loadData` effect: a truthy search result becomes the rows with no request;
     * otherwise the plants are fetched, and a failure records its message and keeps
     * the rows. Either way loading ends.
     */
    method LoadData(response: Response<Body<Plant>>)
      requires Valid()
      modifies this`rows, this`loading, this`fetchError
      ensures Valid()
      ensures !loading
      ensures AdoptedRows(searchResult).Some? ==>
        rows == AdoptedRows(searchResult).value && fetchError == old(fetchError)
      ensures AdoptedRows(searchResult).None? ==>
        var fetched := FetchPlants(token, response);
        (fetched.Success? ==> rows == fetched.value && fetchError == old(fetchError)) &&
        (fetched.Failure? ==> rows == old(rows) && fetchError == Some(fetched.error))
    {
      match AdoptedRows(searchResult)
      case Some(adopted) =>
        rows := adopted;
        loading := false;
      case None =>
        match FetchPlants(token, response)
        case Success(data) =>
          rows := data;
          loading := false;
        case Failure(message) =>
          fetchError := Some(message);
          loading := false;
    }

    /** The first commit runs both effects: `loadData`, then the page reset. */
    method Mount(response: Response<Body<Plant>>)
      requires Valid()
      modifies this`rows, this`loading, this`fetchError, this`page
      ensures Valid()
      ensures !loading && page == 0
      ensures AdoptedRows(searchResult).Some? ==>
        rows == AdoptedRows(searchResult).value && fetchError == old(fetchError)
      ensures AdoptedRows(searchResult).None? ==>
        var fetched := FetchPlants(token, response);
        (fetched.Success? ==> rows == fetched.value && fetchError == old(fetchError)) &&
        (fetched.Failure? ==> rows == old(rows) && fetchError == Some(fetched.error))
    {
      LoadData(response);
      page := 0;
    }

    /**
     * A re-render with new props: `loadData` runs again when the token or the search
     * result changed, and the page goes back to 0 when the search result changed.
     * React compares the dependencies with `Object.is`, so the search result counts
     * as changed whenever it is a different object (`searchReplaced`), even one equal
     * to the last; a different value is always a different object.
     */
    method ReceiveProps(newToken: string, newSearchResult: SearchResult, searchReplaced: bool,
                        newIsLoading: bool, newError: Option<string>, response: Response<Body<Plant>>)
      requires Valid()
      requires newSearchResult != searchResult ==> searchReplaced
      modifies this`token, this`searchResult, this`isLoading, this`error, this`page
      modifies this`rows, this`loading, this`fetchError
      ensures Valid()
      ensures token == newToken && searchResult == newSearchResult
      ensures isLoading == newIsLoading && error == newError
      ensures searchReplaced ==> page == 0
      ensures !searchReplaced ==> page == old(page)
      ensures newToken == old(token) && !searchReplaced ==>
        rows == old(rows) && loading == old(loading) && fetchError == old(fetchError)
      ensures (newToken != old(token) || searchReplaced) ==>
        !loading &&
        (AdoptedRows(newSearchResult).Some? ==>
          rows == AdoptedRows(newSearchResult).value && fetchError == old(fetchError)) &&
        (AdoptedRows(newSearchResult).None? ==>
          var fetched := FetchPlants(newToken, response);
          (fetched.Success? ==> rows == fetched.value && fetchError == old(fetchError)) &&
          (fetched.Failure? ==> rows == old(rows) && fetchError == Some(fetched.error)))
    {
      if searchReplaced {
        token, searchResult, isLoading, error := newToken, newSearchResult, newIsLoading, newError;
        LoadData(response);
        page := 0;
      } else if newToken != token {
        token, isLoading, error := newToken, newIsLoading, newError;
        LoadData(response);
      } else {
        isLoading, error := newIsLoading, newError;
      }
    }

    /** `handleChangePage`. */
    method ChangePage(newPage: nat)
      modifies this`page
      ensures page == newPage
    {
      page := newPage;
    }

    /** `handleChangeRowsPerPage`: the new page size, back on the first page. */
    method ChangeRowsPerPage(value: nat)
      modifies this`rowsPerPage, this`page
      ensures rowsPerPage == value && page == 0
    {
      rowsPerPage := value;
      page := 0;
    }

    /**
     * `handleOpenQR`: the modal opens with the extracted image, or with no image
     * (keeping the previous plant code) when the value has no image prefix. A value
     * with the prefix but without `base64,` throws before any state is set.
     */
    method OpenQR(qrData: Option<string>, plantCode: string)
      modifies this`selectedQR, this`selectedPlantCode, this`qrModalOpen
      ensures ParseQR(qrData).QrImage? ==>
        qrModalOpen && selectedQR == Some(ParseQR(qrData).dataUri) && selectedPlantCode == Some(plantCode)
      ensures ParseQR(qrData).QrUnavailable? ==>
        qrModalOpen && selectedQR == None && selectedPlantCode == old(selectedPlantCode)
      ensures ParseQR(qrData).QrTypeError? ==>
        qrModalOpen == old(qrModalOpen) && selectedQR == old(selectedQR) &&
        selectedPlantCode == old(selectedPlantCode)
    {
      match ParseQR(qrData)
      case QrImage(uri) =>
        selectedQR := Some(uri);
        selectedPlantCode := Some(plantCode);
        qrModalOpen := true;
      case QrUnavailable =>
        selectedQR := None;
        qrModalOpen := true;
      case QrTypeError =>
    }

    /** The QR modal's `onClose`. */
    method CloseQR()
      modifies this`qrModalOpen
      ensures !qrModalOpen
    {
      qrModalOpen := false;
    }

    /** `handleDeleteClick`: the row becomes pending and the confirmation opens. */
    method DeleteClick(plant: Plant)
      modifies this`plantToDelete, this`isDeleteModalOpen
      ensures Valid()
      ensures plantToDelete == Some(plant) && isDeleteModalOpen
    {
      plantToDelete := Some(plant);
      isDeleteModalOpen := true;
    }

    /** The confirmation's `onClose`: it closes and the pending plant stays. */
    method CancelDelete()
      modifies this`isDeleteModalOpen
      ensures Valid()
      ensures !isDeleteModalOpen
    {
      isDeleteModalOpen := false;
    }

    /**
     * `handleConfirmDelete`: with a pending plant, a successful delete drops every row
     * with its code and a failed one keeps the rows; the confirmation then closes and
     * nothing is pending.
     */
    method ConfirmDelete(response: Response<()>)
      modifies this`rows, this`isDeleteModalOpen, this`plantToDelete
      ensures Valid()
      ensures !isDeleteModalOpen && plantToDelete == None
      ensures old(plantToDelete).Some? && DeletePlant(token, response).Success? ==>
        rows == WithoutCodigo(old(rows), old(plantToDelete).value.codigo)
      ensures old(plantToDelete).None? || DeletePlant(token, response).Failure? ==>
        rows == old(rows)
    {
      if plantToDelete.Some? {
        if DeletePlant(token, response).Success? {
          rows := WithoutCodigo(rows, plantToDelete.value.codigo);
        }
      }
      isDeleteModalOpen := false;
      plantToDelete := None;
    }

    /** What the component renders in this state. */
    function View(): (v: TableView)
      reads this
      ensures v.Spinner? <==> loading || isLoading
      ensures v.ErrorAlert? <==> !loading && !isLoading && (Truthy(fetchError) || Truthy(error))
      ensures v.ErrorAlert? ==> v.message == if Truthy(fetchError) then fetchError.value else error.value
      ensures v.RowsView? ==> v.visible == DisplayRows(rows, page, rowsPerPage) && v.count == |rows|
    {
      RenderTable(loading, isLoading, fetchError, error, rows, page, rowsPerPage)
    }
  }

  /**
   * A search result holding one plant renders exactly that row, with a total count
   * of 1 on the first page, whatever the network would have answered.
   */
  method SingleSearchResult(token: string, plant: Plant, response: Response<Body<Plant>>)
    returns (v: TableView)
    ensures v == RowsView([plant], 1, 0, 10)
  {
    var table := new PlantTable(token, PlantList([plant]), false, None);
    table.Mount(response);
    v := table.View();
  }

  /**
   * Confirming the delete of a plant whose code is unique among the rows, with a
   * successful response, leaves one row fewer, none of them with that code.
   */
  method DeleteUniquePlant(token: string, rows: seq<Plant>, plant: Plant)
    returns (after: seq<Plant>)
    requires token != ""
    requires |WithCodigo(rows, plant.codigo)| == 1
    ensures |after| == |rows| - 1
    ensures forall row :: row in after <==> row in rows && row.codigo != plant.codigo
  {
    var table := new PlantTable(token, PlantList(rows), false, None);
    table.Mount(Threw("unused"));
    assert table.rows == rows;
    table.DeleteClick(plant);
    assert table.rows == rows && table.plantToDelete == Some(plant);
    table.ConfirmDelete(Ok(()));
    assert DeletePlant(token, Ok(())).Success?;
    after := table.rows;
    assert after == WithoutCodigo(rows, plant.codigo);
    DeleteRemovesExactly(rows, plant.codigo);
  }
}
