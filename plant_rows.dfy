/**
 * The plant-table logic shared by `ResponsiveTable/index.js` and its older variant
 * `Table.js`: adopting a search result, the client-side pagination slice, the QR
 * payload extraction, the delete filter and the three-way render choice.
 */
module PlantRows {
  import opened Wrappers
  import opened JsString
  import JsArray

  /** One row of the plant table, as the plants endpoint returns it. */
  datatype Plant = Plant(
    codigo: string,
    especie: string,
    ubicacion: string,
    estado: string,
    tags: string,
    qr: Option<string>)

  /**
   * The `searchResult` prop: absent (`null`/`undefined`, falsy), one plant object,
   * or an array of plants (an empty array is still truthy).
   */
  datatype SearchResult = NoSearch | OnePlant(plant: Plant) | PlantList(plants: seq<Plant>)

  /**
   * The rows a truthy search result becomes (`Array.isArray(r) ? r : [r]`), or
   * None when the prop is falsy and the component has to fetch instead.
   */
  function AdoptedRows(searchResult: SearchResult): (r: Option<seq<Plant>>)
    ensures r.None? <==> searchResult.NoSearch?
    ensures searchResult.OnePlant? ==> r == Some([searchResult.plant])
    ensures searchResult.PlantList? ==> r == Some(searchResult.plants)
  {
    match searchResult
    case NoSearch => None
    case OnePlant(p) => Some([p])
    case PlantList(ps) => Some(ps)
  }

  // ----- pagination -----

  /** `rows.slice(page * rowsPerPage, page * rowsPerPage + rowsPerPage)`. */
  function DisplayRows(rows: seq<Plant>, page: nat, rowsPerPage: nat): (r: seq<Plant>)
    ensures |r| == JsArray.Min(rowsPerPage, JsArray.Max(0, |rows| - page * rowsPerPage))
    ensures forall k :: 0 <= k < |r| ==> r[k] == rows[page * rowsPerPage + k]
  {
    JsArray.Slice(rows, page * rowsPerPage, page * rowsPerPage + rowsPerPage)
  }

  /** The pages from `page` onwards, laid end to end. */
  function PagesFrom(rows: seq<Plant>, rowsPerPage: nat, page: nat): seq<Plant>
    requires rowsPerPage > 0
    decreases |rows| - page * rowsPerPage
  {
    if page * rowsPerPage >= |rows| then []
    else
      assert (page + 1) * rowsPerPage == page * rowsPerPage + rowsPerPage;
      DisplayRows(rows, page, rowsPerPage) + PagesFrom(rows, rowsPerPage, page + 1)
  }

  /** The pages from `page` onwards are exactly the rows from that page's first row on. */
  lemma {:induction false} PagesFromSuffix(rows: seq<Plant>, rowsPerPage: nat, page: nat)
    requires rowsPerPage > 0
    ensures PagesFrom(rows, rowsPerPage, page) == rows[JsArray.Min(page * rowsPerPage, |rows|)..]
    decreases |rows| - page * rowsPerPage
  {
    var start := page * rowsPerPage;
    if start < |rows| {
      assert (page + 1) * rowsPerPage == start + rowsPerPage;
      PagesFromSuffix(rows, rowsPerPage, page + 1);
      var d := DisplayRows(rows, page, rowsPerPage);
      var next := JsArray.Min(start + rowsPerPage, |rows|);
      assert d == rows[start..next];
      assert rows[start..] == rows[start..next] + rows[next..];
    }
  }

  /**
   * The pages tile the rows: for any positive page size, page 0, page 1, ... laid
   * end to end give every row once, in order.
   */
  lemma PagesTileRows(rows: seq<Plant>, rowsPerPage: nat)
    requires rowsPerPage > 0
    ensures PagesFrom(rows, rowsPerPage, 0) == rows
  {
    PagesFromSuffix(rows, rowsPerPage, 0);
  }

  /**
   * The last non-empty page holds `|rows| mod rowsPerPage` rows, or a full page
   * when the division is exact, and the page after it is empty.
   */
  lemma LastPageLength(rows: seq<Plant>, rowsPerPage: nat)
    requires rowsPerPage > 0 && |rows| > 0
    ensures var last := (|rows| - 1) / rowsPerPage;
      |DisplayRows(rows, last, rowsPerPage)| ==
        (if |rows| % rowsPerPage == 0 then rowsPerPage else |rows| % rowsPerPage) &&
      DisplayRows(rows, last + 1, rowsPerPage) == []
  {
    var n := |rows|;
    var q := (n - 1) / rowsPerPage;
    var r0 := (n - 1) % rowsPerPage;
    assert n - 1 == q * rowsPerPage + r0;
    assert (q + 1) * rowsPerPage == q * rowsPerPage + rowsPerPage;
    assert n - q * rowsPerPage == r0 + 1;
    if r0 + 1 == rowsPerPage {
      ModUnique(n, rowsPerPage, q + 1, 0);
    } else {
      ModUnique(n, rowsPerPage, q, r0 + 1);
    }
  }

  /** Euclidean division has a unique quotient and remainder. */
  lemma ModUnique(x: int, b: int, q: int, r: int)
    requires b > 0 && 0 <= r < b && x == q * b + r
    ensures x % b == r
  {
    var q' := x / b;
    assert (q - q') * b == q * b - q' * b;
    if q > q' {
      MulAtLeast(q - q', b);
    } else if q < q' {
      assert (q' - q) * b == q' * b - q * b;
      MulAtLeast(q' - q, b);
    }
  }

  lemma MulAtLeast(k: int, b: int)
    requires k >= 1 && b > 0
    ensures k * b >= b
  {
    assert k * b == (k - 1) * b + b;
    assert (k - 1) * b >= 0;
  }

  // ----- QR payload -----

  const ImgPrefix := "<img src=\"data:image/"
  const Base64Marker := "base64,"
  const GifDataUri := "data:image/gif;base64,"

  /**
   * What `handleOpenQR` makes of a row's `qr` value: an image data URI, "no QR"
   * (the value is falsy or lacks the `<img src="data:image/` prefix), or a
   * `TypeError` when the prefix is there but `base64,` is not, so that
   * `split("base64,")[1]` is `undefined`.
   */
  datatype QrParse = QrImage(dataUri: string) | QrUnavailable | QrTypeError

  /**
   * `payload` is what `split("base64,")[1].split('"')[0]` takes out of `q`: the text
   * right after the first `base64,`, containing neither `"` nor `base64,`, and
   * stopping at the end of `q`, at a `"` or at the next `base64,`.
   */
  ghost predicate IsQrPayload(q: string, payload: string) {
    PayloadAfter(q, Base64Marker, payload)
  }

  /** `IsQrPayload` for any marker in place of `base64,`. */
  ghost predicate PayloadAfter(q: string, marker: string, payload: string) {
    match IndexOf(q, marker)
    case None => false
    case Some(i) => PayloadAt(q, marker, i + |marker|, payload)
  }

  /** `payload` starts at `start` in `q`, is free of `"` and the marker, and is cut where it ends. */
  ghost predicate PayloadAt(q: string, marker: string, start: nat, payload: string) {
    var end := start + |payload|;
    end <= |q| && q[start..end] == payload &&
    '"' !in payload && !Includes(payload, marker) &&
    (end == |q| || q[end] == '"' || OccursAt(q, marker, end))
  }

  /** The QR branch of `handleOpenQR`. */
  function ParseQR(qrData: Option<string>): (r: QrParse)
    ensures r.QrUnavailable? <==> !(qrData.Some? && StartsWith(qrData.value, ImgPrefix))
    ensures r.QrTypeError? <==>
      qrData.Some? && StartsWith(qrData.value, ImgPrefix) && !Includes(qrData.value, Base64Marker)
    ensures r.QrImage? ==>
      |GifDataUri| <= |r.dataUri| && r.dataUri[..|GifDataUri|] == GifDataUri &&
      IsQrPayload(qrData.value, r.dataUri[|GifDataUri|..])
  {
    if qrData.Some? && qrData.value != "" && StartsWith(qrData.value, ImgPrefix) then
      var q := qrData.value;
      var parts := Split(q, Base64Marker);
      SplitHead(q, Base64Marker);
      if |parts| < 2 then QrTypeError
      else
        var payload := Split(parts[1], "\"")[0];
        QrPayloadShape(q, payload);
        var uri := GifDataUri + payload;
        assert uri[|GifDataUri|..] == payload;
        QrImage(uri)
    else QrUnavailable
  }

  lemma QrPayloadShape(q: string, payload: string)
    requires Includes(q, Base64Marker)
    requires payload == Split(Split(q, Base64Marker)[1], "\"")[0]
    ensures IsQrPayload(q, payload)
  {
    PayloadAfterShape(q, Base64Marker, payload);
  }

  /** `QrPayloadShape` for any non-empty marker. */
  lemma PayloadAfterShape(q: string, marker: string, payload: string)
    requires marker != "" && Includes(q, marker)
    requires payload == Split(Split(q, marker)[1], "\"")[0]
    ensures PayloadAfter(q, marker, payload)
  {
    var start := IndexOf(q, marker).value + |marker|;
    var piece := Split(q, marker)[1];
    SplitSecondPiece(q, marker);
    SplitFirstPieceAt(q, marker, start, piece);
    QuoteShape(piece, payload);
    PayloadEnd(q, marker, start, piece, payload);
    PayloadFree(piece, marker, payload);
    PayloadFromParts(q, marker, start, payload);
    assert IndexOf(q, marker) == Some(start - |marker|);
  }

  /** The facts `PayloadAt` is made of, collected. */
  lemma PayloadFromParts(q: string, marker: string, start: nat, payload: string)
    requires start + |payload| <= |q| && q[start..start + |payload|] == payload
    requires '"' !in payload && !Includes(payload, marker)
    requires var end := start + |payload|;
      end == |q| || q[end] == '"' || OccursAt(q, marker, end)
    ensures PayloadAt(q, marker, start, payload)
  {
  }

  /** A prefix of a piece free of the marker is free of it too. */
  lemma PayloadFree(piece: string, marker: string, payload: string)
    requires |payload| <= |piece| && payload == piece[..|payload|]
    requires !Includes(piece, marker)
    ensures !Includes(payload, marker)
  {
    if Includes(payload, marker) {
      IncludesPrefix(piece, marker, |payload|);
    }
  }

  /** The first piece of the split on `"`: a prefix free of `"`, ending at the end or at a `"`. */
  lemma QuoteShape(piece: string, payload: string)
    requires payload == Split(piece, "\"")[0]
    ensures |payload| <= |piece| && payload == piece[..|payload|] && '"' !in payload
    ensures |payload| == |piece| || piece[|payload|] == '"'
  {
    SplitFirstPiece(piece, "\"");
    IncludesChar(payload, '"');
    if |payload| < |piece| {
      var i := |payload|;
      assert OccursAt(piece, "\"", i);
      assert piece[i..i + 1][0] == piece[i];
    }
  }

  /** Where the payload sits in the whole string, and what stops it. */
  lemma PayloadEnd(q: string, marker: string, start: nat, piece: string, payload: string)
    requires start + |piece| <= |q| && piece == q[start..start + |piece|]
    requires start + |piece| == |q| || OccursAt(q, marker, start + |piece|)
    requires |payload| <= |piece| && payload == piece[..|payload|]
    requires |payload| == |piece| || piece[|payload|] == '"'
    ensures start + |payload| <= |q| && q[start..start + |payload|] == payload
    ensures var end := start + |payload|;
      end == |q| || q[end] == '"' || OccursAt(q, marker, end)
  {
    assert q[start..start + |payload|] == piece[..|payload|];
    if |payload| < |piece| {
      assert q[start + |payload|] == piece[|payload|];
    }
  }

  // ----- delete -----

  /** `rows.filter(row => row.codigo !== codigo)`. */
  function WithoutCodigo(rows: seq<Plant>, codigo: string): (r: seq<Plant>)
    ensures forall row :: row in r <==> row in rows && row.codigo != codigo
  {
    JsArray.Filter(rows, (row: Plant) => row.codigo != codigo)
  }

  /** The rows whose `codigo` is `codigo`. */
  function WithCodigo(rows: seq<Plant>, codigo: string): seq<Plant> {
    JsArray.Filter(rows, (row: Plant) => row.codigo == codigo)
  }

  /**
   * Deleting removes exactly the rows with the deleted code: the count drops by
   * their number (by one when the code is unique), and the remaining rows keep
   * their order whichever way the table is cut in two.
   */
  lemma DeleteRemovesExactly(rows: seq<Plant>, codigo: string)
    ensures |WithoutCodigo(rows, codigo)| == |rows| - |WithCodigo(rows, codigo)|
    ensures |WithCodigo(rows, codigo)| == 1 ==> |WithoutCodigo(rows, codigo)| == |rows| - 1
    ensures forall i :: 0 <= i <= |rows| ==>
      WithoutCodigo(rows, codigo) == WithoutCodigo(rows[..i], codigo) + WithoutCodigo(rows[i..], codigo)
  {
    JsArray.FilterComplement(rows, (row: Plant) => row.codigo != codigo, (row: Plant) => row.codigo == codigo);
    forall i | 0 <= i <= |rows|
      ensures WithoutCodigo(rows, codigo) == WithoutCodigo(rows[..i], codigo) + WithoutCodigo(rows[i..], codigo)
    {
      assert rows == rows[..i] + rows[i..];
      JsArray.FilterAppend(rows[..i], rows[i..], (row: Plant) => row.codigo != codigo);
    }
  }

  // ----- render -----

  /** What the table component renders. */
  datatype TableView =
    | Spinner
    | ErrorAlert(message: string)
    | RowsView(visible: seq<Plant>, count: nat, page: nat, rowsPerPage: nat)

  /**
   * Loading (its own or the parent's) wins over errors, and an error (its own fetch
   * error first, then the parent's) wins over the table.
   */
  function RenderTable(loading: bool, isLoading: bool, fetchError: Option<string>, error: Option<string>,
                       rows: seq<Plant>, page: nat, rowsPerPage: nat): (v: TableView)
    ensures v.Spinner? <==> loading || isLoading
    ensures v.ErrorAlert? <==> !loading && !isLoading && (Truthy(fetchError) || Truthy(error))
    ensures v.ErrorAlert? ==> v.message == if Truthy(fetchError) then fetchError.value else error.value
    ensures v.RowsView? ==>
      v.visible == DisplayRows(rows, page, rowsPerPage) && v.count == |rows| &&
      v.page == page && v.rowsPerPage == rowsPerPage
  {
    if loading || isLoading then Spinner
    else if Truthy(fetchError) then ErrorAlert(fetchError.value)
    else if Truthy(error) then ErrorAlert(error.value)
    else RowsView(DisplayRows(rows, page, rowsPerPage), |rows|, page, rowsPerPage)
  }
}
