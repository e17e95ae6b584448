/**
 * The REST calls of the dashboard, each abstracted as the outcome of one `fetch`,
 * and the two plant calls of `utils/api.js` that turn an outcome into data or an error.
 */
module Api {
  import opened Wrappers
  import JsString

  /**
   * What awaiting a `fetch` (and, where the caller reads it, its JSON body) gives:
   * an ok response with its parsed payload, a non-ok response with its status and
   * the `message` field of its JSON body ("" when absent), or a rejected promise
   * with its reason. A body that fails to parse as JSON is a `Threw` outcome.
   */
  datatype Response<T> = Ok(payload: T) | NonOk(status: nat, message: string) | Threw(reason: string)

  /** A parsed JSON body that is expected to be an array. */
  datatype Body<T> = JsonArray(items: seq<T>) | JsonOther

  const NoTokenMessage := "No authentication token available"
  const NotArrayMessage := "Data is not an array"
  const HttpErrorPrefix := "HTTP error! status: "
  const DeleteFailedPrefix := "Failed to delete plant. Status: "

  /** The message of the error thrown for a non-ok response: `HTTP error! status: <n>`. */
  function HttpError(status: nat): (m: string)
    ensures JsString.StartsWith(m, HttpErrorPrefix)
    ensures JsString.ParseInt(m[|HttpErrorPrefix|..]) == Some(status)
  {
    var m := HttpErrorPrefix + JsString.DecimalString(status);
    assert m[|HttpErrorPrefix|..] == JsString.IntString(status) + "";
    JsString.ParseIntString(status, "");
    m
  }

  /** Different statuses give different messages, so the message identifies the status. */
  lemma HttpErrorInjective(a: nat, b: nat)
    requires HttpError(a) == HttpError(b)
    ensures a == b
  {
  }

  /**
   * `fetchPlants(token)`: no request without a token; a non-ok status, a body that is
   * not an array, or a rejected request each become the error it throws.
   */
  function FetchPlants<T>(token: string, response: Response<Body<T>>): (r: Result<seq<T>>)
    ensures token == "" ==> r == Failure(NoTokenMessage)
    ensures token != "" ==> (r.Success? <==> response.Ok? && response.payload.JsonArray?)
    ensures r.Success? ==> r.value == response.payload.items
    ensures token != "" && response.NonOk? ==> r == Failure(HttpError(response.status))
    ensures token != "" && response.Ok? && response.payload.JsonOther? ==> r == Failure(NotArrayMessage)
    ensures token != "" && response.Threw? ==> r == Failure(response.reason)
  {
    if token == "" then Failure(NoTokenMessage)
    else match response
      case NonOk(status, _) => Failure(HttpError(status))
      case Threw(reason) => Failure(reason)
      case Ok(JsonOther) => Failure(NotArrayMessage)
      case Ok(JsonArray(items)) => Success(items)
  }

  /**
   * `deletePlant(token, id)`: no request without a token; a non-ok status becomes
   * `Failed to delete plant. Status: <n>`; a rejected request is rethrown.
   */
  function DeletePlant(token: string, response: Response<()>): (r: Result<()>)
    ensures r.Success? <==> token != "" && response.Ok?
    ensures token == "" ==> r == Failure(NoTokenMessage)
    ensures token != "" && response.NonOk? ==>
      r == Failure(DeleteFailedPrefix + JsString.DecimalString(response.status))
    ensures token != "" && response.Threw? ==> r == Failure(response.reason)
  {
    if token == "" then Failure(NoTokenMessage)
    else match response
      case Ok(_) => Success(())
      case NonOk(status, _) => Failure(DeleteFailedPrefix + JsString.DecimalString(status))
      case Threw(reason) => Failure(reason)
  }
}
