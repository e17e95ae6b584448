/**
 * The five registration sections (`PlantRegistrationSection.js`,
 * `ProductionRegistrationSection.js`, `AnomalyRegistrationSection.js`,
 * `GrowthRegistrationSection.js`, `SensorRegistrationSection.js`). Each keeps a
 * controlled draft record, posts it on submit and reports the outcome in a snackbar;
 * they differ in their fields, their messages, the fields they coerce and whether
 * they send the stored session token.
 */
module Registration {
  import opened Wrappers
  import opened JsString
  import opened Api

  datatype FormKind = PlantForm | ProductionForm | AnomalyForm | GrowthForm | SensorForm

  /** The keys of each section's initial `formData`. */
  function DraftKeys(kind: FormKind): seq<string> {
    match kind
    case PlantForm => ["codigo", "especie", "ubicacion", "estado", "fecha_actual", "condiciones", "fecha_creacion", "tags"]
    case ProductionForm => ["id_planta", "cantidad", "fecha_cosecha", "calidad", "destino"]
    case AnomalyForm => ["id_planta", "descripcion", "fecha_deteccion", "tratamiento"]
    case GrowthForm => ["id_planta", "altura", "diametro", "num_hojas", "fecha_medicion"]
    case SensorForm => ["nombre", "tipo", "ubicacion", "fecha_instalacion"]
  }

  /** The initial draft, which a successful submit also restores: every field empty. */
  function InitialDraft(kind: FormKind): (d: map<string, string>)
    ensures forall k :: k in d <==> k in DraftKeys(kind)
    ensures forall k :: k in d ==> d[k] == ""
  {
    map k | k in DraftKeys(kind) :: ""
  }

  /** The number of fields of each initial draft. */
  lemma DraftSizes()
    ensures |InitialDraft(PlantForm)| == 8
    ensures |InitialDraft(ProductionForm)| == 5
    ensures |InitialDraft(AnomalyForm)| == 4
    ensures |InitialDraft(GrowthForm)| == 5
    ensures |InitialDraft(SensorForm)| == 4
  {
    forall kind: FormKind
      ensures |InitialDraft(kind)| == |DraftKeys(kind)|
    {
      DistinctKeys(kind);
      MapOfDistinct(DraftKeys(kind));
    }
  }

  /** No key appears twice in a draft's key list. */
  lemma DistinctKeys(kind: FormKind)
    ensures forall i, j :: 0 <= i < j < |DraftKeys(kind)| ==> DraftKeys(kind)[i] != DraftKeys(kind)[j]
  {
  }

  /** A map with one entry per element of a list without repeats has the list's length. */
  lemma {:induction false} MapOfDistinct(keys: seq<string>)
    requires forall i, j :: 0 <= i < j < |keys| ==> keys[i] != keys[j]
    ensures |(map k | k in keys :: "")| == |keys|
    decreases |keys|
  {
    if keys != [] {
      var rest := keys[1..];
      MapOfDistinct(rest);
      var m := map k | k in keys :: "";
      var m' := map k | k in rest :: "";
      assert !(keys[0] in rest);
      assert m.Keys == m'.Keys + {keys[0]};
      assert |m.Keys| == |m'.Keys| + 1;
    }
  }

  datatype Severity = SuccessAlert | ErrorAlert

  /** The `snackbar` state: whether it shows, its text and its colour. */
  datatype Snackbar = Snackbar(open: bool, message: string, severity: Severity)

  function SuccessMessage(kind: FormKind): string {
    match kind
    case PlantForm => "Planta registrada exitosamente"
    case ProductionForm => "Producción registrada exitosamente"
    case AnomalyForm => "Anomalía registrada exitosamente"
    case GrowthForm => "Registro de crecimiento guardado exitosamente"
    case SensorForm => "Sensor registrado exitosamente"
  }

  function ErrorMessage(kind: FormKind): string {
    match kind
    case PlantForm => "Error al registrar la planta"
    case ProductionForm => "Error al registrar la producción"
    case AnomalyForm => "Error al registrar la anomalía"
    case GrowthForm => "Error al guardar el registro de crecimiento"
    case SensorForm => "Error al registrar el sensor"
  }

  /** The anomaly and sensor sections send `Authorization: Bearer <token>`. */
  predicate UsesBearer(kind: FormKind) {
    kind == AnomalyForm || kind == SensorForm
  }

  /** The field the body sends as `Number(value)`. */
  function NumberField(kind: FormKind): Option<string> {
    match kind
    case ProductionForm => Some("cantidad")
    case AnomalyForm => Some("id_planta")
    case _ => None
  }

  /** The field the body sends as `new Date(value).toISOString()`. */
  function DateField(kind: FormKind): Option<string> {
    match kind
    case ProductionForm => Some("fecha_cosecha")
    case AnomalyForm => Some("fecha_deteccion")
    case _ => None
  }

  /**
   * A JSON body value. The number and the ISO date are kept as the text they are
   * computed from: `Number` and `Date` are not modelled.
   */
  datatype JsonValue = JString(s: string) | JNumber(of: string) | JIsoDate(of: string)

  /** The body sent by a section. */
  function Encode(kind: FormKind, draft: map<string, string>, k: string): JsonValue
    requires k in draft
  {
    if NumberField(kind) == Some(k) then JNumber(draft[k])
    else if DateField(kind) == Some(k) then JIsoDate(draft[k])
    else JString(draft[k])
  }

  /**
   * The request body: the draft spread into an object, with the section's number and
   * date fields coerced. None when the date does not parse (`validDate` is false):
   * `toISOString` then throws before any request is made.
   */
  function RequestBody(kind: FormKind, draft: map<string, string>, validDate: string -> bool)
    : (r: Option<map<string, JsonValue>>)
    requires forall k :: k in InitialDraft(kind) ==> k in draft
    ensures r.None? <==> DateField(kind).Some? && !validDate(draft[DateField(kind).value])
    ensures r.Some? ==> r.value.Keys == draft.Keys
    ensures r.Some? ==> forall k :: k in draft ==>
      r.value[k] == (if NumberField(kind) == Some(k) then JNumber(draft[k])
                     else if DateField(kind) == Some(k) then JIsoDate(draft[k])
                     else JString(draft[k]))
  {
    if DateField(kind).Some? && !validDate(draft[DateField(kind).value]) then None
    else Some(map k | k in draft :: Encode(kind, draft, k))
  }

  /** The plant, growth and sensor sections send the draft verbatim, whatever the dates. */
  lemma VerbatimBody(kind: FormKind, draft: map<string, string>, validDate: string -> bool)
    requires kind == PlantForm || kind == GrowthForm || kind == SensorForm
    requires forall k :: k in InitialDraft(kind) ==> k in draft
    ensures RequestBody(kind, draft, validDate) == Some(map k | k in draft :: JString(draft[k]))
  {
    var r := RequestBody(kind, draft, validDate).value;
    assert r == map k | k in draft :: JString(draft[k]);
  }

  /** A request as it leaves the section: the bearer token when one is sent, and the body. */
  datatype Request = Request(bearer: Option<string>, body: map<string, JsonValue>)

  /**
   * `field.name.toLowerCase().replace(" ", "_")`: the plant section's lookup of a
   * field's value in the draft. The other sections look the name up as it is.
   */
  function PlantFieldKey(name: string): (key: string)
    ensures |key| == |name|
  {
    ReplaceFirst(ToLowerAscii(name), " ", "_")
  }

  /** A name with no capital letter and no space is its own lookup key. */
  lemma PlainNameIsKey(name: string)
    requires forall k :: 0 <= k < |name| ==> !('A' <= name[k] <= 'Z') && name[k] != ' '
    ensures PlantFieldKey(name) == name
  {
    LowerCaseIdentity(name);
    IncludesChar(name, ' ');
  }

  /** The names of the plant section's form fields. */
  const PlantFieldNames: seq<string> :=
    ["codigo", "especie", "ubicacion", "estado", "fecha_estado", "condiciones", "fecha_creacion", "tags"]

  /**
   * Every plant field finds its value in the draft except "fecha_estado": the draft
   * has no such key (it has "fecha_actual"), so that field reads `undefined`.
   */
  lemma PlantFieldLookup()
    ensures forall i :: 0 <= i < |PlantFieldNames| ==>
      (PlantFieldKey(PlantFieldNames[i]) in InitialDraft(PlantForm) <==> PlantFieldNames[i] != "fecha_estado")
  {
    forall i | 0 <= i < |PlantFieldNames|
      ensures PlantFieldKey(PlantFieldNames[i]) == PlantFieldNames[i]
    {
      PlainNameIsKey(PlantFieldNames[i]);
    }
  }

  /** One registration section's state. */
  class RegistrationForm {
    const kind: FormKind
    var formData: map<string, string>
    var snackbar: Snackbar
    var token: string

    /** Every field of the initial draft is present: `handleChange` only adds or replaces. */
    predicate Valid()
      reads this
    {
      forall k :: k in InitialDraft(kind) ==> k in formData
    }

    constructor (kind: FormKind)
      ensures this.kind == kind && formData == InitialDraft(kind) && token == ""
      ensures snackbar == Snackbar(false, "", SuccessAlert)
      ensures Valid()
    {
      this.kind := kind;
      formData := InitialDraft(kind);
      snackbar := Snackbar(false, "", SuccessAlert);
      token := "";
    }

    /** The mount effect of the anomaly and sensor sections: a stored token is adopted. */
    method LoadStoredToken(stored: Option<string>)
      requires UsesBearer(kind)
      modifies this`token
      ensures Truthy(stored) ==> token == stored.value
      ensures !Truthy(stored) ==> token == old(token)
    {
      if Truthy(stored) {
        token := stored.value;
      }
    }

    /** `handleChange`: the named field takes the value; every other field is unchanged. */
    method HandleChange(name: string, value: string)
      requires Valid()
      modifies this`formData
      ensures formData == old(formData)[name := value]
      ensures Valid()
    {
      formData := formData[name := value];
    }

    /**
     * `handleSubmit`. When the body can be built the request goes out; an ok answer
     * shows the success snackbar and restores the initial draft, and anything else
     * shows the error snackbar and keeps the draft.
     */
    method HandleSubmit(response: Response<()>, validDate: string -> bool) returns (request: Option<Request>)
      requires Valid()
      modifies this`formData, this`snackbar
      ensures Valid()
      ensures var body := RequestBody(kind, old(formData), validDate);
        request == (if body.None? then None
                    else Some(Request(if UsesBearer(kind) then Some(token) else None, body.value)))
      ensures request.Some? && response.Ok? ==>
        snackbar == Snackbar(true, SuccessMessage(kind), SuccessAlert) && formData == InitialDraft(kind)
      ensures request.None? || !response.Ok? ==>
        snackbar == Snackbar(true, ErrorMessage(kind), ErrorAlert) && formData == old(formData)
    {
      var body := RequestBody(kind, formData, validDate);
      if body.None? {
        request := None;
        snackbar := Snackbar(true, ErrorMessage(kind), ErrorAlert);
        return;
      }
      request := Some(Request(if UsesBearer(kind) then Some(token) else None, body.value));
      if response.Ok? {
        snackbar := Snackbar(true, SuccessMessage(kind), SuccessAlert);
        formData := InitialDraft(kind);
      } else {
        snackbar := Snackbar(true, ErrorMessage(kind), ErrorAlert);
      }
    }

    /** The snackbar's close action: it hides, keeping its text and colour. */
    method CloseSnackbar()
      modifies this`snackbar
      ensures snackbar == old(snackbar).(open := false)
    {
      snackbar := snackbar.(open := false);
    }
  }

  /**
   * Typing into one field and submitting to a server that accepts it leaves the
   * section as it started, with the success snackbar showing.
   */
  method RegisterAccepted(kind: FormKind, name: string, value: string)
    returns (draft: map<string, string>, shown: Snackbar, sent: bool)
    requires kind == PlantForm || kind == GrowthForm || kind == SensorForm
    ensures draft == InitialDraft(kind) && shown == Snackbar(true, SuccessMessage(kind), SuccessAlert) && sent
  {
    var form := new RegistrationForm(kind);
    form.HandleChange(name, value);
    var request := form.HandleSubmit(Ok(()), (s: string) => true);
    draft, shown, sent := form.formData, form.snackbar, request.Some?;
  }

  /** A rejected submission keeps what was typed and shows the section's error. */
  method RegisterRefused(kind: FormKind, name: string, value: string, status: nat, message: string)
    returns (draft: map<string, string>, shown: Snackbar)
    ensures name in draft && draft[name] == value
    ensures forall k :: k in InitialDraft(kind) && k != name ==> k in draft && draft[k] == ""
    ensures shown == Snackbar(true, ErrorMessage(kind), ErrorAlert)
  {
    var form := new RegistrationForm(kind);
    form.HandleChange(name, value);
    var request := form.HandleSubmit(NonOk(status, message), (s: string) => true);
    draft, shown := form.formData, form.snackbar;
  }

  /**
   * A harvest date that does not parse stops the production section before the
   * request: nothing is sent and the error snackbar shows.
   */
  method HarvestWithBadDate(date: string, validDate: string -> bool)
    returns (sent: bool, draft: map<string, string>, shown: Snackbar)
    requires !validDate(date)
    ensures !sent && draft == InitialDraft(ProductionForm)["fecha_cosecha" := date]
    ensures shown == Snackbar(true, ErrorMessage(ProductionForm), ErrorAlert)
  {
    var form := new RegistrationForm(ProductionForm);
    form.HandleChange("fecha_cosecha", date);
    var request := form.HandleSubmit(Ok(()), validDate);
    sent, draft, shown := request.Some?, form.formData, form.snackbar;
  }

  /** The anomaly section sends the stored token as its bearer. */
  method AnomalyBearer(stored: string, date: string, validDate: string -> bool)
    returns (request: Option<Request>)
    requires stored != "" && validDate(date)
    ensures request.Some? && request.value.bearer == Some(stored)
    ensures "fecha_deteccion" in request.value.body && request.value.body["fecha_deteccion"] == JIsoDate(date)
    ensures "id_planta" in request.value.body && request.value.body["id_planta"] == JNumber("")
  {
    var form := new RegistrationForm(AnomalyForm);
    form.LoadStoredToken(Some(stored));
    form.HandleChange("fecha_deteccion", date);
    request := form.HandleSubmit(Ok(()), validDate);
  }
}
