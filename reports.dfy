/**
 * `ReportsSection.js`: the reports dashboard. Five lists are fetched together; the
 * cards show the plant total, the latest growth measurement, the anomaly and sensor
 * totals, the health distribution, up to four sensors and up to three harvests.
 */
module Reports {
  import opened Wrappers
  import opened JsArray
  import opened Api
  import opened PlantRows

  /** A growth measurement; `fechaMedicion` is the date as a timestamp. */
  datatype Evolution = Evolution(fechaMedicion: int, altura: string)
  datatype Production = Production(cantidad: string, calidad: string)
  datatype Anomaly = Anomaly(descripcion: string)
  datatype Sensor = Sensor(tipo: string, nombre: string)

  // ----- health distribution -----

  predicate IsHealthy(p: Plant) { p.estado == "Saludable" }
  predicate IsCritical(p: Plant) { p.estado == "Crítico" }
  predicate NeedsAttention(p: Plant) { p.estado != "Saludable" && p.estado != "Crítico" }

  datatype HealthCounts = HealthCounts(healthy: nat, needsAttention: nat, critical: nat)

  /**
   * `plantHealthData`: the three bars count the healthy plants, the critical ones and
   * all others, so every plant is counted exactly once.
   */
  function PlantHealthData(plants: seq<Plant>): (h: HealthCounts)
    ensures h.healthy + h.needsAttention + h.critical == |plants|
    ensures h.healthy == |Filter(plants, IsHealthy)|
    ensures h.needsAttention == |Filter(plants, NeedsAttention)|
    ensures h.critical == |Filter(plants, IsCritical)|
  {
    FilterPartition3(plants, IsHealthy, NeedsAttention, IsCritical);
    HealthCounts(|Filter(plants, IsHealthy)|, |Filter(plants, NeedsAttention)|, |Filter(plants, IsCritical)|)
  }

  /** When every plant is healthy the other two bars are empty. */
  lemma {:induction false} AllHealthy(plants: seq<Plant>)
    requires forall k :: 0 <= k < |plants| ==> IsHealthy(plants[k])
    ensures PlantHealthData(plants) == HealthCounts(|plants|, 0, 0)
    decreases |plants|
  {
    if plants != [] {
      AllHealthy(plants[1..]);
    }
  }

  // ----- latest evolution -----

  /**
   * `evolutions.slice(0, n).reduce(...)` with no initial value: the running value
   * is replaced only by a strictly later measurement.
   */
  function LatestOf(evolutions: seq<Evolution>, n: nat): (r: Evolution)
    requires 1 <= n <= |evolutions|
    ensures r in evolutions[..n]
  {
    if n == 1 then evolutions[0]
    else
      var latest := LatestOf(evolutions, n - 1);
      if evolutions[n - 1].fechaMedicion > latest.fechaMedicion then evolutions[n - 1] else latest
  }

  /** `getLatestEvolution`: null for an empty list, otherwise the reduce over all of it. */
  function LatestEvolution(evolutions: seq<Evolution>): (r: Option<Evolution>)
    ensures r.None? <==> evolutions == []
    ensures r.Some? ==> r.value in evolutions
  {
    if evolutions == [] then None
    else
      assert evolutions[..|evolutions|] == evolutions;
      Some(LatestOf(evolutions, |evolutions|))
  }

  /**
   * The reduce picks a measurement with the latest date, and among measurements with
   * that date the earliest in the list: the comparison is strict.
   */
  lemma {:induction false} LatestIsEarliestMaximum(evolutions: seq<Evolution>, n: nat) returns (k: nat)
    requires 1 <= n <= |evolutions|
    ensures k < n && LatestOf(evolutions, n) == evolutions[k]
    ensures forall j :: 0 <= j < n ==> evolutions[j].fechaMedicion <= evolutions[k].fechaMedicion
    ensures forall j :: 0 <= j < k ==> evolutions[j].fechaMedicion < evolutions[k].fechaMedicion
  {
    if n == 1 {
      k := 0;
    } else {
      var k' := LatestIsEarliestMaximum(evolutions, n - 1);
      if evolutions[n - 1].fechaMedicion > evolutions[k'].fechaMedicion {
        k := n - 1;
      } else {
        k := k';
      }
    }
  }

  /** The growth card: `<altura> cm` of the latest measurement, or `N/A` without one. */
  function GrowthCard(evolutions: seq<Evolution>): (text: string)
    ensures evolutions == [] ==> text == "N/A"
    ensures evolutions != [] ==> exists e :: e in evolutions && text == e.altura + " cm"
  {
    match LatestEvolution(evolutions)
    case None => "N/A"
    case Some(e) => e.altura + " cm"
  }

  /**
   * The growth card shows the altura of the measurement with the latest date,
   * the earliest in the list among those sharing that date.
   */
  lemma GrowthCardIsLatest(evolutions: seq<Evolution>) returns (k: nat)
    requires evolutions != []
    ensures k < |evolutions| && GrowthCard(evolutions) == evolutions[k].altura + " cm"
    ensures forall j :: 0 <= j < |evolutions| ==> evolutions[j].fechaMedicion <= evolutions[k].fechaMedicion
    ensures forall j :: 0 <= j < k ==> evolutions[j].fechaMedicion < evolutions[k].fechaMedicion
  {
    k := LatestIsEarliestMaximum(evolutions, |evolutions|);
    assert LatestEvolution(evolutions) == Some(LatestOf(evolutions, |evolutions|));
  }

  // ----- sensors and harvests -----

  datatype SensorIcon = Thermometer | Droplet | SunIcon | Wind

  /** The icon of a sensor card, chosen by its type. */
  function IconForSensor(tipo: string): (icon: SensorIcon)
    ensures icon == Thermometer <==> tipo == "Temperatura"
    ensures icon == Droplet <==> tipo == "Humedad"
    ensures icon == SunIcon <==> tipo == "Luz"
    ensures icon == Wind <==> tipo != "Temperatura" && tipo != "Humedad" && tipo != "Luz"
  {
    if tipo == "Temperatura" then Thermometer
    else if tipo == "Humedad" then Droplet
    else if tipo == "Luz" then SunIcon
    else Wind
  }

  datatype SensorCard = SensorCard(title: string, value: string, icon: SensorIcon)

  const ShownSensors := 4
  const ShownProductions := 3

  /** `sensors.slice(0, 4).map(...)`: one card for each of the first four sensors. */
  function SensorCards(sensors: seq<Sensor>): (cards: seq<SensorCard>)
    ensures |cards| == Min(ShownSensors, |sensors|)
    ensures forall k :: 0 <= k < |cards| ==>
      cards[k] == SensorCard(sensors[k].tipo, sensors[k].nombre, IconForSensor(sensors[k].tipo))
  {
    var shown := Slice(sensors, 0, ShownSensors);
    seq(|shown|, k requires 0 <= k < |shown| => SensorCard(shown[k].tipo, shown[k].nombre, IconForSensor(shown[k].tipo)))
  }

  /** `productions.slice(0, 3)`: the harvests listed under recent activity. */
  function RecentProductions(productions: seq<Production>): (r: seq<Production>)
    ensures |r| <= ShownProductions && |r| <= |productions| && r == productions[..|r|]
    ensures |productions| >= ShownProductions ==> |r| == ShownProductions
    ensures |productions| < ShownProductions ==> r == productions
  {
    SlicePrefix(productions, ShownProductions);
    Slice(productions, 0, ShownProductions)
  }

  /** Everything the dashboard renders from its lists. */
  datatype Summary = Summary(
    totalPlants: nat,
    growth: string,
    healthIssues: nat,
    activeSensors: nat,
    health: HealthCounts,
    sensorCards: seq<SensorCard>,
    recent: seq<Production>)

  function Summarize(plants: seq<Plant>, evolutions: seq<Evolution>, productions: seq<Production>,
                     anomalies: seq<Anomaly>, sensors: seq<Sensor>): Summary
  {
    Summary(|plants|, GrowthCard(evolutions), |anomalies|, |sensors|,
            PlantHealthData(plants), SensorCards(sensors), RecentProductions(productions))
  }

  /** The dashboard before any list has been fetched. */
  const EmptySummary := Summary(0, "N/A", 0, 0, HealthCounts(0, 0, 0), [], [])

  // ----- fetching -----

  /**
   * For the five requests a `Response` payload is the parsed body, or None when the
   * body fails to parse: the bodies are read only after all five status checks.
   */
  predicate AllOk<A, B, C, D, E>(a: Response<A>, b: Response<B>, c: Response<C>, d: Response<D>, e: Response<E>) {
    a.Ok? && b.Ok? && c.Ok? && d.Ok? && e.Ok?
  }

  /**
   * How many bodies, read in order, parse before the first that does not;
   * `setX` has run for exactly those lists when the next `json()` throws.
   */
  function ParsedCount<A, B, C, D, E>(a: Option<A>, b: Option<B>, c: Option<C>, d: Option<D>, e: Option<E>): (n: nat)
    ensures n <= 5
  {
    if a.None? then 0 else if b.None? then 1 else if c.None? then 2 else if d.None? then 3
    else if e.None? then 4 else 5
  }

  /** The dashboard's `token` prop and its five list hooks. */
  class Dashboard {
    var token: string
    var plants: seq<Plant>
    var evolutions: seq<Evolution>
    var productions: seq<Production>
    var anomalies: seq<Anomaly>
    var sensors: seq<Sensor>

    constructor (token: string)
      ensures this.token == token
      ensures plants == [] && evolutions == [] && productions == [] && anomalies == [] && sensors == []
    {
      this.token := token;
      plants, evolutions, productions, anomalies, sensors := [], [], [], [], [];
    }

    /**
     * The `fetchData` effect, run only with a token. If any of the five responses is
     * not ok (or its request is rejected), no list changes; otherwise the lists are
     * set in order, stopping at the first body that fails to parse.
     */
    method FetchData(pR: Response<Option<seq<Plant>>>, eR: Response<Option<seq<Evolution>>>,
                     prR: Response<Option<seq<Production>>>, aR: Response<Option<seq<Anomaly>>>,
                     sR: Response<Option<seq<Sensor>>>)
      modifies this`plants, this`evolutions, this`productions, this`anomalies, this`sensors
      ensures token == "" || !AllOk(pR, eR, prR, aR, sR) ==>
        plants == old(plants) && evolutions == old(evolutions) && productions == old(productions) &&
        anomalies == old(anomalies) && sensors == old(sensors)
      ensures token != "" && AllOk(pR, eR, prR, aR, sR) ==>
        var n := ParsedCount(pR.payload, eR.payload, prR.payload, aR.payload, sR.payload);
        plants == (if n >= 1 then pR.payload.value else old(plants)) &&
        evolutions == (if n >= 2 then eR.payload.value else old(evolutions)) &&
        productions == (if n >= 3 then prR.payload.value else old(productions)) &&
        anomalies == (if n >= 4 then aR.payload.value else old(anomalies)) &&
        sensors == (if n >= 5 then sR.payload.value else old(sensors))
    {
      if token == "" || !AllOk(pR, eR, prR, aR, sR) {
        return;
      }
      if pR.payload.None? { return; }
      plants := pR.payload.value;
      if eR.payload.None? { return; }
      evolutions := eR.payload.value;
      if prR.payload.None? { return; }
      productions := prR.payload.value;
      if aR.payload.None? { return; }
      anomalies := aR.payload.value;
      if sR.payload.None? { return; }
      sensors := sR.payload.value;
    }

    function View(): Summary
      reads this
    {
      Summarize(plants, evolutions, productions, anomalies, sensors)
    }
  }

  /** The empty dashboard shows `N/A` growth and empty counts. */
  lemma EmptyDashboard()
    ensures Summarize([], [], [], [], []) == EmptySummary
  {
    assert PlantHealthData([]) == HealthCounts(0, 0, 0);
  }

  /**
   * Mounting with a token when one of the five requests fails leaves the dashboard
   * empty, however the other four went.
   */
  method MountWithFailedRequest(token: string, pR: Response<Option<seq<Plant>>>, eR: Response<Option<seq<Evolution>>>,
                                prR: Response<Option<seq<Production>>>, aR: Response<Option<seq<Anomaly>>>,
                                sR: Response<Option<seq<Sensor>>>) returns (s: Summary)
    requires !AllOk(pR, eR, prR, aR, sR)
    ensures s == EmptySummary
  {
    var dashboard := new Dashboard(token);
    dashboard.FetchData(pR, eR, prR, aR, sR);
    s := dashboard.View();
    EmptyDashboard();
  }

  /** Mounting with a token and five good answers shows all five lists. */
  method MountWithAnswers(token: string, ps: seq<Plant>, es: seq<Evolution>, prs: seq<Production>,
                          as_: seq<Anomaly>, ss: seq<Sensor>) returns (s: Summary)
    requires token != ""
    ensures s.totalPlants == |ps| && s.healthIssues == |as_| && s.activeSensors == |ss|
    ensures s.health.healthy + s.health.needsAttention + s.health.critical == |ps|
    ensures |s.sensorCards| == Min(ShownSensors, |ss|)
  {
    var dashboard := new Dashboard(token);
    dashboard.FetchData(Ok(Some(ps)), Ok(Some(es)), Ok(Some(prs)), Ok(Some(as_)), Ok(Some(ss)));
    s := dashboard.View();
  }
}
