/**
 One tick of the mock telemetry feed (`generateRandomDashboardData`): from
 the current snapshot and the tick's random draws, resample the stat-card
 metrics, refresh the last point of each time series, let the predictions
 drift, set each device's status from its own draw, maybe log one canned
 alert, and keep the log bounded. The source works on a deep copy
 (`JSON.parse(JSON.stringify(..))`); on these immutable values that copy is
 the identity, so a tick is a pure function of the snapshot and the draws.
 */
module Generator {
  import opened Types
  import opened Numeric
  import AlertLog

  // Stat-card ranges, each `getRandomValue(min, max, decimals)` of the tick.
  const InverterVoltageRange := Range(220.0, 240.0, TwoDecimals)
  const InverterCurrentRange := Range(5.0, 11.0, TwoDecimals)
  const PowerFactorRange := Range(0.95, 0.99, TwoDecimals)
  const BatteryPercentageRange := Range(40.0, 100.0, NoDecimals)
  const WindSpeedRange := Range(0.0, 15.0, TwoDecimals)
  const CloudCoverageRange := Range(0.0, 100.0, NoDecimals)
  const RainRange := Range(0.0, 5.0, TwoDecimals)
  const SolarPowerRange := Range(0.0, 5.0, TwoDecimals)
  const EnergyGenerationRange := Range(10.0, 25.0, TwoDecimals)
  const EnergyConsumptionRange := Range(3.0, 8.0, TwoDecimals)

  // Ranges for the refreshed last point of each chart series.
  const PowerSeriesRange := Range(0.0, 5.0, TwoDecimals)
  const BatterySeriesRange := Range(40.0, 100.0, TwoDecimals)
  const LoadSeriesRange := Range(1.0, 3.0, TwoDecimals)
  const SolarVoltageRange := Range(350.0, 410.0, TwoDecimals)
  const SolarCurrentRange := Range(1.0, 11.0, TwoDecimals)
  const AcVoltageRange := Range(220.0, 240.0, TwoDecimals)
  const AcCurrentRange := Range(5.0, 11.0, TwoDecimals)

  /** Probability threshold for logging an alert: a draw below it adds one. */
  const AlertChance: real := 0.2

  /** A device draw above this threshold reports `Connected`. */
  const DisconnectChance: real := 0.3

  // ---------------------------------------------------------------------------
  // The random draws of one tick

  datatype MetricDraws = MetricDraws(
    inverterVoltage: real,
    inverterCurrent: real,
    powerFactor: real,
    batteryPercentage: real,
    windSpeed: real,
    cloudCoverage: real,
    rain: real,
    solarPower: real,
    energyGeneration: real,
    energyConsumption: real
  )

  datatype SeriesDraws = SeriesDraws(
    power: real,
    battery: real,
    load: real,
    solarVoltage: real,
    solarCurrent: real,
    acVoltage: real,
    acCurrent: real
  )

  /** The draw for `actual` is only used when `actual` is present and nonzero. */
  datatype PredictionDraw = PredictionDraw(actual: real, predicted: real)

  /**
   The alert coin, the pool pick, and the clock-dependent strings
   (`alert-${Date.now()}-${Math.random()}` and the ISO timestamp), taken as given.
   */
  datatype AlertDraw = AlertDraw(chance: real, pick: real, id: string, timestamp: string)

  datatype Draws = Draws(
    metrics: MetricDraws,
    series: SeriesDraws,
    predictions: seq<PredictionDraw>,
    devices: seq<real>,
    alert: AlertDraw
  )

  predicate ValidMetricDraws(d: MetricDraws) {
    && Unit(d.inverterVoltage) && Unit(d.inverterCurrent) && Unit(d.powerFactor)
    && Unit(d.batteryPercentage) && Unit(d.windSpeed) && Unit(d.cloudCoverage)
    && Unit(d.rain) && Unit(d.solarPower) && Unit(d.energyGeneration)
    && Unit(d.energyConsumption)
  }

  predicate ValidSeriesDraws(d: SeriesDraws) {
    && Unit(d.power) && Unit(d.battery) && Unit(d.load)
    && Unit(d.solarVoltage) && Unit(d.solarCurrent)
    && Unit(d.acVoltage) && Unit(d.acCurrent)
  }

  predicate ValidPredictionDraw(d: PredictionDraw) {
    Unit(d.actual) && Unit(d.predicted)
  }

  /** Every draw is what `Math.random()` can return. */
  predicate ValidDraws(d: Draws) {
    && ValidMetricDraws(d.metrics)
    && ValidSeriesDraws(d.series)
    && (forall i :: 0 <= i < |d.predictions| ==> ValidPredictionDraw(d.predictions[i]))
    && (forall i :: 0 <= i < |d.devices| ==> Unit(d.devices[i]))
    && Unit(d.alert.chance) && Unit(d.alert.pick)
  }

  /** Valid draws, one per prediction point and one per device of `s`. */
  predicate DrawsFor(s: DashboardData, d: Draws) {
    ValidDraws(d) && |d.predictions| == |s.predictionData| && |d.devices| == |s.devices|
  }

  // ---------------------------------------------------------------------------
  // Metrics

  /**
   `v` is what `getRandomValue` returns for the draw `r` in `rg`: a value
   of the range at its precision, at most half a unit from `r*(max-min)+min`.
   */
  predicate DrawnFrom(v: real, r: real, rg: Range) {
    InRange(v, rg) && Abs(v - Sample(r, rg.lo, rg.hi)) <= HalfUnit(rg.prec)
  }

  /** Every resampled stat-card reading lies in its range, printed at its precision. */
  predicate MetricsInRange(m: Metrics) {
    && InRange(m.inverterVoltage, InverterVoltageRange)
    && InRange(m.inverterCurrent, InverterCurrentRange)
    && m.powerFactor.Some? && InRange(m.powerFactor.value, PowerFactorRange)
    && InRange(m.batteryPercentage, BatteryPercentageRange)
    && InRange(m.windSpeed, WindSpeedRange)
    && InRange(m.cloudCoverage, CloudCoverageRange)
    && InRange(m.rain, RainRange)
    && InRange(m.solarPower, SolarPowerRange)
    && InRange(m.energyGeneration, EnergyGenerationRange)
    && InRange(m.energyConsumption, EnergyConsumptionRange)
  }

  /** Each of the ten readings comes from its own draw and its own range. */
  predicate MetricsDrawn(m: Metrics, d: MetricDraws) {
    && DrawnFrom(m.inverterVoltage, d.inverterVoltage, InverterVoltageRange)
    && DrawnFrom(m.inverterCurrent, d.inverterCurrent, InverterCurrentRange)
    && m.powerFactor.Some? && DrawnFrom(m.powerFactor.value, d.powerFactor, PowerFactorRange)
    && DrawnFrom(m.batteryPercentage, d.batteryPercentage, BatteryPercentageRange)
    && DrawnFrom(m.windSpeed, d.windSpeed, WindSpeedRange)
    && DrawnFrom(m.cloudCoverage, d.cloudCoverage, CloudCoverageRange)
    && DrawnFrom(m.rain, d.rain, RainRange)
    && DrawnFrom(m.solarPower, d.solarPower, SolarPowerRange)
    && DrawnFrom(m.energyGeneration, d.energyGeneration, EnergyGenerationRange)
    && DrawnFrom(m.energyConsumption, d.energyConsumption, EnergyConsumptionRange)
  }

  /** The ten stat-card readings drawn afresh; latitude and longitude are never touched. */
  function RandomizeMetrics(m: Metrics, d: MetricDraws): (n: Metrics)
    requires ValidMetricDraws(d)
    ensures MetricsDrawn(n, d) && MetricsInRange(n)
    ensures n.latitude == m.latitude && n.longitude == m.longitude
  {
    m.(
      inverterVoltage := Draw(d.inverterVoltage, InverterVoltageRange),
      inverterCurrent := Draw(d.inverterCurrent, InverterCurrentRange),
      powerFactor := Some(Draw(d.powerFactor, PowerFactorRange)),
      batteryPercentage := Draw(d.batteryPercentage, BatteryPercentageRange),
      windSpeed := Draw(d.windSpeed, WindSpeedRange),
      cloudCoverage := Draw(d.cloudCoverage, CloudCoverageRange),
      rain := Draw(d.rain, RainRange),
      solarPower := Draw(d.solarPower, SolarPowerRange),
      energyGeneration := Draw(d.energyGeneration, EnergyGenerationRange),
      energyConsumption := Draw(d.energyConsumption, EnergyConsumptionRange)
    )
  }

  // ---------------------------------------------------------------------------
  // Time series

  /** One key's refresh: the draw that `getRandomValue` consumes and the range it samples. */
  datatype Refresh = Refresh(r: real, rg: Range)

  /**
   `q` is `p` with each key of `changed` set to the value drawn for it: the
   label, every other key and its value stay, and no key goes away.
   */
  ghost predicate PointRefreshed(p: Point, q: Point, changed: map<string, Refresh>) {
    && q.time == p.time
    && q.fields.Keys == p.fields.Keys + changed.Keys
    && (forall k :: k in p.fields && k !in changed ==> q.fields[k] == p.fields[k])
    && (forall k :: k in changed ==> q.fields[k].Num? && DrawnFrom(q.fields[k].n, changed[k].r, changed[k].rg))
  }

  /**
   `ys` is the series `xs` with only its last point refreshed: same length,
   every earlier point untouched, and an empty series left empty.
   */
  ghost predicate SeriesRefreshed(xs: seq<Point>, ys: seq<Point>, changed: map<string, Refresh>) {
    && |ys| == |xs|
    && (forall i :: 0 <= i < |xs| - 1 ==> ys[i] == xs[i])
    && (|xs| > 0 ==> PointRefreshed(xs[|xs| - 1], ys[|ys| - 1], changed))
  }

  /** `randomizeLastPoint(arr, key, min, max)`: overwrite one key of the last point with a fresh draw. */
  function RandomizeLastPoint(arr: seq<Point>, key: string, r: real, rg: Range): (res: seq<Point>)
    requires Unit(r) && ValidRange(rg)
    ensures SeriesRefreshed(arr, res, map[key := Refresh(r, rg)])
  {
    if |arr| > 0 then
      var last := arr[|arr| - 1];
      arr[|arr| - 1 := last.(fields := last.fields[key := Num(Draw(r, rg))])]
    else
      arr
  }

  /** A refresh only ever leaves the labels of a series as they were. */
  lemma RefreshKeepsTimes(xs: seq<Point>, ys: seq<Point>, changed: map<string, Refresh>)
    requires SeriesRefreshed(xs, ys, changed)
    ensures Times(ys) == Times(xs)
  {
    assert forall i :: 0 <= i < |xs| ==> Times(ys)[i] == Times(xs)[i];
  }

  /**
   Refreshing one key of the last point and then another key is a refresh
   of both keys: the second step does not disturb the first.
   */
  lemma RefreshTwice(xs: seq<Point>, ys: seq<Point>, zs: seq<Point>,
                     first: map<string, Refresh>, second: map<string, Refresh>)
    requires SeriesRefreshed(xs, ys, first)
    requires SeriesRefreshed(ys, zs, second)
    requires first.Keys !! second.Keys
    ensures SeriesRefreshed(xs, zs, first + second)
  {
    if |xs| > 0 {
      var p, q, u := xs[|xs| - 1], ys[|ys| - 1], zs[|zs| - 1];
      var both := first + second;
      assert u.fields.Keys == p.fields.Keys + both.Keys;
      forall k | k in both
        ensures u.fields[k].Num? && DrawnFrom(u.fields[k].n, both[k].r, both[k].rg)
      {
        if k in second {
          assert both[k] == second[k];
        } else {
          assert k in first && k !in second;
          assert u.fields[k] == q.fields[k];
        }
      }
    }
  }

  /** The keys the battery chart refreshes: `battery` (40–100), then `load` (1–3). */
  function BatteryChanges(d: SeriesDraws): map<string, Refresh> {
    map["battery" := Refresh(d.battery, BatterySeriesRange)] + map["load" := Refresh(d.load, LoadSeriesRange)]
  }

  /** The keys an electrical-parameters chart refreshes: `voltage`, then `current`. */
  function ElectricalChanges(rv: real, voltage: Range, rc: real, current: Range): map<string, Refresh> {
    map["voltage" := Refresh(rv, voltage)] + map["current" := Refresh(rc, current)]
  }

  /** The battery chart: battery level, then load, on the same last point. */
  function RandomizeBatteryLoad(arr: seq<Point>, d: SeriesDraws): (res: seq<Point>)
    requires ValidSeriesDraws(d)
    ensures SeriesRefreshed(arr, res, BatteryChanges(d))
  {
    var first := map["battery" := Refresh(d.battery, BatterySeriesRange)];
    var second := map["load" := Refresh(d.load, LoadSeriesRange)];
    var withBattery := RandomizeLastPoint(arr, "battery", d.battery, BatterySeriesRange);
    var withLoad := RandomizeLastPoint(withBattery, "load", d.load, LoadSeriesRange);
    RefreshTwice(arr, withBattery, withLoad, first, second);
    withLoad
  }

  /** An electrical-parameters chart: voltage, then current, on the same last point. */
  function RandomizeElectrical(arr: seq<Point>, rv: real, voltage: Range, rc: real, current: Range)
    : (res: seq<Point>)
    requires Unit(rv) && ValidRange(voltage) && Unit(rc) && ValidRange(current)
    ensures SeriesRefreshed(arr, res, ElectricalChanges(rv, voltage, rc, current))
  {
    var first := map["voltage" := Refresh(rv, voltage)];
    var second := map["current" := Refresh(rc, current)];
    var withVoltage := RandomizeLastPoint(arr, "voltage", rv, voltage);
    var withCurrent := RandomizeLastPoint(withVoltage, "current", rc, current);
    RefreshTwice(arr, withVoltage, withCurrent, first, second);
    withCurrent
  }

  // ---------------------------------------------------------------------------
  // Predictions

  /** `w` lies within 5% of `v`, give or take the half hundredth that rounding may add. */
  predicate Drifted(v: real, w: real) {
    Abs(w - v) <= Abs(v) / 20.0 + 0.005
  }

  /**
   `w` is `getRandomValue(v * 0.95, v * 1.05)` for the draw `r`: within half a
   hundredth of the sample `r*(1.05v-0.95v)+0.95v`, hence within 5% of `v`
   before rounding and within `|v|/20 + 0.005` after.
   */
  predicate JitteredFrom(v: real, w: real, r: real) {
    Abs(w - Sample(r, v * 0.95, v * 1.05)) <= 0.005 && Drifted(v, w)
  }

  /**
   A prediction point after the tick: same label, `actual` present exactly
   when it was, left alone when it was 0 (a falsy number), redrawn from its
   own draw when it was any other number, and `predicted` always redrawn.
   */
  ghost predicate PredictionMoved(p: PredictionPoint, q: PredictionPoint, d: PredictionDraw) {
    && q.time == p.time
    && (q.actual.Some? <==> p.actual.Some?)
    && (p.actual == None || p.actual == Some(0.0) ==> q.actual == p.actual)
    && (p.actual.Some? && p.actual.value != 0.0 ==> JitteredFrom(p.actual.value, q.actual.value, d.actual))
    && (p.actual.Some? ==> Drifted(p.actual.value, q.actual.value))
    && JitteredFrom(p.predicted, q.predicted, d.predicted)
  }

  /** The body of the `predictionData.forEach` for one point. */
  function JitterPoint(p: PredictionPoint, d: PredictionDraw): (q: PredictionPoint)
    requires ValidPredictionDraw(d)
    ensures PredictionMoved(p, q, d)
  {
    var actual :=
      match p.actual
      case Some(v) => if v != 0.0 then Some(Jitter(d.actual, v)) else p.actual
      case None => None;
    var predicted := Jitter(d.predicted, p.predicted);
    PredictionPoint(p.time, actual, predicted)
  }

  function JitterPredictions(ps: seq<PredictionPoint>, ds: seq<PredictionDraw>): (qs: seq<PredictionPoint>)
    requires |ds| == |ps|
    requires forall i :: 0 <= i < |ds| ==> ValidPredictionDraw(ds[i])
    ensures |qs| == |ps|
    ensures forall i :: 0 <= i < |ps| ==> PredictionMoved(ps[i], qs[i], ds[i])
    ensures Slots(qs) == Slots(ps)
  {
    seq(|ps|, i requires 0 <= i < |ps| => JitterPoint(ps[i], ds[i]))
  }

  // ---------------------------------------------------------------------------
  // Devices

  /** The body of the `devices.forEach`: a new status, identity unchanged. */
  function SetStatus(dev: Device, r: real): (e: Device)
    ensures e.id == dev.id && e.name == dev.name && e.deviceType == dev.deviceType
    ensures e.status == Connected <==> r > DisconnectChance
  {
    dev.(status := if r > DisconnectChance then Connected else Disconnected)
  }

  function RandomizeDevices(ds: seq<Device>, rs: seq<real>): (es: seq<Device>)
    requires |rs| == |ds|
    ensures |es| == |ds|
    ensures forall i :: 0 <= i < |ds| ==>
      && es[i].id == ds[i].id && es[i].name == ds[i].name && es[i].deviceType == ds[i].deviceType
      && (es[i].status == Connected <==> rs[i] > DisconnectChance)
    ensures Identities(es) == Identities(ds)
  {
    seq(|ds|, i requires 0 <= i < |ds| => SetStatus(ds[i], rs[i]))
  }

  // ---------------------------------------------------------------------------
  // Alerts

  /** An alert without its id and timestamp: an entry of the canned pool. */
  datatype AlertTemplate = AlertTemplate(level: Level, message: string)

  /** The seven canned alerts a tick picks from. */
  const AlertPool: seq<AlertTemplate> := [
    AlertTemplate(Critical, "Overload: System load exceeds capacity."),
    AlertTemplate(Warning, "High Load Warning: System load is approaching maximum capacity."),
    AlertTemplate(Info, "Load Normal: System load has returned to normal levels."),
    AlertTemplate(Critical, "Solar generating but battery not charging. Check connections."),
    AlertTemplate(Warning, "Strong sunlight but panel underperforming."),
    AlertTemplate(Info, "Sudden drop in sunlight detected. Potential cloud cover."),
    AlertTemplate(Critical, "Battery critically low \U{2013} Discharge risk.")
  ]

  function TemplateOf(a: Alert): AlertTemplate {
    AlertTemplate(a.level, a.message)
  }

  /** `Math.floor(Math.random() * alertPool.length)`: always a valid pool index. */
  function PoolIndex(r: real): (i: nat)
    requires Unit(r)
    ensures i < |AlertPool|
  {
    var k := (r * |AlertPool| as real).Floor;
    assert 0.0 <= r * 7.0 < 7.0;
    k
  }

  /**
   The pick is uniform: pool entry `k` is chosen exactly by the draws in
   [k/7, (k+1)/7), an interval of the same width for every entry.
   */
  lemma PoolIndexInterval(r: real, k: nat)
    requires Unit(r) && k < |AlertPool|
    ensures PoolIndex(r) == k <==> k as real / 7.0 <= r < (k + 1) as real / 7.0
  {
    if k as real / 7.0 <= r < (k + 1) as real / 7.0 {
      FloorUnique(r * 7.0, k);
    }
  }

  /** The alert a tick logs: one iff the coin shows less than 0.2, taken from the pool. */
  function NewAlert(d: AlertDraw): (a: Option<Alert>)
    requires Unit(d.chance) && Unit(d.pick)
    ensures a.Some? <==> d.chance < AlertChance
    ensures a.Some? ==> && TemplateOf(a.value) == AlertPool[PoolIndex(d.pick)]
                        && a.value.id == d.id && a.value.timestamp == d.timestamp
  {
    if d.chance < AlertChance then
      var t := AlertPool[PoolIndex(d.pick)];
      Some(Alert(d.id, t.level, t.message, d.timestamp))
    else
      None
  }

  // ---------------------------------------------------------------------------
  // The tick

  /** The identity part of a device: what the tick never changes. */
  datatype DeviceIdentity = DeviceIdentity(id: string, name: string, deviceType: string)

  /** A prediction slot: its label and whether it carries a measured value. */
  datatype Slot = Slot(time: string, measured: bool)

  /** The layout of a snapshot: series labels, prediction slots and device identities. */
  datatype Shape = Shape(
    solarGeneration: seq<string>,
    batteryLoad: seq<string>,
    solarParameters: seq<string>,
    acParameters: seq<string>,
    predictions: seq<Slot>,
    devices: seq<DeviceIdentity>
  )

  function Slots(ps: seq<PredictionPoint>): (ss: seq<Slot>)
    ensures |ss| == |ps|
    ensures forall i :: 0 <= i < |ps| ==> ss[i] == Slot(ps[i].time, ps[i].actual.Some?)
  {
    seq(|ps|, i requires 0 <= i < |ps| => Slot(ps[i].time, ps[i].actual.Some?))
  }

  function Identities(ds: seq<Device>): (ids: seq<DeviceIdentity>)
    ensures |ids| == |ds|
    ensures forall i :: 0 <= i < |ds| ==> ids[i] == DeviceIdentity(ds[i].id, ds[i].name, ds[i].deviceType)
  {
    seq(|ds|, i requires 0 <= i < |ds| => DeviceIdentity(ds[i].id, ds[i].name, ds[i].deviceType))
  }

  function ShapeOf(s: DashboardData): Shape {
    Shape(
      Times(s.solarGenerationData),
      Times(s.batteryLoadData),
      Times(s.solarParametersData),
      Times(s.acParametersData),
      Slots(s.predictionData),
      Identities(s.devices)
    )
  }

  /** Each of the four chart series changed only in its named keys of its last point, each from its draw. */
  ghost predicate ChartsRefreshed(s: DashboardData, t: DashboardData, d: SeriesDraws) {
    && SeriesRefreshed(s.solarGenerationData, t.solarGenerationData, map["power" := Refresh(d.power, PowerSeriesRange)])
    && SeriesRefreshed(s.batteryLoadData, t.batteryLoadData, BatteryChanges(d))
    && SeriesRefreshed(s.solarParametersData, t.solarParametersData,
                       ElectricalChanges(d.solarVoltage, SolarVoltageRange, d.solarCurrent, SolarCurrentRange))
    && SeriesRefreshed(s.acParametersData, t.acParametersData,
                       ElectricalChanges(d.acVoltage, AcVoltageRange, d.acCurrent, AcCurrentRange))
  }

  /** The seven `randomizeLastPoint` calls of a tick, on the four series only. */
  function RefreshCharts(s: DashboardData, d: SeriesDraws): (t: DashboardData)
    requires ValidSeriesDraws(d)
    ensures ChartsRefreshed(s, t, d)
    ensures Times(t.solarGenerationData) == Times(s.solarGenerationData)
    ensures Times(t.batteryLoadData) == Times(s.batteryLoadData)
    ensures Times(t.solarParametersData) == Times(s.solarParametersData)
    ensures Times(t.acParametersData) == Times(s.acParametersData)
    ensures t.predictionData == s.predictionData && t.alerts == s.alerts
    ensures t.devices == s.devices && t.metrics == s.metrics
  {
    var solar := RandomizeLastPoint(s.solarGenerationData, "power", d.power, PowerSeriesRange);
    var battery := RandomizeBatteryLoad(s.batteryLoadData, d);
    var solarParams := RandomizeElectrical(s.solarParametersData, d.solarVoltage, SolarVoltageRange,
                                           d.solarCurrent, SolarCurrentRange);
    var acParams := RandomizeElectrical(s.acParametersData, d.acVoltage, AcVoltageRange,
                                        d.acCurrent, AcCurrentRange);
    RefreshKeepsTimes(s.solarGenerationData, solar, map["power" := Refresh(d.power, PowerSeriesRange)]);
    RefreshKeepsTimes(s.batteryLoadData, battery, BatteryChanges(d));
    RefreshKeepsTimes(s.solarParametersData, solarParams,
                      ElectricalChanges(d.solarVoltage, SolarVoltageRange, d.solarCurrent, SolarCurrentRange));
    RefreshKeepsTimes(s.acParametersData, acParams,
                      ElectricalChanges(d.acVoltage, AcVoltageRange, d.acCurrent, AcCurrentRange));
    s.(solarGenerationData := solar, batteryLoadData := battery,
       solarParametersData := solarParams, acParametersData := acParams)
  }

  /**
   `generateRandomDashboardData` up to the final assignment: the next
   snapshot. The layout is kept, every resampled metric comes from its draw,
   each series changes only in the named keys of its last point, predictions
   drift, device statuses follow their draws, and the alert log gains the
   new alert, if any, and loses its oldest entry only when over twenty.
   */
  function Tick(s: DashboardData, d: Draws): (t: DashboardData)
    requires DrawsFor(s, d)
    ensures ShapeOf(t) == ShapeOf(s)
    ensures MetricsDrawn(t.metrics, d.metrics) && MetricsInRange(t.metrics)
    ensures t.metrics.latitude == s.metrics.latitude && t.metrics.longitude == s.metrics.longitude
    ensures ChartsRefreshed(s, t, d.series)
    ensures |t.predictionData| == |s.predictionData|
    ensures forall i :: 0 <= i < |s.predictionData| ==> PredictionMoved(s.predictionData[i], t.predictionData[i], d.predictions[i])
    ensures |t.devices| == |s.devices|
    ensures forall i :: 0 <= i < |s.devices| ==> (t.devices[i].status == Connected <==> d.devices[i] > DisconnectChance)
    ensures |s.alerts| <= AlertLog.MaxAlerts ==> t.alerts == AlertLog.Newest(s.alerts + AlertLog.Added(NewAlert(d.alert)))
  {
    var charts := RefreshCharts(s, d.series);
    var newAlert := NewAlert(d.alert);
    AlertLog.EnqueueIsWindow(s.alerts, newAlert);
    charts.(
      predictionData := JitterPredictions(s.predictionData, d.predictions),
      devices := RandomizeDevices(s.devices, d.devices),
      alerts := AlertLog.Enqueue(s.alerts, newAlert),
      metrics := RandomizeMetrics(s.metrics, d.metrics)
    )
  }
}
