/**
 The shapes of the dashboard feed: one snapshot of solar, battery and
 inverter telemetry together with the alert log, the device table and the
 naive prediction series. Every TypeScript string union becomes a datatype,
 every optional property an `Option`, every array a `seq`.
 */
module Types {

  /** An optional property (`actual?`, `powerFactor?`). */
  datatype Option<+T> = None | Some(value: T)

  /** A device's connection state, the union 'Connected' | 'Disconnected'. */
  datatype Status = Connected | Disconnected

  /** An alert's severity, the union 'info' | 'warning' | 'critical'. */
  datatype Level = Info | Warning | Critical

  /** The string a status is written as in the JSON body. */
  function StatusName(s: Status): string {
    match s
    case Connected => "Connected"
    case Disconnected => "Disconnected"
  }

  /** Reads a status back from its JSON string; only the two names are statuses. */
  function ParseStatus(t: string): (r: Option<Status>)
    ensures forall s :: r == Some(s) <==> StatusName(s) == t
  {
    if t == "Connected" then Some(Connected)
    else if t == "Disconnected" then Some(Disconnected)
    else None
  }

  /** The string a level is written as in the JSON body. */
  function LevelName(l: Level): string {
    match l
    case Info => "info"
    case Warning => "warning"
    case Critical => "critical"
  }

  /** Reads a level back from its JSON string; only the three names are levels. */
  function ParseLevel(t: string): (r: Option<Level>)
    ensures forall l :: r == Some(l) <==> LevelName(l) == t
  {
    if t == "info" then Some(Info)
    else if t == "warning" then Some(Warning)
    else if t == "critical" then Some(Critical)
    else None
  }

  /** A value under one of a time-series point's keys: `number | string`. */
  datatype Field = Num(n: real) | Text(s: string)

  /**
   A time-series point: its `time` label plus the keyed fields
   (`power`, `battery`, `load`, `voltage`, `current`, ...).
   */
  datatype Point = Point(time: string, fields: map<string, Field>)

  datatype Device = Device(id: string, name: string, status: Status, deviceType: string)

  datatype Alert = Alert(id: string, level: Level, message: string, timestamp: string)

  /** A prediction point; `actual` is absent for times still in the future. */
  datatype PredictionPoint = PredictionPoint(time: string, actual: Option<real>, predicted: real)

  /** The stat-card readings; only `powerFactor` is optional. */
  datatype Metrics = Metrics(
    windSpeed: real,
    cloudCoverage: real,
    rain: real,
    latitude: real,
    longitude: real,
    solarPower: real,
    energyGeneration: real,
    energyConsumption: real,
    inverterVoltage: real,
    inverterCurrent: real,
    batteryPercentage: real,
    powerFactor: Option<real>
  )

  /** One whole snapshot: four time series, predictions, alerts, devices, metrics. */
  datatype DashboardData = DashboardData(
    solarGenerationData: seq<Point>,
    batteryLoadData: seq<Point>,
    solarParametersData: seq<Point>,
    acParametersData: seq<Point>,
    predictionData: seq<PredictionPoint>,
    alerts: seq<Alert>,
    devices: seq<Device>,
    metrics: Metrics
  )

  /** The `time` labels of a series, in order. */
  function Times(ps: seq<Point>): (ts: seq<string>)
    ensures |ts| == |ps|
    ensures forall i :: 0 <= i < |ps| ==> ts[i] == ps[i].time
  {
    seq(|ps|, i requires 0 <= i < |ps| => ps[i].time)
  }
}
