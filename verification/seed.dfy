/**
 The static fixture the feed starts from (Synnergy/src/lib/data.ts): three
 microcontrollers, four two-hourly series over one day, seven alerts, seven
 prediction points and the stat-card metrics. Each part is a function whose
 contract records the facts the rest of the model relies on.
 */
module Seed {
  import opened Types

  /** The twelve two-hourly labels every seed series uses, in order. */
  const HourLabels: seq<string> :=
    ["00:00", "02:00", "04:00", "06:00", "08:00", "10:00",
     "12:00", "14:00", "16:00", "18:00", "20:00", "22:00"]

  function StaticDevices(): (ds: seq<Device>)
    ensures |ds| == 3
    ensures forall i, j :: 0 <= i < j < |ds| ==> ds[i].id != ds[j].id
  {
    [ Device("esp32-main", "ESP32 Main", Connected, "Microcontroller"),
      Device("esp32-essential", "Essential ESP32", Connected, "Microcontroller"),
      Device("esp32-non-essential", "Non-Essential ESP32", Disconnected, "Microcontroller") ]
  }

  function PowerPoint(time: string, power: real): Point {
    Point(time, map["power" := Num(power)])
  }

  function BatteryPoint(time: string, battery: real, load: real): Point {
    Point(time, map["battery" := Num(battery), "load" := Num(load)])
  }

  function ElectricalPoint(time: string, voltage: real, current: real): Point {
    Point(time, map["voltage" := Num(voltage), "current" := Num(current)])
  }

  function StaticSolarGeneration(): (ps: seq<Point>)
    ensures Times(ps) == HourLabels
  {
    [ PowerPoint("00:00", 0.0), PowerPoint("02:00", 0.0), PowerPoint("04:00", 0.0),
      PowerPoint("06:00", 0.5), PowerPoint("08:00", 2.1), PowerPoint("10:00", 3.5),
      PowerPoint("12:00", 4.2), PowerPoint("14:00", 3.8), PowerPoint("16:00", 2.5),
      PowerPoint("18:00", 0.8), PowerPoint("20:00", 0.0), PowerPoint("22:00", 0.0) ]
  }

  function StaticBatteryLoad(): (ps: seq<Point>)
    ensures Times(ps) == HourLabels
    ensures forall i :: 0 <= i < |ps| ==> "load" in ps[i].fields
  {
    [ BatteryPoint("00:00", 60.0, 1.2), BatteryPoint("02:00", 55.0, 1.1),
      BatteryPoint("04:00", 50.0, 1.0), BatteryPoint("06:00", 52.0, 1.5),
      BatteryPoint("08:00", 60.0, 2.0), BatteryPoint("10:00", 75.0, 1.8),
      BatteryPoint("12:00", 85.0, 1.7), BatteryPoint("14:00", 90.0, 1.9),
      BatteryPoint("16:00", 88.0, 2.2), BatteryPoint("18:00", 82.0, 2.5),
      BatteryPoint("20:00", 75.0, 2.1), BatteryPoint("22:00", 68.0, 1.5) ]
  }

  function StaticSolarParameters(): (ps: seq<Point>)
    ensures Times(ps) == HourLabels
  {
    [ ElectricalPoint("00:00", 0.0, 0.0), ElectricalPoint("02:00", 0.0, 0.0),
      ElectricalPoint("04:00", 0.0, 0.0), ElectricalPoint("06:00", 350.0, 1.5),
      ElectricalPoint("08:00", 380.0, 5.5), ElectricalPoint("10:00", 400.0, 8.8),
      ElectricalPoint("12:00", 410.0, 10.2), ElectricalPoint("14:00", 405.0, 9.3),
      ElectricalPoint("16:00", 380.0, 6.5), ElectricalPoint("18:00", 360.0, 2.2),
      ElectricalPoint("20:00", 0.0, 0.0), ElectricalPoint("22:00", 0.0, 0.0) ]
  }

  function StaticAcParameters(): (ps: seq<Point>)
    ensures Times(ps) == HourLabels
    ensures forall i :: 0 <= i < |ps| ==> "load" !in ps[i].fields
  {
    [ ElectricalPoint("00:00", 228.0, 5.2), ElectricalPoint("02:00", 225.0, 5.1),
      ElectricalPoint("04:00", 226.0, 5.0), ElectricalPoint("06:00", 230.0, 6.5),
      ElectricalPoint("08:00", 232.0, 8.1), ElectricalPoint("10:00", 231.0, 7.9),
      ElectricalPoint("12:00", 233.0, 7.5), ElectricalPoint("14:00", 230.0, 8.2),
      ElectricalPoint("16:00", 229.0, 9.0), ElectricalPoint("18:00", 235.0, 10.5),
      ElectricalPoint("20:00", 232.0, 8.5), ElectricalPoint("22:00", 230.0, 6.8) ]
  }

  // The seed alerts one by one, in the order the fixture lists them.
  const Overload := Alert("1", Critical, "Overload: System load exceeds capacity.", "2024-05-23T14:00:00Z")
  const HighLoad := Alert("2", Warning, "High Load Warning: System load is approaching maximum capacity.", "2024-05-23T13:30:00Z")
  const LoadNormal := Alert("3", Info, "Load Normal: System load has returned to normal levels.", "2024-05-23T13:45:00Z")
  const NotCharging := Alert("4", Critical, "Solar generating but battery not charging. Check connections.", "2024-05-23T12:00:00Z")
  const Underperforming := Alert("5", Warning, "Strong sunlight but panel underperforming.", "2024-05-23T10:30:00Z")
  const SunlightDrop := Alert("6", Info, "Sudden drop in sunlight detected. Potential cloud cover.", "2024-05-23T11:45:00Z")
  const BatteryLow := Alert("7", Critical, "Battery critically low \U{2013} Discharge risk.", "2024-05-23T09:00:00Z")

  /** The seven seed alerts, with the ids "1" to "7". */
  function StaticAlerts(): (log: seq<Alert>)
    ensures |log| == 7
    ensures forall i :: 0 <= i < |log| ==> |log[i].id| == 1 && log[i].id[0] as int == '1' as int + i
    ensures forall i, j :: 0 <= i < j < |log| ==> log[i].id != log[j].id
  {
    [Overload, HighLoad, LoadNormal, NotCharging, Underperforming, SunlightDrop, BatteryLow]
  }

  /** Four past hours carry a measured value; the three future hours do not. */
  function StaticPredictions(): (ps: seq<PredictionPoint>)
    ensures |ps| == 7
    ensures forall i :: 0 <= i < |ps| ==> (ps[i].actual.Some? <==> i < 4)
  {
    [ PredictionPoint("13:00", Some(4.2), 4.1),
      PredictionPoint("14:00", Some(3.8), 3.9),
      PredictionPoint("15:00", Some(3.2), 3.3),
      PredictionPoint("16:00", Some(2.5), 2.6),
      PredictionPoint("17:00", None, 1.8),
      PredictionPoint("18:00", None, 0.9),
      PredictionPoint("19:00", None, 0.2) ]
  }

  /** All twelve readings, `powerFactor` included. */
  function StaticMetrics(): (m: Metrics)
    ensures m.powerFactor.Some?
  {
    Metrics(
      windSpeed := 5.2,
      cloudCoverage := 45.0,
      rain := 0.0,
      latitude := 34.0522,
      longitude := -118.2437,
      solarPower := 4.2,
      energyGeneration := 15.3,
      energyConsumption := 5.1,
      inverterVoltage := 230.0,
      inverterCurrent := 8.2,
      batteryPercentage := 88.0,
      powerFactor := Some(0.98)
    )
  }

  /** `staticDashboardData`: the snapshot the process starts from. */
  function StaticDashboardData(): (s: DashboardData)
    ensures |s.devices| == 3 && |s.alerts| == 7 && |s.predictionData| == 7
    ensures Times(s.solarGenerationData) == HourLabels
    ensures Times(s.batteryLoadData) == HourLabels
    ensures Times(s.solarParametersData) == HourLabels
    ensures Times(s.acParametersData) == HourLabels
  {
    DashboardData(
      solarGenerationData := StaticSolarGeneration(),
      batteryLoadData := StaticBatteryLoad(),
      solarParametersData := StaticSolarParameters(),
      acParametersData := StaticAcParameters(),
      predictionData := StaticPredictions(),
      alerts := StaticAlerts(),
      devices := StaticDevices(),
      metrics := StaticMetrics()
    )
  }
}
