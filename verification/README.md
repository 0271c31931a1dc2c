# Synnergy dashboard feed — a Dafny model

Synnergy is a solar / battery / inverter monitoring dashboard. Its only
piece of logic is the mock telemetry feed behind `/api/dashboard-data`. The
route keeps one process-wide snapshot (`latestDashboardData`), seeded from a
static fixture. Every `GET` runs one *tick*:

- it draws the ten stat-card readings afresh;
- it overwrites named fields of the last point of each of the four chart series;
- it redraws each prediction value within 5% of itself before rounding to two decimals, so within `|v|/20 + 0.005` after;
- it sets each device's status from its own draw;
- with a 20% chance it logs one alert from a pool of seven;
- it shifts one alert off the front when the log holds more than twenty.

The new snapshot is stored and returned. `POST` only reports whether the
body parsed. On the client, the inverter chart lays the battery series'
`load` over the AC-parameters series, position by position.

The model is functional. Each `Math.random()` result, the clock-derived
alert id and timestamp, and where (if anywhere) a `GET` throws are explicit
inputs.
A tick is then a pure function `Generator.Tick(snapshot, draws)`.

Modules:

- `Types` (types.dfy): the datatypes of `types.ts`.
- `Numeric` (numeric.dfy): `getRandomValue`. This includes the rounding of
  `Number.prototype.toFixed` as ECMA-262 defines it: nearest multiple, ties
  away from zero, and no rounding from 10^21 on. The rounding is done on exact
  reals.
- `Seed` (seed.dfy): the fixture of `data.ts`.
- `AlertLog` (alert_log.dfy): the bounded FIFO of alerts, with the sliding
  window `Newest` as its reference definition.
- `Generator` (generator.dfy): the tick.
- `Server` (server.dfy): the stored state, `GET`/`POST`, runs of requests, and
  the invariant every stored snapshot keeps.
- `PowerCharts` (power_charts.dfy): `combinedInverterData`, with a recursive
  reference definition.

The over-full log is not trimmed back to twenty in a loop: each tick shifts
at most one entry (`if`, not `while`). The model shifts once, as the code
does, and proves that this keeps the bound of twenty. Once broken, the bound
comes back from twenty-one entries only on a tick that adds no alert
(`AlertLog.OverFullShiftsOne`), and never from more than twenty-one
(`AlertLog.BoundNotRestored`).

## Model

| member | source | states |
|---|---|---|
| Types.ParseStatus | Synnergy/src/lib/types.ts:4 | A device status is exactly one of the two names `Connected`/`Disconnected`: parsing succeeds with `s` iff the text is the name of `s`. |
| Types.ParseLevel | Synnergy/src/lib/types.ts:15 | An alert level is exactly one of `info`/`warning`/`critical`: parsing succeeds with `l` iff the text is the name of `l`. |
| Numeric.ToFixed | Synnergy/src/app/api/dashboard-data/route.ts:12 | `parseFloat(x.toFixed(d))` is within half a unit of `x`. Below 10^21 it has at most `d` decimals. It leaves a number that already has `d` decimals unchanged, and keeps non-negative numbers non-negative. |
| Numeric.RoundHalfUpFacts | Synnergy/src/app/api/dashboard-data/route.ts:12 | Rounding a non-negative number gives a non-negative multiple of the precision, at most half a unit away, and fixes such multiples. |
| Numeric.NegatedDecimals | Synnergy/src/app/api/dashboard-data/route.ts:12 | Having `d` decimals is symmetric under negation, so negative values round by magnitude. |
| Numeric.SampleInRange | Synnergy/src/app/api/dashboard-data/route.ts:11-13 | `r*(max-min)+min` for `r` in [0,1) lies in [min, max], and strictly below max when min < max. |
| Numeric.RoundedSampleInRange | Synnergy/src/app/api/dashboard-data/route.ts:11-13 | Rounding cannot move a sample out of its range when both bounds have the range's precision. |
| Numeric.Draw | Synnergy/src/app/api/dashboard-data/route.ts:11-13 | `getRandomValue(min, max, d)` returns a value in [min, max] with `d` decimals, within half a unit of `r*(max-min)+min`. |
| Numeric.JitterWithinFivePercent | Synnergy/src/app/api/dashboard-data/route.ts:60-62 | The unrounded drift sample `r*(1.05v-0.95v)+0.95v` lies within 5% of `v`, for negative `v` too. |
| Numeric.Jitter | Synnergy/src/app/api/dashboard-data/route.ts:60-62 | The drifted value is within half a hundredth of a sample within 5% of `v`, so within `|v|/20 + 0.005` of `v`. |
| Seed.StaticDevices | Synnergy/src/lib/data.ts:3-22 | The seed has three devices with pairwise distinct ids. |
| Seed.StaticSolarGeneration | Synnergy/src/lib/data.ts:24-37 | The solar series carries the twelve labels 00:00..22:00 in order. |
| Seed.StaticBatteryLoad | Synnergy/src/lib/data.ts:39-52 | The battery series carries the twelve labels in order, and every point has a `load`. |
| Seed.StaticSolarParameters | Synnergy/src/lib/data.ts:54-67 | The solar-parameters series carries the twelve labels in order. |
| Seed.StaticAcParameters | Synnergy/src/lib/data.ts:69-82 | The AC series carries the twelve labels in order, and no point has a `load` of its own. |
| Seed.StaticAlerts | Synnergy/src/lib/data.ts:84-92 | The seed log has seven alerts with distinct ids, so it starts within the bound of twenty. |
| Seed.StaticPredictions | Synnergy/src/lib/data.ts:94-102 | Seven prediction points: the first four carry `actual`, the last three do not. |
| Seed.StaticMetrics | Synnergy/src/lib/data.ts:112-125 | The seed defines all twelve metrics, `powerFactor` included. |
| Seed.StaticDashboardData | Synnergy/src/lib/data.ts:104-126 | The initial snapshot has 3 devices, 7 alerts and 7 prediction points, and all four series carry the same twelve labels. |
| AlertLog.Added | Synnergy/src/app/api/dashboard-data/route.ts:72-80 | A tick appends nothing or exactly the one new alert. |
| AlertLog.Newest | Synnergy/src/app/api/dashboard-data/route.ts:82-85 | The reference window: at most twenty entries, a suffix of the history, and the whole history when it is short. |
| AlertLog.Enqueue | Synnergy/src/app/api/dashboard-data/route.ts:79-85 | After push-then-shift the log is a suffix of `old ++ added`, missing at most its oldest entry, and one is dropped iff the length exceeds twenty. A log within the bound stays within it. |
| AlertLog.EnqueueIsWindow | Synnergy/src/app/api/dashboard-data/route.ts:72-85 | For a log within the bound, one tick equals the sliding window `Newest` of everything seen. |
| AlertLog.BoundNotRestored | Synnergy/src/app/api/dashboard-data/route.ts:82-85 | A single shift cannot repair a log of more than twenty-one entries. |
| AlertLog.OverFullShiftsOne | Synnergy/src/app/api/dashboard-data/route.ts:82-85 | An over-full log loses exactly one entry per tick beyond what the tick adds; from twenty-one entries the log is back at twenty exactly when no alert was added. |
| AlertLog.EnqueueEntries | Synnergy/src/app/api/dashboard-data/route.ts:79-84 | Each entry after the tick is the entry at the same offset from the end of `old ++ added`: nothing is edited or reordered. |
| AlertLog.EnqueueAllIsWindow | Synnergy/src/app/api/dashboard-data/route.ts:71-88 | Over any run of ticks from a log within the bound, the log is the newest twenty of the initial entries followed by every added alert. |
| AlertLog.RunOfAddsKeepsLastTwenty | Synnergy/src/app/api/dashboard-data/route.ts:71-88 | Twenty or more ticks that each add an alert leave exactly the last twenty added, oldest first. |
| Generator.RandomizeMetrics | Synnergy/src/app/api/dashboard-data/route.ts:31-40 | Each of the ten readings comes from its own draw in its listed range and precision (`batteryPercentage` and `cloudCoverage` whole). `powerFactor` becomes present. Latitude and longitude are untouched. |
| Generator.RandomizeLastPoint | Synnergy/src/app/api/dashboard-data/route.ts:43-47 | Length and all but the last point are kept. The last point keeps its label and other keys and gains the key, set to the value drawn from its own draw: in range, and within half a unit of the sample `r*(max-min)+min`. An empty series is left as it is. |
| Generator.RefreshKeepsTimes | Synnergy/src/app/api/dashboard-data/route.ts:43-55 | A refreshed series keeps every time label. |
| Generator.RefreshTwice | Synnergy/src/app/api/dashboard-data/route.ts:50-55 | Two refreshes of disjoint keys on one series are one refresh of both; the second does not disturb the first key's value or its tie to its draw. |
| Generator.RandomizeBatteryLoad | Synnergy/src/app/api/dashboard-data/route.ts:50-51 | The battery series changes only in `battery` (40–100) and `load` (1–3) of its last point, each drawn from its own draw. |
| Generator.RandomizeElectrical | Synnergy/src/app/api/dashboard-data/route.ts:52-55 | A parameters series changes only in `voltage` and `current` of its last point, each drawn from its own draw in its range. |
| Generator.RefreshCharts | Synnergy/src/app/api/dashboard-data/route.ts:49-55 | The seven last-point refreshes change the four series only in their named keys (power; battery and load; voltage and current twice), each key drawn from its own draw, keep every label, and touch nothing else of the snapshot. |
| Generator.JitterPoint | Synnergy/src/app/api/dashboard-data/route.ts:58-63 | The label is kept and `actual` stays present exactly when it was. An absent `actual` or one of 0 is untouched. A nonzero one, and `predicted` always, is within half a hundredth of the sample its own draw gives in `[0.95v, 1.05v]`: within 5% before rounding, within `|v|/20 + 0.005` after. |
| Generator.JitterPredictions | Synnergy/src/app/api/dashboard-data/route.ts:58-63 | The prediction list keeps its length, and every point moves as `JitterPoint` states, from the draw at its own position. |
| Generator.SetStatus | Synnergy/src/app/api/dashboard-data/route.ts:66-68 | A device keeps id, name and type, and is `Connected` iff its draw is above 0.3 (exactly 0.3 disconnects). |
| Generator.RandomizeDevices | Synnergy/src/app/api/dashboard-data/route.ts:65-68 | The device list keeps its length and identities; each status follows its own draw. |
| Generator.PoolIndex | Synnergy/src/app/api/dashboard-data/route.ts:73 | `floor(r*7)` is always a valid index of the seven-entry pool. |
| Generator.PoolIndexInterval | Synnergy/src/app/api/dashboard-data/route.ts:73 | Entry `k` is picked exactly by draws in [k/7, (k+1)/7), so every entry is reachable and the pick is uniform. |
| Generator.NewAlert | Synnergy/src/app/api/dashboard-data/route.ts:71-80 | An alert is produced iff the coin is below 0.2. Its level and message are the pool entry at `floor(pick*7)`, and its id and timestamp are the given ones. |
| Generator.Tick | Synnergy/src/app/api/dashboard-data/route.ts:27-90 | One tick keeps the snapshot's layout (labels, prediction slots, device identities). Metrics are drawn in range with the coordinates kept. Each series changes only in its named keys of the last point, each from its draw, and each prediction point is redrawn from the draw at its position. Device statuses follow their draws. Under the bound, the log is the window of the old log plus the new alert. |
| Server.Init | Synnergy/src/app/api/dashboard-data/route.ts:8 | The process starts from the seed, which already satisfies the invariant: 7 alerts, 3 devices, 7 prediction points. |
| Server.SeedAlertsFromPool | Synnergy/src/lib/data.ts:84-92 | Every seed alert's level and message is the pool entry at the same position. |
| Server.SeedMetricsInRange | Synnergy/src/lib/data.ts:112-125 | The seed's readings already lie in the ranges and precisions a tick draws from. |
| Server.TickKeepsPool | Synnergy/src/app/api/dashboard-data/route.ts:71-85 | If every logged alert comes from the pool, so does every alert after a tick. |
| Server.EnqueueKeepsPool | Synnergy/src/app/api/dashboard-data/route.ts:79-85 | Push-then-shift of a pool alert, or of none, onto a log of pool alerts leaves only pool alerts. |
| Server.HandleGet | Synnergy/src/app/api/dashboard-data/route.ts:93-104 | Status 200 with the new snapshot iff nothing throws. Any throw answers the seed with 500. A throw in the tick, before the store at line 88, leaves the stored snapshot unchanged. A throw while building the response, after the store, leaves the ticked snapshot stored. |
| Server.ErrorAfterStoreKeepsTick | Synnergy/src/app/api/dashboard-data/route.ts:88-103 | A 500 does not imply an unchanged state: a throw in `NextResponse.json` after the store answers the seed while the ticked snapshot stays stored. |
| Server.HandlePost | Synnergy/src/app/api/dashboard-data/route.ts:106-122 | 200 with "Data received successfully" iff the body parses, 400 with "Invalid data format" otherwise. The stored snapshot never changes. |
| Server.Step | Synnergy/src/app/api/dashboard-data/route.ts:93-122 | Any request on a stored snapshot that meets the invariant leaves one that meets it. A `POST` changes nothing. |
| Server.Run | Synnergy/src/app/api/dashboard-data/route.ts:88-104 | After any sequence of requests the stored snapshot still meets the invariant: seed layout, at most twenty alerts all from the pool, readings in range, seed coordinates. |
| Server.AlertsStayBounded | Synnergy/src/app/api/dashboard-data/route.ts:82-85 | From process start, every request sequence leaves at most twenty alerts and the seed's layout. |
| Server.QuietRunKeepsState | Synnergy/src/app/api/dashboard-data/route.ts:93-122 | A run of `POST`s and of `GET`s that throw inside the tick, before the store, leaves the stored snapshot exactly as it was. |
| PowerCharts.LoadAt | Synnergy/src/components/dashboard/power-charts.tsx:55 | `batteryData[i]?.load ?? 0`: the battery load at `i` when the point exists and has one, else 0. |
| PowerCharts.WithLoad | Synnergy/src/components/dashboard/power-charts.tsx:54-55 | `{...p, load}` keeps the label and every other key, and replaces any existing `load`. |
| PowerCharts.CombineInverter | Synnergy/src/components/dashboard/power-charts.tsx:53-56 | The combined series is as long as the AC series. Each point keeps its AC label and fields, and gains `load` from the battery point at the same position, or 0 when there is none. |
| PowerCharts.CombineIsZip | Synnergy/src/components/dashboard/power-charts.tsx:53-56 | The position-indexed map equals a recursive walk down both series with the 0 default, for all inputs. |
| PowerCharts.NoDefaultWhenCovered | Synnergy/src/components/dashboard/power-charts.tsx:55 | When the battery series is at least as long and every point has a load, the 0 default never shows. |
| PowerCharts.SeedInverterChart | Synnergy/src/components/dashboard/power-charts.tsx:53-56 | On the seed, pairing by position is pairing by hour: twelve labels, each point with its own hour's battery load. |

## Left out

- Binary floating point. Numbers are exact reals. `toFixed` rounding is modelled on the exact value, so the rare cases where a double's binary expansion rounds the other way are not covered. `parseFloat` is the identity.
- Randomness and the clock. Each `Math.random()` use is its own input in [0, 1), grouped by purpose rather than as one stream in call order. The model says nothing about probabilities beyond the threshold and interval facts. The alert id (`alert-${Date.now()}-${Math.random()}`) and the ISO timestamp are given strings.
- What makes a `GET` throw. Typed snapshots cannot make the tick fail, so `GET`'s catch branch is driven by an explicit input: no throw, a throw inside the tick before the store, or a throw in `NextResponse.json` after it.
- The deep copy `JSON.parse(JSON.stringify(..))`. On immutable values it is the identity. JSON corner cases (`undefined`, non-finite numbers) do not arise in typed snapshots.
- HTTP plumbing and logging. `NextResponse`, headers, `request.json()` beyond parse or no-parse, and `console` output are left out. The `POST` body's content is ignored by the source and not modelled.
- Concurrency. Interleaved requests on the unguarded module variable (lost updates) are not modelled; requests are served one at a time.
- A field named `time` among a point's other fields. A point's `time` label is held apart from its fields, which are `number | string` values. An index-signature key named `time` would be the label itself in the source; the model keeps the two apart.
- Generator.Tick: the sliding-window form of the alert log is stated only for logs within the bound, the only logs a running process ever holds (`Server.Run`).
- ml_model_training.py: offline model training with pandas and LightGBM, all foreign library calls and file I/O.
- JSX and chart markup in power-charts.tsx and the pages, which are presentation only.
