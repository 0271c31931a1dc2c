/**
 The route's process-wide state and its two handlers. The module-level
 `latestDashboardData` starts as a copy of the seed. `GET` runs one tick and
 stores and returns the result. Anything that throws inside its `try` is
 answered with the seed and status 500. A throw inside the tick comes
 before the store and leaves the stored snapshot as it was. A throw while
 the response is built comes after the store, so the new snapshot stays.
 `POST` reads a body and answers 200 or 400, never touching the stored
 snapshot.
 */
module Server {
  import opened Types
  import opened Numeric
  import AlertLog
  import Seed
  import opened Generator

  /** The one mutable cell of the route, `latestDashboardData`. */
  datatype State = State(latest: DashboardData)

  /** What a handler answers with: a snapshot or a `{ message }` object, and a status. */
  datatype Body = Snapshot(data: DashboardData) | Message(text: string)

  datatype Response = Response(status: nat, body: Body)

  datatype Outcome = Outcome(next: State, response: Response)

  /** A `POST` body as far as the handler cares: `request.json()` succeeds or throws. */
  datatype Payload = Parsed | Unparseable

  /**
   How a `GET` ends. It completes, or it throws inside the tick, before the
   tick's final assignment to the stored snapshot. Or it throws in
   `NextResponse.json`, after that assignment.
   */
  datatype GetFailure = Completes | ThrowsBeforeStore | ThrowsAfterStore

  /**
   A request with everything it depends on made explicit: a `GET` carries
   the tick's draws and how it ends.
   */
  datatype Request = Get(draws: Draws, failure: GetFailure) | Post(payload: Payload)

  const OkMessage := "Data received successfully"
  const BadFormatMessage := "Invalid data format"

  // ---------------------------------------------------------------------------
  // The invariant of the stored snapshot

  /** Every alert of the log is an entry of the canned pool (id and timestamp aside). */
  ghost predicate FromPool(log: seq<Alert>) {
    forall i :: 0 <= i < |log| ==> TemplateOf(log[i]) in AlertPool
  }

  /**
   What every stored snapshot satisfies: the seed's layout, at most twenty
   alerts all taken from the pool, stat-card readings in range, and the
   seed's coordinates.
   */
  ghost predicate Invariant(st: State) {
    var seed := Seed.StaticDashboardData();
    && ShapeOf(st.latest) == ShapeOf(seed)
    && |st.latest.alerts| <= AlertLog.MaxAlerts
    && FromPool(st.latest.alerts)
    && MetricsInRange(st.latest.metrics)
    && st.latest.metrics.latitude == seed.metrics.latitude
    && st.latest.metrics.longitude == seed.metrics.longitude
  }

  /** The process start: the stored snapshot is the seed. */
  function Init(): (st: State)
    ensures Invariant(st)
    ensures |st.latest.alerts| == 7 && |st.latest.devices| == 3 && |st.latest.predictionData| == 7
  {
    var seed := Seed.StaticDashboardData();
    SeedAlertsFromPool();
    SeedMetricsInRange();
    State(seed)
  }

  /** Each of the seven seed alerts is, word for word, the pool entry at its own position. */
  lemma SeedAlertsFromPool()
    ensures var log := Seed.StaticAlerts();
            forall i :: 0 <= i < |log| ==> TemplateOf(log[i]) == AlertPool[i]
    ensures FromPool(Seed.StaticAlerts())
  {
    var log := Seed.StaticAlerts();
    assert forall i :: 0 <= i < |log| ==> TemplateOf(log[i]) == AlertPool[i];
  }

  /** The seed's stat-card readings already lie in the ranges a tick draws from. */
  lemma SeedMetricsInRange()
    ensures MetricsInRange(Seed.StaticMetrics())
  {
    var m := Seed.StaticMetrics();
    assert IsInt(m.inverterVoltage * 100.0) && IsInt(m.inverterCurrent * 100.0);
    assert IsInt(m.powerFactor.value * 100.0) && IsInt(m.batteryPercentage);
    assert IsInt(m.windSpeed * 100.0) && IsInt(m.cloudCoverage) && IsInt(m.rain * 100.0);
    assert IsInt(m.solarPower * 100.0) && IsInt(m.energyGeneration * 100.0);
    assert IsInt(m.energyConsumption * 100.0);
  }

  /** A tick that starts from pool alerts logs only pool alerts. */
  lemma TickKeepsPool(log: seq<Alert>, d: AlertDraw)
    requires FromPool(log) && Unit(d.chance) && Unit(d.pick)
    ensures FromPool(AlertLog.Enqueue(log, NewAlert(d)))
  {
    EnqueueKeepsPool(log, NewAlert(d));
  }

  /** Enqueueing a pool alert, or none, onto pool alerts leaves only pool alerts. */
  lemma EnqueueKeepsPool(log: seq<Alert>, x: Option<Alert>)
    requires FromPool(log)
    requires x.Some? ==> TemplateOf(x.value) in AlertPool
    ensures FromPool(AlertLog.Enqueue(log, x))
  {
    var t := log + AlertLog.Added(x);
    var r := AlertLog.Enqueue(log, x);
    forall i | 0 <= i < |r|
      ensures TemplateOf(r[i]) in AlertPool
    {
      AlertLog.EnqueueEntries(log, x, i);
      var j := |t| - |r| + i;
      if j >= |log| {
        assert t[j] == x.value;
      } else {
        assert t[j] == log[j];
      }
    }
  }

  // ---------------------------------------------------------------------------
  // Handlers

  /**
   `GET`: 200 with the new snapshot exactly when nothing throws. Any throw
   answers the seed with 500. The stored snapshot is the ticked one unless
   the throw came before the store.
   */
  function HandleGet(st: State, d: Draws, failure: GetFailure): (o: Outcome)
    requires !failure.ThrowsBeforeStore? ==> DrawsFor(st.latest, d)
    ensures o.response.status == 200 <==> failure.Completes?
    ensures o.response.status == 200 ==> o.response.body == Snapshot(o.next.latest)
    ensures o.response.status != 200 ==> o.response == Response(500, Snapshot(Seed.StaticDashboardData()))
    ensures failure.ThrowsBeforeStore? ==> o.next == st
    ensures !failure.ThrowsBeforeStore? ==> o.next.latest == Tick(st.latest, d)
  {
    match failure
    case ThrowsBeforeStore =>
      Outcome(st, Response(500, Snapshot(Seed.StaticDashboardData())))
    case ThrowsAfterStore =>
      Outcome(State(Tick(st.latest, d)), Response(500, Snapshot(Seed.StaticDashboardData())))
    case Completes =>
      var data := Tick(st.latest, d);
      Outcome(State(data), Response(200, Snapshot(data)))
  }

  /**
   A 500 does not mean the stored snapshot was kept. A throw after the store
   answers the seed, yet the tick's snapshot stays stored.
   */
  lemma ErrorAfterStoreKeepsTick(st: State, d: Draws)
    requires DrawsFor(st.latest, d)
    ensures var o := HandleGet(st, d, ThrowsAfterStore);
            o.response.status == 500 && o.next == State(Tick(st.latest, d))
  {
  }

  /** `POST`: 200 on a readable body, 400 otherwise; the stored snapshot never changes. */
  function HandlePost(st: State, p: Payload): (o: Outcome)
    ensures o.next == st
    ensures o.response.status == 200 <==> p.Parsed?
    ensures o.response.status == 400 <==> p.Unparseable?
    ensures o.response.body == Message(if p.Parsed? then OkMessage else BadFormatMessage)
  {
    match p
    case Parsed => Outcome(st, Response(200, Message(OkMessage)))
    case Unparseable => Outcome(st, Response(400, Message(BadFormatMessage)))
  }

  /**
   The draws of a request suit any snapshot with the seed's layout: one
   prediction draw per seed prediction point, one status draw per seed device.
   */
  predicate Suits(q: Request) {
    q.Get? && !q.failure.ThrowsBeforeStore? ==>
      && ValidDraws(q.draws)
      && |q.draws.predictions| == |Seed.StaticPredictions()|
      && |q.draws.devices| == |Seed.StaticDevices()|
  }

  /** Serve one request against a snapshot that satisfies the invariant; the invariant survives. */
  function Step(st: State, q: Request): (o: Outcome)
    requires Invariant(st) && Suits(q)
    ensures Invariant(o.next)
    ensures q.Post? ==> o.next == st
  {
    assert |st.latest.predictionData| == |Slots(st.latest.predictionData)|;
    assert |st.latest.devices| == |Identities(st.latest.devices)|;
    match q
    case Post(p) => HandlePost(st, p)
    case Get(d, failure) =>
      if failure.ThrowsBeforeStore? then HandleGet(st, d, failure)
      else
        TickKeepsPool(st.latest.alerts, d.alert);
        HandleGet(st, d, failure)
  }

  /** The stored snapshot after serving `qs` in order. */
  function Run(st: State, qs: seq<Request>): (end: State)
    requires Invariant(st)
    requires forall i :: 0 <= i < |qs| ==> Suits(qs[i])
    ensures Invariant(end)
    decreases |qs|
  {
    if |qs| == 0 then st else Run(Step(st, qs[0]).next, qs[1..])
  }

  /**
   From process start, any sequence of requests leaves a snapshot with the
   seed's layout and at most twenty alerts: the bound is never broken.
   */
  lemma AlertsStayBounded(qs: seq<Request>)
    requires forall i :: 0 <= i < |qs| ==> Suits(qs[i])
    ensures |Run(Init(), qs).latest.alerts| <= AlertLog.MaxAlerts
    ensures ShapeOf(Run(Init(), qs).latest) == ShapeOf(Seed.StaticDashboardData())
  {
  }

  /**
   Only a `GET` whose tick reaches the store changes the stored snapshot: a
   run of `POST`s and of `GET`s that throw inside the tick leaves it alone.
   */
  lemma {:induction false} QuietRunKeepsState(st: State, qs: seq<Request>)
    requires Invariant(st)
    requires forall i :: 0 <= i < |qs| ==> Suits(qs[i]) && !(qs[i].Get? && !qs[i].failure.ThrowsBeforeStore?)
    ensures Run(st, qs) == st
    decreases |qs|
  {
    if |qs| > 0 {
      assert Step(st, qs[0]).next == st;
      QuietRunKeepsState(st, qs[1..]);
    }
  }
}
