/**
 * The unauthenticated metric store: metrics and their reading lists, with no
 * users, roles or rooms. Each handler is a transition from a state and a
 * request to a new state and an outcome; the decoded body, the parsed path
 * id, the id `uuid.New` returns and the clock reading are inputs.
 */
module MetricServer {

  import opened Wrappers
  import opened Ids
  import opened Models

  datatype State = State(metrics: map<Uuid, Metric>, readings: map<Uuid, seq<MetricReading>>)

  datatype Step = Step(state: State, outcome: Outcome)

  /**
   * What every reachable state satisfies: each metric stored under its own
   * id, a reading list for exactly the stored metrics, and each reading filed
   * under its own metric.
   */
  ghost predicate Valid(s: State) {
    && (forall k :: k in s.metrics ==> s.metrics[k].id == k)
    && s.readings.Keys == s.metrics.Keys
    && (forall k, i :: k in s.readings && 0 <= i < |s.readings[k]| ==> s.readings[k][i].metricId == k)
  }

  function NewMetricServer(): (s: State)
    ensures s.metrics == map[] && s.readings == map[]
    ensures Valid(s)
  {
    State(map[], map[])
  }

  /**
   * CreateMetric: a metric under the new id with an empty reading list. No
   * room is checked and the room id in the body is ignored: the stored
   * metric's RoomID is the nil UUID.
   */
  function CreateMetric(s: State, body: Option<CreateMetricRequest>, newId: Uuid, now: Time): (r: Step)
    ensures body.None? ==> r == Step(s, Fail(BadRequest))
    ensures body.Some? <==> r.outcome.Ok?
    ensures r.outcome.Ok? ==>
              && r.outcome.reply.MetricReply?
              && var m := r.outcome.reply.metric;
              && m == Metric(newId, body.value.name, body.value.description, body.value.unit, Nil, now, now)
              && r.state == State(s.metrics[newId := m], s.readings[newId := []])
  {
    match body
    case None => Step(s, Fail(BadRequest))
    case Some(req) =>
      var metric := Metric(newId, req.name, req.description, req.unit, Nil, now, now);
      Step(State(s.metrics[newId := metric], s.readings[newId := []]), Ok(MetricReply(metric)))
  }

  /** ListMetrics: every stored metric and their number. */
  function ListMetrics(s: State): (r: Step)
    ensures r.state == s
    ensures r.outcome.Ok? && r.outcome.reply.MetricList?
    ensures Enumerates(r.outcome.reply.metrics, s.metrics) && r.outcome.reply.total == |s.metrics|
  {
    var metrics := Values(s.metrics);
    Step(s, Ok(MetricList(metrics, |metrics|)))
  }

  /** GetMetric: the metric with its readings in insertion order. */
  function GetMetric(s: State, id: Option<Uuid>): (r: Step)
    ensures r.state == s
    ensures id.None? ==> r.outcome == Fail(BadRequest)
    ensures id.Some? ==>
              r.outcome == if id.value in s.metrics
                           then Ok(MetricWithReadings(s.metrics[id.value], ReadingsOf(s.readings, id.value)))
                           else Fail(NotFound)
  {
    match id
    case None => Step(s, Fail(BadRequest))
    case Some(metricId) =>
      if metricId !in s.metrics then Step(s, Fail(NotFound))
      else Step(s, Ok(MetricWithReadings(s.metrics[metricId], ReadingsOf(s.readings, metricId))))
  }

  /** DeleteMetric: exactly the metric and its reading list are removed. */
  function DeleteMetric(s: State, id: Option<Uuid>): (r: Step)
    ensures r.outcome.Fail? ==> r.state == s
    ensures id.None? ==> r.outcome == Fail(BadRequest)
    ensures id.Some? ==> r.outcome == if id.value in s.metrics then Ok(Deleted) else Fail(NotFound)
    ensures r.outcome.Ok? ==>
              && r.state.metrics.Keys == s.metrics.Keys - {id.value}
              && r.state.readings.Keys == s.readings.Keys - {id.value}
              && (forall k :: k in r.state.metrics ==> r.state.metrics[k] == s.metrics[k])
              && (forall k :: k in r.state.readings ==> r.state.readings[k] == s.readings[k])
  {
    match id
    case None => Step(s, Fail(BadRequest))
    case Some(metricId) =>
      if metricId !in s.metrics then Step(s, Fail(NotFound))
      else Step(State(s.metrics - {metricId}, s.readings - {metricId}), Ok(Deleted))
  }

  /**
   * AddReading: one reading appended to the end of the metric's list; no
   * other list changes. The id is checked before the body is decoded.
   */
  function AddReading(s: State, id: Option<Uuid>, body: Option<AddReadingRequest>, newId: Uuid, now: Time): (r: Step)
    ensures r.outcome.Fail? ==> r.state == s
    ensures id.None? ==> r.outcome == Fail(BadRequest)
    ensures id.Some? && id.value !in s.metrics ==> r.outcome == Fail(NotFound)
    ensures id.Some? && id.value in s.metrics ==> (r.outcome.Ok? <==> body.Some?)
    ensures id.Some? && id.value in s.metrics && body.None? ==> r.outcome == Fail(BadRequest)
    ensures r.outcome.Ok? ==>
              && r.outcome.reply.ReadingReply?
              && var reading := r.outcome.reply.reading;
              && reading.id == newId && reading.metricId == id.value
              && reading.value == body.value.value && reading.createdAt == now
              && (body.value.timestamp == ZeroTime ==> reading.timestamp == now)
              && (body.value.timestamp != ZeroTime ==> reading.timestamp == body.value.timestamp)
              && r.state.metrics == s.metrics
              && r.state.readings.Keys == s.readings.Keys + {id.value}
              && r.state.readings[id.value] == ReadingsOf(s.readings, id.value) + [reading]
              && (forall k :: k in s.readings && k != id.value ==> r.state.readings[k] == s.readings[k])
  {
    match id
    case None => Step(s, Fail(BadRequest))
    case Some(metricId) =>
      if metricId !in s.metrics then Step(s, Fail(NotFound))
      else
        match body
        case None => Step(s, Fail(BadRequest))
        case Some(req) =>
          var reading := NewReading(newId, metricId, req, now);
          Step(State(s.metrics, s.readings[metricId := ReadingsOf(s.readings, metricId) + [reading]]), Ok(ReadingReply(reading)))
  }

  /** GetReadings: the metric's readings in insertion order and their count. */
  function GetReadings(s: State, id: Option<Uuid>): (r: Step)
    ensures r.state == s
    ensures id.None? ==> r.outcome == Fail(BadRequest)
    ensures id.Some? ==>
              r.outcome == if id.value in s.metrics
                           then Ok(ReadingList(ReadingsOf(s.readings, id.value), |ReadingsOf(s.readings, id.value)|))
                           else Fail(NotFound)
    ensures r.outcome.Ok? ==>
              && id.Some? && id.value in s.metrics && r.outcome.reply.ReadingList?
              && r.outcome.reply.readings == ReadingsOf(s.readings, id.value)
              && r.outcome.reply.total == |r.outcome.reply.readings|
  {
    match id
    case None => Step(s, Fail(BadRequest))
    case Some(metricId) =>
      if metricId !in s.metrics then Step(s, Fail(NotFound))
      else
        var readings := ReadingsOf(s.readings, metricId);
        Step(s, Ok(ReadingList(readings, |readings|)))
  }

  // ---------------------------------------------------------------------------
  // All handlers as one transition, and the invariant
  // ---------------------------------------------------------------------------

  datatype Request =
    | CreateMetricCall(metric: Option<CreateMetricRequest>)
    | ListMetricsCall
    | GetMetricCall(id: Option<Uuid>)
    | DeleteMetricCall(id: Option<Uuid>)
    | AddReadingCall(id: Option<Uuid>, reading: Option<AddReadingRequest>)
    | GetReadingsCall(id: Option<Uuid>)

  function Handle(s: State, req: Request, newId: Uuid, now: Time): Step {
    match req
    case CreateMetricCall(body) => CreateMetric(s, body, newId, now)
    case ListMetricsCall => ListMetrics(s)
    case GetMetricCall(id) => GetMetric(s, id)
    case DeleteMetricCall(id) => DeleteMetric(s, id)
    case AddReadingCall(id, body) => AddReading(s, id, body, newId, now)
    case GetReadingsCall(id) => GetReadings(s, id)
  }

  /** The state after serving the requests in order; each carries its new id and clock reading. */
  function Run(s: State, calls: seq<(Request, Uuid, Time)>): State
    decreases |calls|
  {
    if calls == [] then s else Run(Handle(s, calls[0].0, calls[0].1, calls[0].2).state, calls[1..])
  }

  lemma HandlePreservesValid(s: State, req: Request, newId: Uuid, now: Time)
    requires Valid(s)
    ensures Valid(Handle(s, req, newId, now).state)
  {
  }

  /** The reading lists and the metrics have the same keys in every reachable state. */
  lemma {:induction false} RunPreservesValid(s: State, calls: seq<(Request, Uuid, Time)>)
    requires Valid(s)
    ensures Valid(Run(s, calls))
    decreases |calls|
  {
    if calls != [] {
      HandlePreservesValid(s, calls[0].0, calls[0].1, calls[0].2);
      RunPreservesValid(Handle(s, calls[0].0, calls[0].1, calls[0].2).state, calls[1..]);
    }
  }

  lemma ReachableStatesValid(calls: seq<(Request, Uuid, Time)>)
    ensures Valid(Run(NewMetricServer(), calls))
  {
    RunPreservesValid(NewMetricServer(), calls);
  }

  // ---------------------------------------------------------------------------
  // What one handler writes, the next reads back
  // ---------------------------------------------------------------------------

  /** A metric created under a fresh id is one more metric, read back with no readings. */
  lemma CreateMetricThenGetMetric(s: State, body: CreateMetricRequest, newId: Uuid, now: Time)
    requires newId !in s.metrics
    ensures var step := CreateMetric(s, Some(body), newId, now);
            && |step.state.metrics| == |s.metrics| + 1
            && GetMetric(step.state, Some(newId)).outcome == Ok(MetricWithReadings(step.outcome.reply.metric, []))
  {
  }

  /** A reading just added is listed last, after all earlier ones, and the total grows by one. */
  lemma AddReadingThenGetReadings(s: State, metric: Uuid, body: Option<AddReadingRequest>, newId: Uuid, now: Time)
    requires AddReading(s, Some(metric), body, newId, now).outcome.Ok?
    ensures var step := AddReading(s, Some(metric), body, newId, now);
            var listed := GetReadings(step.state, Some(metric)).outcome;
            && listed.Ok?
            && listed.reply.readings == ReadingsOf(s.readings, metric) + [step.outcome.reply.reading]
            && listed.reply.total == |ReadingsOf(s.readings, metric)| + 1
  {
  }

  /** After a metric is deleted, both reads of it answer NotFound. */
  lemma DeleteMetricThenGet(s: State, metric: Uuid)
    requires metric in s.metrics
    ensures var t := DeleteMetric(s, Some(metric)).state;
            && GetMetric(t, Some(metric)).outcome == Fail(NotFound)
            && GetReadings(t, Some(metric)).outcome == Fail(NotFound)
  {
  }
}
