/** The dashboard service: the two queries it sends and the mapping of the
    stored metric and activity records to the view objects the dashboard shows. */
module DashboardService {
  import opened Js
  import opened RecordStore

  /** A metric card as the dashboard reads it. */
  datatype Metric = Metric(metricLabel: Value, value: Value, trend: Value, trendDirection: Value, icon: Value)

  /** A recent-activity line as the dashboard reads it. */
  datatype Activity = Activity(id: Value, description: Value, contact: Value, time: Value, activityType: Value)

  /** `getMetrics`: every metric field, ordered by Id ascending, no paging. */
  const MetricsParams: FetchParams :=
    FetchParams(["Name", "label_c", "value_c", "trend_c", "trend_direction_c", "icon_c"],
                None, [OrderBy("Id", Asc)], None)

  /** `getRecentActivities`: the ten newest activities, by Id descending. */
  const ActivitiesParams: FetchParams :=
    FetchParams(["Name", "description_c", "contact_c", "time_c", "type_c"],
                None, [OrderBy("Id", Desc)], Some(Paging(10, 0)))

  /** One stored metric as a view object. */
  function ToMetric(rec: Obj): Metric {
    Metric(Get(rec, "label_c"), Get(rec, "value_c"), Get(rec, "trend_c"), Get(rec, "trend_direction_c"), Get(rec, "icon_c"))
  }

  /** One stored activity as a view object; the Id is kept, the rest renamed. */
  function ToActivity(rec: Obj): Activity {
    Activity(Get(rec, "Id"), Get(rec, "description_c"), Get(rec, "contact_c"), Get(rec, "time_c"), Get(rec, "type_c"))
  }

  /** `data.map(ToMetric)`. */
  function ToMetrics(data: seq<Obj>): (r: seq<Metric>)
    ensures |r| == |data|
    ensures forall i :: 0 <= i < |data| ==> r[i] == ToMetric(data[i])
  {
    if data == [] then [] else [ToMetric(data[0])] + ToMetrics(data[1..])
  }

  /** `data.map(ToActivity)`. */
  function ToActivities(data: seq<Obj>): (r: seq<Activity>)
    ensures |r| == |data|
    ensures forall i :: 0 <= i < |data| ==> r[i] == ToActivity(data[i])
  {
    if data == [] then [] else [ToActivity(data[0])] + ToActivities(data[1..])
  }

  /** `response.data || []`. */
  function DataOrEmpty(resp: Response): seq<Obj>
    requires resp.Reply?
  {
    if resp.data.Some? then resp.data.value else []
  }

  /** `getMetrics()`: a failed reply or a client exception is thrown with its
      message; otherwise one metric per record, in the order received, and
      none when `data` is missing. */
  function GetMetrics(resp: Response): (r: Outcome<seq<Metric>>)
    ensures r.Thrown? <==> resp.TransportError? || !resp.success
    ensures r.Thrown? ==> r.message == resp.message
    ensures r.Returned? ==> |r.value| == |DataOrEmpty(resp)|
    ensures r.Returned? ==> forall i :: 0 <= i < |r.value| ==>
      r.value[i].metricLabel == Get(DataOrEmpty(resp)[i], "label_c")
      && r.value[i].value == Get(DataOrEmpty(resp)[i], "value_c")
      && r.value[i].trend == Get(DataOrEmpty(resp)[i], "trend_c")
      && r.value[i].trendDirection == Get(DataOrEmpty(resp)[i], "trend_direction_c")
      && r.value[i].icon == Get(DataOrEmpty(resp)[i], "icon_c")
    ensures r.Returned? && resp.data.None? ==> r.value == []
  {
    match resp
    case TransportError(m) => Thrown(m)
    case Reply(success, message, _, _) =>
      if !success then Thrown(message) else Returned(ToMetrics(DataOrEmpty(resp)))
  }

  /** `getRecentActivities()`: the same error handling; one activity per
      record, in the order received, keeping the Id. */
  function GetRecentActivities(resp: Response): (r: Outcome<seq<Activity>>)
    ensures r.Thrown? <==> resp.TransportError? || !resp.success
    ensures r.Thrown? ==> r.message == resp.message
    ensures r.Returned? ==> |r.value| == |DataOrEmpty(resp)|
    ensures r.Returned? ==> forall i :: 0 <= i < |r.value| ==>
      r.value[i].id == Get(DataOrEmpty(resp)[i], "Id")
      && r.value[i].description == Get(DataOrEmpty(resp)[i], "description_c")
      && r.value[i].contact == Get(DataOrEmpty(resp)[i], "contact_c")
      && r.value[i].time == Get(DataOrEmpty(resp)[i], "time_c")
      && r.value[i].activityType == Get(DataOrEmpty(resp)[i], "type_c")
    ensures r.Returned? && resp.data.None? ==> r.value == []
  {
    match resp
    case TransportError(m) => Thrown(m)
    case Reply(success, message, _, _) =>
      if !success then Thrown(message) else Returned(ToActivities(DataOrEmpty(resp)))
  }

  /** Every metric key the mapping reads is one the query asks for; of the
      activity keys, all but `Id` are requested, so the Id the dashboard
      keeps relies on the store returning it unasked. */
  lemma MappingsReadRequestedFields()
    ensures forall k :: k in ["label_c", "value_c", "trend_c", "trend_direction_c", "icon_c"] ==> k in MetricsParams.fields
    ensures forall k :: k in ["description_c", "contact_c", "time_c", "type_c"] ==> k in ActivitiesParams.fields
    ensures "Id" !in ActivitiesParams.fields
  {
  }
}
