/** The INSERT statements of the database sink: text, numbered placeholders and flattened arguments. */
module SqlInserts {
  import opened Events
  import opened Decimal

  datatype Table = StopEventsTable | DwellTable | TravelTable | HeadwayTable

  datatype SqlValue = Text(s: string) | Number(n: int) | Time(seconds: int) | Null

  datatype Statement = Statement(sql: string, args: seq<SqlValue>)

  // ---- Columns and rows ----

  const ATTRIBUTE_COLUMNS: seq<string> := [
    "agency_id", "vehicle_id", "route_id", "stop_id",
    "origin_stop_id", "destination_stop_id", "direction_id",
    "direction", "direction_destination", "parent_station",
    "stop_sequence", "stop_status", "trip_id", "service_date",
    "event_timestamp"]

  function TableName(t: Table): string {
    match t
    case StopEventsTable => "stop_events"
    case DwellTable => "dwell_time_events"
    case TravelTable => "travel_time_events"
    case HeadwayTable => "headway_time_events"
  }

  function Columns(t: Table): seq<string> {
    ATTRIBUTE_COLUMNS +
    match t
    case StopEventsTable => ["stop_event_type"]
    case DwellTable => ["arrival_time", "departure_time", "dwell_time_seconds"]
    case TravelTable => ["start_time", "end_time", "travel_time_seconds"]
    case HeadwayTable => ["leading_vehicle_id", "following_vehicle_id", "headway_seconds"]
  }

  function StatusNumber(s: StopStatus): int {
    match s
    case Unknown => 0
    case IncomingAt => 1
    case StoppedAt => 2
    case InTransitTo => 3
  }

  function TypeName(t: StopEventType): string {
    match t
    case UnknownType => "UNKNOWN"
    case Arrival => "ARRIVAL"
    case Departure => "DEPARTURE"
  }

  /** The seconds of Go's zero time, 1 January of year 1. */
  const ZERO_TIME := -62_135_596_800

  function NullableTime(t: Option<int>): SqlValue {
    if t.None? then Null else Time(t.value)
  }

  /** The nil test of the source never holds: a nil timestamp in an interface is not a nil interface. */
  function NullableTimestamp(t: Option<int>): SqlValue {
    if AsTime(t) == ZERO_TIME then Null else Time(AsTime(t))
  }

  /** Only a timestamp at the zero time is written as NULL; an absent one is written as the epoch. */
  lemma OnlyZeroTimeIsNull(t: Option<int>)
    ensures NullableTimestamp(t) == Null <==> t == Some(ZERO_TIME)
    ensures NullableTimestamp(None) == Time(0)
  {
  }

  /** The table an event goes to; a nil stop event is still a stop event. */
  function TableOf(e: Event): Option<Table> {
    match e
    case OfStop(_) => Some(StopEventsTable)
    case NilStop => Some(StopEventsTable)
    case OfDwell(_) => Some(DwellTable)
    case OfTravel(_) => Some(TravelTable)
    case OfHeadway(_) => Some(HeadwayTable)
    case OfPosition(_) => None
  }

  function AttributesOf(e: Event): Attributes {
    match e
    case OfPosition(p) => p.attr
    case OfStop(s) => s.attr
    case NilStop => NO_ATTRIBUTES
    case OfDwell(d) => d.attr
    case OfTravel(t) => t.attr
    case OfHeadway(h) => h.attr
  }

  function Row(e: Event): seq<SqlValue> {
    var a := AttributesOf(e);
    [Text(a.agencyId), Text(a.vehicleId), Text(a.routeId), Text(a.stopId),
     Text(a.originStopId), Text(a.destinationStopId), Text(a.directionId),
     Text(a.direction), Text(a.directionDestination), Text(a.parentStation),
     Number(a.stopSequence), Number(StatusNumber(a.stopStatus)), Text(a.tripId), Text(a.serviceDate),
     NullableTime(a.timestamp)] +
    match e
    case OfPosition(_) => []
    case OfStop(s) => [Text(TypeName(s.eventType))]
    case NilStop => [Text(TypeName(UnknownType))]
    case OfDwell(d) => [NullableTimestamp(d.arrivalTime), NullableTimestamp(d.departureTime), Number(d.seconds)]
    case OfTravel(t) => [NullableTimestamp(t.startTime), NullableTimestamp(t.endTime), Number(t.seconds)]
    case OfHeadway(h) => [Text(h.leadingVehicleId), Text(h.followingVehicleId), Number(h.seconds)]
  }

  /** What a column of an event's table is to hold, by the column's name. */
  function Field(e: Event, column: string): SqlValue {
    var a := AttributesOf(e);
    if column == "agency_id" then Text(a.agencyId)
    else if column == "route_id" then Text(a.routeId)
    else if column == "trip_id" then Text(a.tripId)
    else if column == "vehicle_id" then Text(a.vehicleId)
    else if column == "stop_id" then Text(a.stopId)
    else if column == "origin_stop_id" then Text(a.originStopId)
    else if column == "destination_stop_id" then Text(a.destinationStopId)
    else if column == "parent_station" then Text(a.parentStation)
    else if column == "direction_id" then Text(a.directionId)
    else if column == "direction" then Text(a.direction)
    else if column == "direction_destination" then Text(a.directionDestination)
    else if column == "stop_sequence" then Number(a.stopSequence)
    else if column == "stop_status" then Number(StatusNumber(a.stopStatus))
    else if column == "service_date" then Text(a.serviceDate)
    else if column == "event_timestamp" then NullableTime(a.timestamp)
    else if column == "stop_event_type" then Text(TypeName(if e.OfStop? then e.stop.eventType else UnknownType))
    else if column == "arrival_time" && e.OfDwell? then NullableTimestamp(e.dwell.arrivalTime)
    else if column == "departure_time" && e.OfDwell? then NullableTimestamp(e.dwell.departureTime)
    else if column == "dwell_time_seconds" && e.OfDwell? then Number(e.dwell.seconds)
    else if column == "start_time" && e.OfTravel? then NullableTimestamp(e.travel.startTime)
    else if column == "end_time" && e.OfTravel? then NullableTimestamp(e.travel.endTime)
    else if column == "travel_time_seconds" && e.OfTravel? then Number(e.travel.seconds)
    else if column == "leading_vehicle_id" && e.OfHeadway? then Text(e.headway.leadingVehicleId)
    else if column == "following_vehicle_id" && e.OfHeadway? then Text(e.headway.followingVehicleId)
    else if column == "headway_seconds" && e.OfHeadway? then Number(e.headway.seconds)
    else Null
  }

  lemma AttributesFollowColumns(e: Event, j: nat)
    requires j < |ATTRIBUTE_COLUMNS|
    ensures j < |Row(e)| && Row(e)[j] == Field(e, ATTRIBUTE_COLUMNS[j])
  {
  }

  lemma MetricsFollowColumns(e: Event, t: Table, j: nat)
    requires TableOf(e) == Some(t) && |ATTRIBUTE_COLUMNS| <= j < |Columns(t)|
    ensures j < |Row(e)| && Row(e)[j] == Field(e, Columns(t)[j])
  {
    match t {
      case StopEventsTable =>
      case DwellTable =>
      case TravelTable =>
      case HeadwayTable =>
    }
  }

  /** Each value of a row stands in the column that names it. */
  lemma RowFollowsColumns(e: Event, t: Table, j: nat)
    requires TableOf(e) == Some(t) && j < |Columns(t)|
    ensures |Row(e)| == |Columns(t)| && Row(e)[j] == Field(e, Columns(t)[j])
  {
    if j < |ATTRIBUTE_COLUMNS| {
      assert Columns(t)[j] == ATTRIBUTE_COLUMNS[j];
      AttributesFollowColumns(e, j);
    } else {
      MetricsFollowColumns(e, t, j);
    }
  }

  // ---- Arguments ----

  function Concat<T>(rows: seq<seq<T>>): seq<T> {
    if rows == [] then [] else Concat(rows[..|rows| - 1]) + rows[|rows| - 1]
  }

  lemma ConcatNext<T>(rows: seq<seq<T>>, row: seq<T>)
    ensures Concat(rows + [row]) == Concat(rows) + row
  {
    assert (rows + [row])[..|rows|] == rows;
  }

  lemma {:induction false} ConcatLength<T>(rows: seq<seq<T>>, n: nat)
    requires forall m :: 0 <= m < |rows| ==> |rows[m]| == n
    ensures |Concat(rows)| == |rows| * n
  {
    if rows != [] {
      var before, row := rows[..|rows| - 1], rows[|rows| - 1];
      assert rows == before + [row];
      ConcatLength(before, n);
      ConcatNext(before, row);
      assert |rows| * n == |before| * n + n;
    }
  }

  lemma {:induction false} ConcatAt<T>(rows: seq<seq<T>>, n: nat, i: nat, j: nat, k: int)
    requires forall m :: 0 <= m < |rows| ==> |rows[m]| == n
    requires i < |rows| && j < n && k == i * n + j
    ensures 0 <= k < |Concat(rows)| && Concat(rows)[k] == rows[i][j]
  {
    var before, row := rows[..|rows| - 1], rows[|rows| - 1];
    assert rows == before + [row];
    ConcatLength(before, n);
    ConcatNext(before, row);
    if i < |before| {
      ConcatAt(before, n, i, j, k);
    }
  }

  function Rows(es: seq<Event>): (rows: seq<seq<SqlValue>>)
    ensures |rows| == |es|
  {
    seq(|es|, i requires 0 <= i < |es| => Row(es[i]))
  }

  /** The rows one after the other. */
  function Flatten(es: seq<Event>): seq<SqlValue> {
    Concat(Rows(es))
  }

  predicate InTable(es: seq<Event>, t: Table) {
    forall e :: e in es ==> TableOf(e) == Some(t)
  }

  lemma RowsFit(es: seq<Event>, t: Table)
    requires InTable(es, t)
    ensures forall m :: 0 <= m < |es| ==> |Rows(es)[m]| == |Columns(t)|
  {
    forall m | 0 <= m < |es| ensures |Rows(es)[m]| == |Columns(t)| {
      assert es[m] in es;
      RowFollowsColumns(es[m], t, 0);
    }
  }

  /** Row i, column j is argument k = i * nCols + j. */
  lemma FlattenAt(es: seq<Event>, t: Table, n: nat, i: nat, j: nat, k: int)
    requires InTable(es, t) && n == |Columns(t)| && i < |es| && j < n && k == i * n + j
    ensures |Flatten(es)| == |es| * n && 0 <= k < |Flatten(es)|
    ensures Flatten(es)[k] == Field(es[i], Columns(t)[j])
  {
    RowsFit(es, t);
    assert es[i] in es;
    ConcatLength(Rows(es), n);
    ConcatAt(Rows(es), n, i, j, k);
    RowFollowsColumns(es[i], t, j);
  }

  // ---- Statement text ----

  /** strings.Join */
  function JoinWith(xs: seq<string>, sep: string): string {
    if xs == [] then "" else if |xs| == 1 then xs[0] else xs[0] + sep + JoinWith(xs[1..], sep)
  }

  function Placeholder(n: nat): string {
    "$" + Format(n)
  }

  /** The placeholders first, first + 1, ... */
  function PlaceholderList(first: nat, count: nat): (xs: seq<string>)
    ensures |xs| == count
    ensures forall j :: 0 <= j < count ==> xs[j] == Placeholder(first + j)
    decreases count
  {
    if count == 0 then [] else [Placeholder(first)] + PlaceholderList(first + 1, count - 1)
  }

  function RowText(first: nat, nCols: nat): string {
    "(" + JoinWith(PlaceholderList(first, nCols), ", ") + ")"
  }

  /** The texts of count rows, the first of which starts with placeholder first. */
  function RowTexts(first: nat, nCols: nat, count: nat): (xs: seq<string>)
    ensures |xs| == count
    decreases count
  {
    if count == 0 then [] else [RowText(first, nCols)] + RowTexts(first + nCols, nCols, count - 1)
  }

  function InsertSql(table: string, cols: seq<string>, nRows: nat): string {
    "INSERT INTO " + table + " (" + JoinWith(cols, ", ") + ") VALUES " + JoinWith(RowTexts(1, |cols|, nRows), ", ")
  }

  function InsertOf(t: Table, es: seq<Event>): Statement {
    Statement(InsertSql(TableName(t), Columns(t), |es|), Flatten(es))
  }

  lemma TimesNext(i: nat, n: nat)
    ensures (i + 1) * n == n + i * n
  {
  }

  lemma {:induction false} RowTextsAt(first: nat, nCols: nat, count: nat, i: nat)
    requires i < count
    ensures RowTexts(first, nCols, count)[i] == RowText(first + i * nCols, nCols)
    decreases count
  {
    if i > 0 {
      TimesNext(i - 1, nCols);
      RowTextsAt(first + nCols, nCols, count - 1, i - 1);
    }
  }

  /** The inner loop of buildInsert: the placeholders of row i. */
  method BuildRow(i: nat, nCols: nat) returns (row: string)
    ensures row == RowText(1 + i * nCols, nCols)
  {
    var ph := new string[nCols](_ => "");
    var offset := i * nCols;
    for j := 0 to nCols
      invariant forall k :: 0 <= k < j ==> ph[k] == Placeholder(1 + offset + k)
    {
      ph[j] := "$" + Format(offset + j + 1);
    }
    assert ph[..] == PlaceholderList(1 + offset, nCols);
    row := "(" + JoinWith(ph[..], ", ") + ")";
  }

  method BuildInsert(table: string, cols: seq<string>, nRows: nat) returns (sql: string)
    ensures sql == InsertSql(table, cols, nRows)
  {
    var nCols := |cols|;
    var rowPH := new string[nRows](_ => "");
    for i := 0 to nRows
      invariant forall k :: 0 <= k < i ==> rowPH[k] == RowTexts(1, nCols, nRows)[k]
    {
      RowTextsAt(1, nCols, nRows, i);
      var row := BuildRow(i, nCols);
      rowPH[i] := row;
    }
    assert rowPH[..] == RowTexts(1, nCols, nRows);
    sql := "INSERT INTO " + table + " (" + JoinWith(cols, ", ") + ") VALUES " + JoinWith(rowPH[..], ", ");
  }

  /** One of the four insert methods, for its table. */
  method Insert(t: Table, batch: seq<Event>) returns (statement: Statement)
    ensures statement == InsertOf(t, batch)
  {
    var args: seq<SqlValue> := [];
    for i := 0 to |batch|
      invariant args == Flatten(batch[..i])
    {
      assert Rows(batch[..i + 1]) == Rows(batch[..i]) + [Row(batch[i])];
      ConcatNext(Rows(batch[..i]), Row(batch[i]));
      args := args + Row(batch[i]);
    }
    assert batch[..|batch|] == batch;
    var sql := BuildInsert(TableName(t), Columns(t), |batch|);
    statement := Statement(sql, args);
  }
}
