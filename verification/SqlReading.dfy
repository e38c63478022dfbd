/** Reads an INSERT statement as a database does: which rows it inserts into which columns of which table. */
module SqlReading {
  import opened Events
  import opened Decimal
  import opened SqlInserts

  /** The table, the columns and for each row the placeholders of a statement text. */
  datatype Reading = Reading(table: string, columns: seq<string>, rows: seq<seq<string>>)

  /** The items of a list and what follows its closing parenthesis. */
  datatype Listing = Listing(items: seq<string>, rest: string)

  predicate TokenChar(c: char) {
    c != ' ' && c != ',' && c != '(' && c != ')'
  }

  predicate IsToken(s: string) {
    s != "" && forall i :: 0 <= i < |s| ==> TokenChar(s[i])
  }

  function LeadingToken(s: string): (token: string)
    ensures token <= s
  {
    if s == "" || !TokenChar(s[0]) then "" else [s[0]] + LeadingToken(s[1..])
  }

  /** One or more items, separated by a comma and a blank and closed by a parenthesis. */
  function ReadItems(s: string): (r: Option<Listing>)
    ensures r.Some? ==> |r.value.rest| < |s|
    decreases |s|
  {
    var item := LeadingToken(s);
    var rest := s[|item|..];
    if item == "" then None
    else if ")" <= rest then Some(Listing([item], rest[1..]))
    else if ", " <= rest then
      match ReadItems(rest[2..])
      case None => None
      case Some(more) => Some(Listing([item] + more.items, more.rest))
    else None
  }

  function ReadList(s: string): (r: Option<Listing>)
    ensures r.Some? ==> |r.value.rest| < |s|
  {
    if ")" <= s then Some(Listing([], s[1..])) else ReadItems(s)
  }

  /** One or more lists in parentheses, separated by a comma and a blank. */
  function ReadTuples(s: string): Option<seq<seq<string>>>
    decreases |s|
  {
    if !("(" <= s) then None
    else
      match ReadList(s[1..])
      case None => None
      case Some(first) =>
        if first.rest == "" then Some([first.items])
        else if !(", " <= first.rest) then None
        else
          match ReadTuples(first.rest[2..])
          case None => None
          case Some(more) => Some([first.items] + more)
  }

  function Skip(prefix: string, s: string): Option<string> {
    if prefix <= s then Some(s[|prefix|..]) else None
  }

  function ReadValues(s: string): Option<seq<seq<string>>> {
    match Skip(" VALUES ", s)
    case None => None
    case Some(rows) => if rows == "" then Some([]) else ReadTuples(rows)
  }

  function ReadColumns(table: string, s: string): Option<Reading> {
    match Skip(" (", s)
    case None => None
    case Some(list) =>
      match ReadList(list)
      case None => None
      case Some(columns) =>
        match ReadValues(columns.rest)
        case None => None
        case Some(rows) => Some(Reading(table, columns.items, rows))
  }

  function ReadInsert(sql: string): Option<Reading> {
    match Skip("INSERT INTO ", sql)
    case None => None
    case Some(s) => ReadColumns(LeadingToken(s), s[|LeadingToken(s)|..])
  }

  // ---- Statement texts read back ----

  lemma {:induction false} LeadingTokenOf(token: string, b: string)
    requires forall i :: 0 <= i < |token| ==> TokenChar(token[i])
    requires b == "" || !TokenChar(b[0])
    ensures LeadingToken(token + b) == token
  {
    if token == "" {
      assert token + b == b;
    } else {
      assert (token + b)[1..] == token[1..] + b;
      LeadingTokenOf(token[1..], b);
    }
  }

  predicate Tokens(xs: seq<string>) {
    forall i :: 0 <= i < |xs| ==> IsToken(xs[i])
  }

  lemma ReadLastItem(x: string, tail: string)
    requires IsToken(x)
    ensures ReadItems(x + (")" + tail)) == Some(Listing([x], tail))
  {
    LeadingTokenOf(x, ")" + tail);
    assert (x + (")" + tail))[|x|..] == ")" + tail && (")" + tail)[1..] == tail;
  }

  lemma ReadOneItem(x: string, more: string)
    requires IsToken(x)
    ensures ReadItems(x + (", " + more)) ==
            match ReadItems(more)
            case None => None
            case Some(listing) => Some(Listing([x] + listing.items, listing.rest))
  {
    LeadingTokenOf(x, ", " + more);
    assert (x + (", " + more))[|x|..] == ", " + more && (", " + more)[2..] == more;
  }

  lemma JoinFirst(x: string, xs: seq<string>, tail: string)
    requires xs != []
    ensures JoinWith([x] + xs, ", ") == x + (", " + JoinWith(xs, ", "))
    ensures JoinWith([x] + xs, ", ") + tail == x + (", " + (JoinWith(xs, ", ") + tail))
  {
    assert ([x] + xs)[1..] == xs;
    var joined := JoinWith(xs, ", ");
    assert x + ", " + joined == x + (", " + joined);
    assert x + (", " + joined) + tail == x + (", " + (joined + tail));
  }

  lemma ReadItemsNext(x: string, xs: seq<string>, tail: string)
    requires IsToken(x) && xs != [] && ReadItems(JoinWith(xs, ", ") + (")" + tail)) == Some(Listing(xs, tail))
    ensures ReadItems(JoinWith([x] + xs, ", ") + (")" + tail)) == Some(Listing([x] + xs, tail))
  {
    JoinFirst(x, xs, ")" + tail);
    ReadOneItem(x, JoinWith(xs, ", ") + (")" + tail));
  }

  lemma {:induction false} ReadItemsBack(xs: seq<string>, tail: string)
    requires xs != [] && Tokens(xs)
    ensures ReadItems(JoinWith(xs, ", ") + (")" + tail)) == Some(Listing(xs, tail))
  {
    if |xs| == 1 {
      assert xs == [xs[0]];
      ReadLastItem(xs[0], tail);
    } else {
      ReadItemsBack(xs[1..], tail);
      ReadItemsNext(xs[0], xs[1..], tail);
      assert xs == [xs[0]] + xs[1..];
    }
  }

  lemma JoinedIsNotClosed(xs: seq<string>, tail: string)
    requires xs != [] && Tokens(xs)
    ensures !(")" <= JoinWith(xs, ", ") + tail)
  {
    assert IsToken(xs[0]) && TokenChar(xs[0][0]);
    assert (JoinWith(xs, ", ") + tail)[0] == xs[0][0];
  }

  lemma ReadListBack(xs: seq<string>, tail: string)
    requires Tokens(xs)
    ensures ReadList(JoinWith(xs, ", ") + (")" + tail)) == Some(Listing(xs, tail))
  {
    if xs == [] {
      assert JoinWith(xs, ", ") + (")" + tail) == ")" + tail && (")" + tail)[1..] == tail;
    } else {
      JoinedIsNotClosed(xs, ")" + tail);
      ReadItemsBack(xs, tail);
    }
  }

  lemma DigitsAreTokens(n: nat)
    ensures IsToken(Placeholder(n))
  {
    forall i | 0 <= i < |Placeholder(n)| ensures TokenChar(Placeholder(n)[i]) {
      assert i > 0 ==> Placeholder(n)[i] in Format(n);
    }
  }

  lemma PlaceholdersAreTokens(first: nat, count: nat)
    ensures Tokens(PlaceholderList(first, count))
  {
    forall j | 0 <= j < count ensures IsToken(PlaceholderList(first, count)[j]) {
      DigitsAreTokens(first + j);
    }
  }

  /** The placeholders of count rows. */
  function PlaceholderRows(first: nat, nCols: nat, count: nat): (rows: seq<seq<string>>)
    ensures |rows| == count
    decreases count
  {
    if count == 0 then [] else [PlaceholderList(first, nCols)] + PlaceholderRows(first + nCols, nCols, count - 1)
  }

  lemma ReadRowBack(first: nat, nCols: nat, tail: string)
    ensures "(" <= RowText(first, nCols) + tail
    ensures ReadList((RowText(first, nCols) + tail)[1..]) == Some(Listing(PlaceholderList(first, nCols), tail))
  {
    var row := JoinWith(PlaceholderList(first, nCols), ", ");
    assert RowText(first, nCols) + tail == "(" + (row + (")" + tail));
    assert ("(" + (row + (")" + tail)))[1..] == row + (")" + tail);
    PlaceholdersAreTokens(first, nCols);
    ReadListBack(PlaceholderList(first, nCols), tail);
  }

  lemma ReadLastRow(first: nat, nCols: nat)
    ensures ReadTuples(RowText(first, nCols)) == Some([PlaceholderList(first, nCols)])
  {
    assert RowText(first, nCols) + "" == RowText(first, nCols);
    ReadRowBack(first, nCols, "");
  }

  lemma ReadOneRow(first: nat, nCols: nat, more: string)
    ensures ReadTuples(RowText(first, nCols) + (", " + more)) ==
            match ReadTuples(more)
            case None => None
            case Some(rows) => Some([PlaceholderList(first, nCols)] + rows)
  {
    ReadRowBack(first, nCols, ", " + more);
    assert (", " + more)[2..] == more;
  }

  lemma ReadRowsNext(first: nat, nCols: nat, rows: seq<string>, placeholders: seq<seq<string>>)
    requires rows != [] && ReadTuples(JoinWith(rows, ", ")) == Some(placeholders)
    ensures ReadTuples(JoinWith([RowText(first, nCols)] + rows, ", ")) == Some([PlaceholderList(first, nCols)] + placeholders)
  {
    JoinFirst(RowText(first, nCols), rows, "");
    ReadOneRow(first, nCols, JoinWith(rows, ", "));
  }

  lemma {:induction false} ReadRowsBack(first: nat, nCols: nat, count: nat)
    requires count > 0
    ensures ReadTuples(JoinWith(RowTexts(first, nCols, count), ", ")) == Some(PlaceholderRows(first, nCols, count))
    decreases count
  {
    if count == 1 {
      assert RowTexts(first, nCols, 1) == [RowText(first, nCols)];
      assert PlaceholderRows(first, nCols, 1) == [PlaceholderList(first, nCols)];
      ReadLastRow(first, nCols);
    } else {
      ReadRowsBack(first + nCols, nCols, count - 1);
      ReadRowsNext(first, nCols, RowTexts(first + nCols, nCols, count - 1), PlaceholderRows(first + nCols, nCols, count - 1));
    }
  }

  lemma ReadValuesBack(nCols: nat, nRows: nat)
    ensures ReadValues(" VALUES " + JoinWith(RowTexts(1, nCols, nRows), ", ")) == Some(PlaceholderRows(1, nCols, nRows))
  {
    var rows := JoinWith(RowTexts(1, nCols, nRows), ", ");
    assert (" VALUES " + rows)[|" VALUES "|..] == rows;
    if nRows > 0 {
      ReadRowsBack(1, nCols, nRows);
      assert ReadTuples("").None?;
    }
  }

  lemma ReadColumnsBack(table: string, cols: seq<string>, nRows: nat)
    requires Tokens(cols)
    ensures ReadColumns(table, " (" + (JoinWith(cols, ", ") + (")" + (" VALUES " + JoinWith(RowTexts(1, |cols|, nRows), ", ")))))
         == Some(Reading(table, cols, PlaceholderRows(1, |cols|, nRows)))
  {
    var values := " VALUES " + JoinWith(RowTexts(1, |cols|, nRows), ", ");
    var list := JoinWith(cols, ", ") + (")" + values);
    assert (" (" + list)[2..] == list;
    ReadListBack(cols, values);
    ReadValuesBack(|cols|, nRows);
  }

  lemma InsertText(table: string, names: string, rows: string)
    ensures "INSERT INTO " + table + " (" + names + ") VALUES " + rows
         == "INSERT INTO " + (table + (" (" + (names + (")" + (" VALUES " + rows)))))
  {
    assert ") VALUES " == ")" + " VALUES ";
  }

  lemma ReadInsertOf(table: string, rest: string)
    requires IsToken(table) && rest != "" && !TokenChar(rest[0])
    ensures ReadInsert("INSERT INTO " + (table + rest)) == ReadColumns(table, rest)
  {
    assert ("INSERT INTO " + (table + rest))[|"INSERT INTO "|..] == table + rest;
    LeadingTokenOf(table, rest);
    assert (table + rest)[|table|..] == rest;
  }

  /** A statement reads back as its table, its columns, and rows of the placeholders 1 to nRows * nCols in order. */
  lemma InsertReadsBack(table: string, cols: seq<string>, nRows: nat)
    requires IsToken(table) && Tokens(cols)
    ensures ReadInsert(InsertSql(table, cols, nRows)) == Some(Reading(table, cols, PlaceholderRows(1, |cols|, nRows)))
  {
    var names, rows := JoinWith(cols, ", "), JoinWith(RowTexts(1, |cols|, nRows), ", ");
    InsertText(table, names, rows);
    ReadInsertOf(table, " (" + (names + (")" + (" VALUES " + rows))));
    ReadColumnsBack(table, cols, nRows);
  }

  // ---- The rows inserted ----

  /** The number of a placeholder, if it is one. */
  function NumberOf(token: string): Option<nat> {
    if |token| > 1 && token[0] == '$' && forall c :: c in token[1..] ==> IsDigit(c) then Some(Parse(token[1..])) else None
  }

  predicate Refers(token: string, args: seq<SqlValue>) {
    NumberOf(token).Some? && 1 <= NumberOf(token).value <= |args|
  }

  predicate AllRefer(tokens: seq<string>, args: seq<SqlValue>) {
    forall j :: 0 <= j < |tokens| ==> Refers(tokens[j], args)
  }

  /** The values that a row's placeholders stand for. */
  function RowValues(tokens: seq<string>, args: seq<SqlValue>): seq<SqlValue>
    requires AllRefer(tokens, args)
  {
    seq(|tokens|, j requires 0 <= j < |tokens| => args[NumberOf(tokens[j]).value - 1])
  }

  /** The rows that a statement inserts: one for each list of placeholders. */
  datatype Insertion = Insertion(table: string, columns: seq<string>, rows: seq<seq<SqlValue>>)

  predicate AllRowsRefer(rows: seq<seq<string>>, args: seq<SqlValue>) {
    forall i :: 0 <= i < |rows| ==> AllRefer(rows[i], args)
  }

  function AllValues(rows: seq<seq<string>>, args: seq<SqlValue>): seq<seq<SqlValue>>
    requires AllRowsRefer(rows, args)
  {
    seq(|rows|, i requires 0 <= i < |rows| => RowValues(rows[i], args))
  }

  function InsertionOf(statement: Statement): Option<Insertion> {
    match ReadInsert(statement.sql)
    case None => None
    case Some(r) =>
      if AllRowsRefer(r.rows, statement.args) then Some(Insertion(r.table, r.columns, AllValues(r.rows, statement.args)))
      else None
  }

  lemma NumberOfPlaceholder(n: nat)
    ensures NumberOf(Placeholder(n)) == Some(n)
  {
    assert Placeholder(n)[1..] == Format(n);
    ParseUndoesFormat(n);
  }

  lemma PlaceholderRowsNext(first: nat, nCols: nat, count: nat, i: nat)
    requires 0 < i < count
    ensures PlaceholderRows(first, nCols, count)[i] == PlaceholderRows(first + nCols, nCols, count - 1)[i - 1]
  {
  }

  lemma {:induction false} PlaceholderRowsAt(first: nat, nCols: nat, count: nat, i: nat)
    requires i < count
    ensures PlaceholderRows(first, nCols, count)[i] == PlaceholderList(first + i * nCols, nCols)
    decreases count
  {
    if i > 0 {
      PlaceholderRowsNext(first, nCols, count, i);
      PlaceholderRowsAt(first + nCols, nCols, count - 1, i - 1);
      TimesNext(i - 1, nCols);
    } else {
      assert first + 0 * nCols == first;
    }
  }

  lemma IdColumnsAreTokens()
    ensures Tokens(["agency_id", "vehicle_id", "route_id", "stop_id", "origin_stop_id", "destination_stop_id", "direction_id"])
  {
    assert IsToken("agency_id") && IsToken("vehicle_id") && IsToken("route_id") && IsToken("stop_id");
    assert IsToken("origin_stop_id") && IsToken("destination_stop_id") && IsToken("direction_id");
  }

  lemma OtherColumnsAreTokens()
    ensures Tokens(["direction", "direction_destination", "parent_station", "stop_sequence", "stop_status", "trip_id",
                    "service_date", "event_timestamp"])
  {
    assert IsToken("direction") && IsToken("direction_destination") && IsToken("parent_station");
    assert IsToken("stop_sequence") && IsToken("stop_status") && IsToken("trip_id") && IsToken("service_date");
    assert IsToken("event_timestamp");
  }

  lemma StopAndHeadwayColumnsAreTokens()
    ensures Tokens(["stop_event_type"]) && Tokens(["leading_vehicle_id", "following_vehicle_id", "headway_seconds"])
  {
    assert IsToken("stop_event_type");
    assert IsToken("leading_vehicle_id") && IsToken("following_vehicle_id") && IsToken("headway_seconds");
  }

  lemma DwellAndTravelColumnsAreTokens()
    ensures Tokens(["arrival_time", "departure_time", "dwell_time_seconds"])
    ensures Tokens(["start_time", "end_time", "travel_time_seconds"])
  {
    assert IsToken("arrival_time") && IsToken("departure_time") && IsToken("dwell_time_seconds");
    assert IsToken("start_time") && IsToken("end_time") && IsToken("travel_time_seconds");
  }

  lemma TableNamesAreTokens(t: Table)
    ensures IsToken(TableName(t))
  {
    assert IsToken("stop_events") && IsToken("dwell_time_events");
    assert IsToken("travel_time_events") && IsToken("headway_time_events");
  }

  lemma TokensAppend(xs: seq<string>, ys: seq<string>)
    requires Tokens(xs) && Tokens(ys)
    ensures Tokens(xs + ys)
  {
  }

  lemma AttributeColumnsAreTokens()
    ensures Tokens(ATTRIBUTE_COLUMNS)
  {
    IdColumnsAreTokens();
    OtherColumnsAreTokens();
    TokensAppend(ATTRIBUTE_COLUMNS[..7], ATTRIBUTE_COLUMNS[7..]);
  }

  lemma ColumnsAreTokens(t: Table)
    ensures Tokens(Columns(t))
  {
    AttributeColumnsAreTokens();
    StopAndHeadwayColumnsAreTokens();
    DwellAndTravelColumnsAreTokens();
    TokensAppend(ATTRIBUTE_COLUMNS, Columns(t)[|ATTRIBUTE_COLUMNS|..]);
  }

  /** The rows of a table, each with a value for each column. */
  predicate Fit(rows: seq<seq<SqlValue>>, n: nat) {
    forall i :: 0 <= i < |rows| ==> |rows[i]| == n
  }

  /** Argument k belongs to row i, column j; its number is k + 1. */
  lemma PlaceholderNamesItsValue(rows: seq<seq<SqlValue>>, n: nat, i: nat, j: nat, k: int)
    requires Fit(rows, n) && i < |rows| && j < n && k == i * n + j
    ensures var token := PlaceholderRows(1, n, |rows|)[i];
            |token| == n && NumberOf(token[j]) == Some(k + 1)
    ensures 0 <= k < |Concat(rows)| && Concat(rows)[k] == rows[i][j]
  {
    PlaceholderRowsAt(1, n, |rows|, i);
    assert PlaceholderList(1 + i * n, n)[j] == Placeholder(k + 1);
    NumberOfPlaceholder(k + 1);
    ConcatAt(rows, n, i, j, k);
  }

  lemma RowReadsBack(rows: seq<seq<SqlValue>>, n: nat, i: nat, tokens: seq<string>)
    requires Fit(rows, n) && i < |rows| && tokens == PlaceholderRows(1, n, |rows|)[i] && |tokens| == n
    ensures AllRefer(tokens, Concat(rows)) && RowValues(tokens, Concat(rows)) == rows[i]
  {
    var args := Concat(rows);
    forall j | 0 <= j < n
      ensures Refers(tokens[j], args) && args[NumberOf(tokens[j]).value - 1] == rows[i][j]
    {
      PlaceholderNamesItsValue(rows, n, i, j, i * n + j);
    }
  }

  lemma RowsReadBack(rows: seq<seq<SqlValue>>, n: nat, placeholders: seq<seq<string>>)
    requires Fit(rows, n) && placeholders == PlaceholderRows(1, n, |rows|)
    ensures AllRowsRefer(placeholders, Concat(rows)) && AllValues(placeholders, Concat(rows)) == rows
  {
    forall i | 0 <= i < |rows|
      ensures AllRefer(placeholders[i], Concat(rows)) && RowValues(placeholders[i], Concat(rows)) == rows[i]
    {
      PlaceholderRowsAt(1, n, |rows|, i);
      RowReadsBack(rows, n, i, placeholders[i]);
    }
  }

  /** A statement built for some rows inserts exactly those rows, in order, into the table and columns it was built for. */
  lemma StatementInsertsRows(table: string, cols: seq<string>, rows: seq<seq<SqlValue>>)
    requires IsToken(table) && Tokens(cols) && Fit(rows, |cols|)
    ensures InsertionOf(Statement(InsertSql(table, cols, |rows|), Concat(rows))) == Some(Insertion(table, cols, rows))
  {
    InsertReadsBack(table, cols, |rows|);
    RowsReadBack(rows, |cols|, PlaceholderRows(1, |cols|, |rows|));
  }

  /** A statement of the sink inserts exactly the rows of its events, in order. */
  lemma InsertInsertsRows(t: Table, es: seq<Event>)
    requires InTable(es, t)
    ensures InsertionOf(InsertOf(t, es)) == Some(Insertion(TableName(t), Columns(t), Rows(es)))
    ensures |Rows(es)| == |es| && forall i :: 0 <= i < |es| ==> Rows(es)[i] == Row(es[i])
  {
    TableNamesAreTokens(t);
    ColumnsAreTokens(t);
    RowsFit(es, t);
    StatementInsertsRows(TableName(t), Columns(t), Rows(es));
  }

  // ---- What the rows hold, in the events' own fields ----

  /** The table that an event's row goes into; a position goes into none. */
  lemma EventGoesToItsTable(e: Event)
    ensures match e
            case OfPosition(_) => TableOf(e) == None
            case _ =>
              && TableOf(e).Some?
              && TableName(TableOf(e).value) ==
                 match e
                 case OfDwell(_) => "dwell_time_events"
                 case OfTravel(_) => "travel_time_events"
                 case OfHeadway(_) => "headway_time_events"
                 case _ => "stop_events"
  {
  }

  /** What the first fifteen columns of every table hold. */
  lemma RowHoldsAttributes(t: Table, e: Event, a: Attributes)
    requires TableOf(e) == Some(t)
    requires match e
             case OfStop(stop) => a == stop.attr
             case OfDwell(dwell) => a == dwell.attr
             case OfTravel(travel) => a == travel.attr
             case OfHeadway(headway) => a == headway.attr
             case NilStop => a == Attributes("", "", "", "", "", "", "", "", "", "", 0, Unknown, "", "", None)
             case OfPosition(_) => true
    ensures |Row(e)| == |Columns(t)|
    ensures ["agency_id", "vehicle_id", "route_id", "stop_id", "origin_stop_id", "destination_stop_id", "direction_id",
             "direction", "direction_destination", "parent_station", "stop_sequence", "stop_status", "trip_id",
             "service_date", "event_timestamp"] <= Columns(t)
    ensures [Text(a.agencyId), Text(a.vehicleId), Text(a.routeId), Text(a.stopId), Text(a.originStopId),
             Text(a.destinationStopId), Text(a.directionId), Text(a.direction), Text(a.directionDestination),
             Text(a.parentStation), Number(a.stopSequence),
             Number(match a.stopStatus case Unknown => 0 case IncomingAt => 1 case StoppedAt => 2 case InTransitTo => 3),
             Text(a.tripId), Text(a.serviceDate),
             match a.timestamp case None => Null case Some(time) => Time(time)] <= Row(e)
  {
    RowFollowsColumns(e, t, 0);
  }

  /** A present time is written as it is, but as NULL if it is 1 January of year 1; an absent one as the epoch. */
  function WrittenTime(time: Option<int>): SqlValue {
    match time
    case None => Time(0)
    case Some(seconds) => if seconds == -62_135_596_800 then Null else Time(seconds)
  }

  /** What the columns after the fifteenth hold. */
  lemma RowHoldsMetrics(t: Table, e: Event)
    requires TableOf(e) == Some(t)
    ensures |Row(e)| == |Columns(t)| == (if e.OfStop? || e.NilStop? then 16 else 18)
    ensures match e
            case OfStop(stop) =>
              && Columns(t)[15] == "stop_event_type"
              && Row(e)[15] ==
                 Text(match stop.eventType case UnknownType => "UNKNOWN" case Arrival => "ARRIVAL" case Departure => "DEPARTURE")
            case NilStop => Columns(t)[15] == "stop_event_type" && Row(e)[15] == Text("UNKNOWN")
            case OfDwell(dwell) =>
              && Columns(t)[15] == "arrival_time" && Row(e)[15] == WrittenTime(dwell.arrivalTime)
              && Columns(t)[16] == "departure_time" && Row(e)[16] == WrittenTime(dwell.departureTime)
              && Columns(t)[17] == "dwell_time_seconds" && Row(e)[17] == Number(dwell.seconds)
            case OfTravel(travel) =>
              && Columns(t)[15] == "start_time" && Row(e)[15] == WrittenTime(travel.startTime)
              && Columns(t)[16] == "end_time" && Row(e)[16] == WrittenTime(travel.endTime)
              && Columns(t)[17] == "travel_time_seconds" && Row(e)[17] == Number(travel.seconds)
            case OfHeadway(headway) =>
              && Columns(t)[15] == "leading_vehicle_id" && Row(e)[15] == Text(headway.leadingVehicleId)
              && Columns(t)[16] == "following_vehicle_id" && Row(e)[16] == Text(headway.followingVehicleId)
              && Columns(t)[17] == "headway_seconds" && Row(e)[17] == Number(headway.seconds)
            case OfPosition(_) => true
  {
  }

  lemma JoinOfTwo(x: string, y: string)
    ensures JoinWith([x, y], ", ") == x + ", " + y
  {
    assert [x, y][1..] == [y];
  }

  lemma RowOfTwo(first: nat)
    ensures RowText(first, 2) == "(" + ("$" + Format(first) + ", " + ("$" + Format(first + 1))) + ")"
  {
    assert PlaceholderList(first, 2) == [Placeholder(first), Placeholder(first + 1)];
    JoinOfTwo(Placeholder(first), Placeholder(first + 1));
  }

  lemma RowsOfTwo()
    ensures RowText(1, 2) == "($1, $2)" && RowText(3, 2) == "($3, $4)"
  {
    RowOfTwo(1);
    RowOfTwo(3);
    assert Format(1) == "1" && Format(2) == "2" && Format(3) == "3" && Format(4) == "4";
  }

  /** For example, the text for two rows of two columns. */
  lemma TwoRowsOfTwoColumns(table: string, a: string, b: string)
    ensures InsertSql(table, [a, b], 2) ==
            "INSERT INTO " + table + " (" + (a + ", " + b) + ") VALUES " + ("($1, $2)" + ", " + "($3, $4)")
  {
    RowsOfTwo();
    assert RowTexts(1, 2, 2) == [RowText(1, 2), RowText(3, 2)];
    JoinOfTwo(a, b);
    JoinOfTwo(RowText(1, 2), RowText(3, 2));
  }
}
