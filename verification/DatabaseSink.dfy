/** The batching loop of the database sink: what is flushed, when, and what a shutdown leaves behind. */
module DatabaseSink {
  import opened Events
  import opened SqlInserts
  import opened SqlReading

  /** What the select of doSink may see next. */
  datatype Signal = Cancelled | Tick | Closed | Received(event: Event) | Unexpected

  predicate Ends(s: Signal) {
    s == Cancelled || s == Closed
  }

  // ---- flush ----

  /** The events of a batch for a table, in order. */
  function Part(batch: seq<Event>, t: Table): (part: seq<Event>)
    ensures InTable(part, t)
  {
    if batch == [] then []
    else
      var e := batch[|batch| - 1];
      Part(batch[..|batch| - 1], t) + if TableOf(e) == Some(t) then [e] else []
  }

  function Unsupported(batch: seq<Event>): seq<Event> {
    if batch == [] then []
    else
      var e := batch[|batch| - 1];
      Unsupported(batch[..|batch| - 1]) + if TableOf(e) == None then [e] else []
  }

  function InsertUnlessEmpty(t: Table, part: seq<Event>): seq<Statement> {
    if part == [] then [] else [InsertOf(t, part)]
  }

  /** The statements for four parts, in the source's order. */
  function StatementsFor(stops: seq<Event>, dwells: seq<Event>, travels: seq<Event>, headways: seq<Event>): seq<Statement> {
    InsertUnlessEmpty(StopEventsTable, stops) + InsertUnlessEmpty(DwellTable, dwells)
    + InsertUnlessEmpty(TravelTable, travels) + InsertUnlessEmpty(HeadwayTable, headways)
  }

  /** The statements of one flush, at most one for each table. */
  function Statements(batch: seq<Event>): seq<Statement> {
    StatementsFor(Part(batch, StopEventsTable), Part(batch, DwellTable),
                  Part(batch, TravelTable), Part(batch, HeadwayTable))
  }

  lemma PartNext(batch: seq<Event>, e: Event, t: Table)
    ensures Part(batch + [e], t) == Part(batch, t) + if TableOf(e) == Some(t) then [e] else []
  {
    assert (batch + [e])[..|batch|] == batch;
  }

  /** How often an event occurs. */
  function Times(es: seq<Event>, e: Event): nat {
    if es == [] then 0 else Times(es[..|es| - 1], e) + if es[|es| - 1] == e then 1 else 0
  }

  lemma TimesNext(es: seq<Event>, last: Event, e: Event)
    ensures Times(es + [last], e) == Times(es, e) + if last == e then 1 else 0
  {
    assert (es + [last])[..|es|] == es;
  }

  lemma PartTimesNext(before: seq<Event>, last: Event, t: Table, e: Event)
    requires Times(Part(before, t), e) == if TableOf(e) == Some(t) then Times(before, e) else 0
    ensures Times(Part(before + [last], t), e) == if TableOf(e) == Some(t) then Times(before + [last], e) else 0
  {
    var part := Part(before, t);
    TimesNext(before, last, e);
    if TableOf(last) == Some(t) {
      assert Part(before + [last], t) == part + [last] by { PartNext(before, last, t); }
      TimesNext(part, last, e);
    } else {
      assert Part(before + [last], t) == part by { PartNext(before, last, t); }
    }
  }

  lemma {:induction false} PartTimes(batch: seq<Event>, t: Table, e: Event)
    ensures Times(Part(batch, t), e) == if TableOf(e) == Some(t) then Times(batch, e) else 0
  {
    if batch != [] {
      var before, last := batch[..|batch| - 1], batch[|batch| - 1];
      assert batch == before + [last];
      PartTimes(before, t, e);
      PartTimesNext(before, last, t, e);
    }
  }

  lemma {:induction false} UnsupportedTimes(batch: seq<Event>, e: Event)
    ensures Times(Unsupported(batch), e) == if TableOf(e) == None then Times(batch, e) else 0
  {
    if batch != [] {
      var before, last := batch[..|batch| - 1], batch[|batch| - 1];
      UnsupportedTimes(before, e);
      if TableOf(last) == None {
        TimesNext(Unsupported(before), last, e);
      } else {
        assert Unsupported(batch) == Unsupported(before);
      }
    }
  }

  /** Each occurrence of an event in a batch is in exactly one part, or is unsupported: none is lost or doubled. */
  lemma FlushPartitions(batch: seq<Event>, e: Event)
    ensures Times(batch, e) ==
            Times(Part(batch, StopEventsTable), e) + Times(Part(batch, DwellTable), e)
            + Times(Part(batch, TravelTable), e) + Times(Part(batch, HeadwayTable), e) + Times(Unsupported(batch), e)
    ensures Times(Unsupported(batch), e) > 0 ==> TableOf(e) == None
  {
    PartTimes(batch, StopEventsTable, e);
    PartTimes(batch, DwellTable, e);
    PartTimes(batch, TravelTable, e);
    PartTimes(batch, HeadwayTable, e);
    UnsupportedTimes(batch, e);
  }

  /** Partitioning keeps the order: the part of a batch is the part of its beginning, then that of its end. */
  lemma {:induction false} PartKeepsOrder(a: seq<Event>, b: seq<Event>, t: Table)
    ensures Part(a + b, t) == Part(a, t) + Part(b, t)
  {
    if b == [] {
      assert a + b == a;
    } else {
      var n := |b| - 1;
      assert (a + b)[..|a + b| - 1] == a + b[..n];
      PartKeepsOrder(a, b[..n], t);
    }
  }

  /** A single event is in the part of its constructor's table, and in no other. */
  lemma PartOfOne(e: Event)
    ensures Part([e], StopEventsTable) == if e.OfStop? || e.NilStop? then [e] else []
    ensures Part([e], DwellTable) == if e.OfDwell? then [e] else []
    ensures Part([e], TravelTable) == if e.OfTravel? then [e] else []
    ensures Part([e], HeadwayTable) == if e.OfHeadway? then [e] else []
  {
    assert [e][..0] == [];
  }

  // ---- What is inserted ----

  function FlatMap<A, B>(xs: seq<A>, f: A -> seq<B>): seq<B> {
    if xs == [] then [] else FlatMap(xs[..|xs| - 1], f) + f(xs[|xs| - 1])
  }

  lemma {:induction false} FlatMapConcat<A, B>(a: seq<A>, b: seq<A>, f: A -> seq<B>)
    ensures FlatMap(a + b, f) == FlatMap(a, f) + FlatMap(b, f)
  {
    if b == [] {
      assert a + b == a;
    } else {
      var n := |b| - 1;
      assert (a + b)[..|a + b| - 1] == a + b[..n];
      FlatMapConcat(a, b[..n], f);
    }
  }

  lemma FlatMapNext<A, B>(xs: seq<A>, x: A, f: A -> seq<B>)
    ensures FlatMap(xs + [x], f) == FlatMap(xs, f) + f(x)
  {
    assert (xs + [x])[..|xs|] == xs;
  }

  lemma FlatMapOne<A, B>(x: A, f: A -> seq<B>)
    ensures FlatMap([x], f) == f(x)
  {
    assert [x][..0] == [];
  }

  /** Mapping what xs maps to maps xs to what each maps to in two steps. */
  lemma {:induction false} FlatMapTwice<A, B, C>(xs: seq<A>, f: A -> seq<B>, g: B -> seq<C>, h: A -> seq<C>)
    requires forall x :: FlatMap(f(x), g) == h(x)
    ensures FlatMap(FlatMap(xs, f), g) == FlatMap(xs, h)
  {
    if xs != [] {
      var before, x := xs[..|xs| - 1], xs[|xs| - 1];
      FlatMapTwice(before, f, g, h);
      FlatMapConcat(FlatMap(before, f), f(x), g);
    }
  }

  function Flushing(): seq<Event> -> seq<Statement> {
    (batch: seq<Event>) => Statements(batch)
  }

  /** The statements of all the flushes. */
  function AllStatements(batches: seq<seq<Event>>): seq<Statement> {
    FlatMap(batches, Flushing())
  }

  lemma StatementsNext(batches: seq<seq<Event>>, batch: seq<Event>)
    ensures AllStatements(batches + [batch]) == AllStatements(batches) + Statements(batch)
  {
    FlatMapNext(batches, batch, Flushing());
  }

  function TableIn(): Statement -> seq<string> {
    (statement: Statement) =>
      match InsertionOf(statement)
      case None => []
      case Some(insertion) => [insertion.table]
  }

  function RowsFor(table: string): Statement -> seq<seq<SqlValue>> {
    (statement: Statement) =>
      match InsertionOf(statement)
      case None => []
      case Some(insertion) => if insertion.table == table then insertion.rows else []
  }

  /** The tables that the statements insert into, as a database reads them. */
  function TablesIn(statements: seq<Statement>): seq<string> {
    FlatMap(statements, TableIn())
  }

  /** The rows that the statements insert into a table, as a database reads them. */
  function RowsInto(statements: seq<Statement>, table: string): seq<seq<SqlValue>> {
    FlatMap(statements, RowsFor(table))
  }

  lemma OneStatement(statement: Statement, insertion: Insertion, table: string)
    requires InsertionOf(statement) == Some(insertion)
    ensures TablesIn([statement]) == [insertion.table]
    ensures RowsInto([statement], table) == if insertion.table == table then insertion.rows else []
  {
    FlatMapOne(statement, TableIn());
    FlatMapOne(statement, RowsFor(table));
  }

  lemma TableNamesDiffer(t: Table, t': Table)
    ensures TableName(t) == TableName(t') <==> t == t'
  {
    assert |"stop_events"| < |"dwell_time_events"| < |"travel_time_events"| < |"headway_time_events"|;
  }

  lemma InsertUnlessEmptyInserts(t: Table, part: seq<Event>, t': Table)
    requires InTable(part, t)
    ensures TablesIn(InsertUnlessEmpty(t, part)) == UnlessEmpty(part, TableName(t))
    ensures RowsInto(InsertUnlessEmpty(t, part), TableName(t')) == if t == t' then Rows(part) else []
  {
    TableNamesDiffer(t, t');
    if part != [] {
      InsertInsertsRows(t, part);
      OneStatement(InsertOf(t, part), Insertion(TableName(t), Columns(t), Rows(part)), TableName(t'));
    }
  }

  lemma FlatMapFour<A, B>(a: seq<A>, b: seq<A>, c: seq<A>, d: seq<A>, f: A -> seq<B>)
    ensures FlatMap(a + b + c + d, f) == FlatMap(a, f) + FlatMap(b, f) + FlatMap(c, f) + FlatMap(d, f)
  {
    FlatMapConcat(a + b + c, d, f);
    FlatMapConcat(a + b, c, f);
    FlatMapConcat(a, b, f);
  }

  function UnlessEmpty(part: seq<Event>, table: string): seq<string> {
    if part == [] then [] else [table]
  }

  lemma TablesOfStatements(stops: seq<Event>, dwells: seq<Event>, travels: seq<Event>, headways: seq<Event>)
    requires InTable(stops, StopEventsTable) && InTable(dwells, DwellTable)
    requires InTable(travels, TravelTable) && InTable(headways, HeadwayTable)
    ensures TablesIn(StatementsFor(stops, dwells, travels, headways)) ==
            UnlessEmpty(stops, TableName(StopEventsTable)) + UnlessEmpty(dwells, TableName(DwellTable))
            + UnlessEmpty(travels, TableName(TravelTable)) + UnlessEmpty(headways, TableName(HeadwayTable))
  {
    InsertUnlessEmptyInserts(StopEventsTable, stops, StopEventsTable);
    InsertUnlessEmptyInserts(DwellTable, dwells, DwellTable);
    InsertUnlessEmptyInserts(TravelTable, travels, TravelTable);
    InsertUnlessEmptyInserts(HeadwayTable, headways, HeadwayTable);
    FlatMapFour(InsertUnlessEmpty(StopEventsTable, stops), InsertUnlessEmpty(DwellTable, dwells),
                InsertUnlessEmpty(TravelTable, travels), InsertUnlessEmpty(HeadwayTable, headways), TableIn());
  }

  lemma RowsOfStatements(stops: seq<Event>, dwells: seq<Event>, travels: seq<Event>, headways: seq<Event>, t: Table)
    requires InTable(stops, StopEventsTable) && InTable(dwells, DwellTable)
    requires InTable(travels, TravelTable) && InTable(headways, HeadwayTable)
    ensures RowsInto(StatementsFor(stops, dwells, travels, headways), TableName(t)) ==
            (if t == StopEventsTable then Rows(stops) else []) + (if t == DwellTable then Rows(dwells) else [])
            + (if t == TravelTable then Rows(travels) else []) + (if t == HeadwayTable then Rows(headways) else [])
  {
    InsertUnlessEmptyInserts(StopEventsTable, stops, t);
    InsertUnlessEmptyInserts(DwellTable, dwells, t);
    InsertUnlessEmptyInserts(TravelTable, travels, t);
    InsertUnlessEmptyInserts(HeadwayTable, headways, t);
    FlatMapFour(InsertUnlessEmpty(StopEventsTable, stops), InsertUnlessEmpty(DwellTable, dwells),
                InsertUnlessEmpty(TravelTable, travels), InsertUnlessEmpty(HeadwayTable, headways), RowsFor(TableName(t)));
  }

  lemma OneOfFour<T>(x: seq<T>)
    ensures x + [] + [] + [] == [] + x + [] + [] == [] + [] + x + [] == [] + [] + [] + x == x
  {
  }

  /** A flush inserts into each table exactly the rows of the batch's events for it, in order. */
  lemma StatementsInsert(batch: seq<Event>, t: Table)
    ensures RowsInto(Statements(batch), TableName(t)) == Rows(Part(batch, t))
  {
    RowsOfStatements(Part(batch, StopEventsTable), Part(batch, DwellTable),
                     Part(batch, TravelTable), Part(batch, HeadwayTable), t);
    OneOfFour(Rows(Part(batch, t)));
  }

  lemma RowsOfBoth(a: seq<Event>, b: seq<Event>)
    ensures Rows(a + b) == Rows(a) + Rows(b)
  {
  }

  /** All the flushes insert into each table exactly the rows of the flushed events for it, in order. */
  function PartRows(t: Table): seq<Event> -> seq<seq<SqlValue>> {
    (batch: seq<Event>) => Rows(Part(batch, t))
  }

  lemma {:induction false} RowsOfParts(batches: seq<seq<Event>>, t: Table)
    ensures FlatMap(batches, PartRows(t)) == Rows(Part(Concat(batches), t))
  {
    if batches != [] {
      var before, batch := batches[..|batches| - 1], batches[|batches| - 1];
      RowsOfParts(before, t);
      PartKeepsOrder(Concat(before), batch, t);
      RowsOfBoth(Part(Concat(before), t), Part(batch, t));
    }
  }

  lemma AllStatementsInsert(batches: seq<seq<Event>>, t: Table)
    ensures RowsInto(AllStatements(batches), TableName(t)) == Rows(Part(Concat(batches), t))
  {
    forall batch ensures FlatMap(Flushing()(batch), RowsFor(TableName(t))) == PartRows(t)(batch) {
      StatementsInsert(batch, t);
    }
    FlatMapTwice(batches, Flushing(), RowsFor(TableName(t)), PartRows(t));
    RowsOfParts(batches, t);
  }

  /** The rows inserted are, table by table and in order, those of the events, each once. */
  ghost predicate Inserts(statements: seq<Statement>, es: seq<Event>) {
    forall t :: RowsInto(statements, TableName(t)) == Rows(Part(es, t))
  }

  lemma AllInsert(batches: seq<seq<Event>>)
    ensures Inserts(AllStatements(batches), Concat(batches))
  {
    forall t ensures RowsInto(AllStatements(batches), TableName(t)) == Rows(Part(Concat(batches), t)) {
      AllStatementsInsert(batches, t);
    }
  }

  /** The tables with events in a batch, in the order stop, dwell, travel, headway. */
  function TablesOf(batch: seq<Event>): seq<string> {
    UnlessEmpty(Part(batch, StopEventsTable), TableName(StopEventsTable))
    + UnlessEmpty(Part(batch, DwellTable), TableName(DwellTable))
    + UnlessEmpty(Part(batch, TravelTable), TableName(TravelTable))
    + UnlessEmpty(Part(batch, HeadwayTable), TableName(HeadwayTable))
  }

  function TablesFor(): seq<Event> -> seq<string> {
    (batch: seq<Event>) => TablesOf(batch)
  }

  /** A flush executes one statement for each table with events in the batch, and none for the others. */
  lemma FlushTables(batch: seq<Event>)
    ensures TablesIn(Statements(batch)) == TablesOf(batch)
  {
    TablesOfStatements(Part(batch, StopEventsTable), Part(batch, DwellTable),
                       Part(batch, TravelTable), Part(batch, HeadwayTable));
  }

  lemma AllTables(batches: seq<seq<Event>>)
    ensures TablesIn(AllStatements(batches)) == FlatMap(batches, TablesFor())
  {
    forall batch ensures FlatMap(Flushing()(batch), TableIn()) == TablesFor()(batch) {
      FlushTables(batch);
    }
    FlatMapTwice(batches, Flushing(), TableIn(), TablesFor());
  }

  /** One flush inserts the rows of its batch, with one statement for each table that the batch has events for. */
  lemma FlushInserts(batch: seq<Event>)
    ensures Inserts(Statements(batch), batch) && TablesIn(Statements(batch)) == TablesOf(batch)
  {
    forall t ensures RowsInto(Statements(batch), TableName(t)) == Rows(Part(batch, t)) {
      StatementsInsert(batch, t);
    }
    FlushTables(batch);
  }

  /** What was executed on top of what had been before is what inserts the flushed events. */
  ghost predicate Inserted(before: seq<Statement>, now: seq<Statement>, flushed: seq<seq<Event>>) {
    && before <= now
    && Inserts(now[|before|..], Concat(flushed))
    && TablesIn(now[|before|..]) == FlatMap(flushed, TablesFor())
  }

  lemma AllIsInserted(before: seq<Statement>, now: seq<Statement>, flushed: seq<seq<Event>>)
    requires now == before + AllStatements(flushed)
    ensures Inserted(before, now, flushed)
  {
    AllInsert(flushed);
    AllTables(flushed);
    assert now[|before|..] == AllStatements(flushed);
  }

  // ---- doSink ----

  /** The loop's state: the batches flushed so far, the batch being filled, and whether the loop has returned. */
  datatype Progress = Progress(flushed: seq<seq<Event>>, batch: seq<Event>, returned: bool)

  function Flushed(p: Progress): Progress {
    Progress(p.flushed + [p.batch], [], p.returned)
  }

  function React(p: Progress, s: Signal, max: nat): Progress {
    if p.returned then p
    else match s
      case Cancelled => (if p.batch != [] then Flushed(p) else p).(returned := true)
      case Tick => if p.batch != [] then Flushed(p) else p
      case Closed => p.(returned := true)
      case Unexpected => p
      case Received(event) =>
        var filled := p.(batch := p.batch + [event]);
        if |filled.batch| >= max then Flushed(filled) else filled
  }

  /** Each signal flushes the whole buffer or nothing, and only a full one, a tick and a cancellation flush. */
  lemma SignalsFlush(flushed: seq<seq<Event>>, batch: seq<Event>, s: Signal, max: nat)
    ensures var kept := if batch == [] then flushed else flushed + [batch];
            React(Progress(flushed, batch, false), s, max) ==
            match s
            case Cancelled => Progress(kept, [], true)
            case Tick => Progress(kept, [], false)
            case Closed => Progress(flushed, batch, true)
            case Unexpected => Progress(flushed, batch, false)
            case Received(event) =>
              if |batch| + 1 < max then Progress(flushed, batch + [event], false)
              else Progress(flushed + [batch + [event]], [], false)
  {
  }

  function Run(signals: seq<Signal>, max: nat): Progress {
    if signals == [] then Progress([], [], false)
    else React(Run(signals[..|signals| - 1], max), signals[|signals| - 1], max)
  }

  lemma RunNext(signals: seq<Signal>, s: Signal, max: nat)
    ensures Run(signals + [s], max) == React(Run(signals, max), s, max)
  {
    assert (signals + [s])[..|signals|] == signals;
  }

  lemma NextSignal(signals: seq<Signal>, i: nat, max: nat)
    requires i < |signals|
    ensures Run(signals[..i + 1], max) == React(Run(signals[..i], max), signals[i], max)
  {
    assert signals[..i + 1] == signals[..i] + [signals[i]];
    RunNext(signals[..i], signals[i], max);
  }

  /** After the loop has returned, nothing more is read. */
  lemma {:induction false} NothingAfterReturn(signals: seq<Signal>, max: nat, n: nat)
    requires n <= |signals| && Run(signals[..n], max).returned
    ensures Run(signals, max) == Run(signals[..n], max)
  {
    if n < |signals| {
      assert signals[..|signals| - 1][..n] == signals[..n];
      NothingAfterReturn(signals[..|signals| - 1], max, n);
    } else {
      assert signals[..n] == signals;
    }
  }

  lemma FlushedOn<T>(a: seq<T>, b: seq<T>, c: seq<T>)
    ensures (a + b) + c == a + (b + c)
  {
  }

  lemma ConcatFour<T>(x: seq<T>, a: seq<T>, b: seq<T>, c: seq<T>, d: seq<T>)
    ensures x + a + b + c + d == x + (a + b + c + d)
  {
  }

  /** The first loop of flush. */
  method Partition(batch: seq<Event>)
    returns (stops: seq<Event>, dwells: seq<Event>, travels: seq<Event>, headways: seq<Event>)
    ensures stops == Part(batch, StopEventsTable) && dwells == Part(batch, DwellTable)
    ensures travels == Part(batch, TravelTable) && headways == Part(batch, HeadwayTable)
  {
    stops, dwells, travels, headways := [], [], [], [];
    ghost var done := [];
    for i := 0 to |batch|
      invariant done == batch[..i]
      invariant stops == Part(done, StopEventsTable) && dwells == Part(done, DwellTable)
      invariant travels == Part(done, TravelTable) && headways == Part(done, HeadwayTable)
    {
      var e := batch[i];
      PartNext(done, e, StopEventsTable);
      PartNext(done, e, DwellTable);
      PartNext(done, e, TravelTable);
      PartNext(done, e, HeadwayTable);
      match e {
        case OfStop(_) => stops := stops + [e];
        case NilStop => stops := stops + [e];
        case OfDwell(_) => dwells := dwells + [e];
        case OfTravel(_) => travels := travels + [e];
        case OfHeadway(_) => headways := headways + [e];
        case OfPosition(_) =>
      }
      done := done + [e];
    }
    assert done == batch;
  }

  class Sink {
    const maxBatchSize: nat
    var executed: seq<Statement>

    constructor (configured: int)
      ensures maxBatchSize == (if configured <= 0 then 100 else configured) > 0 && executed == []
    {
      maxBatchSize := if configured <= 0 then 100 else configured;
      executed := [];
    }

    method Flush(batch: seq<Event>)
      modifies this`executed
      ensures executed == old(executed) + Statements(batch)
    {
      var stops, dwells, travels, headways := Partition(batch);
      InsertInto(StopEventsTable, stops);
      InsertInto(DwellTable, dwells);
      InsertInto(TravelTable, travels);
      InsertInto(HeadwayTable, headways);
      ConcatFour(old(executed), InsertUnlessEmpty(StopEventsTable, stops), InsertUnlessEmpty(DwellTable, dwells),
                 InsertUnlessEmpty(TravelTable, travels), InsertUnlessEmpty(HeadwayTable, headways));
    }

    method InsertInto(t: Table, part: seq<Event>)
      modifies this`executed
      ensures executed == old(executed) + InsertUnlessEmpty(t, part)
    {
      if |part| > 0 {
        var statement := Insert(t, part);
        executed := executed + [statement];
      }
    }

    /** Flushes a batch, and notes it among those flushed since before. */
    method FlushAndNote(batch: seq<Event>, ghost before: seq<Statement>, ghost flushed: seq<seq<Event>>)
      returns (ghost flushed': seq<seq<Event>>)
      requires executed == before + AllStatements(flushed)
      modifies this`executed
      ensures flushed' == flushed + [batch] && executed == before + AllStatements(flushed')
    {
      Flush(batch);
      flushed' := flushed + [batch];
      assert executed == before + AllStatements(flushed') by {
        StatementsNext(flushed, batch);
        FlushedOn(before, AllStatements(flushed), Statements(batch));
      }
    }

    /** One round of the loop's select, on the buffer; stop means that the loop returns. */
    method Select(signal: Signal, filling: seq<Event>, ghost before: seq<Statement>, ghost flushed: seq<seq<Event>>)
      returns (batch: seq<Event>, stop: bool, ghost flushed': seq<seq<Event>>)
      requires executed == before + AllStatements(flushed)
      modifies this`executed
      ensures executed == before + AllStatements(flushed')
      ensures Progress(flushed', batch, stop) == React(Progress(flushed, filling, false), signal, maxBatchSize)
    {
      batch, stop, flushed' := filling, false, flushed;
      match signal {
        case Cancelled =>
          if |batch| > 0 {
            flushed' := FlushAndNote(batch, before, flushed);
          }
          return [], true, flushed';
        case Tick =>
          if |batch| > 0 {
            flushed' := FlushAndNote(batch, before, flushed);
            batch := [];
          }
        case Closed =>
          stop := true;
        case Unexpected =>
        case Received(event) =>
          batch := batch + [event];
          if |batch| >= maxBatchSize {
            flushed' := FlushAndNote(batch, before, flushed);
            batch := [];
          }
      }
    }

    /** Reads the signals until one ends the loop, and says which batches it flushed and what it left in the buffer. */
    method DoSink(signals: seq<Signal>) returns (ghost flushed: seq<seq<Event>>, left: seq<Event>)
      modifies this`executed
      ensures flushed == Run(signals, maxBatchSize).flushed && left == Run(signals, maxBatchSize).batch
      ensures executed == old(executed) + AllStatements(flushed)
      ensures Inserted(old(executed), executed, flushed) && Concat(flushed) + left == Accepted(signals)
    {
      left, flushed := Loop(signals);
      AllIsInserted(old(executed), executed, flushed);
      NothingIsLostOrReordered(signals, maxBatchSize);
    }

    /** The loop itself. */
    method Loop(signals: seq<Signal>) returns (left: seq<Event>, ghost flushed: seq<seq<Event>>)
      modifies this`executed
      ensures flushed == Run(signals, maxBatchSize).flushed && left == Run(signals, maxBatchSize).batch
      ensures executed == old(executed) + AllStatements(flushed)
    {
      ghost var before := executed;
      var stop := false;
      flushed, left := [], [];
      assert before + AllStatements(flushed) == before;
      for i := 0 to |signals|
        invariant Run(signals[..i], maxBatchSize) == Progress(flushed, left, false)
        invariant executed == before + AllStatements(flushed)
      {
        NextSignal(signals, i, maxBatchSize);
        left, stop, flushed := Select(signals[i], left, before, flushed);
        if stop {
          NothingAfterReturn(signals, maxBatchSize, i + 1);
          return;
        }
      }
      assert signals[..|signals|] == signals;
    }
  }

  // ---- Conservation ----

  /** The loop has read a signal that ends it. */
  predicate Stopped(signals: seq<Signal>) {
    exists i :: 0 <= i < |signals| && Ends(signals[i])
  }

  /** The events received before the loop ends, in order. */
  function Accepted(signals: seq<Signal>): seq<Event> {
    if signals == [] then []
    else
      var before, s := signals[..|signals| - 1], signals[|signals| - 1];
      Accepted(before) + if s.Received? && !Stopped(before) then [s.event] else []
  }

  /** All that the loop holds and has flushed, in order. */
  function Content(p: Progress): seq<Event> {
    Concat(p.flushed) + p.batch
  }

  lemma FlushKeepsContent(p: Progress)
    ensures Content(Flushed(p)) == Content(p)
  {
    ConcatNext(p.flushed, p.batch);
  }

  /** One signal adds its event to the content, unless the loop has returned. */
  lemma ReactKeepsContent(p: Progress, s: Signal, max: nat)
    ensures Content(React(p, s, max)) == Content(p) + if s.Received? && !p.returned then [s.event] else []
    ensures React(p, s, max).returned <==> p.returned || Ends(s)
  {
    FlushKeepsContent(p);
    if s.Received? {
      FlushKeepsContent(p.(batch := p.batch + [s.event]));
      assert Concat(p.flushed) + (p.batch + [s.event]) == Content(p) + [s.event];
    }
  }

  lemma StoppedNext(signals: seq<Signal>, s: Signal)
    ensures Stopped(signals + [s]) <==> Stopped(signals) || Ends(s)
  {
    var longer := signals + [s];
    assert longer[|signals|] == s;
    if i :| 0 <= i < |signals| && Ends(signals[i]) {
      assert longer[i] == signals[i];
    }
  }

  /** The flushed batches and the buffer hold exactly the accepted events, in order. */
  lemma {:induction false} NothingIsLostOrReordered(signals: seq<Signal>, max: nat)
    ensures Run(signals, max).returned <==> Stopped(signals)
    ensures Concat(Run(signals, max).flushed) + Run(signals, max).batch == Accepted(signals)
  {
    if signals != [] {
      var before, s := signals[..|signals| - 1], signals[|signals| - 1];
      assert signals == before + [s];
      NothingIsLostOrReordered(before, max);
      ReactKeepsContent(Run(before, max), s, max);
      StoppedNext(before, s);
    }
  }

  /** Every flush is nonempty and at most the maximum, and the buffer stays below the maximum. */
  lemma {:induction false} BatchesAreBounded(signals: seq<Signal>, max: nat)
    requires max > 0
    ensures forall b :: b in Run(signals, max).flushed ==> 1 <= |b| <= max
    ensures |Run(signals, max).batch| < max
  {
    if signals != [] {
      BatchesAreBounded(signals[..|signals| - 1], max);
    }
  }

  /** Cancellation leaves nothing in the buffer; closing leaves all that was in it. */
  lemma ShutdownLeaves(signals: seq<Signal>, last: Signal, max: nat)
    requires !Stopped(signals) && Ends(last)
    ensures var p, p' := Run(signals, max), Run(signals + [last], max);
            && p'.returned
            && if last == Cancelled then p'.batch == [] && Concat(p'.flushed) == Accepted(signals)
               else p'.batch == p.batch && p'.flushed == p.flushed
  {
    assert (signals + [last])[..|signals|] == signals;
    NothingIsLostOrReordered(signals, max);
    ConcatNext(Run(signals, max).flushed, Run(signals, max).batch);
  }

  /** The number of events received since the last tick. */
  function SinceTick(signals: seq<Signal>): nat {
    if signals == [] then 0
    else
      var s := signals[|signals| - 1];
      if s == Tick then 0 else SinceTick(signals[..|signals| - 1]) + if s.Received? then 1 else 0
  }

  /** The buffer is what full batches leave over of the events since the last tick. */
  lemma {:induction false} BufferIsTheRemainder(signals: seq<Signal>, max: nat)
    requires max > 0 && !Stopped(signals)
    ensures exists full: nat :: SinceTick(signals) == full * max + |Run(signals, max).batch|
  {
    if signals == [] {
      assert 0 == 0 * max + 0;
    } else {
      var before, s := signals[..|signals| - 1], signals[|signals| - 1];
      assert signals == before + [s] && s in signals;
      assert !Stopped(before);
      BufferIsTheRemainder(before, max);
      NothingIsLostOrReordered(before, max);
      BatchesAreBounded(before, max);
      var full: nat :| SinceTick(before) == full * max + |Run(before, max).batch|;
      if s == Tick {
        assert SinceTick(signals) == 0 * max + |Run(signals, max).batch|;
      } else if s.Received? && |Run(before, max).batch| + 1 >= max {
        assert SinceTick(signals) == (full + 1) * max + |Run(signals, max).batch|;
      }
    }
  }
}
