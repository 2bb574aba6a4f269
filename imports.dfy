/** The four import methods of ImportPowerPlantDataCommand.php
    (importSensorsData, importInvertersData, importEnergyData and
    importAllData) and startQueryAndWrite, which runs them in turn and adds
    up their counts. Each import asks for confirmation, picks its table,
    reads the table's time span, and converts and writes the rows one month
    at a time (the energy import reads its table in one go).

    The console, the MySQL source and the InfluxDB sink are parameters: a
    `World` says what the operator answers, what the queries return and
    whether each write succeeds. The windowed imports and their sum take
    the conversion's `variant`; the command as it stands is the `AsWritten`
    instance. The energy conversion has no variant. */
module Imports {
  import opened Php
  import opened Registry
  import opened Context
  import opened Windows
  import Convert

  /** What an import method returns: a number of points, or PHP's FALSE
      (no time span found, or a write failed). */
  datatype Outcome = Count(n: nat) | False

  /** In startQueryAndWrite's sum `FALSE` counts as 0. */
  function AsNumber(o: Outcome): nat
  {
    if o.Count? then o.n else 0
  }

  /** The first and last time of a table, as `new \DateTime` reads them. */
  datatype Span = Span(minDate: int, maxDate: int)

  datatype World = World(
    /** The answer to each import's "Continue with …? (y/n)" question. */
    confirm: Category -> bool,
    /** The min/max query of an import: None when it returns no row. */
    span: Category -> Option<Span>,
    /** The rows an import's query returns for a month window. */
    fetch: (Category, Window) -> seq<Row>,
    /** Whether the sink accepts the batch an import writes for a window. */
    written: (Category, Window) -> bool,
    /** The energy table, read in one query. */
    energyRows: seq<Row>,
    /** Whether the sink accepts the `daily_energy` and the
        `daily_energy_inverter` batches. */
    energyWritten: bool,
    inverterEnergyWritten: bool)

  /** The points the converter returns for one window: the converted
      batch, or with a central inverter the inverter and card lists together
      (none when the system's conversion returns a plain list). With a central
      inverter the command itself reads the inverter list under a key the
      converter does not use, so that is more than it hands to the sink. */
  function BatchSize(variant: Variant, category: Category, system: System, env: Env, rows: seq<Row>): nat
  {
    var c := Convert.ConvertedOf(variant, env, rows, system, category);
    if category == Inverters && CentralMode(env) && !c.CentralPoints? then 0
    else Convert.Written(c)
  }

  /** The size of each window's batch. */
  function PointsIn(variant: Variant, category: Category, w: World, system: System, env: Env): Window -> nat
  {
    v => BatchSize(variant, category, system, env, w.fetch(category, v))
  }

  /** The sink's answer for each window's batch. */
  function WrittenIn(category: Category, w: World): Window -> bool
  {
    v => w.written(category, v)
  }

  /** Only the inverter import with a central inverter goes on after a
      failed write. */
  predicate AbortsOnFailure(category: Category, env: Env)
  {
    !(category == Inverters && CentralMode(env))
  }

  function HasTable(tables: seq<string>, marker: string): bool
  {
    exists k :: 0 <= k < |tables| && Contains(tables[k], marker)
  }

  /** What a windowed import returns. */
  function WindowedOutcome(variant: Variant, category: Category, w: World, tables: seq<string>, system: System, env: Env,
                           addMonths: (int, nat) -> int): Outcome
    requires Calendar(addMonths)
  {
    var marker := SelectionMarker(category, system);
    if !w.confirm(category) || marker.None? || !HasTable(tables, marker.value) then Count(0)
    else SpanOutcome(variant, category, w, system, env, addMonths)
  }

  /** What a windowed import returns once it has its table: FALSE without
      a span or, when a failed write ends the import, on such a failure;
      otherwise the points of all planned windows. */
  function SpanOutcome(variant: Variant, category: Category, w: World, system: System, env: Env,
                       addMonths: (int, nat) -> int): Outcome
    requires Calendar(addMonths)
  {
    if w.span(category).None? then False
    else
      var ws := PlannedWindows(w.span(category).value.minDate, w.span(category).value.maxDate, addMonths);
      if AbortsOnFailure(category, env) && exists k :: 0 <= k < |ws| && !w.written(category, ws[k]) then False
      else Count(TotalPoints(ws, PointsIn(variant, category, w, system, env)))
  }

  /** importSensorsData, importInvertersData and importAllData. */
  method ImportWindowed(variant: Variant, category: Category, w: World, tables: seq<string>, system: System, env: Env,
                        addMonths: (int, nat) -> int) returns (o: Outcome)
    requires Calendar(addMonths)
    requires category != Energy
    ensures o == WindowedOutcome(variant, category, w, tables, system, env, addMonths)
  {
    if !w.confirm(category) {
      return Count(0);
    }
    var marker := SelectionMarker(category, system);
    if marker.None? {
      return Count(0);
    }
    var queryTable := SelectTable(tables, marker.value);
    if queryTable.None? {
      return Count(0);
    }
    o := ImportSpan(variant, category, w, system, env, addMonths);
  }

  /** The part of a windowed import after its table is chosen: the span
      query and the monthly loop. */
  method ImportSpan(variant: Variant, category: Category, w: World, system: System, env: Env,
                    addMonths: (int, nat) -> int) returns (o: Outcome)
    requires Calendar(addMonths)
    ensures o == SpanOutcome(variant, category, w, system, env, addMonths)
  {
    var span := w.span(category);
    if span.None? {
      return False;
    }
    var minDate, maxDate := span.value.minDate, span.value.maxDate;
    var result, visited := MonthlyImport(minDate, maxDate, addMonths,
                                         PointsIn(variant, category, w, system, env), WrittenIn(category, w),
                                         AbortsOnFailure(category, env));
    if result.WriteFailed? {
      FailedWriteIsPlanned(category, w, PlannedWindows(minDate, maxDate, addMonths), visited);
      return False;
    }
    o := Count(result.count);
  }

  /** The window whose write ended the loop is one of the planned ones. */
  lemma FailedWriteIsPlanned(category: Category, w: World, ws: seq<Window>, visited: seq<Window>)
    requires visited <= ws && |visited| > 0
    requires !w.written(category, visited[|visited| - 1])
    ensures exists k :: 0 <= k < |ws| && !w.written(category, ws[k])
  {
    assert visited[|visited| - 1] == ws[|visited| - 1];
  }

  /** What importEnergyData returns. */
  function EnergyOutcome(w: World, tables: seq<string>): Outcome
  {
    if !w.confirm(Energy) || !HasTable(tables, "energy") then Count(0)
    else if !w.energyWritten || !w.inverterEnergyWritten then False
    else Count(2 * |w.energyRows|)
  }

  /** importEnergyData: the whole table is converted, then the
      `daily_energy` batch and the `daily_energy_inverter` batch are written,
      each write failure ending the import with FALSE. */
  method ImportEnergyData(w: World, tables: seq<string>, system: System, env: Env) returns (o: Outcome)
    ensures o == EnergyOutcome(w, tables)
  {
    if !w.confirm(Energy) {
      return Count(0);
    }
    var queryTable := SelectTable(tables, "energy");
    if queryTable.None? {
      return Count(0);
    }
    var points := Convert.ConvertDataToInfluxPoints(AsWritten, env, w.energyRows, system, Energy);
    if !w.energyWritten {
      return False;
    }
    if !w.inverterEnergyWritten {
      return False;
    }
    Convert.ConvertedCount(AsWritten, env, w.energyRows, system, Energy);
    o := Count(|points.dailyEnergy| + |points.dailyInverter|);
  }

  /** The sum startQueryAndWrite returns. */
  function Total(variant: Variant, w: World, tables: seq<string>, system: System, env: Env, addMonths: (int, nat) -> int): nat
    requires Calendar(addMonths)
  {
    AsNumber(WindowedOutcome(variant, Sensors, w, tables, system, env, addMonths)) +
    AsNumber(WindowedOutcome(variant, Inverters, w, tables, system, env, addMonths)) +
    AsNumber(EnergyOutcome(w, tables)) +
    AsNumber(WindowedOutcome(variant, AllData, w, tables, system, env, addMonths))
  }

  /** startQueryAndWrite: the four imports in turn, sensors, inverters,
      energy and all data. */
  method StartQueryAndWrite(variant: Variant, w: World, tables: seq<string>, system: System, env: Env,
                            addMonths: (int, nat) -> int) returns (total: nat)
    requires Calendar(addMonths)
    ensures total == Total(variant, w, tables, system, env, addMonths)
  {
    var sensors := ImportWindowed(variant, Sensors, w, tables, system, env, addMonths);
    var inverters := ImportWindowed(variant, Inverters, w, tables, system, env, addMonths);
    var energy := ImportEnergyData(w, tables, system, env);
    var allData := ImportWindowed(variant, AllData, w, tables, system, env, addMonths);
    total := AsNumber(sensors) + AsNumber(inverters) + AsNumber(energy) + AsNumber(allData);
  }

  // ---------------------------------------------------------------------
  // What the imports promise
  // ---------------------------------------------------------------------

  /** An sma2 plant has no sensor import, and a table span whose minimum is
      not before its maximum imports nothing. */
  lemma NothingToImport(variant: Variant, category: Category, w: World, tables: seq<string>, system: System, env: Env,
                        addMonths: (int, nat) -> int)
    requires Calendar(addMonths)
    ensures category == Sensors && system == Sma2 ==>
      WindowedOutcome(variant, category, w, tables, system, env, addMonths) == Count(0)
    ensures (w.span(category).Some? && w.span(category).value.minDate >= w.span(category).value.maxDate) ==>
      WindowedOutcome(variant, category, w, tables, system, env, addMonths) == Count(0)
  {
    if w.span(category).Some? {
      PlannedWindowsCount(w.span(category).value.minDate, w.span(category).value.maxDate, addMonths);
    }
  }

  /** Two batch-size functions that agree on every window give the same
      total. */
  lemma {:induction false} BatchesAddUp(ws: seq<Window>, a: Window -> nat, b: Window -> nat)
    requires forall k :: 0 <= k < |ws| ==> a(ws[k]) == b(ws[k])
    ensures TotalPoints(ws, a) == TotalPoints(ws, b)
  {
    if ws != [] {
      BatchesAddUp(ws[..|ws| - 1], a, b);
    }
  }

  /** For the wide kaco and solarlog tables without a central inverter,
      a confirmed inverter import with a table and a span fails exactly
      when some planned window's write fails, and otherwise returns the
      number of rows fetched over all windows: one inverter point per row. */
  lemma WideInverterCount(variant: Variant, w: World, tables: seq<string>, system: System, env: Env, addMonths: (int, nat) -> int)
    requires Calendar(addMonths)
    requires system == Kaco || system == Solarlog
    requires !CentralMode(env)
    requires w.confirm(Inverters) && w.span(Inverters).Some?
    requires HasTable(tables, SelectionMarker(Inverters, system).value)
    ensures var ws := PlannedWindows(w.span(Inverters).value.minDate, w.span(Inverters).value.maxDate, addMonths);
      && (WindowedOutcome(variant, Inverters, w, tables, system, env, addMonths) == False <==>
            exists k :: 0 <= k < |ws| && !w.written(Inverters, ws[k]))
      && (WindowedOutcome(variant, Inverters, w, tables, system, env, addMonths).Count? ==>
            WindowedOutcome(variant, Inverters, w, tables, system, env, addMonths).n ==
              TotalPoints(ws, v => |w.fetch(Inverters, v)|))
  {
    var ws := PlannedWindows(w.span(Inverters).value.minDate, w.span(Inverters).value.maxDate, addMonths);
    var a := PointsIn(variant, Inverters, w, system, env);
    var b := v => |w.fetch(Inverters, v)|;
    forall k | 0 <= k < |ws| ensures a(ws[k]) == b(ws[k]) {
      Convert.ConvertedCount(variant, env, w.fetch(Inverters, ws[k]), system, Inverters);
    }
    BatchesAddUp(ws, a, b);
  }
}
