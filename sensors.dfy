/** The `sensors` conversion: one sensorbox point per row of a kaco `_ana`
    or solarlog `_sens` table, one per time for the SMA `data_` table, none
    for sma2 (ImportPowerPlantDataCommand.php, convertDataToInfluxPoints,
    case 'sensors'). */
module Sensors {
  import opened Php
  import opened Registry
  import opened Points
  import opened Grouping

  /** The four sensor readings every sensor point carries. */
  datatype Readings = Readings(solIrr: real, tempAmb: real, tempMod: real, wind: real)

  const SensorKeys: seq<string> := ["sol_irr", "temp_amb", "temp_mod", "wind"]

  function SensorFields(r: Readings): (f: Assoc)
    ensures KeysOf(f) == SensorKeys
    ensures AllNumbers(f)
  {
    [Pair("sol_irr", Num(r.solIrr)), Pair("temp_amb", Num(r.tempAmb)),
     Pair("temp_mod", Num(r.tempMod)), Pair("wind", Num(r.wind))]
  }

  function SensorTags(techName: string): Assoc
  {
    [Pair("power_plant", Str(techName)), Pair("device", Str("sensorbox"))]
  }

  function SensorPoint(techName: string, r: Readings, time: Value): Point
  {
    Point(Null, SensorTags(techName), Filled(SensorFields(r), NumericOnly), time)
  }

  // ---------------------------------------------------------------------
  // kaco and solarlog: one point per row
  // ---------------------------------------------------------------------

  /** The readings of one row: kaco's `G_M0`, `T_U0`, `T_M0` and `W_V0`
      (0 when the wind column is NULL or missing), solarlog's `irradiation`,
      `ambient_temp`, `module_temp` and `wind`. */
  function RowReadings(system: System, row: Row): Readings
  {
    if system == Kaco then
      Readings(CellFloat(Get(row, "G_M0")), CellFloat(Get(row, "T_U0")), CellFloat(Get(row, "T_M0")),
               if Isset(row, "W_V0") then CellFloat(Get(row, "W_V0")) else 0.0)
    else
      Readings(CellFloat(Get(row, "irradiation")), CellFloat(Get(row, "ambient_temp")),
               CellFloat(Get(row, "module_temp")), CellFloat(Get(row, "wind")))
  }

  /** The time column of a sensor row: `Time` for kaco, `date_time` for solarlog. */
  function RowTime(system: System, row: Row): Value
  {
    AsValue(Get(row, if system == Kaco then "Time" else "date_time"))
  }

  function RowSensorPoint(system: System, techName: string, row: Row): Point
  {
    SensorPoint(techName, RowReadings(system, row), RowTime(system, row))
  }

  /** The points of the kaco and solarlog sensor loop for the rows read so far. */
  function RowSensorPointsOf(system: System, techName: string, data: seq<Row>): (points: seq<Point>)
    ensures |points| == |data|
  {
    if data == [] then [] else RowSensorPointsOf(system, techName, Init(data)) + [RowSensorPoint(system, techName, Last(data))]
  }

  /** One pass of the loop: read the row, fill the fields, build the point. */
  method BuildRowSensorPoint(system: System, techName: string, row: Row) returns (point: Point)
    ensures point == RowSensorPoint(system, techName, row)
  {
    var readings := RowReadings(system, row);
    var fields := FillFields(SensorFields(readings), NumericOnly);
    point := Point(Null, SensorTags(techName), fields, RowTime(system, row));
  }

  lemma RowSensorPointsSnoc(system: System, techName: string, data: seq<Row>, i: int)
    requires 0 <= i < |data|
    ensures RowSensorPointsOf(system, techName, data[..i + 1]) ==
      RowSensorPointsOf(system, techName, data[..i]) + [RowSensorPoint(system, techName, data[i])]
  {
    assert Init(data[..i + 1]) == data[..i];
  }

  /** The kaco and solarlog sensor loops. */
  method RowSensorPoints(system: System, techName: string, data: seq<Row>) returns (points: seq<Point>)
    requires system == Kaco || system == Solarlog
    ensures points == RowSensorPointsOf(system, techName, data)
  {
    points := [];
    var i := 0;
    while i < |data|
      invariant 0 <= i <= |data|
      invariant points == RowSensorPointsOf(system, techName, data[..i])
    {
      RowSensorPointsSnoc(system, techName, data, i);
      var point := BuildRowSensorPoint(system, techName, data[i]);
      points := points + [point];
      i := i + 1;
    }
    assert data[..i] == data;
  }

  /** The loop yields one point per row, in row order, each built from its
      own row alone. */
  lemma {:induction false} RowSensorPointsAt(system: System, techName: string, data: seq<Row>, i: int)
    requires 0 <= i < |data|
    ensures RowSensorPointsOf(system, techName, data)[i] == RowSensorPoint(system, techName, data[i])
  {
    if i < |data| - 1 {
      RowSensorPointsAt(system, techName, Init(data), i);
    }
  }

  /** A sensor point is tagged with the plant and the `sensorbox` device,
      carries the four readings as floats in a fixed order (the fill has
      nothing to change), and keeps the row's time. */
  lemma SensorPointShape(techName: string, r: Readings, time: Value)
    ensures SensorPoint(techName, r, time).fields == SensorFields(r)
    ensures KeysOf(SensorPoint(techName, r, time).fields) == SensorKeys
    ensures Lookup(SensorPoint(techName, r, time).tags, "device") == Str("sensorbox")
    ensures Lookup(SensorPoint(techName, r, time).fields, "wind") == Num(r.wind)
    ensures SensorPoint(techName, r, time).time == time
  {
    FillKeepsNumbers(SensorFields(r));
    LookupFirst(SensorFields(r), "wind", 3);
  }

  /** A kaco row without a wind reading gets wind 0. */
  lemma KacoMissingWindIsZero(techName: string, row: Row)
    requires !Isset(row, "W_V0")
    ensures Lookup(RowSensorPoint(Kaco, techName, row).fields, "wind") == Num(0.0)
    ensures RowSensorPoint(Kaco, techName, row).time == AsValue(Get(row, "Time"))
  {
    SensorPointShape(techName, RowReadings(Kaco, row), RowTime(Kaco, row));
  }

  // ---------------------------------------------------------------------
  // SMA: one point per time, built from the sensor rows of that time
  // ---------------------------------------------------------------------

  /** The effect of one sensor row: the reading it names is overwritten
      with its `avg_val`; any other parameter is ignored. */
  function ApplySensorRow(r: Readings, row: Row): Readings
  {
    var v := CellFloat(Get(row, "avg_val"));
    if ParamIs(row, "IntSolIrr") then r.(solIrr := v)
    else if ParamIs(row, "TmpAmb C") then r.(tempAmb := v)
    else if ParamIs(row, "TmpMdul C") then r.(tempMod := v)
    else if ParamIs(row, "WindVel m/s") then r.(wind := v)
    else r
  }

  const NoReadings: Readings := Readings(0.0, 0.0, 0.0, 0.0)

  /** The readings after the rows of one time have been scanned, starting from 0. */
  function ScanReadings(rows: seq<Row>): Readings
  {
    if rows == [] then NoReadings else ApplySensorRow(ScanReadings(Init(rows)), Last(rows))
  }

  function SmaSensorPoint(techName: string, g: Group): Point
  {
    SensorPoint(techName, ScanReadings(g.rows), Str(g.time))
  }

  /** The points of the SMA sensor loop for the times read so far. */
  function SmaSensorPointsOf(techName: string, groups: seq<Group>): (points: seq<Point>)
    ensures |points| == |groups|
  {
    if groups == [] then [] else SmaSensorPointsOf(techName, Init(groups)) + [SmaSensorPoint(techName, Last(groups))]
  }

  /** The inner loop over the rows of one time. */
  method ScanSensorRows(rows: seq<Row>) returns (readings: Readings)
    ensures readings == ScanReadings(rows)
  {
    readings := NoReadings;
    var j := 0;
    while j < |rows|
      invariant 0 <= j <= |rows|
      invariant readings == ScanReadings(rows[..j])
    {
      assert Init(rows[..j + 1]) == rows[..j];
      readings := ApplySensorRow(readings, rows[j]);
      j := j + 1;
    }
    assert rows[..j] == rows;
  }

  method BuildSmaSensorPoint(techName: string, g: Group) returns (point: Point)
    ensures point == SmaSensorPoint(techName, g)
  {
    var readings := ScanSensorRows(g.rows);
    var fields := FillFields(SensorFields(readings), NumericOnly);
    point := Point(Null, SensorTags(techName), fields, Str(g.time));
  }

  lemma SmaSensorPointsSnoc(techName: string, groups: seq<Group>, i: int)
    requires 0 <= i < |groups|
    ensures SmaSensorPointsOf(techName, groups[..i + 1]) ==
      SmaSensorPointsOf(techName, groups[..i]) + [SmaSensorPoint(techName, groups[i])]
  {
    assert Init(groups[..i + 1]) == groups[..i];
  }

  /** The SMA sensor branch: group the rows whose device id contains `SENS`
      by time, then build one point per time. */
  method SmaSensorPoints(techName: string, data: seq<Row>) returns (points: seq<Point>)
    ensures points == SmaSensorPointsOf(techName, GroupByTime(data, OnlyContaining("SENS")))
  {
    var dataPerTime := GroupRowsByTime(data, OnlyContaining("SENS"));
    points := [];
    var i := 0;
    while i < |dataPerTime|
      invariant 0 <= i <= |dataPerTime|
      invariant points == SmaSensorPointsOf(techName, dataPerTime[..i])
    {
      SmaSensorPointsSnoc(techName, dataPerTime, i);
      var point := BuildSmaSensorPoint(techName, dataPerTime[i]);
      points := points + [point];
      i := i + 1;
    }
    assert dataPerTime[..i] == dataPerTime;
  }

  /** One point per time, in the order the times were first seen, each built
      from that time's rows alone. */
  lemma {:induction false} SmaSensorPointsAt(techName: string, groups: seq<Group>, i: int)
    requires 0 <= i < |groups|
    ensures SmaSensorPointsOf(techName, groups)[i] == SmaSensorPoint(techName, groups[i])
  {
    if i < |groups| - 1 {
      SmaSensorPointsAt(techName, Init(groups), i);
    }
  }

  /** The reading under `param` as the time's rows leave it: the `avg_val` of
      the last row naming it, 0 when no row does. */
  function LastReading(rows: seq<Row>, param: string): real
  {
    match LastAvg(rows, [param])
    case None => 0.0
    case Some(v) => CellFloat(v)
  }

  /** The scan keeps the last value of each of the four parameters. */
  lemma {:induction false} ScanReadingsLastWins(rows: seq<Row>)
    ensures ScanReadings(rows).solIrr == LastReading(rows, "IntSolIrr")
    ensures ScanReadings(rows).tempAmb == LastReading(rows, "TmpAmb C")
    ensures ScanReadings(rows).tempMod == LastReading(rows, "TmpMdul C")
    ensures ScanReadings(rows).wind == LastReading(rows, "WindVel m/s")
  {
    if rows != [] {
      ScanReadingsLastWins(Init(rows));
      var row := Last(rows);
      assert ParamIn(row, ["IntSolIrr"]) <==> ParamIs(row, "IntSolIrr");
      assert ParamIn(row, ["TmpAmb C"]) <==> ParamIs(row, "TmpAmb C");
      assert ParamIn(row, ["TmpMdul C"]) <==> ParamIs(row, "TmpMdul C");
      assert ParamIn(row, ["WindVel m/s"]) <==> ParamIs(row, "WindVel m/s");
    }
  }
}
