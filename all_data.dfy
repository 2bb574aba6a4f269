/** The `all_data` conversion: every reading of a source row or time, kept
    under its own column or parameter name, for the `all_data` measurement
    (ImportPowerPlantDataCommand.php, convertDataToInfluxPoints, case
    'all_data'). The narrow SMA table gives one point per time, the narrow
    SMA2 table one per time and device, and the wide kaco and solarlog
    tables one per row that is not the sensorbox's. */
module AllData {
  import opened Php
  import opened Registry
  import opened Points
  import opened Grouping
  import opened Context
  import Sma2Inverters

  // ---------------------------------------------------------------------
  // SMA: one point per time, the readings under their row positions
  // ---------------------------------------------------------------------

  /** The fields of one time and the device variable `$dev` (carried from
      time to time). */
  datatype SmaScan = SmaScan(fields: Assoc, dev: Value)

  /** The inner loop: a `Serial Number` row sets the device, every other row
      puts its reading under its position among the time's rows. */
  function SmaScanRows(rows: seq<Row>, dev: Value): SmaScan
  {
    if rows == [] then SmaScan([], dev)
    else
      var s := SmaScanRows(Init(rows), dev);
      var row := Last(rows);
      if ParamIs(row, "Serial Number") then s.(dev := Num(CellFloat(Get(row, "avg_val"))))
      else s.(fields := Put(s.fields, IndexKey(|rows| - 1), AsValue(Get(row, "avg_val"))))
  }

  function SmaAllPoint(s: SmaScan, g: Group, env: Env): Point
  {
    Point(Null, DeviceTags(env.techName, s.dev, env.loggerIp(s.dev)), s.fields, Str(g.time))
  }

  datatype SmaRun = SmaRun(dev: Value, points: seq<Point>)

  function SmaAllRun(groups: seq<Group>, env: Env): (r: SmaRun)
    ensures |r.points| == |groups|
  {
    if groups == [] then SmaRun(Null, [])
    else
      var r := SmaAllRun(Init(groups), env);
      var s := SmaScanRows(Last(groups).rows, r.dev);
      SmaRun(s.dev, r.points + [SmaAllPoint(s, Last(groups), env)])
  }

  lemma SmaScanRowsSnoc(rows: seq<Row>, dev: Value, j: int)
    requires 0 <= j < |rows|
    ensures ParamIs(rows[j], "Serial Number") ==>
      SmaScanRows(rows[..j + 1], dev) == SmaScanRows(rows[..j], dev).(dev := Num(CellFloat(Get(rows[j], "avg_val"))))
    ensures !ParamIs(rows[j], "Serial Number") ==>
      SmaScanRows(rows[..j + 1], dev) ==
        SmaScanRows(rows[..j], dev).(fields := Put(SmaScanRows(rows[..j], dev).fields, IndexKey(j), AsValue(Get(rows[j], "avg_val"))))
  {
    assert Init(rows[..j + 1]) == rows[..j];
  }

  lemma SmaAllRunSnoc(groups: seq<Group>, env: Env, i: int)
    requires 0 <= i < |groups|
    ensures SmaAllRun(groups[..i + 1], env) ==
      var r := SmaAllRun(groups[..i], env);
      var s := SmaScanRows(groups[i].rows, r.dev);
      SmaRun(s.dev, r.points + [SmaAllPoint(s, groups[i], env)])
  {
    assert Init(groups[..i + 1]) == groups[..i];
  }

  /** The row loop of one time, starting from the device the earlier times
      left. */
  method ScanSmaRows(rows: seq<Row>, dev0: Value) returns (fields: Assoc, dev: Value)
    ensures SmaScan(fields, dev) == SmaScanRows(rows, dev0)
  {
    fields, dev := [], dev0;
    var j := 0;
    while j < |rows|
      invariant 0 <= j <= |rows|
      invariant SmaScanRows(rows[..j], dev0) == SmaScan(fields, dev)
    {
      SmaScanRowsSnoc(rows, dev0, j);
      var row := rows[j];
      if ParamIs(row, "Serial Number") {
        dev := Num(CellFloat(Get(row, "avg_val")));
      } else {
        fields := Put(fields, IndexKey(j), AsValue(Get(row, "avg_val")));
      }
      j := j + 1;
    }
    assert rows[..j] == rows;
  }

  method SmaAllDataPoints(env: Env, data: seq<Row>) returns (points: seq<Point>)
    ensures points == SmaAllRun(GroupByTime(data, Without("SENS")), env).points
  {
    var dataPerTime := GroupRowsByTime(data, Without("SENS"));
    var dev := Null;
    points := [];
    var i := 0;
    while i < |dataPerTime|
      invariant 0 <= i <= |dataPerTime|
      invariant SmaAllRun(dataPerTime[..i], env) == SmaRun(dev, points)
    {
      SmaAllRunSnoc(dataPerTime, env, i);
      var g := dataPerTime[i];
      var fields;
      fields, dev := ScanSmaRows(g.rows, dev);
      points := points + [Point(Null, DeviceTags(env.techName, dev, env.loggerIp(dev)), fields, Str(g.time))];
      i := i + 1;
    }
    assert dataPerTime[..i] == dataPerTime;
  }

  /** Every field key is the position of a row of the time. */
  predicate KeysArePositions(fields: Assoc, n: nat)
  {
    forall i :: 0 <= i < |fields| ==> exists k :: 0 <= k < n && fields[i].key == IndexKey(k)
  }

  lemma {:induction false} SmaScanKeys(rows: seq<Row>, dev: Value)
    ensures KeysArePositions(SmaScanRows(rows, dev).fields, |rows|)
  {
    if rows != [] {
      SmaScanKeys(Init(rows), dev);
      var f := SmaScanRows(Init(rows), dev).fields;
      var f' := SmaScanRows(rows, dev).fields;
      var key := IndexKey(|rows| - 1);
      if !ParamIs(Last(rows), "Serial Number") {
        forall i | 0 <= i < |f'| ensures exists k :: 0 <= k < |rows| && f'[i].key == IndexKey(k) {
          if key in KeysOf(f) {
            assert KeysOf(f') == KeysOf(f);
            assert f'[i].key == KeysOf(f)[i];
            var k :| 0 <= k < |rows| - 1 && f[i].key == IndexKey(k);
          } else if i < |f| {
            var k :| 0 <= k < |rows| - 1 && f[i].key == IndexKey(k);
            assert f'[i] == f[i];
          } else {
            assert f'[i].key == IndexKey(|rows| - 1);
          }
        }
      }
    }
  }

  /** Each row of a time that is not the serial number appears in the
      point's fields under its position, with its reading; a serial number
      row leaves no field. */
  lemma {:induction false} SmaScanFields(rows: seq<Row>, dev: Value, k: int)
    requires 0 <= k < |rows|
    ensures Lookup(SmaScanRows(rows, dev).fields, IndexKey(k)) ==
      if ParamIs(rows[k], "Serial Number") then Null else AsValue(Get(rows[k], "avg_val"))
  {
    var f := SmaScanRows(Init(rows), dev).fields;
    if k < |rows| - 1 {
      SmaScanFields(Init(rows), dev, k);
      if !ParamIs(Last(rows), "Serial Number") {
        if IndexKey(|rows| - 1) == IndexKey(k) {
          IndexKeyInjective(|rows| - 1, k);
        }
      }
    } else {
      SmaScanKeys(Init(rows), dev);
      if ParamIs(Last(rows), "Serial Number") {
        forall i | 0 <= i < |f| ensures f[i].key != IndexKey(k) {
          var k' :| 0 <= k' < |rows| - 1 && f[i].key == IndexKey(k');
          if f[i].key == IndexKey(k) {
            IndexKeyInjective(k', k);
          }
        }
        LookupAbsent(f, IndexKey(k));
      }
    }
  }

  /** The device of a time is its last serial number, or the previous
      time's device when it has none. */
  lemma {:induction false} SmaScanDevice(rows: seq<Row>, dev: Value)
    ensures SmaScanRows(rows, dev).dev ==
      match LastAvg(rows, ["Serial Number"])
      case None => dev
      case Some(v) => Num(CellFloat(v))
  {
    if rows != [] {
      SmaScanDevice(Init(rows), dev);
      assert ParamIn(Last(rows), ["Serial Number"]) <==> ParamIs(Last(rows), "Serial Number");
    }
  }

  /** A key no entry carries reads as NULL. */
  lemma {:induction false} LookupAbsent(a: Assoc, k: string)
    requires forall i :: 0 <= i < |a| ==> a[i].key != k
    ensures Lookup(a, k) == Null
  {
    if a != [] {
      LookupAbsent(a[1..], k);
    }
  }

  // ---------------------------------------------------------------------
  // SMA2: one point per time and device, the readings under their names
  // ---------------------------------------------------------------------

  /** The device's readings at one time, each under its parameter name (a
      later row with the same name overwrites the earlier one in place). */
  function DeviceFields(rows: seq<Row>, device: Cell): Assoc
  {
    if rows == [] then []
    else
      var f := DeviceFields(Init(rows), device);
      var row := Last(rows);
      if device == Get(row, "dev_id") then Put(f, CellText(Get(row, "dev_param")), AsValue(Get(row, "avg_val"))) else f
  }

  function Sma2AllPoint(variant: Variant, g: Group, device: Cell, env: Env): Point
  {
    var serial := AsValue(Sma2Inverters.Serial(variant, g, device));
    Point(Null, DeviceTags(env.techName, serial, env.loggerIp(serial)), DeviceFields(g.rows, device), Str(g.time))
  }

  function GroupPoints(variant: Variant, g: Group, devices: seq<Cell>, env: Env): (ps: seq<Point>)
    ensures |ps| == |devices|
    ensures forall j :: 0 <= j < |devices| ==> ps[j] == Sma2AllPoint(variant, g, devices[j], env)
  {
    seq(|devices|, j requires 0 <= j < |devices| => Sma2AllPoint(variant, g, devices[j], env))
  }

  function Sma2AllRun(variant: Variant, groups: seq<Group>, devices: seq<Cell>, env: Env): (ps: seq<Point>)
    ensures |ps| == |groups| * |devices|
  {
    if groups == [] then []
    else
      assert |groups| * |devices| == (|groups| - 1) * |devices| + |devices|;
      Sma2AllRun(variant, Init(groups), devices, env) + GroupPoints(variant, Last(groups), devices, env)
  }

  lemma Sma2AllRunSnoc(variant: Variant, groups: seq<Group>, devices: seq<Cell>, env: Env, i: int)
    requires 0 <= i < |groups|
    ensures Sma2AllRun(variant, groups[..i + 1], devices, env) ==
      Sma2AllRun(variant, groups[..i], devices, env) + GroupPoints(variant, groups[i], devices, env)
  {
    assert Init(groups[..i + 1]) == groups[..i];
  }

  lemma GroupPointsSnoc(variant: Variant, g: Group, devices: seq<Cell>, env: Env, d: int)
    requires 0 <= d < |devices|
    ensures GroupPoints(variant, g, devices[..d + 1], env) ==
      GroupPoints(variant, g, devices[..d], env) + [Sma2AllPoint(variant, g, devices[d], env)]
  {
  }

  lemma DeviceFieldsSnoc(rows: seq<Row>, device: Cell, j: int)
    requires 0 <= j < |rows|
    ensures DeviceFields(rows[..j + 1], device) ==
      if device == Get(rows[j], "dev_id")
      then Put(DeviceFields(rows[..j], device), CellText(Get(rows[j], "dev_param")), AsValue(Get(rows[j], "avg_val")))
      else DeviceFields(rows[..j], device)
  {
    assert Init(rows[..j + 1]) == rows[..j];
  }

  /** The innermost loop: the parameters of one device at one time. */
  method CollectDeviceFields(rows: seq<Row>, device: Cell) returns (fields: Assoc)
    ensures fields == DeviceFields(rows, device)
  {
    fields := [];
    var j := 0;
    while j < |rows|
      invariant 0 <= j <= |rows|
      invariant fields == DeviceFields(rows[..j], device)
    {
      DeviceFieldsSnoc(rows, device, j);
      var row := rows[j];
      if device == Get(row, "dev_id") {
        fields := Put(fields, CellText(Get(row, "dev_param")), AsValue(Get(row, "avg_val")));
      }
      j := j + 1;
    }
    assert rows[..j] == rows;
  }

  /** The device loop of one time. */
  method BuildGroupPoints(variant: Variant, g: Group, devices: seq<Cell>, env: Env) returns (groupPoints: seq<Point>)
    ensures groupPoints == GroupPoints(variant, g, devices, env)
  {
    groupPoints := [];
    var d := 0;
    while d < |devices|
      invariant 0 <= d <= |devices|
      invariant groupPoints == GroupPoints(variant, g, devices[..d], env)
    {
      GroupPointsSnoc(variant, g, devices, env, d);
      var fields := CollectDeviceFields(g.rows, devices[d]);
      var serial := AsValue(Sma2Inverters.Serial(variant, g, devices[d]));
      groupPoints := groupPoints + [Point(Null, DeviceTags(env.techName, serial, env.loggerIp(serial)), fields, Str(g.time))];
      d := d + 1;
    }
    assert devices[..d] == devices;
  }

  method Sma2AllDataPoints(variant: Variant, env: Env, data: seq<Row>) returns (points: seq<Point>)
    ensures var groups := GroupByTime(data, Without("WebBox"));
            points == Sma2AllRun(variant, groups, Sma2Inverters.Devices(groups), env)
  {
    var dataPerTime := GroupRowsByTime(data, Without("WebBox"));
    var devices := Sma2Inverters.CollectDevices(dataPerTime);
    points := [];
    var i := 0;
    while i < |dataPerTime|
      invariant 0 <= i <= |dataPerTime|
      invariant points == Sma2AllRun(variant, dataPerTime[..i], devices, env)
    {
      Sma2AllRunSnoc(variant, dataPerTime, devices, env, i);
      var groupPoints := BuildGroupPoints(variant, dataPerTime[i], devices, env);
      points := points + groupPoints;
      i := i + 1;
    }
    assert dataPerTime[..i] == dataPerTime;
  }

  /** The reading of the device's last row under a parameter name, NULL when
      it has none. */
  function LastReadingOf(rows: seq<Row>, device: Cell, name: string): Value
  {
    if rows == [] then Null
    else if device == Get(Last(rows), "dev_id") && CellText(Get(Last(rows), "dev_param")) == name then
      AsValue(Get(Last(rows), "avg_val"))
    else LastReadingOf(Init(rows), device, name)
  }

  /** A device's point holds, under every parameter name, the reading of
      the device's last row with that name at the time, and nothing under a
      name none of its rows has. */
  lemma {:induction false} DeviceFieldsLastWins(rows: seq<Row>, device: Cell, name: string)
    ensures Lookup(DeviceFields(rows, device), name) == LastReadingOf(rows, device, name)
  {
    if rows != [] {
      DeviceFieldsLastWins(Init(rows), device, name);
    }
  }

  // ---------------------------------------------------------------------
  // kaco and solarlog: one point per row, every column a field
  // ---------------------------------------------------------------------

  /** `$dev` and `$time`, carried from row to row. */
  datatype WideState = WideState(dev: Cell, time: Value)

  /** The device of a row: the last of `device`, `Adresse`, `INV` and
      `address` that is set, or the previous row's device. */
  function RowDevice(row: Row, dev: Cell): Cell
  {
    if Isset(row, "address") then Get(row, "address")
    else if Isset(row, "INV") then Get(row, "INV")
    else if Isset(row, "Adresse") then Get(row, "Adresse")
    else if Isset(row, "device") then Get(row, "device")
    else dev
  }

  /** The time of a row: the first of `Time`, `Uhrzeit`, `TimeStamp`, `time`
      and `date_time` that is set, or the previous row's time. */
  function RowTimeOf(row: Row, time: Value): Value
  {
    if Isset(row, "Time") then AsValue(Get(row, "Time"))
    else if Isset(row, "Uhrzeit") then AsValue(Get(row, "Uhrzeit"))
    else if Isset(row, "TimeStamp") then AsValue(Get(row, "TimeStamp"))
    else if Isset(row, "time") then AsValue(Get(row, "time"))
    else if Isset(row, "date_time") then AsValue(Get(row, "date_time"))
    else time
  }

  /** What a column becomes. A text longer than one byte is kept as a
      string only when strings are kept (an sma2 plant or a central
      inverter), and dropped otherwise; anything else is a float, 0 when
      empty. As written the `ID` test never excludes a column and a number
      of two or more characters is dropped like any other text; corrected,
      `ID` and `id` are left out and numbers are floats. */
  function WideValue(variant: Variant, keepStrings: bool, col: Column): Option<Value>
  {
    var long := col.cell.Text? && ByteLength(col.cell.text) > 1;
    if variant == Corrected && (col.name == "ID" || col.name == "id") then None
    else if long && !(variant == Corrected && NumericText(col.cell.text)) then
      (if keepStrings then Some(Str(col.cell.text)) else None)
    else Some(Num(if !EmptyCell(col.cell) then CellFloat(col.cell) else 0.0))
  }

  /** The loop over a row's columns. */
  function WideFields(variant: Variant, keepStrings: bool, cols: seq<Column>): Assoc
  {
    if cols == [] then []
    else
      var f := WideFields(variant, keepStrings, Init(cols));
      match WideValue(variant, keepStrings, Last(cols))
      case None => f
      case Some(v) => Put(f, Last(cols).name, v)
  }

  function KeepStrings(system: System, env: Env): bool
  {
    system == Sma2 || CentralMode(env)
  }

  datatype WideRun = WideRun(state: WideState, points: seq<Point>)

  /** The row loop: the device and time are updated for every row; rows of
      the sensorbox give no point. */
  function WideAllRun(variant: Variant, system: System, rows: seq<Row>, env: Env): WideRun
  {
    if rows == [] then WideRun(WideState(SqlNull, Null), [])
    else
      var r := WideAllRun(variant, system, Init(rows), env);
      var row := Last(rows);
      var dev := RowDevice(row, r.state.dev);
      if dev == Text("sensorbox") then WideRun(r.state.(dev := dev), r.points)
      else
        var time := RowTimeOf(row, r.state.time);
        var point := Point(Null, DeviceTags(env.techName, AsValue(dev), env.loggerIp(AsValue(dev))),
                           WideFields(variant, KeepStrings(system, env), row), time);
        WideRun(WideState(dev, time), r.points + [point])
  }

  method WideColumns(variant: Variant, keepStrings: bool, row: Row) returns (fields: Assoc)
    ensures fields == WideFields(variant, keepStrings, row)
  {
    fields := [];
    var k := 0;
    while k < |row|
      invariant 0 <= k <= |row|
      invariant fields == WideFields(variant, keepStrings, row[..k])
    {
      assert Init(row[..k + 1]) == row[..k];
      var v := WideValue(variant, keepStrings, row[k]);
      if v.Some? {
        fields := Put(fields, row[k].name, v.value);
      }
      k := k + 1;
    }
    assert row[..k] == row;
  }

  method WideAllDataPoints(variant: Variant, system: System, env: Env, data: seq<Row>) returns (points: seq<Point>)
    ensures points == WideAllRun(variant, system, data, env).points
  {
    var dev := SqlNull;
    var time := Null;
    points := [];
    var i := 0;
    while i < |data|
      invariant 0 <= i <= |data|
      invariant WideAllRun(variant, system, data[..i], env) == WideRun(WideState(dev, time), points)
    {
      assert Init(data[..i + 1]) == data[..i];
      var row := data[i];
      dev := RowDevice(row, dev);
      if dev != Text("sensorbox") {
        var fields := WideColumns(variant, KeepStrings(system, env), row);
        time := RowTimeOf(row, time);
        points := points + [Point(Null, DeviceTags(env.techName, AsValue(dev), env.loggerIp(AsValue(dev))), fields, time)];
      }
      i := i + 1;
    }
    assert data[..i] == data;
  }

  /** No all-data point is the sensorbox's, and every row that is not the
      sensorbox's gives one: the number of points is the number of rows
      less the sensorbox rows. */
  function SensorboxRows(rows: seq<Row>, dev: Cell): nat
  {
    if rows == [] then 0
    else
      var n := SensorboxRows(Init(rows), dev);
      n + (if DeviceAfter(rows, dev) == Text("sensorbox") then 1 else 0)
  }

  /** The device the row loop holds after the rows. */
  function DeviceAfter(rows: seq<Row>, dev: Cell): Cell
  {
    if rows == [] then dev else RowDevice(Last(rows), DeviceAfter(Init(rows), dev))
  }

  lemma {:induction false} WideCount(variant: Variant, system: System, rows: seq<Row>, env: Env)
    ensures WideAllRun(variant, system, rows, env).state.dev == DeviceAfter(rows, SqlNull)
    ensures |WideAllRun(variant, system, rows, env).points| + SensorboxRows(rows, SqlNull) == |rows|
    ensures forall p :: p in WideAllRun(variant, system, rows, env).points ==> Lookup(p.tags, "device") != Str("sensorbox")
  {
    if rows != [] {
      WideCount(variant, system, Init(rows), env);
      var r := WideAllRun(variant, system, Init(rows), env);
      var dev := RowDevice(Last(rows), r.state.dev);
      if dev != Text("sensorbox") {
        var tags := DeviceTags(env.techName, AsValue(dev), env.loggerIp(AsValue(dev)));
        LookupFirst(tags, "device", 1);
      }
    }
  }

  /** Column names are unique within a row, as in an associative fetch. */
  predicate UniqueNames(cols: seq<Column>)
  {
    forall i, j :: 0 <= i < j < |cols| ==> cols[i].name != cols[j].name
  }

  /** Every column of a row lands in the fields under its own name with the
      value `WideValue` gives it, or is absent when that value is dropped. */
  lemma {:induction false} WideFieldsColumn(variant: Variant, keepStrings: bool, cols: seq<Column>, k: int)
    requires UniqueNames(cols)
    requires 0 <= k < |cols|
    ensures Lookup(WideFields(variant, keepStrings, cols), cols[k].name) ==
      match WideValue(variant, keepStrings, cols[k])
      case None => Null
      case Some(v) => v
  {
    var f := WideFields(variant, keepStrings, Init(cols));
    if k < |cols| - 1 {
      WideFieldsColumn(variant, keepStrings, Init(cols), k);
      assert Last(cols).name != cols[k].name;
    } else {
      WideFieldsAbsent(variant, keepStrings, Init(cols), cols[k].name);
    }
  }

  /** A name no column has reads as NULL. */
  lemma {:induction false} WideFieldsAbsent(variant: Variant, keepStrings: bool, cols: seq<Column>, name: string)
    requires forall i :: 0 <= i < |cols| ==> cols[i].name != name
    ensures Lookup(WideFields(variant, keepStrings, cols), name) == Null
  {
    if cols != [] {
      WideFieldsAbsent(variant, keepStrings, Init(cols), name);
    }
  }

  /** Corrected, `ID` and `id` never become fields, and a column whose
      text is a number becomes that float whether or not strings are kept. */
  lemma CorrectedWideColumns(keepStrings: bool, cols: seq<Column>, k: int)
    requires UniqueNames(cols)
    requires 0 <= k < |cols|
    ensures (cols[k].name == "ID" || cols[k].name == "id") ==>
      Lookup(WideFields(Corrected, keepStrings, cols), cols[k].name) == Null
    ensures (cols[k].name != "ID" && cols[k].name != "id" && cols[k].cell.Text? && NumericText(cols[k].cell.text)) ==>
      Lookup(WideFields(Corrected, keepStrings, cols), cols[k].name) == Num(ParseFloat(cols[k].cell.text))
  {
    WideFieldsColumn(Corrected, keepStrings, cols, k);
    var c := cols[k];
    if c.name != "ID" && c.name != "id" && c.cell.Text? && NumericText(c.cell.text) {
      if EmptyCell(c.cell) {
        EmptyCastsToZero(AsValue(c.cell));
      }
      assert CellFloat(c.cell) == ParseFloat(c.cell.text);
      assert WideValue(Corrected, keepStrings, c) == Some(Num(ParseFloat(c.cell.text)));
    }
  }

  /** As written the `ID` column is kept as a field; corrected it is not. */
  lemma IdColumn(keepStrings: bool, cols: seq<Column>, k: int)
    requires UniqueNames(cols)
    requires 0 <= k < |cols| && cols[k] == Column("ID", Text("7"))
    ensures Lookup(WideFields(AsWritten, keepStrings, cols), "ID") == Num(7.0)
    ensures Lookup(WideFields(Corrected, keepStrings, cols), "ID") == Null
  {
    WideFieldsColumn(AsWritten, keepStrings, cols, k);
    WideFieldsColumn(Corrected, keepStrings, cols, k);
    assert "7"[0] == '7' && "7"[1..] == [];
    assert DigitRun("7") == 1;
    assert "7"[..1] == "7" && "7"[..0] == [];
    assert IntegerValue("7") == 7;
  }

  /** Without a central inverter, a reading of two or more characters is
      dropped as written; corrected, a number is kept as a float. */
  lemma NumberColumn(cols: seq<Column>, k: int, name: string)
    requires UniqueNames(cols)
    requires 0 <= k < |cols| && cols[k] == Column(name, Text("12"))
    requires name != "ID" && name != "id"
    ensures Lookup(WideFields(AsWritten, false, cols), name) == Null
    ensures Lookup(WideFields(Corrected, false, cols), name) == Num(12.0)
  {
    WideFieldsColumn(AsWritten, false, cols, k);
    WideFieldsColumn(Corrected, false, cols, k);
    TwelveIsNumeric();
  }

  /** `strlen` counts bytes: a single character outside ASCII, such as the
      degree sign, is a long text, kept as a string with a central inverter
      and dropped without one. */
  lemma MultibyteCharIsText(cols: seq<Column>, k: int, name: string)
    requires UniqueNames(cols)
    requires 0 <= k < |cols| && cols[k] == Column(name, Text("\U{00B0}"))
    requires name != "ID" && name != "id"
    ensures Lookup(WideFields(AsWritten, true, cols), name) == Str("\U{00B0}")
    ensures Lookup(WideFields(AsWritten, false, cols), name) == Null
  {
    WideFieldsColumn(AsWritten, true, cols, k);
    WideFieldsColumn(AsWritten, false, cols, k);
    assert ByteLength("\U{00B0}") == 2 by {
      assert "\U{00B0}"[..0] == [];
    }
  }

  lemma TwelveIsNumeric()
    ensures NumericText("12")
    ensures ParseFloat("12") == 12.0
  {
    var s := "12";
    assert s[1..][1..] == [];
    assert DigitRun(s[1..][1..]) == 0;
    assert DigitRun(s[1..]) == 1;
    assert DigitRun(s) == 2;
    assert s[..2] == s && s[..1] == "1" && s[..0] == [];
    assert IntegerValue("1") == 1;
    assert IntegerValue(s) == 12;
  }
}
