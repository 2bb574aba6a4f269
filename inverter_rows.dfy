/** The `inverters` conversion of the wide kaco `_kwr` and solarlog `_min`
    tables: one string-inverter point per row, with the status and error
    codes looked up by findStatusForDevice (ImportPowerPlantDataCommand.php,
    convertDataToInfluxPoints, case 'inverters', branches 'kaco' and
    'solarlog'). */
module RowInverters {
  import opened Php
  import opened Registry
  import opened Points
  import opened Status
  import opened Context
  import opened Grouping

  /** The device column: `Adresse` for kaco, `address` for solarlog. */
  function DeviceColumn(system: System): string
  {
    if system == Kaco then "Adresse" else "address"
  }

  /** The time column: `Time` for kaco, `date_time` for solarlog. */
  function TimeColumn(system: System): string
  {
    if system == Kaco then "Time" else "date_time"
  }

  /** The readings of one row. solarlog has no AC voltage or current and no
      DC currents: those are 0. */
  function RowElectrical(system: System, row: Row): Electrical
  {
    if system == Kaco then
      Electrical(CellFloat(Get(row, "T_C")), CellFloat(Get(row, "P_AC_WR")),
                 CellFloat(Get(row, "U_AC_0")), CellFloat(Get(row, "I_AC_0")),
                 CellFloat(Get(row, "P_DC_1")), CellFloat(Get(row, "U_DC_1")), CellFloat(Get(row, "I_DC_1")),
                 CellFloat(Get(row, "P_DC_2")), CellFloat(Get(row, "U_DC_2")), CellFloat(Get(row, "I_DC_2")),
                 CellFloat(Get(row, "P_DC_3")), CellFloat(Get(row, "U_DC_3")), CellFloat(Get(row, "I_DC_3")))
    else
      Electrical(CellFloat(Get(row, "Temp")), CellFloat(Get(row, "PAC")), 0.0, 0.0,
                 CellFloat(Get(row, "PDC_S1")), CellFloat(Get(row, "UDC_S1")), 0.0,
                 CellFloat(Get(row, "PDC_S2")), CellFloat(Get(row, "UDC_S2")), 0.0,
                 CellFloat(Get(row, "PDC_S3")), CellFloat(Get(row, "UDC_S3")), 0.0)
  }

  /** The energy column: `E_D_WR` for kaco, `day_energy` for solarlog. */
  function RowEnergy(system: System, row: Row): real
  {
    CellFloat(Get(row, if system == Kaco then "E_D_WR" else "day_energy"))
  }

  function RowStatus(system: System, env: Env, row: Row, kind: Kind): string
  {
    StatusText(FindStatusForDevice(system, Get(row, DeviceColumn(system)), Get(row, TimeColumn(system)), kind, env.eventsFor))
  }

  function RowInverterFields(system: System, env: Env, row: Row): Assoc
  {
    InverterFields(RowEnergy(system, row), RowStatus(system, env, row, StatusCode),
                   RowStatus(system, env, row, ErrorCode), RowElectrical(system, row))
  }

  function RowInverterPoint(system: System, env: Env, row: Row): Point
  {
    var device := AsValue(Get(row, DeviceColumn(system)));
    Point(Null, DeviceTags(env.techName, device, env.loggerIp(device)),
          Filled(RowInverterFields(system, env, row), StatusAware("")),
          AsValue(Get(row, TimeColumn(system))))
  }

  /** The body of the kaco and solarlog inverter loops for one row. */
  method ConvertRow(system: System, env: Env, row: Row) returns (point: Point)
    ensures point == RowInverterPoint(system, env, row)
  {
    var device := AsValue(Get(row, DeviceColumn(system)));
    var loggerIp := env.loggerIp(device);
    var status := RowStatus(system, env, row, StatusCode);
    var error := RowStatus(system, env, row, ErrorCode);
    var fields := InverterFields(RowEnergy(system, row), status, error, RowElectrical(system, row));
    fields := FillFields(fields, StatusAware(""));
    point := Point(Null, DeviceTags(env.techName, device, loggerIp), fields, AsValue(Get(row, TimeColumn(system))));
  }

  /** The points of the kaco and solarlog inverter loops, one per row. */
  function RowInverterPointsOf(system: System, env: Env, rows: seq<Row>): (ps: seq<Point>)
    ensures |ps| == |rows|
  {
    if rows == [] then [] else RowInverterPointsOf(system, env, Init(rows)) + [RowInverterPoint(system, env, Last(rows))]
  }

  lemma RowInverterPointsSnoc(system: System, env: Env, data: seq<Row>, i: int)
    requires 0 <= i < |data|
    ensures RowInverterPointsOf(system, env, data[..i + 1]) ==
      RowInverterPointsOf(system, env, data[..i]) + [RowInverterPoint(system, env, data[i])]
  {
    assert Init(data[..i + 1]) == data[..i];
  }

  /** The kaco and solarlog inverter loops. */
  method RowInverterPoints(system: System, env: Env, data: seq<Row>) returns (points: seq<Point>)
    ensures points == RowInverterPointsOf(system, env, data)
  {
    points := [];
    var i := 0;
    while i < |data|
      invariant 0 <= i <= |data|
      invariant points == RowInverterPointsOf(system, env, data[..i])
    {
      var point := ConvertRow(system, env, data[i]);
      RowInverterPointsSnoc(system, env, data, i);
      points := points + [point];
      i := i + 1;
    }
    assert data[..i] == data;
  }

  /** One point per row, in row order. */
  lemma {:induction false} RowInverterPointsAt(system: System, env: Env, rows: seq<Row>, i: int)
    requires 0 <= i < |rows|
    ensures RowInverterPointsOf(system, env, rows)[i] == RowInverterPoint(system, env, rows[i])
  {
    if i < |rows| - 1 {
      RowInverterPointsAt(system, env, Init(rows), i);
    }
  }

  /** A row's inverter point is tagged with the row's device and keeps the
      row's time. */
  lemma RowInverterPointTags(system: System, env: Env, row: Row)
    ensures Lookup(RowInverterPoint(system, env, row).tags, "device") == AsValue(Get(row, DeviceColumn(system)))
    ensures RowInverterPoint(system, env, row).time == AsValue(Get(row, TimeColumn(system)))
  {
    var device := AsValue(Get(row, DeviceColumn(system)));
    LookupFirst(DeviceTags(env.techName, device, env.loggerIp(device)), "device", 1);
  }

  /** Its seventeen fields come in the fixed order; its status and error
      are the codes found for the device (for solarlog the `status` and
      `fehler` columns of the first event), an empty one stored as '' and
      never as '0'; on a kaco plant the error repeats the status. */
  lemma RowInverterPointFields(system: System, env: Env, row: Row)
    requires system == Kaco || system == Solarlog
    ensures KeysOf(RowInverterPoint(system, env, row).fields) == InverterKeys
    ensures Lookup(RowInverterPoint(system, env, row).fields, "status") ==
      Str(if RowStatus(system, env, row, StatusCode) in {"", "0"} then "" else RowStatus(system, env, row, StatusCode))
    ensures Lookup(RowInverterPoint(system, env, row).fields, "status").s != "0"
    ensures Lookup(RowInverterPoint(system, env, row).fields, "error") ==
      Str(if RowStatus(system, env, row, ErrorCode) in {"", "0"} then "" else RowStatus(system, env, row, ErrorCode))
    ensures Lookup(RowInverterPoint(system, env, row).fields, "error").s != "0"
    ensures system == Kaco ==>
      Lookup(RowInverterPoint(system, env, row).fields, "error") == Lookup(RowInverterPoint(system, env, row).fields, "status")
  {
    var status := RowStatus(system, env, row, StatusCode);
    var error := RowStatus(system, env, row, ErrorCode);
    var e := RowElectrical(system, row);
    var energy := RowEnergy(system, row);
    InverterFilledKeys(energy, status, error, e, StatusAware(""));
    InverterFilledStatus(energy, status, error, e, "");
  }

  /** A solarlog point has AC voltage, AC current and DC currents 0. */
  lemma SolarlogMissingReadings(env: Env, row: Row)
    ensures forall i :: i in {6, 7, 10, 13, 16} ==> RowInverterPoint(Solarlog, env, row).fields[i].val == Num(0.0)
  {
    var status := RowStatus(Solarlog, env, row, StatusCode);
    var error := RowStatus(Solarlog, env, row, ErrorCode);
    var e := RowElectrical(Solarlog, row);
    var energy := RowEnergy(Solarlog, row);
    InverterFilledNumbers(energy, status, error, e, StatusAware(""));
  }
}
