/** The `inverters` conversion of the narrow `SMA2_..._data` table: for
    every time and every device of the first time, one string-inverter point
    assembled from that device's parameter rows (ImportPowerPlantDataCommand.php,
    convertDataToInfluxPoints, case 'inverters', branch 'sma2').

    The readings live in plain local variables that are never reset between
    times or devices, except the AC voltage and current, which the source
    resets to 0 at every matching row. Three details of the branch are modelled
    both as written and as evidently intended (`Variant`): the AC voltage and
    current, meant as the sum of the phase-A and phase-B readings, end up
    holding at most the last row's reading; the energy offset is looked up
    in the table being converted at the very same time, so it is the reading
    itself; and the device tag is taken from the last row of the time instead
    of the device itself. */
module Sma2Inverters {
  import opened Php
  import opened Registry
  import opened Points
  import opened Grouping
  import opened Context

  // ---------------------------------------------------------------------
  // The device list
  // ---------------------------------------------------------------------

  function DeviceIds(rows: seq<Row>): (ids: seq<Cell>)
    ensures |ids| == |rows|
    ensures forall i :: 0 <= i < |rows| ==> ids[i] == Get(rows[i], "dev_id")
  {
    seq(|rows|, i requires 0 <= i < |rows| => Get(rows[i], "dev_id"))
  }

  /** The devices a point is built for at every time: the distinct device ids
      of the first time's rows, in the order they first appear. */
  function Devices(groups: seq<Group>): seq<Cell>
  {
    if groups == [] then [] else FirstSeen(DeviceIds(groups[0].rows))
  }

  /** The device loop over the first time, which ends with `break`. */
  method CollectDevices(dataPerTime: seq<Group>) returns (devices: seq<Cell>)
    ensures devices == Devices(dataPerTime)
  {
    devices := [];
    if dataPerTime != [] {
      var rows := dataPerTime[0].rows;
      var j := 0;
      while j < |rows|
        invariant 0 <= j <= |rows|
        invariant devices == FirstSeen(DeviceIds(rows[..j]))
      {
        assert Init(DeviceIds(rows[..j + 1])) == DeviceIds(rows[..j]);
        assert Last(DeviceIds(rows[..j + 1])) == Get(rows[j], "dev_id");
        if Get(rows[j], "dev_id") !in devices {
          devices := devices + [Get(rows[j], "dev_id")];
        }
        j := j + 1;
      }
      assert rows[..j] == rows;
    }
  }

  /** Every device is listed once, and exactly the device ids of the first
      time are listed. */
  lemma DevicesShape(groups: seq<Group>)
    ensures Distinct(Devices(groups))
    ensures groups == [] ==> Devices(groups) == []
    ensures groups != [] ==> forall d :: d in Devices(groups) <==> exists r :: r in groups[0].rows && Get(r, "dev_id") == d
  {
    if groups != [] {
      var rows := groups[0].rows;
      FirstSeenDistinct(DeviceIds(rows));
      forall d ensures d in Devices(groups) <==> exists r :: r in rows && Get(r, "dev_id") == d {
        if d in DeviceIds(rows) {
          var i :| 0 <= i < |rows| && DeviceIds(rows)[i] == d;
          assert rows[i] in rows;
        }
        if exists r :: r in rows && Get(r, "dev_id") == d {
          var r :| r in rows && Get(r, "dev_id") == d;
          var i :| 0 <= i < |rows| && rows[i] == r;
          assert DeviceIds(rows)[i] == d;
        }
      }
    }
  }

  // ---------------------------------------------------------------------
  // One device at one time
  // ---------------------------------------------------------------------

  /** `$energy`, `$status`, `$error`, `$pac`, `$uac`, `$iac` and the six DC
      variables. An undefined variable casts to the float 0 like the 0 the
      AC variables start from, and to the string '' like NULL. */
  datatype State = State(energy: Value, status: Cell, error: Cell, pac: Cell, uac: real, iac: real,
                         pdc1: Cell, pdc2: Cell, idc1: Cell, idc2: Cell, udc1: Cell, udc2: Cell)

  const Unset: State := State(Null, SqlNull, SqlNull, SqlNull, 0.0, 0.0,
                              SqlNull, SqlNull, SqlNull, SqlNull, SqlNull, SqlNull)

  const UacNames: seq<string> := ["GridMs.PhV.phsA", "GridMs.PhV.phsB"]
  const IacNames: seq<string> := ["GridMs.A.phsA", "GridMs.A.phsB"]

  /** One row of the device: the variable its parameter names takes the
      row's `avg_val`, the voltages and currents of the phases are added up,
      and the energy is the reading less the `offset`. As written, the AC
      voltage and current are first reset to 0 for every row. */
  function ApplyRow(variant: Variant, st: State, row: Row, offset: Cell): State
  {
    var v := Get(row, "avg_val");
    var st := if variant == AsWritten then st.(uac := 0.0, iac := 0.0) else st;
    if ParamIs(row, "Metering.TotWhOut") then
      st.(energy := Num(CellFloat(v) - CellFloat(offset)))
    else if ParamIs(row, "Operation.Health") then st.(status := v)
    else if ParamIs(row, "Operation.Evt.Msg") then st.(error := v)
    else if ParamIs(row, "GridMs.TotW") then st.(pac := v)
    else if ParamIn(row, UacNames) then st.(uac := st.uac + CellFloat(v))
    else if ParamIn(row, IacNames) then st.(iac := st.iac + CellFloat(v))
    else if ParamIs(row, "DcMs.Watt[A]") then st.(pdc1 := v)
    else if ParamIs(row, "DcMs.Watt[B]") then st.(pdc2 := v)
    else if ParamIs(row, "DcMs.Amp[A]") then st.(idc1 := v)
    else if ParamIs(row, "DcMs.Amp[B]") then st.(idc2 := v)
    else if ParamIs(row, "DcMs.Vol[A]") then st.(udc1 := v)
    else if ParamIs(row, "DcMs.Vol[B]") then st.(udc2 := v)
    else st
  }

  /** The inner loop over the time's rows, applying those of the device. */
  function ScanDevice(variant: Variant, st: State, rows: seq<Row>, offset: Cell, device: Cell): State
  {
    if rows == [] then st
    else
      var s := ScanDevice(variant, st, Init(rows), offset, device);
      if Get(Last(rows), "dev_id") == device then ApplyRow(variant, s, Last(rows), offset) else s
  }

  /** The row is the device's total energy reading. */
  predicate IsTotal(row: Row, device: Cell)
  {
    Get(row, "dev_id") == device && ParamIs(row, "Metering.TotWhOut")
  }

  /** The offset query as written: the `avg_val` of the first of the rows
      that is the device's total energy reading, NULL when there is none. It
      asks the table being converted for the very time being converted, and
      every row of that time is among the rows of the window, so its answer
      is the first such row of the time. */
  function FirstTotal(rows: seq<Row>, device: Cell): Cell
  {
    if rows == [] then SqlNull
    else if IsTotal(rows[0], device) then Get(rows[0], "avg_val")
    else FirstTotal(rows[1..], device)
  }

  /** The offset subtracted from the device's total energy reading at a
      time: as written, what the query on the table being converted returns;
      corrected, the first reading of that day, as the SMA branch has it. */
  function Offset(variant: Variant, g: Group, device: Cell, env: Env): Cell
  {
    if variant == AsWritten then FirstTotal(g.rows, device) else env.offsetFor(Sma2, g.time, AsValue(device))
  }

  /** The readings the device starts from: as written, whatever the previous
      device left; corrected, the AC voltage and current start again from 0. */
  function StartDevice(variant: Variant, st: State): State
  {
    if variant == AsWritten then st else st.(uac := 0.0, iac := 0.0)
  }

  /** The serial number the point is tagged with: the part after `SN:` of the
      time's last device id as written, of the device's own id corrected. */
  function Serial(variant: Variant, g: Group, device: Cell): Cell
  {
    ExplodeSecond(CellText(if variant == AsWritten then Get(LastRow(g.rows), "dev_id") else device), "SN:")
  }

  function Sma2Electrical(st: State): Electrical
  {
    Electrical(0.0, CellFloat(st.pac), st.uac, st.iac,
               CellFloat(st.pdc1), CellFloat(st.udc1), CellFloat(st.idc1),
               CellFloat(st.pdc2), CellFloat(st.udc2), CellFloat(st.idc2),
               0.0, 0.0, 0.0)
  }

  function Sma2Fields(st: State): Assoc
  {
    InverterFields(ToFloat(st.energy), CellText(st.status), CellText(st.error), Sma2Electrical(st))
  }

  function Sma2Point(st: State, serial: Cell, g: Group, env: Env): Point
  {
    Point(Null, DeviceTags(env.techName, AsValue(serial), env.loggerIp(AsValue(serial))),
          Filled(Sma2Fields(st), StatusAware("0")),
          AsValue(Get(LastRow(g.rows), "time")))
  }

  datatype Step = Step(state: State, point: Point)

  function DeviceStep(variant: Variant, st: State, g: Group, device: Cell, env: Env): Step
  {
    var s := ScanDevice(variant, StartDevice(variant, st), g.rows, Offset(variant, g, device, env), device);
    Step(s, Sma2Point(s, Serial(variant, g, device), g, env))
  }

  // ---------------------------------------------------------------------
  // All devices at all times
  // ---------------------------------------------------------------------

  datatype Run = Run(state: State, points: seq<Point>)

  /** The device loop of one time. */
  function GroupRun(variant: Variant, st: State, g: Group, devices: seq<Cell>, env: Env): (r: Run)
    ensures |r.points| == |devices|
  {
    if devices == [] then Run(st, [])
    else
      var r := GroupRun(variant, st, g, Init(devices), env);
      var step := DeviceStep(variant, r.state, g, Last(devices), env);
      Run(step.state, r.points + [step.point])
  }

  /** The time loop. */
  function Sma2Run(variant: Variant, groups: seq<Group>, devices: seq<Cell>, env: Env): (r: Run)
    ensures |r.points| == |groups| * |devices|
  {
    if groups == [] then Run(Unset, [])
    else
      var r := Sma2Run(variant, Init(groups), devices, env);
      var gr := GroupRun(variant, r.state, Last(groups), devices, env);
      assert |groups| * |devices| == (|groups| - 1) * |devices| + |devices|;
      Run(gr.state, r.points + gr.points)
  }

  /** The points of the branch for the rows of a window. */
  function Sma2InverterPointsOf(variant: Variant, data: seq<Row>, env: Env): seq<Point>
  {
    var groups := GroupByTime(data, Without("WebBox"));
    Sma2Run(variant, groups, Devices(groups), env).points
  }

  method ScanRows(variant: Variant, st: State, g: Group, device: Cell, env: Env) returns (s: State)
    ensures s == ScanDevice(variant, st, g.rows, Offset(variant, g, device, env), device)
  {
    var rows := g.rows;
    // the offset query depends on the time and the device, not on the row
    var offset := Offset(variant, g, device, env);
    s := st;
    var j := 0;
    while j < |rows|
      invariant 0 <= j <= |rows|
      invariant s == ScanDevice(variant, st, rows[..j], offset, device)
    {
      assert Init(rows[..j + 1]) == rows[..j];
      if Get(rows[j], "dev_id") == device {
        s := ApplyRow(variant, s, rows[j], offset);
      }
      j := j + 1;
    }
    assert rows[..j] == rows;
  }

  lemma GroupRunSnoc(variant: Variant, st: State, g: Group, devices: seq<Cell>, env: Env, j: int)
    requires 0 <= j < |devices|
    ensures GroupRun(variant, st, g, devices[..j + 1], env) ==
      var r := GroupRun(variant, st, g, devices[..j], env);
      var step := DeviceStep(variant, r.state, g, devices[j], env);
      Run(step.state, r.points + [step.point])
  {
    assert Init(devices[..j + 1]) == devices[..j];
  }

  /** The point of one device once its rows have been scanned. */
  method BuildSma2Point(s: State, serial: Cell, g: Group, env: Env) returns (point: Point)
    ensures point == Sma2Point(s, serial, g, env)
  {
    var fields := FillFields(Sma2Fields(s), StatusAware("0"));
    point := Point(Null, DeviceTags(env.techName, AsValue(serial), env.loggerIp(AsValue(serial))),
                   fields, AsValue(Get(LastRow(g.rows), "time")));
  }

  method ConvertGroup(variant: Variant, st: State, g: Group, devices: seq<Cell>, env: Env)
    returns (st': State, points: seq<Point>)
    ensures Run(st', points) == GroupRun(variant, st, g, devices, env)
  {
    st', points := st, [];
    var j := 0;
    while j < |devices|
      invariant 0 <= j <= |devices|
      invariant GroupRun(variant, st, g, devices[..j], env) == Run(st', points)
    {
      GroupRunSnoc(variant, st, g, devices, env, j);
      var s := ScanRows(variant, StartDevice(variant, st'), g, devices[j], env);
      var point := BuildSma2Point(s, Serial(variant, g, devices[j]), g, env);
      st' := s;
      points := points + [point];
      j := j + 1;
    }
    assert devices[..j] == devices;
  }

  /** The whole branch: group the rows without `WebBox` by time, collect the
      devices of the first time, then build a point per time and device. */
  method Sma2InverterPoints(variant: Variant, env: Env, data: seq<Row>) returns (points: seq<Point>)
    ensures points == Sma2InverterPointsOf(variant, data, env)
  {
    var dataPerTime := GroupRowsByTime(data, Without("WebBox"));
    var devices := CollectDevices(dataPerTime);
    var st := Unset;
    points := [];
    var i := 0;
    while i < |dataPerTime|
      invariant 0 <= i <= |dataPerTime|
      invariant Sma2Run(variant, dataPerTime[..i], devices, env) == Run(st, points)
    {
      assert Init(dataPerTime[..i + 1]) == dataPerTime[..i];
      var groupPoints;
      st, groupPoints := ConvertGroup(variant, st, dataPerTime[i], devices, env);
      points := points + groupPoints;
      i := i + 1;
    }
    assert dataPerTime[..i] == dataPerTime;
  }

  // ---------------------------------------------------------------------
  // What the branch promises
  // ---------------------------------------------------------------------

  /** The j-th point of a time is built for the j-th device from what the
      devices before it left behind. */
  lemma {:induction false} GroupRunAt(variant: Variant, st: State, g: Group, devices: seq<Cell>, env: Env, j: int)
    requires 0 <= j < |devices|
    ensures GroupRun(variant, st, g, devices, env).points[j] ==
      DeviceStep(variant, GroupRun(variant, st, g, devices[..j], env).state, g, devices[j], env).point
  {
    if j < |devices| - 1 {
      GroupRunAt(variant, st, g, Init(devices), env, j);
      assert Init(devices)[..j] == devices[..j];
    } else {
      assert Init(devices) == devices[..j];
    }
  }

  /** Taking one more time appends that time's block of points, one per
      device, built from the state the earlier times left. */
  lemma Sma2RunStep(variant: Variant, groups: seq<Group>, devices: seq<Cell>, env: Env, k: int)
    requires 0 <= k < |groups|
    ensures Sma2Run(variant, groups[..k + 1], devices, env).points ==
      Sma2Run(variant, groups[..k], devices, env).points +
      GroupRun(variant, Sma2Run(variant, groups[..k], devices, env).state, groups[k], devices, env).points
  {
    assert Init(groups[..k + 1]) == groups[..k];
  }

  /** The points of the first times are a prefix of the points of all. */
  lemma {:induction false} Sma2RunPrefix(variant: Variant, groups: seq<Group>, devices: seq<Cell>, env: Env, k: int)
    requires 0 <= k <= |groups|
    ensures Sma2Run(variant, groups[..k], devices, env).points <= Sma2Run(variant, groups, devices, env).points
  {
    if k < |groups| {
      Sma2RunPrefix(variant, Init(groups), devices, env, k);
      assert Init(groups)[..k] == groups[..k];
    } else {
      assert groups[..k] == groups;
    }
  }

  /** As written, every point of a time is tagged with the serial number of
      the time's last row, whichever device it was built for. */
  lemma GroupTagsAsWritten(st: State, g: Group, devices: seq<Cell>, env: Env, j: int)
    requires 0 <= j < |devices|
    ensures Lookup(GroupRun(AsWritten, st, g, devices, env).points[j].tags, "device") ==
      AsValue(ExplodeSecond(CellText(Get(LastRow(g.rows), "dev_id")), "SN:"))
  {
    GroupRunAt(AsWritten, st, g, devices, env, j);
  }

  /** Corrected, the j-th point of a time is tagged with the serial number of
      the j-th device, so devices with different serial numbers get points
      with different tags. */
  lemma GroupTagsCorrected(st: State, g: Group, devices: seq<Cell>, env: Env, j: int)
    requires 0 <= j < |devices|
    ensures Lookup(GroupRun(Corrected, st, g, devices, env).points[j].tags, "device") ==
      AsValue(ExplodeSecond(CellText(devices[j]), "SN:"))
  {
    GroupRunAt(Corrected, st, g, devices, env, j);
  }

  /** Two devices `WR:SN:1` and `WR:SN:2` at one time: as written both
      points name serial number 2. */
  lemma SerialTagAsWrittenExample(st: State, env: Env, g: Group, devices: seq<Cell>)
    requires g == Group("t", [[Column("dev_id", Text("WR:SN:1"))], [Column("dev_id", Text("WR:SN:2"))]])
    requires devices == [Text("WR:SN:1"), Text("WR:SN:2")]
    ensures Lookup(GroupRun(AsWritten, st, g, devices, env).points[0].tags, "device") == Str("2")
    ensures Lookup(GroupRun(AsWritten, st, g, devices, env).points[1].tags, "device") == Str("2")
  {
    GroupTagsAsWritten(st, g, devices, env, 0);
    GroupTagsAsWritten(st, g, devices, env, 1);
    ExampleSerials();
    assert Get(LastRow(g.rows), "dev_id") == Text("WR:SN:2");
  }

  /** The same two devices: corrected, each point names its own serial
      number. */
  lemma SerialTagCorrectedExample(st: State, env: Env, g: Group, devices: seq<Cell>)
    requires g == Group("t", [[Column("dev_id", Text("WR:SN:1"))], [Column("dev_id", Text("WR:SN:2"))]])
    requires devices == [Text("WR:SN:1"), Text("WR:SN:2")]
    ensures Lookup(GroupRun(Corrected, st, g, devices, env).points[0].tags, "device") == Str("1")
    ensures Lookup(GroupRun(Corrected, st, g, devices, env).points[1].tags, "device") == Str("2")
  {
    GroupTagsCorrected(st, g, devices, env, 0);
    GroupTagsCorrected(st, g, devices, env, 1);
    ExampleSerials();
  }

  /** The serial numbers of the two device ids of the examples. */
  lemma ExampleSerials()
    ensures AsValue(ExplodeSecond(CellText(Text("WR:SN:1")), "SN:")) == Str("1")
    ensures AsValue(ExplodeSecond(CellText(Text("WR:SN:2")), "SN:")) == Str("2")
  {
    ExplodeSerial('1');
    ExplodeSerial('2');
    assert "WR:SN:" + ['1'] == "WR:SN:1" && "WR:SN:" + ['2'] == "WR:SN:2";
  }

  /** The serial number of a device id `WR:SN:` followed by one character. */
  lemma ExplodeSerial(serial: char)
    ensures ExplodeSecond("WR:SN:" + [serial], "SN:") == Text([serial])
  {
    var s := "WR:SN:" + [serial];
    assert s[3..6] == "SN:";
    assert s[2..5] != "SN:" by { assert s[2..5][0] == ':'; }
    assert s[1..4] != "SN:" by { assert s[1..4][0] == 'R'; }
    assert s[0..3] != "SN:" by { assert s[0..3][0] == 'W'; }
    assert FindFrom(s, "SN:", 3) == 3;
    assert FindFrom(s, "SN:", 0) == 3;
    assert s[6..] == [serial];
  }

  /** The sum of the device's readings of the given phases at one time. */
  function PhaseSum(rows: seq<Row>, device: Cell, names: seq<string>): real
  {
    if rows == [] then 0.0
    else
      var row := Last(rows);
      PhaseSum(Init(rows), device, names) +
        (if Get(row, "dev_id") == device && ParamIn(row, names) then CellFloat(Get(row, "avg_val")) else 0.0)
  }

  /** The last row of the device at one time, if it has any. */
  function LastOfDevice(rows: seq<Row>, device: Cell): Option<Row>
  {
    if rows == [] then None
    else if Get(Last(rows), "dev_id") == device then Some(Last(rows))
    else LastOfDevice(Init(rows), device)
  }

  /** What a row leaves in the AC voltage as written: its reading when it is
      a phase voltage, 0 otherwise. */
  function RowUac(row: Row): real
  {
    if ParamIn(row, UacNames) then CellFloat(Get(row, "avg_val")) else 0.0
  }

  function RowIac(row: Row): real
  {
    if ParamIn(row, IacNames) then CellFloat(Get(row, "avg_val")) else 0.0
  }

  /** What one row does to the AC voltage and current: as written they hold
      the row's phase reading alone, corrected it is added to them. */
  lemma ApplyRowUac(variant: Variant, st: State, row: Row, offset: Cell)
    ensures ApplyRow(variant, st, row, offset).uac == (if variant == AsWritten then 0.0 else st.uac) + RowUac(row)
  {
    if ParamIn(row, UacNames) {
      // no other parameter name the row loop tests has this length
      assert |Get(row, "dev_param").text| == 15;
    }
  }

  lemma ApplyRowIac(variant: Variant, st: State, row: Row, offset: Cell)
    ensures ApplyRow(variant, st, row, offset).iac == (if variant == AsWritten then 0.0 else st.iac) + RowIac(row)
  {
    if ParamIn(row, IacNames) {
      // no other parameter name the row loop tests has this length
      assert |Get(row, "dev_param").text| == 13;
    }
  }

  /** As written, the AC voltage and current of a device hold only what its
      last row at the time leaves in them: that row's reading when it is a
      phase reading, 0 otherwise; a device without rows keeps the previous
      values. */
  lemma {:induction false} AcAsWritten(st: State, rows: seq<Row>, offset: Cell, device: Cell)
    ensures ScanDevice(AsWritten, st, rows, offset, device).uac ==
      (match LastOfDevice(rows, device) case None => st.uac case Some(r) => RowUac(r))
    ensures ScanDevice(AsWritten, st, rows, offset, device).iac ==
      (match LastOfDevice(rows, device) case None => st.iac case Some(r) => RowIac(r))
  {
    if rows != [] {
      AcAsWritten(st, Init(rows), offset, device);
      var s := ScanDevice(AsWritten, st, Init(rows), offset, device);
      ApplyRowUac(AsWritten, s, Last(rows), offset);
      ApplyRowIac(AsWritten, s, Last(rows), offset);
    }
  }

  /** Corrected, the AC voltage and current of a device are the sums of its
      phase-A and phase-B readings at the time. */
  lemma {:induction false} AcCorrected(st: State, rows: seq<Row>, offset: Cell, device: Cell)
    ensures ScanDevice(Corrected, StartDevice(Corrected, st), rows, offset, device).uac == PhaseSum(rows, device, UacNames)
    ensures ScanDevice(Corrected, StartDevice(Corrected, st), rows, offset, device).iac == PhaseSum(rows, device, IacNames)
  {
    if rows != [] {
      AcCorrected(st, Init(rows), offset, device);
      var s := ScanDevice(Corrected, StartDevice(Corrected, st), Init(rows), offset, device);
      ApplyRowUac(Corrected, s, Last(rows), offset);
      ApplyRowIac(Corrected, s, Last(rows), offset);
    }
  }

  /** One device with a phase-A and a phase-B voltage row: as written the
      point's AC voltage is the phase-B reading alone; corrected it is the
      sum of both. */
  lemma AcExample(st: State, offset: Cell, device: Cell, a: Cell, b: Cell)
    ensures var rows := [[Column("dev_id", device), Column("dev_param", Text("GridMs.PhV.phsA")), Column("avg_val", a)],
                         [Column("dev_id", device), Column("dev_param", Text("GridMs.PhV.phsB")), Column("avg_val", b)]];
            ScanDevice(AsWritten, st, rows, offset, device).uac == CellFloat(b) &&
            ScanDevice(Corrected, StartDevice(Corrected, st), rows, offset, device).uac == CellFloat(a) + CellFloat(b)
  {
    var rows := [[Column("dev_id", device), Column("dev_param", Text("GridMs.PhV.phsA")), Column("avg_val", a)],
                 [Column("dev_id", device), Column("dev_param", Text("GridMs.PhV.phsB")), Column("avg_val", b)]];
    AcAsWritten(st, rows, offset, device);
    AcCorrected(st, rows, offset, device);
    assert Init(rows) == [rows[0]] && Init([rows[0]]) == [];
    assert Get(rows[0], "dev_id") == device && Get(rows[1], "dev_id") == device;
    assert Get(rows[0], "dev_param") == Text("GridMs.PhV.phsA") && Get(rows[1], "dev_param") == Text("GridMs.PhV.phsB");
    assert Get(rows[0][2..], "avg_val") == a && Get(rows[1][2..], "avg_val") == b;
    assert rows[0][1..][1..] == rows[0][2..] && rows[1][1..][1..] == rows[1][2..];
    assert Get(rows[0], "avg_val") == a && Get(rows[1], "avg_val") == b;
    assert LastOfDevice(rows, device) == Some(rows[1]);
    assert PhaseSum([rows[0]], device, UacNames) == CellFloat(a);
  }

  /** The device's last total energy reading among the rows, if it has one. */
  function LastTotal(rows: seq<Row>, device: Cell): Option<Cell>
  {
    if rows == [] then None
    else if IsTotal(Last(rows), device) then Some(Get(Last(rows), "avg_val"))
    else LastTotal(Init(rows), device)
  }

  /** The energy a device is left with is its last total energy reading less
      the offset; a device without one keeps the energy it started from. */
  lemma {:induction false} EnergyLastWins(variant: Variant, st: State, rows: seq<Row>, offset: Cell, device: Cell)
    ensures ScanDevice(variant, st, rows, offset, device).energy ==
      (match LastTotal(rows, device) case None => st.energy case Some(v) => Num(CellFloat(v) - CellFloat(offset)))
  {
    if rows != [] {
      EnergyLastWins(variant, st, Init(rows), offset, device);
      ApplyRowEnergy(variant, ScanDevice(variant, st, Init(rows), offset, device), Last(rows), offset);
    }
  }

  /** A total energy reading sets the energy, any other row keeps it. */
  lemma ApplyRowEnergy(variant: Variant, st: State, row: Row, offset: Cell)
    ensures ApplyRow(variant, st, row, offset).energy ==
      if ParamIs(row, "Metering.TotWhOut") then Num(CellFloat(Get(row, "avg_val")) - CellFloat(offset)) else st.energy
  {
  }

  /** A reading the device reports once is the first of its readings. */
  lemma {:induction false} FirstTotalAt(rows: seq<Row>, device: Cell, k: int)
    requires 0 <= k < |rows| && IsTotal(rows[k], device)
    requires forall i :: 0 <= i < k ==> !IsTotal(rows[i], device)
    ensures FirstTotal(rows, device) == Get(rows[k], "avg_val")
  {
    if k > 0 {
      assert !IsTotal(rows[0], device);
      forall i | 0 <= i < k - 1 ensures !IsTotal(rows[1..][i], device) {
        assert rows[1..][i] == rows[i + 1];
      }
      FirstTotalAt(rows[1..], device, k - 1);
    }
  }

  /** ... and the last of them. */
  lemma {:induction false} LastTotalAt(rows: seq<Row>, device: Cell, k: int)
    requires 0 <= k < |rows| && IsTotal(rows[k], device)
    requires forall i :: k < i < |rows| ==> !IsTotal(rows[i], device)
    ensures LastTotal(rows, device) == Some(Get(rows[k], "avg_val"))
  {
    if k < |rows| - 1 {
      assert !IsTotal(Last(rows), device);
      LastTotalAt(Init(rows), device, k);
    }
  }

  /** As written, the offset query returns the very reading being converted:
      a device that reports its total energy once at a time gets the energy
      0, and a point whose `e_total` is 0, whatever it reported. */
  lemma EnergyAsWritten(st: State, g: Group, device: Cell, env: Env, k: int)
    requires 0 <= k < |g.rows| && IsTotal(g.rows[k], device)
    requires forall i :: 0 <= i < |g.rows| && i != k ==> !IsTotal(g.rows[i], device)
    ensures DeviceStep(AsWritten, st, g, device, env).state.energy == Num(0.0)
    ensures Lookup(DeviceStep(AsWritten, st, g, device, env).point.fields, "e_total") == Num(0.0)
  {
    FirstTotalAt(g.rows, device, k);
    LastTotalAt(g.rows, device, k);
    EnergyLastWins(AsWritten, st, g.rows, Offset(AsWritten, g, device, env), device);
    EnergyField(DeviceStep(AsWritten, st, g, device, env).state, Serial(AsWritten, g, device), g, env);
  }

  /** Corrected, the energy of such a device is its reading less the first
      reading of that day. */
  lemma EnergyCorrected(st: State, g: Group, device: Cell, env: Env, k: int)
    requires 0 <= k < |g.rows| && IsTotal(g.rows[k], device)
    requires forall i :: 0 <= i < |g.rows| && i != k ==> !IsTotal(g.rows[i], device)
    ensures DeviceStep(Corrected, st, g, device, env).state.energy ==
      Num(CellFloat(Get(g.rows[k], "avg_val")) - CellFloat(env.offsetFor(Sma2, g.time, AsValue(device))))
    ensures Lookup(DeviceStep(Corrected, st, g, device, env).point.fields, "e_total") ==
      Num(CellFloat(Get(g.rows[k], "avg_val")) - CellFloat(env.offsetFor(Sma2, g.time, AsValue(device))))
  {
    LastTotalAt(g.rows, device, k);
    EnergyLastWins(Corrected, StartDevice(Corrected, st), g.rows, Offset(Corrected, g, device, env), device);
    EnergyField(DeviceStep(Corrected, st, g, device, env).state, Serial(Corrected, g, device), g, env);
  }

  /** The point's `e_total` is the float of the scanned energy. */
  lemma EnergyField(st: State, serial: Cell, g: Group, env: Env)
    ensures Lookup(Sma2Point(st, serial, g, env).fields, "e_total") == Num(ToFloat(st.energy))
  {
    var e := Sma2Electrical(st);
    var energy, status, error := ToFloat(st.energy), CellText(st.status), CellText(st.error);
    InverterFilledNumbers(energy, status, error, e, StatusAware("0"));
    InverterFilledKeys(energy, status, error, e, StatusAware("0"));
  }

  /** Every sma2 point has the seventeen inverter fields in order; an empty
      status or error is written as '0', never as ''; the AC voltage and
      current are the scanned ones; the point carries the serial number as
      its device tag and the time of the time's last row. */
  lemma Sma2PointShape(st: State, serial: Cell, g: Group, env: Env)
    ensures KeysOf(Sma2Point(st, serial, g, env).fields) == InverterKeys
    ensures Lookup(Sma2Point(st, serial, g, env).fields, "status") ==
      Str(if CellText(st.status) == "" || CellText(st.status) == "0" then "0" else CellText(st.status))
    ensures Lookup(Sma2Point(st, serial, g, env).fields, "error") ==
      Str(if CellText(st.error) == "" || CellText(st.error) == "0" then "0" else CellText(st.error))
    ensures Lookup(Sma2Point(st, serial, g, env).fields, "status").s != ""
    ensures Lookup(Sma2Point(st, serial, g, env).fields, "error").s != ""
    ensures Sma2Point(st, serial, g, env).fields[6].val == Num(st.uac)
    ensures Sma2Point(st, serial, g, env).fields[7].val == Num(st.iac)
    ensures Lookup(Sma2Point(st, serial, g, env).tags, "device") == AsValue(serial)
    ensures Sma2Point(st, serial, g, env).time == AsValue(Get(LastRow(g.rows), "time"))
  {
    var e := Sma2Electrical(st);
    var energy, status, error := ToFloat(st.energy), CellText(st.status), CellText(st.error);
    InverterFilledKeys(energy, status, error, e, StatusAware("0"));
    InverterFilledStatus(energy, status, error, e, "0");
    InverterFilledNumbers(energy, status, error, e, StatusAware("0"));
  }
}
