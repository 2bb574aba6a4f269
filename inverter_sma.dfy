/** The `inverters` conversion of the narrow SMA `data_` table without a
    central inverter: one string-inverter point per time, assembled from
    that time's parameter rows (ImportPowerPlantDataCommand.php,
    convertDataToInfluxPoints, case 'inverters', branch 'sma').

    The source keeps its readings in plain local variables. Only the six DC
    variables are reset at the start of each time; the device, the energy,
    the codes and the AC readings keep whatever the previous time left in
    them, and the model carries them from time to time in the same way. */
module SmaInverters {
  import opened Php
  import opened Registry
  import opened Points
  import opened Grouping
  import opened Context

  // The parameter names each branch of the source's if-chain tests.
  const SerialNames: seq<string> := ["Serial Number"]
  const EnergyNames: seq<string> := ["E-Total"]
  const StatusNames: seq<string> := ["Op.GriSwStt"]
  const ErrorNames: seq<string> := ["Op.EvtNo"]
  const PacNames: seq<string> := ["Pac"]
  const UacNames: seq<string> := ["Uac", "GridMs.PhV.phsA"]
  const IacNames: seq<string> := ["GridMs.A.phsA", "Iac-Ist", "Iac"]
  const Pdc1Names: seq<string> := ["A.Ms.Watt"]
  const Pdc2Names: seq<string> := ["B.Ms.Watt"]
  const Idc1Names: seq<string> := ["A.Ms.Amp", "Ipv"]
  const Idc2Names: seq<string> := ["B.Ms.Amp"]
  const Udc1Names: seq<string> := ["A.Ms.Vol", "Upv-Ist"]
  const Udc2Names: seq<string> := ["B.Ms.Vol"]

  /** The variables that survive from one time to the next (`$device`,
      `$energy`, `$status`, `$error`, `$pac`, `$uac`, `$iac`). */
  datatype Carry = Carry(device: Value, energy: Value, status: Cell, error: Cell, pac: Cell, uac: Cell, iac: Cell)

  /** Before the first time every carried variable is undefined. */
  const Unset: Carry := Carry(Null, Null, SqlNull, SqlNull, SqlNull, SqlNull, SqlNull)

  /** The DC variables, reset to 0 for every time. */
  datatype Dc = Dc(pdc1: Value, pdc2: Value, idc1: Value, idc2: Value, udc1: Value, udc2: Value)

  const ZeroDc: Dc := Dc(Num(0.0), Num(0.0), Num(0.0), Num(0.0), Num(0.0), Num(0.0))

  datatype Scan = Scan(carry: Carry, dc: Dc)

  /** One row of the inner loop: the variable its parameter names takes the
      row's `avg_val` (the serial number cast to float); other rows are
      ignored. */
  function ApplyRow(s: Scan, row: Row): Scan
  {
    var v := Get(row, "avg_val");
    var c, dc := s.carry, s.dc;
    if ParamIn(row, SerialNames) then s.(carry := c.(device := Num(CellFloat(v))))
    else if ParamIn(row, EnergyNames) then s.(carry := c.(energy := AsValue(v)))
    else if ParamIn(row, StatusNames) then s.(carry := c.(status := v))
    else if ParamIn(row, ErrorNames) then s.(carry := c.(error := v))
    else if ParamIn(row, PacNames) then s.(carry := c.(pac := v))
    else if ParamIn(row, UacNames) then s.(carry := c.(uac := v))
    else if ParamIn(row, IacNames) then s.(carry := c.(iac := v))
    else if ParamIn(row, Pdc1Names) then s.(dc := dc.(pdc1 := AsValue(v)))
    else if ParamIn(row, Pdc2Names) then s.(dc := dc.(pdc2 := AsValue(v)))
    else if ParamIn(row, Idc1Names) then s.(dc := dc.(idc1 := AsValue(v)))
    else if ParamIn(row, Idc2Names) then s.(dc := dc.(idc2 := AsValue(v)))
    else if ParamIn(row, Udc1Names) then s.(dc := dc.(udc1 := AsValue(v)))
    else if ParamIn(row, Udc2Names) then s.(dc := dc.(udc2 := AsValue(v)))
    else s
  }

  function ScanRows(s: Scan, rows: seq<Row>): Scan
  {
    if rows == [] then s else ApplyRow(ScanRows(s, Init(rows)), Last(rows))
  }

  /** `$udc * $idc`. */
  function Power(udc: Value, idc: Value): real
  {
    ToFloat(udc) * ToFloat(idc)
  }

  /** When either DC power is missing both are recomputed as voltage times
      current. */
  function DerivePower(dc: Dc): Dc
  {
    if Empty(dc.pdc1) || Empty(dc.pdc2) then
      dc.(pdc1 := Num(Power(dc.udc1, dc.idc1)), pdc2 := Num(Power(dc.udc2, dc.idc2)))
    else dc
  }

  /** Without a serial number the device is the second `:`-separated piece
      of the time's first device id. */
  function SettleDevice(device: Value, rows: seq<Row>): Value
  {
    if Empty(device) then AsValue(ExplodeSecond(CellText(Get(FirstRow(rows), "dev_id")), ":")) else device
  }

  /** An empty status or error code becomes '0'. */
  function SettleCode(code: Cell): Cell
  {
    if EmptyCell(code) then Text("0") else code
  }

  /** The carried variables once the time's defaults are applied and the
      day's first E-total reading of the device has been subtracted from
      the energy. */
  function Settle(c: Carry, g: Group, env: Env): Carry
  {
    var device := SettleDevice(c.device, g.rows);
    var offset := env.offsetFor(Sma, g.time, device);
    c.(device := device,
       status := SettleCode(c.status),
       error := SettleCode(c.error),
       energy := Num(ToFloat(c.energy) - CellFloat(offset)))
  }

  function SmaElectrical(c: Carry, dc: Dc): Electrical
  {
    Electrical(0.0, CellFloat(c.pac), CellFloat(c.uac), CellFloat(c.iac),
               ToFloat(dc.pdc1), ToFloat(dc.udc1), ToFloat(dc.idc1),
               ToFloat(dc.pdc2), ToFloat(dc.udc2), ToFloat(dc.idc2),
               0.0, 0.0, 0.0)
  }

  function SmaFields(c: Carry, dc: Dc): Assoc
  {
    InverterFields(ToFloat(c.energy), CellText(c.status), CellText(c.error), SmaElectrical(c, dc))
  }

  function SmaPoint(c: Carry, dc: Dc, g: Group, env: Env): Point
  {
    Point(Null, DeviceTags(env.techName, c.device, env.loggerIp(c.device)),
          Filled(SmaFields(c, dc), StatusAware("")),
          AsValue(Get(LastRow(g.rows), "time")))
  }

  /** One time: scan its rows from the carried variables and fresh DC
      variables, settle, and build the point. */
  datatype Step = Step(carry: Carry, point: Point)

  function SmaStep(c: Carry, g: Group, env: Env): Step
  {
    var s := ScanRows(Scan(c, ZeroDc), g.rows);
    var settled := Settle(s.carry, g, env);
    Step(settled, SmaPoint(settled, DerivePower(s.dc), g, env))
  }

  datatype Run = Run(carry: Carry, points: seq<Point>)

  /** The outer loop over the times, as a function of the times seen so far. */
  function SmaRun(groups: seq<Group>, env: Env): (r: Run)
    ensures |r.points| == |groups|
  {
    if groups == [] then Run(Unset, [])
    else
      var r := SmaRun(Init(groups), env);
      var step := SmaStep(r.carry, Last(groups), env);
      Run(step.carry, r.points + [step.point])
  }

  /** The inner loop over one time's rows. */
  method ScanGroup(c: Carry, rows: seq<Row>) returns (s: Scan)
    ensures s == ScanRows(Scan(c, ZeroDc), rows)
  {
    s := Scan(c, ZeroDc);
    var j := 0;
    while j < |rows|
      invariant 0 <= j <= |rows|
      invariant s == ScanRows(Scan(c, ZeroDc), rows[..j])
    {
      assert Init(rows[..j + 1]) == rows[..j];
      s := ApplyRow(s, rows[j]);
      j := j + 1;
    }
    assert rows[..j] == rows;
  }

  /** The branch's loop over `$dataPerTime`. */
  method SmaInverterPoints(env: Env, dataPerTime: seq<Group>) returns (points: seq<Point>)
    ensures points == SmaRun(dataPerTime, env).points
  {
    points := [];
    var carry := Unset;
    var i := 0;
    while i < |dataPerTime|
      invariant 0 <= i <= |dataPerTime|
      invariant SmaRun(dataPerTime[..i], env) == Run(carry, points)
    {
      var g := dataPerTime[i];
      SmaRunSnoc(dataPerTime, env, i);
      var s := ScanGroup(carry, g.rows);
      var dc := DerivePower(s.dc);
      carry := Settle(s.carry, g, env);
      var fields := FillFields(SmaFields(carry, dc), StatusAware(""));
      var point := Point(Null, DeviceTags(env.techName, carry.device, env.loggerIp(carry.device)),
                         fields, AsValue(Get(LastRow(g.rows), "time")));
      points := points + [point];
      i := i + 1;
    }
    assert dataPerTime[..i] == dataPerTime;
  }

  // ---------------------------------------------------------------------
  // What the branch promises
  // ---------------------------------------------------------------------

  lemma SmaRunSnoc(groups: seq<Group>, env: Env, k: int)
    requires 0 <= k < |groups|
    ensures SmaRun(groups[..k + 1], env) ==
      var r := SmaRun(groups[..k], env);
      var step := SmaStep(r.carry, groups[k], env);
      Run(step.carry, r.points + [step.point])
  {
    assert Init(groups[..k + 1]) == groups[..k];
  }

  /** The points of the first times are a prefix of the points of all. */
  lemma {:induction false} SmaRunPrefix(groups: seq<Group>, env: Env, k: int)
    requires 0 <= k <= |groups|
    ensures SmaRun(groups[..k], env).points <= SmaRun(groups, env).points
  {
    if k < |groups| {
      SmaRunPrefix(Init(groups), env, k);
      assert Init(groups)[..k] == groups[..k];
    } else {
      assert groups[..k] == groups;
    }
  }

  /** The k-th point is built from the k-th time and the variables the
      earlier times left behind. */
  lemma SmaRunAt(groups: seq<Group>, env: Env, k: int)
    requires 0 <= k < |groups|
    ensures SmaRun(groups, env).points[k] == SmaStep(SmaRun(groups[..k], env).carry, groups[k], env).point
    ensures SmaRun(groups[..k + 1], env).carry == SmaStep(SmaRun(groups[..k], env).carry, groups[k], env).carry
  {
    SmaRunSnoc(groups, env, k);
    SmaRunPrefix(groups, env, k + 1);
  }

  /** What a variable holds after a time's rows: the `avg_val` of the last
      row naming it, or what it held before when no row does. */
  function Latest(rows: seq<Row>, names: seq<string>, before: Cell): Cell
  {
    match LastAvg(rows, names)
    case None => before
    case Some(v) => v
  }

  function LatestValue(rows: seq<Row>, names: seq<string>, before: Value): Value
  {
    match LastAvg(rows, names)
    case None => before
    case Some(v) => AsValue(v)
  }

  /** One row changes exactly the variable its parameter names (the name
      lists are disjoint, so the order of the if-chain does not matter). */
  lemma ApplyRowEffect(s: Scan, row: Row)
    ensures ApplyRow(s, row) == Scan(
      Carry(if ParamIn(row, SerialNames) then Num(CellFloat(Get(row, "avg_val"))) else s.carry.device,
            if ParamIn(row, EnergyNames) then AsValue(Get(row, "avg_val")) else s.carry.energy,
            if ParamIn(row, StatusNames) then Get(row, "avg_val") else s.carry.status,
            if ParamIn(row, ErrorNames) then Get(row, "avg_val") else s.carry.error,
            if ParamIn(row, PacNames) then Get(row, "avg_val") else s.carry.pac,
            if ParamIn(row, UacNames) then Get(row, "avg_val") else s.carry.uac,
            if ParamIn(row, IacNames) then Get(row, "avg_val") else s.carry.iac),
      Dc(if ParamIn(row, Pdc1Names) then AsValue(Get(row, "avg_val")) else s.dc.pdc1,
         if ParamIn(row, Pdc2Names) then AsValue(Get(row, "avg_val")) else s.dc.pdc2,
         if ParamIn(row, Idc1Names) then AsValue(Get(row, "avg_val")) else s.dc.idc1,
         if ParamIn(row, Idc2Names) then AsValue(Get(row, "avg_val")) else s.dc.idc2,
         if ParamIn(row, Udc1Names) then AsValue(Get(row, "avg_val")) else s.dc.udc1,
         if ParamIn(row, Udc2Names) then AsValue(Get(row, "avg_val")) else s.dc.udc2))
  {
  }

  /** What the device variable holds after a time's rows: the last serial
      number read, cast to float, or what it held before. */
  function LatestSerial(rows: seq<Row>, before: Value): Value
  {
    match LastAvg(rows, SerialNames)
    case None => before
    case Some(v) => Num(CellFloat(v))
  }

  /** The scan keeps the last reading of every carried variable and falls
      back on the previous time's value when the time has none. */
  lemma {:induction false} ScanCarryLastWins(s: Scan, rows: seq<Row>)
    ensures ScanRows(s, rows).carry.device == LatestSerial(rows, s.carry.device)
    ensures ScanRows(s, rows).carry.status == Latest(rows, StatusNames, s.carry.status)
    ensures ScanRows(s, rows).carry.error == Latest(rows, ErrorNames, s.carry.error)
    ensures ScanRows(s, rows).carry.pac == Latest(rows, PacNames, s.carry.pac)
    ensures ScanRows(s, rows).carry.uac == Latest(rows, UacNames, s.carry.uac)
    ensures ScanRows(s, rows).carry.iac == Latest(rows, IacNames, s.carry.iac)
    ensures ScanRows(s, rows).carry.energy == LatestValue(rows, EnergyNames, s.carry.energy)
  {
    if rows != [] {
      ScanCarryLastWins(s, Init(rows));
      ApplyRowEffect(ScanRows(s, Init(rows)), Last(rows));
    }
  }

  /** The DC variables of a time depend on that time's rows only: each is
      the last reading of its parameters, 0 when the time has none. */
  lemma {:induction false} ScanDcLastWins(s: Scan, rows: seq<Row>)
    requires s.dc == ZeroDc
    ensures ScanRows(s, rows).dc ==
      Dc(LatestValue(rows, Pdc1Names, Num(0.0)), LatestValue(rows, Pdc2Names, Num(0.0)),
         LatestValue(rows, Idc1Names, Num(0.0)), LatestValue(rows, Idc2Names, Num(0.0)),
         LatestValue(rows, Udc1Names, Num(0.0)), LatestValue(rows, Udc2Names, Num(0.0)))
  {
    if rows != [] {
      ScanDcLastWins(s, Init(rows));
      ApplyRowEffect(ScanRows(s, Init(rows)), Last(rows));
    }
  }

  /** Every SMA point has the seventeen inverter fields in order and
      string status and error codes (a missing code, stored as '0', is
      written as ''). */
  lemma SmaPointFields(c: Carry, dc: Dc, g: Group, env: Env)
    ensures KeysOf(SmaPoint(c, dc, g, env).fields) == InverterKeys
    ensures Lookup(SmaPoint(c, dc, g, env).fields, "status") == Str(if EmptyCell(c.status) then "" else c.status.text)
    ensures Lookup(SmaPoint(c, dc, g, env).fields, "status").s != "0"
    ensures Lookup(SmaPoint(c, dc, g, env).fields, "error") == Str(if EmptyCell(c.error) then "" else c.error.text)
    ensures Lookup(SmaPoint(c, dc, g, env).fields, "error").s != "0"
  {
    InverterFilledKeys(ToFloat(c.energy), CellText(c.status), CellText(c.error), SmaElectrical(c, dc), StatusAware(""));
    InverterFilledStatus(ToFloat(c.energy), CellText(c.status), CellText(c.error), SmaElectrical(c, dc), "");
  }

  /** The AC power of an SMA point is the carried `Pac` reading. */
  lemma SmaPointPac(c: Carry, dc: Dc, g: Group, env: Env)
    ensures Lookup(SmaPoint(c, dc, g, env).fields, "pac") == Num(CellFloat(c.pac))
  {
    var f := SmaFields(c, dc);
    InverterFilledNumbers(ToFloat(c.energy), CellText(c.status), CellText(c.error), SmaElectrical(c, dc), StatusAware(""));
    LookupFirst(Filled(f, StatusAware("")), "pac", 5);
  }

  /** The temperature and the third-string readings of an SMA point are 0,
      and its time is that of the time's last row. */
  lemma SmaPointZeros(c: Carry, dc: Dc, g: Group, env: Env)
    ensures forall i :: 14 <= i < 17 ==> SmaPoint(c, dc, g, env).fields[i].val == Num(0.0)
    ensures SmaPoint(c, dc, g, env).fields[4].val == Num(0.0)
    ensures SmaPoint(c, dc, g, env).time == AsValue(Get(LastRow(g.rows), "time"))
  {
    InverterFilledNumbers(ToFloat(c.energy), CellText(c.status), CellText(c.error), SmaElectrical(c, dc), StatusAware(""));
  }

  /** A point is tagged with the device it was built for. */
  lemma SmaPointDevice(c: Carry, dc: Dc, g: Group, env: Env)
    ensures Lookup(SmaPoint(c, dc, g, env).tags, "device") == c.device
  {
    LookupFirst(SmaPoint(c, dc, g, env).tags, "device", 1);
  }

  /** The device of a time is its last serial number, cast to float, or the
      one an earlier time left; when that is empty, it is the piece after
      the first `:` of the time's first device id. The point is tagged with
      it. */
  lemma SmaStepDevice(c: Carry, g: Group, env: Env)
    ensures SmaStep(c, g, env).carry.device ==
      var d := LatestSerial(g.rows, c.device);
      if Empty(d) then AsValue(ExplodeSecond(CellText(Get(FirstRow(g.rows), "dev_id")), ":")) else d
    ensures Lookup(SmaStep(c, g, env).point.tags, "device") == SmaStep(c, g, env).carry.device
  {
    var s := ScanRows(Scan(c, ZeroDc), g.rows);
    ScanCarryLastWins(Scan(c, ZeroDc), g.rows);
    var settled := Settle(s.carry, g, env);
    SmaPointDevice(settled, DerivePower(s.dc), g, env);
  }

  /** A time without a `Pac` row repeats the AC power of the time before it. */
  lemma PacCarriesOver(groups: seq<Group>, env: Env, k: int)
    requires 0 < k < |groups|
    requires forall r :: r in groups[k].rows ==> !ParamIn(r, PacNames)
    ensures Lookup(SmaRun(groups, env).points[k].fields, "pac") == Lookup(SmaRun(groups, env).points[k - 1].fields, "pac")
  {
    SmaRunPacAt(groups, env, k);
    SmaRunPacAt(groups, env, k - 1);
    SmaRunSnoc(groups, env, k);
    SmaStepKeepsPac(SmaRun(groups[..k], env).carry, groups[k], env);
  }

  /** The AC power of the k-th point is the `Pac` value the first k + 1
      times leave. */
  lemma SmaRunPacAt(groups: seq<Group>, env: Env, k: int)
    requires 0 <= k < |groups|
    ensures Lookup(SmaRun(groups, env).points[k].fields, "pac") == Num(CellFloat(SmaRun(groups[..k + 1], env).carry.pac))
  {
    SmaRunAt(groups, env, k);
    SmaStepPac(SmaRun(groups[..k], env).carry, groups[k], env);
  }

  /** The AC power of a time's point is the `Pac` value the time leaves. */
  lemma SmaStepPac(c: Carry, g: Group, env: Env)
    ensures Lookup(SmaStep(c, g, env).point.fields, "pac") == Num(CellFloat(SmaStep(c, g, env).carry.pac))
  {
    var s := ScanRows(Scan(c, ZeroDc), g.rows);
    SmaPointPac(Settle(s.carry, g, env), DerivePower(s.dc), g, env);
  }

  /** A time without a `Pac` row leaves the AC power as it found it. */
  lemma SmaStepKeepsPac(c: Carry, g: Group, env: Env)
    requires forall r :: r in g.rows ==> !ParamIn(r, PacNames)
    ensures SmaStep(c, g, env).carry.pac == c.pac
  {
    ScanCarryLastWins(Scan(c, ZeroDc), g.rows);
    NoReading(g.rows, PacNames);
  }

  /** Rows none of which names a parameter give no reading of it. */
  lemma NoReading(rows: seq<Row>, names: seq<string>)
    requires forall r :: r in rows ==> !ParamIn(r, names)
    ensures LastAvg(rows, names) == None
  {
    forall k | 0 <= k < |rows| ensures !ParamIn(rows[k], names) {
      assert rows[k] in rows;
    }
  }

  /** Without a phase-A DC power reading the scan leaves that power 0, so
      the power is derived from the phase-A voltage and current. */
  lemma DerivedPowerDc(c: Carry, rows: seq<Row>)
    requires forall r :: r in rows ==> !ParamIn(r, Pdc1Names)
    ensures DerivePower(ScanRows(Scan(c, ZeroDc), rows).dc).pdc1 ==
      Num(Power(LatestValue(rows, Udc1Names, Num(0.0)), LatestValue(rows, Idc1Names, Num(0.0))))
  {
    var dc := ScanRows(Scan(c, ZeroDc), rows).dc;
    ScanDcLastWins(Scan(c, ZeroDc), rows);
    NoReading(rows, Pdc1Names);
    assert dc.pdc1 == Num(0.0);
  }

  /** The phase-A DC power field of a point is the scanned power. */
  lemma SmaPointPdc1(c: Carry, dc: Dc, g: Group, env: Env)
    ensures SmaPoint(c, dc, g, env).fields[8].val == Num(ToFloat(dc.pdc1))
  {
    var e := SmaElectrical(c, dc);
    InverterFilledNumbers(ToFloat(c.energy), CellText(c.status), CellText(c.error), e, StatusAware(""));
  }

  /** The phase-B DC power field of a point is the scanned power. */
  lemma SmaPointPdc2(c: Carry, dc: Dc, g: Group, env: Env)
    ensures SmaPoint(c, dc, g, env).fields[11].val == Num(ToFloat(dc.pdc2))
  {
    var e := SmaElectrical(c, dc);
    InverterFilledNumbers(ToFloat(c.energy), CellText(c.status), CellText(c.error), e, StatusAware(""));
  }

  /** The DC powers a time writes: when the last phase-A or the last
      phase-B power reading of the time is missing or empty, both are
      recomputed as voltage times current, so a reported phase-A power is
      overwritten whenever the phase-B one is missing; otherwise both
      readings are written as read. */
  lemma DerivedPowerPair(c: Carry, g: Group, env: Env)
    ensures var pdc1 := LatestValue(g.rows, Pdc1Names, Num(0.0));
      var pdc2 := LatestValue(g.rows, Pdc2Names, Num(0.0));
      (Empty(pdc1) || Empty(pdc2) ==>
        && SmaStep(c, g, env).point.fields[8].val ==
             Num(Power(LatestValue(g.rows, Udc1Names, Num(0.0)), LatestValue(g.rows, Idc1Names, Num(0.0))))
        && SmaStep(c, g, env).point.fields[11].val ==
             Num(Power(LatestValue(g.rows, Udc2Names, Num(0.0)), LatestValue(g.rows, Idc2Names, Num(0.0)))))
      && (!Empty(pdc1) && !Empty(pdc2) ==>
        && SmaStep(c, g, env).point.fields[8].val == Num(ToFloat(pdc1))
        && SmaStep(c, g, env).point.fields[11].val == Num(ToFloat(pdc2)))
  {
    var s := ScanRows(Scan(c, ZeroDc), g.rows);
    ScanDcLastWins(Scan(c, ZeroDc), g.rows);
    var settled := Settle(s.carry, g, env);
    SmaPointPdc1(settled, DerivePower(s.dc), g, env);
    SmaPointPdc2(settled, DerivePower(s.dc), g, env);
  }

  /** A time without a phase-A DC power reading gets the power derived from
      its own phase-A voltage and current (0 for a missing one). */
  lemma DerivedPowerWithoutWattRow(c: Carry, g: Group, env: Env)
    requires forall r :: r in g.rows ==> !ParamIn(r, Pdc1Names)
    ensures SmaStep(c, g, env).point.fields[8].val ==
      Num(Power(LatestValue(g.rows, Udc1Names, Num(0.0)), LatestValue(g.rows, Idc1Names, Num(0.0))))
  {
    var s := ScanRows(Scan(c, ZeroDc), g.rows);
    DerivedPowerDc(c, g.rows);
    SmaPointPdc1(Settle(s.carry, g, env), DerivePower(s.dc), g, env);
  }
}
