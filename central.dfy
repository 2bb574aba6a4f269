/** createCentralInvPoints: the `inverters` conversion of the SMA `data_`
    table when a central inverter is configured. Every row of the central
    inverter gives an inverter point, every other row a card point tagged
    with the central inverter as its father (ImportPowerPlantDataCommand.php,
    createCentralInvPoints).

    The readings live in plain local variables shared by the inverter and
    the cards and never reset, so a point repeats whatever earlier rows left
    in the variables it does not read itself. The fields are the raw cells,
    without casts and without the zero fill of the other branches. */
module Central {
  import opened Php
  import opened Points
  import opened Grouping
  import opened Context

  /** `$energy`, `$status`, `$error`, `$pac`, `$uac`, `$iac`, `$igrid` and
      `$idc1` … `$idc8`; `$status` and `$error` are shared by the inverter
      and the cards. */
  datatype Carry = Carry(energy: Cell, status: Cell, error: Cell, pac: Cell, uac: Cell, iac: Cell,
                         igrid: Cell, idc1: Cell, idc2: Cell, idc3: Cell, idc4: Cell,
                         idc5: Cell, idc6: Cell, idc7: Cell, idc8: Cell)

  const Unset: Carry := Carry(SqlNull, SqlNull, SqlNull, SqlNull, SqlNull, SqlNull, SqlNull,
                              SqlNull, SqlNull, SqlNull, SqlNull, SqlNull, SqlNull, SqlNull, SqlNull)

  /** A row of the central inverter. */
  function ApplyInverterRow(c: Carry, row: Row): Carry
  {
    var v := Get(row, "avg_val");
    if ParamIs(row, "E-heute") then c.(energy := v)
    else if ParamIs(row, "Mode") then c.(status := v)
    else if ParamIs(row, "Error") then c.(error := v)
    else if ParamIs(row, "Pac") then c.(pac := v)
    else if ParamIs(row, "Vpv") then c.(uac := v)
    else if ParamIs(row, "Iac") then c.(iac := v)
    else c
  }

  /** A row of a controller card (device id containing `SCS`). */
  function ApplyControllerRow(c: Carry, row: Row): Carry
  {
    var v := Get(row, "avg_val");
    if ParamIs(row, "Mode") then c.(status := v)
    else if ParamIs(row, "Error") then c.(error := v)
    else if ParamIs(row, "MeanCurGr1") then c.(igrid := v)
    else c
  }

  /** A row of a measurement card. */
  function ApplyCardRow(c: Carry, row: Row): Carry
  {
    var v := Get(row, "avg_val");
    if ParamIs(row, "Status") then c.(status := v)
    else if ParamIs(row, "Fehler") then c.(error := v)
    else if ParamIs(row, "IString 1") then c.(idc1 := v)
    else if ParamIs(row, "IString 2") then c.(idc2 := v)
    else if ParamIs(row, "IString 3") then c.(idc3 := v)
    else if ParamIs(row, "IString 4") then c.(idc4 := v)
    else if ParamIs(row, "IString 5") then c.(idc5 := v)
    else if ParamIs(row, "IString 6") then c.(idc6 := v)
    else if ParamIs(row, "IString 7") then c.(idc7 := v)
    else if ParamIs(row, "IString 8") then c.(idc8 := v)
    else c
  }

  /** `$row['dev_id'] == centralInv` */
  predicate IsCentral(row: Row, env: Env)
  {
    Get(row, "dev_id") == Text(env.centralInv)
  }

  /** `strpos($row['dev_id'], 'SCS') !== FALSE` */
  predicate IsController(row: Row)
  {
    Contains(CellText(Get(row, "dev_id")), "SCS")
  }

  const CentralKeys: seq<string> := InverterKeys
  const CardKeys: seq<string> :=
    ["type", "status", "error", "igrid", "idc1", "idc2", "idc3", "idc4", "idc5", "idc6", "idc7", "idc8"]

  function CentralFields(c: Carry): Assoc
  {
    [Pair("type", Str("central_inv")), Pair("e_total", AsValue(c.energy)),
     Pair("status", AsValue(c.status)), Pair("error", AsValue(c.error)),
     Pair("temp", Null), Pair("pac", AsValue(c.pac)), Pair("uac", AsValue(c.uac)), Pair("iac", AsValue(c.iac)),
     Pair("pdc1", Null), Pair("udc1", Null), Pair("idc1", Null),
     Pair("pdc2", Null), Pair("udc2", Null), Pair("idc2", Null),
     Pair("pdc3", Null), Pair("udc3", Null), Pair("idc3", Null)]
  }

  function CardFields(c: Carry, kind: string): Assoc
  {
    [Pair("type", Str(kind)), Pair("status", AsValue(c.status)), Pair("error", AsValue(c.error)),
     Pair("igrid", AsValue(c.igrid)),
     Pair("idc1", AsValue(c.idc1)), Pair("idc2", AsValue(c.idc2)), Pair("idc3", AsValue(c.idc3)),
     Pair("idc4", AsValue(c.idc4)), Pair("idc5", AsValue(c.idc5)), Pair("idc6", AsValue(c.idc6)),
     Pair("idc7", AsValue(c.idc7)), Pair("idc8", AsValue(c.idc8))]
  }

  /** An inverter point, built from every variable as the row leaves it. As
      written its time is the row's `Time` column, which the SMA `data_`
      table (whose column is `time`) does not have; corrected it is the
      group's time, as for the card points. */
  function InverterPoint(variant: Variant, c: Carry, row: Row, time: string, env: Env): Point
  {
    var device := AsValue(Get(row, "dev_id"));
    Point(Null, DeviceTags(env.techName, device, env.loggerIp(device)), CentralFields(c),
          if variant == AsWritten then AsValue(Get(row, "Time")) else Str(time))
  }

  function CardPoint(c: Carry, row: Row, time: string, env: Env): Point
  {
    Point(Null,
          [Pair("power_plant", Str(env.techName)), Pair("device", AsValue(Get(row, "dev_id"))),
           Pair("father", Str(env.centralInv))],
          CardFields(c, if IsController(row) then "controller" else "card"),
          Str(time))
  }

  /** `['inverter_points' => $points, 'cards_points' => $cards]`, and the
      variables the rows so far have left. */
  datatype Out = Out(carry: Carry, inverterPoints: seq<Point>, cardPoints: seq<Point>)

  /** The body of the inner loop for one row. */
  function RowStep(variant: Variant, o: Out, row: Row, time: string, env: Env): Out
  {
    if IsCentral(row, env) then
      var c := ApplyInverterRow(o.carry, row);
      Out(c, o.inverterPoints + [InverterPoint(variant, c, row, time, env)], o.cardPoints)
    else
      var c := if IsController(row) then ApplyControllerRow(o.carry, row) else ApplyCardRow(o.carry, row);
      Out(c, o.inverterPoints, o.cardPoints + [CardPoint(c, row, time, env)])
  }

  function RowsRun(variant: Variant, o: Out, rows: seq<Row>, time: string, env: Env): Out
  {
    if rows == [] then o else RowStep(variant, RowsRun(variant, o, Init(rows), time, env), Last(rows), time, env)
  }

  function CentralRun(variant: Variant, groups: seq<Group>, env: Env): Out
  {
    if groups == [] then Out(Unset, [], [])
    else RowsRun(variant, CentralRun(variant, Init(groups), env), Last(groups).rows, Last(groups).time, env)
  }

  lemma RowsRunSnoc(variant: Variant, o: Out, rows: seq<Row>, time: string, env: Env, j: int)
    requires 0 <= j < |rows|
    ensures RowsRun(variant, o, rows[..j + 1], time, env) == RowStep(variant, RowsRun(variant, o, rows[..j], time, env), rows[j], time, env)
  {
    assert Init(rows[..j + 1]) == rows[..j];
  }

  lemma CentralRunSnoc(variant: Variant, groups: seq<Group>, env: Env, i: int)
    requires 0 <= i < |groups|
    ensures CentralRun(variant, groups[..i + 1], env) ==
      RowsRun(variant, CentralRun(variant, groups[..i], env), groups[i].rows, groups[i].time, env)
  {
    assert Init(groups[..i + 1]) == groups[..i];
  }

  method ConvertRows(variant: Variant, o: Out, g: Group, env: Env) returns (o': Out)
    ensures o' == RowsRun(variant, o, g.rows, g.time, env)
  {
    var rows := g.rows;
    o' := o;
    var j := 0;
    while j < |rows|
      invariant 0 <= j <= |rows|
      invariant o' == RowsRun(variant, o, rows[..j], g.time, env)
    {
      RowsRunSnoc(variant, o, rows, g.time, env, j);
      var row := rows[j];
      var c := o'.carry;
      if IsCentral(row, env) {
        c := ApplyInverterRow(c, row);
        o' := Out(c, o'.inverterPoints + [InverterPoint(variant, c, row, g.time, env)], o'.cardPoints);
      } else {
        if IsController(row) {
          c := ApplyControllerRow(c, row);
        } else {
          c := ApplyCardRow(c, row);
        }
        o' := Out(c, o'.inverterPoints, o'.cardPoints + [CardPoint(c, row, g.time, env)]);
      }
      j := j + 1;
    }
    assert rows[..j] == rows;
  }

  method CreateCentralInvPoints(variant: Variant, env: Env, dataPerTime: seq<Group>)
    returns (inverterPoints: seq<Point>, cardPoints: seq<Point>)
    ensures inverterPoints == CentralRun(variant, dataPerTime, env).inverterPoints
    ensures cardPoints == CentralRun(variant, dataPerTime, env).cardPoints
  {
    var o := Out(Unset, [], []);
    var i := 0;
    while i < |dataPerTime|
      invariant 0 <= i <= |dataPerTime|
      invariant o == CentralRun(variant, dataPerTime[..i], env)
    {
      CentralRunSnoc(variant, dataPerTime, env, i);
      o := ConvertRows(variant, o, dataPerTime[i], env);
      i := i + 1;
    }
    assert dataPerTime[..i] == dataPerTime;
    inverterPoints, cardPoints := o.inverterPoints, o.cardPoints;
  }

  // ---------------------------------------------------------------------
  // What the function promises
  // ---------------------------------------------------------------------

  /** Rows of the central inverter among `rows`. */
  function CentralCount(rows: seq<Row>, env: Env): nat
  {
    if rows == [] then 0 else CentralCount(Init(rows), env) + (if IsCentral(Last(rows), env) then 1 else 0)
  }

  function GroupsCentralCount(groups: seq<Group>, env: Env): nat
  {
    if groups == [] then 0 else GroupsCentralCount(Init(groups), env) + CentralCount(Last(groups).rows, env)
  }

  function GroupsRowCount(groups: seq<Group>): nat
  {
    if groups == [] then 0 else GroupsRowCount(Init(groups)) + |Last(groups).rows|
  }

  /** An inverter point names the central inverter, is of type
      `central_inv`, has the seventeen inverter fields in order and no
      temperature or DC readings. */
  predicate InverterShaped(p: Point, env: Env)
  {
    Lookup(p.tags, "device") == Str(env.centralInv) &&
    KeysOf(p.fields) == CentralKeys &&
    p.fields[0].val == Str("central_inv") &&
    p.fields[4].val == Null &&
    (forall i :: 8 <= i < 17 ==> p.fields[i].val == Null)
  }

  /** A card point has the central inverter as its father, names another
      device, has the twelve card fields in order and is a controller
      exactly when its device id contains `SCS`. */
  predicate CardShaped(p: Point, env: Env)
  {
    Lookup(p.tags, "father") == Str(env.centralInv) &&
    Lookup(p.tags, "device") != Str(env.centralInv) &&
    KeysOf(p.fields) == CardKeys &&
    (p.fields[0].val == Str("controller") || p.fields[0].val == Str("card")) &&
    (p.fields[0].val == Str("controller") <==> Contains(CellText(CellOf(Lookup(p.tags, "device"))), "SCS"))
  }

  /** The cell a tag value came from. */
  function CellOf(v: Value): Cell
  {
    if v.Str? then Text(v.s) else SqlNull
  }

  lemma InverterPointShaped(variant: Variant, c: Carry, row: Row, time: string, env: Env)
    requires IsCentral(row, env)
    ensures InverterShaped(InverterPoint(variant, c, row, time, env), env)
  {
    var p := InverterPoint(variant, c, row, time, env);
    CentralFieldKeys(c);
    LookupFirst(p.tags, "device", 1);
    assert p.fields == CentralFields(c);
    assert p.fields[0].val == Str("central_inv") && p.fields[4].val == Null;
    assert forall i :: 8 <= i < 17 ==> p.fields[i].val == Null;
  }

  lemma CentralFieldKeys(c: Carry)
    ensures KeysOf(CentralFields(c)) == CentralKeys
  {
    var f := CentralFields(c);
    assert forall i :: 0 <= i < 17 ==> f[i].key == CentralKeys[i];
  }

  lemma CardFieldKeys(c: Carry, kind: string)
    ensures KeysOf(CardFields(c, kind)) == CardKeys
  {
    var f := CardFields(c, kind);
    assert forall i :: 0 <= i < 12 ==> f[i].key == CardKeys[i];
  }

  lemma CardPointShaped(c: Carry, row: Row, time: string, env: Env)
    requires !IsCentral(row, env)
    ensures CardShaped(CardPoint(c, row, time, env), env)
  {
    var p := CardPoint(c, row, time, env);
    CardFieldKeys(c, if IsController(row) then "controller" else "card");
    LookupFirst(p.tags, "device", 1);
    LookupFirst(p.tags, "father", 2);
    assert CellOf(AsValue(Get(row, "dev_id"))) == Get(row, "dev_id");
  }

  /** One step keeps the counts and the shapes. */
  lemma RowStepKeeps(variant: Variant, o: Out, row: Row, time: string, env: Env)
    ensures var o' := RowStep(variant, o, row, time, env);
      |o'.inverterPoints| == |o.inverterPoints| + (if IsCentral(row, env) then 1 else 0) &&
      |o'.inverterPoints| + |o'.cardPoints| == |o.inverterPoints| + |o.cardPoints| + 1 &&
      ((forall p :: p in o.inverterPoints ==> InverterShaped(p, env)) ==>
         (forall p :: p in o'.inverterPoints ==> InverterShaped(p, env))) &&
      ((forall p :: p in o.cardPoints ==> CardShaped(p, env)) ==>
         (forall p :: p in o'.cardPoints ==> CardShaped(p, env)))
  {
    if IsCentral(row, env) {
      InverterPointShaped(variant, ApplyInverterRow(o.carry, row), row, time, env);
    } else {
      var c := if IsController(row) then ApplyControllerRow(o.carry, row) else ApplyCardRow(o.carry, row);
      CardPointShaped(c, row, time, env);
    }
  }

  predicate WellShaped(o: Out, env: Env)
  {
    (forall p :: p in o.inverterPoints ==> InverterShaped(p, env)) &&
    (forall p :: p in o.cardPoints ==> CardShaped(p, env))
  }

  lemma {:induction false} RowsRunKeeps(variant: Variant, o: Out, rows: seq<Row>, time: string, env: Env)
    requires WellShaped(o, env)
    ensures WellShaped(RowsRun(variant, o, rows, time, env), env)
    ensures |RowsRun(variant, o, rows, time, env).inverterPoints| == |o.inverterPoints| + CentralCount(rows, env)
    ensures |RowsRun(variant, o, rows, time, env).inverterPoints| + |RowsRun(variant, o, rows, time, env).cardPoints| ==
      |o.inverterPoints| + |o.cardPoints| + |rows|
  {
    if rows != [] {
      RowsRunKeeps(variant, o, Init(rows), time, env);
      RowStepKeeps(variant, RowsRun(variant, o, Init(rows), time, env), Last(rows), time, env);
    }
  }

  /** Every row gives exactly one point: one inverter point per row of the
      central inverter and one card point per other row; every inverter
      point names the central inverter and every card point has it as its
      father and names another device. */
  lemma {:induction false} CentralPartition(variant: Variant, groups: seq<Group>, env: Env)
    ensures WellShaped(CentralRun(variant, groups, env), env)
    ensures |CentralRun(variant, groups, env).inverterPoints| == GroupsCentralCount(groups, env)
    ensures |CentralRun(variant, groups, env).inverterPoints| + |CentralRun(variant, groups, env).cardPoints| ==
      GroupsRowCount(groups)
  {
    if groups != [] {
      CentralPartition(variant, Init(groups), env);
      RowsRunKeeps(variant, CentralRun(variant, Init(groups), env), Last(groups).rows, Last(groups).time, env);
    }
  }

  /** A card point's status is its own row's reading when the row is the
      card's status row (`Mode` for a controller, `Status` for a measurement
      card); otherwise it repeats the status the previous row left, whether
      that row was the central inverter's or another card's. */
  lemma CardStatus(variant: Variant, o: Out, row: Row, time: string, env: Env)
    requires !IsCentral(row, env)
    ensures var p := Last(RowStep(variant, o, row, time, env).cardPoints);
      Lookup(p.fields, "status") ==
        if (IsController(row) && ParamIs(row, "Mode")) || (!IsController(row) && ParamIs(row, "Status"))
        then AsValue(Get(row, "avg_val"))
        else AsValue(o.carry.status)
  {
    var c := if IsController(row) then ApplyControllerRow(o.carry, row) else ApplyCardRow(o.carry, row);
    LookupFirst(CardPoint(c, row, time, env).fields, "status", 1);
  }

  // ---------------------------------------------------------------------
  // The time of an inverter point
  // ---------------------------------------------------------------------

  /** Every point's time is NULL (as written) or one of the group keys
      (corrected). */
  predicate TimesAre(variant: Variant, ps: seq<Point>, keys: seq<string>)
  {
    forall p :: p in ps ==> if variant == AsWritten then p.time == Null else p.time.Str? && p.time.s in keys
  }

  predicate NoTimeColumn(groups: seq<Group>)
  {
    forall g, r :: g in groups && r in g.rows ==> !Isset(r, "Time")
  }

  lemma {:induction false} RowsRunTimes(variant: Variant, o: Out, rows: seq<Row>, time: string, keys: seq<string>, env: Env)
    requires forall r :: r in rows ==> !Isset(r, "Time")
    requires time in keys
    requires TimesAre(variant, o.inverterPoints, keys)
    ensures TimesAre(variant, RowsRun(variant, o, rows, time, env).inverterPoints, keys)
  {
    if rows != [] {
      assert forall r :: r in Init(rows) ==> r in rows;
      RowsRunTimes(variant, o, Init(rows), time, keys, env);
      assert Last(rows) in rows;
    }
  }

  /** As written, on SMA rows (which have no `Time` column) every inverter
      point has time NULL; corrected, every inverter point has the time of
      its group. */
  lemma {:induction false} CentralTimes(variant: Variant, groups: seq<Group>, env: Env)
    requires NoTimeColumn(groups)
    ensures TimesAre(variant, CentralRun(variant, groups, env).inverterPoints, Times(groups))
  {
    if groups != [] {
      var init := Init(groups);
      assert NoTimeColumn(init) by {
        forall g, r | g in init && r in g.rows ensures !Isset(r, "Time") {
          assert g in groups;
        }
      }
      CentralTimes(variant, init, env);
      assert forall t :: t in Times(init) ==> t in Times(groups) by {
        forall t | t in Times(init) ensures t in Times(groups) {
          var i :| 0 <= i < |init| && Times(init)[i] == t;
          assert Times(groups)[i] == t;
        }
      }
      assert Times(groups)[|groups| - 1] == Last(groups).time;
      assert Last(groups) in groups;
      RowsRunTimes(variant, CentralRun(variant, init, env), Last(groups).rows, Last(groups).time, Times(groups), env);
    }
  }
}
