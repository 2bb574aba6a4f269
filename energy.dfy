/** The `energy` conversion: every row of a plant's energy table becomes two
    points, a plant-level daily-energy point and a per-inverter one
    (ImportPowerPlantDataCommand.php, convertDataToInfluxPoints, case
    'energy'). */
module Energy {
  import opened Php
  import opened Registry
  import opened Points

  /** The day of an energy row: `Date` for kaco, `date` for every other system. */
  function DayOf(system: System, row: Row): Value
  {
    AsValue(Get(row, if system == Kaco then "Date" else "date"))
  }

  /** The plant-level point: the template with the row's energy as value. */
  function DailyEnergyPoint(system: System, techName: string, row: Row): Point
  {
    Template.(value := Num(CellFloat(Get(row, "energy"))),
              tags := [Pair("power_plant", Str(techName))],
              time := DayOf(system, row))
  }

  /** The per-inverter point: the same, tagged with the row's device id. */
  function InverterEnergyPoint(system: System, techName: string, row: Row): Point
  {
    Template.(value := Num(CellFloat(Get(row, "energy"))),
              tags := [Pair("power_plant", Str(techName)), Pair("device", AsValue(Get(row, "dev_id")))],
              time := DayOf(system, row))
  }

  /** The two loops of the energy branch, giving `daily_energy` and
      `daily_energy_inverter`. */
  method EnergyPoints(system: System, techName: string, data: seq<Row>)
    returns (dailyEnergy: seq<Point>, dailyInv: seq<Point>)
    ensures |dailyEnergy| == |data| && |dailyInv| == |data|
    ensures forall i :: 0 <= i < |data| ==> dailyEnergy[i] == DailyEnergyPoint(system, techName, data[i])
    ensures forall i :: 0 <= i < |data| ==> dailyInv[i] == InverterEnergyPoint(system, techName, data[i])
  {
    dailyEnergy := [];
    var i := 0;
    while i < |data|
      invariant 0 <= i <= |data|
      invariant |dailyEnergy| == i
      invariant forall k :: 0 <= k < i ==> dailyEnergy[k] == DailyEnergyPoint(system, techName, data[k])
    {
      var point := Template;
      point := point.(value := Num(CellFloat(Get(data[i], "energy"))));
      point := point.(tags := [Pair("power_plant", Str(techName))]);
      if system == Kaco {
        point := point.(time := AsValue(Get(data[i], "Date")));
      } else {
        point := point.(time := AsValue(Get(data[i], "date")));
      }
      dailyEnergy := dailyEnergy + [point];
      i := i + 1;
    }
    dailyInv := [];
    i := 0;
    while i < |data|
      invariant 0 <= i <= |data|
      invariant |dailyInv| == i
      invariant forall k :: 0 <= k < i ==> dailyInv[k] == InverterEnergyPoint(system, techName, data[k])
    {
      var point := Template;
      point := point.(value := Num(CellFloat(Get(data[i], "energy"))));
      point := point.(tags := [Pair("power_plant", Str(techName)), Pair("device", AsValue(Get(data[i], "dev_id")))]);
      if system == Kaco {
        point := point.(time := AsValue(Get(data[i], "Date")));
      } else {
        point := point.(time := AsValue(Get(data[i], "date")));
      }
      dailyInv := dailyInv + [point];
      i := i + 1;
    }
  }

  /** The two points of a row agree on value and day and have no fields; the
      inverter point adds the device tag after the plant tag, and an empty
      energy cell gives the value 0. */
  lemma EnergyFanOut(system: System, techName: string, row: Row)
    ensures InverterEnergyPoint(system, techName, row).value == DailyEnergyPoint(system, techName, row).value
    ensures InverterEnergyPoint(system, techName, row).time == DailyEnergyPoint(system, techName, row).time
    ensures InverterEnergyPoint(system, techName, row).tags ==
      DailyEnergyPoint(system, techName, row).tags + [Pair("device", AsValue(Get(row, "dev_id")))]
    ensures DailyEnergyPoint(system, techName, row).fields == [] && InverterEnergyPoint(system, techName, row).fields == []
    ensures EmptyCell(Get(row, "energy")) ==> DailyEnergyPoint(system, techName, row).value == Num(0.0)
  {
    if EmptyCell(Get(row, "energy")) {
      EmptyCastsToZero(AsValue(Get(row, "energy")));
    }
  }
}
