/** The dispatch of convertDataToInfluxPoints (ImportPowerPlantDataCommand.php)
    on the category and the system, and what each branch returns: a list
    of points, the two energy lists, or, for an SMA plant imported with a
    central inverter, the inverter and card lists of createCentralInvPoints. */
module Convert {
  import opened Php
  import opened Registry
  import opened Points
  import opened Grouping
  import opened Context
  import SensorConv = Sensors
  import EnergyConv = Energy
  import RowInverters
  import SmaInverters
  import Sma2Inverters
  import Central
  import AllDataConv = AllData

  /** `$points` as the conversion returns it. */
  datatype Converted =
    | Flat(points: seq<Point>)
    | DailyEnergy(dailyEnergy: seq<Point>, dailyInverter: seq<Point>)
    | CentralPoints(inverterPoints: seq<Point>, cardPoints: seq<Point>)

  function DailyOf(system: System, techName: string, data: seq<Row>): seq<Point>
  {
    seq(|data|, i requires 0 <= i < |data| => EnergyConv.DailyEnergyPoint(system, techName, data[i]))
  }

  function DailyInverterOf(system: System, techName: string, data: seq<Row>): seq<Point>
  {
    seq(|data|, i requires 0 <= i < |data| => EnergyConv.InverterEnergyPoint(system, techName, data[i]))
  }

  /** What each (category, system) branch returns for the fetched rows;
      `variant` says whether the slips listed among the findings are kept
      (`AsWritten`, the command as it stands) or corrected. */
  function ConvertedOf(variant: Variant, env: Env, data: seq<Row>, system: System, category: Category): Converted
  {
    match category
    case Sensors =>
      (match system
       case Sma => Flat(SensorConv.SmaSensorPointsOf(env.techName, GroupByTime(data, OnlyContaining("SENS"))))
       case Sma2 => Flat([])
       case _ => Flat(SensorConv.RowSensorPointsOf(system, env.techName, data)))
    case Energy => DailyEnergy(DailyOf(system, env.techName, data), DailyInverterOf(system, env.techName, data))
    case Inverters =>
      (match system
       case Sma =>
         var groups := GroupByTime(data, Without("SENS"));
         if CentralMode(env) then
           var o := Central.CentralRun(variant, groups, env);
           CentralPoints(o.inverterPoints, o.cardPoints)
         else Flat(SmaInverters.SmaRun(groups, env).points)
       case Sma2 => Flat(Sma2Inverters.Sma2InverterPointsOf(variant, data, env))
       case _ => Flat(RowInverters.RowInverterPointsOf(system, env, data)))
    case AllData =>
      (match system
       case Sma => Flat(AllDataConv.SmaAllRun(GroupByTime(data, Without("SENS")), env).points)
       case Sma2 =>
         var groups := GroupByTime(data, Without("WebBox"));
         Flat(AllDataConv.Sma2AllRun(variant, groups, Sma2Inverters.Devices(groups), env))
       case _ => Flat(AllDataConv.WideAllRun(variant, system, data, env).points))
  }

  /** convertDataToInfluxPoints. */
  method ConvertDataToInfluxPoints(variant: Variant, env: Env, data: seq<Row>, system: System, category: Category)
    returns (out: Converted)
    ensures out == ConvertedOf(variant, env, data, system, category)
  {
    match category {
      case Sensors =>
        if system == Kaco || system == Solarlog {
          var points := SensorConv.RowSensorPoints(system, env.techName, data);
          out := Flat(points);
        } else if system == Sma {
          var points := SensorConv.SmaSensorPoints(env.techName, data);
          out := Flat(points);
        } else {
          out := Flat([]);
        }
      case Energy =>
        var dailyEnergy, dailyInv := EnergyConv.EnergyPoints(system, env.techName, data);
        out := DailyEnergy(dailyEnergy, dailyInv);
      case Inverters =>
        if system == Sma {
          var dataPerTime := GroupRowsByTime(data, Without("SENS"));
          if CentralMode(env) {
            var inverterPoints, cardPoints := Central.CreateCentralInvPoints(variant, env, dataPerTime);
            out := CentralPoints(inverterPoints, cardPoints);
          } else {
            var points := SmaInverters.SmaInverterPoints(env, dataPerTime);
            out := Flat(points);
          }
        } else if system == Sma2 {
          var points := Sma2Inverters.Sma2InverterPoints(variant, env, data);
          out := Flat(points);
        } else {
          var points := RowInverters.RowInverterPoints(system, env, data);
          out := Flat(points);
        }
      case AllData =>
        if system == Sma {
          var points := AllDataConv.SmaAllDataPoints(env, data);
          out := Flat(points);
        } else if system == Sma2 {
          var points := AllDataConv.Sma2AllDataPoints(variant, env, data);
          out := Flat(points);
        } else {
          var points := AllDataConv.WideAllDataPoints(variant, system, env, data);
          out := Flat(points);
        }
    }
  }

  /** `count($points)` summed over the lists the import writes. */
  function Written(c: Converted): nat
  {
    match c
    case Flat(ps) => |ps|
    case DailyEnergy(d, i) => |d| + |i|
    case CentralPoints(i, c) => |i| + |c|
  }

  /** The shape of the result: two energy lists exactly for the energy
      category, two central lists exactly for SMA inverters with a central
      inverter, one list otherwise. */
  lemma ConvertedShape(variant: Variant, env: Env, data: seq<Row>, system: System, category: Category)
    ensures ConvertedOf(variant, env, data, system, category).DailyEnergy? <==> category == Category.Energy
    ensures ConvertedOf(variant, env, data, system, category).CentralPoints? <==>
      category == Inverters && system == Sma && CentralMode(env)
  {
  }

  // ---------------------------------------------------------------------
  // How many points a batch holds
  // ---------------------------------------------------------------------

  /** The rows of a plant's narrow table that pass a device filter. */
  function KeptCount(rows: seq<Row>, f: DeviceFilter): nat
  {
    if rows == [] then 0 else KeptCount(Init(rows), f) + (if Keeps(f, Last(rows)) then 1 else 0)
  }

  lemma {:induction false} RowCountUpdate(groups: seq<Group>, i: int, g: Group)
    requires 0 <= i < |groups|
    ensures Central.GroupsRowCount(groups[i := g]) == Central.GroupsRowCount(groups) - |groups[i].rows| + |g.rows|
  {
    var u := groups[i := g];
    if i < |groups| - 1 {
      assert Init(u) == Init(groups)[i := g];
      RowCountUpdate(Init(groups), i, g);
    } else {
      assert Init(u) == Init(groups);
    }
  }

  lemma RowCountAddRow(groups: seq<Group>, row: Row)
    ensures Central.GroupsRowCount(AddRow(groups, row)) == Central.GroupsRowCount(groups) + 1
  {
    var i := IndexOfTime(groups, TimeKey(row));
    if i < 0 {
      assert Init(AddRow(groups, row)) == groups;
    } else {
      RowCountUpdate(groups, i, Group(groups[i].time, groups[i].rows + [row]));
    }
  }

  /** Grouping by time loses no row that passes the filter. */
  lemma {:induction false} GroupedRowCount(rows: seq<Row>, f: DeviceFilter)
    ensures Central.GroupsRowCount(GroupByTime(rows, f)) == KeptCount(rows, f)
  {
    if rows != [] {
      GroupedRowCount(Init(rows), f);
      if Keeps(f, Last(rows)) {
        RowCountAddRow(GroupByTime(Init(rows), f), Last(rows));
      }
    }
  }

  /** How many points each branch writes: one per row for the wide tables
      (less the sensorbox rows of all_data), two per energy row, one per
      time for the SMA sensors and inverters and the SMA all_data, one per
      time and device for sma2, none for sma2 sensors, and, with a central
      inverter, one per SMA row that is not a sensor's. */
  lemma ConvertedCount(variant: Variant, env: Env, data: seq<Row>, system: System, category: Category)
    ensures Written(ConvertedOf(variant, env, data, system, category)) ==
      match category
      case Sensors =>
        (match system
         case Sma => |GroupByTime(data, OnlyContaining("SENS"))|
         case Sma2 => 0
         case _ => |data|)
      case Energy => 2 * |data|
      case Inverters =>
        (match system
         case Sma =>
           if CentralMode(env) then KeptCount(data, Without("SENS"))
           else |GroupByTime(data, Without("SENS"))|
         case Sma2 =>
           |GroupByTime(data, Without("WebBox"))| * |Sma2Inverters.Devices(GroupByTime(data, Without("WebBox")))|
         case _ => |data|)
      case AllData =>
        (match system
         case Sma => |GroupByTime(data, Without("SENS"))|
         case Sma2 =>
           |GroupByTime(data, Without("WebBox"))| * |Sma2Inverters.Devices(GroupByTime(data, Without("WebBox")))|
         case _ => |data| - AllDataConv.SensorboxRows(data, SqlNull))
  {
    match category {
      case Inverters =>
        if system == Sma && CentralMode(env) {
          var groups := GroupByTime(data, Without("SENS"));
          Central.CentralPartition(variant, groups, env);
          GroupedRowCount(data, Without("SENS"));
        }
      case AllData =>
        if system == Kaco || system == Solarlog {
          AllDataConv.WideCount(variant, system, data, env);
        }
      case _ =>
    }
  }
}
