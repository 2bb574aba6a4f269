/** The schema registry: the candidate table names of each monitoring system,
    the existence filter applied to them, and the choice of the table each
    import reads (ImportPowerPlantDataCommand.php, getTableNames,
    checkIfTablesExist and the table-selection loops of the import methods). */
module Registry {
  import opened Php

  /** The four legacy monitoring systems the command knows. */
  datatype System = Kaco | Sma | Sma2 | Solarlog

  /** The four kinds of conversion (`$type` of convertDataToInfluxPoints). */
  datatype Category = Sensors | Inverters | Energy | AllData

  datatype Result<T> = Ok(value: T) | UnknownSystem(name: string)

  datatype Option<T> = None | Some(value: T)

  /** The `system` argument as the command's switch statements read it. */
  function ParseSystem(name: string): (r: Option<System>)
    ensures r.Some? <==> name in {"kaco", "sma", "sma2", "solarlog"}
  {
    if name == "kaco" then Some(Kaco)
    else if name == "sma" then Some(Sma)
    else if name == "sma2" then Some(Sma2)
    else if name == "solarlog" then Some(Solarlog)
    else None
  }

  /** A table name built around the plant's legacy name. */
  function Around(prefix: string, oldName: string, suffix: string): (t: string)
    ensures Contains(t, oldName)
    ensures Contains(t, suffix)
  {
    var t := prefix + oldName + suffix;
    assert OccursAt(t, oldName, |prefix|);
    assert OccursAt(t, suffix, |prefix| + |oldName|);
    t
  }

  /** The fixed candidate list of getTableNames, before the existence check;
      any other system is an error. */
  function CandidateTables(system: string, oldName: string): Result<seq<string>>
  {
    match ParseSystem(system)
    case None => UnknownSystem(system)
    case Some(Kaco) =>
      Ok([Around("KACO_", oldName, "_ana"), Around("KACO_", oldName, "_energy"),
          Around("KACO_", oldName, "_kwr"), Around("KACO_", oldName, "_irr"),
          Around("KACO_", oldName, "_status"), Around("utility_", oldName, "")])
    case Some(Sma) =>
      Ok([Around("data_", oldName, ""), Around("energy_", oldName, ""),
          Around("irr_", oldName, ""), Around("live_", oldName, ""),
          Around("offset_", oldName, ""), Around("utility_", oldName, "")])
    case Some(Sma2) =>
      Ok([Around("SMA2_", oldName, "_data"), Around("SMA2_", oldName, "_energy"),
          Around("SMA2_", oldName, "_irr"), Around("SMA2_", oldName, "_live"),
          Around("SMA2_", oldName, "_offset"), Around("_utility", oldName, "")])
    case Some(Solarlog) =>
      Ok([Around("SOLARLOG_", oldName, "_devices"), Around("SOLARLOG_", oldName, "_energy"),
          Around("SOLARLOG_", oldName, "_events"), Around("SOLARLOG_", oldName, "_irr"),
          Around("SOLARLOG_", oldName, "_min"), Around("SOLARLOG_", oldName, "_sens"),
          Around("utility_", oldName, "")])
  }

  /** kaco, sma and sma2 have six candidate tables, solarlog seven, each
      built around the legacy name; every other system is refused. */
  lemma CandidateTablesShape(system: string, oldName: string)
    ensures CandidateTables(system, oldName).UnknownSystem? <==> ParseSystem(system).None?
    ensures system in {"kaco", "sma", "sma2"} ==> |CandidateTables(system, oldName).value| == 6
    ensures system == "solarlog" ==> |CandidateTables(system, oldName).value| == 7
    ensures CandidateTables(system, oldName).Ok? ==>
      forall t :: t in CandidateTables(system, oldName).value ==> Contains(t, oldName)
  {
  }

  /** The candidates the existence probe accepts, in their original order. */
  function Existing(tables: seq<string>, tableExists: string -> bool): (r: seq<string>)
    ensures |r| <= |tables|
    ensures forall t :: t in r <==> t in tables && tableExists(t)
  {
    if tables == [] then []
    else
      var init := tables[..|tables| - 1];
      var last := tables[|tables| - 1];
      assert tables == init + [last];
      Existing(init, tableExists) + (if tableExists(last) then [last] else [])
  }

  /** checkIfTablesExist: keeps each table for which `SHOW TABLES LIKE`
      returns a row (the probe `tableExists`). */
  method CheckIfTablesExist(tables: seq<string>, tableExists: string -> bool) returns (data: seq<string>)
    ensures data == Existing(tables, tableExists)
  {
    data := [];
    var i := 0;
    while i < |tables|
      invariant 0 <= i <= |tables|
      invariant data == Existing(tables[..i], tableExists)
    {
      assert tables[..i + 1][..i] == tables[..i];
      if tableExists(tables[i]) {
        data := data + [tables[i]];
      }
      i := i + 1;
    }
    assert tables[..i] == tables;
  }

  /** getTableNames: the candidates of the system that exist in the source. */
  method GetTableNames(oldName: string, system: string, tableExists: string -> bool)
    returns (r: Result<seq<string>>)
    ensures r.UnknownSystem? <==> ParseSystem(system).None?
    ensures r.Ok? ==> r.value == Existing(CandidateTables(system, oldName).value, tableExists)
  {
    var candidates := CandidateTables(system, oldName);
    if candidates.UnknownSystem? {
      return UnknownSystem(system);
    }
    var data := CheckIfTablesExist(candidates.value, tableExists);
    return Ok(data);
  }

  /** The substring that marks the table an import reads, or None when the
      import has nothing to read for that system (sma2 has no sensor data). */
  function SelectionMarker(category: Category, system: System): Option<string>
  {
    match category
    case Energy => Some("energy")
    case Sensors =>
      (match system
       case Kaco => Some("ana")
       case Sma => Some("data")
       case Sma2 => None
       case Solarlog => Some("sens"))
    case _ =>
      (match system
       case Kaco => Some("kwr")
       case Sma => Some("data")
       case Sma2 => Some("data")
       case Solarlog => Some("min"))
  }

  /** The table-selection `foreach`: every table whose name contains the
      marker overwrites `$queryTable`, so the last one listed wins. */
  method SelectTable(tables: seq<string>, marker: string) returns (queryTable: Option<string>)
    ensures queryTable.None? <==> forall k :: 0 <= k < |tables| ==> !Contains(tables[k], marker)
    ensures queryTable.Some? ==>
      exists j :: 0 <= j < |tables| && tables[j] == queryTable.value && Contains(tables[j], marker) &&
        forall k :: j < k < |tables| ==> !Contains(tables[k], marker)
  {
    queryTable := None;
    var i := 0;
    var j := 0;
    while i < |tables|
      invariant 0 <= i <= |tables|
      invariant queryTable.None? <==> forall k :: 0 <= k < i ==> !Contains(tables[k], marker)
      invariant queryTable.Some? ==>
        0 <= j < i && tables[j] == queryTable.value && Contains(tables[j], marker) &&
        forall k :: j < k < i ==> !Contains(tables[k], marker)
    {
      if Contains(tables[i], marker) {
        queryTable := Some(tables[i]);
        j := i;
      }
      i := i + 1;
    }
  }
}
