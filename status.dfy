/** findStatusForDevice: the status or error code of a device at a time,
    read from the events table of a solarlog plant or the status table of a
    kaco plant (ImportPowerPlantDataCommand.php, findStatusForDevice). The
    query itself is a parameter: `eventsFor(system, device, time)` stands for
    the rows the system's SELECT returns. */
module Status {
  import opened Php
  import opened Registry

  /** The `$type` argument: which of the two codes is wanted. */
  datatype Kind = StatusCode | ErrorCode

  /** What the function returns: FALSE for the SMA systems, which keep their
      codes in the data table, otherwise the cell that was read (NULL when
      the query found no row). */
  datatype Code = NotApplicable | Found(code: Cell)

  /** `current($data)[column]`: the column of the first row, NULL without rows. */
  function FirstColumn(rows: seq<Row>, column: string): Cell
  {
    if rows == [] then SqlNull else Get(rows[0], column)
  }

  function FindStatusForDevice(system: System, device: Cell, time: Cell, kind: Kind,
                               eventsFor: (System, Cell, Cell) -> seq<Row>): (r: Code)
    ensures r.NotApplicable? <==> system == Sma || system == Sma2
  {
    match system
    case Solarlog =>
      var rows := eventsFor(Solarlog, device, time);
      Found(FirstColumn(rows, if kind == StatusCode then "status" else "fehler"))
    case Kaco =>
      var rows := eventsFor(Kaco, device, time);
      Found(FirstColumn(rows, "S_OLD"))
    case _ => NotApplicable
  }

  /** `(string) $status` as the inverter point stores it. */
  function StatusText(l: Code): string
  {
    match l
    case NotApplicable => ""
    case Found(c) => CellText(c)
  }

  /** A kaco plant has a single code per device and time: the error is the
      status. */
  lemma KacoErrorIsStatus(device: Cell, time: Cell, eventsFor: (System, Cell, Cell) -> seq<Row>)
    ensures FindStatusForDevice(Kaco, device, time, ErrorCode, eventsFor) ==
            FindStatusForDevice(Kaco, device, time, StatusCode, eventsFor)
  {
  }

  /** A solarlog status comes from the `status` column and the error from
      `fehler`, both of the first matching event; kaco and solarlog give NULL
      when no row matches. */
  lemma StatusFromFirstEvent(system: System, device: Cell, time: Cell, kind: Kind,
                             eventsFor: (System, Cell, Cell) -> seq<Row>)
    requires system == Kaco || system == Solarlog
    ensures eventsFor(system, device, time) == [] ==>
      FindStatusForDevice(system, device, time, kind, eventsFor) == Found(SqlNull)
    ensures system == Solarlog && eventsFor(system, device, time) != [] ==>
      FindStatusForDevice(system, device, time, kind, eventsFor) ==
        Found(Get(eventsFor(system, device, time)[0], if kind == StatusCode then "status" else "fehler"))
  {
  }
}
