/** What the conversion reads besides the fetched rows: the command's
    arguments and options, and the lookups it makes into the MySQL source
    and the web application while it converts
    (ImportPowerPlantDataCommand.php, convertDataToInfluxPoints and
    createCentralInvPoints). The lookups are parameters of the model. */
module Context {
  import opened Php
  import opened Registry

  datatype Env = Env(
    /** The `tech_name` argument: the plant's name in the new system. */
    techName: string,
    /** The `centralInv` option, "" when it is not given. */
    centralInv: string,
    /** `findLoggerIpForDevice(tech_name, device)` of the web application. */
    loggerIp: Value -> Value,
    /** The rows of the status query findStatusForDevice runs for a system,
        a device and a time. */
    eventsFor: (System, Cell, Cell) -> seq<Row>,
    /** The `avg_val` of the first row of the energy-offset query the SMA
        inverter branch runs for a time and a device (the first reading of
        that day), NULL when the query returns no row; the corrected sma2
        branch runs the same query. */
    offsetFor: (System, string, Value) -> Cell)

  /** Where the command does something its authors evidently did not mean,
      the model keeps both readings: `AsWritten` follows the source line by
      line, `Corrected` does what was evidently intended; the conversion and
      the windowed imports take the variant as a parameter, and `AsWritten`
      is the command as it stands. The places are the sma2 inverter readings
      of the AC side, the energy offset and the device tag, the time of a
      central inverter point and the column filter of the wide all-data
      conversion. */
  datatype Variant = AsWritten | Corrected

  /** `!empty($input->getOption('centralInv'))` */
  predicate CentralMode(env: Env)
  {
    !Empty(Str(env.centralInv))
  }
}
