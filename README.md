# Power-plant data import: a Dafny model of the normalisation engine

`ImportPowerPlantDataCommand.php` is a Symfony console command. It moves the
history of a solar power plant from the plant's legacy MySQL tables into
InfluxDB measurements. The legacy tables come in four schemas, one per data
logger: `kaco`, `sma`, `sma2` and `solarlog`. Inside the command sits a
normalisation engine, which this project models and proves properties of.
The engine:

- builds the list of candidate table names for a system and keeps those
  that exist (`getTableNames`, `checkIfTablesExist`);
- picks the table each import reads: the last one listed whose name holds
  the import's marker;
- walks the table's time span one month at a time;
- groups the narrow SMA and SMA2 rows by their `time` value;
- turns the rows of each category into InfluxDB points
  (`convertDataToInfluxPoints`). The categories are sensors, string
  inverters, energy and all data. An SMA plant with a central inverter goes
  through `createCentralInvPoints` instead.

Row cells are modelled as `SqlNull | Text(s)`, because mysqli returns every
column as a string or NULL. Point values are `Null | Bool | Str | Num(real)`.
PHP's `empty`, its `(float)` cast on decimal text, `explode`, `strpos` and
ordered associative arrays (overwrite in place, append a new key) are
written out in `php.dfy`.

Each loop of the source is a Dafny `method` with its loop invariants. Each
method is proved equal to a recursive specification function, and the
properties are proved as lemmas about those functions. The MySQL source,
the InfluxDB sink, the operator's answers, the logger-IP lookup and the
calendar are parameters.

Three facts about the code that a reader might not expect:

- a string-inverter point has seventeen fields;
- `createCentralInvPoints` emits one inverter point per row of the central
  inverter and one card point per other row;
- a table whose first and last times are equal gives no month window at
  all.

Where the command does something its authors evidently did not mean (see
"## Findings"), the conversion and the windowed imports take a `variant`:
`AsWritten` follows the source line by line and is the command as it
stands; `Corrected` does what was evidently intended. Every property below
that does not name a variant holds for both.

## Model

| member | source | states |
|---|---|---|
| Registry.ParseSystem | ImportPowerPlantDataCommand.php:160-209 | exactly `kaco`, `sma`, `sma2` and `solarlog` are systems |
| Registry.CandidateTablesShape | ImportPowerPlantDataCommand.php:157-211 | kaco, sma and sma2 have six candidates each and solarlog has seven, each built around the legacy name; any other system is refused |
| Registry.Existing | ImportPowerPlantDataCommand.php:220-232 | a table is kept exactly when it is a candidate the probe accepts, and there are no more kept tables than candidates |
| Registry.CheckIfTablesExist | ImportPowerPlantDataCommand.php:220-232 | the loop returns exactly the candidates that exist, in order |
| Registry.GetTableNames | ImportPowerPlantDataCommand.php:157-211 | an unknown system is an error; otherwise the result is the existing candidates of the system |
| Registry.SelectTable | ImportPowerPlantDataCommand.php:272-314 | no table is chosen exactly when no name holds the marker; otherwise the chosen table holds it and no later table does |
| Windows.WindowsFromAt | ImportPowerPlantDataCommand.php:334-362 | from month m on, window i starts m+i months after the minimum and ends one month after its own start |
| Windows.WindowsFromBounds | ImportPowerPlantDataCommand.php:334-362 | windows are emitted exactly while the previous start is before the maximum; every window but the last starts before the maximum, and the last starts at or after it |
| Windows.PlannedWindowsAt | ImportPowerPlantDataCommand.php:334-342 | window i runs from the minimum plus i months to one month after that |
| Windows.PlannedWindowsCount | ImportPowerPlantDataCommand.php:334-337 | no window when the minimum is not before the maximum; otherwise at least two, and only the last starts at or after the maximum |
| Windows.MonthlyImport | ImportPowerPlantDataCommand.php:334-362 | the loop visits a prefix of the planned windows; on success it visits all of them and returns the sum of the batch sizes; it fails only when aborting is on and the last visited write failed |
| Windows.MinimumRowNeverFetched | ImportPowerPlantDataCommand.php:343-349 | with both query bounds strict, no window fetches the table's earliest row |
| Windows.HalfOpenFromAt | ImportPowerPlantDataCommand.php:337-342 | the j-th half-open window runs from the minimum plus j months to the minimum plus j + 1 months |
| Windows.HalfOpenFromEnd | ImportPowerPlantDataCommand.php:337-342 | the half-open windows stop at the first month that starts after the maximum |
| Windows.HalfOpenWindowsCoverRange | ImportPowerPlantDataCommand.php:343-349 | with half-open bounds, every instant from the minimum to the maximum is fetched by exactly one window |
| Grouping.LastAvg | ImportPowerPlantDataCommand.php:903-930 | None exactly when no row names one of the parameters; otherwise the `avg_val` of the last row that does |
| Grouping.GroupRowsByTime | ImportPowerPlantDataCommand.php:889-893 | the bucketing loop returns the grouping function of the rows |
| Grouping.GroupTimes | ImportPowerPlantDataCommand.php:889-893 | the group keys are the distinct times of the kept rows, in first-seen order |
| Grouping.GroupContents | ImportPowerPlantDataCommand.php:889-893 | each group holds exactly the kept rows with its time, in arrival order, and is not empty |
| Grouping.AddRowTimes | ImportPowerPlantDataCommand.php:891 | adding a row with a known time keeps the keys; a new time is appended as the last key |
| Grouping.SelectAbsent | ImportPowerPlantDataCommand.php:889-893 | a time no kept row carries selects no row |
| Grouping.FirstSeenDistinct | ImportPowerPlantDataCommand.php:1004-1010 | first-seen order lists each element once |
| Points.FillFields | ImportPowerPlantDataCommand.php:870-878 | the in-place fill loop gives the filled fields |
| Points.FillKeepsKeys | ImportPowerPlantDataCommand.php:870-878 | the fill keeps every key in its place |
| Points.FillEntry | ImportPowerPlantDataCommand.php:870-878 | a non-empty value is unchanged; an empty status or error becomes the blank string; any other empty value becomes the float 0; no NULL survives |
| Points.FillIdempotent | ImportPowerPlantDataCommand.php:1084-1092 | filling twice gives the same fields as filling once |
| Points.FillKeepsNumbers | ImportPowerPlantDataCommand.php:706-713 | on all-float fields the sensor fill changes nothing |
| Points.InverterFilledKeys | ImportPowerPlantDataCommand.php:849-878 | a filled string-inverter point has its seventeen keys in the fixed order |
| Points.InverterFilledStatus | ImportPowerPlantDataCommand.php:870-878 | after the fill, type is `string_inv`, and status and error are strings, with an empty one replaced by '' or '0' |
| Points.InverterFilledNumbers | ImportPowerPlantDataCommand.php:870-878 | the inverter fill leaves every float field as it was |
| Php.EmptyCastsToZero | ImportPowerPlantDataCommand.php:1259 | every value PHP calls empty casts to the float 0 |
| Php.ExplodeSecond | ImportPowerPlantDataCommand.php:1054 | `explode($sep, $s)[1]` is NULL exactly when the separator does not occur |
| Php.Put | ImportPowerPlantDataCommand.php:1214 | assigning under a key overwrites in place or appends; the key then reads as the value and every other key is unchanged |
| Php.IndexKeyInjective | ImportPowerPlantDataCommand.php:1176 | distinct row positions give distinct field keys |
| Status.FindStatusForDevice | ImportPowerPlantDataCommand.php:1431-1458 | the lookup gives FALSE exactly for sma and sma2 |
| Status.KacoErrorIsStatus | ImportPowerPlantDataCommand.php:1441-1446 | on a kaco plant the error code is the status code |
| Status.StatusFromFirstEvent | ImportPowerPlantDataCommand.php:1433-1457 | solarlog reads `status` and `fehler` of the first event; kaco and solarlog give NULL when no event matches |
| Sensors.SensorFields | ImportPowerPlantDataCommand.php:698-705 | a sensor point has the four keys `sol_irr`, `temp_amb`, `temp_mod` and `wind`, all floats |
| Sensors.RowSensorPoints | ImportPowerPlantDataCommand.php:687-714 | the kaco and solarlog loop gives the row-by-row sensor points |
| Sensors.RowSensorPointsAt | ImportPowerPlantDataCommand.php:687-714 | one point per kaco or solarlog row, in row order, the i-th built from the i-th row alone |
| Sensors.BuildRowSensorPoint | ImportPowerPlantDataCommand.php:692-711 | the loop body builds the row's sensor point |
| Sensors.ScanSensorRows | ImportPowerPlantDataCommand.php:732-743 | the inner loop gives the scanned readings of the time's rows |
| Sensors.BuildSmaSensorPoint | ImportPowerPlantDataCommand.php:744-763 | the time's point is built from its scanned readings |
| Sensors.SensorPointShape | ImportPowerPlantDataCommand.php:692-710 | a sensor point is tagged with the plant and `sensorbox`, carries the four readings as floats in a fixed order, and keeps the row's time |
| Sensors.KacoMissingWindIsZero | ImportPowerPlantDataCommand.php:705 | a kaco row without a wind reading gets wind 0 |
| Sensors.SmaSensorPoints | ImportPowerPlantDataCommand.php:715-766 | the sma loop gives one sensor point per group of the rows whose device id holds `SENS` |
| Sensors.SmaSensorPointsAt | ImportPowerPlantDataCommand.php:715-766 | one point per time of those rows, in first-seen order, the k-th built from the k-th time's rows alone |
| Sensors.ScanReadingsLastWins | ImportPowerPlantDataCommand.php:731-744 | each of the four readings is the last matching row's value, 0 when no row names it |
| Energy.EnergyPoints | ImportPowerPlantDataCommand.php:803-830 | one `daily_energy` point and one `daily_energy_inverter` point per row, both in row order |
| Energy.EnergyFanOut | ImportPowerPlantDataCommand.php:805-828 | the two points of a row share value and day (`Date` for kaco, `date` otherwise) and have no fields; only the inverter point has a device tag, equal to `dev_id` |
| RowInverters.ConvertRow | ImportPowerPlantDataCommand.php:838-880 | the loop body builds the row's filled inverter point |
| RowInverters.RowInverterPoints | ImportPowerPlantDataCommand.php:834-883 | the kaco and solarlog loops give one point per row |
| RowInverters.RowInverterPointsAt | ImportPowerPlantDataCommand.php:1100-1150 | the i-th point is the i-th row's |
| RowInverters.RowInverterPointTags | ImportPowerPlantDataCommand.php:838-868 | a point carries the row's device and time |
| RowInverters.RowInverterPointFields | ImportPowerPlantDataCommand.php:838-880 | seventeen fields in order; status and error are the looked-up codes (solarlog's from the event's `status` and `fehler`), '' when empty and never '0'; kaco's error repeats its status |
| RowInverters.SolarlogMissingReadings | ImportPowerPlantDataCommand.php:1100-1150 | a solarlog point has AC voltage, AC current and DC currents 0 |
| SmaInverters.ScanGroup | ImportPowerPlantDataCommand.php:903-930 | the inner loop equals the scan function over the time's rows |
| SmaInverters.SmaInverterPoints | ImportPowerPlantDataCommand.php:901-990 | one point per time, each built from the variables the earlier times left |
| SmaInverters.SmaRunAt | ImportPowerPlantDataCommand.php:901-990 | the k-th point is built from the k-th time and the variables left by the times before it |
| SmaInverters.ApplyRowEffect | ImportPowerPlantDataCommand.php:903-930 | one row changes exactly the variable its parameter names |
| SmaInverters.ScanCarryLastWins | ImportPowerPlantDataCommand.php:903-930 | every carried variable (device as the float of the last serial number, energy, status, error and the AC readings) holds the time's last reading, or the previous time's value when the time has none |
| SmaInverters.SmaStepDevice | ImportPowerPlantDataCommand.php:903-939 | a time's device is its last serial number or the one carried over; when that is empty, the piece after `:` of the time's first `dev_id`; the point is tagged with it |
| SmaInverters.ScanDcLastWins | ImportPowerPlantDataCommand.php:902-930 | the DC variables depend on the time's own rows only: the last reading, 0 without one |
| SmaInverters.SmaPointFields | ImportPowerPlantDataCommand.php:951-988 | seventeen fields in order; status and error are the carried codes as strings, '' when empty and never '0' |
| SmaInverters.SmaPointPac | ImportPowerPlantDataCommand.php:963 | the `pac` field is the carried AC power |
| SmaInverters.SmaPointZeros | ImportPowerPlantDataCommand.php:951-988 | temperature and third-string readings are 0; the time is that of the time's last row |
| SmaInverters.SmaRunPacAt | ImportPowerPlantDataCommand.php:912-963 | the k-th point's AC power is the `Pac` value the first k + 1 times leave |
| SmaInverters.PacCarriesOver | ImportPowerPlantDataCommand.php:912-913 | a time without a `Pac` row repeats the previous time's AC power |
| SmaInverters.NoReading | ImportPowerPlantDataCommand.php:903-930 | rows that never name a parameter give no reading of it |
| SmaInverters.DerivedPowerPair | ImportPowerPlantDataCommand.php:902-935 | when the time's last phase-A or phase-B DC power is missing or empty, both `pdc1` and `pdc2` are voltage times current, even a reported `pdc1`; otherwise both are the readings |
| SmaInverters.DerivedPowerDc | ImportPowerPlantDataCommand.php:902-935 | without a phase-A power reading, the power is derived from the time's phase-A voltage and current |
| SmaInverters.SmaPointPdc1 | ImportPowerPlantDataCommand.php:966 | the `pdc1` field is the scanned phase-A power |
| SmaInverters.SmaPointPdc2 | ImportPowerPlantDataCommand.php:969 | the `pdc2` field is the scanned phase-B power |
| SmaInverters.DerivedPowerWithoutWattRow | ImportPowerPlantDataCommand.php:902-967 | a time without a phase-A power row writes the voltage times the current of its own rows as `pdc1` |
| Sma2Inverters.CollectDevices | ImportPowerPlantDataCommand.php:1003-1011 | the loop collects the distinct device ids of the first time only |
| Sma2Inverters.DevicesShape | ImportPowerPlantDataCommand.php:1003-1011 | each device is listed once, and exactly the first time's device ids are listed |
| Sma2Inverters.ScanRows | ImportPowerPlantDataCommand.php:1020-1051 | the inner loop applies exactly the rows of the device |
| Sma2Inverters.BuildSma2Point | ImportPowerPlantDataCommand.php:1054-1093 | the device's point is built from its scanned state and serial |
| Sma2Inverters.ConvertGroup | ImportPowerPlantDataCommand.php:1018-1096 | the device loop of one time gives one point per device |
| Sma2Inverters.Sma2InverterPoints | ImportPowerPlantDataCommand.php:994-1098 | the branch gives, in order, one point per time and device |
| Sma2Inverters.GroupRun | ImportPowerPlantDataCommand.php:1018-1096 | one point per device at a time |
| Sma2Inverters.Sma2Run | ImportPowerPlantDataCommand.php:1017-1097 | the number of points is the number of times times the number of devices |
| Sma2Inverters.GroupRunAt | ImportPowerPlantDataCommand.php:1018-1096 | the j-th point of a time is built for the j-th device |
| Sma2Inverters.Sma2RunStep | ImportPowerPlantDataCommand.php:1017-1097 | one more time appends that time's block of points |
| Sma2Inverters.Sma2RunPrefix | ImportPowerPlantDataCommand.php:1017-1097 | the points of the first times are a prefix of all the points |
| Sma2Inverters.GroupTagsAsWritten | ImportPowerPlantDataCommand.php:1054 | as written, every point of a time carries the serial number of the time's last row |
| Sma2Inverters.GroupTagsCorrected | ImportPowerPlantDataCommand.php:1054 | corrected, the j-th point carries the j-th device's own serial number |
| Sma2Inverters.SerialTagAsWrittenExample | ImportPowerPlantDataCommand.php:1054 | devices `WR:SN:1` and `WR:SN:2`: as written both points name serial 2 |
| Sma2Inverters.SerialTagCorrectedExample | ImportPowerPlantDataCommand.php:1054 | the same devices, corrected: the points name serials 1 and 2 |
| Sma2Inverters.ExplodeSerial | ImportPowerPlantDataCommand.php:1054 | the piece after `SN:` of `WR:SN:c` is `c` |
| Sma2Inverters.AcAsWritten | ImportPowerPlantDataCommand.php:1022-1037 | as written, the AC voltage and current hold only what the device's last row leaves |
| Sma2Inverters.AcCorrected | ImportPowerPlantDataCommand.php:1034-1037 | corrected, they are the sums of the device's phase-A and phase-B readings |
| Sma2Inverters.AcExample | ImportPowerPlantDataCommand.php:1022-1035 | two phase voltages a then b: as written the voltage is b; corrected it is a + b |
| Sma2Inverters.ApplyRowEnergy | ImportPowerPlantDataCommand.php:1024-1027 | a `Metering.TotWhOut` row sets the energy to its reading less the offset; every other row keeps the energy |
| Sma2Inverters.EnergyLastWins | ImportPowerPlantDataCommand.php:1020-1027 | a device's energy is its last total energy reading at the time less the offset, or the energy it started from when it has none |
| Sma2Inverters.EnergyField | ImportPowerPlantDataCommand.php:1065 | the point's `e_total` is the float of the scanned energy |
| Sma2Inverters.EnergyAsWritten | ImportPowerPlantDataCommand.php:1024-1027 | as written, a device that reports its total energy once at a time gets energy 0 and `e_total` 0, whatever it reported |
| Sma2Inverters.EnergyCorrected | ImportPowerPlantDataCommand.php:1024-1027 | corrected, such a device's energy and `e_total` are its reading less the first reading of that day |
| Sma2Inverters.Sma2PointShape | ImportPowerPlantDataCommand.php:1056-1092 | seventeen fields in order; an empty status or error becomes '0'; the AC readings are the scanned ones; the device tag is the serial number; the time is that of the time's last row |
| Central.ConvertRows | ImportPowerPlantDataCommand.php:1304-1415 | the row loop of one time equals the row-run function |
| Central.CreateCentralInvPoints | ImportPowerPlantDataCommand.php:1299-1418 | returns the inverter list and the card list of the run over all times |
| Central.InverterPointShaped | ImportPowerPlantDataCommand.php:1305-1350 | a row of the central inverter gives a `central_inv` point for that device, with the seventeen fields and no temperature or DC readings |
| Central.CentralFieldKeys | ImportPowerPlantDataCommand.php:1330-1348 | the central point's keys are the seventeen inverter keys |
| Central.CardFieldKeys | ImportPowerPlantDataCommand.php:1397-1410 | a card point has its twelve keys in order |
| Central.CardPointShaped | ImportPowerPlantDataCommand.php:1353-1413 | any other row gives a card with the central inverter as father, its own device, and type `controller` exactly when the id holds `SCS` |
| Central.RowStepKeeps | ImportPowerPlantDataCommand.php:1304-1415 | each row adds exactly one point, to the inverter list exactly when it is the central inverter's |
| Central.RowsRunKeeps | ImportPowerPlantDataCommand.php:1304-1415 | a time's rows keep the lists well shaped and add one inverter point per central row |
| Central.CentralPartition | ImportPowerPlantDataCommand.php:1299-1418 | there is one inverter point per central row and one card per other row, so the two counts sum to the row count; all points are well shaped |
| Central.CardStatus | ImportPowerPlantDataCommand.php:1355-1389 | a card's status is its own status row's reading, or the status the previous row left, central or not |
| Central.RowsRunTimes | ImportPowerPlantDataCommand.php:1349 | a time's rows keep every inverter time NULL (as written) or a group key (corrected) |
| Central.CentralTimes | ImportPowerPlantDataCommand.php:1349 | as written, every inverter point's time is NULL on SMA rows; corrected, it is its group's time |
| AllData.SmaAllRun | ImportPowerPlantDataCommand.php:1170-1186 | one all-data point per time |
| AllData.SmaAllDataPoints | ImportPowerPlantDataCommand.php:1159-1187 | the SMA all-data branch equals the run over the times without `SENS` rows |
| AllData.ScanSmaRows | ImportPowerPlantDataCommand.php:1172-1178 | the inner loop gives the scanned fields and device of the time's rows |
| AllData.SmaScanKeys | ImportPowerPlantDataCommand.php:1171-1178 | every field key is a row position within the time |
| AllData.SmaScanFields | ImportPowerPlantDataCommand.php:1171-1178 | each non-serial row's reading sits under its position; a serial-number row leaves no field |
| AllData.SmaScanDevice | ImportPowerPlantDataCommand.php:1173-1174 | the device is the time's last serial number, or the previous time's device |
| AllData.Sma2AllRun | ImportPowerPlantDataCommand.php:1209-1226 | one point per time and device |
| AllData.Sma2AllDataPoints | ImportPowerPlantDataCommand.php:1188-1227 | the sma2 all-data branch equals the run over the devices of the first time |
| AllData.CollectDeviceFields | ImportPowerPlantDataCommand.php:1212-1216 | the inner loop gives the device's fields |
| AllData.BuildGroupPoints | ImportPowerPlantDataCommand.php:1210-1225 | the device loop of one time gives one point per device |
| AllData.DeviceFieldsLastWins | ImportPowerPlantDataCommand.php:1212-1216 | under each parameter name is the device's last reading of it, NULL when it has none |
| AllData.WideColumns | ImportPowerPlantDataCommand.php:1252-1262 | the column loop gives the row's field list |
| AllData.WideAllDataPoints | ImportPowerPlantDataCommand.php:1228-1282 | the wide all-data branch equals the row run |
| AllData.WideCount | ImportPowerPlantDataCommand.php:1233-1280 | no point is the sensorbox's; the points and the sensorbox rows add up to the row count |
| AllData.WideFieldsColumn | ImportPowerPlantDataCommand.php:1252-1262 | each column lands under its own name with its converted value, or is absent when dropped |
| AllData.WideFieldsAbsent | ImportPowerPlantDataCommand.php:1252-1262 | a name no column has reads as NULL |
| AllData.CorrectedWideColumns | ImportPowerPlantDataCommand.php:1253-1259 | corrected, `ID` and `id` never become fields, and numeric text becomes its float |
| AllData.IdColumn | ImportPowerPlantDataCommand.php:1253 | an `ID` column of "7" is the field 7 as written and absent when corrected |
| AllData.NumberColumn | ImportPowerPlantDataCommand.php:1254-1257 | without a central inverter, "12" is dropped as written and the float 12 when corrected |
| AllData.MultibyteCharIsText | ImportPowerPlantDataCommand.php:1254-1257 | `strlen` counts bytes: a lone degree sign is long text, kept as a string with a central inverter and dropped without one |
| AllData.TwelveIsNumeric | ImportPowerPlantDataCommand.php:1259 | "12" is numeric text and casts to 12 |
| Convert.ConvertDataToInfluxPoints | ImportPowerPlantDataCommand.php:682-1292 | the dispatch returns each (category, system) branch's points, with the source's slips kept for `AsWritten` and corrected for `Corrected` |
| Convert.ConvertedShape | ImportPowerPlantDataCommand.php:826-896 | only energy gives the two energy lists; only SMA inverters with a central inverter give the inverter and card lists |
| Convert.GroupedRowCount | ImportPowerPlantDataCommand.php:889-893 | grouping by time loses none of the rows that pass the filter |
| Convert.ConvertedCount | ImportPowerPlantDataCommand.php:682-1292 | the number of points of every (category, system) pair, in terms of rows, times and devices |
| Imports.ImportWindowed | ImportPowerPlantDataCommand.php:262-314 | no confirmation or no table gives 0; otherwise the span import's outcome |
| Imports.ImportSpan | ImportPowerPlantDataCommand.php:316-366 | no span gives FALSE; a failed write of a planned window gives FALSE when the import aborts on failure; otherwise the sum of the batch sizes |
| Imports.ImportEnergyData | ImportPowerPlantDataCommand.php:513-559 | 0 without confirmation or table, FALSE on a failed write, otherwise two points per energy row |
| Imports.StartQueryAndWrite | ImportPowerPlantDataCommand.php:243-251 | the sum of the four imports' counts, a FALSE counting as 0 |
| Imports.NothingToImport | ImportPowerPlantDataCommand.php:598-601 | an sma2 plant has no sensor import, and a span whose minimum is not before its maximum imports nothing |
| Imports.BatchesAddUp | ImportPowerPlantDataCommand.php:482-496 | batch sizes that agree window by window give the same total |
| Imports.WideInverterCount | ImportPowerPlantDataCommand.php:453-499 | a kaco or solarlog inverter import fails exactly when a planned write fails, and otherwise counts every fetched row |

## Left out

- MySQL and InfluxDB are not modelled. `runMySQLQuery`, the SQL strings, `SHOW TABLES` and `writePreparedPoints` are foreign I/O. Query results, the existence probe and each write's success are parameters.
- The console is not modelled. `ConfirmationQuestion` answers are parameters; `ProgressBar` and `writeln` are output only.
- `execute`, `checkExistenceOfPP` and the web application's container services are not part of this model. `findLoggerIpForDevice` is a parameter.
- PHP `DateTime` is not modelled. Instants are integers. `modify('+n month')` is a parameter `addMonths`, of which only two things are assumed: adding zero months changes nothing, and adding more months gives a later instant. The parsing of the min/max strings is part of the span parameter.
- Windows.MonthlyImport: the window queries themselves are the `fetch` parameter. The rest of the model therefore depends on neither the strict bounds nor the half-open ones.
- Floating point is not modelled: `(float)` casts and `udc * idc` are exact reals.
- Php.ParseFloat reads only an optional sign, digits and one decimal point. Leading whitespace, exponents, hexadecimal and `INF`/`NAN` are not modelled.
- Php.NumericText is `is_numeric` on the same plain decimal forms only.
- PHP's loose comparisons are modelled strictly. That covers `==` on cells, `$dev != 'sensorbox'` and the device match of `array_search`. A numeric string that compares loosely equal to another spelling is treated as different.
- The integer keys of PHP arrays are modelled as their decimal strings. `$dataPerTime[$row['time']]` keys on the time text, with NULL as the empty string.
- `count()` of a missing list is taken as 0, as in PHP 7.
- The `Unknown type!` and `Unknown system!` exceptions inside the conversion and the imports cannot occur, because `System` and `Category` are closed types. The only unknown-system path kept is that of getTableNames.
- The central-inverter import reads `$points['inverters_points']` (line 471), while createCentralInvPoints returns the key `inverter_points` (line 1418). Only the converter's output is modelled, and Imports.BatchSize counts the inverter list it returns.
- The `count(...)+count(...)` messages inside string concatenations (lines 474, 485 and 556) are output only and are not modelled.
- The SMA E-total offset query (line 946), with its `date()` and `LIKE` matching, is the `offsetFor` parameter; the corrected sma2 branch uses the same parameter. The status events query is the `eventsFor` parameter.
- The sma2 offset query as written (line 1025) asks the table being converted for exactly the time and device being converted. Its answer is modelled as the first of that time's rows that is the device's `Metering.TotWhOut` reading, in the order the rows were fetched. MySQL leaves the order of rows with equal `time` open, so when a device reports its total energy more than once at one time, which of them the query returns is a choice of the model; Sma2Inverters.EnergyAsWritten assumes a single reading and so does not depend on it.

## Findings

| source | as written | input that shows it | evidently intended | confidence | as-written member | corrected member |
|---|---|---|---|---|---|---|
| ImportPowerPlantDataCommand.php:343-349 | each month query uses `time > start AND time < end` | the table's first row, at exactly the minimum time, or any row at a month boundary | half-open windows `start <= time < end` | not executed | Windows.MinimumRowNeverFetched | Windows.HalfOpenWindowsCoverRange |
| ImportPowerPlantDataCommand.php:1054 | the sma2 device tag is cut from `$row['dev_id']` after the row loop, i.e. from the time's last row | devices `WR:SN:1` and `WR:SN:2` at one time: both points are tagged `2` | each point tagged with its own device's serial number | not executed | Sma2Inverters.GroupTagsAsWritten | Sma2Inverters.GroupTagsCorrected |
| ImportPowerPlantDataCommand.php:1022-1037 | `$uac` and `$iac` are reset to 0 for every row of the device before `+=` | a device with `GridMs.PhV.phsA` = a and `GridMs.PhV.phsB` = b: the voltage written is b | the sum a + b of the phases | not executed | Sma2Inverters.AcAsWritten | Sma2Inverters.AcCorrected |
| ImportPowerPlantDataCommand.php:1024-1027 | the sma2 energy offset is read from `SMA2_<old>_data`, the table being converted, with `time` and `dev_id` equal to the row's own | a device with one `Metering.TotWhOut` reading of 5000 at a time: `$energy` = 5000 - 5000, and `e_total` is 0 | the reading less the first reading of that day, as in the SMA branch at line 946 | not executed | Sma2Inverters.EnergyAsWritten | Sma2Inverters.EnergyCorrected |
| ImportPowerPlantDataCommand.php:1349 | the central inverter point's time is `$row['Time']` | any SMA row (its column is `time`): the point's time is NULL | the time of the row's group | not executed | Central.CentralTimes | Central.CentralTimes |
| ImportPowerPlantDataCommand.php:1253 | `$key != 'ID' \|\| $key != 'id'` holds for every key | a row with column `ID` = "7": the point gets a field `ID` = 7 | `ID` and `id` left out | not executed | AllData.IdColumn | AllData.CorrectedWideColumns |
| ImportPowerPlantDataCommand.php:1254-1257 | every string longer than one character is kept only with a central inverter, and mysqli returns numbers as strings | a kaco row with `PAC` = "12" and no central inverter: the field is dropped | numeric text stored as a float | not executed | AllData.NumberColumn | AllData.CorrectedWideColumns |
