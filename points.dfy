/** The InfluxDB point the command builds for every measurement, the field
    list of an inverter point, and the zero-fill pass that runs over a point's
    fields before it is collected (ImportPowerPlantDataCommand.php, the
    `$point` template and the `foreach ($point['fields'] ...)` loops of
    convertDataToInfluxPoints). */
module Points {
  import opened Php

  /** One point: a value, its tags, its fields and its timestamp. */
  datatype Point = Point(value: Value, tags: Assoc, fields: Assoc, time: Value)

  /** `self::$point`: no value, no tags, no fields, no time. */
  const Template: Point := Point(Null, [], [], Null)

  /** The two zero-fill loops: the sensor loop only replaces empty values by
      the float 0; the inverter loop first replaces an empty `status` or
      `error` by a blank string ('' for kaco, sma and solarlog, '0' for sma2). */
  datatype FillRule = NumericOnly | StatusAware(blank: string)

  function FillValue(key: string, v: Value, rule: FillRule): Value
  {
    if rule.StatusAware? && (key == "status" || key == "error") && Empty(v) then Str(rule.blank)
    else if Empty(v) then Num(0.0)
    else v
  }

  /** The fields once every entry has been passed through the fill rule. */
  function Filled(fields: Assoc, rule: FillRule): (r: Assoc)
    ensures |r| == |fields|
    ensures forall i :: 0 <= i < |r| ==> r[i] == Pair(fields[i].key, FillValue(fields[i].key, fields[i].val, rule))
  {
    seq(|fields|, i requires 0 <= i < |fields| => Pair(fields[i].key, FillValue(fields[i].key, fields[i].val, rule)))
  }

  /** The fill loop itself: each entry is overwritten under its own key. */
  method FillFields(fields: Assoc, rule: FillRule) returns (filled: Assoc)
    ensures filled == Filled(fields, rule)
    ensures KeysOf(filled) == KeysOf(fields)
  {
    filled := fields;
    var i := 0;
    while i < |fields|
      invariant 0 <= i <= |fields|
      invariant |filled| == |fields|
      invariant forall k :: 0 <= k < i ==> filled[k] == Filled(fields, rule)[k]
      invariant forall k :: i <= k < |fields| ==> filled[k] == fields[k]
    {
      var key, value := fields[i].key, fields[i].val;
      filled := filled[i := Pair(key, FillValue(key, value, rule))];
      i := i + 1;
    }
    SameKeys(filled, fields);
  }

  /** The fill keeps every key in its place. */
  lemma FillKeepsKeys(fields: Assoc, rule: FillRule)
    ensures KeysOf(Filled(fields, rule)) == KeysOf(fields)
  {
    SameKeys(Filled(fields, rule), fields);
  }

  /** What the fill does to one entry: a value PHP does not call empty is
      left alone, an empty value becomes the blank string under `status` and
      `error` of an inverter point and the float 0 elsewhere, and no NULL
      survives. */
  lemma FillEntry(fields: Assoc, rule: FillRule, i: int)
    requires 0 <= i < |fields|
    ensures !Empty(fields[i].val) ==> Filled(fields, rule)[i].val == fields[i].val
    ensures Empty(fields[i].val) && rule.StatusAware? && fields[i].key in {"status", "error"} ==>
      Filled(fields, rule)[i].val == Str(rule.blank)
    ensures Empty(fields[i].val) && !(rule.StatusAware? && fields[i].key in {"status", "error"}) ==>
      Filled(fields, rule)[i].val == Num(0.0)
    ensures Filled(fields, rule)[i].val != Null
  {
  }

  /** Running the fill loop twice changes nothing more. */
  lemma FillIdempotent(fields: Assoc, rule: FillRule)
    ensures Filled(Filled(fields, rule), rule) == Filled(fields, rule)
  {
  }

  predicate AllNumbers(fields: Assoc)
  {
    forall i :: 0 <= i < |fields| ==> fields[i].val.Num?
  }

  /** On fields that are all floats the sensor fill is the identity: an empty
      float already is the float 0. */
  lemma FillKeepsNumbers(fields: Assoc)
    requires AllNumbers(fields)
    ensures Filled(fields, NumericOnly) == fields
  {
  }

  // ---------------------------------------------------------------------
  // Inverter points
  // ---------------------------------------------------------------------

  /** The thirteen float readings of a string-inverter point. */
  datatype Electrical = Electrical(
    temp: real, pac: real, uac: real, iac: real,
    pdc1: real, udc1: real, idc1: real,
    pdc2: real, udc2: real, idc2: real,
    pdc3: real, udc3: real, idc3: real)

  /** The field keys of every string-inverter point, in order. */
  const InverterKeys: seq<string> :=
    ["type", "e_total", "status", "error", "temp", "pac", "uac", "iac",
     "pdc1", "udc1", "idc1", "pdc2", "udc2", "idc2", "pdc3", "udc3", "idc3"]

  /** The `fields` array of a string-inverter point before the fill. */
  function InverterFields(eTotal: real, status: string, error: string, e: Electrical): Assoc
  {
    [Pair("type", Str("string_inv")), Pair("e_total", Num(eTotal)),
     Pair("status", Str(status)), Pair("error", Str(error)),
     Pair("temp", Num(e.temp)), Pair("pac", Num(e.pac)), Pair("uac", Num(e.uac)), Pair("iac", Num(e.iac)),
     Pair("pdc1", Num(e.pdc1)), Pair("udc1", Num(e.udc1)), Pair("idc1", Num(e.idc1)),
     Pair("pdc2", Num(e.pdc2)), Pair("udc2", Num(e.udc2)), Pair("idc2", Num(e.idc2)),
     Pair("pdc3", Num(e.pdc3)), Pair("udc3", Num(e.udc3)), Pair("idc3", Num(e.idc3))]
  }

  /** The tags of an inverter or all-data point. */
  function DeviceTags(techName: string, device: Value, loggerIp: Value): Assoc
  {
    [Pair("power_plant", Str(techName)), Pair("device", device), Pair("logger_ip", loggerIp)]
  }

  /** A string-inverter point once its fields have been filled keeps the
      seventeen keys in their fixed order. */
  lemma InverterFilledKeys(eTotal: real, status: string, error: string, e: Electrical, rule: FillRule)
    ensures KeysOf(Filled(InverterFields(eTotal, status, error, e), rule)) == InverterKeys
  {
    var f := InverterFields(eTotal, status, error, e);
    FillKeepsKeys(f, rule);
    assert forall i :: 0 <= i < 17 ==> f[i].key == InverterKeys[i];
    assert KeysOf(f) == InverterKeys;
  }

  /** After the inverter fill `type` is 'string_inv', and `status` and
      `error` are strings, an empty one replaced by the blank. */
  lemma InverterFilledStatus(eTotal: real, status: string, error: string, e: Electrical, blank: string)
    requires blank in {"", "0"}
    ensures Lookup(Filled(InverterFields(eTotal, status, error, e), StatusAware(blank)), "type") == Str("string_inv")
    ensures Lookup(Filled(InverterFields(eTotal, status, error, e), StatusAware(blank)), "status") ==
      Str(if status in {"", "0"} then blank else status)
    ensures Lookup(Filled(InverterFields(eTotal, status, error, e), StatusAware(blank)), "error") ==
      Str(if error in {"", "0"} then blank else error)
  {
    var r := Filled(InverterFields(eTotal, status, error, e), StatusAware(blank));
    LookupFirst(r, "type", 0);
    LookupFirst(r, "status", 2);
    LookupFirst(r, "error", 3);
  }

  /** The inverter fill leaves every float field as it was: an empty float
      already is the float 0. */
  lemma InverterFilledNumbers(eTotal: real, status: string, error: string, e: Electrical, rule: FillRule)
    ensures Filled(InverterFields(eTotal, status, error, e), rule)[1] == InverterFields(eTotal, status, error, e)[1]
    ensures forall i :: 4 <= i < 17 ==>
      Filled(InverterFields(eTotal, status, error, e), rule)[i] == InverterFields(eTotal, status, error, e)[i]
  {
  }
}
