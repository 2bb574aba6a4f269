/** The row grouper of the narrow SMA and SMA2 schemas, where each row holds
    one parameter of one device at one time: rows that pass a device-id
    filter are bucketed by their `time` value into `$dataPerTime`
    (ImportPowerPlantDataCommand.php, the first loop of each SMA and SMA2
    branch of convertDataToInfluxPoints). */
module Grouping {
  import opened Php
  import opened Registry

  /** `$row['dev_param'] == name` */
  predicate ParamIs(row: Row, name: string)
  {
    Get(row, "dev_param") == Text(name)
  }

  /** The row's parameter is one of `names`. */
  predicate ParamIn(row: Row, names: seq<string>)
  {
    Get(row, "dev_param").Text? && Get(row, "dev_param").text in names
  }

  /** The `avg_val` of the last row whose parameter is one of `names`. */
  function LastAvg(rows: seq<Row>, names: seq<string>): (r: Option<Cell>)
    ensures r.None? <==> forall k :: 0 <= k < |rows| ==> !ParamIn(rows[k], names)
    ensures r.Some? ==> exists k :: (0 <= k < |rows| && ParamIn(rows[k], names) &&
      r.value == Get(rows[k], "avg_val") && forall j :: k < j < |rows| ==> !ParamIn(rows[j], names))
  {
    if rows == [] then None
    else if ParamIn(Last(rows), names) then Some(Get(Last(rows), "avg_val"))
    else
      var r := LastAvg(Init(rows), names);
      assert forall k :: 0 <= k < |rows| - 1 ==> rows[k] == Init(rows)[k];
      r
  }

  /** `$rows[0]` and the `$row` a finished `foreach ($rows as $row)` leaves
      behind; an empty row (every column NULL) stands for an undefined
      index. */
  function FirstRow(rows: seq<Row>): Row
  {
    if rows == [] then [] else rows[0]
  }

  function LastRow(rows: seq<Row>): Row
  {
    if rows == [] then [] else Last(rows)
  }

  /** One entry of `$dataPerTime`: the array key and the rows under it. */
  datatype Group = Group(time: string, rows: seq<Row>)

  /** The `strpos($row['dev_id'], marker)` test each branch applies first:
      keep only the rows whose device id contains the marker (sensor
      grouping, `SENS`) or only those whose device id does not (inverter and
      all-data grouping, `SENS` for SMA and `WebBox` for SMA2). */
  datatype DeviceFilter = OnlyContaining(marker: string) | Without(marker: string)

  predicate Keeps(f: DeviceFilter, row: Row)
  {
    var hit := Contains(CellText(Get(row, "dev_id")), f.marker);
    if f.OnlyContaining? then hit else !hit
  }

  /** The array key `$row['time']` becomes (a NULL key is the empty string). */
  function TimeKey(row: Row): string
  {
    CellText(Get(row, "time"))
  }

  function Times(groups: seq<Group>): (ts: seq<string>)
    ensures |ts| == |groups|
    ensures forall i :: 0 <= i < |groups| ==> ts[i] == groups[i].time
  {
    seq(|groups|, i requires 0 <= i < |groups| => groups[i].time)
  }

  /** Position of the group with key `t`, or -1 when there is none yet. */
  function IndexOfTime(groups: seq<Group>, t: string): (r: int)
    ensures -1 <= r < |groups|
    ensures r == -1 <==> t !in Times(groups)
    ensures r >= 0 ==> groups[r].time == t
  {
    if groups == [] then -1
    else if Last(groups).time == t then |groups| - 1
    else
      assert Times(groups) == Times(groups[..|groups| - 1]) + [Last(groups).time];
      IndexOfTime(groups[..|groups| - 1], t)
  }

  function Last<T>(s: seq<T>): T
    requires s != []
  {
    s[|s| - 1]
  }

  function Init<T>(s: seq<T>): seq<T>
    requires s != []
  {
    s[..|s| - 1]
  }

  /** `$dataPerTime[$row['time']][] = $row`. */
  function AddRow(groups: seq<Group>, row: Row): seq<Group>
  {
    var i := IndexOfTime(groups, TimeKey(row));
    if i < 0 then groups + [Group(TimeKey(row), [row])]
    else groups[i := Group(groups[i].time, groups[i].rows + [row])]
  }

  /** The whole grouping loop, as a function of the rows seen so far. */
  function GroupByTime(rows: seq<Row>, f: DeviceFilter): seq<Group>
  {
    if rows == [] then []
    else
      var groups := GroupByTime(Init(rows), f);
      if Keeps(f, Last(rows)) then AddRow(groups, Last(rows)) else groups
  }

  /** The first grouping loop of each narrow-schema branch. */
  method GroupRowsByTime(data: seq<Row>, f: DeviceFilter) returns (dataPerTime: seq<Group>)
    ensures dataPerTime == GroupByTime(data, f)
  {
    dataPerTime := [];
    var i := 0;
    while i < |data|
      invariant 0 <= i <= |data|
      invariant dataPerTime == GroupByTime(data[..i], f)
    {
      assert Init(data[..i + 1]) == data[..i] && Last(data[..i + 1]) == data[i];
      if Keeps(f, data[i]) {
        dataPerTime := AddRow(dataPerTime, data[i]);
      }
      i := i + 1;
    }
    assert data[..i] == data;
  }

  // ---------------------------------------------------------------------
  // What the grouping promises
  // ---------------------------------------------------------------------

  /** The keys of the rows that pass the filter, in arrival order. */
  function KeptTimes(rows: seq<Row>, f: DeviceFilter): seq<string>
  {
    if rows == [] then []
    else KeptTimes(Init(rows), f) + (if Keeps(f, Last(rows)) then [TimeKey(Last(rows))] else [])
  }

  /** The rows that pass the filter and carry key `t`, in arrival order. */
  function Select(rows: seq<Row>, f: DeviceFilter, t: string): seq<Row>
  {
    if rows == [] then []
    else Select(Init(rows), f, t) + (if Keeps(f, Last(rows)) && TimeKey(Last(rows)) == t then [Last(rows)] else [])
  }

  /** The distinct elements of a sequence, each where it first occurs. */
  function FirstSeen<T(==,!new)>(s: seq<T>): (d: seq<T>)
    ensures forall x :: x in d <==> x in s
  {
    if s == [] then []
    else
      var d := FirstSeen(Init(s));
      assert s == Init(s) + [Last(s)];
      if Last(s) in d then d else d + [Last(s)]
  }

  predicate Distinct<T(==,!new)>(s: seq<T>)
  {
    forall i, j :: 0 <= i < j < |s| ==> s[i] != s[j]
  }

  lemma {:induction false} SelectAbsent(rows: seq<Row>, f: DeviceFilter, t: string)
    requires t !in KeptTimes(rows, f)
    ensures Select(rows, f, t) == []
  {
    if rows != [] {
      SelectAbsent(Init(rows), f, t);
    }
  }

  lemma {:induction false} FirstSeenDistinct<T(!new)>(s: seq<T>)
    ensures Distinct(FirstSeen(s))
  {
    if s != [] {
      FirstSeenDistinct(Init(s));
    }
  }

  lemma AddRowTimes(groups: seq<Group>, row: Row)
    ensures TimeKey(row) in Times(groups) ==> Times(AddRow(groups, row)) == Times(groups)
    ensures TimeKey(row) !in Times(groups) ==> Times(AddRow(groups, row)) == Times(groups) + [TimeKey(row)]
  {
  }

  /** The groups' keys are the distinct times of the kept rows, in the order
      in which each first appears. */
  lemma {:induction false} GroupTimes(rows: seq<Row>, f: DeviceFilter)
    ensures Times(GroupByTime(rows, f)) == FirstSeen(KeptTimes(rows, f))
    ensures Distinct(Times(GroupByTime(rows, f)))
  {
    FirstSeenDistinct(KeptTimes(rows, f));
    if rows != [] {
      var init, r := Init(rows), Last(rows);
      GroupTimes(init, f);
      var gs := GroupByTime(init, f);
      var kept := KeptTimes(init, f);
      if Keeps(f, r) {
        AddRowTimes(gs, r);
        assert KeptTimes(rows, f) == kept + [TimeKey(r)];
        assert Init(kept + [TimeKey(r)]) == kept;
        assert FirstSeen(KeptTimes(rows, f)) ==
          if TimeKey(r) in FirstSeen(kept) then FirstSeen(kept) else FirstSeen(kept) + [TimeKey(r)];
      } else {
        assert KeptTimes(rows, f) == kept;
      }
    }
  }

  /** Each group holds exactly the kept rows with its key, in arrival order,
      and no group is empty. */
  lemma {:induction false} GroupContents(rows: seq<Row>, f: DeviceFilter)
    ensures forall i :: 0 <= i < |GroupByTime(rows, f)| ==>
      GroupByTime(rows, f)[i].rows == Select(rows, f, GroupByTime(rows, f)[i].time) &&
      GroupByTime(rows, f)[i].rows != []
  {
    if rows != [] {
      var init, r := Init(rows), Last(rows);
      GroupContents(init, f);
      GroupTimes(init, f);
      var gs := GroupByTime(init, f);
      var gs' := GroupByTime(rows, f);
      if Keeps(f, r) {
        var t := TimeKey(r);
        var i := IndexOfTime(gs, t);
        if i < 0 {
          assert t !in KeptTimes(init, f);
          SelectAbsent(init, f, t);
          forall j | 0 <= j < |gs'|
            ensures gs'[j].rows == Select(rows, f, gs'[j].time) && gs'[j].rows != []
          {
            if j < |gs| {
              assert gs'[j] == gs[j];
              assert Times(gs)[j] != t;
            }
          }
        } else {
          forall j | 0 <= j < |gs'|
            ensures gs'[j].rows == Select(rows, f, gs'[j].time) && gs'[j].rows != []
          {
            if j != i {
              assert gs'[j] == gs[j];
              assert Times(gs)[j] != Times(gs)[i];
            }
          }
        }
      }
    }
  }
}
