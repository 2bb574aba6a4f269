/** The month-window loop shared by importAllData, importInvertersData and
    importSensorsData: the table's time span is read one month at a time,
    and each month's points are written to the sink as one batch.

    Time is an integer instant; `addMonths(t, n)` stands for PHP's
    `DateTime::modify('+n month')`, of which the model only assumes that
    adding zero months changes nothing and that adding more months gives a
    strictly later instant. */
module Windows {

  /** The calendar the model assumes of `modify('+n month')`. */
  ghost predicate Calendar(addMonths: (int, nat) -> int)
  {
    && (forall t :: addMonths(t, 0) == t)
    && (forall t, n, m :: n < m ==> addMonths(t, n) < addMonths(t, m))
  }

  /** One iteration's query bounds: `$currentDateMin` and `$currentDateMax`. */
  datatype Window = Window(start: int, end: int)

  /** The windows the loop visits from iteration `month` on, `prev` being the
      value of `$currentDateMin` that the loop condition tests: `$minDate`
      itself before the first iteration, and `$minDate + (month - 1)`
      months afterwards. */
  function WindowsFrom(minDate: int, maxDate: int, addMonths: (int, nat) -> int, month: nat, prev: int): seq<Window>
    requires Calendar(addMonths)
    requires prev == if month == 0 then minDate else addMonths(minDate, month - 1)
    decreases maxDate - prev, if month == 0 then 1 else 0
  {
    if prev < maxDate then
      var start := addMonths(minDate, month);
      assert month > 0 ==> addMonths(minDate, month - 1) < start;
      [Window(start, addMonths(start, 1))] + WindowsFrom(minDate, maxDate, addMonths, month + 1, start)
    else []
  }

  /** One iteration of the loop takes the next month's window. */
  lemma WindowsFromStep(minDate: int, maxDate: int, addMonths: (int, nat) -> int, month: nat, prev: int)
    requires Calendar(addMonths)
    requires prev == if month == 0 then minDate else addMonths(minDate, month - 1)
    requires prev < maxDate
    ensures month > 0 ==> addMonths(minDate, month - 1) < addMonths(minDate, month)
    ensures WindowsFrom(minDate, maxDate, addMonths, month, prev) ==
      [Window(addMonths(minDate, month), addMonths(addMonths(minDate, month), 1))] +
      WindowsFrom(minDate, maxDate, addMonths, month + 1, addMonths(minDate, month))
  {
  }

  function LastWindow(ws: seq<Window>): Window
    requires ws != []
  {
    ws[|ws| - 1]
  }

  /** Every window the loop queries, in order. */
  function PlannedWindows(minDate: int, maxDate: int, addMonths: (int, nat) -> int): seq<Window>
    requires Calendar(addMonths)
  {
    WindowsFrom(minDate, maxDate, addMonths, 0, minDate)
  }

  lemma {:induction false} WindowsFromAt(minDate: int, maxDate: int, addMonths: (int, nat) -> int, month: nat, prev: int)
    requires Calendar(addMonths)
    requires prev == if month == 0 then minDate else addMonths(minDate, month - 1)
    ensures forall i :: 0 <= i < |WindowsFrom(minDate, maxDate, addMonths, month, prev)| ==>
      WindowsFrom(minDate, maxDate, addMonths, month, prev)[i] ==
        Window(addMonths(minDate, month + i), addMonths(addMonths(minDate, month + i), 1))
    decreases maxDate - prev, if month == 0 then 1 else 0
  {
    if prev < maxDate {
      var start := addMonths(minDate, month);
      assert month > 0 ==> addMonths(minDate, month - 1) < start;
      WindowsFromAt(minDate, maxDate, addMonths, month + 1, start);
      var rest := WindowsFrom(minDate, maxDate, addMonths, month + 1, start);
      var ws := WindowsFrom(minDate, maxDate, addMonths, month, prev);
      assert ws == [Window(start, addMonths(start, 1))] + rest;
      forall i | 0 < i < |ws|
        ensures ws[i] == Window(addMonths(minDate, month + i), addMonths(addMonths(minDate, month + i), 1))
      {
        assert ws[i] == rest[i - 1];
        assert month + 1 + (i - 1) == month + i;
      }
    }
  }

  lemma {:induction false} WindowsFromBounds(minDate: int, maxDate: int, addMonths: (int, nat) -> int, month: nat, prev: int)
    requires Calendar(addMonths)
    requires prev == if month == 0 then minDate else addMonths(minDate, month - 1)
    ensures forall i :: 0 <= i < |WindowsFrom(minDate, maxDate, addMonths, month, prev)| - 1 ==>
      WindowsFrom(minDate, maxDate, addMonths, month, prev)[i].start < maxDate
    ensures prev < maxDate <==> |WindowsFrom(minDate, maxDate, addMonths, month, prev)| > 0
    ensures prev < maxDate ==> LastWindow(WindowsFrom(minDate, maxDate, addMonths, month, prev)).start >= maxDate
    decreases maxDate - prev, if month == 0 then 1 else 0
  {
    if prev < maxDate {
      var start := addMonths(minDate, month);
      assert month > 0 ==> addMonths(minDate, month - 1) < start;
      WindowsFromBounds(minDate, maxDate, addMonths, month + 1, start);
      var rest := WindowsFrom(minDate, maxDate, addMonths, month + 1, start);
      var ws := WindowsFrom(minDate, maxDate, addMonths, month, prev);
      assert ws == [Window(start, addMonths(start, 1))] + rest;
      forall i | 0 <= i < |ws| - 1
        ensures ws[i].start < maxDate
      {
        if i > 0 {
          assert ws[i] == rest[i - 1];
        } else {
          assert rest != [];
        }
      }
      if rest != [] {
        assert LastWindow(ws) == LastWindow(rest);
      }
    }
  }

  /** Window i starts `i` months after the minimum and ends one month after
      its own start. */
  lemma PlannedWindowsAt(minDate: int, maxDate: int, addMonths: (int, nat) -> int)
    requires Calendar(addMonths)
    ensures forall i :: 0 <= i < |PlannedWindows(minDate, maxDate, addMonths)| ==>
      PlannedWindows(minDate, maxDate, addMonths)[i] == Window(addMonths(minDate, i), addMonths(addMonths(minDate, i), 1))
  {
    WindowsFromAt(minDate, maxDate, addMonths, 0, minDate);
  }

  /** The loop emits nothing unless the minimum lies strictly before the
      maximum; otherwise it emits at least two windows, every window but the
      last starts before the maximum, and the last starts at or after it. */
  lemma PlannedWindowsCount(minDate: int, maxDate: int, addMonths: (int, nat) -> int)
    requires Calendar(addMonths)
    ensures minDate >= maxDate <==> PlannedWindows(minDate, maxDate, addMonths) == []
    ensures minDate < maxDate ==>
      && |PlannedWindows(minDate, maxDate, addMonths)| >= 2
      && LastWindow(PlannedWindows(minDate, maxDate, addMonths)).start >= maxDate
      && forall i :: 0 <= i < |PlannedWindows(minDate, maxDate, addMonths)| - 1 ==>
           PlannedWindows(minDate, maxDate, addMonths)[i].start < maxDate
  {
    WindowsFromBounds(minDate, maxDate, addMonths, 0, minDate);
    var ws := PlannedWindows(minDate, maxDate, addMonths);
    if minDate < maxDate {
      WindowsFromAt(minDate, maxDate, addMonths, 0, minDate);
      assert ws[0].start == addMonths(minDate, 0) == minDate;
    }
  }

  /** How the sink's answer ends an iteration: importSensorsData,
      importAllData and importInvertersData without a central inverter
      return FALSE on the first failed write; with a central inverter the
      failure is only reported and the loop goes on. */
  datatype ImportResult = Imported(count: nat) | WriteFailed

  function TotalPoints(ws: seq<Window>, pointsIn: Window -> nat): nat
  {
    if ws == [] then 0 else TotalPoints(ws[..|ws| - 1], pointsIn) + pointsIn(ws[|ws| - 1])
  }

  /** The `while ($currentDateMin < $maxDate)` loop. `pointsIn(w)` is the
      number of points converted from the rows fetched for window `w`,
      `written(w)` the sink's answer for that batch, and `visited` the
      windows queried, in order. */
  method MonthlyImport(minDate: int, maxDate: int, addMonths: (int, nat) -> int,
                       pointsIn: Window -> nat, written: Window -> bool, abortOnFailure: bool)
    returns (result: ImportResult, visited: seq<Window>)
    requires Calendar(addMonths)
    ensures visited <= PlannedWindows(minDate, maxDate, addMonths)
    ensures forall k :: 0 <= k < |visited| - 1 ==> written(visited[k]) || !abortOnFailure
    ensures result.Imported? ==>
      && visited == PlannedWindows(minDate, maxDate, addMonths)
      && result.count == TotalPoints(visited, pointsIn)
      && (forall k :: 0 <= k < |visited| ==> written(visited[k]) || !abortOnFailure)
    ensures result.WriteFailed? ==>
      abortOnFailure && |visited| > 0 && !written(visited[|visited| - 1])
  {
    ghost var planned := PlannedWindows(minDate, maxDate, addMonths);
    var currentDateMin := minDate;
    var month: nat := 0;
    var numOfAllImportedPoints: nat := 0;
    visited := [];
    while currentDateMin < maxDate
      invariant currentDateMin == if month == 0 then minDate else addMonths(minDate, month - 1)
      invariant planned == visited + WindowsFrom(minDate, maxDate, addMonths, month, currentDateMin)
      invariant numOfAllImportedPoints == TotalPoints(visited, pointsIn)
      invariant forall k :: 0 <= k < |visited| ==> written(visited[k]) || !abortOnFailure
      decreases maxDate - currentDateMin, if month == 0 then 1 else 0
    {
      WindowsFromStep(minDate, maxDate, addMonths, month, currentDateMin);
      var start := addMonths(minDate, month);
      var w := Window(start, addMonths(start, 1));
      currentDateMin := start;
      ghost var before := visited;
      visited := visited + [w];
      assert planned == visited + WindowsFrom(minDate, maxDate, addMonths, month + 1, start);
      if !written(w) && abortOnFailure {
        return WriteFailed, visited;
      }
      assert visited[..|visited| - 1] == before;
      numOfAllImportedPoints := numOfAllImportedPoints + pointsIn(w);
      month := month + 1;
    }
    result := Imported(numOfAllImportedPoints);
  }

  // ---------------------------------------------------------------------
  // The query bounds
  // ---------------------------------------------------------------------

  /** The row filter of each window query: both bounds strict
      (`time > start AND time < end`). */
  predicate FetchedAsWritten(t: int, w: Window)
  {
    w.start < t < w.end
  }

  /** The table's earliest row is never fetched: no window has a start
      before the minimum timestamp. */
  lemma MinimumRowNeverFetched(minDate: int, maxDate: int, addMonths: (int, nat) -> int)
    requires Calendar(addMonths)
    ensures forall w :: w in PlannedWindows(minDate, maxDate, addMonths) ==> !FetchedAsWritten(minDate, w)
  {
    PlannedWindowsAt(minDate, maxDate, addMonths);
    var ws := PlannedWindows(minDate, maxDate, addMonths);
    forall w | w in ws
      ensures !FetchedAsWritten(minDate, w)
    {
      var i :| 0 <= i < |ws| && ws[i] == w;
      if i > 0 {
        assert addMonths(minDate, 0) < addMonths(minDate, i);
      }
    }
  }

  /** The windows as evidently intended, from the `i`-th on: half-open,
      each ending where the next begins, for as long as the start does not
      pass the maximum. */
  function HalfOpenFrom(minDate: int, maxDate: int, addMonths: (int, nat) -> int, i: nat): seq<Window>
    requires Calendar(addMonths)
    decreases maxDate - addMonths(minDate, i)
  {
    if addMonths(minDate, i) <= maxDate then
      assert addMonths(minDate, i) < addMonths(minDate, i + 1);
      [Window(addMonths(minDate, i), addMonths(minDate, i + 1))] + HalfOpenFrom(minDate, maxDate, addMonths, i + 1)
    else []
  }

  function HalfOpenWindows(minDate: int, maxDate: int, addMonths: (int, nat) -> int): seq<Window>
    requires Calendar(addMonths)
  {
    HalfOpenFrom(minDate, maxDate, addMonths, 0)
  }

  predicate FetchedHalfOpen(t: int, w: Window)
  {
    w.start <= t < w.end
  }

  lemma {:induction false} HalfOpenFromAt(minDate: int, maxDate: int, addMonths: (int, nat) -> int, i: nat, j: nat)
    requires Calendar(addMonths)
    requires j < |HalfOpenFrom(minDate, maxDate, addMonths, i)|
    ensures HalfOpenFrom(minDate, maxDate, addMonths, i)[j] == Window(addMonths(minDate, i + j), addMonths(minDate, i + j + 1))
    decreases j
  {
    if j > 0 {
      assert addMonths(minDate, i) < addMonths(minDate, i + 1);
      HalfOpenFromAt(minDate, maxDate, addMonths, i + 1, j - 1);
      assert i + 1 + (j - 1) == i + j;
    }
  }

  lemma {:induction false} HalfOpenFromEnd(minDate: int, maxDate: int, addMonths: (int, nat) -> int, i: nat)
    requires Calendar(addMonths)
    ensures addMonths(minDate, i + |HalfOpenFrom(minDate, maxDate, addMonths, i)|) > maxDate
    decreases maxDate - addMonths(minDate, i)
  {
    if addMonths(minDate, i) <= maxDate {
      assert addMonths(minDate, i) < addMonths(minDate, i + 1);
      HalfOpenFromEnd(minDate, maxDate, addMonths, i + 1);
      assert i + 1 + |HalfOpenFrom(minDate, maxDate, addMonths, i + 1)| == i + |HalfOpenFrom(minDate, maxDate, addMonths, i)|;
    }
  }

  /** The month in which instant `t` falls, counting from the minimum. */
  lemma {:induction false} MonthOf(minDate: int, addMonths: (int, nat) -> int, t: int, i: nat) returns (j: nat)
    requires Calendar(addMonths)
    requires addMonths(minDate, i) <= t
    ensures i <= j && addMonths(minDate, j) <= t < addMonths(minDate, j + 1)
    decreases t - addMonths(minDate, i)
  {
    if t < addMonths(minDate, i + 1) {
      j := i;
    } else {
      assert addMonths(minDate, i) < addMonths(minDate, i + 1);
      j := MonthOf(minDate, addMonths, t, i + 1);
    }
  }

  /** With half-open bounds every instant from the minimum to the maximum,
      both included, is fetched by exactly one window. */
  lemma HalfOpenWindowsCoverRange(minDate: int, maxDate: int, addMonths: (int, nat) -> int, t: int)
    requires Calendar(addMonths)
    requires minDate <= t <= maxDate
    ensures exists i :: (0 <= i < |HalfOpenWindows(minDate, maxDate, addMonths)| &&
      FetchedHalfOpen(t, HalfOpenWindows(minDate, maxDate, addMonths)[i]) &&
      forall j :: 0 <= j < |HalfOpenWindows(minDate, maxDate, addMonths)| && j != i ==>
        !FetchedHalfOpen(t, HalfOpenWindows(minDate, maxDate, addMonths)[j]))
  {
    var ws := HalfOpenWindows(minDate, maxDate, addMonths);
    HalfOpenFromEnd(minDate, maxDate, addMonths, 0);
    assert addMonths(minDate, 0) == minDate;
    var i := MonthOf(minDate, addMonths, t, 0);
    HalfOpenFromAt(minDate, maxDate, addMonths, 0, i);
    forall j | 0 <= j < |ws| && j != i
      ensures !FetchedHalfOpen(t, ws[j])
    {
      HalfOpenFromAt(minDate, maxDate, addMonths, 0, j);
      if j < i {
        assert addMonths(minDate, j + 1) <= addMonths(minDate, i);
      } else {
        assert addMonths(minDate, i + 1) <= addMonths(minDate, j);
      }
    }
  }
}
