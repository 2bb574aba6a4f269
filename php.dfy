/** The slice of PHP value semantics the import command relies on: the cells a
    MySQL query hands back, loosely typed values, `empty()`, the `(float)` and
    `(string)` casts, `strpos`, `explode`, and ordered associative arrays (the
    rows read from MySQL and the tags and fields of a point). */
module Php {

  /** A column value as the MySQL driver returns it: NULL or text. */
  datatype Cell = SqlNull | Text(text: string)

  /** A PHP value as it is stored in a point's tags and fields. Integers and
      floats are both numbers here. */
  datatype Value = Null | Bool(b: bool) | Str(s: string) | Num(r: real)

  function AsValue(c: Cell): Value
  {
    match c
    case SqlNull => Null
    case Text(s) => Str(s)
  }

  /** PHP `empty()`: null, false, "", "0" and zero. */
  predicate Empty(v: Value)
  {
    match v
    case Null => true
    case Bool(b) => !b
    case Str(s) => s == "" || s == "0"
    case Num(r) => r == 0.0
  }

  predicate EmptyCell(c: Cell)
  {
    Empty(AsValue(c))
  }

  /** The `(string)` cast of a cell. */
  function CellText(c: Cell): string
  {
    match c
    case SqlNull => ""
    case Text(s) => s
  }

  // ---------------------------------------------------------------------
  // The (float) cast: the longest leading decimal number of a string.
  // ---------------------------------------------------------------------

  /** The number of bytes a character takes in UTF-8, the encoding the
      tables are read in. */
  function Utf8Length(ch: char): nat
  {
    if ch as int < 0x80 then 1 else if ch as int < 0x800 then 2 else if ch as int < 0x1_0000 then 3 else 4
  }

  /** `strlen`: the length of a string in bytes, which is at least its
      length in characters. */
  function ByteLength(s: string): (n: nat)
    ensures n >= |s|
  {
    if s == [] then 0 else ByteLength(s[..|s| - 1]) + Utf8Length(s[|s| - 1])
  }

  predicate IsDigit(ch: char)
  {
    '0' <= ch <= '9'
  }

  /** The value of a decimal digit; the parse below only asks it of digits. */
  function DigitValue(ch: char): nat
  {
    if IsDigit(ch) then (ch - '0') as nat else 0
  }

  /** Length of the run of decimal digits that starts the string. */
  function DigitRun(s: string): (n: nat)
    ensures n <= |s|
  {
    if s != [] && IsDigit(s[0]) then 1 + DigitRun(s[1..]) else 0
  }

  function IntegerValue(d: string): nat
  {
    if d == [] then 0 else 10 * IntegerValue(d[..|d| - 1]) + DigitValue(d[|d| - 1])
  }

  function FractionValue(d: string): real
  {
    if d == [] then 0.0 else (DigitValue(d[0]) as real + FractionValue(d[1..])) / 10.0
  }

  /** Digits, then optionally a point and more digits; whatever follows is ignored. */
  function UnsignedPrefix(s: string): real
  {
    var n := DigitRun(s);
    var whole := IntegerValue(s[..n]) as real;
    if n < |s| && s[n] == '.' then
      var tail := s[n + 1..];
      whole + FractionValue(tail[..DigitRun(tail)])
    else whole
  }

  /** `is_numeric` on the plain decimal forms: an optional sign, then
      digits with at most one decimal point, and at least one digit. */
  predicate NumericText(s: string)
  {
    var u := if s != [] && (s[0] == '-' || s[0] == '+') then s[1..] else s;
    var n := DigitRun(u);
    (n == |u| && n > 0) ||
    (n < |u| && u[n] == '.' && DigitRun(u[n + 1..]) == |u| - n - 1 && |u| > 1)
  }

  function ParseFloat(s: string): real
  {
    if s != [] && s[0] == '-' then -UnsignedPrefix(s[1..])
    else if s != [] && s[0] == '+' then UnsignedPrefix(s[1..])
    else UnsignedPrefix(s)
  }

  /** The `(float)` cast, also used for the operands of `*`, `-` and `+=`. */
  function ToFloat(v: Value): real
  {
    match v
    case Null => 0.0
    case Bool(b) => if b then 1.0 else 0.0
    case Str(s) => ParseFloat(s)
    case Num(r) => r
  }

  function CellFloat(c: Cell): real
  {
    ToFloat(AsValue(c))
  }

  /** Every value PHP calls empty casts to the float 0. */
  lemma EmptyCastsToZero(v: Value)
    requires Empty(v)
    ensures ToFloat(v) == 0.0
  {
    if v.Str? && v.s == "0" {
      assert DigitRun("0") == 1;
      assert "0"[..1] == "0";
      assert IntegerValue("0") == 10 * IntegerValue("") + DigitValue('0');
    }
  }

  // ---------------------------------------------------------------------
  // strpos and explode
  // ---------------------------------------------------------------------

  predicate OccursAt(haystack: string, needle: string, i: nat)
  {
    i + |needle| <= |haystack| && haystack[i..i + |needle|] == needle
  }

  /** `strpos($haystack, $needle) !== FALSE` */
  predicate Contains(haystack: string, needle: string)
  {
    exists i: nat | i <= |haystack| :: OccursAt(haystack, needle, i)
  }

  /** First occurrence of `needle` at or after `from`, or -1. */
  function FindFrom(haystack: string, needle: string, from: nat): (r: int)
    requires from <= |haystack|
    ensures r == -1 || (from <= r && OccursAt(haystack, needle, r))
    ensures r == -1 ==> forall i: nat :: from <= i ==> !OccursAt(haystack, needle, i)
    decreases |haystack| - from
  {
    if from + |needle| > |haystack| then -1
    else if haystack[from..from + |needle|] == needle then from
    else FindFrom(haystack, needle, from + 1)
  }

  /** `explode($sep, $s)[1]`: the piece between the first and the second
      separator (or the end); NULL, as an undefined index reads, when the
      separator does not occur. */
  function ExplodeSecond(s: string, sep: string): (c: Cell)
    requires sep != ""
    ensures c == SqlNull <==> !Contains(s, sep)
  {
    var i := FindFrom(s, sep, 0);
    if i < 0 then SqlNull
    else
      var rest := s[i + |sep|..];
      var j := FindFrom(rest, sep, 0);
      Text(if j < 0 then rest else rest[..j])
  }

  // ---------------------------------------------------------------------
  // Ordered associative arrays
  // ---------------------------------------------------------------------

  /** One entry of a point's `tags` or `fields` array. */
  datatype Pair = Pair(key: string, val: Value)

  type Assoc = seq<Pair>

  function KeysOf(a: Assoc): (ks: seq<string>)
    ensures |ks| == |a|
    ensures forall i :: 0 <= i < |a| ==> ks[i] == a[i].key
  {
    if a == [] then [] else [a[0].key] + KeysOf(a[1..])
  }

  /** The value under `k` (the first entry with that key), NULL when absent. */
  function Lookup(a: Assoc, k: string): Value
  {
    if a == [] then Null else if a[0].key == k then a[0].val else Lookup(a[1..], k)
  }

  /** Two arrays whose entries carry the same keys position by position
      have the same key list. */
  lemma {:induction false} SameKeys(a: Assoc, b: Assoc)
    requires |a| == |b|
    requires forall i :: 0 <= i < |a| ==> a[i].key == b[i].key
    ensures KeysOf(a) == KeysOf(b)
  {
    if a != [] {
      SameKeys(a[1..], b[1..]);
    }
  }

  /** Reading `$a[$k]` finds the first entry with that key. */
  lemma {:induction false} LookupFirst(a: Assoc, k: string, i: int)
    requires 0 <= i < |a| && a[i].key == k
    requires forall j :: 0 <= j < i ==> a[j].key != k
    ensures Lookup(a, k) == a[i].val
  {
    if i > 0 {
      LookupFirst(a[1..], k, i - 1);
    }
  }

  /** `$a[$k] = $v`: overwrites the entry in place, or appends a new one. */
  function Put(a: Assoc, k: string, v: Value): (r: Assoc)
    ensures k in KeysOf(a) ==> KeysOf(r) == KeysOf(a)
    ensures k !in KeysOf(a) ==> r == a + [Pair(k, v)]
    ensures Lookup(r, k) == v
    ensures forall k' :: k' != k ==> Lookup(r, k') == Lookup(a, k')
  {
    if a == [] then [Pair(k, v)]
    else if a[0].key == k then [Pair(k, v)] + a[1..]
    else
      var r := [a[0]] + Put(a[1..], k, v);
      assert KeysOf(a) == [a[0].key] + KeysOf(a[1..]);
      assert r[1..] == Put(a[1..], k, v);
      r
  }

  // ---------------------------------------------------------------------
  // Rows
  // ---------------------------------------------------------------------

  /** One column of a row fetched with `fetch_all(MYSQLI_ASSOC)`. */
  datatype Column = Column(name: string, cell: Cell)

  type Row = seq<Column>

  /** `$row['name']`: the column's cell; an undefined index reads as NULL. */
  function Get(row: Row, name: string): Cell
  {
    if row == [] then SqlNull else if row[0].name == name then row[0].cell else Get(row[1..], name)
  }

  /** `isset($row['name'])`: present and not NULL. */
  predicate Isset(row: Row, name: string)
  {
    Get(row, name) != SqlNull
  }

  /** The decimal form of an integer array key, as PHP prints it. */
  function IndexKey(i: nat): (s: string)
    ensures |s| >= 1
    ensures i >= 10 ==> |s| >= 2
  {
    var d := ['0' + (i % 10) as char];
    if i < 10 then d else IndexKey(i / 10) + d
  }

  lemma {:induction false} IndexKeyInjective(i: nat, j: nat)
    requires IndexKey(i) == IndexKey(j)
    ensures i == j
  {
    var si, sj := IndexKey(i), IndexKey(j);
    assert si[|si| - 1] == sj[|sj| - 1];
    assert i % 10 == j % 10;
    if i >= 10 && j >= 10 {
      assert IndexKey(i / 10) == si[..|si| - 1] == sj[..|sj| - 1] == IndexKey(j / 10);
      IndexKeyInjective(i / 10, j / 10);
    }
  }
}
