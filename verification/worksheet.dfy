/** An openpyxl worksheet, as far as the processors use it: cell values by
    row and column (both from 1), `max_row`, `max_column`, writing a cell
    and `insert_rows`. Styles are not part of the model. */
module Worksheet {
  import opened Wrappers
  import opened Text

  /** A cell value: text (including formulas) or a number. */
  datatype Value = Str(s: string) | Num(x: real)

  /** Row `r` is `rows[r - 1]`, a map from column to value; a cell absent
      from its row holds `None`. */
  type Rows = seq<map<int, Value>>

  function CellOf(rows: Rows, r: int, c: int): Option<Value> {
    if 1 <= r <= |rows| && c in rows[r - 1] then Some(rows[r - 1][c]) else None
  }

  /** The rows after `cell(row=r, column=c).value = v`: rows up to `r` are
      created as needed. */
  function WriteCell(rows: Rows, r: int, c: int, v: Value): (w: Rows)
    requires r >= 1
    ensures |w| == if r > |rows| then r else |rows|
    ensures CellOf(w, r, c) == Some(v)
    ensures forall r', c' {:trigger CellOf(w, r', c')} :: r' != r || c' != c ==> CellOf(w, r', c') == CellOf(rows, r', c')
  {
    var ext := if r > |rows| then rows + EmptyRows(r - |rows|) else rows;
    ext[r - 1 := ext[r - 1][c := v]]
  }

  /** `n` rows without cells. */
  function EmptyRows(n: nat): (e: Rows)
    ensures |e| == n && forall i :: 0 <= i < n ==> e[i] == map[]
  {
    if n == 0 then [] else EmptyRows(n - 1) + [map[]]
  }

  /** The rows after `insert_rows(idx)`: every row from `idx` on moves down
      by one and row `idx` becomes empty; below the last row nothing moves. */
  function InsertRow(rows: Rows, idx: int): (w: Rows)
    requires idx >= 1
    ensures idx <= |rows| ==> |w| == |rows| + 1
    ensures idx > |rows| ==> w == rows
    ensures forall r, c {:trigger CellOf(w, r, c)} :: r < idx ==> CellOf(w, r, c) == CellOf(rows, r, c)
    ensures idx <= |rows| ==> forall c :: CellOf(w, idx, c).None?
    ensures forall r, c {:trigger CellOf(w, r, c)} :: r > idx ==> CellOf(w, r, c) == CellOf(rows, r - 1, c)
  {
    if idx > |rows| then rows
    else if idx == 1 then [map[]] + rows
    else
      var w := [rows[0]] + InsertRow(rows[1..], idx - 1);
      assert forall r, c :: 1 < r ==> CellOf(w, r, c) == CellOf(InsertRow(rows[1..], idx - 1), r - 1, c);
      w
  }

  /** `str(value).upper()` when the value is truthy, else "": a number's text
      holds no letters, so it never contains a label; it is given as "". */
  function UpperText(v: Option<Value>): string {
    match v
    case Some(Str(s)) => Upper(s)
    case _ => ""
  }

  /** The part of a worksheet the processors read and change: its rows and
      `max_column`, the greatest column holding a cell. */
  datatype State = State(rows: Rows, maxColumn: nat)

  /** `max_row`: the last row holding cells, and 1 for an empty sheet. */
  function MaxRow(st: State): (m: nat)
    ensures m >= 1 && m >= |st.rows|
  {
    if |st.rows| == 0 then 1 else |st.rows|
  }

  /** The state after writing `v` to row `r`, column `c`. */
  function Write(st: State, r: int, c: int, v: Value): (w: State)
    requires r >= 1 && c >= 1
    ensures CellOf(w.rows, r, c) == Some(v)
    ensures forall r', c' {:trigger CellOf(w.rows, r', c')} :: r' != r || c' != c ==> CellOf(w.rows, r', c') == CellOf(st.rows, r', c')
    ensures w.maxColumn == if c > st.maxColumn then c else st.maxColumn
  {
    State(WriteCell(st.rows, r, c, v), if c > st.maxColumn then c else st.maxColumn)
  }

  /** The state after `insert_rows(idx)`. */
  function Insert(st: State, idx: int): (w: State)
    requires idx >= 1
    ensures w.maxColumn == st.maxColumn
  {
    State(InsertRow(st.rows, idx), st.maxColumn)
  }

  /** The state after `insert_rows(idx, n)`: `n` empty rows at `idx`. */
  function InsertMany(st: State, idx: int, n: nat): (w: State)
    requires idx >= 1
    ensures w.maxColumn == st.maxColumn
    ensures forall r, c {:trigger CellOf(w.rows, r, c)} :: r < idx ==> CellOf(w.rows, r, c) == CellOf(st.rows, r, c)
  {
    if n == 0 then st else Insert(InsertMany(st, idx, n - 1), idx)
  }

  /** After inserting `n` rows at `idx`, the rows above stay, the `n` new
      rows are empty, and every row from `idx` on has moved down by `n`. */
  lemma {:induction false} InsertManyCell(st: State, idx: int, n: nat, r: int, c: int)
    requires idx >= 1
    ensures CellOf(InsertMany(st, idx, n).rows, r, c) ==
      if r < idx then CellOf(st.rows, r, c)
      else if r < idx + n then None
      else CellOf(st.rows, r - n, c)
  {
    if n > 0 {
      var w := InsertMany(st, idx, n - 1);
      var v := Insert(w, idx);
      assert InsertMany(st, idx, n) == v;
      if r < idx {
        InsertManyCell(st, idx, n - 1, r, c);
        assert CellOf(v.rows, r, c) == CellOf(w.rows, r, c);
      } else if r == idx {
        if idx > |w.rows| {
          assert v.rows == w.rows;
        }
        assert CellOf(v.rows, r, c).None?;
      } else {
        InsertManyCell(st, idx, n - 1, r - 1, c);
        assert CellOf(v.rows, r, c) == CellOf(w.rows, r - 1, c);
      }
    } else if idx <= r {
      assert CellOf(st.rows, r - n, c) == CellOf(st.rows, r, c);
    }
  }

  /** A worksheet whose cells the processors change in place. */
  class Sheet {
    var rows: Rows
    var maxColumn: nat

    constructor (st: State)
      ensures View() == st
    {
      rows := st.rows;
      maxColumn := st.maxColumn;
    }

    /** The sheet's rows and `max_column` as a value. */
    function View(): State
      reads this
    {
      State(rows, maxColumn)
    }

    /** `sheet.cell(row=r, column=c).value = v` */
    method Set(r: int, c: int, v: Value)
      requires r >= 1 && c >= 1
      modifies this
      ensures View() == Write(old(View()), r, c, v)
    {
      rows := WriteCell(rows, r, c, v);
      if c > maxColumn {
        maxColumn := c;
      }
    }

    /** `sheet.insert_rows(idx)` */
    method InsertRows(idx: int)
      requires idx >= 1
      modifies this
      ensures View() == Insert(old(View()), idx)
    {
      rows := InsertRow(rows, idx);
    }

    /** `sheet.insert_rows(idx, amount)` */
    method InsertRowsAmount(idx: int, amount: nat)
      requires idx >= 1
      modifies this
      ensures View() == InsertMany(old(View()), idx, amount)
    {
      for n := 0 to amount
        invariant View() == InsertMany(old(View()), idx, n)
      {
        InsertRows(idx);
      }
    }
  }

  // ------------------------------------------------------------ addresses

  /** `get_column_letter(c)`: bijective base 26, "A" for 1, "Z" for 26, "AA"
      for 27. */
  function ColumnLetter(c: nat): (s: string)
    requires c >= 1
    ensures |s| >= 1 && forall i :: 0 <= i < |s| ==> 'A' <= s[i] <= 'Z'
    decreases c
  {
    var d := (c - 1) % 26;
    var last := [(('A' as int) + d) as char];
    if c <= 26 then last else ColumnLetter((c - 1) / 26) + last
  }

  /** The value of a column name: the inverse of `ColumnLetter`. */
  function ColumnValue(s: string): int
  {
    if s == [] then 0 else ColumnValue(s[..|s| - 1]) * 26 + (s[|s| - 1] as int - 'A' as int + 1)
  }

  lemma {:induction false} ColumnLetterValue(c: nat)
    requires c >= 1
    ensures ColumnValue(ColumnLetter(c)) == c
    decreases c
  {
    var q, d := (c - 1) / 26, (c - 1) % 26;
    assert c == q * 26 + d + 1;
    var last := [(('A' as int) + d) as char];
    var s := ColumnLetter(c);
    assert s[|s| - 1] as int - 'A' as int + 1 == d + 1;
    if c <= 26 {
      assert s == last && s[..0] == [];
    } else {
      ColumnLetterValue(q);
      assert s[..|s| - 1] == ColumnLetter(q);
    }
  }

  /** A cell's `coordinate`, such as "C14". */
  function Coordinate(r: nat, c: nat): (s: string)
    requires c >= 1
  {
    ColumnLetter(c) + NatToString(r)
  }

  /** The number of capital letters `s` starts with. */
  function LetterCount(s: string): (n: nat)
    ensures n <= |s| && forall i :: 0 <= i < n ==> 'A' <= s[i] <= 'Z'
    ensures n < |s| ==> !('A' <= s[n] <= 'Z')
  {
    if s != [] && 'A' <= s[0] <= 'Z' then 1 + LetterCount(s[1..]) else 0
  }

  /** The (row, column) a coordinate such as "D12" names: capital letters,
      then the digits of a row from 1 on. */
  function CellAddress(s: string): (a: Option<(int, int)>)
    ensures a.Some? ==> a.value.0 >= 1 && a.value.1 >= 1
  {
    var n := LetterCount(s);
    if n == 0 || !IsDigits(s[n..]) then None
    else
      var row := DigitsValue(s[n..]);
      var col := ColumnValue(s[..n]);
      if row == 0 || col <= 0 then None else Some((row, col))
  }

  /** Reading back a coordinate gives its row and column. */
  lemma CoordinateAddress(r: nat, c: nat)
    requires r >= 1 && c >= 1
    ensures CellAddress(Coordinate(r, c)) == Some((r as int, c as int))
  {
    var letters, digits := ColumnLetter(c), NatToString(r);
    var s := letters + digits;
    assert LetterCount(s) == |letters| by { LettersThenDigits(letters, digits); }
    assert s[..|letters|] == letters && s[|letters|..] == digits;
    ColumnLetterValue(c);
    NatToStringValue(r);
  }

  lemma {:induction false} LettersThenDigits(letters: string, digits: string)
    requires forall i :: 0 <= i < |letters| ==> 'A' <= letters[i] <= 'Z'
    requires IsDigits(digits)
    ensures LetterCount(letters + digits) == |letters|
  {
    if letters != [] {
      assert (letters + digits)[1..] == letters[1..] + digits;
      LettersThenDigits(letters[1..], digits);
    }
  }
}
