/**
 * `Ceda`: a result table in the style of a LabVIEW sequencer output, kept
 * as a pandas data frame. The frame is modelled as its column names and
 * its rows; a row holds one cell per column. Row labels are not kept: every
 * operation here leaves them `0 .. n-1`, so a label and a position are the
 * same thing. CSV saving and loading and `log` are not part of this model.
 */
module CedaTable {
  import opened Wrappers

  /**
   * The Python objects a cell or an argument can be. `None` and `NaN` are
   * the two that `pd.isnull` reports as missing.
   */
  datatype Obj =
    | NoneObj
    | NaN
    | Bool(b: bool)
    | Int(i: int)
    | Float(x: real)
    | Str(s: string)
    | Dict(entries: seq<(Obj, Obj)>)

  predicate IsNull(o: Obj) {
    o.NoneObj? || o.NaN?
  }

  datatype Table = Table(columns: seq<string>, rows: seq<seq<Obj>>)

  predicate Distinct(cols: seq<string>) {
    forall i, j :: 0 <= i < j < |cols| ==> cols[i] != cols[j]
  }

  /**
   * What every reachable frame satisfies: the column names are distinct,
   * every row has a cell per column, and a frame without columns has no
   * rows.
   */
  predicate Valid(t: Table) {
    && Distinct(t.columns)
    && (forall i :: 0 <= i < |t.rows| ==> |t.rows[i]| == |t.columns|)
    && (|t.columns| == 0 ==> |t.rows| == 0)
  }

  /** `DataFrame.empty`: no rows or no columns. */
  predicate Empty(t: Table) {
    |t.rows| == 0 || |t.columns| == 0
  }

  /** `Ceda()`: the frame of an empty dictionary. */
  function New(): (t: Table)
    ensures Valid(t) && Empty(t) && |t.columns| == 0
  {
    Table([], [])
  }

  /** `clear()`: a new empty frame, whatever was there. */
  function Clear(t: Table): (r: Table)
    ensures Valid(r) && Empty(r) && |r.columns| == 0
  {
    New()
  }

  /** The position of a column name. */
  function IndexOf(cols: seq<string>, name: string): (k: nat)
    requires name in cols
    ensures k < |cols| && cols[k] == name
  {
    if cols[0] == name then 0 else 1 + IndexOf(cols[1..], name)
  }

  /** In a list of distinct names, a name's position is where it stands. */
  lemma IndexOfAt(cols: seq<string>, k: nat)
    requires Distinct(cols) && k < |cols|
    ensures IndexOf(cols, cols[k]) == k
  {
  }

  /** The cell of row `i` under column `name`. */
  function At(t: Table, i: nat, name: string): Obj
    requires Valid(t) && i < |t.rows| && name in t.columns
  {
    t.rows[i][IndexOf(t.columns, name)]
  }

  /** A row of `n` missing cells, as `np.nan` fills it. */
  function NullRow(n: nat): (row: seq<Obj>)
    ensures |row| == n
    ensures forall k :: 0 <= k < n ==> row[k] == NaN
  {
    seq(n, _ => NaN)
  }

  /** A row of missing cells with `value` under column `k`. */
  function OnlyAt(n: nat, k: nat, value: Obj): (row: seq<Obj>)
    requires k < n
    ensures |row| == n
    ensures forall j :: 0 <= j < n ==> row[j] == if j == k then value else NaN
  {
    NullRow(n)[k := value]
  }

  /**
   * `_append_columnname_value`. On an empty frame the column is set to a
   * one-element series, which gives the frame one row: missing everywhere
   * else, the column added at the end if it is new. On a known column the
   * last row's cell is overwritten when it is missing, otherwise a row is
   * added that holds only the value. A new column is added at the end,
   * missing in every row but the last.
   */
  function AppendValue(t: Table, name: string, value: Obj): (r: Table)
    requires Valid(t)
    ensures Valid(r)
    ensures r.columns == if name in t.columns then t.columns else t.columns + [name]
    ensures |r.rows| >= 1 && name in r.columns && At(r, |r.rows| - 1, name) == value
  {
    var n := |t.columns|;
    if Empty(t) then
      if name in t.columns then
        var row := OnlyAt(n, IndexOf(t.columns, name), value);
        Table(t.columns, [row])
      else
        var row := NullRow(n) + [value];
        NewColumnDistinct(t.columns, name);
        assert (t.columns + [name])[n] == name;
        IndexOfAt(t.columns + [name], n);
        Table(t.columns + [name], [row])
    else if name in t.columns then
      var k := IndexOf(t.columns, name);
      var last := t.rows[|t.rows| - 1];
      if IsNull(last[k]) then
        Table(t.columns, t.rows[..|t.rows| - 1] + [last[k := value]])
      else
        Table(t.columns, t.rows + [OnlyAt(n, k, value)])
    else
      NewColumnDistinct(t.columns, name);
      assert (t.columns + [name])[n] == name;
      IndexOfAt(t.columns + [name], n);
      Table(t.columns + [name], WithColumn(t.rows, n, value))
  }

  /** Every row gets one more cell: missing, except `value` in the last row. */
  function WithColumn(rows: seq<seq<Obj>>, n: nat, value: Obj): (r: seq<seq<Obj>>)
    requires |rows| > 0
    requires forall i :: 0 <= i < |rows| ==> |rows[i]| == n
    ensures |r| == |rows|
    ensures forall i :: 0 <= i < |rows| ==> r[i] == rows[i] + [if i == |rows| - 1 then value else NaN]
  {
    seq(|rows|, i requires 0 <= i < |rows| => rows[i] + [if i == |rows| - 1 then value else NaN])
  }

  lemma NewColumnDistinct(cols: seq<string>, name: string)
    requires Distinct(cols) && name !in cols
    ensures Distinct(cols + [name])
  {
    forall i, j | 0 <= i < j < |cols| + 1
      ensures (cols + [name])[i] != (cols + [name])[j]
    {
      if j == |cols| {
        assert (cols + [name])[i] == cols[i];
      } else {
        assert (cols + [name])[i] == cols[i] && (cols + [name])[j] == cols[j];
      }
    }
  }

  /** What one call of `append` leaves behind: the frame and what it raised. */
  datatype Appended = Appended(table: Table, raised: Option<PyError>)

  /**
   * `append(*args)`: a string and a value go to `_append_columnname_value`,
   * a single dictionary to `_append_dictionary`; anything else raises
   * `TypeError` and leaves the frame alone.
   */
  function Append(t: Table, args: seq<Obj>): (r: Appended)
    requires Valid(t)
    ensures Valid(r.table)
    ensures !((|args| == 2 && args[0].Str?) || (|args| == 1 && args[0].Dict?)) ==> r == Appended(t, Some(TypeError))
    ensures r.raised.Some? ==> r.raised.value == TypeError
  {
    if |args| == 2 && args[0].Str? then Appended(AppendValue(t, args[0].s, args[1]), None)
    else if |args| == 1 && args[0].Dict? then AppendDict(t, args[0].entries)
    else Appended(t, Some(TypeError))
  }

  /**
   * `_append_dictionary`: `append(key, value)` for each entry in order. A
   * key that is not a string raises `TypeError` there, after the entries
   * before it have been appended.
   */
  function AppendDict(t: Table, entries: seq<(Obj, Obj)>): (r: Appended)
    requires Valid(t)
    ensures Valid(r.table)
    ensures r.raised.Some? ==> r.raised.value == TypeError
    ensures r.raised.None? <==> forall i :: 0 <= i < |entries| ==> entries[i].0.Str?
    decreases |entries|
  {
    if |entries| == 0 then Appended(t, None)
    else if entries[0].0.Str? then
      var rest := AppendDict(AppendValue(t, entries[0].0.s, entries[0].1), entries[1..]);
      assert forall i :: 1 <= i < |entries| ==> entries[i] == entries[1..][i - 1];
      rest
    else Appended(t, Some(TypeError))
  }

  /** A dictionary is appended as its first entry, then the dictionary of the rest. */
  lemma AppendDictStep(t: Table, entries: seq<(Obj, Obj)>)
    requires Valid(t) && |entries| > 0
    ensures var first := Append(t, [entries[0].0, entries[0].1]);
            Append(t, [Dict(entries)])
              == if first.raised.Some? then first else Append(first.table, [Dict(entries[1..])])
  {
  }

  /**
   * `duprow()`: the last row is copied and the copy set to `NaN`, so one
   * all-missing row is added; an empty frame is left as it is.
   */
  function Duprow(t: Table): (r: Table)
    requires Valid(t)
    ensures Valid(r)
    ensures r.columns == t.columns
    ensures Empty(t) ==> r == t
    ensures !Empty(t) ==> |r.rows| == |t.rows| + 1 && r.rows[..|t.rows|] == t.rows
    ensures !Empty(t) ==> forall c :: c in r.columns ==> IsNull(At(r, |t.rows|, c))
  {
    if Empty(t) then t
    else
      var r := Table(t.columns, t.rows + [NullRow(|t.columns|)]);
      assert r.rows[..|t.rows|] == t.rows;
      r
  }

  /**
   * The number of rows `tail(n)` returns from a frame with `len` rows: the
   * last `min(n, len)` for `n >= 0`, and every row but the first `-n`, at
   * least none, for `n < 0`.
   */
  function TailLen(len: nat, n: int): (t: nat)
    ensures t <= len
  {
    if n >= 0 then (if n < len then n else len)
    else (if len + n > 0 then len + n else 0)
  }

  /** How many rows survive `drop(tail(n).index)` of a frame with `len` rows. */
  function Kept(len: nat, n: int): (k: nat)
    ensures k <= len
    ensures k == len - TailLen(len, n)
  {
    if n >= 0 then (if n >= len then 0 else len - n)
    else (if -n >= len then len else -n)
  }

  /** `delete(last_n)`: the rows of `tail(last_n)` are dropped; an empty frame is left as it is. */
  function Delete(t: Table, n: int): (r: Table)
    requires Valid(t)
    ensures Valid(r)
    ensures r.columns == t.columns
    ensures |r.rows| <= |t.rows| && r.rows == t.rows[..|r.rows|]
    ensures !Empty(t) ==> |r.rows| == Kept(|t.rows|, n)
    ensures Empty(t) ==> r == t
  {
    if Empty(t) then t else Table(t.columns, t.rows[..Kept(|t.rows|, n)])
  }

  /** Deleting the row `duprow` added gives the frame back. */
  lemma DuprowDelete(t: Table)
    requires Valid(t)
    ensures Delete(Duprow(t), 1) == t
  {
    if !Empty(t) {
      assert Duprow(t).rows[..|t.rows|] == t.rows;
    }
  }

  /** Deleting nothing changes nothing; deleting at least every row leaves the columns without rows. */
  lemma DeleteEdges(t: Table, n: int)
    requires Valid(t)
    ensures Delete(t, 0) == t
    ensures n >= |t.rows| ==> Delete(t, n) == Table(t.columns, [])
    ensures n < 0 && -n >= |t.rows| ==> Delete(t, n) == t
  {
    assert t.rows[..|t.rows|] == t.rows;
  }

  /** The names of `b` that `a` does not have, in `b`'s order. */
  function Extra(a: seq<string>, b: seq<string>): (e: seq<string>)
    ensures forall c :: c in e <==> c in b && c !in a
    ensures Distinct(b) ==> Distinct(e)
  {
    if |b| == 0 then []
    else
      var rest := Extra(a, b[1..]);
      assert forall c :: c in b[1..] ==> c in b;
      if b[0] in a then rest
      else
        assert Distinct(b) ==> b[0] !in b[1..];
        [b[0]] + rest
  }

  lemma JoinDistinct(a: seq<string>, e: seq<string>)
    requires Distinct(a) && Distinct(e) && forall c :: c in e ==> c !in a
    ensures Distinct(a + e)
  {
    forall i, j | 0 <= i < j < |a + e|
      ensures (a + e)[i] != (a + e)[j]
    {
      if j < |a| {
        assert (a + e)[i] == a[i] && (a + e)[j] == a[j];
      } else if i < |a| {
        assert (a + e)[i] == a[i] && (a + e)[j] == e[j - |a|];
        assert e[j - |a|] in e;
      } else {
        assert (a + e)[i] == e[i - |a|] && (a + e)[j] == e[j - |a|];
      }
    }
  }

  /** A row laid out for `src` rearranged for `cols`; a column `src` lacks is missing. */
  function Reindex(src: seq<string>, row: seq<Obj>, cols: seq<string>): (r: seq<Obj>)
    requires |row| == |src|
    ensures |r| == |cols|
    ensures forall k :: 0 <= k < |cols| ==> r[k] == if cols[k] in src then row[IndexOf(src, cols[k])] else NaN
  {
    seq(|cols|, k requires 0 <= k < |cols| => if cols[k] in src then row[IndexOf(src, cols[k])] else NaN)
  }

  function ReindexAll(src: seq<string>, rows: seq<seq<Obj>>, cols: seq<string>): (r: seq<seq<Obj>>)
    requires forall i :: 0 <= i < |rows| ==> |rows[i]| == |src|
    ensures |r| == |rows|
    ensures forall i :: 0 <= i < |rows| ==> r[i] == Reindex(src, rows[i], cols)
  {
    seq(|rows|, i requires 0 <= i < |rows| => Reindex(src, rows[i], cols))
  }

  /**
   * `merge(other)`: `pd.concat([self, other], ignore_index=True)`. The
   * columns are this frame's followed by the other's new ones; this frame's
   * rows come first, and every cell a frame has no column for is missing.
   * Anything but a `Ceda` (here `None`) raises `ValueError`.
   */
  function Merge(t: Table, other: Option<Table>): (r: Result<Table>)
    requires Valid(t)
    requires other.Some? ==> Valid(other.value)
    ensures other.None? <==> r == Err(ValueError)
    ensures r.Ok? ==> Valid(r.value)
    ensures r.Ok? ==> r.value.columns == t.columns + Extra(t.columns, other.value.columns)
    ensures r.Ok? ==> |r.value.rows| == |t.rows| + |other.value.rows|
  {
    match other
    case None => Err(ValueError)
    case Some(o) => Ok(Merged(t, o))
  }

  /** The frame `pd.concat` builds from two frames. */
  function Merged(t: Table, o: Table): (r: Table)
    requires Valid(t) && Valid(o)
    ensures Valid(r)
    ensures r.columns == t.columns + Extra(t.columns, o.columns)
    ensures r.rows == ReindexAll(t.columns, t.rows, r.columns) + ReindexAll(o.columns, o.rows, r.columns)
  {
    var cols := t.columns + Extra(t.columns, o.columns);
    JoinDistinct(t.columns, Extra(t.columns, o.columns));
    var r := Table(cols, ReindexAll(t.columns, t.rows, cols) + ReindexAll(o.columns, o.rows, cols));
    assert |cols| == 0 ==> |t.columns| == 0 && |o.columns| == 0;
    assert forall i :: 0 <= i < |r.rows| ==> |r.rows[i]| == |cols| by {
      forall i | 0 <= i < |r.rows|
        ensures |r.rows[i]| == |cols|
      {
        if i >= |t.rows| {
          assert r.rows[i] == ReindexAll(o.columns, o.rows, cols)[i - |t.rows|];
        }
      }
    }
    r
  }

  /** A merge keeps every cell of this frame where it was. */
  lemma MergeKeepsSelf(t: Table, o: Table, i: nat, c: string)
    requires Valid(t) && Valid(o) && i < |t.rows| && c in t.columns
    ensures Merge(t, Some(o)).Ok?
    ensures At(Merge(t, Some(o)).value, i, c) == At(t, i, c)
  {
    var r := Merge(t, Some(o)).value;
    var k := IndexOf(t.columns, c);
    assert r.columns[k] == c;
    IndexOfAt(r.columns, k);
    assert r.rows[i] == ReindexAll(t.columns, t.rows, r.columns)[i];
  }

  /** A merge puts every cell of the other frame under the same column name, after this frame's rows. */
  lemma MergeAppendsOther(t: Table, o: Table, i: nat, c: string)
    requires Valid(t) && Valid(o) && i < |o.rows| && c in o.columns
    ensures Merge(t, Some(o)).Ok?
    ensures c in Merge(t, Some(o)).value.columns
    ensures At(Merge(t, Some(o)).value, |t.rows| + i, c) == At(o, i, c)
  {
    var r := Merge(t, Some(o)).value;
    assert c in t.columns || c in Extra(t.columns, o.columns);
    assert c in r.columns;
    assert r.rows[|t.rows| + i] == ReindexAll(o.columns, o.rows, r.columns)[i];
  }

  /** A cell whose column only the other frame has is missing in this frame's rows, and the other way round. */
  lemma MergeFillsMissing(t: Table, o: Table, i: nat, c: string)
    requires Valid(t) && Valid(o) && i < |t.rows| + |o.rows|
    requires c in t.columns + o.columns
    requires i < |t.rows| ==> c !in t.columns
    requires i >= |t.rows| ==> c !in o.columns
    ensures Merge(t, Some(o)).Ok?
    ensures c in Merge(t, Some(o)).value.columns
    ensures At(Merge(t, Some(o)).value, i, c) == NaN
  {
    var r := Merge(t, Some(o)).value;
    assert c in t.columns || c in Extra(t.columns, o.columns);
    if i < |t.rows| {
      assert r.rows[i] == ReindexAll(t.columns, t.rows, r.columns)[i];
    } else {
      assert r.rows[i] == ReindexAll(o.columns, o.rows, r.columns)[i - |t.rows|];
    }
  }

  /** A cell laid out for a list of distinct names and read back by the same list is unchanged. */
  lemma ReindexSame(cols: seq<string>, row: seq<Obj>)
    requires Distinct(cols) && |row| == |cols|
    ensures Reindex(cols, row, cols) == row
  {
    forall k | 0 <= k < |cols|
      ensures Reindex(cols, row, cols)[k] == row[k]
    {
      IndexOfAt(cols, k);
    }
  }

  /** Merging into a fresh table gives the other table. */
  lemma MergeIntoNew(o: Table)
    requires Valid(o)
    ensures Merge(New(), Some(o)) == Ok(o)
  {
    ExtraOfNothing(o.columns);
    assert [] + o.columns == o.columns;
    ReindexAllSame(o.columns, o.rows);
    assert ReindexAll([], [], o.columns) + o.rows == o.rows;
  }

  lemma ReindexAllSame(cols: seq<string>, rows: seq<seq<Obj>>)
    requires Distinct(cols) && forall i :: 0 <= i < |rows| ==> |rows[i]| == |cols|
    ensures ReindexAll(cols, rows, cols) == rows
  {
    forall i | 0 <= i < |rows|
      ensures ReindexAll(cols, rows, cols)[i] == rows[i]
    {
      ReindexSame(cols, rows[i]);
    }
  }

  lemma {:induction false} ExtraOfNothing(b: seq<string>)
    ensures Extra([], b) == b
  {
    if |b| > 0 {
      ExtraOfNothing(b[1..]);
      assert b == [b[0]] + b[1..];
    }
  }

  /** Appending to a fresh or cleared frame gives one row holding only that column. */
  lemma AppendToFresh(t: Table, name: string, value: Obj)
    requires Valid(t)
    ensures AppendValue(Clear(t), name, value) == Table([name], [[value]])
    ensures AppendValue(New(), name, value) == Table([name], [[value]])
  {
    assert NullRow(0) + [value] == [value];
  }

  /**
   * Appending to a column whose last cell is missing overwrites that cell:
   * the columns and the row count stay, every other cell stays.
   */
  lemma AppendFillsLast(t: Table, name: string, value: Obj)
    requires Valid(t) && !Empty(t) && name in t.columns && IsNull(At(t, |t.rows| - 1, name))
    ensures var r := AppendValue(t, name, value);
            && r.columns == t.columns
            && |r.rows| == |t.rows|
            && r.rows[..|t.rows| - 1] == t.rows[..|t.rows| - 1]
            && forall c :: c in t.columns && c != name ==> At(r, |t.rows| - 1, c) == At(t, |t.rows| - 1, c)
  {
    var r := AppendValue(t, name, value);
    forall c | c in t.columns && c != name
      ensures At(r, |t.rows| - 1, c) == At(t, |t.rows| - 1, c)
    {
      assert r.rows[|t.rows| - 1] == t.rows[|t.rows| - 1][IndexOf(t.columns, name) := value];
      assert IndexOf(t.columns, c) != IndexOf(t.columns, name);
    }
  }

  /**
   * Appending to a column whose last cell holds a value adds a row that is
   * missing everywhere except in that column.
   */
  lemma AppendAddsRow(t: Table, name: string, value: Obj)
    requires Valid(t) && !Empty(t) && name in t.columns && !IsNull(At(t, |t.rows| - 1, name))
    ensures var r := AppendValue(t, name, value);
            && r.columns == t.columns
            && |r.rows| == |t.rows| + 1
            && r.rows[..|t.rows|] == t.rows
            && forall c :: c in t.columns && c != name ==> At(r, |t.rows|, c) == NaN
  {
    var r := AppendValue(t, name, value);
    assert r.rows[..|t.rows|] == t.rows;
    forall c | c in t.columns && c != name
      ensures At(r, |t.rows|, c) == NaN
    {
      assert IndexOf(t.columns, c) != IndexOf(t.columns, name);
    }
  }

  /**
   * Appending to a new column adds it at the end, missing in every row but
   * the last; the row count stays and every old cell stays.
   */
  lemma AppendAddsColumn(t: Table, name: string, value: Obj)
    requires Valid(t) && !Empty(t) && name !in t.columns
    ensures var r := AppendValue(t, name, value);
            && r.columns == t.columns + [name]
            && |r.rows| == |t.rows|
            && (forall i, c :: 0 <= i < |t.rows| && c in t.columns ==> At(r, i, c) == At(t, i, c))
            && (forall i :: 0 <= i < |t.rows| - 1 ==> At(r, i, name) == NaN)
  {
    var r := AppendValue(t, name, value);
    forall i, c | 0 <= i < |t.rows| && c in t.columns
      ensures At(r, i, c) == At(t, i, c)
    {
      var k := IndexOf(t.columns, c);
      assert r.columns[k] == c;
      IndexOfAt(r.columns, k);
    }
    forall i | 0 <= i < |t.rows| - 1
      ensures At(r, i, name) == NaN
    {
      assert r.columns[|t.columns|] == name;
      IndexOfAt(r.columns, |t.columns|);
    }
  }

  /**
   * The example at the end of `Ceda.py`: `append("A", 1)`, then
   * `append({"B": 2, "A": 3})`, then `duprow()`.
   */
  lemma UsageExample()
    ensures var t1 := Append(New(), [Str("A"), Int(1)]);
            var t2 := Append(t1.table, [Dict([(Str("B"), Int(2)), (Str("A"), Int(3))])]);
            && t1.raised.None? && t2.raised.None?
            && Duprow(t2.table) == Table(["A", "B"], [[Int(1), Int(2)], [Int(3), NaN], [NaN, NaN]])
  {
    ExampleFirst();
    ExampleDict();
    ExampleDuprow();
  }

  lemma ExampleFirst()
    ensures Append(New(), [Str("A"), Int(1)]) == Appended(Table(["A"], [[Int(1)]]), None)
  {
    AppendToFresh(New(), "A", Int(1));
  }

  lemma ExampleDict()
    ensures Append(Table(["A"], [[Int(1)]]), [Dict([(Str("B"), Int(2)), (Str("A"), Int(3))])])
            == Appended(Table(["A", "B"], [[Int(1), Int(2)], [Int(3), NaN]]), None)
  {
    var es := [(Str("B"), Int(2)), (Str("A"), Int(3))];
    var ta := Table(["A", "B"], [[Int(1), Int(2)]]);
    var tb := Table(["A", "B"], [[Int(1), Int(2)], [Int(3), NaN]]);
    ExampleSecondColumn();
    ExampleSecondRow();
    assert es[1..] == [(Str("A"), Int(3))];
    assert AppendDict(tb, []) == Appended(tb, None);
    assert AppendDict(ta, es[1..]) == AppendDict(tb, []);
  }

  lemma ExampleDuprow()
    ensures Duprow(Table(["A", "B"], [[Int(1), Int(2)], [Int(3), NaN]]))
            == Table(["A", "B"], [[Int(1), Int(2)], [Int(3), NaN], [NaN, NaN]])
  {
    assert NullRow(2) == [NaN, NaN];
  }

  lemma ExampleSecondColumn()
    ensures AppendValue(Table(["A"], [[Int(1)]]), "B", Int(2)) == Table(["A", "B"], [[Int(1), Int(2)]])
  {
    assert "B" !in ["A"];
    var w := WithColumn([[Int(1)]], 1, Int(2));
    assert w[0] == [Int(1), Int(2)];
    assert w == [[Int(1), Int(2)]];
    assert ["A"] + ["B"] == ["A", "B"];
  }

  lemma ExampleSecondRow()
    ensures AppendValue(Table(["A", "B"], [[Int(1), Int(2)]]), "A", Int(3)) == Table(["A", "B"], [[Int(1), Int(2)], [Int(3), NaN]])
  {
    assert "A" in ["A", "B"];
    assert IndexOf(["A", "B"], "A") == 0;
    var row := OnlyAt(2, 0, Int(3));
    assert row[0] == Int(3) && row[1] == NaN;
    assert row == [Int(3), NaN];
  }
}
