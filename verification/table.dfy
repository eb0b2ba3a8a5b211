/**
 * A settlement table as the CSV reader produces it, and the two pandas
 * idioms the adapters use on it: keeping the rows that satisfy a condition
 * (`df[cond]`) and summing a numeric column over rows (`col.sum()`).
 */
module Frame {
  import opened Wrappers
  import opened Amount

  /** One row: column name to raw cell. A column the row does not mention reads as NaN. */
  type Row = map<string, Cell>

  /** The column headers (what `df.columns` holds) and the rows in file order. */
  datatype Table = Table(columns: seq<string>, rows: seq<Row>)

  function Get(row: Row, col: string): Cell {
    if col in row then row[col] else Missing
  }

  /** A raw cell read as an amount by `to_num`. */
  function CellAmount(row: Row, col: string): int {
    ToNum(Get(row, col))
  }

  /** A cell of a column already converted by `to_num` holds a number. */
  function NumericAt(row: Row, col: string): int {
    match Get(row, col)
    case Num(n) => n
    case _ => 0
  }

  /** The listed columns that the table has. */
  function Present(cols: seq<string>, columns: seq<string>): set<string> {
    set c | c in cols && c in columns
  }

  /** One row with each column of `numeric` replaced by its `to_num` value. */
  function ConvertRow(row: Row, numeric: set<string>): Row {
    map c | c in row.Keys + numeric :: if c in numeric then Num(ToNum(Get(row, c))) else row[c]
  }

  /** `df[c] = df[c].apply(to_num)` for every column of `numeric`, row by row. */
  function ConvertRows(rows: seq<Row>, numeric: set<string>): (r: seq<Row>)
    ensures |r| == |rows|
  {
    if rows == [] then [] else [ConvertRow(rows[0], numeric)] + ConvertRows(rows[1..], numeric)
  }

  /** A converted column reads back as the `to_num` value of the raw cell; other columns are untouched. */
  lemma ConvertRowSpec(row: Row, numeric: set<string>, col: string)
    ensures col in numeric ==> NumericAt(ConvertRow(row, numeric), col) == CellAmount(row, col)
    ensures col !in numeric ==> Get(ConvertRow(row, numeric), col) == Get(row, col)
  {
  }

  lemma {:induction false} ConvertRowsAppend(a: seq<Row>, b: seq<Row>, numeric: set<string>)
    ensures ConvertRows(a + b, numeric) == ConvertRows(a, numeric) + ConvertRows(b, numeric)
  {
    if a == [] {
      assert a + b == b;
    } else {
      assert (a + b)[0] == a[0];
      assert (a + b)[1..] == a[1..] + b;
      ConvertRowsAppend(a[1..], b, numeric);
    }
  }

  lemma ConvertRowsSingle(row: Row, numeric: set<string>)
    ensures ConvertRows([row], numeric) == [ConvertRow(row, numeric)]
  {
    assert [row][1..] == [];
  }

  /**
   * The first of `required` that `columns` lacks, in the order the source
   * looks the columns up; None when all are present.
   */
  function FirstMissing(columns: seq<string>, required: seq<string>): Option<string> {
    if required == [] then None
    else if required[0] !in columns then Some(required[0])
    else FirstMissing(columns, required[1..])
  }

  /**
   * FirstMissing reports nothing exactly when every required column is
   * present, and otherwise names a missing column all of whose
   * predecessors in `required` are present.
   */
  lemma {:induction false} FirstMissingSpec(columns: seq<string>, required: seq<string>)
    ensures FirstMissing(columns, required).None? <==> forall c :: c in required ==> c in columns
    ensures FirstMissing(columns, required).Some? ==>
      exists k :: 0 <= k < |required| && required[k] == FirstMissing(columns, required).value
                  && required[k] !in columns && forall j :: 0 <= j < k ==> required[j] in columns
  {
    if required != [] && required[0] in columns {
      var r := FirstMissing(columns, required[1..]);
      FirstMissingSpec(columns, required[1..]);
      assert forall c :: c in required ==> c == required[0] || c in required[1..];
      if r.Some? {
        var k :| 0 <= k < |required[1..]| && required[1..][k] == r.value && r.value !in columns
                 && forall j :: 0 <= j < k ==> required[1..][j] in columns;
        assert required[k + 1] == r.value;
        assert forall j :: 0 <= j < k + 1 ==> required[j] in columns by {
          forall j | 0 <= j < k + 1 ensures required[j] in columns {
            if j > 0 {
              assert required[j] == required[1..][j - 1];
            }
          }
        }
      }
    }
  }

  /** Row conditions the adapters filter on. */
  datatype Condition =
    | Positive(col: string)           // `df[col] > 0` on a converted column
    | Tagged(col: string, tag: string) // `df[col] == tag` on a text column

  predicate Holds(cond: Condition, row: Row) {
    match cond
    case Positive(col) => NumericAt(row, col) > 0
    case Tagged(col, tag) => Get(row, col) == Text(tag)
  }

  /** Per-row amounts the adapters sum. */
  datatype Measure =
    | Column(col: string)                      // a converted column as it is
    | Net(sale: string, refund: Option<string>) // sale minus refund; `df.get(refund, 0)` when the refund column is absent

  function Value(m: Measure, row: Row): int {
    match m
    case Column(col) => NumericAt(row, col)
    case Net(sale, refund) => NumericAt(row, sale) - OptionalAt(row, refund)
  }

  /** The numeric value of an optional column; an absent column counts as 0. */
  function OptionalAt(row: Row, col: Option<string>): int {
    match col
    case Some(c) => NumericAt(row, c)
    case None => 0
  }

  /** `df[cond]`: the rows satisfying `cond`, in their original order. */
  function Where(rows: seq<Row>, cond: Condition): seq<Row> {
    if rows == [] then []
    else (if Holds(cond, rows[0]) then [rows[0]] else []) + Where(rows[1..], cond)
  }

  /** `sum()` of a measure over rows (0 for no rows). */
  function Sum(rows: seq<Row>, m: Measure): int {
    if rows == [] then 0 else Value(m, rows[0]) + Sum(rows[1..], m)
  }

  /**
   * Filtering keeps every occurrence of a row that satisfies the condition,
   * drops every row that does not, and adds nothing.
   */
  lemma {:induction false} WhereSpec(rows: seq<Row>, cond: Condition)
    ensures |Where(rows, cond)| <= |rows|
    ensures forall r :: r in Where(rows, cond) <==> r in rows && Holds(cond, r)
    ensures forall r :: multiset(Where(rows, cond))[r] == if Holds(cond, r) then multiset(rows)[r] else 0
  {
    if rows != [] {
      WhereSpec(rows[1..], cond);
      assert rows == [rows[0]] + rows[1..];
      assert forall r :: r in rows <==> r == rows[0] || r in rows[1..];
    }
  }

  lemma ConcatAssociates<T>(x: seq<T>, y: seq<T>, z: seq<T>)
    ensures x + (y + z) == (x + y) + z
  {
  }

  lemma {:induction false} WhereAppend(a: seq<Row>, b: seq<Row>, cond: Condition)
    ensures Where(a + b, cond) == Where(a, cond) + Where(b, cond)
  {
    if a == [] {
      assert a + b == b;
    } else {
      var head := if Holds(cond, a[0]) then [a[0]] else [];
      assert (a + b)[0] == a[0];
      assert (a + b)[1..] == a[1..] + b;
      WhereAppend(a[1..], b, cond);
      assert Where(a + b, cond) == head + (Where(a[1..], cond) + Where(b, cond));
      assert Where(a, cond) == head + Where(a[1..], cond);
      ConcatAssociates(head, Where(a[1..], cond), Where(b, cond));
    }
  }

  lemma {:induction false} SumAppend(a: seq<Row>, b: seq<Row>, m: Measure)
    ensures Sum(a + b, m) == Sum(a, m) + Sum(b, m)
  {
    if a == [] {
      assert a + b == b;
    } else {
      assert (a + b)[0] == a[0];
      assert (a + b)[1..] == a[1..] + b;
      SumAppend(a[1..], b, m);
    }
  }

  /**
   * Filter-then-sum over a concatenation splits into the two parts, and one
   * row contributes its value exactly when it satisfies the condition.
   */
  lemma FilteredSumAppend(a: seq<Row>, b: seq<Row>, cond: Condition, m: Measure)
    ensures Sum(Where(a + b, cond), m) == Sum(Where(a, cond), m) + Sum(Where(b, cond), m)
  {
    WhereAppend(a, b, cond);
    SumAppend(Where(a, cond), Where(b, cond), m);
  }

  lemma FilteredSumSingle(row: Row, cond: Condition, m: Measure)
    ensures Sum(Where([row], cond), m) == if Holds(cond, row) then Value(m, row) else 0
  {
    assert [row][1..] == [];
  }
}
