/** The tabular side of a query: a metadata table is a sequence of rows, a row
    maps column names to cells, and a "parent" column holds a list of
    sub-dictionaries (one per nested entry). The query value is None, one
    value or a list of values. */
module Table {
  import opened Results
  import opened PyData

  /** One dictionary inside a parent list. */
  type Entry = map<string, Datum>

  /** What a DataFrame cell holds: a scalar, a missing value (NaN), or a
      parent list. */
  datatype Cell = Value(d: Datum) | NA | Entries(list: seq<Entry>)

  type Row = map<string, Cell>

  type Table = seq<Row>

  /** The columns of a DataFrame built from a list of row dictionaries: every
      key that some row holds. */
  function Columns(table: Table): (cols: set<string>)
    ensures forall k :: k in cols <==> exists i :: 0 <= i < |table| && k in table[i]
  {
    if table == [] then {}
    else
      var rest := Columns(table[1..]);
      assert forall i :: 1 <= i < |table| ==> table[i] == table[1..][i - 1];
      table[0].Keys + rest
  }

  /** The cell of a row under a column of its table: a column missing from
      this row (but held by another) reads as NaN, as pandas fills it when the
      table is built from dictionaries. */
  function Field(row: Row, name: string): (c: Cell)
    ensures name in row ==> c == row[name]
    ensures name !in row ==> c == NA
  {
    if name in row then row[name] else NA
  }

  /** `series[name]` on a row of a table whose columns are `cols`: a column
      the table does not have raises KeyError. */
  function Lookup(row: Row, cols: set<string>, name: string): (r: Result<Cell>)
    ensures r.Ok? <==> name in cols
    ensures r.Err? ==> r.error == KeyError
    ensures r.Ok? && name in row ==> r.value == row[name]
    ensures r.Ok? && name !in row ==> r.value == NA
  {
    if name in cols then Ok(Field(row, name)) else Err(KeyError)
  }

  /** `for p in series[parent]`: KeyError for a column the table does not
      have, and only a parent list can be iterated. */
  function ParentEntries(row: Row, cols: set<string>, parent: string): (r: Result<seq<Entry>>)
    ensures parent !in cols ==> r == Err(KeyError)
    ensures parent in cols ==> (r.Ok? <==> Field(row, parent).Entries?)
    ensures parent in cols && !Field(row, parent).Entries? ==> r == Err(TypeError)
    ensures r.Ok? ==> r.value == Field(row, parent).list
  {
    match Lookup(row, cols, parent)
    case Err(e) => Err(e)
    case Ok(Entries(es)) => Ok(es)
    case Ok(_) => Err(TypeError)
  }

  /** The `value` argument of `mongo` and `pandas`. */
  datatype QueryValue =
    | NoValue                 // Python None: no constraint
    | One(item: Datum)        // a single value, a string included
    | Many(items: seq<Datum>) // a list of values

  /** `aslist(value)` / `iaslist(value)`: a single value, a string included,
      is one candidate and is not split into characters. */
  function Candidates(v: QueryValue): (c: seq<Datum>)
    requires !v.NoValue?
    ensures v.One? ==> |c| == 1 && c[0] == v.item
    ensures v.Many? ==> c == v.items
  {
    if v.One? then [v.item] else v.items
  }
}
