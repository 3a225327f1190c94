/** The integer exact-match query (`IntMatchQuery`): candidates and stored
    values are both passed through int(), and the candidates are OR'd. The
    document filter is `{path: {'$in': [int(v), ...]}}`; in the table a row
    matches when its converted field, or the converted `name` value of some
    parent entry, is one of the converted candidates.

    This version's `mongo` (yabadaba/query/int_match.py:21) takes no `prefix`; callers that pass `prefix=` belong
    to a later version. */
module IntMatchQuery {
  import opened Results
  import opened Decimal
  import opened PyData
  import opened Table
  import opened QueryBase

  const Style := "int_match"
  const Description := "Query an int field for specific values"

  /** `[int(v) for v in iaslist(value)]`. */
  function Coerce(cands: seq<Datum>): (r: Result<seq<int>>)
    ensures r.Ok? <==> forall i :: 0 <= i < |cands| ==> ToInt(cands[i]).Ok?
    ensures r.Ok? ==> |r.value| == |cands| && forall i :: 0 <= i < |cands| ==> ToInt(cands[i]) == Ok(r.value[i])
    ensures r.Err? ==> exists i :: 0 <= i < |cands| && ToInt(cands[i]) == Err(r.error) &&
                                   forall j :: 0 <= j < i ==> ToInt(cands[j]).Ok?
  {
    MapAll(ToInt, cands)
  }

  /** The integers as they are written into the filter. */
  function IntData(ns: seq<int>): seq<Datum>
  {
    seq(|ns|, i requires 0 <= i < |ns| => Int(ns[i]))
  }

  /** The filter dictionary after `mongo(querydict, value)`: None, a
      candidate int() refuses, or an unset path leave it as it was;
      otherwise only the key `path` is written, overwriting what was there,
      with the converted candidates in candidate order. */
  function MongoAccumulator(path: Option<string>, acc: map<string, Fragment>, value: QueryValue): (r: map<string, Fragment>)
    ensures value.NoValue? || path.None? || Coerce(Candidates(value)).Err? ==> r == acc
    ensures path.Some? ==> r.Keys <= acc.Keys + {path.value}
    ensures forall k :: k in acc && (path.None? || k != path.value) ==> k in r && r[k] == acc[k]
    ensures !value.NoValue? && path.Some? && Coerce(Candidates(value)).Ok? ==>
              path.value in r && r[path.value].Condition? && r[path.value].op.In? &&
              |r[path.value].op.values| == |Candidates(value)| &&
              forall i :: 0 <= i < |Candidates(value)| ==>
                r[path.value].op.values[i].Int? && ToInt(Candidates(value)[i]) == Ok(r[path.value].op.values[i].i)
  {
    if value.NoValue? then acc
    else
      match Coerce(Candidates(value))
      case Err(_) => acc
      case Ok(ns) => if path.None? then acc else acc[path.value := Condition(In(IntData(ns)))]
  }

  /** Whether `mongo` raises: the conversion of the candidates comes first,
      the read of the path second.
      tests/query/test_Query.py:47-50 expects `mongo(querydict, None)` with
      the path unset to raise AttributeError; this version returns before
      the path is read, so the status is Ok for None. */
  function MongoStatus(path: Option<string>, value: QueryValue): (r: Result<()>)
    ensures value.NoValue? ==> r == Ok(())
    ensures !value.NoValue? && Coerce(Candidates(value)).Err? ==> r == Err(Coerce(Candidates(value)).error)
    ensures !value.NoValue? && Coerce(Candidates(value)).Ok? ==> (r.Ok? <==> path.Some?)
  {
    if value.NoValue? then Ok(())
    else
      match Coerce(Candidates(value))
      case Err(e) => Err(e)
      case Ok(_) => if path.None? then Err(AttributeError) else Ok(())
  }

  /** `IntMatchQuery.mongo(querydict, value)`. */
  method Mongo(q: Query, querydict: QueryDict, value: QueryValue) returns (status: Result<()>)
    requires q.kind == IntMatch
    modifies querydict
    ensures querydict.entries == MongoAccumulator(q.path, old(querydict.entries), value)
    ensures status == MongoStatus(q.path, value)
  {
    if value.NoValue? {
      return Ok(());
    }
    var val := Coerce(Candidates(value));
    if val.Err? {
      return Err(val.error);
    }
    if q.path.None? {
      return Err(AttributeError);
    }
    querydict.entries := querydict.entries[q.path.value := Condition(In(IntData(val.value)))];
    return Ok(());
  }

  /** The legacy module-level `mongo(qdict, path, val)`. */
  method LegacyMongo(qdict: QueryDict, path: string, val: QueryValue) returns (status: Result<()>)
    modifies qdict
    ensures qdict.entries == MongoAccumulator(Some(path), old(qdict.entries), val)
    ensures status == MongoStatus(Some(path), val)
    ensures status.Err? ==> status.error != AttributeError
  {
    status := Mongo(Query(IntMatch, None, None, Some(path)), qdict, val);
  }

  // ---------------------------------------------------------------------
  // The table predicate
  // ---------------------------------------------------------------------

  /** `int(series[name])`: NaN raises ValueError, a list TypeError. */
  function CellToInt(cell: Cell): (r: Result<int>)
    ensures cell.NA? ==> r == Err(ValueError)
    ensures cell.Entries? ==> r == Err(TypeError)
    ensures cell.Value? && cell.d.Int? ==> r == Ok(cell.d.i)
    ensures cell.Value? && cell.d.Text? ==> (r.Ok? <==> ParseInt(cell.d.s).Some?)
    ensures cell.Value? && cell.d.Text? && r.Ok? ==> ParseInt(cell.d.s) == Some(r.value)
    ensures cell.Value? && cell.d.Bool? ==> r == Ok(if cell.d.b then 1 else 0)
    ensures cell.Value? && cell.d.Day? ==> r == Err(TypeError)
  {
    match cell
    case Value(d) => ToInt(d)
    case NA => Err(ValueError)
    case Entries(_) => Err(TypeError)
  }

  /** The loop over the parent list: the first entry holding `name` whose
      converted value is a candidate returns True; a value int() refuses
      raises before any later entry is looked at. */
  function AnyEntryIn(entries: seq<Entry>, name: string, ns: seq<int>): (r: Result<bool>)
    ensures r == Ok(true) ==> exists j :: 0 <= j < |entries| && name in entries[j] &&
                                         ToInt(entries[j][name]).Ok? && ToInt(entries[j][name]).value in ns &&
                                         forall k :: 0 <= k < j && name in entries[k] ==>
                                           ToInt(entries[k][name]).Ok? && ToInt(entries[k][name]).value !in ns
    ensures r.Err? ==> exists j :: 0 <= j < |entries| && name in entries[j] &&
                                  ToInt(entries[j][name]) == Err(r.error) &&
                                  forall k :: 0 <= k < j && name in entries[k] ==>
                                    ToInt(entries[k][name]).Ok? && ToInt(entries[k][name]).value !in ns
    ensures r == Ok(false) ==> forall j :: 0 <= j < |entries| && name in entries[j] ==>
                                         ToInt(entries[j][name]).Ok? && ToInt(entries[j][name]).value !in ns
    ensures (forall j :: 0 <= j < |entries| && name in entries[j] ==> ToInt(entries[j][name]).Ok?) ==> r.Ok?
  {
    if entries == [] then Ok(false)
    else
      var rest := AnyEntryIn(entries[1..], name, ns);
      assert forall j :: 1 <= j < |entries| ==> entries[j] == entries[1..][j - 1];
      if name in entries[0] then
        match ToInt(entries[0][name])
        case Err(e) => Err(e)
        case Ok(n) => if n in ns then Ok(true) else rest
      else rest
  }

  /** `apply_function(series, name, value, parent)`: the candidates are
      converted for every row, before the row is read. */
  function RowMatches(row: Row, cols: set<string>, name: string, value: QueryValue, parent: Option<string>): (r: Result<bool>)
    ensures value.NoValue? ==> r == Ok(true)
    ensures !value.NoValue? && Coerce(Candidates(value)).Err? ==> r == Err(Coerce(Candidates(value)).error)
    ensures !value.NoValue? && parent.None? && Coerce(Candidates(value)).Ok? && name !in cols ==> r == Err(KeyError)
    ensures (!value.NoValue? && parent.None? && Coerce(Candidates(value)).Ok? && name in cols &&
             CellToInt(Field(row, name)).Ok?) ==>
              r == Ok(CellToInt(Field(row, name)).value in Coerce(Candidates(value)).value)
    ensures (!value.NoValue? && parent.None? && Coerce(Candidates(value)).Ok? && name in cols &&
             CellToInt(Field(row, name)).Err?) ==>
              r == Err(CellToInt(Field(row, name)).error)
    ensures !value.NoValue? && parent.Some? && Coerce(Candidates(value)).Ok? && parent.value !in cols ==>
              r == Err(KeyError)
    ensures (!value.NoValue? && parent.Some? && Coerce(Candidates(value)).Ok? && parent.value in cols &&
             !Field(row, parent.value).Entries?) ==>
              r == Err(TypeError)
    ensures (!value.NoValue? && parent.Some? && Coerce(Candidates(value)).Ok? && parent.value in cols &&
             Field(row, parent.value).Entries?) ==>
              r == AnyEntryIn(Field(row, parent.value).list, name, Coerce(Candidates(value)).value)
  {
    if value.NoValue? then Ok(true)
    else
      match Coerce(Candidates(value))
      case Err(e) => Err(e)
      case Ok(ns) =>
        if parent.None? then
          match Lookup(row, cols, name)
          case Err(e) => Err(e)
          case Ok(cell) =>
            match CellToInt(cell)
            case Err(e) => Err(e)
            case Ok(n) => Ok(n in ns)
        else
          match ParentEntries(row, cols, parent.value)
          case Err(e) => Err(e)
          case Ok(es) => AnyEntryIn(es, name, ns)
  }

  /** `IntMatchQuery.pandas(df, value)`. */
  function Pandas(q: Query, table: Table, value: QueryValue): (r: Result<seq<bool>>)
    requires q.kind == IntMatch
    ensures q.name.None? ==> r == Err(AttributeError)
    ensures q.name.Some? && value.NoValue? ==> r == Ok(seq(|table|, _ => true))
    ensures r.Ok? ==> |r.value| == |table|
    ensures r.Ok? ==> forall i :: 0 <= i < |table| ==>
                        RowMatches(table[i], Columns(table), q.name.value, value, q.parent) == Ok(r.value[i])
    ensures q.name.Some? ==>
              (r.Ok? <==> forall i :: 0 <= i < |table| ==> RowMatches(table[i], Columns(table), q.name.value, value, q.parent).Ok?)
    ensures q.name.Some? && r.Err? ==>
              exists i :: 0 <= i < |table| && RowMatches(table[i], Columns(table), q.name.value, value, q.parent) == Err(r.error) &&
                          forall j :: 0 <= j < i ==> RowMatches(table[j], Columns(table), q.name.value, value, q.parent).Ok?
    ensures (q.name.Some? && !value.NoValue? && table != [] && Coerce(Candidates(value)).Ok? &&
             q.parent.None? && q.name.value !in Columns(table)) ==> r == Err(KeyError)
    ensures (q.name.Some? && !value.NoValue? && table != [] && Coerce(Candidates(value)).Ok? &&
             q.parent.Some? && q.parent.value !in Columns(table)) ==> r == Err(KeyError)
  {
    if q.name.None? then Err(AttributeError)
    else
      var cols := Columns(table);
      var r := MapAll(row => RowMatches(row, cols, q.name.value, value, q.parent), table);
      if value.NoValue? then
        assert r.Ok? && r.value == seq(|table|, _ => true);
        r
      else r
  }

  /** The legacy module-level `pandas(df, name, val, parent)`. */
  function LegacyPandas(table: Table, name: string, val: QueryValue, parent: Option<string>): (r: Result<seq<bool>>)
    ensures val.NoValue? ==> r == Ok(seq(|table|, _ => true))
    ensures r.Ok? <==> forall i :: 0 <= i < |table| ==> RowMatches(table[i], Columns(table), name, val, parent).Ok?
    ensures r.Ok? ==> |r.value| == |table| &&
                      forall i :: 0 <= i < |table| ==> RowMatches(table[i], Columns(table), name, val, parent) == Ok(r.value[i])
    ensures r.Err? ==> exists i :: 0 <= i < |table| && RowMatches(table[i], Columns(table), name, val, parent) == Err(r.error) &&
                                   forall j :: 0 <= j < i ==> RowMatches(table[j], Columns(table), name, val, parent).Ok?
    ensures (!val.NoValue? && table != [] && Coerce(Candidates(val)).Ok? && parent.None? &&
             name !in Columns(table)) ==> r == Err(KeyError)
    ensures (!val.NoValue? && table != [] && Coerce(Candidates(val)).Ok? && parent.Some? &&
             parent.value !in Columns(table)) ==> r == Err(KeyError)
  {
    Pandas(Query(IntMatch, Some(name), parent, None), table, val)
  }

  // ---------------------------------------------------------------------
  // What a match means
  // ---------------------------------------------------------------------

  /** With a parent, candidates are OR'd: a row matches exactly when some
      entry holding `name` converts to one of the candidates (provided no
      entry's value is refused by int()). */
  lemma ParentMatchIffSomeEntry(row: Row, cols: set<string>, name: string, cands: seq<Datum>, parent: string)
    requires Coerce(cands).Ok? && parent in cols && Field(row, parent).Entries?
    requires forall e: Entry :: e in Field(row, parent).list && name in e ==> ToInt(e[name]).Ok?
    ensures var es := Field(row, parent).list;
            RowMatches(row, cols, name, Many(cands), Some(parent)) ==
            Ok(exists j :: 0 <= j < |es| && name in es[j] && ToInt(es[j][name]).value in Coerce(cands).value)
  {
    var es := Field(row, parent).list;
    assert forall j :: 0 <= j < |es| ==> es[j] in es;
    var r := AnyEntryIn(es, name, Coerce(cands).value);
    assert r.Ok?;
    if !r.value {
      assert !exists j :: 0 <= j < |es| && name in es[j] && ToInt(es[j][name]).value in Coerce(cands).value;
    }
  }

  /** The parent loop depends on the candidates only through which integers
      they contain. */
  lemma {:induction false} AnyEntryInSameMembers(entries: seq<Entry>, name: string, ns1: seq<int>, ns2: seq<int>)
    requires forall n :: n in ns1 <==> n in ns2
    ensures AnyEntryIn(entries, name, ns1) == AnyEntryIn(entries, name, ns2)
  {
    if entries != [] {
      AnyEntryInSameMembers(entries[1..], name, ns1, ns2);
    }
  }

  /** Matching is a membership test: reordering or repeating the candidates
      does not change which rows match. */
  lemma CandidateOrderIrrelevant(row: Row, cols: set<string>, name: string, parent: Option<string>, c1: seq<Datum>, c2: seq<Datum>)
    requires forall v :: v in c1 <==> v in c2
    requires Coerce(c1).Ok?
    ensures RowMatches(row, cols, name, Many(c1), parent) == RowMatches(row, cols, name, Many(c2), parent)
  {
    assert forall i :: 0 <= i < |c2| ==> ToInt(c2[i]).Ok? by {
      forall i | 0 <= i < |c2| ensures ToInt(c2[i]).Ok? {
        assert c2[i] in c1;
      }
    }
    var ns1, ns2 := Coerce(c1).value, Coerce(c2).value;
    forall n ensures n in ns1 <==> n in ns2 {
      if n in ns1 {
        var i :| 0 <= i < |ns1| && ns1[i] == n;
        assert c1[i] in c2;
        var j :| 0 <= j < |c2| && c2[j] == c1[i];
        assert ns2[j] == n;
      }
      if n in ns2 {
        var j :| 0 <= j < |ns2| && ns2[j] == n;
        assert c2[j] in c1;
        var i :| 0 <= i < |c1| && c1[i] == c2[j];
        assert ns1[i] == n;
      }
    }
    if parent.Some? && ParentEntries(row, cols, parent.value).Ok? {
      AnyEntryInSameMembers(ParentEntries(row, cols, parent.value).value, name, ns1, ns2);
    }
  }

  /** `[105, '95']` is written as `[105, 95]`
      (tests/query/test_IntMatchQuery.py:36-38). */
  lemma MixedCandidatesExample(acc: map<string, Fragment>)
    ensures MongoAccumulator(Some("root.element"), acc, Many([Int(105), Text("95")]))["root.element"] ==
            Condition(In([Int(105), Int(95)]))
  {
    NumericStringToInt(95);
    assert ToStr(Int(95)) == "95";
  }

  /** Row 'second' of the integer test table (tests/query/test_IntMatchQuery.py:62-73)
      matches the value -8 under the parent 'parent': its entry '-8' converts
      to -8 (tests/query/test_IntMatchQuery.py:141-143). */
  lemma SecondRowMatchesMinusEight()
    ensures RowMatches(
              map["name" := Value(Text("second")),
                  "thisguy" := Value(Text("95")),
                  "parent" := Entries([map["thisguy" := Text("12")], map["thisguy" := Text("-8")]])],
              {"name", "thisguy", "parent"}, "thisguy", One(Int(-8)), Some("parent")) == Ok(true)
  {
    assert "-8"[1..] == "8";
    assert DigitsValue("8") == 8;
    assert "12"[..1] == "1";
    assert DigitsValue("12") == 12;
  }
}
