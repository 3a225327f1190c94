/** The date exact-match query (`DateMatchQuery`): candidates and stored
    values are both passed through str(), which writes a date as
    `YYYY-MM-DD`, and the resulting strings are compared verbatim; the
    candidates are OR'd. The document filter is
    `{path: {'$in': [str(v), ...]}}`.

    This version's `mongo` (yabadaba/query/date_match.py:20) takes no `prefix`; callers that pass `prefix=` belong
    to a later version. */
module DateMatchQuery {
  import opened Results
  import opened IsoDate
  import opened PyData
  import opened Table
  import opened QueryBase

  const Style := "date_match"
  const Description := "Query a date field for specific values"

  /** `[str(v) for v in iaslist(value)]`; str() never raises. */
  function Render(cands: seq<Datum>): (r: seq<string>)
    ensures |r| == |cands|
    ensures forall i :: 0 <= i < |cands| ==> r[i] == ToStr(cands[i])
  {
    seq(|cands|, i requires 0 <= i < |cands| => ToStr(cands[i]))
  }

  function TextData(ss: seq<string>): seq<Datum>
  {
    seq(|ss|, i requires 0 <= i < |ss| => Text(ss[i]))
  }

  /** The filter dictionary after `mongo(querydict, value)`: None or an
      unset path leave it as it was; otherwise only the key `path` is
      written, with the rendered candidates in candidate order. */
  function MongoAccumulator(path: Option<string>, acc: map<string, Fragment>, value: QueryValue): (r: map<string, Fragment>)
    ensures value.NoValue? || path.None? ==> r == acc
    ensures path.Some? ==> r.Keys <= acc.Keys + {path.value}
    ensures forall k :: k in acc && (path.None? || k != path.value) ==> k in r && r[k] == acc[k]
    ensures !value.NoValue? && path.Some? ==>
              path.value in r && r[path.value].Condition? && r[path.value].op.In? &&
              |r[path.value].op.values| == |Candidates(value)| &&
              forall i :: 0 <= i < |Candidates(value)| ==>
                r[path.value].op.values[i] == Text(ToStr(Candidates(value)[i]))
  {
    if value.NoValue? || path.None? then acc
    else acc[path.value := Condition(In(TextData(Render(Candidates(value)))))]
  }

  /** Whether `mongo` raises: only for an unset path, and only when there
      is a value (the path is not read otherwise).
      tests/query/test_Query.py:47-50 expects `mongo(querydict, None)` with
      the path unset to raise AttributeError; this version returns before
      the path is read, so the status is Ok for None. */
  function MongoStatus(path: Option<string>, value: QueryValue): (r: Result<()>)
    ensures r.Err? <==> !value.NoValue? && path.None?
    ensures r.Err? ==> r.error == AttributeError
  {
    if !value.NoValue? && path.None? then Err(AttributeError) else Ok(())
  }

  /** `DateMatchQuery.mongo(querydict, value)`. */
  method Mongo(q: Query, querydict: QueryDict, value: QueryValue) returns (status: Result<()>)
    requires q.kind == DateMatch
    modifies querydict
    ensures querydict.entries == MongoAccumulator(q.path, old(querydict.entries), value)
    ensures status == MongoStatus(q.path, value)
  {
    if value.NoValue? {
      return Ok(());
    }
    var val := Render(Candidates(value));
    if q.path.None? {
      return Err(AttributeError);
    }
    querydict.entries := querydict.entries[q.path.value := Condition(In(TextData(val)))];
    return Ok(());
  }

  /** The legacy module-level `mongo(qdict, path, val)`: the path is bound,
      so it never raises. */
  method LegacyMongo(qdict: QueryDict, path: string, val: QueryValue) returns (status: Result<()>)
    modifies qdict
    ensures qdict.entries == MongoAccumulator(Some(path), old(qdict.entries), val)
    ensures status == MongoStatus(Some(path), val) == Ok(())
  {
    status := Mongo(Query(DateMatch, None, None, Some(path)), qdict, val);
  }

  // ---------------------------------------------------------------------
  // The table predicate
  // ---------------------------------------------------------------------

  /** `str(series[name])`: NaN renders as 'nan'. A parent list renders as
      Python's list repr, which this model does not spell out: such a cell
      gives None and matches no candidate. */
  function CellString(cell: Cell): (r: Option<string>)
    ensures r.None? <==> cell.Entries?
    ensures cell.NA? ==> r == Some("nan")
    ensures cell.Value? ==> r == Some(ToStr(cell.d))
    ensures cell.Value? && cell.d.Day? ==> ParseIso(r.value) == Some(cell.d.date)
  {
    match cell
    case Value(d) => Some(ToStr(d))
    case NA => Some("nan")
    case Entries(_) => None
  }

  /** The loop over the parent list: some entry holding `name` renders as a
      candidate. str() never raises, so neither does the loop. */
  function AnyEntryIn(entries: seq<Entry>, name: string, ss: seq<string>): (r: bool)
    ensures r <==> exists j :: 0 <= j < |entries| && name in entries[j] && ToStr(entries[j][name]) in ss
  {
    if entries == [] then false
    else
      var rest := AnyEntryIn(entries[1..], name, ss);
      assert forall j :: 1 <= j < |entries| ==> entries[j] == entries[1..][j - 1];
      (name in entries[0] && ToStr(entries[0][name]) in ss) || rest
  }

  /** `apply_function(series, name, value, parent)`. */
  function RowMatches(row: Row, cols: set<string>, name: string, value: QueryValue, parent: Option<string>): (r: Result<bool>)
    ensures value.NoValue? ==> r == Ok(true)
    ensures !value.NoValue? && parent.None? ==> (r.Ok? <==> name in cols)
    ensures !value.NoValue? && parent.None? && name !in cols ==> r == Err(KeyError)
    ensures (!value.NoValue? && parent.None? && name in cols && CellString(Field(row, name)).Some?) ==>
              (r.value <==> CellString(Field(row, name)).value in Render(Candidates(value)))
    ensures !value.NoValue? && parent.Some? ==> (r.Ok? <==> parent.value in cols && Field(row, parent.value).Entries?)
    ensures !value.NoValue? && parent.Some? && parent.value !in cols ==> r == Err(KeyError)
    ensures (!value.NoValue? && parent.Some? && parent.value in cols && !Field(row, parent.value).Entries?) ==>
              r == Err(TypeError)
    ensures !value.NoValue? && parent.Some? && r.Ok? ==>
              var es := Field(row, parent.value).list;
              (r.value <==> exists j :: 0 <= j < |es| && name in es[j] &&
                                        exists i :: 0 <= i < |Candidates(value)| &&
                                                    ToStr(es[j][name]) == ToStr(Candidates(value)[i]))
  {
    if value.NoValue? then Ok(true)
    else
      var ss := Render(Candidates(value));
      if parent.None? then
        match Lookup(row, cols, name)
        case Err(e) => Err(e)
        case Ok(cell) =>
          match CellString(cell)
          case Some(s) => Ok(s in ss)
          case None => Ok(false)
      else
        match ParentEntries(row, cols, parent.value)
        case Err(e) => Err(e)
        case Ok(es) => Ok(AnyEntryIn(es, name, ss))
  }

  /** `DateMatchQuery.pandas(df, value)`. */
  function Pandas(q: Query, table: Table, value: QueryValue): (r: Result<seq<bool>>)
    requires q.kind == DateMatch
    ensures q.name.None? ==> r == Err(AttributeError)
    ensures q.name.Some? && value.NoValue? ==> r == Ok(seq(|table|, _ => true))
    ensures r.Ok? ==> |r.value| == |table|
    ensures r.Ok? ==> forall i :: 0 <= i < |table| ==>
                        RowMatches(table[i], Columns(table), q.name.value, value, q.parent) == Ok(r.value[i])
    ensures q.name.Some? ==>
              (r.Ok? <==> forall i :: 0 <= i < |table| ==> RowMatches(table[i], Columns(table), q.name.value, value, q.parent).Ok?)
    ensures q.name.Some? && r.Err? ==>
              exists i :: 0 <= i < |table| && RowMatches(table[i], Columns(table), q.name.value, value, q.parent) == Err(r.error) &&
                          forall j :: 0 <= j < i ==> RowMatches(table[j], Columns(table), q.name.value, value, q.parent).Ok?
    ensures (q.name.Some? && !value.NoValue? && table != [] && q.parent.None? &&
             q.name.value !in Columns(table)) ==> r == Err(KeyError)
    ensures (q.name.Some? && !value.NoValue? && table != [] && q.parent.Some? &&
             q.parent.value !in Columns(table)) ==> r == Err(KeyError)
  {
    if q.name.None? then Err(AttributeError)
    else
      var cols := Columns(table);
      var r := MapAll(row => RowMatches(row, cols, q.name.value, value, q.parent), table);
      if value.NoValue? then
        assert r.Ok? && r.value == seq(|table|, _ => true);
        r
      else r
  }

  /** The legacy module-level `pandas(df, name, val, parent)`. */
  function LegacyPandas(table: Table, name: string, val: QueryValue, parent: Option<string>): (r: Result<seq<bool>>)
    ensures val.NoValue? ==> r == Ok(seq(|table|, _ => true))
    ensures r.Ok? <==> forall i :: 0 <= i < |table| ==> RowMatches(table[i], Columns(table), name, val, parent).Ok?
    ensures r.Ok? ==> |r.value| == |table| &&
                      forall i :: 0 <= i < |table| ==> RowMatches(table[i], Columns(table), name, val, parent) == Ok(r.value[i])
    ensures r.Err? ==> exists i :: 0 <= i < |table| && RowMatches(table[i], Columns(table), name, val, parent) == Err(r.error) &&
                                   forall j :: 0 <= j < i ==> RowMatches(table[j], Columns(table), name, val, parent).Ok?
    ensures !val.NoValue? && table != [] && parent.None? && name !in Columns(table) ==> r == Err(KeyError)
    ensures (!val.NoValue? && table != [] && parent.Some? && parent.value !in Columns(table)) ==> r == Err(KeyError)
  {
    Pandas(Query(DateMatch, Some(name), parent, None), table, val)
  }

  // ---------------------------------------------------------------------
  // What a match means
  // ---------------------------------------------------------------------

  /** A date candidate and the string str() writes for it are the same query
      input: they give the same filter and the same row results. */
  lemma DateAndIsoStringEquivalent(cands: seq<Datum>, k: nat, row: Row, cols: set<string>, name: string, parent: Option<string>,
                                   path: Option<string>, acc: map<string, Fragment>)
    requires k < |cands| && cands[k].Day?
    ensures var same := cands[k := Text(IsoFormat(cands[k].date))];
            MongoAccumulator(path, acc, Many(cands)) == MongoAccumulator(path, acc, Many(same)) &&
            RowMatches(row, cols, name, Many(cands), parent) == RowMatches(row, cols, name, Many(same), parent)
  {
    var same := cands[k := Text(IsoFormat(cands[k].date))];
    assert Render(cands) == Render(same);
  }

  /** A stored date and its ISO string match the same candidates. */
  lemma StoredDateAndIsoStringEquivalent(row: Row, cols: set<string>, name: string, d: CalendarDate, value: QueryValue)
    ensures RowMatches(row[name := Value(Day(d))], cols, name, value, None) ==
            RowMatches(row[name := Value(Text(IsoFormat(d)))], cols, name, value, None)
  {
  }

  /** Without a parent, a row holding a date matches date candidates exactly
      when the dates are equal. */
  lemma {:induction false} DatesCompareAsDates(row: Row, cols: set<string>, name: string, d: CalendarDate, days: seq<CalendarDate>)
    requires name in cols && Field(row, name) == Value(Day(d))
    ensures RowMatches(row, cols, name, Many(seq(|days|, i requires 0 <= i < |days| => Day(days[i]))), None) ==
            Ok(d in days)
  {
    var cands := seq(|days|, i requires 0 <= i < |days| => Day(days[i]));
    var ss := Render(cands);
    if IsoFormat(d) in ss {
      var i :| 0 <= i < |ss| && ss[i] == IsoFormat(d);
      IsoInjective(d, days[i]);
    }
    if d in days {
      var i :| 0 <= i < |days| && days[i] == d;
      assert ss[i] == IsoFormat(d);
    }
  }

  /** A stored string that names no real date, such as '2016-17-02'
      (tests/query/test_DateMatchQuery.py:77), never matches a date
      candidate. */
  lemma {:induction false} MalformedDateNeverMatches(row: Row, cols: set<string>, name: string, days: seq<CalendarDate>)
    requires name in cols && Field(row, name) == Value(Text("2016-17-02"))
    ensures RowMatches(row, cols, name, Many(seq(|days|, i requires 0 <= i < |days| => Day(days[i]))), None) == Ok(false)
  {
    var cands := seq(|days|, i requires 0 <= i < |days| => Day(days[i]));
    Month17IsNoDate();
    forall i | 0 <= i < |days| ensures Render(cands)[i] != "2016-17-02" {
      NoDateRendersAs("2016-17-02", days[i]);
    }
  }

  /** `date(2017, 2, 16)` is written as `'2017-02-16'`
      (tests/query/test_DateMatchQuery.py:33-34). */
  lemma DateCandidateExample(acc: map<string, Fragment>)
    ensures MongoAccumulator(Some("root.element"), acc, One(Day(Date(2017, 2, 16))))["root.element"] ==
            Condition(In([Text("2017-02-16")]))
  {
    FormatExample();
  }
}
