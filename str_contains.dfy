/** The substring-contains query (`StrContainsQuery`): every candidate must
    occur in the field. In the document filter the candidates are AND'd as
    one `$regex` clause each; in the table, a row matches when each candidate
    is a substring of the field, or, with a parent, of the `name` value of
    some entry of the parent list.

    This version's `mongo` (yabadaba/query/str_contains.py:23) takes no
    `prefix` and writes into a dictionary; callers that pass `prefix=` or a
    list accumulator belong to a later version. */
module StrContainsQuery {
  import opened Results
  import opened PyData
  import opened Table
  import opened QueryBase

  const Style := "str_contains"
  const Description := "Query a str field for containing specific values"

  /** The key `mongo` writes. */
  const AndKey := "$and"

  /** `{path: {'$regex': v}}` for each candidate, in candidate order. */
  function RegexClauses(path: string, vs: seq<Datum>): (cs: seq<Clause>)
    ensures |cs| == |vs|
    ensures forall i :: 0 <= i < |vs| ==> cs[i] == Clause(path, Regex(vs[i]))
  {
    if vs == [] then []
    else RegexClauses(path, vs[..|vs| - 1]) + [Clause(path, Regex(vs[|vs| - 1]))]
  }

  /** The filter dictionary after `mongo(querydict, value)` on a query whose
      path is `path`. None leaves it as it was. Otherwise `$and` is replaced
      (not extended) by one clause per candidate, and no other key changes.
      With the path unset, the empty `$and` list is written before the path
      is first read. */
  function MongoAccumulator(path: Option<string>, acc: map<string, Fragment>, value: QueryValue): (r: map<string, Fragment>)
    ensures value.NoValue? ==> r == acc
    ensures !value.NoValue? ==> r.Keys == acc.Keys + {AndKey} && r[AndKey].And?
    ensures forall k :: k in acc && k != AndKey ==> k in r && r[k] == acc[k]
    ensures !value.NoValue? && path.None? ==> r[AndKey] == And([])
    ensures !value.NoValue? && path.Some? ==>
              |r[AndKey].clauses| == |Candidates(value)| &&
              forall i :: 0 <= i < |Candidates(value)| ==>
                r[AndKey].clauses[i] == Clause(path.value, Regex(Candidates(value)[i]))
  {
    if value.NoValue? then acc
    else acc[AndKey := And(if path.Some? then RegexClauses(path.value, Candidates(value)) else [])]
  }

  /** Whether `mongo` raises: only reading an unset path, which happens once
      there is at least one candidate.
      tests/query/test_Query.py:47-50 expects `mongo(querydict, None)` with
      the path unset to raise AttributeError; this version returns before
      the path is read, so the status is Ok for None. */
  function MongoStatus(path: Option<string>, value: QueryValue): (r: Result<()>)
    ensures r.Err? <==> !value.NoValue? && path.None? && |Candidates(value)| > 0
    ensures r.Err? ==> r.error == AttributeError
  {
    if !value.NoValue? && path.None? && |Candidates(value)| > 0 then Err(AttributeError) else Ok(())
  }

  /** `StrContainsQuery.mongo(querydict, value)`. */
  method Mongo(q: Query, querydict: QueryDict, value: QueryValue) returns (status: Result<()>)
    requires q.kind == StrContains
    modifies querydict
    ensures querydict.entries == MongoAccumulator(q.path, old(querydict.entries), value)
    ensures status == MongoStatus(q.path, value)
  {
    if value.NoValue? {
      return Ok(());
    }
    var vals := Candidates(value);
    querydict.entries := querydict.entries[AndKey := And([])];
    var i := 0;
    while i < |vals|
      invariant 0 <= i <= |vals|
      invariant q.path.None? ==> i == 0
      invariant querydict.entries ==
                  old(querydict.entries)[AndKey := And(if q.path.Some? then RegexClauses(q.path.value, vals[..i]) else [])]
    {
      if q.path.None? {
        return Err(AttributeError);
      }
      var group := querydict.entries[AndKey].clauses;
      querydict.entries := querydict.entries[AndKey := And(group + [Clause(q.path.value, Regex(vals[i]))])];
      assert vals[..i + 1][..i] == vals[..i];
      i := i + 1;
    }
    assert vals[..i] == vals;
    return Ok(());
  }

  /** The legacy module-level `mongo(qdict, path, val)`: the path is always
      bound, so it never raises. */
  method LegacyMongo(qdict: QueryDict, path: string, val: QueryValue) returns (status: Result<()>)
    modifies qdict
    ensures qdict.entries == MongoAccumulator(Some(path), old(qdict.entries), val)
    ensures status == MongoStatus(Some(path), val) == Ok(())
  {
    status := Mongo(Query(StrContains, None, None, Some(path)), qdict, val);
  }

  // ---------------------------------------------------------------------
  // The table predicate (`pandas` and its inner `apply_function`)
  // ---------------------------------------------------------------------

  /** `v in series[name]` for the cell of a row. A parent list is a Python
      list, whose membership test compares the candidate with each
      dictionary and never succeeds; NaN is a float and cannot be searched. */
  function InCell(cell: Cell, v: Datum): (r: Result<bool>)
    ensures r == Ok(true) <==> cell.Value? && cell.d.Text? && v.Text? && IsSubstring(v.s, cell.d.s)
    ensures r.Err? <==> cell.NA? || (cell.Value? && !(cell.d.Text? && v.Text?))
    ensures r.Err? ==> r.error == TypeError
  {
    match cell
    case Value(d) => Contains(d, v)
    case NA => Err(TypeError)
    case Entries(_) => Ok(false)
  }

  /** The parent-less loop: the first candidate that is not in the cell
      decides False; an exception stops the loop. */
  function AllInCell(cell: Cell, cands: seq<Datum>): (r: Result<bool>)
    ensures r == Ok(true) ==> forall i :: 0 <= i < |cands| ==> InCell(cell, cands[i]) == Ok(true)
    ensures r == Ok(false) ==> exists i :: 0 <= i < |cands| && InCell(cell, cands[i]) == Ok(false) &&
                                          forall j :: 0 <= j < i ==> InCell(cell, cands[j]) == Ok(true)
    ensures r.Err? ==> exists i :: 0 <= i < |cands| && InCell(cell, cands[i]) == Err(r.error) &&
                                   forall j :: 0 <= j < i ==> InCell(cell, cands[j]) == Ok(true)
    ensures (forall i :: 0 <= i < |cands| ==> InCell(cell, cands[i]).Ok?) ==> r.Ok?
  {
    if cands == [] then Ok(true)
    else
      match InCell(cell, cands[0])
      case Err(e) => Err(e)
      case Ok(b) =>
        if !b then Ok(false)
        else
          var rest := AllInCell(cell, cands[1..]);
          assert forall i :: 1 <= i < |cands| ==> cands[i] == cands[1..][i - 1];
          rest
  }

  /** The parent-less branch: NaN never matches; `pd.isna` of a list gives
      an array, whose truth value NumPy refuses when it has two or more
      elements. */
  function FieldMatches(cell: Cell, cands: seq<Datum>): (r: Result<bool>)
    ensures cell.NA? ==> r == Ok(false)
  {
    if cell.NA? then Ok(false)
    else if cell.Entries? && |cell.list| >= 2 then Err(ValueError)
    else AllInCell(cell, cands)
  }

  /** The inner loop over the parent list for one candidate: up to the first
      entry holding `name` whose value contains the candidate. Entries
      without `name` are skipped. */
  function AnyEntryContains(entries: seq<Entry>, name: string, v: Datum): (r: Result<bool>)
    ensures r == Ok(true) ==> exists j :: 0 <= j < |entries| && name in entries[j] &&
                                         Contains(entries[j][name], v) == Ok(true) &&
                                         forall k :: 0 <= k < j && name in entries[k] ==>
                                           Contains(entries[k][name], v) == Ok(false)
    ensures r.Err? ==> exists j :: 0 <= j < |entries| && name in entries[j] &&
                                  Contains(entries[j][name], v) == Err(r.error) &&
                                  forall k :: 0 <= k < j && name in entries[k] ==>
                                    Contains(entries[k][name], v) == Ok(false)
    ensures r == Ok(false) ==> forall j :: 0 <= j < |entries| && name in entries[j] ==>
                                         Contains(entries[j][name], v) == Ok(false)
    ensures (forall j :: 0 <= j < |entries| && name in entries[j] ==> Contains(entries[j][name], v).Ok?) ==> r.Ok?
  {
    if entries == [] then Ok(false)
    else
      var rest := AnyEntryContains(entries[1..], name, v);
      assert forall j :: 1 <= j < |entries| ==> entries[j] == entries[1..][j - 1];
      if name in entries[0] then
        match Contains(entries[0][name], v)
        case Err(e) => Err(e)
        case Ok(b) => if b then Ok(true) else rest
      else rest
  }

  /** The parent branch: every candidate must be found in some entry (each
      candidate may be found in a different entry). The parent column is read
      once per candidate, so with no candidates it is never read. */
  function AllInSomeEntry(row: Row, cols: set<string>, parent: string, name: string, cands: seq<Datum>): (r: Result<bool>)
    ensures cands != [] && r.Ok? ==> ParentEntries(row, cols, parent).Ok?
    ensures r == Ok(true) && cands != [] ==>
              forall i :: 0 <= i < |cands| ==>
                AnyEntryContains(ParentEntries(row, cols, parent).value, name, cands[i]) == Ok(true)
    ensures r == Ok(false) ==>
              exists i :: 0 <= i < |cands| &&
                AnyEntryContains(ParentEntries(row, cols, parent).value, name, cands[i]) == Ok(false) &&
                forall j :: 0 <= j < i ==> AnyEntryContains(ParentEntries(row, cols, parent).value, name, cands[j]) == Ok(true)
    ensures cands != [] && ParentEntries(row, cols, parent).Err? ==> r == Err(ParentEntries(row, cols, parent).error)
    ensures r.Err? && ParentEntries(row, cols, parent).Ok? ==>
              exists i :: 0 <= i < |cands| &&
                AnyEntryContains(ParentEntries(row, cols, parent).value, name, cands[i]) == Err(r.error) &&
                forall j :: 0 <= j < i ==> AnyEntryContains(ParentEntries(row, cols, parent).value, name, cands[j]) == Ok(true)
  {
    if cands == [] then Ok(true)
    else
      match ParentEntries(row, cols, parent)
      case Err(e) => Err(e)
      case Ok(es) =>
        match AnyEntryContains(es, name, cands[0])
        case Err(e) => Err(e)
        case Ok(b) =>
          if !b then Ok(false)
          else
            var rest := AllInSomeEntry(row, cols, parent, name, cands[1..]);
            assert forall i :: 1 <= i < |cands| ==> cands[i] == cands[1..][i - 1];
            rest
  }

  /** `apply_function(series, name, value, parent)` as a specification, for
      a row of a table whose columns are `cols`. */
  function RowMatches(row: Row, cols: set<string>, name: string, value: QueryValue, parent: Option<string>): (r: Result<bool>)
    ensures value.NoValue? ==> r == Ok(true)
    ensures !value.NoValue? && parent.None? && name !in cols ==> r == Err(KeyError)
    ensures !value.NoValue? && parent.None? && name in cols && Field(row, name).NA? ==> r == Ok(false)
    ensures !value.NoValue? && parent.Some? && Candidates(value) != [] && parent.value !in cols ==>
              r == Err(KeyError)
    ensures (!value.NoValue? && parent.Some? && Candidates(value) != [] && parent.value in cols &&
             !Field(row, parent.value).Entries?) ==> r == Err(TypeError)
    ensures !value.NoValue? && parent.Some? && Candidates(value) == [] ==> r == Ok(true)
  {
    if value.NoValue? then Ok(true)
    else if parent.None? then
      match Lookup(row, cols, name)
      case Err(e) => Err(e)
      case Ok(cell) => FieldMatches(cell, Candidates(value))
    else AllInSomeEntry(row, cols, parent.value, name, Candidates(value))
  }

  /** The parent-less loop of `apply_function` as the source runs it: the
      first candidate not in the field returns False. */
  method FieldLoop(cell: Cell, cands: seq<Datum>) returns (r: Result<bool>)
    ensures r == AllInCell(cell, cands)
  {
    var k := 0;
    while k < |cands|
      invariant 0 <= k <= |cands|
      invariant AllInCell(cell, cands) == AllInCell(cell, cands[k..])
    {
      assert cands[k..][1..] == cands[k + 1..];
      var c := InCell(cell, cands[k]);
      if c.Err? {
        return Err(c.error);
      }
      if !c.value {
        return Ok(false);
      }
      k := k + 1;
    }
    return Ok(true);
  }

  /** The inner loop over the parent entries for one candidate, with its
      `match` flag and `break`. */
  method EntryLoop(es: seq<Entry>, name: string, v: Datum) returns (r: Result<bool>)
    ensures r == AnyEntryContains(es, name, v)
  {
    var found := false;
    var j := 0;
    while j < |es|
      invariant 0 <= j <= |es|
      invariant !found
      invariant AnyEntryContains(es, name, v) == AnyEntryContains(es[j..], name, v)
    {
      assert es[j..][1..] == es[j + 1..];
      if name in es[j] {
        var c := Contains(es[j][name], v);
        if c.Err? {
          return Err(c.error);
        }
        if c.value {
          found := true;
          break;
        }
      }
      j := j + 1;
    }
    return Ok(found);
  }

  /** The outer loop of the parent branch: the parent column is iterated
      afresh for each candidate, and a candidate found in no entry returns
      False. */
  method ParentLoop(row: Row, cols: set<string>, p: string, name: string, cands: seq<Datum>) returns (r: Result<bool>)
    ensures r == AllInSomeEntry(row, cols, p, name, cands)
  {
    var k := 0;
    while k < |cands|
      invariant 0 <= k <= |cands|
      invariant AllInSomeEntry(row, cols, p, name, cands) == AllInSomeEntry(row, cols, p, name, cands[k..])
    {
      assert cands[k..][1..] == cands[k + 1..];
      var iter := ParentEntries(row, cols, p);
      if iter.Err? {
        return Err(iter.error);
      }
      var m := EntryLoop(iter.value, name, cands[k]);
      if m.Err? {
        return Err(m.error);
      }
      if !m.value {
        return Ok(false);
      }
      k := k + 1;
    }
    return Ok(true);
  }

  /** `apply_function` as the source runs it, with its early returns. */
  method ApplyFunction(row: Row, cols: set<string>, name: string, value: QueryValue, parent: Option<string>)
    returns (r: Result<bool>)
    ensures r == RowMatches(row, cols, name, value, parent)
  {
    if value.NoValue? {
      return Ok(true);
    }
    var cands := Candidates(value);
    if parent.None? {
      var read := Lookup(row, cols, name);
      if read.Err? {
        return Err(read.error);
      }
      var cell := read.value;
      if cell.NA? {
        return Ok(false);
      }
      if cell.Entries? && |cell.list| >= 2 {
        return Err(ValueError);
      }
      r := FieldLoop(cell, cands);
    } else {
      r := ParentLoop(row, cols, parent.value, name, cands);
    }
  }

  /** `StrContainsQuery.pandas(df, value)`: one boolean per row, in row
      order. The name is read before any row is visited. */
  function Pandas(q: Query, table: Table, value: QueryValue): (r: Result<seq<bool>>)
    requires q.kind == StrContains
    ensures q.name.None? ==> r == Err(AttributeError)
    ensures q.name.Some? && value.NoValue? ==> r == Ok(seq(|table|, _ => true))
    ensures r.Ok? ==> |r.value| == |table|
    ensures r.Ok? ==> forall i :: 0 <= i < |table| ==>
                        RowMatches(table[i], Columns(table), q.name.value, value, q.parent) == Ok(r.value[i])
    ensures q.name.Some? ==>
              (r.Ok? <==> forall i :: 0 <= i < |table| ==> RowMatches(table[i], Columns(table), q.name.value, value, q.parent).Ok?)
    ensures q.name.Some? && r.Err? ==>
              exists i :: 0 <= i < |table| && RowMatches(table[i], Columns(table), q.name.value, value, q.parent) == Err(r.error) &&
                          forall j :: 0 <= j < i ==> RowMatches(table[j], Columns(table), q.name.value, value, q.parent).Ok?
    ensures q.name.Some? && !value.NoValue? && table != [] && q.parent.None? && q.name.value !in Columns(table) ==>
              r == Err(KeyError)
    ensures (q.name.Some? && !value.NoValue? && table != [] && q.parent.Some? && Candidates(value) != [] &&
             q.parent.value !in Columns(table)) ==> r == Err(KeyError)
  {
    if q.name.None? then Err(AttributeError)
    else
      var cols := Columns(table);
      var r := MapAll(row => RowMatches(row, cols, q.name.value, value, q.parent), table);
      if value.NoValue? then
        assert r.Ok? && r.value == seq(|table|, _ => true);
        r
      else r
  }

  /** The legacy module-level `pandas(df, name, val, parent)`: the name is
      always bound, so None selects every row. */
  function LegacyPandas(table: Table, name: string, val: QueryValue, parent: Option<string>): (r: Result<seq<bool>>)
    ensures val.NoValue? ==> r == Ok(seq(|table|, _ => true))
    ensures r.Ok? <==> forall i :: 0 <= i < |table| ==> RowMatches(table[i], Columns(table), name, val, parent).Ok?
    ensures r.Ok? ==> |r.value| == |table| &&
                      forall i :: 0 <= i < |table| ==> RowMatches(table[i], Columns(table), name, val, parent) == Ok(r.value[i])
    ensures r.Err? ==> exists i :: 0 <= i < |table| && RowMatches(table[i], Columns(table), name, val, parent) == Err(r.error) &&
                                   forall j :: 0 <= j < i ==> RowMatches(table[j], Columns(table), name, val, parent).Ok?
    ensures !val.NoValue? && table != [] && parent.None? && name !in Columns(table) ==> r == Err(KeyError)
    ensures (!val.NoValue? && table != [] && parent.Some? && Candidates(val) != [] &&
             parent.value !in Columns(table)) ==> r == Err(KeyError)
  {
    Pandas(Query(StrContains, Some(name), parent, None), table, val)
  }

  // ---------------------------------------------------------------------
  // What a match means
  // ---------------------------------------------------------------------

  /** A single string is one clause holding the whole string. */
  lemma SingleStringIsOneClause(path: string, acc: map<string, Fragment>, s: string)
    ensures MongoAccumulator(Some(path), acc, One(Text(s)))[AndKey] == And([Clause(path, Regex(Text(s)))])
  {
  }

  /** Without a parent, a string field matches exactly when every candidate
      string is a substring of it. */
  lemma {:induction false} FieldMatchesIffAllSubstrings(field: string, cands: seq<Datum>)
    requires forall i :: 0 <= i < |cands| ==> cands[i].Text?
    ensures FieldMatches(Value(Text(field)), cands) ==
            Ok(forall i :: 0 <= i < |cands| ==> IsSubstring(cands[i].s, field))
  {
    var r := AllInCell(Value(Text(field)), cands);
    assert r.Ok?;
    if r.value {
      assert forall i :: 0 <= i < |cands| ==> InCell(Value(Text(field)), cands[i]) == Ok(true);
    }
  }

  /** With a parent, a row matches exactly when each candidate string is a
      substring of the `name` value of at least one entry of the parent list;
      entries without `name` take no part. */
  lemma {:induction false} ParentMatchesIffEachInSomeEntry(row: Row, cols: set<string>, parent: string, name: string, cands: seq<Datum>)
    requires parent in cols && Field(row, parent).Entries?
    requires forall i :: 0 <= i < |cands| ==> cands[i].Text?
    requires forall e: Entry :: e in Field(row, parent).list && name in e ==> e[name].Text?
    ensures var es := Field(row, parent).list;
            AllInSomeEntry(row, cols, parent, name, cands) ==
            Ok(forall i :: 0 <= i < |cands| ==>
                 exists j :: 0 <= j < |es| && name in es[j] && IsSubstring(cands[i].s, es[j][name].s))
  {
    var es := Field(row, parent).list;
    forall i | 0 <= i < |cands|
      ensures AnyEntryContains(es, name, cands[i]).Ok?
    {
      assert forall j :: 0 <= j < |es| && name in es[j] ==> es[j] in es;
    }
    if cands != [] {
      var r := AllInSomeEntry(row, cols, parent, name, cands);
      assert r.Ok? by {
        ThroughAllCandidates(row, cols, parent, name, cands);
      }
      if r.value {
        forall i | 0 <= i < |cands|
          ensures exists j :: 0 <= j < |es| && name in es[j] && IsSubstring(cands[i].s, es[j][name].s)
        {
          assert AnyEntryContains(es, name, cands[i]) == Ok(true);
        }
      } else {
        var i :| 0 <= i < |cands| && AnyEntryContains(es, name, cands[i]) == Ok(false);
        assert !exists j :: 0 <= j < |es| && name in es[j] && IsSubstring(cands[i].s, es[j][name].s) by {
          forall j | 0 <= j < |es| && name in es[j]
            ensures !IsSubstring(cands[i].s, es[j][name].s)
          {
            assert es[j] in es;
            assert Contains(es[j][name], cands[i]) == Ok(false);
          }
        }
      }
    }
  }

  /** When no candidate raises against the parent list, the loop over the
      candidates does not raise either. */
  lemma {:induction false} ThroughAllCandidates(row: Row, cols: set<string>, parent: string, name: string, cands: seq<Datum>)
    requires parent in cols && Field(row, parent).Entries?
    requires forall i :: 0 <= i < |cands| ==> AnyEntryContains(Field(row, parent).list, name, cands[i]).Ok?
    ensures AllInSomeEntry(row, cols, parent, name, cands).Ok?
  {
    if cands != [] {
      ThroughAllCandidates(row, cols, parent, name, cands[1..]);
    }
  }

  /** The columns of the substring test table. */
  const TestColumns: set<string> := {"name", "thisguy", "parent"}

  /** Row 'second' of the substring test table (tests/query/test_StrContainsQuery.py:65-76).
      With the parent 'parent' and the candidates 'value1' and 'value2', the
      code in yabadaba/query/str_contains.py:73-82 matches it, because 'value1' is found in the first entry and
      'value2' in the second. The test at tests/query/test_StrContainsQuery.py:150-152
      expects only row 'third', which would need both candidates in one entry;
      that test belongs to a later version of the code. */
  lemma SecondRowMatchesUnderParent()
    ensures RowMatches(
              map["name" := Value(Text("second")),
                  "thisguy" := Value(Text("field contains value1 and value2")),
                  "parent" := Entries([map["thisguy" := Text("child field with value1")],
                                       map["thisguy" := Text("child field with value2")]])],
              TestColumns, "thisguy", Many([Text("value1"), Text("value2")]), Some("parent")) == Ok(true)
  {
    var es := [map["thisguy" := Text("child field with value1")],
               map["thisguy" := Text("child field with value2")]];
    assert "child field with value1"[17..23] == "value1";
    assert OccursAt("value1", "child field with value1", 17);
    assert "child field with value2"[17..23] == "value2";
    assert OccursAt("value2", "child field with value2", 17);
    var row := map["name" := Value(Text("second")),
                   "thisguy" := Value(Text("field contains value1 and value2")),
                   "parent" := Entries(es)];
    var cands := [Text("value1"), Text("value2")];
    ParentMatchesIffEachInSomeEntry(row, TestColumns, "parent", "thisguy", cands);
    assert forall i :: 0 <= i < |cands| ==>
             exists j :: 0 <= j < |es| && "thisguy" in es[j] && IsSubstring(cands[i].s, es[j]["thisguy"].s) by {
      assert IsSubstring(cands[0].s, es[0]["thisguy"].s);
      assert IsSubstring(cands[1].s, es[1]["thisguy"].s);
    }
  }
}
