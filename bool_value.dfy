/** The boolean field (`BoolValue`): how a value given to the field is
    coerced, and the default query the field offers. */
module BoolValue {
  import opened Results
  import opened PyData
  import QueryRegistry

  /** Lower-cases ASCII letters. Python's `str.lower` also folds non-ASCII
      letters, but none of them folds to a letter of "true" or "false", so
      the strings accepted below are the same. */
  function LowerChar(c: char): char
  {
    if 'A' <= c <= 'Z' then (c as int + 32) as char else c
  }

  function Lower(s: string): (r: string)
    ensures |r| == |s|
    ensures forall i :: 0 <= i < |s| ==> r[i] == LowerChar(s[i])
  {
    seq(|s|, i requires 0 <= i < |s| => LowerChar(s[i]))
  }

  /** `set_value_mod(val)`: True and False pass through; a string is read
      case-insensitively as 'true'/'t' or 'false'/'f' and any other string
      raises ValueError; any other value has no `.lower()` and raises
      AttributeError. */
  function SetValueMod(val: Datum): (r: Result<bool>)
    ensures val.Bool? ==> r == Ok(val.b)
    ensures val.Int? || val.Day? ==> r == Err(AttributeError)
    ensures val.Text? && r.Err? ==> r.error == ValueError
  {
    match val
    case Bool(b) => Ok(b)
    case Text(s) =>
      var l := Lower(s);
      if l == "true" || l == "t" then Ok(true)
      else if l == "false" || l == "f" then Ok(false)
      else Err(ValueError)
    case _ => Err(AttributeError)
  }

  /** Every successful result is a bool, and a bool passes through, so
      coercing twice is coercing once. */
  lemma SetValueModIdempotent(val: Datum)
    requires SetValueMod(val).Ok?
    ensures SetValueMod(Bool(SetValueMod(val).value)) == SetValueMod(val)
  {
  }

  /** What str() writes for a bool ('True', 'False') coerces back to it. */
  lemma StrOfBoolCoercesBack(b: bool)
    ensures SetValueMod(Text(ToStr(Bool(b)))) == Ok(b)
  {
    if b {
      assert Lower("True") == "true";
    } else {
      assert Lower("False") == "false";
    }
  }

  /** Coercion ignores letter case. */
  lemma CaseInsensitive(s: string, t: string)
    requires Lower(s) == Lower(t)
    ensures SetValueMod(Text(s)) == SetValueMod(Text(t))
  {
  }

  predicate IsOneOf(c: char, lower: char, upper: char)
  {
    c == lower || c == upper
  }

  /** The strings read as True are exactly 't', 'T' and the sixteen
      spellings of "true" in any mix of cases. */
  lemma {:induction false} TrueSpellings(s: string)
    ensures SetValueMod(Text(s)) == Ok(true) <==>
            (|s| == 1 && IsOneOf(s[0], 't', 'T')) ||
            (|s| == 4 && IsOneOf(s[0], 't', 'T') && IsOneOf(s[1], 'r', 'R') &&
                         IsOneOf(s[2], 'u', 'U') && IsOneOf(s[3], 'e', 'E'))
  {
    var l := Lower(s);
    if |s| == 1 {
      assert l == "t" <==> l[0] == 't';
    } else if |s| == 4 {
      assert l == "true" <==> l[0] == 't' && l[1] == 'r' && l[2] == 'u' && l[3] == 'e';
    }
  }

  /** The strings read as False are exactly 'f', 'F' and the thirty-two
      spellings of "false" in any mix of cases. */
  lemma {:induction false} FalseSpellings(s: string)
    ensures SetValueMod(Text(s)) == Ok(false) <==>
            (|s| == 1 && IsOneOf(s[0], 'f', 'F')) ||
            (|s| == 5 && IsOneOf(s[0], 'f', 'F') && IsOneOf(s[1], 'a', 'A') && IsOneOf(s[2], 'l', 'L') &&
                         IsOneOf(s[3], 's', 'S') && IsOneOf(s[4], 'e', 'E'))
  {
    var l := Lower(s);
    if |s| == 1 {
      assert l == "f" <==> l[0] == 'f';
      assert l != "t" <== l[0] == 'f';
    } else if |s| == 5 {
      assert l == "false" <==> l[0] == 'f' && l[1] == 'a' && l[2] == 'l' && l[3] == 's' && l[4] == 'e';
    }
  }

  /** The binding of a boolean field: its name, its metadata key and parent,
      its document path and the root element of its record. */
  datatype BoolField = BoolField(
    name: string,
    metadataKey: Option<string>,
    metadataParent: Option<string>,
    modelPath: string,
    modelRoot: string)

  /** One `load_query` call: the style and the keyword arguments. */
  datatype QueryRequest = QueryRequest(style: string, kwargs: map<string, Option<string>>)

  /** `_default_queries`: one query, keyed by the field name, that searches
      the metadata key (inside the metadata parent, if any) and the document
      path `<modelroot>.<modelpath>`, with the style 'bool_match' and a
      description. */
  function DefaultQueries(f: BoolField): (r: map<string, QueryRequest>)
    ensures r.Keys == {f.name}
    ensures r[f.name].style == "bool_match"
    ensures r[f.name].kwargs.Keys == {"name", "parent", "path", "description"}
    ensures r[f.name].kwargs["name"] == f.metadataKey && r[f.name].kwargs["parent"] == f.metadataParent
    ensures r[f.name].kwargs["path"] == Some(f.modelRoot + "." + f.modelPath)
  {
    map[f.name := QueryRequest("bool_match",
                               map["name" := f.metadataKey, "parent" := f.metadataParent,
                                   "path" := Some(f.modelRoot + "." + f.modelPath),
                                   "description" := Some("Return only the records where " + f.name + " matches a given value")])]
  }

  /** The default query cannot be loaded from the registry that
      yabadaba/query/__init__.py builds: the
      `description` keyword raises TypeError, and without it the style
      'bool_match' is not registered and raises KeyError. */
  lemma DefaultQueryNotLoadable(m: QueryRegistry.QueryManager, f: BoolField)
    requires m.loadedStyles == QueryRegistry.QueryStyles && m.failedStyles == {}
    ensures var req := DefaultQueries(f)[f.name];
            m.LoadQueryCall(req.style, req.kwargs) == Err(TypeError) &&
            m.LoadQueryCall(req.style, req.kwargs - {"description"}) == Err(KeyError)
  {
    var req := DefaultQueries(f)[f.name];
    assert "description" !in QueryRegistry.LoadQueryKeywords;
    assert (req.kwargs - {"description"}).Keys == {"name", "parent", "path"};
    assert "bool_match" !in QueryRegistry.QueryStyles;
  }
}
