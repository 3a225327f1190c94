/** The query style registry (`querymanager`) and `load_query`. The package
    fills the registry by one assignment per style when it is imported; a
    lookup has three outcomes: the query class, KeyError for a style never
    registered, and ImportError for a style whose import failed. */
module QueryRegistry {
  import opened Results
  import opened QueryBase
  import StrContainsQuery
  import IntMatchQuery
  import DateMatchQuery

  /** The style table as the package leaves it: both `in_list` and
      `list_contains` name the list-contains class. */
  const QueryStyles: map<string, Kind> :=
    map["str_contains" := StrContains,
        "str_match" := StrMatch,
        "in_list" := ListContains,
        "list_contains" := ListContains,
        "int_match" := IntMatch,
        "date_match" := DateMatch]

  /** The keyword parameters of `load_query` (yabadaba/query/__init__.py:33). */
  const LoadQueryKeywords: set<string> := {"name", "parent", "path"}

  /** A keyword argument's value; an omitted one takes its default None. */
  function Keyword(kwargs: map<string, Option<string>>, key: string): Option<string>
  {
    if key in kwargs then kwargs[key] else None
  }

  /** The registry object: the styles that loaded and the styles whose import
      failed. How the registry imports a module is not part of this model;
      an import attempt is given to it as its outcome. */
  class QueryManager {
    var loadedStyles: map<string, Kind>
    var failedStyles: set<string>

    /** A new registry knows no style. */
    constructor ()
      ensures loadedStyles == map[] && failedStyles == {}
    {
      loadedStyles := map[];
      failedStyles := {};
    }

    /** `loaded_styles[style] = cls`. */
    method Register(style: string, kind: Kind)
      modifies this
      ensures loadedStyles == old(loadedStyles)[style := kind]
      ensures failedStyles == old(failedStyles)
    {
      loadedStyles := loadedStyles[style := kind];
    }

    /** `import_style(style, ...)` given whether the import succeeded. */
    method ImportStyle(style: string, imported: Option<Kind>)
      modifies this
      ensures imported.Some? ==> loadedStyles == old(loadedStyles)[style := imported.value] && failedStyles == old(failedStyles)
      ensures imported.None? ==> loadedStyles == old(loadedStyles) && failedStyles == old(failedStyles) + {style}
    {
      if imported.Some? {
        loadedStyles := loadedStyles[style := imported.value];
      } else {
        failedStyles := failedStyles + {style};
      }
    }

    /** `loaded_style_names`. */
    function LoadedStyleNames(): (names: set<string>)
      reads this
      ensures forall s :: s in names <==> s in loadedStyles
      ensures forall s :: s in failedStyles && s !in loadedStyles ==> s !in names
      ensures forall s :: s !in failedStyles ==> (s in names <==> Resolve(s).Ok?)
    {
      loadedStyles.Keys
    }

    /** `assert_style(style)` followed by the class lookup. */
    function Resolve(style: string): (r: Result<Kind>)
      reads this
      ensures style in failedStyles ==> r == Err(ImportError)
      ensures style !in failedStyles && style !in loadedStyles ==> r == Err(KeyError)
      ensures style !in failedStyles && style in loadedStyles ==> r == Ok(loadedStyles[style])
    {
      if style in failedStyles then Err(ImportError)
      else if style !in loadedStyles then Err(KeyError)
      else Ok(loadedStyles[style])
    }

    /** `load_query(style, name, parent, path)`: the three attributes are
        passed to the new query unchanged. */
    function LoadQuery(style: string, name: Option<string>, parent: Option<string>, path: Option<string>): (r: Result<Query>)
      reads this
      ensures r.Err? <==> Resolve(style).Err?
      ensures r.Err? ==> r.error == Resolve(style).error
      ensures r.Ok? ==> r.value.kind == Resolve(style).value &&
                        r.value.name == name && r.value.parent == parent && r.value.path == path
    {
      match Resolve(style)
      case Err(e) => Err(e)
      case Ok(kind) => Ok(Query(kind, name, parent, path))
    }

    /** `load_query(style, **kwargs)` as Python binds keyword arguments: a
        keyword the signature does not name raises TypeError before the
        registry is consulted. */
    function LoadQueryCall(style: string, kwargs: map<string, Option<string>>): (r: Result<Query>)
      reads this
      ensures !(kwargs.Keys <= LoadQueryKeywords) ==> r == Err(TypeError)
      ensures kwargs.Keys <= LoadQueryKeywords && r.Ok? ==>
                r.value.name == Keyword(kwargs, "name") && r.value.parent == Keyword(kwargs, "parent") &&
                r.value.path == Keyword(kwargs, "path") && Resolve(style) == Ok(r.value.kind)
      ensures kwargs.Keys <= LoadQueryKeywords && r.Err? ==> Resolve(style) == Err(r.error)
    {
      if !(kwargs.Keys <= LoadQueryKeywords) then Err(TypeError)
      else LoadQuery(style, Keyword(kwargs, "name"), Keyword(kwargs, "parent"), Keyword(kwargs, "path"))
    }
  }

  /** The registration the package performs when it is imported
      (yabadaba/query/__init__.py:10-30). */
  method BuildQueryManager() returns (m: QueryManager)
    ensures fresh(m)
    ensures m.loadedStyles == QueryStyles && m.failedStyles == {}
    ensures m.LoadedStyleNames() != {}
  {
    m := new QueryManager();
    m.Register("str_contains", StrContains);
    m.Register("str_match", StrMatch);
    m.Register("in_list", ListContains);
    m.Register("list_contains", ListContains);
    m.Register("int_match", IntMatch);
    m.Register("date_match", DateMatch);
    assert "str_contains" in m.loadedStyles;
  }

  /** A registry that imported one style and failed to import another lists
      only the first as loaded and only the second as failed
      (tests/tools/test_ModuleManager.py:17-23). */
  method ImportOneGoodOneBad(good: string, k: Kind, bad: string) returns (names: set<string>, failed: set<string>)
    ensures names == {good} && failed == {bad}
  {
    var m := new QueryManager();
    m.ImportStyle(good, Some(k));
    m.ImportStyle(bad, None);
    names := m.LoadedStyleNames();
    failed := m.failedStyles;
  }

  /** What the built registry answers: each registered query class under its own
      style, one class under both list styles, KeyError for anything else. */
  lemma BuiltRegistryLookups(m: QueryManager, style: string)
    requires m.loadedStyles == QueryStyles && m.failedStyles == {}
    ensures m.Resolve(StrContainsQuery.Style) == Ok(StrContains)
    ensures m.Resolve(IntMatchQuery.Style) == Ok(IntMatch)
    ensures m.Resolve(DateMatchQuery.Style) == Ok(DateMatch)
    ensures m.Resolve("in_list") == m.Resolve("list_contains") == Ok(ListContains)
    ensures style !in {"str_contains", "str_match", "in_list", "list_contains", "int_match", "date_match"} ==>
              m.Resolve(style) == Err(KeyError)
  {
  }

  /** The three lookup outcomes: a loaded style gives its query, a style
      whose import failed ImportError, and a style the registry never saw
      KeyError (tests/tools/test_ModuleManager.py:25-36). */
  lemma LookupOutcomesAreDistinct(m: QueryManager, good: string, bad: string, fake: string, k: Kind)
    requires m.loadedStyles == map[good := k] && m.failedStyles == {bad}
    requires good != bad && fake != good && fake != bad
    ensures m.LoadQuery(good, None, None, None) == Ok(Query(k, None, None, None))
    ensures m.LoadQuery(bad, None, None, None) == Err(ImportError)
    ensures m.LoadQuery(fake, None, None, None) == Err(KeyError)
  {
  }
}
