# yabadaba query core in Dafny

yabadaba keeps records both as documents (a document database filtered by
Mongo-style query dictionaries) and as flat metadata tables (a pandas
DataFrame filtered by a boolean row mask). Each record field names a *query
style*, and each style compiles a user value in two ways:

* `mongo(querydict, value)` writes a filter fragment into a dictionary;
* `pandas(df, value)` maps every table row to True or False.

This project models:

* three query styles, substring-contains (`str_contains`), integer match
  (`int_match`) and date match (`date_match`), and the legacy module-level
  `mongo`/`pandas`/`description` wrappers of each;
* the style registry (`querymanager`) and `load_query`;
* the boolean field's value coercion and default query;
* the demo `FAQ` record: its setters, its document model, its metadata and
  its queries.

The model follows the files as they are written. Where the test files expect
a later behaviour, the model keeps the code of this version, and the member
concerned says so in a comment: the `prefix` argument and the list
accumulator (module comments of the three query modules), a `mongo` call with
value None and no path, which the tests expect to raise (the three
`MongoStatus` functions), and the multi-candidate parent test of the
substring query (`StrContainsQuery.SecondRowMatchesUnderParent`).

Modules:

| file | module | what it holds |
|---|---|---|
| results.dfy | `Results` | `Option` (None), `Result` with the Python exception kinds, `MapAll` (a list comprehension or `df.apply` that stops at the first raise) |
| decimal.dfy | `Decimal` | decimal digits of integers, `int()` parsing of strings |
| iso_date.dfy | `IsoDate` | calendar dates and their `YYYY-MM-DD` rendering |
| py_data.dfy | `PyData` | the scalar values compared (`str`, `int`, `bool`, `date`) with `int()`, `str()` and `in` |
| table.dfy | `Table` | metadata rows and the table's columns (a column the table lacks raises KeyError, one only the row lacks reads as NaN), parent lists of dictionaries, `aslist` of a query value |
| query_base.dfy | `QueryBase` | query objects, filter fragments, and the `QueryDict` object that `mongo` fills |
| str_contains.dfy | `StrContainsQuery` | the substring-contains style |
| int_match.dfy | `IntMatchQuery` | the integer-match style |
| date_match.dfy | `DateMatchQuery` | the date-match style |
| query_registry.dfy | `QueryRegistry` | the registry class, its build and `load_query` |
| bool_value.dfy | `BoolValue` | `set_value_mod` and `_default_queries` |
| faq.dfy | `FAQRecord` | the FAQ record class and its document |

The `mongo` methods change a `QueryDict` object in place. Each is proved
equal to a pure function of the old dictionary (`MongoAccumulator`) and to a
pure status function (`MongoStatus`), and the meaning of the new dictionary
is stated on those functions.

The `pandas` row functions are pure, as `apply_function` is. The
substring-contains `apply_function` is also written as the nested loop the
source runs (`StrContainsQuery.ApplyFunction`) and proved equal to that
function.

## Model

| member | source | states |
|---|---|---|
| Results.MapAll | yabadaba/query/int_match.py:35 | a comprehension succeeds exactly when every element converts; then the results keep length and order; otherwise the error is that of the first element that raises, all earlier ones having converted |
| Decimal.ParseIntString | yabadaba/query/int_match.py:59-62 | int() of the str() of any integer gives that integer back |
| Decimal.ParseInt | yabadaba/query/int_match.py:59 | int() of a string: it converts exactly when it is ASCII decimal digits after an optional sign; the value is that of the digits, negated after a leading `-` |
| Decimal.IntString | yabadaba/query/date_match.py:58 | str() of an integer: the digits of its magnitude with no leading zero (a lone `0` for zero), after a `-` exactly when it is negative |
| Decimal.IntStringInjective | yabadaba/query/int_match.py:62 | distinct integers have distinct str() renderings |
| IsoDate.IsoRoundTrip | yabadaba/query/date_match.py:58-61 | the `YYYY-MM-DD` string str() writes for a date reads back as the same date |
| IsoDate.IsoFormat | yabadaba/query/date_match.py:34 | str() of a date is ten characters with `-` at positions 4 and 7 (its content is fixed by IsoRoundTrip) |
| IsoDate.IsoInjective | yabadaba/query/date_match.py:61 | two dates with the same rendering are the same date |
| IsoDate.NoDateRendersAs | yabadaba/query/date_match.py:61 | a string naming no real date is never the rendering of a date |
| PyData.ToInt | yabadaba/query/int_match.py:59 | int() keeps an int, gives 1 or 0 for True or False, refuses a date with TypeError, converts a string exactly when `ParseInt` reads it and then to the value read, and raises only TypeError or ValueError |
| PyData.ToStr | yabadaba/query/date_match.py:58 | str() keeps a string, writes an int in its shortest decimal form, a bool as `True` or `False`, a date as `YYYY-MM-DD`; the int and date renderings parse back to the value |
| PyData.Contains | yabadaba/query/str_contains.py:69 | `v in s` answers exactly when both are strings, and answers whether v is a substring of s; otherwise TypeError |
| PyData.NumericStringToInt | yabadaba/query/int_match.py:59 | int() of the decimal string of n is n |
| Table.Columns | yabadaba/query/str_contains.py:84 | the columns of a DataFrame built from row dictionaries: a name is a column exactly when some row holds it |
| Table.Lookup | yabadaba/query/int_match.py:62 | `series[name]`: KeyError exactly when the table has no such column; otherwise the row's value, or NaN when only other rows hold the column |
| Table.ParentEntries | yabadaba/query/str_contains.py:76 | iterating `series[parent]`: KeyError for a column the table lacks; otherwise the entries when the cell is a list, TypeError when it is not |
| Table.Field | yabadaba/query/int_match.py:62 | the cell of a row under a column of its table: the row's value when it holds the column, NaN when it does not |
| Table.Candidates | yabadaba/query/str_contains.py:37 | `aslist`/`iaslist`: a single value, a string included, is one candidate; a list is its elements in order |
| StrContainsQuery.RegexClauses | yabadaba/query/str_contains.py:39-40 | one `{path: {'$regex': v}}` clause per candidate, in candidate order |
| StrContainsQuery.InCell | yabadaba/query/str_contains.py:69 | `v in series[name]` is true exactly for a string field containing the string v; NaN and a non-string scalar raise TypeError; a parent list never contains v |
| StrContainsQuery.MongoAccumulator | yabadaba/query/str_contains.py:36-40 | None leaves the dictionary unchanged; otherwise its keys gain exactly `$and`, which is replaced rather than extended; it holds one clause per candidate in order, or the empty list written before an unset path is read; no other key changes |
| StrContainsQuery.MongoStatus | yabadaba/query/str_contains.py:37-40 | mongo raises exactly when a value with at least one candidate meets an unset path, and then raises AttributeError |
| StrContainsQuery.Mongo | yabadaba/query/str_contains.py:23-40 | the new dictionary and the status are those two functions of the old dictionary, the path and the value |
| StrContainsQuery.LegacyMongo | yabadaba/query/str_contains.py:91-92 | the wrapper writes as a query with that path, and its status is Ok: it never raises |
| StrContainsQuery.AllInCell | yabadaba/query/str_contains.py:68-71 | true only when every candidate is in the field; false only when some candidate is not and every earlier one is; an exception only from the first candidate whose test raises, every earlier one being in the field |
| StrContainsQuery.FieldMatches | yabadaba/query/str_contains.py:64-71 | a NaN field matches nothing |
| StrContainsQuery.AnyEntryContains | yabadaba/query/str_contains.py:75-79 | the parent loop is true only at an entry holding the name whose value contains the candidate, every earlier such entry not containing it; false only when no such entry contains it; it raises only at the first raising `in` test, and cannot raise when none does |
| StrContainsQuery.AllInSomeEntry | yabadaba/query/str_contains.py:74-82 | with a parent, true only when each candidate is found in some entry; false only at the first candidate found in none; once there is a candidate, reading the parent raises first (KeyError for a missing column, TypeError for a cell that is not a list); otherwise an exception comes from the first candidate whose search raises |
| StrContainsQuery.RowMatches | yabadaba/query/str_contains.py:60-82 | None matches every row; without a parent, a column the table lacks raises KeyError and a NaN field matches nothing; with a parent and a candidate, a parent column the table lacks raises KeyError and a parent that is not a list TypeError; with no candidates a parent row matches |
| StrContainsQuery.ApplyFunction | yabadaba/query/str_contains.py:60-82 | `apply_function` with its early returns computes exactly the row function |
| StrContainsQuery.FieldLoop | yabadaba/query/str_contains.py:68-71 | the parent-less candidate loop computes exactly `AllInCell` |
| StrContainsQuery.EntryLoop | yabadaba/query/str_contains.py:75-80 | the entry loop with its `match` flag and `break` computes exactly `AnyEntryContains` |
| StrContainsQuery.ParentLoop | yabadaba/query/str_contains.py:74-82 | the candidate loop of the parent branch computes exactly `AllInSomeEntry` |
| StrContainsQuery.Pandas | yabadaba/query/str_contains.py:42-84 | an unset name raises AttributeError; None selects every row; otherwise it succeeds exactly when every row's check does, with one answer per row, each the row function's, and otherwise raises the exception of the first row that raises; on a table with rows, a column read that the table lacks raises KeyError |
| StrContainsQuery.LegacyPandas | yabadaba/query/str_contains.py:94-95 | the wrapper is pandas on a query with that name and parent: None selects every row; it succeeds exactly when every row's check does, with one answer per row, each the row function's; otherwise the first raising row's exception, KeyError when a table with rows lacks the column read |
| StrContainsQuery.SingleStringIsOneClause | yabadaba/query/str_contains.py:37-40 | a single string is one clause, not one per character |
| StrContainsQuery.FieldMatchesIffAllSubstrings | yabadaba/query/str_contains.py:64-71 | without a parent, a string field matches exactly when every candidate string is a substring of it |
| StrContainsQuery.ParentMatchesIffEachInSomeEntry | yabadaba/query/str_contains.py:73-82 | with a parent, a row matches exactly when each candidate is a substring of the name value of at least one entry, possibly a different entry per candidate |
| StrContainsQuery.ThroughAllCandidates | yabadaba/query/str_contains.py:74-82 | the candidate loop does not raise when no single candidate raises |
| StrContainsQuery.SecondRowMatchesUnderParent | tests/query/test_StrContainsQuery.py:65-76 | the test table's row `second` matches `['value1', 'value2']` under the parent, one candidate per entry |
| IntMatchQuery.MongoAccumulator | yabadaba/query/int_match.py:34-36 | None, an unconvertible candidate or an unset path leave the dictionary unchanged; otherwise only the path key is (over)written, with each candidate's int() in order |
| IntMatchQuery.Coerce | yabadaba/query/int_match.py:35 | the candidates convert exactly when each does, in order; otherwise the error is that of the first candidate int() refuses |
| IntMatchQuery.MongoStatus | yabadaba/query/int_match.py:34-36 | the conversion error comes first; after a successful conversion, mongo raises exactly when the path is unset |
| IntMatchQuery.Mongo | yabadaba/query/int_match.py:21-36 | the new dictionary and the status are those two functions of the old dictionary, the path and the value |
| IntMatchQuery.LegacyMongo | yabadaba/query/int_match.py:77-78 | the wrapper writes as a query with that path, and raises exactly int()'s error on the first candidate that does not convert; never AttributeError |
| IntMatchQuery.AnyEntryIn | yabadaba/query/int_match.py:65-68 | the parent loop is true only at an entry holding the name that converts to a candidate, every earlier such entry converting to a non-candidate; false only when every such entry converts to a non-candidate; it raises only int()'s error at the first entry that does not convert |
| IntMatchQuery.CellToInt | yabadaba/query/int_match.py:62 | int() of a cell: NaN raises ValueError, a list or a date TypeError, an int is itself, a bool 1 or 0, a string converts exactly when it is a signed decimal and to the value read |
| IntMatchQuery.RowMatches | yabadaba/query/int_match.py:56-68 | None matches; a candidate int() refuses raises its error; without a parent, a column the table lacks raises KeyError, then the row raises the field's conversion error, or else matches exactly when the converted field is a candidate; with a parent, a parent column the table lacks raises KeyError, a parent that is not a list TypeError, and otherwise the answer is the parent loop's |
| IntMatchQuery.Pandas | yabadaba/query/int_match.py:38-70 | an unset name raises AttributeError; None selects every row; otherwise it succeeds exactly when every row's check does, with one answer per row, each the row function's, and otherwise raises the exception of the first row that raises; on a table with rows, a column read that the table lacks raises KeyError |
| IntMatchQuery.LegacyPandas | yabadaba/query/int_match.py:80-81 | the wrapper is pandas on a query with that name and parent: None selects every row; it succeeds exactly when every row's check does, with one answer per row, each the row function's; otherwise the first raising row's exception, KeyError when a table with rows lacks the column read |
| IntMatchQuery.ParentMatchIffSomeEntry | yabadaba/query/int_match.py:64-68 | with a parent, candidates are OR'd: a row matches exactly when some entry's converted name value is a candidate |
| IntMatchQuery.AnyEntryInSameMembers | yabadaba/query/int_match.py:65-68 | the parent loop depends only on which integers the candidates contain |
| IntMatchQuery.CandidateOrderIrrelevant | yabadaba/query/int_match.py:59-68 | reordering or repeating candidates does not change any row's answer |
| IntMatchQuery.MixedCandidatesExample | tests/query/test_IntMatchQuery.py:36-38 | `[105, '95']` is written as `{'$in': [105, 95]}` |
| IntMatchQuery.SecondRowMatchesMinusEight | tests/query/test_IntMatchQuery.py:141-143 | the test table's row `second` matches -8 under the parent, through its entry `'-8'` |
| DateMatchQuery.Render | yabadaba/query/date_match.py:34 | str() of each candidate, in order |
| DateMatchQuery.MongoAccumulator | yabadaba/query/date_match.py:33-35 | None or an unset path leave the dictionary unchanged; otherwise only the path key is written, with each candidate's str() in order |
| DateMatchQuery.MongoStatus | yabadaba/query/date_match.py:33-35 | mongo raises exactly when a value meets an unset path, with AttributeError |
| DateMatchQuery.Mongo | yabadaba/query/date_match.py:20-35 | the new dictionary and the status are those two functions of the old dictionary, the path and the value |
| DateMatchQuery.LegacyMongo | yabadaba/query/date_match.py:76-77 | the wrapper writes as a query with that path, and its status is Ok: it never raises |
| DateMatchQuery.AnyEntryIn | yabadaba/query/date_match.py:64-67 | the parent loop is true exactly when some entry holding the name renders as a candidate |
| DateMatchQuery.CellString | yabadaba/query/date_match.py:61 | str() of a cell: NaN is `nan`, a scalar its str(), a stored date a string that reads back as that date; a list has no rendering in the model |
| DateMatchQuery.RowMatches | yabadaba/query/date_match.py:55-67 | None matches; without a parent the row raises exactly when the table lacks the column (KeyError) and matches exactly when the field's str() is among the candidates' str(); with a parent it raises exactly when the table lacks the parent column (KeyError) or the parent is not a list (TypeError), and matches exactly when some entry renders as some candidate |
| DateMatchQuery.Pandas | yabadaba/query/date_match.py:37-69 | an unset name raises AttributeError; None selects every row; otherwise it succeeds exactly when every row's check does, with one answer per row, each the row function's, and otherwise raises the exception of the first row that raises; on a table with rows, a column read that the table lacks raises KeyError |
| DateMatchQuery.LegacyPandas | yabadaba/query/date_match.py:79-80 | the wrapper is pandas on a query with that name and parent: None selects every row; it succeeds exactly when every row's check does, with one answer per row, each the row function's; otherwise the first raising row's exception, KeyError when a table with rows lacks the column read |
| DateMatchQuery.DateAndIsoStringEquivalent | yabadaba/query/date_match.py:34 | a date candidate and its `YYYY-MM-DD` string give the same filter and the same row answers |
| DateMatchQuery.StoredDateAndIsoStringEquivalent | yabadaba/query/date_match.py:61 | a stored date and its `YYYY-MM-DD` string match the same candidates |
| DateMatchQuery.DatesCompareAsDates | yabadaba/query/date_match.py:58-61 | a stored date matches date candidates exactly when it equals one of them |
| DateMatchQuery.MalformedDateNeverMatches | tests/query/test_DateMatchQuery.py:77 | the stored string `2016-17-02` matches no date candidate |
| DateMatchQuery.DateCandidateExample | tests/query/test_DateMatchQuery.py:33-34 | `date(2017, 2, 16)` is written as `{'$in': ['2017-02-16']}` |
| QueryRegistry.QueryManager.constructor | tests/tools/test_ModuleManager.py:12-15 | a new registry has no loaded and no failed styles |
| QueryRegistry.QueryManager.Register | yabadaba/query/__init__.py:13 | the style maps to the class, other styles and the failed set unchanged |
| QueryRegistry.QueryManager.ImportStyle | tests/tools/test_ModuleManager.py:17-23 | a successful import registers the style; a failed one adds it to the failed set only |
| QueryRegistry.QueryManager.LoadedStyleNames | tests/tools/test_ModuleManager.py:20 | the names are exactly the loaded styles, so a style whose import failed is not listed; outside the failed styles, a style is listed exactly when looking it up succeeds |
| QueryRegistry.ImportOneGoodOneBad | tests/tools/test_ModuleManager.py:17-23 | after one successful and one failed import, only the first style is listed as loaded and only the second as failed |
| QueryRegistry.QueryManager.Resolve | tests/tools/test_ModuleManager.py:25-30 | a failed style raises ImportError, an unknown style KeyError, a loaded one gives its class |
| QueryRegistry.QueryManager.LoadQuery | yabadaba/query/__init__.py:33-52 | load_query fails exactly when the lookup does, with its error, and otherwise builds a query of that class with name, parent and path unchanged |
| QueryRegistry.QueryManager.LoadQueryCall | yabadaba/query/__init__.py:33 | a keyword other than name, parent and path raises TypeError; otherwise the call is load_query with the omitted keywords as None |
| QueryRegistry.BuildQueryManager | yabadaba/query/__init__.py:10-30 | the package registry holds exactly the six styles registered in yabadaba/query/__init__.py and no failed style |
| QueryRegistry.BuiltRegistryLookups | yabadaba/query/__init__.py:12-30 | each registered class is found under its own style, `in_list` and `list_contains` give the same class, any other style raises KeyError |
| QueryRegistry.LookupOutcomesAreDistinct | tests/tools/test_ModuleManager.py:32-37 | a loaded, a failed and an unknown style give a query, ImportError and KeyError |
| BoolValue.SetValueMod | yabadaba/value/BoolValue.py:12-27 | a bool passes through; an invalid string raises ValueError; a value with no `lower()` raises AttributeError |
| BoolValue.Lower | yabadaba/value/BoolValue.py:20 | `lower()` restricted to ASCII: the length is kept and each letter `A`-`Z` is lower-cased |
| BoolValue.SetValueModIdempotent | yabadaba/value/BoolValue.py:14-17 | coercing a coerced value changes nothing |
| BoolValue.StrOfBoolCoercesBack | yabadaba/value/BoolValue.py:20-23 | `'True'` and `'False'` coerce back to their bool |
| BoolValue.CaseInsensitive | yabadaba/value/BoolValue.py:20-23 | strings equal up to letter case coerce alike |
| BoolValue.TrueSpellings | yabadaba/value/BoolValue.py:20-21 | a string coerces to True exactly when it is `t` or `true` in any mix of cases |
| BoolValue.FalseSpellings | yabadaba/value/BoolValue.py:22-23 | a string coerces to False exactly when it is `f` or `false` in any mix of cases |
| BoolValue.DefaultQueries | yabadaba/value/BoolValue.py:29-38 | one request keyed by the field name, for style `bool_match`, with the metadata key, the metadata parent, the path `<modelroot>.<modelpath>` and a description |
| BoolValue.DefaultQueryNotLoadable | yabadaba/value/BoolValue.py:33-37 | against the registry built in yabadaba/query/__init__.py the request raises TypeError, and without the description KeyError |
| FAQRecord.Find | yabadaba/demo/FAQ.py:85-87 | the child found is the first one named by the key; none is found only when no child has that name |
| FAQRecord.FindUniqueKey | yabadaba/demo/FAQ.py:85-87 | in a dictionary, whose keys are distinct, the child found for a key is the one child carrying it |
| FAQRecord.Get | yabadaba/demo/FAQ.py:85-87 | indexing a document: a leaf raises TypeError, a tree without the key KeyError; it succeeds exactly when the tree has a child with the key, and gives the first such child |
| FAQRecord.LoadField | yabadaba/demo/FAQ.py:85-87 | reading `model['faq'][key]`: it succeeds exactly when `faq` and then the key are found and the value is a leaf, and gives the setter's stored form of the leaf; a leaf document raises TypeError, a document without `faq` KeyError, and a failed `faq[key]` (KeyError for a missing question or answer, TypeError when `faq` is a leaf) raises its error |
| FAQRecord.Stored | yabadaba/demo/FAQ.py:52-57 | the setter keeps None as None and stores str() of any other value, a string unchanged |
| FAQRecord.FaqModel | yabadaba/demo/FAQ.py:114-117 | the document has the single root `faq` holding `question` then `answer` |
| FAQRecord.LoadBuiltModel | yabadaba/demo/FAQ.py:83-87 | loading a built document restores the question and the answer |
| FAQRecord.LoadBuildLoad | yabadaba/demo/FAQ.py:83-120 | load, build, load gives what the first load gave |
| FAQRecord.MetadataOf | yabadaba/demo/FAQ.py:128-132 | the metadata has exactly the keys name, question and answer, mirroring the record |
| FAQRecord.AsRow | yabadaba/demo/FAQ.py:122-127 | the table row has the metadata's keys; an unset field is NaN and a set one its string |
| FAQRecord.QueryArguments | yabadaba/demo/FAQ.py:138-143 | each field's call passes name `<field>`, path `faq.<field>` and a description |
| FAQRecord.QueriesAsWrittenRaise | yabadaba/demo/FAQ.py:138-143 | as written, building either query raises TypeError |
| FAQRecord.Queries | yabadaba/demo/FAQ.py:134-144 | two substring-contains queries, keyed and named `question` and `answer`, on paths `faq.question` and `faq.answer` |
| FAQRecord.QueriesFromRegistry | yabadaba/demo/FAQ.py:138-143 | without the description, the package registry returns exactly those queries |
| FAQRecord.QuestionQueryOnMetadata | yabadaba/demo/FAQ.py:128-140 | filtering a record's metadata row with its question query matches exactly when the question is set and contains every candidate string |
| FAQRecord.FAQ.constructor | yabadaba/demo/FAQ.py:23-25 | a new record has no question and no answer |
| FAQRecord.FAQ.SetQuestion | yabadaba/demo/FAQ.py:52-57 | the question becomes the setter's stored form of the value |
| FAQRecord.FAQ.SetAnswer | yabadaba/demo/FAQ.py:64-69 | the answer becomes the setter's stored form of the value |
| FAQRecord.FAQ.SetValues | yabadaba/demo/FAQ.py:89-108 | each field given changes through its setter; each field given as None stays as it was |
| FAQRecord.FAQ.BuildModel | yabadaba/demo/FAQ.py:110-120 | the returned document is kept as the model and reads back as the record's question and answer |
| FAQRecord.FAQ.LoadModel | yabadaba/demo/FAQ.py:71-87 | the model is kept; the question is set from it before the answer is read, so a missing answer leaves the question already changed; each failure returns the first error |
| FAQRecord.FAQ.Metadata | yabadaba/demo/FAQ.py:122-132 | the metadata has exactly the keys name, question and answer, with the record's values |

## Findings

| source | as written | input that shows it | evidently intended | confidence | as-written member | corrected member |
|---|---|---|---|---|---|---|
| yabadaba/demo/FAQ.py:138-143 | `queries` passes `description=` to `load_query`, whose signature in yabadaba/query/__init__.py:33 has only `name`, `parent` and `path`, so Python raises TypeError | `FAQ().queries`, against any registry | load_query accepts the description, and the record gets its two substring-contains queries | medium: the two files may come from different versions of the package; not executed | FAQRecord.QueriesAsWrittenRaise | FAQRecord.QueriesFromRegistry |

`_default_queries` in yabadaba/value/BoolValue.py:33-37 has the same
mismatch, and it also names the style `bool_match`, which the registry built in
yabadaba/query/__init__.py does not hold (`BoolValue.DefaultQueryNotLoadable`). No corrected version is
modelled for it, because the boolean-match query class is not part of this
model.

## Left out

- `str_match` and `in_list`/`list_contains` queries: registered in yabadaba/query/__init__.py:16-23, but their source files are not part of this model. Only their registry entries are modelled.
- `FloatValue`, `TimeDeltaValue`, the database interfaces and the album demo records are not part of this model.
- The `Record` base class is not part of this model: reading a model from a file or a string, the `name` setter's checks, XSL/XSD handling, and what `_set_model` does beyond keeping the document. `FAQRecord.FAQ.LoadModel` ignores its `name` argument for this reason.
- `ModuleManager` internals are not part of this model: how it imports modules, and the order of its checks. `QueryRegistry.QueryManager.ImportStyle` takes the import outcome as a parameter, and `Resolve` checks failed styles before loaded ones.
- The `prefix` argument and the list accumulator used by later versions of `mongo`, as in tests/query/test_StrContainsQuery.py:22-44: this version's `mongo` (yabadaba/query/str_contains.py:23) has neither.
- The `description` property and the legacy `description()` functions: each is a constant string (`Description` in each query module), with nothing to prove.
- Table.ParentEntries: Python iterates a parent cell holding a string character by character; `name in p` is then a substring test on a one-character string, `p[name]` raises TypeError when it succeeds (an empty or one-character name), and an empty string gives no entries. The model raises TypeError for every parent cell that is not a list, which also affects `StrContainsQuery.AllInSomeEntry`, `IntMatchQuery.RowMatches` and `DateMatchQuery.RowMatches`.
- The NumPy 2.2 and later behaviour of `pd.isna` on an empty list, which raises: the model follows the earlier behaviour, where an empty list cell is not NaN.
- PyData.ToInt: does not accept what Python's int() also accepts in a string: surrounding whitespace, digit-group underscores, and non-ASCII decimal digits (`int('٣') == 3`); `Decimal.ParseInt` reads ASCII digits after an optional sign only.
- BoolValue.Lower: folds only the ASCII letters `A`-`Z`; Python's `str.lower()` also folds other letters and can lengthen a string ('İ' becomes two code points). No such string lowers to `true`, `t`, `false` or `f`, so `BoolValue.SetValueMod` accepts and refuses the same strings; only the model of `lower()` itself is narrower.
- Table.Field: a missing value is NaN; a None stored in an object column is not distinguished from it.
- The `pandas` functions on a table with no rows: pandas builds the empty result without visiting a row (an empty DataFrame rather than a Series when its trial call raises); the model gives the empty mask.
- DateMatchQuery.CellString: str() of a parent list cell (a list repr) is not spelled out; such a cell matches no candidate.
- FAQRecord.LoadField: a question or answer that is itself a sub-document raises TypeError in the model, where Python would store its str().
- Pandas `Series` indexing and dtype handling: a result is a sequence of booleans in row order.
