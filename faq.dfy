/** The demo FAQ record: two text fields, `question` and `answer`, kept by
    validated setters, written to and read from the document
    `{'faq': {'question': ..., 'answer': ...}}`, flattened to a metadata
    row, and searched by two substring-contains queries. */
module FAQRecord {
  import opened Results
  import opened PyData
  import opened Table
  import opened QueryBase
  import StrContainsQuery
  import QueryRegistry

  const Style := "FAQ"
  const ModelRoot := "faq"

  /** An ordered document tree (`DataModelDict`): a leaf holds a scalar or
      null, an inner node its children in insertion order. The sequence of
      children can repeat a key, which a dictionary cannot; lookups read the
      first child with the key, and `FindUniqueKey` shows that with distinct
      keys this is the only one. */
  datatype Node = Leaf(v: Option<Datum>) | Tree(items: seq<(string, Node)>)

  /** The children of a dictionary: no key appears twice. */
  predicate UniqueKeys(items: seq<(string, Node)>)
  {
    forall i, j :: 0 <= i < j < |items| ==> items[i].0 != items[j].0
  }

  /** The first child called `key`. */
  function Find(items: seq<(string, Node)>, key: string): (r: Option<Node>)
    ensures r.Some? ==> exists i :: 0 <= i < |items| && items[i] == (key, r.value) &&
                                   forall j :: 0 <= j < i ==> items[j].0 != key
    ensures r.None? ==> forall i :: 0 <= i < |items| ==> items[i].0 != key
  {
    if items == [] then None
    else if items[0].0 == key then Some(items[0].1)
    else
      var r := Find(items[1..], key);
      assert forall i :: 1 <= i < |items| ==> items[i] == items[1..][i - 1];
      if r.Some? then
        var i :| 0 <= i < |items[1..]| && items[1..][i] == (key, r.value) &&
                 forall j :: 0 <= j < i ==> items[1..][j].0 != key;
        assert items[i + 1] == (key, r.value);
        r
      else r
  }

  /** With distinct keys, the child found is the one child carrying the key
      (it follows from `Find` giving the first such child). */
  lemma FindUniqueKey(items: seq<(string, Node)>, i: nat)
    requires UniqueKeys(items) && i < |items|
    ensures Find(items, items[i].0) == Some(items[i].1)
  {
  }

  /** `node[key]`: KeyError for a missing key; a leaf cannot be indexed by a
      key and raises TypeError. */
  function Get(node: Node, key: string): (r: Result<Node>)
    ensures r == Err(TypeError) <==> node.Leaf?
    ensures r == Err(KeyError) <==> node.Tree? && forall i :: 0 <= i < |node.items| ==> node.items[i].0 != key
    ensures r.Ok? <==> node.Tree? && exists i :: 0 <= i < |node.items| && node.items[i].0 == key
    ensures r.Ok? ==> exists i :: 0 <= i < |node.items| && node.items[i] == (key, r.value) &&
                                 forall j :: 0 <= j < i ==> node.items[j].0 != key
  {
    match node
    case Leaf(_) => Err(TypeError)
    case Tree(items) =>
      match Find(items, key)
      case Some(child) => Ok(child)
      case None => Err(KeyError)
  }

  /** The question and answer setters: None is kept as None, anything else
      as its str(). */
  function Stored(value: Option<Datum>): (r: Option<string>)
    ensures r.None? <==> value.None?
    ensures value.Some? ==> r == Some(ToStr(value.value))
    ensures value.Some? && value.value.Text? ==> r == Some(value.value.s)
  {
    match value
    case None => None
    case Some(d) => Some(ToStr(d))
  }

  function AsDatum(s: Option<string>): Option<Datum>
  {
    match s
    case None => None
    case Some(t) => Some(Text(t))
  }

  /** What `build_model` returns: the root `faq` holding `question` then
      `answer`. */
  function FaqModel(question: Option<string>, answer: Option<string>): (doc: Node)
    ensures doc.Tree? && |doc.items| == 1 && doc.items[0].0 == ModelRoot
    ensures doc.items[0].1.Tree? && |doc.items[0].1.items| == 2
    ensures doc.items[0].1.items[0].0 == "question" && doc.items[0].1.items[1].0 == "answer"
  {
    Tree([(ModelRoot, Tree([("question", Leaf(AsDatum(question))), ("answer", Leaf(AsDatum(answer)))]))])
  }

  /** `model['faq'][key]` passed through the setter. A value that is itself
      a sub-document is refused with TypeError here (Python would store its
      str(), a dictionary repr this model does not spell out). */
  function LoadField(doc: Node, key: string): (r: Result<Option<string>>)
    ensures doc.Leaf? ==> r == Err(TypeError)
    ensures doc.Tree? && (forall i :: 0 <= i < |doc.items| ==> doc.items[i].0 != ModelRoot) ==> r == Err(KeyError)
    ensures Get(doc, ModelRoot).Err? ==> r == Err(Get(doc, ModelRoot).error)
    ensures Get(doc, ModelRoot).Ok? && Get(Get(doc, ModelRoot).value, key).Err? ==>
              r == Err(Get(Get(doc, ModelRoot).value, key).error)
    ensures (Get(doc, ModelRoot).Ok? && Get(Get(doc, ModelRoot).value, key).Ok? &&
             Get(Get(doc, ModelRoot).value, key).value.Tree?) ==> r == Err(TypeError)
    ensures r.Ok? <==> Get(doc, ModelRoot).Ok? && Get(Get(doc, ModelRoot).value, key).Ok? &&
                       Get(Get(doc, ModelRoot).value, key).value.Leaf?
    ensures r.Ok? ==> Get(doc, ModelRoot).Ok? && Get(Get(doc, ModelRoot).value, key).Ok? &&
                      Get(Get(doc, ModelRoot).value, key).value.Leaf? &&
                      r.value == Stored(Get(Get(doc, ModelRoot).value, key).value.v)
  {
    match Get(doc, ModelRoot)
    case Err(e) => Err(e)
    case Ok(faq) =>
      match Get(faq, key)
      case Err(e) => Err(e)
      case Ok(Leaf(v)) => Ok(Stored(v))
      case Ok(Tree(_)) => Err(TypeError)
  }

  /** Loading a built model restores the question and the answer. */
  lemma LoadBuiltModel(question: Option<string>, answer: Option<string>)
    ensures LoadField(FaqModel(question, answer), "question") == Ok(question)
    ensures LoadField(FaqModel(question, answer), "answer") == Ok(answer)
  {
  }

  /** Load, build, load gives what the first load gave. */
  lemma {:induction false} LoadBuildLoad(doc: Node)
    requires LoadField(doc, "question").Ok? && LoadField(doc, "answer").Ok?
    ensures var q, a := LoadField(doc, "question").value, LoadField(doc, "answer").value;
            LoadField(FaqModel(q, a), "question") == LoadField(doc, "question") &&
            LoadField(FaqModel(q, a), "answer") == LoadField(doc, "answer")
  {
    LoadBuiltModel(LoadField(doc, "question").value, LoadField(doc, "answer").value);
  }

  /** What `metadata()` returns: exactly `name`, `question` and `answer`,
      mirroring the record (None for an unset one). */
  function MetadataOf(name: Option<string>, question: Option<string>, answer: Option<string>): (meta: map<string, Option<string>>)
    ensures meta.Keys == {"name", "question", "answer"}
    ensures meta["name"] == name && meta["question"] == question && meta["answer"] == answer
  {
    map["name" := name, "question" := question, "answer" := answer]
  }

  /** The metadata dictionary as a table row: None becomes NA. */
  function AsRow(meta: map<string, Option<string>>): (row: Row)
    ensures row.Keys == meta.Keys
    ensures forall k :: k in meta && meta[k].None? ==> row[k] == NA
    ensures forall k :: k in meta && meta[k].Some? ==> row[k] == Value(Text(meta[k].value))
  {
    map k | k in meta :: if meta[k].Some? then Value(Text(meta[k].value)) else NA
  }

  /** The keyword arguments `queries` passes to `load_query` for the field
      `key`: the metadata name, the document path and a description. */
  function QueryArguments(key: string): (kwargs: map<string, Option<string>>)
    ensures kwargs.Keys == {"name", "path", "description"}
    ensures kwargs["name"] == Some(key) && kwargs["path"] == Some(ModelRoot + "." + key)
  {
    map["name" := Some(key), "path" := Some(ModelRoot + "." + key),
        "description" := Some("Search the FAQ " + key + " field to see if it contains certain strings.")]
  }

  /** As written, `queries` raises TypeError whatever the registry holds: the
      `load_query` in yabadaba/query/__init__.py:33 has no `description` parameter. */
  lemma QueriesAsWrittenRaise(m: QueryRegistry.QueryManager, key: string)
    ensures m.LoadQueryCall(StrContainsQuery.Style, QueryArguments(key)) == Err(TypeError)
  {
    assert "description" !in QueryRegistry.LoadQueryKeywords;
  }

  /** `queries` as intended: two substring-contains queries, on the metadata
      keys `question` and `answer` and the document paths `faq.question` and
      `faq.answer`. */
  function Queries(): (qs: map<string, Query>)
    ensures qs.Keys == {"question", "answer"}
    ensures forall k :: k in qs ==> qs[k] == Query(StrContains, Some(k), None, Some(ModelRoot + "." + k))
  {
    map k | k in {"question", "answer"} :: Query(StrContains, Some(k), None, Some(ModelRoot + "." + k))
  }

  /** Without the description, the built registry returns exactly the
      queries above for the same arguments. */
  lemma QueriesFromRegistry(m: QueryRegistry.QueryManager, k: string)
    requires m.loadedStyles == QueryRegistry.QueryStyles && m.failedStyles == {}
    requires k in Queries()
    ensures m.LoadQueryCall(StrContainsQuery.Style, QueryArguments(k) - {"description"}) == Ok(Queries()[k])
  {
    var kwargs := QueryArguments(k) - {"description"};
    assert kwargs.Keys == {"name", "path"};
    assert QueryRegistry.Keyword(kwargs, "parent") == None;
  }

  /** Searching a record's own metadata row with its question query: the row
      matches exactly when the question is set and contains every candidate
      string. */
  lemma QuestionQueryOnMetadata(name: Option<string>, question: Option<string>, answer: Option<string>,
                                cands: seq<Datum>)
    requires forall i :: 0 <= i < |cands| ==> cands[i].Text?
    ensures StrContainsQuery.Pandas(Queries()["question"], [AsRow(MetadataOf(name, question, answer))], Many(cands)) ==
            Ok([question.Some? && forall i :: 0 <= i < |cands| ==> IsSubstring(cands[i].s, question.value)])
  {
    var row := AsRow(MetadataOf(name, question, answer));
    var expected := question.Some? && forall i :: 0 <= i < |cands| ==> IsSubstring(cands[i].s, question.value);
    if question.Some? {
      assert Field(row, "question") == Value(Text(question.value));
      StrContainsQuery.FieldMatchesIffAllSubstrings(question.value, cands);
    } else {
      assert Field(row, "question") == NA;
    }
    assert "question" in Columns([row]);
    assert StrContainsQuery.RowMatches(row, Columns([row]), "question", Many(cands), None) == Ok(expected);
    var r := StrContainsQuery.Pandas(Queries()["question"], [row], Many(cands));
    assert r.Ok? ==> r.value == [expected];
  }

  class FAQ {
    var name: Option<string>
    var question: Option<string>
    var answer: Option<string>
    /** The document last built or loaded (what `_set_model` keeps). */
    var model: Option<Node>

    /** A new record: question and answer unset. */
    constructor (name: Option<string>)
      ensures this.name == name && question == None && answer == None && model == None
    {
      this.name := name;
      question := None;
      answer := None;
      model := None;
    }

    /** The `question` setter. */
    method SetQuestion(value: Option<Datum>)
      modifies this`question
      ensures question == Stored(value)
    {
      if value.None? {
        question := None;
      } else {
        question := Some(ToStr(value.value));
      }
    }

    /** The `answer` setter. */
    method SetAnswer(value: Option<Datum>)
      modifies this`answer
      ensures answer == Stored(value)
    {
      if value.None? {
        answer := None;
      } else {
        answer := Some(ToStr(value.value));
      }
    }

    /** `set_values(name, question, answer)`: an argument given as None
      leaves its field as it was. */
    method SetValues(name: Option<string>, question: Option<Datum>, answer: Option<Datum>)
      modifies this
      ensures this.question == if question.Some? then Stored(question) else old(this.question)
      ensures this.answer == if answer.Some? then Stored(answer) else old(this.answer)
      ensures this.name == if name.Some? then name else old(this.name)
      ensures model == old(model)
    {
      if question.Some? {
        SetQuestion(question);
      }
      if answer.Some? {
        SetAnswer(answer);
      }
      if name.Some? {
        this.name := name;
      }
    }

    /** `build_model()`: builds the document, keeps it and returns it; the
      fields are left as they were and can be read back from it. */
    method BuildModel() returns (doc: Node)
      modifies this`model
      ensures doc == FaqModel(question, answer) && model == Some(doc)
      ensures LoadField(doc, "question") == Ok(question) && LoadField(doc, "answer") == Ok(answer)
    {
      doc := FaqModel(question, answer);
      LoadBuiltModel(question, answer);
      model := Some(doc);
    }

    /** `load_model(model)`: keeps the document, then sets the question and
      then the answer from it. A failure while reading the answer leaves
      the question already set. */
    method LoadModel(doc: Node) returns (status: Result<()>)
      modifies this`model, this`question, this`answer
      ensures model == Some(doc)
      ensures LoadField(doc, "question").Err? ==>
                status == Err(LoadField(doc, "question").error) &&
                question == old(question) && answer == old(answer)
      ensures LoadField(doc, "question").Ok? ==> question == LoadField(doc, "question").value
      ensures LoadField(doc, "question").Ok? && LoadField(doc, "answer").Err? ==>
                status == Err(LoadField(doc, "answer").error) && answer == old(answer)
      ensures LoadField(doc, "question").Ok? && LoadField(doc, "answer").Ok? ==>
                status == Ok(()) && answer == LoadField(doc, "answer").value
    {
      model := Some(doc);
      var faq := Get(doc, ModelRoot);
      if faq.Err? {
        return Err(faq.error);
      }
      var q := Get(faq.value, "question");
      if q.Err? {
        return Err(q.error);
      }
      if q.value.Tree? {
        return Err(TypeError);
      }
      SetQuestion(q.value.v);
      var a := Get(faq.value, "answer");
      if a.Err? {
        return Err(a.error);
      }
      if a.value.Tree? {
        return Err(TypeError);
      }
      SetAnswer(a.value.v);
      return Ok(());
    }

    /** `metadata()`. */
    function Metadata(): (meta: map<string, Option<string>>)
      reads this
      ensures meta.Keys == {"name", "question", "answer"}
      ensures meta["question"] == question && meta["answer"] == answer && meta["name"] == name
    {
      MetadataOf(name, question, answer)
    }
  }
}
