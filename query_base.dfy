/** What every query kind shares: the bound parameters of a query object and
    the document-store filter fragments that `mongo` writes. */
module QueryBase {
  import opened Results
  import opened PyData

  /** The query classes that the style registry binds. */
  datatype Kind = StrContains | StrMatch | ListContains | IntMatch | DateMatch

  /** A query object: its class and the three attributes it is built with.
      An attribute given as None is unset; reading an unset `name` or `path`
      raises AttributeError, while an unset `parent` means "no parent". */
  datatype Query = Query(kind: Kind, name: Option<string>, parent: Option<string>, path: Option<string>)

  /** An operator document: `{'$in': [...]}` or `{'$regex': v}`. */
  datatype Operand = In(values: seq<Datum>) | Regex(pattern: Datum)

  /** A one-key condition `{path: operand}`, as listed under `$and`. */
  datatype Clause = Clause(path: string, op: Operand)

  /** A value stored in the filter dictionary: a field condition (under a
      field path) or a list of clauses (under `$and`). */
  datatype Fragment = Condition(op: Operand) | And(clauses: seq<Clause>)

  /** The caller-supplied filter dictionary that `mongo` writes into. */
  class QueryDict {
    var entries: map<string, Fragment>

    constructor (entries: map<string, Fragment>)
      ensures this.entries == entries
    {
      this.entries := entries;
    }
  }
}
