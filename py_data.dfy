/** The Python values that queries compare, and the three built-ins the query
    kinds apply to them: int(), str() and the `in` operator on strings. */
module PyData {
  import opened Results
  import opened Decimal
  import opened IsoDate

  /** A scalar Python value: `str`, `int`, `bool` or `datetime.date`. */
  datatype Datum =
    | Text(s: string)
    | Int(i: int)
    | Bool(b: bool)
    | Day(date: CalendarDate)

  /** Python's `int(x)`: a string is parsed as a decimal integer, a bool is
      0 or 1, and a date cannot be converted. */
  function ToInt(x: Datum): (r: Result<int>)
    ensures x.Int? ==> r == Ok(x.i)
    ensures x.Day? ==> r == Err(TypeError)
    ensures x.Text? ==> (r.Ok? <==> ParseInt(x.s).Some?)
    ensures x.Text? && r.Ok? ==> ParseInt(x.s) == Some(r.value)
    ensures x.Bool? ==> r == Ok(if x.b then 1 else 0)
    ensures r.Err? ==> r.error == TypeError || r.error == ValueError
  {
    match x
    case Int(i) => Ok(i)
    case Bool(b) => Ok(if b then 1 else 0)
    case Day(_) => Err(TypeError)
    case Text(s) =>
      match ParseInt(s)
      case Some(n) => Ok(n)
      case None => Err(ValueError)
  }

  /** Python's `str(x)`: an integer in its shortest decimal form, a bool as
      'True' or 'False', a date as `YYYY-MM-DD`. The rendering of an integer
      or a date reads back as the same integer or date. */
  function ToStr(x: Datum): (r: string)
    ensures x.Text? ==> r == x.s
    ensures x.Int? ==> r == IntString(x.i) && ParseInt(r) == Some(x.i)
    ensures x.Bool? ==> r == if x.b then "True" else "False"
    ensures x.Day? ==> r == IsoFormat(x.date) && ParseIso(r) == Some(x.date)
  {
    match x
    case Text(s) => s
    case Int(i) => ParseIntString(i); IntString(i)
    case Bool(b) => if b then "True" else "False"
    case Day(d) => IsoRoundTrip(d); IsoFormat(d)
  }

  /** `t` occurs in `s` starting at index `i`. */
  predicate OccursAt(t: string, s: string, i: int)
  {
    0 <= i <= |s| - |t| && s[i..i + |t|] == t
  }

  /** Python's `t in s` for two strings. */
  predicate IsSubstring(t: string, s: string)
  {
    exists i | 0 <= i <= |s| - |t| :: OccursAt(t, s, i)
  }

  /** Python's `item in container` where the container is a scalar: only a
      string inside a string is answered; everything else raises TypeError
      (a non-string left operand, or a container that is not iterable). */
  function Contains(container: Datum, item: Datum): (r: Result<bool>)
    ensures r.Ok? <==> container.Text? && item.Text?
    ensures r.Ok? ==> (r.value <==> IsSubstring(item.s, container.s))
    ensures r.Err? ==> r.error == TypeError
  {
    if container.Text? && item.Text? then Ok(IsSubstring(item.s, container.s))
    else Err(TypeError)
  }

  /** A string holding the decimal form of an integer converts to that
      integer, so `'95'` and `95` are the same int() candidate. */
  lemma NumericStringToInt(i: int)
    ensures ToInt(Text(ToStr(Int(i)))) == Ok(i)
  {
  }
}
