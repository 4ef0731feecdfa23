/**
 * The pagination normaliser: untrusted limit and offset values become a
 * limit in [0, MAX_PAGE_SIZE] and an integer offset, falling back to
 * defaults instead of failing.
 */
module Pagination {
  import opened Wrappers
  import PyInt

  const MAX_PAGE_SIZE: int := 100
  const DEFAULT_PAGE_SIZE: int := 10
  const DEFAULT_OFFSET: int := 0

  /**
   * A raw request value: missing, a string, an integer (which `int()`
   * returns as it is), or anything else `int()` rejects with a `TypeError`.
   */
  datatype RawValue = Absent | Str(s: string) | Integer(n: int) | Other

  datatype Paginators = Paginators(limit: int, offset: int)

  /** What `int(value)` gives, `None` where it raises: only strings and integers convert. */
  function IntConversion(value: RawValue): (r: Option<int>)
    ensures r.Some? ==> value.Str? || value.Integer?
    ensures value.Integer? ==> r == Some(value.n)
  {
    match value
    case Absent => None
    case Str(s) => PyInt.ParseInt(s)
    case Integer(n) => Some(n)
    case Other => None
  }

  /** An integer and its decimal numeral convert to the same value. */
  lemma {:induction false} NumeralConvertsLikeInteger(n: int)
    ensures IntConversion(Str(PyInt.ShowInt(n))) == IntConversion(Integer(n)) == Some(n)
  {
    PyInt.ParseShowRoundTrip(n);
  }

  /** `_coerce_to_integer_default`: the converted integer, or `default` for a missing or unconvertible value. */
  function CoerceToIntegerDefault(value: RawValue, default: int): (r: int)
    ensures IntConversion(value).Some? ==> r == IntConversion(value).value
    ensures IntConversion(value).None? ==> r == default
  {
    if value.Absent? then default
    else
      match IntConversion(value)
      case Some(n) => n
      case None => default
  }

  /** A limit the engine is willing to serve. */
  predicate InPageRange(n: int) {
    0 <= n <= MAX_PAGE_SIZE
  }

  function MakePaginationValues(limit: RawValue, offset: RawValue): (p: Paginators)
    ensures InPageRange(p.limit)
    ensures p.limit == (if IntConversion(limit).Some? && InPageRange(IntConversion(limit).value)
                        then IntConversion(limit).value else DEFAULT_PAGE_SIZE)
    ensures p.offset == IntConversion(offset).GetOr(DEFAULT_OFFSET)
  {
    var l := CoerceToIntegerDefault(limit, DEFAULT_PAGE_SIZE);
    var l' := if l > MAX_PAGE_SIZE || l < 0 then DEFAULT_PAGE_SIZE else l;
    Paginators(l', CoerceToIntegerDefault(offset, DEFAULT_OFFSET))
  }

  /** Every limit "0" to "100" is placed in the query as asked, whatever the offset. */
  lemma LimitStringInRangeKept(n: int, offset: RawValue)
    requires InPageRange(n)
    ensures MakePaginationValues(Str(PyInt.ShowInt(n)), offset).limit == n
  {
    PyInt.ParseShowRoundTrip(n);
  }

  /** A limit string outside [0, 100] gives the default page size. */
  lemma LimitStringOutOfRangeDefaults(n: int, offset: RawValue)
    requires n < 0 || n > MAX_PAGE_SIZE
    ensures MakePaginationValues(Str(PyInt.ShowInt(n)), offset).limit == DEFAULT_PAGE_SIZE
  {
    PyInt.ParseShowRoundTrip(n);
  }

  /** Any integer offset string, negative ones included, is passed through unchanged. */
  lemma OffsetStringKept(limit: RawValue, n: int)
    ensures MakePaginationValues(limit, Str(PyInt.ShowInt(n))).offset == n
  {
    PyInt.ParseShowRoundTrip(n);
  }

  /** Missing and unconvertible values give the defaults. */
  lemma MissingOrMalformedDefaults(limit: RawValue, offset: RawValue)
    requires limit.Absent? || limit.Other? || (limit.Str? && PyInt.ParseInt(limit.s).None?)
    requires offset.Absent? || offset.Other? || (offset.Str? && PyInt.ParseInt(offset.s).None?)
    ensures MakePaginationValues(limit, offset) == Paginators(DEFAULT_PAGE_SIZE, DEFAULT_OFFSET)
  {
  }

  /** A limit of "200" and no offset give a page of 10 from the start. */
  lemma OversizedLimitExample()
    ensures MakePaginationValues(Str("200"), Absent) == Paginators(10, 0)
  {
    LimitStringOutOfRangeDefaults(200, Absent);
    assert PyInt.ShowInt(200) == "200";
  }
}
