/**
 * The query builder of the customer-list endpoint (GET /api/customers).
 *
 * The handler takes five optional query options (search, sort, order, page,
 * limit), fills in defaults, and derives the pieces of one parameterised
 * SELECT: the ORDER BY column (checked against an allow-list), the sort
 * direction, the LIKE pattern, and the LIMIT / OFFSET pair. Only the column
 * identifier and the direction keyword are spliced into the statement text;
 * everything else travels as a bound parameter.
 */
module CustomerListQuery {

  datatype Option<T> = None | Some(value: T)
  {
    /** The value if present, otherwise the default (a destructuring default). */
    function GetOr(default: T): T
    {
      match this
      case Some(v) => v
      case None => default
    }
  }

  /** The columns a client may sort by. */
  datatype Column = Id | FirstName | LastName | PhoneNumber
  {
    /** The identifier written into the ORDER BY clause. */
    function Identifier(): string
    {
      match this
      case Id => "id"
      case FirstName => "first_name"
      case LastName => "last_name"
      case PhoneNumber => "phone_number"
    }
  }

  datatype Direction = Asc | Desc
  {
    function Keyword(): string
    {
      match this
      case Asc => "ASC"
      case Desc => "DESC"
    }
  }

  /** A bound parameter of the statement: text or a number. */
  datatype Param = Text(text: string) | Number(number: int)

  /** The raw query options; None stands for an option that is absent. */
  datatype ListOptions = ListOptions(
    search: Option<string>,
    sort: Option<string>,
    order: Option<string>,
    page: Option<int>,
    limit: Option<int>)

  /** Everything the handler hands to the store. */
  datatype ListQuery = ListQuery(
    column: Column,
    direction: Direction,
    pattern: string,
    limit: int,
    offset: int,
    params: seq<Param>)

  /** The allow-list of sort fields, in the order the handler lists them. */
  const SortFields: seq<string> := ["id", "first_name", "last_name", "phone_number"]

  const DefaultSearch: string := ""
  const DefaultSort: string := "id"
  const DefaultOrder: string := "ASC"
  const DefaultPage: int := 1
  const DefaultLimit: int := 10

  /** The options of a request that sends none. */
  const NoOptions: ListOptions := ListOptions(None, None, None, None, None)

  /**
   * The ORDER BY column for a requested sort field: the field itself when it
   * is on the allow-list, `id` otherwise.
   */
  function SortColumn(sort: string): (c: Column)
    ensures c.Identifier() in SortFields
    ensures sort in SortFields <==> c.Identifier() == sort
    ensures sort !in SortFields ==> c == Id
  {
    if sort == "first_name" then FirstName
    else if sort == "last_name" then LastName
    else if sort == "phone_number" then PhoneNumber
    else Id
  }

  /**
   * Upper-casing of one character, as String.prototype.toUpperCase does it
   * for the ASCII letters and for U+017F (LATIN SMALL LETTER LONG S, whose
   * upper case is 'S'). Every other character is kept as it is.
   */
  function UpperChar(c: char): char
  {
    if 'a' <= c <= 'z' then (c as int - 32) as char
    else if c == '\U{17F}' then 'S'
    else c
  }

  /** Upper-casing of a string, character by character. */
  function ToUpper(s: string): (r: string)
    ensures |r| == |s|
    ensures forall i :: 0 <= i < |s| ==> r[i] == UpperChar(s[i])
  {
    if s == [] then [] else [UpperChar(s[0])] + ToUpper(s[1..])
  }

  /**
   * The spellings of `order` that select a descending sort, written out
   * letter by letter: four letters d, e, s, c in either case, where the s
   * may also be the long s U+017F.
   */
  predicate IsDescSpelling(order: string)
  {
    |order| == 4 &&
    order[0] in {'d', 'D'} &&
    order[1] in {'e', 'E'} &&
    order[2] in {'s', 'S', '\U{17F}'} &&
    order[3] in {'c', 'C'}
  }

  lemma UpperCharIs(c: char, u: char)
    requires u in {'D', 'E', 'S', 'C'}
    ensures UpperChar(c) == u <==>
      (c == u || c as int == u as int + 32 || (u == 'S' && c == '\U{17F}'))
  {
  }

  /** The upper-cased order is "DESC" exactly for the spellings above. */
  lemma {:induction false} UpperIsDescIffSpelling(order: string)
    ensures ToUpper(order) == "DESC" <==> IsDescSpelling(order)
  {
    var upper := ToUpper(order);
    if |order| == 4 {
      UpperCharIs(order[0], 'D');
      UpperCharIs(order[1], 'E');
      UpperCharIs(order[2], 'S');
      UpperCharIs(order[3], 'C');
      assert upper == "DESC" <==>
        (upper[0] == 'D' && upper[1] == 'E' && upper[2] == 'S' && upper[3] == 'C');
    } else {
      assert |upper| != 4;
    }
  }

  /**
   * The direction for a requested order: DESC exactly when the upper-cased
   * order is "DESC", ASC for every other string.
   */
  function DirectionOf(order: string): (d: Direction)
    ensures d == Desc <==> IsDescSpelling(order)
  {
    UpperIsDescIffSpelling(order);
    if ToUpper(order) == "DESC" then Desc else Asc
  }

  /** The LIKE pattern for a search string: the string between two '%'. */
  function SearchPattern(search: string): (p: string)
    ensures |p| == |search| + 2
    ensures p[0] == '%' && p[|p| - 1] == '%'
    ensures p[1..|p| - 1] == search
  {
    "%" + search + "%"
  }

  /** The row offset of a page: the rows of all earlier pages are skipped. */
  function Offset(page: int, limit: int): int
  {
    (page - 1) * limit
  }

  /**
   * The statement text for a column and a direction. These are the only two
   * places where anything is spliced into the text.
   */
  function SelectSql(column: Column, direction: Direction): string
  {
    "\n        SELECT * FROM customers"
    + "\n        WHERE first_name LIKE ? OR last_name LIKE ? OR phone_number LIKE ?"
    + "\n        ORDER BY " + column.Identifier() + " " + direction.Keyword()
    + "\n        LIMIT ? OFFSET ?\n    "
  }

  /** The statement text a query is run with. */
  function ListSql(q: ListQuery): string
  {
    SelectSql(q.column, q.direction)
  }

  /** The eight statement texts the endpoint can ever produce. */
  function AllowedListSql(): set<string>
  {
    { SelectSql(Id, Asc), SelectSql(Id, Desc),
      SelectSql(FirstName, Asc), SelectSql(FirstName, Desc),
      SelectSql(LastName, Asc), SelectSql(LastName, Desc),
      SelectSql(PhoneNumber, Asc), SelectSql(PhoneNumber, Desc) }
  }

  /**
   * The list query for a set of raw options: defaults filled in, the sort
   * field checked, the direction normalised, the pattern bound three times,
   * followed by the limit and the offset.
   */
  function BuildListQuery(opts: ListOptions): (q: ListQuery)
    ensures q.column.Identifier() in SortFields
    ensures q.direction == Desc <==> IsDescSpelling(opts.order.GetOr(DefaultOrder))
    ensures q.pattern == SearchPattern(opts.search.GetOr(DefaultSearch))
    ensures q.params == [Text(q.pattern), Text(q.pattern), Text(q.pattern), Number(q.limit), Number(q.offset)]
  {
    var search := opts.search.GetOr(DefaultSearch);
    var sort := opts.sort.GetOr(DefaultSort);
    var order := opts.order.GetOr(DefaultOrder);
    var page := opts.page.GetOr(DefaultPage);
    var limit := opts.limit.GetOr(DefaultLimit);
    var offset := Offset(page, limit);
    var pattern := SearchPattern(search);
    ListQuery(SortColumn(sort), DirectionOf(order), pattern, limit, offset,
              [Text(pattern), Text(pattern), Text(pattern), Number(limit), Number(offset)])
  }

  // ---------------------------------------------------------------------
  // One lemma per rule of the builder.
  // ---------------------------------------------------------------------

  /** Every allow-listed column is reached by exactly its own identifier. */
  lemma SortColumnRoundTrip(c: Column)
    ensures SortColumn(c.Identifier()) == c
  {
  }

  /** The column is the requested field when allowed and `id` otherwise, defaulting to `id`. */
  lemma SortRule(opts: ListOptions)
    ensures var q := BuildListQuery(opts);
      (opts.sort.Some? && opts.sort.value in SortFields ==> q.column.Identifier() == opts.sort.value) &&
      (opts.sort.Some? && opts.sort.value !in SortFields ==> q.column == Id) &&
      (opts.sort.None? ==> q.column == Id)
  {
  }

  /** A sort request that is not on the allow-list yields the same query as `sort=id`. */
  lemma UnknownSortIsSortById(opts: ListOptions)
    requires opts.sort.Some? && opts.sort.value !in SortFields
    ensures BuildListQuery(opts) == BuildListQuery(opts.(sort := Some("id")))
  {
  }

  /** DESC exactly when the upper-cased order is "DESC"; ASC when absent. */
  lemma DirectionRule(opts: ListOptions)
    ensures var q := BuildListQuery(opts);
      (q.direction == Desc <==> ToUpper(opts.order.GetOr(DefaultOrder)) == "DESC") &&
      (opts.order.None? ==> q.direction == Asc)
  {
    UpperIsDescIffSpelling(opts.order.GetOr(DefaultOrder));
  }

  /** offset = (page - 1) * limit, unclamped: page 1 starts at 0, a non-positive page goes back. */
  lemma OffsetRule(opts: ListOptions)
    ensures var q := BuildListQuery(opts);
      var page := opts.page.GetOr(DefaultPage);
      q.limit == opts.limit.GetOr(DefaultLimit) &&
      q.offset == (page - 1) * q.limit &&
      (page == 1 ==> q.offset == 0) &&
      (page <= 0 && q.limit >= 0 ==> q.offset <= 0) &&
      (page >= 1 && q.limit >= 0 ==> q.offset >= 0)
  {
    var page := opts.page.GetOr(DefaultPage);
    var limit := opts.limit.GetOr(DefaultLimit);
    if page <= 0 && limit >= 0 {
      assert (1 - page) * limit >= 0;
    }
  }

  /** Page p + 1 starts exactly `limit` rows after page p. */
  lemma NextPageSkipsOneLimit(page: int, limit: int)
    ensures Offset(page + 1, limit) == Offset(page, limit) + limit
  {
  }

  /** With no options at all: search "", sort id, order ASC, page 1, limit 10. */
  lemma Defaults()
    ensures BuildListQuery(NoOptions) ==
      ListQuery(Id, Asc, "%%", 10, 0, [Text("%%"), Text("%%"), Text("%%"), Number(10), Number(0)])
  {
    assert ToUpper("ASC") == "ASC";
  }

  /** page=2, limit=5 binds LIMIT 5 OFFSET 5. */
  lemma SecondPageOfFive(opts: ListOptions)
    requires opts.page == Some(2) && opts.limit == Some(5)
    ensures BuildListQuery(opts).limit == 5 && BuildListQuery(opts).offset == 5
  {
  }

  /** The search string is bound unchanged between the two '%' and can be read back. */
  lemma PatternRule(opts: ListOptions)
    ensures var q := BuildListQuery(opts);
      var search := opts.search.GetOr(DefaultSearch);
      q.params[0] == q.params[1] == q.params[2] == Text("%" + search + "%") &&
      q.pattern[1..|q.pattern| - 1] == search
  {
  }

  /**
   * The injection guard: whatever the options, the statement text is one of
   * eight fixed strings, so no client text reaches a structural position.
   */
  lemma ListSqlIsFixed(opts: ListOptions)
    ensures ListSql(BuildListQuery(opts)) in AllowedListSql()
  {
  }

  /** The statement text does not depend on search, page or limit. */
  lemma ListSqlIgnoresBoundValues(a: ListOptions, b: ListOptions)
    requires a.sort == b.sort && a.order == b.order
    ensures ListSql(BuildListQuery(a)) == ListSql(BuildListQuery(b))
  {
  }
}
