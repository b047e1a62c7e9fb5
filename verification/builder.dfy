/** The request-scoped builder. It holds the query descriptor in mutable fields,
    rewrites them from the request's reserved keys, resolves the filter tuples
    into calls on the engine's query, and issues the plan in a fixed order. Each
    method is proved to do what the matching function of module Plan says. */
module Builder {
  import opened Wrappers
  import opened Strings
  import opened Request
  import opened Engine
  import opened Plan

  class QueryBuilder {
    /** The schema of the model's table: whether it has a given column. */
    const hasColumn: string -> bool
    /** The custom filters of this builder, by filter key. */
    const customFilters: map<string, Handler>
    /** What the parameter parser produced for the request. */
    const uriParser: Params

    var wheres: seq<FilterTuple>
    var orderBy: Order
    var limit: int
    var page: int
    var offset: int
    var columns: seq<string>
    var includes: seq<string>
    var groupBy: seq<string>
    /** Every call issued on the engine's query object so far. */
    var query: Trace
    var result: Option<Fetched>

    /** The descriptor held in the fields. */
    function State(): Descriptor
      reads this
    {
      Descriptor(wheres, orderBy, limit, page, offset, columns, includes, groupBy)
    }

    /** A fresh builder: the default descriptor and a new, empty query. */
    constructor (hasColumn: string -> bool, customFilters: map<string, Handler>, uriParser: Params)
      ensures this.hasColumn == hasColumn && this.customFilters == customFilters && this.uriParser == uriParser
      ensures State() == Defaults
      ensures columns == ["*"] && includes == [] && orderBy == Order("id", "desc") && groupBy == []
      ensures limit == 15 && page == 1 && offset == 0 && wheres == []
      ensures query == [] && result == None
    {
      this.hasColumn := hasColumn;
      this.customFilters := customFilters;
      this.uriParser := uriParser;
      wheres := [];
      orderBy := Order("id", "desc");
      limit := 15;
      page := 1;
      offset := 0;
      columns := ["*"];
      includes := [];
      groupBy := [];
      query := [];
      result := None;
    }

    /** A bounded fetch: prepare, build, take `limit` rows and execute. */
    method Get() returns (error: Option<Error>)
      modifies this
      ensures var p := Prepared(old(State()), uriParser);
        && State() == p.state
        && (p.error.Some? ==> error == p.error && query == old(query) && result == old(result))
        && (p.error.None? ==>
              var b := Issued(p.state, old(query), hasColumn, customFilters, Bounded);
              && error == b.error && query == b.state
              && result == if b.error.None? then Some(Collection(b.state)) else old(result))
    {
      error := Prepare();
      if error.Some? {
        return;
      }
      error := Build();
      if error.Some? {
        return;
      }
      query := query + [Take(limit)];
      query := query + [Fetch];
      result := Some(Collection(query));
    }

    /** A paginated fetch: prepare, build and paginate by `limit`. */
    method Paginate() returns (error: Option<Error>)
      modifies this
      ensures var p := Prepared(old(State()), uriParser);
        && State() == p.state
        && (p.error.Some? ==> error == p.error && query == old(query) && result == old(result))
        && (p.error.None? ==>
              var b := Issued(p.state, old(query), hasColumn, customFilters, Paged);
              && error == b.error && query == b.state
              && result == if b.error.None? then Some(Paginator(b.state, limit)) else old(result))
    {
      error := Prepare();
      if error.Some? {
        return;
      }
      error := Build();
      if error.Some? {
        return;
      }
      query := query + [Engine.Paginate(limit)];
      result := Some(Paginator(query, limit));
    }

    /** The result of the last fetch that completed. */
    method Result() returns (r: Option<Fetched>)
      ensures r == result
    {
      r := result;
    }

    /** Replaces the filter tuples with the non-reserved parameters, then visits
        the reserved keys in their fixed order. */
    method Prepare() returns (error: Option<Error>)
      modifies this`wheres, this`orderBy, this`groupBy, this`limit, this`page, this`offset, this`columns, this`includes
      ensures Outcome(State(), error) == Prepared(old(State()), uriParser)
    {
      SetWheres(QueryParametersExcept(uriParser.filters, ReservedNames));
      ghost var start := State();
      var i := 0;
      while i < |Excepts|
        invariant 0 <= i <= |Excepts|
        invariant ApplyDirectives(State(), Excepts[i..], uriParser.directives) == ApplyDirectives(start, Excepts, uriParser.directives)
      {
        assert Excepts[i..][1..] == Excepts[i + 1..];
        error := PrepareExcept(Excepts[i]);
        if error.Some? {
          return;
        }
        i := i + 1;
      }
      error := None;
    }

    /** Issues the filters, then the shaping clauses in their fixed order. */
    method Build() returns (error: Option<Error>)
      modifies this`query
      ensures Outcome(query, error) == Built(State(), old(query), hasColumn, customFilters)
    {
      error := None;
      if HasWheres() {
        var i := 0;
        while i < |wheres|
          invariant 0 <= i <= |wheres|
          invariant error.None?
          invariant Resolve(query, wheres[i..], hasColumn, customFilters) == Resolve(old(query), wheres, hasColumn, customFilters)
        {
          assert wheres[i..][1..] == wheres[i + 1..];
          error := AddWhereToQuery(wheres[i]);
          if error.Some? {
            return;
          }
          i := i + 1;
        }
      }
      assert wheres[|wheres|..] == [];
      ghost var resolved := query;
      query := query + [Select(columns)];
      query := query + [With(includes)];
      query := query + [Skip(offset)];
      query := query + [OrderBy(orderBy.column, orderBy.direction)];
      if HasGroupBy() {
        query := query + [GroupBy(groupBy)];
      }
      assert query == resolved + Clauses(State());
    }

    /** Whether there are filter tuples to resolve. Skipping resolution when
        there are none is the same as resolving the empty list. */
    function HasWheres(): (r: bool)
      reads this
      ensures r <==> wheres != []
      ensures !r ==> Resolve(query, wheres, hasColumn, customFilters) == Outcome(query, None)
    {
      |wheres| > 0
    }

    /** Whether there are grouping columns: exactly when the plan's clauses end
        in a groupBy. */
    function HasGroupBy(): (r: bool)
      reads this
      ensures r <==> |Clauses(State())| == 5
      ensures r ==> Clauses(State())[4] == GroupBy(groupBy)
    {
      |groupBy| > 0
    }

    method SetIncludes(value: string)
      modifies this`includes
      ensures includes == Split(value)
    {
      includes := Split(value);
    }

    /** Sets the page and derives the offset from the limit in force now. */
    method SetPage(value: int)
      modifies this`page, this`offset
      ensures page == value && offset == (value - 1) * limit
    {
      page := value;
      offset := (value - 1) * limit;
    }

    method SetColumns(value: string)
      modifies this`columns
      ensures columns == Split(value)
    {
      columns := Split(value);
    }

    /** Takes the first token as the column and the second as the direction;
        further tokens are ignored, and a value without a second token fails
        without changing anything. */
    method SetOrderBy(value: string) returns (error: Option<Error>)
      modifies this`orderBy
      ensures var tokens := Split(value);
        && (error.Some? <==> |tokens| < 2)
        && (error.Some? ==> error == Some(MalformedOrderBy(value)) && orderBy == old(orderBy))
        && (error.None? ==> orderBy == Order(tokens[0], tokens[1]))
    {
      var tokens := Split(value);
      if |tokens| < 2 {
        return Some(MalformedOrderBy(value));
      }
      orderBy := Order(tokens[0], tokens[1]);
      error := None;
    }

    method SetGroupBy(value: string)
      modifies this`groupBy
      ensures groupBy == Split(value)
    {
      groupBy := Split(value);
    }

    /** Sets the limit; the offset is left as it is. */
    method SetLimit(value: int)
      modifies this`limit
      ensures limit == value
    {
      limit := value;
    }

    method SetWheres(parameters: seq<FilterTuple>)
      modifies this`wheres
      ensures wheres == parameters
    {
      wheres := parameters;
    }

    /** One reserved key: when the request carries it, hands its value to the
        key's setter. */
    method PrepareExcept(k: ReservedKey) returns (error: Option<Error>)
      modifies this`orderBy, this`groupBy, this`limit, this`page, this`offset, this`columns, this`includes
      ensures Outcome(State(), error) == ApplyDirective(old(State()), k, uriParser.directives)
    {
      error := None;
      var dirs := uriParser.directives;
      if !Has(dirs, k) {
        return;
      }
      match k
      case OrderByKey => error := SetOrderBy(dirs.orderBy.value);
      case GroupByKey => SetGroupBy(dirs.groupBy.value);
      case LimitKey => SetLimit(dirs.limit.value);
      case PageKey => SetPage(dirs.page.value);
      case ColumnsKey => SetColumns(dirs.columns.value);
      case IncludesKey => SetIncludes(dirs.includes.value);
    }

    /** One filter tuple: its custom filter if it has one, else a generic where
        on a column the schema knows, else an unknown-column failure. */
    method AddWhereToQuery(where: FilterTuple) returns (error: Option<Error>)
      modifies this`query
      ensures Outcome(query, error) == ResolveOne(old(query), where, hasColumn, customFilters)
    {
      error := None;
      if HasCustomFilter(where.key) {
        ApplyCustomFilter(where.key, where.operator, where.value);
        return;
      }
      if !hasColumn(where.key) {
        return Some(UnknownColumn(where.key));
      }
      query := query + [Where(where.key, where.operator, where.value)];
    }

    /** Whether `key` has a custom filter. When it has, every tuple with that key
        goes to the filter and never fails; when it has not, such a tuple fails
        exactly when the schema lacks the key. */
    function HasCustomFilter(key: string): (r: bool)
      reads this
      ensures r <==> key in customFilters
      ensures r ==> forall operator, value :: ResolveOne(query, FilterTuple(key, operator, value), hasColumn, customFilters)
                      == Outcome(customFilters[key](query, value, operator), None)
      ensures !r ==> forall operator, value :: ResolveOne(query, FilterTuple(key, operator, value), hasColumn, customFilters).error.Some?
                       <==> !hasColumn(key)
    {
      key in customFilters
    }

    /** Hands the query, the value and the operator to the key's custom filter
        and keeps what it returns as the query. */
    method ApplyCustomFilter(key: string, operator: string, value: string)
      requires key in customFilters
      modifies this`query
      ensures query == customFilters[key](old(query), value, operator)
    {
      query := customFilters[key](query, value, operator);
    }
  }
}
