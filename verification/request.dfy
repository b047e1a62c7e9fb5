/** What the builder reads from the request. The parameter parser itself is not
    part of this model: its outputs are taken as given, namely every parameter as
    a filter tuple in request order, and the typed value of each reserved key
    that the request carries. */
module Request {
  import opened Wrappers

  /** One parsed parameter: its name, the comparison operator and the value. */
  datatype FilterTuple = FilterTuple(key: string, operator: string, value: string)

  /** The control parameters that shape the query instead of filtering rows. */
  datatype ReservedKey = OrderByKey | GroupByKey | LimitKey | PageKey | ColumnsKey | IncludesKey

  /** The parameter name of a reserved key. */
  function Name(k: ReservedKey): string {
    match k
    case OrderByKey => "order_by"
    case GroupByKey => "group_by"
    case LimitKey => "limit"
    case PageKey => "page"
    case ColumnsKey => "columns"
    case IncludesKey => "includes"
  }

  /** The reserved keys in the order the builder visits them. */
  const Excepts: seq<ReservedKey> := [OrderByKey, GroupByKey, LimitKey, PageKey, ColumnsKey, IncludesKey]

  /** The names of the reserved keys, written out; `ExceptsCoverReserved` proves
      they are exactly the names of the keys in `Excepts`. */
  const ReservedNames: set<string> := {"order_by", "group_by", "limit", "page", "columns", "includes"}

  /** The value of each reserved key, when the request carries it. `limit` and
      `page` are already integers. */
  datatype Directives = Directives(
    orderBy: Option<string>,
    groupBy: Option<string>,
    limit: Option<int>,
    page: Option<int>,
    columns: Option<string>,
    includes: Option<string>)

  /** Whether the request carries the reserved key `k`. */
  predicate Has(dirs: Directives, k: ReservedKey) {
    match k
    case OrderByKey => dirs.orderBy.Some?
    case GroupByKey => dirs.groupBy.Some?
    case LimitKey => dirs.limit.Some?
    case PageKey => dirs.page.Some?
    case ColumnsKey => dirs.columns.Some?
    case IncludesKey => dirs.includes.Some?
  }

  /** Everything the parser produced for one request. */
  datatype Params = Params(filters: seq<FilterTuple>, directives: Directives)

  /** The parameters whose name is not in `names`, in request order. */
  function QueryParametersExcept(params: seq<FilterTuple>, names: set<string>): (r: seq<FilterTuple>)
    ensures |r| <= |params|
    ensures forall i :: 0 <= i < |r| ==> r[i].key !in names
    ensures forall t :: t in r <==> t in params && t.key !in names
    decreases |params|
  {
    if |params| == 0 then []
    else
      var rest := QueryParametersExcept(params[1..], names);
      if params[0].key in names then rest else [params[0]] + rest
  }

  /** Dropping reserved parameters keeps the relative order of the others: it
      distributes over concatenation. */
  lemma {:induction false} QueryParametersExceptAppend(a: seq<FilterTuple>, b: seq<FilterTuple>, names: set<string>)
    ensures QueryParametersExcept(a + b, names) == QueryParametersExcept(a, names) + QueryParametersExcept(b, names)
    decreases |a|
  {
    if |a| > 0 {
      assert (a + b)[1..] == a[1..] + b;
      QueryParametersExceptAppend(a[1..], b, names);
    } else {
      assert a + b == b;
    }
  }

  /** Every reserved key is named in the list the builder visits, exactly once,
      and the reserved names are the six parameter names. */
  lemma ExceptsCoverReserved()
    ensures forall k: ReservedKey :: k in Excepts
    ensures |Excepts| == 6
    ensures forall i, j :: 0 <= i < j < |Excepts| ==> Excepts[i] != Excepts[j]
    ensures ReservedNames == set k | k in Excepts :: Name(k)
  {
    forall k: ReservedKey ensures k in Excepts {
      match k
      case OrderByKey => assert Excepts[0] == k;
      case GroupByKey => assert Excepts[1] == k;
      case LimitKey => assert Excepts[2] == k;
      case PageKey => assert Excepts[3] == k;
      case ColumnsKey => assert Excepts[4] == k;
      case IncludesKey => assert Excepts[5] == k;
    }
    assert Name(OrderByKey) == "order_by";
    assert Name(GroupByKey) == "group_by";
    assert Name(LimitKey) == "limit";
    assert Name(PageKey) == "page";
    assert Name(ColumnsKey) == "columns";
    assert Name(IncludesKey) == "includes";
  }
}
