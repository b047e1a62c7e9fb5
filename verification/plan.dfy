/** The builder's behaviour as functions of its state: the query descriptor, how
    the reserved directives rewrite it, how filter tuples are resolved into engine
    operations, and the fixed clause order of a built plan. The class in
    builder.dfy is proved to do exactly what these functions say. */
module Plan {
  import opened Wrappers
  import opened Strings
  import opened Request
  import opened Engine

  /** The single ordering clause. */
  datatype Order = Order(column: string, direction: string)

  /** The builder's query descriptor: the filter tuples and the query shape. */
  datatype Descriptor = Descriptor(
    wheres: seq<FilterTuple>,
    orderBy: Order,
    limit: int,
    page: int,
    offset: int,
    columns: seq<string>,
    includes: seq<string>,
    groupBy: seq<string>)

  /** The descriptor of a fresh builder. */
  const Defaults: Descriptor :=
    Descriptor([], Order("id", "desc"), 15, 1, 0, ["*"], [], [])

  /** Why a request is refused. */
  datatype Error =
    | UnknownColumn(column: string)   // a filter key that is neither a custom filter nor a column
    | MalformedOrderBy(order: string) // an order_by value without a direction token

  /** The prefix of the message of an unknown-column failure. */
  const UnknownColumnPrefix: string := "Unknown column '"

  /** The message an unknown-column failure carries: the key, quoted. */
  function UnknownColumnMessage(column: string): (m: string)
    ensures |m| == |UnknownColumnPrefix| + |column| + 1
    ensures m[..|UnknownColumnPrefix|] == UnknownColumnPrefix
    ensures m[|UnknownColumnPrefix|..|m| - 1] == column
    ensures m[|m| - 1] == '\''
  {
    UnknownColumnPrefix + column + "'"
  }

  /** The message a failure carries. A malformed order_by fails on PHP's
      undefined-offset notice for the missing direction token. */
  function Message(e: Error): string {
    match e
    case UnknownColumn(column) => UnknownColumnMessage(column)
    case MalformedOrderBy(_) => "Undefined offset: 1"
  }

  /** A state reached by a step, and the failure that stopped it, if any. */
  datatype Outcome<T> = Outcome(state: T, error: Option<Error>)

  // ---------------------------------------------------------------------------
  // Directives

  /** Whether the request's order_by value lacks a direction token. */
  predicate OrderByMalformed(dirs: Directives) {
    dirs.orderBy.Some? && |Split(dirs.orderBy.value)| < 2
  }

  /** One reserved key: when the request carries it, its setter's effect on the
      descriptor; otherwise the descriptor as it was. */
  function ApplyDirective(d: Descriptor, k: ReservedKey, dirs: Directives): Outcome<Descriptor> {
    match k
    case OrderByKey =>
      (match dirs.orderBy
       case None => Outcome(d, None)
       case Some(v) =>
         var tokens := Split(v);
         if |tokens| < 2 then Outcome(d, Some(MalformedOrderBy(v)))
         else Outcome(d.(orderBy := Order(tokens[0], tokens[1])), None))
    case GroupByKey =>
      (match dirs.groupBy
       case None => Outcome(d, None)
       case Some(v) => Outcome(d.(groupBy := Split(v)), None))
    case LimitKey =>
      (match dirs.limit
       case None => Outcome(d, None)
       case Some(n) => Outcome(d.(limit := n), None))
    case PageKey =>
      (match dirs.page
       case None => Outcome(d, None)
       case Some(n) => Outcome(d.(page := n, offset := (n - 1) * d.limit), None))
    case ColumnsKey =>
      (match dirs.columns
       case None => Outcome(d, None)
       case Some(v) => Outcome(d.(columns := Split(v)), None))
    case IncludesKey =>
      (match dirs.includes
       case None => Outcome(d, None)
       case Some(v) => Outcome(d.(includes := Split(v)), None))
  }

  /** The reserved keys `keys`, applied in order; the first failure stops it. */
  function ApplyDirectives(d: Descriptor, keys: seq<ReservedKey>, dirs: Directives): Outcome<Descriptor>
    decreases |keys|
  {
    if |keys| == 0 then Outcome(d, None)
    else
      var o := ApplyDirective(d, keys[0], dirs);
      if o.error.Some? then o else ApplyDirectives(o.state, keys[1..], dirs)
  }

  /** The descriptor after preparing a request: the non-reserved parameters
      become the filter tuples, then every reserved key is applied in the fixed
      order. */
  function Prepared(d: Descriptor, p: Params): Outcome<Descriptor> {
    ApplyDirectives(d.(wheres := QueryParametersExcept(p.filters, ReservedNames)), Excepts, p.directives)
  }

  /** Preparing fails exactly when order_by lacks a direction; order_by is
      visited first, so then only the filter tuples have been replaced. */
  lemma PreparedFailure(d: Descriptor, p: Params)
    ensures Prepared(d, p).error.Some? <==> OrderByMalformed(p.directives)
    ensures Prepared(d, p).error.Some? ==>
      Prepared(d, p).error == Some(MalformedOrderBy(p.directives.orderBy.value))
      && Prepared(d, p).state == d.(wheres := QueryParametersExcept(p.filters, ReservedNames))
  {
  }

  /** The prepared descriptor written out field by field: each field from its
      reserved key when the request carries it, otherwise as it was. The page
      comes after the limit, so a recomputed offset uses the new limit. */
  function PreparedState(d: Descriptor, p: Params): Descriptor
    requires !OrderByMalformed(p.directives)
  {
    var dirs := p.directives;
    var limit := dirs.limit.GetOr(d.limit);
    Descriptor(
      QueryParametersExcept(p.filters, ReservedNames),
      if dirs.orderBy.Some? then Order(Split(dirs.orderBy.value)[0], Split(dirs.orderBy.value)[1]) else d.orderBy,
      limit,
      dirs.page.GetOr(d.page),
      if dirs.page.Some? then (dirs.page.value - 1) * limit else d.offset,
      if dirs.columns.Some? then Split(dirs.columns.value) else d.columns,
      if dirs.includes.Some? then Split(dirs.includes.value) else d.includes,
      if dirs.groupBy.Some? then Split(dirs.groupBy.value) else d.groupBy)
  }

  /** A successful preparation reaches exactly the descriptor written out
      above. */
  lemma PreparedIsState(d: Descriptor, p: Params)
    requires !OrderByMalformed(p.directives)
    ensures Prepared(d, p) == Outcome(PreparedState(d, p), None)
  {
    PreparedSteps(d, p);
    var dirs := p.directives;
    var d0 := d.(wheres := QueryParametersExcept(p.filters, ReservedNames));
    var d1 := if dirs.orderBy.Some? then d0.(orderBy := Order(Split(dirs.orderBy.value)[0], Split(dirs.orderBy.value)[1])) else d0;
    assert ApplyDirective(d0, OrderByKey, dirs) == Outcome(d1, None);
    var d2 := if dirs.groupBy.Some? then d1.(groupBy := Split(dirs.groupBy.value)) else d1;
    assert ApplyDirective(d1, GroupByKey, dirs).state == d2;
    var d3 := if dirs.limit.Some? then d2.(limit := dirs.limit.value) else d2;
    assert ApplyDirective(d2, LimitKey, dirs).state == d3;
    var d4 := if dirs.page.Some? then d3.(page := dirs.page.value, offset := (dirs.page.value - 1) * d3.limit) else d3;
    assert ApplyDirective(d3, PageKey, dirs).state == d4;
    var d5 := if dirs.columns.Some? then d4.(columns := Split(dirs.columns.value)) else d4;
    assert ApplyDirective(d4, ColumnsKey, dirs).state == d5;
    var d6 := if dirs.includes.Some? then d5.(includes := Split(dirs.includes.value)) else d5;
    assert ApplyDirective(d5, IncludesKey, dirs).state == d6;
  }

  /** A successful preparation sets each field from its reserved key when the
      request carries that key and leaves it alone otherwise. The page is applied
      after the limit, so a recomputed offset uses the new limit. */
  lemma PreparedFields(d: Descriptor, p: Params)
    requires !OrderByMalformed(p.directives)
    ensures var r := Prepared(d, p).state; var dirs := p.directives;
      && Prepared(d, p).error.None?
      && r.wheres == QueryParametersExcept(p.filters, ReservedNames)
      && r.orderBy == (if dirs.orderBy.Some? then Order(Split(dirs.orderBy.value)[0], Split(dirs.orderBy.value)[1]) else d.orderBy)
      && r.groupBy == (if dirs.groupBy.Some? then Split(dirs.groupBy.value) else d.groupBy)
      && r.limit == dirs.limit.GetOr(d.limit)
      && r.page == dirs.page.GetOr(d.page)
      && r.offset == (if dirs.page.Some? then (dirs.page.value - 1) * r.limit else d.offset)
      && r.columns == (if dirs.columns.Some? then Split(dirs.columns.value) else d.columns)
      && r.includes == (if dirs.includes.Some? then Split(dirs.includes.value) else d.includes)
  {
    PreparedIsState(d, p);
  }

  /** Preparation is the six directive steps in list order, cut short when the
      first one fails. */
  lemma PreparedSteps(d: Descriptor, p: Params)
    ensures var dirs := p.directives;
      var d0 := d.(wheres := QueryParametersExcept(p.filters, ReservedNames));
      var o1 := ApplyDirective(d0, OrderByKey, dirs);
      var d2 := ApplyDirective(o1.state, GroupByKey, dirs).state;
      var d3 := ApplyDirective(d2, LimitKey, dirs).state;
      var d4 := ApplyDirective(d3, PageKey, dirs).state;
      var d5 := ApplyDirective(d4, ColumnsKey, dirs).state;
      var d6 := ApplyDirective(d5, IncludesKey, dirs).state;
      Prepared(d, p) == if o1.error.Some? then o1 else Outcome(d6, None)
  {
  }

  /** From a fresh builder, the offset of a prepared request is always
      `(page - 1) * limit`; when only the page is given, the default limit of 15
      is the one used. */
  lemma PreparedFromDefaults(p: Params)
    requires !OrderByMalformed(p.directives)
    ensures var r := Prepared(Defaults, p).state;
      && r.offset == (r.page - 1) * r.limit
      && (p.directives.limit.None? ==> r.limit == 15 && r.offset == (r.page - 1) * 15)
      && (p.directives.page.None? ==> r.page == 1 && r.offset == 0)
  {
    PreparedFields(Defaults, p);
  }

  /** The visiting order is observable: were the page applied before the limit,
      the offset would be computed from the limit the builder had before. */
  lemma PageBeforeLimit(d: Descriptor, dirs: Directives)
    requires dirs.limit.Some? && dirs.page.Some?
    ensures var r := ApplyDirectives(d, [PageKey, LimitKey], dirs).state;
      && r.limit == dirs.limit.value
      && r.offset == (dirs.page.value - 1) * d.limit
      && (r.offset == (r.page - 1) * r.limit <==> dirs.page.value == 1 || d.limit == dirs.limit.value)
  {
  }

  // ---------------------------------------------------------------------------
  // Filter resolution

  /** A tuple that is neither a custom filter nor a column of the table. */
  predicate Unknown(t: FilterTuple, hasColumn: string -> bool, filters: map<string, Handler>) {
    t.key !in filters && !hasColumn(t.key)
  }

  /** One filter tuple: its custom filter rewrites the query; otherwise the key
      must be a column, and the query gains one generic where. */
  function ResolveOne(q: Trace, t: FilterTuple, hasColumn: string -> bool, filters: map<string, Handler>): Outcome<Trace> {
    if t.key in filters then Outcome(filters[t.key](q, t.value, t.operator), None)
    else if !hasColumn(t.key) then Outcome(q, Some(UnknownColumn(t.key)))
    else Outcome(q + [Where(t.key, t.operator, t.value)], None)
  }

  /** The filter tuples, resolved in order; the first unknown column stops it,
      keeping what the tuples before it issued. */
  function Resolve(q: Trace, ws: seq<FilterTuple>, hasColumn: string -> bool, filters: map<string, Handler>): Outcome<Trace>
    decreases |ws|
  {
    if |ws| == 0 then Outcome(q, None)
    else
      var o := ResolveOne(q, ws[0], hasColumn, filters);
      if o.error.Some? then o else Resolve(o.state, ws[1..], hasColumn, filters)
  }

  /** The generic where of each tuple, in order. */
  function WhereOps(ws: seq<FilterTuple>): (r: Trace)
    ensures |r| == |ws|
    ensures forall i :: 0 <= i < |ws| ==> r[i] == Where(ws[i].key, ws[i].operator, ws[i].value)
    decreases |ws|
  {
    if |ws| == 0 then [] else [Where(ws[0].key, ws[0].operator, ws[0].value)] + WhereOps(ws[1..])
  }

  /** Resolution fails exactly when some tuple is unknown. */
  lemma {:induction false} ResolveFailsIffUnknown(q: Trace, ws: seq<FilterTuple>, hasColumn: string -> bool, filters: map<string, Handler>)
    ensures Resolve(q, ws, hasColumn, filters).error.Some? <==> exists i :: 0 <= i < |ws| && Unknown(ws[i], hasColumn, filters)
    decreases |ws|
  {
    if |ws| > 0 {
      var o := ResolveOne(q, ws[0], hasColumn, filters);
      if o.error.None? {
        ResolveFailsIffUnknown(o.state, ws[1..], hasColumn, filters);
        if exists i :: 0 <= i < |ws| && Unknown(ws[i], hasColumn, filters) {
          var i :| 0 <= i < |ws| && Unknown(ws[i], hasColumn, filters);
          assert i != 0;
          assert Unknown(ws[1..][i - 1], hasColumn, filters);
        }
        if exists i :: 0 <= i < |ws[1..]| && Unknown(ws[1..][i], hasColumn, filters) {
          var i :| 0 <= i < |ws[1..]| && Unknown(ws[1..][i], hasColumn, filters);
          assert Unknown(ws[i + 1], hasColumn, filters);
        }
      }
    }
  }

  /** Fail fast: the first unknown tuple is the one named by the failure, and
      the query keeps exactly what the tuples before it issued; no later tuple is
      looked at. */
  lemma {:induction false} ResolveFirstUnknown(q: Trace, ws: seq<FilterTuple>, hasColumn: string -> bool, filters: map<string, Handler>, i: nat)
    requires i < |ws| && Unknown(ws[i], hasColumn, filters)
    requires forall j :: 0 <= j < i ==> !Unknown(ws[j], hasColumn, filters)
    ensures Resolve(q, ws, hasColumn, filters).error == Some(UnknownColumn(ws[i].key))
    ensures Resolve(q, ws, hasColumn, filters).state == Resolve(q, ws[..i], hasColumn, filters).state
    ensures Resolve(q, ws[..i], hasColumn, filters).error.None?
    decreases i
  {
    if i > 0 {
      var o := ResolveOne(q, ws[0], hasColumn, filters);
      assert !Unknown(ws[0], hasColumn, filters);
      assert ws[1..][..i - 1] == ws[..i][1..];
      ResolveFirstUnknown(o.state, ws[1..], hasColumn, filters, i - 1);
    }
  }

  /** With no custom filters involved and every key a column, each tuple adds
      exactly one generic where, in tuple order. */
  lemma {:induction false} ResolveGeneric(q: Trace, ws: seq<FilterTuple>, hasColumn: string -> bool, filters: map<string, Handler>)
    requires forall j :: 0 <= j < |ws| ==> ws[j].key !in filters && hasColumn(ws[j].key)
    ensures Resolve(q, ws, hasColumn, filters) == Outcome(q + WhereOps(ws), None)
    decreases |ws|
  {
    if |ws| > 0 {
      var w := Where(ws[0].key, ws[0].operator, ws[0].value);
      ResolveGeneric(q + [w], ws[1..], hasColumn, filters);
      assert q + [w] + WhereOps(ws[1..]) == q + WhereOps(ws);
    } else {
      assert q + WhereOps(ws) == q;
    }
  }

  /** Custom filters take precedence: the schema is consulted only for keys
      that have no custom filter, so two schemas that agree on those keys
      resolve the tuples identically. */
  lemma {:induction false} ResolveIgnoresSchemaForCustomKeys(
    q: Trace, ws: seq<FilterTuple>, hasColumn: string -> bool, other: string -> bool, filters: map<string, Handler>)
    requires forall j :: 0 <= j < |ws| && ws[j].key !in filters ==> hasColumn(ws[j].key) == other(ws[j].key)
    ensures Resolve(q, ws, hasColumn, filters) == Resolve(q, ws, other, filters)
    decreases |ws|
  {
    if |ws| > 0 {
      assert ResolveOne(q, ws[0], hasColumn, filters) == ResolveOne(q, ws[0], other, filters);
      var o := ResolveOne(q, ws[0], hasColumn, filters);
      if o.error.None? {
        ResolveIgnoresSchemaForCustomKeys(o.state, ws[1..], hasColumn, other, filters);
      }
    }
  }

  /** A tuple with a custom filter is handed to it with the query, the value
      and the operator, and what it returns is the query, whatever the schema
      says; it never fails. */
  lemma CustomFilterReplacesQuery(q: Trace, t: FilterTuple, rest: seq<FilterTuple>, hasColumn: string -> bool, filters: map<string, Handler>)
    requires t.key in filters
    ensures Resolve(q, [t] + rest, hasColumn, filters) == Resolve(filters[t.key](q, t.value, t.operator), rest, hasColumn, filters)
  {
    assert ([t] + rest)[1..] == rest;
  }

  // ---------------------------------------------------------------------------
  // Plan emission

  /** The clauses issued after the filters, in their fixed order: selection,
      eager loading, skip, ordering, and grouping only when there is any. */
  function Clauses(d: Descriptor): Trace {
    [Select(d.columns), With(d.includes), Skip(d.offset), OrderBy(d.orderBy.column, d.orderBy.direction)]
    + (if |d.groupBy| > 0 then [GroupBy(d.groupBy)] else [])
  }

  /** The query after building a descriptor on top of `q`. */
  function Built(d: Descriptor, q: Trace, hasColumn: string -> bool, filters: map<string, Handler>): Outcome<Trace> {
    var r := Resolve(q, d.wheres, hasColumn, filters);
    if r.error.Some? then r else Outcome(r.state + Clauses(d), None)
  }

  /** The two ways a built plan is executed. */
  datatype Mode = Bounded | Paged

  /** The terminal operations of each mode. */
  function Terminal(mode: Mode, limit: int): Trace {
    match mode
    case Bounded => [Take(limit), Fetch]
    case Paged => [Paginate(limit)]
  }

  /** The query after building a descriptor and issuing its terminal operations. */
  function Issued(d: Descriptor, q: Trace, hasColumn: string -> bool, filters: map<string, Handler>, mode: Mode): Outcome<Trace> {
    var b := Built(d, q, hasColumn, filters);
    if b.error.Some? then b else Outcome(b.state + Terminal(mode, d.limit), None)
  }

  /** Clause order of a plan whose filters are all generic: the wheres in tuple
      order, then select, with, skip and orderBy, then groupBy exactly when there
      are grouping columns, and nothing else. */
  lemma BuiltClauseOrder(d: Descriptor, q: Trace, hasColumn: string -> bool, filters: map<string, Handler>)
    requires forall j :: 0 <= j < |d.wheres| ==> d.wheres[j].key !in filters && hasColumn(d.wheres[j].key)
    ensures var b := Built(d, q, hasColumn, filters); var n := |q| + |d.wheres|;
      && b.error.None?
      && |b.state| == n + 4 + (if |d.groupBy| > 0 then 1 else 0)
      && b.state[..|q|] == q
      && (forall i :: 0 <= i < |d.wheres| ==> b.state[|q| + i] == Where(d.wheres[i].key, d.wheres[i].operator, d.wheres[i].value))
      && b.state[n] == Select(d.columns)
      && b.state[n + 1] == With(d.includes)
      && b.state[n + 2] == Skip(d.offset)
      && b.state[n + 3] == OrderBy(d.orderBy.column, d.orderBy.direction)
      && (|d.groupBy| > 0 ==> b.state[n + 4] == GroupBy(d.groupBy))
  {
    ResolveGeneric(q, d.wheres, hasColumn, filters);
    var b := Built(d, q, hasColumn, filters);
    assert b.state == q + WhereOps(d.wheres) + Clauses(d);
    forall i | 0 <= i < |d.wheres|
      ensures b.state[|q| + i] == Where(d.wheres[i].key, d.wheres[i].operator, d.wheres[i].value)
    {
      assert b.state[|q| + i] == WhereOps(d.wheres)[i];
    }
  }

  /** A bounded fetch and a paginated fetch of the same descriptor fail alike,
      and when they succeed they issue the same plan and differ only in the
      terminal operations. */
  lemma BoundedAndPagedSharePlan(d: Descriptor, q: Trace, hasColumn: string -> bool, filters: map<string, Handler>)
    ensures var bounded := Issued(d, q, hasColumn, filters, Bounded);
      var paged := Issued(d, q, hasColumn, filters, Paged);
      var plan := Built(d, q, hasColumn, filters);
      && bounded.error == paged.error == plan.error
      && (plan.error.Some? ==> bounded.state == paged.state == plan.state)
      && (plan.error.None? ==>
            && bounded.state == plan.state + [Take(d.limit), Fetch]
            && paged.state == plan.state + [Paginate(d.limit)])
  {
  }

  /** An unknown column stops the request before any terminal operation: the
      query holds only what the tuples before it issued, in either mode. */
  lemma IssuedStopsAtUnknown(d: Descriptor, q: Trace, hasColumn: string -> bool, filters: map<string, Handler>, mode: Mode, i: nat)
    requires i < |d.wheres| && Unknown(d.wheres[i], hasColumn, filters)
    requires forall j :: 0 <= j < i ==> !Unknown(d.wheres[j], hasColumn, filters)
    ensures Issued(d, q, hasColumn, filters, mode).error == Some(UnknownColumn(d.wheres[i].key))
    ensures Issued(d, q, hasColumn, filters, mode).state == Resolve(q, d.wheres[..i], hasColumn, filters).state
    ensures Message(Issued(d, q, hasColumn, filters, mode).error.value) == UnknownColumnMessage(d.wheres[i].key)
  {
    ResolveFirstUnknown(q, d.wheres, hasColumn, filters, i);
  }
}
