# QueryBuilder, modelled in Dafny

This project models the query builder of the Laravel API query builder
package (`src/QueryBuilder.php`). Each request gets its own builder. The
builder holds a query descriptor: filter tuples (`wheres`), an `orderBy` pair,
`limit`, `page`, `offset`, `columns`, `includes` and `groupBy`. It does three
things in turn:

1. It replaces the filter tuples with the request's non-reserved parameters.
2. It visits the reserved keys `order_by, group_by, limit, page, columns,
   includes` in that order and calls the matching setter for each key the
   request carries.
3. It issues the plan on the engine's query object. First come the filters:
   a key with a custom filter goes to that filter, a key the table has
   becomes a generic `where`, and any other key fails with "Unknown column".
   Then come `select`, `with`, `skip`, `orderBy`, and `groupBy` if there is
   any grouping. Last comes `take(limit)` plus a fetch (`get`) or
   `paginate(limit)` (`paginate`).

Files and modules:

- `strings.dfy`, module `Strings`: `explode(',', …)` and `implode(',', …)` as
  `Split` and `Join`, with their round trips.
- `request.dfy`, module `Request`: what the parameter parser hands the builder.
  This is every parameter as a filter tuple, in request order, plus the
  typed value of each reserved key that is present. It also holds the reserved
  key list and the removal of reserved parameters (`QueryParametersExcept`).
- `engine.dfy`, module `Engine`: the engine's query object as a recorded
  trace of operations (`Op`). A custom filter is a function from
  (query, value, operator) to a query. Fetched results are opaque.
- `plan.dfy`, module `Plan`: the behaviour as functions of the descriptor.
  `Prepared` applies the directives, `Resolve` resolves the filters,
  `Built` and `Issued` emit the plan. The lemmas state the properties.
- `builder.dfy`, module `Builder`: class `QueryBuilder`. Its fields are the
  source's fields, and its methods change them in place. Each method is
  proved to produce the state its function in `Plan` describes.
- `scenarios.dfy`, module `Scenarios`: a worked request taken through
  preparation and emission, plus three client methods that drive a
  `QueryBuilder`. The request in `ExampleGet` is `columns=id,name`,
  `order_by=name,asc`, `limit=5`, `page=2` with the filter `status=active`.
  `ExampleUnknownColumn` hits an unknown column. `ExampleCustomFilter` has
  a custom filter for a key the table lacks.

The schema (`Schema::hasColumn` on the model's table) is a predicate
`hasColumn` given to the constructor. The custom filters (`filterBy…` methods)
are a map from filter key to handler, also given to the constructor. A thrown
`UnknownColumnException` is a returned `Error`. The builder's state at that
point is kept: the query holds what the earlier tuples issued, and the result
is not replaced.

## Model

| member | source | states |
|---|---|---|
| `Builder.QueryBuilder.constructor` | src/QueryBuilder.php:20-52 | A fresh builder has columns `["*"]`, no includes, order `(id, desc)`, no grouping, limit 15, page 1, offset 0, no wheres, an empty query and no result |
| `Builder.QueryBuilder.Get` | src/QueryBuilder.php:54-61 | Prepares, then builds on the existing query, then appends `take(limit)` and a fetch. A preparation or resolution failure is returned, no terminal operation is issued and the result is kept. On success the result is the fetched plan |
| `Builder.QueryBuilder.Paginate` | src/QueryBuilder.php:63-70 | Same as `Get`, but the terminal operation is `paginate(limit)` and the result is a paginator with page size `limit` |
| `Builder.QueryBuilder.Result` | src/QueryBuilder.php:72-75 | Returns the stored result of the last completed fetch |
| `Builder.QueryBuilder.Prepare` | src/QueryBuilder.php:77-86 | The new descriptor and error are exactly `Prepared(old descriptor, request)`: wheres replaced, then the reserved keys in list order, stopping at the first failure |
| `Builder.QueryBuilder.Build` | src/QueryBuilder.php:88-109 | The new query and error are exactly `Built(descriptor, old query)`: the wheres are resolved in order, then the clauses are issued in fixed order |
| `Builder.QueryBuilder.SetIncludes` | src/QueryBuilder.php:121-126 | `includes` becomes the comma split of the value; no other field changes |
| `Builder.QueryBuilder.SetPage` | src/QueryBuilder.php:128-135 | `page` becomes the value and `offset` becomes `(page - 1) * limit`, using the limit in force at that moment |
| `Builder.QueryBuilder.SetColumns` | src/QueryBuilder.php:137-142 | `columns` becomes the comma split of the value; no other field changes |
| `Builder.QueryBuilder.SetOrderBy` | src/QueryBuilder.php:144-154 | With at least two tokens, the order becomes (first token, second token) and the rest are ignored. With fewer it fails, names the value and leaves the order unchanged |
| `Builder.QueryBuilder.SetGroupBy` | src/QueryBuilder.php:156-161 | `groupBy` becomes the comma split of the value; no other field changes |
| `Builder.QueryBuilder.SetLimit` | src/QueryBuilder.php:163-168 | `limit` becomes the value; the offset is not touched |
| `Builder.QueryBuilder.HasWheres` | src/QueryBuilder.php:111-114 | Holds exactly when there are filter tuples. When it does not, skipping resolution leaves the query as resolving an empty list would, with no error |
| `Builder.QueryBuilder.HasGroupBy` | src/QueryBuilder.php:116-119 | Holds exactly when there are grouping columns. Those are the cases where the plan's clauses have a fifth entry, a `groupBy` of those columns |
| `Builder.QueryBuilder.SetWheres` | src/QueryBuilder.php:170-175 | `wheres` becomes the given tuples |
| `Builder.QueryBuilder.PrepareExcept` | src/QueryBuilder.php:187-196 | If the request lacks the key, nothing changes. Otherwise the key's setter runs on its value (`ApplyDirective`) |
| `Builder.QueryBuilder.AddWhereToQuery` | src/QueryBuilder.php:198-211 | A key with a custom filter lets the filter replace the query. A key with no custom filter that the schema lacks fails with `UnknownColumn(key)`, leaving the query as it was. Any other key appends exactly one `where(key, operator, value)` |
| `Builder.QueryBuilder.HasCustomFilter` | src/QueryBuilder.php:213-223 | Holds exactly when the raw key is in the registry of custom filters (see the `studly_case` line under "Left out"). A tuple with such a key goes to its filter and never fails. A tuple with any other key fails exactly when the schema lacks the key |
| `Builder.QueryBuilder.ApplyCustomFilter` | src/QueryBuilder.php:225-232 | The query becomes the handler's result on (query, value, operator) |
| `Strings.Split` | src/QueryBuilder.php:137-142 | Explode on commas: always at least one token, and no token contains a comma |
| `Strings.JoinSplit` | src/QueryBuilder.php:121-126 | Joining the stored tokens with commas gives back the setter's input |
| `Strings.SplitJoin` | src/QueryBuilder.php:156-161 | Splitting a comma join of one or more comma-free tokens gives back those tokens, in order |
| `Strings.SplitLength` | src/QueryBuilder.php:139 | A value with `n` commas is stored as `n + 1` tokens |
| `Strings.SplitNoComma` | src/QueryBuilder.php:123 | A comma-free value, the empty string included, is stored as the single token it is |
| `Request.QueryParametersExcept` | src/QueryBuilder.php:79-81 | The kept parameters are exactly those whose name is not reserved. None of them is reserved, and no more are kept than were given |
| `Request.QueryParametersExceptAppend` | src/QueryBuilder.php:79-81 | Removing reserved parameters distributes over concatenation, so the others keep their request order |
| `Request.ExceptsCoverReserved` | src/QueryBuilder.php:39 | The visiting list holds each of the six reserved keys exactly once, and the set of reserved names is exactly the set of their names |
| `Plan.UnknownColumnMessage` | src/QueryBuilder.php:207 | The failure message is `Unknown column '` followed by the key and a closing quote, so the key can be read back from it. `Plan.IssuedStopsAtUnknown` proves it is the message of the failure an unknown column raises |
| `Plan.PreparedFailure` | src/QueryBuilder.php:144-154 | Preparing fails exactly when `order_by` is present with fewer than two tokens. `order_by` is visited first, so only `wheres` has been replaced by then |
| `Plan.PreparedFields` | src/QueryBuilder.php:77-86 | After a successful preparation, each field holds the setter's result for its key when the key is present and its old value when absent. `wheres` holds the non-reserved parameters. When `page` is present, `offset = (page - 1) * new limit` |
| `Plan.PreparedIsState` | src/QueryBuilder.php:77-86 | A successful preparation reaches exactly the descriptor written out field by field (`PreparedState`). Each field comes from its reserved key when present, the limit is applied before the page, and the filter tuples are the non-reserved parameters |
| `Plan.PreparedSteps` | src/QueryBuilder.php:83 | Preparation is the six directive steps in the order order_by, group_by, limit, page, columns, includes, cut short when order_by fails |
| `Plan.PreparedFromDefaults` | src/QueryBuilder.php:27-31 | From a fresh builder, the prepared offset is `(page - 1) * limit`. Without `limit` that is `(page - 1) * 15`. Without `page` the page is 1 and the offset is 0 |
| `Plan.PageBeforeLimit` | src/QueryBuilder.php:39 | Visiting page before limit would compute the offset from the old limit, so the result is consistent only if the page is 1 or the limit does not change. The list order is therefore observable |
| `Plan.ResolveFailsIffUnknown` | src/QueryBuilder.php:198-211 | Resolving the wheres fails if and only if some tuple has neither a custom filter nor a schema column |
| `Plan.ResolveFirstUnknown` | src/QueryBuilder.php:90-92 | Fail fast: the failure names the first such tuple's key. The query holds exactly what the tuples before it issued, and no later tuple is processed |
| `Plan.ResolveGeneric` | src/QueryBuilder.php:210 | When no tuple has a custom filter and all are columns, resolution succeeds and appends exactly one `where` per tuple, in tuple order |
| `Plan.ResolveIgnoresSchemaForCustomKeys` | src/QueryBuilder.php:202-204 | The schema is never consulted for a key with a custom filter. Two schemas that agree on the other keys give identical resolutions |
| `Plan.CustomFilterReplacesQuery` | src/QueryBuilder.php:225-232 | A tuple with a custom filter continues resolution from the handler's result on (query, value, operator), whatever the schema says |
| `Plan.BuiltClauseOrder` | src/QueryBuilder.php:88-109 | With generic filters only, the plan is the old query, then the wheres in order, then `select`, `with`, `skip(offset)` and `orderBy`. `groupBy` comes last and is present exactly when there are grouping columns |
| `Plan.BoundedAndPagedSharePlan` | src/QueryBuilder.php:54-70 | The bounded and paged fetches fail alike. On success they share the plan and differ only in `take(limit)` plus fetch versus `paginate(limit)` |
| `Plan.IssuedStopsAtUnknown` | src/QueryBuilder.php:54-67 | With an unknown column in either mode, the error names it, its message is `Unknown column '<key>'`, and no terminal operation is issued. The query holds only what the earlier tuples issued |
| `Scenarios.ExampleFilters` | src/QueryBuilder.php:79-81 | In the worked request, the reserved parameters around `status=active` are dropped and only that filter remains |
| `Scenarios.ExamplePrepared` | src/QueryBuilder.php:77-86 | The worked directives on a fresh builder give columns `id,name`, order `(name, asc)`, limit 5, page 2 and offset 5 |
| `Scenarios.ExamplePlan` | src/QueryBuilder.php:88-109 | The worked descriptor issues `where status = active`, `select id,name`, `with []`, `skip 5`, `orderBy name asc`, `take 5` and a fetch |

## Left out

- The parameter parser (`UriParser`): how the query string is split into names, operators and values is not part of this model. Its outputs are inputs here: every parameter as a filter tuple in request order, and the value of each reserved key when present.
- PHP's `(int)` cast in `setLimit` and `setPage`. `limit` and `page` arrive as integers, so a non-numeric value becoming 0 is not modelled.
- `studly_case`, `method_exists` and `call_user_func`. The setters are chosen by an explicit match on the reserved key. The custom filters are a map keyed by the raw filter key, so two keys that studly-case to the same method name, or that differ only in letter case, are distinct here.
- `Schema::hasColumn` and `getTable`: the schema is a pure predicate fixed at construction.
- Eloquent: `newQuery`, the execution of `get`/`paginate`, the rows and the paginator envelope. The query object is a trace of the calls issued on it, and a result is identified by the trace that produced it.
- Exceptions are returned as `Error` values instead of being thrown.
- `order_by` with fewer than two tokens: PHP's `list()` raises an undefined-offset notice, which a Laravel application turns into an exception. The model treats it as the failure `MalformedOrderBy`, raised before anything after it is applied.
- The code stores an empty `columns` value as one empty token, keeps `includes` as an ordered list, ignores `order_by` tokens after the second, and does not recompute the offset in `setLimit` (src/QueryBuilder.php:163-168). The model does the same.
- Builder.QueryBuilder.SetPage: `limit`, `page` and `offset` are unbounded integers. PHP's are 64-bit, and `($page - 1) * $this->limit` becomes a float once it passes `PHP_INT_MAX`, which the model does not capture.
- Builder.QueryBuilder.SetPage: the code stores `(int) $page` but computes the offset from the uncast `$page` (src/QueryBuilder.php:130-132). The model receives `page` already as an integer, so both use the same value. A page of `2.5` would store page 2 and offset `1.5 * limit`, which the model does not capture.
- The constructor's `Request` wiring and all HTTP concerns.
