/** The query engine the builder drives, seen only through the operations it
    receives: every call on the engine's query object is recorded, in order, in a
    trace. Executing the trace and the rows it returns are outside this model. */
module Engine {

  /** One call on the engine's query object. */
  datatype Op =
    | Where(column: string, operator: string, value: string)
    | Select(columns: seq<string>)
    | With(relations: seq<string>)
    | Skip(count: int)
    | OrderBy(column: string, direction: string)
    | GroupBy(columns: seq<string>)
    | Take(count: int)
    | Fetch                       // the terminal get() of a bounded fetch
    | Paginate(perPage: int)      // the terminal paginate(perPage)

  /** Everything issued on one query object, oldest first. */
  type Trace = seq<Op>

  /** A custom filter: given the query so far, the filter value and the operator,
      it yields the query that replaces it. */
  type Handler = (Trace, string, string) -> Trace

  /** What an executed query hands back: a row collection or a paginator. Both are
      opaque here and are identified by the trace that produced them. */
  datatype Fetched =
    | Collection(plan: Trace)
    | Paginator(plan: Trace, perPage: int)
}
