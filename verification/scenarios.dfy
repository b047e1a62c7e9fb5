/** A worked request taken through preparation and plan emission. */
module Scenarios {
  import opened Wrappers
  import opened Strings
  import opened Request
  import opened Engine
  import opened Plan
  import opened Builder

  /** A worked request: columns=id,name, order_by=name,asc, limit=5, page=2 and
      the filter status=active, with the reserved parameters among the others. */
  function ExampleRequest(): Params {
    Params(
      [FilterTuple("columns", "=", "id,name"), FilterTuple("status", "=", "active"),
       FilterTuple("order_by", "=", "name,asc"), FilterTuple("limit", "=", "5"), FilterTuple("page", "=", "2")],
      Directives(Some("name,asc"), None, Some(5), Some(2), Some("id,name"), None))
  }

  /** Of the worked request's parameters only the filter survives, the
      reserved ones before and after it being dropped. */
  lemma ExampleFilters()
    ensures QueryParametersExcept(ExampleRequest().filters, ReservedNames) == [FilterTuple("status", "=", "active")]
  {
  }

  /** The two list values of the worked request split into their tokens. */
  lemma ExampleSplits()
    ensures Split("id,name") == ["id", "name"]
    ensures Split("name,asc") == ["name", "asc"]
  {
    assert Join(["id", "name"]) == "id,name";
    SplitJoin(["id", "name"]);
    assert Join(["name", "asc"]) == "name,asc";
    SplitJoin(["name", "asc"]);
  }

  /** Preparing a request with the worked example's directives and the single
      filter status=active (ExampleFilters shows the worked request is one) on a
      fresh builder sets the shape; the offset is (2 - 1) * 5. The request is a
      parameter pinned by the requires, not a literal in the body, only to keep
      the proof cheap. */
  lemma ExamplePrepared(p: Params)
    requires p.directives == Directives(Some("name,asc"), None, Some(5), Some(2), Some("id,name"), None)
    requires QueryParametersExcept(p.filters, ReservedNames) == [FilterTuple("status", "=", "active")]
    ensures Prepared(Defaults, p) ==
      Outcome(Descriptor([FilterTuple("status", "=", "active")], Order("name", "asc"), 5, 2, 5, ["id", "name"], [], []), None)
  {
    ExampleSplits();
    PreparedFields(Defaults, p);
    var r := Prepared(Defaults, p).state;
    assert r.orderBy == Order("name", "asc");
    assert r.limit == 5 && r.page == 2 && r.offset == 5;
    assert r.columns == ["id", "name"] && r.includes == [] && r.groupBy == [];
  }

  /** The table of the worked request: it has the columns id, name and status. */
  predicate ExampleSchema(column: string) {
    column == "id" || column == "name" || column == "status"
  }

  /** A builder with no custom filters. */
  const NoCustomFilters: map<string, Handler> := map[]

  /** On that table, the prepared worked request issues where status = active,
      select id,name, with nothing, skip 5, order by name asc, take 5, and
      fetch. The descriptor is a parameter pinned by the requires, not a literal
      in the body, only to keep the proof cheap. */
  lemma ExamplePlan(d: Descriptor)
    requires d == Descriptor([FilterTuple("status", "=", "active")], Order("name", "asc"), 5, 2, 5, ["id", "name"], [], [])
    ensures Issued(d, [], ExampleSchema, NoCustomFilters, Bounded) ==
      Outcome([Where("status", "=", "active"), Select(["id", "name"]), With([]), Skip(5),
               OrderBy("name", "asc"), Take(5), Fetch], None)
  {
    var status := d.wheres[0];
    assert status.key !in NoCustomFilters;
    var schema: string -> bool := ExampleSchema;
    assert schema(status.key);
    ResolveGeneric([], d.wheres, ExampleSchema, NoCustomFilters);
    assert WhereOps(d.wheres) == [Where("status", "=", "active")];
    assert Resolve([], d.wheres, ExampleSchema, NoCustomFilters) == Outcome([Where("status", "=", "active")], None) by {
      assert [] + WhereOps(d.wheres) == WhereOps(d.wheres);
    }
    var clauses := [Select(["id", "name"]), With([]), Skip(5), OrderBy("name", "asc")];
    assert Clauses(d) == clauses;
    assert Built(d, [], ExampleSchema, NoCustomFilters) == Outcome([Where("status", "=", "active")] + clauses, None);
    assert Terminal(Bounded, d.limit) == [Take(5), Fetch];
    assert [Where("status", "=", "active")] + clauses + [Take(5), Fetch] ==
      [Where("status", "=", "active"), Select(["id", "name"]), With([]), Skip(5), OrderBy("name", "asc"), Take(5), Fetch];
  }

  /** The worked request through a fresh builder: the bounded fetch succeeds and
      the engine receives exactly the worked plan. */
  method ExampleGet() {
    var request := ExampleRequest();
    var builder := new QueryBuilder(ExampleSchema, NoCustomFilters, request);
    var error := builder.Get();
    ExampleFilters();
    ExamplePrepared(request);
    ExamplePlan(builder.State());
    assert error.None?;
    assert builder.query == [Where("status", "=", "active"), Select(["id", "name"]), With([]), Skip(5),
                             OrderBy("name", "asc"), Take(5), Fetch];
  }

  /** A request with no reserved keys and the single filter `key` = `value`. */
  function SingleFilter(key: string, value: string): Params {
    Params([FilterTuple(key, "=", value)], Directives(None, None, None, None, None, None))
  }

  /** A filter on a column the table lacks fails the fetch, names the column,
      and leaves the result and the query untouched. */
  method ExampleUnknownColumn() {
    var builder := new QueryBuilder(ExampleSchema, NoCustomFilters, SingleFilter("secret", "x"));
    var error := builder.Get();
    assert SingleFilter("secret", "x").filters[1..] == [];
    assert "secret" !in ReservedNames;
    PreparedFields(Defaults, SingleFilter("secret", "x"));
    IssuedStopsAtUnknown(builder.State(), [], ExampleSchema, NoCustomFilters, Bounded, 0);
    assert error == Some(UnknownColumn("secret"));
    assert builder.result == None;
    assert builder.query == [];
  }

  /** A custom filter for status that issues a range on the column state. */
  function StatusFilter(q: Trace, value: string, operator: string): Trace {
    q + [Where("state", ">=", value)]
  }

  /** A table without columns. */
  predicate NoColumns(column: string) {
    false
  }

  /** A custom filter wins over the schema: the table has no column status,
      yet the filter on status succeeds through its handler. */
  method ExampleCustomFilter() {
    var filters: map<string, Handler> := map["status" := StatusFilter];
    var builder := new QueryBuilder(NoColumns, filters, SingleFilter("status", "open"));
    var error := builder.Paginate();
    assert SingleFilter("status", "open").filters[1..] == [];
    assert "status" !in ReservedNames;
    PreparedFields(Defaults, SingleFilter("status", "open"));
    assert builder.State().wheres == [FilterTuple("status", "=", "open")];
    assert builder.State().wheres[1..] == [];
    assert error.None?;
    assert builder.query == [Where("state", ">=", "open"), Select(["*"]), With([]), Skip(0),
                             OrderBy("id", "desc"), Engine.Paginate(15)];
  }
}
