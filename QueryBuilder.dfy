/** `QueryBuilder<T>`: an ordered list of filters, at most one filter of each
    kind (kinds are told apart by class name), an at-most-once paging slot, and
    a deferred base query that `Build` extends with every filter and the paging
    and then runs. */
module QueryBuilding {
  import opened Wrappers
  import opened Faults
  import opened Linq
  import opened Paging

  /** An `IQueryFilter<T>`: the name of its class and what its `ApplyFilter` does
      to the rows of a query. */
  datatype QueryFilter<!T> = QueryFilter(name: string, apply: seq<T> -> seq<T>)

  /** One stage of a deferred `IQueryable<T>`. `Include` attaches related
      entities to each row. */
  datatype QueryStep<!T> =
    | Filter(filter: QueryFilter<T>)
    | Page(paging: WithPaging)
    | Include(load: T -> T)

  /** A deferred query: stages composed onto a table, evaluated only when the
      query is enumerated against the table's current rows. */
  datatype Query<!T> = Query(steps: seq<QueryStep<T>>)
  {
    /** The rows the query yields over `rows`, the last stage applied last. */
    function Run(rows: seq<T>): seq<T>
      decreases |steps|
    {
      if steps == [] then rows
      else RunStep(steps[|steps| - 1], Query(steps[..|steps| - 1]).Run(rows))
    }

    function Then(more: seq<QueryStep<T>>): (q: Query<T>)
      ensures q.steps == steps + more
    {
      Query(steps + more)
    }
  }

  function RunStep<T>(step: QueryStep<T>, rows: seq<T>): seq<T>
  {
    match step
    case Filter(f) => f.apply(rows)
    case Page(pg) => pg.GetPaged(rows)
    case Include(load) => Select(rows, load)
  }

  /** Extending a query runs the extension on what the query yields. */
  lemma {:induction false} RunThen<T>(q: Query<T>, more: seq<QueryStep<T>>, rows: seq<T>)
    ensures q.Then(more).Run(rows) == Query(more).Run(q.Run(rows))
    decreases |more|
  {
    if more == [] {
      assert q.Then(more) == q;
    } else {
      var front := more[..|more| - 1];
      var all := q.Then(more).steps;
      assert all[..|all| - 1] == q.Then(front).steps;
      assert all[|all| - 1] == more[|more| - 1];
      RunThen(q, front, rows);
    }
  }

  /** The filters' stages, in list order. */
  function FilterSteps<T>(fs: seq<QueryFilter<T>>): (r: seq<QueryStep<T>>)
    ensures |r| == |fs| && forall i | 0 <= i < |fs| :: r[i] == Filter(fs[i])
  {
    seq(|fs|, i requires 0 <= i < |fs| => Filter(fs[i]))
  }

  function PagingSteps<T>(paging: Option<WithPaging>): (r: seq<QueryStep<T>>)
    ensures paging.None? <==> r == []
    ensures paging.Some? ==> r == [Page(paging.value)]
  {
    match paging
    case None => []
    case Some(pg) => [Page(pg)]
  }

  /** The reference reading of `Build`: each filter in insertion order, the first
      filter applied first, then the page if one is set. */
  function ApplyAll<T>(fs: seq<QueryFilter<T>>, rows: seq<T>): seq<T>
  {
    if fs == [] then rows else ApplyAll(fs[1..], fs[0].apply(rows))
  }

  function Paged<T>(paging: Option<WithPaging>, rows: seq<T>): seq<T>
  {
    match paging
    case None => rows
    case Some(pg) => pg.GetPaged(rows)
  }

  lemma {:induction false} RunFilterSteps<T>(fs: seq<QueryFilter<T>>, rows: seq<T>)
    ensures Query(FilterSteps(fs)).Run(rows) == ApplyAll(fs, rows)
    decreases |fs|
  {
    if fs != [] {
      var q0 := Query(FilterSteps([fs[0]]));
      assert q0.steps[..0] == [];
      assert q0.Run(rows) == fs[0].apply(rows);
      assert FilterSteps(fs) == q0.steps + FilterSteps(fs[1..]);
      RunThen(q0, FilterSteps(fs[1..]), rows);
      RunFilterSteps(fs[1..], fs[0].apply(rows));
    }
  }

  lemma {:induction false} ApplyAllAppend<T>(fs: seq<QueryFilter<T>>, gs: seq<QueryFilter<T>>, rows: seq<T>)
    ensures ApplyAll(fs + gs, rows) == ApplyAll(gs, ApplyAll(fs, rows))
    decreases |fs|
  {
    if fs == [] {
      assert fs + gs == gs;
    } else {
      assert (fs + gs)[0] == fs[0] && (fs + gs)[1..] == fs[1..] + gs;
      ApplyAllAppend(fs[1..], gs, fs[0].apply(rows));
    }
  }

  /** The builder's fields: `_query`, `_queryFilters` and `_withPaging`. */
  datatype BuilderState<!T> = BuilderState(
    query: Query<T>,
    filters: seq<QueryFilter<T>>,
    paging: Option<WithPaging>)
  {
    predicate HasFilterNamed(name: string)
    {
      exists i | 0 <= i < |filters| :: filters[i].name == name
    }

    /** No two filters of the same kind. */
    ghost predicate DistinctKinds()
    {
      forall i, j | 0 <= i < j < |filters| :: filters[i].name != filters[j].name
    }

    /** `AddFilter`: a filter of a kind not yet present goes at the end of the
        list; a second filter of a kind, whatever its parameters, is refused and
        nothing changes. */
    function AddFilter(f: QueryFilter<T>): (r: (BuilderState<T>, Outcome<Fault>))
      ensures r.1.Pass? <==> !HasFilterNamed(f.name)
      ensures r.1.Pass? ==> r.0 == BuilderState(query, filters + [f], paging)
      ensures r.1.Fail? ==> (r.0 == this
        && r.1.error == InvalidOperation("Filter " + f.name + " has already been added."))
    {
      if HasFilterNamed(f.name) then
        (this, Fail(InvalidOperation("Filter " + f.name + " has already been added.")))
      else
        (this.(filters := filters + [f]), Pass)
    }

    /** `AddPaging`: sets the paging slot when it is empty; otherwise refuses
        and the existing paging stays. */
    function AddPaging(pageNumber: int32, pageSize: int32): (r: (BuilderState<T>, Outcome<Fault>))
      ensures r.1.Pass? <==> paging.None?
      ensures r.1.Pass? ==> r.0 == BuilderState(query, filters, Some(WithPaging(pageNumber, pageSize)))
      ensures r.1.Fail? ==> (r.0 == this
        && r.1.error == InvalidOperation("Paging has already been set. You cannot set it again."))
    {
      if paging.Some? then
        (this, Fail(InvalidOperation("Paging has already been set. You cannot set it again.")))
      else
        (this.(paging := Some(WithPaging(pageNumber, pageSize))), Pass)
    }

    /** `Build`: the query becomes the old query followed by every filter and
        the paging; the rows are what that query yields. Filters and paging stay. */
    function Build(rows: seq<T>): (r: (BuilderState<T>, seq<T>))
      ensures r.0.filters == filters && r.0.paging == paging
      ensures r.0.query.steps == query.steps + FilterSteps(filters) + PagingSteps(paging)
      ensures r.1 == r.0.query.Run(rows)
    {
      var q := query.Then(FilterSteps(filters)).Then(PagingSteps(paging));
      (this.(query := q), q.Run(rows))
    }
  }

  /** A new builder over `query`. */
  function Fresh<T>(query: Query<T>): (b: BuilderState<T>)
    ensures b.filters == [] && b.paging.None? && b.DistinctKinds()
  {
    BuilderState(query, [], None)
  }

  /** `Build` yields the base query's rows, narrowed by each filter in insertion
      order, then paged if paging is set. */
  lemma BuildAppliesFiltersThenPaging<T>(b: BuilderState<T>, rows: seq<T>)
    ensures b.Build(rows).1 == Paged(b.paging, ApplyAll(b.filters, b.query.Run(rows)))
  {
    var base := b.query.Run(rows);
    var q1 := b.query.Then(FilterSteps(b.filters));
    RunThen(b.query, FilterSteps(b.filters), rows);
    RunFilterSteps(b.filters, base);
    RunThen(q1, PagingSteps(b.paging), rows);
    match b.paging
    case None =>
    case Some(pg) =>
      assert Query(PagingSteps<T>(b.paging)).steps[..0] == [];
  }

  /** With no filters and no paging, `Build` yields exactly the base query's rows. */
  lemma BuildWithoutFiltersOrPaging<T>(b: BuilderState<T>, rows: seq<T>)
    requires b.filters == [] && b.paging.None?
    ensures b.Build(rows).1 == b.query.Run(rows)
    ensures b.Build(rows).0 == b
  {
    BuildAppliesFiltersThenPaging(b, rows);
    assert b.Build(rows).0.query.steps == b.query.steps;
  }

  /** `Build` writes the composed query back, so building again reapplies every
      filter and the paging to the rows the first build yielded. */
  lemma BuildTwice<T>(b: BuilderState<T>, rows: seq<T>)
    ensures var (b1, r1) := b.Build(rows);
            b1.Build(rows).1 == Paged(b.paging, ApplyAll(b.filters, r1))
  {
    var (b1, r1) := b.Build(rows);
    BuildAppliesFiltersThenPaging(b1, rows);
  }

  /** Once a kind is present it can never be added again; the list keeps its
      kinds distinct. */
  lemma AddFilterKeepsKindsDistinct<T>(b: BuilderState<T>, f: QueryFilter<T>)
    requires b.DistinctKinds()
    ensures b.AddFilter(f).0.DistinctKinds()
    ensures b.AddFilter(f).0.HasFilterNamed(f.name)
    ensures b.AddFilter(f).0.AddFilter(f).1.Fail?
  {
    var b1 := b.AddFilter(f).0;
    if !b.HasFilterNamed(f.name) {
      assert b1.filters[|b.filters|].name == f.name;
    } else {
      var i :| 0 <= i < |b.filters| && b.filters[i].name == f.name;
    }
  }

  /** Paging is set at most once: after a successful `AddPaging` every further one fails. */
  lemma PagingAtMostOnce<T>(b: BuilderState<T>, pn: int32, ps: int32, pn2: int32, ps2: int32)
    requires b.AddPaging(pn, ps).1.Pass?
    ensures b.AddPaging(pn, ps).0.AddPaging(pn2, ps2).1.Fail?
    ensures b.AddPaging(pn, ps).0.AddPaging(pn2, ps2).0.paging == Some(WithPaging(pn, ps))
  {
  }

  /** The call pattern of a service's list method: add each filter of the
      stack in order, stopping at the first refusal (the filters already added
      stay), then set the paging if asked, then build. */
  function AddFilters<T>(b: BuilderState<T>, stack: seq<QueryFilter<T>>): (r: (BuilderState<T>, Outcome<Fault>))
    ensures r.0.query == b.query && r.0.paging == b.paging
    decreases |stack|
  {
    if stack == [] then (b, Pass)
    else
      var (b1, o) := b.AddFilter(stack[0]);
      if o.Fail? then (b1, o) else AddFilters(b1, stack[1..])
  }

  function Request<T>(b: BuilderState<T>, stack: seq<QueryFilter<T>>, page: Option<WithPaging>, rows: seq<T>)
    : (r: (BuilderState<T>, Result<seq<T>, Fault>))
  {
    var (b1, o) := AddFilters(b, stack);
    if o.Fail? then (b1, Failure(o.error))
    else
      var (b2, o2) := match page
        case None => (b1, Pass)
        case Some(pg) => b1.AddPaging(pg.pageNumber, pg.pageSize);
      if o2.Fail? then (b2, Failure(o2.error))
      else
        var (b3, result) := b2.Build(rows);
        (b3, Success(result))
  }

  /** Adding a stack one call at a time: once the first `k` filters are in,
      the next call yields the state after `k + 1`, and a refusal there is the
      outcome of the whole stack. */
  lemma {:induction false} AddFiltersStep<T>(b: BuilderState<T>, stack: seq<QueryFilter<T>>, k: nat)
    requires k < |stack| && AddFilters(b, stack[..k]).1.Pass?
    ensures var r := AddFilters(b, stack[..k]).0.AddFilter(stack[k]);
            AddFilters(b, stack[..k + 1]) == r && (r.1.Fail? ==> AddFilters(b, stack) == r)
    decreases k
  {
    var (b1, o) := b.AddFilter(stack[0]);
    if k == 0 {
      assert stack[..1] == [stack[0]] && [stack[0]][1..] == [];
    } else {
      assert stack[..k][0] == stack[0] && stack[..k][1..] == stack[1..][..k - 1];
      assert stack[..k + 1][0] == stack[0] && stack[..k + 1][1..] == stack[1..][..k];
      AddFiltersStep(b1, stack[1..], k - 1);
    }
  }

  ghost predicate NamesDistinct<T>(stack: seq<QueryFilter<T>>)
  {
    forall i, j | 0 <= i < j < |stack| :: stack[i].name != stack[j].name
  }

  /** On a builder without filters, adding a stack of distinct kinds succeeds
      and leaves exactly that stack. */
  lemma {:induction false} AddFiltersOnEmpty<T>(b: BuilderState<T>, stack: seq<QueryFilter<T>>)
    requires NamesDistinct(stack)
    requires forall i | 0 <= i < |stack| :: !b.HasFilterNamed(stack[i].name)
    ensures AddFilters(b, stack) == (b.(filters := b.filters + stack), Pass)
    decreases |stack|
  {
    if stack == [] {
      assert b.filters + stack == b.filters;
    } else {
      var b1 := b.AddFilter(stack[0]).0;
      assert b1 == b.(filters := b.filters + [stack[0]]);
      forall i | 0 <= i < |stack[1..]| ensures !b1.HasFilterNamed(stack[1..][i].name) {
        assert stack[1..][i] == stack[i + 1];
        forall j | 0 <= j < |b1.filters| ensures b1.filters[j].name != stack[i + 1].name {
          if j < |b.filters| {
            assert b1.filters[j] == b.filters[j];
          } else {
            assert b1.filters[j] == stack[0];
          }
        }
      }
      assert NamesDistinct(stack[1..]) by {
        forall i, j | 0 <= i < j < |stack[1..]| ensures stack[1..][i].name != stack[1..][j].name {
          assert stack[1..][i] == stack[i + 1] && stack[1..][j] == stack[j + 1];
        }
      }
      AddFiltersOnEmpty(b1, stack[1..]);
      assert b1.filters + stack[1..] == b.filters + stack;
    }
  }

  /** A request on a fresh builder succeeds and yields the table's rows through
      the base query, narrowed by the stack in order, then paged. */
  lemma RequestOnFreshBuilder<T>(query: Query<T>, stack: seq<QueryFilter<T>>, page: Option<WithPaging>, rows: seq<T>)
    requires NamesDistinct(stack)
    ensures var (b, r) := Request(Fresh(query), stack, page, rows);
            r == Success(Paged(page, ApplyAll(stack, query.Run(rows))))
            && b.filters == stack && b.paging == page
  {
    AddFiltersOnEmpty(Fresh(query), stack);
    var b1 := BuilderState(query, stack, None);
    assert AddFilters(Fresh(query), stack) == (b1, Pass) by {
      assert Fresh(query).filters + stack == stack;
    }
    var b2 := BuilderState(query, stack, page);
    assert Request(Fresh(query), stack, page, rows) == (b2.Build(rows).0, Success(b2.Build(rows).1));
    BuildAppliesFiltersThenPaging(b2, rows);
  }

  /** A request that sets paging, made after any successful request that set
      paging, fails: the one builder's paging slot is already taken. */
  lemma SecondPagedRequestFails<T>(b: BuilderState<T>, stack1: seq<QueryFilter<T>>, stack2: seq<QueryFilter<T>>,
                                   pg1: WithPaging, pg2: WithPaging, rows1: seq<T>, rows2: seq<T>)
    requires Request(b, stack1, Some(pg1), rows1).1.Success?
    ensures var b1 := Request(b, stack1, Some(pg1), rows1).0;
            Request(b1, stack2, Some(pg2), rows2).1.Failure?
  {
    var b1 := Request(b, stack1, Some(pg1), rows1).0;
    assert b1.paging.Some?;
    var (b2, o) := AddFilters(b1, stack2);
    assert b2.paging == b1.paging;
  }

  /** A request after a successful one fails whenever the second stack holds a
      kind of filter the first already added. */
  lemma RepeatedKindFails<T>(b: BuilderState<T>, stack1: seq<QueryFilter<T>>, stack2: seq<QueryFilter<T>>,
                             p1: Option<WithPaging>, p2: Option<WithPaging>, rows1: seq<T>, rows2: seq<T>, k: nat)
    requires Request(b, stack1, p1, rows1).1.Success?
    requires k < |stack1| && exists j | 0 <= j < |stack2| :: stack2[j].name == stack1[k].name
    ensures var b1 := Request(b, stack1, p1, rows1).0;
            Request(b1, stack2, p2, rows2).1.Failure?
  {
    var b1 := Request(b, stack1, p1, rows1).0;
    AddFiltersRecordsStack(b, stack1, k);
    var j :| 0 <= j < |stack2| && stack2[j].name == stack1[k].name;
    AddFiltersFailsOnPresentKind(b1, stack2, j);
  }

  /** A successful `AddFilters` leaves every filter of the stack in the list. */
  lemma {:induction false} AddFiltersRecordsStack<T>(b: BuilderState<T>, stack: seq<QueryFilter<T>>, k: nat)
    requires AddFilters(b, stack).1.Pass? && k < |stack|
    ensures AddFilters(b, stack).0.HasFilterNamed(stack[k].name)
    decreases |stack|
  {
    var b1 := b.AddFilter(stack[0]).0;
    if k == 0 {
      assert b1.filters[|b1.filters| - 1] == stack[0];
      FiltersOnlyGrow(b1, stack[1..], stack[0].name);
    } else {
      assert stack[1..][k - 1] == stack[k];
      AddFiltersRecordsStack(b1, stack[1..], k - 1);
    }
  }

  lemma {:induction false} FiltersOnlyGrow<T>(b: BuilderState<T>, stack: seq<QueryFilter<T>>, name: string)
    requires b.HasFilterNamed(name)
    ensures AddFilters(b, stack).0.HasFilterNamed(name)
    decreases |stack|
  {
    if stack != [] {
      var b1 := b.AddFilter(stack[0]).0;
      var i :| 0 <= i < |b.filters| && b.filters[i].name == name;
      assert b1.filters[i] == b.filters[i];
      FiltersOnlyGrow(b1, stack[1..], name);
    }
  }

  /** `AddFilters` fails when any filter of the stack is of a kind already present. */
  lemma {:induction false} AddFiltersFailsOnPresentKind<T>(b: BuilderState<T>, stack: seq<QueryFilter<T>>, j: nat)
    requires j < |stack| && b.HasFilterNamed(stack[j].name)
    ensures AddFilters(b, stack).1.Fail?
    decreases |stack|
  {
    var (b1, o) := b.AddFilter(stack[0]);
    if o.Pass? {
      assert j > 0;
      var i :| 0 <= i < |b.filters| && b.filters[i].name == stack[j].name;
      assert b1.filters[i] == b.filters[i];
      assert stack[1..][j - 1] == stack[j];
      AddFiltersFailsOnPresentKind(b1, stack[1..], j - 1);
    }
  }

  /** The builder object: `_query`, `_queryFilters` and `_withPaging`. */
  class QueryBuilder<!T>
  {
    var query: Query<T>
    var filters: seq<QueryFilter<T>>
    var paging: Option<WithPaging>

    function State(): BuilderState<T>
      reads this
    {
      BuilderState(query, filters, paging)
    }

    constructor (query: Query<T>)
      ensures State() == Fresh(query)
    {
      this.query := query;
      this.filters := [];
      this.paging := None;
    }

    /** `new QueryBuilder<T>(query)`: a null query is refused with an argument error. */
    static method Create(query: Option<Query<T>>) returns (r: Result<QueryBuilder<T>, Fault>)
      ensures query.None? <==> r.Failure?
      ensures query.None? ==> r.error == ArgumentNull("query")
      ensures query.Some? ==> fresh(r.value) && r.value.State() == Fresh(query.value)
    {
      if query.None? {
        return Failure(ArgumentNull("query"));
      }
      var b := new QueryBuilder(query.value);
      return Success(b);
    }

    method AddFilter(f: QueryFilter<T>) returns (r: Outcome<Fault>)
      modifies this
      ensures (State(), r) == old(State()).AddFilter(f)
    {
      if State().HasFilterNamed(f.name) {
        return Fail(InvalidOperation("Filter " + f.name + " has already been added."));
      }
      filters := filters + [f];
      return Pass;
    }

    method AddPaging(pageNumber: int32, pageSize: int32) returns (r: Outcome<Fault>)
      modifies this
      ensures (State(), r) == old(State()).AddPaging(pageNumber, pageSize)
    {
      if paging.Some? {
        return Fail(InvalidOperation("Paging has already been set. You cannot set it again."));
      }
      paging := Some(WithPaging(pageNumber, pageSize));
      return Pass;
    }

    /** `Build`, run against the table's current rows. */
    method Build(rows: seq<T>) returns (result: seq<T>)
      modifies this
      ensures (State(), result) == old(State()).Build(rows)
    {
      for i := 0 to |filters|
        invariant filters == old(filters) && paging == old(paging)
        invariant query.steps == old(query.steps) + FilterSteps(filters[..i])
      {
        assert FilterSteps(filters[..i + 1]) == FilterSteps(filters[..i]) + [Filter(filters[i])];
        query := query.Then([Filter(filters[i])]);
      }
      assert filters[..|filters|] == filters;
      if paging.Some? {
        query := query.Then([Page(paging.value)]);
      }
      assert query.steps == old(query.steps) + FilterSteps(filters) + PagingSteps(paging);
      result := query.Run(rows);
    }
  }
}
