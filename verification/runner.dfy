/**
 * The pure part of `run` (index.js:246-324): converting the pagination parameters, building and
 * merging the query pieces, the parameter check, and the order of the three store calls. The
 * store itself is a parameter: one function answers counts and one answers page fetches.
 */
module Runner {
  import opened Wrappers
  import opened JsNumbers
  import opened JsValues
  import opened DataTables
  import opened Filters
  import opened ParamCheck
  import opened FindBuilder
  import opened SortBuilder
  import opened SelectBuilder

  /** The two parameter-validation errors: bad draw/start/length, or a query piece that is null. */
  datatype ParamError = PaginationInvalid | PiecesInvalid

  /** What the page fetch is asked for: filter, projection, sort key, skip, limit, and the draw to echo. */
  datatype Query = Query(filter: Filter, select: map<string, int>, sort: string, skip: Num, limit: Num, draw: Num)

  /** `{...find, ...extra}`: the caller's keys win, the derived keys fill in, and a null filter adds nothing. */
  function Merge(find: Option<Filter>, extra: Filter): (r: Filter)
    ensures r.Keys == extra.Keys + (if find.Some? then find.value.Keys else {})
    ensures forall k :: k in extra ==> r[k] == extra[k]
    ensures find.Some? ==> forall k :: k in find.value && k !in extra ==> r[k] == find.value[k]
  {
    find.GetOr(map[]) + extra
  }

  /** The requests `run` does not throw on while building its pieces. */
  predicate RunDefined(p: Request)
  {
    FindDefined(Some(p)) && SortDefined(Some(p))
  }

  /** Some of draw, start and length does not convert to a number. */
  predicate PaginationNaN(p: Request)
  {
    ToNumber(p.draw).NaN? || ToNumber(p.start).NaN? || ToNumber(p.length).NaN?
  }

  /**
   * The check as written: the filter it tests has already been merged into a fresh object, so only
   * the sort and the projection can be found null.
   */
  function Preflight(p: Request, extra: Filter): (r: Result<Query, ParamError>)
    requires RunDefined(p)
    ensures r.Failure? <==> PaginationNaN(p) || BuildSort(Some(p)).None? || BuildSelect(Some(p)).None?
    ensures r.Failure? ==> (r.error == PaginationInvalid <==> PaginationNaN(p))
    ensures r.Success? ==> r.value.filter == Merge(BuildFind(Some(p)), extra)
    ensures r.Success? ==> r.value.sort == BuildSort(Some(p)).value && r.value.select == BuildSelect(Some(p)).value
    ensures r.Success? ==> r.value.draw == ToNumber(p.draw) && r.value.skip == ToNumber(p.start) && r.value.limit == ToNumber(p.length)
  {
    var draw := ToNumber(p.draw);
    var start := ToNumber(p.start);
    var length := ToNumber(p.length);
    var findParameters := Merge(BuildFind(Some(p)), extra);
    var sortParameters := BuildSort(Some(p));
    var selectParameters := BuildSelect(Some(p));
    PaginationCheck(draw, start, length);
    if IsNaNOrUndefined([Numeric(draw), Numeric(start), Numeric(length)]) then Failure(PaginationInvalid)
    else if sortParameters.None? || selectParameters.None? then Failure(PiecesInvalid)
    else Success(Query(findParameters, selectParameters.value, sortParameters.value, start, length, draw))
  }

  lemma PaginationCheck(draw: Num, start: Num, length: Num)
    ensures IsNaNOrUndefined([Numeric(draw), Numeric(start), Numeric(length)]) <==> draw.NaN? || start.NaN? || length.NaN?
  {
    var args := [Numeric(draw), Numeric(start), Numeric(length)];
    assert args[0] == Numeric(draw) && args[1] == Numeric(start) && args[2] == Numeric(length);
  }

  /** As written, a request the filter builder rejects (null) passes the check and queries with the caller's keys alone. */
  lemma PreflightIgnoresNullFilter(p: Request, extra: Filter)
    requires RunDefined(p)
    requires BuildFind(Some(p)).None?
    requires !PaginationNaN(p) && BuildSort(Some(p)).Some? && BuildSelect(Some(p)).Some?
    ensures Preflight(p, extra).Success? && Preflight(p, extra).value.filter == extra
  {
  }

  /** A request without `search`: the filter builder returns null, yet the check lets the unfiltered query through. */
  lemma NullFilterExample()
    ensures var p := Request(Numeric(Finite(1.0)), Numeric(Finite(0.0)), Numeric(Finite(10.0)), None,
        Some([OrderItem(Numeric(Finite(0.0)), Text("asc"))]),
        Array([Column("age", "number", true, Text("true"), "")]));
      && RunDefined(p)
      && BuildFind(Some(p)).None?
      && Preflight(p, map[]) == Success(Query(map[], map["age" := 1], "age", Finite(0.0), Finite(10.0), Finite(1.0)))
  {
    var p := Request(Numeric(Finite(1.0)), Numeric(Finite(0.0)), Numeric(Finite(10.0)), None,
        Some([OrderItem(Numeric(Finite(0.0)), Text("asc"))]),
        Array([Column("age", "number", true, Text("true"), "")]));
    assert AsIndex(Finite(0.0)) == Some(0) by {
      assert 0.0.Floor == 0;
    }
    assert BuildSort(Some(p)) == Some("age");
    assert BuildSelect(Some(p)).value == map["age" := 1];
  }

  /** The check as evidently intended: a null filter fails it before the caller's keys are merged in. */
  function PreflightChecked(p: Request, extra: Filter): (r: Result<Query, ParamError>)
    requires RunDefined(p)
    ensures r.Failure? <==>
      PaginationNaN(p) || BuildFind(Some(p)).None? || BuildSort(Some(p)).None? || BuildSelect(Some(p)).None?
    ensures r.Failure? ==> (r.error == PaginationInvalid <==> PaginationNaN(p))
    ensures r.Success? ==> BuildFind(Some(p)).Some? && r.value.filter == Merge(BuildFind(Some(p)), extra)
    ensures r.Success? ==> r.value.sort == BuildSort(Some(p)).value && r.value.select == BuildSelect(Some(p)).value
    ensures r.Success? ==> r.value.draw == ToNumber(p.draw) && r.value.skip == ToNumber(p.start) && r.value.limit == ToNumber(p.length)
  {
    var draw := ToNumber(p.draw);
    var start := ToNumber(p.start);
    var length := ToNumber(p.length);
    var findParameters := BuildFind(Some(p));
    var sortParameters := BuildSort(Some(p));
    var selectParameters := BuildSelect(Some(p));
    PaginationCheck(draw, start, length);
    if IsNaNOrUndefined([Numeric(draw), Numeric(start), Numeric(length)]) then Failure(PaginationInvalid)
    else if findParameters.None? || sortParameters.None? || selectParameters.None? then Failure(PiecesInvalid)
    else Success(Query(Merge(findParameters, extra), selectParameters.value, sortParameters.value, start, length, draw))
  }

  /** The corrected check differs from the one as written only by refusing a null filter. */
  lemma PreflightCheckedAgrees(p: Request, extra: Filter)
    requires RunDefined(p)
    ensures BuildFind(Some(p)).Some? ==> PreflightChecked(p, extra) == Preflight(p, extra)
    ensures BuildFind(Some(p)).None? && !PaginationNaN(p) ==> PreflightChecked(p, extra) == Failure(PiecesInvalid)
  {
  }

  /** A store call, in the order `run` issues them. */
  datatype Call = CountAll | CountMatching(filter: Filter) | FetchPage(query: Query)

  /** The resolved answer: the echoed draw, both counts and the page of documents. */
  datatype Envelope<D> = Envelope(draw: Num, recordsTotal: nat, recordsFiltered: nat, data: seq<D>)

  /** The rejected answer, `{error}`: a parameter-validation error or the store's own error. */
  datatype Rejection<E> = Invalid(reason: ParamError) | StoreFailed(error: E)

  /** The error a call gets from the store, if it fails. */
  function CallError<D, E>(c: Call, count: Filter -> Result<nat, E>, fetch: Query -> Result<seq<D>, E>): Option<E>
  {
    match c
    case CountAll => if count(map[]).Failure? then Some(count(map[]).error) else None
    case CountMatching(f) => if count(f).Failure? then Some(count(f).error) else None
    case FetchPage(q) => if fetch(q).Failure? then Some(fetch(q).error) else None
  }

  /**
   * The three store calls for a checked query, each issued only after the previous one succeeded:
   * the calls issued are a prefix of count-all, count-matching, fetch; every call before the last
   * succeeded; the outcome is the last call's error, or the envelope of all three answers.
   */
  function Execute<D, E>(q: Query, count: Filter -> Result<nat, E>, fetch: Query -> Result<seq<D>, E>)
    : (r: (seq<Call>, Result<Envelope<D>, Rejection<E>>))
    ensures 1 <= |r.0| <= 3
    ensures r.0 == [CountAll, CountMatching(q.filter), FetchPage(q)][..|r.0|]
    ensures forall k :: 0 <= k < |r.0| - 1 ==> CallError(r.0[k], count, fetch).None?
    ensures r.1.Success? <==> |r.0| == 3 && CallError(r.0[2], count, fetch).None?
    ensures r.1.Failure? ==> r.1.error.StoreFailed? && CallError(r.0[|r.0| - 1], count, fetch) == Some(r.1.error.error)
    ensures r.1.Success? ==> count(map[]).Success? && count(q.filter).Success? && fetch(q).Success?
    ensures r.1.Success? ==> r.1.value == Envelope(q.draw, count(map[]).value, count(q.filter).value, fetch(q).value)
  {
    var total := count(map[]);
    if total.Failure? then ([CountAll], Failure(StoreFailed(total.error)))
    else
      var filtered := count(q.filter);
      if filtered.Failure? then ([CountAll, CountMatching(q.filter)], Failure(StoreFailed(filtered.error)))
      else
        var page := fetch(q);
        var calls := [CountAll, CountMatching(q.filter), FetchPage(q)];
        if page.Failure? then (calls, Failure(StoreFailed(page.error)))
        else (calls, Success(Envelope(q.draw, total.value, filtered.value, page.value)))
  }

  /**
   * `run(params, extra)` as written, against a store answering counts with `count` and fetches with
   * `fetch`: the store calls issued, and the outcome. A parameter error is reported before any
   * store call; a null derived filter is not one of them.
   */
  function Run<D, E>(p: Request, extra: Filter, count: Filter -> Result<nat, E>, fetch: Query -> Result<seq<D>, E>)
    : (r: (seq<Call>, Result<Envelope<D>, Rejection<E>>))
    requires RunDefined(p)
    ensures r.1.Failure? && r.1.error.Invalid? <==> Preflight(p, extra).Failure?
    ensures r.1.Failure? && r.1.error.Invalid? ==> r.0 == [] && r.1.error.reason == Preflight(p, extra).error
    ensures Preflight(p, extra).Success? ==> r == Execute(Preflight(p, extra).value, count, fetch)
  {
    match Preflight(p, extra)
    case Failure(e) => ([], Failure(Invalid(e)))
    case Success(q) => Execute(q, count, fetch)
  }

  /**
   * As written, a request the filter builder rejects still reaches the store: the first call counts
   * every document, and the second counts with the caller's keys alone.
   */
  lemma RunIgnoresNullFilter<D, E>(p: Request, extra: Filter, count: Filter -> Result<nat, E>, fetch: Query -> Result<seq<D>, E>)
    requires RunDefined(p)
    requires BuildFind(Some(p)).None?
    requires !PaginationNaN(p) && BuildSort(Some(p)).Some? && BuildSelect(Some(p)).Some?
    ensures var r := Run(p, extra, count, fetch);
      && r.0[0] == CountAll
      && (|r.0| >= 2 ==> r.0[1] == CountMatching(extra))
  {
    PreflightIgnoresNullFilter(p, extra);
  }

  /**
   * `run(params, extra)` with the corrected check: as `Run`, except that a null derived filter is a
   * parameter error and no store call is issued for it.
   */
  function RunChecked<D, E>(p: Request, extra: Filter, count: Filter -> Result<nat, E>, fetch: Query -> Result<seq<D>, E>)
    : (r: (seq<Call>, Result<Envelope<D>, Rejection<E>>))
    requires RunDefined(p)
    ensures r.1.Failure? && r.1.error.Invalid? <==> PreflightChecked(p, extra).Failure?
    ensures r.1.Failure? && r.1.error.Invalid? ==> r.0 == [] && r.1.error.reason == PreflightChecked(p, extra).error
    ensures BuildFind(Some(p)).None? ==> r.0 == [] && r.1.Failure?
    ensures PreflightChecked(p, extra).Success? ==> r == Execute(PreflightChecked(p, extra).value, count, fetch)
  {
    match PreflightChecked(p, extra)
    case Failure(e) => ([], Failure(Invalid(e)))
    case Success(q) => Execute(q, count, fetch)
  }
}
