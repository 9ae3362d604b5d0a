/** `buildSortParameters` (index.js:188-216): the single sort key of a request. */
module SortBuilder {
  import opened Wrappers
  import opened JsNumbers
  import opened JsValues
  import opened DataTables
  import opened ParamCheck

  /** `order` is a non-empty array, so `order[0]` is read. */
  predicate HasOrder(p: Option<Request>)
  {
    p.Some? && p.value.order.Some? && p.value.order.value != []
  }

  /** `Number(order[0].column)`. */
  function SortNumber(p: Option<Request>): Num
    requires HasOrder(p)
  {
    ToNumber(p.value.order.value[0].column)
  }

  /**
   * The builder goes on to read `columns[sortColumn]`: a non-empty `order`, a column number
   * that is not NaN, `columns` an array, and the number below the column count.
   */
  predicate ReachesColumn(p: Option<Request>)
  {
    && HasOrder(p)
    && !SortNumber(p).NaN?
    && p.value.columns.Array?
    && !AtLeast(SortNumber(p), |p.value.columns.cols|)
  }

  /** The requests the builder answers rather than throws on: a column it reaches is named by a non-negative integer. */
  predicate SortDefined(p: Option<Request>)
  {
    ReachesColumn(p) ==> AsIndex(SortNumber(p)).Some?
  }

  /** The column `order[0].column` designates. */
  function SortedColumn(p: Option<Request>): (c: Column)
    requires ReachesColumn(p) && SortDefined(p)
    ensures c in p.value.columns.cols
  {
    var i := AsIndex(SortNumber(p)).value;
    p.value.columns.cols[i]
  }

  /** `buildSortParameters(params)`. */
  function BuildSort(p: Option<Request>): (r: Option<string>)
    requires SortDefined(p)
    ensures r.None? <==>
      || !ReachesColumn(p)
      || SortedColumn(p).orderable == Text("false")
      || SortedColumn(p).data == []
    ensures r.Some? && p.value.order.value[0].dir == Text("asc") ==> r.value == SortedColumn(p).data
    ensures r.Some? && p.value.order.value[0].dir != Text("asc") ==> r.value == "-" + SortedColumn(p).data
  {
    if p.None? || p.value.order.None? || p.value.order.value == [] then None
    else
      var sortColumn := ToNumber(p.value.order.value[0].column);
      var sortOrder := p.value.order.value[0].dir;
      NumberRejectedOnlyWhenNaN(sortColumn);
      if IsNaNOrUndefined([Numeric(sortColumn)]) || !p.value.columns.Array?
        || AtLeast(sortColumn, |p.value.columns.cols|)
      then None
      else
        var column := p.value.columns.cols[AsIndex(sortColumn).value];
        if column.orderable == Text("false") then None
        else
          var sortField := column.data;
          if sortField == [] then None
          else if sortOrder == Text("asc") then Some(sortField)
          else Some("-" + sortField)
  }

  /** How the store reads a sort key: a leading `-` asks for descending order on the rest. */
  function ReadSortKey(key: string): (string, bool)
  {
    if key != [] && key[0] == '-' then (key[1..], true) else (key, false)
  }

  /**
   * The store reads back the designated column's field and the requested direction (descending
   * for every `dir` other than "asc"), provided the field name does not itself begin with `-`.
   */
  lemma SortKeyReadsBack(p: Option<Request>)
    requires SortDefined(p) && BuildSort(p).Some?
    requires SortedColumn(p).data[0] != '-'
    ensures ReadSortKey(BuildSort(p).value) == (SortedColumn(p).data, p.value.order.value[0].dir != Text("asc"))
  {
    var data := SortedColumn(p).data;
    assert ("-" + data)[1..] == data;
  }

  /**
   * A request whose `order[0].column` is the decimal text of a position within the columns
   * sorts on the column at that position, unless it is not orderable or has no field.
   */
  lemma SortByDecimalPosition(req: Request, i: nat)
    requires req.order.Some? && req.order.value != [] && req.order.value[0].column == Text(DecimalText(i))
    requires req.columns.Array? && i < |req.columns.cols|
    ensures SortDefined(Some(req))
    ensures var c := req.columns.cols[i];
      BuildSort(Some(req)) ==
        if c.orderable == Text("false") || c.data == [] then None
        else if req.order.value[0].dir == Text("asc") then Some(c.data)
        else Some("-" + c.data)
  {
    DecimalTextRoundTrip(i);
    assert SortNumber(Some(req)) == Finite(i as real);
  }
}
