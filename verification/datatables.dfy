/** The DataTables server-side request, as the query builder reads it. */
module DataTables {
  import opened Wrappers
  import opened JsValues

  /**
   * One entry of `columns`: the store field it shows (`data`), its type hint (`name`, compared
   * case-insensitively with "number" and "string"), whether it takes part in the global search
   * (a boolean: a missing flag makes the source throw on a non-empty search text),
   * its `orderable` flag as sent (only the string "false" switches ordering off) and its own
   * `search.value` (a missing value reads as the empty string, which is just as falsy).
   */
  datatype Column = Column(data: string, name: string, searchable: bool, orderable: Value, search: string)

  /** `columns`: absent (or any falsy value), some truthy value that is not an array, or an array. */
  datatype Columns = Missing | NotArray | Array(cols: seq<Column>)

  /**
   * The global `search` object; `value` is absent when it is falsy and not `''` (undefined, null,
   * false, 0, NaN). A truthy value that is not a string cannot be written here.
   */
  datatype Search = Search(value: Option<string>)

  /** One entry of `order`: the column position and the direction, as sent. */
  datatype OrderItem = OrderItem(column: Value, dir: Value)

  /**
   * The request: `draw`, `start` and `length` as sent, the global `search` (absent when falsy),
   * `order` (absent when it is not an array) and `columns`.
   */
  datatype Request = Request(
    draw: Value,
    start: Value,
    length: Value,
    search: Option<Search>,
    order: Option<seq<OrderItem>>,
    columns: Columns)

  /** The `data` of every column, in order. */
  function Fields(cols: seq<Column>): (r: seq<string>)
    ensures |r| == |cols|
    ensures forall i :: 0 <= i < |cols| ==> r[i] == cols[i].data
  {
    seq(|cols|, i requires 0 <= i < |cols| => cols[i].data)
  }
}
