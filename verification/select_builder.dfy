/** `buildSelectParameters` (index.js:218-231): the projection of a request. */
module SelectBuilder {
  import opened Wrappers
  import opened DataTables

  /** The `reduce` over the columns' fields: each field is set to 1 in the accumulated object. */
  function Project(cols: seq<Column>, acc: map<string, int>): (r: map<string, int>)
    ensures r.Keys == acc.Keys + (set c | c in cols :: c.data)
    ensures forall k :: k in r ==> r[k] == if k in acc && k !in (set c | c in cols :: c.data) then acc[k] else 1
  {
    if cols == [] then acc
    else
      assert forall c :: c in cols ==> c == cols[0] || c in cols[1..];
      Project(cols[1..], acc[cols[0].data := 1])
  }

  /** `buildSelectParameters(params)`: null without an array of columns, otherwise every column's field mapped to 1. */
  function BuildSelect(p: Option<Request>): (r: Option<map<string, int>>)
    ensures r.None? <==> p.None? || !p.value.columns.Array?
    ensures r.Some? ==> r.value.Keys == set c | c in p.value.columns.cols :: c.data
    ensures r.Some? ==> forall k :: k in r.value ==> r.value[k] == 1
  {
    if p.None? || !p.value.columns.Array? then None
    else Some(Project(p.value.columns.cols, map[]))
  }
}
