/** `getSearchableFields` (index.js:14-43): which columns take part in the global search. */
module Classifier {
  import opened JsStrings
  import opened JsNumbers
  import opened DataTables
  import opened Sequences

  /** The type hint a column needs to stay searchable: "number" for a numeric search text, "string" for any other. */
  function WantedType(numeric: bool): string
  {
    if numeric then "number" else "string"
  }

  /** The column stays searchable: it was searchable and its lower-cased type hint is the wanted one. */
  predicate Keeps(c: Column, numeric: bool)
  {
    c.searchable && ToLower(c.name) == WantedType(numeric)
  }

  /** The four conditional assignments to `column.searchable`, applied in order to one column. */
  function Reclassify(c: Column, numeric: bool): Column
  {
    var t := ToLower(c.name);
    var s0 := c.searchable;
    var s1 := if numeric && t != "number" && s0 then false else s0;
    var s2 := if numeric && t == "number" && s1 then true else s1;
    var s3 := if !numeric && t == "string" && s2 then true else s2;
    var s4 := if !numeric && t != "string" && s3 then false else s3;
    c.(searchable := s4)
  }

  /**
   * The in-place pass over `params.columns`, returning the updated columns: only `searchable`
   * changes, a column is never switched on, and it stays on exactly when it keeps its place.
   */
  function Classify(cols: seq<Column>, numeric: bool): (r: seq<Column>)
    ensures |r| == |cols|
    ensures forall i :: 0 <= i < |cols| ==> r[i] == cols[i].(searchable := r[i].searchable)
    ensures forall i :: 0 <= i < |cols| ==> (r[i].searchable ==> cols[i].searchable)
    ensures forall i :: 0 <= i < |cols| ==> (r[i].searchable <==> Keeps(cols[i], numeric))
  {
    if cols == [] then []
    else [Reclassify(cols[0], numeric)] + Classify(cols[1..], numeric)
  }

  /** The `filter(searchable).map(data)` at the end: the fields of the searchable columns, in order. */
  function SearchableData(cs: seq<Column>): (r: seq<string>)
    ensures |r| <= |cs|
  {
    if cs == [] then []
    else (if cs[0].searchable then [cs[0].data] else []) + SearchableData(cs[1..])
  }

  /** A field is collected exactly when some searchable column has it as its `data`. */
  lemma {:induction false} SearchableDataMembers(cs: seq<Column>)
    ensures forall f :: f in SearchableData(cs) <==> exists i :: 0 <= i < |cs| && cs[i].searchable && cs[i].data == f
  {
    if cs != [] {
      SearchableDataMembers(cs[1..]);
      assert forall i :: 1 <= i < |cs| ==> cs[i] == cs[1..][i - 1];
      forall f | exists i :: 0 <= i < |cs| && cs[i].searchable && cs[i].data == f
        ensures f in SearchableData(cs)
      {
        var i :| 0 <= i < |cs| && cs[i].searchable && cs[i].data == f;
        if i > 0 {
          assert cs[1..][i - 1].searchable && cs[1..][i - 1].data == f;
        }
      }
    }
  }

  /**
   * `getSearchableFields(params, text)`: the fields of the columns that keep their place,
   * judged against whether `text` is numeric; never more fields than columns.
   */
  function SearchableFields(cols: seq<Column>, text: string): (r: seq<string>)
    ensures |r| <= |cols|
  {
    SearchableData(Classify(cols, IsNumericText(text)))
  }

  /** A field is searchable exactly when some column that keeps its place has it as its `data`. */
  lemma SearchableFieldsMembers(cols: seq<Column>, text: string)
    ensures forall f :: f in SearchableFields(cols, text) <==>
      exists i :: 0 <= i < |cols| && Keeps(cols[i], IsNumericText(text)) && cols[i].data == f
  {
    var cs := Classify(cols, IsNumericText(text));
    SearchableDataMembers(cs);
    assert forall i :: 0 <= i < |cols| ==> (cs[i].searchable <==> Keeps(cols[i], IsNumericText(text))) && cs[i].data == cols[i].data;
  }

  /** The classifier treats the columns one by one, so its result over a concatenation is the concatenation of results. */
  lemma {:induction false} SearchableFieldsAppend(a: seq<Column>, b: seq<Column>, text: string)
    ensures SearchableFields(a + b, text) == SearchableFields(a, text) + SearchableFields(b, text)
  {
    var n := IsNumericText(text);
    ClassifyAppend(a, b, n);
    SearchableDataAppend(Classify(a, n), Classify(b, n));
  }

  lemma {:induction false} ClassifyAppend(a: seq<Column>, b: seq<Column>, numeric: bool)
    ensures Classify(a + b, numeric) == Classify(a, numeric) + Classify(b, numeric)
  {
    if a != [] {
      assert (a + b)[1..] == a[1..] + b;
      ClassifyAppend(a[1..], b, numeric);
    } else {
      assert a + b == b;
    }
  }

  lemma {:induction false} SearchableDataAppend(a: seq<Column>, b: seq<Column>)
    ensures SearchableData(a + b) == SearchableData(a) + SearchableData(b)
  {
    if a != [] {
      assert (a + b)[1..] == a[1..] + b;
      SearchableDataAppend(a[1..], b);
    } else {
      assert a + b == b;
    }
  }

  /** A single column contributes its field exactly when it keeps its place. */
  lemma SearchableFieldsOne(c: Column, text: string)
    ensures SearchableFields([c], text) == if Keeps(c, IsNumericText(text)) then [c.data] else []
  {
    assert [c][1..] == [];
  }

  /** The searchable fields are the columns' fields with some left out, in the original column order. */
  lemma SearchableFieldsSubsequence(cols: seq<Column>, text: string)
    ensures IsSubsequence(SearchableFields(cols, text), Fields(cols))
  {
    var cs := Classify(cols, IsNumericText(text));
    SearchableDataSubsequence(cs);
    assert Fields(cs) == Fields(cols);
  }

  lemma {:induction false} SearchableDataSubsequence(cs: seq<Column>)
    ensures IsSubsequence(SearchableData(cs), Fields(cs))
  {
    if cs != [] {
      SearchableDataSubsequence(cs[1..]);
      assert Fields(cs)[1..] == Fields(cs[1..]);
      var r := SearchableData(cs);
      if cs[0].searchable {
        assert r[0] == Fields(cs)[0] && r[1..] == SearchableData(cs[1..]);
      } else {
        assert r == SearchableData(cs[1..]);
        SubsequenceOfTail(r, Fields(cs));
      }
    }
  }

  lemma SubsequenceOfTail<T>(a: seq<T>, b: seq<T>)
    requires b != [] && IsSubsequence(a, b[1..])
    ensures IsSubsequence(a, b)
  {
  }

  /** Classifying again against the same text changes nothing, so the mutated request yields the same fields. */
  lemma {:induction false} ClassifyIdempotent(cols: seq<Column>, numeric: bool)
    ensures Classify(Classify(cols, numeric), numeric) == Classify(cols, numeric)
  {
    var once := Classify(cols, numeric);
    var twice := Classify(once, numeric);
    forall i | 0 <= i < |cols|
      ensures twice[i] == once[i]
    {
      assert once[i].name == cols[i].name;
    }
  }
}
