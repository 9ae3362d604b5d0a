/** `buildFindParameters` (index.js:79-172): the store filter for a request's global and per-column search. */
module FindBuilder {
  import opened Wrappers
  import opened JsStrings
  import opened JsNumbers
  import opened DataTables
  import opened Filters
  import opened Classifier

  /** The global search text, when the request passes the null check: params, columns and search present, value a string. */
  function SearchText(p: Option<Request>): Option<string>
  {
    if p.None? || p.value.columns.Missing? || p.value.search.None? then None
    else p.value.search.value.value
  }

  /**
   * The requests the builder answers rather than throws on: with a non-empty search text,
   * `columns` must be an array, since the classifier iterates over it.
   */
  predicate FindDefined(p: Option<Request>)
  {
    SearchText(p).Some? && SearchText(p).value != [] ==> p.value.columns.Array?
  }

  /** The condition of the global search: `Number(text)` for a numeric text, `new RegExp(text, 'i')` otherwise. */
  function GlobalMatch(text: string): (m: Match)
    ensures m.Exact? <==> IsNumericText(text)
    ensures m.Exact? ==> m.n == StringToNumber(text) && !m.n.NaN?
    ensures m.Regex? ==> m.pattern == text
  {
    if IsNumericText(text) then Exact(StringToNumber(text)) else Regex(text)
  }

  /** The text of a column filter with its delimiting first and last characters dropped. */
  function Inner(s: string): string
  {
    if |s| <= 2 then [] else s[1..|s| - 1]
  }

  /**
   * The condition of one column filter, built from the column's search value without its first
   * and last characters: a number when the column is typed "number" or that text is numeric
   * (NaN when a "number" column gets a non-numeric text), a regular expression otherwise.
   */
  function ColumnMatch(c: Column): (m: Match)
    ensures m.Exact? <==> ToLower(c.name) == "number" || IsNumericText(Inner(c.search))
    ensures m.Exact? ==> m.n == StringToNumber(Inner(c.search))
    ensures m.Regex? ==> m.pattern == Inner(c.search) && ToLower(c.name) != "number"
  {
    SliceDropsEnds(c.search);
    var v := Slice(c.search, 1, -1);
    if ToLower(c.name) == "number" || IsNumericText(v) then Exact(StringToNumber(v)) else Regex(v)
  }

  /** A column filter of one or two characters leaves an empty text, which `Number` reads as zero. */
  lemma ShortColumnFilterIsZero(c: Column)
    requires |c.search| <= 2
    ensures ColumnMatch(c) == Exact(Finite(0.0))
  {
    assert Trim([]) == [];
  }

  /** The `$or` array: one single-key clause per searchable field, in order, all with the same condition. */
  function OrClauses(fields: seq<string>, m: Match): (r: seq<Clause>)
    ensures |r| == |fields|
    ensures forall k :: 0 <= k < |fields| ==> r[k] == Clause(fields[k], m)
  {
    seq(|fields|, k requires 0 <= k < |fields| => Clause(fields[k], m))
  }

  /** The `$and` array: a clause for each column with a non-empty search value, in column order. */
  function ColumnClauses(cols: seq<Column>): (r: seq<Clause>)
    ensures |r| <= |cols|
    ensures r == [] <==> forall i :: 0 <= i < |cols| ==> cols[i].search == []
    ensures forall cl :: cl in r ==> exists c :: c in cols && c.search != [] && cl == Clause(c.data, ColumnMatch(c))
  {
    if cols == [] then []
    else
      var rest := ColumnClauses(cols[1..]);
      assert forall i :: 1 <= i < |cols| ==> cols[i] == cols[1..][i - 1];
      OwnClause(cols[0]) + rest
  }

  /** The clause a single column adds to `$and`: none when its search value is empty. */
  function OwnClause(c: Column): seq<Clause>
  {
    if c.search != [] then [Clause(c.data, ColumnMatch(c))] else []
  }

  /** `buildFindParameters(params)`. */
  function BuildFind(p: Option<Request>): (r: Option<Filter>)
    requires FindDefined(p)
    ensures r.None? <==>
      p.None? || p.value.columns.Missing? || p.value.search.None? || p.value.search.value.value.None?
    ensures r.Some? && p.value.search.value.value.value == [] ==> r.value == map[]
    ensures r.Some? && r.value != map[] ==> p.value.columns.Array?
  {
    match SearchText(p)
    case None => None
    case Some(text) =>
      if text == [] then Some(map[])
      else
        var cols := p.value.columns.cols;
        var m := GlobalMatch(text);
        var fields := SearchableFields(cols, text);
        if |fields| == 1 then Some(map[fields[0] := Condition(m)])
        else
          var ands := ColumnClauses(cols);
          var or := map[OrKey := Clauses(OrClauses(fields, m))];
          Some(if ands != [] then or[AndKey := Clauses(ands)] else or)
  }

  /** With exactly one column keeping its place, the filter is that single field tested against the search condition. */
  lemma FindSingleColumn(req: Request, text: string, i: nat)
    requires req.search == Some(Search(Some(text))) && text != []
    requires req.columns.Array? && i < |req.columns.cols|
    requires Keeps(req.columns.cols[i], IsNumericText(text))
    requires forall j :: 0 <= j < |req.columns.cols| && j != i ==> !Keeps(req.columns.cols[j], IsNumericText(text))
    ensures BuildFind(Some(req)) == Some(map[req.columns.cols[i].data := Condition(GlobalMatch(text))])
  {
    SingleKeptField(req.columns.cols, text, i);
  }

  /** The one column that keeps its place gives the only searchable field. */
  lemma SingleKeptField(cols: seq<Column>, text: string, i: nat)
    requires i < |cols| && Keeps(cols[i], IsNumericText(text))
    requires forall j :: 0 <= j < |cols| && j != i ==> !Keeps(cols[j], IsNumericText(text))
    ensures SearchableFields(cols, text) == [cols[i].data]
  {
    SingleSearchable(Classify(cols, IsNumericText(text)), i);
  }

  lemma {:induction false} SingleSearchable(cs: seq<Column>, i: nat)
    requires i < |cs| && cs[i].searchable
    requires forall j :: 0 <= j < |cs| && j != i ==> !cs[j].searchable
    ensures SearchableData(cs) == [cs[i].data]
  {
    if i == 0 {
      NoSearchableNoData(cs[1..]);
    } else {
      assert !cs[0].searchable;
      assert forall j :: 0 <= j < |cs| - 1 && j != i - 1 ==> !cs[1..][j].searchable by {
        assert forall j :: 0 <= j < |cs| - 1 ==> cs[1..][j] == cs[j + 1];
      }
      SingleSearchable(cs[1..], i - 1);
    }
  }

  /** No column keeping its place means no searchable field. */
  lemma NoKeptColumnNoFields(cols: seq<Column>, text: string)
    requires forall j :: 0 <= j < |cols| ==> !Keeps(cols[j], IsNumericText(text))
    ensures SearchableFields(cols, text) == []
  {
    NoSearchableNoData(Classify(cols, IsNumericText(text)));
  }

  lemma {:induction false} NoSearchableNoData(cs: seq<Column>)
    requires forall j :: 0 <= j < |cs| ==> !cs[j].searchable
    ensures SearchableData(cs) == []
  {
    if cs != [] {
      NoSearchableNoData(cs[1..]);
    }
  }

  /**
   * With exactly one searchable field, exactly one column keeps its place, and the filter is that
   * column's field tested against the search condition. With `FindSeveralFields`, this covers
   * every request with a non-empty search text.
   */
  lemma FindOneField(req: Request, text: string) returns (i: nat)
    requires req.search == Some(Search(Some(text))) && text != []
    requires req.columns.Array?
    requires |SearchableFields(req.columns.cols, text)| == 1
    ensures i < |req.columns.cols| && Keeps(req.columns.cols[i], IsNumericText(text))
    ensures forall j :: 0 <= j < |req.columns.cols| && j != i ==> !Keeps(req.columns.cols[j], IsNumericText(text))
    ensures BuildFind(Some(req)) == Some(map[req.columns.cols[i].data := Condition(GlobalMatch(text))])
  {
    var cols := req.columns.cols;
    var cs := Classify(cols, IsNumericText(text));
    i := OneSearchable(cs);
    FindSingleColumn(req, text, i);
  }

  /** A single collected field comes from the one searchable column. */
  lemma {:induction false} OneSearchable(cs: seq<Column>) returns (i: nat)
    requires |SearchableData(cs)| == 1
    ensures i < |cs| && cs[i].searchable
    ensures forall j :: 0 <= j < |cs| && j != i ==> !cs[j].searchable
  {
    if cs[0].searchable {
      NoDataNoSearchable(cs[1..]);
      assert forall j :: 1 <= j < |cs| ==> cs[j] == cs[1..][j - 1];
      i := 0;
    } else {
      var k := OneSearchable(cs[1..]);
      assert forall j :: 1 <= j < |cs| ==> cs[j] == cs[1..][j - 1];
      i := k + 1;
    }
  }

  /** Nothing collected means no column is searchable. */
  lemma {:induction false} NoDataNoSearchable(cs: seq<Column>)
    requires SearchableData(cs) == []
    ensures forall j :: 0 <= j < |cs| ==> !cs[j].searchable
  {
    if cs != [] {
      NoDataNoSearchable(cs[1..]);
      assert forall j :: 1 <= j < |cs| ==> cs[j] == cs[1..][j - 1];
    }
  }

  /**
   * With zero or several searchable fields, the filter holds an `$or` with one clause per field,
   * in order, each with the search condition; and an `$and` exactly when some column carries a
   * filter of its own, holding those columns' clauses; and no other key.
   */
  lemma FindSeveralFields(req: Request, text: string)
    requires req.search == Some(Search(Some(text))) && text != []
    requires req.columns.Array?
    requires |SearchableFields(req.columns.cols, text)| != 1
    ensures BuildFind(Some(req)).Some?
    ensures var cols := req.columns.cols;
      var fields := SearchableFields(cols, text);
      var f := BuildFind(Some(req)).value;
      && f.Keys <= {OrKey, AndKey}
      && OrKey in f && f[OrKey].Clauses? && |f[OrKey].cs| == |fields|
      && (forall k :: 0 <= k < |fields| ==> f[OrKey].cs[k] == Clause(fields[k], GlobalMatch(text)))
      && (AndKey in f <==> exists i :: 0 <= i < |cols| && cols[i].search != [])
      && (AndKey in f ==> f[AndKey] == Clauses(ColumnClauses(cols)))
  {
    assert OrKey != AndKey by { assert |OrKey| != |AndKey|; }
  }

  /**
   * With no column keeping its place, the filter still carries an `$or`, and it is empty; the
   * per-column clauses, if any, sit beside it under `$and`.
   */
  lemma FindNoKeptColumn(req: Request, text: string)
    requires req.search == Some(Search(Some(text))) && text != []
    requires req.columns.Array?
    requires forall j :: 0 <= j < |req.columns.cols| ==> !Keeps(req.columns.cols[j], IsNumericText(text))
    ensures BuildFind(Some(req)).Some? && OrKey in BuildFind(Some(req)).value
    ensures BuildFind(Some(req)).value[OrKey] == Clauses([])
  {
    NoKeptColumnNoFields(req.columns.cols, text);
    FindSeveralFields(req, text);
  }

  /** The `$and` clauses over a concatenation are those of each part in turn: they follow column order. */
  lemma {:induction false} ColumnClausesAppend(a: seq<Column>, b: seq<Column>)
    ensures ColumnClauses(a + b) == ColumnClauses(a) + ColumnClauses(b)
  {
    if a != [] {
      assert (a + b)[0] == a[0];
      assert (a + b)[1..] == a[1..] + b;
      assert ColumnClauses(a + b) == OwnClause(a[0]) + ColumnClauses(a[1..] + b);
      ColumnClausesAppend(a[1..], b);
    } else {
      assert a + b == b;
    }
  }

  /** The `$and` clauses do not depend on the `searchable` flags. */
  lemma {:induction false} ColumnClausesIgnoreSearchable(a: seq<Column>, b: seq<Column>)
    requires |a| == |b|
    requires forall i :: 0 <= i < |a| ==> a[i] == b[i].(searchable := a[i].searchable)
    ensures ColumnClauses(a) == ColumnClauses(b)
  {
    if a != [] {
      assert ColumnMatch(a[0]) == ColumnMatch(b[0]);
      ColumnClausesIgnoreSearchable(a[1..], b[1..]);
    }
  }

  /**
   * The classifier rewrites the request's columns in place; building the filter again from the
   * rewritten request gives the same filter.
   */
  lemma FindReentrant(req: Request, text: string)
    requires req.search == Some(Search(Some(text)))
    requires req.columns.Array?
    ensures var again := req.(columns := Array(Classify(req.columns.cols, IsNumericText(text))));
      BuildFind(Some(again)) == BuildFind(Some(req))
  {
    var cols := req.columns.cols;
    var n := IsNumericText(text);
    var cs := Classify(cols, n);
    ClassifyIdempotent(cols, n);
    assert SearchableFields(cs, text) == SearchableFields(cols, text);
    ColumnClausesIgnoreSearchable(cs, cols);
  }
}
