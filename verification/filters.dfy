/** The store filter the builder produces: an object from keys to conditions. */
module Filters {
  import opened JsNumbers

  /** A field condition: a case-insensitive regular expression built from a text (`new RegExp(text, 'i')`), or an exact number. */
  datatype Match = Regex(pattern: string) | Exact(n: Num)

  /** A single-key object `{[field]: m}`, an element of an `$or` or `$and` array. */
  datatype Clause = Clause(field: string, m: Match)

  /** The value under a filter key: a field condition, an array of clauses, or a value the caller supplied, kept opaque. */
  datatype Entry = Condition(m: Match) | Clauses(cs: seq<Clause>) | Supplied(json: string)

  /** A filter object; the empty map is `{}`, matching every document. */
  type Filter = map<string, Entry>

  const OrKey: string := "$or"
  const AndKey: string := "$and"
}
