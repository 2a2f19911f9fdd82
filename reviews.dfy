/**
 * Review records, the reviews collection, and the filter-to-query translation
 * of backend/app/services/analytics.py (`_build_match`). The collection is a
 * sequence of records in insertion order; a Mongo equality query becomes the
 * predicate `Matches`.
 */
module Reviews {
  import opened Wrappers

  /** A stored review document. Fields that may be missing or null are `Option`s. */
  datatype Record = Record(
    id: string,
    rating: int,
    feedback: string,
    website: Option<string>,
    product: Option<string>,
    classification: Option<string>,
    aiSummary: Option<string>,
    aiSummaryUser: Option<string>,
    aiSummaryVendor: Option<string>,
    createdAt: int)

  /** The record store: the collection in insertion order, and whether it answers at all. */
  datatype Store = Store(reviews: seq<Record>, available: bool)

  /** A filter dict as callers pass it: a value may be null. */
  type Filters = map<string, Option<string>>

  /** An equality query: each field name must hold exactly the given string. */
  type Match = map<string, string>

  /** Python truthiness of a filter value: null and the empty string are falsy. */
  predicate Truthy(v: Option<string>) {
    v.Some? && v.value != ""
  }

  /** `_build_match`: keep the filter entries whose value is truthy; no filter gives the empty query. */
  function BuildMatch(filters: Option<Filters>): (m: Match)
    ensures filters.None? ==> m == map[]
    ensures filters.Some? ==> forall k :: k in m <==> k in filters.value && Truthy(filters.value[k])
    ensures forall k :: k in m ==> filters.Some? && k in filters.value && filters.value[k] == Some(m[k]) && m[k] != ""
  {
    if filters.None? then map[]
    else
      var f := filters.value;
      map k | k in f && Truthy(f[k]) :: f[k].value
  }

  /** The string value a query on field `key` compares against. The id, the rating and the
      creation time are not strings and never equal one; a key the record does not have
      matches nothing. Suggestion lists are not part of a record here. */
  function Field(r: Record, key: string): Option<string> {
    if key == "website" then r.website
    else if key == "product" then r.product
    else if key == "classification" then r.classification
    else if key == "feedback" then Some(r.feedback)
    else if key == "ai_summary" then r.aiSummary
    else if key == "ai_summary_user" then r.aiSummaryUser
    else if key == "ai_summary_vendor" then r.aiSummaryVendor
    else None
  }

  /** A record satisfies an equality query when every constrained field holds the required value. */
  predicate Matches(r: Record, m: Match) {
    forall k :: k in m ==> Field(r, k) == Some(m[k])
  }

  /** The records of `coll` that satisfy `m`, in collection order. */
  function Matching(coll: seq<Record>, m: Match): (rs: seq<Record>)
    ensures |rs| <= |coll|
    ensures forall r :: r in rs <==> r in coll && Matches(r, m)
    ensures multiset(rs) <= multiset(coll)
    ensures forall r :: multiset(rs)[r] == if Matches(r, m) then multiset(coll)[r] else 0
  {
    if coll == [] then []
    else
      var rest := Matching(coll[..|coll| - 1], m);
      assert coll == coll[..|coll| - 1] + [coll[|coll| - 1]];
      if Matches(coll[|coll| - 1], m) then rest + [coll[|coll| - 1]] else rest
  }

  /** A filter with no truthy value (including no filter at all) gives the empty query. */
  lemma FalsyFiltersGiveEmptyMatch(filters: Option<Filters>)
    requires filters.Some? ==> forall k :: k in filters.value ==> !Truthy(filters.value[k])
    ensures BuildMatch(filters) == map[]
  {
    assert BuildMatch(filters).Keys == {};
  }

  /** The empty query selects the whole collection, in order. */
  lemma {:induction false} EmptyMatchSelectsAll(coll: seq<Record>)
    ensures Matching(coll, map[]) == coll
  {
    if coll != [] {
      var last := coll[|coll| - 1];
      EmptyMatchSelectsAll(coll[..|coll| - 1]);
      assert Matches(last, map[]);
      assert coll == coll[..|coll| - 1] + [last];
    }
  }

  /** Matching distributes over appending one record to the collection. */
  lemma MatchingAppend(coll: seq<Record>, r: Record, m: Match)
    ensures Matching(coll + [r], m) == if Matches(r, m) then Matching(coll, m) + [r] else Matching(coll, m)
  {
    assert (coll + [r])[..|coll + [r]| - 1] == coll;
  }
}
