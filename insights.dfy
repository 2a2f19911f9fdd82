/**
 * The insights service of backend/app/services/insights.py: a narrative and
 * three recommendations for a filter, cached per filter key and recomputed
 * only when the newest review in the store has changed.
 *
 * The clock (`generated_at`) is a parameter; the language-model call is an
 * oracle reply passed in (`OracleReply`); the newest review's timestamp is the
 * integer `createdAt` of the newest record rather than its ISO rendering.
 */
module Insights {
  import opened Wrappers
  import opened Reviews
  import opened Grouping
  import opened Aggregation

  /** `filters or {}`: no filter dict is the empty one. */
  function Normalize(filters: Option<Filters>): (f: Filters)
    ensures filters.None? ==> f == map[]
    ensures filters.Some? ==> f == filters.value
  {
    if filters.None? then map[] else filters.value
  }

  /** `str(filters.get(field, ""))`: a missing field renders as "", a null one as "None". */
  function FieldText(f: Filters, field: string): string {
    if field !in f then ""
    else if f[field].None? then "None"
    else f[field].value
  }

  /** `_filter_key`: the website, product and classification texts joined by "|". Every other
      filter field is ignored. */
  function FilterKey(f: Filters): (k: string)
    ensures |k| == |FieldText(f, "website")| + |FieldText(f, "product")| + |FieldText(f, "classification")| + 2
  {
    FieldText(f, "website") + "|" + FieldText(f, "product") + "|" + FieldText(f, "classification")
  }

  /** The text of a field holds no separator. */
  predicate NoBar(s: string) {
    forall i :: 0 <= i < |s| ==> s[i] != '|'
  }

  /** In two equal "|"-joined strings, a first part shorter than the other's ends where
      the other holds a "|". */
  lemma BarInside(a: string, b: string, c: string, d: string)
    requires a + "|" + b == c + "|" + d
    requires |a| < |c|
    ensures c[|a|] == '|'
  {
    assert (a + "|" + b)[|a|] == '|';
    assert (c + "|" + d)[|a|] == c[|a|];
  }

  /** Two strings joined by "|" come apart again when the first holds no "|". */
  lemma SplitAtBar(a: string, b: string, c: string, d: string)
    requires NoBar(a) && NoBar(c)
    requires a + "|" + b == c + "|" + d
    ensures a == c && b == d
  {
    if |a| < |c| {
      BarInside(a, b, c, d);
    } else if |c| < |a| {
      BarInside(c, d, a, b);
    } else {
      var x := a + "|" + b;
      assert a == x[..|a|] == c;
      assert b == x[|a| + 1..] == d;
    }
  }

  /** Filters whose three field texts hold no "|" share a cache key exactly when they agree on
      all three texts. */
  lemma FilterKeyInjective(f: Filters, g: Filters)
    requires NoBar(FieldText(f, "website")) && NoBar(FieldText(f, "product"))
    requires NoBar(FieldText(g, "website")) && NoBar(FieldText(g, "product"))
    ensures FilterKey(f) == FilterKey(g) <==>
      && FieldText(f, "website") == FieldText(g, "website")
      && FieldText(f, "product") == FieldText(g, "product")
      && FieldText(f, "classification") == FieldText(g, "classification")
  {
    if FilterKey(f) == FilterKey(g) {
      var fw, fp, fc := FieldText(f, "website"), FieldText(f, "product"), FieldText(f, "classification");
      var gw, gp, gc := FieldText(g, "website"), FieldText(g, "product"), FieldText(g, "classification");
      assert FilterKey(f) == fw + "|" + (fp + "|" + fc);
      assert FilterKey(g) == gw + "|" + (gp + "|" + gc);
      SplitAtBar(fw, fp + "|" + fc, gw, gp + "|" + gc);
      SplitAtBar(fp, fc, gp, gc);
    }
  }

  /** Values holding "|" can share a cache key although they select different records:
      website "a|b" with product "c", and website "a" with product "b|c". A record from
      website "a|b" with product "c" satisfies the first query and not the second. */
  lemma FilterKeyCollides(r: Record)
    requires r.website == Some("a|b") && r.product == Some("c")
    ensures var f: Filters := map["website" := Some("a|b"), "product" := Some("c")];
      var g: Filters := map["website" := Some("a"), "product" := Some("b|c")];
      FilterKey(f) == FilterKey(g) && Matches(r, BuildMatch(Some(f))) && !Matches(r, BuildMatch(Some(g)))
  {
    var f: Filters := map["website" := Some("a|b"), "product" := Some("c")];
    var g: Filters := map["website" := Some("a"), "product" := Some("b|c")];
    assert FieldText(f, "website") == "a|b" && FieldText(f, "product") == "c";
    assert FieldText(g, "website") == "a" && FieldText(g, "product") == "b|c";
    assert FieldText(f, "classification") == "" == FieldText(g, "classification");
    assert FilterKey(f) == "a|b" + "|" + "c" + "|" + "" == "a|b|c|";
    assert FilterKey(g) == "a" + "|" + "b|c" + "|" + "" == "a|b|c|";
    SiteProductQuery(r, "a|b", "c");
    SiteProductQuery(r, "a", "b|c");
  }

  /** A filter on a website and a product selects exactly the records from that website with
      that product. */
  lemma SiteProductQuery(r: Record, w: string, p: string)
    requires w != "" && p != ""
    ensures var f: Filters := map["website" := Some(w), "product" := Some(p)];
      Matches(r, BuildMatch(Some(f))) <==> r.website == Some(w) && r.product == Some(p)
  {
    var f: Filters := map["website" := Some(w), "product" := Some(p)];
    var m := BuildMatch(Some(f));
    assert m.Keys == {"website", "product"};
    assert m["website"] == w && m["product"] == p;
  }

  /** A filter on any field other than the three keyed ones shares the unfiltered cache entry,
      yet it selects only the records holding its value in that field, while no filter
      selects every record. */
  lemma OtherFieldsShareKey(k: string, v: string, r: Record)
    requires k != "website" && k != "product" && k != "classification" && v != ""
    ensures var f: Filters := map[k := Some(v)];
      && FilterKey(f) == FilterKey(map[])
      && (Matches(r, BuildMatch(Some(f))) <==> Field(r, k) == Some(v))
      && Matches(r, BuildMatch(Some(map[])))
  {
    var f: Filters := map[k := Some(v)];
    var m := BuildMatch(Some(f));
    assert m.Keys == {k} && m[k] == v;
    assert FieldText(f, "website") == "" && FieldText(f, "product") == "" && FieldText(f, "classification") == "";
    assert BuildMatch(Some(map[])) == map[];
  }

  /** `_latest_review_ts`: the creation time of the newest record of the whole store (filters
      play no part), or nothing for an empty store. */
  function LatestToken(coll: seq<Record>): (t: Option<int>)
    ensures t.None? <==> coll == []
    ensures t.Some? ==> exists r :: r in coll && r.createdAt == t.value
    ensures t.Some? ==> forall r :: r in coll ==> r.createdAt <= t.value
  {
    if coll == [] then None
    else
      var front := LatestToken(coll[..|coll| - 1]);
      var last := coll[|coll| - 1];
      assert coll == coll[..|coll| - 1] + [last];
      if front.None? || front.value < last.createdAt then Some(last.createdAt) else front
  }

  /** A record newer than everything stored changes the token, so every cache entry made before
      it is stale. */
  lemma NewerRecordChangesToken(coll: seq<Record>, r: Record)
    requires forall x :: x in coll ==> x.createdAt < r.createdAt
    ensures LatestToken(coll + [r]) == Some(r.createdAt)
    ensures LatestToken(coll + [r]) != LatestToken(coll)
  {
    assert (coll + [r])[..|coll|] == coll;
    var t := LatestToken(coll);
    if t.Some? {
      var x :| x in coll && x.createdAt == t.value;
    }
  }

  /** A record no newer than the newest one leaves the token as it was, so cache entries stay
      in use although the summary they hold no longer counts that record. */
  lemma OlderRecordKeepsToken(coll: seq<Record>, r: Record)
    requires exists x :: x in coll && r.createdAt <= x.createdAt
    ensures LatestToken(coll + [r]) == LatestToken(coll)
  {
    assert (coll + [r])[..|coll|] == coll;
    var x :| x in coll && r.createdAt <= x.createdAt;
    assert LatestToken(coll).Some?;
  }

  /** `max(cc.items(), key=count)`: the position of the first entry with the largest count. */
  function ArgMax(cs: Counts): (i: nat)
    requires cs != []
    ensures i < |cs|
    ensures forall j :: 0 <= j < |cs| ==> cs[j].count <= cs[i].count
    ensures forall j :: 0 <= j < i ==> cs[j].count < cs[i].count
  {
    if |cs| == 1 then 0
    else
      var j := 1 + ArgMax(cs[1..]);
      if cs[j].count > cs[0].count then j else 0
  }

  /** The top theme: the label with the largest count, the earliest on a tie; "other" when
      the dict is empty. */
  function TopTheme(cs: Counts): (t: string)
    ensures cs == [] ==> t == "other"
    ensures cs != [] ==> t in Labels(cs)
  {
    if cs == [] then "other"
    else
      var i := ArgMax(cs);
      assert Labels(cs)[i] == cs[i].key;
      cs[i].key
  }

  /** A snapshot's top theme is one of its labels and no label has a larger count; with no
      records selected every label is at zero and the first one, "product_issue", is reported. */
  lemma TopThemeOfSnapshot(coll: seq<Record>, filters: Option<Filters>)
    ensures var cs := Summary(coll, filters).classificationCounts;
      && TopTheme(cs) in Labels(cs)
      && forall j :: 0 <= j < |cs| ==> cs[j].count <= Lookup(cs, TopTheme(cs))
    ensures Matching(coll, BuildMatch(filters)) == [] ==> TopTheme(Summary(coll, filters).classificationCounts) == "product_issue"
  {
    var recs := Matching(coll, BuildMatch(filters));
    var cs := Summary(coll, filters).classificationCounts;
    assert cs == AssignAll(GroupBy(recs, Classification));
    AssignAllShape(GroupBy(recs, Classification));
    TopThemeIsLargest(cs);
    if recs == [] {
      EmptySelectionSummary(coll, filters);
      InitialTopTheme();
    }
  }

  /** In a non-empty dict without repeated keys, the top theme is a key whose count no
      entry exceeds, and every entry before it has a smaller count: ties go to the first. */
  lemma TopThemeIsLargest(cs: Counts)
    requires cs != [] && DistinctLabels(cs)
    ensures TopTheme(cs) in Labels(cs)
    ensures forall j :: 0 <= j < |cs| ==> cs[j].count <= Lookup(cs, TopTheme(cs))
    ensures forall j :: 0 <= j < LabelIndex(cs, TopTheme(cs)) ==> cs[j].count < Lookup(cs, TopTheme(cs))
  {
    var i := ArgMax(cs);
    LabelIndexIs(cs, cs[i].key, i);
  }

  /** With every label at zero the first one, "product_issue", is the top theme. */
  lemma InitialTopTheme()
    ensures TopTheme(InitialCounts()) == "product_issue"
  {
    assert ArgMax(InitialCounts()) == 0;
  }

  /** What the language model answered: no API key configured, a failed call or unparsable
      reply, or a JSON object's `insight` text and `actions` list. */
  datatype OracleReply = NoApiKey | OracleFailed | OracleJson(insight: string, actions: seq<string>)

  /** The insight text: the model's own, or the heuristic sentence built from the total, the
      average (rating total over count), the top theme and the truthy filters. */
  datatype Narrative =
    | ModelInsight(text: string)
    | HeuristicInsight(total: nat, ratingSum: int, topTheme: string, filtered: Match)

  /** The three fixed recommendations of the heuristic fallback. */
  const FallbackActions: seq<string> := [
    "Dig into the top theme and address root causes",
    "Highlight wins from high-rated segments",
    "Track changes after fixes and monitor rating trend"]

  /** `_ai_insights`: the model's insight and at most its first three actions when it gave a
      non-empty insight, else the heuristic sentence and the fixed actions. */
  function AiInsights(s: Snapshot, f: Filters, reply: OracleReply): (r: (Narrative, seq<string>))
    ensures |r.1| <= 3
    ensures r.0.ModelInsight? <==> reply.OracleJson? && reply.insight != ""
    ensures r.0.ModelInsight? ==> r.0.text == reply.insight && r.1 <= reply.actions
    ensures r.0.ModelInsight? ==> |r.1| == Min(3, |reply.actions|)
    ensures r.0.HeuristicInsight? ==>
      && r.1 == FallbackActions
      && r.0.total == s.totalReviews && r.0.ratingSum == s.ratingSum
      && r.0.topTheme == TopTheme(s.classificationCounts)
      && r.0.filtered == BuildMatch(Some(f))
  {
    if reply.OracleJson? && reply.insight != "" then
      (ModelInsight(reply.insight), reply.actions[..Min(3, |reply.actions|)])
    else
      (HeuristicInsight(s.totalReviews, s.ratingSum, TopTheme(s.classificationCounts), BuildMatch(Some(f))),
       FallbackActions)
  }

  /** The cached response. */
  datatype Payload = Payload(
    summary: Narrative,
    recommendations: seq<string>,
    generatedAt: int,
    sourceLastReviewAt: Option<int>,
    filters: Filters)

  /** The payload computed afresh for filter `f` at time `now`. */
  function FreshPayload(f: Filters, store: Store, reply: OracleReply, now: int): Payload {
    var ai := AiInsights(Summary(store.reviews, Some(f)), f, reply);
    Payload(ai.0, ai.1, now, LatestToken(store.reviews), f)
  }

  /** A cached payload is served when it was made while the store's newest record was the
      same as now. */
  predicate Hit(entries: map<string, Payload>, key: string, token: Option<int>) {
    key in entries && entries[key].sourceLastReviewAt == token
  }

  /** The unfiltered summary equals the summary for an empty filter dict. */
  lemma EmptyFiltersAsNone(coll: seq<Record>)
    ensures Summary(coll, Some(map[])) == Summary(coll, None)
  {
    assert BuildMatch(Some(map[])) == map[];
  }

  /** `_cache`: payloads by filter key. */
  class InsightCache {
    var entries: map<string, Payload>

    /** Every entry sits under the key of the filters it was computed for. */
    ghost predicate Valid()
      reads this
    {
      forall k :: k in entries ==> FilterKey(entries[k].filters) == k
    }

    constructor ()
      ensures Valid() && entries == map[]
    {
      entries := map[];
    }

    /** Store `p` under its filters' key. */
    method Put(key: string, p: Payload)
      requires Valid() && FilterKey(p.filters) == key
      modifies this
      ensures Valid() && entries == old(entries)[key := p]
    {
      entries := entries[key := p];
    }

    /** `generate_insights`: serve the cached payload for the filters' key when it was made
        against the same newest record, otherwise compute, cache and return a fresh one. An
        unreachable store makes the call fail and leaves the cache as it was. */
    method Generate(filters: Option<Filters>, store: Store, reply: OracleReply, now: int) returns (r: Option<Payload>)
      requires Valid()
      modifies this
      ensures Valid()
      ensures !store.available ==> r.None? && entries == old(entries)
      ensures store.available ==>
        var f := Normalize(filters);
        var key := FilterKey(f);
        var token := LatestToken(store.reviews);
        if Hit(old(entries), key, token) then r == Some(old(entries)[key]) && entries == old(entries)
        else r == Some(FreshPayload(f, store, reply, now)) && entries == old(entries)[key := r.value]
      ensures r.Some? ==>
        && r.value.sourceLastReviewAt == LatestToken(store.reviews)
        && FilterKey(r.value.filters) == FilterKey(Normalize(filters))
    {
      var f := Normalize(filters);
      var key := FilterKey(f);
      if !store.available {
        return None;
      }
      var token := LatestToken(store.reviews);
      if key in entries && entries[key].sourceLastReviewAt == token {
        return Some(entries[key]);
      }
      var summary := ComputeSummary(store, Some(f));
      var ai := AiInsights(summary.value, f, reply);
      var payload := Payload(ai.0, ai.1, now, token, f);
      Put(key, payload);
      r := Some(payload);
    }
  }

  /** Once a payload is computed and cached for a key, the same filters against an unchanged
      store are served that very payload, whatever the model or the clock say the second time. */
  lemma CachedPayloadIsServed(entries: map<string, Payload>, f: Filters, store: Store, reply: OracleReply, now: int)
    ensures var p := FreshPayload(f, store, reply, now);
      Hit(entries[FilterKey(f) := p], FilterKey(f), LatestToken(store.reviews))
  {
  }
}
