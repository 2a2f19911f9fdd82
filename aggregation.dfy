/**
 * `compute_analytics_summary` of backend/app/services/analytics.py: the
 * snapshot over the records a filter selects. Averages are kept as a rating
 * total and a count (the rounding to two decimals is not modelled).
 */
module Aggregation {
  import opened Wrappers
  import opened Reviews
  import opened Sorting
  import opened Grouping

  /** `_CLASSIFICATION_KEYS`: the labels every snapshot reports, in this order. */
  const ClassificationKeys: seq<string> := ["product_issue", "delivery_issue", "sarcasm", "genuine", "other"]

  /** How many newest records a snapshot lists. */
  const LatestLimit: nat := 5

  /** One entry of the `classification_counts` dict. */
  datatype LabelCount = LabelCount(key: string, count: nat)

  /** The `classification_counts` dict, entries in insertion order. */
  type Counts = seq<LabelCount>

  /** The dict as first built: the five labels, each at zero. */
  function InitialCounts(): Counts {
    [LabelCount("product_issue", 0), LabelCount("delivery_issue", 0), LabelCount("sarcasm", 0),
     LabelCount("genuine", 0), LabelCount("other", 0)]
  }

  function Labels(cs: Counts): seq<string> {
    seq(|cs|, i requires 0 <= i < |cs| => cs[i].key)
  }

  /** The dict starts with the five known labels, in `_CLASSIFICATION_KEYS` order. */
  predicate StartsWithKnownLabels(cs: Counts) {
    |cs| >= 5 && forall i :: 0 <= i < 5 ==> cs[i].key == ClassificationKeys[i]
  }

  predicate DistinctLabels(cs: Counts) {
    forall i, j :: 0 <= i < j < |cs| ==> cs[i].key != cs[j].key
  }

  /** Position of the entry for `l`, or `|cs|` when there is none. */
  function LabelIndex(cs: Counts, l: string): (i: nat)
    ensures i <= |cs|
    ensures i < |cs| ==> cs[i].key == l
    ensures forall j :: 0 <= j < i ==> cs[j].key != l
  {
    if cs == [] then 0
    else if cs[0].key == l then 0
    else 1 + LabelIndex(cs[1..], l)
  }

  /** `LabelIndex` is the first position holding `l`. */
  lemma {:induction false} LabelIndexIs(cs: Counts, l: string, i: nat)
    requires i <= |cs| && (i < |cs| ==> cs[i].key == l)
    requires forall j :: 0 <= j < i ==> cs[j].key != l
    ensures LabelIndex(cs, l) == i
  {
    if cs != [] && cs[0].key != l {
      LabelIndexIs(cs[1..], l, i - 1);
    }
  }

  /** The count stored under `l`, zero when the dict has no such key. */
  function Lookup(cs: Counts, l: string): nat {
    var i := LabelIndex(cs, l);
    if i < |cs| then cs[i].count else 0
  }

  /** `counts[l] = v`: overwrite the entry for `l`, or append one. */
  function Assign(cs: Counts, l: string, v: nat): Counts {
    var i := LabelIndex(cs, l);
    if i < |cs| then cs[i := LabelCount(l, v)] else cs + [LabelCount(l, v)]
  }

  /** After `counts[l0] = v`, key `l0` holds `v` and every other key keeps its value. */
  lemma LookupAfterAssign(cs: Counts, l0: string, v: nat, l: string)
    ensures Lookup(Assign(cs, l0, v), l) == if l == l0 then v else Lookup(cs, l)
  {
    var i := LabelIndex(cs, l0);
    var cs' := Assign(cs, l0, v);
    if l == l0 {
      LabelIndexIs(cs', l, i);
    } else {
      var k := LabelIndex(cs, l);
      if k < |cs| {
        LabelIndexIs(cs', l, k);
      } else {
        LabelIndexIs(cs', l, |cs'|);
      }
    }
  }

  /** Sum of all values of the dict. */
  function SumLabelCounts(cs: Counts): int {
    if cs == [] then 0 else SumLabelCounts(cs[..|cs| - 1]) + cs[|cs| - 1].count
  }

  /** `item.get("_id") or "other"`: a null or empty label is reported under "other". */
  function LabelOf(k: Option<string>): string {
    if Truthy(k) then k.value else "other"
  }

  /** The dict after the loop over the grouped rows `gs`: each row ASSIGNS its count to its label. */
  function AssignAll(gs: seq<Group>): Counts {
    if gs == [] then InitialCounts()
    else
      var g := gs[|gs| - 1];
      Assign(AssignAll(gs[..|gs| - 1]), LabelOf(g.key), g.count)
  }

  /** One more row assigns its count to its label on top of the dict built so far. */
  lemma AssignAllSnoc(gs: seq<Group>, g: Group)
    ensures AssignAll(gs + [g]) == Assign(AssignAll(gs), LabelOf(g.key), g.count)
  {
    assert (gs + [g])[..|gs|] == gs;
  }

  /** The dict after one more row of a list: that row assigned on top of the dict before it. */
  lemma AssignAllPrefix(gs: seq<Group>, i: nat)
    requires i < |gs|
    ensures AssignAll(gs[..i + 1]) == Assign(AssignAll(gs[..i]), LabelOf(gs[i].key), gs[i].count)
  {
    assert gs[..i + 1][..i] == gs[..i];
  }

  /** The count of the last row whose label is `l`, or zero when no row has it. */
  function LastAssigned(gs: seq<Group>, l: string): nat {
    if gs == [] then 0
    else if LabelOf(gs[|gs| - 1].key) == l then gs[|gs| - 1].count
    else LastAssigned(gs[..|gs| - 1], l)
  }

  /** The dict has an entry for `l` exactly when `l` is one of its keys. */
  lemma LabelIndexFound(cs: Counts, l: string)
    ensures LabelIndex(cs, l) < |cs| <==> l in Labels(cs)
  {
    var i := LabelIndex(cs, l);
    if i < |cs| {
      assert Labels(cs)[i] == l;
    }
    if l in Labels(cs) {
      var p :| 0 <= p < |cs| && Labels(cs)[p] == l;
      assert i <= p;
    }
  }

  /** `counts[l] = v` keeps the keys and their order, appending `l` when it is new. */
  lemma LabelsAfterAssign(cs: Counts, l: string, v: nat)
    ensures Labels(Assign(cs, l, v)) == if l in Labels(cs) then Labels(cs) else Labels(cs) + [l]
    ensures DistinctLabels(cs) ==> DistinctLabels(Assign(cs, l, v))
  {
    var i := LabelIndex(cs, l);
    var cs' := Assign(cs, l, v);
    LabelIndexFound(cs, l);
    if l in Labels(cs) {
      assert forall k :: 0 <= k < |cs| ==> Labels(cs')[k] == Labels(cs)[k];
    } else {
      assert |Labels(cs')| == |cs| + 1 && Labels(cs')[|cs|] == l;
      assert forall k :: 0 <= k < |cs| ==> Labels(cs')[k] == Labels(cs)[k];
      assert Labels(cs') == Labels(cs) + [l];
    }
  }

  /** The dict always starts with the five known labels and never holds a key twice. */
  lemma {:induction false} AssignAllShape(gs: seq<Group>)
    ensures StartsWithKnownLabels(AssignAll(gs))
    ensures DistinctLabels(AssignAll(gs))
  {
    if gs != [] {
      var front := gs[..|gs| - 1];
      var g := gs[|gs| - 1];
      var prev := AssignAll(front);
      var cs := AssignAll(gs);
      AssignAllShape(front);
      LabelsAfterAssign(prev, LabelOf(g.key), g.count);
      assert |cs| >= |prev|;
      forall i | 0 <= i < 5 ensures cs[i].key == ClassificationKeys[i] {
        assert cs[i].key == Labels(cs)[i];
        assert Labels(cs)[i] == Labels(prev)[i];
        assert prev[i].key == Labels(prev)[i];
      }
    }
  }

  /** For every key, the dict holds the count of the last row reported under it, or zero. */
  lemma {:induction false} AssignAllLookup(gs: seq<Group>, l: string)
    ensures Lookup(AssignAll(gs), l) == LastAssigned(gs, l)
  {
    if gs == [] {
      var init := InitialCounts();
      if LabelIndex(init, l) < 5 {
        assert init[LabelIndex(init, l)].count == 0;
      }
    } else {
      var front := gs[..|gs| - 1];
      var g := gs[|gs| - 1];
      AssignAllLookup(front, l);
      LookupAfterAssign(AssignAll(front), LabelOf(g.key), g.count, l);
    }
  }

  /** Some row is reported under label `l`. */
  predicate Reported(gs: seq<Group>, l: string) {
    exists g :: g in gs && LabelOf(g.key) == l
  }

  /** A row is reported under `l` when the last one is or an earlier one is. */
  lemma ReportedLast(gs: seq<Group>, l: string)
    requires gs != []
    ensures Reported(gs, l) <==> Reported(gs[..|gs| - 1], l) || LabelOf(gs[|gs| - 1].key) == l
  {
    var front := gs[..|gs| - 1];
    if Reported(gs, l) {
      var h :| h in gs && LabelOf(h.key) == l;
      var j :| 0 <= j < |gs| && gs[j] == h;
      if j < |gs| - 1 {
        assert front[j] == h;
      }
    }
    if Reported(front, l) {
      var h :| h in front && LabelOf(h.key) == l;
      var j :| 0 <= j < |front| && front[j] == h;
      assert gs[j] == h;
    }
    assert gs[|gs| - 1] in gs;
  }

  /** The dict's keys are the five labels plus the labels the rows are reported under. */
  lemma {:induction false} AssignAllLabels(gs: seq<Group>, l: string)
    ensures l in Labels(AssignAll(gs)) <==> l in ClassificationKeys || Reported(gs, l)
  {
    if gs == [] {
      assert Labels(InitialCounts()) == ClassificationKeys;
    } else {
      var g := gs[|gs| - 1];
      AssignAllLabels(gs[..|gs| - 1], l);
      ReportedLast(gs, l);
      LabelsAfterAssign(AssignAll(gs[..|gs| - 1]), LabelOf(g.key), g.count);
    }
  }

  /** With exactly one row reported under `l`, that row's count is what the dict holds for `l`. */
  lemma {:induction false} LastAssignedUnique(gs: seq<Group>, l: string, j: nat)
    requires j < |gs| && LabelOf(gs[j].key) == l
    requires forall i :: 0 <= i < |gs| && i != j ==> LabelOf(gs[i].key) != l
    ensures LastAssigned(gs, l) == gs[j].count
  {
    if j < |gs| - 1 {
      LastAssignedUnique(gs[..|gs| - 1], l, j);
    }
  }

  /** With no row reported under `l`, the dict holds zero for `l`. */
  lemma {:induction false} LastAssignedAbsent(gs: seq<Group>, l: string)
    requires forall i :: 0 <= i < |gs| ==> LabelOf(gs[i].key) != l
    ensures LastAssigned(gs, l) == 0
  {
    if gs != [] {
      LastAssignedAbsent(gs[..|gs| - 1], l);
    }
  }

  /** When every matching record carries a non-empty label, each dict value is exactly the
      number of records with that label, whatever order the store returns the rows in. */
  lemma ExactCountsWithoutFalsyLabels(gs: seq<Group>, recs: seq<Record>, l: string)
    requires IsGrouping(gs, recs, Classification)
    requires forall r :: r in recs ==> Truthy(r.classification)
    ensures Lookup(AssignAll(gs), l) == CountKey(recs, Classification, Some(l))
  {
    AssignAllLookup(gs, l);
    forall i | 0 <= i < |gs| ensures Truthy(gs[i].key) {
      assert gs[i] in gs;
      CountedKeyOccurs(recs, Classification, gs[i].key);
    }
    if j :| 0 <= j < |gs| && LabelOf(gs[j].key) == l {
      forall i | 0 <= i < |gs| && i != j ensures LabelOf(gs[i].key) != l {
        if i < j {
          assert gs[i].key != gs[j].key;
        } else {
          assert gs[j].key != gs[i].key;
        }
      }
      LastAssignedUnique(gs, l, j);
      assert gs[j] in gs;
    } else {
      LastAssignedAbsent(gs, l);
      if CountKey(recs, Classification, Some(l)) > 0 {
        CountedKeyOccurs(recs, Classification, Some(l));
      }
    }
  }

  /** A dict whose values are all zero totals zero. */
  lemma {:induction false} ZeroSum(cs: Counts)
    requires forall i :: 0 <= i < |cs| ==> cs[i].count == 0
    ensures SumLabelCounts(cs) == 0
  {
    if cs != [] {
      ZeroSum(cs[..|cs| - 1]);
    }
  }

  /** Overwriting an entry changes the dict's total by the difference of the values. */
  lemma {:induction false} SumAfterAssign(cs: Counts, l: string, v: nat)
    ensures SumLabelCounts(Assign(cs, l, v)) == SumLabelCounts(cs) - Lookup(cs, l) + v
  {
    var i := LabelIndex(cs, l);
    if i == |cs| {
      assert (cs + [LabelCount(l, v)])[..|cs|] == cs;
    } else {
      SumAfterUpdate(cs, i, LabelCount(l, v));
    }
  }

  lemma {:induction false} SumAfterUpdate(cs: Counts, i: nat, e: LabelCount)
    requires i < |cs|
    ensures SumLabelCounts(cs[i := e]) == SumLabelCounts(cs) - cs[i].count + e.count
  {
    var front := cs[..|cs| - 1];
    assert cs[i := e][..|cs| - 1] == if i == |cs| - 1 then front else front[i := e];
    if i < |cs| - 1 {
      SumAfterUpdate(front, i, e);
    }
  }

  /** When every matching record carries a non-empty label, the dict's values add up to
      the number of matching records. */
  lemma {:induction false} TotalWithoutFalsyLabels(gs: seq<Group>, recs: seq<Record>)
    requires IsGrouping(gs, recs, Classification)
    requires forall r :: r in recs ==> Truthy(r.classification)
    ensures SumLabelCounts(AssignAll(gs)) == |recs|
  {
    forall i | 0 <= i < |gs| ensures Truthy(gs[i].key) {
      assert gs[i] in gs;
      CountedKeyOccurs(recs, Classification, gs[i].key);
    }
    DistinctRowLabelsSum(gs);
    GroupingSum(gs, recs, Classification);
  }

  /** Rows reported under pairwise different labels each add their whole count to the total. */
  lemma {:induction false} DistinctRowLabelsSum(gs: seq<Group>)
    requires forall i, j :: 0 <= i < j < |gs| ==> LabelOf(gs[i].key) != LabelOf(gs[j].key)
    ensures SumLabelCounts(AssignAll(gs)) == SumCounts(gs)
  {
    if gs == [] {
      ZeroSum(InitialCounts());
    } else {
      var front := gs[..|gs| - 1];
      var g := gs[|gs| - 1];
      forall i, j | 0 <= i < j < |front| ensures LabelOf(front[i].key) != LabelOf(front[j].key) {
        assert front[i] == gs[i] && front[j] == gs[j];
      }
      DistinctRowLabelsSum(front);
      SumAfterAssign(AssignAll(front), LabelOf(g.key), g.count);
      AssignAllLookup(front, LabelOf(g.key));
      forall i | 0 <= i < |front| ensures LabelOf(front[i].key) != LabelOf(g.key) {
        assert front[i] == gs[i];
      }
      LastAssignedAbsent(front, LabelOf(g.key));
    }
  }

  /** The store's assignment quirk: a record with no label and a record labelled "other"
      form two rows that both write the "other" entry, so one of them is lost and the
      dict's total falls short of the number of records. */
  lemma AssignmentLosesCollidingRows(unlabelled: Record, labelledOther: Record)
    requires unlabelled.classification == None && labelledOther.classification == Some("other")
    ensures var recs := [unlabelled, labelledOther];
      var cs := AssignAll(GroupBy(recs, Classification));
      Lookup(cs, "other") == 1 && SumLabelCounts(cs) == 1 < |recs|
  {
    var g1 := Group(None, 1, unlabelled.rating);
    var g2 := Group(Some("other"), 1, labelledOther.rating);
    CollidingRows(unlabelled, labelledOther);
    CollidingAssignments(g1, g2);
  }

  /** A record with no label and one labelled "other" group into two rows, in that order. */
  lemma CollidingRows(unlabelled: Record, labelledOther: Record)
    requires unlabelled.classification == None && labelledOther.classification == Some("other")
    ensures GroupBy([unlabelled, labelledOther], Classification) ==
      [Group(None, 1, unlabelled.rating), Group(Some("other"), 1, labelledOther.rating)]
  {
    var recs := [unlabelled, labelledOther];
    assert recs[..1] == [unlabelled];
    assert [unlabelled][..0] == [];
    var g1 := Group(None, 1, unlabelled.rating);
    assert GroupBy([unlabelled], Classification) == [g1];
    assert IndexOfKey([g1], Some("other")) == 1;
  }

  /** An unlabelled row of one and an "other" row of one both assign 1 to "other". */
  lemma CollidingAssignments(g1: Group, g2: Group)
    requires g1.key == None && g2.key == Some("other") && g1.count == 1 && g2.count == 1
    ensures var cs := AssignAll([g1, g2]);
      Lookup(cs, "other") == 1 && SumLabelCounts(cs) == 1
  {
    var init := InitialCounts();
    LabelIndexIs(init, "other", 4);
    var once := init[4 := LabelCount("other", 1)];
    AssignAllSnoc([], g1);
    assert [] + [g1] == [g1];
    assert AssignAll([g1]) == once;
    LabelIndexIs(once, "other", 4);
    AssignAllSnoc([g1], g2);
    assert [g1] + [g2] == [g1, g2];
    assert AssignAll([g1, g2]) == once;
    ZeroSum(once[..4]);
  }

  function Created(r: Record): int {
    r.createdAt
  }

  /** `find(query).sort("created_at", -1).limit(5)`: the newest matching records, newest first. */
  function Latest(recs: seq<Record>): seq<Record> {
    var s := SortDesc(recs, Created);
    s[..Min(LatestLimit, |s|)]
  }

  /** The latest list holds at most five of the given records, newest first. */
  lemma LatestShape(recs: seq<Record>)
    ensures var l := Latest(recs);
      && |l| == Min(LatestLimit, |recs|)
      && SortedDesc(l, Created)
      && multiset(l) <= multiset(recs)
  {
    var t := SortDesc(recs, Created);
    var n := Min(LatestLimit, |t|);
    assert Latest(recs) == t[..n];
    SortedPrefix(t, n, Created);
  }

  /** Every record the latest list leaves out is no newer than any record it lists. */
  lemma LatestAreNewest(recs: seq<Record>, y: Record, j: nat)
    requires y in multiset(recs) - multiset(Latest(recs))
    requires j < |Latest(recs)|
    ensures y.createdAt <= Latest(recs)[j].createdAt
  {
    var t := SortDesc(recs, Created);
    var n := Min(LatestLimit, |t|);
    assert Latest(recs) == t[..n];
    SortedTailBelow(t, n, Created, y, j);
  }

  /** The analytics snapshot. The average rating is `ratingSum / totalReviews`, reported
      as 0.0 when there are no matching records; each breakdown row carries its own
      rating total the same way. */
  datatype Snapshot = Snapshot(
    totalReviews: nat,
    ratingSum: int,
    classificationCounts: Counts,
    websiteBreakdown: seq<Group>,
    productBreakdown: seq<Group>,
    latestReviews: seq<Record>)

  /** The snapshot `compute_analytics_summary(filters)` returns over collection `coll`. */
  function Summary(coll: seq<Record>, filters: Option<Filters>): Snapshot {
    var recs := Matching(coll, BuildMatch(filters));
    Snapshot(
      |recs|,
      RatingSum(recs),
      AssignAll(GroupBy(recs, Classification)),
      Breakdown(recs, Website),
      Breakdown(recs, Product),
      Latest(recs))
  }

  /** The loop that fills `classification_counts` from the grouped rows, in the order the
      store returns them: each row's count is assigned to its label. */
  method FillClassificationCounts(classDocs: seq<Group>) returns (counts: Counts)
    ensures counts == AssignAll(classDocs)
  {
    counts := InitialCounts();
    for i := 0 to |classDocs|
      invariant counts == AssignAll(classDocs[..i])
    {
      var item := classDocs[i];
      counts := Assign(counts, LabelOf(item.key), item.count);
      AssignAllPrefix(classDocs, i);
    }
    assert classDocs[..|classDocs|] == classDocs;
  }

  /** The `async for` loop over the cursor that appends each document to `latest_reviews`:
      the records the cursor yields, in order (`_normalize` is not modelled). */
  method ReadCursor(cursor: seq<Record>) returns (latest: seq<Record>)
    ensures latest == cursor
  {
    latest := [];
    for i := 0 to |cursor|
      invariant latest == cursor[..i]
    {
      latest := latest + [cursor[i]];
    }
    assert cursor[..|cursor|] == cursor;
  }

  /** The snapshot as the source builds it: total, average, the counts dict, the two
      breakdowns, and the latest list appended record by record from the cursor. An
      unreachable store makes the computation fail. */
  method ComputeSummary(store: Store, filters: Option<Filters>) returns (r: Option<Snapshot>)
    ensures store.available ==> r == Some(Summary(store.reviews, filters))
    ensures !store.available ==> r.None?
  {
    if !store.available {
      return None;
    }
    var query := BuildMatch(filters);
    var recs := Matching(store.reviews, query);
    var counts := FillClassificationCounts(GroupBy(recs, Classification));
    var latest := ReadCursor(Latest(recs));
    r := Some(Snapshot(|recs|, RatingSum(recs), counts, Breakdown(recs, Website), Breakdown(recs, Product), latest));
  }

  /** A filter that selects nothing yields the empty snapshot: no reviews, average 0.0,
      the five labels at zero, empty breakdowns and an empty latest list. */
  lemma EmptySelectionSummary(coll: seq<Record>, filters: Option<Filters>)
    requires Matching(coll, BuildMatch(filters)) == []
    ensures var s := Summary(coll, filters);
      && s.totalReviews == 0 && s.ratingSum == 0
      && s.classificationCounts == InitialCounts()
      && (forall l :: l in ClassificationKeys ==> Lookup(s.classificationCounts, l) == 0)
      && s.websiteBreakdown == [] && s.productBreakdown == [] && s.latestReviews == []
  {
    var s := Summary(coll, filters);
    assert |s.websiteBreakdown| == 0 by {
      BreakdownFacts([], Website);
    }
    assert |s.productBreakdown| == 0 by {
      BreakdownFacts([], Product);
    }
    LatestShape([]);
  }

  /** Every filter yields the empty snapshot on an empty store. */
  lemma EmptyStoreSummary(filters: Option<Filters>)
    ensures Summary([], filters).totalReviews == 0 && Summary([], filters).classificationCounts == InitialCounts()
  {
    EmptySelectionSummary([], filters);
  }

  /** What a snapshot's totals promise: the total counts the selected records, every label
      of `_CLASSIFICATION_KEYS` is present, and each breakdown has one row per distinct
      value among the selected records, rows by count, largest first, counts summing to
      the total. */
  lemma SummaryTotals(coll: seq<Record>, filters: Option<Filters>)
    ensures var recs := Matching(coll, BuildMatch(filters));
      var s := Summary(coll, filters);
      && s.totalReviews == |recs|
      && StartsWithKnownLabels(s.classificationCounts)
      && KeySet(s.websiteBreakdown) == RecordKeys(recs, Website)
      && SortedDesc(s.websiteBreakdown, GroupCount)
      && SumCounts(s.websiteBreakdown) == s.totalReviews
      && KeySet(s.productBreakdown) == RecordKeys(recs, Product)
      && SortedDesc(s.productBreakdown, GroupCount)
      && SumCounts(s.productBreakdown) == s.totalReviews
  {
    var recs := Matching(coll, BuildMatch(filters));
    AssignAllShape(GroupBy(recs, Classification));
    BreakdownFacts(recs, Website);
    BreakdownFacts(recs, Product);
  }

  /** What a snapshot's latest list promises: at most five records, each one in the store
      and selected by the filter, newest first. */
  lemma SummaryLatest(coll: seq<Record>, filters: Option<Filters>)
    ensures var l := Summary(coll, filters).latestReviews;
      && |l| <= LatestLimit
      && (forall r :: r in l ==> r in coll && Matches(r, BuildMatch(filters)))
      && SortedDesc(l, Created)
  {
    var recs := Matching(coll, BuildMatch(filters));
    LatestShape(recs);
    var l := Latest(recs);
    forall r | r in l ensures r in recs {
      assert r in multiset(l);
    }
  }
}
