/**
 * The `$group` stages of backend/app/services/analytics.py: grouping the
 * matching records by one field, counting each group and totalling its
 * ratings. The store returns groups in an unspecified order; `GroupBy` lists
 * them in order of first occurrence, and `IsGrouping` states what any valid
 * answer, in any order, must satisfy.
 */
module Grouping {
  import opened Wrappers
  import opened Reviews
  import opened Sorting

  /** The fields the pipelines group by. */
  datatype Dimension = Website | Product | Classification

  /** The grouping value of a record: null when the field is missing. */
  function Key(r: Record, d: Dimension): Option<string> {
    match d
    case Website => r.website
    case Product => r.product
    case Classification => r.classification
  }

  /** One `$group` output row: the grouping value, how many records share it, and their rating total. */
  datatype Group = Group(key: Option<string>, count: nat, ratingSum: int)

  /** Number of records whose field `d` equals `k`. */
  function CountKey(recs: seq<Record>, d: Dimension, k: Option<string>): nat {
    if recs == [] then 0
    else CountKey(recs[..|recs| - 1], d, k) + (if Key(recs[|recs| - 1], d) == k then 1 else 0)
  }

  /** Total rating of the records whose field `d` equals `k`. */
  function RatingSumKey(recs: seq<Record>, d: Dimension, k: Option<string>): int {
    if recs == [] then 0
    else RatingSumKey(recs[..|recs| - 1], d, k) + (if Key(recs[|recs| - 1], d) == k then recs[|recs| - 1].rating else 0)
  }

  /** Total rating of all records. */
  function RatingSum(recs: seq<Record>): int {
    if recs == [] then 0 else RatingSum(recs[..|recs| - 1]) + recs[|recs| - 1].rating
  }

  /** The records whose field `d` is not `k`, in order. */
  function Without(recs: seq<Record>, d: Dimension, k: Option<string>): seq<Record> {
    if recs == [] then []
    else
      var rest := Without(recs[..|recs| - 1], d, k);
      if Key(recs[|recs| - 1], d) == k then rest else rest + [recs[|recs| - 1]]
  }

  function KeySet(gs: seq<Group>): set<Option<string>> {
    set g | g in gs :: g.key
  }

  /** The distinct values field `d` takes among `recs`. */
  function RecordKeys(recs: seq<Record>, d: Dimension): set<Option<string>> {
    set r | r in recs :: Key(r, d)
  }

  predicate DistinctKeys(gs: seq<Group>) {
    forall i, j :: 0 <= i < j < |gs| ==> gs[i].key != gs[j].key
  }

  /** Sum of the group counts. */
  function SumCounts(gs: seq<Group>): int {
    if gs == [] then 0 else SumCounts(gs[..|gs| - 1]) + gs[|gs| - 1].count
  }

  /** `gs` is a correct `$group` answer for `recs`, in whatever order: one row per
      value present, each row's count and rating total taken over exactly the records holding it. */
  predicate IsGrouping(gs: seq<Group>, recs: seq<Record>, d: Dimension) {
    && DistinctKeys(gs)
    && (forall g :: g in gs ==> g.count > 0 && g.count == CountKey(recs, d, g.key) && g.ratingSum == RatingSumKey(recs, d, g.key))
    && (forall r :: r in recs ==> Key(r, d) in KeySet(gs))
  }

  /** Position of the row for `k`, or `|gs|` when there is none: the same first-index search
      as `Aggregation.LabelIndex`, over `$group` rows with `Option<string>` keys. */
  function IndexOfKey(gs: seq<Group>, k: Option<string>): (i: nat)
    ensures i <= |gs|
    ensures i < |gs| ==> gs[i].key == k
    ensures forall j :: 0 <= j < i ==> gs[j].key != k
  {
    if gs == [] then 0
    else if gs[0].key == k then 0
    else 1 + IndexOfKey(gs[1..], k)
  }

  /** Account for one more record with value `k` and rating `rating`. */
  function Tally(gs: seq<Group>, k: Option<string>, rating: int): seq<Group> {
    var i := IndexOfKey(gs, k);
    if i < |gs| then gs[i := Group(k, gs[i].count + 1, gs[i].ratingSum + rating)]
    else gs + [Group(k, 1, rating)]
  }

  /** Group `recs` by field `d`, rows in order of first occurrence. */
  function GroupBy(recs: seq<Record>, d: Dimension): seq<Group> {
    if recs == [] then []
    else
      var last := recs[|recs| - 1];
      Tally(GroupBy(recs[..|recs| - 1], d), Key(last, d), last.rating)
  }

  /** `GroupBy` is a correct grouping. */
  lemma {:induction false} GroupByIsGrouping(recs: seq<Record>, d: Dimension)
    ensures IsGrouping(GroupBy(recs, d), recs, d)
  {
    if recs != [] {
      var prev := recs[..|recs| - 1];
      var last := recs[|recs| - 1];
      GroupByIsGrouping(prev, d);
      assert recs == prev + [last];
      TallyKeepsGrouping(GroupBy(prev, d), prev, last, d);
    }
  }

  /** Totalling over one more record adds that record's rating when it holds `k`. */
  lemma RatingSumSnoc(recs: seq<Record>, r: Record, d: Dimension, k: Option<string>)
    ensures RatingSumKey(recs + [r], d, k) == RatingSumKey(recs, d, k) + (if Key(r, d) == k then r.rating else 0)
  {
    assert (recs + [r])[..|recs|] == recs;
  }

  /** Tallying one more record into a correct grouping gives a correct grouping of the longer list. */
  lemma TallyKeepsGrouping(gs: seq<Group>, prev: seq<Record>, last: Record, d: Dimension)
    requires IsGrouping(gs, prev, d)
    ensures IsGrouping(Tally(gs, Key(last, d), last.rating), prev + [last], d)
  {
    var gs' := Tally(gs, Key(last, d), last.rating);
    var recs := prev + [last];
    TallyRowsExact(gs, prev, last, d);
    TallyCovers(gs, prev, last, d);
    forall g | g in gs' ensures g.count > 0 && g.count == CountKey(recs, d, g.key)
      && g.ratingSum == RatingSumKey(recs, d, g.key)
    {
      var j :| 0 <= j < |gs'| && gs'[j] == g;
    }
  }

  /** After the tally every row counts and totals exactly the records holding its value. */
  lemma TallyRowsExact(gs: seq<Group>, prev: seq<Record>, last: Record, d: Dimension)
    requires IsGrouping(gs, prev, d)
    ensures var gs' := Tally(gs, Key(last, d), last.rating);
      forall j :: 0 <= j < |gs'| ==>
        (gs'[j].count > 0 && gs'[j].count == CountKey(prev + [last], d, gs'[j].key)
         && gs'[j].ratingSum == RatingSumKey(prev + [last], d, gs'[j].key))
  {
    var k := Key(last, d);
    var gs' := Tally(gs, k, last.rating);
    forall j | 0 <= j < |gs'| ensures gs'[j].count > 0 && gs'[j].count == CountKey(prev + [last], d, gs'[j].key)
      && gs'[j].ratingSum == RatingSumKey(prev + [last], d, gs'[j].key)
    {
      CountSnoc(prev, last, d, gs'[j].key);
      RatingSumSnoc(prev, last, d, gs'[j].key);
      if j < |gs| {
        assert gs[j] in gs;
      } else {
        NewKeyTotals(gs, prev, d, k);
      }
    }
  }

  /** After the tally the rows have distinct keys and hold the value of every record. */
  lemma TallyCovers(gs: seq<Group>, prev: seq<Record>, last: Record, d: Dimension)
    requires IsGrouping(gs, prev, d)
    ensures var gs' := Tally(gs, Key(last, d), last.rating);
      && DistinctKeys(gs')
      && forall r :: r in prev + [last] ==> Key(r, d) in KeySet(gs')
  {
    var k := Key(last, d);
    var gs' := Tally(gs, k, last.rating);
    var i := IndexOfKey(gs, k);
    forall r | r in prev + [last] ensures Key(r, d) in KeySet(gs') {
      if r == last {
        assert gs'[i] in gs';
      } else {
        assert r in prev;
        var g :| g in gs && g.key == Key(r, d);
        var j :| 0 <= j < |gs| && gs[j] == g;
        assert gs'[j] in gs';
      }
    }
    assert DistinctKeys(gs') by {
      if i == |gs| {
        forall j | 0 <= j < |gs| ensures gs[j].key != k {
        }
      }
    }
  }

  /** A value no row of a correct grouping holds is held by no record: its count and total are 0. */
  lemma NewKeyTotals(gs: seq<Group>, prev: seq<Record>, d: Dimension, k: Option<string>)
    requires IsGrouping(gs, prev, d)
    requires IndexOfKey(gs, k) == |gs|
    ensures CountKey(prev, d, k) == 0 && RatingSumKey(prev, d, k) == 0
  {
    forall r | r in prev ensures Key(r, d) != k {
      var g :| g in gs && g.key == Key(r, d);
      var j :| 0 <= j < |gs| && gs[j] == g;
    }
    UnheldKeyCount(prev, d, k);
    RatingSumOfAbsentKey(prev, d, k);
  }

  /** A value no record holds is counted zero times. */
  lemma {:induction false} UnheldKeyCount(recs: seq<Record>, d: Dimension, k: Option<string>)
    requires forall r :: r in recs ==> Key(r, d) != k
    ensures CountKey(recs, d, k) == 0
  {
    if recs != [] {
      var prev := recs[..|recs| - 1];
      assert forall r :: r in prev ==> r in recs;
      UnheldKeyCount(prev, d, k);
      assert recs[|recs| - 1] in recs;
    }
  }

  /** Removing the records holding `k` removes exactly their count, and keeps the others. */
  lemma {:induction false} WithoutShape(recs: seq<Record>, d: Dimension, k: Option<string>)
    ensures |recs| == CountKey(recs, d, k) + |Without(recs, d, k)|
    ensures forall r :: r in Without(recs, d, k) <==> r in recs && Key(r, d) != k
  {
    if recs != [] {
      var prev := recs[..|recs| - 1];
      var last := recs[|recs| - 1];
      WithoutShape(prev, d, k);
      assert recs == prev + [last];
    }
  }

  /** Counting over one more record adds that record's share. */
  lemma CountSnoc(recs: seq<Record>, r: Record, d: Dimension, k: Option<string>)
    ensures CountKey(recs + [r], d, k) == CountKey(recs, d, k) + (if Key(r, d) == k then 1 else 0)
  {
    assert (recs + [r])[..|recs|] == recs;
  }

  /** One more record keeps the count of `k'` the same with or without the records holding `k`. */
  lemma WithoutStep(prev: seq<Record>, last: Record, d: Dimension, k: Option<string>, k': Option<string>)
    requires k' != k
    requires CountKey(Without(prev, d, k), d, k') == CountKey(prev, d, k')
    ensures CountKey(Without(prev + [last], d, k), d, k') == CountKey(prev + [last], d, k')
  {
    assert (prev + [last])[..|prev|] == prev;
    CountSnoc(Without(prev, d, k), last, d, k');
  }

  /** Removing the records holding `k` leaves the count of another value alone. */
  lemma {:induction false} WithoutKeepsCount(recs: seq<Record>, d: Dimension, k: Option<string>, k': Option<string>)
    requires k' != k
    ensures CountKey(Without(recs, d, k), d, k') == CountKey(recs, d, k')
  {
    if recs != [] {
      var prev := recs[..|recs| - 1];
      WithoutKeepsCount(prev, d, k, k');
      WithoutStep(prev, recs[|recs| - 1], d, k, k');
      assert recs == prev + [recs[|recs| - 1]];
    }
  }

  /** Removing the records holding `k` removes exactly their count and leaves the other values' counts alone. */
  lemma WithoutFacts(recs: seq<Record>, d: Dimension, k: Option<string>)
    ensures |recs| == CountKey(recs, d, k) + |Without(recs, d, k)|
    ensures forall r :: r in Without(recs, d, k) <==> r in recs && Key(r, d) != k
    ensures forall k' :: k' != k ==> CountKey(Without(recs, d, k), d, k') == CountKey(recs, d, k')
  {
    WithoutShape(recs, d, k);
    forall k' | k' != k
      ensures CountKey(Without(recs, d, k), d, k') == CountKey(recs, d, k')
    {
      WithoutKeepsCount(recs, d, k, k');
    }
  }

  /** The count part of a grouping: distinct keys, each row counting exactly the records
      holding its value, every record's value present. */
  predicate CountsCover(gs: seq<Group>, recs: seq<Record>, d: Dimension) {
    && DistinctKeys(gs)
    && (forall g :: g in gs ==> g.count == CountKey(recs, d, g.key))
    && (forall r :: r in recs ==> Key(r, d) in KeySet(gs))
  }

  /** Rows that count the records by value add up to the number of records. */
  lemma {:induction false} CoverSum(gs: seq<Group>, recs: seq<Record>, d: Dimension)
    requires CountsCover(gs, recs, d)
    ensures SumCounts(gs) == |recs|
  {
    if gs != [] {
      var front := gs[..|gs| - 1];
      CoverStep(gs, recs, d);
      CoverSum(front, Without(recs, d, gs[|gs| - 1].key), d);
    } else {
      NoKeysNoRecords(recs, d);
    }
  }

  /** Dropping the last row and the records it counts leaves rows that count the rest. */
  lemma CoverStep(gs: seq<Group>, recs: seq<Record>, d: Dimension)
    requires CountsCover(gs, recs, d) && gs != []
    ensures var g := gs[|gs| - 1];
      && |recs| == g.count + |Without(recs, d, g.key)|
      && CountsCover(gs[..|gs| - 1], Without(recs, d, g.key), d)
  {
    var g := gs[|gs| - 1];
    var front := gs[..|gs| - 1];
    WithoutFacts(recs, d, g.key);
    assert g in gs;
    FrontCounts(gs, recs, d);
    RestCovered(gs, recs, d);
  }

  /** The rows before the last keep distinct keys and count the records without the last row's value. */
  lemma FrontCounts(gs: seq<Group>, recs: seq<Record>, d: Dimension)
    requires CountsCover(gs, recs, d) && gs != []
    ensures var g := gs[|gs| - 1];
      && DistinctKeys(gs[..|gs| - 1])
      && forall h :: h in gs[..|gs| - 1] ==> h.count == CountKey(Without(recs, d, g.key), d, h.key)
  {
    var g := gs[|gs| - 1];
    var front := gs[..|gs| - 1];
    forall h | h in front ensures h.count == CountKey(Without(recs, d, g.key), d, h.key) {
      var j :| 0 <= j < |front| && front[j] == h;
      assert gs[j] == h;
      WithoutKeepsCount(recs, d, g.key, h.key);
    }
  }

  /** Every record without the last row's value has its value among the rows before the last. */
  lemma RestCovered(gs: seq<Group>, recs: seq<Record>, d: Dimension)
    requires CountsCover(gs, recs, d) && gs != []
    ensures var g := gs[|gs| - 1];
      forall r :: r in Without(recs, d, g.key) ==> Key(r, d) in KeySet(gs[..|gs| - 1])
  {
    var g := gs[|gs| - 1];
    var front := gs[..|gs| - 1];
    WithoutShape(recs, d, g.key);
    forall r | r in Without(recs, d, g.key) ensures Key(r, d) in KeySet(front) {
      var h :| h in gs && h.key == Key(r, d);
      var j :| 0 <= j < |gs| && gs[j] == h;
      assert j != |gs| - 1;
      assert front[j] == h;
    }
  }

  /** Records whose values all lie among no keys at all are no records. */
  lemma NoKeysNoRecords(recs: seq<Record>, d: Dimension)
    ensures (forall r :: r in recs ==> Key(r, d) in KeySet([])) <==> recs == []
  {
    if recs != [] {
      assert recs[0] in recs && Key(recs[0], d) !in KeySet([]);
    }
  }

  /** The counts of any correct grouping add up to the number of records grouped. */
  lemma GroupingSum(gs: seq<Group>, recs: seq<Record>, d: Dimension)
    requires IsGrouping(gs, recs, d)
    ensures SumCounts(gs) == |recs|
  {
    CoverSum(gs, recs, d);
  }

  /** A value counted at least once is held by some record. */
  lemma {:induction false} CountedKeyOccurs(recs: seq<Record>, d: Dimension, k: Option<string>)
    requires CountKey(recs, d, k) > 0
    ensures exists r :: r in recs && Key(r, d) == k
  {
    var last := recs[|recs| - 1];
    if Key(last, d) != k {
      CountedKeyOccurs(recs[..|recs| - 1], d, k);
      var r :| r in recs[..|recs| - 1] && Key(r, d) == k;
      assert r in recs;
    }
  }

  /** A value no record holds contributes no rating. */
  lemma {:induction false} RatingSumOfAbsentKey(recs: seq<Record>, d: Dimension, k: Option<string>)
    requires CountKey(recs, d, k) == 0
    ensures RatingSumKey(recs, d, k) == 0
  {
    if recs != [] {
      RatingSumOfAbsentKey(recs[..|recs| - 1], d, k);
    }
  }

  /** A correct grouping has one row per distinct value among the records, and no other rows. */
  lemma GroupingKeys(gs: seq<Group>, recs: seq<Record>, d: Dimension)
    requires IsGrouping(gs, recs, d)
    ensures KeySet(gs) == RecordKeys(recs, d)
  {
    forall k | k in KeySet(gs) ensures k in RecordKeys(recs, d) {
      var g :| g in gs && g.key == k;
      CountedKeyOccurs(recs, d, k);
    }
  }

  function GroupCount(g: Group): int {
    g.count
  }

  /** Inserting a row with a fresh key keeps keys pairwise distinct. */
  lemma {:induction false} InsertKeepsDistinctKeys(x: Group, t: seq<Group>)
    requires DistinctKeys(t)
    requires forall j :: 0 <= j < |t| ==> t[j].key != x.key
    ensures DistinctKeys(Insert(x, t, GroupCount))
  {
    if t == [] || GroupCount(t[0]) <= GroupCount(x) {
      ConsDistinct(x, t);
    } else {
      var rest := t[1..];
      assert DistinctKeys(rest);
      InsertKeepsDistinctKeys(x, rest);
      forall y | y in Insert(x, rest, GroupCount) ensures y.key != t[0].key {
        if y != x {
          var p :| 0 <= p < |rest| && rest[p] == y;
          assert t[p + 1] == y;
        }
      }
      ConsDistinct(t[0], Insert(x, rest, GroupCount));
    }
  }

  /** A row whose key no later row holds keeps keys pairwise distinct in front of them. */
  lemma ConsDistinct(h: Group, t: seq<Group>)
    requires DistinctKeys(t)
    requires forall j :: 0 <= j < |t| ==> t[j].key != h.key
    ensures DistinctKeys([h] + t)
  {
    var r := [h] + t;
    forall i, j | 0 <= i < j < |r| ensures r[i].key != r[j].key {
      assert r[j] == t[j - 1];
      if i > 0 {
        assert r[i] == t[i - 1];
      }
    }
  }

  /** Sorting rows keeps their keys pairwise distinct. */
  lemma {:induction false} SortKeepsDistinctKeys(gs: seq<Group>)
    requires DistinctKeys(gs)
    ensures DistinctKeys(SortDesc(gs, GroupCount))
  {
    if gs != [] {
      var x := gs[0];
      var t := SortDesc(gs[1..], GroupCount);
      assert DistinctKeys(gs[1..]);
      SortKeepsDistinctKeys(gs[1..]);
      forall j | 0 <= j < |t| ensures t[j].key != x.key {
        assert t[j] in multiset(gs[1..]);
        var p :| 0 <= p < |gs[1..]| && gs[1..][p] == t[j];
        assert gs[p + 1] == t[j];
      }
      InsertKeepsDistinctKeys(x, t);
    }
  }

  /** A per-field breakdown: the grouping of `recs` by `d`, rows by count, largest first. */
  function Breakdown(recs: seq<Record>, d: Dimension): seq<Group> {
    SortDesc(GroupBy(recs, d), GroupCount)
  }

  /** A breakdown has one row per distinct value of the field among the records, each row
      counting exactly the records holding its value; rows are ordered by count, largest
      first, and their counts add up to the number of records. */
  lemma BreakdownFacts(recs: seq<Record>, d: Dimension)
    ensures var b := Breakdown(recs, d);
      && IsGrouping(b, recs, d)
      && KeySet(b) == RecordKeys(recs, d)
      && SortedDesc(b, GroupCount)
      && SumCounts(b) == |recs|
  {
    var gs := GroupBy(recs, d);
    GroupByIsGrouping(recs, d);
    SortKeepsDistinctKeys(gs);
    var b := SortDesc(gs, GroupCount);
    assert forall g :: g in b <==> g in gs by {
      forall g ensures g in b <==> g in gs {
        assert g in b <==> g in multiset(b);
        assert g in gs <==> g in multiset(gs);
      }
    }
    assert IsGrouping(b, recs, d) by {
      forall r | r in recs ensures Key(r, d) in KeySet(b) {
        var g :| g in gs && g.key == Key(r, d);
      }
    }
    GroupingKeys(b, recs, d);
    GroupingSum(b, recs, d);
  }
}
