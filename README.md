# Review analytics core, modelled in Dafny

This project models the analytics side of a review-collection backend. The backend stores
customer reviews (rating, feedback, website, product, classification, creation time) in a
document store and offers four services around them:

- **Aggregation** (`backend/app/services/analytics.py`). `compute_analytics_summary` builds a
  snapshot of the reviews a filter selects:
  - the total and the average rating;
  - a classification-count dict seeded with five fixed labels;
  - per-website and per-product breakdowns, largest count first;
  - the five newest reviews.
- **Live subscribers** (same file). A module-level set of WebSocket connections:
  - registering a connection sends it one snapshot;
  - a broadcast pushes one unfiltered snapshot to every connection and drops the ones whose
    send failed.
- **Insight cache** (`backend/app/services/insights.py`). Insight payloads are memoised per filter
  key. An entry is valid while the creation time of the store's newest review is unchanged. The
  insight comes from a language model, with a deterministic heuristic fallback.
- **Per-review summariser** (`backend/app/services/ai.py`). The heuristic summary sentence and
  suggestions, and the choice between the model's answer and that heuristic.
- **Demo data generator** (`backend/scripts/seed_fake_data.py`). Builds 50 review documents, each
  stamped five minutes before the previous one.

The modules follow that structure:

| file | module | models |
|---|---|---|
| `wrappers.dfy` | `Wrappers` | `Option` and `Min` |
| `reviews.dfy` | `Reviews` | review records, the store, filters and `_build_match` |
| `sorting.dfy` | `Sorting` | the descending sorts of the pipelines (stable insertion sort) |
| `aggregation_groups.dfy` | `Grouping` | the `$group` stages and the breakdowns |
| `aggregation.dfy` | `Aggregation` | the classification counts, the latest list, the snapshot |
| `registry.dfy` | `Registry` | the subscriber set, registration and broadcast |
| `insights.dfy` | `Insights` | filter key, freshness token, heuristic insight, the cache |
| `summarizer.dfy` | `Summarizer` | `_heuristic_summary` and `generate_summary_and_suggestions` |
| `seed.dfy` | `Seed` | `base_doc` and `build_dataset` |

Modelling choices:

- **The store** is a sequence of records in insertion order plus an `available` flag.
  - Every aggregation pipeline is a function over that sequence.
  - An unavailable store makes a computation fail, which gives `None`.
- **Averages** are kept as a rating total with its count. A snapshot carries `ratingSum` and
  `totalReviews`; each breakdown row carries its own `count` and `ratingSum`.
- **Group order**. The store returns `$group` rows in an unspecified order. `GroupBy` lists them by
  first occurrence, and the counting lemmas are stated for every valid order (`IsGrouping`).
- **Breakdown ties**. The source sorts by count alone and leaves ties open. `SortDesc` keeps
  equal counts in input order.
- **Connections** are opaque handles.
  - Which sends fail is a parameter: the set `failing`.
  - Every successful send is appended to `outbox`, so "who received what, how often" can be stated.
- **The language model** is an oracle value passed in: `Insights.OracleReply` and
  `Summarizer.ModelReply`.
- **Clocks**. The current time is a parameter. Timestamps are whole numbers of minutes.

Four behaviours of the code shape what the model states:

- **Classification counts are assigned, not incremented.**
  - Each `$group` row *assigns* its count to `item.get("_id") or "other"`
    (`backend/app/services/analytics.py:45-49`).
  - A record with no label and a record labelled `"other"` therefore overwrite each other
    (`Aggregation.AssignmentLosesCollidingRows`).
  - An unknown label becomes an extra key rather than folding into `"other"`
    (`Aggregation.AssignAllLabels`).
  - The counts add up to the total when every selected record has a non-empty label
    (`Aggregation.TotalWithoutFalsyLabels`). More generally, they do so when no two `$group`
    rows land on the same label after `or "other"` (`Aggregation.DistinctRowLabelsSum`).
- **Breakdown ties have no tie-break.** The code sorts by count only.
- **The freshness token is global** (`backend/app/services/insights.py:21-29`). A new review
  invalidates every cached filter key, not only the keys whose records it falls under
  (`Insights.NewerRecordChangesToken`).
- **Broadcasts are not wired to writes.** `create_review` in `backend/app/main.py` never calls
  `broadcast_analytics_update`. `Registry.SubscriberRegistry.Broadcast` is therefore an operation
  of its own, with no claim that writes trigger it.

## Model

| member | source | states |
|---|---|---|
| Reviews.BuildMatch | backend/app/services/analytics.py:17-21 | no filter gives the empty query; otherwise a field is in the query exactly when its filter value is truthy (not null, not ""), with that value unchanged |
| Reviews.Matching | backend/app/services/analytics.py:28-30 | the selected records are exactly the stored records that satisfy the query: each matching record as many times as the collection holds it, each other record not at all, at most as many as stored |
| Reviews.FalsyFiltersGiveEmptyMatch | backend/app/services/analytics.py:17-21 | a filter dict with no truthy value, or none at all, gives the empty query |
| Reviews.EmptyMatchSelectsAll | backend/app/services/analytics.py:28-30 | the empty query selects the whole collection, in order |
| Reviews.MatchingAppend | backend/app/services/analytics.py:28-30 | a record added to the store is selected after the earlier ones exactly when it matches |
| Sorting.Insert | backend/app/services/analytics.py:68 | inserting adds exactly the one element (multiset) |
| Sorting.ConsSorted | backend/app/services/analytics.py:68 | a descending sequence stays descending behind an element that outranks all of it |
| Sorting.HeadOutranks | backend/app/services/analytics.py:68 | the first element of a descending sequence outranks every element |
| Sorting.InsertSorted | backend/app/services/analytics.py:68 | inserting into a descending sequence keeps it descending |
| Sorting.SortDesc | backend/app/services/analytics.py:68 | the result is a permutation of the input, ordered by the key, largest first |
| Sorting.SortedPrefix | backend/app/services/analytics.py:92 | a prefix of a descending sequence is descending and takes only elements of the sequence (multiset) |
| Sorting.SortedTailBelow | backend/app/services/analytics.py:92 | in a descending sequence, an element left out of the first k ranks no higher than any of them |
| Grouping.IndexOfKey | backend/app/services/analytics.py:43 | the position found is the first row holding the key, or past the end when none does |
| Grouping.GroupByIsGrouping | backend/app/services/analytics.py:41-44 | grouping gives one row per value present, with distinct keys; each row counts and totals exactly the records holding its value |
| Grouping.RatingSumSnoc | backend/app/services/analytics.py:57 | one more record adds its rating to the total of its own value and nothing to any other |
| Grouping.TallyKeepsGrouping | backend/app/services/analytics.py:51-59 | tallying one more record into a correct grouping gives a correct grouping of the longer list |
| Grouping.TallyRowsExact | backend/app/services/analytics.py:54-57 | after the tally every row counts and totals exactly the records holding its value |
| Grouping.TallyCovers | backend/app/services/analytics.py:54-55 | after the tally the rows keep distinct keys and hold the value of every record |
| Grouping.NewKeyTotals | backend/app/services/analytics.py:54-57 | a value no row of a correct grouping holds has count 0 and rating total 0 |
| Grouping.UnheldKeyCount | backend/app/services/analytics.py:56 | a value no record holds is counted zero times |
| Grouping.WithoutShape | backend/app/services/analytics.py:54-56 | removing the records of one value removes exactly as many records as it counts, keeps every other record and none of the removed value |
| Grouping.CountSnoc | backend/app/services/analytics.py:56 | one more record adds one to the count of its own value and nothing to any other |
| Grouping.WithoutStep | backend/app/services/analytics.py:54-56 | removing one value commutes with appending a record, for the count of every other value |
| Grouping.WithoutKeepsCount | backend/app/services/analytics.py:54-56 | removing the records of one value leaves the count of every other value unchanged |
| Grouping.WithoutFacts | backend/app/services/analytics.py:54-56 | removing the records of one value removes exactly its count, only its records, and leaves every other value's count alone |
| Grouping.CoverSum | backend/app/services/analytics.py:51-89 | rows with distinct keys whose counts are exact and whose keys cover every record's value add up to the number of records |
| Grouping.CoverStep | backend/app/services/analytics.py:51-59 | dropping the last row and the records it counts leaves rows that still count and cover the rest, and removes exactly that row's count |
| Grouping.FrontCounts | backend/app/services/analytics.py:54-56 | the rows before the last keep distinct keys and count the records without the last row's value |
| Grouping.RestCovered | backend/app/services/analytics.py:54-55 | every record without the last row's value has its value among the rows before the last |
| Grouping.NoKeysNoRecords | backend/app/services/analytics.py:51-56 | only the empty list of records has all its values among no keys |
| Grouping.GroupingSum | backend/app/services/analytics.py:51-89 | the counts of any valid grouping, in any order, add up to the number of records grouped |
| Grouping.CountedKeyOccurs | backend/app/services/analytics.py:56 | a value counted at least once is held by some record |
| Grouping.RatingSumOfAbsentKey | backend/app/services/analytics.py:57 | a value no record holds has rating total 0 |
| Grouping.GroupingKeys | backend/app/services/analytics.py:51-89 | a valid grouping has exactly one row per distinct field value among the records |
| Grouping.InsertKeepsDistinctKeys | backend/app/services/analytics.py:68 | sorting in a row with a fresh key keeps row keys distinct |
| Grouping.ConsDistinct | backend/app/services/analytics.py:68 | a row whose key no later row holds keeps keys distinct in front of them |
| Grouping.SortKeepsDistinctKeys | backend/app/services/analytics.py:68 | sorting the rows by count keeps their keys distinct |
| Grouping.BreakdownFacts | backend/app/services/analytics.py:51-89 | a breakdown is a valid grouping whose keys are the distinct values among the records, ordered by count non-increasing, counts summing to the number of records |
| Aggregation.LabelIndex | backend/app/services/analytics.py:47 | the position found is the first entry with the label, or past the end when none has it |
| Aggregation.LabelIndexIs | backend/app/services/analytics.py:47 | the first position holding a label is what the lookup finds |
| Aggregation.LookupAfterAssign | backend/app/services/analytics.py:47-49 | after `counts[l] = v` the label `l` holds `v` and every other label keeps its value |
| Aggregation.LabelIndexFound | backend/app/services/analytics.py:47 | the lookup finds an entry exactly when the label is a key of the dict |
| Aggregation.LabelsAfterAssign | backend/app/services/analytics.py:47-49 | assignment keeps the keys and their order, appending a new label at the end, and keeps keys distinct |
| Aggregation.AssignAllShape | backend/app/services/analytics.py:40-49 | the counts dict always starts with the five known labels in order and never repeats a key |
| Aggregation.AssignAllLookup | backend/app/services/analytics.py:40-49 | each label holds the count of the last row reported under it, or 0 when no row is |
| Aggregation.AssignAllLabels | backend/app/services/analytics.py:40-48 | the dict's keys are exactly the five known labels plus the labels some row is reported under (null or "" as "other") |
| Aggregation.ReportedLast | backend/app/services/analytics.py:45-46 | some row is reported under a label exactly when the last row is or an earlier one is |
| Aggregation.AssignAllSnoc | backend/app/services/analytics.py:45-49 | one more row assigns its count to its label on top of the dict built so far |
| Aggregation.AssignAllPrefix | backend/app/services/analytics.py:45-49 | the dict after the first i+1 rows is the i-th row assigned on top of the dict after the first i |
| Aggregation.LastAssignedUnique | backend/app/services/analytics.py:45-49 | with exactly one row reported under a label, the dict holds that row's count for it |
| Aggregation.LastAssignedAbsent | backend/app/services/analytics.py:40-49 | a label no row is reported under stays at 0 |
| Aggregation.ExactCountsWithoutFalsyLabels | backend/app/services/analytics.py:40-49 | when every selected record has a non-empty label, each label's value is exactly the number of selected records with that label |
| Aggregation.ZeroSum | backend/app/services/analytics.py:40 | a dict of zeros totals 0 |
| Aggregation.SumAfterAssign | backend/app/services/analytics.py:49 | assigning `v` to a label changes the dict's total by `v` minus the old value |
| Aggregation.SumAfterUpdate | backend/app/services/analytics.py:49 | replacing one entry changes the total by the difference of the counts |
| Aggregation.TotalWithoutFalsyLabels | backend/app/services/analytics.py:40-49 | when every selected record has a non-empty label, the counts add up to the number of selected records |
| Aggregation.DistinctRowLabelsSum | backend/app/services/analytics.py:45-49 | rows reported under pairwise different labels each add their full count to the total |
| Aggregation.AssignmentLosesCollidingRows | backend/app/services/analytics.py:46-49 | an unlabelled record and one labelled "other" both write "other": it holds 1 and the counts total 1 for 2 records |
| Aggregation.CollidingRows | backend/app/services/analytics.py:41-44 | an unlabelled record and one labelled "other" group into two rows of one, null first |
| Aggregation.CollidingAssignments | backend/app/services/analytics.py:45-49 | an unlabelled row of one and an "other" row of one both assign 1 to "other", so the dict totals 1 |
| Aggregation.LatestShape | backend/app/services/analytics.py:91-94 | the latest list has min(5, n) records, drawn from the selection (multiset), newest first |
| Aggregation.LatestAreNewest | backend/app/services/analytics.py:92 | every selected record left out of the latest list is no newer than any record in it |
| Aggregation.FillClassificationCounts | backend/app/services/analytics.py:40-49 | the loop over the grouped rows yields the assignment-by-row dict (`AssignAll`) |
| Aggregation.ReadCursor | backend/app/services/analytics.py:91-94 | the `async for` loop appends every record the cursor yields, in order |
| Aggregation.ComputeSummary | backend/app/services/analytics.py:24-103 | an available store yields the snapshot of the selected records, with the latest list copied from the cursor; an unavailable one fails |
| Aggregation.EmptySelectionSummary | backend/app/services/analytics.py:30-94 | a filter selecting nothing gives total 0, rating total 0 (average 0.0), the five labels at 0 and empty breakdowns and latest list |
| Aggregation.EmptyStoreSummary | backend/app/services/analytics.py:24-103 | an empty store gives total 0 and the five zero counts, whatever the filter |
| Aggregation.SummaryTotals | backend/app/services/analytics.py:30-89 | the total counts the selected records; counts start with the five labels; each breakdown has one row per distinct value, is sorted by count, and sums to the total |
| Aggregation.SummaryLatest | backend/app/services/analytics.py:91-94 | at most 5 latest records, each stored and matching the filter, newest first |
| Registry.ComputeSnapshot | backend/app/services/analytics.py:119-123 | an available store gives the unfiltered snapshot message; an unavailable one gives nothing |
| Registry.Sends | backend/app/services/analytics.py:127-131 | a pass sends no more messages than it has targets, each to a target whose send does not fail, each carrying the message of the pass |
| Registry.SendsPerTarget | backend/app/services/analytics.py:127-131 | a handle gets as many snapshots as the pass lists it, or none when its send fails |
| Registry.Dead | backend/app/services/analytics.py:126-131 | the collected dead handles are exactly the targets whose send failed |
| Registry.DeadAreFailingLive | backend/app/services/analytics.py:124-131 | over a copy of the live set, the dead handles are the live handles that fail |
| Registry.SendsReachEachOnce | backend/app/services/analytics.py:125-131 | over distinct targets each surviving target receives exactly one snapshot and nobody else receives any |
| Registry.SubscriberRegistry.constructor | backend/app/services/analytics.py:10 | the registry starts empty, nothing sent |
| Registry.SubscriberRegistry.Unregister | backend/app/services/analytics.py:113-115 | removes only the given handle; removing an absent handle changes nothing; nothing is sent |
| Registry.SubscriberRegistry.Deliver | backend/app/services/analytics.py:129 | a successful send appends exactly that delivery and changes nothing else |
| Registry.SubscriberRegistry.SendSnapshot | backend/app/services/analytics.py:138-144 | a successful send delivers the unfiltered snapshot to the handle; a failed computation or send removes it and sends nothing |
| Registry.SubscriberRegistry.Register | backend/app/services/analytics.py:106-110 | the handle is added and receives one snapshot; if computing or sending fails, it is removed again |
| Registry.SubscriberRegistry.Targets | backend/app/services/analytics.py:124-125 | the copied target list holds every live handle exactly once |
| Registry.SubscriberRegistry.SendAll | backend/app/services/analytics.py:126-131 | the send loop delivers to each non-failing target in order and collects the failing ones, leaving the live set untouched |
| Registry.SubscriberRegistry.DiscardAll | backend/app/services/analytics.py:132-135 | pruning removes exactly the dead handles |
| Registry.SubscriberRegistry.Publish | backend/app/services/analytics.py:124-135 | every live handle is visited once; the message goes to each non-failing one; afterwards the live set is the old one minus the failing handles |
| Registry.SubscriberRegistry.Broadcast | backend/app/services/analytics.py:118-135 | a failed computation sends nothing and changes nothing; otherwise the one unfiltered snapshot goes once to every live non-failing handle and the failing ones are pruned after the pass |
| Insights.Normalize | backend/app/services/insights.py:33 | no filter dict becomes the empty dict; a given one is kept |
| Insights.FilterKey | backend/app/services/insights.py:17-18 | the key is as long as the three field texts together plus two separators; its meaning is given by `FilterKeyInjective` |
| Insights.BarInside | backend/app/services/insights.py:18 | in equal "|"-joined strings, a shorter first part ends where the longer one has a "|" |
| Insights.SplitAtBar | backend/app/services/insights.py:18 | "|"-joined strings whose first parts hold no "|" come apart uniquely |
| Insights.FilterKeyInjective | backend/app/services/insights.py:17-18 | for field texts without "|", two filter dicts share a key exactly when website, product and classification texts agree |
| Insights.FilterKeyCollides | backend/app/services/insights.py:17-18 | `{website: "a\|b", product: "c"}` and `{website: "a", product: "b\|c"}` share a key, yet a record from website "a\|b" with product "c" satisfies the first query and not the second |
| Insights.SiteProductQuery | backend/app/services/analytics.py:17-21 | a website-and-product filter selects exactly the records from that website with that product |
| Insights.OtherFieldsShareKey | backend/app/services/insights.py:17-18 | a filter on any field other than website, product and classification gets the key of no filter, yet selects exactly the records holding its value in that field, while no filter selects every record |
| Insights.LatestToken | backend/app/services/insights.py:21-29 | no token exactly when the store is empty; otherwise the creation time of a stored record that no record exceeds |
| Insights.NewerRecordChangesToken | backend/app/services/insights.py:21-29 | a record newer than all stored ones becomes the token, which differs from the old one |
| Insights.OlderRecordKeepsToken | backend/app/services/insights.py:21-29 | a record no newer than some stored record leaves the token unchanged |
| Insights.ArgMax | backend/app/services/insights.py:110 | the position of a largest count, the first such on ties |
| Insights.TopTheme | backend/app/services/insights.py:107-110 | "other" for an empty dict; otherwise one of the dict's labels |
| Insights.TopThemeOfSnapshot | backend/app/services/insights.py:107-110 | a snapshot's top theme is a label no other label outcounts; with nothing selected it is "product_issue", the first key |
| Insights.TopThemeIsLargest | backend/app/services/insights.py:107-110 | in a non-empty dict without repeated keys, the top theme is a key whose count no entry exceeds, and every entry before it counts less (ties go to the first) |
| Insights.InitialTopTheme | backend/app/services/insights.py:107-110 | with every label at zero the first label, "product_issue", is the top theme |
| Insights.AiInsights | backend/app/services/insights.py:96-118 | the model's insight with its first min(3, n) actions, in order, exactly when it gave a non-empty insight; otherwise the heuristic narrative (total, rating total, top theme, truthy filters) with the three fixed actions |
| Insights.EmptyFiltersAsNone | backend/app/services/insights.py:32-42 | the summary for `{}` is the unfiltered summary |
| Insights.InsightCache.constructor | backend/app/services/insights.py:13 | the cache starts empty |
| Insights.InsightCache.Put | backend/app/services/insights.py:54-55 | stores the payload under its key and leaves other keys untouched |
| Insights.InsightCache.Generate | backend/app/services/insights.py:32-56 | a hit (entry present with the current token) returns that payload and changes nothing; a miss returns a fresh payload stamped with the token read at entry and the given filters and overwrites only that key |
| Insights.CachedPayloadIsServed | backend/app/services/insights.py:37-55 | once a freshly computed payload is stored under its key, the same filters against an unchanged store hit it |
| Summarizer.SplitFrom | backend/app/services/ai.py:65 | splitting yields only non-empty words without whitespace |
| Summarizer.VisibleAppend | backend/app/services/ai.py:65 | the non-whitespace characters of a concatenation are those of its parts |
| Summarizer.VisibleOfWord | backend/app/services/ai.py:65 | a word is all visible characters |
| Summarizer.ConcatSplit | backend/app/services/ai.py:65 | splitting loses no visible character and adds none |
| Summarizer.VisibleJoin | backend/app/services/ai.py:65 | joining by single spaces adds no visible character |
| Summarizer.CollapseKeepsVisible | backend/app/services/ai.py:65 | collapsing whitespace keeps every other character, in order |
| Summarizer.SplitThroughWord | backend/app/services/ai.py:65 | reading through a word extends the current word |
| Summarizer.WordsOfJoin | backend/app/services/ai.py:65 | splitting space-joined words gives back the words |
| Summarizer.CollapseIdempotent | backend/app/services/ai.py:65 | collapsing twice is collapsing once |
| Summarizer.LastSpace | backend/app/services/ai.py:67 | the position found holds a space and no later one does; none found means no space |
| Summarizer.Shorten | backend/app/services/ai.py:66-69 | text of at most 220 characters is unchanged; longer text becomes its first 210 characters cut before their last space, or all 210 when none of them is a space, plus the ellipsis; the result never exceeds 220 |
| Summarizer.ShortenText | backend/app/services/ai.py:66-69 | the length test and cut of `_heuristic_summary` give the shortened text |
| Summarizer.ToneBands | backend/app/services/ai.py:71-80 | each tone word is given exactly to its band: ≥5, 4, 3, 2, ≤1 |
| Summarizer.RatingSuggestions | backend/app/services/ai.py:84-113 | three suggestions for every rating |
| Summarizer.Digit | backend/app/services/ai.py:82 | a digit 0-9 is rendered as a decimal character that reads back as itself |
| Summarizer.NatToString | backend/app/services/ai.py:82 | a decimal numeral with no leading zero, starting with "0" exactly when the number is 0 |
| Summarizer.ParseNatToString | backend/app/services/ai.py:82 | reading the digits back gives the number |
| Summarizer.IntToString | backend/app/services/ai.py:82 | `str(rating)`: a decimal numeral without leading zeros that reads back as the number, after a minus sign when negative |
| Summarizer.Lower | backend/app/services/ai.py:115 | same length; A-Z become a-z, every other character stays |
| Summarizer.FirstHit | backend/app/services/ai.py:116-123 | the first keyword group that occurs in the text, none before it does; none found means no group occurs |
| Summarizer.FirstHitOfKeywordGroups | backend/app/services/ai.py:116-123 | the first-hit search equals the source's if/elif chain: performance, stability, pricing, support |
| Summarizer.MatchKeywords | backend/app/services/ai.py:116-123 | the if/elif keyword tests give exactly the suggestion of the first group that occurs in the text, or nothing |
| Summarizer.HeuristicSuggestions | backend/app/services/ai.py:84-125 | 3 or 4 suggestions: the rating's three, then a fourth exactly when a keyword group hits the lower-cased text, namely that of the first group that hits |
| Summarizer.HeuristicSentence | backend/app/services/ai.py:65-82 | the summary is "A <tone> <rating>/5 review: " followed by the shortened collapsed text, at most 220 characters after the prefix |
| Summarizer.HeuristicSummary | backend/app/services/ai.py:64-125 | the step-by-step computation (append, then `[:4]`) gives the heuristic result |
| Summarizer.SummaryAndSuggestions | backend/app/services/ai.py:10-46 | at most 4 suggestions; a model object with both keys gives its summary and the first min(4, n) of its suggestions; anything else gives the heuristic result |
| Seed.Clip | backend/scripts/seed_fake_data.py:24-26 | a prefix of the feedback: all of it when it has at most 120 characters, exactly its first 120 otherwise |
| Seed.BaseDoc | backend/scripts/seed_fake_data.py:18-29 | website, product, rating, feedback and classification copied unchanged; both summaries the first 120 characters of the feedback |
| Seed.ExpandLength | backend/scripts/seed_fake_data.py:51-112 | items that each make k documents make k per item |
| Seed.ExpandAll | backend/scripts/seed_fake_data.py:51-112 | a property of every made document holds of every expanded document |
| Seed.ExpandSnoc | backend/scripts/seed_fake_data.py:51-56 | one more item appends its documents after those of the items before it |
| Seed.Padding | backend/scripts/seed_fake_data.py:115-116 | n copies of the padding document |
| Seed.FixedDocsLength | backend/scripts/seed_fake_data.py:44-112 | the fixed sections add 42 documents |
| Seed.AlphaLength | backend/scripts/seed_fake_data.py:43-56 | the three alpha loops add 15 documents |
| Seed.BetaLength | backend/scripts/seed_fake_data.py:58-83 | the beta loops add 12 documents |
| Seed.RestLength | backend/scripts/seed_fake_data.py:85-112 | the gamma loop, the two sarcasm documents and the neutral loop add 15 documents |
| Seed.AllWellFormedAppend | backend/scripts/seed_fake_data.py:37-41 | appending well-formed documents to well-formed documents keeps them well formed |
| Seed.AllWellFormedAppend3 | backend/scripts/seed_fake_data.py:37-41 | three well-formed parts make a well-formed whole |
| Seed.AlphaWellFormed | backend/scripts/seed_fake_data.py:43-56 | the alpha documents have known labels and ratings 1..5 |
| Seed.BetaWellFormed | backend/scripts/seed_fake_data.py:58-83 | the beta documents have known labels and ratings 1..5 |
| Seed.RestWellFormed | backend/scripts/seed_fake_data.py:85-112 | the gamma, sarcasm and neutral documents have known labels and ratings 1..5 |
| Seed.FixedDocsWellFormed | backend/scripts/seed_fake_data.py:43-112 | every fixed document has one of the five known labels and a rating from 1 to 5 |
| Seed.PaddingStep | backend/scripts/seed_fake_data.py:115-116 | one more padding document extends the padding by one |
| Seed.Unstamped | backend/scripts/seed_fake_data.py:37-41 | the documents without their stamps: as many as the stamped ones |
| Seed.UnstampedAt | backend/scripts/seed_fake_data.py:37-41 | each unstamped document is the document stamped at the same position |
| Seed.DatasetBuilder.constructor | backend/scripts/seed_fake_data.py:33-35 | empty list, `ts` is now |
| Seed.DatasetBuilder.Add | backend/scripts/seed_fake_data.py:37-41 | appends the document stamped with the current `ts` and moves `ts` back five minutes |
| Seed.DatasetBuilder.AddEach | backend/scripts/seed_fake_data.py:51-56 | a `for` loop appends the documents made from each item, in order, stamps continuing |
| Seed.DatasetBuilder.AddAll | backend/scripts/seed_fake_data.py:65-67 | the `add` calls of one loop iteration append its documents, in order, stamps continuing |
| Seed.DatasetBuilder.PadTo | backend/scripts/seed_fake_data.py:115-116 | adds padding documents until there are n, stamps continuing |
| Seed.DatasetBuilder.AddAlpha | backend/scripts/seed_fake_data.py:43-56 | the three alpha loops append the alpha documents |
| Seed.DatasetBuilder.AddBeta | backend/scripts/seed_fake_data.py:58-83 | the beta loops append the beta documents |
| Seed.DatasetBuilder.AddRest | backend/scripts/seed_fake_data.py:85-112 | the gamma loop, the two sarcasm `add` calls and the neutral loop append the remaining fixed documents |
| Seed.DatasetBuilder.AddSections | backend/scripts/seed_fake_data.py:43-112 | from an empty list, the fixed sections in order |
| Seed.BuildDataset | backend/scripts/seed_fake_data.py:32-118 | exactly 50 documents, the i-th stamped now − 5·i, the fixed sections in order followed by 8 padding documents |
| Seed.DatasetFacts | backend/scripts/seed_fake_data.py:34-116 | the generated stamps strictly decrease, every document has a known label and a rating from 1 to 5, and the last 8 are the padding document |
| Seed.StampedFacts | backend/scripts/seed_fake_data.py:34-41 | documents stamped five minutes apart holding 42 well-formed documents and the padding: stamps strictly decrease, all are well formed, the last 8 are padding |
| Seed.PaddedWellFormed | backend/scripts/seed_fake_data.py:114-116 | 42 well-formed documents followed by the padding make 50 well-formed documents, the last 8 padding |

## Left out

- Rounding the averages to two decimals (`round`, `$round`): averages are kept as rating totals with counts, and floating point is not modelled.
- The latest reviews are the records themselves: the `_normalize` conversion (ObjectId and ISO-8601 text) is not modelled.
- The asyncio locks and the concurrency they guard: every operation runs to completion on its own, so the window between the cache check and the cache fill is not modelled.
- `websocket.accept()` and the transport: a connection is a handle, and a send either succeeds or fails according to `failing`.
- Logging of skipped broadcasts and failed sends.
- The Groq client calls, environment variables and the prompt and context text: the model's answer is an oracle value.
- `_extract_json`: the JSON and regular-expression parsing of the model's reply. Its outcome is the `ModelReply` value.
- Summarizer.SummaryAndSuggestions: `str(...)` and `list(...)` on the model's values are taken as already a string and a list.
- Insights.AiInsights: the model's insight is the `insight` value already rendered as text, and its actions already a list.
- Insights.AiInsights: the heuristic sentence's text (the float average and the dict rendering of the filters) is kept as its parts, not as a string.
- Reviews.Field: a record carries no suggestion lists, so an equality query on `ai_suggestions`, `ai_suggestions_user` or `ai_suggestions_vendor` (which the store answers with the records whose list contains the value) selects nothing in the model.
- Insights.FieldText: a filter value is text or null, so `str()` of other value types is not modelled.
- Summarizer.Lower: lower-cases ASCII letters only, whereas Python's `str.lower` also maps other alphabets. The keywords are ASCII, but a non-ASCII capital letter that lower-cases to ASCII is not modelled.
- Wall-clock time: `datetime.utcnow`, `datetime.now` and ISO formatting. Times are whole minutes, and `now` is a parameter.
- The seed script's `main`: deleting earlier demo documents, inserting the new ones and printing the count are store I/O.
- `backend/app/main.py` (the HTTP routes), `backend/app/services/database.py` (the store client), `backend/run_demo.py` and the `Assignment1` scripts are not part of this model.
