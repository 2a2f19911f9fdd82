/**
 * The demo data generator of backend/scripts/seed_fake_data.py: the review
 * documents it builds, section by section, each stamped five minutes before
 * the previous one. Time is a whole number of minutes; `now` is a parameter.
 * Writing the documents to the database (`main`) is not part of this model.
 */
module Seed {
  import Aggregation

  /** A generated review document, before `add` stamps it. */
  datatype Doc = Doc(
    website: string,
    product: string,
    rating: int,
    feedback: string,
    aiSummaryUser: string,
    aiSuggestionsUser: seq<string>,
    aiSummaryVendor: string,
    aiSuggestionsVendor: seq<string>,
    classification: string)

  /** A document with the `created_at` that `add` gives it. */
  datatype Seeded = Seeded(doc: Doc, createdAt: int)

  /** How much of the feedback the synthetic summaries repeat. */
  const SummaryLength: nat := 120

  /** Minutes between consecutive documents. */
  const Step: nat := 5

  /** The number of documents the generator tops the data up to. */
  const Target: nat := 50

  /** `feedback[:120]`. */
  function Clip(s: string): (r: string)
    ensures |r| <= SummaryLength && r <= s
    ensures |s| <= SummaryLength ==> r == s
    ensures |s| > SummaryLength ==> |r| == SummaryLength
  {
    if |s| <= SummaryLength then s else s[..SummaryLength]
  }

  /** `base_doc`: the given fields unchanged, both summaries the feedback's first 120
      characters, and the fixed synthetic suggestions. */
  function BaseDoc(website: string, product: string, rating: int, feedback: string, classification: string): (d: Doc)
    ensures d.website == website && d.product == product && d.rating == rating
    ensures d.feedback == feedback && d.classification == classification
    ensures d.aiSummaryUser == d.aiSummaryVendor == Clip(feedback)
  {
    Doc(website, product, rating, feedback, Clip(feedback), ["Synthetic suggestion 1", "Synthetic suggestion 2"],
        Clip(feedback), ["Synthetic vendor note"], classification)
  }

  /** The documents made from each item in turn, in order. */
  function Expand<X>(xs: seq<X>, make: X -> seq<Doc>): seq<Doc> {
    if xs == [] then [] else Expand(xs[..|xs| - 1], make) + make(xs[|xs| - 1])
  }

  /** One more item appends its documents. */
  lemma ExpandSnoc<X>(xs: seq<X>, x: X, make: X -> seq<Doc>)
    ensures Expand(xs + [x], make) == Expand(xs, make) + make(x)
  {
    assert (xs + [x])[..|xs|] == xs;
  }

  /** Items that each give `k` documents give `k` documents apiece. */
  lemma {:induction false} ExpandLength<X>(xs: seq<X>, make: X -> seq<Doc>, k: nat)
    requires forall i :: 0 <= i < |xs| ==> |make(xs[i])| == k
    ensures |Expand(xs, make)| == k * |xs|
  {
    if xs != [] {
      var front := xs[..|xs| - 1];
      forall i | 0 <= i < |front| ensures |make(front[i])| == k {
        assert front[i] == xs[i];
      }
      ExpandLength(front, make, k);
      assert |make(xs[|xs| - 1])| == k;
      assert k * (|front| + 1) == k * |front| + k;
    }
  }

  /** A property every made document has holds of every expanded document. */
  lemma {:induction false} ExpandAll<X>(xs: seq<X>, make: X -> seq<Doc>, p: Doc -> bool)
    requires forall i, j :: 0 <= i < |xs| && 0 <= j < |make(xs[i])| ==> p(make(xs[i])[j])
    ensures forall j :: 0 <= j < |Expand(xs, make)| ==> p(Expand(xs, make)[j])
  {
    if xs != [] {
      var front := xs[..|xs| - 1];
      ExpandAll(front, make, p);
      var e := Expand(front, make);
      var last := make(xs[|xs| - 1]);
      forall j | 0 <= j < |e + last| ensures p((e + last)[j]) {
        if j >= |e| {
          assert (e + last)[j] == last[j - |e|];
        }
      }
    }
  }

  const AlphaFeedbacks: seq<string> := [
    "Loved the alpha phone, smooth and reliable.",
    "Alpha case fits perfectly and feels premium.",
    "Alpha charge is fast and dependable.",
    "Great experience with alpha products.",
    "Alpha phone camera is excellent."]

  const BetaMouseFeedbacks: seq<string> := [
    "beta mouse is laggy and unresponsive.",
    "beta mouse clicks fail often.",
    "beta mouse feels cheap and drags.",
    "beta mouse stopped working quickly."]

  const BetaBandFeedbacks: seq<string> := [
    "beta band is expensive and honestly too expensive for the features.",
    "beta band feels expensive expensive with little value."]

  /** A row of (website, product, rating, feedback, classification). */
  type Row = (string, string, int, string, string)

  const BetaOther: seq<Row> := [
    ("beta-store", "beta-laptop", 3, "beta laptop runs warm but usable.", "product_issue"),
    ("beta-store", "beta-bag", 4, "beta bag is sturdy and spacious.", "genuine")]

  const GammaDelivery: seq<string> := [
    "gamma watch arrived late, delivery issue.",
    "gamma band shipped late and box was damaged.",
    "gamma scale delivery delay annoyed me.",
    "gamma watch delayed delivery, packaging dented.",
    "gamma band delivery tracking was missing."]

  const SarcasmFeedbacks: seq<string> := [
    "Yeah right, totally the best mouse ever (sarcasm).",
    "Sure, delivery was lightning fast... not really."]

  const OtherRows: seq<Row> := [
    ("alpha-shop", "alpha-phone", 3, "Decent but nothing special.", "other"),
    ("beta-store", "beta-laptop", 3, "Average performance, okay value.", "other"),
    ("gamma-mart", "gamma-scale", 3, "Works fine so far.", "other")]

  function AlphaPhone(fb: string): seq<Doc> {
    [BaseDoc("alpha-shop", "alpha-phone", 5, fb, "genuine")]
  }

  function AlphaCase(fb: string): seq<Doc> {
    [BaseDoc("alpha-shop", "alpha-case", 4, fb + " Nice design.", "genuine")]
  }

  function AlphaCharge(fb: string): seq<Doc> {
    [BaseDoc("alpha-shop", "alpha-charge", 5, fb + " Battery lasts long.", "genuine")]
  }

  /** Each beta mouse feedback gives a 1-star and a 2-star document. */
  function BetaMouse(fb: string): seq<Doc> {
    [BaseDoc("beta-store", "beta-mouse", 1, fb, "product_issue"),
     BaseDoc("beta-store", "beta-mouse", 2, fb + " Needs fixes.", "product_issue")]
  }

  function BetaBand(fb: string): seq<Doc> {
    [BaseDoc("beta-store", "beta-band", 2, fb, "product_issue")]
  }

  function FromRow(row: Row): seq<Doc> {
    [BaseDoc(row.0, row.1, row.2, row.3, row.4)]
  }

  /** Each gamma feedback gives a watch and a band document. */
  function Gamma(fb: string): seq<Doc> {
    [BaseDoc("gamma-mart", "gamma-watch", 2, fb, "delivery_issue"),
     BaseDoc("gamma-mart", "gamma-band", 3, fb + " Please fix shipping.", "delivery_issue")]
  }

  /** The two sarcasm documents, added one by one. */
  function Sarcasm(): seq<Doc> {
    [BaseDoc("beta-store", "beta-mouse", 2, SarcasmFeedbacks[0], "sarcasm"),
     BaseDoc("gamma-mart", "gamma-band", 2, SarcasmFeedbacks[1], "sarcasm")]
  }

  /** The document the padding loop repeats. */
  function PaddingDoc(): Doc {
    BaseDoc("alpha-shop", "alpha-charge", 5, "Consistently great alpha experience.", "genuine")
  }

  /** `n` padding documents. */
  function Padding(n: nat): (ps: seq<Doc>)
    ensures |ps| == n && forall i :: 0 <= i < n ==> ps[i] == PaddingDoc()
  {
    seq(n, _ => PaddingDoc())
  }

  /** The alpha sections: phones, cases and chargers, one document per feedback each. */
  function AlphaDocs(): seq<Doc> {
    Expand(AlphaFeedbacks, AlphaPhone) + Expand(AlphaFeedbacks, AlphaCase) + Expand(AlphaFeedbacks, AlphaCharge)
  }

  /** The beta sections: mice, bands, and the laptop and bag rows. */
  function BetaDocs(): seq<Doc> {
    Expand(BetaMouseFeedbacks, BetaMouse) + Expand(BetaBandFeedbacks, BetaBand) + Expand(BetaOther, FromRow)
  }

  /** The gamma deliveries, the two sarcasm documents and the neutral rows. */
  function RestDocs(): seq<Doc> {
    Expand(GammaDelivery, Gamma) + Sarcasm() + Expand(OtherRows, FromRow)
  }

  /** The documents of the fixed sections, in the order they are added. */
  function FixedDocs(): seq<Doc> {
    AlphaDocs() + BetaDocs() + RestDocs()
  }

  /** A seeded document carries one of the five known labels and a rating of 1 to 5. */
  predicate WellFormed(d: Doc) {
    d.classification in Aggregation.ClassificationKeys && 1 <= d.rating <= 5
  }

  /** The alpha sections add 15 documents. */
  lemma AlphaLength()
    ensures |AlphaDocs()| == 15
  {
    ExpandLength(AlphaFeedbacks, AlphaPhone, 1);
    ExpandLength(AlphaFeedbacks, AlphaCase, 1);
    ExpandLength(AlphaFeedbacks, AlphaCharge, 1);
  }

  /** The beta sections add 12 documents. */
  lemma BetaLength()
    ensures |BetaDocs()| == 12
  {
    ExpandLength(BetaMouseFeedbacks, BetaMouse, 2);
    ExpandLength(BetaBandFeedbacks, BetaBand, 1);
    ExpandLength(BetaOther, FromRow, 1);
  }

  /** The gamma, sarcasm and neutral sections add 15 documents. */
  lemma RestLength()
    ensures |RestDocs()| == 15
  {
    ExpandLength(GammaDelivery, Gamma, 2);
    ExpandLength(OtherRows, FromRow, 1);
  }

  /** The fixed sections add 42 documents. */
  lemma FixedDocsLength()
    ensures |FixedDocs()| == 42
  {
    AlphaLength();
    BetaLength();
    RestLength();
  }

  predicate AllWellFormed(ds: seq<Doc>) {
    forall i :: 0 <= i < |ds| ==> WellFormed(ds[i])
  }

  lemma {:induction false} AllWellFormedAppend(a: seq<Doc>, b: seq<Doc>)
    requires AllWellFormed(a) && AllWellFormed(b)
    ensures AllWellFormed(a + b)
  {
    forall i | 0 <= i < |a + b| ensures WellFormed((a + b)[i]) {
      if i >= |a| {
        assert (a + b)[i] == b[i - |a|];
      }
    }
  }

  /** The alpha sections are well formed. */
  lemma AlphaWellFormed()
    ensures AllWellFormed(AlphaDocs())
  {
    ExpandAll(AlphaFeedbacks, AlphaPhone, WellFormed);
    ExpandAll(AlphaFeedbacks, AlphaCase, WellFormed);
    ExpandAll(AlphaFeedbacks, AlphaCharge, WellFormed);
    AllWellFormedAppend3(Expand(AlphaFeedbacks, AlphaPhone), Expand(AlphaFeedbacks, AlphaCase), Expand(AlphaFeedbacks, AlphaCharge));
  }

  /** The beta sections are well formed. */
  lemma BetaWellFormed()
    ensures AllWellFormed(BetaDocs())
  {
    ExpandAll(BetaMouseFeedbacks, BetaMouse, WellFormed);
    ExpandAll(BetaBandFeedbacks, BetaBand, WellFormed);
    ExpandAll(BetaOther, FromRow, WellFormed);
    AllWellFormedAppend3(Expand(BetaMouseFeedbacks, BetaMouse), Expand(BetaBandFeedbacks, BetaBand), Expand(BetaOther, FromRow));
  }

  /** The gamma, sarcasm and neutral sections are well formed. */
  lemma RestWellFormed()
    ensures AllWellFormed(RestDocs())
  {
    ExpandAll(GammaDelivery, Gamma, WellFormed);
    ExpandAll(OtherRows, FromRow, WellFormed);
    AllWellFormedAppend3(Expand(GammaDelivery, Gamma), Sarcasm(), Expand(OtherRows, FromRow));
  }

  /** Every document of the fixed sections is well formed. */
  lemma FixedDocsWellFormed()
    ensures AllWellFormed(FixedDocs())
  {
    AlphaWellFormed();
    BetaWellFormed();
    RestWellFormed();
    AllWellFormedAppend3(AlphaDocs(), BetaDocs(), RestDocs());
  }

  /** Three well-formed parts make a well-formed whole. */
  lemma AllWellFormedAppend3(a: seq<Doc>, b: seq<Doc>, c: seq<Doc>)
    requires AllWellFormed(a) && AllWellFormed(b) && AllWellFormed(c)
    ensures AllWellFormed(a + b + c)
  {
    AllWellFormedAppend(a, b);
    AllWellFormedAppend(a + b, c);
  }

  /** Appending three parts one after the other appends their concatenation: a proof aid
      for the section builders, standing for nothing in the generator itself. */
  lemma AppendThree(ds: seq<Doc>, a: seq<Doc>, b: seq<Doc>, c: seq<Doc>)
    ensures ds + a + b + c == ds + (a + b + c)
  {
  }

  /** Adding the two documents of a pair one by one appends the pair: a proof aid for
      `AddRest`, standing for nothing in the generator itself. */
  lemma AppendPair(ds: seq<Doc>, pair: seq<Doc>)
    requires |pair| == 2
    ensures ds + [pair[0]] + [pair[1]] == ds + pair
  {
  }

  /** One more padding document extends the padding by one. */
  lemma PaddingStep(ds: seq<Doc>, n: nat)
    ensures ds + Padding(n) + [PaddingDoc()] == ds + Padding(n + 1)
  {
    assert Padding(n) + [PaddingDoc()] == Padding(n + 1);
  }

  /** The documents of a stamped list, without their stamps. */
  function Unstamped(s: seq<Seeded>): (ds: seq<Doc>)
    ensures |ds| == |s|
  {
    if s == [] then [] else Unstamped(s[..|s| - 1]) + [s[|s| - 1].doc]
  }

  /** Each unstamped document is the document of the stamped one at the same place. */
  lemma {:induction false} UnstampedAt(s: seq<Seeded>, i: nat)
    requires i < |s|
    ensures Unstamped(s)[i] == s[i].doc
  {
    if i < |s| - 1 {
      UnstampedAt(s[..|s| - 1], i);
    }
  }

  /** The i-th document is stamped `now - 5 i`. */
  predicate StampedFrom(docs: seq<Seeded>, now: int) {
    forall i :: 0 <= i < |docs| ==> docs[i].createdAt == now - Step * i
  }

  /** The list being built and the `ts` that `add` shares with `build_dataset`. */
  class DatasetBuilder {
    var docs: seq<Seeded>
    var ts: int
    ghost const now: int

    /** `ts` has moved back five minutes per document, and the i-th document was stamped
        `now - 5 i`. */
    ghost predicate Valid()
      reads this
    {
      && ts == now - Step * |docs|
      && StampedFrom(docs, now)
    }

    constructor (now: int)
      ensures Valid() && docs == [] && ts == now && this.now == now
    {
      this.now := now;
      docs := [];
      ts := now;
    }

    /** `add`: stamp the document with `ts`, move `ts` five minutes back, append. */
    method Add(doc: Doc)
      requires Valid()
      modifies this
      ensures Valid()
      ensures docs == old(docs) + [Seeded(doc, old(ts))] && ts == old(ts) - Step
      ensures Unstamped(docs) == Unstamped(old(docs)) + [doc]
    {
      docs := docs + [Seeded(doc, ts)];
      ts := ts - Step;
    }

    /** The `add` calls of one loop iteration: append the given documents, in order. */
    method AddAll(made: seq<Doc>)
      requires Valid()
      modifies this
      ensures Valid()
      ensures Unstamped(docs) == Unstamped(old(docs)) + made
    {
      for j := 0 to |made|
        invariant Valid()
        invariant Unstamped(docs) == Unstamped(old(docs)) + made[..j]
      {
        Add(made[j]);
        assert made[..j + 1] == made[..j] + [made[j]];
      }
      assert made[..|made|] == made;
    }

    /** One `for` loop of the generator: add the documents made from each item, in order. */
    method AddEach<X>(xs: seq<X>, make: X -> seq<Doc>)
      requires Valid()
      modifies this
      ensures Valid()
      ensures Unstamped(docs) == Unstamped(old(docs)) + Expand(xs, make)
    {
      for i := 0 to |xs|
        invariant Valid()
        invariant Unstamped(docs) == Unstamped(old(docs)) + Expand(xs[..i], make)
      {
        AddAll(make(xs[i]));
        ExpandSnoc(xs[..i], xs[i], make);
        assert xs[..i + 1] == xs[..i] + [xs[i]];
      }
      assert xs[..|xs|] == xs;
    }

    /** The `while len(docs) < 50` loop of `build_dataset`: add padding documents until
        there are `n`. */
    method PadTo(n: nat, ghost prefix: seq<Doc>)
      requires Valid() && |docs| <= n && Unstamped(docs) == prefix
      modifies this
      ensures Valid() && |docs| == n
      ensures Unstamped(docs) == prefix + Padding(n - |prefix|)
    {
      assert Padding(0) == [] && prefix + [] == prefix;
      while |docs| < n
        invariant Valid() && |prefix| <= |docs| <= n
        invariant Unstamped(docs) == prefix + Padding(|docs| - |prefix|)
        decreases n - |docs|
      {
        PaddingStep(prefix, |docs| - |prefix|);
        Add(PaddingDoc());
      }
    }

    /** The three alpha loops of `build_dataset`. */
    method AddAlpha()
      requires Valid()
      modifies this
      ensures Valid()
      ensures Unstamped(docs) == Unstamped(old(docs)) + AlphaDocs()
    {
      ghost var start := Unstamped(docs);
      AddEach(AlphaFeedbacks, AlphaPhone);
      AddEach(AlphaFeedbacks, AlphaCase);
      AddEach(AlphaFeedbacks, AlphaCharge);
      AppendThree(start, Expand(AlphaFeedbacks, AlphaPhone), Expand(AlphaFeedbacks, AlphaCase), Expand(AlphaFeedbacks, AlphaCharge));
    }

    /** The three beta loops of `build_dataset`. */
    method AddBeta()
      requires Valid()
      modifies this
      ensures Valid()
      ensures Unstamped(docs) == Unstamped(old(docs)) + BetaDocs()
    {
      ghost var start := Unstamped(docs);
      AddEach(BetaMouseFeedbacks, BetaMouse);
      AddEach(BetaBandFeedbacks, BetaBand);
      AddEach(BetaOther, FromRow);
      AppendThree(start, Expand(BetaMouseFeedbacks, BetaMouse), Expand(BetaBandFeedbacks, BetaBand), Expand(BetaOther, FromRow));
    }

    /** The gamma loop, the two sarcasm documents and the neutral loop of `build_dataset`. */
    method AddRest()
      requires Valid()
      modifies this
      ensures Valid()
      ensures Unstamped(docs) == Unstamped(old(docs)) + RestDocs()
    {
      ghost var start := Unstamped(docs);
      AddEach(GammaDelivery, Gamma);
      ghost var beforeSarcasm := Unstamped(docs);
      Add(Sarcasm()[0]);
      Add(Sarcasm()[1]);
      AppendPair(beforeSarcasm, Sarcasm());
      AddEach(OtherRows, FromRow);
      AppendThree(start, Expand(GammaDelivery, Gamma), Sarcasm(), Expand(OtherRows, FromRow));
    }

    /** The sections of `build_dataset` before the padding, from an empty list: the fixed
        sections, in order. */
    method AddSections()
      requires Valid() && docs == []
      modifies this
      ensures Valid()
      ensures Unstamped(docs) == FixedDocs()
    {
      ghost var empty := Unstamped(docs);
      AddAlpha();
      assert empty + AlphaDocs() == AlphaDocs();
      AddBeta();
      AddRest();
    }
  }

  /** `build_dataset`: the fixed sections in order, then padding up to 50 documents; the i-th
      document is stamped `now - 5 i`. */
  method BuildDataset(now: int) returns (docs: seq<Seeded>)
    ensures |docs| == Target
    ensures StampedFrom(docs, now)
    ensures Unstamped(docs) == FixedDocs() + Padding(Target - 42)
  {
    var b := new DatasetBuilder(now);
    b.AddSections();
    FixedDocsLength();
    b.PadTo(Target, FixedDocs());
    docs := b.docs;
  }

  /** The generated data: 50 documents, stamps strictly decreasing from `now`, every label one
      of the five known ones and every rating from 1 to 5, the last 8 being padding. */
  lemma {:induction false} DatasetFacts(docs: seq<Seeded>, now: int)
    requires |docs| == Target
    requires StampedFrom(docs, now)
    requires Unstamped(docs) == FixedDocs() + Padding(Target - 42)
    ensures forall i, j :: 0 <= i < j < |docs| ==> docs[i].createdAt > docs[j].createdAt
    ensures forall i :: 0 <= i < |docs| ==> WellFormed(docs[i].doc)
    ensures forall i :: 42 <= i < |docs| ==> docs[i].doc == PaddingDoc()
  {
    FixedDocsLength();
    FixedDocsWellFormed();
    StampedFacts(docs, now, FixedDocs());
  }

  /** Documents stamped five minutes apart whose contents are 42 well-formed documents and
      the padding: stamps strictly decrease, all are well formed, the last 8 are padding. */
  lemma StampedFacts(docs: seq<Seeded>, now: int, fixed: seq<Doc>)
    requires |docs| == Target && |fixed| == 42 && AllWellFormed(fixed)
    requires StampedFrom(docs, now)
    requires Unstamped(docs) == fixed + Padding(Target - 42)
    ensures forall i, j :: 0 <= i < j < |docs| ==> docs[i].createdAt > docs[j].createdAt
    ensures forall i :: 0 <= i < |docs| ==> WellFormed(docs[i].doc)
    ensures forall i :: 42 <= i < |docs| ==> docs[i].doc == PaddingDoc()
  {
    PaddedWellFormed(fixed);
    forall i | 0 <= i < |docs| ensures WellFormed(docs[i].doc) && (i >= 42 ==> docs[i].doc == PaddingDoc()) {
      UnstampedAt(docs, i);
    }
  }

  /** 42 well-formed documents followed by the padding make 50 well-formed documents,
      the last 8 of them padding. */
  lemma PaddedWellFormed(fixed: seq<Doc>)
    requires |fixed| == 42 && AllWellFormed(fixed)
    ensures var all := fixed + Padding(Target - 42);
      && |all| == Target
      && AllWellFormed(all)
      && forall i :: 42 <= i < |all| ==> all[i] == PaddingDoc()
  {
    var all := fixed + Padding(Target - 42);
    forall i | 0 <= i < |all| ensures WellFormed(all[i]) && (i >= 42 ==> all[i] == PaddingDoc()) {
      if i >= 42 {
        assert all[i] == Padding(Target - 42)[i - 42];
      }
    }
  }
}
