/**
 * The per-review summariser of backend/app/services/ai.py: the heuristic
 * summary sentence and suggestions (`_heuristic_summary`), and the choice
 * between a language model's answer and that heuristic
 * (`generate_summary_and_suggestions`). The model's reply is an oracle value
 * passed in; parsing JSON out of its text is not part of this model.
 */
module Summarizer {
  import opened Wrappers

  /** Python's `str.isspace` for the characters `str.split()` separates on. */
  predicate IsSpace(c: char) {
    || ('\t' <= c <= '\r')
    || ('\U{1C}' <= c <= '\U{1F}')
    || c == ' ' || c == '\U{85}' || c == '\U{A0}' || c == '\U{1680}'
    || ('\U{2000}' <= c <= '\U{200A}')
    || c == '\U{2028}' || c == '\U{2029}' || c == '\U{202F}' || c == '\U{205F}' || c == '\U{3000}'
  }

  predicate NoSpace(s: string) {
    forall i :: 0 <= i < |s| ==> !IsSpace(s[i])
  }

  /** A word as `str.split()` yields it: non-empty, without whitespace. */
  predicate IsWord(w: string) {
    w != [] && NoSpace(w)
  }

  /** `str.split()` of `s`, continuing a word `cur` already begun. */
  function SplitFrom(s: string, cur: string): (ws: seq<string>)
    requires NoSpace(cur)
    ensures forall i :: 0 <= i < |ws| ==> IsWord(ws[i])
    decreases |s|
  {
    if s == [] then (if cur == [] then [] else [cur])
    else if IsSpace(s[0]) then
      (if cur == [] then SplitFrom(s[1..], []) else [cur] + SplitFrom(s[1..], []))
    else SplitFrom(s[1..], cur + [s[0]])
  }

  /** `s.split()`: the maximal runs of non-whitespace characters, in order. */
  function Words(s: string): seq<string> {
    SplitFrom(s, [])
  }

  /** `" ".join(ws)`. */
  function Join(ws: seq<string>): string {
    if ws == [] then []
    else if |ws| == 1 then ws[0]
    else ws[0] + " " + Join(ws[1..])
  }

  /** `" ".join(s.split())`: runs of whitespace become one space, none at either end. */
  function Collapse(s: string): string {
    Join(Words(s))
  }

  /** The characters of `s` that are not whitespace, in order. */
  function Visible(s: string): string {
    if s == [] then [] else (if IsSpace(s[0]) then [] else [s[0]]) + Visible(s[1..])
  }

  /** All words written one after another. */
  function Concat(ws: seq<string>): string {
    if ws == [] then [] else ws[0] + Concat(ws[1..])
  }

  lemma {:induction false} VisibleAppend(a: string, b: string)
    ensures Visible(a + b) == Visible(a) + Visible(b)
  {
    if a != [] {
      var h := if IsSpace(a[0]) then [] else [a[0]];
      assert (a + b)[0] == a[0];
      assert (a + b)[1..] == a[1..] + b;
      VisibleAppend(a[1..], b);
      assert Visible(a + b) == h + (Visible(a[1..]) + Visible(b));
      assert Visible(a) == h + Visible(a[1..]);
      assert h + (Visible(a[1..]) + Visible(b)) == (h + Visible(a[1..])) + Visible(b);
    } else {
      assert a + b == b;
    }
  }

  lemma {:induction false} VisibleOfWord(w: string)
    requires NoSpace(w)
    ensures Visible(w) == w
  {
    if w != [] {
      VisibleOfWord(w[1..]);
    }
  }

  /** Splitting keeps every visible character, in order: the words laid end to end are the
      word already begun followed by the visible characters of the rest. */
  lemma {:induction false} ConcatSplit(s: string, cur: string)
    requires NoSpace(cur)
    ensures Concat(SplitFrom(s, cur)) == cur + Visible(s)
    decreases |s|
  {
    if s == [] {
    } else if IsSpace(s[0]) {
      ConcatSplit(s[1..], []);
      if cur != [] {
        assert ([cur] + SplitFrom(s[1..], []))[1..] == SplitFrom(s[1..], []);
      }
    } else {
      ConcatSplit(s[1..], cur + [s[0]]);
    }
  }

  /** Joining words by single spaces adds no visible character. */
  lemma {:induction false} VisibleJoin(ws: seq<string>)
    requires forall i :: 0 <= i < |ws| ==> NoSpace(ws[i])
    ensures Visible(Join(ws)) == Concat(ws)
  {
    if ws == [] {
    } else if |ws| == 1 {
      VisibleOfWord(ws[0]);
      assert Concat(ws[1..]) == [];
    } else {
      VisibleJoin(ws[1..]);
      VisibleAppend(ws[0] + " ", Join(ws[1..]));
      VisibleAppend(ws[0], " ");
      VisibleOfWord(ws[0]);
      assert Visible(" ") == [];
    }
  }

  /** Collapsing whitespace drops or merges whitespace only: every other character stays, in
      order. */
  lemma CollapseKeepsVisible(s: string)
    ensures Visible(Collapse(s)) == Visible(s)
  {
    VisibleJoin(Words(s));
    ConcatSplit(s, []);
  }

  /** Reading on through a word extends the word being built. */
  lemma {:induction false} SplitThroughWord(w: string, t: string, cur: string)
    requires NoSpace(w) && NoSpace(cur)
    ensures SplitFrom(w + t, cur) == SplitFrom(t, cur + w)
    decreases |w|
  {
    if w != [] {
      assert (w + t)[0] == w[0] && (w + t)[1..] == w[1..] + t;
      assert !IsSpace(w[0]);
      assert SplitFrom(w + t, cur) == SplitFrom(w[1..] + t, cur + [w[0]]);
      assert cur + [w[0]] + w[1..] == cur + w;
      SplitThroughWord(w[1..], t, cur + [w[0]]);
    } else {
      assert w + t == t && cur + w == cur;
    }
  }

  /** Splitting text joined from words gives back the words. */
  lemma {:induction false} WordsOfJoin(ws: seq<string>)
    requires forall i :: 0 <= i < |ws| ==> IsWord(ws[i])
    ensures Words(Join(ws)) == ws
  {
    if ws == [] {
    } else if |ws| == 1 {
      SplitThroughWord(ws[0], [], []);
      assert ws[0] + [] == ws[0] && [] + ws[0] == ws[0];
      assert Join(ws) == ws[0];
      assert SplitFrom([], ws[0]) == [ws[0]];
    } else {
      var rest := Join(ws[1..]);
      SplitThroughWord(ws[0], " " + rest, []);
      assert ws[0] + " " + rest == ws[0] + (" " + rest);
      assert (" " + rest)[1..] == rest;
      WordsOfJoin(ws[1..]);
      assert [] + ws[0] == ws[0];
    }
  }

  /** Collapsing whitespace twice changes nothing more. */
  lemma CollapseIdempotent(s: string)
    ensures Collapse(Collapse(s)) == Collapse(s)
  {
    WordsOfJoin(Words(s));
  }

  /** The ellipsis marker appended to shortened text: the three characters the source file
      holds there ("â€¦", the UTF-8 bytes of U+2026 read as Windows-1252). */
  const Ellipsis: string := ['\U{E2}', '\U{20AC}', '\U{A6}']

  /** Text longer than this is shortened. */
  const MaxText: nat := 220

  /** How much of long text is kept before cutting at a space. */
  const KeptPrefix: nat := 210

  /** The position of the last space in `t`, if any. */
  function LastSpace(t: string): (p: Option<nat>)
    ensures p.Some? ==> p.value < |t| && t[p.value] == ' ' && forall j :: p.value < j < |t| ==> t[j] != ' '
    ensures p.None? ==> forall j :: 0 <= j < |t| ==> t[j] != ' '
  {
    if t == [] then None
    else if t[|t| - 1] == ' ' then Some(|t| - 1)
    else LastSpace(t[..|t| - 1])
  }

  /** `t.rsplit(" ", 1)[0]`: what precedes the last space, or all of `t` when it has none. */
  function BeforeLastSpace(t: string): string {
    var p := LastSpace(t);
    if p.None? then t else t[..p.value]
  }

  /** `cleaned_short`: text of at most 220 characters unchanged; longer text cut to its first
      210 characters, back to the last space among them, with the ellipsis marker added. */
  function Shorten(c: string): (r: string)
    ensures |c| <= MaxText ==> r == c
    ensures |c| > MaxText ==>
      exists k: nat :: k <= KeptPrefix && r == c[..k] + Ellipsis
        && ((k < KeptPrefix && c[k] == ' ') || (k == KeptPrefix && forall j :: 0 <= j < KeptPrefix ==> c[j] != ' '))
        && forall j :: k < j < KeptPrefix ==> c[j] != ' '
    ensures |r| <= MaxText
  {
    if |c| > MaxText then
      var t := c[..KeptPrefix];
      var p := LastSpace(t);
      var k := if p.None? then KeptPrefix else p.value;
      assert BeforeLastSpace(t) == c[..k];
      BeforeLastSpace(t) + Ellipsis
    else c
  }

  /** The tone word for a star rating. */
  function Tone(rating: int): string {
    if rating >= 5 then "extremely positive"
    else if rating == 4 then "positive"
    else if rating == 3 then "mixed"
    else if rating == 2 then "negative"
    else "very negative"
  }

  /** The tone bands: five or more, four, three, two, and everything below two (zero and
      negative ratings included) each have a tone of their own. */
  lemma ToneBands(rating: int)
    ensures Tone(rating) == "extremely positive" <==> rating >= 5
    ensures Tone(rating) == "positive" <==> rating == 4
    ensures Tone(rating) == "mixed" <==> rating == 3
    ensures Tone(rating) == "negative" <==> rating == 2
    ensures Tone(rating) == "very negative" <==> rating <= 1
  {
  }

  /** The three suggestions for a star rating, chosen by the same bands as the tone. */
  function RatingSuggestions(rating: int): (s: seq<string>)
    ensures |s| == 3
  {
    if rating >= 5 then PraiseSuggestions
    else if rating == 4 then GoodSuggestions
    else if rating == 3 then MixedSuggestions
    else if rating == 2 then PoorSuggestions
    else CriticalSuggestions
  }

  const PraiseSuggestions: seq<string> := [
    "Acknowledge the praise and keep consistency",
    "Identify what delighted the user and amplify it",
    "Invite a testimonial or referral"]

  const GoodSuggestions: seq<string> := [
    "Thank the user and address minor issues",
    "Monitor recurring themes to reach 5/5",
    "Offer tips or resources to enhance value"]

  const MixedSuggestions: seq<string> := [
    "Reach out to clarify pain points",
    "Prioritize quick wins to improve experience",
    "Provide guidance or better onboarding"]

  const PoorSuggestions: seq<string> := [
    "Contact the user to resolve issues",
    "Fix top friction points causing dissatisfaction",
    "Offer a make-good (discount, support session)"]

  const CriticalSuggestions: seq<string> := [
    "Escalate and remediate critical issues immediately",
    "Conduct root-cause analysis on failures",
    "Proactively follow up after fixes"]

  function Digit(d: nat): (c: char)
    requires d < 10
    ensures '0' <= c <= '9' && DigitValue(c) == d
  {
    ('0' as int + d) as char
  }

  function DigitValue(c: char): nat {
    if '0' <= c <= '9' then (c - '0') as nat else 0
  }

  /** A decimal numeral as Python writes one: at least one digit, all of them decimal, and
      no leading zero unless the numeral is "0" itself. */
  predicate Numeral(s: string) {
    && |s| >= 1
    && (forall i :: 0 <= i < |s| ==> '0' <= s[i] <= '9')
    && (|s| > 1 ==> s[0] != '0')
  }

  /** The decimal digits of `n`, without leading zeros. */
  function NatToString(n: nat): (s: string)
    ensures Numeral(s)
    ensures s[0] == '0' <==> n == 0
  {
    if n < 10 then [Digit(n)] else NatToString(n / 10) + [Digit(n % 10)]
  }

  /** The number a string of decimal digits denotes. */
  function ParseDigits(s: string): nat {
    if s == [] then 0 else ParseDigits(s[..|s| - 1]) * 10 + DigitValue(s[|s| - 1])
  }

  /** Rendering a number in decimal loses nothing: reading the digits back gives the number. */
  lemma {:induction false} ParseNatToString(n: nat)
    ensures ParseDigits(NatToString(n)) == n
  {
    if n >= 10 {
      ParseNatToString(n / 10);
      var s := NatToString(n);
      assert s == NatToString(n / 10) + [Digit(n % 10)];
      assert s[..|s| - 1] == NatToString(n / 10);
      assert DigitValue(s[|s| - 1]) == n % 10;
    }
  }

  /** `str(rating)`: a minus sign before the digits of a negative number. */
  function IntToString(n: int): (s: string)
    ensures |s| >= 1
    ensures n >= 0 ==> Numeral(s) && ParseDigits(s) == n
    ensures n < 0 ==> s[0] == '-' && Numeral(s[1..]) && ParseDigits(s[1..]) == -n
  {
    ParseNatToString(if n >= 0 then n else -n);
    if n >= 0 then NatToString(n) else "-" + NatToString(-n)
  }

  /** ASCII lower-casing; every other character is left as it is. */
  function Lower(s: string): (r: string)
    ensures |r| == |s|
    ensures forall i :: 0 <= i < |s| ==> r[i] == (if 'A' <= s[i] <= 'Z' then (s[i] - 'A' + 'a') else s[i])
  {
    if s == [] then [] else Lower(s[..|s| - 1]) + [if 'A' <= s[|s| - 1] <= 'Z' then s[|s| - 1] - 'A' + 'a' else s[|s| - 1]]
  }

  /** `k in text`: `k` occurs in `text` as a contiguous piece. */
  predicate Contains(text: string, k: string) {
    exists i :: 0 <= i <= |text| - |k| && OccursAt(text, k, i)
  }

  predicate OccursAt(text: string, k: string, i: int)
    requires 0 <= i <= |text| - |k|
  {
    text[i..i + |k|] == k
  }

  /** A keyword group and the suggestion it adds. */
  datatype KeywordGroup = KeywordGroup(keywords: seq<string>, suggestion: string)

  /** `any(k in kw for k in group)`. */
  predicate Hits(g: KeywordGroup, text: string) {
    exists i :: 0 <= i < |g.keywords| && Contains(text, g.keywords[i])
  }

  /** The keyword groups, in priority order: performance, stability, pricing, support. */
  const KeywordGroups: seq<KeywordGroup> := [
    KeywordGroup(["slow", "lag", "performance", "loading"], "Improve performance and loading responsiveness"),
    KeywordGroup(["bug", "crash", "error", "issue"], "Fix stability issues and add regression tests"),
    KeywordGroup(["price", "cost", "expensive", "pricing"], "Review pricing and communicate value more clearly"),
    KeywordGroup(["support", "help", "service", "response"], "Improve support responsiveness and resolution quality")]

  /** The first group some keyword of which occurs in `text`. */
  function FirstHit(groups: seq<KeywordGroup>, text: string): (r: Option<nat>)
    ensures r.Some? ==> r.value < |groups| && Hits(groups[r.value], text)
    ensures r.Some? ==> forall j :: 0 <= j < r.value ==> !Hits(groups[j], text)
    ensures r.None? ==> forall j :: 0 <= j < |groups| ==> !Hits(groups[j], text)
  {
    if groups == [] then None
    else if Hits(groups[0], text) then Some(0)
    else
      var rest := FirstHit(groups[1..], text);
      if rest.None? then None else Some(rest.value + 1)
  }

  /** The first-hit search over the four groups is the chain of tests the source writes out. */
  lemma FirstHitOfKeywordGroups(text: string)
    ensures FirstHit(KeywordGroups, text) ==
      if Hits(KeywordGroups[0], text) then Some(0)
      else if Hits(KeywordGroups[1], text) then Some(1)
      else if Hits(KeywordGroups[2], text) then Some(2)
      else if Hits(KeywordGroups[3], text) then Some(3)
      else None
  {
    var g := KeywordGroups;
    assert g[1..][0] == g[1] && g[1..][1..] == g[2..] && g[2..][0] == g[2];
    assert g[2..][1..] == g[3..] && g[3..][0] == g[3] && g[3..][1..] == [];
  }

  /** The suggestion the keywords add: that of the first group that hits, if any. */
  function KeywordSuggestion(text: string): seq<string> {
    var h := FirstHit(KeywordGroups, text);
    if h.None? then [] else [KeywordGroups[h.value].suggestion]
  }

  /** `_heuristic_summary(rating, feedback)` as a value. */
  function Heuristic(rating: int, feedback: string): (string, seq<string>) {
    var cleaned := Collapse(feedback);
    ("A " + Tone(rating) + " " + IntToString(rating) + "/5 review: " + Shorten(cleaned),
     RatingSuggestions(rating) + KeywordSuggestion(Lower(cleaned)))
  }

  /** The heuristic gives three or four suggestions: the rating's three, then the suggestion
      of the first keyword group (in priority order) that occurs in the lower-cased text,
      when one does; the `[:4]` cut never removes anything. */
  lemma HeuristicSuggestions(rating: int, feedback: string)
    ensures var s := Heuristic(rating, feedback).1;
      var hit := FirstHit(KeywordGroups, Lower(Collapse(feedback)));
      && 3 <= |s| <= 4
      && s[..3] == RatingSuggestions(rating)
      && (|s| == 4 <==> hit.Some?)
      && (|s| == 4 ==> s[3] == KeywordGroups[hit.value].suggestion)
  {
    var s := Heuristic(rating, feedback).1;
    assert s[..3] == RatingSuggestions(rating);
  }

  /** The summary sentence names the tone and the rating and ends with the collapsed text,
      shortened to at most 220 characters when it is longer. */
  lemma HeuristicSentence(rating: int, feedback: string)
    ensures var sentence := Heuristic(rating, feedback).0;
      var prefix := "A " + Tone(rating) + " " + IntToString(rating) + "/5 review: ";
      && sentence[..|prefix|] == prefix
      && sentence[|prefix|..] == Shorten(Collapse(feedback))
      && |sentence| <= |prefix| + MaxText
  {
  }

  /** The length test of `_heuristic_summary`: text over 220 characters is cut to its first
      210, back to the last space in them, and the ellipsis is appended. */
  method ShortenText(cleaned: string) returns (short: string)
    ensures short == Shorten(cleaned)
  {
    short := cleaned;
    if |cleaned| > MaxText {
      short := BeforeLastSpace(cleaned[..KeptPrefix]) + Ellipsis;
    }
  }

  /** The keyword tests of `_heuristic_summary`, in priority order: the suggestion of the
      first group one of whose keywords occurs in the lower-cased text, if any. */
  method MatchKeywords(kw: string) returns (extra: seq<string>)
    ensures extra == KeywordSuggestion(kw)
  {
    FirstHitOfKeywordGroups(kw);
    if Hits(KeywordGroups[0], kw) {
      extra := [KeywordGroups[0].suggestion];
    } else if Hits(KeywordGroups[1], kw) {
      extra := [KeywordGroups[1].suggestion];
    } else if Hits(KeywordGroups[2], kw) {
      extra := [KeywordGroups[2].suggestion];
    } else if Hits(KeywordGroups[3], kw) {
      extra := [KeywordGroups[3].suggestion];
    } else {
      extra := [];
    }
  }

  /** `_heuristic_summary`: the summary sentence, and the rating's three suggestions with at
      most one keyword suggestion appended (performance before stability before pricing
      before support), cut to four. */
  method HeuristicSummary(rating: int, feedback: string) returns (summary: string, suggestions: seq<string>)
    ensures (summary, suggestions) == Heuristic(rating, feedback)
  {
    var cleaned := Collapse(feedback);
    var cleanedShort := ShortenText(cleaned);
    summary := "A " + Tone(rating) + " " + IntToString(rating) + "/5 review: " + cleanedShort;
    var extra := MatchKeywords(Lower(cleaned));
    var all := RatingSuggestions(rating) + extra;
    HeuristicSuggestions(rating, feedback);
    assert all == Heuristic(rating, feedback).1 && |all| <= 4;
    suggestions := all[..Min(4, |all|)];
    assert suggestions == all;
  }

  /** What the language model answered: no API key, a failed call or a reply with no JSON
      object, or an object with its `summary` (as text) and `suggestions` (as a list) when
      present. */
  datatype ModelReply =
    | NoApiKey
    | ModelFailed
    | ModelObject(summary: Option<string>, suggestions: Option<seq<string>>)

  /** `generate_summary_and_suggestions`: the model's summary and at most its first four
      suggestions when its object has both keys (an empty summary included), otherwise the
      heuristic result. */
  method SummaryAndSuggestions(rating: int, feedback: string, reply: ModelReply) returns (summary: string, suggestions: seq<string>)
    ensures |suggestions| <= 4
    ensures reply.ModelObject? && reply.summary.Some? && reply.suggestions.Some? ==>
      && summary == reply.summary.value
      && suggestions <= reply.suggestions.value
      && |suggestions| == Min(4, |reply.suggestions.value|)
    ensures !(reply.ModelObject? && reply.summary.Some? && reply.suggestions.Some?) ==>
      (summary, suggestions) == Heuristic(rating, feedback)
  {
    if reply.ModelObject? && reply.summary.Some? && reply.suggestions.Some? {
      var all := reply.suggestions.value;
      return reply.summary.value, all[..Min(4, |all|)];
    }
    summary, suggestions := HeuristicSummary(rating, feedback);
  }
}
