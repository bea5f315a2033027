/** Client-side search over the docs pages: every term must occur on a page, pages are
    ranked by score and then title, and the best twelve are returned. */
module DocsSearch {
  import opened Text
  import opened Wrappers
  import Sorting

  datatype Page = Page(slug: string, title: string, description: string, headings: seq<string>, text: string)

  datatype Result = Result(slug: string, title: string, context: string)

  datatype Hit = Hit(result: Result, score: nat)

  const MAX_RESULTS := 12

  /** Lower-casing keeps the empty text empty and does not blank out a trimmed text. */
  ghost predicate Lawful(u: Unicode) {
    && u.lower("") == ""
    && forall s: string :: s != "" && Trimmed(u.space, s) ==> u.lower(s) != "" && Trimmed(u.space, u.lower(s))
  }

  // ----- What a search means -------------------------------------------------------

  predicate InTitle(u: Unicode, page: Page, term: string) {
    Contains(u.lower(page.title), term)
  }

  predicate InText(u: Unicode, page: Page, term: string) {
    Contains(u.lower(page.text), term)
  }

  predicate InHeading(u: Unicode, page: Page, term: string) {
    exists k :: 0 <= k < |page.headings| && Contains(u.lower(page.headings[k]), term)
  }

  /** A term matches a page by its title, a heading or its text, not its description. */
  predicate Matches(u: Unicode, page: Page, term: string) {
    InTitle(u, page, term) || InHeading(u, page, term) || InText(u, page, term)
  }

  predicate MatchesAll(u: Unicode, page: Page, terms: seq<string>) {
    forall k :: 0 <= k < |terms| ==> Matches(u, page, terms[k])
  }

  /** What one term is worth. */
  function Points(u: Unicode, page: Page, term: string): nat {
    (if StartsWith(u.lower(page.title), term) then 12 else if InTitle(u, page, term) then 8 else 0)
    + (if InHeading(u, page, term) then 4 else 0)
    + (if Contains(u.lower(page.description), term) then 2 else 0)
    + (if InText(u, page, term) then 1 else 0)
  }

  function TotalPoints(u: Unicode, page: Page, terms: seq<string>): nat {
    if terms == [] then 0
    else TotalPoints(u, page, terms[..|terms| - 1]) + Points(u, page, terms[|terms| - 1])
  }

  function FirstHeading(u: Unicode, headings: seq<string>, term: string): Option<string> {
    if headings == [] then None
    else if Contains(u.lower(headings[0]), term) then Some(headings[0])
    else FirstHeading(u, headings[1..], term)
  }

  /** The context shown: the heading that matched the earliest term to match one. */
  function Context(u: Unicode, page: Page, terms: seq<string>): string {
    if terms == [] then ""
    else
      var before := Context(u, page, terms[..|terms| - 1]);
      var heading := FirstHeading(u, page.headings, terms[|terms| - 1]);
      if before == "" && heading.Some? then heading.value else before
  }

  function HitOf(u: Unicode, page: Page, terms: seq<string>): Hit {
    Hit(Result(page.slug, page.title, Context(u, page, terms)), TotalPoints(u, page, terms))
  }

  /** The pages that match every term, in index order. */
  function Hits(u: Unicode, index: seq<Page>, terms: seq<string>): seq<Hit> {
    if index == [] then []
    else
      var page := index[|index| - 1];
      Hits(u, index[..|index| - 1], terms) + if MatchesAll(u, page, terms) then [HitOf(u, page, terms)] else []
  }

  /** Higher score first, then title by the collation. */
  function Before(collate: (string, string) -> bool): (Hit, Hit) -> bool {
    (a: Hit, b: Hit) => a.score > b.score || (a.score == b.score && collate(a.result.title, b.result.title))
  }

  function Terms(u: Unicode, query: string): seq<string> {
    var q := u.lower(Trim(u.space, query));
    if q == "" then [] else Split(u.space, q, "", false)
  }

  /** All hits of a query, best first. */
  function Ranked(u: Unicode, collate: (string, string) -> bool, index: seq<Page>, query: string): seq<Hit> {
    if Terms(u, query) == [] then [] else Sorting.Sorted(Before(collate), Hits(u, index, Terms(u, query)))
  }

  function Top(hits: seq<Hit>): seq<Hit> {
    if |hits| <= MAX_RESULTS then hits else hits[..MAX_RESULTS]
  }

  function ResultsOf(hits: seq<Hit>): (r: seq<Result>)
    ensures |r| == |hits|
  {
    seq(|hits|, i requires 0 <= i < |hits| => hits[i].result)
  }

  // ----- What the ranking promises ---------------------------------------------------

  lemma BeforeIsTotal(collate: (string, string) -> bool)
    requires Sorting.TotalPreorder(collate)
    ensures Sorting.TotalPreorder(Before(collate))
  {
    var le := Before(collate);
    forall x, y ensures le(x, y) || le(y, x) {
      assert collate(x.result.title, y.result.title) || collate(y.result.title, x.result.title);
    }
    forall x, y, z | le(x, y) && le(y, z) ensures le(x, z) {
      assert collate(x.result.title, y.result.title) && collate(y.result.title, z.result.title)
        ==> collate(x.result.title, z.result.title);
    }
  }

  lemma {:induction false} HitsAreTheMatches(u: Unicode, index: seq<Page>, terms: seq<string>, h: Hit)
    ensures h in Hits(u, index, terms) <==>
      exists k :: 0 <= k < |index| && MatchesAll(u, index[k], terms) && HitOf(u, index[k], terms) == h
  {
    if index != [] {
      HitsAreTheMatches(u, index[..|index| - 1], terms, h);
      assert forall k :: 0 <= k < |index| - 1 ==> index[..|index| - 1][k] == index[k];
    }
  }

  /** The first twelve of the ranking are in order, and a hit behind them comes after
      each of them. */
  lemma TopComesFirst(le: (Hit, Hit) -> bool, hits: seq<Hit>, hit: Hit)
    requires Sorting.TotalPreorder(le) && hit in hits
    ensures var top := Top(Sorting.Sorted(le, hits));
            && Sorting.SortedBy(le, top)
            && (hit in top || (|top| == MAX_RESULTS && forall h :: h in top ==> le(h, hit)))
  {
    var ranked := Sorting.Sorted(le, hits);
    Sorting.SortedIsOrdered(le, hits);
    Sorting.SortedKeepsElements(le, hits);
    assert hit in multiset(hits) && hit in multiset(ranked);
    var at :| 0 <= at < |ranked| && ranked[at] == hit;
    if at < MAX_RESULTS {
      assert Top(ranked)[at] == hit;
    }
  }

  lemma TopIsFromHits(le: (Hit, Hit) -> bool, hits: seq<Hit>, h: Hit)
    requires h in Top(Sorting.Sorted(le, hits))
    ensures h in hits
  {
    Sorting.SortedKeepsElements(le, hits);
    assert h in multiset(Sorting.Sorted(le, hits)) && h in multiset(hits);
  }

  /** At most twelve results, each of a page that matches every term. */
  lemma ResultsMatch(u: Unicode, collate: (string, string) -> bool, index: seq<Page>, query: string)
    ensures var top, terms := Top(Ranked(u, collate, index, query)), Terms(u, query);
            && |top| <= MAX_RESULTS
            && forall h :: h in top ==>
                 exists k :: 0 <= k < |index| && MatchesAll(u, index[k], terms) && HitOf(u, index[k], terms) == h
  {
    var terms := Terms(u, query);
    forall h | h in Top(Ranked(u, collate, index, query))
      ensures exists k :: 0 <= k < |index| && MatchesAll(u, index[k], terms) && HitOf(u, index[k], terms) == h
    {
      TopIsFromHits(Before(collate), Hits(u, index, terms), h);
      HitsAreTheMatches(u, index, terms, h);
    }
  }

  /** A page that matches every term is among the results, or twelve results are, each
      before it or level with it. The results are in rank order. */
  lemma SearchKeepsTheBest(u: Unicode, collate: (string, string) -> bool, index: seq<Page>, query: string, k: nat)
    requires Sorting.TotalPreorder(collate) && Terms(u, query) != []
    requires k < |index| && MatchesAll(u, index[k], Terms(u, query))
    ensures var top, hit := Top(Ranked(u, collate, index, query)), HitOf(u, index[k], Terms(u, query));
            && Sorting.SortedBy(Before(collate), top)
            && (hit in top || (|top| == MAX_RESULTS && forall h :: h in top ==> Before(collate)(h, hit)))
  {
    var terms := Terms(u, query);
    BeforeIsTotal(collate);
    HitsAreTheMatches(u, index, terms, HitOf(u, index[k], terms));
    TopComesFirst(Before(collate), Hits(u, index, terms), HitOf(u, index[k], terms));
  }

  /** No result list loses or repeats a hit: kept and omitted together are the hits. */
  lemma NothingIsLost(u: Unicode, collate: (string, string) -> bool, index: seq<Page>, query: string)
    requires Terms(u, query) != []
    ensures var ranked := Ranked(u, collate, index, query);
            multiset(Top(ranked)) + multiset(ranked[|Top(ranked)|..]) == multiset(Hits(u, index, Terms(u, query)))
  {
    var ranked := Ranked(u, collate, index, query);
    Sorting.SortedKeepsElements(Before(collate), Hits(u, index, Terms(u, query)));
    assert ranked == Top(ranked) + ranked[|Top(ranked)|..];
  }

  // ----- The code ----------------------------------------------------------------------

  /** The terms of a query are words: a blank query has none. */
  lemma TermsAreWords(u: Unicode, query: string)
    requires Lawful(u)
    ensures var terms := Terms(u, query);
            && (forall k :: 0 <= k < |terms| ==> terms[k] != "")
            && (terms == [] <==> Trim(u.space, query) == "")
  {
    TrimTrims(u.space, query);
    var q := u.lower(Trim(u.space, query));
    if q != "" {
      SplitGivesWords(u.space, q, "", false);
    }
  }

  lemma {:induction false} FirstHeadingIsAMatch(u: Unicode, headings: seq<string>, term: string)
    ensures var h := FirstHeading(u, headings, term);
            && (h.Some? <==> exists k :: 0 <= k < |headings| && Contains(u.lower(headings[k]), term))
            && (h.Some? ==> Contains(u.lower(h.value), term))
  {
    if headings != [] {
      FirstHeadingIsAMatch(u, headings[1..], term);
      assert forall k :: 0 < k < |headings| ==> headings[k] == headings[1..][k - 1];
    }
  }

  /** The body of the loop over terms: what one term adds, and whether the page has it. */
  method ScoreTerm(u: Unicode, page: Page, term: string, score: nat, context: string)
    returns (score': nat, context': string, matched: bool)
    requires Lawful(u) && term != ""
    ensures matched <==> Matches(u, page, term)
    ensures score' == score + Points(u, page, term)
    ensures var h := FirstHeading(u, page.headings, term);
            context' == if context == "" && h.Some? then h.value else context
    ensures matched ==> score' > score
  {
    score', context', matched := score, context, true;
    var title := u.lower(page.title);
    if Contains(title, term) { score' := score' + if StartsWith(title, term) then 12 else 8; }
    FirstHeadingIsAMatch(u, page.headings, term);
    var heading := FirstHeading(u, page.headings, term);
    // An empty heading is falsy in the source, but it cannot match a term.
    var found := heading.Some? && heading.value != "";
    if found {
      score' := score' + 4;
      if context' == "" { context' := heading.value; }
    }
    if Contains(u.lower(page.description), term) { score' := score' + 2; }
    if Contains(u.lower(page.text), term) {
      score' := score' + 1;
    } else if !Contains(title, term) && !found {
      matched := false;
    }
  }

  /** One pass over the terms: score and context of a page; score 0 when a term is
      found nowhere but perhaps in the description. */
  method ScorePage(u: Unicode, page: Page, terms: seq<string>) returns (score: nat, context: string)
    requires Lawful(u) && terms != [] && forall k :: 0 <= k < |terms| ==> terms[k] != ""
    ensures score > 0 <==> MatchesAll(u, page, terms)
    ensures score > 0 ==> score == TotalPoints(u, page, terms) && context == Context(u, page, terms)
  {
    score, context := 0, "";
    for i := 0 to |terms|
      invariant forall k :: 0 <= k < i ==> Matches(u, page, terms[k])
      invariant score == TotalPoints(u, page, terms[..i]) && context == Context(u, page, terms[..i])
      invariant score >= i
    {
      assert terms[..i + 1][..i] == terms[..i];
      var matched;
      score, context, matched := ScoreTerm(u, page, terms[i], score, context);
      if !matched { return 0, context; }
    }
    assert terms[..|terms|] == terms;
  }

  method SearchDocs(u: Unicode, collate: (string, string) -> bool, index: seq<Page>, query: string)
    returns (results: seq<Result>)
    requires Lawful(u) && Sorting.TotalPreorder(collate)
    ensures results == ResultsOf(Top(Ranked(u, collate, index, query)))
  {
    var q := u.lower(Trim(u.space, query));
    if q == "" { return []; }
    TermsAreWords(u, query);
    var terms := Split(u.space, q, "", false);
    TrimTrims(u.space, query);
    SplitGivesWords(u.space, q, "", false);
    var scored: seq<Hit> := [];
    for i := 0 to |index|
      invariant scored == Hits(u, index[..i], terms)
    {
      var entry := index[i];
      assert index[..i + 1][..i] == index[..i];
      var score, context := ScorePage(u, entry, terms);
      if score > 0 { scored := scored + [Hit(Result(entry.slug, entry.title, context), score)]; }
    }
    assert index[..|index|] == index;
    BeforeIsTotal(collate);
    var ranked := Sorting.Sort(Before(collate), scored);
    results := ResultsOf(if |ranked| <= MAX_RESULTS then ranked else ranked[..MAX_RESULTS]);
  }
}
