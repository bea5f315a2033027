/** What a search returns, told by the pages themselves: where a term stands on a page,
    what that is worth, and which pages in which order make up the results. */
module DocsRanking {
  import opened DocsSearch
  import opened Text
  import opened Wrappers
  import Sorting

  // ----- One page --------------------------------------------------------------------

  ghost predicate StandsIn(u: Unicode, text: string, term: string) {
    Occurs(u.lower(text), term)
  }

  ghost predicate HeadingHas(u: Unicode, page: Page, term: string, k: nat) {
    k < |page.headings| && StandsIn(u, page.headings[k], term)
  }

  /** Heading k is the first one with the term. */
  ghost predicate HeadingFor(u: Unicode, page: Page, term: string, k: nat) {
    HeadingHas(u, page, term, k) && forall i: nat :: i < k ==> !HeadingHas(u, page, term, i)
  }

  lemma HeadingsAreRead(u: Unicode, page: Page, term: string)
    ensures InHeading(u, page, term) <==> exists k: nat :: HeadingHas(u, page, term, k)
  {
    forall k | 0 <= k < |page.headings|
      ensures Contains(u.lower(page.headings[k]), term) <==> HeadingHas(u, page, term, k)
    {
      ContainsIsOccurring(u.lower(page.headings[k]), term);
    }
  }

  /** A term matches where it stands in the title, in a heading or in the text, whatever
      the case of its letters there. */
  lemma MatchIsOccurrence(u: Unicode, page: Page, term: string)
    ensures Matches(u, page, term)
       <==> StandsIn(u, page.title, term) || StandsIn(u, page.text, term)
            || exists k: nat :: HeadingHas(u, page, term, k)
  {
    HeadingsAreRead(u, page, term);
    ContainsIsOccurring(u.lower(page.title), term);
    ContainsIsOccurring(u.lower(page.text), term);
  }

  /** Twelve points for a title that begins with the term and eight for one that has it,
      four for headings, two for the description, one for the text. */
  lemma PointsAreExact(u: Unicode, page: Page, term: string)
    ensures Points(u, page, term)
         == (if term <= u.lower(page.title) then 12 else if StandsIn(u, page.title, term) then 8 else 0)
            + (if exists k: nat :: HeadingHas(u, page, term, k) then 4 else 0)
            + (if StandsIn(u, page.description, term) then 2 else 0)
            + (if StandsIn(u, page.text, term) then 1 else 0)
  {
    HeadingsAreRead(u, page, term);
    ContainsIsOccurring(u.lower(page.title), term);
    ContainsIsOccurring(u.lower(page.description), term);
    ContainsIsOccurring(u.lower(page.text), term);
    StartIsPrefix(u.lower(page.title), term);
  }

  lemma StartIsPrefix(s: string, part: string)
    ensures StartsWith(s, part) <==> part <= s
  {
  }

  /** The score is the sum over the terms. */
  lemma {:induction false} TotalIsSum(u: Unicode, page: Page, a: seq<string>, term: string, b: seq<string>)
    ensures TotalPoints(u, page, a + [term] + b)
         == TotalPoints(u, page, a) + Points(u, page, term) + TotalPoints(u, page, b)
  {
    var all := a + [term] + b;
    if b == [] {
      assert all[..|all| - 1] == a;
    } else {
      assert all[..|all| - 1] == a + [term] + b[..|b| - 1];
      TotalIsSum(u, page, a, term, b[..|b| - 1]);
    }
  }

  lemma {:induction false} FirstHeadingIsFirst(u: Unicode, headings: seq<string>, term: string) returns (k: nat)
    ensures var h := FirstHeading(u, headings, term);
            && (h.Some? ==> k < |headings| && h.value == headings[k] && Contains(u.lower(headings[k]), term))
            && (h.None? ==> k == |headings|)
            && forall i :: 0 <= i < k ==> !Contains(u.lower(headings[i]), term)
  {
    k := 0;
    if headings != [] && !Contains(u.lower(headings[0]), term) {
      k := FirstHeadingIsFirst(u, headings[1..], term);
      k := k + 1;
      assert forall i :: 0 < i < k ==> headings[i] == headings[1..][i - 1];
    }
  }

  lemma HeadingIsFound(u: Unicode, page: Page, term: string) returns (k: nat)
    requires Lawful(u) && term != ""
    ensures var h := FirstHeading(u, page.headings, term);
            && (h.Some? ==> HeadingFor(u, page, term, k) && h.value == page.headings[k] != "")
            && (h.None? ==> forall i: nat :: !HeadingHas(u, page, term, i))
  {
    k := FirstHeadingIsFirst(u, page.headings, term);
    forall i: nat | i < |page.headings|
      ensures Contains(u.lower(page.headings[i]), term) <==> HeadingHas(u, page, term, i)
    {
      ContainsIsOccurring(u.lower(page.headings[i]), term);
    }
  }

  ghost predicate NoHeading(u: Unicode, page: Page, term: string) {
    forall i: nat :: !HeadingHas(u, page, term, i)
  }

  /** The context is the first heading with the earliest term that any heading has; it is
      empty when no heading has a term. */
  lemma {:induction false} ContextIsFirstHeading(u: Unicode, page: Page, terms: seq<string>) returns (j: nat, k: nat)
    requires Lawful(u) && forall i :: 0 <= i < |terms| ==> terms[i] != ""
    ensures j <= |terms| && forall i :: 0 <= i < j ==> NoHeading(u, page, terms[i])
    ensures j < |terms| ==>
              HeadingFor(u, page, terms[j], k) && Context(u, page, terms) == page.headings[k] != ""
    ensures j == |terms| ==> Context(u, page, terms) == ""
  {
    j, k := 0, 0;
    if terms != [] {
      var front := terms[..|terms| - 1];
      j, k := ContextIsFirstHeading(u, page, front);
      assert forall i :: 0 <= i < |front| ==> terms[i] == front[i];
      if j == |front| {
        k := HeadingIsFound(u, page, terms[j]);
        if FirstHeading(u, page.headings, terms[j]).None? { j := |terms|; }
      }
    }
  }

  // ----- Sorting what is numbered ------------------------------------------------------

  function Map<S, T>(f: S -> T, xs: seq<S>): seq<T> {
    seq(|xs|, i requires 0 <= i < |xs| => f(xs[i]))
  }

  ghost predicate PulledBack<S(!new), T>(le: (T, T) -> bool, f: S -> T, le': (S, S) -> bool) {
    forall a, b :: le'(a, b) == le(f(a), f(b))
  }

  lemma {:induction false} InsertOfMap<S(!new), T>(le: (T, T) -> bool, f: S -> T, le': (S, S) -> bool, xs: seq<S>, x: S)
    requires PulledBack(le, f, le')
    ensures Sorting.Insert(le, Map(f, xs), f(x)) == Map(f, Sorting.Insert(le', xs, x))
  {
    var ys := Map(f, xs);
    if xs == [] || le'(xs[|xs| - 1], x) {
      assert Map(f, xs + [x]) == ys + [f(x)];
    } else {
      var init, last := xs[..|xs| - 1], xs[|xs| - 1];
      assert ys[..|ys| - 1] == Map(f, init);
      InsertOfMap(le, f, le', init, x);
      var r := Sorting.Insert(le', init, x);
      assert Map(f, r + [last]) == Map(f, r) + [f(last)];
    }
  }

  lemma {:induction false} SortedOfMap<S(!new), T>(le: (T, T) -> bool, f: S -> T, le': (S, S) -> bool, xs: seq<S>)
    requires PulledBack(le, f, le')
    ensures Sorting.Sorted(le, Map(f, xs)) == Map(f, Sorting.Sorted(le', xs))
  {
    if xs != [] {
      var init, last := xs[..|xs| - 1], xs[|xs| - 1];
      var ys := Map(f, xs);
      assert ys[..|ys| - 1] == Map(f, init);
      SortedOfMap(le, f, le', init);
      InsertOfMap(le, f, le', Sorting.Sorted(le', init), last);
    }
  }

  /** In order, and those that are level in the order of their numbers. */
  ghost predicate Stable(le: (nat, nat) -> bool, xs: seq<nat>) {
    forall i, j :: 0 <= i < j < |xs| ==> le(xs[i], xs[j]) && (le(xs[j], xs[i]) ==> xs[i] < xs[j])
  }

  lemma {:induction false} InsertKeepsStable(le: (nat, nat) -> bool, xs: seq<nat>, x: nat)
    requires Sorting.TotalPreorder(le) && Stable(le, xs) && forall i :: 0 <= i < |xs| ==> xs[i] < x
    ensures Stable(le, Sorting.Insert(le, xs, x))
  {
    if xs == [] || le(xs[|xs| - 1], x) {
    } else {
      var init, last := xs[..|xs| - 1], xs[|xs| - 1];
      InsertKeepsStable(le, init, x);
      Sorting.InsertKeepsElements(le, init, x);
      var r := Sorting.Insert(le, init, x);
      forall i | 0 <= i < |r| ensures le(r[i], last) && (le(last, r[i]) ==> r[i] < last) {
        assert r[i] in multiset(r) && r[i] in multiset(init) + multiset{x};
        assert r[i] in init || r[i] == x;
      }
    }
  }

  predicate Ascending(xs: seq<nat>) {
    forall i, j :: 0 <= i < j < |xs| ==> xs[i] < xs[j]
  }

  lemma {:induction false} SortedIsStable(le: (nat, nat) -> bool, xs: seq<nat>)
    requires Sorting.TotalPreorder(le) && Ascending(xs)
    ensures Stable(le, Sorting.Sorted(le, xs))
  {
    if xs != [] {
      var init, last := xs[..|xs| - 1], xs[|xs| - 1];
      SortedIsStable(le, init);
      Sorting.SortedKeepsElements(le, init);
      var r := Sorting.Sorted(le, init);
      forall i | 0 <= i < |r| ensures r[i] < last {
        assert r[i] in multiset(r) && r[i] in multiset(init);
      }
      InsertKeepsStable(le, r, last);
    }
  }

  // ----- The results -----------------------------------------------------------------

  /** The numbers of the first n pages that match. */
  function Matching(u: Unicode, index: seq<Page>, terms: seq<string>, n: nat): (ks: seq<nat>)
    requires n <= |index|
    ensures Ascending(ks)
    ensures forall i :: 0 <= i < |ks| ==> ks[i] < n && MatchesAll(u, index[ks[i]], terms)
    ensures forall k :: 0 <= k < n && MatchesAll(u, index[k], terms) ==> k in ks
  {
    if n == 0 then []
    else Matching(u, index, terms, n - 1) + if MatchesAll(u, index[n - 1], terms) then [n - 1] else []
  }

  /** The hit of page k. */
  function HitAt(u: Unicode, index: seq<Page>, terms: seq<string>): nat -> Hit {
    (k: nat) => if k < |index| then HitOf(u, index[k], terms) else Hit(Result("", "", ""), 0)
  }

  lemma {:induction false} HitsAreOfMatching(u: Unicode, index: seq<Page>, terms: seq<string>, n: nat)
    requires n <= |index|
    ensures Hits(u, index[..n], terms) == Map(HitAt(u, index, terms), Matching(u, index, terms, n))
  {
    if n > 0 {
      HitsAreOfMatching(u, index, terms, n - 1);
      LastPage(u, index, terms, n);
      LastMatching(u, index, terms, HitAt(u, index, terms), n);
    }
  }

  lemma LastPage(u: Unicode, index: seq<Page>, terms: seq<string>, n: nat)
    requires 0 < n <= |index|
    ensures Hits(u, index[..n], terms)
         == Hits(u, index[..n - 1], terms)
            + if MatchesAll(u, index[n - 1], terms) then [HitAt(u, index, terms)(n - 1)] else []
  {
    assert index[..n][..n - 1] == index[..n - 1];
  }

  lemma LastMatching(u: Unicode, index: seq<Page>, terms: seq<string>, hit: nat -> Hit, n: nat)
    requires 0 < n <= |index|
    ensures Map(hit, Matching(u, index, terms, n))
         == Map(hit, Matching(u, index, terms, n - 1))
            + if MatchesAll(u, index[n - 1], terms) then [hit(n - 1)] else []
  {
    MapGrows<nat, Hit>(hit, Matching(u, index, terms, n - 1), n - 1);
  }

  lemma MapGrows<S, T>(f: S -> T, xs: seq<S>, x: S)
    ensures Map(f, xs + [x]) == Map(f, xs) + [f(x)] && Map(f, xs + []) == Map(f, xs) + []
  {
  }

  /** Page i comes before page j: it has more points, or as many and a title that the
      collation puts first, or neither first and it is the earlier in the index. */
  ghost predicate Better(
    u: Unicode, collate: (string, string) -> bool, index: seq<Page>, terms: seq<string>, i: nat, j: nat)
  {
    && i < |index| && j < |index|
    && var a, b := TotalPoints(u, index[i], terms), TotalPoints(u, index[j], terms);
       || a > b
       || (a == b && collate(index[i].title, index[j].title) && (collate(index[j].title, index[i].title) ==> i < j))
  }

  lemma AheadIsBetter(
    u: Unicode, collate: (string, string) -> bool, index: seq<Page>, terms: seq<string>, i: nat, j: nat)
    requires i < |index| && j < |index|
    requires var hit, le := HitAt(u, index, terms), Before(collate);
             le(hit(i), hit(j)) && (le(hit(j), hit(i)) ==> i < j)
    ensures Better(u, collate, index, terms, i, j)
  {
  }

  lemma HitsAreSorted(
    u: Unicode, index: seq<Page>, terms: seq<string>, le: (Hit, Hit) -> bool, hit: nat -> Hit, le': (nat, nat) -> bool)
    requires hit == HitAt(u, index, terms) && PulledBack(le, hit, le')
    ensures Sorting.Sorted(le, Hits(u, index, terms))
         == Map(hit, Sorting.Sorted(le', Matching(u, index, terms, |index|)))
  {
    assert index[..|index|] == index;
    HitsAreOfMatching(u, index, terms, |index|);
    SortedOfMap(le, hit, le', Matching(u, index, terms, |index|));
  }

  lemma PagesAreSorted(
    u: Unicode, index: seq<Page>, terms: seq<string>, le: (Hit, Hit) -> bool, hit: nat -> Hit, le': (nat, nat) -> bool)
    requires PulledBack(le, hit, le') && Sorting.TotalPreorder(le)
    ensures Stable(le', Sorting.Sorted(le', Matching(u, index, terms, |index|)))
  {
    PulledBackIsTotal(le, hit, le');
    SortedIsStable(le', Matching(u, index, terms, |index|));
  }

  lemma SameMembers(le: (nat, nat) -> bool, xs: seq<nat>)
    ensures forall k :: k in Sorting.Sorted(le, xs) <==> k in xs
  {
    Sorting.SortedKeepsElements(le, xs);
    assert forall k :: k in Sorting.Sorted(le, xs) <==> k in multiset(Sorting.Sorted(le, xs));
    assert forall k :: k in xs <==> k in multiset(xs);
  }

  lemma StableIsBetter(
    u: Unicode, collate: (string, string) -> bool, index: seq<Page>, terms: seq<string>,
    le': (nat, nat) -> bool, all: seq<nat>, i: nat, j: nat)
    requires PulledBack(Before(collate), HitAt(u, index, terms), le') && Stable(le', all)
    requires i < j < |all| && all[i] < |index| && all[j] < |index|
    ensures Better(u, collate, index, terms, all[i], all[j])
  {
    assert le'(all[i], all[j]) && (le'(all[j], all[i]) ==> all[i] < all[j]);
    AheadIsBetter(u, collate, index, terms, all[i], all[j]);
  }

  /** The numbers of the matching pages, best first. */
  lemma PagesInOrder(u: Unicode, collate: (string, string) -> bool, index: seq<Page>, terms: seq<string>)
    returns (all: seq<nat>)
    requires Sorting.TotalPreorder(collate)
    ensures Sorting.Sorted(Before(collate), Hits(u, index, terms)) == Map(HitAt(u, index, terms), all)
    ensures forall k :: k in all <==> 0 <= k < |index| && MatchesAll(u, index[k], terms)
    ensures forall i, j :: 0 <= i < j < |all| ==> Better(u, collate, index, terms, all[i], all[j])
  {
    var hit, le := HitAt(u, index, terms), Before(collate);
    var le' := (a: nat, b: nat) => le(hit(a), hit(b));
    all := Sorting.Sorted(le', Matching(u, index, terms, |index|));
    HitsAreSorted(u, index, terms, le, hit, le');
    assert Stable(le', all) by {
      BeforeIsTotal(collate);
      PagesAreSorted(u, index, terms, le, hit, le');
    }
    SameMembers(le', Matching(u, index, terms, |index|));
    forall i, j | 0 <= i < j < |all| ensures Better(u, collate, index, terms, all[i], all[j]) {
      assert all[i] in all && all[j] in all;
      StableIsBetter(u, collate, index, terms, le', all, i, j);
    }
  }

  lemma PulledBackIsTotal<S(!new), T(!new)>(le: (T, T) -> bool, f: S -> T, le': (S, S) -> bool)
    requires Sorting.TotalPreorder(le) && PulledBack(le, f, le')
    ensures Sorting.TotalPreorder(le')
  {
    forall x, y ensures le'(x, y) || le'(y, x) { assert le(f(x), f(y)) || le(f(y), f(x)); }
    forall x, y, z | le'(x, y) && le'(y, z) ensures le'(x, z) { assert le(f(x), f(y)) && le(f(y), f(z)); }
  }

  /** What a query with terms returns: of distinct matching pages, each with its slug, title
      and context, best first; a matching page is left out only behind twelve better ones.
      The rules leave one answer to each query. */
  lemma ResultsAreTheBest(u: Unicode, collate: (string, string) -> bool, index: seq<Page>, query: string)
    returns (order: seq<nat>)
    requires Sorting.TotalPreorder(collate) && Terms(u, query) != []
    ensures var results, terms := ResultsOf(Top(Ranked(u, collate, index, query))), Terms(u, query);
            && |results| == |order| <= 12
            && (forall k :: k in order ==> k < |index| && MatchesAll(u, index[k], terms))
            && (forall i :: 0 <= i < |order| ==> ResultFor(u, index, terms, order[i], results[i]))
            && (forall i, j :: 0 <= i < j < |order| ==> Better(u, collate, index, terms, order[i], order[j]))
            && (forall k :: 0 <= k < |index| && MatchesAll(u, index[k], terms) && k !in order ==>
                  |order| == 12 && forall i :: 0 <= i < 12 ==> Better(u, collate, index, terms, order[i], k))
  {
    var terms := Terms(u, query);
    var all := PagesInOrder(u, collate, index, terms);
    order := if |all| <= 12 then all else all[..12];
    TopOfMap(HitAt(u, index, terms), all, order);
    forall i | 0 <= i < |order| ensures order[i] == all[i] && all[i] in all {}
    HitsAreResults(u, index, terms, order);
    forall k | k in all && k !in order
      ensures |order| == 12 && forall i :: 0 <= i < 12 ==> Better(u, collate, index, terms, order[i], k)
    {
      var j :| 12 <= j < |all| && all[j] == k;
    }
  }

  lemma TopOfMap(hit: nat -> Hit, all: seq<nat>, order: seq<nat>)
    requires order == if |all| <= 12 then all else all[..12]
    ensures Top(Map(hit, all)) == Map(hit, order)
  {
  }

  lemma HitsAreResults(u: Unicode, index: seq<Page>, terms: seq<string>, order: seq<nat>)
    requires forall i :: 0 <= i < |order| ==> order[i] < |index|
    ensures var results := ResultsOf(Map(HitAt(u, index, terms), order));
            forall i :: 0 <= i < |order| ==> ResultFor(u, index, terms, order[i], results[i])
  {
  }

  predicate ResultFor(u: Unicode, index: seq<Page>, terms: seq<string>, k: nat, r: Result) {
    && k < |index| && r.slug == index[k].slug && r.title == index[k].title
    && r.context == Context(u, index[k], terms)
  }
}
