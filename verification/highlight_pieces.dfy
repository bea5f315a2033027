/** Which rule marks up which text: the highlighter's pieces told by index. */
module HighlightPieces {
  import opened Highlight
  import opened Sequences

  /** Rule r may be used at i, and matches there. */
  predicate Applies(m: Matcher, rules: seq<Rule>, line: string, i: nat, r: nat) {
    r < |rules| && (rules[r].anchored ==> i == 0) && m(r, line, i) > 0
  }

  ghost predicate AppliesFirst(m: Matcher, rules: seq<Rule>, line: string, i: nat, r: nat) {
    Applies(m, rules, line, i, r) && forall q: nat :: q < r ==> !Applies(m, rules, line, i, q)
  }

  lemma {:induction false} FirstRuleIsFirst(m: Matcher, rules: seq<Rule>, line: string, i: nat, left: nat)
    requires left <= |rules|
    ensures var r := FirstRule(m, rules, line, i, left);
            && (r < |rules| ==> Applies(m, rules, line, i, r))
            && forall q: nat :: |rules| - left <= q < r ==> !Applies(m, rules, line, i, q)
  {
    if left > 0 { FirstRuleIsFirst(m, rules, line, i, left - 1); }
  }

  // ----- The indentation -----------------------------------------------------------

  predicate BlankFrom(space: char -> bool, s: string, i: nat, j: nat) {
    i <= j <= |s| && forall k :: i <= k < j ==> space(s[k])
  }

  /** No blank stands at k. */
  predicate Stops(space: char -> bool, s: string, k: nat) {
    k < |s| ==> !space(s[k])
  }

  /** The first k characters are all the leading blanks and, where a dash follows, the dash
      and all the blanks behind it. */
  ghost predicate Indents(space: char -> bool, s: string, k: nat) {
    exists a: nat :: BlankFrom(space, s, 0, a) && Stops(space, s, a) && DashBehind(space, s, a, k)
  }

  predicate DashBehind(space: char -> bool, s: string, a: nat, k: nat) {
    if a < |s| && s[a] == '-' then BlankFrom(space, s, a + 1, k) && Stops(space, s, k) else k == a
  }

  lemma {:induction false} BlanksAreBlank(space: char -> bool, s: string)
    ensures BlankFrom(space, s, 0, Blanks(space, s)) && Stops(space, s, Blanks(space, s))
  {
    if s != "" && space(s[0]) {
      BlanksAreBlank(space, s[1..]);
      assert forall k :: 0 < k < |s| ==> s[k] == s[1..][k - 1];
    }
  }

  lemma LeadIndents(space: char -> bool, s: string)
    ensures Indents(space, s, Lead(space, s))
  {
    var a := Blanks(space, s);
    BlanksAreBlank(space, s);
    var b := if a < |s| && s[a] == '-' then a + 1 else a;
    BlanksAreBlank(space, s[b..]);
    assert forall k :: b <= k < |s| ==> s[k] == s[b..][k - b];
    assert DashBehind(space, s, a, Lead(space, s));
  }

  // ----- The pieces ----------------------------------------------------------------

  /** The markup of a match: in a span of the rule's class, but for the indentation of a
      grouped key, which stays outside. */
  ghost predicate Spanned(space: char -> bool, rule: Rule, p: Piece) {
    exists k: nat :: Kept(space, rule, p.raw, k) && SpannedFrom(rule.tag, p, k)
  }

  ghost predicate Kept(space: char -> bool, rule: Rule, raw: string, k: nat) {
    k <= |raw| && if rule.tag == Key && rule.grouped then Indents(space, raw, k) else k == 0
  }

  ghost predicate SpannedFrom(t: Tag, p: Piece, k: nat) {
    && k <= |p.raw|
    && var name := match t {
         case Comment => "tk-c" case Key => "tk-k" case Text => "tk-s" case Number => "tk-n" case Flag => "tk-f"
       };
       p.html == Esc(p.raw[..k]) + ("<span class=\"" + name + "\">" + Esc(p.raw[k..]) + "</span>")
  }

  lemma SpanIsSpanned(space: char -> bool, rule: Rule, p: Piece)
    requires p.html == Span(space, rule, p.raw)
    ensures Spanned(space, rule, p)
  {
    var k := LeadKept(space, rule, p.raw);
    LeadIndents(space, p.raw);
    Regroup(OpenTag(rule.tag), Esc(p.raw[k..]), "</span>");
    assert Kept(space, rule, p.raw, k) && SpannedFrom(rule.tag, p, k);
  }

  /** The piece at i is the text that the first rule to apply there matches, in a span of
      its class; where no rule applies it is one escaped character. */
  lemma PieceIsExact(m: Matcher, space: char -> bool, rules: seq<Rule>, line: string, i: nat)
    requires StaysInLine(m, line) && i < |line|
    ensures var p := PieceAt(m, MarkerOf(space), rules, line, i);
            && (forall r: nat :: AppliesFirst(m, rules, line, i, r) ==>
                  |p.raw| == m(r, line, i) && p.raw <= line[i..] && Spanned(space, rules[r], p))
            && ((forall r: nat :: !Applies(m, rules, line, i, r)) ==> p == Piece([line[i]], Esc([line[i]])))
  {
    var r := FirstRule(m, rules, line, i, |rules|);
    FirstRuleIsFirst(m, rules, line, i, |rules|);
    if r < |rules| {
      var p := PieceAt(m, MarkerOf(space), rules, line, i);
      assert MarkerOf(space)(rules[r], p.raw) == Span(space, rules[r], p.raw);
      SpanIsSpanned(space, rules[r], p);
      forall q: nat | AppliesFirst(m, rules, line, i, q) ensures q == r {}
    }
  }
}
