/** Heading ids of the docs compiler: the slug of the heading text, numbered on
    every repeat. */
module Headings {
  import opened Wrappers
  import opened Decimal
  import opened Text

  predicate IsWord(c: char) {
    'a' <= c <= 'z' || IsDigit(c)
  }

  predicate IsDash(c: char) {
    c == '-'
  }

  predicate Plain(s: string) {
    forall k :: 0 <= k < |s| ==> IsWord(s[k]) || IsDash(s[k])
  }

  /** Lower-casing leaves a-z, digits and dashes alone, and none of these nor the
      backtick is a space. */
  ghost predicate Lawful(u: Unicode) {
    && (forall s: string :: Plain(s) ==> u.lower(s) == s)
    && (forall c: char :: u.space(c) ==> !IsWord(c) && !IsDash(c) && c != '`')
  }

  predicate SingleDashes(s: string) {
    forall k :: 0 < k < |s| ==> !(IsDash(s[k - 1]) && IsDash(s[k]))
  }

  /** The shape every slug has. */
  predicate IsSlug(s: string) {
    s != "" && Plain(s) && SingleDashes(s)
  }

  // ----- Slugs -----------------------------------------------------------------

  /** Removes every character outside p. */
  function Keep(p: char -> bool, s: string): string {
    if s == "" then "" else (if p(s[0]) then [s[0]] else "") + Keep(p, s[1..])
  }

  /** Replaces each run of p by one dash; inRun: the character before s was in p. */
  function Runs(p: char -> bool, s: string, inRun: bool): string {
    if s == "" then ""
    else if p(s[0]) then (if inRun then "" else "-") + Runs(p, s[1..], true)
    else [s[0]] + Runs(p, s[1..], false)
  }

  predicate Allowed(u: Unicode, c: char) {
    IsWord(c) || IsDash(c) || u.space(c)
  }

  /** The text before runs are replaced: lower case, allowed characters, trimmed. */
  function Cleaned(u: Unicode, text: string): string {
    Trim(u.space, Keep(c => Allowed(u, c), Keep(c => c != '`', u.lower(text))))
  }

  function Slugify(u: Unicode, text: string): string {
    var s := Runs(IsDash, Runs(u.space, Cleaned(u, text), false), false);
    if s == "" then "section" else s
  }

  lemma {:induction false} KeepsOnly(p: char -> bool, s: string)
    ensures forall k :: 0 <= k < |Keep(p, s)| ==> p(Keep(p, s)[k])
  {
    if s != "" {
      KeepsOnly(p, s[1..]);
    }
  }

  lemma {:induction false} KeepsAll(p: char -> bool, s: string)
    requires forall k :: 0 <= k < |s| ==> p(s[k])
    ensures Keep(p, s) == s
  {
    if s != "" {
      KeepsAll(p, s[1..]);
    }
  }

  /** Filtering twice keeps what the finer filter keeps. */
  lemma {:induction false} KeepOfKeep(p: char -> bool, q: char -> bool, s: string)
    requires forall c :: p(c) ==> q(c)
    ensures Keep(p, Keep(q, s)) == Keep(p, s)
  {
    if s != "" {
      KeepOfKeep(p, q, s[1..]);
      if q(s[0]) {
        assert ([s[0]] + Keep(q, s[1..]))[1..] == Keep(q, s[1..]);
      } else {
        assert "" + Keep(q, s[1..]) == Keep(q, s[1..]);
        assert "" + Keep(p, s[1..]) == Keep(p, s[1..]);
      }
    }
  }

  lemma {:induction false} KeepOfConcat(p: char -> bool, s: string, t: string)
    ensures Keep(p, s + t) == Keep(p, s) + Keep(p, t)
  {
    if s == "" {
      assert s + t == t;
    } else {
      KeepOfConcat(p, s[1..], t);
      var head := if p(s[0]) then [s[0]] else "";
      assert (s + t)[1..] == s[1..] + t;
      assert head + (Keep(p, s[1..]) + Keep(p, t)) == (head + Keep(p, s[1..])) + Keep(p, t);
    }
  }

  /** Trimming drops only spaces: what p keeps is unchanged, and p finds no space. */
  lemma {:induction false} KeepOfTrims(p: char -> bool, space: char -> bool, s: string)
    requires forall c :: space(c) ==> !p(c)
    ensures Keep(p, TrimStart(space, s)) == Keep(p, s)
    ensures Keep(p, TrimEnd(space, s)) == Keep(p, s)
    decreases |s|
  {
    if s != "" {
      if space(s[0]) {
        KeepOfTrims(p, space, s[1..]);
        assert "" + Keep(p, s[1..]) == Keep(p, s[1..]);
      }
      if space(s[|s| - 1]) {
        var front, last := s[..|s| - 1], [s[|s| - 1]];
        KeepOfTrims(p, space, front);
        KeepOfConcat(p, front, last);
        assert front + last == s;
        assert Keep(p, last) == "" by { assert last[1..] == ""; }
        assert Keep(p, front) + "" == Keep(p, front);
      }
    }
  }

  lemma {:induction false} TrimsStayWithin(q: char -> bool, space: char -> bool, s: string)
    requires forall k :: 0 <= k < |s| ==> q(s[k])
    ensures forall k :: 0 <= k < |TrimStart(space, s)| ==> q(TrimStart(space, s)[k])
    ensures forall k :: 0 <= k < |TrimEnd(space, s)| ==> q(TrimEnd(space, s)[k])
    decreases |s|
  {
    if s != "" {
      TrimsStayWithin(q, space, s[1..]);
      TrimsStayWithin(q, space, s[..|s| - 1]);
    }
  }

  lemma {:induction false} NothingToTrim(space: char -> bool, s: string)
    requires forall k :: 0 <= k < |s| ==> !space(s[k])
    ensures TrimStart(space, s) == s && TrimEnd(space, s) == s
  {
  }

  /** Replacing runs leaves only dashes and characters outside p. */
  lemma {:induction false} RunsStayWithin(p: char -> bool, s: string, inRun: bool, q: char -> bool)
    requires forall k :: 0 <= k < |s| ==> p(s[k]) || q(s[k])
    requires q('-')
    ensures forall k :: 0 <= k < |Runs(p, s, inRun)| ==> q(Runs(p, s, inRun)[k])
  {
    if s != "" {
      RunsStayWithin(p, s[1..], p(s[0]), q);
    }
  }

  lemma {:induction false} RunsOfNone(p: char -> bool, s: string, inRun: bool)
    requires forall k :: 0 <= k < |s| ==> !p(s[k])
    ensures Runs(p, s, inRun) == s
  {
    if s != "" {
      RunsOfNone(p, s[1..], false);
    }
  }

  lemma {:induction false} DashRunsAreSingle(s: string, inRun: bool)
    ensures var r := Runs(IsDash, s, inRun);
            SingleDashes(r) && (inRun && r != "" ==> !IsDash(r[0]))
  {
    if s != "" {
      DashRunsAreSingle(s[1..], IsDash(s[0]));
    }
  }

  lemma {:induction false} SingleDashesStay(s: string, inRun: bool)
    requires SingleDashes(s) && (inRun && s != "" ==> !IsDash(s[0]))
    ensures Runs(IsDash, s, inRun) == s
  {
    if s != "" {
      SingleDashesStay(s[1..], IsDash(s[0]));
    }
  }

  function Separator(space: char -> bool): char -> bool {
    c => space(c) || IsDash(c)
  }

  /** The two replacements, spaces then dashes, are one over both. */
  lemma {:induction false} TwoPassesAreOne(space: char -> bool, s: string, inSpace: bool, inRun: bool)
    requires forall c :: space(c) ==> !IsDash(c)
    requires inSpace ==> inRun
    ensures Runs(IsDash, Runs(space, s, inSpace), inRun) == Runs(Separator(space), s, inRun)
  {
    if s != "" {
      var rest := Runs(space, s[1..], space(s[0]));
      TwoPassesAreOne(space, s[1..], space(s[0]), space(s[0]) || IsDash(s[0]));
      assert "" + rest == rest;
      assert ("-" + rest)[1..] == rest;
      assert ([s[0]] + rest)[1..] == rest;
    }
  }

  function Flush(word: string): seq<string> {
    if word == "" then [] else [word]
  }

  /** The words of s, cut at separators; word: the characters read of the current one. */
  function Words(sep: char -> bool, s: string, word: string): seq<string> {
    if s == "" then Flush(word)
    else if sep(s[0]) then Flush(word) + Words(sep, s[1..], "")
    else Words(sep, s[1..], word + [s[0]])
  }

  lemma {:induction false} WordsOfRuns(sep: char -> bool, s: string, inRun: bool, word: string)
    requires sep('-') && (inRun ==> word == "")
    ensures Words(IsDash, Runs(sep, s, inRun), word) == Words(sep, s, word)
  {
    if s != "" {
      var rest := Runs(sep, s[1..], sep(s[0]));
      WordsOfRuns(sep, s[1..], sep(s[0]), if sep(s[0]) then "" else word + [s[0]]);
      assert "" + rest == rest;
      assert ("-" + rest)[1..] == rest;
      assert ([s[0]] + rest)[1..] == rest;
    }
  }

  lemma {:induction false} WordsOfTrimStart(sep: char -> bool, space: char -> bool, s: string)
    requires forall c :: space(c) ==> sep(c)
    ensures Words(sep, TrimStart(space, s), "") == Words(sep, s, "")
  {
    if s != "" && space(s[0]) {
      WordsOfTrimStart(sep, space, s[1..]);
    }
  }

  lemma {:induction false} WordsDropLast(sep: char -> bool, s: string, word: string)
    requires s != "" && sep(s[|s| - 1])
    ensures Words(sep, s, word) == Words(sep, s[..|s| - 1], word)
  {
    if |s| == 1 {
      assert Words(sep, s[1..], "") == [];
    } else {
      assert s[1..][..|s| - 2] == s[..|s| - 1][1..];
      WordsDropLast(sep, s[1..], if sep(s[0]) then "" else word + [s[0]]);
    }
  }

  lemma {:induction false} WordsOfTrimEnd(sep: char -> bool, space: char -> bool, s: string)
    requires forall c :: space(c) ==> sep(c)
    ensures Words(sep, TrimEnd(space, s), "") == Words(sep, s, "")
    decreases |s|
  {
    if s != "" && space(s[|s| - 1]) {
      WordsDropLast(sep, s, "");
      WordsOfTrimEnd(sep, space, s[..|s| - 1]);
    }
  }

  /** Slugs have the slug shape. */
  lemma SlugsAreSlugs(u: Unicode, text: string)
    requires Lawful(u)
    ensures IsSlug(Slugify(u, text))
  {
    var kept := Keep(c => Allowed(u, c), Keep(c => c != '`', u.lower(text)));
    KeepsOnly(c => Allowed(u, c), Keep(c => c != '`', u.lower(text)));
    TrimsStayWithin(c => Allowed(u, c), u.space, kept);
    TrimsStayWithin(c => Allowed(u, c), u.space, TrimStart(u.space, kept));
    var clean := Cleaned(u, text);
    RunsStayWithin(u.space, clean, false, c => IsWord(c) || IsDash(c));
    var spaced := Runs(u.space, clean, false);
    RunsStayWithin(IsDash, spaced, false, c => IsWord(c) || IsDash(c));
    DashRunsAreSingle(spaced, false);
  }

  /** The texts that are their own slug are exactly the ones with the slug shape. */
  lemma SlugsAreTheFixedPoints(u: Unicode, s: string)
    requires Lawful(u)
    ensures Slugify(u, s) == s <==> IsSlug(s)
  {
    SlugsAreSlugs(u, s);
    if IsSlug(s) {
      KeepsAll(c => c != '`', s);
      KeepsAll(c => Allowed(u, c), s);
      NothingToTrim(u.space, s);
      RunsOfNone(u.space, s, false);
      SingleDashesStay(s, false);
    }
  }

  lemma SlugifyIsIdempotent(u: Unicode, text: string)
    requires Lawful(u)
    ensures Slugify(u, Slugify(u, text)) == Slugify(u, text)
  {
    SlugsAreSlugs(u, text);
    SlugsAreTheFixedPoints(u, Slugify(u, text));
  }

  /** The words of a slug, cut at dashes, are the words of the lower-cased text, cut
      at spaces and dashes with other characters removed. The fallback is used exactly
      when the text has nothing to make a slug of. */
  lemma SlugKeepsWords(u: Unicode, text: string)
    requires Lawful(u)
    ensures if Keep(c => IsWord(c) || IsDash(c), u.lower(text)) == "" then Slugify(u, text) == "section"
            else Words(IsDash, Slugify(u, text), "")
                 == Words(Separator(u.space), Keep(c => Allowed(u, c), u.lower(text)), "")
  {
    var sep, clean := Separator(u.space), Cleaned(u, text);
    var kept := Keep(c => Allowed(u, c), u.lower(text));
    KeepOfKeep(c => Allowed(u, c), c => c != '`', u.lower(text));
    WordsOfTrimStart(sep, u.space, kept);
    WordsOfTrimEnd(sep, u.space, TrimStart(u.space, kept));
    TwoPassesAreOne(u.space, clean, false, false);
    WordsOfRuns(sep, clean, false, "");
    CleanedIsEmpty(u, text);
  }

  lemma CleanedKeeps(u: Unicode, text: string, p: char -> bool)
    requires Lawful(u) && forall c :: p(c) ==> IsWord(c) || IsDash(c)
    ensures Keep(p, Cleaned(u, text)) == Keep(p, u.lower(text))
  {
    var noTicks := Keep(c => c != '`', u.lower(text));
    var kept := Keep(c => Allowed(u, c), noTicks);
    KeepOfKeep(p, c => c != '`', u.lower(text));
    KeepOfKeep(p, c => Allowed(u, c), noTicks);
    KeepOfTrims(p, u.space, kept);
    KeepOfTrims(p, u.space, TrimStart(u.space, kept));
  }

  /** Nothing is left after cleaning exactly when the text has no a-z, digit or dash. */
  lemma CleanedIsEmpty(u: Unicode, text: string)
    requires Lawful(u)
    ensures Cleaned(u, text) == "" <==> Keep(c => IsWord(c) || IsDash(c), u.lower(text)) == ""
  {
    var plain: char -> bool := c => IsWord(c) || IsDash(c);
    CleanedKeeps(u, text, plain);
    var clean := Cleaned(u, text);
    if clean != "" {
      var noTicks := Keep(c => c != '`', u.lower(text));
      var kept := Keep(c => Allowed(u, c), noTicks);
      KeepsOnly(c => Allowed(u, c), noTicks);
      TrimsStayWithin(c => Allowed(u, c), u.space, kept);
      TrimsStayWithin(c => Allowed(u, c), u.space, TrimStart(u.space, kept));
      TrimTrims(u.space, kept);
      var front, last := clean[..|clean| - 1], [clean[|clean| - 1]];
      KeepOfConcat(plain, front, last);
      assert front + last == clean;
    }
  }

  // ----- Ids -------------------------------------------------------------------

  function Count(slugs: seq<string>, b: string): nat {
    if slugs == [] then 0
    else Count(slugs[..|slugs| - 1], b) + if slugs[|slugs| - 1] == b then 1 else 0
  }

  function Numbered(b: string, n: nat): string {
    b + "-" + Digits(n)
  }

  /** The id of the heading at i, from the slugs of it and of the earlier headings. */
  function IdAt(slugs: seq<string>, i: nat): string
    requires i < |slugs|
  {
    var n := Count(slugs[..i], slugs[i]);
    if n == 0 then slugs[i] else Numbered(slugs[i], n)
  }

  ghost predicate IdsDistinct(slugs: seq<string>) {
    forall i, j :: 0 <= i < j < |slugs| ==> IdAt(slugs, i) != IdAt(slugs, j)
  }

  /** A repeat at i is given the id that the heading at j has as its slug. */
  ghost predicate Clashes(slugs: seq<string>, i: nat, j: nat) {
    && i < |slugs| && j < |slugs|
    && var n := Count(slugs[..i], slugs[i]);
       n > 0 && slugs[j] == Numbered(slugs[i], n)
  }

  lemma NumberedIsInjective(b: string, n: nat, c: string, m: nat)
    requires Numbered(b, n) == Numbered(c, m)
    ensures b == c && n == m
  {
    var s := Numbered(b, n);
    assert forall k :: |b| < k < |s| ==> s[k] == Digits(n)[k - |b| - 1];
    assert forall k :: |c| < k < |s| ==> s[k] == Digits(m)[k - |c| - 1];
    assert !IsDigit(s[|b|]) && !IsDigit(s[|c|]);
    assert b == s[..|b|] == c;
    assert Digits(n) == s[|b| + 1..] == Digits(m);
    ValueInvertsDigits(n);
    ValueInvertsDigits(m);
  }

  lemma {:induction false} CountGrows(slugs: seq<string>, i: nat, j: nat)
    requires i < j <= |slugs|
    ensures Count(slugs[..i], slugs[i]) < Count(slugs[..j], slugs[i])
    decreases j
  {
    assert slugs[..j][..j - 1] == slugs[..j - 1];
    if i < j - 1 {
      CountGrows(slugs, i, j - 1);
    }
  }

  /** A slug seen before has a first occurrence. */
  lemma {:induction false} FirstOccurrence(slugs: seq<string>, j: nat) returns (k: nat)
    requires j < |slugs|
    ensures k <= j && slugs[k] == slugs[j] && Count(slugs[..k], slugs[k]) == 0
    decreases j
  {
    k := j;
    if Count(slugs[..j], slugs[j]) > 0 {
      var h := Occurrence(slugs[..j], slugs[j]);
      k := FirstOccurrence(slugs, h);
    }
  }

  lemma {:induction false} Occurrence(slugs: seq<string>, b: string) returns (h: nat)
    requires Count(slugs, b) > 0
    ensures h < |slugs| && slugs[h] == b
  {
    h := |slugs| - 1;
    if slugs[h] != b {
      h := Occurrence(slugs[..h], b);
    }
  }

  lemma SameIdClashes(slugs: seq<string>, i: nat, j: nat)
    requires i < j < |slugs| && IdAt(slugs, i) == IdAt(slugs, j)
    ensures Clashes(slugs, i, j) || Clashes(slugs, j, i)
  {
    var n, m := Count(slugs[..i], slugs[i]), Count(slugs[..j], slugs[j]);
    if slugs[i] == slugs[j] {
      CountGrows(slugs, i, j);
    }
    if n > 0 && m > 0 {
      NumberedIsInjective(slugs[i], n, slugs[j], m);
    }
  }

  lemma ClashCollides(slugs: seq<string>, i: nat, j: nat) returns (k: nat)
    requires Clashes(slugs, i, j)
    ensures k < |slugs| && k != i && IdAt(slugs, k) == IdAt(slugs, i)
  {
    k := FirstOccurrence(slugs, j);
  }

  /** The generated ids are pairwise distinct exactly when no repeat is numbered into
      the slug of another heading. */
  lemma IdsDistinctIffNoClash(slugs: seq<string>)
    ensures IdsDistinct(slugs) <==> forall i: nat, j: nat :: !Clashes(slugs, i, j)
  {
    if !IdsDistinct(slugs) {
      var i, j :| 0 <= i < j < |slugs| && IdAt(slugs, i) == IdAt(slugs, j);
      SameIdClashes(slugs, i, j);
    } else if exists i: nat, j: nat :: Clashes(slugs, i, j) {
      var i: nat, j: nat :| Clashes(slugs, i, j);
      var k := ClashCollides(slugs, i, j);
    }
  }

  /** Enough for distinct ids: no slug is another slug, a dash and a number. */
  lemma PlainSlugsGetDistinctIds(slugs: seq<string>)
    requires forall i: nat, j: nat, n: nat :: i < |slugs| && j < |slugs| ==> slugs[j] != Numbered(slugs[i], n)
    ensures IdsDistinct(slugs)
  {
    IdsDistinctIffNoClash(slugs);
  }

  // ----- The loop of compileDoc ------------------------------------------------

  /** A token: a heading with the text of its inline children and its id attribute. */
  datatype Token = Heading(level: nat, text: string, id: string) | Other

  datatype Outline = Entry(id: string, text: string, depth: nat)

  function SlugsOf(u: Unicode, tokens: seq<Token>): seq<string> {
    if tokens == [] then []
    else
      var rest, last := tokens[..|tokens| - 1], tokens[|tokens| - 1];
      SlugsOf(u, rest) + if last.Heading? then [Slugify(u, last.text)] else []
  }

  /** The tokens with their ids set, each from the slugs up to it. */
  function WithIds(u: Unicode, tokens: seq<Token>): (r: seq<Token>)
    ensures |r| == |tokens|
  {
    if tokens == [] then []
    else
      var rest, last := tokens[..|tokens| - 1], tokens[|tokens| - 1];
      var slugs := SlugsOf(u, rest);
      WithIds(u, rest) + [
        if last.Heading? then last.(id := IdAt(slugs + [Slugify(u, last.text)], |slugs|)) else last]
  }

  function IdsOf(tokens: seq<Token>): seq<string> {
    if tokens == [] then []
    else
      var rest, last := tokens[..|tokens| - 1], tokens[|tokens| - 1];
      IdsOf(rest) + if last.Heading? then [last.id] else []
  }

  /** The outline lists the headings of level two and three. */
  function OutlineOf(tokens: seq<Token>): seq<Outline> {
    if tokens == [] then []
    else
      var rest, last := tokens[..|tokens| - 1], tokens[|tokens| - 1];
      OutlineOf(rest) +
      if last.Heading? && (last.level == 2 || last.level == 3) then [Entry(last.id, last.text, last.level)] else []
  }

  lemma {:induction false} OutlineAppend(a: seq<Token>, b: seq<Token>)
    ensures OutlineOf(a + b) == OutlineOf(a) + OutlineOf(b)
  {
    if b == [] {
      assert a + b == a;
    } else {
      assert (a + b)[..|a + b| - 1] == a + b[..|b| - 1];
      OutlineAppend(a, b[..|b| - 1]);
    }
  }

  /** The outline has, token by token, an entry for a heading of level two or three and
      nothing for any other. */
  lemma OutlineIsExact(a: seq<Token>, t: Token, b: seq<Token>)
    ensures OutlineOf(a + [t] + b)
         == OutlineOf(a)
            + (if t.Heading? && 2 <= t.level <= 3 then [Entry(t.id, t.text, t.level)] else [])
            + OutlineOf(b)
  {
    OutlineAppend(a + [t], b);
    OutlineAppend(a, [t]);
    assert [t][..0] == [] && OutlineOf([]) == [];
  }

  /** Setting ids gives heading number i the id the specification gives it. */
  lemma {:induction false} IdsAreAsSpecified(u: Unicode, tokens: seq<Token>)
    ensures var slugs, ids := SlugsOf(u, tokens), IdsOf(WithIds(u, tokens));
            |ids| == |slugs| && forall i :: 0 <= i < |slugs| ==> ids[i] == IdAt(slugs, i)
  {
    if tokens != [] {
      var rest, last := tokens[..|tokens| - 1], tokens[|tokens| - 1];
      IdsAreAsSpecified(u, rest);
      var slugs, before := SlugsOf(u, tokens), SlugsOf(u, rest);
      assert WithIds(u, tokens)[..|tokens| - 1] == WithIds(u, rest);
      forall i | 0 <= i < |before| ensures IdAt(slugs, i) == IdAt(before, i) {
        assert slugs[..i] == before[..i];
      }
    }
  }

  /** The headings of a page have distinct ids exactly when no repeated heading is
      numbered into the slug of another. */
  lemma HeadingIdsDistinctIff(u: Unicode, tokens: seq<Token>)
    ensures var ids := IdsOf(WithIds(u, tokens));
            (forall i, j :: 0 <= i < j < |ids| ==> ids[i] != ids[j]) <==>
            (forall i: nat, j: nat :: !Clashes(SlugsOf(u, tokens), i, j))
  {
    IdsAreAsSpecified(u, tokens);
    IdsDistinctIffNoClash(SlugsOf(u, tokens));
    var slugs, ids := SlugsOf(u, tokens), IdsOf(WithIds(u, tokens));
    assert (forall i, j :: 0 <= i < j < |ids| ==> ids[i] != ids[j]) <==> IdsDistinct(slugs);
  }

  lemma ThreeIds(u: Unicode, a: Token, b: Token, c: Token)
    requires a.Heading? && b.Heading? && c.Heading?
    ensures var slugs := [Slugify(u, a.text), Slugify(u, b.text), Slugify(u, c.text)];
            IdsOf(WithIds(u, [a, b, c])) == [IdAt(slugs, 0), IdAt(slugs, 1), IdAt(slugs, 2)]
  {
    IdsAreAsSpecified(u, [a, b, c]);
    assert [a, b, c][..2] == [a, b] && [a, b][..1] == [a] && [a][..0] == [];
    assert SlugsOf(u, [a]) == [Slugify(u, a.text)];
    assert SlugsOf(u, [a, b]) == [Slugify(u, a.text), Slugify(u, b.text)];
    assert SlugsOf(u, [a, b, c]) == [Slugify(u, a.text), Slugify(u, b.text), Slugify(u, c.text)];
  }

  lemma RepeatIds(foo: string, fooOne: string)
    requires fooOne == Numbered(foo, 1)
    ensures var slugs := [foo, foo, fooOne]; IdAt(slugs, 0) == foo && IdAt(slugs, 1) == IdAt(slugs, 2) == fooOne
  {
    var slugs := [foo, foo, fooOne];
    assert slugs[..0] == [] && slugs[..1] == [foo] && slugs[..2] == [foo, foo];
    assert [foo][..0] == [] && [foo, foo][..1] == [foo];
    assert |foo| != |fooOne|;
    assert Count([foo], foo) == 1 && Count([foo], fooOne) == 0 && Count([foo, foo], fooOne) == 0;
  }

  lemma NumberedIsSlug(s: string)
    requires IsSlug(s) && !IsDash(s[|s| - 1])
    ensures IsSlug(Numbered(s, 1))
  {
    var t := Numbered(s, 1);
    assert Digits(1) == "1" && t == s + "-1";
    assert forall k :: 0 <= k < |s| ==> t[k] == s[k];
  }

  /** They are not always distinct: "Foo", "Foo" and "Foo 1" collide, and so does every
      heading that comes twice with the one that has its slug, a dash and a one. */
  lemma FooFooFooOneCollides(u: Unicode, foo: string)
    requires Lawful(u) && IsSlug(foo) && !IsDash(foo[|foo| - 1])
    ensures var fooOne := foo + "-1";
            IdsOf(WithIds(u, [Heading(2, foo, ""), Heading(2, foo, ""), Heading(2, fooOne, "")]))
            == [foo, fooOne, fooOne]
  {
    var fooOne := foo + "-1";
    assert fooOne == Numbered(foo, 1) by { assert Digits(1) == "1"; }
    NumberedIsSlug(foo);
    SlugsAreTheFixedPoints(u, foo);
    SlugsAreTheFixedPoints(u, fooOne);
    ThreeIds(u, Heading(2, foo, ""), Heading(2, foo, ""), Heading(2, fooOne, ""));
    RepeatIds(foo, fooOne);
  }

  /** used maps each slug seen so far to how often. */
  ghost predicate Tally(used: map<string, nat>, slugs: seq<string>) {
    forall b: string :: Count(slugs, b) == if b in used then used[b] else 0
  }

  lemma TallyOne(used: map<string, nat>, slugs: seq<string>, b: string)
    requires Tally(used, slugs)
    ensures Tally(used[b := Count(slugs, b) + 1], slugs + [b])
  {
    assert (slugs + [b])[..|slugs|] == slugs;
  }

  /** Numbers one heading: its slug, suffixed when that slug was seen before. */
  method Number(u: Unicode, used: map<string, nat>, text: string, ghost slugs: seq<string>)
    returns (id: string, next: map<string, nat>)
    requires Tally(used, slugs)
    ensures var now := slugs + [Slugify(u, text)]; id == IdAt(now, |slugs|) && Tally(next, now)
  {
    id := Slugify(u, text);
    var n := if id in used then used[id] else 0;
    TallyOne(used, slugs, id);
    assert (slugs + [id])[..|slugs|] == slugs;
    next := used[id := n + 1];
    if n > 0 { id := id + "-" + Digits(n); }
  }

  /** The state of the loop before token i. */
  ghost predicate SetUpTo(u: Unicode, was: seq<Token>, now: seq<Token>, i: nat,
                          used: map<string, nat>, headings: seq<Outline>) {
    && i <= |was| == |now|
    && now[i..] == was[i..]
    && now[..i] == WithIds(u, was[..i])
    && headings == OutlineOf(now[..i])
    && Tally(used, SlugsOf(u, was[..i]))
  }

  lemma SkipOne(u: Unicode, was: seq<Token>, now: seq<Token>, i: nat,
                used: map<string, nat>, headings: seq<Outline>)
    requires SetUpTo(u, was, now, i, used, headings) && i < |was| && was[i].Other?
    ensures SetUpTo(u, was, now, i + 1, used, headings)
  {
    assert was[..i + 1][..i] == was[..i] && now[..i + 1][..i] == now[..i];
    assert now[i] == now[i..][0];
    assert SlugsOf(u, was[..i]) + [] == SlugsOf(u, was[..i]);
    assert headings + [] == headings;
  }

  lemma SetOne(u: Unicode, was: seq<Token>, now: seq<Token>, i: nat, used: map<string, nat>,
               headings: seq<Outline>, id: string, next: map<string, nat>)
    requires SetUpTo(u, was, now, i, used, headings) && i < |was| && was[i].Heading?
    requires var slugs := SlugsOf(u, was[..i]) + [Slugify(u, was[i].text)];
             id == IdAt(slugs, |slugs| - 1) && Tally(next, slugs)
    ensures var t := was[i];
            SetUpTo(u, was, now[i := t.(id := id)], i + 1, next,
                    if t.level == 2 || t.level == 3 then headings + [Entry(id, t.text, t.level)] else headings)
  {
    var after := now[i := was[i].(id := id)];
    assert was[..i + 1][..i] == was[..i] && after[..i + 1][..i] == now[..i];
    assert after[i + 1..] == now[i..][1..] == was[i + 1..];
    assert headings + [] == headings;
  }

  /** Sets the heading ids in place and lists the outline; None where the source
      throws, on a level-1 heading. */
  method SetHeadingIds(u: Unicode, tokens: array<Token>) returns (headings: Option<seq<Outline>>)
    modifies tokens
    ensures headings == None <==>
      exists k :: 0 <= k < tokens.Length && old(tokens[k]).Heading? && old(tokens[k]).level == 1
    ensures headings.Some? ==> tokens[..] == WithIds(u, old(tokens[..])) && headings.value == OutlineOf(tokens[..])
  {
    ghost var was := tokens[..];
    var outline: seq<Outline> := [];
    var used: map<string, nat> := map[];
    for i := 0 to tokens.Length
      invariant SetUpTo(u, was, tokens[..], i, used, outline)
      invariant forall k :: 0 <= k < i && was[k].Heading? ==> was[k].level != 1
    {
      ghost var now := tokens[..];
      assert tokens[i] == now[i..][0] == was[i];
      if tokens[i].Other? {
        SkipOne(u, was, now, i, used, outline);
        continue;
      }
      var text, level := tokens[i].text, tokens[i].level;
      var id, next := Number(u, used, text, SlugsOf(u, was[..i]));
      SetOne(u, was, now, i, used, outline, id, next);
      used := next;
      tokens[i] := tokens[i].(id := id);
      assert tokens[..] == now[i := was[i].(id := id)];
      if level == 2 || level == 3 { outline := outline + [Entry(id, text, level)]; }
      if level == 1 { return None; }
    }
    assert was[..tokens.Length] == was && tokens[..tokens.Length] == tokens[..];
    headings := Some(outline);
  }
}
