/** The string operations of the JavaScript runtime that the docs code uses. */
module Text {

  /** Lower-casing, and what \s and trim take for a space. */
  datatype Unicode = Unicode(lower: string -> string, space: char -> bool)

  function TrimStart(space: char -> bool, s: string): string {
    if s == "" || !space(s[0]) then s else TrimStart(space, s[1..])
  }

  function TrimEnd(space: char -> bool, s: string): string {
    if s == "" || !space(s[|s| - 1]) then s else TrimEnd(space, s[..|s| - 1])
  }

  function Trim(space: char -> bool, s: string): string {
    TrimEnd(space, TrimStart(space, s))
  }

  /** Neither end is a space. */
  predicate Trimmed(space: char -> bool, s: string) {
    s != "" ==> !space(s[0]) && !space(s[|s| - 1])
  }

  lemma {:induction false} EndIsTrimmed(space: char -> bool, s: string)
    requires s != "" ==> !space(s[0])
    ensures Trimmed(space, TrimEnd(space, s))
    decreases |s|
  {
    if s != "" && space(s[|s| - 1]) {
      EndIsTrimmed(space, s[..|s| - 1]);
    }
  }

  lemma {:induction false} StartIsTrimmed(space: char -> bool, s: string)
    ensures var t := TrimStart(space, s); t != "" ==> !space(t[0])
  {
    if s != "" && space(s[0]) {
      StartIsTrimmed(space, s[1..]);
    }
  }

  lemma TrimTrims(space: char -> bool, s: string)
    ensures Trimmed(space, Trim(space, s))
  {
    StartIsTrimmed(space, s);
    EndIsTrimmed(space, TrimStart(space, s));
  }

  /** part occurs in s. */
  predicate Contains(s: string, part: string) {
    StartsWith(s, part) || (s != "" && Contains(s[1..], part))
  }

  predicate StartsWith(s: string, part: string) {
    |part| <= |s| && s[..|part|] == part
  }

  predicate OccursAt(s: string, part: string, i: nat) {
    i + |part| <= |s| && s[i..i + |part|] == part
  }

  /** part stands somewhere in s. */
  ghost predicate Occurs(s: string, part: string) {
    exists i: nat :: OccursAt(s, part, i)
  }

  lemma {:induction false} ContainsIsOccurring(s: string, part: string)
    ensures Contains(s, part) <==> Occurs(s, part)
  {
    if StartsWith(s, part) {
      assert OccursAt(s, part, 0);
    } else if s != "" {
      var rest := s[1..];
      ContainsIsOccurring(rest, part);
      forall i: nat | OccursAt(s, part, i) ensures i > 0 && OccursAt(rest, part, i - 1) {
        if i > 0 { OccursFurther(s, part, i - 1); }
      }
      forall i: nat | OccursAt(rest, part, i) ensures OccursAt(s, part, i + 1) { OccursFurther(s, part, i); }
    }
  }

  lemma OccursFurther(s: string, part: string, i: nat)
    requires s != ""
    ensures OccursAt(s, part, i + 1) <==> OccursAt(s[1..], part, i)
  {
    if i + 1 + |part| <= |s| { assert s[i + 1..i + 1 + |part|] == s[1..][i..i + |part|]; }
  }

  /** Trimming takes spaces off both ends and nothing else. */
  lemma TrimDropsSpaces(space: char -> bool, s: string) returns (before: string, after: string)
    ensures s == before + Trim(space, s) + after
    ensures forall c :: c in before + after ==> space(c)
  {
    before := StartDropsSpaces(space, s);
    after := EndDropsSpaces(space, TrimStart(space, s));
  }

  lemma {:induction false} StartDropsSpaces(space: char -> bool, s: string) returns (before: string)
    ensures s == before + TrimStart(space, s)
    ensures forall c :: c in before ==> space(c)
  {
    before := "";
    if s != "" && space(s[0]) {
      before := StartDropsSpaces(space, s[1..]);
      before := [s[0]] + before;
    }
  }

  lemma {:induction false} EndDropsSpaces(space: char -> bool, s: string) returns (after: string)
    ensures s == TrimEnd(space, s) + after
    ensures forall c :: c in after ==> space(c)
  {
    after := "";
    if s != "" && space(s[|s| - 1]) {
      after := EndDropsSpaces(space, s[..|s| - 1]);
      after := after + [s[|s| - 1]];
    }
  }

  /** split on runs of p; word is the piece being read, inRun whether a run goes on. */
  function Split(p: char -> bool, s: string, word: string, inRun: bool): seq<string> {
    if s == "" then [word]
    else if p(s[0]) then (if inRun then [] else [word]) + Split(p, s[1..], "", true)
    else Split(p, s[1..], word + [s[0]], false)
  }

  /** The pieces of a trimmed text are words: not empty and without separators. */
  lemma {:induction false} SplitGivesWords(p: char -> bool, s: string, word: string, inRun: bool)
    requires s == "" ==> word != ""
    requires s != "" ==> !p(s[|s| - 1]) && (word == "" && p(s[0]) ==> inRun)
    requires forall k :: 0 <= k < |word| ==> !p(word[k])
    ensures var pieces := Split(p, s, word, inRun);
            && pieces != []
            && forall k :: 0 <= k < |pieces| ==>
                 pieces[k] != "" && forall i :: 0 <= i < |pieces[k]| ==> !p(pieces[k][i])
  {
    if s != "" {
      if p(s[0]) {
        SplitGivesWords(p, s[1..], "", true);
      } else {
        SplitGivesWords(p, s[1..], word + [s[0]], false);
      }
    }
  }

  /** Splitting takes one word after the other: what stands before a run of separators
      is a piece of its own, and a text without separators is one piece. */
  lemma SplitTakesWord(p: char -> bool, word: string, run: string, rest: string)
    requires (forall c :: c in word ==> !p(c)) && run != "" && (forall c :: c in run ==> p(c))
    requires rest != "" && !p(rest[0])
    ensures Split(p, word + run + rest, "", false) == [word] + Split(p, rest, "", false)
    ensures Split(p, word, "", false) == [word]
  {
    assert word + run + rest == word + (run + rest) && word + "" == word && "" + word == word;
    SplitReadsWord(p, "", word, run + rest);
    SplitReadsWord(p, "", word, "");
    assert (run + rest)[1..] == run[1..] + rest;
    SplitSkipsRun(p, run[1..], rest);
  }

  lemma {:induction false} SplitReadsWord(p: char -> bool, read: string, word: string, rest: string)
    requires forall c :: c in word ==> !p(c)
    ensures word != "" ==> Split(p, word + rest, read, false) == Split(p, rest, read + word, false)
    ensures word == "" ==> word + rest == rest && read + word == read
    decreases |word|
  {
    if word == "" {
      assert word + rest == rest;
    } else {
      assert (word + rest)[1..] == word[1..] + rest;
      assert read + word == (read + [word[0]]) + word[1..];
      SplitReadsWord(p, read + [word[0]], word[1..], rest);
    }
  }

  lemma {:induction false} SplitSkipsRun(p: char -> bool, run: string, rest: string)
    requires (forall c :: c in run ==> p(c)) && rest != "" && !p(rest[0])
    ensures Split(p, run + rest, "", true) == Split(p, rest, "", false)
  {
    if run == "" {
      assert run + rest == rest;
    } else {
      assert (run + rest)[1..] == run[1..] + rest;
      SplitSkipsRun(p, run[1..], rest);
    }
  }
}
