/** The callout rule of the docs compiler: it marks a blockquote that opens with an
    alert marker, and the close token that matches it, by counting depth. */
module Callouts {

  /** A block token: blockquote brackets, inline text with the callout kind its
      marker names (0 for none), and everything else. */
  datatype Token = Open(mark: nat) | Close(mark: nat) | Inline(kind: nat) | Other

  /** The bracket skeleton of a token list, without marks. */
  function Bracket(t: Token): int {
    if t.Open? then 1 else if t.Close? then -1 else 0
  }

  /** Opens minus closes in ts[i..j]. */
  function Depth(ts: seq<Token>, i: nat, j: nat): int
    requires i <= j <= |ts|
    decreases j - i
  {
    if i == j then 0 else Depth(ts, i, j - 1) + Bracket(ts[j - 1])
  }

  /** j closes the blockquote opened at i: depth stays positive until j ends it. */
  ghost predicate Matches(ts: seq<Token>, i: nat, j: nat) {
    && i < j < |ts| && ts[i].Open? && ts[j].Close?
    && Depth(ts, i, j + 1) == 0
    && forall k :: i < k <= j ==> Depth(ts, i, k) > 0
  }

  /** Balanced: no prefix closes more than it opens, and all is closed at the end. */
  ghost predicate Balanced(ts: seq<Token>) {
    && Depth(ts, 0, |ts|) == 0
    && forall k :: 0 <= k <= |ts| ==> Depth(ts, 0, k) >= 0
  }

  /** The kind a blockquote at i is turned into: its third token says so. */
  function KindAt(ts: seq<Token>, i: nat): nat {
    if i + 2 < |ts| && i < |ts| && ts[i].Open? && ts[i + 2].Inline? then ts[i + 2].kind else 0
  }

  lemma {:induction false} DepthSplit(ts: seq<Token>, i: nat, j: nat, k: nat)
    requires i <= j <= k <= |ts|
    ensures Depth(ts, i, k) == Depth(ts, i, j) + Depth(ts, j, k)
    decreases k - j
  {
    if j < k {
      DepthSplit(ts, i, j, k - 1);
    }
  }

  lemma {:induction false} SameDepth(ts: seq<Token>, us: seq<Token>, i: nat, j: nat)
    requires |ts| == |us| && i <= j <= |ts|
    requires forall k :: 0 <= k < |ts| ==> Bracket(ts[k]) == Bracket(us[k])
    ensures Depth(ts, i, j) == Depth(us, i, j)
    decreases j - i
  {
    if i < j {
      SameDepth(ts, us, i, j - 1);
    }
  }

  // ----- Matching brackets ---------------------------------------------------

  /** The scan for the matching close: the first position where depth is back at 0. */
  function CloseFrom(ts: seq<Token>, i: nat, j: nat, depth: int): (r: nat)
    requires i <= j <= |ts|
    decreases |ts| - j
  {
    if j == |ts| then |ts|
    else
      var d := depth + Bracket(ts[j]);
      if ts[j].Close? && d == 0 then j else CloseFrom(ts, i, j + 1, d)
  }

  /** The scan returns the matching close, or runs off the end when there is none. */
  lemma {:induction false} ScanFindsMatch(ts: seq<Token>, i: nat, j: nat, depth: int)
    requires i < |ts| && ts[i].Open? && i <= j <= |ts| && depth == Depth(ts, i, j)
    requires forall k :: i < k <= j ==> Depth(ts, i, k) > 0
    ensures var r := CloseFrom(ts, i, j, depth);
            && (r < |ts| ==> Matches(ts, i, r))
            && (r == |ts| ==> forall k :: i < k <= |ts| ==> Depth(ts, i, k) > 0)
            && r <= |ts|
    decreases |ts| - j
  {
    if j < |ts| {
      var d := depth + Bracket(ts[j]);
      assert d == Depth(ts, i, j + 1);
      if !(ts[j].Close? && d == 0) {
        ScanFindsMatch(ts, i, j + 1, d);
      }
    }
  }

  lemma OneCloseEach(ts: seq<Token>, i: nat, j: nat, k: nat)
    requires Matches(ts, i, j) && Matches(ts, i, k)
    ensures j == k
  {
  }

  lemma OneOpenEach(ts: seq<Token>, i: nat, j: nat, k: nat)
    requires Matches(ts, i, k) && Matches(ts, j, k)
    ensures i == j
  {
    if i < j {
      DepthSplit(ts, i, j, k + 1);
    } else if j < i {
      DepthSplit(ts, j, i, k + 1);
    }
  }

  /** In a balanced list every open has a matching close. */
  lemma EveryOpenCloses(ts: seq<Token>, i: nat) returns (j: nat)
    requires Balanced(ts) && i < |ts| && ts[i].Open?
    ensures Matches(ts, i, j)
  {
    j := CloseFrom(ts, i, i, 0);
    ScanFindsMatch(ts, i, i, 0);
    if j == |ts| {
      DepthSplit(ts, 0, i, |ts|);
    }
  }

  /** In a balanced list every close has a matching open. */
  lemma EveryCloseOpens(ts: seq<Token>, j: nat) returns (i: nat)
    requires Balanced(ts) && j < |ts| && ts[j].Close?
    ensures Matches(ts, i, j)
  {
    // The last position from which everything up to and including j nets to zero.
    DepthSplit(ts, 0, j, j + 1);
    assert Depth(ts, 0, j + 1) >= 0;
    i := FindOpen(ts, j, j + 1, j);
  }

  /** Walks back from j: i is the nearest position where ts[i..j+1] nets to zero. */
  lemma {:induction false} FindOpen(ts: seq<Token>, j: nat, end: nat, p: nat) returns (i: nat)
    requires j < |ts| && end == j + 1 && ts[j].Close? && p <= j
    requires forall k :: p <= k <= j ==> Depth(ts, k, end) < 0
    requires Depth(ts, 0, end) >= 0
    ensures Matches(ts, i, j)
    decreases p
  {
    if p == 0 {
      assert false;
    } else {
      DepthSplit(ts, p - 1, p, j + 1);
      assert Depth(ts, p - 1, p) == Bracket(ts[p - 1]) by { assert Depth(ts, p - 1, p - 1) == 0; }
      if Depth(ts, p - 1, j + 1) == 0 {
        i := p - 1;
        forall k | i < k <= j ensures Depth(ts, i, k) > 0 {
          DepthSplit(ts, i, k, j + 1);
        }
      } else {
        i := FindOpen(ts, j, end, p - 1);
      }
    }
  }

  // ----- What the rule marks -------------------------------------------------

  /** ts is us with marks: an open carries its own kind, a close the kind of the
      open it matches, and unmatched closes none. */
  ghost predicate Marked(us: seq<Token>, ts: seq<Token>) {
    && |ts| == |us|
    && (forall k :: 0 <= k < |us| ==> ts[k] == us[k] || (Bracket(us[k]) != 0 && Bracket(ts[k]) == Bracket(us[k])))
    && (forall i :: 0 <= i < |us| && us[i].Open? ==> ts[i] == Open(KindAt(us, i)))
    && (forall i: nat, j: nat :: Matches(us, i, j) ==> ts[j] == Close(KindAt(us, i)))
    && (forall j :: 0 <= j < |us| && us[j].Close? && (forall i: nat :: !Matches(us, i, j)) ==> ts[j] == Close(0))
  }

  /** In a balanced list a close is marked exactly when the open it matches is,
      and with the same kind. */
  lemma MarksAgree(us: seq<Token>, ts: seq<Token>, j: nat) returns (i: nat)
    requires Balanced(us) && Marked(us, ts) && j < |us| && us[j].Close?
    ensures Matches(us, i, j) && ts[i].Open? && ts[j].Close? && ts[i].mark == ts[j].mark
    ensures forall k: nat :: Matches(us, k, j) ==> k == i
  {
    i := EveryCloseOpens(us, j);
    forall k: nat | Matches(us, k, j) ensures k == i {
      OneOpenEach(us, i, k, j);
    }
  }

  // ----- Rendering -------------------------------------------------------------

  datatype Html = OpenDiv(kind: nat) | CloseDiv | OpenQuote | CloseQuote | Body

  function Render(t: Token): Html {
    match t
    case Open(mark) => if mark == 0 then OpenQuote else OpenDiv(mark)
    case Close(mark) => if mark == 0 then CloseQuote else CloseDiv
    case _ => Body
  }

  function RenderAll(ts: seq<Token>): seq<Html> {
    seq(|ts|, i requires 0 <= i < |ts| => Render(ts[i]))
  }

  /** Well nested: read with a stack of open tags, each closing tag closes the tag
      on top and nothing is left open. true stands for a div. */
  predicate Nests(html: seq<Html>, stack: seq<bool>)
    decreases |html|
  {
    if html == [] then stack == []
    else
      match html[0]
      case OpenDiv(_) => Nests(html[1..], stack + [true])
      case OpenQuote => Nests(html[1..], stack + [false])
      case CloseDiv => stack != [] && stack[|stack| - 1] && Nests(html[1..], stack[..|stack| - 1])
      case CloseQuote => stack != [] && !stack[|stack| - 1] && Nests(html[1..], stack[..|stack| - 1])
      case Body => Nests(html[1..], stack)
  }

  /** The blockquotes open at position p, outermost first. */
  ghost predicate OpenAt(us: seq<Token>, p: nat, open: seq<nat>) {
    && p <= |us|
    && Depth(us, 0, p) == |open|
    && forall t :: 0 <= t < |open| ==>
         && open[t] < p && us[open[t]].Open?
         && Depth(us, open[t], p) == |open| - t
         && forall k :: open[t] < k <= p ==> Depth(us, open[t], k) > 0
  }

  lemma OpensOne(us: seq<Token>, p: nat, open: seq<nat>)
    requires OpenAt(us, p, open) && p < |us| && us[p].Open?
    ensures OpenAt(us, p + 1, open + [p])
  {
    var next := open + [p];
    assert Depth(us, p, p + 1) == 1 by { assert Depth(us, p, p) == 0; }
    forall t | 0 <= t < |next|
      ensures Depth(us, next[t], p + 1) == |next| - t
      ensures forall k :: next[t] < k <= p + 1 ==> Depth(us, next[t], k) > 0
    {
      if t < |open| { assert next[t] == open[t]; }
    }
  }

  lemma ClosesOne(us: seq<Token>, p: nat, open: seq<nat>)
    requires OpenAt(us, p, open) && p < |us| && us[p].Close? && Depth(us, 0, p + 1) >= 0
    ensures open != [] && Matches(us, open[|open| - 1], p) && OpenAt(us, p + 1, open[..|open| - 1])
  {
  }

  lemma {:induction false} RendersNested(us: seq<Token>, ts: seq<Token>, p: nat, open: seq<nat>, stack: seq<bool>)
    requires Balanced(us) && Marked(us, ts) && OpenAt(us, p, open)
    requires |stack| == |open| && forall t :: 0 <= t < |open| ==> stack[t] == (ts[open[t]].mark != 0)
    ensures Nests(RenderAll(ts)[p..], stack)
    decreases |us| - p
  {
    var html := RenderAll(ts)[p..];
    if p < |us| {
      assert html[1..] == RenderAll(ts)[p + 1..];
      assert html[0] == Render(ts[p]);
      if us[p].Open? {
        OpensOne(us, p, open);
        RendersNested(us, ts, p + 1, open + [p], stack + [ts[p].mark != 0]);
      } else if us[p].Close? {
        ClosesOne(us, p, open);
        RendersNested(us, ts, p + 1, open[..|open| - 1], stack[..|stack| - 1]);
      } else {
        RendersNested(us, ts, p + 1, open, stack);
      }
    }
  }

  /** The div and blockquote tags of a balanced, marked list are well nested. */
  lemma CalloutsRenderNested(us: seq<Token>, ts: seq<Token>)
    requires Balanced(us) && Marked(us, ts)
    ensures Nests(RenderAll(ts), [])
  {
    RendersNested(us, ts, 0, [], []);
    assert RenderAll(ts)[0..] == RenderAll(ts);
  }

  /** The third token from i is inline text whose marker names that kind. */
  predicate Names(us: seq<Token>, i: nat, kind: nat) {
    i + 2 < |us| && us[i].Open? && us[i + 2] == Inline(kind)
  }

  ghost predicate EndsCallout(us: seq<Token>, j: nat) {
    exists i: nat, kind: nat :: kind > 0 && Names(us, i, kind) && Matches(us, i, j)
  }

  /** A div is opened for a blockquote exactly where the third token names a kind, and that
      kind; one is closed exactly where that blockquote ends. */
  lemma CalloutsAreNamed(us: seq<Token>, ts: seq<Token>, i: nat, kind: nat)
    requires Balanced(us) && Marked(us, ts) && i < |us| && kind > 0
    ensures us[i].Open? ==> (RenderAll(ts)[i] == OpenDiv(kind) <==> Names(us, i, kind))
    ensures us[i].Open? ==> (RenderAll(ts)[i] == OpenQuote <==> forall n: nat :: n > 0 ==> !Names(us, i, n))
    ensures us[i].Close? ==> (RenderAll(ts)[i] == CloseDiv <==> EndsCallout(us, i))
  {
    if us[i].Open? {
      assert Names(us, i, KindAt(us, i)) || KindAt(us, i) == 0;
    }
    if us[i].Close? {
      var j := MarksAgree(us, ts, i);
      assert Names(us, j, KindAt(us, j)) || KindAt(us, j) == 0;
    }
  }

  // ----- The code --------------------------------------------------------------

  ghost predicate Unmarked(us: seq<Token>) {
    forall k :: 0 <= k < |us| ==> (us[k].Open? ==> us[k].mark == 0) && (us[k].Close? ==> us[k].mark == 0)
  }

  /** The opens before n have been handled. */
  ghost predicate MarkedUpTo(us: seq<Token>, ts: seq<Token>, n: nat) {
    && |ts| == |us| && n <= |us|
    && (forall k :: 0 <= k < |us| ==> ts[k] == us[k] || (Bracket(us[k]) != 0 && Bracket(ts[k]) == Bracket(us[k])))
    && (forall i :: 0 <= i < |us| && us[i].Open? ==> ts[i] == Open(if i < n then KindAt(us, i) else 0))
    && (forall i: nat, j: nat :: i < n && Matches(us, i, j) ==> ts[j] == Close(KindAt(us, i)))
    && (forall j :: 0 <= j < |us| && us[j].Close? && (forall i: nat :: i < n ==> !Matches(us, i, j)) ==>
          ts[j] == Close(0))
  }

  /** The result of handling the open at i: it and its close get its kind. */
  function MarkOne(ts: seq<Token>, i: nat, c: nat, kind: nat): seq<Token>
    requires i < |ts|
  {
    var front := ts[i := Open(kind)];
    if c < |ts| then front[c := Close(kind)] else front
  }

  lemma MarkOneKeeps(us: seq<Token>, ts: seq<Token>, i: nat, c: nat)
    requires MarkedUpTo(us, ts, i) && i < |us| && us[i].Open?
    requires c <= |us| && (c < |us| ==> Matches(us, i, c)) && (c == |us| ==> forall j: nat :: !Matches(us, i, j))
    ensures MarkedUpTo(us, MarkOne(ts, i, c, KindAt(us, i)), i + 1)
  {
    var next := MarkOne(ts, i, c, KindAt(us, i));
    forall h: nat, j: nat | h < i + 1 && Matches(us, h, j) ensures next[j] == Close(KindAt(us, h)) {
      if h == i {
        OneCloseEach(us, i, j, c);
      } else if j == c {
        OneOpenEach(us, h, i, j);
      }
    }
    forall j: nat | 0 <= j < |us| && us[j].Close? && (forall h: nat :: h < i + 1 ==> !Matches(us, h, j))
      ensures next[j] == Close(0) {
      assert j != c by { assert !Matches(us, i, j); }
    }
  }

  lemma SkipKeeps(us: seq<Token>, ts: seq<Token>, i: nat)
    requires MarkedUpTo(us, ts, i) && i < |us| && (us[i].Open? ==> KindAt(us, i) == 0)
    ensures MarkedUpTo(us, ts, i + 1)
  {
    forall j: nat | Matches(us, i, j) ensures ts[j] == Close(KindAt(us, i)) {
      forall h: nat | h < i ensures !Matches(us, h, j) {
        if Matches(us, h, j) { OneOpenEach(us, h, i, j); }
      }
    }
  }

  /** The inner loop: depth counts brackets from i until it is back at zero. */
  method FindClose(a: array<Token>, i: nat) returns (c: nat)
    requires i < a.Length && a[i].Open?
    ensures c <= a.Length
    ensures c < a.Length ==> Matches(a[..], i, c)
    ensures c == a.Length ==> forall j: nat :: !Matches(a[..], i, j)
  {
    ghost var ts := a[..];
    ScanFindsMatch(ts, i, i, 0);
    var depth := 0;
    c := i;
    while c < a.Length
      invariant i <= c <= a.Length
      invariant CloseFrom(ts, i, i, 0) == CloseFrom(ts, i, c, depth)
    {
      if a[c].Open? { depth := depth + 1; }
      if a[c].Close? {
        depth := depth - 1;
        if depth == 0 { return; }
      }
      c := c + 1;
    }
  }

  method MarkCallouts(a: array<Token>)
    requires Unmarked(a[..])
    modifies a
    ensures Marked(old(a[..]), a[..])
  {
    ghost var us := a[..];
    for i := 0 to a.Length
      invariant MarkedUpTo(us, a[..], i)
    {
      ghost var ts := a[..];
      SkipOrMark(us, ts, i);
      if !a[i].Open? { continue; }
      if i + 2 >= a.Length || !a[i + 2].Inline? || a[i + 2].kind == 0 { continue; }
      var kind := a[i + 2].kind;
      a[i] := Open(kind);
      var c := FindClose(a, i);
      SameMatches(us, a[..], i);
      if c < a.Length { a[c] := Close(kind); }
      MarkOneKeeps(us, ts, i, c);
      assert a[..] == MarkOne(ts, i, c, kind);
    }
  }

  lemma SkipOrMark(us: seq<Token>, ts: seq<Token>, i: nat)
    requires MarkedUpTo(us, ts, i) && i < |us|
    ensures us[i].Open? <==> ts[i].Open?
    ensures i + 2 < |us| ==> (us[i + 2].Inline? <==> ts[i + 2].Inline?)
                             && (us[i + 2].Inline? ==> us[i + 2] == ts[i + 2])
    ensures !us[i].Open? || KindAt(us, i) == 0 ==> MarkedUpTo(us, ts, i + 1)
  {
    if !us[i].Open? || KindAt(us, i) == 0 { SkipKeeps(us, ts, i); }
  }

  /** Marks do not change which brackets match. */
  lemma SameMatches(us: seq<Token>, ts: seq<Token>, i: nat)
    requires |us| == |ts| && forall k :: 0 <= k < |us| ==> Bracket(us[k]) == Bracket(ts[k])
    ensures forall j: nat :: Matches(us, i, j) <==> Matches(ts, i, j)
  {
    forall j: nat ensures Matches(us, i, j) <==> Matches(ts, i, j) {
      if i < j < |us| {
        SameDepth(us, ts, i, j + 1);
        forall k | i < k <= j ensures Depth(us, i, k) == Depth(ts, i, k) { SameDepth(us, ts, i, k); }
      }
    }
  }
}
