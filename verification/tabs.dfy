/** The tabs rule of the docs compiler: consecutive fences with a tab label become one
    group of panels. */
module Tabs {

  datatype Token = Plain(id: nat) | Tab(name: string, lang: string, content: string)

  /** A token of the result: one that is kept as it is, or a group of panels. */
  datatype Block = Kept(id: nat) | Group(panels: seq<Token>)

  function TokensOf(b: Block): seq<Token> {
    match b
    case Kept(id) => [Plain(id)]
    case Group(panels) => panels
  }

  function Flatten(blocks: seq<Block>): seq<Token> {
    if blocks == [] then [] else Flatten(blocks[..|blocks| - 1]) + TokensOf(blocks[|blocks| - 1])
  }

  predicate AllTabs(panels: seq<Token>) {
    forall i :: 0 <= i < |panels| ==> panels[i].Tab?
  }

  predicate Proper(b: Block) {
    b.Group? ==> b.panels != [] && AllTabs(b.panels)
  }

  /** Groups hold panels and only panels, and two groups never meet. */
  predicate Grouped(blocks: seq<Block>) {
    && (forall k :: 0 <= k < |blocks| ==> Proper(blocks[k]))
    && (forall k :: 0 < k < |blocks| ==> blocks[k - 1].Kept? || blocks[k].Kept?)
  }

  /** Where a grouped list ends in tabs, its last block holds all of them. */
  lemma LastGroupIsMaximal(blocks: seq<Block>)
    requires Grouped(blocks) && blocks != [] && blocks[|blocks| - 1].Group?
    ensures var front := Flatten(blocks[..|blocks| - 1]); front == [] || front[|front| - 1].Plain?
  {
    var front := blocks[..|blocks| - 1];
    if front != [] {
      assert front[|front| - 1].Kept?;
    }
  }

  predicate EndsPlain(tokens: seq<Token>) {
    tokens == [] || tokens[|tokens| - 1].Plain?
  }

  lemma SameCut(a: seq<Token>, x: seq<Token>, b: seq<Token>, y: seq<Token>)
    requires a + x == b + y && AllTabs(x) && AllTabs(y) && EndsPlain(a) && EndsPlain(b)
    ensures a == b && x == y
  {
    var all := a + x;
    assert forall k :: |a| <= k < |all| ==> all[k] == x[k - |a|];
    assert forall k :: |b| <= k < |all| ==> all[k] == y[k - |b|];
    assert a != [] ==> all[|a| - 1] == a[|a| - 1];
    assert b != [] ==> all[|b| - 1] == b[|b| - 1];
    assert |a| == |b|;
    assert a == all[..|a|] == b && x == all[|a|..] == y;
  }

  /** Two last blocks with the same text before and in them are cut alike. */
  lemma SameBlock(a: seq<Token>, p: Block, b: seq<Token>, q: Block)
    requires a + TokensOf(p) == b + TokensOf(q)
    requires Proper(p) && Proper(q) && (p.Group? ==> EndsPlain(a)) && (q.Group? ==> EndsPlain(b))
    ensures a == b && p == q
  {
    var x, y, all := TokensOf(p), TokensOf(q), a + TokensOf(p);
    assert all[|all| - 1] == x[|x| - 1] == y[|y| - 1];
    if p.Group? {
      SameCut(a, x, b, y);
    } else {
      assert a == all[..|all| - 1] == b;
    }
  }

  lemma SameLast(xs: seq<Block>, ys: seq<Block>)
    requires Grouped(xs) && Grouped(ys) && xs != [] && ys != [] && Flatten(xs) == Flatten(ys)
    ensures Flatten(xs[..|xs| - 1]) == Flatten(ys[..|ys| - 1]) && xs[|xs| - 1] == ys[|ys| - 1]
  {
    var x, y := xs[|xs| - 1], ys[|ys| - 1];
    if x.Group? { LastGroupIsMaximal(xs); }
    if y.Group? { LastGroupIsMaximal(ys); }
    SameBlock(Flatten(xs[..|xs| - 1]), x, Flatten(ys[..|ys| - 1]), y);
  }

  /** There is only one way to group a token list. */
  lemma {:induction false} GroupingIsUnique(xs: seq<Block>, ys: seq<Block>)
    requires Grouped(xs) && Grouped(ys) && Flatten(xs) == Flatten(ys)
    ensures xs == ys
    decreases |xs|
  {
    if xs != [] && ys != [] {
      SameLast(xs, ys);
      GroupingIsUnique(xs[..|xs| - 1], ys[..|ys| - 1]);
      assert xs == xs[..|xs| - 1] + [xs[|xs| - 1]] && ys == ys[..|ys| - 1] + [ys[|ys| - 1]];
    }
  }

  lemma AddBlock(blocks: seq<Block>, b: Block)
    requires Grouped(blocks) && Proper(b) && (blocks != [] ==> blocks[|blocks| - 1].Kept? || b.Kept?)
    ensures Grouped(blocks + [b]) && Flatten(blocks + [b]) == Flatten(blocks) + TokensOf(b)
  {
    AddIsGrouped(blocks, b);
    FlattenOneMore(blocks, b);
  }

  lemma AddIsGrouped(blocks: seq<Block>, b: Block)
    requires Grouped(blocks) && Proper(b) && (blocks != [] ==> blocks[|blocks| - 1].Kept? || b.Kept?)
    ensures Grouped(blocks + [b])
  {
    var all := blocks + [b];
    forall k | 0 <= k < |all| ensures Proper(all[k]) {
      if k < |blocks| { assert all[k] == blocks[k]; }
    }
    forall k | 0 < k < |all| ensures all[k - 1].Kept? || all[k].Kept? {
      assert all[k - 1] == blocks[k - 1];
      if k < |blocks| { assert all[k] == blocks[k]; }
    }
  }

  lemma FlattenOneMore(blocks: seq<Block>, b: Block)
    ensures Flatten(blocks + [b]) == Flatten(blocks) + TokensOf(b)
  {
    assert (blocks + [b])[..|blocks|] == blocks;
  }

  lemma FrontIsGrouped(front: seq<Block>, b: Block)
    requires Grouped(front + [b])
    ensures Grouped(front) && Proper(b) && (front != [] ==> front[|front| - 1].Kept? || b.Kept?)
  {
    var blocks := front + [b];
    assert blocks[|front|] == b;
    assert forall k :: 0 <= k < |front| ==> front[k] == blocks[k];
  }

  lemma GrowLast(front: seq<Block>, panels: seq<Token>, t: Token)
    requires Grouped(front + [Group(panels)]) && t.Tab?
    ensures Grouped(front + [Group(panels + [t])])
    ensures Flatten(front + [Group(panels + [t])]) == Flatten(front + [Group(panels)]) + [t]
  {
    FrontIsGrouped(front, Group(panels));
    AddBlock(front, Group(panels));
    AddBlock(front, Group(panels + [t]));
    assert Flatten(front) + (panels + [t]) == (Flatten(front) + panels) + [t];
  }

  /** The loop of the rule: a group stays open while fences with tabs follow. */
  method GroupTabs(tokens: seq<Token>) returns (out: seq<Block>)
    ensures Grouped(out) && Flatten(out) == tokens
  {
    out := [];
    var grouping := false;
    for i := 0 to |tokens|
      invariant Grouped(out) && Flatten(out) == tokens[..i]
      invariant grouping <==> out != [] && out[|out| - 1].Group?
    {
      var t := tokens[i];
      if t.Plain? {
        out := Push(out, Kept(t.id));
        grouping := false;
      } else if !grouping {
        out := Push(out, Group([t]));
        grouping := true;
      } else {
        out := AddPanel(out, t);
      }
      assert tokens[..i + 1] == tokens[..i] + [t];
    }
    assert tokens[..|tokens|] == tokens;
  }

  method Push(blocks: seq<Block>, b: Block) returns (out: seq<Block>)
    requires Grouped(blocks) && Proper(b) && (blocks != [] ==> blocks[|blocks| - 1].Kept? || b.Kept?)
    ensures Grouped(out) && Flatten(out) == Flatten(blocks) + TokensOf(b)
    ensures out != [] && out[|out| - 1] == b
  {
    AddBlock(blocks, b);
    out := blocks + [b];
  }

  /** The push onto the group that is open: the last block. */
  method AddPanel(blocks: seq<Block>, t: Token) returns (out: seq<Block>)
    requires Grouped(blocks) && blocks != [] && blocks[|blocks| - 1].Group? && t.Tab?
    ensures Grouped(out) && Flatten(out) == Flatten(blocks) + [t]
    ensures out != [] && out[|out| - 1].Group?
  {
    var last := |blocks| - 1;
    out := blocks[last := Group(blocks[last].panels + [t])];
    GrowLast(blocks[..last], blocks[last].panels, t);
    assert blocks == blocks[..last] + [Group(blocks[last].panels)];
    assert out == blocks[..last] + [Group(blocks[last].panels + [t])];
  }
}
