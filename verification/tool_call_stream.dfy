/** One streamed model reply: server-sent lines folded into text, usage and
    tool calls, and the tool calls put together again from their fragments. */
module ToolCallStream {
  import opened AgentTypes
  import opened Sequences
  import Sorting
  import opened Wrappers

  /** One tool-call delta; the index says which parallel call it extends. */
  datatype Fragment = Fragment(index: int, id: string, name: string, args: string)

  /** The call under construction at one index. */
  datatype Partial = Partial(id: string, name: string, args: string)

  const EMPTY := Partial("", "", "")

  type Accumulator = map<int, Partial>

  /** A decoded line. An error message of "" stands for no error object. */
  datatype Line =
    | Blank
    | NotData
    | Malformed
    | Sentinel
    | Chunk(error: string, usage: Option<Usage>, hasChoice: bool, content: string, fragments: seq<Fragment>)

  datatype Failure = Because(text: string) | Cancelled

  /** The provider's answer to one request: refused outright, or a stream of
      lines that ends at end of file (None) or breaks off. */
  datatype Reply = Refused(failure: Failure) | Streamed(lines: seq<Line>, broken: Option<Failure>)

  datatype StreamState = StreamState(out: seq<Event>, acc: Accumulator, usage: Option<Usage>)

  datatype Answer = Interrupted(out: seq<Event>, failure: Failure)
                  | Answered(out: seq<Event>, calls: seq<ModelCall>, usage: Option<Usage>)

  // ----- Folding fragments -------------------------------------------------

  function Extend(p: Partial, f: Fragment): Partial {
    Partial(if f.id != "" then f.id else p.id, if f.name != "" then f.name else p.name, p.args + f.args)
  }

  function At(acc: Accumulator, i: int): Partial {
    if i in acc then acc[i] else EMPTY
  }

  function Fold(acc: Accumulator, f: Fragment): Accumulator {
    acc[f.index := Extend(At(acc, f.index), f)]
  }

  function FoldAll(acc: Accumulator, fs: seq<Fragment>): Accumulator {
    if fs == [] then acc else Fold(FoldAll(acc, fs[..|fs| - 1]), fs[|fs| - 1])
  }

  /** The lines before the sentinel, all of them when there is none. */
  function Read(lines: seq<Line>): seq<Line> {
    if lines == [] || lines[0].Sentinel? then [] else [lines[0]] + Read(lines[1..])
  }

  function TextOf(line: Line): seq<Event> {
    if !line.Chunk? then []
    else if line.error != "" then [Error(line.error)]
    else if line.hasChoice && line.content != "" then [Text(line.content)]
    else []
  }

  function FragmentsOf(line: Line): seq<Fragment> {
    if line.Chunk? && line.error == "" && line.hasChoice then line.fragments else []
  }

  function UsageOf(line: Line): Option<Usage> {
    if line.Chunk? && line.error == "" then line.usage else None
  }

  function AllText(lines: seq<Line>): seq<Event> {
    if lines == [] then [] else AllText(lines[..|lines| - 1]) + TextOf(lines[|lines| - 1])
  }

  function AllFragments(lines: seq<Line>): seq<Fragment> {
    if lines == [] then [] else AllFragments(lines[..|lines| - 1]) + FragmentsOf(lines[|lines| - 1])
  }

  /** The last usage frame, wherever it was attached. */
  function LastUsage(lines: seq<Line>): Option<Usage> {
    if lines == [] then None
    else if UsageOf(lines[|lines| - 1]).Some? then UsageOf(lines[|lines| - 1])
    else LastUsage(lines[..|lines| - 1])
  }

  /** The usage kept is that of the last chunk without an error that carries one. */
  lemma {:induction false} LastUsageIsLast(lines: seq<Line>)
    ensures LastUsage(lines).None? <==>
      forall i :: 0 <= i < |lines| && lines[i].Chunk? && lines[i].error == "" ==> lines[i].usage.None?
    ensures LastUsage(lines).Some? ==>
      exists i :: 0 <= i < |lines| && lines[i].Chunk? && lines[i].error == "" && lines[i].usage == LastUsage(lines)
                  && forall j :: i < j < |lines| && lines[j].Chunk? && lines[j].error == "" ==> lines[j].usage.None?
  {
    if lines != [] {
      LastUsageIsLast(lines[..|lines| - 1]);
      var last := lines[|lines| - 1];
      if UsageOf(last).Some? { assert lines[|lines| - 1].usage == LastUsage(lines); }
    }
  }

  /** What reading these lines leaves behind: text, fragments and usage are
      three independent projections of the lines. */
  function Summary(lines: seq<Line>): StreamState {
    StreamState(AllText(lines), FoldAll(map[], AllFragments(lines)), LastUsage(lines))
  }

  lemma {:induction false} FoldAllAppend(acc: Accumulator, a: seq<Fragment>, b: seq<Fragment>)
    ensures FoldAll(acc, a + b) == FoldAll(FoldAll(acc, a), b)
  {
    if b == [] {
      assert a + b == a;
    } else {
      assert (a + b)[..|a + b| - 1] == a + b[..|b| - 1];
      FoldAllAppend(acc, a, b[..|b| - 1]);
    }
  }

  /** One more line adds its own text, fragments and usage. */
  lemma SummaryStep(before: seq<Line>, line: Line)
    ensures var s, t := Summary(before), Summary(before + [line]);
            && t.out == s.out + TextOf(line) && (TextOf(line) == [] ==> t.out == s.out)
            && t.acc == FoldAll(s.acc, FragmentsOf(line))
            && t.usage == if UsageOf(line).Some? then UsageOf(line) else s.usage
  {
    assert (before + [line])[..|before|] == before;
    FoldAllAppend(map[], AllFragments(before), FragmentsOf(line));
  }

  // ----- The per-index reading of a fragment list ----------------------------

  function OfIndex(fs: seq<Fragment>, i: int): seq<Fragment> {
    if fs == [] then []
    else OfIndex(fs[..|fs| - 1], i) + if fs[|fs| - 1].index == i then [fs[|fs| - 1]] else []
  }

  function LastId(fs: seq<Fragment>): string {
    if fs == [] then "" else if fs[|fs| - 1].id != "" then fs[|fs| - 1].id else LastId(fs[..|fs| - 1])
  }

  function LastName(fs: seq<Fragment>): string {
    if fs == [] then "" else if fs[|fs| - 1].name != "" then fs[|fs| - 1].name else LastName(fs[..|fs| - 1])
  }

  function JoinedArgs(fs: seq<Fragment>): string {
    if fs == [] then "" else JoinedArgs(fs[..|fs| - 1]) + fs[|fs| - 1].args
  }

  /** The call at one index, read off the fragments of that index alone. */
  function CallOf(mine: seq<Fragment>): Partial {
    Partial(LastId(mine), LastName(mine), JoinedArgs(mine))
  }

  /** The fold keeps, at every index, exactly the last non-empty id and name and
      all arguments in order; indices with no fragment do not appear. */
  lemma {:induction false} FoldIsPerIndex(fs: seq<Fragment>, i: int)
    ensures i in FoldAll(map[], fs) <==> OfIndex(fs, i) != []
    ensures At(FoldAll(map[], fs), i) == CallOf(OfIndex(fs, i))
  {
    if fs != [] {
      var init, last := fs[..|fs| - 1], fs[|fs| - 1];
      FoldIsPerIndex(init, i);
      if last.index == i {
        var mine := OfIndex(fs, i);
        assert mine == OfIndex(init, i) + [last];
        assert mine[..|mine| - 1] == OfIndex(init, i);
      } else {
        assert OfIndex(fs, i) == OfIndex(init, i);
      }
    }
  }

  // ----- Ascending indices -------------------------------------------------

  ghost predicate Ascending(xs: seq<int>) {
    forall i, j :: 0 <= i < j < |xs| ==> xs[i] < xs[j]
  }

  ghost predicate Lists(xs: seq<int>, s: set<int>) {
    Ascending(xs) && (forall x :: x in xs <==> x in s)
  }

  lemma HeadIsIn(xs: seq<int>)
    requires xs != []
    ensures xs[0] in xs
  {
  }

  lemma {:induction false} AscendingIsUnique(xs: seq<int>, ys: seq<int>, s: set<int>)
    requires Lists(xs, s) && Lists(ys, s)
    ensures xs == ys
  {
    forall x ensures x in xs <==> x in ys {}
    if xs != [] {
      assert xs[0] in ys && ys[0] in xs;
      assert xs[0] == ys[0];
      forall x ensures x in xs[1..] <==> x in s - {xs[0]} { if x in xs[1..] { assert x != xs[0]; } }
      forall y ensures y in ys[1..] <==> y in s - {ys[0]} { if y in ys[1..] { assert y != ys[0]; } }
      AscendingIsUnique(xs[1..], ys[1..], s - {xs[0]});
    } else if ys != [] {
      HeadIsIn(ys);
    }
  }

  /** The calls at the listed indices, in list order. */
  function CallsIn(calls: map<int, ModelCall>, idxs: seq<int>): seq<ModelCall>
    requires forall k :: 0 <= k < |idxs| ==> idxs[k] in calls
  {
    if idxs == [] then [] else CallsIn(calls, idxs[..|idxs| - 1]) + [calls[idxs[|idxs| - 1]]]
  }

  /** An ascending listing of a finite set. */
  ghost function Listing(s: set<int>): (xs: seq<int>)
    ensures Lists(xs, s)
  {
    if s == {} then []
    else
      LeastExists(s);
      var m :| m in s && forall x :: x in s ==> m <= x;
      var rest := Listing(s - {m});
      assert forall x :: x in rest ==> m < x;
      [m] + rest
  }

  lemma {:induction false} LeastExists(s: set<int>)
    requires s != {}
    ensures exists m :: m in s && forall x :: x in s ==> m <= x
  {
    var a := Pick(s);
    if s - {a} == {} {
      assert s == {a};
    } else {
      LeastExists(s - {a});
      var m :| m in s - {a} && forall x :: x in s - {a} ==> m <= x;
      var least := if a < m then a else m;
      forall x | x in s ensures least <= x { if x != a { assert x in s - {a}; } }
      assert least in s;
    }
  }

  /** The calls of a map in ascending order of their index. */
  ghost function ByIndex(calls: map<int, ModelCall>): seq<ModelCall> {
    CallsIn(calls, Listing(calls.Keys))
  }

  function Finished(acc: Accumulator): map<int, ModelCall> {
    map i | i in acc :: ModelCall(acc[i].id, acc[i].name, acc[i].args)
  }

  ghost function Calls(acc: Accumulator): seq<ModelCall> {
    ByIndex(Finished(acc))
  }

  // ----- Interleavings -----------------------------------------------------

  /** fs merges the parts, one part per index: read from the back, it takes the
      last remaining piece of some part until all parts are used up. */
  ghost predicate Interleaving(parts: map<int, seq<Fragment>>, fs: seq<Fragment>)
    decreases |fs|
  {
    if fs == [] then forall i :: i in parts ==> parts[i] == []
    else
      var last := fs[|fs| - 1];
      && last.index in parts && parts[last.index] != []
      && parts[last.index][|parts[last.index]| - 1] == last
      && Interleaving(parts[last.index := parts[last.index][..|parts[last.index]| - 1]], fs[..|fs| - 1])
  }

  /** A split call: some piece carries the id and some the name, no piece carries
      another one, and the arguments of the pieces add up to the call's. */
  ghost predicate Splits(pieces: seq<Fragment>, call: ModelCall) {
    && (forall p :: p in pieces ==> p.id in {"", call.id} && p.name in {"", call.name})
    && (exists p :: p in pieces && p.id == call.id)
    && (exists p :: p in pieces && p.name == call.name)
    && JoinedArgs(pieces) == call.args
  }

  lemma {:induction false} SplitId(pieces: seq<Fragment>, id: string)
    requires forall p :: p in pieces ==> p.id in {"", id}
    ensures LastId(pieces) == if (exists p :: p in pieces && p.id == id) then id else ""
  {
    if pieces != [] {
      var init, last := pieces[..|pieces| - 1], pieces[|pieces| - 1];
      SplitId(init, id);
      assert pieces == init + [last];
      assert last in pieces;
      assert forall p :: p in pieces <==> p in init || p == last;
    }
  }

  lemma {:induction false} SplitName(pieces: seq<Fragment>, name: string)
    requires forall p :: p in pieces ==> p.name in {"", name}
    ensures LastName(pieces) == if (exists p :: p in pieces && p.name == name) then name else ""
  {
    if pieces != [] {
      var init, last := pieces[..|pieces| - 1], pieces[|pieces| - 1];
      SplitName(init, name);
      assert pieces == init + [last];
      assert last in pieces;
      assert forall p :: p in pieces <==> p in init || p == last;
    }
  }

  /** A merge keeps every part intact, in order. */
  lemma {:induction false} InterleavingKeepsParts(parts: map<int, seq<Fragment>>, fs: seq<Fragment>, i: int)
    requires Interleaving(parts, fs)
    ensures OfIndex(fs, i) == if i in parts then parts[i] else []
    decreases |fs|
  {
    if fs != [] {
      var last := fs[|fs| - 1];
      var mine := parts[last.index];
      InterleavingKeepsParts(parts[last.index := mine[..|mine| - 1]], fs[..|fs| - 1], i);
      assert mine == mine[..|mine| - 1] + [last];
    }
  }

  /** Whatever the pieces and however they are interleaved, reassembly returns
      exactly the original calls, ordered by index. */
  lemma ReassemblyInvertsSplitting(calls: map<int, ModelCall>, parts: map<int, seq<Fragment>>, fs: seq<Fragment>)
    requires parts.Keys == calls.Keys && Interleaving(parts, fs)
    requires forall i :: i in calls ==> Splits(parts[i], calls[i])
    ensures Calls(FoldAll(map[], fs)) == ByIndex(calls)
  {
    var acc := FoldAll(map[], fs);
    forall i
      ensures i in acc <==> i in calls
      ensures i in acc && i in calls ==> acc[i] == Partial(calls[i].id, calls[i].name, calls[i].args)
    {
      InterleavingKeepsParts(parts, fs, i);
      FoldIsPerIndex(fs, i);
      if i in calls {
        SplitId(parts[i], calls[i].id);
        SplitName(parts[i], calls[i].name);
      }
    }
    assert Finished(acc) == calls;
  }

  /** Two streams whose fragments agree index by index reassemble alike. */
  lemma ReassemblyIgnoresInterleaving(fs: seq<Fragment>, gs: seq<Fragment>)
    requires forall i :: OfIndex(fs, i) == OfIndex(gs, i)
    ensures Calls(FoldAll(map[], fs)) == Calls(FoldAll(map[], gs))
  {
    var a, b := FoldAll(map[], fs), FoldAll(map[], gs);
    forall i ensures (i in a <==> i in b) && (i in a ==> a[i] == b[i]) {
      FoldIsPerIndex(fs, i);
      FoldIsPerIndex(gs, i);
    }
    assert a == b;
  }

  // ----- The code ----------------------------------------------------------

  /** The state one model call builds up while it reads its reply. */
  class Reader {
    var out: seq<Event>
    var acc: Accumulator
    var usage: Option<Usage>

    ghost function View(): StreamState reads this { StreamState(out, acc, usage) }

    constructor ()
      ensures Has([])
    {
      out, acc, usage := [], map[], None;
    }

    /** The reader has taken in exactly these lines. */
    ghost predicate Has(lines: seq<Line>)
      reads this
    {
      View() == Summary(lines)
    }

    /** parseSSELine: one line extends the three projections and nothing else. */
    method ParseLine(line: Line, ghost before: seq<Line>) returns (done: bool)
      requires Has(before)
      modifies this
      ensures done == line.Sentinel?
      ensures Has(if done then before else before + [line])
    {
      SummaryStep(before, line);
      if line.Blank? || line.NotData? { return false; }
      if line.Sentinel? { return true; }
      if line.Malformed? { return false; }
      if line.error != "" {
        out := out + [Error(line.error)];
        return false;
      }
      if line.usage.Some? { usage := line.usage; }
      if !line.hasChoice {
        return false;
      }
      if line.content != "" { out := out + [Text(line.content)]; }
      FoldFragments(line.fragments);
      done := false;
    }

    method FoldFragments(fragments: seq<Fragment>)
      modifies `acc
      ensures acc == FoldAll(old(acc), fragments)
    {
      for i := 0 to |fragments|
        invariant acc == FoldAll(old(acc), fragments[..i])
      {
        var f := fragments[i];
        assert fragments[..i + 1][..i] == fragments[..i];
        var existing := if f.index in acc then acc[f.index] else EMPTY;
        if f.id != "" { existing := existing.(id := f.id); }
        if f.name != "" { existing := existing.(name := f.name); }
        assert f.args == "" ==> existing.args + f.args == existing.args;
        if f.args != "" { existing := existing.(args := existing.args + f.args); }
        acc := acc[f.index := existing];
      }
      assert fragments[..|fragments|] == fragments;
    }

    /** materializeToolCalls: the keys come in any order and are sorted. */
    method Materialize() returns (calls: seq<ModelCall>)
      ensures calls == Calls(acc)
    {
      var sorted := SortedKeys(acc);
      calls := Collect(acc, sorted);
      assert Finished(acc).Keys == acc.Keys;
    }
  }

  method Collect(acc: Accumulator, idxs: seq<int>) returns (calls: seq<ModelCall>)
    requires forall k :: 0 <= k < |idxs| ==> idxs[k] in acc
    ensures calls == CallsIn(Finished(acc), idxs)
  {
    calls := [];
    for k := 0 to |idxs|
      invariant calls == CallsIn(Finished(acc), idxs[..k])
    {
      assert idxs[..k + 1][..k] == idxs[..k];
      var t := acc[idxs[k]];
      calls := calls + [ModelCall(t.id, t.name, t.args)];
    }
    assert idxs[..|idxs|] == idxs;
  }

  /** The keys of a map, once each, in no particular order. */
  method KeysOf(acc: Accumulator) returns (idxs: seq<int>)
    ensures forall i :: i in idxs <==> i in acc.Keys
    ensures forall a, b :: 0 <= a < b < |idxs| ==> idxs[a] != idxs[b]
  {
    idxs := [];
    var left := acc.Keys;
    while left != {}
      invariant left <= acc.Keys
      invariant forall i :: i in idxs <==> i in acc.Keys && i !in left
      invariant forall a, b :: 0 <= a < b < |idxs| ==> idxs[a] != idxs[b]
    {
      ghost var some := Pick(left);
      var i :| i in left;
      assert i !in idxs;
      idxs, left := idxs + [i], left - {i};
    }
  }

  method SortedKeys(acc: Accumulator) returns (sorted: seq<int>)
    ensures sorted == Listing(acc.Keys)
    ensures forall j :: 0 <= j < |sorted| ==> sorted[j] in acc
  {
    var idxs := KeysOf(acc);
    sorted := Sorting.Sort((x: int, y: int) => x <= y, idxs);
    SortedIsListing(acc.Keys, idxs, sorted);
  }

  lemma SortedIsListing(s: set<int>, idxs: seq<int>, sorted: seq<int>)
    requires multiset(idxs) == multiset(sorted)
    requires forall i :: i in idxs <==> i in s
    requires forall a, b :: 0 <= a < b < |idxs| ==> idxs[a] != idxs[b]
    requires forall a, b :: 0 <= a < b < |sorted| ==> sorted[a] <= sorted[b]
    ensures sorted == Listing(s)
    ensures forall j :: 0 <= j < |sorted| ==> sorted[j] in s
  {
    SortedIndicesAscend(idxs, sorted);
    AscendingIsUnique(sorted, Listing(s), s);
    forall j | 0 <= j < |sorted| ensures sorted[j] in s {
      assert sorted[j] in sorted;
    }
  }

  lemma SortedIndicesAscend(idxs: seq<int>, sorted: seq<int>)
    requires multiset(idxs) == multiset(sorted)
    requires forall a, b :: 0 <= a < b < |idxs| ==> idxs[a] != idxs[b]
    requires forall a, b :: 0 <= a < b < |sorted| ==> sorted[a] <= sorted[b]
    ensures Ascending(sorted)
    ensures forall i :: i in sorted <==> i in idxs
  {
    forall i ensures i in sorted <==> i in idxs {
      assert i in sorted <==> i in multiset(sorted);
      assert i in idxs <==> i in multiset(idxs);
    }
    forall a, b | 0 <= a < b < |sorted| ensures sorted[a] < sorted[b] {
      if sorted[a] == sorted[b] {
        RepeatedCount(sorted, a, b);
        DistinctCount(idxs, sorted[a]);
        assert false;
      }
    }
  }

  lemma RepeatedCount(xs: seq<int>, a: nat, b: nat)
    requires a < b < |xs| && xs[a] == xs[b]
    ensures multiset(xs)[xs[a]] >= 2
  {
    assert xs == xs[..b] + xs[b..];
    assert xs[a] in xs[..b] && xs[b] in xs[b..];
  }

  lemma {:induction false} DistinctCount(xs: seq<int>, x: int)
    requires forall a, b :: 0 <= a < b < |xs| ==> xs[a] != xs[b]
    ensures multiset(xs)[x] <= 1
  {
    if xs != [] {
      DistinctCount(xs[..|xs| - 1], x);
      assert xs == xs[..|xs| - 1] + [xs[|xs| - 1]];
      if xs[|xs| - 1] == x {
        assert x !in xs[..|xs| - 1];
      }
    }
  }

  /** What one request comes back with. */
  ghost function Ask(reply: Reply): Answer {
    match reply
    case Refused(f) => Interrupted([], f)
    case Streamed(lines, broken) =>
      var s := Summary(Read(lines));
      if |Read(lines)| == |lines| && broken.Some? then Interrupted(s.out, broken.value)
      else Answered(s.out, Calls(s.acc), s.usage)
  }

  /** A reply that asks for one call, in one piece. */
  function CallReply(c: ModelCall): Reply {
    Streamed([Chunk("", None, true, "", [Fragment(0, c.id, c.name, c.args)])], None)
  }

  lemma CallReplyAsks(c: ModelCall)
    ensures Ask(CallReply(c)) == Answered([], [c], None)
  {
    var f := Fragment(0, c.id, c.name, c.args);
    OneLine(CallReply(c).lines[0], CallReply(c).lines);
    OneFragment(f, c);
  }

  lemma OneLine(line: Line, lines: seq<Line>)
    requires lines == [line] && !line.Sentinel?
    ensures Read(lines) == lines
    ensures Summary(lines) == StreamState(TextOf(line), FoldAll(map[], FragmentsOf(line)), UsageOf(line))
  {
    assert lines[1..] == [] && Read(lines[1..]) == [];
    assert lines[..|lines| - 1] == [];
    assert LastUsage(lines) == UsageOf(line);
    assert AllText(lines) == [] + TextOf(line) && AllFragments(lines) == [] + FragmentsOf(line);
    assert [] + TextOf(line) == TextOf(line) && [] + FragmentsOf(line) == FragmentsOf(line);
  }

  lemma ByIndexOfOne(calls: map<int, ModelCall>, i: int)
    requires calls.Keys == {i}
    ensures ByIndex(calls) == [calls[i]]
  {
    var idxs := Listing(calls.Keys);
    AscendingIsUnique(idxs, [i], calls.Keys);
    assert idxs == [i] && idxs[..|idxs| - 1] == [];
    assert CallsIn(calls, idxs) == CallsIn(calls, []) + [calls[i]];
  }

  lemma OneFragment(f: Fragment, c: ModelCall)
    requires f == Fragment(0, c.id, c.name, c.args)
    ensures Calls(FoldAll(map[], [f])) == [c]
  {
    var calls, parts := map[0 := c], map[0 := [f]];
    assert [f][..0] == [] && JoinedArgs([f]) == "" + c.args == c.args;
    assert f in [f] && Splits(parts[0], calls[0]);
    assert Interleaving(parts[0 := []], []);
    assert Interleaving(parts, [f]);
    ReassemblyInvertsSplitting(calls, parts, [f]);
    ByIndexOfOne(calls, 0);
  }

  lemma {:induction false} ReadPrefix(lines: seq<Line>, n: nat)
    requires n <= |lines| && forall k :: 0 <= k < n ==> !lines[k].Sentinel?
    requires n == |lines| || lines[n].Sentinel?
    ensures Read(lines) == lines[..n]
  {
    if n != 0 {
      ReadPrefix(lines[1..], n - 1);
      assert lines[..n] == [lines[0]] + lines[1..][..n - 1];
    }
  }

  lemma NextPrefix(lines: seq<Line>, n: nat)
    requires n < |lines|
    ensures lines[..n] + [lines[n]] == lines[..n + 1]
  {
  }

  /** The scan: reads the lines before the sentinel, if there is one; sentinel tells. */
  method ReadLines(lines: seq<Line>, r: Reader) returns (sentinel: bool, ghost n: nat)
    requires r.Has([])
    modifies r
    ensures n <= |lines| && r.Has(lines[..n]) && (sentinel <==> n < |lines|)
    ensures forall k :: 0 <= k < n ==> !lines[k].Sentinel?
    ensures sentinel ==> lines[n].Sentinel?
  {
    assert lines[..0] == [];
    sentinel := false;
    for i := 0 to |lines|
      invariant r.Has(lines[..i])
      invariant forall k :: 0 <= k < i ==> !lines[k].Sentinel?
    {
      sentinel := r.ParseLine(lines[i], lines[..i]);
      if sentinel { return true, i; }
      NextPrefix(lines, i);
    }
    sentinel, n := false, |lines|;
  }

  /** callModel: a stream that breaks off before the sentinel fails the request. */
  method CallModel(reply: Reply) returns (a: Answer)
    ensures a == Ask(reply)
  {
    if reply.Refused? {
      return Interrupted([], reply.failure);
    }
    var r := new Reader();
    var sentinel, n := ReadLines(reply.lines, r);
    ReadPrefix(reply.lines, n);
    if !sentinel && reply.broken.Some? {
      return Interrupted(r.out, reply.broken.value);
    }
    var calls := r.Materialize();
    a := Answered(r.out, calls, r.usage);
  }
}
