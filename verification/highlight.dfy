/** The docs highlighter: it scans a line with an ordered rule list and wraps the
    matches in spans, escaping all text; no text may be lost or altered. */
module Highlight {
  import opened Sequences

  // ----- Escaping --------------------------------------------------------------

  /** A global replacement of one character. */
  function Replace(s: string, c: char, with: string): string {
    if s == "" then "" else (if s[0] == c then with else [s[0]]) + Replace(s[1..], c, with)
  }

  /** esc: three chained replacements. */
  function Esc(s: string): string {
    Replace(Replace(Replace(s, '&', "&amp;"), '<', "&lt;"), '>', "&gt;")
  }

  /** escapeHtml: the same chain with the double quote behind it. */
  function EscapeHtml(s: string): string {
    Replace(Esc(s), '"', "&quot;")
  }

  function EscChar(c: char): string {
    if c == '&' then "&amp;" else if c == '<' then "&lt;" else if c == '>' then "&gt;" else [c]
  }

  function QuoteChar(c: char): string {
    if c == '"' then "&quot;" else EscChar(c)
  }

  function PerChar(f: char -> string, s: string): string {
    if s == "" then "" else f(s[0]) + PerChar(f, s[1..])
  }

  lemma {:induction false} ReplaceAppend(a: string, b: string, c: char, with: string)
    ensures Replace(a + b, c, with) == Replace(a, c, with) + Replace(b, c, with)
  {
    if a == "" {
      assert a + b == b;
    } else {
      assert (a + b)[1..] == a[1..] + b;
      ReplaceAppend(a[1..], b, c, with);
    }
  }

  lemma {:induction false} ReplaceAbsent(s: string, c: char, with: string)
    requires c !in s
    ensures Replace(s, c, with) == s
  {
    if s != "" {
      ReplaceAbsent(s[1..], c, with);
    }
  }

  lemma ReplaceOne(c: char, x: char, with: string)
    ensures Replace([c], x, with) == if c == x then with else [c]
  {
    assert [c][1..] == "" && Replace("", x, with) == "";
    assert with + "" == with;
  }

  /** No replacement touches the entities the earlier ones put in. */
  lemma AmpStays(c: char, with: string)
    requires c in {'<', '>', '"'}
    ensures Replace("&amp;", c, with) == "&amp;"
  {
    ReplaceAbsent("&amp;", c, with);
  }

  lemma LtGtStay()
    ensures Replace("&lt;", '>', "&gt;") == "&lt;" && Replace("&lt;", '"', "&quot;") == "&lt;"
    ensures Replace("&gt;", '"', "&quot;") == "&gt;"
  {
    ReplaceAbsent("&lt;", '>', "&gt;");
    ReplaceAbsent("&lt;", '"', "&quot;");
    ReplaceAbsent("&gt;", '"', "&quot;");
  }

  /** One character through the chain. */
  lemma EscOneChar(c: char)
    ensures Esc([c]) == EscChar(c) && EscapeHtml([c]) == QuoteChar(c)
  {
    ReplaceOne(c, '&', "&amp;");
    ReplaceOne(c, '<', "&lt;");
    ReplaceOne(c, '>', "&gt;");
    ReplaceOne(c, '"', "&quot;");
    AmpStays('<', "&lt;");
    AmpStays('>', "&gt;");
    AmpStays('"', "&quot;");
    LtGtStay();
  }

  lemma Halves(s: string, k: nat)
    requires k <= |s|
    ensures s[..k] + s[k..] == s
  {
  }

  lemma EscAppend(a: string, b: string)
    ensures Esc(a + b) == Esc(a) + Esc(b) && EscapeHtml(a + b) == EscapeHtml(a) + EscapeHtml(b)
  {
    ReplaceAppend(a, b, '&', "&amp;");
    var x, y := Replace(a, '&', "&amp;"), Replace(b, '&', "&amp;");
    ReplaceAppend(x, y, '<', "&lt;");
    ReplaceAppend(Replace(x, '<', "&lt;"), Replace(y, '<', "&lt;"), '>', "&gt;");
    ReplaceAppend(Esc(a), Esc(b), '"', "&quot;");
  }

  /** The chained replacements act on each character by itself: no replacement
      touches what an earlier one produced. */
  lemma {:induction false} ChainIsPerChar(s: string)
    ensures Esc(s) == PerChar(EscChar, s) && EscapeHtml(s) == PerChar(QuoteChar, s)
  {
    if s != "" {
      ChainIsPerChar(s[1..]);
      EscOneChar(s[0]);
      EscAppend([s[0]], s[1..]);
      assert [s[0]] + s[1..] == s;
    }
  }

  /** Decoding of the four entities; any other text stands for itself. */
  function Decode(s: string): string {
    if s == "" then ""
    else if "&amp;" <= s then "&" + Decode(s[5..])
    else if "&lt;" <= s then "<" + Decode(s[4..])
    else if "&gt;" <= s then ">" + Decode(s[4..])
    else if "&quot;" <= s then "\"" + Decode(s[6..])
    else [s[0]] + Decode(s[1..])
  }

  lemma DecodeEscaped(c: char, rest: string)
    ensures Decode(EscChar(c) + rest) == [c] + Decode(rest)
  {
    var s := EscChar(c) + rest;
    assert s[|EscChar(c)|..] == rest;
    if c == '&' {
      assert s[..5] == "&amp;";
    } else if c == '<' {
      assert s[..4] == "&lt;" && s[1] == 'l';
    } else if c == '>' {
      assert s[..4] == "&gt;" && s[1] == 'g';
    } else {
      assert s[0] == c;
    }
  }

  lemma DecodeQuote(rest: string)
    ensures Decode("&quot;" + rest) == "\"" + Decode(rest)
  {
    var q := "&quot;" + rest;
    assert q[6..] == rest && q[..6] == "&quot;" && q[1] == 'q';
  }

  lemma DecodeOneChar(c: char, rest: string)
    ensures Decode(EscChar(c) + rest) == [c] + Decode(rest)
    ensures Decode(QuoteChar(c) + rest) == [c] + Decode(rest)
  {
    DecodeEscaped(c, rest);
    if c == '"' { DecodeQuote(rest); }
  }

  /** Decoding undoes escaping. */
  lemma {:induction false} DecodeInvertsEscape(s: string)
    ensures Decode(Esc(s)) == s && Decode(EscapeHtml(s)) == s
  {
    ChainIsPerChar(s);
    if s != "" {
      DecodeInvertsEscape(s[1..]);
      ChainIsPerChar(s[1..]);
      DecodeOneChar(s[0], PerChar(EscChar, s[1..]));
      DecodeOneChar(s[0], PerChar(QuoteChar, s[1..]));
    }
  }

  // ----- Tokens ----------------------------------------------------------------

  datatype Tag = Comment | Key | Text | Number | Flag

  function ClassOf(t: Tag): string {
    match t
    case Comment => "tk-c"
    case Key => "tk-k"
    case Text => "tk-s"
    case Number => "tk-n"
    case Flag => "tk-f"
  }

  /** A rule's class and whether its source starts with "^" and with "^(". */
  datatype Rule = Rule(tag: Tag, anchored: bool, grouped: bool)

  /** How far rule number r matches the line from position i; 0 for no match. */
  type Matcher = (nat, string, nat) -> nat

  ghost predicate StaysInLine(m: Matcher, line: string) {
    forall r: nat, i: nat :: i <= |line| ==> i + m(r, line, i) <= |line|
  }

  /** A piece of a line: the text it stands for, and its markup. */
  datatype Piece = Piece(raw: string, html: string)

  /** The number of leading blanks. */
  function Blanks(space: char -> bool, s: string): (n: nat)
    ensures n <= |s|
  {
    if s != "" && space(s[0]) then 1 + Blanks(space, s[1..]) else 0
  }

  /** The indentation a matched key may start with: blanks, a dash, blanks. */
  function Lead(space: char -> bool, s: string): (n: nat)
    ensures n <= |s|
  {
    var a := Blanks(space, s);
    var b := if a < |s| && s[a] == '-' then a + 1 else a;
    b + Blanks(space, s[b..])
  }

  function LeadKept(space: char -> bool, rule: Rule, s: string): (n: nat)
    ensures n <= |s|
  {
    if rule.tag == Key && rule.grouped then Lead(space, s) else 0
  }

  function OpenTag(t: Tag): string {
    "<span class=\"" + ClassOf(t) + "\">"
  }

  function Marked(t: Tag, text: string): string {
    OpenTag(t) + (Esc(text) + "</span>")
  }

  /** A character no rule matches. */
  function Plain(c: char): Piece {
    Piece([c], Esc([c]))
  }

  /** The markup of a match: a key's indentation stays outside the span. */
  function Span(space: char -> bool, rule: Rule, s: string): string {
    var k := LeadKept(space, rule, s);
    Esc(s[..k]) + Marked(rule.tag, s[k..])
  }

  /** How the text a rule matched is marked up. */
  type Marker = (Rule, string) -> string

  function MarkerOf(space: char -> bool): Marker {
    (rule: Rule, s: string) => Span(space, rule, s)
  }

  /** Of the last left rules, the first that applies at i and matches there; |rules|
      when there is none. */
  function FirstRule(m: Matcher, rules: seq<Rule>, line: string, i: nat, left: nat): (r: nat)
    requires left <= |rules|
    ensures |rules| - left <= r <= |rules| && (r < |rules| ==> m(r, line, i) > 0)
    decreases left
  {
    if left == 0 then |rules|
    else
      var r := |rules| - left;
      if (!rules[r].anchored || i == 0) && m(r, line, i) > 0 then r
      else FirstRule(m, rules, line, i, left - 1)
  }

  /** The piece at i: the first rule that matches takes its text. */
  function PieceAt(m: Matcher, mark: Marker, rules: seq<Rule>, line: string, i: nat): (p: Piece)
    requires StaysInLine(m, line) && i < |line|
    ensures 0 < |p.raw| && i + |p.raw| <= |line| && p.raw == line[i..i + |p.raw|]
  {
    var r := FirstRule(m, rules, line, i, |rules|);
    if r < |rules| then
      var s := line[i..i + m(r, line, i)];
      Piece(s, mark(rules[r], s))
    else Plain(line[i])
  }

  /** What the line can be cut into: the piece that starts at each position. */
  type Cutter = seq<Piece>

  ghost predicate Cuts(cut: Cutter, line: string) {
    && |cut| == |line|
    && forall i :: 0 <= i < |line| ==>
         0 < |cut[i].raw| && i + |cut[i].raw| <= |line| && cut[i].raw == line[i..i + |cut[i].raw|]
  }

  function CutterOf(m: Matcher, mark: Marker, rules: seq<Rule>, line: string, n: nat): (cut: Cutter)
    requires StaysInLine(m, line) && n <= |line|
    ensures |cut| == n
  {
    if n == 0 then [] else CutterOf(m, mark, rules, line, n - 1) + [PieceAt(m, mark, rules, line, n - 1)]
  }

  lemma {:induction false} CutterAt(m: Matcher, mark: Marker, rules: seq<Rule>, line: string, n: nat, i: nat)
    requires StaysInLine(m, line) && i < n <= |line|
    ensures CutterOf(m, mark, rules, line, n)[i] == PieceAt(m, mark, rules, line, i)
    decreases n
  {
    if i < n - 1 {
      CutterAt(m, mark, rules, line, n - 1, i);
    }
  }

  lemma RulesCut(m: Matcher, mark: Marker, rules: seq<Rule>, line: string)
    requires StaysInLine(m, line)
    ensures Cuts(CutterOf(m, mark, rules, line, |line|), line)
  {
    forall i | 0 <= i < |line|
      ensures CutterOf(m, mark, rules, line, |line|)[i] == PieceAt(m, mark, rules, line, i)
    {
      CutterAt(m, mark, rules, line, |line|, i);
    }
  }

  /** The pieces of the line from i on. */
  function Pieces(cut: Cutter, line: string, i: nat): seq<Piece>
    requires Cuts(cut, line) && i <= |line|
    decreases |line| - i
  {
    if i == |line| then [] else [cut[i]] + Pieces(cut, line, i + |cut[i].raw|)
  }

  function ShowAll(ps: seq<Piece>): string {
    if ps == [] then "" else ps[0].html + ShowAll(ps[1..])
  }

  function RawAll(ps: seq<Piece>): string {
    if ps == [] then "" else ps[0].raw + RawAll(ps[1..])
  }

  lemma OneMore(p: Piece, rest: seq<Piece>)
    ensures ShowAll([p] + rest) == p.html + ShowAll(rest)
    ensures RawAll([p] + rest) == p.raw + RawAll(rest)
  {
    assert ([p] + rest)[1..] == rest;
  }

  lemma Join(line: string, i: nat, n: nat)
    requires i + n <= |line|
    ensures line[i..i + n] + line[i + n..] == line[i..]
  {
  }

  lemma {:induction false} PiecesCoverLine(cut: Cutter, line: string, i: nat)
    requires Cuts(cut, line) && i <= |line|
    ensures RawAll(Pieces(cut, line, i)) == line[i..]
    decreases |line| - i
  {
    if i < |line| {
      var n := |cut[i].raw|;
      PiecesCoverLine(cut, line, i + n);
      OneMore(cut[i], Pieces(cut, line, i + n));
      Join(line, i, n);
    }
  }

  // ----- Markup and back -------------------------------------------------------

  function AfterTag(s: string): (rest: string)
    ensures |rest| <= |s|
  {
    if s == "" then "" else if s[0] == '>' then s[1..] else AfterTag(s[1..])
  }

  /** Removes everything from each "<" to the next ">". */
  function StripTags(s: string): string
    decreases |s|
  {
    if s == "" then ""
    else if s[0] == '<' then StripTags(AfterTag(s[1..]))
    else [s[0]] + StripTags(s[1..])
  }

  lemma {:induction false} StripText(a: string, b: string)
    requires '<' !in a
    ensures StripTags(a + b) == a + StripTags(b)
  {
    if a == "" {
      assert a + b == b;
    } else {
      assert (a + b)[1..] == a[1..] + b;
      StripText(a[1..], b);
    }
  }

  lemma {:induction false} SkipTag(inside: string, b: string)
    requires '>' !in inside
    ensures AfterTag(inside + ">" + b) == b
  {
    if inside == "" {
      assert inside + ">" + b == ">" + b;
    } else {
      assert (inside + ">" + b)[1..] == inside[1..] + ">" + b;
      SkipTag(inside[1..], b);
    }
  }

  lemma StripOneTag(inside: string, b: string)
    requires '>' !in inside
    ensures StripTags("<" + inside + ">" + b) == StripTags(b)
  {
    var s := "<" + inside + ">" + b;
    assert s[1..] == inside + ">" + b;
    SkipTag(inside, b);
  }

  lemma {:induction false} EscHasNoTag(s: string)
    ensures '<' !in Esc(s)
  {
    ChainIsPerChar(s);
    if s != "" {
      EscHasNoTag(s[1..]);
      ChainIsPerChar(s[1..]);
    }
  }

  lemma StripOpenTag(t: Tag, b: string)
    ensures StripTags(OpenTag(t) + b) == StripTags(b)
  {
    var inside := "span class=\"" + ClassOf(t) + "\"";
    assert OpenTag(t) + b == "<" + inside + ">" + b;
    StripOneTag(inside, b);
  }

  lemma StripMarked(t: Tag, text: string, b: string)
    ensures StripTags(Marked(t, text) + b) == Esc(text) + StripTags(b)
  {
    var close := "</span>" + b;
    EscHasNoTag(text);
    Regroup(OpenTag(t), Esc(text) + "</span>", b);
    Regroup(Esc(text), "</span>", b);
    StripOpenTag(t, Esc(text) + close);
    StripText(Esc(text), close);
    assert close == "<" + "/span" + ">" + b;
    StripOneTag("/span", b);
  }

  /** Stripping the tags off a piece's markup leaves its escaped text. */
  lemma StripPlain(p: Piece, c: char, b: string)
    requires p == Plain(c)
    ensures StripTags(p.html + b) == Esc(p.raw) + StripTags(b)
  {
    EscHasNoTag([c]);
    StripText(Esc([c]), b);
  }

  lemma StripSpan(space: char -> bool, rule: Rule, s: string, b: string)
    ensures StripTags(Span(space, rule, s) + b) == Esc(s) + StripTags(b)
  {
    var k := LeadKept(space, rule, s);
    var lead, text := s[..k], s[k..];
    EscHasNoTag(lead);
    EscAppend(lead, text);
    Halves(s, k);
    Regroup(Esc(lead), Marked(rule.tag, text), b);
    StripText(Esc(lead), Marked(rule.tag, text) + b);
    StripMarked(rule.tag, text, b);
    Regroup(Esc(lead), Esc(text), StripTags(b));
  }

  /** What is asked of a marker: stripping its tags leaves the escaped text. */
  ghost predicate Marks(mark: Marker, rule: Rule, s: string, b: string) {
    StripTags(mark(rule, s) + b) == Esc(s) + StripTags(b)
  }

  lemma SpansMark(space: char -> bool, rule: Rule, s: string, b: string)
    ensures Marks(MarkerOf(space), rule, s, b)
  {
    StripSpan(space, rule, s, b);
    assert MarkerOf(space)(rule, s) == Span(space, rule, s);
  }

  lemma StripPiece(m: Matcher, mark: Marker, rules: seq<Rule>, line: string, i: nat, b: string)
    requires StaysInLine(m, line) && i < |line|
    requires forall rule: Rule, s: string :: Marks(mark, rule, s, b)
    ensures Strips(PieceAt(m, mark, rules, line, i), b)
  {
    var p, r := PieceAt(m, mark, rules, line, i), FirstRule(m, rules, line, i, |rules|);
    if r < |rules| {
      assert Marks(mark, rules[r], p.raw, b);
    } else {
      StripPlain(p, line[i], b);
    }
  }

  ghost predicate Strips(p: Piece, b: string) {
    StripTags(p.html + b) == Esc(p.raw) + StripTags(b)
  }

  lemma {:induction false} StripAll(cut: Cutter, line: string, i: nat)
    requires Cuts(cut, line) && i <= |line|
    requires forall k: nat, b: string :: k < |line| ==> Strips(cut[k], b)
    ensures StripTags(ShowAll(Pieces(cut, line, i))) == Esc(RawAll(Pieces(cut, line, i)))
    decreases |line| - i
  {
    if i < |line| {
      var rest := Pieces(cut, line, i + |cut[i].raw|);
      StripAll(cut, line, i + |cut[i].raw|);
      OneMore(cut[i], rest);
      EscAppend(cut[i].raw, RawAll(rest));
      assert Strips(cut[i], ShowAll(rest));
    }
  }

  /** The markup of a whole line. */
  ghost function Markup(m: Matcher, space: char -> bool, rules: seq<Rule>, line: string): string
    requires StaysInLine(m, line)
  {
    RulesCut(m, MarkerOf(space), rules, line);
    ShowAll(Pieces(CutterOf(m, MarkerOf(space), rules, line, |line|), line, 0))
  }

  lemma StripMarkup(m: Matcher, mark: Marker, rules: seq<Rule>, line: string, cut: Cutter)
    requires StaysInLine(m, line) && cut == CutterOf(m, mark, rules, line, |line|) && Cuts(cut, line)
    requires forall rule: Rule, s: string, b: string :: Marks(mark, rule, s, b)
    ensures Decode(StripTags(ShowAll(Pieces(cut, line, 0)))) == line
  {
    forall k: nat, b: string | k < |line| ensures Strips(cut[k], b) {
      CutterAt(m, mark, rules, line, |line|, k);
      StripPiece(m, mark, rules, line, k, b);
    }
    StripAll(cut, line, 0);
    PiecesCoverLine(cut, line, 0);
    DecodeInvertsEscape(line);
  }

  /** For every line, rule list and matcher: dropping the spans and decoding the
      entities gives back the line. */
  lemma HighlightLosesNothing(m: Matcher, space: char -> bool, rules: seq<Rule>, line: string)
    requires StaysInLine(m, line)
    ensures Decode(StripTags(Markup(m, space, rules, line))) == line
  {
    var mark := MarkerOf(space);
    forall rule: Rule, s: string, b: string ensures Marks(mark, rule, s, b) {
      SpansMark(space, rule, s, b);
    }
    RulesCut(m, mark, rules, line);
    StripMarkup(m, mark, rules, line, CutterOf(m, mark, rules, line, |line|));
  }

  // ----- The code --------------------------------------------------------------

  /** The inner loop: the first applicable rule with a non-empty match at i. */
  method MatchAt(m: Matcher, rules: seq<Rule>, line: string, i: nat) returns (n: nat, r: nat)
    ensures r == FirstRule(m, rules, line, i, |rules|)
    ensures n == if r < |rules| then m(r, line, i) else 0
  {
    for k := 0 to |rules|
      invariant FirstRule(m, rules, line, i, |rules|) == FirstRule(m, rules, line, i, |rules| - k)
    {
      if rules[k].anchored && i != 0 { continue; }
      var len := m(k, line, i);
      if len > 0 { return len, k; }
    }
    n, r := 0, |rules|;
  }

  /** Flushing the plain text and one span keeps what is still to come. */
  lemma FlushSpan(whole: string, out: string, plain: string, piece: string, rest: string)
    requires whole == (out + Esc(plain)) + (piece + rest)
    ensures whole == ((out + Esc(plain) + piece) + Esc("")) + rest
  {
    var flushed := out + Esc(plain);
    Regroup(flushed, piece, rest);
    assert (flushed + piece) + Esc("") == flushed + piece;
  }

  lemma KeepPlain(whole: string, out: string, plain: string, c: char, rest: string)
    requires whole == (out + Esc(plain)) + (Esc([c]) + rest)
    ensures whole == (out + Esc(plain + [c])) + rest
  {
    EscAppend(plain, [c]);
    Regroup(out + Esc(plain), Esc([c]), rest);
    Regroup(out, Esc(plain), Esc([c]));
  }

  /** The loop's state: what is out, what is waiting and what is still to come make up
      the whole. */
  ghost predicate Progress(whole: string, out: string, plain: string, cut: Cutter, line: string, i: nat)
    requires Cuts(cut, line) && i <= |line|
  {
    whole == (out + Esc(plain)) + ShowAll(Pieces(cut, line, i))
  }

  /** A match flushes the plain text before it; any other character joins it. */
  method TakeSpan(
    ghost cut: Cutter, line: string, i: nat, n: nat, piece: string, out: string, plain: string, ghost whole: string)
    returns (out': string, plain': string)
    requires Cuts(cut, line) && i < |line| && Progress(whole, out, plain, cut, line, i)
    requires n == |cut[i].raw| && piece == cut[i].html
    ensures Progress(whole, out', plain', cut, line, i + n)
  {
    ghost var rest := Pieces(cut, line, i + n);
    OneMore(cut[i], rest);
    FlushSpan(whole, out, plain, piece, ShowAll(rest));
    out', plain' := out + Esc(plain) + piece, "";
  }

  lemma TakePlain(cut: Cutter, line: string, i: nat, out: string, plain: string, whole: string)
    requires Cuts(cut, line) && i < |line| && Progress(whole, out, plain, cut, line, i)
    requires cut[i] == Plain(line[i])
    ensures Progress(whole, out, plain + [line[i]], cut, line, i + 1)
  {
    var rest := Pieces(cut, line, i + 1);
    OneMore(cut[i], rest);
    KeepPlain(whole, out, plain, line[i], ShowAll(rest));
  }

  /** Highlights one line; no rules (an unknown language) means escaping only. */
  method HighlightLine(m: Matcher, space: char -> bool, rules: seq<Rule>, line: string) returns (html: string)
    requires StaysInLine(m, line)
    ensures html == Markup(m, space, rules, line)
    ensures Decode(StripTags(html)) == line
  {
    RulesCut(m, MarkerOf(space), rules, line);
    html := Scan(m, MarkerOf(space), rules, line, CutterOf(m, MarkerOf(space), rules, line, |line|));
    HighlightLosesNothing(m, space, rules, line);
  }

  /** The piece at i as the code sees it: its length and markup, or 0 when no rule matches. */
  method Take(m: Matcher, mark: Marker, rules: seq<Rule>, line: string, i: nat, ghost cut: Cutter)
    returns (n: nat, piece: string)
    requires StaysInLine(m, line) && i < |line| && cut == CutterOf(m, mark, rules, line, |line|)
    ensures if n == 0 then cut[i] == Plain(line[i]) else n == |cut[i].raw| && piece == cut[i].html
  {
    CutterAt(m, mark, rules, line, |line|, i);
    var r;
    n, r := MatchAt(m, rules, line, i);
    piece := if n > 0 then mark(rules[r], line[i..i + n]) else "";
  }

  method Scan(m: Matcher, mark: Marker, rules: seq<Rule>, line: string, ghost cut: Cutter) returns (html: string)
    requires StaysInLine(m, line) && cut == CutterOf(m, mark, rules, line, |line|) && Cuts(cut, line)
    ensures html == ShowAll(Pieces(cut, line, 0))
  {
    ghost var whole := ShowAll(Pieces(cut, line, 0));
    var out, plain, i := "", "", 0;
    NothingYet(cut, line);
    while i < |line|
      invariant i <= |line| && Progress(whole, out, plain, cut, line, i)
    {
      var n, piece := Take(m, mark, rules, line, i, cut);
      if n > 0 {
        out, plain := TakeSpan(cut, line, i, n, piece, out, plain, whole);
        i := i + n;
      } else {
        TakePlain(cut, line, i, out, plain, whole);
        plain := plain + [line[i]];
        i := i + 1;
      }
    }
    NothingLeft(whole, out, plain, cut, line);
    html := out + Esc(plain);
  }

  lemma NothingYet(cut: Cutter, line: string)
    requires Cuts(cut, line)
    ensures Progress(ShowAll(Pieces(cut, line, 0)), "", "", cut, line, 0)
  {
    var whole := ShowAll(Pieces(cut, line, 0));
    assert Esc("") == "";
    assert "" + whole == whole;
  }

  lemma NothingLeft(whole: string, out: string, plain: string, cut: Cutter, line: string)
    requires Cuts(cut, line) && Progress(whole, out, plain, cut, line, |line|)
    ensures whole == out + Esc(plain)
  {
    assert (out + Esc(plain)) + "" == out + Esc(plain);
  }
}
