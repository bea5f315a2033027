/** What goes over the channel of a harness turn and what is sent to the model: every
    request carries the one before it with its answers, and the channel carries, reply by
    reply, the text, the errors and the tool calls of the model. */
module LlmChannel {
  import opened AgentTypes
  import opened AgentWorld
  import opened LlmHarness
  import opened Sequences
  import opened ToolCallStream
  import opened Wrappers

  // ----- What one reply says ---------------------------------------------------------

  /** What the client is to see of one line: the error it reports, or else its text. */
  function Shown(line: Line): seq<Event> {
    match line
    case Chunk(error, _, hasChoice, content, _) =>
      if error != "" then [Error(error)] else if hasChoice && content != "" then [Text(content)] else []
    case _ => []
  }

  /** What it is to see of a stream, up to the sentinel. */
  function ShownIn(lines: seq<Line>): seq<Event> {
    if lines == [] || lines[0].Sentinel? then [] else Shown(lines[0]) + ShownIn(lines[1..])
  }

  function SpokenBy(reply: Reply): seq<Event> {
    match reply
    case Refused(_) => []
    case Streamed(lines, _) => ShownIn(lines)
  }

  /** The calls as they are announced, without results. */
  function Announced(calls: seq<ModelCall>): seq<Event> {
    if calls == [] then []
    else
      var c := calls[|calls| - 1];
      Announced(calls[..|calls| - 1]) + [ToolCall(c.name, c.args, FromModel(c.id), "")]
  }

  function CallsIn(a: Answer): seq<ModelCall> {
    if a.Answered? then a.calls else []
  }

  /** What the replies at these ticks say: of each the text and errors, then the calls. */
  ghost function SpokenAt(env: Env, at: seq<nat>): seq<Event> {
    if at == [] then []
    else
      var reply := env.replies(at[|at| - 1]);
      SpokenAt(env, at[..|at| - 1]) + (SpokenBy(reply) + Announced(CallsIn(Ask(reply))))
  }

  lemma {:induction false} TextInFront(line: Line, lines: seq<Line>)
    ensures AllText([line] + lines) == TextOf(line) + AllText(lines)
  {
    var all := [line] + lines;
    if lines == [] {
      assert all[..|all| - 1] == [] && AllText([]) == [];
    } else {
      assert all[..|all| - 1] == [line] + lines[..|lines| - 1];
      TextInFront(line, lines[..|lines| - 1]);
    }
  }

  lemma {:induction false} TextIsShown(lines: seq<Line>)
    ensures AllText(Read(lines)) == ShownIn(lines)
  {
    if lines != [] && !lines[0].Sentinel? {
      TextIsShown(lines[1..]);
      TextInFront(lines[0], Read(lines[1..]));
    }
  }

  lemma AnswersSpeak(reply: Reply)
    ensures Ask(reply).out == SpokenBy(reply)
  {
    if reply.Streamed? { TextIsShown(reply.lines); }
  }

  /** The tool-call fragments a line carries: a chunk's that reports no error and has a
      choice. */
  function Carried(line: Line): seq<Fragment> {
    match line
    case Chunk(error, _, hasChoice, _, fragments) => if error == "" && hasChoice then fragments else []
    case _ => []
  }

  /** Those a stream carries, up to the sentinel. */
  function CarriedIn(lines: seq<Line>): seq<Fragment> {
    if lines == [] || lines[0].Sentinel? then [] else Carried(lines[0]) + CarriedIn(lines[1..])
  }

  lemma {:induction false} FragmentsInFront(line: Line, lines: seq<Line>)
    ensures AllFragments([line] + lines) == FragmentsOf(line) + AllFragments(lines)
  {
    var all := [line] + lines;
    if lines == [] {
      assert all[..|all| - 1] == [] && AllFragments([]) == [];
    } else {
      assert all[..|all| - 1] == [line] + lines[..|lines| - 1];
      FragmentsInFront(line, lines[..|lines| - 1]);
      Regroup(FragmentsOf(line), AllFragments(lines[..|lines| - 1]), FragmentsOf(lines[|lines| - 1]));
    }
  }

  lemma {:induction false} FragmentsAreCarried(lines: seq<Line>)
    ensures AllFragments(Read(lines)) == CarriedIn(lines)
  {
    if lines != [] && !lines[0].Sentinel? {
      FragmentsAreCarried(lines[1..]);
      FragmentsInFront(lines[0], Read(lines[1..]));
    }
  }

  /** The stream breaks off before it said that it was done. */
  ghost predicate BreaksOff(reply: Reply) {
    reply.Streamed? && reply.broken.Some? && forall i :: 0 <= i < |reply.lines| ==> !reply.lines[i].Sentinel?
  }

  lemma {:induction false} ReadsAllIff(lines: seq<Line>)
    ensures |Read(lines)| == |lines| <==> forall i :: 0 <= i < |lines| ==> !lines[i].Sentinel?
  {
    if lines != [] && !lines[0].Sentinel? {
      ReadsAllIff(lines[1..]);
      assert forall i :: 0 < i < |lines| ==> lines[i] == lines[1..][i - 1];
    }
  }

  /** A reply is an answer unless it was refused or broke off. */
  lemma RepliesAreAnswers(reply: Reply)
    ensures reply.Refused? ==> Ask(reply) == Interrupted([], reply.failure)
    ensures BreaksOff(reply) ==> Ask(reply) == Interrupted(SpokenBy(reply), reply.broken.value)
    ensures reply.Streamed? && !BreaksOff(reply) ==> Ask(reply).Answered? && Ask(reply).out == SpokenBy(reply)
  {
    AnswersSpeak(reply);
    if reply.Streamed? { ReadsAllIff(reply.lines); }
  }

  lemma {:induction false} CallsAreListed(calls: map<int, ModelCall>, idxs: seq<int>)
    requires forall k :: 0 <= k < |idxs| ==> idxs[k] in calls
    ensures |ToolCallStream.CallsIn(calls, idxs)| == |idxs|
    ensures forall k :: 0 <= k < |idxs| ==> ToolCallStream.CallsIn(calls, idxs)[k] == calls[idxs[k]]
  {
    if idxs != [] { CallsAreListed(calls, idxs[..|idxs| - 1]); }
  }

  /** got are the calls, each once, in the order of their indices. */
  ghost predicate InOrder(calls: map<int, ModelCall>, idxs: seq<int>, got: seq<ModelCall>) {
    && |got| == |idxs| && Lists(idxs, calls.Keys)
    && forall k :: 0 <= k < |idxs| ==> idxs[k] in calls && got[k] == calls[idxs[k]]
  }

  lemma IndexOrdersCalls(calls: map<int, ModelCall>)
    ensures InOrder(calls, Listing(calls.Keys), ByIndex(calls))
  {
    CallsAreListed(calls, Listing(calls.Keys));
  }

  lemma AnswersReassemble(reply: Reply)
    requires reply.Streamed? && !BreaksOff(reply)
    ensures Ask(reply).Answered? && Ask(reply).calls == ToolCallStream.Calls(FoldAll(map[], CarriedIn(reply.lines)))
  {
    RepliesAreAnswers(reply);
    FragmentsAreCarried(reply.lines);
  }

  /** However the calls of a reply are cut into fragments, interleaved over its lines: if it
      is neither refused nor breaks off, they are all there, in the order of their indices. */
  lemma AnswersHaveCalls(reply: Reply, calls: map<int, ModelCall>, parts: map<int, seq<Fragment>>)
    returns (idxs: seq<int>)
    requires reply.Streamed? && !BreaksOff(reply)
    requires parts.Keys == calls.Keys && Interleaving(parts, CarriedIn(reply.lines))
    requires forall i :: i in calls ==> Splits(parts[i], calls[i])
    ensures Ask(reply).Answered? && InOrder(calls, idxs, Ask(reply).calls)
  {
    AnswersReassemble(reply);
    ReassemblyInvertsSplitting(calls, parts, CarriedIn(reply.lines));
    IndexOrdersCalls(calls);
    idxs := Listing(calls.Keys);
  }

  // ----- The channel -----------------------------------------------------------------

  /** The events on a channel without the results of calls and without the end. */
  function Bare(events: seq<Event>): seq<Event> {
    if events == [] then []
    else
      Bare(events[..|events| - 1])
      + match events[|events| - 1]
        case Done(_) => []
        case ToolCall(tool, args, ref, _) => [ToolCall(tool, args, ref, "")]
        case e => [e]
  }

  lemma {:induction false} BareAppend(a: seq<Event>, b: seq<Event>)
    ensures Bare(a + b) == Bare(a) + Bare(b)
  {
    if b == [] {
      assert a + b == a;
    } else {
      assert (a + b)[..|a + b| - 1] == a + b[..|b| - 1];
      BareAppend(a, b[..|b| - 1]);
    }
  }

  lemma {:induction false} TextIsBare(events: seq<Event>)
    requires forall k :: 0 <= k < |events| ==> events[k].Text? || events[k].Error?
    ensures Bare(events) == events
  {
    if events != [] {
      TextIsBare(events[..|events| - 1]);
    }
  }

  ghost function SaidBy(model: Model, at: seq<nat>): seq<Event> {
    if at == [] then []
    else
      var a := model(at[|at| - 1]);
      SaidBy(model, at[..|at| - 1]) + (a.out + Announced(CallsIn(a)))
  }

  lemma {:induction false} SaidIsSpoken(env: Env, at: seq<nat>)
    ensures SaidBy(ReadBy(env), at) == SpokenAt(env, at)
  {
    if at != [] {
      SaidIsSpoken(env, at[..|at| - 1]);
      AnswersSpeak(env.replies(at[|at| - 1]));
    }
  }

  lemma {:induction false} CallsAreAnnounced(env: Env, cfg: Config, user: Id, t: Turn, calls: seq<ModelCall>)
    ensures Bare(RunCalls(env, cfg, user, t, calls).out) == Bare(t.out) + Announced(calls)
  {
    if calls != [] {
      var init, c := calls[..|calls| - 1], calls[|calls| - 1];
      CallsAreAnnounced(env, cfg, user, t, init);
      OneCallIsAnnounced(env, cfg, user, RunCalls(env, cfg, user, t, init), c);
    } else {
      assert Bare(t.out) + [] == Bare(t.out);
    }
  }

  lemma OneCallIsAnnounced(env: Env, cfg: Config, user: Id, t: Turn, c: ModelCall)
    ensures Bare(RunCall(env, cfg, user, t, c).out) == Bare(t.out) + [ToolCall(c.name, c.args, FromModel(c.id), "")]
  {
    var out := RunCall(env, cfg, user, t, c).out;
    assert out[..|out| - 1] == t.out;
  }

  lemma EndIsBare(t: Turn)
    ensures Bare(Finish(t).out) == Bare(t.out)
  {
    var out := Finish(t).out;
    assert out[..|out| - 1] == t.out && Bare(t.out) + [] == Bare(t.out);
  }

  lemma HeardIsSaid(model: Model, t: Turn)
    requires SaysText(model) && Bare(t.out) == SaidBy(model, t.at)
    ensures var t1 := Heard(model, t);
            Bare(t1.out) + Announced(CallsHeard(model, t)) == SaidBy(model, t1.at) && t1.at == t.at + [t.w.tick]
  {
    var a := model(t.w.tick);
    BareAppend(t.out, a.out);
    TextIsBare(a.out);
    SaidMore(model, t.at, t.w.tick);
    Regroup(Bare(t.out), a.out, Announced(CallsIn(a)));
  }

  lemma SaidMore(model: Model, at: seq<nat>, k: nat)
    ensures SaidBy(model, at + [k]) == SaidBy(model, at) + (model(k).out + Announced(CallsIn(model(k))))
  {
    assert (at + [k])[..|at|] == at;
  }

  lemma RoundSays(model: Model, env: Env, cfg: Config, user: Id, t: Turn)
    requires SaysText(model) && t.ending == Running && Bare(t.out) == SaidBy(model, t.at)
    ensures var r := Round(model, env, cfg, user, t); Bare(r.out) == SaidBy(model, r.at)
  {
    var t1, calls := Heard(model, t), CallsHeard(model, t);
    HeardIsSaid(model, t);
    if calls == [] {
      EndIsBare(t1);
      assert Bare(t1.out) + Announced(calls) == Bare(t1.out);
    } else {
      CallsAreAnnounced(env, cfg, user, t1, calls);
      EndIsBare(RunCalls(env, cfg, user, t1, calls));
    }
  }

  lemma {:induction false} RoundsSay(model: Model, env: Env, cfg: Config, user: Id, t: Turn, round: nat)
    requires SaysText(model) && t.ending == Running && Bare(t.out) == SaidBy(model, t.at)
    ensures var r := Rounds(model, env, cfg, user, t, round); Bare(r.out) == SaidBy(model, r.at)
    decreases MAX_ROUNDS - round
  {
    EndIsBare(t);
    if round < MAX_ROUNDS {
      RoundSays(model, env, cfg, user, t);
      var t1 := Round(model, env, cfg, user, t);
      if t1.ending == Running { RoundsSay(model, env, cfg, user, t1, round + 1); }
    }
  }

  /** Whatever the model does, the channel carries, reply by reply and in order, exactly
      the text and the errors of the chunks before the sentinel and then the calls, with
      their ids, names and arguments. */
  lemma ChannelIsWhatModelSaid(env: Env, cfg: Config, user: Id, w: World, req: Request)
    ensures var t := Stream(env, cfg, user, w, req); Bare(t.out) == SpokenAt(env, t.at)
  {
    RepliesAreText(env);
    RoundsSay(ReadBy(env), env, cfg, user, Start(cfg, w, req), FIRST_ROUND);
    SaidIsSpoken(env, Stream(env, cfg, user, w, req).at);
  }

  /** The channel of a run: refused without a model, otherwise that of the stream, with one
      error behind it if it broke for a reason. */
  lemma RunIsStream(env: Env, cfg: Config, user: Id, w: World, req: Request)
    ensures var (w', events) := Run(env, cfg, user, w, req);
            if req.provider.provider == "" || req.provider.key == ""
            then
              && w' == w
              && events
                 == [Error("No model provider is configured. Add an API key in Agent Settings (under Settings).")]
            else
              var t := Stream(env, cfg, user, w, req);
              && w' == t.w
              && events == match t.ending
                           case Broken(Because(text)) => t.out + [Error(text)]
                           case _ => t.out
  {
  }

  // ----- The rounds ------------------------------------------------------------------

  /** The answer calls for another round: it has calls, and the harness runs them all. */
  predicate GoesOn(cfg: Config, a: Answer) {
    a.Answered? && a.calls != []
    && forall k :: 0 <= k < |a.calls| ==> cfg.harnessHasTools && !cfg.destructive(a.calls[k].name)
  }

  /** The transcript goes on with the calls as the assistant's and one message per call. */
  predicate Continues(before: seq<ChatMessage>, calls: seq<ModelCall>, after: seq<ChatMessage>) {
    before + [ChatMessage(ModelSays, "", calls, "")] <= after && |after| == |before| + 1 + |calls|
  }

  /** The answer to a request called for another round, and the transcript of that round
      carries the one of the request on. */
  ghost predicate Linked(
    cfg: Config, a: Answer, before: seq<ChatMessage>, tick: nat, after: seq<ChatMessage>, next: nat)
  {
    GoesOn(cfg, a) && tick < next && Continues(before, a.calls, after)
  }

  /** So it is from each request to the next one; messages and now are those of the round
      that is due. */
  ghost predicate Chained(
    model: Model, cfg: Config, asked: seq<seq<ChatMessage>>, at: seq<nat>, messages: seq<ChatMessage>, now: nat)
  {
    && |asked| == |at|
    && (at != [] ==>
          var last := |at| - 1;
          && Linked(cfg, model(at[last]), asked[last], at[last], messages, now)
          && Chained(model, cfg, asked[..last], at[..last], asked[last], at[last]))
  }

  ghost predicate Begun(base: seq<ChatMessage>, tick: nat, t: Turn) {
    && |t.asked| == |t.at|
    && if t.at == [] then t.messages == base && t.w.tick == tick else t.asked[0] == base && t.at[0] == tick
  }

  ghost predicate Going(model: Model, cfg: Config, base: seq<ChatMessage>, tick: nat, t: Turn) {
    t.ending == Running && Begun(base, tick, t) && Chained(model, cfg, t.asked, t.at, t.messages, t.w.tick)
  }

  /** All requests but the last called for another round. The last one broke off, or it
      called for none, or it was the sixth. */
  ghost predicate Over(model: Model, cfg: Config, base: seq<ChatMessage>, tick: nat, t: Turn) {
    && Begun(base, tick, t) && 0 < |t.at| <= 6
    && var last := |t.at| - 1;
       && Chained(model, cfg, t.asked[..last], t.at[..last], t.asked[last], t.at[last])
       && match model(t.at[last])
          case Interrupted(_, f) => t.ending == Broken(f)
          case a => t.ending == Finished && (!GoesOn(cfg, a) || |t.at| == 6)
  }

  lemma {:induction false} CallsGrowTranscript(env: Env, cfg: Config, user: Id, t: Turn, calls: seq<ModelCall>)
    ensures var r := RunCalls(env, cfg, user, t, calls);
            && t.messages <= r.messages && t.w.tick <= r.w.tick
            && (!AnySurfaced(cfg, calls) ==> |r.messages| == |t.messages| + |calls|)
  {
    if calls != [] {
      var init := calls[..|calls| - 1];
      CallsGrowTranscript(env, cfg, user, t, init);
      if !AnySurfaced(cfg, calls) {
        assert !AnySurfaced(cfg, init) && !Surfaced(cfg, calls[|calls| - 1].name);
      }
    }
  }

  lemma ChainGrows(
    model: Model, cfg: Config, asked: seq<seq<ChatMessage>>, at: seq<nat>, messages: seq<ChatMessage>, now: nat,
    messages': seq<ChatMessage>, now': nat)
    requires Chained(model, cfg, asked, at, messages, now) && GoesOn(cfg, model(now)) && now < now'
    requires Continues(messages, model(now).calls, messages')
    ensures Chained(model, cfg, asked + [messages], at + [now], messages', now')
  {
    assert (asked + [messages])[..|asked|] == asked && (at + [now])[..|at|] == at;
  }

  lemma RoundGoesOn(
    model: Model, env: Env, cfg: Config, user: Id, base: seq<ChatMessage>, tick: nat, t: Turn)
    requires Going(model, cfg, base, tick, t) && |t.at| < 6
    ensures var r := Round(model, env, cfg, user, t);
            && |r.at| == |t.at| + 1
            && if r.ending == Running then Going(model, cfg, base, tick, r) else Over(model, cfg, base, tick, r)
  {
    var t1, calls := Heard(model, t), CallsHeard(model, t);
    CallsGrowTranscript(env, cfg, user, t1, calls);
    var r := Round(model, env, cfg, user, t);
    assert r.at == t.at + [t.w.tick] && r.asked == t.asked + [t.messages];
    if r.ending == Running {
      assert !AnySurfaced(cfg, calls);
      assert GoesOn(cfg, model(t.w.tick));
      ChainGrows(model, cfg, t.asked, t.at, t.messages, t.w.tick, r.messages, r.w.tick);
    } else {
      assert r.at[..|t.at|] == t.at && r.asked[..|t.asked|] == t.asked;
      if AnySurfaced(cfg, calls) {
        var k :| 0 <= k < |calls| && Surfaced(cfg, calls[k].name);
        assert !GoesOn(cfg, model(t.w.tick));
      }
    }
  }

  lemma SixthIsLast(model: Model, cfg: Config, base: seq<ChatMessage>, tick: nat, t: Turn)
    requires Going(model, cfg, base, tick, t) && |t.at| == 6
    ensures Over(model, cfg, base, tick, Finish(t))
  {
    assert GoesOn(cfg, model(t.at[5]));
  }

  lemma {:induction false} RoundsEnd(
    model: Model, env: Env, cfg: Config, user: Id, base: seq<ChatMessage>, tick: nat, t: Turn, round: nat)
    requires Going(model, cfg, base, tick, t) && |t.at| == round <= MAX_ROUNDS
    ensures Over(model, cfg, base, tick, Rounds(model, env, cfg, user, t, round))
    decreases MAX_ROUNDS - round
  {
    if round == MAX_ROUNDS {
      SixthIsLast(model, cfg, base, tick, t);
    } else {
      RoundGoesOn(model, env, cfg, user, base, tick, t);
      var t1 := Round(model, env, cfg, user, t);
      if t1.ending == Running { RoundsEnd(model, env, cfg, user, base, tick, t1, round + 1); }
    }
  }

  /** The first request is made at once and carries system prompt, history and prompt; the
      turn goes on exactly while the model asks for calls that the harness runs all, up to
      the sixth request; each request carries the one before it with the calls and their
      results; and the last reply decides how the turn ends. */
  lemma RoundsFollowReplies(env: Env, cfg: Config, user: Id, w: World, req: Request)
    ensures Over(ReadBy(env), cfg, BaseMessages(cfg.systemPrompt, req), w.tick, Stream(env, cfg, user, w, req))
  {
    var base := BaseMessages(cfg.systemPrompt, req);
    RoundsEnd(ReadBy(env), env, cfg, user, base, w.tick, Start(cfg, w, req), FIRST_ROUND);
  }
}
