/** The model-backed harness: a bounded loop of model rounds that runs read-only
    tools itself and surfaces every other call. */
module LlmHarness {
  import opened AgentTypes
  import opened ToolCallStream
  import opened AgentWorld
  import opened Wrappers

  /** The role of a message sent to the model. */
  datatype Speaker = SystemSays | UserSays | ModelSays | ToolSays

  datatype ChatMessage = ChatMessage(role: Speaker, content: string, calls: seq<ModelCall>, callId: string)

  datatype Past = Past(role: string, content: string)

  datatype Resolved = Resolved(provider: string, model: string, baseUrl: string, key: string, adminProvided: bool)

  /** tools goes along with every model request as it is. */
  datatype Request = Request(history: seq<Past>, prompt: string, provider: Resolved, tools: seq<ToolDescriptor>)

  datatype Ending = Running | Finished | Broken(failure: Failure)

  /** A turn in progress. asked and at record the transcript sent with every model
      request and the tick at which it was answered. */
  datatype Turn = Turn(
    w: World, messages: seq<ChatMessage>, total: Usage, out: seq<Event>,
    asked: seq<seq<ChatMessage>>, at: seq<nat>, ending: Ending)

  const FIRST_ROUND: nat := 0
  const MAX_ROUNDS: nat := 6

  // ----- The base transcript -------------------------------------------------

  /** The role a stored message is replayed in: an unknown one is the assistant's. */
  function SpeakerOf(role: string): Speaker {
    if role == "user" then UserSays else if role == "system" then SystemSays else ModelSays
  }

  function ChatOf(p: Past): seq<ChatMessage> {
    if p.content == "" then [] else [ChatMessage(SpeakerOf(p.role), p.content, [], "")]
  }

  function HistoryChat(history: seq<Past>): seq<ChatMessage> {
    if history == [] then [] else HistoryChat(history[..|history| - 1]) + ChatOf(history[|history| - 1])
  }

  function BaseMessages(systemPrompt: string, req: Request): seq<ChatMessage> {
    (if systemPrompt != "" then [ChatMessage(SystemSays, systemPrompt, [], "")] else [])
    + HistoryChat(req.history)
    + [ChatMessage(UserSays, req.prompt, [], "")]
  }

  // ----- One round -----------------------------------------------------------

  /** Not run by the harness: destructive, or no executor is wired. */
  predicate Surfaced(cfg: Config, tool: string) {
    !cfg.harnessHasTools || cfg.destructive(tool)
  }

  function RunCall(env: Env, cfg: Config, user: Id, t: Turn, c: ModelCall): Turn {
    if Surfaced(cfg, c.name) then
      t.(out := t.out + [ToolCall(c.name, c.args, FromModel(c.id), "")])
    else
      var (w, o) := Execute(env, t.w, user, c.name, c.args, InHarness);
      t.(w := w,
         out := t.out + [ToolCall(c.name, c.args, FromModel(c.id), Recorded(o))],
         messages := t.messages + [ChatMessage(ToolSays, Recorded(o), [], c.id)])
  }

  function RunCalls(env: Env, cfg: Config, user: Id, t: Turn, calls: seq<ModelCall>): (r: Turn)
    ensures r.asked == t.asked && r.at == t.at && r.total == t.total && r.ending == t.ending
  {
    if calls == [] then t
    else RunCall(env, cfg, user, RunCalls(env, cfg, user, t, calls[..|calls| - 1]), calls[|calls| - 1])
  }

  lemma OneMoreCall(env: Env, cfg: Config, user: Id, t: Turn, calls: seq<ModelCall>, i: nat)
    requires i < |calls|
    ensures RunCalls(env, cfg, user, t, calls[..i + 1])
         == RunCall(env, cfg, user, RunCalls(env, cfg, user, t, calls[..i]), calls[i])
    ensures AnySurfaced(cfg, calls[..i + 1]) <==> AnySurfaced(cfg, calls[..i]) || Surfaced(cfg, calls[i].name)
  {
    var now := calls[..i + 1];
    assert now[..i] == calls[..i] && now[i] == calls[i];
    if AnySurfaced(cfg, calls[..i]) {
      var k :| 0 <= k < i && Surfaced(cfg, calls[..i][k].name);
      assert Surfaced(cfg, now[k].name);
    }
  }

  predicate AnySurfaced(cfg: Config, calls: seq<ModelCall>) {
    exists k :: 0 <= k < |calls| && Surfaced(cfg, calls[k].name)
  }

  function Finish(t: Turn): Turn {
    t.(out := t.out + [Done(UsageOrNil(t.total))], ending := Finished)
  }

  /** What callModel returns, by tick; the round loop is stated for any such
      model and put to work with the one that reads the provider's replies. */
  type Model = nat -> Answer

  ghost function ReadBy(env: Env): Model {
    (k: nat) => Ask(env.replies(k))
  }

  /** The request of a round, and its answer taken in up to the tool calls. */
  function Heard(model: Model, t: Turn): Turn {
    var a := model(t.w.tick);
    var t1 := t.(w := Tick(t.w), asked := t.asked + [t.messages], at := t.at + [t.w.tick], out := t.out + a.out);
    match a
    case Interrupted(_, f) => t1.(ending := Broken(f))
    case Answered(_, calls, usage) =>
      t1.(total := AddUsage(t.total, usage),
          messages := t.messages + if calls == [] then [] else [ChatMessage(ModelSays, "", calls, "")])
  }

  function CallsHeard(model: Model, t: Turn): seq<ModelCall> {
    var a := model(t.w.tick);
    if a.Answered? then a.calls else []
  }

  /** One round; the turn is still running exactly when another one is due. */
  function Round(model: Model, env: Env, cfg: Config, user: Id, t: Turn): Turn {
    var t1 := Heard(model, t);
    var calls := CallsHeard(model, t);
    if t1.ending.Broken? then t1
    else if calls == [] then Finish(t1)
    else
      var t2 := RunCalls(env, cfg, user, t1, calls);
      if AnySurfaced(cfg, calls) then Finish(t2) else t2
  }

  function Rounds(model: Model, env: Env, cfg: Config, user: Id, t: Turn, round: nat): Turn
    decreases MAX_ROUNDS - round
  {
    if round >= MAX_ROUNDS then Finish(t)
    else
      var t1 := Round(model, env, cfg, user, t);
      if t1.ending != Running then t1 else Rounds(model, env, cfg, user, t1, round + 1)
  }

  function Start(cfg: Config, w: World, req: Request): Turn {
    Turn(w, BaseMessages(cfg.systemPrompt, req), NO_USAGE, [], [], [], Running)
  }

  /** A whole harness turn: the world it leaves and the events on its channel. */
  ghost function Stream(env: Env, cfg: Config, user: Id, w: World, req: Request): Turn {
    Rounds(ReadBy(env), env, cfg, user, Start(cfg, w, req), FIRST_ROUND)
  }

  const NO_PROVIDER := "No model provider is configured. Add an API key in Agent Settings (under Settings)."

  function WithError(t: Turn): seq<Event> {
    if t.ending.Broken? && t.ending.failure.Because? then t.out + [Error(t.ending.failure.text)] else t.out
  }

  ghost function Run(env: Env, cfg: Config, user: Id, w: World, req: Request): (World, seq<Event>) {
    if req.provider.provider == "" || req.provider.key == "" then (w, [Error(NO_PROVIDER)])
    else
      var t := Stream(env, cfg, user, w, req);
      (t.w, WithError(t))
  }

  // ----- What every round keeps ------------------------------------------------

  /** The executions a list of harness events stands for: each call that was not
      surfaced, with the very result that is on the channel. */
  function Ran(cfg: Config, user: Id, events: seq<Event>): seq<Execution> {
    if events == [] then []
    else
      var e := events[|events| - 1];
      Ran(cfg, user, events[..|events| - 1])
      + if e.ToolCall? && !Surfaced(cfg, e.tool) then [Execution(e.tool, e.args, user, InHarness, e.result)] else []
  }

  lemma {:induction false} RanAppend(cfg: Config, user: Id, a: seq<Event>, b: seq<Event>)
    ensures Ran(cfg, user, a + b) == Ran(cfg, user, a) + Ran(cfg, user, b)
  {
    if b == [] {
      assert a + b == a;
    } else {
      assert (a + b)[..|a + b| - 1] == a + b[..|b| - 1];
      RanAppend(cfg, user, a, b[..|b| - 1]);
    }
  }

  /** Text and errors come from the model; a call carries a recorded outcome, or no
      result when it is surfaced. */
  ghost predicate FromHarness(env: Env, cfg: Config, e: Event) {
    match e
    case Text(_) => true
    case Error(_) => true
    case ToolCall(tool, _, ref, result) =>
      ref.FromModel? && if Surfaced(cfg, tool) then result == "" else exists k :: result == Recorded(env.runs(k))
    case _ => false
  }

  /** From w to w' only ticks passed and tools ran: the executor's log grew by ran, and
      the audit trail by what the executor wrote itself. */
  ghost predicate OnlyRan(w: World, w': World, ran: seq<Execution>) {
    && w'.clock == w.clock && w'.store == w.store
    && w'.calls == w.calls.(executions := w.calls.executions + ran)
    && OnlyNotes(w, w')
  }

  /** The harness changes nothing but the executor's log, which grows by exactly the
      read-only calls on the channel, in order and each with its own result. */
  ghost predicate Sound(env: Env, cfg: Config, user: Id, w: World, t: Turn, body: seq<Event>) {
    && OnlyRan(w, t.w, Ran(cfg, user, t.out))
    && (forall k :: 0 <= k < |body| ==> FromHarness(env, cfg, body[k]))
    && t.out == body + if t.ending == Finished then [Done(UsageOrNil(t.total))] else []
  }

  lemma {:induction false} ModelTextIsText(lines: seq<Line>)
    ensures forall k :: 0 <= k < |AllText(lines)| ==> AllText(lines)[k].Text? || AllText(lines)[k].Error?
  {
    if lines != [] {
      ModelTextIsText(lines[..|lines| - 1]);
    }
  }

  lemma {:induction false} NothingRanInText(cfg: Config, user: Id, events: seq<Event>)
    requires forall k :: 0 <= k < |events| ==> !events[k].ToolCall?
    ensures Ran(cfg, user, events) == []
  {
    if events != [] {
      NothingRanInText(cfg, user, events[..|events| - 1]);
    }
  }

  ghost predicate SaysText(model: Model) {
    forall k, i :: 0 <= i < |model(k).out| ==> model(k).out[i].Text? || model(k).out[i].Error?
  }

  lemma RepliesAreText(env: Env)
    ensures SaysText(ReadBy(env))
  {
    forall k: nat, i | 0 <= i < |ReadBy(env)(k).out|
      ensures ReadBy(env)(k).out[i].Text? || ReadBy(env)(k).out[i].Error?
    {
      if env.replies(k).Streamed? {
        ModelTextIsText(Read(env.replies(k).lines));
      }
    }
  }

  lemma HeardIsSound(model: Model, env: Env, cfg: Config, user: Id, w: World, t: Turn)
    requires SaysText(model) && t.ending == Running && Sound(env, cfg, user, w, t, t.out)
    ensures var t1 := Heard(model, t); t1.ending != Finished && Sound(env, cfg, user, w, t1, t1.out)
  {
    var a := model(t.w.tick);
    assert forall k :: 0 <= k < |a.out| ==> FromHarness(env, cfg, a.out[k]) && !a.out[k].ToolCall?;
    NothingRanInText(cfg, user, a.out);
    RanAppend(cfg, user, t.out, a.out);
    assert w.calls.executions + Ran(cfg, user, t.out) == w.calls.executions + Ran(cfg, user, t.out + a.out);
  }

  lemma RunCallIsSound(env: Env, cfg: Config, user: Id, w: World, t: Turn, c: ModelCall)
    requires t.ending == Running && Sound(env, cfg, user, w, t, t.out)
    ensures var t1 := RunCall(env, cfg, user, t, c); t1.ending == Running && Sound(env, cfg, user, w, t1, t1.out)
  {
    var t1 := RunCall(env, cfg, user, t, c);
    var e := t1.out[|t.out|];
    CallIsFromHarness(env, cfg, user, t, c);
    RanOne(cfg, user, t.out, e, w.calls.executions);
    if !Surfaced(cfg, c.name) {
      ExecuteOnlyRan(env, t.w, user, c.name, c.args);
      OnlyNotesTrans(w, t.w, t1.w);
    }
  }

  lemma ExecuteOnlyRan(env: Env, w: World, user: Id, tool: string, args: string)
    ensures var (w', o) := Execute(env, w, user, tool, args, InHarness);
            OnlyRan(w, w', [Execution(tool, args, user, InHarness, Recorded(o))])
  {
    NotedIsOnlyNotes(w, user, env.notes(w.tick));
  }

  lemma CallIsFromHarness(env: Env, cfg: Config, user: Id, t: Turn, c: ModelCall)
    ensures var out := RunCall(env, cfg, user, t, c).out;
            |out| == |t.out| + 1 && out == t.out + [out[|t.out|]] && FromHarness(env, cfg, out[|t.out|])
  {
    if !Surfaced(cfg, c.name) {
      assert RunCall(env, cfg, user, t, c).out[|t.out|].result == Recorded(env.runs(t.w.tick));
    }
  }

  lemma RanOne(cfg: Config, user: Id, events: seq<Event>, e: Event, log: seq<Execution>)
    ensures log + Ran(cfg, user, events + [e]) ==
      if e.ToolCall? && !Surfaced(cfg, e.tool)
      then (log + Ran(cfg, user, events)) + [Execution(e.tool, e.args, user, InHarness, e.result)]
      else log + Ran(cfg, user, events)
  {
    assert (events + [e])[..|events|] == events;
    assert Ran(cfg, user, events) + [] == Ran(cfg, user, events);
  }

  lemma {:induction false} RunCallsIsSound(env: Env, cfg: Config, user: Id, w: World, t: Turn, calls: seq<ModelCall>)
    requires t.ending == Running && Sound(env, cfg, user, w, t, t.out)
    ensures var t1 := RunCalls(env, cfg, user, t, calls); t1.ending == Running && Sound(env, cfg, user, w, t1, t1.out)
  {
    if calls != [] {
      RunCallsIsSound(env, cfg, user, w, t, calls[..|calls| - 1]);
      RunCallIsSound(env, cfg, user, w, RunCalls(env, cfg, user, t, calls[..|calls| - 1]), calls[|calls| - 1]);
    }
  }

  lemma FinishIsSound(env: Env, cfg: Config, user: Id, w: World, t: Turn)
    requires t.ending == Running && Sound(env, cfg, user, w, t, t.out)
    ensures Sound(env, cfg, user, w, Finish(t), t.out) && Finish(t).ending == Finished
  {
    var d := [Done(UsageOrNil(t.total))];
    NothingRanInText(cfg, user, d);
    RanAppend(cfg, user, t.out, d);
    assert w.calls.executions + Ran(cfg, user, t.out) == w.calls.executions + Ran(cfg, user, t.out + d);
  }

  lemma RoundIsSound(model: Model, env: Env, cfg: Config, user: Id, w: World, t: Turn)
    returns (body: seq<Event>)
    requires SaysText(model) && t.ending == Running && Sound(env, cfg, user, w, t, t.out)
    ensures var r := Round(model, env, cfg, user, t);
            Sound(env, cfg, user, w, r, body) && (r.ending == Running ==> body == r.out)
  {
    var t1, calls := Heard(model, t), CallsHeard(model, t);
    HeardIsSound(model, env, cfg, user, w, t);
    if t1.ending.Broken? {
      return t1.out;
    }
    if calls == [] {
      FinishIsSound(env, cfg, user, w, t1);
      return t1.out;
    }
    RunCallsIsSound(env, cfg, user, w, t1, calls);
    var t2 := RunCalls(env, cfg, user, t1, calls);
    FinishIsSound(env, cfg, user, w, t2);
    body := t2.out;
  }

  lemma {:induction false} RoundsAreSound(model: Model, env: Env, cfg: Config, user: Id, w: World, t: Turn, round: nat)
    returns (body: seq<Event>)
    requires SaysText(model) && t.ending == Running && Sound(env, cfg, user, w, t, t.out)
    ensures var r := Rounds(model, env, cfg, user, t, round); r.ending != Running && Sound(env, cfg, user, w, r, body)
    decreases MAX_ROUNDS - round
  {
    if round >= MAX_ROUNDS {
      FinishIsSound(env, cfg, user, w, t);
      return t.out;
    }
    body := RoundIsSound(model, env, cfg, user, w, t);
    var t1 := Round(model, env, cfg, user, t);
    if t1.ending == Running {
      body := RoundsAreSound(model, env, cfg, user, w, t1, round + 1);
    }
  }

  ghost predicate Contract(env: Env, cfg: Config, user: Id, w: World, w1: World, body: seq<Event>, tail: seq<Event>) {
    && (tail == [] || (|tail| == 1 && tail[0].Done?))
    && (forall k :: 0 <= k < |body| ==> FromHarness(env, cfg, body[k]))
    && OnlyRan(w, w1, Ran(cfg, user, body))
  }

  lemma RanInBody(cfg: Config, user: Id, body: seq<Event>, tail: seq<Event>)
    requires tail == [] || (|tail| == 1 && !tail[0].ToolCall?)
    ensures Ran(cfg, user, body + tail) == Ran(cfg, user, body)
  {
    if tail == [] {
      assert body + tail == body;
    } else {
      assert (body + tail)[..|body|] == body;
      assert Ran(cfg, user, body) + [] == Ran(cfg, user, body);
    }
  }

  lemma WithErrorIsSound(env: Env, cfg: Config, user: Id, w: World, t: Turn, inner: seq<Event>)
    returns (body: seq<Event>, tail: seq<Event>)
    requires Sound(env, cfg, user, w, t, inner)
    ensures WithError(t) == body + tail && Contract(env, cfg, user, w, t.w, body, tail)
  {
    body, tail := inner, [];
    if t.ending == Finished {
      tail := [Done(UsageOrNil(t.total))];
      RanInBody(cfg, user, inner, tail);
    } else {
      assert t.out == inner && inner + [] == inner;
      if t.ending.Broken? && t.ending.failure.Because? {
        body := inner + [Error(t.ending.failure.text)];
        RanInBody(cfg, user, inner, [Error(t.ending.failure.text)]);
        assert body + [] == body;
      }
    }
  }

  lemma StartIsSound(env: Env, cfg: Config, user: Id, w: World, req: Request)
    ensures Sound(env, cfg, user, w, Start(cfg, w, req), [])
  {
    assert w.calls.executions + [] == w.calls.executions;
  }

  /** The harness contract the service relies on, for every model behaviour:
      body events only, at most one Done and that one last, every read-only call
      of the channel executed once and nothing else touched. */
  lemma RunIsSound(env: Env, cfg: Config, user: Id, w: World, req: Request)
    returns (body: seq<Event>, tail: seq<Event>)
    ensures var (w1, events) := Run(env, cfg, user, w, req);
            events == body + tail && Contract(env, cfg, user, w, w1, body, tail)
  {
    if req.provider.provider == "" || req.provider.key == "" {
      body, tail := [Error(NO_PROVIDER)], [];
      NothingRanInText(cfg, user, body);
      assert w.calls.executions + [] == w.calls.executions;
      return;
    }
    RepliesAreText(env);
    StartIsSound(env, cfg, user, w, req);
    var inner := RoundsAreSound(ReadBy(env), env, cfg, user, w, Start(cfg, w, req), 0);
    body, tail := WithErrorIsSound(env, cfg, user, w, Stream(env, cfg, user, w, req), inner);
  }

  // ----- A model that asks for one tool ----------------------------------------

  predicate HasModel(req: Request) {
    req.provider.provider != "" && req.provider.key != ""
  }

  /** The execution of a call that the harness makes at its first opportunity. */
  function FirstRun(env: Env, w: World, user: Id, c: ModelCall): Execution {
    Execution(c.name, c.args, user, InHarness, Recorded(env.runs(w.tick + 1)))
  }

  lemma FirstRoundRuns(model: Model, env: Env, cfg: Config, user: Id, t: Turn, c: ModelCall)
    requires t.ending == Running && model(t.w.tick) == Answered([], [c], None) && !Surfaced(cfg, c.name)
    ensures var r := Round(model, env, cfg, user, t);
            && r.ending == Running && r.w == Execute(env, Tick(t.w), user, c.name, c.args, InHarness).0
            && r.out == t.out + [ToolCall(c.name, c.args, FromModel(c.id), Recorded(env.runs(t.w.tick + 1)))]
            && r.w.calls.executions == t.w.calls.executions + [FirstRun(env, t.w, user, c)]
  {
    var t1, calls := Heard(model, t), CallsHeard(model, t);
    assert t.out + [] == t.out;
    assert calls == [c] && calls[..|calls| - 1] == [];
    assert RunCalls(env, cfg, user, t1, calls) == RunCall(env, cfg, user, t1, c);
    assert !AnySurfaced(cfg, calls);
  }

  lemma CutOff(model: Model, env: Env, cfg: Config, user: Id, t: Turn, round: nat)
    requires t.ending == Running && model(t.w.tick) == Interrupted([], Cancelled) && round < MAX_ROUNDS
    ensures var r := Rounds(model, env, cfg, user, t, round);
            r.w == Tick(t.w) && r.out == t.out && r.ending == Broken(Cancelled)
  {
    assert t.out + [] == t.out;
  }

  lemma OneCallThenCutOff(model: Model, env: Env, cfg: Config, user: Id, t: Turn, c: ModelCall, round: nat)
    requires t.ending == Running && round + 1 < MAX_ROUNDS && !Surfaced(cfg, c.name)
    requires model(t.w.tick) == Answered([], [c], None) && model(t.w.tick + 2) == Interrupted([], Cancelled)
    ensures var r := Rounds(model, env, cfg, user, t, round);
            && r.ending == Broken(Cancelled) && r.w == Tick(Execute(env, Tick(t.w), user, c.name, c.args, InHarness).0)
            && r.out == t.out + [ToolCall(c.name, c.args, FromModel(c.id), Recorded(env.runs(t.w.tick + 1)))]
  {
    FirstRoundRuns(model, env, cfg, user, t, c);
    CutOff(model, env, cfg, user, Round(model, env, cfg, user, t), round + 1);
  }

  lemma CutOffTurn(env: Env, cfg: Config, user: Id, w: World, req: Request)
    requires HasModel(req) && Stream(env, cfg, user, w, req).ending == Broken(Cancelled)
    ensures var t := Stream(env, cfg, user, w, req); Run(env, cfg, user, w, req) == (t.w, t.out)
  {
  }

  lemma OneCallStream(env: Env, cfg: Config, user: Id, w: World, req: Request, c: ModelCall)
    requires !Surfaced(cfg, c.name)
    requires Ask(env.replies(w.tick)) == Answered([], [c], None)
    requires Ask(env.replies(w.tick + 2)) == Interrupted([], Cancelled)
    ensures var t := Stream(env, cfg, user, w, req);
            && t.ending == Broken(Cancelled) && t.w == Tick(Execute(env, Tick(w), user, c.name, c.args, InHarness).0)
            && t.out == [ToolCall(c.name, c.args, FromModel(c.id), Recorded(env.runs(w.tick + 1)))]
  {
    var start := Start(cfg, w, req);
    OneCallThenCutOff(ReadBy(env), env, cfg, user, start, c, FIRST_ROUND);
    assert start.out == [];
  }

  /** A model that asks for one read-only tool and is then cut off: one call is on the
      channel, and it has been run. */
  lemma OneCallTurn(env: Env, cfg: Config, user: Id, w: World, req: Request, c: ModelCall)
    requires HasModel(req) && !Surfaced(cfg, c.name)
    requires Ask(env.replies(w.tick)) == Answered([], [c], None)
    requires Ask(env.replies(w.tick + 2)) == Interrupted([], Cancelled)
    ensures var (w1, events) := Run(env, cfg, user, w, req);
            && events == [ToolCall(c.name, c.args, FromModel(c.id), Recorded(env.runs(w.tick + 1)))]
            && w1 == Tick(Execute(env, Tick(w), user, c.name, c.args, InHarness).0)
  {
    OneCallStream(env, cfg, user, w, req, c);
    CutOffTurn(env, cfg, user, w, req);
  }

  // ----- Transcripts ---------------------------------------------------------

  /** Every assistant message with tool calls is followed at once by exactly one
      tool message per call, same ids, same order; no other tool message occurs. */
  ghost predicate WellFormed(ms: seq<ChatMessage>)
    decreases |ms|
  {
    ms == [] ||
    if ms[0].calls == [] then ms[0].role != ToolSays && WellFormed(ms[1..])
    else
      && ms[0].role == ModelSays
      && |ms| > |ms[0].calls|
      && Answers(ms[1..1 + |ms[0].calls|], ms[0].calls)
      && WellFormed(ms[1 + |ms[0].calls|..])
  }

  ghost predicate Answers(ms: seq<ChatMessage>, calls: seq<ModelCall>) {
    && |ms| == |calls|
    && forall k :: 0 <= k < |ms| ==> ms[k].role == ToolSays && ms[k].calls == [] && ms[k].callId == calls[k].id
  }

  lemma {:induction false} WellFormedAppend(a: seq<ChatMessage>, b: seq<ChatMessage>)
    requires WellFormed(a) && WellFormed(b)
    ensures WellFormed(a + b)
    decreases |a|
  {
    if a == [] {
      assert a + b == b;
    } else {
      var n := |a[0].calls|;
      assert (a + b)[0] == a[0];
      assert (a + b)[1..] == a[1..] + b && (a + b)[1 + n..] == a[1 + n..] + b;
      assert (a + b)[1..1 + n] == a[1..1 + n];
      WellFormedAppend(a[1 + n..], b);
    }
  }

  lemma {:induction false} PlainIsWellFormed(ms: seq<ChatMessage>)
    requires forall k :: 0 <= k < |ms| ==> ms[k].calls == [] && ms[k].role != ToolSays
    ensures WellFormed(ms)
    decreases |ms|
  {
    if ms != [] {
      PlainIsWellFormed(ms[1..]);
    }
  }

  lemma {:induction false} HistoryIsPlain(history: seq<Past>)
    ensures forall k :: 0 <= k < |HistoryChat(history)| ==>
              HistoryChat(history)[k].calls == [] && HistoryChat(history)[k].role != ToolSays
  {
    if history != [] {
      HistoryIsPlain(history[..|history| - 1]);
    }
  }

  /** With no surfaced call, a round's tool messages answer its calls one by one. */
  lemma {:induction false} RunCallsAnswers(env: Env, cfg: Config, user: Id, t: Turn, calls: seq<ModelCall>)
    returns (answers: seq<ChatMessage>)
    requires !AnySurfaced(cfg, calls)
    ensures var t1 := RunCalls(env, cfg, user, t, calls);
            && t1.messages == t.messages + answers && Answers(answers, calls)
            && t1.asked == t.asked && t1.at == t.at && t1.total == t.total && t1.ending == t.ending
  {
    answers := [];
    if calls != [] {
      var before := RunCallsAnswers(env, cfg, user, t, calls[..|calls| - 1]);
      var t0 := RunCalls(env, cfg, user, t, calls[..|calls| - 1]);
      assert !Surfaced(cfg, calls[|calls| - 1].name);
      var t1 := RunCall(env, cfg, user, t0, calls[|calls| - 1]);
      answers := before + [t1.messages[|t1.messages| - 1]];
      assert t1.messages == t.messages + answers;
    } else {
      assert t.messages + [] == t.messages;
    }
  }

  ghost predicate AllWellFormed(asked: seq<seq<ChatMessage>>) {
    forall k :: 0 <= k < |asked| ==> WellFormed(asked[k])
  }

  lemma RoundAsksOnce(model: Model, env: Env, cfg: Config, user: Id, t: Turn)
    requires WellFormed(t.messages) && t.ending == Running
    ensures var r := Round(model, env, cfg, user, t);
            && r.asked == t.asked + [t.messages]
            && (AllWellFormed(t.asked) ==> AllWellFormed(r.asked))
            && (r.ending == Running ==> WellFormed(r.messages))
  {
    var t1, calls := Heard(model, t), CallsHeard(model, t);
    if !t1.ending.Broken? && calls != [] && !AnySurfaced(cfg, calls) {
      CallsKeepWellFormed(env, cfg, user, t1, t.messages, calls);
    }
  }

  lemma CallsKeepWellFormed(
    env: Env, cfg: Config, user: Id, t: Turn, before: seq<ChatMessage>, calls: seq<ModelCall>)
    requires WellFormed(before) && t.messages == before + [ChatMessage(ModelSays, "", calls, "")]
    requires calls != [] && !AnySurfaced(cfg, calls)
    ensures WellFormed(RunCalls(env, cfg, user, t, calls).messages)
  {
    var answers := RunCallsAnswers(env, cfg, user, t, calls);
    var group := [ChatMessage(ModelSays, "", calls, "")] + answers;
    GroupIsWellFormed(calls, answers);
    WellFormedAppend(before, group);
    assert RunCalls(env, cfg, user, t, calls).messages == before + group;
  }

  lemma GroupIsWellFormed(calls: seq<ModelCall>, answers: seq<ChatMessage>)
    requires calls != [] && Answers(answers, calls)
    ensures WellFormed([ChatMessage(ModelSays, "", calls, "")] + answers)
  {
    var group := [ChatMessage(ModelSays, "", calls, "")] + answers;
    assert group[1..1 + |calls|] == answers && group[1 + |calls|..] == [];
  }

  lemma {:induction false} RoundsAskWellFormed(model: Model, env: Env, cfg: Config, user: Id, t: Turn, round: nat)
    requires t.ending == Running && WellFormed(t.messages) && AllWellFormed(t.asked)
    requires |t.asked| <= round <= MAX_ROUNDS
    ensures var r := Rounds(model, env, cfg, user, t, round);
            AllWellFormed(r.asked) && |r.asked| <= MAX_ROUNDS
    decreases MAX_ROUNDS - round
  {
    if round < MAX_ROUNDS {
      RoundAsksOnce(model, env, cfg, user, t);
      var t1 := Round(model, env, cfg, user, t);
      if t1.ending == Running {
        RoundsAskWellFormed(model, env, cfg, user, t1, round + 1);
      }
    }
  }

  /** Every model request of a turn carries a well-formed transcript, and a turn
      makes at most six of them, whatever the model does. */
  lemma TranscriptsAreWellFormed(env: Env, cfg: Config, user: Id, w: World, req: Request)
    ensures var t := Stream(env, cfg, user, w, req); AllWellFormed(t.asked) && |t.asked| <= 6
  {
    HistoryIsPlain(req.history);
    PlainIsWellFormed(BaseMessages(cfg.systemPrompt, req));
    RoundsAskWellFormed(ReadBy(env), env, cfg, user, Start(cfg, w, req), 0);
  }

  // ----- Usage -----------------------------------------------------------------

  /** The last usage frame of one reply, if its stream came to its end. */
  function UsageHeard(reply: Reply): Option<Usage> {
    if reply.Refused? || (reply.broken.Some? && |Read(reply.lines)| == |reply.lines|) then None
    else LastUsage(Read(reply.lines))
  }

  function UsageSum(env: Env, at: seq<nat>): Usage {
    if at == [] then NO_USAGE else AddUsage(UsageSum(env, at[..|at| - 1]), UsageHeard(env.replies(at[|at| - 1])))
  }

  function AnswerSum(model: Model, at: seq<nat>): Usage {
    if at == [] then NO_USAGE
    else
      var a := model(at[|at| - 1]);
      AddUsage(AnswerSum(model, at[..|at| - 1]), if a.Answered? then a.usage else None)
  }

  lemma {:induction false} AnswerSumIsUsageSum(env: Env, at: seq<nat>)
    ensures AnswerSum(ReadBy(env), at) == UsageSum(env, at)
  {
    if at != [] {
      AnswerSumIsUsageSum(env, at[..|at| - 1]);
    }
  }

  ghost predicate Accounted(model: Model, t: Turn) {
    && t.total == AnswerSum(model, t.at) && |t.at| == |t.asked|
    && (t.ending == Finished ==> |t.out| > 0 && t.out[|t.out| - 1] == Done(UsageOrNil(t.total)))
  }

  lemma HeardIsAccounted(model: Model, t: Turn)
    requires Accounted(model, t) && t.ending == Running
    ensures Accounted(model, Heard(model, t)) && Heard(model, t).ending != Finished
  {
    var t1 := Heard(model, t);
    assert t1.at[..|t1.at| - 1] == t.at && t1.at[|t1.at| - 1] == t.w.tick;
  }

  lemma FinishIsAccounted(model: Model, t: Turn)
    requires Accounted(model, t)
    ensures Accounted(model, Finish(t))
  {
  }

  lemma RoundIsAccounted(model: Model, env: Env, cfg: Config, user: Id, t: Turn)
    requires Accounted(model, t) && t.ending == Running
    ensures Accounted(model, Round(model, env, cfg, user, t))
  {
    HeardIsAccounted(model, t);
    var t1, calls := Heard(model, t), CallsHeard(model, t);
    FinishIsAccounted(model, t1);
    if !t1.ending.Broken? && calls != [] {
      FinishIsAccounted(model, RunCalls(env, cfg, user, t1, calls));
    }
  }

  lemma {:induction false} RoundsSumUsage(model: Model, env: Env, cfg: Config, user: Id, t: Turn, round: nat)
    requires Accounted(model, t) && t.ending == Running
    ensures Accounted(model, Rounds(model, env, cfg, user, t, round))
    decreases MAX_ROUNDS - round
  {
    if round < MAX_ROUNDS {
      RoundIsAccounted(model, env, cfg, user, t);
      var t1 := Round(model, env, cfg, user, t);
      if t1.ending == Running {
        RoundsSumUsage(model, env, cfg, user, t1, round + 1);
      }
    }
  }

  /** One count, summed up over the replies at these ticks. */
  function Summed(env: Env, at: seq<nat>, part: Usage -> int): int {
    if at == [] then 0
    else
      var frame := UsageHeard(env.replies(at[|at| - 1]));
      Summed(env, at[..|at| - 1], part) + if frame.Some? then part(frame.value) else 0
  }

  lemma {:induction false} SumsAreByPart(env: Env, at: seq<nat>)
    ensures var sum := UsageSum(env, at);
            && sum.prompt == Summed(env, at, (u: Usage) => u.prompt)
            && sum.completion == Summed(env, at, (u: Usage) => u.completion)
            && sum.total == Summed(env, at, (u: Usage) => u.total)
  {
    if at != [] {
      SumsAreByPart(env, at[..|at| - 1]);
    }
  }

  /** A finished turn ends with the componentwise sum of its rounds' last usage
      frames, reported as nil exactly when the three sums are zero. */
  lemma UsageIsSummed(env: Env, cfg: Config, user: Id, w: World, req: Request)
    ensures var t := Stream(env, cfg, user, w, req);
            var prompt := Summed(env, t.at, (u: Usage) => u.prompt);
            var completion := Summed(env, t.at, (u: Usage) => u.completion);
            var total := Summed(env, t.at, (u: Usage) => u.total);
            && |t.at| == |t.asked|
            && (t.ending == Finished ==>
                  && |t.out| > 0
                  && t.out[|t.out| - 1] == Done(if prompt == 0 && completion == 0 && total == 0 then None
                                                else Some(Usage(prompt, completion, total))))
  {
    SumsAreByPart(env, Stream(env, cfg, user, w, req).at);
    RoundsSumUsage(ReadBy(env), env, cfg, user, Start(cfg, w, req), 0);
    AnswerSumIsUsageSum(env, Stream(env, cfg, user, w, req).at);
  }

  // ----- The code ----------------------------------------------------------------

  lemma {:induction false} HistoryChatAppend(a: seq<Past>, b: seq<Past>)
    ensures HistoryChat(a + b) == HistoryChat(a) + HistoryChat(b)
  {
    if b == [] {
      assert a + b == a;
    } else {
      assert (a + b)[..|a + b| - 1] == a + b[..|b| - 1];
      HistoryChatAppend(a, b[..|b| - 1]);
    }
  }

  /** The base transcript: the system prompt if there is one, then of each message of the
      history its content if it has any, in the role of user or system if it has that and
      else in the assistant's, and last the prompt. */
  lemma HistoryIsReplayed(systemPrompt: string, req: Request, a: seq<Past>, p: Past, b: seq<Past>)
    requires req.history == a + [p] + b
    ensures var who := if p.role == "user" then UserSays else if p.role == "system" then SystemSays else ModelSays;
            HistoryChat(req.history)
            == HistoryChat(a) + (if p.content == "" then [] else [ChatMessage(who, p.content, [], "")]) + HistoryChat(b)
    ensures BaseMessages(systemPrompt, req)
         == (if systemPrompt == "" then [] else [ChatMessage(SystemSays, systemPrompt, [], "")])
            + HistoryChat(req.history) + [ChatMessage(UserSays, req.prompt, [], "")]
  {
    HistoryChatAppend(a + [p], b);
    HistoryChatAppend(a, [p]);
    assert [p][..0] == [] && HistoryChat([p]) == ChatOf(p);
  }

  method BuildMessages(systemPrompt: string, req: Request) returns (msgs: seq<ChatMessage>)
    ensures msgs == BaseMessages(systemPrompt, req)
  {
    msgs := [];
    if systemPrompt != "" {
      msgs := msgs + [ChatMessage(SystemSays, systemPrompt, [], "")];
    }
    ghost var head := msgs;
    for i := 0 to |req.history|
      invariant msgs == head + HistoryChat(req.history[..i])
    {
      assert req.history[..i + 1][..i] == req.history[..i];
      var m := req.history[i];
      var role := SpeakerOf(m.role);
      if m.content == "" { continue; }
      msgs := msgs + [ChatMessage(role, m.content, [], "")];
    }
    assert req.history[..|req.history|] == req.history;
    msgs := msgs + [ChatMessage(UserSays, req.prompt, [], "")];
  }

  /** The rounds from this one on lead from t to the whole. */
  ghost predicate ToCome(model: Model, env: Env, cfg: Config, user: Id, t: Turn, round: nat, whole: Turn) {
    whole == Rounds(model, env, cfg, user, t, round)
  }

  lemma OneRoundLess(model: Model, env: Env, cfg: Config, user: Id, t: Turn, round: nat, whole: Turn)
    requires round < MAX_ROUNDS && ToCome(model, env, cfg, user, t, round, whole)
    ensures var t1 := Round(model, env, cfg, user, t);
            if t1.ending != Running then whole == t1 else ToCome(model, env, cfg, user, t1, round + 1, whole)
  {
  }

  lemma NoRoundLeft(model: Model, env: Env, cfg: Config, user: Id, t: Turn, whole: Turn)
    requires ToCome(model, env, cfg, user, t, MAX_ROUNDS, whole)
    ensures whole == Finish(t)
  {
  }

  ghost predicate Holds(t: Turn, w: World, messages: seq<ChatMessage>, total: Usage, out: seq<Event>, ending: Ending) {
    t.w == w && t.messages == messages && t.total == total && t.out == out && t.ending == ending
  }

  class Harness {
    const cfg: Config
    const backend: Backend

    constructor (cfg: Config, backend: Backend)
      ensures this.cfg == cfg && this.backend == backend
    {
      this.cfg, this.backend := cfg, backend;
    }

    /** stream's inner loop over the calls of one round. */
    method RunToolCalls(user: Id, calls: seq<ModelCall>, messages: seq<ChatMessage>, out: seq<Event>, ghost t: Turn)
      returns (messages': seq<ChatMessage>, out': seq<Event>, stop: bool)
      requires t.w == backend.View() && t.messages == messages && t.out == out
      modifies backend
      ensures var r := RunCalls(backend.env, cfg, user, t, calls);
              backend.View() == r.w && messages' == r.messages && out' == r.out
      ensures stop == AnySurfaced(cfg, calls)
    {
      messages', out', stop := messages, out, false;
      ghost var now := t;
      for i := 0 to |calls|
        invariant now == RunCalls(backend.env, cfg, user, t, calls[..i])
        invariant backend.View() == now.w && messages' == now.messages && out' == now.out
        invariant stop == AnySurfaced(cfg, calls[..i])
      {
        var surfaced;
        messages', out', surfaced := RunToolCall(user, calls[i], messages', out', now);
        stop := stop || surfaced;
        OneMoreCall(backend.env, cfg, user, t, calls, i);
        now := RunCall(backend.env, cfg, user, now, calls[i]);
      }
      assert calls[..|calls|] == calls;
    }

    /** One call: run it here and tell the model, or hand it on. */
    method RunToolCall(user: Id, tc: ModelCall, messages: seq<ChatMessage>, out: seq<Event>, ghost t: Turn)
      returns (messages': seq<ChatMessage>, out': seq<Event>, surfaced: bool)
      requires t.w == backend.View() && t.messages == messages && t.out == out
      modifies backend
      ensures var r := RunCall(backend.env, cfg, user, t, tc);
              backend.View() == r.w && messages' == r.messages && out' == r.out
      ensures surfaced == Surfaced(cfg, tc.name)
    {
      messages', surfaced := messages, true;
      if cfg.harnessHasTools && !cfg.destructive(tc.name) {
        var o := backend.RunTool(user, tc.name, tc.args, InHarness);
        var result := match o case Returned(r) => r case Raised(e) => ErrJson(e);
        out' := out + [ToolCall(tc.name, tc.args, FromModel(tc.id), result)];
        messages' := messages + [ChatMessage(ToolSays, result, [], tc.id)];
        surfaced := false;
      } else {
        out' := out + [ToolCall(tc.name, tc.args, FromModel(tc.id), "")];
      }
    }

    /** One request: callModel on the reply of this tick. */
    method Request(ghost model: Model) returns (a: Answer)
      requires model == ReadBy(backend.env)
      modifies backend
      ensures backend.View() == Tick(old(backend.View())) && a == model(old(backend.tick))
    {
      a := CallModel(backend.env.replies(backend.tick));
      backend.tick := backend.tick + 1;
    }

    /** One pass of stream's loop body. */
    method OneRound(
      user: Id, messages: seq<ChatMessage>, total: Usage, out: seq<Event>, ghost model: Model, ghost t: Turn)
      returns (messages': seq<ChatMessage>, total': Usage, out': seq<Event>, ending: Ending)
      requires model == ReadBy(backend.env)
      requires Holds(t, backend.View(), messages, total, out, Running)
      modifies backend
      ensures Holds(Round(model, backend.env, cfg, user, t), backend.View(), messages', total', out', ending)
    {
      messages', total', out', ending := messages, total, out, Running;
      var a := Request(model);
      out' := out + a.out;
      if a.Interrupted? {
        ending := Broken(a.failure);
        return;
      }
      total' := AddUsage(total, a.usage);
      var stop := true;
      if a.calls != [] {
        messages' := messages + [ChatMessage(ModelSays, "", a.calls, "")];
        messages', out', stop := RunToolCalls(user, a.calls, messages', out', Heard(model, t));
      } else {
        assert messages + [] == messages;
      }
      if stop {
        out' := out' + [Done(UsageOrNil(total'))];
        ending := Finished;
      }
    }

    /** stream: the bounded loop of model rounds. */
    method DriveTurn(user: Id, req: Request, ghost model: Model) returns (out: seq<Event>, ending: Ending)
      requires model == ReadBy(backend.env)
      modifies backend
      ensures var t := Rounds(model, backend.env, cfg, user, Start(cfg, old(backend.View()), req), FIRST_ROUND);
              backend.View() == t.w && out == t.out && ending == t.ending
    {
      var messages := BuildMessages(cfg.systemPrompt, req);
      var total := NO_USAGE;
      out, ending := [], Running;
      ghost var t := Start(cfg, backend.View(), req);
      ghost var whole := Rounds(model, backend.env, cfg, user, t, FIRST_ROUND);
      for round := FIRST_ROUND to MAX_ROUNDS
        invariant Holds(t, backend.View(), messages, total, out, Running)
        invariant ToCome(model, backend.env, cfg, user, t, round, whole)
      {
        OneRoundLess(model, backend.env, cfg, user, t, round, whole);
        messages, total, out, ending := OneRound(user, messages, total, out, model, t);
        t := Round(model, backend.env, cfg, user, t);
        if ending != Running {
          return;
        }
      }
      NoRoundLeft(model, backend.env, cfg, user, t, whole);
      out := out + [Done(UsageOrNil(total))];
      ending := Finished;
    }

    /** Run: refuses without a provider, otherwise streams the turn and turns a
        failure that is not a cancellation into one error event. */
    method RunTurn(user: Id, req: Request) returns (events: seq<Event>)
      modifies backend
      ensures (backend.View(), events) == Run(backend.env, cfg, user, old(backend.View()), req)
    {
      if req.provider.provider == "" || req.provider.key == "" {
        return [Error(NO_PROVIDER)];
      }
      var ending;
      events, ending := DriveTurn(user, req, ReadBy(backend.env));
      if ending.Broken? && ending.failure.Because? {
        events := events + [Error(ending.failure.text)];
      }
    }
  }
}
