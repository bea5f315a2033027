/** The sliding-window rate limit, over any run in which the cap and the window
    in force at every turn are the same. */
module AgentRateLimit {
  import opened AgentTypes
  import opened AgentWorld
  import opened AgentService
  import opened AgentRuns
  import opened AgentTurns
  import Harness = LlmHarness

  /** The user-role messages of one user created after lo and up to hi. */
  function CountIn(ms: seq<Message>, user: Id, lo: int, hi: int): nat {
    if ms == [] then 0
    else
      var last := ms[|ms| - 1];
      CountIn(ms[..|ms| - 1], user, lo, hi)
      + if last.user == user && last.role == UserRole && lo < last.at <= hi then 1 else 0
  }

  /** Each user message found fewer than cap others in the window before it. */
  ghost predicate Spaced(ms: seq<Message>, user: Id, cap: int, window: int) {
    ms == [] ||
    var init, last := ms[..|ms| - 1], ms[|ms| - 1];
    && Spaced(init, user, cap, window)
    && (last.user == user && last.role == UserRole ==> CountSince(init, user, last.at - window) < cap)
  }

  lemma {:induction false} LaterCountsLess(ms: seq<Message>, user: Id, s: int, t: int)
    requires s <= t
    ensures CountSince(ms, user, t) <= CountSince(ms, user, s)
  {
    if ms != [] {
      LaterCountsLess(ms[..|ms| - 1], user, s, t);
    }
  }

  lemma {:induction false} WindowCountsLess(ms: seq<Message>, user: Id, lo: int, hi: int)
    ensures CountIn(ms, user, lo, hi) <= CountSince(ms, user, lo)
  {
    if ms != [] {
      WindowCountsLess(ms[..|ms| - 1], user, lo, hi);
    }
  }

  /** Spacing bounds every window of that length, wherever it lies. */
  lemma {:induction false} SpacedWindows(ms: seq<Message>, user: Id, cap: int, window: int, lo: int, hi: int)
    requires cap > 0 && hi - lo <= window && Spaced(ms, user, cap, window)
    ensures CountIn(ms, user, lo, hi) <= cap
  {
    if ms != [] {
      var init, last := ms[..|ms| - 1], ms[|ms| - 1];
      if last.user == user && last.role == UserRole && lo < last.at <= hi {
        WindowCountsLess(init, user, lo, hi);
        LaterCountsLess(init, user, last.at - window, lo);
      } else {
        SpacedWindows(init, user, cap, window, lo, hi);
      }
    }
  }

  lemma SpacedAppend(ms: seq<Message>, m: Message, user: Id, cap: int, window: int)
    requires Spaced(ms, user, cap, window)
    requires m.user == user && m.role == UserRole ==> CountSince(ms, user, m.at - window) < cap
    ensures Spaced(ms + [m], user, cap, window)
  {
    assert (ms + [m])[..|ms + [m]| - 1] == ms;
  }

  lemma {:induction false} ContentDoesNotCount(ms: seq<Message>, id: Id, content: string, user: Id, since: int)
    ensures CountSince(WithContent(ms, id, content), user, since) == CountSince(ms, user, since)
  {
    if ms != [] {
      ContentDoesNotCount(ms[..|ms| - 1], id, content, user, since);
      var r := WithContent(ms, id, content);
      assert r[..|r| - 1] == WithContent(ms[..|ms| - 1], id, content);
    }
  }

  lemma {:induction false} ContentKeepsSpacing(
    ms: seq<Message>, id: Id, content: string, user: Id, cap: int, window: int)
    requires Spaced(ms, user, cap, window)
    ensures Spaced(WithContent(ms, id, content), user, cap, window)
  {
    if ms != [] {
      var init, last := ms[..|ms| - 1], ms[|ms| - 1];
      ContentKeepsSpacing(init, id, content, user, cap, window);
      ContentDoesNotCount(init, id, content, user, last.at - window);
      var r := WithContent(ms, id, content);
      assert r[..|r| - 1] == WithContent(init, id, content);
    }
  }

  lemma {:induction false} DeletionCountsLess(ms: seq<Message>, conversation: Id, user: Id, since: int)
    ensures CountSince(OutsideConversation(ms, conversation), user, since) <= CountSince(ms, user, since)
  {
    if ms != [] {
      var init, last := ms[..|ms| - 1], ms[|ms| - 1];
      DeletionCountsLess(init, conversation, user, since);
      if last.conversation != conversation {
        var r := OutsideConversation(ms, conversation);
        assert r[..|r| - 1] == OutsideConversation(init, conversation);
      } else {
        assert OutsideConversation(ms, conversation) == OutsideConversation(init, conversation);
      }
    }
  }

  lemma {:induction false} DeletionKeepsSpacing(ms: seq<Message>, conversation: Id, user: Id, cap: int, window: int)
    requires Spaced(ms, user, cap, window)
    ensures Spaced(OutsideConversation(ms, conversation), user, cap, window)
  {
    if ms != [] {
      var init, last := ms[..|ms| - 1], ms[|ms| - 1];
      DeletionKeepsSpacing(init, conversation, user, cap, window);
      DeletionCountsLess(init, conversation, user, last.at - window);
      if last.conversation != conversation {
        SpacedAppend(OutsideConversation(init, conversation), last, user, cap, window);
      } else {
        assert OutsideConversation(ms, conversation) == OutsideConversation(init, conversation);
      }
    }
  }

  // ----- The steps ---------------------------------------------------------------

  /** The policy the rate limit is checked against. */
  ghost predicate Capped(w: World, cap: int, window: int) {
    PolicyOf(w).maxMessages == cap && Window(PolicyOf(w)) == window
  }

  lemma AdmittedHasRoom(
    env: Env, cfg: Config, w: World, user: Id, conversation: Id, text: string, cap: int, window: int)
    requires cap > 0 && Capped(w, cap, window) && Admit(env, cfg, w, user, conversation, text).1.Ok?
    ensures CountSince(w.store.messages, user, w.clock - window) < cap
  {
  }

  lemma DeliverKeepsSpacing(
    env: Env, cfg: Config, w: World, turn: TurnInfo, req: Harness.Request, u: Id, cap: int, window: int)
    requires Spaced(w.store.messages, u, cap, window)
    ensures Spaced(Deliver(env, cfg, w, turn, req).0.store.messages, u, cap, window)
  {
    var (w1, events) := Harness.Run(env, cfg, turn.user, w, req);
    var body, tail := Harness.RunIsSound(env, cfg, turn.user, w, req);
    var charged := ConsumeChargesOnce(env, cfg, w1, turn, "", events);
    var c := Consume(env, cfg, w1, turn, "", events);
    ContentKeepsSpacing(w.store.messages, turn.message, c.content, u, cap, window);
  }

  lemma ReplyKeepsSpacing(env: Env, w: World, user: Id, conversation: Id, u: Id, cap: int, window: int)
    requires Spaced(w.store.messages, u, cap, window)
    ensures Spaced(AddMessage(env, w, user, conversation, AssistantRole, "").0.store.messages, u, cap, window)
  {
    var (w1, reply) := AddMessage(env, w, user, conversation, AssistantRole, "");
    if reply.Some? {
      SpacedAppend(w.store.messages, w1.store.messages[|w.store.messages|], u, cap, window);
    }
  }

  lemma AnswerKeepsSpacing(
    env: Env, cfg: Config, w: World, user: Id, conversation: Id, text: string, p: Policy, provider: Harness.Resolved,
    u: Id, cap: int, window: int)
    requires Spaced(w.store.messages, u, cap, window)
    ensures Spaced(AnswerTurn(env, cfg, w, user, conversation, text, p, provider).0.store.messages, u, cap, window)
  {
    var before, turn, req := AnswerMessages(env, cfg, w, user, conversation, text, p, provider);
    var w3 := AddMessage(env, before, user, conversation, AssistantRole, "").0;
    ReplyKeepsSpacing(env, before, user, conversation, u, cap, window);
    DeliverKeepsSpacing(env, cfg, w3, turn, req, u, cap, window);
  }

  lemma PromptKeepsSpacing(
    env: Env, cfg: Config, w: World, user: Id, conversation: Id, text: string, u: Id, cap: int, window: int)
    requires cap > 0 && Capped(w, cap, window) && Spaced(w.store.messages, u, cap, window)
    requires Admit(env, cfg, w, user, conversation, text).1.Ok?
    ensures var w1 := Admit(env, cfg, w, user, conversation, text).0;
            Spaced(AddMessage(env, w1, user, conversation, UserRole, text).0.store.messages, u, cap, window)
  {
    var w1 := Admit(env, cfg, w, user, conversation, text).0;
    AdmitOnlyTicks(env, cfg, w, user, conversation, text);
    var (w2, prompt) := AddMessage(env, w1, user, conversation, UserRole, text);
    if prompt.Some? {
      AdmittedHasRoom(env, cfg, w, user, conversation, text, cap, window);
      var m := w2.store.messages[|w.store.messages|];
      LaterCountsLess(w.store.messages, user, w.clock - window, m.at - window);
      SpacedAppend(w.store.messages, m, u, cap, window);
    }
  }

  lemma SendKeepsSpacing(
    env: Env, cfg: Config, w: World, user: Id, conversation: Id, text: string, u: Id, cap: int, window: int)
    requires cap > 0 && Capped(w, cap, window) && Spaced(w.store.messages, u, cap, window)
    ensures Spaced(StreamMessage(env, cfg, w, user, conversation, text).0.store.messages, u, cap, window)
  {
    var (w1, p) := Admit(env, cfg, w, user, conversation, text);
    AdmitOnlyTicks(env, cfg, w, user, conversation, text);
    if p.Ok? {
      PromptKeepsSpacing(env, cfg, w, user, conversation, text, u, cap, window);
      var (w2, prompt) := AddMessage(env, w1, user, conversation, UserRole, text);
      if prompt.Some? {
        RespondKeepsSpacing(env, cfg, w2, user, conversation, text, p.value, u, cap, window);
      }
    }
  }

  lemma RespondKeepsSpacing(
    env: Env, cfg: Config, w: World, user: Id, conversation: Id, text: string, p: Policy, u: Id, cap: int, window: int)
    requires Spaced(w.store.messages, u, cap, window)
    ensures Spaced(Respond(env, cfg, w, user, conversation, text, p).0.store.messages, u, cap, window)
  {
    var (w1, provider) := ResolveProvider(env, cfg, w, user, p);
    if provider.Ok? {
      var w2 := CheckSpend(env, cfg, w1, provider.value, p).0;
      AnswerKeepsSpacing(env, cfg, w2, user, conversation, text, p, provider.value, u, cap, window);
    }
  }

  lemma ConfirmAddsNoPrompt(env: Env, cfg: Config, w: World, user: Id, r: Id, approved: bool)
    ensures var w' := Confirm(env, cfg, w, user, r, approved).0;
            w'.store == w.store
            || (|w'.store.messages| == |w.store.messages| + 1
                && w'.store.messages == w.store.messages + [w'.store.messages[|w.store.messages|]]
                && w'.store.messages[|w.store.messages|].role == ToolRole)
  {
  }

  lemma StepKeepsSpacing(env: Env, cfg: Config, w: World, step: Step, u: Id, cap: int, window: int)
    requires cap > 0 && Spaced(w.store.messages, u, cap, window)
    requires step.Send? ==> Capped(w, cap, window)
    ensures Spaced(Apply(env, cfg, w, step).store.messages, u, cap, window)
  {
    match step
    case Send(user, conversation, text) => SendKeepsSpacing(env, cfg, w, user, conversation, text, u, cap, window);
    case Decide(user, row, approved) =>
      ConfirmAddsNoPrompt(env, cfg, w, user, row, approved);
      var w' := Apply(env, cfg, w, step);
      if w'.store != w.store {
        SpacedAppend(w.store.messages, w'.store.messages[|w.store.messages|], u, cap, window);
      }
    case Remove(user, conversation) => DeletionKeepsSpacing(w.store.messages, conversation, u, cap, window);
    case _ =>
  }

  /** With the same cap and window in force at every turn, no window of that length
      ever holds more than cap of a user's persisted prompts, at any point of any
      run and wherever the window lies. */
  lemma {:induction false} WindowsAreCapped(
    env: Env, cfg: Config, steps: seq<Step>, user: Id, cap: int, window: int, lo: int, hi: int)
    requires cap > 0 && hi - lo <= window
    requires forall i :: 0 <= i < |steps| && steps[i].Send? ==> Capped(Run(env, cfg, steps[..i]), cap, window)
    ensures CountIn(Run(env, cfg, steps).store.messages, user, lo, hi) <= cap
  {
    RunKeepsSpacing(env, cfg, steps, user, cap, window);
    SpacedWindows(Run(env, cfg, steps).store.messages, user, cap, window, lo, hi);
  }

  lemma {:induction false} RunKeepsSpacing(env: Env, cfg: Config, steps: seq<Step>, user: Id, cap: int, window: int)
    requires cap > 0
    requires forall i :: 0 <= i < |steps| && steps[i].Send? ==> Capped(Run(env, cfg, steps[..i]), cap, window)
    ensures Spaced(Run(env, cfg, steps).store.messages, user, cap, window)
  {
    if steps != [] {
      var init := steps[..|steps| - 1];
      forall i | 0 <= i < |init| && init[i].Send? ensures Capped(Run(env, cfg, init[..i]), cap, window) {
        assert init[..i] == steps[..i];
      }
      RunKeepsSpacing(env, cfg, init, user, cap, window);
      StepKeepsSpacing(env, cfg, Run(env, cfg, init), steps[|steps| - 1], user, cap, window);
    }
  }
}
