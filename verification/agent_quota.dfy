/** The rate limit as a quota on admitted prompts: every admitted prompt is still stored
    or was deleted with its conversation, and only deletion hands quota back. */
module AgentQuota {
  import opened AgentTypes
  import opened AgentWorld
  import opened AgentService
  import opened AgentRuns
  import opened AgentTurns
  import opened AgentRateLimit
  import Harness = LlmHarness
  import opened Wrappers

  /** The prompt a step admits and stores, if it does. */
  ghost function PromptOf(env: Env, cfg: Config, w: World, step: Step): seq<Message> {
    if !step.Send? then []
    else
      var (w1, p) := Admit(env, cfg, w, step.user, step.conversation, step.text);
      if p.Err? then []
      else
        AddMessage(env, w1, step.user, step.conversation, UserRole, step.text).0.store.messages[|w1.store.messages|..]
  }

  /** The messages a step deletes. */
  ghost function LostIn(env: Env, cfg: Config, w: World, step: Step): seq<Message> {
    if step.Remove? && Apply(env, cfg, w, step).store.messages != w.store.messages
    then InConversation(w.store.messages, step.conversation) else []
  }

  /** Every prompt ever admitted in a run, and every message ever deleted. */
  ghost function Admitted(env: Env, cfg: Config, steps: seq<Step>): seq<Message> {
    if steps == [] then []
    else
      var init := steps[..|steps| - 1];
      Admitted(env, cfg, init) + PromptOf(env, cfg, Run(env, cfg, init), steps[|steps| - 1])
  }

  ghost function Deleted(env: Env, cfg: Config, steps: seq<Step>): seq<Message> {
    if steps == [] then []
    else
      var init := steps[..|steps| - 1];
      Deleted(env, cfg, init) + LostIn(env, cfg, Run(env, cfg, init), steps[|steps| - 1])
  }

  // ----- Counting ------------------------------------------------------------------

  lemma {:induction false} CountAppend(a: seq<Message>, b: seq<Message>, u: Id, lo: int, hi: int)
    ensures CountIn(a + b, u, lo, hi) == CountIn(a, u, lo, hi) + CountIn(b, u, lo, hi)
  {
    if b == [] {
      assert a + b == a;
    } else {
      assert (a + b)[..|a + b| - 1] == a + b[..|b| - 1];
      CountAppend(a, b[..|b| - 1], u, lo, hi);
    }
  }

  lemma CountOther(m: Message, u: Id, lo: int, hi: int)
    requires m.role != UserRole
    ensures CountIn([m], u, lo, hi) == 0
  {
    assert [m][..0] == [];
  }

  lemma {:induction false} CountSplit(ms: seq<Message>, conversation: Id, u: Id, lo: int, hi: int)
    ensures CountIn(ms, u, lo, hi)
         == CountIn(OutsideConversation(ms, conversation), u, lo, hi)
            + CountIn(InConversation(ms, conversation), u, lo, hi)
  {
    if ms != [] {
      var init, last := ms[..|ms| - 1], ms[|ms| - 1];
      CountSplit(init, conversation, u, lo, hi);
      CountAppend(init, [last], u, lo, hi);
      assert ms == init + [last];
      LastIsSplit(ms, conversation);
      var kept, gone := OutsideConversation(init, conversation), InConversation(init, conversation);
      if last.conversation == conversation {
        CountAppend(gone, [last], u, lo, hi);
      } else {
        CountAppend(kept, [last], u, lo, hi);
      }
    }
  }

  lemma {:induction false} ContentCountsSame(ms: seq<Message>, id: Id, content: string, u: Id, lo: int, hi: int)
    ensures CountIn(WithContent(ms, id, content), u, lo, hi) == CountIn(ms, u, lo, hi)
  {
    if ms != [] {
      ContentCountsSame(ms[..|ms| - 1], id, content, u, lo, hi);
      var r := WithContent(ms, id, content);
      assert r[..|r| - 1] == WithContent(ms[..|ms| - 1], id, content);
    }
  }

  // ----- The steps -----------------------------------------------------------------

  lemma DeliverCountsSame(env: Env, cfg: Config, w: World, turn: TurnInfo, req: Harness.Request,
                       u: Id, lo: int, hi: int)
    ensures CountIn(Deliver(env, cfg, w, turn, req).0.store.messages, u, lo, hi) == CountIn(w.store.messages, u, lo, hi)
  {
    var (w1, events) := Harness.Run(env, cfg, turn.user, w, req);
    var body, tail := Harness.RunIsSound(env, cfg, turn.user, w, req);
    var charged := ConsumeChargesOnce(env, cfg, w1, turn, "", events);
    var c := Consume(env, cfg, w1, turn, "", events);
    ContentCountsSame(w.store.messages, turn.message, c.content, u, lo, hi);
  }

  lemma ReplyCountsSame(env: Env, w: World, user: Id, conversation: Id, u: Id, lo: int, hi: int)
    ensures CountIn(AddMessage(env, w, user, conversation, AssistantRole, "").0.store.messages, u, lo, hi)
         == CountIn(w.store.messages, u, lo, hi)
  {
    var (w1, reply) := AddMessage(env, w, user, conversation, AssistantRole, "");
    if reply.Some? {
      var m := w1.store.messages[|w.store.messages|];
      CountAppend(w.store.messages, [m], u, lo, hi);
      CountOther(m, u, lo, hi);
    }
  }

  lemma AnswerCountsSame(
    env: Env, cfg: Config, w: World, user: Id, conversation: Id, text: string, p: Policy, provider: Harness.Resolved,
    u: Id, lo: int, hi: int)
    ensures CountIn(AnswerTurn(env, cfg, w, user, conversation, text, p, provider).0.store.messages, u, lo, hi)
         == CountIn(w.store.messages, u, lo, hi)
  {
    var before, turn, req := AnswerMessages(env, cfg, w, user, conversation, text, p, provider);
    var w3 := AddMessage(env, before, user, conversation, AssistantRole, "").0;
    ReplyCountsSame(env, before, user, conversation, u, lo, hi);
    DeliverCountsSame(env, cfg, w3, turn, req, u, lo, hi);
  }

  lemma RespondCountsSame(
    env: Env, cfg: Config, w: World, user: Id, conversation: Id, text: string, p: Policy, u: Id, lo: int, hi: int)
    ensures CountIn(Respond(env, cfg, w, user, conversation, text, p).0.store.messages, u, lo, hi)
         == CountIn(w.store.messages, u, lo, hi)
  {
    var (w1, provider) := ResolveProvider(env, cfg, w, user, p);
    if provider.Ok? {
      var w2 := CheckSpend(env, cfg, w1, provider.value, p).0;
      AnswerCountsSame(env, cfg, w2, user, conversation, text, p, provider.value, u, lo, hi);
    }
  }

  lemma SendCounts(env: Env, cfg: Config, w: World, step: Step, u: Id, lo: int, hi: int)
    requires step.Send?
    ensures CountIn(StreamMessage(env, cfg, w, step.user, step.conversation, step.text).0.store.messages, u, lo, hi)
         == CountIn(w.store.messages, u, lo, hi) + CountIn(PromptOf(env, cfg, w, step), u, lo, hi)
  {
    var (w1, p) := Admit(env, cfg, w, step.user, step.conversation, step.text);
    AdmitOnlyTicks(env, cfg, w, step.user, step.conversation, step.text);
    if p.Ok? {
      var (w2, prompt) := AddMessage(env, w1, step.user, step.conversation, UserRole, step.text);
      assert w2.store.messages == w.store.messages + PromptOf(env, cfg, w, step);
      CountAppend(w.store.messages, PromptOf(env, cfg, w, step), u, lo, hi);
      if prompt.Some? {
        RespondCountsSame(env, cfg, w2, step.user, step.conversation, step.text, p.value, u, lo, hi);
      }
    }
  }

  lemma DecideCounts(env: Env, cfg: Config, w: World, step: Step, u: Id, lo: int, hi: int)
    requires step.Decide?
    ensures CountIn(Apply(env, cfg, w, step).store.messages, u, lo, hi) == CountIn(w.store.messages, u, lo, hi)
  {
    ConfirmAddsNoPrompt(env, cfg, w, step.user, step.row, step.approved);
    var w' := Apply(env, cfg, w, step);
    if w'.store != w.store {
      var m := w'.store.messages[|w.store.messages|];
      CountAppend(w.store.messages, [m], u, lo, hi);
      CountOther(m, u, lo, hi);
    }
  }

  lemma OtherStepsKeepMessages(env: Env, cfg: Config, w: World, step: Step)
    requires !step.Send? && !step.Decide?
    ensures var ms := Apply(env, cfg, w, step).store.messages;
            ms == w.store.messages || (step.Remove? && ms == OutsideConversation(w.store.messages, step.conversation))
  {
  }

  lemma StepConserves(env: Env, cfg: Config, w: World, step: Step, u: Id, lo: int, hi: int)
    ensures CountIn(Apply(env, cfg, w, step).store.messages, u, lo, hi) + CountIn(LostIn(env, cfg, w, step), u, lo, hi)
         == CountIn(w.store.messages, u, lo, hi) + CountIn(PromptOf(env, cfg, w, step), u, lo, hi)
  {
    if step.Send? {
      SendCounts(env, cfg, w, step, u, lo, hi);
    } else if step.Decide? {
      DecideCounts(env, cfg, w, step, u, lo, hi);
    } else {
      OtherStepsKeepMessages(env, cfg, w, step);
      if step.Remove? { CountSplit(w.store.messages, step.conversation, u, lo, hi); }
    }
  }

  // ----- The results ---------------------------------------------------------------

  /** Conservation over any run and in any interval: the prompts ever admitted are the
      ones still stored and the ones deleted. */
  lemma {:induction false} AdmittedIsStoredOrDeleted(env: Env, cfg: Config, steps: seq<Step>, u: Id, lo: int, hi: int)
    ensures CountIn(Admitted(env, cfg, steps), u, lo, hi)
         == CountIn(Run(env, cfg, steps).store.messages, u, lo, hi) + CountIn(Deleted(env, cfg, steps), u, lo, hi)
  {
    if steps != [] {
      var init, step := steps[..|steps| - 1], steps[|steps| - 1];
      var w := Run(env, cfg, init);
      AdmittedIsStoredOrDeleted(env, cfg, init, u, lo, hi);
      StepConserves(env, cfg, w, step, u, lo, hi);
      CountAppend(Admitted(env, cfg, init), PromptOf(env, cfg, w, step), u, lo, hi);
      CountAppend(Deleted(env, cfg, init), LostIn(env, cfg, w, step), u, lo, hi);
    }
  }

  /** With the same cap and window in force at every turn, a window of that length sees
      at most cap prompts admitted besides the ones deleted since: more than cap only if
      an admitted prompt of that window was deleted. */
  lemma AdmissionsAreCapped(
    env: Env, cfg: Config, steps: seq<Step>, u: Id, cap: int, window: int, lo: int, hi: int)
    requires cap > 0 && hi - lo <= window
    requires CappedThroughout(env, cfg, steps, cap, window)
    ensures CountIn(Admitted(env, cfg, steps), u, lo, hi) <= cap + CountIn(Deleted(env, cfg, steps), u, lo, hi)
  {
    AdmittedIsStoredOrDeleted(env, cfg, steps, u, lo, hi);
    WindowsAreCapped(env, cfg, steps, u, cap, window, lo, hi);
  }

  // ----- When an admission exceeds the cap -------------------------------------------

  /** When the prompt of an admitted turn is stored. */
  function StoredAt(env: Env, cfg: Config, w: World, step: Step): int
    requires step.Send?
  {
    var w1 := Admit(env, cfg, w, step.user, step.conversation, step.text).0;
    w1.clock + env.elapsed(w1.tick)
  }

  /** The turn is admitted and its prompt can be stored. */
  predicate Storable(env: Env, cfg: Config, w: World, step: Step)
    requires step.Send?
  {
    var (w1, p) := Admit(env, cfg, w, step.user, step.conversation, step.text);
    p.Ok? && !env.createFails(w1.tick)
  }

  lemma PromptIsStored(env: Env, cfg: Config, w: World, step: Step)
    requires step.Send? && Storable(env, cfg, w, step)
    ensures var ms := PromptOf(env, cfg, w, step);
            |ms| == 1 && ms[0].user == step.user && ms[0].role == UserRole && ms[0].at == StoredAt(env, cfg, w, step)
  {
  }

  lemma CountPrompt(before: seq<Message>, prompt: seq<Message>, u: Id, lo: int, hi: int)
    requires |prompt| == 1 && prompt[0].user == u && prompt[0].role == UserRole && lo < prompt[0].at <= hi
    ensures CountIn(before + prompt, u, lo, hi) == CountIn(before, u, lo, hi) + 1
  {
    CountAppend(before, prompt, u, lo, hi);
    assert prompt[..0] == [] && CountIn(prompt[..0], u, lo, hi) == 0;
  }

  lemma OneMore(env: Env, cfg: Config, steps: seq<Step>, w: World, step: Step)
    requires w == Run(env, cfg, steps)
    ensures Run(env, cfg, steps + [step]) == Apply(env, cfg, w, step)
    ensures Admitted(env, cfg, steps + [step]) == Admitted(env, cfg, steps) + PromptOf(env, cfg, w, step)
  {
    assert (steps + [step])[..|steps|] == steps;
  }

  lemma AdmissionAddsOne(env: Env, cfg: Config, steps: seq<Step>, w: World, step: Step, lo: int, hi: int)
    requires w == Run(env, cfg, steps) && step.Send? && Storable(env, cfg, w, step)
    requires lo < StoredAt(env, cfg, w, step) <= hi
    ensures CountIn(Admitted(env, cfg, steps + [step]), step.user, lo, hi)
         == CountIn(Admitted(env, cfg, steps), step.user, lo, hi) + 1
  {
    OneMore(env, cfg, steps, w, step);
    PromptIsStored(env, cfg, w, step);
    CountPrompt(Admitted(env, cfg, steps), PromptOf(env, cfg, w, step), step.user, lo, hi);
  }

  /** A step that is no turn admits nothing. */
  lemma OthersAdmitNothing(env: Env, cfg: Config, steps: seq<Step>, w: World, step: Step)
    requires w == Run(env, cfg, steps) && !step.Send?
    ensures Run(env, cfg, steps + [step]) == Apply(env, cfg, w, step)
    ensures Admitted(env, cfg, steps + [step]) == Admitted(env, cfg, steps)
  {
    OneMore(env, cfg, steps, w, step);
    assert Admitted(env, cfg, steps) + [] == Admitted(env, cfg, steps);
  }

  /** After any run, an admitted prompt brings a window it falls in above the cap if and
      only if the prompts of that window that are stored and those that were deleted made
      up the cap before. */
  lemma AdmissionExceedsIff(
    env: Env, cfg: Config, steps: seq<Step>, w: World, step: Step, cap: int, lo: int, hi: int)
    requires w == Run(env, cfg, steps) && step.Send? && Storable(env, cfg, w, step)
    requires lo < StoredAt(env, cfg, w, step) <= hi
    ensures CountIn(Admitted(env, cfg, steps + [step]), step.user, lo, hi) > cap
       <==> CountIn(w.store.messages, step.user, lo, hi) + CountIn(Deleted(env, cfg, steps), step.user, lo, hi) >= cap
  {
    AdmissionAddsOne(env, cfg, steps, w, step, lo, hi);
    AdmittedIsStoredOrDeleted(env, cfg, steps, step.user, lo, hi);
  }

  // ----- Runs beyond any cap ---------------------------------------------------------

  ghost predicate AllIn(ms: seq<Message>, conversation: Id) {
    forall k :: 0 <= k < |ms| ==> ms[k].conversation == conversation
  }

  /** From w to w' messages came and changed within one conversation, in no time. */
  ghost predicate Within(w: World, w': World, conversation: Id) {
    && w'.clock == w.clock && w'.store == w.store.(messages := w'.store.messages)
    && (AllIn(w.store.messages, conversation) ==> AllIn(w'.store.messages, conversation))
  }

  /** Reads and writes succeed and take no time. */
  ghost predicate NothingFails(env: Env) {
    forall k: nat :: !env.readFails(k) && !env.createFails(k) && env.elapsed(k) == 0
  }

  lemma {:induction false} ContentStaysIn(ms: seq<Message>, id: Id, content: string, conversation: Id)
    requires AllIn(ms, conversation)
    ensures AllIn(WithContent(ms, id, content), conversation)
  {
    if ms != [] {
      ContentStaysIn(ms[..|ms| - 1], id, content, conversation);
    }
  }

  lemma {:induction false} NoneOutside(ms: seq<Message>, conversation: Id)
    requires AllIn(ms, conversation)
    ensures OutsideConversation(ms, conversation) == []
  {
    if ms != [] {
      NoneOutside(ms[..|ms| - 1], conversation);
    }
  }

  lemma DeliverStaysWithin(env: Env, cfg: Config, w: World, turn: TurnInfo, req: Harness.Request, conversation: Id)
    ensures Within(w, Deliver(env, cfg, w, turn, req).0, conversation)
  {
    var (w1, events) := Harness.Run(env, cfg, turn.user, w, req);
    var body, tail := Harness.RunIsSound(env, cfg, turn.user, w, req);
    var charged := ConsumeChargesOnce(env, cfg, w1, turn, "", events);
    var c := Consume(env, cfg, w1, turn, "", events);
    if AllIn(w.store.messages, conversation) {
      ContentStaysIn(w.store.messages, turn.message, c.content, conversation);
    }
  }

  lemma AnswerStaysWithin(
    env: Env, cfg: Config, w: World, user: Id, conversation: Id, text: string, p: Policy, provider: Harness.Resolved)
    requires NothingFails(env)
    ensures Within(w, AnswerTurn(env, cfg, w, user, conversation, text, p, provider).0, conversation)
  {
    var (w1, audit) := Audit(env, w, user, MessageSend);
    var w2 := Tick(w1);
    var (w3, reply) := AddMessage(env, w2, user, conversation, AssistantRole, "");
    ReplyStaysWithin(env, w, user, conversation);
    var turn := TurnInfo(user, conversation, reply.value, p, provider);
    var req := Harness.Request(History(w2.store.messages, conversation), text, provider, Tools(cfg, p));
    DeliverAndMarkStayWithin(env, cfg, w, w3, turn, req, conversation, audit);
  }

  lemma ReplyStaysWithin(env: Env, w: World, user: Id, conversation: Id)
    requires NothingFails(env)
    ensures var w1 := Audit(env, w, user, MessageSend).0;
            var (w3, reply) := AddMessage(env, Tick(w1), user, conversation, AssistantRole, "");
            !env.readFails(w1.tick) && reply.Some? && Within(w, w3, conversation)
  {
  }

  lemma DeliverAndMarkStayWithin(
    env: Env, cfg: Config, w: World, w3: World, turn: TurnInfo, req: Harness.Request, conversation: Id, audit: Id)
    requires Within(w, w3, conversation)
    ensures var (w4, ok) := Deliver(env, cfg, w3, turn, req); Within(w, MarkOutcome(env, w4, audit, ok), conversation)
  {
    DeliverStaysWithin(env, cfg, w3, turn, req, conversation);
  }

  lemma SendStaysWithin(env: Env, cfg: Config, w: World, user: Id, conversation: Id, text: string)
    requires NothingFails(env)
    ensures Within(w, StreamMessage(env, cfg, w, user, conversation, text).0, conversation)
  {
    var (w1, p) := Admit(env, cfg, w, user, conversation, text);
    AdmitOnlyTicks(env, cfg, w, user, conversation, text);
    if p.Ok? {
      var w2 := AddMessage(env, w1, user, conversation, UserRole, text).0;
      assert Within(w, w2, conversation);
      RespondStaysWithin(env, cfg, w2, user, conversation, text, p.value);
    }
  }

  lemma RespondStaysWithin(env: Env, cfg: Config, w: World, user: Id, conversation: Id, text: string, p: Policy)
    requires NothingFails(env)
    ensures Within(w, Respond(env, cfg, w, user, conversation, text, p).0, conversation)
  {
    var (w1, provider) := ResolveProvider(env, cfg, w, user, p);
    SettlingOnlyTicks(env, cfg, w, user, p);
    if provider.Ok? {
      var w2 := CheckSpend(env, cfg, w1, provider.value, p).0;
      AnswerStaysWithin(env, cfg, w2, user, conversation, text, p, provider.value);
    }
  }

  /** At time zero the policy is in force and no message is stored. */
  ghost predicate Idle(w: World, p: Policy) {
    w.clock == 0 && w.store.policy == Some(p) && w.store.messages == []
  }

  /** A conversation of the user that is open. */
  predicate OpenFor(w: World, u: Id, conversation: Id) {
    conversation in w.store.conversations && w.store.conversations[conversation] == Conversation(u, false)
  }

  lemma OpeningKeepsIdle(env: Env, cfg: Config, w: World, u: Id, p: Policy)
    requires NothingFails(env) && cfg.enabled && Idle(w, p)
    ensures var w1 := Apply(env, cfg, w, Open(u)); Idle(w1, p) && OpenFor(w1, u, w.nextId)
  {
  }

  lemma IdleAdmits(env: Env, cfg: Config, w: World, u: Id, conversation: Id, p: Policy)
    requires NothingFails(env) && cfg.enabled && p.maxMessages > 0 && Idle(w, p) && OpenFor(w, u, conversation)
    ensures var send := Send(u, conversation, ""); Storable(env, cfg, w, send) && StoredAt(env, cfg, w, send) == 0
  {
    AdmitOnlyTicks(env, cfg, w, u, conversation, "");
  }

  lemma RemovingEmpties(env: Env, cfg: Config, w: World, u: Id, conversation: Id, p: Policy)
    requires NothingFails(env) && cfg.enabled && w.clock == 0 && w.store.policy == Some(p)
    requires OpenFor(w, u, conversation) && AllIn(w.store.messages, conversation)
    ensures Idle(Apply(env, cfg, w, Remove(u, conversation)), p)
  {
    NoneOutside(w.store.messages, conversation);
  }

  lemma CycleIsIdle(env: Env, cfg: Config, w: World, u: Id, p: Policy)
    requires NothingFails(env) && cfg.enabled && p.maxMessages > 0 && Idle(w, p)
    ensures var c := w.nextId;
            var w1 := Apply(env, cfg, w, Open(u));
            var w2 := Apply(env, cfg, w1, Send(u, c, ""));
            && Idle(w1, p) && Storable(env, cfg, w1, Send(u, c, "")) && StoredAt(env, cfg, w1, Send(u, c, "")) == 0
            && Idle(Apply(env, cfg, w2, Remove(u, c)), p)
  {
    var c, w1 := w.nextId, Apply(env, cfg, w, Open(u));
    OpeningKeepsIdle(env, cfg, w, u, p);
    IdleAdmits(env, cfg, w1, u, c, p);
    SendStaysWithin(env, cfg, w1, u, c, "");
    RemovingEmpties(env, cfg, Apply(env, cfg, w1, Send(u, c, "")), u, c, p);
  }

  /** The run with a conversation opened, a prompt sent to it, and the whole deleted. */
  function WithCycle(steps: seq<Step>, u: Id, conversation: Id): seq<Step> {
    ((steps + [Open(u)]) + [Send(u, conversation, "")]) + [Remove(u, conversation)]
  }

  lemma CycleAdmitsOne(env: Env, cfg: Config, steps: seq<Step>, w: World, u: Id, p: Policy)
    requires NothingFails(env) && cfg.enabled && p.maxMessages > 0 && w == Run(env, cfg, steps) && Idle(w, p)
    ensures var all := WithCycle(steps, u, w.nextId);
            && Idle(Run(env, cfg, steps + [Open(u)]), p) && Idle(Run(env, cfg, all), p)
            && CountIn(Admitted(env, cfg, all), u, -1, 0) == CountIn(Admitted(env, cfg, steps), u, -1, 0) + 1
  {
    var open, send, remove := Open(u), Send(u, w.nextId, ""), Remove(u, w.nextId);
    var w1 := Apply(env, cfg, w, open);
    CycleIsIdle(env, cfg, w, u, p);
    OthersAdmitNothing(env, cfg, steps, w, open);
    AdmissionAddsOne(env, cfg, steps + [open], w1, send, -1, 0);
    OneMore(env, cfg, steps + [open], w1, send);
    OthersAdmitNothing(env, cfg, (steps + [open]) + [send], Apply(env, cfg, w1, send), remove);
  }

  /** The cap and the window in force at every turn. */
  ghost predicate CappedThroughout(env: Env, cfg: Config, steps: seq<Step>, cap: int, window: int) {
    forall i :: 0 <= i < |steps| && steps[i].Send? ==> Capped(Run(env, cfg, steps[..i]), cap, window)
  }

  lemma CycleIsCapped(env: Env, cfg: Config, steps: seq<Step>, u: Id, conversation: Id, p: Policy)
    requires CappedThroughout(env, cfg, steps, p.maxMessages, Window(p)) && Idle(Run(env, cfg, steps + [Open(u)]), p)
    ensures CappedThroughout(env, cfg, WithCycle(steps, u, conversation), p.maxMessages, Window(p))
  {
    var all := WithCycle(steps, u, conversation);
    forall i | 0 <= i < |all| && all[i].Send? ensures Capped(Run(env, cfg, all[..i]), p.maxMessages, Window(p)) {
      if i < |steps| {
        assert all[..i] == steps[..i];
      } else {
        assert all[..i] == steps + [Open(u)];
      }
    }
  }

  /** Deleting hands the whole share back: with the same cap in force at every turn,
      whatever it is, a run can admit any number of prompts of one user at one time. */
  lemma {:induction false} DeletionAdmitsAny(env: Env, cfg: Config, u: Id, p: Policy, n: nat) returns (steps: seq<Step>)
    requires NothingFails(env) && cfg.enabled && p.maxMessages > 0 && p.windowSeconds > 0
    ensures CappedThroughout(env, cfg, steps, p.maxMessages, Window(p))
    ensures Idle(Run(env, cfg, steps), p) && CountIn(Admitted(env, cfg, steps), u, -1, 0) == n
  {
    if n == 0 {
      steps := [SetPolicy(p)];
      assert steps[..0] == [];
    } else {
      var before := DeletionAdmitsAny(env, cfg, u, p, n - 1);
      var w := Run(env, cfg, before);
      steps := WithCycle(before, u, w.nextId);
      CycleAdmitsOne(env, cfg, before, w, u, p);
      CycleIsCapped(env, cfg, before, u, w.nextId, p);
    }
  }
}
