/** Where the result of a confirmed tool call ends up: the note of it is stored under
    the id of a message where the id of a conversation belongs. */
module AgentConfirmed {
  import opened AgentTypes
  import opened AgentWorld
  import opened AgentService
  import opened AgentRuns
  import opened AgentTurns
  import Harness = LlmHarness

  // ----- One confirmation ------------------------------------------------------------

  lemma AppendElsewhere(ms: seq<Message>, m: Message, c: Id)
    requires m.conversation != c
    ensures InConversation(ms + [m], c) == InConversation(ms, c)
  {
    assert (ms + [m])[..|ms|] == ms && InConversation(ms, c) + [] == InConversation(ms, c);
  }

  /** A confirmation, approved or not, changes no conversation but the one that has the
      id of the row's message. */
  lemma ConfirmedNoteGoesElsewhere(env: Env, cfg: Config, w: World, user: Id, id: Id, approved: bool, c: Id)
    requires Owned(w, user, id) ==> c != w.calls.rows[id].message
    ensures var w' := Confirm(env, cfg, w, user, id, approved).0;
            && w'.store.conversations == w.store.conversations
            && InConversation(w'.store.messages, c) == InConversation(w.store.messages, c)
  {
    var (w1, row) := FindRow(env, w, user, id);
    if cfg.enabled && row.Ok? && row.value.status == Pending && approved {
      ReportGoesElsewhere(env, Approve(env, cfg, w1, user, id, row.value), user, id, row.value, c);
    }
  }

  lemma ReportGoesElsewhere(env: Env, done: (World, ToolOutcome), user: Id, id: Id, row: ToolCallRow, c: Id)
    requires row.message != c
    ensures var w' := Report(env, done, user, id, row).0;
            && w'.store.conversations == done.0.store.conversations
            && InConversation(w'.store.messages, c) == InConversation(done.0.store.messages, c)
  {
    var w := done.0;
    var (w1, note) := AddMessage(env, w, user, row.message, ToolRole, Recorded(done.1));
    if note.Some? { AppendElsewhere(w.store.messages, w1.store.messages[|w.store.messages|], c); }
  }

  // ----- Message ids are no conversation ids -----------------------------------------

  /** Ids are given out once: no conversation has the id of a row's message. */
  ghost predicate Separate(w: World) {
    && (forall c :: c in w.store.conversations ==> c < w.nextId)
    && (forall r :: r in w.calls.rows ==>
          w.calls.rows[r].message < w.nextId && w.calls.rows[r].message !in w.store.conversations)
  }

  /** New rows are for the message of the turn; old ones keep theirs. */
  ghost predicate RowsFor(rows: map<Id, ToolCallRow>, rows': map<Id, ToolCallRow>, message: Id) {
    forall r :: r in rows' ==> rows'[r].message == message || (r in rows && rows'[r].message == rows[r].message)
  }

  lemma HandleRowsFor(env: Env, cfg: Config, w: World, user: Id, message: Id, p: Policy, ev: Event)
    requires ev.ToolCall?
    ensures RowsFor(w.calls.rows, Handle(env, cfg, w, user, message, p, ev).0.calls.rows, message)
  {
  }

  lemma {:induction false} ConsumeRowsFor(
    env: Env, cfg: Config, w: World, turn: TurnInfo, content: string, events: seq<Event>)
    ensures RowsFor(w.calls.rows, Consume(env, cfg, w, turn, content, events).w.calls.rows, turn.message)
    decreases |events|
  {
    if events != [] {
      match events[0]
      case Text(text) => ConsumeRowsFor(env, cfg, Emit(env, w, events[0]).0, turn, content + text, events[1..]);
      case ToolCall(_, _, _, _) =>
        HandleRowsFor(env, cfg, w, turn.user, turn.message, turn.policy, events[0]);
        var w1 := Handle(env, cfg, w, turn.user, turn.message, turn.policy, events[0]).0;
        ConsumeRowsFor(env, cfg, w1, turn, content, events[1..]);
      case ToolResult(_, _, _) => ConsumeRowsFor(env, cfg, w, turn, content, events[1..]);
      case Done(_) =>
      case Error(_) =>
    }
  }

  lemma DeliverKeepsSeparate(env: Env, cfg: Config, w: World, turn: TurnInfo, req: Harness.Request)
    requires Separate(w) && turn.message < w.nextId && turn.message !in w.store.conversations
    ensures var w' := Deliver(env, cfg, w, turn, req).0;
            Separate(w') && w'.store.conversations == w.store.conversations
  {
    var (w1, events) := Harness.Run(env, cfg, turn.user, w, req);
    var body, tail := Harness.RunIsSound(env, cfg, turn.user, w, req);
    ConsumeRowsFor(env, cfg, w1, turn, "", events);
    ConsumeIsSafe(env, cfg, w1, turn, "", events);
    var charged := ConsumeChargesOnce(env, cfg, w1, turn, "", events);
  }

  lemma DeliverAndMarkKeepSeparate(env: Env, cfg: Config, w: World, turn: TurnInfo, req: Harness.Request, audit: Id)
    requires Separate(w) && turn.message < w.nextId && turn.message !in w.store.conversations
    ensures var (w', ok) := Deliver(env, cfg, w, turn, req); Separate(MarkOutcome(env, w', audit, ok))
  {
    DeliverKeepsSeparate(env, cfg, w, turn, req);
  }

  lemma AnswerKeepsSeparate(
    env: Env, cfg: Config, w: World, user: Id, conversation: Id, text: string, p: Policy, provider: Harness.Resolved)
    requires Separate(w)
    ensures Separate(AnswerTurn(env, cfg, w, user, conversation, text, p, provider).0)
  {
    var (w1, audit) := Audit(env, w, user, MessageSend);
    var w2 := Tick(w1);
    var (w3, reply) := AddMessage(env, w2, user, conversation, AssistantRole, "");
    ReplyKeepsSeparate(env, w, user, conversation);
    if !env.readFails(w1.tick) && reply.Some? {
      DeliverAndMarkKeepSeparate(
        env, cfg, w3, TurnInfo(user, conversation, reply.value, p, provider),
        Harness.Request(History(w2.store.messages, conversation), text, provider, Tools(cfg, p)), audit);
    }
  }

  lemma ReplyKeepsSeparate(env: Env, w: World, user: Id, conversation: Id)
    requires Separate(w)
    ensures var w1 := Audit(env, w, user, MessageSend).0;
            var (w3, reply) := AddMessage(env, Tick(w1), user, conversation, AssistantRole, "");
            && Separate(w1) && Separate(w3)
            && (reply.Some? ==> reply.value < w3.nextId && reply.value !in w3.store.conversations)
  {
  }

  lemma RespondKeepsSeparate(env: Env, cfg: Config, w: World, user: Id, conversation: Id, text: string, p: Policy)
    requires Separate(w)
    ensures Separate(Respond(env, cfg, w, user, conversation, text, p).0)
  {
    var (w1, provider) := ResolveProvider(env, cfg, w, user, p);
    if provider.Ok? {
      var w2 := CheckSpend(env, cfg, w1, provider.value, p).0;
      AnswerKeepsSeparate(env, cfg, w2, user, conversation, text, p, provider.value);
    }
  }

  lemma SendKeepsSeparate(env: Env, cfg: Config, w: World, user: Id, conversation: Id, text: string)
    requires Separate(w)
    ensures Separate(StreamMessage(env, cfg, w, user, conversation, text).0)
  {
    var (w1, p) := Admit(env, cfg, w, user, conversation, text);
    AdmitOnlyTicks(env, cfg, w, user, conversation, text);
    if p.Ok? {
      var (w2, prompt) := AddMessage(env, w1, user, conversation, UserRole, text);
      if prompt.Some? { RespondKeepsSeparate(env, cfg, w2, user, conversation, text, p.value); }
    }
  }

  lemma ConfirmKeepsMessages(env: Env, cfg: Config, w: World, user: Id, id: Id, approved: bool)
    ensures SameMessages(w, Confirm(env, cfg, w, user, id, approved).0)
  {
    var (w1, row) := FindRow(env, w, user, id);
    if cfg.enabled && row.Ok? && row.value.status == Pending && approved {
      ApproveKeepsMessages(env, cfg, w1, user, id, row.value);
      ReportKeepsMessages(env, w, Approve(env, cfg, w1, user, id, row.value), user, id, row.value);
    }
  }

  ghost predicate SameMessages(w: World, w': World) {
    && w'.store.conversations == w.store.conversations
    && w'.calls.rows.Keys == w.calls.rows.Keys
    && forall r :: r in w.calls.rows ==> w'.calls.rows[r].message == w.calls.rows[r].message
  }

  lemma ApproveKeepsMessages(env: Env, cfg: Config, w: World, user: Id, id: Id, row: ToolCallRow)
    ensures SameMessages(w, Approve(env, cfg, w, user, id, row).0)
  {
  }

  lemma ReportKeepsMessages(env: Env, w: World, done: (World, ToolOutcome), user: Id, id: Id, row: ToolCallRow)
    requires SameMessages(w, done.0)
    ensures SameMessages(w, Report(env, done, user, id, row).0)
  {
  }

  lemma ConfirmKeepsSeparate(env: Env, cfg: Config, w: World, user: Id, id: Id, approved: bool)
    requires Separate(w)
    ensures Separate(Confirm(env, cfg, w, user, id, approved).0)
  {
    ConfirmKeepsMessages(env, cfg, w, user, id, approved);
    ConfirmOnlyItsRow(env, cfg, w, user, id, approved);
  }

  lemma RemoveKeepsSeparate(env: Env, cfg: Config, w: World, user: Id, conversation: Id)
    requires Separate(w)
    ensures Separate(DeleteConversation(env, cfg, w, user, conversation).0)
  {
  }

  lemma OtherStepsKeepSeparate(env: Env, cfg: Config, w: World, step: Step)
    requires Separate(w) && !step.Send? && !step.Decide? && !step.Remove?
    ensures Separate(Apply(env, cfg, w, step))
  {
  }

  lemma StepKeepsSeparate(env: Env, cfg: Config, w: World, step: Step)
    requires Separate(w)
    ensures Separate(Apply(env, cfg, w, step))
  {
    match step
    case Send(user, conversation, text) => SendKeepsSeparate(env, cfg, w, user, conversation, text);
    case Decide(user, row, approved) => ConfirmKeepsSeparate(env, cfg, w, user, row, approved);
    case Remove(user, conversation) => RemoveKeepsSeparate(env, cfg, w, user, conversation);
    case _ => OtherStepsKeepSeparate(env, cfg, w, step);
  }

  /** In every run, no row's message id is the id of a conversation. */
  lemma {:induction false} RowsAreForNoConversation(env: Env, cfg: Config, steps: seq<Step>)
    ensures Separate(Run(env, cfg, steps))
  {
    if steps != [] {
      RowsAreForNoConversation(env, cfg, steps[..|steps| - 1]);
      StepKeepsSeparate(env, cfg, Run(env, cfg, steps[..|steps| - 1]), steps[|steps| - 1]);
    }
  }

  /** After any run, a confirmation adds nothing to any conversation that exists: its
      result is in the row, and in no history. */
  lemma ConfirmedResultsAreInNoConversation(
    env: Env, cfg: Config, steps: seq<Step>, user: Id, id: Id, approved: bool, c: Id)
    requires c in Run(env, cfg, steps).store.conversations
    ensures var w := Run(env, cfg, steps);
            var w' := Confirm(env, cfg, w, user, id, approved).0;
            InConversation(w'.store.messages, c) == InConversation(w.store.messages, c)
  {
    RowsAreForNoConversation(env, cfg, steps);
    ConfirmedNoteGoesElsewhere(env, cfg, Run(env, cfg, steps), user, id, approved, c);
  }

  /** The approval runs the tool once and reports a failure. */
  ghost predicate RunsAndFails(env: Env, cfg: Config, w: World, user: Id, id: Id)
    requires id in w.calls.rows
  {
    var (w', answer) := Confirm(env, cfg, w, user, id, true);
    answer == Err(Internal) && w'.calls.executions == w.calls.executions + [Approval(env, w, user, id)]
  }

  lemma NoteRefused(env: Env, cfg: Config, w: World, user: Id, id: Id)
    requires Approvable(env, cfg, w, user, id) && env.createFails(w.tick + 4)
    ensures RunsAndFails(env, cfg, w, user, id)
  {
  }

  /** Where a message must belong to a conversation, as its table demands, the note is
      refused: after any run, every approval of a pending row runs the tool and then
      reports a failure. */
  lemma ApprovalsReportFailure(env: Env, cfg: Config, steps: seq<Step>, w: World, user: Id, id: Id)
    requires w == Run(env, cfg, steps) && Approvable(env, cfg, w, user, id)
    requires w.calls.rows[id].message !in w.store.conversations ==> env.createFails(w.tick + 4)
    ensures RunsAndFails(env, cfg, w, user, id)
  {
    RowsAreForNoConversation(env, cfg, steps);
    NoteRefused(env, cfg, w, user, id);
  }
}
