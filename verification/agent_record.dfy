/** What the tables hold afterwards: the two messages of a turn, a decision and its result,
    a new conversation, a policy. */
module AgentRecord {
  import opened AgentAudit
  import opened AgentTypes
  import opened AgentWorld
  import opened AgentService
  import opened AgentRuns
  import opened AgentTurns
  import opened AgentDelivery
  import Harness = LlmHarness
  import opened Sequences
  import opened Wrappers

  // ----- A turn ----------------------------------------------------------------------

  predicate MessagesBelow(ms: seq<Message>, n: Id) {
    forall k :: 0 <= k < |ms| ==> ms[k].id < n
  }

  /** The world in which a turn is delivered holds its prompt and its empty reply. */
  ghost predicate Prepared(
    w: World, d: Delivery, user: Id, conversation: Id, text: string, prompt: Message, reply: Message)
  {
    && d.w.store == w.store.(messages := w.store.messages + [prompt] + [reply])
    && prompt == Message(prompt.id, user, conversation, UserRole, text, prompt.at)
    && reply == Message(d.turn.message, user, conversation, AssistantRole, "", d.w.clock)
    && w.nextId <= prompt.id < reply.id < d.w.nextId && w.clock <= prompt.at <= reply.at
    && d.turn.user == user && d.turn.conversation == conversation
    && d.req.history == History(w.store.messages + [prompt], conversation)
  }

  /** The same of the reply alone, where the prompt is in place. */
  ghost predicate Answered(w: World, d: Delivery, user: Id, conversation: Id, reply: Message) {
    && d.w.store == w.store.(messages := w.store.messages + [reply])
    && reply == Message(d.turn.message, user, conversation, AssistantRole, "", d.w.clock)
    && w.nextId <= reply.id < d.w.nextId && w.clock <= reply.at
    && d.turn.user == user && d.turn.conversation == conversation
    && d.req.history == History(w.store.messages, conversation)
  }

  ghost predicate PromptStored(w: World, w1: World, user: Id, conversation: Id, text: string, prompt: Message) {
    && w1.store == w.store.(messages := w.store.messages + [prompt]) && w1.trail == w.trail
    && prompt == Message(w.nextId, user, conversation, UserRole, text, prompt.at)
    && w.nextId < w1.nextId && w.clock <= prompt.at <= w1.clock
  }

  lemma PromptThenReply(
    w: World, w1: World, d: Delivery, user: Id, conversation: Id, text: string, prompt: Message, reply: Message)
    requires PromptStored(w, w1, user, conversation, text, prompt) && Answered(w1, d, user, conversation, reply)
    ensures Prepared(w, d, user, conversation, text, prompt, reply)
  {
  }

  lemma AnswerIsPrepared(
    env: Env, cfg: Config, w: World, user: Id, conversation: Id, text: string, p: Policy, provider: Harness.Resolved)
    returns (reply: Message)
    ensures var d := AnsweredBy(env, cfg, w, user, conversation, text, p, provider);
            d.Some? ==> Answered(w, d.value, user, conversation, reply)
  {
    var w2 := Tick(Audit(env, w, user, MessageSend).0);
    reply := Message(w2.nextId, user, conversation, AssistantRole, "", w2.clock + env.elapsed(w2.tick));
  }

  lemma RespondIsPrepared(env: Env, cfg: Config, w: World, user: Id, conversation: Id, text: string, p: Policy)
    returns (reply: Message)
    ensures var d := RespondedBy(env, cfg, w, user, conversation, text, p);
            d.Some? ==> Answered(w, d.value, user, conversation, reply)
  {
    var (w1, provider) := ResolveProvider(env, cfg, w, user, p);
    SettlingOnlyTicks(env, cfg, w, user, p);
    if provider.Ok? {
      var w2 := CheckSpend(env, cfg, w1, provider.value, p).0;
      reply := AnswerIsPrepared(env, cfg, w2, user, conversation, text, p, provider.value);
    } else {
      reply := Message(0, 0, 0, ToolRole, "", 0);
    }
  }

  lemma AddedIsStored(env: Env, w: World, w0: World, user: Id, conversation: Id, text: string)
    returns (prompt: Message)
    requires w0 == w.(tick := w0.tick)
    ensures var (w1, id) := AddMessage(env, w0, user, conversation, UserRole, text);
            id.Some? ==> PromptStored(w, w1, user, conversation, text, prompt)
  {
    prompt := Message(w.nextId, user, conversation, UserRole, text, w.clock + env.elapsed(w0.tick));
  }

  lemma PromptIsStored(env: Env, cfg: Config, w: World, user: Id, conversation: Id, text: string)
    returns (w1: World, p: Result<Policy>, prompt: Message)
    ensures var d := DeliveryOf(env, cfg, w, user, conversation, text);
            d.Some? ==>
              && PromptStored(w, w1, user, conversation, text, prompt)
              && p.Ok? && d == RespondedBy(env, cfg, w1, user, conversation, text, p.value)
  {
    var w0;
    AdmitOnlyTicks(env, cfg, w, user, conversation, text);
    w0, p := Admit(env, cfg, w, user, conversation, text).0, Admit(env, cfg, w, user, conversation, text).1;
    w1 := AddMessage(env, w0, user, conversation, UserRole, text).0;
    prompt := AddedIsStored(env, w, w0, user, conversation, text);
  }

  lemma TurnIsPrepared(env: Env, cfg: Config, w: World, user: Id, conversation: Id, text: string)
    returns (prompt: Message, reply: Message)
    ensures var d := DeliveryOf(env, cfg, w, user, conversation, text);
            d.Some? ==> Prepared(w, d.value, user, conversation, text, prompt, reply)
  {
    var d := DeliveryOf(env, cfg, w, user, conversation, text);
    var w1, p;
    w1, p, prompt := PromptIsStored(env, cfg, w, user, conversation, text);
    reply := prompt;
    if d.Some? {
      reply := RespondIsPrepared(env, cfg, w1, user, conversation, text, p.value);
      PromptThenReply(w, w1, d.value, user, conversation, text, prompt, reply);
    }
  }

  /** From w to w' one prompt and one reply were added, the reply being the text that was
      sent to the client on the way. */
  ghost predicate LeavesTwo(
    w: World, w': World, user: Id, conversation: Id, text: string, prompt: Message, reply: Message, said: seq<Event>)
  {
    && w'.store == w.store.(messages := w.store.messages + [prompt] + [reply])
    && prompt == Message(prompt.id, user, conversation, UserRole, text, prompt.at)
    && reply == Message(reply.id, user, conversation, AssistantRole, TextIn(said), reply.at)
    && w'.trail.sent == w.trail.sent + said && DoneIsLast(said)
    && w.clock <= prompt.at <= reply.at && w.nextId <= prompt.id < reply.id
  }

  lemma DeliveryIsRecorded(
    env: Env, cfg: Config, w: World, d: Delivery, user: Id, conversation: Id, text: string,
    prompt: Message, empty: Message, w': World, fault: Option<Fault>)
    returns (reply: Message, said: seq<Event>)
    requires !(exists k :: env.contentFails(k)) && MessagesBelow(w.store.messages, w.nextId)
    requires Prepared(w, d, user, conversation, text, prompt, empty) && Delivered(env, cfg, w, Some(d), w', fault)
    ensures LeavesTwo(w, w', user, conversation, text, prompt, reply, said)
  {
    said := ReplyIsWhatWasStreamed(env, cfg, d.w, d.turn, d.req);
    reply := empty.(content := TextIn(said));
    var done := Deliver(env, cfg, d.w, d.turn, d.req).0;
    OnlyReplyIsSet(w.store.messages, prompt, empty, done.store.messages, TextIn(said));
  }

  /** A delivered turn leaves two messages in its conversation and changes no other: the
      prompt as it was sent, and a reply that is the text the client was handed. */
  lemma TurnIsRecorded(env: Env, cfg: Config, w: World, user: Id, conversation: Id, text: string)
    returns (prompt: Message, reply: Message, said: seq<Event>)
    requires !(exists k :: env.contentFails(k)) && MessagesBelow(w.store.messages, w.nextId)
    requires DeliveryOf(env, cfg, w, user, conversation, text).Some?
    ensures var (w', fault) := StreamMessage(env, cfg, w, user, conversation, text);
            fault.None? && LeavesTwo(w, w', user, conversation, text, prompt, reply, said)
  {
    var d := DeliveryOf(env, cfg, w, user, conversation, text).value;
    var empty;
    prompt, empty := TurnIsPrepared(env, cfg, w, user, conversation, text);
    SendIsDelivery(env, cfg, w, user, conversation, text);
    var (w', fault) := StreamMessage(env, cfg, w, user, conversation, text);
    reply, said := DeliveryIsRecorded(env, cfg, w, d, user, conversation, text, prompt, empty, w', fault);
  }

  lemma OnlyReplyIsSet(ms: seq<Message>, prompt: Message, reply: Message, ms': seq<Message>, content: string)
    requires ContentSet(ms + [prompt] + [reply], ms', reply.id, content)
    requires MessagesBelow(ms, reply.id) && prompt.id < reply.id
    ensures ms' == ms + [prompt] + [reply.(content := content)]
  {
    var all := ms + [prompt] + [reply];
    assert forall k :: 0 <= k < |ms| ==> all[k] == ms[k];
    assert all[|ms|] == prompt && all[|ms| + 1] == reply;
  }

  // ----- How a turn is booked ----------------------------------------------------------

  /** The service got to a done event or to the end of the channel, the done event it
      handed over got through, and the reply was saved. */
  ghost predicate EndsWell(env: Env, cfg: Config, d: Delivery) {
    var (w1, events) := Harness.Run(env, cfg, d.turn.user, d.w, d.req);
    var n, done := Handled(env, cfg, w1, d.turn, "", events), Consume(env, cfg, w1, d.turn, "", events).w;
    && (n == |events| || (n > 0 && events[n - 1].Done?))
    && done.tick > 0 && !env.emitFails(done.tick - 1) && !env.contentFails(done.tick)
  }

  lemma DeliversWellIff(env: Env, cfg: Config, d: Delivery)
    ensures Deliver(env, cfg, d.w, d.turn, d.req).1 <==> EndsWell(env, cfg, d)
  {
    var (w1, events) := Harness.Run(env, cfg, d.turn.user, d.w, d.req);
    ConsumeEndsWellIff(env, cfg, w1, d.turn, "", events);
  }

  lemma RespondOpensRow(env: Env, cfg: Config, w: World, user: Id, conversation: Id, text: string, p: Policy)
    requires AuditWorks(env)
    ensures var d := RespondedBy(env, cfg, w, user, conversation, text, p);
            d.Some? ==>
              d.value.audit == w.nextId
              && d.value.w.trail == w.trail.(audits := w.trail.audits + [AuditRow(w.nextId, MessageSend, user)])
  {
    SettlingOnlyTicks(env, cfg, w, user, p);
  }

  lemma OpenedRow(w: World, w1: World, d: Delivery, user: Id)
    requires w1.trail == w.trail && d.audit == w1.nextId > 0
    requires d.w.trail == w1.trail.(audits := w1.trail.audits + [AuditRow(w1.nextId, MessageSend, user)])
    ensures d.audit != NIL && d.w.trail == w.trail.(audits := w.trail.audits + [AuditRow(d.audit, MessageSend, user)])
  {
  }

  lemma DeliveryOpensRow(env: Env, cfg: Config, w: World, user: Id, conversation: Id, text: string)
    requires AuditWorks(env) && w.nextId != NIL
    ensures var d := DeliveryOf(env, cfg, w, user, conversation, text);
            d.Some? ==>
              d.value.audit != NIL
              && d.value.w.trail == w.trail.(audits := w.trail.audits + [AuditRow(d.value.audit, MessageSend, user)])
  {
    var d := DeliveryOf(env, cfg, w, user, conversation, text);
    var w1, p, prompt := PromptIsStored(env, cfg, w, user, conversation, text);
    if d.Some? {
      RespondOpensRow(env, cfg, w1, user, conversation, text, p.value);
      OpenedRow(w, w1, d.value, user);
    }
  }

  lemma MarkIsLast(env: Env, w: World, audit: Id, success: bool)
    requires AuditWorks(env) && audit != NIL
    ensures MarkOutcome(env, w, audit, success).trail
         == w.trail.(outcomes := w.trail.outcomes + [Outcome(audit, success)])
  {
  }

  /** A delivered turn opens an audit row before the harness runs, and the last outcome it
      writes is that row's: a success exactly when the turn ended well. */
  lemma OutcomeTellsEnding(env: Env, cfg: Config, w: World, user: Id, conversation: Id, text: string)
    requires AuditWorks(env) && w.nextId != NIL
    requires DeliveryOf(env, cfg, w, user, conversation, text).Some?
    ensures var d, w' := DeliveryOf(env, cfg, w, user, conversation, text).value,
                         StreamMessage(env, cfg, w, user, conversation, text).0;
            && d.w.trail.audits == w.trail.audits + [AuditRow(d.audit, MessageSend, user)]
            && w'.trail.outcomes != []
            && w'.trail.outcomes[|w'.trail.outcomes| - 1] == Outcome(d.audit, EndsWell(env, cfg, d))
  {
    var d := DeliveryOf(env, cfg, w, user, conversation, text).value;
    SendIsDelivery(env, cfg, w, user, conversation, text);
    DeliveryOpensRow(env, cfg, w, user, conversation, text);
    DeliversWellIff(env, cfg, d);
    var (w1, ok) := Deliver(env, cfg, d.w, d.turn, d.req);
    MarkIsLast(env, w1, d.audit, ok);
  }

  /** Where that row could not be written the turn is delivered all the same, and the only
      outcomes are the executor's own. */
  lemma UnauditedTurns(env: Env, cfg: Config, w: World, user: Id, conversation: Id, text: string)
    requires DeliveryOf(env, cfg, w, user, conversation, text).Some?
    ensures var d := DeliveryOf(env, cfg, w, user, conversation, text).value;
            d.audit == NIL ==>
              StreamMessage(env, cfg, w, user, conversation, text).0 == Deliver(env, cfg, d.w, d.turn, d.req).0
  {
    SendIsDelivery(env, cfg, w, user, conversation, text);
  }

  // ----- Message ids over runs -------------------------------------------------------

  ghost predicate BelowNext(w: World) {
    MessagesBelow(w.store.messages, w.nextId)
  }

  lemma DeliverKeepsBelow(env: Env, cfg: Config, w: World, turn: TurnInfo, req: Harness.Request)
    requires BelowNext(w)
    ensures BelowNext(Deliver(env, cfg, w, turn, req).0)
  {
    var (w1, events) := Harness.Run(env, cfg, turn.user, w, req);
    var c := Consume(env, cfg, w1, turn, "", events);
    var body, tail := Harness.RunIsSound(env, cfg, turn.user, w, req);
    var charged := ConsumeChargesOnce(env, cfg, w1, turn, "", events);
    ConsumeIsSafe(env, cfg, w1, turn, "", events);
    ContentIsSet(w.store.messages, turn.message, c.content);
  }

  lemma AnswerKeepsBelow(
    env: Env, cfg: Config, w: World, user: Id, conversation: Id, text: string, p: Policy, provider: Harness.Resolved)
    requires BelowNext(w)
    ensures BelowNext(AnswerTurn(env, cfg, w, user, conversation, text, p, provider).0)
  {
    var d := AnsweredBy(env, cfg, w, user, conversation, text, p, provider);
    AnswerIsDelivery(env, cfg, w, user, conversation, text, p, provider);
    if d.Some? {
      var reply := AnswerIsPrepared(env, cfg, w, user, conversation, text, p, provider);
      DeliverKeepsBelow(env, cfg, d.value.w, d.value.turn, d.value.req);
    }
  }

  lemma RespondKeepsBelow(env: Env, cfg: Config, w: World, user: Id, conversation: Id, text: string, p: Policy)
    requires BelowNext(w)
    ensures BelowNext(Respond(env, cfg, w, user, conversation, text, p).0)
  {
    var (w1, provider) := ResolveProvider(env, cfg, w, user, p);
    SettlingOnlyTicks(env, cfg, w, user, p);
    if provider.Ok? {
      var w2 := CheckSpend(env, cfg, w1, provider.value, p).0;
      AnswerKeepsBelow(env, cfg, w2, user, conversation, text, p, provider.value);
    }
  }

  lemma SendKeepsBelow(env: Env, cfg: Config, w: World, user: Id, conversation: Id, text: string)
    requires BelowNext(w)
    ensures BelowNext(StreamMessage(env, cfg, w, user, conversation, text).0)
  {
    var (w1, p) := Admit(env, cfg, w, user, conversation, text);
    AdmitOnlyTicks(env, cfg, w, user, conversation, text);
    if p.Ok? {
      var (w2, prompt) := AddMessage(env, w1, user, conversation, UserRole, text);
      if prompt.Some? { RespondKeepsBelow(env, cfg, w2, user, conversation, text, p.value); }
    }
  }

  lemma {:induction false} OutsideStaysBelow(ms: seq<Message>, conversation: Id, n: Id)
    requires MessagesBelow(ms, n)
    ensures MessagesBelow(OutsideConversation(ms, conversation), n)
  {
    if ms != [] {
      OutsideStaysBelow(ms[..|ms| - 1], conversation, n);
    }
  }

  lemma ApproveKeepsStore(env: Env, cfg: Config, w: World, user: Id, id: Id, row: ToolCallRow)
    ensures var w' := Approve(env, cfg, w, user, id, row).0;
            w'.store == w.store && w'.clock == w.clock && w.nextId <= w'.nextId
  {
  }

  lemma ReportKeepsBelow(env: Env, done: (World, ToolOutcome), user: Id, id: Id, row: ToolCallRow)
    requires BelowNext(done.0)
    ensures BelowNext(Report(env, done, user, id, row).0)
  {
  }

  lemma DecideKeepsBelow(env: Env, cfg: Config, w: World, user: Id, id: Id, approved: bool)
    requires BelowNext(w)
    ensures BelowNext(Confirm(env, cfg, w, user, id, approved).0)
  {
    var (w1, row) := FindRow(env, w, user, id);
    if cfg.enabled && row.Ok? && row.value.status == Pending && approved {
      ApproveKeepsStore(env, cfg, w1, user, id, row.value);
      ReportKeepsBelow(env, Approve(env, cfg, w1, user, id, row.value), user, id, row.value);
    }
  }

  lemma OtherStepsKeepBelow(env: Env, cfg: Config, w: World, step: Step)
    requires BelowNext(w) && !step.Send? && !step.Decide?
    ensures BelowNext(Apply(env, cfg, w, step))
  {
    if step.Remove? { OutsideStaysBelow(w.store.messages, step.conversation, w.nextId); }
  }

  /** In every run, message ids are below the next one to be given out, as a recorded turn
      requires. */
  lemma {:induction false} RunsNumberMessages(env: Env, cfg: Config, steps: seq<Step>)
    ensures BelowNext(Run(env, cfg, steps))
  {
    if steps != [] {
      var w, step := Run(env, cfg, steps[..|steps| - 1]), steps[|steps| - 1];
      RunsNumberMessages(env, cfg, steps[..|steps| - 1]);
      match step
      case Send(user, conversation, text) => SendKeepsBelow(env, cfg, w, user, conversation, text);
      case Decide(user, row, approved) => DecideKeepsBelow(env, cfg, w, user, row, approved);
      case _ => OtherStepsKeepBelow(env, cfg, w, step);
    }
  }

  // ----- A decision ------------------------------------------------------------------

  ghost predicate WritesWork(env: Env) {
    forall k: nat :: !env.readFails(k) && !env.createFails(k) && !env.statusFails(k) && !env.auditFails(k)
  }

  /** A rejection: the row is rejected, one audit row is written, and the answer is the row
      as it is now. */
  lemma RejectionIsRecorded(env: Env, cfg: Config, w: World, user: Id, id: Id)
    requires WritesWork(env) && Approvable(env, cfg, w, user, id)
    ensures var (w', r) := Confirm(env, cfg, w, user, id, false);
            && w'.calls.rows == w.calls.rows[id := w.calls.rows[id].(status := Rejected)]
            && r == Ok(w'.calls.rows[id]) && w'.calls.executions == w.calls.executions && w'.store == w.store
            && w'.trail == w.trail.(audits := w.trail.audits + [AuditRow(w.nextId, ToolConfirm, user)])
  {
  }

  /** An approval: the row shows how the run ended and with what result, a note of the
      result is stored, the run is audited, and the answer is the row as it is now. */
  lemma ApprovalIsRecorded(env: Env, cfg: Config, w: World, user: Id, id: Id)
    requires WritesWork(env) && Approvable(env, cfg, w, user, id)
    ensures var (w', r) := Confirm(env, cfg, w, user, id, true);
            var row, outcome := w.calls.rows[id], env.runs(w.tick + 2);
            var result := match outcome case Returned(text) => text case Raised(error) => ErrJson(error);
            && w'.calls.rows == w.calls.rows[id := row.(status := if outcome.Returned? then Executed else Failed,
                                                        result := result)]
            && r == Ok(w'.calls.rows[id])
            && |w'.store.messages| == |w.store.messages| + 1
            && (var note := w'.store.messages[|w.store.messages|];
                && w'.store == w.store.(messages := w.store.messages + [note])
                && note == Message(note.id, user, row.message, ToolRole, result, note.at))
            && w'.trail.audits != [] && w'.trail.sent == w.trail.sent
            && (var last := w'.trail.audits[|w'.trail.audits| - 1];
                last == AuditRow(last.id, ToolExecute, user) && last.id + 1 == w'.nextId)
  {
    var (w1, row) := FindRow(env, w, user, id);
    ApprovalOfRow(env, cfg, w1, user, id, row.value);
    ReportOfRun(env, Approve(env, cfg, w1, user, id, row.value), user, id, row.value);
  }

  /** The row an approval leaves when its writes work. */
  function Decided(row: ToolCallRow, o: ToolOutcome): ToolCallRow {
    row.(status := if o.Returned? then Executed else Failed, result := Recorded(o))
  }

  lemma ApprovalOfRow(env: Env, cfg: Config, w: World, user: Id, id: Id, row: ToolCallRow)
    requires WritesWork(env) && cfg.serviceHasTools && Owned(w, user, id)
    ensures var (w', o) := Approve(env, cfg, w, user, id, row);
            && o == env.runs(w.tick + 1)
            && w'.calls.rows == w.calls.rows[id := Decided(w.calls.rows[id], o)]
            && w'.store == w.store && w'.trail.sent == w.trail.sent
  {
  }

  lemma ReportOfRun(env: Env, done: (World, ToolOutcome), user: Id, id: Id, row: ToolCallRow)
    requires WritesWork(env) && Owned(done.0, user, id)
    ensures var w, (w', r) := done.0, Report(env, done, user, id, row);
            && r == Ok(w.calls.rows[id]) && w'.calls == w.calls && w'.trail.sent == w.trail.sent
            && |w'.store.messages| == |w.store.messages| + 1
            && (var note := w'.store.messages[|w.store.messages|];
                && w'.store == w.store.(messages := w.store.messages + [note])
                && note == Message(note.id, user, row.message, ToolRole, Recorded(done.1), note.at))
            && w'.trail.audits == w.trail.audits + [AuditRow(w'.nextId - 1, ToolExecute, user)]
  {
  }

  // ----- Conversations and policy ----------------------------------------------------

  /** Opening stores a conversation of the user under a new id and answers with that. */
  lemma OpeningIsRecorded(env: Env, cfg: Config, w: World, user: Id)
    requires WritesWork(env) && cfg.enabled
    ensures var (w', r) := CreateConversation(env, cfg, w, user);
            && r.Ok? && w.nextId <= r.value < w'.nextId
            && w'.store == w.store.(conversations := w.store.conversations[r.value := Conversation(user, false)])
            && w'.trail.audits == w.trail.audits + [AuditRow(w'.nextId - 1, ConversationCreate, user)]
  {
  }

  /** A policy is in force as it was set, with a window of a minute if it sets none. */
  lemma PolicyIsRecorded(env: Env, cfg: Config, w: World, p: Policy)
    requires WritesWork(env) && cfg.enabled
    ensures var (w', fault) := UpsertPolicy(env, cfg, w, p);
            && fault.None? && w'.calls == w.calls
            && w'.trail == w.trail.(audits := w.trail.audits + [AuditRow(w.nextId, PolicyUpdate, NIL)])
            && w'.store == w.store.(policy := Some(Policy(p.allowModels, p.forceAdmin, p.maxMessages,
                                                          if p.windowSeconds > 0 then p.windowSeconds else 60,
                                                          p.spendCap, p.denyTools)))
  {
  }
}
