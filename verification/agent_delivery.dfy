/** The way of a turn to the harness: which prompt, reply, model and request it gets there
    with, and that nothing of it depends on what the model will say. */
module AgentDelivery {
  import opened AgentTypes
  import opened AgentWorld
  import opened AgentService
  import opened AgentRuns
  import Harness = LlmHarness
  import opened Wrappers

  /** A turn about to be delivered: the world then, the turn, the request, the audit row. */
  datatype Delivery = Delivery(w: World, turn: TurnInfo, req: Harness.Request, audit: Id)

  function AnsweredBy(
    env: Env, cfg: Config, w: World, user: Id, conversation: Id, text: string, p: Policy, provider: Harness.Resolved)
    : Option<Delivery>
  {
    var (w1, audit) := Audit(env, w, user, MessageSend);
    var (w3, reply) := AddMessage(env, Tick(w1), user, conversation, AssistantRole, "");
    if env.readFails(w1.tick) || reply.None? then None
    else
      Some(Delivery(w3, TurnInfo(user, conversation, reply.value, p, provider),
                    Harness.Request(History(w1.store.messages, conversation), text, provider, Tools(cfg, p)), audit))
  }

  function RespondedBy(
    env: Env, cfg: Config, w: World, user: Id, conversation: Id, text: string, p: Policy): Option<Delivery>
  {
    var (w1, provider) := ResolveProvider(env, cfg, w, user, p);
    if provider.Err? then None
    else
      var (w2, spend) := CheckSpend(env, cfg, w1, provider.value, p);
      if spend.Some? then None else AnsweredBy(env, cfg, w2, user, conversation, text, p, provider.value)
  }

  /** The delivery of a turn that gets as far. */
  function DeliveryOf(
    env: Env, cfg: Config, w: World, user: Id, conversation: Id, text: string): Option<Delivery>
  {
    var (w1, p) := Admit(env, cfg, w, user, conversation, text);
    if p.Err? then None
    else
      var (w2, prompt) := AddMessage(env, w1, user, conversation, UserRole, text);
      if prompt.None? then None else RespondedBy(env, cfg, w2, user, conversation, text, p.value)
  }

  /** The turn from w to w' was that delivery, or else it touched no tool call, sent the
      client nothing and reports why. */
  ghost predicate Delivered(env: Env, cfg: Config, w: World, d: Option<Delivery>, w': World, fault: Option<Fault>) {
    match d
    case None => w'.calls == w.calls && w'.trail.sent == w.trail.sent && fault.Some?
    case Some(d) =>
      && d.w.calls == w.calls && d.w.trail.sent == w.trail.sent && fault.None?
      && var (w1, ok) := Deliver(env, cfg, d.w, d.turn, d.req);
         w' == MarkOutcome(env, w1, d.audit, ok)
  }

  lemma AnswerIsDelivery(
    env: Env, cfg: Config, w: World, user: Id, conversation: Id, text: string, p: Policy, provider: Harness.Resolved)
    ensures var (w', fault) := AnswerTurn(env, cfg, w, user, conversation, text, p, provider);
            Delivered(env, cfg, w, AnsweredBy(env, cfg, w, user, conversation, text, p, provider), w', fault)
  {
  }

  lemma RespondIsDelivery(env: Env, cfg: Config, w: World, user: Id, conversation: Id, text: string, p: Policy)
    ensures var (w', fault) := Respond(env, cfg, w, user, conversation, text, p);
            Delivered(env, cfg, w, RespondedBy(env, cfg, w, user, conversation, text, p), w', fault)
  {
    var (w1, provider) := ResolveProvider(env, cfg, w, user, p);
    SettlingOnlyTicks(env, cfg, w, user, p);
    if provider.Ok? {
      var w2 := CheckSpend(env, cfg, w1, provider.value, p).0;
      AnswerIsDelivery(env, cfg, w2, user, conversation, text, p, provider.value);
    }
  }

  lemma SendIsDelivery(env: Env, cfg: Config, w: World, user: Id, conversation: Id, text: string)
    ensures var (w', fault) := StreamMessage(env, cfg, w, user, conversation, text);
            Delivered(env, cfg, w, DeliveryOf(env, cfg, w, user, conversation, text), w', fault)
  {
    var (w1, p) := Admit(env, cfg, w, user, conversation, text);
    AdmitOnlyTicks(env, cfg, w, user, conversation, text);
    if p.Ok? {
      var (w2, prompt) := AddMessage(env, w1, user, conversation, UserRole, text);
      if prompt.Some? { RespondIsDelivery(env, cfg, w2, user, conversation, text, p.value); }
    }
  }
}
