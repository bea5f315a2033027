/** Who may do what: the verdict on a turn as one table, the exact rate limit, the model a
    turn gets, and what a stranger and an owner can do to a conversation. */
module AgentAdmission {
  import opened AgentTypes
  import opened AgentWorld
  import opened AgentService
  import opened AgentRuns
  import opened AgentTurns
  import opened AgentDelivery
  import Harness = LlmHarness
  import opened Sequences
  import opened Wrappers

  ghost predicate ReadsWork(env: Env) {
    forall k: nat :: !env.readFails(k)
  }

  // ----- The verdict -----------------------------------------------------------------

  predicate Owns(w: World, user: Id, conversation: Id) {
    conversation in w.store.conversations && w.store.conversations[conversation].user == user
  }

  /** Why a turn is refused at the door, if it is: the first reason that applies. */
  ghost function Verdict(cfg: Config, w: World, user: Id, conversation: Id, text: string): Option<Fault> {
    if !cfg.enabled then Some(Disabled)
    else if 0 < cfg.maxMessageBytes < |text| then Some(TooLarge)
    else if !Owns(w, user, conversation) then Some(NotFound)
    else if w.store.conversations[conversation].archived then Some(Archived)
    else if w.store.policy.Some? && OverQuota(w, user, w.store.policy.value) then Some(RateLimited)
    else None
  }

  lemma AdmitIsVerdict(env: Env, cfg: Config, w: World, user: Id, conversation: Id, text: string)
    requires ReadsWork(env)
    ensures var (w1, p) := Admit(env, cfg, w, user, conversation, text);
            && w1 == w.(tick := w1.tick)
            && match Verdict(cfg, w, user, conversation, text)
               case Some(fault) => p == Err(fault)
               case None => p.Ok? && (w.store.policy.Some? ==> p.value == w.store.policy.value)
  {
    AdmitOnlyTicks(env, cfg, w, user, conversation, text);
    RateCheckIsExact(env, Tick(Tick(w)), user, PolicyOf(w));
  }

  /** With reads working, a turn that is refused at the door reports the verdict and
      changes nothing; any other fails for no such reason. */
  lemma TurnFollowsVerdict(env: Env, cfg: Config, w: World, user: Id, conversation: Id, text: string)
    requires ReadsWork(env)
    ensures var (w', fault) := StreamMessage(env, cfg, w, user, conversation, text);
            match Verdict(cfg, w, user, conversation, text)
            case Some(verdict) => fault == Some(verdict) && w' == w.(tick := w'.tick)
            case None => fault.Some? ==> fault.value == Internal || (fault.value == ForceAdmin && ForcesAdmin(w))
  {
    AdmitIsVerdict(env, cfg, w, user, conversation, text);
    var (w1, p) := Admit(env, cfg, w, user, conversation, text);
    if p.Ok? {
      var (w2, prompt) := AddMessage(env, w1, user, conversation, UserRole, text);
      if prompt.Some? { RespondFaults(env, cfg, w2, user, conversation, text, p.value); }
    }
  }

  predicate ForcesAdmin(w: World) {
    w.store.policy.Some? && w.store.policy.value.forceAdmin
  }

  lemma RespondFaults(env: Env, cfg: Config, w: World, user: Id, conversation: Id, text: string, p: Policy)
    ensures var fault := Respond(env, cfg, w, user, conversation, text, p).1;
            && (fault.Some? ==> fault.value in {Internal, ForceAdmin})
            && (fault == Some(ForceAdmin) <==> p.forceAdmin)
  {
    UsableFault(cfg, p, user, w.store.providers);
    NoAdminModels(cfg, p, user, w.store.providers);
  }

  /** The spending cap is for models of the administrator on a metered service: a turn is
      refused when the balance cannot be read, or when the policy has a cap and nothing is
      left. */
  lemma SpendIsExact(env: Env, cfg: Config, w: World, provider: Harness.Resolved, p: Policy)
    ensures var fault, balance := CheckSpend(env, cfg, w, provider, p).1, env.balances(w.tick);
            && (fault == Some(Internal) <==> provider.adminProvided && cfg.metered && balance.None?)
            && (fault == Some(SpendCap) <==>
                  provider.adminProvided && cfg.metered && p.spendCap > 0 && balance.Some? && balance.value <= 0)
            && (fault.Some? ==> fault.value in {Internal, SpendCap})
  {
  }

  /** So a turn is rate limited exactly when it passes the checks before that one and the
      user's prompts in the window have reached the cap. */
  lemma RateLimitedIff(env: Env, cfg: Config, w: World, user: Id, conversation: Id, text: string)
    requires ReadsWork(env)
    ensures StreamMessage(env, cfg, w, user, conversation, text).1 == Some(RateLimited)
       <==> && cfg.enabled && !(0 < cfg.maxMessageBytes < |text|) && Owns(w, user, conversation)
            && !w.store.conversations[conversation].archived
            && w.store.policy.Some? && OverQuota(w, user, w.store.policy.value)
  {
    TurnFollowsVerdict(env, cfg, w, user, conversation, text);
  }

  // ----- The model -------------------------------------------------------------------

  lemma RespondedModel(env: Env, cfg: Config, w: World, user: Id, conversation: Id, text: string, p: Policy)
    ensures var d := RespondedBy(env, cfg, w, user, conversation, text, p);
            d.Some? ==>
              && !p.forceAdmin && Chosen(cfg, p, user, w.store.providers, Ok(d.value.req.provider))
              && OffersUndenied(cfg, p, d.value.req.tools)
  {
    FirstUsableIsChosen(cfg, p, user, w.store.providers);
    ToolsAreUndenied(cfg, p);
  }

  /** A service with an executor offers the tools of the catalog that no entry of the deny
      list names, in the catalog's order; any other offers none. */
  ghost predicate OffersUndenied(cfg: Config, p: Policy, tools: seq<ToolDescriptor>) {
    && Subsequence(tools, cfg.catalog)
    && forall t :: t in tools <==> cfg.serviceHasTools && t in cfg.catalog && Undenied(cfg, p, t)
  }

  predicate Undenied(cfg: Config, p: Policy, t: ToolDescriptor) {
    forall k :: 0 <= k < |p.denyTools| ==> cfg.norm(p.denyTools[k]) != cfg.norm(t.name)
  }

  lemma ToolsAreUndenied(cfg: Config, p: Policy)
    ensures OffersUndenied(cfg, p, Tools(cfg, p))
  {
    if cfg.serviceHasTools {
      forall t ensures t in Tools(cfg, p) <==> t in cfg.catalog && !Denied(cfg.norm, t.name, p.denyTools) {
        OfferedAreUndenied(cfg.norm, cfg.catalog, p.denyTools, t);
      }
      OfferedKeepOrder(cfg.norm, cfg.catalog, p.denyTools);
    }
  }

  /** Every turn that is delivered asks the model of the user's first enabled row that the
      policy in force allows, or none if there is no such row; and offers it exactly the
      undenied tools. */
  lemma DeliveredModelIsAllowed(env: Env, cfg: Config, w: World, user: Id, conversation: Id, text: string)
    ensures var d := DeliveryOf(env, cfg, w, user, conversation, text);
            var p := PolicyOf(w);
            d.Some? ==>
              && !p.forceAdmin && Chosen(cfg, p, user, w.store.providers, Ok(d.value.req.provider))
              && OffersUndenied(cfg, p, d.value.req.tools) && d.value.turn.policy == p
              && d.value.req.prompt == text && d.value.req.provider == d.value.turn.provider
    ensures PolicyOf(w) == if w.store.policy.Some? then w.store.policy.value else Policy([], false, 0, 60, 0, [])
  {
    var (w1, p) := Admit(env, cfg, w, user, conversation, text);
    AdmitOnlyTicks(env, cfg, w, user, conversation, text);
    if p.Ok? {
      var (w2, prompt) := AddMessage(env, w1, user, conversation, UserRole, text);
      if prompt.Some? { RespondedModel(env, cfg, w2, user, conversation, text, p.value); }
    }
  }

  // ----- Strangers and owners --------------------------------------------------------

  /** To a user who does not own it a conversation is not there: a turn, an archiving and a
      deletion answer so and change nothing. */
  lemma StrangersFindNothing(
    env: Env, cfg: Config, w: World, user: Id, conversation: Id, text: string, archived: bool)
    requires ReadsWork(env) && cfg.enabled && !Owns(w, user, conversation)
    ensures !(0 < cfg.maxMessageBytes < |text|) ==>
              var (w', fault) := StreamMessage(env, cfg, w, user, conversation, text);
              fault == Some(NotFound) && w' == w.(tick := w'.tick)
    ensures !env.createFails(w.tick) ==>
              var (w', r) := SetArchived(env, cfg, w, user, conversation, archived);
              r == Err(NotFound) && w' == w.(tick := w'.tick)
    ensures var (w', fault) := DeleteConversation(env, cfg, w, user, conversation);
            fault == Some(NotFound) && w' == w.(tick := w'.tick)
  {
    TurnFollowsVerdict(env, cfg, w, user, conversation, text);
  }

  /** Nor does the table let a write for another user through. */
  lemma StrangersWriteNothing(env: Env, w: World, user: Id, id: Id, status: Status, result: string)
    requires id !in w.calls.rows || w.calls.rows[id].user != user
    ensures SetStatus(env, w, user, id, status) == w.(tick := w.tick + 1)
    ensures SetResult(env, w, user, id, result, status) == w.(tick := w.tick + 1)
  {
  }

  /** A tool call of another user is not there either: nothing is decided, nothing runs. */
  lemma StrangersDecideNothing(env: Env, cfg: Config, w: World, user: Id, id: Id, approved: bool)
    requires cfg.enabled && !env.readFails(w.tick)
    requires id !in w.calls.rows || w.calls.rows[id].user != user
    ensures var (w', r) := Confirm(env, cfg, w, user, id, approved); r == Err(NotFound) && w' == w.(tick := w'.tick)
  {
  }

  lemma OwnersArchive(env: Env, cfg: Config, w: World, user: Id, conversation: Id, archived: bool)
    requires ReadsWork(env) && cfg.enabled && Owns(w, user, conversation) && !env.createFails(w.tick)
    ensures var (w', r) := SetArchived(env, cfg, w, user, conversation, archived);
            && r == Ok(Conversation(user, archived)) && w'.calls == w.calls && w'.trail == w.trail
            && w'.store.conversations == w.store.conversations[conversation := Conversation(user, archived)]
            && w'.store == w.store.(conversations := w'.store.conversations)
  {
  }

  /** kept and gone share out the messages: gone has those of the conversation, kept the
      others, both in the old order. */
  ghost predicate SharedOut(ms: seq<Message>, kept: seq<Message>, gone: seq<Message>, conversation: Id) {
    && Subsequence(kept, ms) && Subsequence(gone, ms) && |ms| == |kept| + |gone|
    && (forall k :: 0 <= k < |kept| ==> kept[k].conversation != conversation)
    && (forall k :: 0 <= k < |gone| ==> gone[k].conversation == conversation)
  }

  lemma {:induction false} ConversationIsSharedOut(ms: seq<Message>, conversation: Id)
    ensures SharedOut(ms, OutsideConversation(ms, conversation), InConversation(ms, conversation), conversation)
  {
    if ms != [] {
      var init := ms[..|ms| - 1];
      ConversationIsSharedOut(init, conversation);
      LastIsSplit(ms, conversation);
      LastIsSharedOut(ms, OutsideConversation(init, conversation), InConversation(init, conversation), conversation);
    }
  }

  lemma LastIsSharedOut(ms: seq<Message>, kept: seq<Message>, gone: seq<Message>, conversation: Id)
    requires ms != [] && SharedOut(ms[..|ms| - 1], kept, gone, conversation)
    ensures var last := ms[|ms| - 1];
            if last.conversation == conversation then SharedOut(ms, kept, gone + [last], conversation)
            else SharedOut(ms, kept + [last], gone, conversation)
  {
    assert ms == ms[..|ms| - 1] + [ms[|ms| - 1]];
    OneMoreIsSharedOut(ms[..|ms| - 1], kept, gone, ms[|ms| - 1], conversation);
  }

  lemma OneMoreIsSharedOut(ms: seq<Message>, kept: seq<Message>, gone: seq<Message>, m: Message, conversation: Id)
    requires SharedOut(ms, kept, gone, conversation)
    ensures if m.conversation == conversation then SharedOut(ms + [m], kept, gone + [m], conversation)
            else SharedOut(ms + [m], kept + [m], gone, conversation)
  {
    if m.conversation == conversation {
      SubsequenceGrows(kept, ms, m);
      SubsequenceBoth(gone, ms, m);
    } else {
      SubsequenceBoth(kept, ms, m);
      SubsequenceGrows(gone, ms, m);
    }
  }

  /** Some message of the conversation has that id. */
  ghost predicate MessageIn(ms: seq<Message>, conversation: Id, id: Id) {
    exists k :: 0 <= k < |ms| && ms[k].conversation == conversation && ms[k].id == id
  }

  lemma {:induction false} IdsInConversation(ms: seq<Message>, conversation: Id, id: Id)
    ensures id in IdsOf(InConversation(ms, conversation)) <==> MessageIn(ms, conversation, id)
  {
    if ms != [] {
      var init, last := ms[..|ms| - 1], ms[|ms| - 1];
      IdsInConversation(init, conversation, id);
      if last.conversation == conversation {
        IdsOfAppend(InConversation(init, conversation), last);
      } else {
        assert InConversation(init, conversation) + [] == InConversation(init, conversation);
      }
      assert ms == init + [last];
      assert MessageIn(ms, conversation, id)
        <==> MessageIn(init, conversation, id) || (last.conversation == conversation && last.id == id) by {
        if MessageIn(init, conversation, id) {
          var k :| 0 <= k < |init| && init[k].conversation == conversation && init[k].id == id;
          assert ms[k] == init[k];
        }
      }
    }
  }

  /** Deleting takes the conversation, its messages and their tool calls, and nothing
      else. */
  lemma OwnersDelete(env: Env, cfg: Config, w: World, user: Id, conversation: Id) returns (gone: seq<Message>)
    requires ReadsWork(env) && cfg.enabled && Owns(w, user, conversation) && !env.createFails(w.tick + 1)
    ensures var (w', fault) := DeleteConversation(env, cfg, w, user, conversation);
            && fault.None? && w'.store == w.store.(conversations := w.store.conversations - {conversation},
                                                   messages := w'.store.messages)
            && SharedOut(w.store.messages, w'.store.messages, gone, conversation)
            && w'.calls == w.calls.(rows := w'.calls.rows)
            && (forall r :: r in w'.calls.rows
                  <==> r in w.calls.rows && !MessageIn(w.store.messages, conversation, w.calls.rows[r].message))
            && (forall r :: r in w'.calls.rows ==> w'.calls.rows[r] == w.calls.rows[r])
    ensures var w' := DeleteConversation(env, cfg, w, user, conversation).0;
            !env.auditFails(w.tick + 2) ==>
              w'.trail == w.trail.(audits := w.trail.audits + [AuditRow(w.nextId, ConversationDelete, user)])
  {
    gone := InConversation(w.store.messages, conversation);
    ConversationIsSharedOut(w.store.messages, conversation);
    forall r | r in w.calls.rows
      ensures w.calls.rows[r].message in IdsOf(gone)
         <==> MessageIn(w.store.messages, conversation, w.calls.rows[r].message)
    {
      IdsInConversation(w.store.messages, conversation, w.calls.rows[r].message);
    }
  }

  // ----- The history -----------------------------------------------------------------

  /** A turn gets the last twenty messages of its conversation, in order, each with its
      role and content. */
  lemma HistoryIsLastTwenty(ms: seq<Message>, conversation: Id) returns (others: seq<Message>, mine: seq<Message>)
    ensures SharedOut(ms, others, mine, conversation)
    ensures var h := History(ms, conversation);
            && |h| == (if |mine| < 20 then |mine| else 20)
            && forall k :: 0 <= k < |h| ==>
                 var m := mine[|mine| - |h| + k];
                 && h[k].content == m.content
                 && h[k].role == (match m.role
                                  case UserRole => "user"
                                  case AssistantRole => "assistant"
                                  case ToolRole => "tool")
  {
    others, mine := OutsideConversation(ms, conversation), InConversation(ms, conversation);
    ConversationIsSharedOut(ms, conversation);
  }
}
