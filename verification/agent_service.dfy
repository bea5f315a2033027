/** The agent service: admission, the streamed turn, the tool-call state machine
    and its confirmations, as functions of the world and as code over the tables. */
module AgentService {
  import opened AgentTypes
  import opened AgentWorld
  import Harness = LlmHarness
  import opened Sequences
  import opened Wrappers

  datatype Fault =
    | Disabled | TooLarge | NotFound | Archived | RateLimited | ForceAdmin | SpendCap | NotPending
    | Internal

  datatype Result<+T> = Ok(value: T) | Err(fault: Fault)

  const PERMISSIVE := Policy([], false, 0, 60, 0, [])
  const SECOND: int := 1_000_000_000
  const HISTORY_WINDOW: nat := 20
  const TOOL_NOT_FOUND := "agent: tool not found"

  // ----- Policy ------------------------------------------------------------

  predicate Denied(norm: string -> string, tool: string, deny: seq<string>) {
    exists k :: 0 <= k < |deny| && norm(deny[k]) == norm(tool)
  }

  predicate PatternAllows(pattern: string, model: string) {
    && pattern != ""
    && if pattern[|pattern| - 1] == '*' then pattern[..|pattern| - 1] <= model else model == pattern
  }

  predicate Allowed(norm: string -> string, model: string, allow: seq<string>) {
    allow == [] || exists k :: 0 <= k < |allow| && PatternAllows(norm(allow[k]), norm(model))
  }

  /** A pattern matches a name that is the same, or that continues what stands before the
      star the pattern ends with. An empty pattern matches nothing. */
  ghost predicate Matches(pattern: string, name: string) {
    || (pattern != "" && pattern == name && pattern[|pattern| - 1] != '*')
    || exists stem: string :: pattern == stem + "*" && stem <= name
  }

  lemma MatchingIsAllowing(norm: string -> string, model: string, allow: seq<string>)
    ensures Allowed(norm, model, allow)
       <==> |allow| == 0 || exists k :: 0 <= k < |allow| && Matches(norm(allow[k]), norm(model))
  {
    forall k | 0 <= k < |allow|
      ensures PatternAllows(norm(allow[k]), norm(model)) <==> Matches(norm(allow[k]), norm(model))
    {
      MatchIsAllow(norm(allow[k]), norm(model));
    }
  }

  lemma MatchIsAllow(pattern: string, name: string)
    ensures PatternAllows(pattern, name) <==> Matches(pattern, name)
  {
    if pattern != "" && pattern[|pattern| - 1] == '*' {
      assert pattern == pattern[..|pattern| - 1] + "*";
      forall stem: string | pattern == stem + "*" ensures stem == pattern[..|pattern| - 1] {}
    }
  }

  method ToolDenied(norm: string -> string, tool: string, deny: seq<string>) returns (denied: bool)
    ensures denied == Denied(norm, tool, deny)
    ensures denied <==> exists k :: 0 <= k < |deny| && norm(deny[k]) == norm(tool)
  {
    var t := norm(tool);
    for i := 0 to |deny|
      invariant forall k :: 0 <= k < i ==> norm(deny[k]) != t
    {
      if norm(deny[i]) == t { return true; }
    }
    denied := false;
  }

  method ModelAllowed(norm: string -> string, model: string, allow: seq<string>) returns (allowed: bool)
    ensures allowed == Allowed(norm, model, allow)
    ensures allowed <==> |allow| == 0 || exists k :: 0 <= k < |allow| && Matches(norm(allow[k]), norm(model))
  {
    MatchingIsAllowing(norm, model, allow);
    if |allow| == 0 { return true; }
    var m := norm(model);
    for i := 0 to |allow|
      invariant forall k :: 0 <= k < i ==> !PatternAllows(norm(allow[k]), m)
    {
      var p := norm(allow[i]);
      if p == "" { continue; }
      if p[|p| - 1] == '*' {
        if p[..|p| - 1] <= m {
          assert PatternAllows(norm(allow[i]), m);
          return true;
        }
        continue;
      }
      if m == p {
        assert PatternAllows(norm(allow[i]), m);
        return true;
      }
    }
    allowed := false;
  }

  /** The tools on offer are the catalog without the denied ones, in order. */
  method ToolsFor(cfg: Config, p: Policy) returns (tools: seq<ToolDescriptor>)
    ensures tools == Tools(cfg, p)
    ensures forall t :: t in tools <==>
              cfg.serviceHasTools && t in cfg.catalog && !Denied(cfg.norm, t.name, p.denyTools)
    ensures Subsequence(tools, cfg.catalog)
  {
    tools := [];
    if !cfg.serviceHasTools { return; }
    for i := 0 to |cfg.catalog|
      invariant tools == Offered(cfg.norm, cfg.catalog[..i], p.denyTools)
    {
      assert cfg.catalog[..i + 1][..i] == cfg.catalog[..i];
      var denied := ToolDenied(cfg.norm, cfg.catalog[i].name, p.denyTools);
      if denied { continue; }
      tools := tools + [cfg.catalog[i]];
    }
    assert cfg.catalog[..|cfg.catalog|] == cfg.catalog;
    forall t ensures t in tools <==> t in cfg.catalog && !Denied(cfg.norm, t.name, p.denyTools) {
      OfferedAreUndenied(cfg.norm, cfg.catalog, p.denyTools, t);
    }
    OfferedKeepOrder(cfg.norm, cfg.catalog, p.denyTools);
  }

  function Tools(cfg: Config, p: Policy): seq<ToolDescriptor> {
    if cfg.serviceHasTools then Offered(cfg.norm, cfg.catalog, p.denyTools) else []
  }

  lemma {:induction false} OfferedAreUndenied(
    norm: string -> string, catalog: seq<ToolDescriptor>, deny: seq<string>, t: ToolDescriptor)
    ensures t in Offered(norm, catalog, deny) <==> t in catalog && !Denied(norm, t.name, deny)
  {
    if catalog != [] {
      var init, last := catalog[..|catalog| - 1], catalog[|catalog| - 1];
      OfferedAreUndenied(norm, init, deny, t);
      assert catalog == init + [last];
    }
  }

  lemma {:induction false} OfferedKeepOrder(norm: string -> string, catalog: seq<ToolDescriptor>, deny: seq<string>)
    ensures Subsequence(Offered(norm, catalog, deny), catalog)
  {
    if catalog != [] {
      var init, last := catalog[..|catalog| - 1], catalog[|catalog| - 1];
      OfferedKeepOrder(norm, init, deny);
      assert catalog == init + [last];
      if Denied(norm, last.name, deny) {
        SubsequenceGrows(Offered(norm, init, deny), init, last);
      } else {
        SubsequenceBoth(Offered(norm, init, deny), init, last);
      }
    }
  }

  function Offered(norm: string -> string, catalog: seq<ToolDescriptor>, deny: seq<string>): seq<ToolDescriptor> {
    if catalog == [] then []
    else
      var last := catalog[|catalog| - 1];
      if Denied(norm, last.name, deny) then Offered(norm, catalog[..|catalog| - 1], deny)
      else Offered(norm, catalog[..|catalog| - 1], deny) + [last]
  }

  function PolicyOf(w: World): Policy {
    if w.store.policy.Some? then w.store.policy.value else PERMISSIVE
  }

  function Window(p: Policy): int {
    if p.windowSeconds <= 0 then 60 * SECOND else p.windowSeconds * SECOND
  }

  // ----- Admission ---------------------------------------------------------

  function FindConversation(env: Env, w: World, user: Id, id: Id): (World, Result<Conversation>) {
    (Tick(w),
     if env.readFails(w.tick) then Err(Internal)
     else if id in w.store.conversations && w.store.conversations[id].user == user then Ok(w.store.conversations[id])
     else Err(NotFound))
  }

  function LoadPolicy(env: Env, w: World): (World, Result<Policy>) {
    (Tick(w), if env.readFails(w.tick) then Err(Internal) else Ok(PolicyOf(w)))
  }

  function CheckRate(env: Env, w: World, user: Id, p: Policy): (World, Option<Fault>) {
    if p.maxMessages <= 0 then (w, None)
    else if env.readFails(w.tick) then (Tick(w), Some(Internal))
    else (Tick(w),
          if CountSince(w.store.messages, user, w.clock - Window(p)) >= p.maxMessages then Some(RateLimited) else None)
  }

  /** The policy has a cap, and the prompts of the user since now minus its window, a
      minute where it sets none, have reached it. */
  ghost predicate OverQuota(w: World, user: Id, p: Policy) {
    var window := if p.windowSeconds <= 0 then 60 else p.windowSeconds;
    p.maxMessages > 0 && |PromptsSince(w.store.messages, user, w.clock - window * 1_000_000_000)| >= p.maxMessages
  }

  lemma RateCheckIsExact(env: Env, w: World, user: Id, p: Policy)
    requires !env.readFails(w.tick)
    ensures CheckRate(env, w, user, p).1 == if OverQuota(w, user, p) then Some(RateLimited) else None
  {
    CountIsCardinality(w.store.messages, user, w.clock - Window(p));
  }

  function Precheck(env: Env, cfg: Config, w: World, user: Id, conversation: Id, text: string): (World, Option<Fault>) {
    if !cfg.enabled then (w, Some(Disabled))
    else if cfg.maxMessageBytes > 0 && |text| > cfg.maxMessageBytes then (w, Some(TooLarge))
    else
      var (w1, conv) := FindConversation(env, w, user, conversation);
      if conv.Err? then (w1, Some(conv.fault))
      else if conv.value.archived then (w1, Some(Archived))
      else
        var (w2, p) := LoadPolicy(env, w1);
        if p.Err? then (w2, Some(p.fault))
        else
          var (w3, rate) := CheckRate(env, w2, user, p.value);
          if rate.Some? then (w3, rate)
          else if p.value.forceAdmin then (w3, Some(ForceAdmin))
          else (w3, None)
  }

  /** StreamMessage up to and including the rate limit. */
  function Admit(env: Env, cfg: Config, w: World, user: Id, conversation: Id, text: string): (World, Result<Policy>) {
    if !cfg.enabled then (w, Err(Disabled))
    else if cfg.maxMessageBytes > 0 && |text| > cfg.maxMessageBytes then (w, Err(TooLarge))
    else
      var (w1, conv) := FindConversation(env, w, user, conversation);
      if conv.Err? then (w1, Err(conv.fault))
      else if conv.value.archived then (w1, Err(Archived))
      else
        var (w2, p) := LoadPolicy(env, w1);
        if p.Err? then (w2, p)
        else
          var (w3, rate) := CheckRate(env, w2, user, p.value);
          if rate.Some? then (w3, Err(rate.value)) else (w3, p)
  }

  function OpenKey(cfg: Config, cipher: string): Option<string> {
    match cfg.openKey
    case None => Some("")
    case Some(open) => open(cipher)
  }

  const NO_MODEL := Harness.Resolved("", "", "", "", false)

  function FirstUsable(cfg: Config, p: Policy, user: Id, rows: seq<ProviderConfig>): Result<Harness.Resolved> {
    if rows == [] then Ok(NO_MODEL)
    else
      var r := rows[0];
      if r.user != user || !r.enabled || !Allowed(cfg.norm, r.model, p.allowModels) then
        FirstUsable(cfg, p, user, rows[1..])
      else
        match OpenKey(cfg, r.cipher)
        case None => Err(Internal)
        case Some(key) => Ok(Harness.Resolved(r.provider, r.model, r.baseUrl, key, false))
  }

  /** An enabled row of the user for a model that policy allows. */
  predicate Usable(cfg: Config, p: Policy, user: Id, row: ProviderConfig) {
    row.user == user && row.enabled && Allowed(cfg.norm, row.model, p.allowModels)
  }

  /** The answer is the first usable row with its key opened, an internal fault where that
      key cannot be opened, and an empty provider where no row is usable. */
  ghost predicate Chosen(cfg: Config, p: Policy, user: Id, rows: seq<ProviderConfig>, r: Result<Harness.Resolved>) {
    && (forall i :: 0 <= i < |rows| && FirstUsableAt(cfg, p, user, rows, i) ==> ChosenRow(cfg, rows[i], r))
    && ((forall i :: 0 <= i < |rows| ==> !Usable(cfg, p, user, rows[i]))
        ==> r == Ok(Harness.Resolved("", "", "", "", false)))
  }

  ghost predicate FirstUsableAt(cfg: Config, p: Policy, user: Id, rows: seq<ProviderConfig>, i: nat)
    requires i < |rows|
  {
    Usable(cfg, p, user, rows[i]) && forall j :: 0 <= j < i ==> !Usable(cfg, p, user, rows[j])
  }

  predicate ChosenRow(cfg: Config, row: ProviderConfig, r: Result<Harness.Resolved>) {
    if cfg.openKey.None? then r == Ok(Harness.Resolved(row.provider, row.model, row.baseUrl, "", false))
    else if cfg.openKey.value(row.cipher).None? then r == Err(Internal)
    else r == Ok(Harness.Resolved(row.provider, row.model, row.baseUrl, cfg.openKey.value(row.cipher).value, false))
  }

  lemma {:induction false} FirstUsableIsChosen(cfg: Config, p: Policy, user: Id, rows: seq<ProviderConfig>)
    ensures Chosen(cfg, p, user, rows, FirstUsable(cfg, p, user, rows))
  {
    if rows != [] && !Usable(cfg, p, user, rows[0]) {
      var rest, r := rows[1..], FirstUsable(cfg, p, user, rows[1..]);
      FirstUsableIsChosen(cfg, p, user, rest);
      assert forall i :: 0 < i < |rows| ==> rows[i] == rest[i - 1];
      forall i | 0 <= i < |rows| && FirstUsableAt(cfg, p, user, rows, i) ensures ChosenRow(cfg, rows[i], r) {
        assert rest[i - 1] == rows[i];
        assert forall j :: 0 <= j < i - 1 ==> rest[j] == rows[j + 1];
        assert FirstUsableAt(cfg, p, user, rest, i - 1);
      }
    }
  }

  function ResolveProvider(env: Env, cfg: Config, w: World, user: Id, p: Policy): (World, Result<Harness.Resolved>) {
    if p.forceAdmin then (w, Err(ForceAdmin))
    else if env.readFails(w.tick) then (Tick(w), Err(Internal))
    else (Tick(w), FirstUsable(cfg, p, user, w.store.providers))
  }

  function CheckSpend(env: Env, cfg: Config, w: World, provider: Harness.Resolved, p: Policy): (World, Option<Fault>) {
    if !provider.adminProvided || !cfg.metered then (w, None)
    else
      match env.balances(w.tick)
      case None => (Tick(w), Some(Internal))
      case Some(balance) => (Tick(w), if p.spendCap > 0 && balance <= 0 then Some(SpendCap) else None)
  }

  // ----- One tool call -----------------------------------------------------

  function ExecTool(
    env: Env, cfg: Config, w: World, actor: Id, tool: string, args: string, origin: Origin): (World, ToolOutcome) {
    if !cfg.serviceHasTools then (w, Raised(TOOL_NOT_FOUND)) else Execute(env, w, actor, tool, args, origin)
  }

  predicate Parks(cfg: Config, tool: string) {
    cfg.serviceHasTools && cfg.destructive(tool)
  }

  /** The harness already ran the tool: its result is recorded, nothing is run. */
  function HandleRan(
    env: Env, w: World, user: Id, message: Id, tool: string, args: string, result: string): (World, bool) {
    var (w1, row) := AddToolCall(env, w, user, message, tool, args, false, Executed);
    if row.None? then (w1, true)
    else
      var w2 := SetResult(env, w1, user, row.value, result, Executed);
      (Emit(env, w2, ToolResult(tool, FromRow(row.value), result)).0, false)
  }

  /** A destructive call is parked for confirmation. */
  function HandleParked(env: Env, w: World, user: Id, message: Id, tool: string, args: string): (World, bool) {
    var (w1, row) := AddToolCall(env, w, user, message, tool, args, true, Pending);
    if row.None? then (w1, true) else Emit(env, w1, ToolCall(tool, args, FromRow(row.value), ""))
  }

  /** A read-only call is run on the spot. */
  function HandleInline(
    env: Env, cfg: Config, w: World, user: Id, message: Id, tool: string, args: string): (World, bool) {
    var (w1, row) := AddToolCall(env, w, user, message, tool, args, false, Executed);
    if row.None? then (w1, true)
    else
      var (w2, o) := ExecTool(env, cfg, w1, user, tool, args, Inline(row.value));
      var w3 := SetResult(env, w2, user, row.value, Recorded(o), if o.Returned? then Executed else Failed);
      (Emit(env, w3, ToolResult(tool, FromRow(row.value), Recorded(o))).0, false)
  }

  /** handleToolCall; the flag says that the turn is aborted. */
  function Handle(env: Env, cfg: Config, w: World, user: Id, message: Id, p: Policy, ev: Event): (World, bool)
    requires ev.ToolCall?
  {
    if Denied(cfg.norm, ev.tool, p.denyTools) then (Emit(env, w, Error("tool denied by policy")).0, false)
    else if ev.result != "" then HandleRan(env, w, user, message, ev.tool, ev.args, ev.result)
    else if Parks(cfg, ev.tool) then HandleParked(env, w, user, message, ev.tool, ev.args)
    else HandleInline(env, cfg, w, user, message, ev.tool, ev.args)
  }

  /** An undenied call that can be stored is stored as it is. */
  lemma NewRowHoldsCall(env: Env, cfg: Config, w: World, user: Id, message: Id, p: Policy, ev: Event)
    requires ev.ToolCall?
    ensures !Denied(cfg.norm, ev.tool, p.denyTools) && !env.createFails(w.tick) ==>
              var rows := Handle(env, cfg, w, user, message, p, ev).0.calls.rows;
              && w.nextId in rows && rows[w.nextId].user == user && rows[w.nextId].message == message
              && rows[w.nextId].tool == ev.tool && rows[w.nextId].args == ev.args
  {
  }

  // ----- The event loop ----------------------------------------------------

  datatype Consumed = Consumed(w: World, content: string, failed: bool)

  function Meter(
    cfg: Config, w: World, user: Id, conversation: Id, message: Id, provider: Harness.Resolved, usage: Option<Usage>)
    : World {
    if !provider.adminProvided || !cfg.metered || usage.None? then w
    else w.(trail := w.trail.(charges := w.trail.charges + [Charge(user, conversation, message, usage.value)]))
  }

  /** What stays fixed while one turn's events are consumed. */
  datatype TurnInfo = TurnInfo(user: Id, conversation: Id, message: Id, policy: Policy, provider: Harness.Resolved)

  function Consume(env: Env, cfg: Config, w: World, turn: TurnInfo, content: string, events: seq<Event>): Consumed
    decreases |events|
  {
    if events == [] then
      var (w1, failed) := Emit(env, w, Done(None));
      Consumed(w1, content, failed)
    else
      match events[0]
      case Text(text) =>
        var (w1, failed) := Emit(env, w, events[0]);
        if failed then Consumed(w1, content + text, true) else Consume(env, cfg, w1, turn, content + text, events[1..])
      case ToolCall(_, _, _, _) =>
        var (w1, failed) := Handle(env, cfg, w, turn.user, turn.message, turn.policy, events[0]);
        if failed then Consumed(w1, content, true) else Consume(env, cfg, w1, turn, content, events[1..])
      case Done(usage) =>
        var w1 := Meter(cfg, w, turn.user, turn.conversation, turn.message, turn.provider, usage);
        var (w2, failed) := Emit(env, w1, events[0]);
        Consumed(w2, content, failed)
      case Error(_) => Consumed(Emit(env, w, events[0]).0, content, true)
      case ToolResult(_, _, _) => Consume(env, cfg, w, turn, content, events[1..])
  }

  // ----- The turn ----------------------------------------------------------

  function RoleName(r: Role): string {
    match r case UserRole => "user" case AssistantRole => "assistant" case ToolRole => "tool"
  }

  function Pasts(ms: seq<Message>): seq<Harness.Past> {
    seq(|ms|, i requires 0 <= i < |ms| => Harness.Past(RoleName(ms[i].role), ms[i].content))
  }

  function History(ms: seq<Message>, conversation: Id): seq<Harness.Past> {
    var rows := InConversation(ms, conversation);
    Pasts(if |rows| > HISTORY_WINDOW then rows[|rows| - HISTORY_WINDOW..] else rows)
  }

  /** Harness and event loop of one turn, and the reply saved; the flag says that
      the turn ended well. */
  ghost function Deliver(env: Env, cfg: Config, w: World, turn: TurnInfo, req: Harness.Request): (World, bool) {
    var (w1, events) := Harness.Run(env, cfg, turn.user, w, req);
    var c := Consume(env, cfg, w1, turn, "", events);
    var (w2, saved) := SetContent(env, c.w, turn.message, c.content);
    (w2, saved && !c.failed)
  }

  /** StreamMessage once the provider is settled. */
  ghost function AnswerTurn(
    env: Env, cfg: Config, w: World, user: Id, conversation: Id, text: string, p: Policy, provider: Harness.Resolved)
    : (World, Option<Fault>)
  {
    var (w1, audit) := Audit(env, w, user, MessageSend);
    var w2 := Tick(w1);
    if env.readFails(w1.tick) then (MarkOutcome(env, w2, audit, false), Some(Internal))
    else
      var (w3, reply) := AddMessage(env, w2, user, conversation, AssistantRole, "");
      if reply.None? then (MarkOutcome(env, w3, audit, false), Some(Internal))
      else
        var (w4, ok) := Deliver(env, cfg, w3, TurnInfo(user, conversation, reply.value, p, provider),
                                Harness.Request(History(w2.store.messages, conversation), text,
                                                provider, Tools(cfg, p)));
        (MarkOutcome(env, w4, audit, ok), None)
  }

  /** StreamMessage once the prompt is stored. */
  ghost function Respond(env: Env, cfg: Config, w: World, user: Id, conversation: Id, text: string, p: Policy)
    : (World, Option<Fault>)
  {
    var (w1, provider) := ResolveProvider(env, cfg, w, user, p);
    if provider.Err? then (w1, Some(provider.fault))
    else
      var (w2, spend) := CheckSpend(env, cfg, w1, provider.value, p);
      if spend.Some? then (w2, spend)
      else AnswerTurn(env, cfg, w2, user, conversation, text, p, provider.value)
  }

  ghost function StreamMessage(
    env: Env, cfg: Config, w: World, user: Id, conversation: Id, text: string): (World, Option<Fault>) {
    var (w1, p) := Admit(env, cfg, w, user, conversation, text);
    if p.Err? then (w1, Some(p.fault))
    else
      var (w2, prompt) := AddMessage(env, w1, user, conversation, UserRole, text);
      if prompt.None? then (w2, Some(Internal))
      else Respond(env, cfg, w2, user, conversation, text, p.value)
  }

  // ----- Confirmation ------------------------------------------------------

  function FindRow(env: Env, w: World, user: Id, id: Id): (World, Result<ToolCallRow>) {
    (Tick(w),
     if env.readFails(w.tick) then Err(Internal)
     else if Owned(w, user, id) then Ok(w.calls.rows[id])
     else Err(NotFound))
  }

  function Confirm(env: Env, cfg: Config, w: World, user: Id, id: Id, approved: bool): (World, Result<ToolCallRow>) {
    if !cfg.enabled then (w, Err(Disabled))
    else
      var (w1, row) := FindRow(env, w, user, id);
      if row.Err? then (w1, row)
      else if row.value.status != Pending then (w1, Err(NotPending))
      else if !approved then
        var w2 := SetStatus(env, w1, user, id, Rejected);
        FindRow(env, Audit(env, w2, user, ToolConfirm).0, user, id)
      else
        Report(env, Approve(env, cfg, w1, user, id, row.value), user, id, row.value)
  }

  /** An approved confirmation up to the result: the decision, the run, its outcome. */
  function Approve(env: Env, cfg: Config, w: World, user: Id, id: Id, row: ToolCallRow): (World, ToolOutcome) {
    var w1 := SetStatus(env, w, user, id, Approved);
    var (w2, o) := ExecTool(env, cfg, w1, user, row.tool, row.args, Confirmed(id));
    (SetResult(env, w2, user, id, Recorded(o), if o.Returned? then Executed else Failed), o)
  }

  /** The rest: the note of the result, the audit row and the row as it is now. */
  function Report(env: Env, done: (World, ToolOutcome), user: Id, id: Id, row: ToolCallRow)
    : (World, Result<ToolCallRow>) {
    var (w1, note) := AddMessage(env, done.0, user, row.message, ToolRole, Recorded(done.1));
    if note.None? then (w1, Err(Internal))
    else FindRow(env, Audit(env, w1, user, ToolExecute).0, user, id)
  }

  // ----- Conversations and policy --------------------------------------------

  function CreateConversation(env: Env, cfg: Config, w: World, user: Id): (World, Result<Id>) {
    if !cfg.enabled then (w, Err(Disabled))
    else if env.createFails(w.tick) then (Tick(w), Err(Internal))
    else
      var rows := w.store.conversations[w.nextId := Conversation(user, false)];
      var w1 := Tick(w).(nextId := w.nextId + 1, store := w.store.(conversations := rows));
      (Audit(env, w1, user, ConversationCreate).0, Ok(w.nextId))
  }

  function SetArchived(
    env: Env, cfg: Config, w: World, user: Id, id: Id, archived: bool): (World, Result<Conversation>) {
    if !cfg.enabled then (w, Err(Disabled))
    else if env.createFails(w.tick) then (Tick(w), Err(Internal))
    else
      var mine := id in w.store.conversations && w.store.conversations[id].user == user;
      var rows := w.store.conversations;
      var w1 := Tick(w).(store := w.store.(
        conversations := if mine then rows[id := Conversation(user, archived)] else rows));
      FindConversation(env, w1, user, id)
  }

  function DeleteConversation(env: Env, cfg: Config, w: World, user: Id, id: Id): (World, Option<Fault>) {
    if !cfg.enabled then (w, Some(Disabled))
    else
      var (w1, conv) := FindConversation(env, w, user, id);
      if conv.Err? then (w1, Some(conv.fault))
      else if env.createFails(w1.tick) then (Tick(w1), Some(Internal))
      else (Audit(env, DropConversation(w1, id), user, ConversationDelete).0, None)
  }

  function UpsertPolicy(env: Env, cfg: Config, w: World, p: Policy): (World, Option<Fault>) {
    if !cfg.enabled then (w, Some(Disabled))
    else if env.createFails(w.tick) then (Tick(w), Some(Internal))
    else
      var w1 := Tick(w).(store := w.store.(
        policy := Some(if p.windowSeconds <= 0 then p.(windowSeconds := 60) else p)));
      (Audit(env, w1, NIL, PolicyUpdate).0, None)
  }

  // ----- The code ------------------------------------------------------------

  class Service {
    const cfg: Config
    const backend: Backend
    const harness: Harness.Harness

    ghost predicate Wired() {
      harness.cfg == cfg && harness.backend == backend
    }

    constructor (cfg: Config, backend: Backend)
      ensures this.cfg == cfg && this.backend == backend && Wired()
    {
      this.cfg, this.backend := cfg, backend;
      harness := new Harness.Harness(cfg, backend);
    }

    method OwnConversation(user: Id, id: Id) returns (r: Result<Conversation>)
      modifies backend
      ensures (backend.View(), r) == FindConversation(backend.env, old(backend.View()), user, id)
    {
      var now := backend.tick;
      backend.tick := backend.tick + 1;
      if backend.env.readFails(now) { return Err(Internal); }
      if id !in backend.conversations || backend.conversations[id].user != user { return Err(NotFound); }
      r := Ok(backend.conversations[id]);
    }

    method GetPolicy() returns (r: Result<Policy>)
      modifies backend
      ensures (backend.View(), r) == LoadPolicy(backend.env, old(backend.View()))
    {
      var now := backend.tick;
      backend.tick := backend.tick + 1;
      if backend.env.readFails(now) { return Err(Internal); }
      match backend.policy
      case None => r := Ok(Policy([], false, 0, 60, 0, []));
      case Some(p) => r := Ok(p);
    }

    method EnforceRateLimit(user: Id, p: Policy) returns (fault: Option<Fault>)
      modifies backend
      ensures (backend.View(), fault) == CheckRate(backend.env, old(backend.View()), user, p)
      ensures !backend.env.readFails(old(backend.tick)) ==>
                fault == if OverQuota(old(backend.View()), user, p) then Some(RateLimited) else None
    {
      if !backend.env.readFails(backend.tick) { RateCheckIsExact(backend.env, backend.View(), user, p); }
      if p.maxMessages <= 0 { return None; }
      var window := p.windowSeconds * SECOND;
      if window <= 0 { window := 60 * SECOND; }
      var count := backend.CountMessagesSince(user, backend.clock - window);
      if count.None? { return Some(Internal); }
      if count.value >= p.maxMessages { return Some(RateLimited); }
      fault := None;
    }

    method PrecheckTurn(user: Id, conversation: Id, text: string) returns (fault: Option<Fault>)
      modifies backend
      ensures (backend.View(), fault) == Precheck(backend.env, cfg, old(backend.View()), user, conversation, text)
    {
      if !cfg.enabled { return Some(Disabled); }
      if cfg.maxMessageBytes > 0 && |text| > cfg.maxMessageBytes { return Some(TooLarge); }
      var conv := OwnConversation(user, conversation);
      if conv.Err? { return Some(conv.fault); }
      if conv.value.archived { return Some(Archived); }
      var policy := GetPolicy();
      if policy.Err? { return Some(policy.fault); }
      fault := EnforceRateLimit(user, policy.value);
      if fault.Some? { return; }
      if policy.value.forceAdmin { return Some(ForceAdmin); }
    }

    method AdmitTurn(user: Id, conversation: Id, text: string) returns (r: Result<Policy>)
      modifies backend
      ensures (backend.View(), r) == Admit(backend.env, cfg, old(backend.View()), user, conversation, text)
    {
      if !cfg.enabled { return Err(Disabled); }
      if cfg.maxMessageBytes > 0 && |text| > cfg.maxMessageBytes { return Err(TooLarge); }
      var conv := OwnConversation(user, conversation);
      if conv.Err? { return Err(conv.fault); }
      if conv.value.archived { return Err(Archived); }
      r := GetPolicy();
      if r.Err? { return; }
      var fault := EnforceRateLimit(user, r.value);
      if fault.Some? { r := Err(fault.value); }
    }

    method Resolve(user: Id, p: Policy) returns (r: Result<Harness.Resolved>)
      modifies backend
      ensures (backend.View(), r) == ResolveProvider(backend.env, cfg, old(backend.View()), user, p)
    {
      if p.forceAdmin { return Err(ForceAdmin); }
      var now := backend.tick;
      backend.tick := backend.tick + 1;
      if backend.env.readFails(now) { return Err(Internal); }
      r := PickProvider(user, p, backend.providers);
    }

    method PickProvider(user: Id, p: Policy, rows: seq<ProviderConfig>) returns (r: Result<Harness.Resolved>)
      ensures r == FirstUsable(cfg, p, user, rows)
      ensures Chosen(cfg, p, user, rows, r)
    {
      FirstUsableIsChosen(cfg, p, user, rows);
      for i := 0 to |rows|
        invariant FirstUsable(cfg, p, user, rows) == FirstUsable(cfg, p, user, rows[i..])
      {
        assert rows[i..][1..] == rows[i + 1..];
        if rows[i].user != user || !rows[i].enabled { continue; }
        var allowed := ModelAllowed(cfg.norm, rows[i].model, p.allowModels);
        if !allowed { continue; }
        var key := OpenKey(cfg, rows[i].cipher);
        if key.None? { return Err(Internal); }
        return Ok(Harness.Resolved(rows[i].provider, rows[i].model, rows[i].baseUrl, key.value, false));
      }
      r := Ok(Harness.Resolved("", "", "", "", false));
    }

    method EnforceSpendCap(provider: Harness.Resolved, p: Policy) returns (fault: Option<Fault>)
      modifies backend
      ensures (backend.View(), fault) == CheckSpend(backend.env, cfg, old(backend.View()), provider, p)
    {
      if !provider.adminProvided || !cfg.metered { return None; }
      var balance := backend.env.balances(backend.tick);
      backend.tick := backend.tick + 1;
      if balance.None? { return Some(Internal); }
      if p.spendCap > 0 && balance.value <= 0 { return Some(SpendCap); }
      fault := None;
    }

    method RunTool(actor: Id, tool: string, args: string, origin: Origin) returns (o: ToolOutcome)
      modifies backend
      ensures (backend.View(), o) == ExecTool(backend.env, cfg, old(backend.View()), actor, tool, args, origin)
    {
      if !cfg.serviceHasTools { return Raised(TOOL_NOT_FOUND); }
      o := backend.RunTool(actor, tool, args, origin);
    }

    method HandleToolCall(user: Id, message: Id, p: Policy, ev: Event) returns (failed: bool)
      requires ev.ToolCall?
      modifies backend
      ensures (backend.View(), failed) == Handle(backend.env, cfg, old(backend.View()), user, message, p, ev)
      ensures var row := old(backend.nextId);
              !Denied(cfg.norm, ev.tool, p.denyTools) && !backend.env.createFails(old(backend.tick)) ==>
                && row in backend.rows && backend.rows[row].user == user && backend.rows[row].message == message
                && backend.rows[row].tool == ev.tool && backend.rows[row].args == ev.args
    {
      NewRowHoldsCall(backend.env, cfg, backend.View(), user, message, p, ev);
      var ignored;
      var denied := ToolDenied(cfg.norm, ev.tool, p.denyTools);
      if denied {
        ignored := backend.EmitEvent(Error("tool denied by policy"));
        return false;
      }
      if ev.result != "" {
        var row := backend.CreateToolCall(user, message, ev.tool, ev.args, false, Executed);
        if row.None? { return true; }
        backend.SetToolCallResult(user, row.value, ev.result, Executed);
        ignored := backend.EmitEvent(ToolResult(ev.tool, FromRow(row.value), ev.result));
        return false;
      }
      failed := HandleOpenCall(user, message, ev.tool, ev.args);
    }

    /** The rest of handleToolCall: a call no one has run yet. */
    method HandleOpenCall(user: Id, message: Id, tool: string, args: string) returns (failed: bool)
      modifies backend
      ensures (backend.View(), failed) ==
              if Parks(cfg, tool) then HandleParked(backend.env, old(backend.View()), user, message, tool, args)
              else HandleInline(backend.env, cfg, old(backend.View()), user, message, tool, args)
    {
      var destructive := cfg.serviceHasTools && cfg.destructive(tool);
      var row := backend.CreateToolCall(user, message, tool, args, destructive,
                                        if destructive then Pending else Executed);
      if row.None? { return true; }
      if destructive {
        failed := backend.EmitEvent(ToolCall(tool, args, FromRow(row.value), ""));
        return;
      }
      var o := RunTool(user, tool, args, Inline(row.value));
      var ignored;
      match o {
        case Raised(e) =>
          backend.SetToolCallResult(user, row.value, ErrJson(e), Failed);
          ignored := backend.EmitEvent(ToolResult(tool, FromRow(row.value), ErrJson(e)));
        case Returned(result) =>
          backend.SetToolCallResult(user, row.value, result, Executed);
          ignored := backend.EmitEvent(ToolResult(tool, FromRow(row.value), result));
      }
      failed := false;
    }

    method MeterTurn(turn: TurnInfo, usage: Option<Usage>)
      modifies backend
      ensures backend.View() ==
        Meter(cfg, old(backend.View()), turn.user, turn.conversation, turn.message, turn.provider, usage)
    {
      if !turn.provider.adminProvided || !cfg.metered || usage.None? { return; }
      backend.charges := backend.charges + [Charge(turn.user, turn.conversation, turn.message, usage.value)];
    }

    method ConsumeEvents(turn: TurnInfo, events: seq<Event>) returns (content: string, failed: bool)
      modifies backend
      ensures Consumed(backend.View(), content, failed) ==
        Consume(backend.env, cfg, old(backend.View()), turn, "", events)
    {
      content := "";
      for i := 0 to |events|
        invariant Consume(backend.env, cfg, old(backend.View()), turn, "", events)
                  == Consume(backend.env, cfg, backend.View(), turn, content, events[i..])
      {
        assert events[i..][1..] == events[i + 1..];
        match events[i] {
          case Text(text) =>
            content := content + text;
            failed := backend.EmitEvent(events[i]);
            if failed { return; }
          case ToolCall(_, _, _, _) =>
            failed := HandleToolCall(turn.user, turn.message, turn.policy, events[i]);
            if failed { return; }
          case Done(usage) =>
            MeterTurn(turn, usage);
            failed := backend.EmitEvent(events[i]);
            return;
          case Error(_) =>
            failed := backend.EmitEvent(events[i]);
            return content, true;
          case ToolResult(_, _, _) =>
        }
      }
      failed := backend.EmitEvent(Done(None));
    }

    method HistoryFor(conversation: Id) returns (history: Option<seq<Harness.Past>>)
      modifies backend
      ensures backend.View() == Tick(old(backend.View()))
      ensures history ==
        if backend.env.readFails(old(backend.tick)) then None else Some(History(old(backend.messages), conversation))
    {
      var rows := backend.ListMessages(conversation);
      if rows.None? { return None; }
      var window := rows.value;
      if |window| > HISTORY_WINDOW { window := window[|window| - HISTORY_WINDOW..]; }
      var out: seq<Harness.Past> := [];
      for i := 0 to |window|
        invariant out == Pasts(window[..i])
      {
        out := out + [Harness.Past(RoleName(window[i].role), window[i].content)];
        assert out == Pasts(window[..i + 1]);
      }
      assert window[..|window|] == window;
      history := Some(out);
    }

    /** Harness and event loop of one turn; says whether it ended well. */
    method RunAndConsume(turn: TurnInfo, req: Harness.Request) returns (ok: bool)
      requires Wired()
      modifies backend
      ensures (backend.View(), ok) == Deliver(backend.env, cfg, old(backend.View()), turn, req)
    {
      var events := harness.RunTurn(turn.user, req);
      var content, failed := ConsumeEvents(turn, events);
      var saved := backend.SetMessageContent(turn.message, content);
      ok := saved && !failed;
    }

    method AnswerMessage(
      user: Id, conversation: Id, text: string, p: Policy, provider: Harness.Resolved) returns (fault: Option<Fault>)
      requires Wired()
      modifies backend
      ensures (backend.View(), fault) ==
        AnswerTurn(backend.env, cfg, old(backend.View()), user, conversation, text, p, provider)
    {
      var audit := backend.EmitAudit(user, MessageSend);
      var history := HistoryFor(conversation);
      if history.None? {
        backend.Mark(audit, false);
        return Some(Internal);
      }
      var reply := backend.CreateMessage(user, conversation, AssistantRole, "");
      if reply.None? {
        backend.Mark(audit, false);
        return Some(Internal);
      }
      var tools := ToolsFor(cfg, p);
      var ok := RunAndConsume(TurnInfo(user, conversation, reply.value, p, provider),
                              Harness.Request(history.value, text, provider, tools));
      backend.Mark(audit, ok);
      fault := None;
    }

    method Stream(user: Id, conversation: Id, text: string) returns (fault: Option<Fault>)
      requires Wired()
      modifies backend
      ensures (backend.View(), fault) == StreamMessage(backend.env, cfg, old(backend.View()), user, conversation, text)
    {
      var policy := AdmitTurn(user, conversation, text);
      if policy.Err? { return Some(policy.fault); }
      var prompt := backend.CreateMessage(user, conversation, UserRole, text);
      if prompt.None? { return Some(Internal); }
      fault := RespondTo(user, conversation, text, policy.value);
    }

    /** The rest of StreamMessage, behind the stored prompt. */
    method RespondTo(user: Id, conversation: Id, text: string, p: Policy) returns (fault: Option<Fault>)
      requires Wired()
      modifies backend
      ensures (backend.View(), fault) == Respond(backend.env, cfg, old(backend.View()), user, conversation, text, p)
    {
      var provider := Resolve(user, p);
      if provider.Err? { return Some(provider.fault); }
      fault := EnforceSpendCap(provider.value, p);
      if fault.Some? { return; }
      fault := AnswerMessage(user, conversation, text, p, provider.value);
    }

    method GetToolCall(user: Id, id: Id) returns (r: Result<ToolCallRow>)
      modifies backend
      ensures (backend.View(), r) == FindRow(backend.env, old(backend.View()), user, id)
    {
      var now := backend.tick;
      backend.tick := backend.tick + 1;
      if backend.env.readFails(now) { return Err(Internal); }
      if id !in backend.rows || backend.rows[id].user != user { return Err(NotFound); }
      r := Ok(backend.rows[id]);
    }

    method ConfirmToolCall(user: Id, id: Id, approved: bool) returns (r: Result<ToolCallRow>)
      modifies backend
      ensures (backend.View(), r) == Confirm(backend.env, cfg, old(backend.View()), user, id, approved)
    {
      if !cfg.enabled { return Err(Disabled); }
      r := GetToolCall(user, id);
      if r.Err? { return; }
      var row := r.value;
      if row.status != Pending { return Err(NotPending); }
      var audit;
      if !approved {
        backend.SetToolCallStatus(user, id, Rejected);
        audit := backend.EmitAudit(user, ToolConfirm);
        r := GetToolCall(user, id);
        return;
      }
      backend.SetToolCallStatus(user, id, Approved);
      var o := RunTool(user, row.tool, row.args, Confirmed(id));
      backend.SetToolCallResult(user, id, Recorded(o), if o.Returned? then Executed else Failed);
      var note := backend.CreateMessage(user, row.message, ToolRole, Recorded(o));
      if note.None? { return Err(Internal); }
      audit := backend.EmitAudit(user, ToolExecute);
      r := GetToolCall(user, id);
    }

    method Open(user: Id) returns (r: Result<Id>)
      modifies backend
      ensures (backend.View(), r) == CreateConversation(backend.env, cfg, old(backend.View()), user)
    {
      if !cfg.enabled { return Err(Disabled); }
      var now := backend.tick;
      backend.tick := backend.tick + 1;
      if backend.env.createFails(now) { return Err(Internal); }
      var id := backend.nextId;
      backend.nextId := id + 1;
      backend.conversations := backend.conversations[id := Conversation(user, false)];
      var audit := backend.EmitAudit(user, ConversationCreate);
      r := Ok(id);
    }

    method SetConversationStatus(user: Id, id: Id, archived: bool) returns (r: Result<Conversation>)
      modifies backend
      ensures (backend.View(), r) == SetArchived(backend.env, cfg, old(backend.View()), user, id, archived)
    {
      if !cfg.enabled { return Err(Disabled); }
      var now := backend.tick;
      backend.tick := backend.tick + 1;
      if backend.env.createFails(now) { return Err(Internal); }
      if id in backend.conversations && backend.conversations[id].user == user {
        backend.conversations := backend.conversations[id := Conversation(user, archived)];
      }
      r := OwnConversation(user, id);
    }

    method SetPolicy(p: Policy) returns (fault: Option<Fault>)
      modifies backend
      ensures (backend.View(), fault) == UpsertPolicy(backend.env, cfg, old(backend.View()), p)
    {
      if !cfg.enabled { return Some(Disabled); }
      var row := p;
      if row.windowSeconds <= 0 { row := row.(windowSeconds := 60); }
      var now := backend.tick;
      backend.tick := backend.tick + 1;
      if backend.env.createFails(now) { return Some(Internal); }
      backend.policy := Some(row);
      var audit := backend.EmitAudit(NIL, PolicyUpdate);
      fault := None;
    }

    method Delete(user: Id, id: Id) returns (fault: Option<Fault>)
      modifies backend
      ensures (backend.View(), fault) == DeleteConversation(backend.env, cfg, old(backend.View()), user, id)
    {
      if !cfg.enabled { return Some(Disabled); }
      var conv := OwnConversation(user, id);
      if conv.Err? { return Some(conv.fault); }
      if backend.env.createFails(backend.tick) {
        backend.tick := backend.tick + 1;
        return Some(Internal);
      }
      backend.DeleteRows(id);
      var audit := backend.EmitAudit(user, ConversationDelete);
      fault := None;
    }
  }
}
