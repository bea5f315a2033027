/** The state an agent turn touches outside its own stack: the repository
    tables, the audit log, the meter, the tool executor, the client stream and
    the clock. Everything the outside decides is read off an Env, one answer per
    tick, so a statement for every Env covers every pattern of failures. */
module AgentWorld {
  import opened AgentTypes
  import opened ToolCallStream
  import opened Wrappers

  datatype Role = UserRole | AssistantRole | ToolRole

  datatype Status = Pending | Approved | Rejected | Executed | Failed

  datatype Conversation = Conversation(user: Id, archived: bool)

  datatype Message = Message(id: Id, user: Id, conversation: Id, role: Role, content: string, at: int)

  datatype ToolCallRow = ToolCallRow(
    user: Id, message: Id, tool: string, args: string, confirm: bool, status: Status, result: string)

  datatype Policy = Policy(
    allowModels: seq<string>, forceAdmin: bool, maxMessages: int, windowSeconds: int,
    spendCap: int, denyTools: seq<string>)

  datatype ProviderConfig = ProviderConfig(
    user: Id, provider: string, model: string, baseUrl: string, cipher: string, enabled: bool)

  /** Who asked the executor to run: the harness loop, the service handling a
      read-only call, or an approved confirmation. */
  datatype Origin = InHarness | Inline(row: Id) | Confirmed(row: Id)

  /** One call of the executor, with the text recorded for what it returned. */
  datatype Execution = Execution(tool: string, args: string, actor: Id, origin: Origin, result: string)

  datatype StatusWrite = StatusWrite(row: Id, status: Status)

  datatype Action = MessageSend | ToolConfirm | ToolExecute | ConversationCreate | ConversationDelete | PolicyUpdate

  datatype AuditRow = AuditRow(id: Id, action: Action, user: Id)

  datatype Outcome = Outcome(audit: Id, success: bool)

  datatype Charge = Charge(user: Id, conversation: Id, message: Id, usage: Usage)

  /** The answers of the outside, by tick. A tool call is answered by what the executor
      returns and by the audit rows it writes of its own, each with its outcomes. */
  datatype Env = Env(
    readFails: nat -> bool,
    createFails: nat -> bool,
    statusFails: nat -> bool,
    contentFails: nat -> bool,
    auditFails: nat -> bool,
    emitFails: nat -> bool,
    elapsed: nat -> nat,
    runs: nat -> ToolOutcome,
    notes: nat -> seq<seq<bool>>,
    replies: nat -> Reply,
    balances: nat -> Option<int>)

  /** The wiring of one process. norm stands for trimming and case folding;
      destructive and catalog describe the one executor both sides share. */
  datatype Config = Config(
    enabled: bool,
    maxMessageBytes: int,
    serviceHasTools: bool,
    harnessHasTools: bool,
    destructive: string -> bool,
    catalog: seq<ToolDescriptor>,
    norm: string -> string,
    openKey: Option<string -> Option<string>>,
    metered: bool,
    systemPrompt: string)

  /** What the users see: conversations, messages, policy and model keys. */
  datatype Store = Store(
    conversations: map<Id, Conversation>, messages: seq<Message>, policy: Option<Policy>,
    providers: seq<ProviderConfig>)

  /** The tool calls: their rows, every status ever written, every execution. */
  datatype Calls = Calls(rows: map<Id, ToolCallRow>, statusLog: seq<StatusWrite>, executions: seq<Execution>)

  /** What a turn leaves elsewhere: audit log, meter, client stream. */
  datatype Trail = Trail(audits: seq<AuditRow>, outcomes: seq<Outcome>, charges: seq<Charge>, sent: seq<Event>)

  datatype World = World(tick: nat, clock: int, nextId: Id, store: Store, calls: Calls, trail: Trail)

  const GENESIS := World(0, 0, 1, Store(map[], [], None, []), Calls(map[], [], []), Trail([], [], [], []))

  function Tick(w: World): World {
    w.(tick := w.tick + 1)
  }

  function AddMessage(
    env: Env, w: World, user: Id, conversation: Id, role: Role, content: string): (World, Option<Id>) {
    if env.createFails(w.tick) then (Tick(w), None)
    else
      var at := w.clock + env.elapsed(w.tick);
      var m := Message(w.nextId, user, conversation, role, content, at);
      (Tick(w).(clock := at, nextId := w.nextId + 1, store := w.store.(messages := w.store.messages + [m])),
       Some(w.nextId))
  }

  function WithContent(ms: seq<Message>, id: Id, content: string): seq<Message> {
    if ms == [] then []
    else
      var last := ms[|ms| - 1];
      WithContent(ms[..|ms| - 1], id, content) + [if last.id == id then last.(content := content) else last]
  }

  function SetContent(env: Env, w: World, id: Id, content: string): (World, bool) {
    if env.contentFails(w.tick) then (Tick(w), false)
    else (Tick(w).(store := w.store.(messages := WithContent(w.store.messages, id, content))), true)
  }

  function AddToolCall(
    env: Env, w: World, user: Id, message: Id, tool: string, args: string, confirm: bool, status: Status)
    : (World, Option<Id>)
  {
    if env.createFails(w.tick) then (Tick(w), None)
    else
      var row := ToolCallRow(user, message, tool, args, confirm, status, "");
      (Tick(w).(nextId := w.nextId + 1,
                calls := w.calls.(rows := w.calls.rows[w.nextId := row],
                                  statusLog := w.calls.statusLog + [StatusWrite(w.nextId, status)])),
       Some(w.nextId))
  }

  predicate Owned(w: World, user: Id, id: Id) {
    id in w.calls.rows && w.calls.rows[id].user == user
  }

  function SetStatus(env: Env, w: World, user: Id, id: Id, status: Status): World {
    if env.statusFails(w.tick) || !Owned(w, user, id) then Tick(w)
    else Tick(w).(calls := w.calls.(rows := w.calls.rows[id := w.calls.rows[id].(status := status)],
                                    statusLog := w.calls.statusLog + [StatusWrite(id, status)]))
  }

  function SetResult(env: Env, w: World, user: Id, id: Id, result: string, status: Status): World {
    if env.statusFails(w.tick) || !Owned(w, user, id) then Tick(w)
    else Tick(w).(calls := w.calls.(rows := w.calls.rows[id := w.calls.rows[id].(status := status, result := result)],
                                    statusLog := w.calls.statusLog + [StatusWrite(id, status)]))
  }

  /** The audit rows an executor writes in one call, numbered from first on. */
  function NoteRows(user: Id, first: Id, notes: seq<seq<bool>>): seq<AuditRow> {
    if notes == [] then []
    else
      var before := notes[..|notes| - 1];
      NoteRows(user, first, before) + [AuditRow(first + |before|, ToolExecute, user)]
  }

  function Marks(id: Id, successes: seq<bool>): seq<Outcome> {
    if successes == [] then []
    else Marks(id, successes[..|successes| - 1]) + [Outcome(id, successes[|successes| - 1])]
  }

  /** The outcomes it gives to them. */
  function NoteMarks(first: Id, notes: seq<seq<bool>>): seq<Outcome> {
    if notes == [] then []
    else
      var before := notes[..|notes| - 1];
      NoteMarks(first, before) + Marks(first + |before|, notes[|before|])
  }

  function Execute(env: Env, w: World, actor: Id, tool: string, args: string, origin: Origin): (World, ToolOutcome) {
    var o, notes := env.runs(w.tick), env.notes(w.tick);
    var ran := Execution(tool, args, actor, origin, Recorded(o));
    (Noted(Tick(w).(calls := w.calls.(executions := w.calls.executions + [ran])), actor, notes), o)
  }

  function Noted(w: World, user: Id, notes: seq<seq<bool>>): World {
    w.(nextId := w.nextId + |notes|,
       trail := w.trail.(audits := w.trail.audits + NoteRows(user, w.nextId, notes),
                         outcomes := w.trail.outcomes + NoteMarks(w.nextId, notes)))
  }

  /** Rows an executor wrote itself, under ids from lo up to hi. */
  ghost predicate OwnRows(rows: seq<AuditRow>, lo: Id, hi: Id) {
    forall k :: 0 <= k < |rows| ==> rows[k].action == ToolExecute && lo <= rows[k].id < hi
  }

  ghost predicate OwnMarks(marks: seq<Outcome>, lo: Id, hi: Id) {
    forall k :: 0 <= k < |marks| ==> lo <= marks[k].audit < hi
  }

  /** From w to w' nothing but an executor wrote to the audit log: rows of its own,
      under new ids, and outcomes for those. */
  ghost predicate NotesAudit(w: World, w': World) {
    && w.nextId <= w'.nextId
    && w.trail.audits <= w'.trail.audits
    && OwnRows(w'.trail.audits[|w.trail.audits|..], w.nextId, w'.nextId)
    && w.trail.outcomes <= w'.trail.outcomes
    && OwnMarks(w'.trail.outcomes[|w.trail.outcomes|..], w.nextId, w'.nextId)
  }

  /** And nothing else happened to the trail. */
  ghost predicate OnlyNotes(w: World, w': World) {
    && NotesAudit(w, w')
    && w'.trail == w.trail.(audits := w'.trail.audits, outcomes := w'.trail.outcomes)
  }

  lemma {:induction false} NoteRowsAreOwn(user: Id, first: Id, notes: seq<seq<bool>>)
    ensures OwnRows(NoteRows(user, first, notes), first, first + |notes|)
  {
    if notes != [] {
      NoteRowsAreOwn(user, first, notes[..|notes| - 1]);
    }
  }

  lemma {:induction false} MarksAreOwn(id: Id, successes: seq<bool>)
    ensures OwnMarks(Marks(id, successes), id, id + 1)
  {
    if successes != [] {
      MarksAreOwn(id, successes[..|successes| - 1]);
    }
  }

  lemma {:induction false} NoteMarksAreOwn(first: Id, notes: seq<seq<bool>>)
    ensures OwnMarks(NoteMarks(first, notes), first, first + |notes|)
  {
    if notes != [] {
      var before := notes[..|notes| - 1];
      NoteMarksAreOwn(first, before);
      MarksAreOwn(first + |before|, notes[|before|]);
    }
  }

  lemma NotedIsOnlyNotes(w: World, user: Id, notes: seq<seq<bool>>)
    ensures OnlyNotes(w, Noted(w, user, notes))
  {
    var w' := Noted(w, user, notes);
    NoteRowsAreOwn(user, w.nextId, notes);
    NoteMarksAreOwn(w.nextId, notes);
    assert w'.trail.audits[|w.trail.audits|..] == NoteRows(user, w.nextId, notes);
    assert w'.trail.outcomes[|w.trail.outcomes|..] == NoteMarks(w.nextId, notes);
  }

  lemma SuffixOfSuffix<T>(a: seq<T>, b: seq<T>, c: seq<T>)
    requires a <= b <= c
    ensures a <= c && c[|a|..] == b[|a|..] + c[|b|..]
  {
  }

  lemma NotesAuditTrans(a: World, b: World, c: World)
    requires NotesAudit(a, b) && NotesAudit(b, c)
    ensures NotesAudit(a, c)
  {
    SuffixOfSuffix(a.trail.audits, b.trail.audits, c.trail.audits);
    SuffixOfSuffix(a.trail.outcomes, b.trail.outcomes, c.trail.outcomes);
  }

  lemma OnlyNotesTrans(a: World, b: World, c: World)
    requires OnlyNotes(a, b) && OnlyNotes(b, c)
    ensures OnlyNotes(a, c)
  {
    NotesAuditTrans(a, b, c);
  }

  function Audit(env: Env, w: World, user: Id, action: Action): (World, Id) {
    if env.auditFails(w.tick) then (Tick(w), NIL)
    else (Tick(w).(nextId := w.nextId + 1,
                   trail := w.trail.(audits := w.trail.audits + [AuditRow(w.nextId, action, user)])),
          w.nextId)
  }

  function MarkOutcome(env: Env, w: World, audit: Id, success: bool): World {
    if audit == NIL then w
    else if env.auditFails(w.tick) then Tick(w)
    else Tick(w).(trail := w.trail.(outcomes := w.trail.outcomes + [Outcome(audit, success)]))
  }

  /** Hands an event to the client; the flag says whether that failed. */
  function Emit(env: Env, w: World, ev: Event): (World, bool) {
    (Tick(w).(trail := w.trail.(sent := w.trail.sent + [ev])), env.emitFails(w.tick))
  }

  /** The user-role messages of one user created after an instant. */
  function CountSince(ms: seq<Message>, user: Id, since: int): nat {
    if ms == [] then 0
    else
      var last := ms[|ms| - 1];
      CountSince(ms[..|ms| - 1], user, since)
      + if last.user == user && last.role == UserRole && last.at > since then 1 else 0
  }

  function InConversation(ms: seq<Message>, conversation: Id): seq<Message> {
    if ms == [] then []
    else
      var last := ms[|ms| - 1];
      InConversation(ms[..|ms| - 1], conversation) + if last.conversation == conversation then [last] else []
  }

  function OutsideConversation(ms: seq<Message>, conversation: Id): seq<Message> {
    if ms == [] then []
    else
      var last := ms[|ms| - 1];
      OutsideConversation(ms[..|ms| - 1], conversation) + if last.conversation == conversation then [] else [last]
  }

  lemma LastIsSplit(ms: seq<Message>, conversation: Id)
    requires ms != []
    ensures var init, last := ms[..|ms| - 1], ms[|ms| - 1];
            var kept, gone := OutsideConversation(init, conversation), InConversation(init, conversation);
            && OutsideConversation(ms, conversation) ==
                (if last.conversation == conversation then kept else kept + [last])
            && InConversation(ms, conversation) == (if last.conversation == conversation then gone + [last] else gone)
  {
  }

  function IdsOf(ms: seq<Message>): set<Id> {
    set i | 0 <= i < |ms| :: ms[i].id
  }

  /** Deleting a conversation cascades to its messages and their tool calls. */
  function DropConversation(w: World, id: Id): World {
    var dead := IdsOf(InConversation(w.store.messages, id));
    Tick(w).(store := w.store.(conversations := w.store.conversations - {id},
                               messages := OutsideConversation(w.store.messages, id)),
             calls := w.calls.(
                             rows := map r | r in w.calls.rows && w.calls.rows[r].message !in dead :: w.calls.rows[r]))
  }

  /** Where the prompts of a user later than an instant stand among the messages. */
  ghost function PromptsSince(ms: seq<Message>, user: Id, since: int): set<int> {
    set k | 0 <= k < |ms| && ms[k].user == user && ms[k].role == UserRole && ms[k].at > since
  }

  lemma {:induction false} CountIsCardinality(ms: seq<Message>, user: Id, since: int)
    ensures CountSince(ms, user, since) == |PromptsSince(ms, user, since)|
  {
    if ms != [] {
      var init, n := ms[..|ms| - 1], |ms| - 1;
      CountIsCardinality(init, user, since);
      var before, all := PromptsSince(init, user, since), PromptsSince(ms, user, since);
      if ms[n].user == user && ms[n].role == UserRole && ms[n].at > since {
        assert all == before + {n};
      } else {
        assert all == before;
      }
    } else {
      assert PromptsSince(ms, user, since) == {};
    }
  }

  /** The same state as mutable tables. */
  class Backend {
    const env: Env
    var tick: nat
    var clock: int
    var nextId: Id
    var conversations: map<Id, Conversation>
    var messages: seq<Message>
    var rows: map<Id, ToolCallRow>
    var statusLog: seq<StatusWrite>
    var policy: Option<Policy>
    var providers: seq<ProviderConfig>
    var executions: seq<Execution>
    var audits: seq<AuditRow>
    var outcomes: seq<Outcome>
    var charges: seq<Charge>
    var sent: seq<Event>

    ghost function View(): World
      reads this
    {
      World(tick, clock, nextId, Store(conversations, messages, policy, providers),
            Calls(rows, statusLog, executions), Trail(audits, outcomes, charges, sent))
    }

    constructor (env: Env)
      ensures View() == GENESIS && this.env == env
    {
      this.env := env;
      tick, clock, nextId := 0, 0, 1;
      conversations, messages, rows, statusLog := map[], [], map[], [];
      policy, providers := None, [];
      executions, audits, outcomes, charges, sent := [], [], [], [], [];
    }

    method CreateMessage(user: Id, conversation: Id, role: Role, content: string) returns (id: Option<Id>)
      modifies this
      ensures (View(), id) == AddMessage(env, old(View()), user, conversation, role, content)
    {
      var now := tick;
      tick := tick + 1;
      if env.createFails(now) { return None; }
      clock := clock + env.elapsed(now);
      messages := messages + [Message(nextId, user, conversation, role, content, clock)];
      id := Some(nextId);
      nextId := nextId + 1;
    }

    method SetMessageContent(id: Id, content: string) returns (ok: bool)
      modifies this
      ensures (View(), ok) == SetContent(env, old(View()), id, content)
    {
      var now := tick;
      tick := tick + 1;
      if env.contentFails(now) { return false; }
      var kept: seq<Message> := [];
      for i := 0 to |messages|
        invariant kept == WithContent(messages[..i], id, content)
      {
        assert messages[..i + 1][..i] == messages[..i];
        var m := messages[i];
        kept := kept + [if m.id == id then m.(content := content) else m];
      }
      assert messages[..|messages|] == messages;
      messages := kept;
      ok := true;
    }

    method CountMessagesSince(user: Id, since: int) returns (count: Option<nat>)
      modifies `tick
      ensures View() == Tick(old(View()))
      ensures count == if env.readFails(old(tick)) then None else Some(CountSince(messages, user, since))
      ensures count.Some? ==> count.value == |PromptsSince(messages, user, since)|
    {
      CountIsCardinality(messages, user, since);
      var now := tick;
      tick := tick + 1;
      if env.readFails(now) { return None; }
      var n := 0;
      for i := 0 to |messages|
        invariant n == CountSince(messages[..i], user, since)
      {
        assert messages[..i + 1][..i] == messages[..i];
        if messages[i].user == user && messages[i].role == UserRole && messages[i].at > since { n := n + 1; }
      }
      assert messages[..|messages|] == messages;
      count := Some(n);
    }

    method ListMessages(conversation: Id) returns (ms: Option<seq<Message>>)
      modifies `tick
      ensures View() == Tick(old(View()))
      ensures ms == if env.readFails(old(tick)) then None else Some(InConversation(messages, conversation))
    {
      var now := tick;
      tick := tick + 1;
      if env.readFails(now) { return None; }
      var kept: seq<Message> := [];
      for i := 0 to |messages|
        invariant kept == InConversation(messages[..i], conversation)
      {
        assert messages[..i + 1][..i] == messages[..i];
        kept := kept + if messages[i].conversation == conversation then [messages[i]] else [];
      }
      assert messages[..|messages|] == messages;
      ms := Some(kept);
    }

    method CreateToolCall(user: Id, message: Id, tool: string, args: string, confirm: bool, status: Status)
      returns (id: Option<Id>)
      modifies this
      ensures (View(), id) == AddToolCall(env, old(View()), user, message, tool, args, confirm, status)
    {
      var now := tick;
      tick := tick + 1;
      if env.createFails(now) { return None; }
      rows := rows[nextId := ToolCallRow(user, message, tool, args, confirm, status, "")];
      statusLog := statusLog + [StatusWrite(nextId, status)];
      id := Some(nextId);
      nextId := nextId + 1;
    }

    method SetToolCallStatus(user: Id, id: Id, status: Status)
      modifies this
      ensures View() == SetStatus(env, old(View()), user, id, status)
    {
      var now := tick;
      tick := tick + 1;
      if env.statusFails(now) || id !in rows || rows[id].user != user { return; }
      rows := rows[id := rows[id].(status := status)];
      statusLog := statusLog + [StatusWrite(id, status)];
    }

    method SetToolCallResult(user: Id, id: Id, result: string, status: Status)
      modifies this
      ensures View() == SetResult(env, old(View()), user, id, result, status)
    {
      var now := tick;
      tick := tick + 1;
      if env.statusFails(now) || id !in rows || rows[id].user != user { return; }
      rows := rows[id := rows[id].(status := status, result := result)];
      statusLog := statusLog + [StatusWrite(id, status)];
    }

    method RunTool(actor: Id, tool: string, args: string, origin: Origin) returns (o: ToolOutcome)
      modifies this
      ensures (View(), o) == Execute(env, old(View()), actor, tool, args, origin)
    {
      o := env.runs(tick);
      var notes := env.notes(tick);
      tick := tick + 1;
      executions := executions + [Execution(tool, args, actor, origin, Recorded(o))];
      TakeNotes(actor, notes);
    }

    /** The executor's own audit rows and their outcomes. */
    method TakeNotes(actor: Id, notes: seq<seq<bool>>)
      modifies `audits, `outcomes, `nextId
      ensures View() == Noted(old(View()), actor, notes)
    {
      ghost var first := nextId;
      for i := 0 to |notes|
        invariant nextId == first + i
        invariant audits == old(audits) + NoteRows(actor, first, notes[..i])
        invariant outcomes == old(outcomes) + NoteMarks(first, notes[..i])
      {
        assert notes[..i + 1][..i] == notes[..i];
        audits := audits + [AuditRow(nextId, ToolExecute, actor)];
        MarkAll(nextId, notes[i]);
        nextId := nextId + 1;
      }
      assert notes[..|notes|] == notes;
    }

    method MarkAll(id: Id, successes: seq<bool>)
      modifies `outcomes
      ensures outcomes == old(outcomes) + Marks(id, successes)
    {
      for i := 0 to |successes|
        invariant outcomes == old(outcomes) + Marks(id, successes[..i])
      {
        assert successes[..i + 1][..i] == successes[..i];
        outcomes := outcomes + [Outcome(id, successes[i])];
      }
      assert successes[..|successes|] == successes;
    }

    method EmitAudit(user: Id, action: Action) returns (id: Id)
      modifies this
      ensures (View(), id) == Audit(env, old(View()), user, action)
    {
      var now := tick;
      tick := tick + 1;
      if env.auditFails(now) { return NIL; }
      audits := audits + [AuditRow(nextId, action, user)];
      id := nextId;
      nextId := nextId + 1;
    }

    method Mark(audit: Id, success: bool)
      modifies this
      ensures View() == MarkOutcome(env, old(View()), audit, success)
    {
      if audit == NIL { return; }
      var now := tick;
      tick := tick + 1;
      if env.auditFails(now) { return; }
      outcomes := outcomes + [Outcome(audit, success)];
    }

    method EmitEvent(ev: Event) returns (failed: bool)
      modifies this
      ensures (View(), failed) == Emit(env, old(View()), ev)
    {
      failed := env.emitFails(tick);
      tick := tick + 1;
      sent := sent + [ev];
    }

    method DeleteRows(conversation: Id)
      modifies this
      ensures View() == DropConversation(old(View()), conversation)
    {
      tick := tick + 1;
      var kept, dead := Cascade(messages, conversation);
      conversations := conversations - {conversation};
      messages := kept;
      rows := map r | r in rows && rows[r].message !in dead :: rows[r];
    }
  }

  /** The messages outside a conversation, and the ids of those inside. */
  method Cascade(all: seq<Message>, conversation: Id) returns (kept: seq<Message>, dead: set<Id>)
    ensures kept == OutsideConversation(all, conversation)
    ensures dead == IdsOf(InConversation(all, conversation))
  {
    dead, kept := {}, [];
    for i := 0 to |all|
      invariant kept == OutsideConversation(all[..i], conversation)
      invariant dead == IdsOf(InConversation(all[..i], conversation))
    {
      assert all[..i + 1][..i] == all[..i];
      if all[i].conversation == conversation {
        IdsOfAppend(InConversation(all[..i], conversation), all[i]);
        dead := dead + {all[i].id};
      } else {
        assert InConversation(all[..i + 1], conversation) == InConversation(all[..i], conversation);
        kept := kept + [all[i]];
      }
    }
    assert all[..|all|] == all;
  }

  lemma IdsOfAppend(ms: seq<Message>, m: Message)
    ensures IdsOf(ms + [m]) == IdsOf(ms) + {m.id}
  {
    assert (ms + [m])[|ms|] == m;
    forall x | x in IdsOf(ms) ensures x in IdsOf(ms + [m]) {
      var i :| 0 <= i < |ms| && ms[i].id == x;
      assert (ms + [m])[i].id == x;
    }
  }
}
