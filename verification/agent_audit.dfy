/** The audit trail of turns: each turn that gets as far as answering opens one row, and
    one outcome closes it, whatever rows the tool executor writes in between. */
module AgentAudit {
  import opened AgentTypes
  import opened AgentWorld
  import opened AgentService
  import opened AgentRuns
  import Harness = LlmHarness
  import opened Wrappers

  ghost predicate AuditWorks(env: Env) {
    forall k: nat :: !env.auditFails(k)
  }

  // ----- Only the executor writes while a turn is answered ---------------------------

  lemma ExecuteNotes(env: Env, w: World, actor: Id, tool: string, args: string, origin: Origin)
    ensures NotesAudit(w, Execute(env, w, actor, tool, args, origin).0)
  {
    NotedIsOnlyNotes(w, actor, env.notes(w.tick));
  }

  lemma HandleNotes(env: Env, cfg: Config, w: World, user: Id, message: Id, p: Policy, ev: Event)
    requires ev.ToolCall?
    ensures NotesAudit(w, Handle(env, cfg, w, user, message, p, ev).0)
  {
    var (w1, row) := AddToolCall(env, w, user, message, ev.tool, ev.args, false, Executed);
    if row.Some? {
      ExecuteNotes(env, w1, user, ev.tool, ev.args, Inline(row.value));
    }
  }

  lemma {:induction false} ConsumeNotes(
    env: Env, cfg: Config, w: World, turn: TurnInfo, content: string, events: seq<Event>)
    ensures NotesAudit(w, Consume(env, cfg, w, turn, content, events).w)
    decreases |events|
  {
    if events != [] {
      match events[0]
      case Text(text) => ConsumeNotes(env, cfg, Emit(env, w, events[0]).0, turn, content + text, events[1..]);
      case ToolCall(_, _, _, _) =>
        HandleNotes(env, cfg, w, turn.user, turn.message, turn.policy, events[0]);
        var w1 := Handle(env, cfg, w, turn.user, turn.message, turn.policy, events[0]).0;
        ConsumeNotes(env, cfg, w1, turn, content, events[1..]);
        NotesAuditTrans(w, w1, Consume(env, cfg, w1, turn, content, events[1..]).w);
      case ToolResult(_, _, _) => ConsumeNotes(env, cfg, w, turn, content, events[1..]);
      case Done(_) =>
      case Error(_) =>
    }
  }

  lemma DeliverNotes(env: Env, cfg: Config, w: World, turn: TurnInfo, req: Harness.Request)
    ensures NotesAudit(w, Deliver(env, cfg, w, turn, req).0)
  {
    var (w1, events) := Harness.Run(env, cfg, turn.user, w, req);
    var body, tail := Harness.RunIsSound(env, cfg, turn.user, w, req);
    ConsumeNotes(env, cfg, w1, turn, "", events);
    NotesAuditTrans(w, w1, Consume(env, cfg, w1, turn, "", events).w);
  }

  // ----- One turn --------------------------------------------------------------------

  /** From w to w' one turn of the user was audited: a row for sending, then rows of the
      executor and outcomes for those, and last the one outcome of the first row. */
  ghost predicate AuditedTurn(w: World, w': World, user: Id, id: Id, success: bool) {
    && w.nextId <= id < w'.nextId
    && w.trail.audits + [AuditRow(id, MessageSend, user)] <= w'.trail.audits
    && OwnRows(w'.trail.audits[|w.trail.audits| + 1..], id + 1, w'.nextId)
    && |w.trail.outcomes| < |w'.trail.outcomes|
    && var last := |w'.trail.outcomes| - 1;
       && w.trail.outcomes <= w'.trail.outcomes[..last]
       && OwnMarks(w'.trail.outcomes[|w.trail.outcomes|..last], id + 1, w'.nextId)
       && w'.trail.outcomes[last] == Outcome(id, success)
  }

  lemma ClosingAudits(env: Env, w: World, w1: World, w2: World, user: Id, id: Id, success: bool)
    requires AuditWorks(env) && w.nextId == id != NIL
    requires w1.nextId == id + 1 && w1.trail.outcomes == w.trail.outcomes
    requires w1.trail.audits == w.trail.audits + [AuditRow(id, MessageSend, user)]
    requires NotesAudit(w1, w2)
    ensures AuditedTurn(w, MarkOutcome(env, w2, id, success), user, id, success)
  {
  }

  /** An answered turn opens one row of its own and closes it with one outcome, behind
      whatever the executor writes; a turn that reports an error is no success. */
  lemma AnswerIsAuditedOnce(
    env: Env, cfg: Config, w: World, user: Id, conversation: Id, text: string, p: Policy, provider: Harness.Resolved)
    returns (success: bool)
    requires AuditWorks(env) && w.nextId != NIL
    ensures var (w', fault) := AnswerTurn(env, cfg, w, user, conversation, text, p, provider);
            AuditedTurn(w, w', user, w.nextId, success) && (fault.Some? ==> !success)
  {
    var w1 := Audit(env, w, user, MessageSend).0;
    var w2 := Tick(w1);
    success := false;
    if env.readFails(w1.tick) {
      ClosingAudits(env, w, w1, w2, user, w.nextId, false);
      return;
    }
    var (w3, reply) := AddMessage(env, w2, user, conversation, AssistantRole, "");
    if reply.None? {
      ClosingAudits(env, w, w1, w3, user, w.nextId, false);
      return;
    }
    var turn := TurnInfo(user, conversation, reply.value, p, provider);
    var req := Harness.Request(History(w2.store.messages, conversation), text, provider, Tools(cfg, p));
    success := DeliveredIsAudited(env, cfg, w, w1, w3, turn, req);
  }

  lemma DeliveredIsAudited(
    env: Env, cfg: Config, w: World, w1: World, w3: World, turn: TurnInfo, req: Harness.Request)
    returns (success: bool)
    requires AuditWorks(env) && w.nextId != NIL
    requires w1.nextId == w.nextId + 1 && w1.trail.outcomes == w.trail.outcomes
    requires w1.trail.audits == w.trail.audits + [AuditRow(w.nextId, MessageSend, turn.user)]
    requires NotesAudit(w1, w3)
    ensures var (w4, ok) := Deliver(env, cfg, w3, turn, req);
            success == ok && AuditedTurn(w, MarkOutcome(env, w4, w.nextId, ok), turn.user, w.nextId, ok)
  {
    var (w4, ok) := Deliver(env, cfg, w3, turn, req);
    DeliverNotes(env, cfg, w3, turn, req);
    NotesAuditTrans(w1, w3, w4);
    ClosingAudits(env, w, w1, w4, turn.user, w.nextId, ok);
    success := ok;
  }

  /** A turn that is refused leaves no trace in the audit log and reports why. */
  ghost predicate RefusedTurn(w: World, w': World, fault: Option<Fault>) {
    w.nextId <= w'.nextId && w'.trail == w.trail && fault.Some?
  }

  lemma RespondIsAuditedOnce(
    env: Env, cfg: Config, w: World, user: Id, conversation: Id, text: string, p: Policy)
    returns (id: Id, success: bool)
    requires AuditWorks(env) && w.nextId != NIL
    ensures var (w', fault) := Respond(env, cfg, w, user, conversation, text, p);
            RefusedTurn(w, w', fault) || (AuditedTurn(w, w', user, id, success) && (fault.Some? ==> !success))
  {
    id, success := w.nextId, false;
    var (w1, provider) := ResolveProvider(env, cfg, w, user, p);
    SettlingOnlyTicks(env, cfg, w, user, p);
    if provider.Ok? {
      var (w2, spend) := CheckSpend(env, cfg, w1, provider.value, p);
      if spend == None {
        success := AnswerIsAuditedOnce(env, cfg, w2, user, conversation, text, p, provider.value);
        AuditedLater(env, w, w2, Respond(env, cfg, w, user, conversation, text, p).0, user, id, success);
      }
    }
  }

  /** Every turn: refused before it answers, it leaves no audit row and reports why;
      otherwise it leaves exactly one row for sending, with exactly one outcome. */
  lemma TurnIsAuditedOnce(env: Env, cfg: Config, w: World, user: Id, conversation: Id, text: string)
    returns (id: Id, success: bool)
    requires AuditWorks(env) && w.nextId != NIL
    ensures var (w', fault) := StreamMessage(env, cfg, w, user, conversation, text);
            RefusedTurn(w, w', fault) || (AuditedTurn(w, w', user, id, success) && (fault.Some? ==> !success))
  {
    id, success := w.nextId, false;
    var (w1, p) := Admit(env, cfg, w, user, conversation, text);
    AdmitOnlyTicks(env, cfg, w, user, conversation, text);
    if p.Ok? {
      var (w2, prompt) := AddMessage(env, w1, user, conversation, UserRole, text);
      if prompt.Some? {
        id, success := RespondIsAuditedOnce(env, cfg, w2, user, conversation, text, p.value);
        AuditedLater(env, w, w2, Respond(env, cfg, w2, user, conversation, text, p.value).0, user, id, success);
      }
    }
  }

  lemma AuditedLater(env: Env, w: World, w2: World, w': World, user: Id, id: Id, success: bool)
    requires w.nextId <= w2.nextId && w2.trail == w.trail
    ensures AuditedTurn(w2, w', user, id, success) ==> AuditedTurn(w, w', user, id, success)
  {
  }

  // ----- Runs ------------------------------------------------------------------------

  /** The outcomes written for one audit row. */
  function OutcomesOf(outcomes: seq<Outcome>, id: Id): seq<bool> {
    if outcomes == [] then []
    else
      var last := outcomes[|outcomes| - 1];
      OutcomesOf(outcomes[..|outcomes| - 1], id) + if last.audit == id then [last.success] else []
  }

  lemma {:induction false} OutcomesAppend(a: seq<Outcome>, b: seq<Outcome>, id: Id)
    ensures OutcomesOf(a + b, id) == OutcomesOf(a, id) + OutcomesOf(b, id)
  {
    if b == [] {
      assert a + b == a;
    } else {
      assert (a + b)[..|a + b| - 1] == a + b[..|b| - 1];
      OutcomesAppend(a, b[..|b| - 1], id);
    }
  }

  lemma {:induction false} ElsewhereNone(marks: seq<Outcome>, lo: Id, hi: Id, id: Id)
    requires OwnMarks(marks, lo, hi) && (id < lo || hi <= id)
    ensures OutcomesOf(marks, id) == []
  {
    if marks != [] {
      ElsewhereNone(marks[..|marks| - 1], lo, hi, id);
    }
  }

  /** Every id in use was given out already; every row for sending has an id of its own
      and exactly one outcome. */
  ghost predicate Books(audits: seq<AuditRow>, outcomes: seq<Outcome>, nextId: Id) {
    && nextId != NIL
    && (forall i :: 0 <= i < |audits| ==> audits[i].id < nextId)
    && OwnMarks(outcomes, 0, nextId)
    && (forall i :: 0 <= i < |audits| && audits[i].action == MessageSend ==> Closed(audits, outcomes, i))
  }

  ghost predicate Closed(audits: seq<AuditRow>, outcomes: seq<Outcome>, i: nat)
    requires i < |audits|
  {
    && |OutcomesOf(outcomes, audits[i].id)| == 1
    && forall j :: 0 <= j < |audits| && j != i ==> audits[j].id != audits[i].id
  }

  ghost predicate BooksKept(w: World) {
    Books(w.trail.audits, w.trail.outcomes, w.nextId)
  }

  /** From w to w' no turn was audited: new rows are for something else, and under new
      ids, as are the new outcomes. */
  ghost predicate NoTurnAudited(w: World, w': World) {
    && w.nextId <= w'.nextId
    && w.trail.audits <= w'.trail.audits
    && OtherRows(w'.trail.audits[|w.trail.audits|..], w.nextId, w'.nextId)
    && w.trail.outcomes <= w'.trail.outcomes
    && OwnMarks(w'.trail.outcomes[|w.trail.outcomes|..], w.nextId, w'.nextId)
  }

  ghost predicate OtherRows(rows: seq<AuditRow>, lo: Id, hi: Id) {
    forall k :: 0 <= k < |rows| ==> rows[k].action != MessageSend && lo <= rows[k].id < hi
  }

  lemma RowStaysClosed(
    audits: seq<AuditRow>, rows: seq<AuditRow>, outcomes: seq<Outcome>, marks: seq<Outcome>, n: Id, hi: Id, i: nat)
    requires Books(audits, outcomes, n) && OwnMarks(marks, n, hi)
    requires forall k :: 0 <= k < |rows| ==> n <= rows[k].id
    requires i < |audits| && audits[i].action == MessageSend
    ensures Closed(audits + rows, outcomes + marks, i)
  {
    assert Closed(audits, outcomes, i);
    OutcomesAppend(outcomes, marks, audits[i].id);
    ElsewhereNone(marks, n, hi, audits[i].id);
    forall j | 0 <= j < |audits + rows| && j != i ensures (audits + rows)[j].id != audits[i].id {
      if j >= |audits| { assert (audits + rows)[j] == rows[j - |audits|]; }
    }
  }

  lemma OthersKeepBooks(w: World, w': World)
    requires BooksKept(w) && NoTurnAudited(w, w')
    ensures BooksKept(w')
  {
    var rows, marks := w'.trail.audits[|w.trail.audits|..], w'.trail.outcomes[|w.trail.outcomes|..];
    assert w'.trail.audits == w.trail.audits + rows && w'.trail.outcomes == w.trail.outcomes + marks;
    forall i | 0 <= i < |w'.trail.audits| && w'.trail.audits[i].action == MessageSend
      ensures Closed(w'.trail.audits, w'.trail.outcomes, i)
    {
      assert i < |w.trail.audits|;
      RowStaysClosed(w.trail.audits, rows, w.trail.outcomes, marks, w.nextId, w'.nextId, i);
    }
  }

  /** The new row of an audited turn is closed by its one outcome. */
  lemma NewRowIsClosed(
    audits: seq<AuditRow>, row: AuditRow, notes: seq<AuditRow>, outcomes: seq<Outcome>, marks: seq<Outcome>,
    n: Id, hi: Id, success: bool)
    requires Books(audits, outcomes, n) && n <= row.id
    requires OwnRows(notes, row.id + 1, hi) && OwnMarks(marks, row.id + 1, hi)
    ensures Closed(audits + [row] + notes, outcomes + (marks + [Outcome(row.id, success)]), |audits|)
  {
    var last := [Outcome(row.id, success)];
    OutcomesAppend(outcomes, marks + last, row.id);
    OutcomesAppend(marks, last, row.id);
    ElsewhereNone(outcomes, 0, n, row.id);
    ElsewhereNone(marks, row.id + 1, hi, row.id);
    assert last[..0] == [];
  }

  lemma TurnKeepsBooks(w: World, w': World, user: Id, id: Id, success: bool)
    requires BooksKept(w) && AuditedTurn(w, w', user, id, success)
    ensures BooksKept(w')
  {
    var row, m := AuditRow(id, MessageSend, user), |w.trail.audits|;
    var notes, marks := w'.trail.audits[m + 1..], w'.trail.outcomes[|w.trail.outcomes|..|w'.trail.outcomes| - 1];
    var all := marks + [Outcome(id, success)];
    assert w'.trail.audits == w.trail.audits + [row] + notes == w.trail.audits + ([row] + notes);
    assert w'.trail.outcomes == w.trail.outcomes + all;
    NewRowIsClosed(w.trail.audits, row, notes, w.trail.outcomes, marks, w.nextId, w'.nextId, success);
    forall i | 0 <= i < |w'.trail.audits| && w'.trail.audits[i].action == MessageSend
      ensures Closed(w'.trail.audits, w'.trail.outcomes, i)
    {
      if i < m {
        RowStaysClosed(w.trail.audits, [row] + notes, w.trail.outcomes, all, w.nextId, w'.nextId, i);
      }
    }
  }

  lemma ApproveNotes(env: Env, cfg: Config, w: World, user: Id, id: Id, row: ToolCallRow)
    ensures NotesAudit(w, Approve(env, cfg, w, user, id, row).0)
  {
    var w1 := SetStatus(env, w, user, id, Approved);
    ExecuteNotes(env, w1, user, row.tool, row.args, Confirmed(id));
  }

  lemma ReportAuditsNoTurn(env: Env, w: World, done: (World, ToolOutcome), user: Id, id: Id, row: ToolCallRow)
    requires NotesAudit(w, done.0)
    ensures NoTurnAudited(w, Report(env, done, user, id, row).0)
  {
  }

  lemma ConfirmAuditsNoTurn(env: Env, cfg: Config, w: World, user: Id, id: Id, approved: bool)
    ensures NoTurnAudited(w, Confirm(env, cfg, w, user, id, approved).0)
  {
    var (w1, row) := FindRow(env, w, user, id);
    if cfg.enabled && row.Ok? && row.value.status == Pending && approved {
      ApproveNotes(env, cfg, w1, user, id, row.value);
      ReportAuditsNoTurn(env, w, Approve(env, cfg, w1, user, id, row.value), user, id, row.value);
    }
  }

  lemma RemoveAuditsNoTurn(env: Env, cfg: Config, w: World, user: Id, conversation: Id)
    ensures NoTurnAudited(w, DeleteConversation(env, cfg, w, user, conversation).0)
  {
  }

  lemma OtherStepsAuditNoTurn(env: Env, cfg: Config, w: World, step: Step)
    requires !step.Send? && !step.Decide?
    ensures NoTurnAudited(w, Apply(env, cfg, w, step))
  {
    if step.Remove? { RemoveAuditsNoTurn(env, cfg, w, step.user, step.conversation); }
  }

  lemma StepKeepsBooks(env: Env, cfg: Config, w: World, step: Step)
    requires AuditWorks(env) && BooksKept(w)
    ensures BooksKept(Apply(env, cfg, w, step))
  {
    var w' := Apply(env, cfg, w, step);
    if step.Send? {
      var id, success := TurnIsAuditedOnce(env, cfg, w, step.user, step.conversation, step.text);
      if AuditedTurn(w, w', step.user, id, success) {
        TurnKeepsBooks(w, w', step.user, id, success);
      } else {
        OthersKeepBooks(w, w');
      }
    } else {
      if step.Decide? {
        ConfirmAuditsNoTurn(env, cfg, w, step.user, step.row, step.approved);
      } else {
        OtherStepsAuditNoTurn(env, cfg, w, step);
      }
      OthersKeepBooks(w, w');
    }
  }

  /** With a working audit log, in every run every row for sending has exactly one
      outcome in the whole log, and its id is no other row's, whatever the executor
      wrote in turns and confirmations before or since. */
  lemma {:induction false} RunsAuditTurnsOnce(env: Env, cfg: Config, steps: seq<Step>)
    requires AuditWorks(env)
    ensures BooksKept(Run(env, cfg, steps))
  {
    if steps != [] {
      RunsAuditTurnsOnce(env, cfg, steps[..|steps| - 1]);
      StepKeepsBooks(env, cfg, Run(env, cfg, steps[..|steps| - 1]), steps[|steps| - 1]);
    }
  }
}
