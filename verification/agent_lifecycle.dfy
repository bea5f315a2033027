/** The life of a tool-call row over whole runs, when status writes succeed. */
module AgentLifecycle {
  import opened AgentTypes
  import opened AgentWorld
  import opened AgentService
  import opened AgentRuns
  import Harness = LlmHarness
  import opened Wrappers

  ghost predicate StatusWritesSucceed(env: Env) {
    forall k :: !env.statusFails(k)
  }

  /** Every status ever written to one row, oldest first. */
  function Life(log: seq<StatusWrite>, r: Id): seq<Status> {
    if log == [] then []
    else Life(log[..|log| - 1], r) + if log[|log| - 1].row == r then [log[|log| - 1].status] else []
  }

  lemma {:induction false} LifeAppend(log: seq<StatusWrite>, more: seq<StatusWrite>, r: Id)
    ensures Life(log + more, r) == Life(log, r) + Life(more, r)
  {
    if more == [] {
      assert log + more == log;
    } else {
      assert (log + more)[..|log + more| - 1] == log + more[..|more| - 1];
      LifeAppend(log, more[..|more| - 1], r);
    }
  }

  /** A first status and perhaps a second one, and their writes to row r0. */
  function Statuses(s: Status, t: Option<Status>): seq<Status> {
    if t.Some? then [s, t.value] else [s]
  }

  function Writes(r0: Id, s: Status, t: Option<Status>): seq<StatusWrite> {
    if t.Some? then [StatusWrite(r0, s), StatusWrite(r0, t.value)] else [StatusWrite(r0, s)]
  }

  lemma LifeAfter(log: seq<StatusWrite>, r0: Id, s: Status, t: Option<Status>, r: Id)
    ensures Life(log + Writes(r0, s, t), r) == if r == r0 then Life(log, r) + Statuses(s, t) else Life(log, r)
  {
    LifeAppend(log, Writes(r0, s, t), r);
    var writes := Writes(r0, s, t);
    assert [StatusWrite(r0, s)][..0] == [];
    assert Life([StatusWrite(r0, s)], r) == if r == r0 then [s] else [];
    if t.Some? {
      assert writes[..1] == [StatusWrite(r0, s)];
    }
  }

  /** The stories a row can have between two steps. */
  predicate Story(s: seq<Status>) {
    || s == [Executed, Executed] || s == [Executed, Failed]
    || s == [Pending] || s == [Pending, Rejected]
    || s == [Pending, Approved, Executed] || s == [Pending, Approved, Failed]
  }

  /** Row r as the tables and the log agree on it. */
  ghost predicate RowOk(c: Calls, r: Id) {
    var life := Life(c.statusLog, r);
    && (r in c.rows ==> Story(life) && c.rows[r].status == life[|life| - 1]
                         && (c.rows[r].confirm <==> life[0] == Pending))
    && (life == [] || Story(life))
  }

  /** Identifiers below n are in use, no row runs twice, and each run of a row is on the
      books of that row. */
  ghost predicate Books(c: Calls, n: Id) {
    && (forall r: Id :: RowOk(c, r) && (r >= n ==> r !in c.rows && Life(c.statusLog, r) == []))
    && (forall k :: 0 <= k < |c.executions| ==> RunOk(c, c.executions[k], n))
    && RunsOnce(c.executions)
  }

  ghost predicate RunOk(c: Calls, e: Execution, n: Id) {
    e.origin != InHarness ==>
      var life := Life(c.statusLog, e.origin.row);
      e.origin.row < n && if e.origin.Inline? then life != [] && life[0] == Executed else |life| == 3
  }

  /** Both runs are runs of one row, inline or confirmed. */
  predicate SameRow(a: Origin, b: Origin) {
    a != InHarness && b != InHarness && a.row == b.row
  }

  /** No row is executed twice. */
  ghost predicate RunsOnce(executions: seq<Execution>) {
    forall i, j :: 0 <= i < j < |executions| ==> !SameRow(executions[i].origin, executions[j].origin)
  }

  // ----- How the books change --------------------------------------------------

  /** The runs stay in order when lives only grow and the one new run is new. */
  lemma RunsStayOk(c: Calls, c': Calls, n: Id, n': Id, runs: seq<Execution>)
    requires Books(c, n) && n <= n' && c'.executions == c.executions + runs
    requires forall k :: 0 <= k < |c.executions| && c.executions[k].origin != InHarness ==>
      Life(c'.statusLog, c.executions[k].origin.row) == Life(c.statusLog, c.executions[k].origin.row)
    requires runs == [] || (|runs| == 1 && RunOk(c', runs[0], n')
                            && forall k :: 0 <= k < |c.executions| ==> !SameRow(c.executions[k].origin, runs[0].origin))
    ensures forall k :: 0 <= k < |c'.executions| ==> RunOk(c', c'.executions[k], n')
    ensures RunsOnce(c'.executions)
  {
    forall k | 0 <= k < |c'.executions| ensures RunOk(c', c'.executions[k], n') {
      if k < |c.executions| { assert RunOk(c, c.executions[k], n); }
    }
  }

  /** Writes to a row that never ran leave the lives of all runs alone. */
  lemma OldRunsStay(c: Calls, c': Calls, n: Id, r0: Id, s: Status, t: Option<Status>)
    requires Books(c, n) && (r0 == n || Life(c.statusLog, r0) == [Pending])
    requires c'.statusLog == c.statusLog + Writes(r0, s, t)
    ensures forall k :: 0 <= k < |c.executions| ==>
              && !SameRow(c.executions[k].origin, Inline(r0))
              && (c.executions[k].origin != InHarness ==>
                    Life(c'.statusLog, c.executions[k].origin.row) == Life(c.statusLog, c.executions[k].origin.row))
  {
    forall k | 0 <= k < |c.executions|
      ensures !SameRow(c.executions[k].origin, Inline(r0))
      ensures c.executions[k].origin != InHarness ==>
                Life(c'.statusLog, c.executions[k].origin.row) == Life(c.statusLog, c.executions[k].origin.row)
    {
      assert RunOk(c, c.executions[k], n);
      if c.executions[k].origin != InHarness { LifeAfter(c.statusLog, r0, s, t, c.executions[k].origin.row); }
    }
  }

  /** A row n is born with the given statuses, perhaps run on the spot. */
  lemma BirthKeepsBooks(c: Calls, c': Calls, n: Id, n': Id, s: Status, t: Option<Status>, runs: seq<Execution>)
    requires Books(c, n) && n < n'
    requires c'.statusLog == c.statusLog + Writes(n, s, t) && c'.executions == c.executions + runs
    requires n in c'.rows && c'.rows == c.rows[n := c'.rows[n]]
    requires var life := Statuses(s, t);
             Story(life) && c'.rows[n].status == life[|life| - 1] && (c'.rows[n].confirm <==> s == Pending)
    requires runs == [] || (s == Executed && |runs| == 1 && runs[0].origin == Inline(n))
    ensures Books(c', n')
  {
    BirthKeepsRows(c, c', n, n', s, t);
    OldRunsStay(c, c', n, n, s, t);
    LifeAfter(c.statusLog, n, s, t, n);
    if runs != [] { assert RunOk(c', runs[0], n'); }
    RunsStayOk(c, c', n, n', runs);
  }

  lemma BirthKeepsRows(c: Calls, c': Calls, n: Id, n': Id, s: Status, t: Option<Status>)
    requires Books(c, n) && n < n'
    requires c'.statusLog == c.statusLog + Writes(n, s, t)
    requires n in c'.rows && c'.rows == c.rows[n := c'.rows[n]]
    requires var life := Statuses(s, t);
             Story(life) && c'.rows[n].status == life[|life| - 1] && (c'.rows[n].confirm <==> s == Pending)
    ensures forall r: Id :: RowOk(c', r) && (r >= n' ==> r !in c'.rows && Life(c'.statusLog, r) == [])
  {
    forall r: Id ensures RowOk(c', r) && (r >= n' ==> r !in c'.rows && Life(c'.statusLog, r) == []) {
      LifeAfter(c.statusLog, n, s, t, r);
      assert RowOk(c, r);
    }
  }

  /** A pending row r0 is decided: one write, or an approval with its outcome. */
  lemma DecisionKeepsBooks(c: Calls, c': Calls, n: Id, r0: Id, s: Status, t: Option<Status>, runs: seq<Execution>)
    requires Books(c, n) && r0 in c.rows && c.rows[r0].status == Pending
    requires c'.statusLog == c.statusLog + Writes(r0, s, t) && c'.executions == c.executions + runs
    requires r0 in c'.rows && c'.rows == c.rows[r0 := c'.rows[r0]] && c'.rows[r0].confirm == c.rows[r0].confirm
    requires if t.Some? then s == Approved && t.value in {Executed, Failed} && c'.rows[r0].status == t.value
             else s == Rejected && c'.rows[r0].status == s
    requires runs == [] || (t.Some? && |runs| == 1 && runs[0].origin == Confirmed(r0))
    ensures Books(c', n)
  {
    assert RowOk(c, r0) && Life(c.statusLog, r0) == [Pending];
    DecisionKeepsRows(c, c', n, r0, s, t);
    OldRunsStay(c, c', n, r0, s, t);
    LifeAfter(c.statusLog, r0, s, t, r0);
    RunsStayOk(c, c', n, n, runs);
  }

  lemma DecisionKeepsRows(c: Calls, c': Calls, n: Id, r0: Id, s: Status, t: Option<Status>)
    requires Books(c, n) && r0 in c.rows && Life(c.statusLog, r0) == [Pending]
    requires c'.statusLog == c.statusLog + Writes(r0, s, t)
    requires r0 in c'.rows && c'.rows == c.rows[r0 := c'.rows[r0]] && c'.rows[r0].confirm == c.rows[r0].confirm
    requires if t.Some? then s == Approved && t.value in {Executed, Failed} && c'.rows[r0].status == t.value
             else s == Rejected && c'.rows[r0].status == s
    ensures forall r: Id :: RowOk(c', r) && (r >= n ==> r !in c'.rows && Life(c'.statusLog, r) == [])
  {
    assert RowOk(c, r0);
    forall r: Id ensures RowOk(c', r) && (r >= n ==> r !in c'.rows && Life(c'.statusLog, r) == []) {
      LifeAfter(c.statusLog, r0, s, t, r);
      if r == r0 {
        DecidedRowIsOk(c', r0, s, t);
      } else {
        OtherRowIsOk(c, c', r);
      }
    }
  }

  lemma DecidedRowIsOk(c: Calls, r: Id, s: Status, t: Option<Status>)
    requires r in c.rows && Life(c.statusLog, r) == [Pending] + Statuses(s, t) && c.rows[r].confirm
    requires if t.Some? then s == Approved && t.value in {Executed, Failed} && c.rows[r].status == t.value
             else s == Rejected && c.rows[r].status == s
    ensures RowOk(c, r)
  {
  }

  lemma OtherRowIsOk(c: Calls, c': Calls, r: Id)
    requires RowOk(c, r) && Life(c'.statusLog, r) == Life(c.statusLog, r)
    requires (r in c'.rows <==> r in c.rows) && (r in c.rows ==> c'.rows[r] == c.rows[r])
    ensures RowOk(c', r)
  {
  }

  lemma HarnessKeepsBooks(c: Calls, c': Calls, n: Id, n': Id, runs: seq<Execution>)
    requires Books(c, n) && n <= n' && c' == c.(executions := c.executions + runs)
    requires forall k :: 0 <= k < |runs| ==> runs[k].origin == InHarness
    ensures Books(c', n')
  {
    forall r: Id ensures RowOk(c', r) && (r >= n' ==> r !in c'.rows && Life(c'.statusLog, r) == []) {
      assert RowOk(c, r);
    }
    forall k | 0 <= k < |c'.executions| ensures RunOk(c', c'.executions[k], n') {
      if k < |c.executions| { assert RunOk(c, c.executions[k], n); }
    }
  }

  lemma FewerRowsKeepBooks(c: Calls, c': Calls, n: Id, n': Id)
    requires Books(c, n) && n <= n'
    requires c' == c.(rows := c'.rows)
    requires forall r :: r in c'.rows ==> r in c.rows && c'.rows[r] == c.rows[r]
    ensures Books(c', n')
  {
    forall r: Id ensures RowOk(c', r) && (r >= n' ==> r !in c'.rows && Life(c'.statusLog, r) == []) {
      assert RowOk(c, r);
    }
    forall k | 0 <= k < |c'.executions| ensures RunOk(c', c'.executions[k], n') {
      assert RunOk(c, c.executions[k], n);
    }
  }

  // ----- The steps ---------------------------------------------------------------

  ghost predicate Kept(w: World) {
    Books(w.calls, w.nextId)
  }

  lemma HandleRanKeeps(env: Env, w: World, user: Id, message: Id, tool: string, args: string, result: string)
    requires StatusWritesSucceed(env) && Kept(w)
    ensures Kept(HandleRan(env, w, user, message, tool, args, result).0)
  {
    var (w1, row) := AddToolCall(env, w, user, message, tool, args, false, Executed);
    if row.Some? {
      var w2 := SetResult(env, w1, user, row.value, result, Executed);
      assert w2.calls.statusLog == w.calls.statusLog + Writes(w.nextId, Executed, Some(Executed));
      assert w2.calls.rows == w.calls.rows[w.nextId := w2.calls.rows[w.nextId]];
      assert w2.calls.executions == w.calls.executions + [];
      BirthKeepsBooks(w.calls, w2.calls, w.nextId, w2.nextId, Executed, Some(Executed), []);
    }
  }

  lemma HandleParkedKeeps(env: Env, w: World, user: Id, message: Id, tool: string, args: string)
    requires Kept(w)
    ensures Kept(HandleParked(env, w, user, message, tool, args).0)
  {
    var (w1, row) := AddToolCall(env, w, user, message, tool, args, true, Pending);
    if row.Some? {
      assert w1.calls.executions == w.calls.executions + [];
      BirthKeepsBooks(w.calls, w1.calls, w.nextId, w1.nextId, Pending, None, []);
    }
  }

  /** A read-only call handled in the service, up to its result. */
  function InlineRun(env: Env, cfg: Config, w: World, user: Id, message: Id, tool: string, args: string)
    : (World, ToolOutcome) {
    var w1 := AddToolCall(env, w, user, message, tool, args, false, Executed).0;
    var (w2, o) := ExecTool(env, cfg, w1, user, tool, args, Inline(w.nextId));
    (SetResult(env, w2, user, w.nextId, Recorded(o), if o.Returned? then Executed else Failed), o)
  }

  lemma InlineInSteps(env: Env, cfg: Config, w: World, user: Id, message: Id, tool: string, args: string)
    returns (runs: seq<Execution>)
    requires StatusWritesSucceed(env) && !env.createFails(w.tick)
    ensures var (w', o) := InlineRun(env, cfg, w, user, message, tool, args);
            var s := if o.Returned? then Executed else Failed;
            && w.nextId < w'.nextId
            && w'.calls.statusLog == w.calls.statusLog + Writes(w.nextId, Executed, Some(s))
            && w'.calls.executions == w.calls.executions + runs
            && w.nextId in w'.calls.rows && w'.calls.rows == w.calls.rows[w.nextId := w'.calls.rows[w.nextId]]
            && w'.calls.rows[w.nextId].status == s && !w'.calls.rows[w.nextId].confirm
    ensures runs == [] || (|runs| == 1 && runs[0].origin == Inline(w.nextId))
  {
    var w' := InlineRun(env, cfg, w, user, message, tool, args).0;
    runs := w'.calls.executions[|w.calls.executions|..];
    assert w'.calls.executions == w.calls.executions + runs;
    assert w'.calls.rows == w.calls.rows[w.nextId := w'.calls.rows[w.nextId]];
  }

  lemma HandleInlineKeeps(env: Env, cfg: Config, w: World, user: Id, message: Id, tool: string, args: string)
    requires StatusWritesSucceed(env) && Kept(w)
    ensures Kept(HandleInline(env, cfg, w, user, message, tool, args).0)
  {
    if !env.createFails(w.tick) {
      var runs := InlineInSteps(env, cfg, w, user, message, tool, args);
      var (w', o) := InlineRun(env, cfg, w, user, message, tool, args);
      var s := if o.Returned? then Executed else Failed;
      BirthKeepsBooks(w.calls, w'.calls, w.nextId, w'.nextId, Executed, Some(s), runs);
    }
  }

  lemma HandleKeeps(env: Env, cfg: Config, w: World, user: Id, message: Id, p: Policy, ev: Event)
    requires StatusWritesSucceed(env) && Kept(w) && ev.ToolCall?
    ensures Kept(Handle(env, cfg, w, user, message, p, ev).0)
  {
    HandleRanKeeps(env, w, user, message, ev.tool, ev.args, ev.result);
    HandleParkedKeeps(env, w, user, message, ev.tool, ev.args);
    HandleInlineKeeps(env, cfg, w, user, message, ev.tool, ev.args);
  }

  lemma {:induction false} ConsumeKeeps(
    env: Env, cfg: Config, w: World, turn: TurnInfo, content: string, events: seq<Event>)
    requires StatusWritesSucceed(env) && Kept(w)
    ensures Kept(Consume(env, cfg, w, turn, content, events).w)
    decreases |events|
  {
    if events != [] {
      match events[0]
      case Text(text) =>
        ConsumeKeeps(env, cfg, Emit(env, w, events[0]).0, turn, content + text, events[1..]);
      case ToolCall(_, _, _, _) =>
        HandleKeeps(env, cfg, w, turn.user, turn.message, turn.policy, events[0]);
        ConsumeKeeps(env, cfg, Handle(env, cfg, w, turn.user, turn.message, turn.policy, events[0]).0,
                    turn, content, events[1..]);
      case ToolResult(_, _, _) =>
        ConsumeKeeps(env, cfg, w, turn, content, events[1..]);
      case _ =>
    }
  }

  lemma SameCallsKeep(w: World, w': World)
    requires Kept(w) && w'.calls == w.calls && w.nextId <= w'.nextId
    ensures Kept(w')
  {
    FewerRowsKeepBooks(w.calls, w'.calls, w.nextId, w'.nextId);
  }

  lemma DeliverKeeps(env: Env, cfg: Config, w: World, turn: TurnInfo, req: Harness.Request)
    requires StatusWritesSucceed(env) && Kept(w)
    ensures Kept(Deliver(env, cfg, w, turn, req).0)
  {
    var body, tail := Harness.RunIsSound(env, cfg, turn.user, w, req);
    RanIsSafe(cfg, turn.user, body);
    var (w1, events) := Harness.Run(env, cfg, turn.user, w, req);
    HarnessKeepsBooks(w.calls, w1.calls, w.nextId, w1.nextId, Harness.Ran(cfg, turn.user, body));
    ConsumeKeeps(env, cfg, w1, turn, "", events);
  }

  lemma AnswerKeeps(
    env: Env, cfg: Config, w: World, user: Id, conversation: Id, text: string, p: Policy, provider: Harness.Resolved)
    requires StatusWritesSucceed(env) && Kept(w)
    ensures Kept(AnswerTurn(env, cfg, w, user, conversation, text, p, provider).0)
  {
    var (w1, audit) := Audit(env, w, user, MessageSend);
    var w2 := Tick(w1);
    var (w3, reply) := AddMessage(env, w2, user, conversation, AssistantRole, "");
    OpeningIsSafe(env, cfg, w, user, conversation);
    SameCallsKeep(w, w1);
    SameCallsKeep(w, w3);
    if !env.readFails(w1.tick) && reply.Some? {
      DeliverKeeps(env, cfg, w3, TurnInfo(user, conversation, reply.value, p, provider),
                   Harness.Request(History(w2.store.messages, conversation), text, provider, Tools(cfg, p)));
    }
  }

  lemma SendKeeps(env: Env, cfg: Config, w: World, user: Id, conversation: Id, text: string)
    requires StatusWritesSucceed(env) && Kept(w)
    ensures Kept(StreamMessage(env, cfg, w, user, conversation, text).0)
  {
    var (w1, p) := Admit(env, cfg, w, user, conversation, text);
    AdmitOnlyTicks(env, cfg, w, user, conversation, text);
    if p.Ok? {
      var (w2, prompt) := AddMessage(env, w1, user, conversation, UserRole, text);
      SameCallsKeep(w, w2);
      if prompt.Some? { RespondKeeps(env, cfg, w2, user, conversation, text, p.value); }
    }
  }

  lemma RespondKeeps(env: Env, cfg: Config, w: World, user: Id, conversation: Id, text: string, p: Policy)
    requires StatusWritesSucceed(env) && Kept(w)
    ensures Kept(Respond(env, cfg, w, user, conversation, text, p).0)
  {
    var (w1, provider) := ResolveProvider(env, cfg, w, user, p);
    if provider.Ok? {
      var w2 := CheckSpend(env, cfg, w1, provider.value, p).0;
      AnswerKeeps(env, cfg, w2, user, conversation, text, p, provider.value);
    }
  }

  /** The calls a confirmation leaves, in closed form. */
  function Decided(env: Env, cfg: Config, w: World, user: Id, r: Id, approved: bool): Calls
    requires r in w.calls.rows
  {
    var row := w.calls.rows[r];
    if !approved then
      w.calls.(rows := w.calls.rows[r := row.(status := Rejected)],
              statusLog := w.calls.statusLog + [StatusWrite(r, Rejected)])
    else
      var o := if cfg.serviceHasTools then env.runs(w.tick + 2) else Raised(TOOL_NOT_FOUND);
      var s := if o.Returned? then Executed else Failed;
      Calls(w.calls.rows[r := row.(status := s, result := Recorded(o))],
            w.calls.statusLog + [StatusWrite(r, Approved), StatusWrite(r, s)],
            w.calls.executions
            + if cfg.serviceHasTools then [Execution(row.tool, row.args, user, Confirmed(r), Recorded(o))] else [])
  }

  lemma ApprovalInSteps(env: Env, cfg: Config, w: World, user: Id, r: Id)
    requires StatusWritesSucceed(env) && Owned(w, user, r)
    ensures Approve(env, cfg, Tick(w), user, r, w.calls.rows[r]).0.calls == Decided(env, cfg, w, user, r, true)
    ensures w.nextId <= Approve(env, cfg, Tick(w), user, r, w.calls.rows[r]).0.nextId
  {
    var w4 := Approve(env, cfg, Tick(w), user, r, w.calls.rows[r]).0;
    assert w4.calls.rows == Decided(env, cfg, w, user, r, true).rows;
    assert w4.calls.statusLog == Decided(env, cfg, w, user, r, true).statusLog;
    assert w4.calls.executions == Decided(env, cfg, w, user, r, true).executions;
  }

  /** A confirmation either changes no call or decides one pending row. */
  lemma ConfirmDecides(env: Env, cfg: Config, w: World, user: Id, r: Id, approved: bool)
    requires StatusWritesSucceed(env)
    ensures var w' := Confirm(env, cfg, w, user, r, approved).0;
            && w.nextId <= w'.nextId
            && if cfg.enabled && !env.readFails(w.tick) && Owned(w, user, r) && w.calls.rows[r].status == Pending
               then w'.calls == Decided(env, cfg, w, user, r, approved) else w'.calls == w.calls
  {
    if Owned(w, user, r) {
      ApprovalInSteps(env, cfg, w, user, r);
    }
  }

  lemma ConfirmKeeps(env: Env, cfg: Config, w: World, user: Id, r: Id, approved: bool)
    requires StatusWritesSucceed(env) && Kept(w)
    ensures Kept(Confirm(env, cfg, w, user, r, approved).0)
  {
    ConfirmDecides(env, cfg, w, user, r, approved);
    var w' := Confirm(env, cfg, w, user, r, approved).0;
    if cfg.enabled && !env.readFails(w.tick) && Owned(w, user, r) && w.calls.rows[r].status == Pending {
      var d := Decided(env, cfg, w, user, r, approved);
      if approved {
        DecisionKeepsBooks(w.calls, d, w.nextId, r, Approved, Some(d.rows[r].status),
                           d.executions[|w.calls.executions|..]);
      } else {
        assert d.executions == w.calls.executions + [];
        DecisionKeepsBooks(w.calls, d, w.nextId, r, Rejected, None, []);
      }
      FewerRowsKeepBooks(d, w'.calls, w.nextId, w'.nextId);
    } else {
      SameCallsKeep(w, w');
    }
  }

  lemma StepKeeps(env: Env, cfg: Config, w: World, step: Step)
    requires StatusWritesSucceed(env) && Kept(w)
    ensures Kept(Apply(env, cfg, w, step))
  {
    match step
    case Send(user, conversation, text) => SendKeeps(env, cfg, w, user, conversation, text);
    case Decide(user, row, approved) => ConfirmKeeps(env, cfg, w, user, row, approved);
    case Remove(user, conversation) => RemoveKeeps(env, cfg, w, user, conversation);
    case _ =>
      OtherStepsTouchNoCall(env, cfg, w, step);
      SameCallsKeep(w, Apply(env, cfg, w, step));
  }

  lemma RemoveKeeps(env: Env, cfg: Config, w: World, user: Id, conversation: Id)
    requires Kept(w)
    ensures Kept(DeleteConversation(env, cfg, w, user, conversation).0)
  {
    var after := DeleteConversation(env, cfg, w, user, conversation).0;
    FewerRowsKeepBooks(w.calls, after.calls, w.nextId, after.nextId);
  }

  lemma {:induction false} RunKeeps(env: Env, cfg: Config, steps: seq<Step>)
    requires StatusWritesSucceed(env)
    ensures Kept(Run(env, cfg, steps))
  {
    if steps == [] {
      forall r: Id ensures RowOk(GENESIS.calls, r) {}
    } else {
      RunKeeps(env, cfg, steps[..|steps| - 1]);
      StepKeeps(env, cfg, Run(env, cfg, steps[..|steps| - 1]), steps[|steps| - 1]);
    }
  }

  // ----- The results -------------------------------------------------------------

  /** In every run, each row's statuses follow one of the six stories, its current
      status is the last one written, and it asks for confirmation exactly when it
      started out pending. */
  lemma RowsFollowTheirStories(env: Env, cfg: Config, steps: seq<Step>, r: Id)
    requires StatusWritesSucceed(env) && r in Run(env, cfg, steps).calls.rows
    ensures var c := Run(env, cfg, steps).calls;
            var life := Life(c.statusLog, r);
            && Story(life)
            && c.rows[r].status == life[|life| - 1]
            && (c.rows[r].confirm <==> life[0] == Pending)
  {
    RunKeeps(env, cfg, steps);
    assert RowOk(Run(env, cfg, steps).calls, r);
  }

  /** In every run, no row is executed twice, inline or by confirmation. */
  lemma NoRowRunsTwice(env: Env, cfg: Config, steps: seq<Step>)
    requires StatusWritesSucceed(env)
    ensures RunsOnce(Run(env, cfg, steps).calls.executions)
  {
    RunKeeps(env, cfg, steps);
  }
}
