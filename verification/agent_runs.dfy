/** Runs: any sequence of turns, confirmations, deletions and policy changes,
    starting from the empty tables, against any outside. */
module AgentRuns {
  import opened AgentTypes
  import opened AgentWorld
  import opened AgentService
  import Harness = LlmHarness

  datatype Step =
    | Send(user: Id, conversation: Id, text: string)
    | Decide(user: Id, row: Id, approved: bool)
    | Open(user: Id)
    | Archive(user: Id, conversation: Id, archived: bool)
    | Remove(user: Id, conversation: Id)
    | SetPolicy(policy: Policy)
    | SetProviders(providers: seq<ProviderConfig>)
    | Wait(nanoseconds: nat)

  ghost function Apply(env: Env, cfg: Config, w: World, step: Step): World {
    match step
    case Send(user, conversation, text) => StreamMessage(env, cfg, w, user, conversation, text).0
    case Decide(user, row, approved) => Confirm(env, cfg, w, user, row, approved).0
    case Open(user) => CreateConversation(env, cfg, w, user).0
    case Archive(user, conversation, archived) => SetArchived(env, cfg, w, user, conversation, archived).0
    case Remove(user, conversation) => DeleteConversation(env, cfg, w, user, conversation).0
    case SetPolicy(policy) => UpsertPolicy(env, cfg, w, policy).0
    case SetProviders(providers) => w.(store := w.store.(providers := providers))
    case Wait(nanoseconds) => w.(clock := w.clock + nanoseconds)
  }

  ghost function Run(env: Env, cfg: Config, steps: seq<Step>): World {
    if steps == [] then GENESIS else Apply(env, cfg, Run(env, cfg, steps[..|steps| - 1]), steps[|steps| - 1])
  }

  // ----- What a turn may do to rows and to the executor's log ------------------

  /** A turn by user leaves old rows and log entries alone, and runs nothing
      destructive. */
  ghost predicate TurnSafe(cfg: Config, user: Id, w: World, w': World) {
    w.nextId <= w'.nextId && CallsSafe(cfg, user, w.calls, w'.calls, w.nextId, w'.nextId)
  }

  ghost predicate CallsSafe(cfg: Config, user: Id, c: Calls, c': Calls, lo: Id, hi: Id) {
    && c.executions <= c'.executions
    && (forall k :: |c.executions| <= k < |c'.executions| ==>
          && !cfg.destructive(c'.executions[k].tool) && c'.executions[k].actor == user
          && !c'.executions[k].origin.Confirmed?)
    && (forall r :: r in c.rows && r < lo ==> r in c'.rows && c'.rows[r] == c.rows[r])
    && (forall r :: r in c'.rows && r !in c.rows ==> lo <= r < hi)
  }

  lemma TurnSafeTrans(cfg: Config, user: Id, a: World, b: World, c: World)
    requires TurnSafe(cfg, user, a, b) && TurnSafe(cfg, user, b, c)
    ensures TurnSafe(cfg, user, a, c)
  {
    forall k | |a.calls.executions| <= k < |c.calls.executions|
      ensures !cfg.destructive(c.calls.executions[k].tool)
           && c.calls.executions[k].actor == user && !c.calls.executions[k].origin.Confirmed?
    {
      if k < |b.calls.executions| { assert c.calls.executions[k] == b.calls.executions[k]; }
    }
  }

  lemma HandleRanIsSafe(
    env: Env, cfg: Config, w: World, user: Id, message: Id, tool: string, args: string, result: string)
    ensures TurnSafe(cfg, user, w, HandleRan(env, w, user, message, tool, args, result).0)
  {
  }

  lemma HandleParkedIsSafe(env: Env, cfg: Config, w: World, user: Id, message: Id, tool: string, args: string)
    ensures TurnSafe(cfg, user, w, HandleParked(env, w, user, message, tool, args).0)
  {
  }

  lemma HandleInlineIsSafe(env: Env, cfg: Config, w: World, user: Id, message: Id, tool: string, args: string)
    requires !Parks(cfg, tool)
    ensures TurnSafe(cfg, user, w, HandleInline(env, cfg, w, user, message, tool, args).0)
  {
  }

  lemma HandleIsSafe(env: Env, cfg: Config, w: World, user: Id, message: Id, p: Policy, ev: Event)
    requires ev.ToolCall?
    ensures TurnSafe(cfg, user, w, Handle(env, cfg, w, user, message, p, ev).0)
  {
    if ev.result != "" {
      HandleRanIsSafe(env, cfg, w, user, message, ev.tool, ev.args, ev.result);
    } else if Parks(cfg, ev.tool) {
      HandleParkedIsSafe(env, cfg, w, user, message, ev.tool, ev.args);
    } else {
      HandleInlineIsSafe(env, cfg, w, user, message, ev.tool, ev.args);
    }
  }

  lemma {:induction false} ConsumeIsSafe(
    env: Env, cfg: Config, w: World, turn: TurnInfo, content: string, events: seq<Event>)
    ensures TurnSafe(cfg, turn.user, w, Consume(env, cfg, w, turn, content, events).w)
    decreases |events|
  {
    if events != [] {
      match events[0]
      case Text(text) =>
        ConsumeIsSafe(env, cfg, Emit(env, w, events[0]).0, turn, content + text, events[1..]);
      case ToolCall(_, _, _, _) =>
        var w1 := Handle(env, cfg, w, turn.user, turn.message, turn.policy, events[0]).0;
        HandleIsSafe(env, cfg, w, turn.user, turn.message, turn.policy, events[0]);
        ConsumeIsSafe(env, cfg, w1, turn, content, events[1..]);
        TurnSafeTrans(cfg, turn.user, w, w1, Consume(env, cfg, w1, turn, content, events[1..]).w);
      case ToolResult(_, _, _) =>
        ConsumeIsSafe(env, cfg, w, turn, content, events[1..]);
      case _ =>
    }
  }

  lemma {:induction false} RanIsSafe(cfg: Config, user: Id, events: seq<Event>)
    ensures forall k :: 0 <= k < |Harness.Ran(cfg, user, events)| ==>
              var e := Harness.Ran(cfg, user, events)[k];
              !cfg.destructive(e.tool) && e.actor == user && e.origin == InHarness
  {
    if events != [] {
      RanIsSafe(cfg, user, events[..|events| - 1]);
    }
  }

  lemma HarnessIsSafe(env: Env, cfg: Config, user: Id, w: World, req: Harness.Request)
    ensures TurnSafe(cfg, user, w, Harness.Run(env, cfg, user, w, req).0)
  {
    var body, tail := Harness.RunIsSound(env, cfg, user, w, req);
    RanIsSafe(cfg, user, body);
  }

  lemma DeliverIsSafe(env: Env, cfg: Config, w: World, turn: TurnInfo, req: Harness.Request)
    ensures TurnSafe(cfg, turn.user, w, Deliver(env, cfg, w, turn, req).0)
  {
    var (w1, events) := Harness.Run(env, cfg, turn.user, w, req);
    HarnessIsSafe(env, cfg, turn.user, w, req);
    ConsumeIsSafe(env, cfg, w1, turn, "", events);
    TurnSafeTrans(cfg, turn.user, w, w1, Consume(env, cfg, w1, turn, "", events).w);
  }

  lemma OpeningIsSafe(env: Env, cfg: Config, w: World, user: Id, conversation: Id)
    ensures var w1 := Audit(env, w, user, MessageSend).0;
            var w2 := AddMessage(env, Tick(w1), user, conversation, AssistantRole, "").0;
            w1.calls == w.calls && w2.calls == w.calls && w.nextId <= w1.nextId <= w2.nextId
  {
  }

  lemma AnswerIsSafe(
    env: Env, cfg: Config, w: World, user: Id, conversation: Id, text: string, p: Policy, provider: Harness.Resolved)
    ensures TurnSafe(cfg, user, w, AnswerTurn(env, cfg, w, user, conversation, text, p, provider).0)
  {
    var (w1, audit) := Audit(env, w, user, MessageSend);
    var w2 := Tick(w1);
    var (w3, reply) := AddMessage(env, w2, user, conversation, AssistantRole, "");
    OpeningIsSafe(env, cfg, w, user, conversation);
    if !env.readFails(w1.tick) && reply.Some? {
      var req := Harness.Request(History(w2.store.messages, conversation), text, provider, Tools(cfg, p));
      var turn := TurnInfo(user, conversation, reply.value, p, provider);
      DeliverAndMarkIsSafe(env, cfg, w3, turn, req, audit);
      var (w4, ok) := Deliver(env, cfg, w3, turn, req);
      TurnSafeTrans(cfg, user, w, w3, MarkOutcome(env, w4, audit, ok));
    }
  }

  lemma DeliverAndMarkIsSafe(env: Env, cfg: Config, w: World, turn: TurnInfo, req: Harness.Request, audit: Id)
    ensures var (w', ok) := Deliver(env, cfg, w, turn, req);
            TurnSafe(cfg, turn.user, w, MarkOutcome(env, w', audit, ok))
  {
    DeliverIsSafe(env, cfg, w, turn, req);
  }

  lemma AdmitOnlyTicks(env: Env, cfg: Config, w: World, user: Id, conversation: Id, text: string)
    ensures var w1 := Admit(env, cfg, w, user, conversation, text).0; w1 == w.(tick := w1.tick) && w.tick <= w1.tick
  {
  }

  /** What an answered turn leaves as messages: the reply stored or not, and delivered
      if stored. */
  lemma AnswerMessages(
    env: Env, cfg: Config, w: World, user: Id, conversation: Id, text: string, p: Policy, provider: Harness.Resolved)
    returns (before: World, turn: TurnInfo, req: Harness.Request)
    ensures before.store == w.store
    ensures var ms := AnswerTurn(env, cfg, w, user, conversation, text, p, provider).0.store.messages;
            var (w3, reply) := AddMessage(env, before, user, conversation, AssistantRole, "");
            ms in {w.store.messages, w3.store.messages, Deliver(env, cfg, w3, turn, req).0.store.messages}
  {
    var w1 := Audit(env, w, user, MessageSend).0;
    before := Tick(w1);
    var reply := AddMessage(env, before, user, conversation, AssistantRole, "").1;
    turn := TurnInfo(user, conversation, if reply.Some? then reply.value else NIL, p, provider);
    req := Harness.Request(History(before.store.messages, conversation), text, provider, Tools(cfg, p));
  }

  lemma SettlingOnlyTicks(env: Env, cfg: Config, w: World, user: Id, p: Policy)
    ensures var (w1, provider) := ResolveProvider(env, cfg, w, user, p);
            && w1 == w.(tick := w1.tick)
            && (provider.Ok? ==> var w2 := CheckSpend(env, cfg, w1, provider.value, p).0; w2 == w.(tick := w2.tick))
  {
  }

  lemma RespondIsSafe(env: Env, cfg: Config, w: World, user: Id, conversation: Id, text: string, p: Policy)
    ensures TurnSafe(cfg, user, w, Respond(env, cfg, w, user, conversation, text, p).0)
  {
    var (w1, provider) := ResolveProvider(env, cfg, w, user, p);
    if provider.Ok? {
      var w2 := CheckSpend(env, cfg, w1, provider.value, p).0;
      AnswerIsSafe(env, cfg, w2, user, conversation, text, p, provider.value);
      TurnSafeTrans(cfg, user, w, w2, AnswerTurn(env, cfg, w2, user, conversation, text, p, provider.value).0);
    }
  }

  lemma SendIsSafe(env: Env, cfg: Config, w: World, user: Id, conversation: Id, text: string)
    ensures TurnSafe(cfg, user, w, StreamMessage(env, cfg, w, user, conversation, text).0)
  {
    var (w1, p) := Admit(env, cfg, w, user, conversation, text);
    AdmitOnlyTicks(env, cfg, w, user, conversation, text);
    if p.Ok? {
      var (w2, prompt) := AddMessage(env, w1, user, conversation, UserRole, text);
      if prompt.Some? {
        RespondIsSafe(env, cfg, w2, user, conversation, text, p.value);
        TurnSafeTrans(cfg, user, w, w2, Respond(env, cfg, w2, user, conversation, text, p.value).0);
      }
    }
  }

  // ----- Human in the loop -----------------------------------------------------

  /** e is the run of a pending row of its own user, approved in this step. */
  ghost predicate Vetted(w: World, step: Step, e: Execution) {
    && step.Decide? && step.approved
    && Owned(w, step.user, step.row) && w.calls.rows[step.row].status == Pending
    && e == Execution(w.calls.rows[step.row].tool, w.calls.rows[step.row].args,
                      step.user, Confirmed(step.row), e.result)
  }

  /** log continues w's log, by vetted runs or runs of read-only tools. */
  ghost predicate OnlyVetted(cfg: Config, w: World, step: Step, log: seq<Execution>) {
    && w.calls.executions <= log
    && forall k :: |w.calls.executions| <= k < |log| && cfg.destructive(log[k].tool) ==> Vetted(w, step, log[k])
  }

  /** The user may approve the pending row, and every read works. */
  ghost predicate Approvable(env: Env, cfg: Config, w: World, user: Id, id: Id) {
    && cfg.enabled && cfg.serviceHasTools && !env.readFails(w.tick)
    && Owned(w, user, id) && w.calls.rows[id].status == Pending
  }

  /** The execution of an approval. */
  function Approval(env: Env, w: World, user: Id, id: Id): Execution
    requires id in w.calls.rows
  {
    var row := w.calls.rows[id];
    Execution(row.tool, row.args, user, Confirmed(id), Recorded(env.runs(w.tick + 2)))
  }

  /** The log behind a confirmation: one run of the row's tool, or none. */
  lemma ConfirmLog(env: Env, cfg: Config, w: World, user: Id, id: Id, approved: bool)
    ensures Confirm(env, cfg, w, user, id, approved).0.calls.executions
         == if approved && Approvable(env, cfg, w, user, id)
            then w.calls.executions + [Approval(env, w, user, id)] else w.calls.executions
  {
    var (w1, row) := FindRow(env, w, user, id);
    if cfg.enabled && row.Ok? && row.value.status == Pending && approved {
      ReportTouchesNoCall(env, Approve(env, cfg, w1, user, id, row.value), user, id, row.value);
    }
  }

  lemma ReportTouchesNoCall(env: Env, done: (World, ToolOutcome), user: Id, id: Id, row: ToolCallRow)
    ensures var w := Report(env, done, user, id, row).0; w.calls == done.0.calls && done.0.nextId <= w.nextId
  {
  }

  lemma ApproveRunsOnce(env: Env, cfg: Config, w: World, user: Id, id: Id, row: ToolCallRow)
    returns (ran: seq<Execution>)
    ensures Approve(env, cfg, w, user, id, row).0.calls.executions == w.calls.executions + ran
    ensures |ran| <= 1 && forall k :: 0 <= k < |ran| ==>
      ran[k] == Execution(row.tool, row.args, user, Confirmed(id), ran[k].result)
  {
    ran := Approve(env, cfg, w, user, id, row).0.calls.executions[|w.calls.executions|..];
  }

  lemma ConfirmRunsOnlyVetted(env: Env, cfg: Config, w: World, step: Step)
    requires step.Decide?
    ensures OnlyVetted(cfg, w, step, Confirm(env, cfg, w, step.user, step.row, step.approved).0.calls.executions)
  {
    var (w1, row) := FindRow(env, w, step.user, step.row);
    if cfg.enabled && row.Ok? && row.value.status == Pending && step.approved {
      var ran := ApproveRunsOnce(env, cfg, w1, step.user, step.row, row.value);
    }
  }

  lemma SendRunsOnlyVetted(env: Env, cfg: Config, w: World, step: Step)
    requires step.Send?
    ensures OnlyVetted(cfg, w, step,
                       StreamMessage(env, cfg, w, step.user, step.conversation, step.text).0.calls.executions)
  {
    SendIsSafe(env, cfg, w, step.user, step.conversation, step.text);
  }

  lemma OtherStepsRunNothing(env: Env, cfg: Config, w: World, step: Step)
    requires !step.Decide? && !step.Send?
    ensures Apply(env, cfg, w, step).calls.executions == w.calls.executions
  {
  }

  /** Whatever a step runs, it runs for its user. */
  lemma StepRunsForUser(env: Env, cfg: Config, w: World, step: Step, k: nat)
    requires |w.calls.executions| <= k < |Apply(env, cfg, w, step).calls.executions|
    ensures step.Send? || step.Decide?
    ensures Apply(env, cfg, w, step).calls.executions[k].actor == step.user
  {
    if step.Send? {
      SendIsSafe(env, cfg, w, step.user, step.conversation, step.text);
    } else if step.Decide? {
      ConfirmLog(env, cfg, w, step.user, step.row, step.approved);
    } else {
      OtherStepsRunNothing(env, cfg, w, step);
    }
  }

  lemma StepRunsOnlyVetted(env: Env, cfg: Config, w: World, step: Step)
    ensures OnlyVetted(cfg, w, step, Apply(env, cfg, w, step).calls.executions)
  {
    if step.Send? {
      SendRunsOnlyVetted(env, cfg, w, step);
    } else if step.Decide? {
      ConfirmRunsOnlyVetted(env, cfg, w, step);
    } else {
      OtherStepsRunNothing(env, cfg, w, step);
    }
  }

  /** The step of a run that added execution k to the log. */
  lemma {:induction false} AddedInStep(env: Env, cfg: Config, steps: seq<Step>, k: nat) returns (i: nat)
    requires k < |Run(env, cfg, steps).calls.executions|
    ensures i < |steps|
    ensures var log := Apply(env, cfg, Run(env, cfg, steps[..i]), steps[i]).calls.executions;
            && |Run(env, cfg, steps[..i]).calls.executions| <= k < |log|
            && log[k] == Run(env, cfg, steps).calls.executions[k]
  {
    var init := steps[..|steps| - 1];
    var w := Run(env, cfg, init);
    StepRunsOnlyVetted(env, cfg, w, steps[|steps| - 1]);
    i := |steps| - 1;
    if k < |w.calls.executions| {
      i := AddedInStep(env, cfg, init, k);
      assert init[..i] == steps[..i];
    }
  }

  /** In every run, every execution of a destructive tool is the approved
      confirmation of a row that was pending and belonged to that user. */
  lemma DestructiveRunsAreVetted(env: Env, cfg: Config, steps: seq<Step>, k: nat)
    requires k < |Run(env, cfg, steps).calls.executions|
    requires cfg.destructive(Run(env, cfg, steps).calls.executions[k].tool)
    ensures exists i ::
              && 0 <= i < |steps|
              && Vetted(Run(env, cfg, steps[..i]), steps[i], Run(env, cfg, steps).calls.executions[k])
  {
    var i := AddedInStep(env, cfg, steps, k);
    StepRunsOnlyVetted(env, cfg, Run(env, cfg, steps[..i]), steps[i]);
  }

  // ----- Decided rows ------------------------------------------------------------

  ghost predicate FreshIds(w: World) {
    forall r :: r in w.calls.rows ==> r < w.nextId
  }

  ghost predicate KeepsDecided(w: World, w': World) {
    && FreshIds(w')
    && (forall r :: r in w.calls.rows && w.calls.rows[r].status != Pending && r in w'.calls.rows ==>
          w'.calls.rows[r] == w.calls.rows[r])
    && (forall r :: r < w.nextId && r !in w.calls.rows ==> r !in w'.calls.rows)
    && w.nextId <= w'.nextId
  }

  lemma ConfirmOnlyItsRow(env: Env, cfg: Config, w: World, user: Id, r: Id, approved: bool)
    ensures var w' := Confirm(env, cfg, w, user, r, approved).0;
            && w.nextId <= w'.nextId && w'.calls.rows.Keys == w.calls.rows.Keys
            && (forall q: Id :: q in w.calls.rows && q != r ==> w'.calls.rows[q] == w.calls.rows[q])
            && (r in w.calls.rows && w.calls.rows[r].status != Pending ==> w'.calls.rows[r] == w.calls.rows[r])
  {
    var (w1, row) := FindRow(env, w, user, r);
    if cfg.enabled && row.Ok? && row.value.status == Pending && approved {
      ApproveOnlyItsRow(env, cfg, w1, user, r, row.value);
      ReportTouchesNoCall(env, Approve(env, cfg, w1, user, r, row.value), user, r, row.value);
    }
  }

  lemma ApproveOnlyItsRow(env: Env, cfg: Config, w: World, user: Id, r: Id, row: ToolCallRow)
    ensures var w' := Approve(env, cfg, w, user, r, row).0;
            && w.nextId <= w'.nextId && w'.calls.rows.Keys == w.calls.rows.Keys
            && (forall q: Id :: q in w.calls.rows && q != r ==> w'.calls.rows[q] == w.calls.rows[q])
  {
  }

  lemma ConfirmKeepsDecided(env: Env, cfg: Config, w: World, user: Id, r: Id, approved: bool)
    requires FreshIds(w)
    ensures KeepsDecided(w, Confirm(env, cfg, w, user, r, approved).0)
  {
    ConfirmOnlyItsRow(env, cfg, w, user, r, approved);
  }

  lemma RemoveKeepsDecided(env: Env, cfg: Config, w: World, user: Id, conversation: Id)
    requires FreshIds(w)
    ensures KeepsDecided(w, DeleteConversation(env, cfg, w, user, conversation).0)
  {
  }

  lemma SendKeepsDecided(env: Env, cfg: Config, w: World, user: Id, conversation: Id, text: string)
    requires FreshIds(w)
    ensures KeepsDecided(w, StreamMessage(env, cfg, w, user, conversation, text).0)
  {
    SendIsSafe(env, cfg, w, user, conversation, text);
  }

  lemma StepKeepsDecided(env: Env, cfg: Config, w: World, step: Step)
    requires FreshIds(w)
    ensures KeepsDecided(w, Apply(env, cfg, w, step))
  {
    match step
    case Send(user, conversation, text) => SendKeepsDecided(env, cfg, w, user, conversation, text);
    case Decide(user, row, approved) => ConfirmKeepsDecided(env, cfg, w, user, row, approved);
    case Remove(user, conversation) => RemoveKeepsDecided(env, cfg, w, user, conversation);
    case _ => OtherStepsTouchNoCall(env, cfg, w, step);
  }

  lemma OtherStepsTouchNoCall(env: Env, cfg: Config, w: World, step: Step)
    requires !step.Send? && !step.Decide? && !step.Remove?
    ensures var w' := Apply(env, cfg, w, step); w'.calls == w.calls && w.nextId <= w'.nextId
  {
  }

  lemma {:induction false} RunHasFreshIds(env: Env, cfg: Config, steps: seq<Step>)
    ensures FreshIds(Run(env, cfg, steps))
  {
    if steps != [] {
      RunHasFreshIds(env, cfg, steps[..|steps| - 1]);
      StepKeepsDecided(env, cfg, Run(env, cfg, steps[..|steps| - 1]), steps[|steps| - 1]);
    }
  }

  /** A decided row keeps its content through every continuation of the run, until
      it is deleted with its conversation. */
  lemma {:induction false} DecidedRowsAreFinal(env: Env, cfg: Config, before: seq<Step>, after: seq<Step>, r: Id)
    requires r in Run(env, cfg, before).calls.rows && Run(env, cfg, before).calls.rows[r].status != Pending
    ensures var w, w' := Run(env, cfg, before), Run(env, cfg, before + after);
            && w.nextId <= w'.nextId && (r in w'.calls.rows ==> w'.calls.rows[r] == w.calls.rows[r])
  {
    if after == [] {
      assert before + after == before;
    } else {
      var all, init := before + after, after[..|after| - 1];
      assert all[..|all| - 1] == before + init;
      DecidedRowsAreFinal(env, cfg, before, init, r);
      RunHasFreshIds(env, cfg, before);
      OneMoreKeepsDecided(env, cfg, all);
      DecidedStays(Run(env, cfg, before), Run(env, cfg, before + init), Run(env, cfg, all), r);
    }
  }

  lemma DecidedStays(w: World, w1: World, w2: World, r: Id)
    requires r in w.calls.rows && w.calls.rows[r].status != Pending && r < w.nextId <= w1.nextId
    requires r in w1.calls.rows ==> w1.calls.rows[r] == w.calls.rows[r]
    requires KeepsDecided(w1, w2)
    ensures w.nextId <= w2.nextId && (r in w2.calls.rows ==> w2.calls.rows[r] == w.calls.rows[r])
  {
  }

  lemma OneMoreKeepsDecided(env: Env, cfg: Config, steps: seq<Step>)
    requires steps != []
    ensures KeepsDecided(Run(env, cfg, steps[..|steps| - 1]), Run(env, cfg, steps))
  {
    RunHasFreshIds(env, cfg, steps[..|steps| - 1]);
    StepKeepsDecided(env, cfg, Run(env, cfg, steps[..|steps| - 1]), steps[|steps| - 1]);
  }

  /** The id of a row that is gone is never given out again. */
  lemma {:induction false} DeletedRowsStayDeleted(env: Env, cfg: Config, before: seq<Step>, after: seq<Step>, r: Id)
    requires r < Run(env, cfg, before).nextId && r !in Run(env, cfg, before).calls.rows
    ensures Run(env, cfg, before).nextId <= Run(env, cfg, before + after).nextId
    ensures r !in Run(env, cfg, before + after).calls.rows
  {
    if after == [] {
      assert before + after == before;
    } else {
      var all, init := before + after, after[..|after| - 1];
      assert all[..|all| - 1] == before + init;
      DeletedRowsStayDeleted(env, cfg, before, init, r);
      OneMoreKeepsDecided(env, cfg, all);
    }
  }

  /** Confirming a row that is not pending reports so and changes nothing. */
  lemma DecidedRowsRefuseConfirm(env: Env, cfg: Config, w: World, user: Id, r: Id, approved: bool)
    requires cfg.enabled && Owned(w, user, r) && !env.readFails(w.tick)
    ensures Confirm(env, cfg, w, user, r, approved).1 == Err(NotPending) <==>
            w.calls.rows[r].status != Pending
    ensures w.calls.rows[r].status != Pending ==> Confirm(env, cfg, w, user, r, approved).0 == Tick(w)
  {
    if w.calls.rows[r].status == Pending && !approved {
      assert Confirm(env, cfg, w, user, r, approved).1 != Err(NotPending);
    }
  }

  /** After an approved confirmation the row can be confirmed again exactly when
      both of its status writes failed. */
  lemma StillPendingIffWritesFailed(env: Env, cfg: Config, w: World, user: Id, r: Id)
    requires cfg.enabled && cfg.serviceHasTools && !env.readFails(w.tick)
    requires Owned(w, user, r) && w.calls.rows[r].status == Pending
    ensures var w' := Confirm(env, cfg, w, user, r, true).0;
            && Owned(w', user, r)
            && (w'.calls.rows[r].status == Pending <==> env.statusFails(w.tick + 1) && env.statusFails(w.tick + 3))
  {
  }
}
