/** What becomes of a tool call: how the service stores it and tells the client, and that a
    confirmation runs the very call the harness put on the channel of the turn. */
module AgentCalls {
  import opened AgentTypes
  import opened AgentWorld
  import opened AgentService
  import opened AgentRuns
  import opened AgentDelivery
  import Harness = LlmHarness
  import opened Wrappers

  // ----- One call --------------------------------------------------------------------

  /** The result of a call that is not parked: the harness's, or else what the tool says
      to the service now. */
  function ResultOf(env: Env, cfg: Config, w: World, ev: Event): string
    requires ev.ToolCall?
  {
    if ev.result != "" then ev.result
    else Recorded(if cfg.serviceHasTools then env.runs(w.tick + 1) else Raised("agent: tool not found"))
  }

  predicate IsParked(cfg: Config, ev: Event)
    requires ev.ToolCall?
  {
    ev.result == "" && cfg.serviceHasTools && cfg.destructive(ev.tool)
  }

  /** One row is new, with the user, the message, the tool and the arguments of the call,
      asking for confirmation if it is parked; and no other row is touched. */
  ghost predicate StoredAs(rows: map<Id, ToolCallRow>, rows': map<Id, ToolCallRow>, r: Id,
                           user: Id, message: Id, ev: Event, parked: bool)
    requires ev.ToolCall?
  {
    && rows'.Keys == rows.Keys + {r}
    && (forall q :: q in rows && q != r ==> rows'[q] == rows[q])
    && rows'[r].user == user && rows'[r].message == message
    && rows'[r].tool == ev.tool && rows'[r].args == ev.args
    && rows'[r].confirm == parked && (parked ==> rows'[r].status == Pending && rows'[r].result == "")
  }

  /** An undenied call whose row can be stored: exactly one row is new, the client is shown
      the call or its result under the id of that row, and the turn goes on unless a parked
      call could not be shown. */
  lemma CallIsStored(env: Env, cfg: Config, w: World, user: Id, message: Id, p: Policy, ev: Event)
    requires ev.ToolCall? && !Denied(cfg.norm, ev.tool, p.denyTools) && !env.createFails(w.tick)
    ensures var (w', failed) := Handle(env, cfg, w, user, message, p, ev);
            var r := w.nextId;
            && (FreshIds(w) ==> r !in w.calls.rows)
            && StoredAs(w.calls.rows, w'.calls.rows, r, user, message, ev, IsParked(cfg, ev))
            && w'.trail.sent == w.trail.sent
                 + [if IsParked(cfg, ev) then ToolCall(ev.tool, ev.args, FromRow(r), "")
                    else ToolResult(ev.tool, FromRow(r), ResultOf(env, cfg, w, ev))]
            && (failed <==> IsParked(cfg, ev) && env.emitFails(w.tick + 1))
  {
    if ev.result != "" {
      RanIsStored(env, w, user, message, ev);
    } else if IsParked(cfg, ev) {
      ParkedIsStored(env, w, user, message, ev);
    } else {
      InlineIsStored(env, cfg, w, user, message, ev);
    }
  }

  lemma RanIsStored(env: Env, w: World, user: Id, message: Id, ev: Event)
    requires ev.ToolCall? && !env.createFails(w.tick)
    ensures var (w', failed) := HandleRan(env, w, user, message, ev.tool, ev.args, ev.result);
            && StoredAs(w.calls.rows, w'.calls.rows, w.nextId, user, message, ev, false) && !failed
            && w'.trail.sent == w.trail.sent + [ToolResult(ev.tool, FromRow(w.nextId), ev.result)]
            && (!env.statusFails(w.tick + 1) ==> w'.calls.rows[w.nextId].result == ev.result)
  {
  }

  lemma ParkedIsStored(env: Env, w: World, user: Id, message: Id, ev: Event)
    requires ev.ToolCall? && !env.createFails(w.tick)
    ensures var (w', failed) := HandleParked(env, w, user, message, ev.tool, ev.args);
            && StoredAs(w.calls.rows, w'.calls.rows, w.nextId, user, message, ev, true)
            && (failed <==> env.emitFails(w.tick + 1))
            && w'.trail.sent == w.trail.sent + [ToolCall(ev.tool, ev.args, FromRow(w.nextId), "")]
  {
  }

  lemma InlineIsStored(env: Env, cfg: Config, w: World, user: Id, message: Id, ev: Event)
    requires ev.ToolCall? && ev.result == "" && !env.createFails(w.tick)
    ensures var (w', failed) := HandleInline(env, cfg, w, user, message, ev.tool, ev.args);
            var result := ResultOf(env, cfg, w, ev);
            && StoredAs(w.calls.rows, w'.calls.rows, w.nextId, user, message, ev, false) && !failed
            && w'.trail.sent == w.trail.sent + [ToolResult(ev.tool, FromRow(w.nextId), result)]
            && (!env.statusFails(w.tick + if cfg.serviceHasTools then 2 else 1)
                ==> w'.calls.rows[w.nextId].result == result)
  {
  }

  /** Where the result can be written, the row of a call that is not parked shows it. */
  lemma ResultIsStored(env: Env, cfg: Config, w: World, user: Id, message: Id, p: Policy, ev: Event)
    requires ev.ToolCall? && !Denied(cfg.norm, ev.tool, p.denyTools) && !IsParked(cfg, ev)
    requires !env.createFails(w.tick) && !env.statusFails(w.tick + 1) && !env.statusFails(w.tick + 2)
    ensures var rows := Handle(env, cfg, w, user, message, p, ev).0.calls.rows;
            w.nextId in rows && rows[w.nextId].result == ResultOf(env, cfg, w, ev)
  {
    if ev.result != "" {
      RanIsStored(env, w, user, message, ev);
    } else {
      InlineIsStored(env, cfg, w, user, message, ev);
    }
  }

  /** A denied call changes no call and shows the client an error; one that cannot be
      stored ends the turn unseen. */
  lemma CallIsRefused(env: Env, cfg: Config, w: World, user: Id, message: Id, p: Policy, ev: Event)
    requires ev.ToolCall? && (Denied(cfg.norm, ev.tool, p.denyTools) || env.createFails(w.tick))
    ensures var (w', failed) := Handle(env, cfg, w, user, message, p, ev);
            && w'.calls == w.calls
            && (failed <==> !Denied(cfg.norm, ev.tool, p.denyTools))
            && w'.trail.sent == w.trail.sent + if failed then [] else [Error("tool denied by policy")]
  {
    assert w.trail.sent + [] == w.trail.sent;
  }

  // ----- One turn --------------------------------------------------------------------

  /** The same call, perhaps with another status and result. */
  predicate SameCall(a: ToolCallRow, b: ToolCallRow) {
    b.user == a.user && b.message == a.message && b.tool == a.tool && b.args == a.args && b.confirm == a.confirm
  }

  /** A call of that tool with those arguments is among the events. */
  ghost predicate Called(events: seq<Event>, tool: string, args: string) {
    exists j :: 0 <= j < |events| && events[j].ToolCall? && events[j].tool == tool && events[j].args == args
  }

  /** Old rows stay the calls they were; new ones are calls among the events. */
  ghost predicate RowsAreCalls(
    rows: map<Id, ToolCallRow>, rows': map<Id, ToolCallRow>, turn: TurnInfo, events: seq<Event>)
  {
    forall r :: r in rows' ==> if r in rows then SameCall(rows[r], rows'[r]) else CalledFor(turn, rows'[r], events)
  }

  /** The row is for that turn, and its call is among the events. */
  ghost predicate CalledFor(turn: TurnInfo, row: ToolCallRow, events: seq<Event>) {
    row.user == turn.user && row.message == turn.message && Called(events, row.tool, row.args)
  }

  lemma CallsBehind(
    a: map<Id, ToolCallRow>, b: map<Id, ToolCallRow>, c: map<Id, ToolCallRow>, turn: TurnInfo, events: seq<Event>)
    requires events != [] && RowsAreCalls(a, b, turn, [events[0]]) && RowsAreCalls(b, c, turn, events[1..])
    requires forall r :: r in a && r in c ==> r in b
    ensures RowsAreCalls(a, c, turn, events)
  {
    forall r | r in c && r !in a ensures Called(events, c[r].tool, c[r].args) {
      if r in b {
        var j :| 0 <= j < 1 && [events[0]][j].ToolCall?
                 && [events[0]][j].tool == b[r].tool && [events[0]][j].args == b[r].args;
        assert events[0].tool == c[r].tool;
      } else {
        var j :| 0 <= j < |events[1..]| && events[1..][j].ToolCall?
                 && events[1..][j].tool == c[r].tool && events[1..][j].args == c[r].args;
        assert events[j + 1].tool == c[r].tool;
      }
    }
  }

  lemma HandleRowsAreCalls(env: Env, cfg: Config, w: World, turn: TurnInfo, ev: Event)
    requires ev.ToolCall? && FreshIds(w)
    ensures var w' := Handle(env, cfg, w, turn.user, turn.message, turn.policy, ev).0;
            && RowsAreCalls(w.calls.rows, w'.calls.rows, turn, [ev])
            && FreshIds(w') && w.calls.rows.Keys <= w'.calls.rows.Keys
  {
    HandleIsSafe(env, cfg, w, turn.user, turn.message, turn.policy, ev);
    if Denied(cfg.norm, ev.tool, turn.policy.denyTools) || env.createFails(w.tick) {
      CallIsRefused(env, cfg, w, turn.user, turn.message, turn.policy, ev);
    } else {
      CallIsStored(env, cfg, w, turn.user, turn.message, turn.policy, ev);
      assert [ev][0].tool == ev.tool;
    }
  }

  lemma NothingNew(rows: map<Id, ToolCallRow>, turn: TurnInfo, events: seq<Event>)
    ensures RowsAreCalls(rows, rows, turn, events)
  {
  }

  lemma {:induction false} ConsumeRowsAreCalls(
    env: Env, cfg: Config, w: World, turn: TurnInfo, content: string, events: seq<Event>)
    requires FreshIds(w)
    ensures var w' := Consume(env, cfg, w, turn, content, events).w;
            RowsAreCalls(w.calls.rows, w'.calls.rows, turn, events) && w.calls.rows.Keys <= w'.calls.rows.Keys
    decreases |events|, 1
  {
    NothingNew(w.calls.rows, turn, events);
    if events != [] {
      match events[0]
      case Text(text) =>
        var w1 := Emit(env, w, events[0]).0;
        NothingNew(w.calls.rows, turn, [events[0]]);
        ConsumeRowsAreCalls(env, cfg, w1, turn, content + text, events[1..]);
        CallsBehind(w.calls.rows, w.calls.rows, Consume(env, cfg, w1, turn, content + text, events[1..]).w.calls.rows,
                    turn, events);
      case ToolCall(_, _, _, _) =>
        ConsumeCallIsCall(env, cfg, w, turn, content, events);
      case ToolResult(_, _, _) =>
        NothingNew(w.calls.rows, turn, [events[0]]);
        ConsumeRowsAreCalls(env, cfg, w, turn, content, events[1..]);
        CallsBehind(w.calls.rows, w.calls.rows, Consume(env, cfg, w, turn, content, events[1..]).w.calls.rows,
                    turn, events);
      case Done(_) =>
      case Error(_) =>
    }
  }

  lemma {:induction false} ConsumeCallIsCall(
    env: Env, cfg: Config, w: World, turn: TurnInfo, content: string, events: seq<Event>)
    requires FreshIds(w) && events != [] && events[0].ToolCall?
    ensures var w' := Consume(env, cfg, w, turn, content, events).w;
            RowsAreCalls(w.calls.rows, w'.calls.rows, turn, events) && w.calls.rows.Keys <= w'.calls.rows.Keys
    decreases |events|, 0
  {
    var (w1, failed) := Handle(env, cfg, w, turn.user, turn.message, turn.policy, events[0]);
    HandleRowsAreCalls(env, cfg, w, turn, events[0]);
    if failed {
      NothingNew(w1.calls.rows, turn, events[1..]);
      CallsBehind(w.calls.rows, w1.calls.rows, w1.calls.rows, turn, events);
    } else {
      ConsumeRowsAreCalls(env, cfg, w1, turn, content, events[1..]);
      CallsBehind(w.calls.rows, w1.calls.rows, Consume(env, cfg, w1, turn, content, events[1..]).w.calls.rows,
                  turn, events);
    }
  }

  ghost function ChannelOf(env: Env, cfg: Config, d: Delivery): seq<Event> {
    Harness.Run(env, cfg, d.turn.user, d.w, d.req).1
  }

  lemma DeliverRowsAreCalls(env: Env, cfg: Config, d: Delivery)
    requires FreshIds(d.w)
    ensures var rows := Deliver(env, cfg, d.w, d.turn, d.req).0.calls.rows;
            RowsAreCalls(d.w.calls.rows, rows, d.turn, ChannelOf(env, cfg, d))
  {
    var (w1, events) := Harness.Run(env, cfg, d.turn.user, d.w, d.req);
    var body, tail := Harness.RunIsSound(env, cfg, d.turn.user, d.w, d.req);
    ConsumeRowsAreCalls(env, cfg, w1, d.turn, "", events);
  }

  // ----- Runs ------------------------------------------------------------------------

  /** The step is a turn of the user for that message, and on its harness's channel is a
      call of that tool with those arguments. */
  ghost predicate AskedIn(
    env: Env, cfg: Config, w: World, step: Step, user: Id, message: Id, tool: string, args: string)
  {
    && step.Send? && step.user == user
    && var d := DeliveryOf(env, cfg, w, step.user, step.conversation, step.text);
       d.Some? && d.value.turn.message == message && Called(ChannelOf(env, cfg, d.value), tool, args)
  }

  ghost predicate RowAskedIn(env: Env, cfg: Config, w: World, step: Step, row: ToolCallRow) {
    AskedIn(env, cfg, w, step, row.user, row.message, row.tool, row.args)
  }

  /** What a step may do to the rows: keep the calls they are, drop some, and add calls on
      the channel of its turn. */
  ghost predicate RowsComeFrom(env: Env, cfg: Config, w: World, step: Step, w': World) {
    forall r :: r in w'.calls.rows ==>
      if r in w.calls.rows then SameCall(w.calls.rows[r], w'.calls.rows[r])
      else RowAskedIn(env, cfg, w, step, w'.calls.rows[r])
  }

  lemma ResponseIsForUser(env: Env, cfg: Config, w: World, user: Id, conversation: Id, text: string, p: Policy)
    requires FreshIds(w)
    ensures var d := RespondedBy(env, cfg, w, user, conversation, text, p);
            d.Some? ==> d.value.turn.user == user && d.value.w.calls == w.calls && FreshIds(d.value.w)
  {
  }

  lemma DeliveryIsForUser(env: Env, cfg: Config, w: World, user: Id, conversation: Id, text: string)
    requires FreshIds(w)
    ensures var d := DeliveryOf(env, cfg, w, user, conversation, text);
            d.Some? ==> d.value.turn.user == user && d.value.w.calls == w.calls && FreshIds(d.value.w)
  {
    var (w1, p) := Admit(env, cfg, w, user, conversation, text);
    AdmitOnlyTicks(env, cfg, w, user, conversation, text);
    if p.Ok? {
      var w2 := AddMessage(env, w1, user, conversation, UserRole, text).0;
      ResponseIsForUser(env, cfg, w2, user, conversation, text, p.value);
    }
  }

  lemma DeliveredAddsCalls(env: Env, cfg: Config, w: World, d: Delivery, w': World, fault: Option<Fault>)
    requires FreshIds(d.w) && Delivered(env, cfg, w, Some(d), w', fault)
    ensures RowsAreCalls(w.calls.rows, w'.calls.rows, d.turn, ChannelOf(env, cfg, d))
  {
    DeliverRowsAreCalls(env, cfg, d);
  }

  lemma SendAddsCalls(env: Env, cfg: Config, w: World, step: Step)
    requires FreshIds(w) && step.Send?
    ensures RowsComeFrom(env, cfg, w, step, StreamMessage(env, cfg, w, step.user, step.conversation, step.text).0)
  {
    var d := DeliveryOf(env, cfg, w, step.user, step.conversation, step.text);
    SendIsDelivery(env, cfg, w, step.user, step.conversation, step.text);
    DeliveryIsForUser(env, cfg, w, step.user, step.conversation, step.text);
    var (w', fault) := StreamMessage(env, cfg, w, step.user, step.conversation, step.text);
    if d.Some? { DeliveredAddsCalls(env, cfg, w, d.value, w', fault); }
  }

  lemma ApproveKeepsCalls(env: Env, cfg: Config, w: World, user: Id, id: Id, row: ToolCallRow)
    ensures var rows := Approve(env, cfg, w, user, id, row).0.calls.rows;
            rows.Keys == w.calls.rows.Keys && forall r :: r in rows ==> SameCall(w.calls.rows[r], rows[r])
  {
  }

  lemma DecideKeepsCalls(env: Env, cfg: Config, w: World, step: Step)
    requires step.Decide?
    ensures RowsComeFrom(env, cfg, w, step, Confirm(env, cfg, w, step.user, step.row, step.approved).0)
  {
    var (w1, row) := FindRow(env, w, step.user, step.row);
    if cfg.enabled && row.Ok? && row.value.status == Pending && step.approved {
      ApproveKeepsCalls(env, cfg, w1, step.user, step.row, row.value);
      var done := Approve(env, cfg, w1, step.user, step.row, row.value);
      ReportTouchesNoCall(env, done, step.user, step.row, row.value);
    }
  }

  lemma RemoveDropsCalls(env: Env, cfg: Config, w: World, step: Step)
    requires step.Remove?
    ensures RowsComeFrom(env, cfg, w, step, DeleteConversation(env, cfg, w, step.user, step.conversation).0)
  {
  }

  lemma StepRowsComeFrom(env: Env, cfg: Config, w: World, step: Step)
    requires FreshIds(w)
    ensures RowsComeFrom(env, cfg, w, step, Apply(env, cfg, w, step))
  {
    match step
    case Send(_, _, _) => SendAddsCalls(env, cfg, w, step);
    case Decide(_, _, _) => DecideKeepsCalls(env, cfg, w, step);
    case Remove(_, _) => RemoveDropsCalls(env, cfg, w, step);
    case _ => OtherStepsTouchNoCall(env, cfg, w, step);
  }

  /** The turn at i created the row. */
  ghost predicate CreatedAt(env: Env, cfg: Config, steps: seq<Step>, r: Id, row: ToolCallRow, i: nat) {
    && i < |steps|
    && var w := Run(env, cfg, steps[..i]);
       && r !in w.calls.rows && r in Apply(env, cfg, w, steps[i]).calls.rows
       && RowAskedIn(env, cfg, w, steps[i], row)
  }

  lemma CreatedBefore(env: Env, cfg: Config, steps: seq<Step>, r: Id, a: ToolCallRow, b: ToolCallRow, i: nat)
    requires steps != [] && CreatedAt(env, cfg, steps[..|steps| - 1], r, a, i) && SameCall(a, b)
    ensures CreatedAt(env, cfg, steps, r, b, i)
  {
    assert steps[..|steps| - 1][..i] == steps[..i];
  }

  lemma CreatedNow(env: Env, cfg: Config, steps: seq<Step>, w: World, r: Id)
    requires steps != [] && w == Run(env, cfg, steps[..|steps| - 1]) && FreshIds(w)
    requires var w' := Apply(env, cfg, w, steps[|steps| - 1]); r in w'.calls.rows
    ensures var rows := Apply(env, cfg, w, steps[|steps| - 1]).calls.rows;
            if r in w.calls.rows then SameCall(w.calls.rows[r], rows[r])
            else CreatedAt(env, cfg, steps, r, rows[r], |steps| - 1)
  {
    StepRowsComeFrom(env, cfg, w, steps[|steps| - 1]);
  }

  /** The turn that created a row of a run, and asked for the call the row still is. */
  lemma {:induction false} RowWasAsked(env: Env, cfg: Config, steps: seq<Step>, r: Id) returns (i: nat)
    requires r in Run(env, cfg, steps).calls.rows
    ensures CreatedAt(env, cfg, steps, r, Run(env, cfg, steps).calls.rows[r], i)
  {
    var init := steps[..|steps| - 1];
    var w := Run(env, cfg, init);
    RunHasFreshIds(env, cfg, init);
    CreatedNow(env, cfg, steps, w, r);
    i := |steps| - 1;
    if r in w.calls.rows {
      i := RowWasAsked(env, cfg, init, r);
      CreatedBefore(env, cfg, steps, r, w.calls.rows[r], Run(env, cfg, steps).calls.rows[r], i);
    }
  }

  /** In every run, a confirmed execution has the tool and the arguments of a call that the
      harness put on the channel of the turn that created its row, and it is for the user
      of that turn, whose own decision it followed. */
  lemma ConfirmedRunsWereAsked(env: Env, cfg: Config, steps: seq<Step>, k: nat) returns (i: nat, j: nat)
    requires k < |Run(env, cfg, steps).calls.executions| && Run(env, cfg, steps).calls.executions[k].origin.Confirmed?
    ensures i < j < |steps|
    ensures var e := Run(env, cfg, steps).calls.executions[k];
            var w := Run(env, cfg, steps[..i]);
            && e.origin.row !in w.calls.rows && e.origin.row in Apply(env, cfg, w, steps[i]).calls.rows
            && steps[j] == Decide(e.actor, e.origin.row, true)
            && exists message :: AskedIn(env, cfg, w, steps[i], e.actor, message, e.tool, e.args)
  {
    j := AddedInStep(env, cfg, steps, k);
    var w := Run(env, cfg, steps[..j]);
    var r := ConfirmedByDecision(env, cfg, w, steps[j], k);
    i := RowWasAsked(env, cfg, steps[..j], r);
    assert steps[..j][..i] == steps[..i];
  }

  /** The decision behind a confirmed execution: it names the row, and ran what it holds. */
  lemma ConfirmedByDecision(env: Env, cfg: Config, w: World, step: Step, k: nat) returns (r: Id)
    requires |w.calls.executions| <= k < |Apply(env, cfg, w, step).calls.executions|
    requires Apply(env, cfg, w, step).calls.executions[k].origin.Confirmed?
    ensures var e := Apply(env, cfg, w, step).calls.executions[k];
            && r == e.origin.row && step == Decide(e.actor, r, true) && r in w.calls.rows
            && w.calls.rows[r].user == e.actor && w.calls.rows[r].tool == e.tool && w.calls.rows[r].args == e.args
  {
    r := Apply(env, cfg, w, step).calls.executions[k].origin.row;
    if step.Send? {
      SendIsSafe(env, cfg, w, step.user, step.conversation, step.text);
    } else if step.Decide? {
      ConfirmLog(env, cfg, w, step.user, step.row, step.approved);
    } else {
      OtherStepsRunNothing(env, cfg, w, step);
    }
  }
}
