/** Tools that policy denies: the service refuses them, but only once the harness, which
    knows nothing of the policy, has run them. When that happens and when it cannot. */
module AgentDenied {
  import opened AgentTypes
  import opened AgentWorld
  import opened AgentService
  import opened ToolCallStream
  import AgentTurns
  import Harness = LlmHarness
  import opened Sequences

  /** The runs of denied tools in a stretch of the executor's log. */
  function Forbidden(norm: string -> string, deny: seq<string>, runs: seq<Execution>): seq<Execution> {
    if runs == [] then []
    else
      var e := runs[|runs| - 1];
      Forbidden(norm, deny, runs[..|runs| - 1]) + if Denied(norm, e.tool, deny) then [e] else []
  }

  /** The denied read-only calls among events, as runs of the harness with their results. */
  function DeniedCalls(cfg: Config, user: Id, deny: seq<string>, events: seq<Event>): seq<Execution> {
    if events == [] then []
    else
      var e := events[|events| - 1];
      DeniedCalls(cfg, user, deny, events[..|events| - 1])
      + if e.ToolCall? && !cfg.destructive(e.tool) && Denied(cfg.norm, e.tool, deny)
        then [Execution(e.tool, e.args, user, InHarness, e.result)] else []
  }

  lemma {:induction false} ForbiddenAppend(
    norm: string -> string, deny: seq<string>, a: seq<Execution>, b: seq<Execution>)
    ensures Forbidden(norm, deny, a + b) == Forbidden(norm, deny, a) + Forbidden(norm, deny, b)
  {
    if b == [] {
      assert a + b == a;
    } else {
      assert (a + b)[..|a + b| - 1] == a + b[..|b| - 1];
      ForbiddenAppend(norm, deny, a, b[..|b| - 1]);
    }
  }

  lemma {:induction false} NoneForbidden(norm: string -> string, deny: seq<string>, runs: seq<Execution>)
    ensures Forbidden(norm, deny, runs) == [] <==> forall k :: 0 <= k < |runs| ==> !Denied(norm, runs[k].tool, deny)
  {
    if runs != [] {
      NoneForbidden(norm, deny, runs[..|runs| - 1]);
    }
  }

  // ----- Which denied tools a turn runs ----------------------------------------------

  lemma HandleRunsNoDenied(env: Env, cfg: Config, w: World, turn: TurnInfo, ev: Event) returns (ran: seq<Execution>)
    requires ev.ToolCall?
    ensures Handle(env, cfg, w, turn.user, turn.message, turn.policy, ev).0.calls.executions == w.calls.executions + ran
    ensures Forbidden(cfg.norm, turn.policy.denyTools, ran) == []
  {
    var w' := Handle(env, cfg, w, turn.user, turn.message, turn.policy, ev).0;
    ran := w'.calls.executions[|w.calls.executions|..];
    if ran != [] {
      assert ran[..0] == [];
    }
  }

  /** The service itself runs no denied tool. */
  lemma {:induction false} ServiceRunsNoDenied(
    env: Env, cfg: Config, w: World, turn: TurnInfo, content: string, events: seq<Event>) returns (ran: seq<Execution>)
    ensures Consume(env, cfg, w, turn, content, events).w.calls.executions == w.calls.executions + ran
    ensures Forbidden(cfg.norm, turn.policy.denyTools, ran) == []
    decreases |events|, 1
  {
    ran := [];
    if events != [] {
      match events[0]
      case Text(text) =>
        if !env.emitFails(w.tick) {
          ran := ServiceRunsNoDenied(env, cfg, Emit(env, w, events[0]).0, turn, content + text, events[1..]);
        }
      case ToolCall(_, _, _, _) =>
        ran := NoDeniedFromCallOn(env, cfg, w, turn, content, events);
      case ToolResult(_, _, _) =>
        ran := ServiceRunsNoDenied(env, cfg, w, turn, content, events[1..]);
      case Done(_) =>
      case Error(_) =>
    }
  }

  lemma {:induction false} NoDeniedFromCallOn(
    env: Env, cfg: Config, w: World, turn: TurnInfo, content: string, events: seq<Event>) returns (ran: seq<Execution>)
    requires events != [] && events[0].ToolCall?
    ensures Consume(env, cfg, w, turn, content, events).w.calls.executions == w.calls.executions + ran
    ensures Forbidden(cfg.norm, turn.policy.denyTools, ran) == []
    decreases |events|, 0
  {
    var (w1, failed) := Handle(env, cfg, w, turn.user, turn.message, turn.policy, events[0]);
    ran := HandleRunsNoDenied(env, cfg, w, turn, events[0]);
    if !failed {
      var more := ServiceRunsNoDenied(env, cfg, w1, turn, content, events[1..]);
      ForbiddenAppend(cfg.norm, turn.policy.denyTools, ran, more);
      Regroup(w.calls.executions, ran, more);
      ran := ran + more;
    }
  }

  /** The harness runs the denied read-only calls as it runs all others. */
  lemma {:induction false} HarnessRunsDenied(cfg: Config, user: Id, deny: seq<string>, events: seq<Event>)
    ensures Forbidden(cfg.norm, deny, Harness.Ran(cfg, user, events))
            == if cfg.harnessHasTools then DeniedCalls(cfg, user, deny, events) else []
  {
    if events != [] {
      var init, e := events[..|events| - 1], events[|events| - 1];
      HarnessRunsDenied(cfg, user, deny, init);
      var before := Harness.Ran(cfg, user, init);
      if e.ToolCall? && !Harness.Surfaced(cfg, e.tool) {
        var all := Harness.Ran(cfg, user, events);
        assert all[..|all| - 1] == before;
      } else {
        assert before + [] == before;
      }
    }
  }

  /** The denied tools a turn runs are, run by run, the denied read-only calls on the
      harness's channel if the harness has an executor, and none if it has not. */
  lemma DeniedRunsOfATurn(env: Env, cfg: Config, w: World, turn: TurnInfo, req: Harness.Request)
    returns (ran: seq<Execution>)
    ensures var events := Harness.Run(env, cfg, turn.user, w, req).1;
            var deny := turn.policy.denyTools;
            && Deliver(env, cfg, w, turn, req).0.calls.executions == w.calls.executions + ran
            && Forbidden(cfg.norm, deny, ran)
               == if cfg.harnessHasTools then DeniedCalls(cfg, turn.user, deny, events) else []
  {
    var events := Harness.Run(env, cfg, turn.user, w, req).1;
    var byHarness, byService := DeliverRuns(env, cfg, w, turn, req);
    ran := byHarness + byService;
    DeniedAmong(cfg, turn.user, turn.policy.denyTools, events, byHarness, byService);
  }

  lemma DeniedAmong(
    cfg: Config, user: Id, deny: seq<string>, events: seq<Event>, byHarness: seq<Execution>, byService: seq<Execution>)
    requires byHarness == Harness.Ran(cfg, user, events) && Forbidden(cfg.norm, deny, byService) == []
    ensures Forbidden(cfg.norm, deny, byHarness + byService)
         == if cfg.harnessHasTools then DeniedCalls(cfg, user, deny, events) else []
  {
    HarnessRunsDenied(cfg, user, deny, events);
    ForbiddenAppend(cfg.norm, deny, byHarness, byService);
  }

  lemma DeliverRuns(env: Env, cfg: Config, w: World, turn: TurnInfo, req: Harness.Request)
    returns (byHarness: seq<Execution>, byService: seq<Execution>)
    ensures byHarness == Harness.Ran(cfg, turn.user, Harness.Run(env, cfg, turn.user, w, req).1)
    ensures Forbidden(cfg.norm, turn.policy.denyTools, byService) == []
    ensures Deliver(env, cfg, w, turn, req).0.calls.executions == w.calls.executions + (byHarness + byService)
  {
    var (w1, events) := Harness.Run(env, cfg, turn.user, w, req);
    byHarness := ChannelRuns(env, cfg, turn.user, w, req);
    byService := ServiceRunsNoDenied(env, cfg, w1, turn, "", events);
    AgentTurns.DeliverLog(env, cfg, w, turn, req);
    Regroup(w.calls.executions, byHarness, byService);
  }

  lemma ChannelRuns(env: Env, cfg: Config, user: Id, w: World, req: Harness.Request) returns (ran: seq<Execution>)
    ensures var (w1, events) := Harness.Run(env, cfg, user, w, req);
            ran == Harness.Ran(cfg, user, events) && w1.calls.executions == w.calls.executions + ran
  {
    var body, tail := Harness.RunIsSound(env, cfg, user, w, req);
    Harness.RanInBody(cfg, user, body, tail);
    ran := Harness.Ran(cfg, user, body);
  }

  // ----- When a denied tool can run --------------------------------------------------

  /** Another call of the executor only adds to its log. */
  lemma {:induction false} CallsExtendLog(env: Env, cfg: Config, user: Id, t: Harness.Turn, calls: seq<ModelCall>)
    ensures t.w.calls.executions <= Harness.RunCalls(env, cfg, user, t, calls).w.calls.executions
  {
    if calls != [] {
      CallsExtendLog(env, cfg, user, t, calls[..|calls| - 1]);
    }
  }

  lemma {:induction false} RoundsExtendLog(
    model: Harness.Model, env: Env, cfg: Config, user: Id, t: Harness.Turn, round: nat)
    ensures t.w.calls.executions <= Harness.Rounds(model, env, cfg, user, t, round).w.calls.executions
    decreases Harness.MAX_ROUNDS - round
  {
    if round < Harness.MAX_ROUNDS {
      var t1, calls := Harness.Heard(model, t), Harness.CallsHeard(model, t);
      CallsExtendLog(env, cfg, user, t1, calls);
      var r := Harness.Round(model, env, cfg, user, t);
      if r.ending == Harness.Running {
        RoundsExtendLog(model, env, cfg, user, r, round + 1);
      }
    }
  }

  /** A model that asks for a read-only tool at once has it run, whatever policy says. */
  lemma FirstCallRuns(env: Env, cfg: Config, w: World, turn: TurnInfo, req: Harness.Request, c: ModelCall)
    requires Harness.HasModel(req) && env.replies(w.tick) == CallReply(c) && !Harness.Surfaced(cfg, c.name)
    ensures var log := Deliver(env, cfg, w, turn, req).0.calls.executions;
            w.calls.executions + [Harness.FirstRun(env, w, turn.user, c)] <= log
  {
    var model, start := Harness.ReadBy(env), Harness.Start(cfg, w, req);
    CallReplyAsks(c);
    Harness.FirstRoundRuns(model, env, cfg, turn.user, start, c);
    RoundExtended(model, env, cfg, turn.user, start);
    var (w1, events) := Harness.Run(env, cfg, turn.user, w, req);
    var ran := ServiceRunsNoDenied(env, cfg, w1, turn, "", events);
  }

  lemma RoundExtended(model: Harness.Model, env: Env, cfg: Config, user: Id, t: Harness.Turn)
    ensures Harness.Round(model, env, cfg, user, t).w.calls.executions
         <= Harness.Rounds(model, env, cfg, user, t, 0).w.calls.executions
  {
    var r := Harness.Round(model, env, cfg, user, t);
    if r.ending == Harness.Running {
      RoundsExtendLog(model, env, cfg, user, r, 1);
    }
  }

  /** The turn runs a tool its policy denies. */
  ghost predicate RunsDenied(env: Env, cfg: Config, w: World, turn: TurnInfo, req: Harness.Request) {
    DeniedFrom(cfg.norm, turn.policy.denyTools, Deliver(env, cfg, w, turn, req).0.calls.executions,
               |w.calls.executions|)
  }

  /** Some denied tool is read-only and the harness has an executor. */
  ghost predicate DenialIsLate(cfg: Config, deny: seq<string>) {
    cfg.harnessHasTools && exists tool :: Denied(cfg.norm, tool, deny) && !cfg.destructive(tool)
  }

  lemma OnlyLateDenials(env: Env, cfg: Config, w: World, turn: TurnInfo, req: Harness.Request)
    requires RunsDenied(env, cfg, w, turn, req)
    ensures DenialIsLate(cfg, turn.policy.denyTools)
  {
    var deny, events := turn.policy.denyTools, Harness.Run(env, cfg, turn.user, w, req).1;
    var ran := DeniedRunsOfATurn(env, cfg, w, turn, req);
    DeniedIsForbidden(cfg.norm, deny, w.calls.executions, ran, Deliver(env, cfg, w, turn, req).0.calls.executions);
    SomeDeniedCall(cfg, turn.user, deny, events);
  }

  ghost predicate DeniedFrom(norm: string -> string, deny: seq<string>, log: seq<Execution>, n: nat) {
    exists k :: n <= k < |log| && Denied(norm, log[k].tool, deny)
  }

  lemma DeniedIsForbidden(
    norm: string -> string, deny: seq<string>, before: seq<Execution>, ran: seq<Execution>, log: seq<Execution>)
    requires log == before + ran && DeniedFrom(norm, deny, log, |before|)
    ensures Forbidden(norm, deny, ran) != []
  {
    NoneForbidden(norm, deny, ran);
    var k :| |before| <= k < |log| && Denied(norm, log[k].tool, deny);
    assert log[k] == ran[k - |before|];
  }

  lemma {:induction false} SomeDeniedCall(cfg: Config, user: Id, deny: seq<string>, events: seq<Event>)
    requires DeniedCalls(cfg, user, deny, events) != []
    ensures exists tool :: Denied(cfg.norm, tool, deny) && !cfg.destructive(tool)
  {
    var e := events[|events| - 1];
    if DeniedCalls(cfg, user, deny, events[..|events| - 1]) != [] {
      SomeDeniedCall(cfg, user, deny, events[..|events| - 1]);
    }
  }

  /** For every state, turn and request that has a model: the model can behave so that
      the turn runs a denied tool if and only if the harness has an executor and some
      denied tool is read-only. */
  lemma DeniedToolCanRunIff(env: Env, cfg: Config, w: World, turn: TurnInfo, req: Harness.Request)
    requires Harness.HasModel(req)
    ensures (exists replies: nat -> Reply :: RunsDenied(env.(replies := replies), cfg, w, turn, req))
       <==> DenialIsLate(cfg, turn.policy.denyTools)
  {
    var deny := turn.policy.denyTools;
    forall replies: nat -> Reply | RunsDenied(env.(replies := replies), cfg, w, turn, req)
      ensures DenialIsLate(cfg, deny)
    {
      OnlyLateDenials(env.(replies := replies), cfg, w, turn, req);
    }
    if DenialIsLate(cfg, deny) {
      var tool :| Denied(cfg.norm, tool, deny) && !cfg.destructive(tool);
      var c := ModelCall("", tool, "");
      var replies: nat -> Reply := k => CallReply(c);
      var asking := env.(replies := replies);
      FirstCallRuns(asking, cfg, w, turn, req, c);
      var log := Deliver(asking, cfg, w, turn, req).0.calls.executions;
      assert log[|w.calls.executions|] == Harness.FirstRun(asking, w, turn.user, c);
      assert RunsDenied(asking, cfg, w, turn, req);
    }
  }
}
