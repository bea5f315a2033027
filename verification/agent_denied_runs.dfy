/** Denied tools over whole runs: every execution of a tool that the policy in force at its
    step denies is the harness's, or an approval's, which no policy is consulted for. */
module AgentDeniedRuns {
  import opened AgentTypes
  import opened AgentWorld
  import opened AgentService
  import opened AgentRuns
  import opened AgentDenied
  import Harness = LlmHarness

  // ----- Turns -----------------------------------------------------------------------

  /** log continues before, running denied tools only in a harness with an executor, and
      only read-only ones, for the user. */
  ghost predicate DeniedByHarness(
    cfg: Config, user: Id, deny: seq<string>, before: seq<Execution>, log: seq<Execution>)
  {
    && before <= log
    && forall k :: |before| <= k < |log| && Denied(cfg.norm, log[k].tool, deny) ==> HarnessRun(cfg, user, log[k])
  }

  predicate HarnessRun(cfg: Config, user: Id, e: Execution) {
    cfg.harnessHasTools && !cfg.destructive(e.tool) && e.actor == user && e.origin == InHarness
  }

  lemma {:induction false} RanInHarness(cfg: Config, user: Id, events: seq<Event>)
    ensures forall k :: 0 <= k < |Harness.Ran(cfg, user, events)| ==>
              HarnessRun(cfg, user, Harness.Ran(cfg, user, events)[k])
  {
    if events != [] {
      RanInHarness(cfg, user, events[..|events| - 1]);
    }
  }

  lemma DeliverRunsDenied(env: Env, cfg: Config, w: World, turn: TurnInfo, req: Harness.Request)
    ensures DeniedByHarness(cfg, turn.user, turn.policy.denyTools, w.calls.executions,
                            Deliver(env, cfg, w, turn, req).0.calls.executions)
  {
    var byHarness, byService := DeliverRuns(env, cfg, w, turn, req);
    RanInHarness(cfg, turn.user, Harness.Run(env, cfg, turn.user, w, req).1);
    NoneForbidden(cfg.norm, turn.policy.denyTools, byService);
    HarnessThenService(cfg, turn.user, turn.policy.denyTools, w.calls.executions, byHarness, byService);
  }

  lemma HarnessThenService(
    cfg: Config, user: Id, deny: seq<string>, before: seq<Execution>,
    byHarness: seq<Execution>, byService: seq<Execution>)
    requires forall k :: 0 <= k < |byHarness| ==> HarnessRun(cfg, user, byHarness[k])
    requires forall k :: 0 <= k < |byService| ==> !Denied(cfg.norm, byService[k].tool, deny)
    ensures DeniedByHarness(cfg, user, deny, before, before + (byHarness + byService))
  {
    var log := before + (byHarness + byService);
    forall k | |before| <= k < |log| && Denied(cfg.norm, log[k].tool, deny) ensures HarnessRun(cfg, user, log[k]) {
      var j := k - |before|;
      if j < |byHarness| { assert log[k] == byHarness[j]; }
    }
  }

  lemma AnswerRunsDenied(
    env: Env, cfg: Config, w: World, user: Id, conversation: Id, text: string, p: Policy, provider: Harness.Resolved)
    ensures DeniedByHarness(cfg, user, p.denyTools, w.calls.executions,
                            AnswerTurn(env, cfg, w, user, conversation, text, p, provider).0.calls.executions)
  {
    var w2 := Tick(Audit(env, w, user, MessageSend).0);
    var (w3, reply) := AddMessage(env, w2, user, conversation, AssistantRole, "");
    OpeningIsSafe(env, cfg, w, user, conversation);
    if reply.Some? {
      DeliverRunsDenied(env, cfg, w3, TurnInfo(user, conversation, reply.value, p, provider),
                        Harness.Request(History(w2.store.messages, conversation), text, provider, Tools(cfg, p)));
    }
  }

  lemma RespondRunsDenied(env: Env, cfg: Config, w: World, user: Id, conversation: Id, text: string, p: Policy)
    ensures DeniedByHarness(cfg, user, p.denyTools, w.calls.executions,
                            Respond(env, cfg, w, user, conversation, text, p).0.calls.executions)
  {
    var (w1, provider) := ResolveProvider(env, cfg, w, user, p);
    SettlingOnlyTicks(env, cfg, w, user, p);
    if provider.Ok? {
      var w2 := CheckSpend(env, cfg, w1, provider.value, p).0;
      AnswerRunsDenied(env, cfg, w2, user, conversation, text, p, provider.value);
    }
  }

  /** The policy of an admitted turn is the one in force. */
  lemma AdmittedUnderPolicy(env: Env, cfg: Config, w: World, user: Id, conversation: Id, text: string)
    ensures var p := Admit(env, cfg, w, user, conversation, text).1; p.Ok? ==> p.value == PolicyOf(w)
  {
  }

  lemma SendRunsDenied(env: Env, cfg: Config, w: World, user: Id, conversation: Id, text: string)
    ensures DeniedByHarness(cfg, user, PolicyOf(w).denyTools, w.calls.executions,
                            StreamMessage(env, cfg, w, user, conversation, text).0.calls.executions)
  {
    var (w1, p) := Admit(env, cfg, w, user, conversation, text);
    AdmitOnlyTicks(env, cfg, w, user, conversation, text);
    AdmittedUnderPolicy(env, cfg, w, user, conversation, text);
    if p.Ok? {
      var (w2, prompt) := AddMessage(env, w1, user, conversation, UserRole, text);
      if prompt.Some? { RespondRunsDenied(env, cfg, w2, user, conversation, text, p.value); }
    }
  }

  // ----- Approvals -------------------------------------------------------------------

  /** An approval runs the denied tool of a row if and only if it could run any: no policy
      is consulted. */
  lemma DecideRunsDeniedIff(env: Env, cfg: Config, w: World, user: Id, id: Id, approved: bool)
    ensures DeniedFrom(cfg.norm, PolicyOf(w).denyTools, Confirm(env, cfg, w, user, id, approved).0.calls.executions,
                       |w.calls.executions|)
       <==> approved && Approvable(env, cfg, w, user, id)
            && Denied(cfg.norm, w.calls.rows[id].tool, PolicyOf(w).denyTools)
  {
    var log := Confirm(env, cfg, w, user, id, approved).0.calls.executions;
    ConfirmLog(env, cfg, w, user, id, approved);
    if approved && Approvable(env, cfg, w, user, id) && Denied(cfg.norm, w.calls.rows[id].tool, PolicyOf(w).denyTools) {
      assert log[|w.calls.executions|].tool == w.calls.rows[id].tool;
    }
  }

  /** Denying a tool comes too late for the calls that are pending: with nothing failing,
      after any run with a pending row, a policy that denies its tool does not keep the
      approval that follows from running it, whether or not the harness has an executor. */
  lemma DenyingIsTooLate(env: Env, cfg: Config, steps: seq<Step>, w: World, user: Id, id: Id, p: Policy)
    requires w == Run(env, cfg, steps) && cfg.enabled && cfg.serviceHasTools
    requires forall k: nat :: !env.readFails(k) && !env.createFails(k)
    requires Owned(w, user, id) && w.calls.rows[id].status == Pending
    requires Denied(cfg.norm, w.calls.rows[id].tool, p.denyTools)
    ensures var w1 := Run(env, cfg, steps + [SetPolicy(p)]);
            && PolicyOf(w1).denyTools == p.denyTools
            && Run(env, cfg, (steps + [SetPolicy(p)]) + [Decide(user, id, true)]).calls.executions
               == w.calls.executions + [Approval(env, w1, user, id)]
            && Approval(env, w1, user, id).tool == w.calls.rows[id].tool
  {
    var denying, deciding := steps + [SetPolicy(p)], (steps + [SetPolicy(p)]) + [Decide(user, id, true)];
    assert denying[..|steps|] == steps && deciding[..|denying|] == denying;
    PolicyIsSet(env, cfg, w, p);
    ConfirmLog(env, cfg, Run(env, cfg, denying), user, id, true);
  }

  lemma PolicyIsSet(env: Env, cfg: Config, w: World, p: Policy)
    requires cfg.enabled && !env.createFails(w.tick)
    ensures var w1 := Apply(env, cfg, w, SetPolicy(p)); w1.calls == w.calls && PolicyOf(w1).denyTools == p.denyTools
  {
  }

  // ----- Runs ------------------------------------------------------------------------

  /** A run of a denied tool: the harness's in a turn of the user, or the vetted
      confirmation of a pending row. */
  ghost predicate DeniedRun(cfg: Config, w: World, step: Step, e: Execution) {
    (step.Send? && HarnessRun(cfg, step.user, e)) || Vetted(w, step, e)
  }

  lemma StepRunsDenied(env: Env, cfg: Config, w: World, step: Step, k: nat)
    requires |w.calls.executions| <= k < |Apply(env, cfg, w, step).calls.executions|
    requires Denied(cfg.norm, Apply(env, cfg, w, step).calls.executions[k].tool, PolicyOf(w).denyTools)
    ensures DeniedRun(cfg, w, step, Apply(env, cfg, w, step).calls.executions[k])
  {
    if step.Send? {
      SendRunsDenied(env, cfg, w, step.user, step.conversation, step.text);
    } else if step.Decide? {
      ConfirmLog(env, cfg, w, step.user, step.row, step.approved);
    } else {
      OtherStepsRunNothing(env, cfg, w, step);
    }
  }

  /** In every run, each execution of a tool that the policy in force at its step denies
      is the harness's run of a read-only tool in a turn of that user, or the vetted
      confirmation of a pending row. */
  lemma DeniedRunsAreLate(env: Env, cfg: Config, steps: seq<Step>, k: nat) returns (i: nat)
    requires k < |Run(env, cfg, steps).calls.executions|
    ensures i < |steps|
    ensures var w, e := Run(env, cfg, steps[..i]), Run(env, cfg, steps).calls.executions[k];
            && |w.calls.executions| <= k < |Apply(env, cfg, w, steps[i]).calls.executions|
            && (Denied(cfg.norm, e.tool, PolicyOf(w).denyTools) ==> DeniedRun(cfg, w, steps[i], e))
  {
    i := AddedInStep(env, cfg, steps, k);
    var w := Run(env, cfg, steps[..i]);
    if Denied(cfg.norm, Apply(env, cfg, w, steps[i]).calls.executions[k].tool, PolicyOf(w).denyTools) {
      StepRunsDenied(env, cfg, w, steps[i], k);
    }
  }
}
