/** What one turn delivers: text saved is text streamed, the meter is charged once,
    read-only calls run once, the pre-flight check foretells the turn. */
module AgentTurns {
  import opened AgentTypes
  import opened AgentWorld
  import opened AgentService
  import opened AgentRuns
  import opened ToolCallStream
  import Harness = LlmHarness
  import opened Sequences
  import opened Wrappers

  // ----- Streaming ---------------------------------------------------------------

  function TextIn(events: seq<Event>): string {
    if events == [] then ""
    else TextIn(events[..|events| - 1]) + if events[|events| - 1].Text? then events[|events| - 1].text else ""
  }

  lemma {:induction false} TextInAppend(a: seq<Event>, b: seq<Event>)
    ensures TextIn(a + b) == TextIn(a) + TextIn(b)
  {
    if b == [] {
      assert a + b == a;
    } else {
      assert (a + b)[..|a + b| - 1] == a + b[..|b| - 1];
      TextInAppend(a, b[..|b| - 1]);
    }
  }

  /** Done is sent at most once, as the last event. */
  ghost predicate DoneIsLast(sent: seq<Event>) {
    forall k :: 0 <= k < |sent| - 1 ==> !sent[k].Done?
  }

  lemma HandleSpeaks(env: Env, cfg: Config, w: World, user: Id, message: Id, p: Policy, ev: Event)
    returns (said: seq<Event>)
    requires ev.ToolCall?
    ensures var w' := Handle(env, cfg, w, user, message, p, ev).0;
            && w'.trail.sent == w.trail.sent + said && w'.trail.charges == w.trail.charges
            && |said| <= 1 && (forall k :: 0 <= k < |said| ==> !said[k].Text? && !said[k].Done?)
            && w'.store == w.store && w'.clock == w.clock
  {
    var w' := Handle(env, cfg, w, user, message, p, ev).0;
    said := if |w'.trail.sent| > |w.trail.sent| then [w'.trail.sent[|w.trail.sent|]] else [];
    assert w'.trail.sent == w.trail.sent + said;
  }

  /** said reaches the client from w to w' as the text added to content. */
  ghost predicate Streamed(w: World, content: string, c: Consumed, said: seq<Event>) {
    && c.w.trail.sent == w.trail.sent + said
    && c.content == content + TextIn(said)
    && DoneIsLast(said)
    && (!c.failed ==> said != [] && said[|said| - 1].Done?)
  }

  lemma DoneStaysLast(first: seq<Event>, more: seq<Event>)
    requires (forall k :: 0 <= k < |first| ==> !first[k].Done?) && DoneIsLast(more)
    ensures DoneIsLast(first + more)
    ensures more != [] ==> (first + more)[|first + more| - 1] == more[|more| - 1]
  {
  }

  lemma StreamedMore(
    w: World, content: string, w1: World, content1: string, c: Consumed, first: seq<Event>, more: seq<Event>)
    requires w1.trail.sent == w.trail.sent + first && content1 == content + TextIn(first)
    requires forall k :: 0 <= k < |first| ==> !first[k].Done?
    requires Streamed(w1, content1, c, more)
    ensures Streamed(w, content, c, first + more)
  {
    var all, text := first + more, TextIn(first + more);
    TextInAppend(first, more);
    Regroup(w.trail.sent, first, more);
    Regroup(content, TextIn(first), TextIn(more));
    DoneStaysLast(first, more);
    assert c.w.trail.sent == w.trail.sent + all && c.content == content + text;
    assert DoneIsLast(all);
  }

  /** For any events and any emit failures: the content saved is the text handed to
      the client, and Done is sent at most once, with nothing after it. */
  lemma {:induction false} ConsumeIsFaithful(
    env: Env, cfg: Config, w: World, turn: TurnInfo, content: string, events: seq<Event>)
    returns (said: seq<Event>)
    ensures Streamed(w, content, Consume(env, cfg, w, turn, content, events), said)
    decreases |events|
  {
    if events == [] {
      said := [Done(None)];
      SilentText(said);
      return;
    }
    var more;
    match events[0]
    case Text(text) =>
      var (w1, failed) := Emit(env, w, events[0]);
      said := [events[0]];
      assert TextIn(said) == text by { assert said[..0] == []; }
      if !failed {
        more := ConsumeIsFaithful(env, cfg, w1, turn, content + text, events[1..]);
        StreamedMore(w, content, w1, content + text, Consume(env, cfg, w, turn, content, events), said, more);
        said := said + more;
      }
    case ToolCall(_, _, _, _) =>
      var (w1, failed) := Handle(env, cfg, w, turn.user, turn.message, turn.policy, events[0]);
      said := HandleSpeaks(env, cfg, w, turn.user, turn.message, turn.policy, events[0]);
      SilentText(said);
      if !failed {
        more := ConsumeIsFaithful(env, cfg, w1, turn, content, events[1..]);
        StreamedMore(w, content, w1, content, Consume(env, cfg, w, turn, content, events), said, more);
        said := said + more;
      }
    case ToolResult(_, _, _) =>
      said := ConsumeIsFaithful(env, cfg, w, turn, content, events[1..]);
    case _ =>
      said := [events[0]];
      SilentText(said);
  }

  /** A turn charges the meter at most once, for its own message, and only for an
      admin-provided model; it touches no message on the way. */
  lemma {:induction false} ConsumeChargesOnce(
    env: Env, cfg: Config, w: World, turn: TurnInfo, content: string, events: seq<Event>)
    returns (charged: seq<Charge>)
    ensures var c := Consume(env, cfg, w, turn, content, events);
            && c.w.trail.charges == w.trail.charges + charged
            && |charged| <= 1 && (charged != [] ==> turn.provider.adminProvided && cfg.metered)
            && (forall k :: 0 <= k < |charged| ==> charged[k].message == turn.message && charged[k].user == turn.user
                                                    && Done(Some(charged[k].usage)) in events)
            && c.w.store == w.store && c.w.clock == w.clock
    decreases |events|
  {
    charged := [];
    if events != [] {
      match events[0]
      case Text(text) =>
        charged := ConsumeChargesOnce(env, cfg, Emit(env, w, events[0]).0, turn, content + text, events[1..]);
        if Emit(env, w, events[0]).1 { charged := []; }
      case ToolCall(_, _, _, _) =>
        var (w1, failed) := Handle(env, cfg, w, turn.user, turn.message, turn.policy, events[0]);
        var said := HandleSpeaks(env, cfg, w, turn.user, turn.message, turn.policy, events[0]);
        charged := ConsumeChargesOnce(env, cfg, w1, turn, content, events[1..]);
        if failed { charged := []; }
      case ToolResult(_, _, _) =>
        charged := ConsumeChargesOnce(env, cfg, w, turn, content, events[1..]);
      case Done(usage) =>
        if turn.provider.adminProvided && cfg.metered && usage.Some? {
          charged := [Charge(turn.user, turn.conversation, turn.message, usage.value)];
        }
      case Error(_) =>
    }
  }

  lemma {:induction false} SilentText(said: seq<Event>)
    requires forall k :: 0 <= k < |said| ==> !said[k].Text?
    ensures TextIn(said) == ""
  {
    if said != [] {
      SilentText(said[..|said| - 1]);
    }
  }

  /** ms' are the messages ms, the content of those with that id replaced. */
  ghost predicate ContentSet(ms: seq<Message>, ms': seq<Message>, id: Id, content: string) {
    && |ms'| == |ms|
    && forall k :: 0 <= k < |ms| ==>
         if ms[k].id == id
         then ms'[k] == Message(id, ms[k].user, ms[k].conversation, ms[k].role, content, ms[k].at)
         else ms'[k] == ms[k]
  }

  lemma {:induction false} ContentIsSet(ms: seq<Message>, id: Id, content: string)
    ensures ContentSet(ms, WithContent(ms, id, content), id, content)
  {
    if ms != [] {
      ContentIsSet(ms[..|ms| - 1], id, content);
    }
  }

  /** The reply saved for a turn is the text its client was handed: the message of the
      turn has it as its content, and no other message changes. */
  lemma ReplyIsWhatWasStreamed(env: Env, cfg: Config, w: World, turn: TurnInfo, req: Harness.Request)
    returns (said: seq<Event>)
    requires !(exists k :: env.contentFails(k))
    ensures var w' := Deliver(env, cfg, w, turn, req).0;
            && w'.trail.sent == w.trail.sent + said && DoneIsLast(said)
            && w'.store == w.store.(messages := w'.store.messages) && w'.clock == w.clock
            && ContentSet(w.store.messages, w'.store.messages, turn.message, TextIn(said))
  {
    var (w1, events) := Harness.Run(env, cfg, turn.user, w, req);
    var body, tail := Harness.RunIsSound(env, cfg, turn.user, w, req);
    said := ConsumeIsFaithful(env, cfg, w1, turn, "", events);
    var charged := ConsumeChargesOnce(env, cfg, w1, turn, "", events);
    var c := Consume(env, cfg, w1, turn, "", events);
    assert "" + TextIn(said) == TextIn(said);
    assert !env.contentFails(c.w.tick);
    ContentIsSet(w.store.messages, turn.message, TextIn(said));
  }

  // ----- Metering over runs ------------------------------------------------------

  lemma {:induction false} NoAdminModels(cfg: Config, p: Policy, user: Id, rows: seq<ProviderConfig>)
    ensures FirstUsable(cfg, p, user, rows).Ok? ==> !FirstUsable(cfg, p, user, rows).value.adminProvided
  {
    if rows != [] {
      NoAdminModels(cfg, p, user, rows[1..]);
    }
  }

  lemma DeliverChargesOnce(env: Env, cfg: Config, w: World, turn: TurnInfo, req: Harness.Request)
    returns (charged: seq<Charge>)
    ensures Deliver(env, cfg, w, turn, req).0.trail.charges == w.trail.charges + charged
    ensures |charged| <= 1 && (charged != [] ==> turn.provider.adminProvided && cfg.metered)
  {
    var (w1, events) := Harness.Run(env, cfg, turn.user, w, req);
    var body, tail := Harness.RunIsSound(env, cfg, turn.user, w, req);
    charged := ConsumeChargesOnce(env, cfg, w1, turn, "", events);
  }

  lemma SendChargesNothing(env: Env, cfg: Config, w: World, user: Id, conversation: Id, text: string)
    ensures StreamMessage(env, cfg, w, user, conversation, text).0.trail.charges == w.trail.charges
  {
    var (w1, p) := Admit(env, cfg, w, user, conversation, text);
    AdmitOnlyTicks(env, cfg, w, user, conversation, text);
    if p.Ok? {
      var (w2, prompt) := AddMessage(env, w1, user, conversation, UserRole, text);
      if prompt.Some? { RespondChargesNothing(env, cfg, w2, user, conversation, text, p.value); }
    }
  }

  lemma RespondChargesNothing(env: Env, cfg: Config, w: World, user: Id, conversation: Id, text: string, p: Policy)
    ensures Respond(env, cfg, w, user, conversation, text, p).0.trail.charges == w.trail.charges
  {
    var (w1, provider) := ResolveProvider(env, cfg, w, user, p);
    NoAdminModels(cfg, p, user, w.store.providers);
    if provider.Ok? {
      AnswerChargesNothing(env, cfg, w1, user, conversation, text, p, provider.value);
    }
  }

  lemma AnswerChargesNothing(
    env: Env, cfg: Config, w: World, user: Id, conversation: Id, text: string, p: Policy, provider: Harness.Resolved)
    requires !provider.adminProvided
    ensures AnswerTurn(env, cfg, w, user, conversation, text, p, provider).0.trail.charges == w.trail.charges
  {
    var w1 := Audit(env, w, user, MessageSend).0;
    var (w3, reply) := AddMessage(env, Tick(w1), user, conversation, AssistantRole, "");
    if !env.readFails(w1.tick) && reply.Some? {
      var charged := DeliverChargesOnce(env, cfg, w3, TurnInfo(user, conversation, reply.value, p, provider),
                                        Harness.Request(History(w1.store.messages, conversation), text,
                                                         provider, Tools(cfg, p)));
    }
  }

  /** As wired, every model is the user's own, so no run ever charges the meter. */
  lemma {:induction false} RunsNeverCharge(env: Env, cfg: Config, steps: seq<Step>)
    ensures Run(env, cfg, steps).trail.charges == []
  {
    if steps != [] {
      var w, step := Run(env, cfg, steps[..|steps| - 1]), steps[|steps| - 1];
      RunsNeverCharge(env, cfg, steps[..|steps| - 1]);
      if step.Send? {
        SendChargesNothing(env, cfg, w, step.user, step.conversation, step.text);
      } else {
        OtherStepsChargeNothing(env, cfg, w, step);
      }
    }
  }

  lemma OtherStepsChargeNothing(env: Env, cfg: Config, w: World, step: Step)
    requires !step.Send?
    ensures Apply(env, cfg, w, step).trail.charges == w.trail.charges
  {
  }

  // ----- Read-only calls -----------------------------------------------------------

  datatype Asked = Asked(tool: string, args: string)

  /** The undenied runs of a stretch of the executor's log. */
  function Permitted(norm: string -> string, deny: seq<string>, runs: seq<Execution>): seq<Asked> {
    if runs == [] then []
    else
      var e := runs[|runs| - 1];
      Permitted(norm, deny, runs[..|runs| - 1]) + if Denied(norm, e.tool, deny) then [] else [Asked(e.tool, e.args)]
  }

  /** The undenied read-only calls among events, in order. */
  function ReadOnlyCalls(cfg: Config, deny: seq<string>, events: seq<Event>): seq<Asked> {
    if events == [] then []
    else
      var e := events[|events| - 1];
      ReadOnlyCalls(cfg, deny, events[..|events| - 1])
      + if e.ToolCall? && !cfg.destructive(e.tool) && !Denied(cfg.norm, e.tool, deny)
        then [Asked(e.tool, e.args)] else []
  }

  ghost predicate ResultsAreNonEmpty(env: Env) {
    forall k :: env.runs(k).Returned? ==> env.runs(k).result != ""
  }

  /** A harness that has tools runs exactly the read-only calls of its channel. */
  lemma {:induction false} HarnessRunsReadOnly(cfg: Config, user: Id, deny: seq<string>, events: seq<Event>)
    ensures Permitted(cfg.norm, deny, Harness.Ran(cfg, user, events))
            == if cfg.harnessHasTools then ReadOnlyCalls(cfg, deny, events) else []
  {
    if events != [] {
      var init, e := events[..|events| - 1], events[|events| - 1];
      HarnessRunsReadOnly(cfg, user, deny, init);
      var before := Harness.Ran(cfg, user, init);
      if e.ToolCall? && !Harness.Surfaced(cfg, e.tool) {
        var all := Harness.Ran(cfg, user, events);
        assert all[..|all| - 1] == before;
      } else {
        assert before + [] == before;
        assert Permitted(cfg.norm, deny, before) + [] == Permitted(cfg.norm, deny, before);
      }
    }
  }

  /** One call in the service: it runs the tool iff the call is undenied, comes
      without a result, is read-only and its row could be stored. */
  lemma HandleRuns(env: Env, cfg: Config, w: World, user: Id, message: Id, p: Policy, ev: Event)
    requires ev.ToolCall? && cfg.serviceHasTools
    ensures var (w', failed) := Handle(env, cfg, w, user, message, p, ev);
            w'.calls.executions ==
              w.calls.executions
              + if !Denied(cfg.norm, ev.tool, p.denyTools) && ev.result == "" && !cfg.destructive(ev.tool) && !failed
                then [Execution(ev.tool, ev.args, user, Inline(w.nextId), Recorded(env.runs(w.tick + 1)))] else []
  {
    assert w.calls.executions + [] == w.calls.executions;
  }

  /** A call the harness already ran is run again by the service exactly when its
      recorded result is empty. */
  lemma RunsAgainIffEmpty(env: Env, cfg: Config, w: World, user: Id, message: Id, p: Policy, ev: Event)
    requires ev.ToolCall? && cfg.serviceHasTools && !cfg.destructive(ev.tool) && !Denied(cfg.norm, ev.tool, p.denyTools)
    requires !Handle(env, cfg, w, user, message, p, ev).1
    ensures Handle(env, cfg, w, user, message, p, ev).0.calls.executions != w.calls.executions <==> ev.result == ""
  {
    HandleRuns(env, cfg, w, user, message, p, ev);
  }

  /** Read-only calls carry a result exactly when the harness has tools. */
  ghost predicate Labelled(cfg: Config, events: seq<Event>) {
    forall k :: 0 <= k < |events| && events[k].ToolCall? && !cfg.destructive(events[k].tool) ==>
      (events[k].result != "" <==> cfg.harnessHasTools)
  }

  /** The undenied read-only calls that come without a result, in order. */
  function Unanswered(cfg: Config, deny: seq<string>, events: seq<Event>): seq<Asked> {
    if events == [] then []
    else
      var e := events[|events| - 1];
      Unanswered(cfg, deny, events[..|events| - 1])
      + if e.ToolCall? && e.result == "" && !cfg.destructive(e.tool) && !Denied(cfg.norm, e.tool, deny)
        then [Asked(e.tool, e.args)] else []
  }

  lemma {:induction false} UnansweredAppend(cfg: Config, deny: seq<string>, a: seq<Event>, b: seq<Event>)
    ensures Unanswered(cfg, deny, a + b) == Unanswered(cfg, deny, a) + Unanswered(cfg, deny, b)
  {
    if b == [] {
      assert a + b == a;
    } else {
      assert (a + b)[..|a + b| - 1] == a + b[..|b| - 1];
      UnansweredAppend(cfg, deny, a, b[..|b| - 1]);
    }
  }

  lemma UnansweredStep(cfg: Config, deny: seq<string>, events: seq<Event>, n: nat)
    requires n < |events|
    ensures Unanswered(cfg, deny, events[..n + 1])
         == Unanswered(cfg, deny, [events[0]]) + Unanswered(cfg, deny, events[1..][..n])
    ensures !events[0].ToolCall? ==> Unanswered(cfg, deny, events[..n + 1]) == Unanswered(cfg, deny, events[1..][..n])
  {
    assert events[..n + 1] == [events[0]] + events[1..][..n] && [events[0]][..0] == [];
    UnansweredAppend(cfg, deny, [events[0]], events[1..][..n]);
  }

  /** runs are calls of undenied tools, and these ones. */
  ghost predicate RunsAre(norm: string -> string, deny: seq<string>, runs: seq<Execution>, asked: seq<Asked>) {
    && (forall k :: 0 <= k < |runs| ==> !Denied(norm, runs[k].tool, deny))
    && Permitted(norm, deny, runs) == asked
  }

  lemma HandleRunsUnanswered(env: Env, cfg: Config, w: World, turn: TurnInfo, ev: Event) returns (first: seq<Execution>)
    requires cfg.serviceHasTools && ev.ToolCall?
    ensures var (w1, failed) := Handle(env, cfg, w, turn.user, turn.message, turn.policy, ev);
            var deny := turn.policy.denyTools;
            && w1.calls.executions == w.calls.executions + first
            && RunsAre(cfg.norm, deny, first, if failed then [] else Unanswered(cfg, deny, [ev]))
  {
    HandleRuns(env, cfg, w, turn.user, turn.message, turn.policy, ev);
    assert [ev][..0] == [];
    var (w1, failed) := Handle(env, cfg, w, turn.user, turn.message, turn.policy, ev);
    if !Denied(cfg.norm, ev.tool, turn.policy.denyTools) && ev.result == "" && !cfg.destructive(ev.tool) && !failed {
      first := [Execution(ev.tool, ev.args, turn.user, Inline(w.nextId), Recorded(env.runs(w.tick + 1)))];
      assert first[..0] == [];
    } else {
      first := [];
    }
  }

  /** How many events the service handles to their end: up to the first whose text did
      not get through or whose row could not be stored, up to an error, or up to and
      including Done. */
  function Handled(env: Env, cfg: Config, w: World, turn: TurnInfo, content: string, events: seq<Event>): (n: nat)
    ensures n <= |events|
    decreases |events|
  {
    if events == [] then 0
    else
      match events[0]
      case Text(text) =>
        var (w1, failed) := Emit(env, w, events[0]);
        if failed then 0 else 1 + Handled(env, cfg, w1, turn, content + text, events[1..])
      case ToolCall(_, _, _, _) =>
        var (w1, failed) := Handle(env, cfg, w, turn.user, turn.message, turn.policy, events[0]);
        if failed then 0 else 1 + Handled(env, cfg, w1, turn, content, events[1..])
      case Done(_) => 1
      case Error(_) => 0
      case ToolResult(_, _, _) => 1 + Handled(env, cfg, w, turn, content, events[1..])
  }

  /** The meter is charged exactly when the service got to a done event with usage, for an
      admin-provided model on a metered service: once, with that usage. */
  lemma {:induction false} ConsumeChargesExactly(
    env: Env, cfg: Config, w: World, turn: TurnInfo, content: string, events: seq<Event>)
    ensures var n := Handled(env, cfg, w, turn, content, events);
            Consume(env, cfg, w, turn, content, events).w.trail.charges
            == w.trail.charges
               + if n > 0 && events[n - 1].Done? && events[n - 1].usage.Some?
                    && turn.provider.adminProvided && cfg.metered
                 then [Charge(turn.user, turn.conversation, turn.message, events[n - 1].usage.value)] else []
    decreases |events|
  {
    assert w.trail.charges + [] == w.trail.charges;
    if events != [] {
      match events[0]
      case Text(text) =>
        ConsumeChargesExactly(env, cfg, Emit(env, w, events[0]).0, turn, content + text, events[1..]);
      case ToolCall(_, _, _, _) =>
        var w1 := Handle(env, cfg, w, turn.user, turn.message, turn.policy, events[0]).0;
        var said := HandleSpeaks(env, cfg, w, turn.user, turn.message, turn.policy, events[0]);
        ConsumeChargesExactly(env, cfg, w1, turn, content, events[1..]);
      case ToolResult(_, _, _) => ConsumeChargesExactly(env, cfg, w, turn, content, events[1..]);
      case Done(_) =>
      case Error(_) =>
    }
  }

  /** Consuming ends well exactly when the service got to a done event or to the end of the
      channel, and the done event it then hands over gets through. */
  lemma {:induction false} ConsumeEndsWellIff(
    env: Env, cfg: Config, w: World, turn: TurnInfo, content: string, events: seq<Event>)
    ensures var n, c := Handled(env, cfg, w, turn, content, events), Consume(env, cfg, w, turn, content, events);
            && c.w.tick > 0
            && (!c.failed <==> (n == |events| || (n > 0 && events[n - 1].Done?)) && !env.emitFails(c.w.tick - 1))
    decreases |events|
  {
    if events != [] {
      match events[0]
      case Text(text) =>
        ConsumeEndsWellIff(env, cfg, Emit(env, w, events[0]).0, turn, content + text, events[1..]);
      case ToolCall(_, _, _, _) =>
        var w1 := Handle(env, cfg, w, turn.user, turn.message, turn.policy, events[0]).0;
        ConsumeEndsWellIff(env, cfg, w1, turn, content, events[1..]);
      case ToolResult(_, _, _) => ConsumeEndsWellIff(env, cfg, w, turn, content, events[1..]);
      case Done(_) =>
      case Error(_) =>
    }
  }

  /** What the service adds to the log while it consumes the events. */
  ghost predicate ServiceRan(
    env: Env, cfg: Config, w: World, turn: TurnInfo, content: string, events: seq<Event>, runs: seq<Execution>)
  {
    var c, n := Consume(env, cfg, w, turn, content, events), Handled(env, cfg, w, turn, content, events);
    && c.w.calls.executions == w.calls.executions + runs
    && RunsAre(cfg.norm, turn.policy.denyTools, runs, Unanswered(cfg, turn.policy.denyTools, events[..n]))
    && (!c.failed && (forall k :: 0 <= k < |events| - 1 ==> !events[k].Done?) ==> n == |events|)
  }

  /** The service's part: it runs, of the events it handles, exactly the undenied
      read-only calls that come without a result. */
  lemma {:induction false} ServiceRunsUnanswered(
    env: Env, cfg: Config, w: World, turn: TurnInfo, content: string, events: seq<Event>)
    returns (runs: seq<Execution>)
    requires cfg.serviceHasTools
    ensures ServiceRan(env, cfg, w, turn, content, events, runs)
    decreases |events|, 1
  {
    runs := [];
    assert w.calls.executions + [] == w.calls.executions;
    if events == [] { return; }
    var deny, rest := turn.policy.denyTools, events[1..];
    match events[0]
    case ToolCall(_, _, _, _) =>
      runs := ServiceAfterCall(env, cfg, w, turn, content, events);
    case Done(_) =>
      UnansweredStep(cfg, deny, events, 0);
    case Error(_) =>
    case Text(text) =>
      if !env.emitFails(w.tick) {
        runs := ServiceAfterText(env, cfg, w, turn, content, events);
      }
    case ToolResult(_, _, _) =>
      runs := ServiceRunsUnanswered(env, cfg, w, turn, content, rest);
      UnansweredStep(cfg, deny, events, Handled(env, cfg, w, turn, content, rest));
  }

  lemma {:induction false} ServiceAfterText(
    env: Env, cfg: Config, w: World, turn: TurnInfo, content: string, events: seq<Event>)
    returns (runs: seq<Execution>)
    requires cfg.serviceHasTools && events != [] && events[0].Text? && !env.emitFails(w.tick)
    ensures ServiceRan(env, cfg, w, turn, content, events, runs)
    decreases |events|, 0
  {
    var w1, content1 := Emit(env, w, events[0]).0, content + events[0].text;
    runs := ServiceRunsUnanswered(env, cfg, w1, turn, content1, events[1..]);
    UnansweredStep(cfg, turn.policy.denyTools, events, Handled(env, cfg, w1, turn, content1, events[1..]));
  }

  lemma {:induction false} ServiceAfterCall(
    env: Env, cfg: Config, w: World, turn: TurnInfo, content: string, events: seq<Event>)
    returns (runs: seq<Execution>)
    requires cfg.serviceHasTools && events != [] && events[0].ToolCall?
    ensures ServiceRan(env, cfg, w, turn, content, events, runs)
    decreases |events|, 0
  {
    var deny := turn.policy.denyTools;
    var (w1, failed) := Handle(env, cfg, w, turn.user, turn.message, turn.policy, events[0]);
    var first := HandleRunsUnanswered(env, cfg, w, turn, events[0]);
    if failed {
      runs := first;
    } else {
      var more := ServiceRunsUnanswered(env, cfg, w1, turn, content, events[1..]);
      UnansweredStep(cfg, deny, events, Handled(env, cfg, w1, turn, content, events[1..]));
      PermittedAppend(cfg.norm, deny, first, more);
      Regroup(w.calls.executions, first, more);
      runs := first + more;
    }
  }

  lemma {:induction false} PermittedAppend(
    norm: string -> string, deny: seq<string>, a: seq<Execution>, b: seq<Execution>)
    ensures Permitted(norm, deny, a + b) == Permitted(norm, deny, a) + Permitted(norm, deny, b)
  {
    if b == [] {
      assert a + b == a;
    } else {
      assert (a + b)[..|a + b| - 1] == a + b[..|b| - 1];
      PermittedAppend(norm, deny, a, b[..|b| - 1]);
    }
  }

  /** A whole turn, whatever the results: besides what the harness ran, the service runs
      exactly the undenied read-only calls it handles whose recorded result is empty. */
  lemma TurnRunsUnanswered(env: Env, cfg: Config, w: World, turn: TurnInfo, req: Harness.Request)
    returns (byService: seq<Execution>)
    requires cfg.serviceHasTools
    ensures var (w1, events) := Harness.Run(env, cfg, turn.user, w, req);
            var deny, n := turn.policy.denyTools, Handled(env, cfg, w1, turn, "", events);
            && w1.calls.executions == w.calls.executions + Harness.Ran(cfg, turn.user, events)
            && Deliver(env, cfg, w, turn, req).0.calls.executions == w1.calls.executions + byService
            && RunsAre(cfg.norm, deny, byService, Unanswered(cfg, deny, events[..n]))
            && (!Consume(env, cfg, w1, turn, "", events).failed ==> n == |events|)
  {
    var (w1, events) := Harness.Run(env, cfg, turn.user, w, req);
    DoneEndsChannel(env, cfg, turn.user, w, req);
    byService := ServiceRunsUnanswered(env, cfg, w1, turn, "", events);
  }

  /** Saving the reply runs nothing. */
  lemma DeliverLog(env: Env, cfg: Config, w: World, turn: TurnInfo, req: Harness.Request)
    ensures var (w1, events) := Harness.Run(env, cfg, turn.user, w, req);
            Deliver(env, cfg, w, turn, req).0.calls.executions
            == Consume(env, cfg, w1, turn, "", events).w.calls.executions
  {
  }

  /** So a tool can run twice in a turn in which the model asked for it once: in the
      harness, with an empty result, and for that reason in the service again. */
  lemma EmptyResultRunsTwice(env: Env, cfg: Config, w: World, turn: TurnInfo, req: Harness.Request, c: ModelCall)
    returns (w1: World, ev: Event)
    requires cfg.serviceHasTools && Harness.HasModel(req)
    requires !Harness.Surfaced(cfg, c.name) && !Denied(cfg.norm, c.name, turn.policy.denyTools)
    requires Ask(env.replies(w.tick)) == Answered([], [c], None)
    requires Ask(env.replies(w.tick + 2)) == Interrupted([], Cancelled)
    requires env.runs(w.tick + 1) == Returned("") && !env.createFails(w.tick + 3)
    ensures ev == ToolCall(c.name, c.args, FromModel(c.id), "")
    ensures Harness.Run(env, cfg, turn.user, w, req) == (w1, [ev])
    ensures w1.calls.executions == w.calls.executions + [Harness.FirstRun(env, w, turn.user, c)]
    ensures Deliver(env, cfg, w, turn, req).0.calls.executions
         == w1.calls.executions
            + [Execution(ev.tool, ev.args, turn.user, Inline(w1.nextId), Recorded(env.runs(w1.tick + 1)))]
  {
    w1, ev := EmptyResultInHarness(env, cfg, turn.user, w, req, c);
    AfterOneRun(env, w, turn.user, c);
    DeliverRunsAgain(env, cfg, w, turn, req, w1, ev);
  }

  lemma EmptyResultInHarness(env: Env, cfg: Config, user: Id, w: World, req: Harness.Request, c: ModelCall)
    returns (w1: World, ev: Event)
    requires Harness.HasModel(req) && !Harness.Surfaced(cfg, c.name) && env.runs(w.tick + 1) == Returned("")
    requires Ask(env.replies(w.tick)) == Answered([], [c], None)
    requires Ask(env.replies(w.tick + 2)) == Interrupted([], Cancelled)
    ensures ev == ToolCall(c.name, c.args, FromModel(c.id), "") && Harness.Run(env, cfg, user, w, req) == (w1, [ev])
    ensures w1 == Tick(Execute(env, Tick(w), user, c.name, c.args, InHarness).0)
  {
    Harness.OneCallTurn(env, cfg, user, w, req, c);
    w1 := Tick(Execute(env, Tick(w), user, c.name, c.args, InHarness).0);
    ev := ToolCall(c.name, c.args, FromModel(c.id), Recorded(env.runs(w.tick + 1)));
  }

  lemma AfterOneRun(env: Env, w: World, user: Id, c: ModelCall)
    ensures var w1 := Tick(Execute(env, Tick(w), user, c.name, c.args, InHarness).0);
            w1.tick == w.tick + 3 && w1.calls.executions == w.calls.executions + [Harness.FirstRun(env, w, user, c)]
  {
  }

  lemma DeliverRunsAgain(
    env: Env, cfg: Config, w: World, turn: TurnInfo, req: Harness.Request, w1: World, ev: Event)
    requires Harness.Run(env, cfg, turn.user, w, req) == (w1, [ev])
    requires cfg.serviceHasTools && ev.ToolCall? && ev.result == "" && !env.createFails(w1.tick)
    requires !cfg.destructive(ev.tool) && !Denied(cfg.norm, ev.tool, turn.policy.denyTools)
    ensures Deliver(env, cfg, w, turn, req).0.calls.executions
         == w1.calls.executions
            + [Execution(ev.tool, ev.args, turn.user, Inline(w1.nextId), Recorded(env.runs(w1.tick + 1)))]
  {
    OneCallRunsAgain(env, cfg, w1, turn, ev);
    DeliverLog(env, cfg, w, turn, req);
  }

  lemma OneCallRunsAgain(env: Env, cfg: Config, w: World, turn: TurnInfo, ev: Event)
    requires cfg.serviceHasTools && ev.ToolCall? && ev.result == "" && !env.createFails(w.tick)
    requires !cfg.destructive(ev.tool) && !Denied(cfg.norm, ev.tool, turn.policy.denyTools)
    ensures Consume(env, cfg, w, turn, "", [ev]).w.calls.executions
         == w.calls.executions
            + [Execution(ev.tool, ev.args, turn.user, Inline(w.nextId), Recorded(env.runs(w.tick + 1)))]
  {
    HandleRuns(env, cfg, w, turn.user, turn.message, turn.policy, ev);
    assert [ev][1..] == [];
  }

  /** Where read-only calls carry a result exactly if the harness has tools, it leaves
      nothing unanswered, or everything. */
  lemma {:induction false} UnansweredIfLabelled(cfg: Config, deny: seq<string>, events: seq<Event>)
    requires Labelled(cfg, events)
    ensures Unanswered(cfg, deny, events) == if cfg.harnessHasTools then [] else ReadOnlyCalls(cfg, deny, events)
  {
    if events != [] {
      UnansweredIfLabelled(cfg, deny, events[..|events| - 1]);
    }
  }

  /** With an executor in the harness or without, and non-empty results: of the events the
      service handles, the undenied read-only calls are each run exactly once and in order,
      by harness or service; of those behind, the service runs none. */
  lemma ReadOnlyCallsRunOnce(env: Env, cfg: Config, w: World, turn: TurnInfo, req: Harness.Request)
    returns (byService: seq<Execution>)
    requires cfg.serviceHasTools && ResultsAreNonEmpty(env)
    ensures var (w1, events) := Harness.Run(env, cfg, turn.user, w, req);
            var deny, n := turn.policy.denyTools, Handled(env, cfg, w1, turn, "", events);
            && w1.calls.executions == w.calls.executions + Harness.Ran(cfg, turn.user, events)
            && Deliver(env, cfg, w, turn, req).0.calls.executions == w1.calls.executions + byService
            && Permitted(cfg.norm, deny, Harness.Ran(cfg, turn.user, events[..n]))
               + Permitted(cfg.norm, deny, byService)
               == ReadOnlyCalls(cfg, deny, events[..n])
            && (!Consume(env, cfg, w1, turn, "", events).failed ==> n == |events|)
  {
    var (w1, events) := Harness.Run(env, cfg, turn.user, w, req);
    var handled := events[..Handled(env, cfg, w1, turn, "", events)];
    HarnessLabels(env, cfg, turn.user, w, req);
    byService := TurnRunsUnanswered(env, cfg, w, turn, req);
    HarnessRunsReadOnly(cfg, turn.user, turn.policy.denyTools, handled);
    UnansweredIfLabelled(cfg, turn.policy.denyTools, handled);
  }

  lemma DoneEndsChannel(env: Env, cfg: Config, user: Id, w: World, req: Harness.Request)
    ensures var (w1, events) := Harness.Run(env, cfg, user, w, req);
            && w1.calls.executions == w.calls.executions + Harness.Ran(cfg, user, events)
            && (forall k :: 0 <= k < |events| - 1 ==> !events[k].Done?)
  {
    var body, tail := Harness.RunIsSound(env, cfg, user, w, req);
    Harness.RanInBody(cfg, user, body, tail);
    NoDoneInBody(env, cfg, body, tail);
  }

  lemma NoDoneInBody(env: Env, cfg: Config, body: seq<Event>, tail: seq<Event>)
    requires forall k :: 0 <= k < |body| ==> Harness.FromHarness(env, cfg, body[k])
    requires tail == [] || (|tail| == 1 && tail[0].Done?)
    ensures forall k :: 0 <= k < |body + tail| - 1 ==> !(body + tail)[k].Done?
  {
    forall k | 0 <= k < |body + tail| - 1 ensures !(body + tail)[k].Done? {
      assert Harness.FromHarness(env, cfg, body[k]);
    }
  }

  lemma HarnessLabels(env: Env, cfg: Config, user: Id, w: World, req: Harness.Request)
    requires ResultsAreNonEmpty(env)
    ensures Labelled(cfg, Harness.Run(env, cfg, user, w, req).1)
  {
    var body, tail := Harness.RunIsSound(env, cfg, user, w, req);
    BodyIsLabelled(env, cfg, body, tail);
  }

  lemma BodyIsLabelled(env: Env, cfg: Config, body: seq<Event>, tail: seq<Event>)
    requires ResultsAreNonEmpty(env)
    requires forall k :: 0 <= k < |body| ==> Harness.FromHarness(env, cfg, body[k])
    requires tail == [] || (|tail| == 1 && tail[0].Done?)
    ensures Labelled(cfg, body + tail)
  {
    var events := body + tail;
    forall k | 0 <= k < |events| && events[k].ToolCall? && !cfg.destructive(events[k].tool)
      ensures events[k].result != "" <==> cfg.harnessHasTools
    {
      assert k < |body| && events[k] == body[k] && Harness.FromHarness(env, cfg, body[k]);
    }
  }

  // ----- Pre-flight ----------------------------------------------------------------

  ghost predicate RepositoryWorks(env: Env) {
    forall k :: !env.readFails(k) && !env.createFails(k)
  }

  /** The verdicts a pre-flight check can give. */
  predicate Preflight(f: Fault) {
    f in {Disabled, TooLarge, NotFound, Archived, RateLimited, ForceAdmin}
  }

  /** From the same state and clock: a pre-flight rejection is the turn's own, and
      after a clean one the turn fails for none of those reasons. */
  lemma PrecheckForetellsTurn(env: Env, cfg: Config, w: World, user: Id, conversation: Id, text: string)
    requires RepositoryWorks(env)
    ensures var pre := Precheck(env, cfg, w, user, conversation, text).1;
            var turn := StreamMessage(env, cfg, w, user, conversation, text).1;
            && (pre.Some? ==> turn == pre && Preflight(pre.value))
            && (pre.None? ==> turn.None? || !Preflight(turn.value))
  {
    var (w1, p) := Admit(env, cfg, w, user, conversation, text);
    if p.Ok? {
      var (w2, prompt) := AddMessage(env, w1, user, conversation, UserRole, text);
      assert prompt.Some?;
      UsableFault(cfg, p.value, user, w2.store.providers);
    }
  }

  lemma {:induction false} UsableFault(cfg: Config, p: Policy, user: Id, rows: seq<ProviderConfig>)
    ensures FirstUsable(cfg, p, user, rows).Err? ==> FirstUsable(cfg, p, user, rows).fault == Internal
  {
    if rows != [] {
      UsableFault(cfg, p, user, rows[1..]);
    }
  }

  // ----- The prompt in the history ----------------------------------------------------

  /** The history handed to the harness ends with the prompt that triggered the turn. */
  lemma PromptIsInHistory(env: Env, w: World, user: Id, conversation: Id, text: string)
    requires !env.createFails(w.tick)
    ensures var w1 := AddMessage(env, w, user, conversation, UserRole, text).0;
            var h := History(w1.store.messages, conversation);
            |h| > 0 && h[|h| - 1] == Harness.Past("user", text)
  {
    var w1 := AddMessage(env, w, user, conversation, UserRole, text).0;
    var ms := w1.store.messages;
    assert ms[..|ms| - 1] == w.store.messages;
  }

  /** The messages of the base transcript end with the prompt twice in a row if and only
      if it is not empty. */
  lemma PromptIsSentTwiceIff(
    env: Env, cfg: Config, w: World, user: Id, conversation: Id, text: string, provider: Harness.Resolved, p: Policy)
    requires !env.createFails(w.tick)
    ensures var w1 := AddMessage(env, w, user, conversation, UserRole, text).0;
            var req := Harness.Request(History(w1.store.messages, conversation), text, provider, Tools(cfg, p));
            var base := Harness.BaseMessages(cfg.systemPrompt, req);
            var prompt := Harness.ChatMessage(Harness.UserSays, text, [], "");
            && |base| > 0 && base[|base| - 1] == prompt
            && (|base| > 1 && base[|base| - 2] == prompt <==> text != "")
  {
    var w1 := AddMessage(env, w, user, conversation, UserRole, text).0;
    var h := History(w1.store.messages, conversation);
    PromptIsInHistory(env, w, user, conversation, text);
    TwiceBehindHistory(cfg.systemPrompt, Harness.Request(h, text, provider, Tools(cfg, p)));
  }

  lemma TwiceBehindHistory(systemPrompt: string, req: Harness.Request)
    requires req.history != [] && req.history[|req.history| - 1] == Harness.Past("user", req.prompt)
    ensures var base := Harness.BaseMessages(systemPrompt, req);
            var prompt := Harness.ChatMessage(Harness.UserSays, req.prompt, [], "");
            && |base| > 0 && base[|base| - 1] == prompt
            && (|base| > 1 && base[|base| - 2] == prompt <==> req.prompt != "")
  {
    var h := req.history;
    var before, chat := Harness.HistoryChat(h[..|h| - 1]), Harness.HistoryChat(h);
    HistoryHasContent(h);
    if req.prompt != "" {
      assert chat == before + [Harness.ChatMessage(Harness.UserSays, req.prompt, [], "")];
    }
  }

  lemma {:induction false} HistoryHasContent(history: seq<Harness.Past>)
    ensures forall k :: 0 <= k < |Harness.HistoryChat(history)| ==> Harness.HistoryChat(history)[k].content != ""
  {
    if history != [] {
      HistoryHasContent(history[..|history| - 1]);
    }
  }
}
