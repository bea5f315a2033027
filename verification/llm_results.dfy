/** What the model is told about the tools it asked for: every result the harness
    reports on its channel, and nothing else, in the same order. */
module LlmResults {
  import opened AgentTypes
  import opened AgentWorld
  import opened LlmHarness

  type IdAndResult = (string, string)

  /** The tool messages of a transcript: call id and content. */
  function Told(ms: seq<ChatMessage>): seq<IdAndResult> {
    if ms == [] then []
    else
      var last := ms[|ms| - 1];
      Told(ms[..|ms| - 1]) + if last.role == ToolSays then [(last.callId, last.content)] else []
  }

  /** The results on the channel: call id and result of every call that was run. */
  function Reported(cfg: Config, events: seq<Event>): seq<IdAndResult> {
    if events == [] then []
    else
      var e := events[|events| - 1];
      Reported(cfg, events[..|events| - 1])
      + if e.ToolCall? && !Surfaced(cfg, e.tool) && e.ref.FromModel? then [(e.ref.callId, e.result)] else []
  }

  lemma {:induction false} ToldAppend(a: seq<ChatMessage>, b: seq<ChatMessage>)
    ensures Told(a + b) == Told(a) + Told(b)
  {
    if b == [] {
      assert a + b == a;
    } else {
      assert (a + b)[..|a + b| - 1] == a + b[..|b| - 1];
      ToldAppend(a, b[..|b| - 1]);
    }
  }

  lemma {:induction false} ReportedAppend(cfg: Config, a: seq<Event>, b: seq<Event>)
    ensures Reported(cfg, a + b) == Reported(cfg, a) + Reported(cfg, b)
  {
    if b == [] {
      assert a + b == a;
    } else {
      assert (a + b)[..|a + b| - 1] == a + b[..|b| - 1];
      ReportedAppend(cfg, a, b[..|b| - 1]);
    }
  }

  lemma {:induction false} NothingReported(cfg: Config, events: seq<Event>)
    requires forall k :: 0 <= k < |events| ==> !events[k].ToolCall?
    ensures Reported(cfg, events) == []
  {
    if events != [] {
      NothingReported(cfg, events[..|events| - 1]);
    }
  }

  lemma {:induction false} NothingTold(ms: seq<ChatMessage>)
    requires forall k :: 0 <= k < |ms| ==> ms[k].role != ToolSays
    ensures Told(ms) == []
  {
    if ms != [] {
      NothingTold(ms[..|ms| - 1]);
    }
  }

  /** The transcript tells exactly what the channel reports, and each request sent so
      far told a first part of it. */
  ghost predicate Candid(cfg: Config, t: Turn) {
    && Told(t.messages) == Reported(cfg, t.out)
    && forall k :: 0 <= k < |t.asked| ==> Told(t.asked[k]) <= Reported(cfg, t.out)
  }

  lemma HeardIsCandid(model: Model, cfg: Config, t: Turn)
    requires SaysText(model) && Candid(cfg, t)
    ensures Candid(cfg, Heard(model, t))
  {
    var a := model(t.w.tick);
    TextReportsNothing(cfg, t.out, a.out);
    if a.Answered? {
      EchoTellsNothing(t.messages, a.calls);
    }
  }

  lemma TextReportsNothing(cfg: Config, out: seq<Event>, more: seq<Event>)
    requires forall k :: 0 <= k < |more| ==> !more[k].ToolCall?
    ensures Reported(cfg, out + more) == Reported(cfg, out)
  {
    NothingReported(cfg, more);
    ReportedAppend(cfg, out, more);
  }

  lemma EchoTellsNothing(ms: seq<ChatMessage>, calls: seq<ModelCall>)
    ensures Told(ms + if calls == [] then [] else [ChatMessage(ModelSays, "", calls, "")]) == Told(ms)
  {
    var echo := if calls == [] then [] else [ChatMessage(ModelSays, "", calls, "")];
    NothingTold(echo);
    ToldAppend(ms, echo);
  }

  lemma RunCallIsCandid(env: Env, cfg: Config, user: Id, t: Turn, c: ModelCall)
    requires Candid(cfg, t)
    ensures Candid(cfg, RunCall(env, cfg, user, t, c))
  {
    var t1 := RunCall(env, cfg, user, t, c);
    assert t1.out[..|t1.out| - 1] == t.out;
    assert Reported(cfg, t.out) <= Reported(cfg, t1.out);
    if !Surfaced(cfg, c.name) {
      assert t1.messages[..|t1.messages| - 1] == t.messages;
    } else {
      assert Reported(cfg, t1.out) == Reported(cfg, t.out) + [];
    }
  }

  lemma {:induction false} RunCallsIsCandid(env: Env, cfg: Config, user: Id, t: Turn, calls: seq<ModelCall>)
    requires Candid(cfg, t)
    ensures Candid(cfg, RunCalls(env, cfg, user, t, calls))
  {
    if calls != [] {
      RunCallsIsCandid(env, cfg, user, t, calls[..|calls| - 1]);
      RunCallIsCandid(env, cfg, user, RunCalls(env, cfg, user, t, calls[..|calls| - 1]), calls[|calls| - 1]);
    }
  }

  lemma FinishIsCandid(cfg: Config, t: Turn)
    requires Candid(cfg, t)
    ensures Candid(cfg, Finish(t))
  {
    var t1 := Finish(t);
    assert t1.out[..|t1.out| - 1] == t.out;
    assert Reported(cfg, t1.out) == Reported(cfg, t.out) + [];
  }

  lemma RoundIsCandid(model: Model, env: Env, cfg: Config, user: Id, t: Turn)
    requires SaysText(model) && Candid(cfg, t)
    ensures Candid(cfg, Round(model, env, cfg, user, t))
  {
    var t1, calls := Heard(model, t), CallsHeard(model, t);
    HeardIsCandid(model, cfg, t);
    FinishIsCandid(cfg, t1);
    RunCallsIsCandid(env, cfg, user, t1, calls);
    FinishIsCandid(cfg, RunCalls(env, cfg, user, t1, calls));
  }

  lemma {:induction false} RoundsAreCandid(model: Model, env: Env, cfg: Config, user: Id, t: Turn, round: nat)
    requires SaysText(model) && Candid(cfg, t)
    ensures Candid(cfg, Rounds(model, env, cfg, user, t, round))
    decreases MAX_ROUNDS - round
  {
    if round >= MAX_ROUNDS {
      FinishIsCandid(cfg, t);
    } else {
      RoundIsCandid(model, env, cfg, user, t);
      var t1 := Round(model, env, cfg, user, t);
      if t1.ending == Running {
        RoundsAreCandid(model, env, cfg, user, t1, round + 1);
      }
    }
  }

  lemma StartIsCandid(cfg: Config, w: World, req: Request)
    ensures Candid(cfg, Start(cfg, w, req))
  {
    HistoryIsPlain(req.history);
    NothingTold(BaseMessages(cfg.systemPrompt, req));
  }

  /** In every turn, whatever the model does: the tool messages of the transcript are
      the results on the channel, id by id and word for word, and every request carried
      a first part of them. */
  lemma ModelIsToldEveryResult(env: Env, cfg: Config, user: Id, w: World, req: Request)
    ensures var t := Stream(env, cfg, user, w, req);
            && Told(t.messages) == Reported(cfg, t.out)
            && forall k :: 0 <= k < |t.asked| ==> Told(t.asked[k]) <= Reported(cfg, t.out)
  {
    RepliesAreText(env);
    StartIsCandid(cfg, w, req);
    RoundsAreCandid(ReadBy(env), env, cfg, user, Start(cfg, w, req), 0);
  }
}
