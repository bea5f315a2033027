/** The wiring of the process: service and harness share one enforcing executor, which
    writes to the same audit log as the service. One call of that executor is one call
    of the executor of the agent's world, audit rows and outcomes included, and in every
    run what it runs stands behind a check for the user of the step. */
module AgentWiring {
  import opened AgentTypes
  import opened AgentRuns
  import opened AgentWorld
  import E = EnforcingExecutor

  /** The audit rows in a trace, as the log shows them. */
  function RowsIn(trace: seq<E.Act>): seq<AuditRow> {
    if trace == [] then []
    else
      var last := trace[|trace| - 1];
      RowsIn(trace[..|trace| - 1]) + if last.Audited? then [AuditRow(last.id, ToolExecute, last.user)] else []
  }

  /** The outcomes in a trace. */
  function OutcomesIn(trace: seq<E.Act>): seq<Outcome> {
    if trace == [] then []
    else
      var last := trace[|trace| - 1];
      OutcomesIn(trace[..|trace| - 1]) + if last.Marked? then [Outcome(last.id, last.status == E.Success)] else []
  }

  /** The rows one call writes, each by the outcomes it gets: none for a tool that needs
      no permission, one row for any other unless the log fails, with an outcome if the
      call is let through. */
  function NotesOf(o: E.Outside, s: E.State, caller: E.Caller, tool: string): seq<seq<bool>> {
    if tool !in E.PERMISSION || o.emitFails(s.tick + 1) then []
    else if E.Judge(o, s, caller).Refused? || o.markFails(s.tick + 3) then [[]]
    else [[o.runs(s.tick + 2).Returned?]]
  }

  /** s' has written rows and outcomes on top of what s had. */
  ghost predicate Wrote(s: E.State, s': E.State, rows: seq<AuditRow>, outcomes: seq<Outcome>) {
    RowsIn(s'.trace) == RowsIn(s.trace) + rows && OutcomesIn(s'.trace) == OutcomesIn(s.trace) + outcomes
  }

  lemma DidWrites(s: E.State, act: E.Act)
    ensures Wrote(s, E.Did(s, act),
                  if act.Audited? then [AuditRow(act.id, ToolExecute, act.user)] else [],
                  if act.Marked? then [Outcome(act.id, act.status == E.Success)] else [])
  {
    var t := E.Did(s, act).trace;
    assert t[..|t| - 1] == s.trace;
  }

  lemma AuditWrites(o: E.Outside, s: E.State, tool: string, user: Id, status: E.Status, extra: E.Meta)
    ensures var (s', id) := E.AuditTool(o, s, tool, user, status, extra);
            && Wrote(s, s', if o.emitFails(s.tick) then [] else [AuditRow(s.nextId, ToolExecute, user)], [])
            && id == (if o.emitFails(s.tick) then NIL else s.nextId)
            && s'.tick == s.tick + 1 && s'.nextId == s.nextId + if o.emitFails(s.tick) then 0 else 1
  {
    DidWrites(s, E.Audited(s.nextId, status, user, E.BaseMeta(tool) + extra));
    assert RowsIn(s.trace) + [] == RowsIn(s.trace) && OutcomesIn(s.trace) + [] == OutcomesIn(s.trace);
  }

  lemma MarkWrites(o: E.Outside, s: E.State, id: Id, status: E.Status)
    ensures Wrote(s, E.Mark(o, s, id, status), [],
                  if id == NIL || o.markFails(s.tick) then [] else [Outcome(id, status == E.Success)])
  {
    DidWrites(s, E.Marked(id, status));
    assert RowsIn(s.trace) + [] == RowsIn(s.trace) && OutcomesIn(s.trace) + [] == OutcomesIn(s.trace);
  }

  lemma CheckAndAuditWrite(
    o: E.Outside, s: E.State, caller: E.Caller, tool: string, slug: string, status: E.Status, extra: E.Meta)
    ensures var (s', id) := E.AuditTool(o, E.Require(o, s, caller, slug).0, tool, caller.user, status, extra);
            var fails := o.emitFails(s.tick + 1);
            && Wrote(s, s', if fails then [] else [AuditRow(s.nextId, ToolExecute, caller.user)], [])
            && id == (if fails then NIL else s.nextId)
            && s'.tick == s.tick + 2 && s'.nextId == s.nextId + if fails then 0 else 1
  {
    DidWrites(s, E.Checked(caller, slug, E.Judge(o, s, caller)));
    AuditWrites(o, E.Require(o, s, caller, slug).0, tool, caller.user, status, extra);
  }

  /** A call let through: the pending row, the run, the outcome of the row. */
  lemma GrantedWrites(o: E.Outside, s: E.State, caller: E.Caller, tool: string, args: string)
    requires s.nextId != NIL && tool in E.PERMISSION && E.Judge(o, s, caller).Granted?
    ensures var rows := if o.emitFails(s.tick + 1) then [] else [AuditRow(s.nextId, ToolExecute, caller.user)];
            var marks := if o.emitFails(s.tick + 1) || o.markFails(s.tick + 3) then []
                         else [Outcome(s.nextId, o.runs(s.tick + 2).Returned?)];
            Wrote(s, E.Execute(o, s, caller, tool, args).0, rows, marks)
  {
    var slug := E.PERMISSION[tool];
    var extra := map["permission" := slug];
    CheckAndAuditWrite(o, s, caller, tool, slug, E.Pending, extra);
    var (s2, id) := E.AuditTool(o, E.Require(o, s, caller, slug).0, tool, caller.user, E.Pending, extra);
    RunAndMarkWrite(o, s2, caller, tool, args, id);
  }

  lemma RunAndMarkWrite(o: E.Outside, s: E.State, caller: E.Caller, tool: string, args: string, id: Id)
    ensures var (s1, outcome) := E.RunInner(o, s, caller, tool, args);
            var s2 := E.Mark(o, s1, id, if outcome.Returned? then E.Success else E.Failure);
            && outcome == o.runs(s.tick)
            && Wrote(s, s2, [], if id == NIL || o.markFails(s.tick + 1) then [] else [Outcome(id, outcome.Returned?)])
  {
    var (s1, outcome) := E.RunInner(o, s, caller, tool, args);
    DidWrites(s, E.Ran(caller, tool, args, outcome));
    MarkWrites(o, s1, id, if outcome.Returned? then E.Success else E.Failure);
  }

  lemma RefusedWrites(o: E.Outside, s: E.State, caller: E.Caller, tool: string, args: string)
    requires s.nextId != NIL && tool in E.PERMISSION && E.Judge(o, s, caller).Refused?
    ensures var rows := if o.emitFails(s.tick + 1) then [] else [AuditRow(s.nextId, ToolExecute, caller.user)];
            Wrote(s, E.Execute(o, s, caller, tool, args).0, rows, [])
  {
    var slug, v := E.PERMISSION[tool], E.Judge(o, s, caller);
    var meta := map["permission" := slug, "denied" := E.Reason(slug, v.why)];
    CheckAndAuditWrite(o, s, caller, tool, slug, E.Failure, meta);
  }

  lemma NotesAreWritten(o: E.Outside, s: E.State, caller: E.Caller, tool: string, args: string)
    requires s.nextId != NIL && s.trace == []
    ensures var s', notes := E.Execute(o, s, caller, tool, args).0, NotesOf(o, s, caller, tool);
            && RowsIn(s'.trace) == NoteRows(caller.user, s.nextId, notes)
            && OutcomesIn(s'.trace) == NoteMarks(s.nextId, notes)
            && s'.nextId == s.nextId + |notes|
  {
    OneNote(caller.user, s.nextId, NotesOf(o, s, caller, tool));
    CallWrites(o, s, caller, tool, args);
  }

  /** The rows and the outcome of one call, let through or not. */
  lemma CallWrites(o: E.Outside, s: E.State, caller: E.Caller, tool: string, args: string)
    requires s.nextId != NIL
    ensures var s', notes := E.Execute(o, s, caller, tool, args).0, NotesOf(o, s, caller, tool);
            && Wrote(s, s', if notes == [] then [] else [AuditRow(s.nextId, ToolExecute, caller.user)],
                     if notes == [] || notes[0] == [] then [] else [Outcome(s.nextId, notes[0][0])])
            && s'.nextId == s.nextId + |notes|
  {
    if tool !in E.PERMISSION {
      DidWrites(s, E.Ran(caller, tool, args, o.runs(s.tick)));
    } else if E.Judge(o, s, caller).Granted? {
      GrantedWrites(o, s, caller, tool, args);
    } else {
      RefusedWrites(o, s, caller, tool, args);
    }
  }

  lemma OneNote(user: Id, first: Id, notes: seq<seq<bool>>)
    requires |notes| <= 1 && (notes != [] ==> |notes[0]| <= 1)
    ensures NoteRows(user, first, notes) == if notes == [] then [] else [AuditRow(first, ToolExecute, user)]
    ensures NoteMarks(first, notes) == if notes == [] || notes[0] == [] then [] else [Outcome(first, notes[0][0])]
  {
    if notes != [] {
      assert notes[..0] == [] && NoteMarks(first, []) == [];
      if notes[0] != [] {
        assert notes[0][..0] == [] && Marks(first, []) == [];
        assert Marks(first, notes[0]) == [Outcome(first, notes[0][0])];
      }
    }
  }

  /** The enforcing executor behind the agent: when the world's executor answers a call
      as the enforcing one does and notes what that one notes, the log of the world
      grows by exactly the rows and outcomes of its trace, under the same ids. */
  lemma EnforcedCallIsExecute(
    env: Env, w: World, o: E.Outside, now: nat, caller: E.Caller, tool: string, args: string, origin: Origin)
    requires w.nextId != NIL
    requires var s := E.State(now, w.nextId, []);
             && env.runs(w.tick) == E.Execute(o, s, caller, tool, args).1
             && env.notes(w.tick) == NotesOf(o, s, caller, tool)
    ensures var (s', outcome) := E.Execute(o, E.State(now, w.nextId, []), caller, tool, args);
            var (w', answer) := Execute(env, w, caller.user, tool, args, origin);
            && answer == outcome && w'.nextId == s'.nextId
            && w'.trail.audits == w.trail.audits + RowsIn(s'.trace)
            && w'.trail.outcomes == w.trail.outcomes + OutcomesIn(s'.trace)
  {
    NotesAreWritten(o, E.State(now, w.nextId, []), caller, tool, args);
  }

  // ----- Runs ------------------------------------------------------------------------

  /** The call ran the tool inside, once, for the caller and with this outcome, and right
      behind a granted check of the tool's permission for that caller. */
  ghost predicate GatedCall(trace: seq<E.Act>, caller: E.Caller, tool: string, args: string, outcome: ToolOutcome) {
    exists m :: 0 <= m < |trace| && trace[m] == E.Ran(caller, tool, args, outcome) && tool in E.PERMISSION
                && E.Gated(trace, m) && forall j :: 0 <= j < |trace| && j != m ==> !trace[j].Ran?
  }

  /** The call ran nothing, and the outcome says that its check was refused. */
  ghost predicate RefusedCall(trace: seq<E.Act>, verdict: E.Verdict, tool: string, outcome: ToolOutcome) {
    && (forall m :: 0 <= m < |trace| ==> !trace[m].Ran?)
    && verdict.Refused? && tool in E.PERMISSION
    && outcome == Raised("agent.tool.execute " + tool + ": " + E.Reason(E.PERMISSION[tool], verdict.why))
  }

  /** A call on a module tool: run behind its check, or refused by it. */
  lemma CallIsGatedOrRefused(o: E.Outside, s: E.State, caller: E.Caller, tool: string, args: string)
    requires s.trace == [] && tool in E.PERMISSION
    ensures var (s', outcome) := E.Execute(o, s, caller, tool, args);
            if E.Judge(o, s, caller).Granted? then GatedCall(s'.trace, caller, tool, args, outcome)
            else RefusedCall(s'.trace, E.Judge(o, s, caller), tool, outcome)
  {
    var (s', outcome) := E.Execute(o, s, caller, tool, args);
    E.ExecuteIsGated(o, s, caller, tool, args);
    if E.Judge(o, s, caller).Granted? {
      var m := if o.emitFails(s.tick + 1) then 1 else 2;
      assert s'.trace[m] == E.Ran(caller, tool, args, outcome);
      assert E.Gated(s'.trace, m);
    }
  }

  /** The executor behind a log is the enforcing one: every result is the answer of a call
      of it for the actor, each from a state of its own. */
  ghost predicate Enforced(o: E.Outside, tenant: Id, log: seq<Execution>, states: seq<E.State>) {
    && |states| == |log|
    && forall k :: 0 <= k < |log| ==>
         states[k].trace == [] && log[k].result == Recorded(CallOf(o, tenant, log[k], states[k]).1)
  }

  function CallOf(o: E.Outside, tenant: Id, e: Execution, s: E.State): (E.State, ToolOutcome) {
    E.Execute(o, s, E.Caller(e.actor, tenant), e.tool, e.args)
  }

  /** In every run whose executor is the enforcing one, each execution of a module tool is
      for the user of the turn or confirmation that asked for it: run inside, right behind
      a granted check of its permission for that user, with the result that the log shows;
      or run not at all, and the log shows the refusal. */
  lemma EnforcedRunsAreGated(
    env: Env, cfg: Config, steps: seq<Step>, o: E.Outside, tenant: Id, states: seq<E.State>, k: nat) returns (i: nat)
    requires Enforced(o, tenant, Run(env, cfg, steps).calls.executions, states) && k < |states|
    requires Run(env, cfg, steps).calls.executions[k].tool in E.PERMISSION
    ensures i < |steps| && (steps[i].Send? || steps[i].Decide?)
    ensures var e := Run(env, cfg, steps).calls.executions[k];
            var (s', outcome) := CallOf(o, tenant, e, states[k]);
            var w, caller := Run(env, cfg, steps[..i]), E.Caller(steps[i].user, tenant);
            && |w.calls.executions| <= k < |Apply(env, cfg, w, steps[i]).calls.executions|
            && e.result == Recorded(outcome)
            && if E.Judge(o, states[k], caller).Granted? then GatedCall(s'.trace, caller, e.tool, e.args, outcome)
               else RefusedCall(s'.trace, E.Judge(o, states[k], caller), e.tool, outcome)
  {
    i := AddedInStep(env, cfg, steps, k);
    StepRunsForUser(env, cfg, Run(env, cfg, steps[..i]), steps[i], k);
    var e := Run(env, cfg, steps).calls.executions[k];
    CallIsGatedOrRefused(o, states[k], E.Caller(e.actor, tenant), e.tool, e.args);
  }
}
