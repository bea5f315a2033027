/** The executor that gates every module tool by a permission and leaves an audit
    trail; what it does is told as a trace of acts, in order. */
module EnforcingExecutor {
  import opened AgentTypes
  import opened Sequences
  import opened Wrappers

  datatype Status = Pending | Success | Failure

  /** The caller carried in the context; NIL for an absent id. */
  datatype Caller = Caller(user: Id, tenant: Id)

  datatype Refusal = Unauthenticated | TenantScopeRequired | NoPolicy | PolicyFailed(error: string) | PermissionDenied

  datatype Verdict = Granted | Refused(why: Refusal)

  type Meta = map<string, string>

  datatype Act =
    | Checked(caller: Caller, slug: string, verdict: Verdict)
    | Audited(id: Id, status: Status, user: Id, meta: Meta)
    | Ran(caller: Caller, tool: string, args: string, outcome: ToolOutcome)
    | Marked(id: Id, status: Status)

  datatype PolicyAnswer = Answer(allowed: bool) | Trouble(error: string)

  /** The outside, by tick: the policy evaluator (if one is wired), the audit
      emitter and the inner executor. */
  datatype Outside = Outside(
    policy: Option<nat -> PolicyAnswer>,
    emitFails: nat -> bool,
    markFails: nat -> bool,
    runs: nat -> ToolOutcome)

  datatype State = State(tick: nat, nextId: Id, trace: seq<Act>)

  const PERMISSION: map<string, string> := map[
    "dns.list_zones" := "dns.zone.read",
    "compute.list_instances" := "compute.instance.read",
    "storage.list_buckets" := "s3.bucket.read",
    "billing.list_usage" := "billing.ledger.read",
    "audit.list_events" := "audit.read"
  ]

  function Did(s: State, act: Act): State {
    s.(trace := s.trace + [act])
  }

  function Judge(o: Outside, s: State, caller: Caller): Verdict {
    if caller.user == NIL then Refused(Unauthenticated)
    else if caller.tenant == NIL then Refused(TenantScopeRequired)
    else
      match o.policy
      case None => Refused(NoPolicy)
      case Some(policy) =>
        match policy(s.tick)
        case Trouble(error) => Refused(PolicyFailed(error))
        case Answer(allowed) => if allowed then Granted else Refused(PermissionDenied)
  }

  predicate Known(caller: Caller) {
    caller.user != NIL && caller.tenant != NIL
  }

  /** What the policy says now. */
  predicate Says(o: Outside, s: State, answer: PolicyAnswer) {
    o.policy.Some? && o.policy.value(s.tick) == answer
  }

  /** A check is granted to a known user in a known tenant by a policy that says yes, and
      to no one else; each refusal has its one cause. */
  lemma VerdictIsExact(o: Outside, s: State, caller: Caller, error: string)
    ensures Judge(o, s, caller) == Granted <==> Known(caller) && Says(o, s, Answer(true))
    ensures Judge(o, s, caller) == Refused(Unauthenticated) <==> caller.user == NIL
    ensures Judge(o, s, caller) == Refused(TenantScopeRequired) <==> caller.user != NIL && caller.tenant == NIL
    ensures Judge(o, s, caller) == Refused(NoPolicy) <==> Known(caller) && o.policy.None?
    ensures Judge(o, s, caller) == Refused(PolicyFailed(error)) <==> Known(caller) && Says(o, s, Trouble(error))
    ensures Judge(o, s, caller) == Refused(PermissionDenied) <==> Known(caller) && Says(o, s, Answer(false))
  {
  }

  /** The five tools that are gated, and what each asks for. */
  lemma GatedTools(tool: string)
    ensures tool in PERMISSION <==>
      tool in {"dns.list_zones", "compute.list_instances", "storage.list_buckets",
               "billing.list_usage", "audit.list_events"}
    ensures PERMISSION["dns.list_zones"] == "dns.zone.read"
    ensures PERMISSION["compute.list_instances"] == "compute.instance.read"
    ensures PERMISSION["storage.list_buckets"] == "s3.bucket.read"
    ensures PERMISSION["billing.list_usage"] == "billing.ledger.read"
    ensures PERMISSION["audit.list_events"] == "audit.read"
  {
  }

  /** rbac.Require. */
  function Require(o: Outside, s: State, caller: Caller, slug: string): (State, Verdict) {
    var v := Judge(o, s, caller);
    (Did(s, Checked(caller, slug, v)).(tick := s.tick + 1), v)
  }

  function Reason(slug: string, why: Refusal): string {
    match why
    case Unauthenticated => "rbac: user id required"
    case TenantScopeRequired => "rbac: tenant scope required"
    case NoPolicy => "rbac: require: rbac: permission denied (no policy wired)"
    case PolicyFailed(error) => "rbac: require " + slug + ": " + error
    case PermissionDenied => "rbac: permission denied"
  }

  /** A failing policy is quoted with the permission that was asked for. */
  lemma RefusalsSayWhy(slug: string, error: string)
    ensures Reason(slug, Unauthenticated) == "rbac: user id required"
    ensures Reason(slug, TenantScopeRequired) == "rbac: tenant scope required"
    ensures Reason(slug, NoPolicy) == "rbac: require: rbac: permission denied (no policy wired)"
    ensures Reason(slug, PolicyFailed(error)) == "rbac: require " + slug + ": " + error
    ensures Reason(slug, PermissionDenied) == "rbac: permission denied"
  {
  }

  function BaseMeta(tool: string): Meta {
    map["via_agent" := "true", "tool" := tool]
  }

  /** One audit row, or none and the nil id when the emitter fails. */
  function AuditTool(o: Outside, s: State, tool: string, user: Id, status: Status, extra: Meta): (State, Id) {
    if o.emitFails(s.tick) then (s.(tick := s.tick + 1), NIL)
    else (Did(s, Audited(s.nextId, status, user, BaseMeta(tool) + extra))
         .(tick := s.tick + 1, nextId := s.nextId + 1),
          s.nextId)
  }

  function RunInner(o: Outside, s: State, caller: Caller, tool: string, args: string): (State, ToolOutcome) {
    var outcome := o.runs(s.tick);
    (Did(s, Ran(caller, tool, args, outcome)).(tick := s.tick + 1), outcome)
  }

  function Mark(o: Outside, s: State, id: Id, status: Status): State {
    if id == NIL then s
    else if o.markFails(s.tick) then s.(tick := s.tick + 1)
    else Did(s, Marked(id, status)).(tick := s.tick + 1)
  }

  function Execute(o: Outside, s: State, caller: Caller, tool: string, args: string): (State, ToolOutcome) {
    if tool !in PERMISSION then RunInner(o, s, caller, tool, args)
    else
      var slug := PERMISSION[tool];
      var (s1, v) := Require(o, s, caller, slug);
      match v
      case Refused(why) =>
        (AuditTool(o, s1, tool, caller.user, Failure, map["permission" := slug, "denied" := Reason(slug, why)]).0,
         Raised("agent.tool.execute " + tool + ": " + Reason(slug, why)))
      case Granted =>
        var (s2, id) := AuditTool(o, s1, tool, caller.user, Pending, map["permission" := slug]);
        var (s3, outcome) := RunInner(o, s2, caller, tool, args);
        (Mark(o, s3, id, if outcome.Returned? then Success else Failure), outcome)
  }

  // ----- Runs ------------------------------------------------------------------

  datatype Call = Call(caller: Caller, tool: string, args: string)

  const FRESH := State(0, 1, [])

  function ExecuteAll(o: Outside, calls: seq<Call>): State {
    if calls == [] then FRESH
    else
      var c := calls[|calls| - 1];
      Execute(o, ExecuteAll(o, calls[..|calls| - 1]), c.caller, c.tool, c.args).0
  }

  /** Act k ran the inner executor on a module tool right behind a passed check of
      that tool's slug for that caller; at most the audit row lies between. */
  ghost predicate Gated(trace: seq<Act>, k: nat)
    requires k < |trace| && trace[k].Ran? && trace[k].tool in PERMISSION
  {
    exists j :: 0 <= j < k
                && trace[j] == Checked(trace[k].caller, PERMISSION[trace[k].tool], Granted)
                && forall m :: j < m < k ==> trace[m].Audited?
  }

  ghost predicate AllGated(trace: seq<Act>) {
    forall k :: 0 <= k < |trace| && trace[k].Ran? && trace[k].tool in PERMISSION ==> Gated(trace, k)
  }

  lemma GateStays(trace: seq<Act>, longer: seq<Act>, k: nat)
    requires trace <= longer && AllGated(trace)
    requires k < |trace| && trace[k].Ran? && trace[k].tool in PERMISSION
    ensures Gated(longer, k)
  {
    assert Gated(trace, k);
    var j :| 0 <= j < k && trace[j] == Checked(trace[k].caller, PERMISSION[trace[k].tool], Granted)
             && forall m :: j < m < k ==> trace[m].Audited?;
    assert longer[j] == trace[j];
    assert forall m :: j < m < k ==> longer[m] == trace[m];
  }

  lemma ExecuteIsGated(o: Outside, s: State, caller: Caller, tool: string, args: string)
    requires AllGated(s.trace)
    ensures AllGated(Execute(o, s, caller, tool, args).0.trace)
  {
    var t := Execute(o, s, caller, tool, args).0.trace;
    var n := |s.trace|;
    assert s.trace <= t;
    forall k | 0 <= k < |t| && t[k].Ran? && t[k].tool in PERMISSION
      ensures Gated(t, k)
    {
      if k < n {
        GateStays(s.trace, t, k);
      } else {
        assert t[n] == Checked(caller, PERMISSION[tool], Granted);
      }
    }
  }

  /** Over any sequence of calls, the inner executor runs a module tool only right
      after the permission check for it passed for the caller in context. */
  lemma {:induction false} InnerRunsAreGated(o: Outside, calls: seq<Call>)
    ensures AllGated(ExecuteAll(o, calls).trace)
  {
    if calls != [] {
      var c := calls[|calls| - 1];
      InnerRunsAreGated(o, calls[..|calls| - 1]);
      ExecuteIsGated(o, ExecuteAll(o, calls[..|calls| - 1]), c.caller, c.tool, c.args);
    }
  }

  /** Every granted check in the trace was for a known user in a known tenant, and some
      answer of the policy was yes. */
  ghost predicate GrantsDeserved(o: Outside, trace: seq<Act>) {
    forall k :: 0 <= k < |trace| && trace[k].Checked? && trace[k].verdict.Granted? ==>
      && trace[k].caller.user != NIL && trace[k].caller.tenant != NIL
      && o.policy.Some? && exists tick: nat :: o.policy.value(tick) == Answer(true)
  }

  lemma {:induction false} GrantsAreDeserved(o: Outside, calls: seq<Call>)
    ensures GrantsDeserved(o, ExecuteAll(o, calls).trace)
  {
    if calls != [] {
      var s, c := ExecuteAll(o, calls[..|calls| - 1]), calls[|calls| - 1];
      GrantsAreDeserved(o, calls[..|calls| - 1]);
      VerdictIsExact(o, s, c.caller, "");
      ExecuteChecksOnce(o, s, c);
    }
  }

  lemma ExecuteChecksOnce(o: Outside, s: State, c: Call)
    ensures var t := Execute(o, s, c.caller, c.tool, c.args).0.trace;
            && s.trace <= t
            && forall k :: |s.trace| <= k < |t| && t[k].Checked? ==>
                 t[k].caller == c.caller && t[k].verdict == Judge(o, s, c.caller)
  {
  }

  // ----- The audit trail ---------------------------------------------------------

  ghost predicate EmitterWorks(o: Outside) {
    forall k :: !o.emitFails(k) && !o.markFails(k)
  }

  function RowsOf(trace: seq<Act>): seq<Act> {
    if trace == [] then []
    else RowsOf(trace[..|trace| - 1]) + if trace[|trace| - 1].Audited? then [trace[|trace| - 1]] else []
  }

  function MarksOf(trace: seq<Act>, id: Id): seq<Status> {
    if trace == [] then []
    else
      var last := trace[|trace| - 1];
      MarksOf(trace[..|trace| - 1], id) + if last.Marked? && last.id == id then [last.status] else []
  }

  function Attempts(calls: seq<Call>): seq<Call> {
    if calls == [] then []
    else Attempts(calls[..|calls| - 1]) + if calls[|calls| - 1].tool in PERMISSION then [calls[|calls| - 1]] else []
  }

  /** A row stands right behind its user's check for the permission it names, pending
      exactly when that was granted and a failure exactly when it was refused. */
  ghost predicate RowChecked(trace: seq<Act>, k: nat)
    requires k < |trace| && trace[k].Audited?
  {
    && k > 0 && trace[k - 1].Checked? && trace[k - 1].caller.user == trace[k].user
    && "permission" in trace[k].meta && trace[k].meta["permission"] == trace[k - 1].slug
    && trace[k].status == (if trace[k - 1].verdict.Granted? then Pending else Failure)
    && (trace[k - 1].verdict.Refused? ==>
          "denied" in trace[k].meta && trace[k].meta["denied"] == Reason(trace[k - 1].slug, trace[k - 1].verdict.why))
  }

  /** And its outcomes: none unless it is pending, and then exactly one, success
      exactly when the run it opened, of the tool it names, returned. */
  ghost predicate RowSettled(trace: seq<Act>, k: nat)
    requires k < |trace| && trace[k].Audited?
  {
    && RowChecked(trace, k)
    && if trace[k].status != Pending then MarksOf(trace, trace[k].id) == []
    else
      && k + 1 < |trace| && trace[k + 1].Ran? && Describes(trace[k].meta, trace[k + 1].tool)
      && MarksOf(trace, trace[k].id) == [if trace[k + 1].outcome.Returned? then Success else Failure]
  }

  /** Every row is settled; identifiers from n on are unused. */
  ghost predicate AllSettled(trace: seq<Act>, n: Id) {
    && (forall k :: 0 <= k < |trace| && trace[k].Audited? ==> RowSettled(trace, k) && trace[k].id < n)
    && (forall id: Id :: id >= n ==> MarksOf(trace, id) == [])
  }

  predicate RowFits(row: Act, c: Call) {
    row.Audited? && row.user == c.caller.user && Describes(row.meta, c.tool)
  }

  /** One row per attempt, in order, naming the user and the tool. */
  ghost predicate RowPerAttempt(rows: seq<Act>, attempts: seq<Call>) {
    |rows| == |attempts| && forall k :: 0 <= k < |rows| ==> RowFits(rows[k], attempts[k])
  }

  predicate Describes(meta: Meta, tool: string) {
    && "tool" in meta && meta["tool"] == tool
    && "via_agent" in meta && meta["via_agent"] == "true"
    && "permission" in meta && tool in PERMISSION && meta["permission"] == PERMISSION[tool]
  }

  lemma {:induction false} RowsAppend(a: seq<Act>, b: seq<Act>)
    ensures RowsOf(a + b) == RowsOf(a) + RowsOf(b)
  {
    if b == [] {
      assert a + b == a;
    } else {
      assert (a + b)[..|a + b| - 1] == a + b[..|b| - 1];
      RowsAppend(a, b[..|b| - 1]);
    }
  }

  lemma {:induction false} MarksAppend(a: seq<Act>, b: seq<Act>, id: Id)
    ensures MarksOf(a + b, id) == MarksOf(a, id) + MarksOf(b, id)
  {
    if b == [] {
      assert a + b == a;
    } else {
      assert (a + b)[..|a + b| - 1] == a + b[..|b| - 1];
      MarksAppend(a, b[..|b| - 1], id);
    }
  }

  /** The acts of one call when the emitter works. */
  function Block(o: Outside, s: State, c: Call): seq<Act> {
    if c.tool !in PERMISSION then [Ran(c.caller, c.tool, c.args, o.runs(s.tick))]
    else
      var slug, v := PERMISSION[c.tool], Judge(o, s, c.caller);
      match v
      case Refused(why) =>
        [Checked(c.caller, slug, v),
         Audited(s.nextId, Failure, c.caller.user,
                 BaseMeta(c.tool) + map["permission" := slug, "denied" := Reason(slug, why)])]
      case Granted =>
        var outcome := o.runs(s.tick + 2);
        [Checked(c.caller, slug, v),
         Audited(s.nextId, Pending, c.caller.user, BaseMeta(c.tool) + map["permission" := slug]),
         Ran(c.caller, c.tool, c.args, outcome),
         Marked(s.nextId, if outcome.Returned? then Success else Failure)]
  }

  lemma ExecuteIsBlock(o: Outside, s: State, c: Call)
    requires EmitterWorks(o) && s.nextId != NIL
    ensures var s' := Execute(o, s, c.caller, c.tool, c.args).0;
            && s'.trace == s.trace + Block(o, s, c)
            && s'.nextId == s.nextId + if c.tool in PERMISSION then 1 else 0
  {
  }

  lemma SingleAct(a: Act, id: Id)
    ensures MarksOf([a], id) == if a.Marked? && a.id == id then [a.status] else []
    ensures RowsOf([a]) == if a.Audited? then [a] else []
  {
    assert [a][..0] == [];
  }

  /** The outcomes and the row of a call that is let through. */
  lemma FourActs(a: Act, b: Act, c: Act, d: Act, id: Id)
    requires a.Checked? && b.Audited? && c.Ran? && d.Marked?
    ensures MarksOf([a, b, c, d], id) == (if d.id == id then [d.status] else []) && RowsOf([a, b, c, d]) == [b]
  {
    CheckAndRow(a, b, id);
    RunAndMark(c, d, id);
    assert [a, b, c, d] == [a, b] + [c, d];
    MarksAppend([a, b], [c, d], id);
    RowsAppend([a, b], [c, d]);
  }

  lemma CheckAndRow(a: Act, b: Act, id: Id)
    requires a.Checked? && b.Audited?
    ensures MarksOf([a, b], id) == [] && RowsOf([a, b]) == [b]
  {
    TwoActs(a, b, id);
    SingleAct(a, id);
    SingleAct(b, id);
  }

  lemma RunAndMark(c: Act, d: Act, id: Id)
    requires c.Ran? && d.Marked?
    ensures MarksOf([c, d], id) == (if d.id == id then [d.status] else []) && RowsOf([c, d]) == []
  {
    TwoActs(c, d, id);
    SingleAct(c, id);
    SingleAct(d, id);
  }

  lemma TwoActs(a: Act, b: Act, id: Id)
    ensures MarksOf([a, b], id) == MarksOf([a], id) + MarksOf([b], id)
    ensures RowsOf([a, b]) == RowsOf([a]) + RowsOf([b])
  {
    assert [a, b] == [a] + [b];
    MarksAppend([a], [b], id);
    RowsAppend([a], [b]);
  }

  /** The outcomes one block writes for an id, and its row. */
  lemma BlockContents(o: Outside, s: State, c: Call, id: Id)
    ensures var b := Block(o, s, c);
            && MarksOf(b, id) == (if id == s.nextId && c.tool in PERMISSION && Judge(o, s, c.caller).Granted?
                                 then [b[3].status] else [])
            && RowsOf(b) == (if c.tool in PERMISSION then [b[1]] else [])
  {
    var b := Block(o, s, c);
    if c.tool !in PERMISSION {
      SingleAct(b[0], id);
    } else if Judge(o, s, c.caller).Granted? {
      assert b == [b[0], b[1], b[2], b[3]];
      FourActs(b[0], b[1], b[2], b[3], id);
    } else {
      assert b == [b[0], b[1]];
      CheckAndRow(b[0], b[1], id);
    }
  }

  lemma MetaDescribes(tool: string, extra: Meta)
    requires tool in PERMISSION && "permission" in extra && extra["permission"] == PERMISSION[tool]
    requires "tool" !in extra && "via_agent" !in extra
    ensures Describes(BaseMeta(tool) + extra, tool)
  {
  }

  lemma BlockRow(o: Outside, s: State, c: Call)
    requires c.tool in PERMISSION
    ensures var row := Block(o, s, c)[1];
            row.Audited? && row.id == s.nextId && row.user == c.caller.user && Describes(row.meta, c.tool)
  {
    var slug := PERMISSION[c.tool];
    match Judge(o, s, c.caller)
    case Refused(why) => MetaDescribes(c.tool, map["permission" := slug, "denied" := Reason(slug, why)]);
    case Granted => MetaDescribes(c.tool, map["permission" := slug]);
  }

  lemma BlockIsSettled(o: Outside, s: State, c: Call)
    ensures var b := Block(o, s, c);
            && (c.tool in PERMISSION ==> b[1].Audited? && RowSettled(b, 1))
            && (forall k :: 0 <= k < |b| && b[k].Audited? ==> k == 1 && c.tool in PERMISSION)
  {
    BlockContents(o, s, c, s.nextId);
    if c.tool in PERMISSION { BlockRow(o, s, c); }
  }

  /** b is settled in itself: it writes for no id below n, and its row, if any, has id n. */
  ghost predicate BlockSettled(b: seq<Act>, n: Id, row: bool) {
    && (forall id: Id :: id < n ==> MarksOf(b, id) == [])
    && (row ==> |b| > 1 && b[1].Audited? && b[1].id == n && RowSettled(b, 1))
    && (forall k :: 0 <= k < |b| && b[k].Audited? ==> row && k == 1)
  }

  lemma ExecuteKeepsSettled(o: Outside, s: State, c: Call)
    requires EmitterWorks(o) && s.nextId != NIL && AllSettled(s.trace, s.nextId)
    ensures var s' := Execute(o, s, c.caller, c.tool, c.args).0; AllSettled(s'.trace, s'.nextId)
  {
    var s', b := Execute(o, s, c.caller, c.tool, c.args).0, Block(o, s, c);
    ExecuteIsBlock(o, s, c);
    forall id: Id ensures id < s.nextId || id >= s'.nextId ==> MarksOf(b, id) == [] {
      BlockContents(o, s, c, id);
    }
    BlockIsSettled(o, s, c);
    if c.tool in PERMISSION { BlockRow(o, s, c); }
    AppendKeepsSettled(s.trace, b, s.nextId, c.tool in PERMISSION, s'.nextId);
  }

  lemma AppendKeepsSettled(trace: seq<Act>, b: seq<Act>, n: Id, row: bool, n': Id)
    requires AllSettled(trace, n) && BlockSettled(b, n, row) && n' == n + if row then 1 else 0
    requires forall id: Id :: id >= n' ==> MarksOf(b, id) == []
    ensures AllSettled(trace + b, n')
  {
    var t := trace + b;
    forall k | 0 <= k < |t| && t[k].Audited? ensures RowSettled(t, k) && t[k].id < n' {
      if k < |trace| {
        assert t[k] == trace[k] && RowSettled(trace, k);
        OldRowStays(trace, b, k);
      } else {
        assert t[k] == b[k - |trace|];
        NewRowIsSettled(trace, b, n);
      }
    }
    forall id: Id | id >= n' ensures MarksOf(t, id) == [] {
      MarksAppend(trace, b, id);
    }
  }

  lemma OldRowStays(trace: seq<Act>, b: seq<Act>, k: nat)
    requires k < |trace| && trace[k].Audited? && RowSettled(trace, k) && MarksOf(b, trace[k].id) == []
    ensures RowSettled(trace + b, k)
  {
    var t := trace + b;
    MarksAppend(trace, b, trace[k].id);
    assert t[k] == trace[k] && t[k - 1] == trace[k - 1];
    if trace[k].status == Pending { assert t[k + 1] == trace[k + 1]; }
  }

  lemma NewRowIsSettled(trace: seq<Act>, b: seq<Act>, n: Id)
    requires AllSettled(trace, n) && |b| > 1 && b[1].Audited? && b[1].id == n && RowSettled(b, 1)
    ensures RowSettled(trace + b, |trace| + 1)
  {
    var t, m := trace + b, |trace|;
    MarksAppend(trace, b, n);
    assert t[m] == b[0] && t[m + 1] == b[1];
    if b[1].status == Pending { assert t[m + 2] == b[2]; }
  }

  lemma ExecuteAddsRow(o: Outside, s: State, c: Call)
    requires EmitterWorks(o) && s.nextId != NIL
    ensures var t := Execute(o, s, c.caller, c.tool, c.args).0.trace;
            if c.tool in PERMISSION
            then exists row :: RowsOf(t) == RowsOf(s.trace) + [row] && RowFits(row, c)
            else RowsOf(t) == RowsOf(s.trace)
  {
    ExecuteIsBlock(o, s, c);
    BlockContents(o, s, c, s.nextId);
    RowsAppend(s.trace, Block(o, s, c));
    if c.tool in PERMISSION {
      BlockRow(o, s, c);
      assert RowFits(Block(o, s, c)[1], c);
    } else {
      assert RowsOf(s.trace) + [] == RowsOf(s.trace);
    }
  }

  /** With a working emitter, every attempt on a module tool leaves exactly one
      audit row, naming its tool, permission and user: pending if the check granted it,
      with exactly one outcome, the one its run had; a failure without any if it did
      not. */
  lemma {:induction false} EveryAttemptIsAudited(o: Outside, calls: seq<Call>)
    requires EmitterWorks(o)
    ensures var s := ExecuteAll(o, calls);
            s.nextId != NIL && AllSettled(s.trace, s.nextId) && RowPerAttempt(RowsOf(s.trace), Attempts(calls))
  {
    if calls != [] {
      var init, c := calls[..|calls| - 1], calls[|calls| - 1];
      var s := ExecuteAll(o, init);
      EveryAttemptIsAudited(o, init);
      ExecuteIsBlock(o, s, c);
      ExecuteKeepsSettled(o, s, c);
      ExecuteAddsRow(o, s, c);
    }
  }

  // ----- The code ------------------------------------------------------------------

  class Executor {
    const outside: Outside
    var tick: nat
    var nextId: Id
    var trace: seq<Act>

    ghost function View(): State
      reads this
    {
      State(tick, nextId, trace)
    }

    constructor (outside: Outside)
      ensures View() == FRESH && this.outside == outside
    {
      this.outside := outside;
      tick, nextId, trace := 0, 1, [];
    }

    method Check(caller: Caller, slug: string) returns (v: Verdict)
      modifies this
      ensures (View(), v) == Require(outside, old(View()), caller, slug)
      ensures v == Granted
         <==> caller.user != NIL && caller.tenant != NIL
              && outside.policy.Some? && outside.policy.value(old(tick)) == Answer(true)
    {
      if caller.user == NIL {
        v := Refused(Unauthenticated);
      } else if caller.tenant == NIL {
        v := Refused(TenantScopeRequired);
      } else if outside.policy.None? {
        v := Refused(NoPolicy);
      } else {
        match outside.policy.value(tick) {
          case Trouble(error) => v := Refused(PolicyFailed(error));
          case Answer(allowed) => v := if allowed then Granted else Refused(PermissionDenied);
        }
      }
      tick := tick + 1;
      trace := trace + [Checked(caller, slug, v)];
    }

    /** auditTool: the metadata is the two fixed entries overlaid by the extra ones. */
    method WriteAudit(tool: string, user: Id, status: Status, extra: Meta) returns (id: Id)
      modifies this
      ensures (View(), id) == AuditTool(outside, old(View()), tool, user, status, extra)
    {
      var meta := map["via_agent" := "true"];
      meta := meta["tool" := tool];
      meta := Overlay(meta, extra);
      var now := tick;
      tick := tick + 1;
      if outside.emitFails(now) { return NIL; }
      id := nextId;
      nextId := nextId + 1;
      trace := trace + [Audited(id, status, user, meta)];
    }

    method ExecuteTool(caller: Caller, tool: string, args: string) returns (outcome: ToolOutcome)
      modifies this
      ensures (View(), outcome) == Execute(outside, old(View()), caller, tool, args)
    {
      if tool !in PERMISSION {
        outcome := Inner(caller, tool, args);
        return;
      }
      var slug := PERMISSION[tool];
      var v := Check(caller, slug);
      if v.Refused? {
        var why := Reason(slug, v.why);
        var denied := WriteAudit(tool, caller.user, Failure, map["permission" := slug, "denied" := why]);
        return Raised("agent.tool.execute " + tool + ": " + why);
      }
      var id := WriteAudit(tool, caller.user, Pending, map["permission" := slug]);
      outcome := Inner(caller, tool, args);
      var status := Success;
      if outcome.Raised? { status := Failure; }
      if id != NIL { MarkOutcome(id, status); }
    }

    method Inner(caller: Caller, tool: string, args: string) returns (outcome: ToolOutcome)
      modifies this
      ensures (View(), outcome) == RunInner(outside, old(View()), caller, tool, args)
    {
      outcome := outside.runs(tick);
      tick := tick + 1;
      trace := trace + [Ran(caller, tool, args, outcome)];
    }

    method MarkOutcome(id: Id, status: Status)
      requires id != NIL
      modifies this
      ensures View() == Mark(outside, old(View()), id, status)
    {
      var now := tick;
      tick := tick + 1;
      if outside.markFails(now) { return; }
      trace := trace + [Marked(id, status)];
    }
  }

  /** Copies every entry of extra over base, in whatever order the keys come. */
  method Overlay(base: Meta, extra: Meta) returns (meta: Meta)
    ensures meta == base + extra
  {
    meta := base;
    var left := extra.Keys;
    while left != {}
      invariant left <= extra.Keys
      invariant meta.Keys == base.Keys + (extra.Keys - left)
      invariant forall k :: k in meta ==> meta[k] == if k in extra && k !in left then extra[k] else base[k]
    {
      ghost var some := Pick(left);
      var k :| k in left;
      meta := meta[k := extra[k]];
      left := left - {k};
    }
  }
}
