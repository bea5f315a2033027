/** Concurrent confirmations of one tool call. ConfirmToolCall reads the status and
    writes the decision in separate steps, so that other requests may come between. */
module ConfirmRace {
  import AgentRuns
  import opened AgentService
  import opened AgentTypes
  import opened AgentWorld

  /** How far a request has come: not started, turned away, decision not yet written,
      tool not yet run, result not yet written, done. */
  datatype Phase = Ready | Refused | Undecided | Decided | Ran | Closed

  datatype Request = Request(approved: bool, phase: Phase)

  /** What happens to the row, in order. Writes that fail leave nothing. */
  datatype Act = Read(approved: bool) | Wrote(status: Status) | Executes(request: nat)

  datatype Race = Race(status: Status, requests: seq<Request>, log: seq<Act>)

  /** One request takes its next step; ok: a status write succeeds, works: the tool does. */
  datatype Move = Move(request: nat, ok: bool, works: bool)

  function At(s: Race, r: nat, phase: Phase): Race
    requires r < |s.requests|
  {
    s.(requests := s.requests[r := s.requests[r].(phase := phase)])
  }

  function Written(s: Race, ok: bool, status: Status): Race {
    if ok then s.(status := status, log := s.log + [Wrote(status)]) else s
  }

  function Step(s: Race, m: Move): Race {
    if m.request >= |s.requests| then s
    else
      var r, me := m.request, s.requests[m.request];
      match me.phase
      case Ready =>
        if s.status != Pending then At(s, r, Refused)
        else At(s.(log := s.log + [Read(me.approved)]), r, Undecided)
      case Undecided =>
        if me.approved then At(Written(s, m.ok, Approved), r, Decided)
        else At(Written(s, m.ok, Rejected), r, Closed)
      case Decided => At(s.(log := s.log + [Executes(r)]), r, Ran)
      case Ran => At(Written(s, m.ok, if m.works then Executed else Failed), r, Closed)
      case _ => s
  }

  function Run(s: Race, moves: seq<Move>): Race {
    if moves == [] then s else Step(Run(s, moves[..|moves| - 1]), moves[|moves| - 1])
  }

  /** A pending row and requests that have not started. */
  predicate Fresh(s: Race) {
    && s.status == Pending && s.log == []
    && forall r :: 0 <= r < |s.requests| ==> s.requests[r].phase == Ready
  }

  predicate Settled(s: Race) {
    forall r :: 0 <= r < |s.requests| ==> s.requests[r].phase in {Refused, Closed}
  }

  // ----- Counting ----------------------------------------------------------------

  /** How often the tool was run. */
  function Runs(log: seq<Act>): nat {
    if log == [] then 0 else Runs(log[..|log| - 1]) + if log[|log| - 1].Executes? then 1 else 0
  }

  predicate AnyWrite(log: seq<Act>) {
    log != [] && (AnyWrite(log[..|log| - 1]) || log[|log| - 1].Wrote?)
  }

  /** The approving requests that read the row before its first write. */
  function EarlyApprovals(log: seq<Act>): nat {
    if log == [] then 0
    else
      var before, last := log[..|log| - 1], log[|log| - 1];
      EarlyApprovals(before) + if last.Read? && last.approved && !AnyWrite(before) then 1 else 0
  }

  function Approving(requests: seq<Request>, phases: set<Phase>): nat {
    if requests == [] then 0
    else
      var last := requests[|requests| - 1];
      Approving(requests[..|requests| - 1], phases) + if last.approved && last.phase in phases then 1 else 0
  }

  const PASSED := {Undecided, Decided, Ran, Closed}
  const EXECUTED := {Ran, Closed}

  lemma {:induction false} ApprovingAfter(requests: seq<Request>, phases: set<Phase>, r: nat, phase: Phase)
    requires r < |requests|
    ensures Approving(requests[r := requests[r].(phase := phase)], phases)
         == Approving(requests, phases)
            - (if requests[r].approved && requests[r].phase in phases then 1 else 0)
            + (if requests[r].approved && phase in phases then 1 else 0)
  {
    var next, n := requests[r := requests[r].(phase := phase)], |requests| - 1;
    if r < n {
      assert next[..n] == requests[..n][r := requests[..n][r].(phase := phase)];
      ApprovingAfter(requests[..n], phases, r, phase);
    } else {
      assert next[..n] == requests[..n];
    }
  }

  lemma {:induction false} ApprovingNone(requests: seq<Request>, phases: set<Phase>)
    requires forall r :: 0 <= r < |requests| ==> requests[r].phase !in phases
    ensures Approving(requests, phases) == 0
  {
    if requests != [] {
      ApprovingNone(requests[..|requests| - 1], phases);
    }
  }

  lemma {:induction false} SettledAgree(requests: seq<Request>)
    requires forall r :: 0 <= r < |requests| ==> requests[r].phase in {Refused, Closed}
    ensures Approving(requests, PASSED) == Approving(requests, EXECUTED)
  {
    if requests != [] {
      SettledAgree(requests[..|requests| - 1]);
    }
  }

  /** What every interleaving keeps: the row is pending exactly until its first write,
      every approving request past its read read it early, and every one past its run
      ran the tool once. */
  ghost predicate Balanced(s: Race) {
    && (s.status == Pending <==> !AnyWrite(s.log))
    && EarlyApprovals(s.log) == Approving(s.requests, PASSED)
    && Runs(s.log) == Approving(s.requests, EXECUTED)
    && forall r :: 0 <= r < |s.requests| && !s.requests[r].approved ==> s.requests[r].phase !in {Decided, Ran}
  }

  lemma Appended(log: seq<Act>, a: Act)
    ensures AnyWrite(log + [a]) <==> AnyWrite(log) || a.Wrote?
    ensures Runs(log + [a]) == Runs(log) + if a.Executes? then 1 else 0
    ensures EarlyApprovals(log + [a])
         == EarlyApprovals(log) + if a.Read? && a.approved && !AnyWrite(log) then 1 else 0
  {
    var next := log + [a];
    assert next[..|log|] == log && next[|log|] == a;
  }

  lemma AdvanceKeepsBalance(s: Race, r: nat, phase: Phase, status: Status, log: seq<Act>)
    requires Balanced(s) && r < |s.requests|
    requires status == Pending <==> !AnyWrite(log)
    requires var me := s.requests[r];
             && (me.phase in PASSED ==> phase in PASSED) && (me.phase in EXECUTED ==> phase in EXECUTED)
             && EarlyApprovals(log) == EarlyApprovals(s.log)
                  + (if me.approved && me.phase !in PASSED && phase in PASSED then 1 else 0)
             && Runs(log) == Runs(s.log) + (if me.approved && me.phase !in EXECUTED && phase in EXECUTED then 1 else 0)
             && (!me.approved ==> phase !in {Decided, Ran})
    ensures Balanced(At(Race(status, s.requests, log), r, phase))
  {
    ApprovingAfter(s.requests, PASSED, r, phase);
    ApprovingAfter(s.requests, EXECUTED, r, phase);
  }

  lemma ReadKeepsBalance(s: Race, r: nat, me: Request)
    requires Balanced(s) && r < |s.requests| && s.requests[r] == me && me.phase == Ready && s.status == Pending
    ensures Balanced(At(Race(s.status, s.requests, s.log + [Read(me.approved)]), r, Undecided))
  {
    Appended(s.log, Read(me.approved));
    AdvanceKeepsBalance(s, r, Undecided, s.status, s.log + [Read(me.approved)]);
  }

  lemma ExecuteKeepsBalance(s: Race, r: nat)
    requires Balanced(s) && r < |s.requests| && s.requests[r].phase == Decided
    ensures Balanced(At(Race(s.status, s.requests, s.log + [Executes(r)]), r, Ran))
  {
    Appended(s.log, Executes(r));
    AdvanceKeepsBalance(s, r, Ran, s.status, s.log + [Executes(r)]);
  }

  lemma WriteKeepsBalance(s: Race, r: nat, ok: bool, status: Status, phase: Phase)
    requires Balanced(s) && r < |s.requests| && status != Pending
    requires var me := s.requests[r];
             if me.phase == Undecided then phase == (if me.approved then Decided else Closed)
             else me.phase == Ran && phase == Closed
    ensures Balanced(At(Written(s, ok, status), r, phase))
  {
    Appended(s.log, Wrote(status));
    var after := Written(s, ok, status);
    AdvanceKeepsBalance(s, r, phase, after.status, after.log);
  }

  lemma StepKeepsBalance(s: Race, m: Move)
    requires Balanced(s)
    ensures Balanced(Step(s, m))
  {
    if m.request < |s.requests| {
      var r, me := m.request, s.requests[m.request];
      match me.phase
      case Ready =>
        if s.status != Pending {
          AdvanceKeepsBalance(s, r, Refused, s.status, s.log);
        } else {
          ReadKeepsBalance(s, r, me);
        }
      case Undecided =>
        if me.approved {
          WriteKeepsBalance(s, r, m.ok, Approved, Decided);
        } else {
          WriteKeepsBalance(s, r, m.ok, Rejected, Closed);
        }
      case Decided => ExecuteKeepsBalance(s, r);
      case Ran => WriteKeepsBalance(s, r, m.ok, if m.works then Executed else Failed, Closed);
      case _ =>
    }
  }

  lemma {:induction false} RunKeepsBalance(s: Race, moves: seq<Move>)
    requires Fresh(s)
    ensures Balanced(Run(s, moves))
  {
    if moves == [] {
      ApprovingNone(s.requests, PASSED);
      ApprovingNone(s.requests, EXECUTED);
    } else {
      RunKeepsBalance(s, moves[..|moves| - 1]);
      StepKeepsBalance(Run(s, moves[..|moves| - 1]), moves[|moves| - 1]);
    }
  }

  // ----- Results -------------------------------------------------------------------

  /** In every interleaving that has settled, the tool ran once for each approving
      request that read the row before its first write: no more than once if and only
      if there was at most one. */
  lemma RunsAreEarlyApprovals(s: Race, moves: seq<Move>)
    requires Fresh(s) && Settled(Run(s, moves))
    ensures var log := Run(s, moves).log;
            Runs(log) == EarlyApprovals(log) && (Runs(log) <= 1 <==> EarlyApprovals(log) <= 1)
  {
    RunKeepsBalance(s, moves);
    SettledAgree(Run(s, moves).requests);
  }

  /** Settled or not, it never ran more often than that. */
  lemma {:induction false} NeverMoreRuns(requests: seq<Request>)
    ensures Approving(requests, EXECUTED) <= Approving(requests, PASSED)
  {
    if requests != [] {
      NeverMoreRuns(requests[..|requests| - 1]);
    }
  }

  lemma RunsNeedEarlyApprovals(s: Race, moves: seq<Move>)
    requires Fresh(s)
    ensures Runs(Run(s, moves).log) <= EarlyApprovals(Run(s, moves).log)
  {
    RunKeepsBalance(s, moves);
    NeverMoreRuns(Run(s, moves).requests);
  }

  /** One request that meets no other: the final status and the number of runs. */
  function Alone(status: Status, approved: bool, ok: bool, okAfter: bool, works: bool): (Status, nat) {
    if status != Pending then (status, 0)
    else if !approved then (if ok then Rejected else Pending, 0)
    else (if okAfter then (if works then Executed else Failed) else if ok then Approved else Pending, 1)
  }

  /** The steps of one request, and its log balanced. */
  lemma TwoSteps(approved: bool, ok: bool) returns (s: Race)
    ensures var m := Move(0, ok, false);
            s == Step(Step(Race(Pending, [Request(approved, Ready)], []), m), m)
    ensures Balanced(s) && s.requests == [Request(approved, if approved then Decided else Closed)]
    ensures s.status == if ok then (if approved then Approved else Rejected) else Pending
  {
    var s0 := Race(Pending, [Request(approved, Ready)], []);
    ApprovingNone(s0.requests, PASSED);
    ApprovingNone(s0.requests, EXECUTED);
    var m := Move(0, ok, false);
    StepKeepsBalance(s0, m);
    s := Step(s0, m);
    assert s.requests == [Request(approved, Undecided)] && s.status == Pending;
    StepKeepsBalance(s, m);
    s := Step(s, m);
  }

  lemma LastSteps(s: Race, m: Move, n: Move) returns (t: Race)
    requires Balanced(s) && |s.requests| == 1 && m.request == n.request == 0
    requires s.requests[0].phase == if s.requests[0].approved then Decided else Closed
    ensures t == Step(Step(s, m), n) && Balanced(t) && t.requests == [Request(s.requests[0].approved, Closed)]
    ensures t.status ==
      if s.requests[0].approved && n.ok then (if n.works then Executed else Failed) else s.status
  {
    StepKeepsBalance(s, m);
    t := Step(s, m);
    StepKeepsBalance(t, n);
    t := Step(t, n);
    assert t.requests[0] == Request(s.requests[0].approved, Closed);
  }

  lemma FourSteps(approved: bool, ok: bool, okAfter: bool, works: bool) returns (s: Race)
    ensures var m := Move(0, ok, false);
            s == Step(Step(Step(Step(Race(Pending, [Request(approved, Ready)], []), m), m), m), Move(0, okAfter, works))
    ensures Balanced(s) && s.requests == [Request(approved, Closed)]
    ensures s.status == Alone(Pending, approved, ok, okAfter, works).0
  {
    s := TwoSteps(approved, ok);
    s := LastSteps(s, Move(0, ok, false), Move(0, okAfter, works));
  }

  lemma StepsAlone(status: Status, approved: bool, ok: bool, okAfter: bool, works: bool)
    ensures var s0 := Race(status, [Request(approved, Ready)], []);
            var m := Move(0, ok, false);
            var s := Step(Step(Step(Step(s0, m), m), m), Move(0, okAfter, works));
            Settled(s) && (s.status, Runs(s.log)) == Alone(status, approved, ok, okAfter, works)
  {
    if status != Pending {
      var s0 := Race(status, [Request(approved, Ready)], []);
      assert Step(s0, Move(0, ok, false)).requests == [Request(approved, Refused)];
    } else {
      var s := FourSteps(approved, ok, okAfter, works);
      assert s.requests[..0] == [];
      assert Approving(s.requests, EXECUTED) == if approved then 1 else 0;
    }
  }

  lemma ApproveIsAlone(env: Env, cfg: Config, w: World, user: Id, id: Id, row: ToolCallRow)
    requires cfg.serviceHasTools && Owned(w, user, id) && w.calls.rows[id].status == Pending
    ensures var calls := Approve(env, cfg, w, user, id, row).0.calls;
            && id in calls.rows && |calls.executions| == |w.calls.executions| + 1
            && calls.rows[id].status == Alone(Pending, true, !env.statusFails(w.tick), !env.statusFails(w.tick + 2),
                                              env.runs(w.tick + 1).Returned?).0
  {
  }

  /** Confirm of the service model is one request that meets no other: same status in
      the end, and as many runs. */
  lemma ConfirmIsAlone(env: Env, cfg: Config, w: World, user: Id, id: Id, approved: bool)
    requires cfg.enabled && cfg.serviceHasTools && Owned(w, user, id) && !env.readFails(w.tick)
    ensures var calls := Confirm(env, cfg, w, user, id, approved).0.calls;
            && id in calls.rows && |calls.executions| >= |w.calls.executions|
            && (calls.rows[id].status, |calls.executions| - |w.calls.executions|)
               == Alone(w.calls.rows[id].status, approved, !env.statusFails(w.tick + 1),
                        !env.statusFails(w.tick + 3), env.runs(w.tick + 2).Returned?)
  {
    var (w1, row) := FindRow(env, w, user, id);
    if row.value.status == Pending && approved {
      ApproveIsAlone(env, cfg, w1, user, id, row.value);
      AgentRuns.ReportTouchesNoCall(env, Approve(env, cfg, w1, user, id, row.value), user, id, row.value);
    }
  }

  function Turn(r: nat): Move {
    Move(r, true, true)
  }

  lemma RunOne(s: Race, moves: seq<Move>, m: Move)
    ensures Run(s, moves + [m]) == Step(Run(s, moves), m)
  {
    assert (moves + [m])[..|moves|] == moves;
  }

  // ----- When the tool can run twice -------------------------------------------------

  /** The requests that approve, whatever becomes of them. */
  function Approvals(requests: seq<Request>): nat {
    if requests == [] then 0
    else Approvals(requests[..|requests| - 1]) + if requests[|requests| - 1].approved then 1 else 0
  }

  lemma {:induction false} ApprovingAreApprovals(requests: seq<Request>, phases: set<Phase>)
    ensures Approving(requests, phases) <= Approvals(requests)
  {
    if requests != [] {
      ApprovingAreApprovals(requests[..|requests| - 1], phases);
    }
  }

  lemma {:induction false} SameApprovals(before: seq<Request>, after: seq<Request>)
    requires |before| == |after| && forall r :: 0 <= r < |before| ==> after[r].approved == before[r].approved
    ensures Approvals(before) == Approvals(after)
  {
    if before != [] {
      SameApprovals(before[..|before| - 1], after[..|after| - 1]);
    }
  }

  /** Moves change nobody's answer. */
  lemma {:induction false} AnswersStay(s: Race, moves: seq<Move>)
    ensures var t := Run(s, moves);
            |t.requests| == |s.requests|
            && forall r :: 0 <= r < |s.requests| ==> t.requests[r].approved == s.requests[r].approved
  {
    if moves != [] {
      AnswersStay(s, moves[..|moves| - 1]);
    }
  }

  lemma NoMoreRunsThanApprovals(s: Race, moves: seq<Move>)
    requires Fresh(s)
    ensures Runs(Run(s, moves).log) <= Approvals(s.requests)
  {
    RunKeepsBalance(s, moves);
    ApprovingAreApprovals(Run(s, moves).requests, EXECUTED);
    AnswersStay(s, moves);
    SameApprovals(s.requests, Run(s, moves).requests);
  }

  /** Two approving requests, both this far; the tool has run n times. */
  ghost predicate Both(s: Race, a: nat, b: nat, phase: Phase, n: nat) {
    && a < |s.requests| && b < |s.requests| && a != b
    && s.requests[a] == s.requests[b] == Request(true, phase)
    && Runs(s.log) == n
  }

  lemma BothRead(s: Race, a: nat, b: nat)
    requires Both(s, a, b, Ready, 0) && s.status == Pending
    ensures Both(Step(Step(s, Turn(a)), Turn(b)), a, b, Undecided, 0)
  {
    Appended(s.log, Read(true));
    Appended(s.log + [Read(true)], Read(true));
  }

  lemma BothWrite(s: Race, a: nat, b: nat)
    requires Both(s, a, b, Undecided, 0)
    ensures Both(Step(Step(s, Turn(a)), Turn(b)), a, b, Decided, 0)
  {
    Appended(s.log, Wrote(Approved));
    Appended(s.log + [Wrote(Approved)], Wrote(Approved));
  }

  lemma BothRun(s: Race, a: nat, b: nat)
    requires Both(s, a, b, Decided, 0)
    ensures Both(Step(Step(s, Turn(a)), Turn(b)), a, b, Ran, 2)
  {
    Appended(s.log, Executes(a));
    Appended(s.log + [Executes(a)], Executes(b));
  }

  lemma RunTwo(s: Race, moves: seq<Move>, m: Move, n: Move)
    ensures Run(s, moves + [m, n]) == Step(Step(Run(s, moves), m), n)
  {
    var all := moves + [m, n];
    assert all[..|all| - 1] == moves + [m];
    RunOne(s, moves, m);
  }

  /** Two approvals at once run the tool twice, whatever other requests there are. */
  lemma TwoApprovalsRunTwice(s: Race, a: nat, b: nat)
    requires Fresh(s) && a < |s.requests| && b < |s.requests| && a != b
    requires s.requests[a].approved && s.requests[b].approved
    ensures Runs(Run(s, [Turn(a), Turn(b)] + [Turn(a), Turn(b)] + [Turn(a), Turn(b)]).log) == 2
  {
    var both := [Turn(a), Turn(b)];
    RunTwo(s, [], Turn(a), Turn(b));
    assert [] + both == both;
    RunTwo(s, both, Turn(a), Turn(b));
    RunTwo(s, both + both, Turn(a), Turn(b));
    BothRead(s, a, b);
    BothWrite(Run(s, both), a, b);
    BothRun(Run(s, both + both), a, b);
  }

  lemma {:induction false} TwoApprovals(requests: seq<Request>) returns (a: nat, b: nat)
    requires Approvals(requests) > 1
    ensures a < b < |requests| && requests[a].approved && requests[b].approved
  {
    var init := requests[..|requests| - 1];
    if Approvals(init) > 1 {
      a, b := TwoApprovals(init);
    } else {
      b := |requests| - 1;
      a := AnApproval(init);
    }
  }

  lemma {:induction false} AnApproval(requests: seq<Request>) returns (a: nat)
    requires Approvals(requests) > 0
    ensures a < |requests| && requests[a].approved
  {
    a := |requests| - 1;
    if !requests[a].approved {
      a := AnApproval(requests[..a]);
    }
  }

  ghost predicate RunsAtMostOnce(s: Race, moves: seq<Move>) {
    Runs(Run(s, moves).log) <= 1
  }

  /** A condition on the requests alone: every interleaving runs the tool at most once
      if and only if at most one request approves. */
  lemma AtMostOnceIffOneApproves(s: Race)
    requires Fresh(s)
    ensures (forall moves :: RunsAtMostOnce(s, moves)) <==> Approvals(s.requests) <= 1
  {
    if Approvals(s.requests) <= 1 {
      forall moves ensures RunsAtMostOnce(s, moves) {
        NoMoreRunsThanApprovals(s, moves);
      }
    } else {
      var a, b := TwoApprovals(s.requests);
      TwoApprovalsRunTwice(s, a, b);
      assert !RunsAtMostOnce(s, [Turn(a), Turn(b)] + [Turn(a), Turn(b)] + [Turn(a), Turn(b)]);
    }
  }

  // ----- When a rejected row can have run --------------------------------------------

  lemma {:induction false} RunAppend(s: Race, first: seq<Move>, more: seq<Move>)
    ensures Run(s, first + more) == Run(Run(s, first), more)
  {
    if more == [] {
      assert first + more == first;
    } else {
      var init, last := more[..|more| - 1], more[|more| - 1];
      assert first + more == (first + init) + [last];
      RunOne(s, first + init, last);
      RunAppend(s, first, init);
    }
  }

  /** An approving and a rejecting request this far, all others not started; the tool has
      run n times. */
  ghost predicate Duel(s: Race, a: nat, b: nat, approver: Phase, rejecter: Phase, n: nat) {
    && a < |s.requests| && b < |s.requests| && a != b
    && s.requests[a] == Request(true, approver) && s.requests[b] == Request(false, rejecter)
    && (forall r :: 0 <= r < |s.requests| && r != a && r != b ==> s.requests[r].phase == Ready)
    && Runs(s.log) == n
  }

  lemma ReadTurn(s: Race, r: nat, me: Request)
    requires r < |s.requests| && s.requests[r] == me && me.phase == Ready && s.status == Pending
    ensures var t := Step(s, Turn(r));
            && t.status == Pending && t.requests == s.requests[r := Request(me.approved, Undecided)]
            && Runs(t.log) == Runs(s.log)
  {
    Appended(s.log, Read(me.approved));
  }

  lemma DuelReads(s: Race, a: nat, b: nat)
    requires Duel(s, a, b, Ready, Ready, 0) && s.status == Pending
    ensures Duel(Step(Step(s, Turn(a)), Turn(b)), a, b, Undecided, Undecided, 0)
  {
    ReadTurn(s, a, Request(true, Ready));
    ReadTurn(Step(s, Turn(a)), b, Request(false, Ready));
  }

  lemma DuelRuns(s: Race, a: nat, b: nat)
    requires Duel(s, a, b, Undecided, Undecided, 0)
    ensures Duel(Step(Step(s, Turn(a)), Turn(a)), a, b, Ran, Undecided, 1)
  {
    Appended(s.log, Wrote(Approved));
    Appended(s.log + [Wrote(Approved)], Executes(a));
  }

  lemma DuelEnds(s: Race, a: nat, b: nat)
    requires Duel(s, a, b, Ran, Undecided, 1)
    ensures var t := Step(Step(s, Turn(a)), Turn(b)); t.status == Rejected && Duel(t, a, b, Closed, Closed, 1)
  {
    Appended(s.log, Wrote(Executed));
    Appended(s.log + [Wrote(Executed)], Wrote(Rejected));
  }

  /** One move for each of the first n requests. */
  function Everyone(n: nat): seq<Move> {
    if n == 0 then [] else Everyone(n - 1) + [Turn(n - 1)]
  }

  /** Every request is over, or not started where it is not among the first n. */
  ghost predicate OverUpTo(s: Race, n: nat) {
    forall r :: 0 <= r < |s.requests| ==>
      s.requests[r].phase in {Refused, Closed} || (r >= n && s.requests[r].phase == Ready)
  }

  lemma {:induction false} LateComersAreTurnedAway(s: Race, n: nat)
    requires s.status != Pending && OverUpTo(s, 0) && n <= |s.requests|
    ensures var t := Run(s, Everyone(n));
            t.status == s.status && t.log == s.log && |t.requests| == |s.requests| && OverUpTo(t, n)
  {
    if n > 0 {
      LateComersAreTurnedAway(s, n - 1);
      RunOne(s, Everyone(n - 1), Turn(n - 1));
    }
  }

  /** An approval and a rejection at once, among any other requests: there is a way for
      the tool to run, and for the row to read rejected when all is settled. */
  lemma RejectedRowMayHaveRun(s: Race, a: nat, b: nat) returns (moves: seq<Move>)
    requires Fresh(s) && a < |s.requests| && b < |s.requests| && s.requests[a].approved && !s.requests[b].approved
    ensures var after := Run(s, moves); Settled(after) && after.status == Rejected && Runs(after.log) == 1
  {
    var opening, middle := [Turn(a), Turn(b)], [Turn(a), Turn(b)] + [Turn(a), Turn(a)];
    var duel := middle + [Turn(a), Turn(b)];
    RunTwo(s, [], Turn(a), Turn(b));
    assert [] + opening == opening;
    DuelReads(s, a, b);
    RunTwo(s, opening, Turn(a), Turn(a));
    DuelRuns(Run(s, opening), a, b);
    RunTwo(s, middle, Turn(a), Turn(b));
    DuelEnds(Run(s, middle), a, b);
    moves := duel + Everyone(|s.requests|);
    RunAppend(s, duel, Everyone(|s.requests|));
    AnswersStay(s, duel);
    LateComersAreTurnedAway(Run(s, duel), |s.requests|);
  }

  /** Only a rejecting request writes that the row is rejected. */
  lemma {:induction false} RejectedByRequest(s: Race, moves: seq<Move>)
    requires Fresh(s) && Run(s, moves).status == Rejected
    ensures exists b :: 0 <= b < |s.requests| && !s.requests[b].approved
  {
    var before, m := Run(s, moves[..|moves| - 1]), moves[|moves| - 1];
    if before.status == Rejected {
      RejectedByRequest(s, moves[..|moves| - 1]);
    } else {
      AnswersStay(s, moves[..|moves| - 1]);
      assert !before.requests[m.request].approved;
    }
  }

  ghost predicate RejectedAfterRun(s: Race, moves: seq<Move>) {
    var after := Run(s, moves);
    Settled(after) && after.status == Rejected && Runs(after.log) > 0
  }

  /** On the requests alone: some interleaving ends with the row rejected and the tool run
      if and only if some request approves and some request rejects. */
  lemma RejectedRowRanIff(s: Race)
    requires Fresh(s)
    ensures (exists moves :: RejectedAfterRun(s, moves)) <==>
            && (exists a :: 0 <= a < |s.requests| && s.requests[a].approved)
            && (exists b :: 0 <= b < |s.requests| && !s.requests[b].approved)
  {
    if exists moves :: RejectedAfterRun(s, moves) {
      var moves :| RejectedAfterRun(s, moves);
      NoMoreRunsThanApprovals(s, moves);
      var a := AnApproval(s.requests);
      RejectedByRequest(s, moves);
    }
    if (exists a :: 0 <= a < |s.requests| && s.requests[a].approved)
       && (exists b :: 0 <= b < |s.requests| && !s.requests[b].approved)
    {
      var a :| 0 <= a < |s.requests| && s.requests[a].approved;
      var b :| 0 <= b < |s.requests| && !s.requests[b].approved;
      var moves := RejectedRowMayHaveRun(s, a, b);
      assert RejectedAfterRun(s, moves);
    }
  }
}
