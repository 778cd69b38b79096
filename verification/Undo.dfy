/** Thump as a machine of interleaved steps (internal/thump/transport.go:86-298):
    deliveries and redeliveries, switch reloads, acceptance polls, convergence
    probes and undos of many orders at once, and shutdown. */
module Undo {
  import opened Boundary
  import opened Catalog
  import opened Actuate
  import opened Thump
  import Click
  import CB = CaseBase
  import Ledger

  /** Wiring.  An acceptance watch ends in a convergence watch, so it is only ever
      configured together with the reversal watcher. */
  datatype Config = Config(live: bool, reversal: bool, acceptance: bool,
                           catalog: seq<ActionContract>, bindings: map<string, Binding>)

  /** Where the goroutine behind one accepted order stands. */
  datatype Stage =
    | Polling              // watchAndAccept: waiting to ask whether the release was merged
    | Watching             // watchAndSettle: waiting for the success window
    | Undoing              // settled, undo still to execute
    | Finished
    | Unmerged             // the release was not merged, or the poll failed
    | Cut                  // shutdown came first

  /** `answer` is the probe's reading once taken. */
  datatype Job = Job(order: Order, stage: Stage, answer: Option<bool>)

  /** One call of the runner; `job` is the order it undoes, for a reverse call. */
  datatype Call = Call(ref: string, reverse: bool, ok: bool, armed: bool, job: nat)

  /** One outcome in thump's log; `job` names the order a convergence outcome settles.
      Whatever reaches the stream is in the log: handle records only what it could
      publish, the watches record whether or not they could. */
  datatype Emitted = Emitted(outcome: Outcome, convergence: bool, job: nat)

  datatype State = State(
    armed: bool, down: bool, jobs: seq<Job>, calls: seq<Call>, emitted: seq<Emitted>,
    held: seq<Governed>, declined: seq<Decision>)

  datatype PollAnswer = Accepted | NotAccepted | PollFailed(text: string)

  datatype Step =
    | Reload(reading: Reading)
    | Deliver(g: Governed, failAt: nat, published: bool, now: Time)
    | Poll(job: nat, poll: PollAnswer, now: Time)
    | Probe(job: nat, converged: bool, now: Time)
    | UndoStep(job: nat, failAt: nat, now: Time)
    | Shutdown

  const Fresh: State := State(false, false, [], [], [], [], [])

  predicate Enabled(s: State, t: Step) {
    match t
    case Poll(j, _, _) => !s.down && j < |s.jobs| && s.jobs[j].stage == Polling
    case Probe(j, _, _) => !s.down && j < |s.jobs| && s.jobs[j].stage == Watching
    case UndoStep(j, _, _) => j < |s.jobs| && s.jobs[j].stage == Undoing
    case _ => true
  }

  function Emit(s: State, o: Outcome): State {
    s.(emitted := s.emitted + [Emitted(o, false, 0)])
  }

  /** The job handle spawns for an outcome, if any. */
  function Spawned(c: Config, s: State, o: Order, oc: Outcome): seq<Job> {
    if c.reversal && oc.mode == Live && oc.result == Applied then [Job(o, if s.down then Cut else Watching, None)]
    else if c.acceptance && oc.mode == Live && oc.result == ProposedForReview then [Job(o, if s.down then Cut else Polling, None)]
    else []
  }

  /** The call is made and the watch started before anything is published. */
  function Execute(c: Config, s: State, o: Order, failAt: nat, published: bool, now: Time): State {
    var ran := RunOf(c.bindings, o.contractRef, false, failAt);
    var oc := Executed(c.live, s.armed, o, ran, now);
    var calls := if Dispatches(c.live, s.armed, o) then s.calls + [Call(o.contractRef, false, ran.ok, s.armed, 0)] else s.calls;
    var s' := s.(calls := calls, jobs := s.jobs + Spawned(c, s, o, oc));
    if published then Emit(s', oc) else s'
  }

  /** `published` says whether every publish this delivery attempts goes through; one
      that fails is an error to the caller, and the decision comes again. */
  function DeliverTo(c: Config, s: State, g: Governed, failAt: nat, published: bool, now: Time): State {
    match g.decision.verdict
    case Approved =>
      (match RenderOf(g, c.catalog, now)
       case Refused(_) => s
       case Ready(o) => Execute(c, s, o, failAt, published, now))
    case Hold => if published then s.(held := s.held + [g]) else s
    case _ => if published then s.(declined := s.declined + [g.decision]) else s
  }

  /** What a poll that does not end in acceptance records. */
  function PollOutcome(o: Order, poll: PollAnswer, now: Time): Outcome {
    match poll
    case PollFailed(text) => OutcomeOf(o, ":accept", Live, Failure, "acceptance poll failed: " + text, now)
    case _ => OutcomeOf(o, ":accept", Live, PartialNonConverging, AcceptanceError(o.plan.fallback), now)
  }

  function Answered(s: State, j: nat, poll: PollAnswer, now: Time): State
    requires j < |s.jobs|
  {
    if poll == Accepted then s.(jobs := s.jobs[j := s.jobs[j].(stage := Watching)])
    else Emit(s.(jobs := s.jobs[j := s.jobs[j].(stage := Unmerged)]), PollOutcome(s.jobs[j].order, poll, now))
  }

  function Settled(s: State, j: nat, converged: bool, now: Time): State
    requires j < |s.jobs|
  {
    var o := s.jobs[j].order;
    var st := SettlementOf(o, converged, now);
    s.(jobs := s.jobs[j := s.jobs[j].(stage := if st.fire then Undoing else Finished, answer := Some(converged))],
       emitted := s.emitted + [Emitted(Convergence(o, st, now), true, j)])
  }

  function Undone(c: Config, s: State, j: nat, failAt: nat, now: Time): State
    requires j < |s.jobs|
  {
    var undo := ReversalOf(s.jobs[j].order, now);
    var ran := RunOf(c.bindings, undo.contractRef, true, failAt);
    var calls := if c.live then s.calls + [Call(undo.contractRef, true, ran.ok, s.armed, j)] else s.calls;
    Emit(s.(jobs := s.jobs[j := s.jobs[j].(stage := Finished)], calls := calls),
         Executed(c.live, s.armed, undo, ran, now))
  }

  predicate Waiting(j: Job) {
    j.stage == Polling || j.stage == Watching
  }

  function CutAll(jobs: seq<Job>): seq<Job> {
    if jobs == [] then []
    else
      var last := jobs[|jobs| - 1];
      CutAll(jobs[..|jobs| - 1]) + [if Waiting(last) then last.(stage := Cut) else last]
  }

  function Do(c: Config, s: State, t: Step): State
    requires Enabled(s, t)
  {
    match t
    case Reload(r) => s.(armed := Arms(r))
    case Deliver(g, failAt, published, now) => DeliverTo(c, s, g, failAt, published, now)
    case Poll(j, poll, now) => Answered(s, j, poll, now)
    case Probe(j, converged, now) => Settled(s, j, converged, now)
    case UndoStep(j, failAt, now) => Undone(c, s, j, failAt, now)
    case Shutdown => s.(down := true, jobs := CutAll(s.jobs))
  }

  predicate Legal(c: Config, s: State, trace: seq<Step>)
    decreases trace
  {
    trace == [] || (Enabled(s, trace[0]) && Legal(c, Do(c, s, trace[0]), trace[1..]))
  }

  function Run(c: Config, s: State, trace: seq<Step>): State
    requires Legal(c, s, trace)
    decreases trace
  {
    if trace == [] then s else Run(c, Do(c, s, trace[0]), trace[1..])
  }

  // ---- counting -----------------------------------------------------------

  /** Calls of one direction for one ref; a forward call counts when it succeeded. */
  function Count(calls: seq<Call>, ref: string, reverse: bool): nat {
    if calls == [] then 0
    else
      var last := calls[|calls| - 1];
      Count(calls[..|calls| - 1], ref, reverse)
      + if last.ref == ref && last.reverse == reverse && (reverse || last.ok) then 1 else 0
  }

  /** Orders for a ref that may still be undone. */
  predicate MayUndo(j: Job, ref: string) {
    j.order.contractRef == ref && (Waiting(j) || j.stage == Undoing)
  }

  function Pending(jobs: seq<Job>, ref: string): nat {
    if jobs == [] then 0
    else Pending(jobs[..|jobs| - 1], ref) + if MayUndo(jobs[|jobs| - 1], ref) then 1 else 0
  }

  lemma CountSnoc(calls: seq<Call>, x: Call, ref: string, reverse: bool)
    ensures Count(calls + [x], ref, reverse)
         == Count(calls, ref, reverse) + if x.ref == ref && x.reverse == reverse && (reverse || x.ok) then 1 else 0
  {
    assert (calls + [x])[..|calls|] == calls;
  }

  lemma PendingSnoc(jobs: seq<Job>, x: Job, ref: string)
    ensures Pending(jobs + [x], ref) == Pending(jobs, ref) + if MayUndo(x, ref) then 1 else 0
  {
    assert (jobs + [x])[..|jobs|] == jobs;
  }

  lemma {:induction false} PendingUpdate(jobs: seq<Job>, i: nat, x: Job, ref: string)
    requires i < |jobs|
    ensures Pending(jobs[i := x], ref) + (if MayUndo(jobs[i], ref) then 1 else 0)
         == Pending(jobs, ref) + if MayUndo(x, ref) then 1 else 0
  {
    var last := |jobs| - 1;
    if i == last {
      assert jobs[i := x][..last] == jobs[..last];
    } else {
      PendingUpdate(jobs[..last], i, x, ref);
      assert jobs[i := x][..last] == jobs[..last][i := x];
    }
  }

  lemma {:induction false} CutAllFacts(jobs: seq<Job>)
    ensures |CutAll(jobs)| == |jobs|
    ensures forall i | 0 <= i < |jobs| ::
              CutAll(jobs)[i] == if Waiting(jobs[i]) then jobs[i].(stage := Cut) else jobs[i]
  {
    if jobs == [] {
    } else {
      CutAllFacts(jobs[..|jobs| - 1]);
    }
  }

  lemma {:induction false} PendingCut(jobs: seq<Job>, ref: string)
    ensures Pending(CutAll(jobs), ref) <= Pending(jobs, ref)
  {
    if jobs == [] {
    } else {
      var init, last := jobs[..|jobs| - 1], jobs[|jobs| - 1];
      PendingCut(init, ref);
      PendingSnoc(CutAll(init), if Waiting(last) then last.(stage := Cut) else last, ref);
    }
  }

  // ---- undo never outruns action ------------------------------------------

  /** Room for every undo still to come, after all the undos made. */
  predicate Covered(s: State, ref: string) {
    Count(s.calls, ref, true) + Pending(s.jobs, ref) <= Count(s.calls, ref, false)
  }

  /** At every moment of the call history so far. */
  predicate Disciplined(calls: seq<Call>, ref: string) {
    forall n | 0 <= n <= |calls| :: Count(calls[..n], ref, true) <= Count(calls[..n], ref, false)
  }

  lemma DisciplinedSnoc(calls: seq<Call>, x: Call, ref: string)
    requires Disciplined(calls, ref) && Count(calls + [x], ref, true) <= Count(calls + [x], ref, false)
    ensures Disciplined(calls + [x], ref)
  {
    var all := calls + [x];
    forall n | 0 <= n <= |all| ensures Count(all[..n], ref, true) <= Count(all[..n], ref, false) {
      if n <= |calls| {
        assert all[..n] == calls[..n];
      } else {
        assert all[..n] == all;
      }
    }
  }

  predicate Safe(s: State, ref: string) {
    Covered(s, ref) && Disciplined(s.calls, ref)
  }

  lemma ExecuteSafe(c: Config, s: State, o: Order, failAt: nat, published: bool, now: Time, ref: string)
    requires Safe(s, ref) && !o.reversal
    ensures Safe(Execute(c, s, o, failAt, published, now), ref)
  {
    var ran := RunOf(c.bindings, o.contractRef, false, failAt);
    var oc := Executed(c.live, s.armed, o, ran, now);
    var spawn := Spawned(c, s, o, oc);
    if Dispatches(c.live, s.armed, o) {
      var x := Call(o.contractRef, false, ran.ok, s.armed, 0);
      CountSnoc(s.calls, x, ref, true);
      CountSnoc(s.calls, x, ref, false);
      DisciplinedSnoc(s.calls, x, ref);
    }
    if spawn == [] {
      assert s.jobs + spawn == s.jobs;
    } else {
      PendingSnoc(s.jobs, spawn[0], ref);
      assert s.jobs + spawn == s.jobs + [spawn[0]];
    }
  }

  lemma UndoneSafe(c: Config, s: State, j: nat, failAt: nat, now: Time, ref: string)
    requires Safe(s, ref) && j < |s.jobs| && s.jobs[j].stage == Undoing
    ensures Safe(Undone(c, s, j, failAt, now), ref)
  {
    var r := s.jobs[j].order.contractRef;
    var done := s.jobs[j].(stage := Finished);
    PendingUpdate(s.jobs, j, done, ref);
    if c.live {
      var x := Call(r, true, RunOf(c.bindings, r, true, failAt).ok, s.armed, j);
      SpendPending(s, s.jobs[j := done], x, ref);
      var s' := Undone(c, s, j, failAt, now);
      assert s'.calls == s.calls + [x] && s'.jobs == s.jobs[j := done];
    }
  }

  /** A reverse call paid for by one pending undo. */
  lemma SpendPending(s: State, jobs: seq<Job>, x: Call, ref: string)
    requires Safe(s, ref) && x.reverse
    requires Pending(jobs, ref) + (if x.ref == ref then 1 else 0) <= Pending(s.jobs, ref)
    ensures Count(s.calls + [x], ref, true) + Pending(jobs, ref) <= Count(s.calls + [x], ref, false)
    ensures Disciplined(s.calls + [x], ref)
  {
    CountSnoc(s.calls, x, ref, true);
    CountSnoc(s.calls, x, ref, false);
    DisciplinedSnoc(s.calls, x, ref);
  }

  lemma DeliverSafe(c: Config, s: State, g: Governed, failAt: nat, published: bool, now: Time, ref: string)
    requires Safe(s, ref)
    ensures Safe(DeliverTo(c, s, g, failAt, published, now), ref)
  {
    if g.decision.verdict == Approved && RenderOf(g, c.catalog, now).Ready? {
      ExecuteSafe(c, s, RenderOf(g, c.catalog, now).order, failAt, published, now, ref);
    }
  }

  lemma AnsweredSafe(s: State, j: nat, poll: PollAnswer, now: Time, ref: string)
    requires Safe(s, ref) && j < |s.jobs| && s.jobs[j].stage == Polling
    ensures Safe(Answered(s, j, poll, now), ref)
  {
    PendingUpdate(s.jobs, j, s.jobs[j].(stage := if poll == Accepted then Watching else Unmerged), ref);
  }

  lemma SettledSafe(s: State, j: nat, converged: bool, now: Time, ref: string)
    requires Safe(s, ref) && j < |s.jobs| && s.jobs[j].stage == Watching
    ensures Safe(Settled(s, j, converged, now), ref)
  {
    PendingUpdate(s.jobs, j,
      s.jobs[j].(stage := if Fires(s.jobs[j].order.plan, converged) then Undoing else Finished, answer := Some(converged)), ref);
  }

  lemma StepSafe(c: Config, s: State, t: Step, ref: string)
    requires Safe(s, ref) && Enabled(s, t)
    ensures Safe(Do(c, s, t), ref)
  {
    if t.Deliver? {
      DeliverSafe(c, s, t.g, t.failAt, t.published, t.now, ref);
    } else if t.Poll? {
      AnsweredSafe(s, t.job, t.poll, t.now, ref);
    } else if t.Probe? {
      SettledSafe(s, t.job, t.converged, t.now, ref);
    } else if t.UndoStep? {
      UndoneSafe(c, s, t.job, t.failAt, t.now, ref);
    } else if t.Shutdown? {
      PendingCut(s.jobs, ref);
    }
  }

  lemma {:induction false} RunSafe(c: Config, s: State, trace: seq<Step>, ref: string)
    requires Safe(s, ref) && Legal(c, s, trace)
    ensures Safe(Run(c, s, trace), ref)
    decreases trace
  {
    if trace == [] {
    } else {
      StepSafe(c, s, trace[0], ref);
      RunSafe(c, Do(c, s, trace[0]), trace[1..], ref);
    }
  }

  /** Under any interleaving, at every moment of the runner's history, reverse calls
      for a ref never outnumber its earlier successful forward calls. */
  lemma UndoNeverOutruns(c: Config, trace: seq<Step>, ref: string, n: nat)
    requires Legal(c, Fresh, trace) && n <= |Run(c, Fresh, trace).calls|
    ensures var calls := Run(c, Fresh, trace).calls[..n];
            Count(calls, ref, true) <= Count(calls, ref, false)
  {
    assert Safe(Fresh, ref);
    RunSafe(c, Fresh, trace, ref);
  }

  // ---- one verdict and one undo per order ---------------------------------

  /** Convergence outcomes that settle job `j`. */
  function Verdicts(emitted: seq<Emitted>, j: nat): seq<Outcome> {
    if emitted == [] then []
    else
      var last := emitted[|emitted| - 1];
      Verdicts(emitted[..|emitted| - 1], j) + if last.convergence && last.job == j then [last.outcome] else []
  }

  /** Reverse calls made for job `j`. */
  function Undos(calls: seq<Call>, j: nat): nat {
    if calls == [] then 0
    else
      var last := calls[|calls| - 1];
      Undos(calls[..|calls| - 1], j) + if last.reverse && last.job == j then 1 else 0
  }

  lemma VerdictsSnoc(emitted: seq<Emitted>, x: Emitted, j: nat)
    ensures Verdicts(emitted + [x], j) == Verdicts(emitted, j) + if x.convergence && x.job == j then [x.outcome] else []
  {
    assert (emitted + [x])[..|emitted|] == emitted;
  }

  lemma UndosSnoc(calls: seq<Call>, x: Call, j: nat)
    ensures Undos(calls + [x], j) == Undos(calls, j) + if x.reverse && x.job == j then 1 else 0
  {
    assert (calls + [x])[..|calls|] == calls;
  }

  /** The one convergence outcome of a settled order. */
  predicate Settles(oc: Outcome, o: Order, converged: bool) {
    && oc.decisionRef == o.decisionRef && oc.signalRef == o.signalRef && oc.contractRef == o.contractRef
    && oc.mode == Live
    && oc.result == (if converged then Success else PartialNonConverging)
    && (oc.error == "" <==> converged)
  }

  lemma ConvergenceSettles(o: Order, converged: bool, now: Time)
    ensures Settles(Convergence(o, SettlementOf(o, converged, now), now), o, converged)
  {
    NonEmptyTexts(converged, SettlementOf(o, converged, now).held, o.target, o.plan.fallback);
  }

  /** What has happened for one job, read off the whole history. */
  predicate Accounted(job: Job, verdicts: seq<Outcome>, undos: nat) {
    match job.answer
    case None => verdicts == [] && undos == 0 && job.stage != Undoing && job.stage != Finished
    case Some(converged) =>
      && |verdicts| == 1 && Settles(verdicts[0], job.order, converged)
      && (job.stage == Undoing || job.stage == Finished)
      && (job.stage == Undoing ==> Fires(job.order.plan, converged) && undos == 0)
      && (job.stage == Finished ==> undos == if Fires(job.order.plan, converged) then 1 else 0)
  }

  predicate JobOK(c: Config, s: State, j: nat) {
    if j < |s.jobs| then c.live && Accounted(s.jobs[j], Verdicts(s.emitted, j), Undos(s.calls, j))
    else Verdicts(s.emitted, j) == [] && Undos(s.calls, j) == 0
  }

  lemma PlainEmit(c: Config, s: State, o: Outcome, j: nat)
    requires JobOK(c, s, j)
    ensures JobOK(c, Emit(s, o), j)
  {
    VerdictsSnoc(s.emitted, Emitted(o, false, 0), j);
  }

  lemma ExecuteAccounted(c: Config, s: State, o: Order, failAt: nat, published: bool, now: Time, j: nat)
    requires JobOK(c, s, j) && !o.reversal
    ensures JobOK(c, Execute(c, s, o, failAt, published, now), j)
  {
    var ran := RunOf(c.bindings, o.contractRef, false, failAt);
    var oc := Executed(c.live, s.armed, o, ran, now);
    var calls := if Dispatches(c.live, s.armed, o) then s.calls + [Call(o.contractRef, false, ran.ok, s.armed, 0)] else s.calls;
    if Dispatches(c.live, s.armed, o) {
      UndosSnoc(s.calls, Call(o.contractRef, false, ran.ok, s.armed, 0), j);
    }
    var s' := s.(calls := calls, jobs := s.jobs + Spawned(c, s, o, oc));
    assert JobOK(c, s', j);
    PlainEmit(c, s', oc, j);
  }

  lemma AnsweredAccounted(c: Config, s: State, i: nat, poll: PollAnswer, now: Time, j: nat)
    requires JobOK(c, s, j) && i < |s.jobs| && s.jobs[i].stage == Polling
    ensures JobOK(c, Answered(s, i, poll, now), j)
  {
    if !poll.Accepted? {
      PlainEmit(c, s.(jobs := s.jobs[i := s.jobs[i].(stage := Unmerged)]), PollOutcome(s.jobs[i].order, poll, now), j);
    }
  }

  lemma SettledAccounted(c: Config, s: State, i: nat, converged: bool, now: Time, j: nat)
    requires JobOK(c, s, j) && i < |s.jobs| && s.jobs[i].stage == Watching
    ensures JobOK(c, Settled(s, i, converged, now), j)
  {
    var o := s.jobs[i].order;
    ConvergenceSettles(o, converged, now);
    VerdictsSnoc(s.emitted, Emitted(Convergence(o, SettlementOf(o, converged, now), now), true, i), j);
  }

  lemma UndoneAccounted(c: Config, s: State, i: nat, failAt: nat, now: Time, j: nat)
    requires JobOK(c, s, j) && i < |s.jobs| && s.jobs[i].stage == Undoing
    ensures JobOK(c, Undone(c, s, i, failAt, now), j)
  {
    var undo := ReversalOf(s.jobs[i].order, now);
    var ran := RunOf(c.bindings, undo.contractRef, true, failAt);
    var x := Call(undo.contractRef, true, ran.ok, s.armed, i);
    UndosSnoc(s.calls, x, j);
    VerdictsSnoc(s.emitted, Emitted(Executed(c.live, s.armed, undo, ran, now), false, 0), j);
  }

  lemma DeliverAccounted(c: Config, s: State, g: Governed, failAt: nat, published: bool, now: Time, j: nat)
    requires JobOK(c, s, j)
    ensures JobOK(c, DeliverTo(c, s, g, failAt, published, now), j)
  {
    if g.decision.verdict == Approved && RenderOf(g, c.catalog, now).Ready? {
      ExecuteAccounted(c, s, RenderOf(g, c.catalog, now).order, failAt, published, now, j);
    }
  }

  lemma StepAccounted(c: Config, s: State, t: Step, j: nat)
    requires JobOK(c, s, j) && Enabled(s, t)
    ensures JobOK(c, Do(c, s, t), j)
  {
    if t.Deliver? {
      DeliverAccounted(c, s, t.g, t.failAt, t.published, t.now, j);
    } else if t.Poll? {
      AnsweredAccounted(c, s, t.job, t.poll, t.now, j);
    } else if t.Probe? {
      SettledAccounted(c, s, t.job, t.converged, t.now, j);
    } else if t.UndoStep? {
      UndoneAccounted(c, s, t.job, t.failAt, t.now, j);
    } else if t.Shutdown? {
      CutAllFacts(s.jobs);
    }
  }

  lemma {:induction false} RunAccounted(c: Config, s: State, trace: seq<Step>, j: nat)
    requires JobOK(c, s, j) && Legal(c, s, trace)
    ensures JobOK(c, Run(c, s, trace), j)
    decreases trace
  {
    if trace == [] {
    } else {
      StepAccounted(c, s, trace[0], j);
      RunAccounted(c, Do(c, s, trace[0]), trace[1..], j);
    }
  }

  /** No goroutine has anything left to do. */
  predicate Quiet(s: State) {
    forall j | 0 <= j < |s.jobs| :: !Waiting(s.jobs[j]) && s.jobs[j].stage != Undoing
  }

  /** Once a run has gone quiet, every order that was applied and not cut off by
      shutdown has exactly one convergence outcome, and was undone exactly once iff
      it missed and is not held on a miss, or is restored on success, whatever the
      switch did; any other order has neither. */
  lemma OneVerdictOneUndo(c: Config, trace: seq<Step>, j: nat)
    requires Legal(c, Fresh, trace) && Quiet(Run(c, Fresh, trace)) && j < |Run(c, Fresh, trace).jobs|
    ensures var s := Run(c, Fresh, trace); var job := s.jobs[j];
            if job.stage == Cut || job.stage == Unmerged then Verdicts(s.emitted, j) == [] && Undos(s.calls, j) == 0
            else
              && job.answer.Some? && |Verdicts(s.emitted, j)| == 1
              && Settles(Verdicts(s.emitted, j)[0], job.order, job.answer.value)
              && var met, plan := job.answer.value, job.order.plan;
                 Undos(s.calls, j) == if (!met && !plan.holdOnMiss) || plan.restoreOnSuccess then 1 else 0
  {
    assert JobOK(c, Fresh, j);
    RunAccounted(c, Fresh, trace, j);
  }

  // ---- a success is a met target ------------------------------------------

  /** A recorded outcome says success iff it is the convergence outcome of an order
      whose one probe found the target met. */
  predicate Honest(s: State, e: Emitted) {
    e.outcome.result == Success <==> e.convergence && e.job < |s.jobs| && s.jobs[e.job].answer == Some(true)
  }

  /** Convergence outcomes are those of orders that have been probed. */
  predicate Known(s: State, e: Emitted) {
    e.convergence ==>
      e.job < |s.jobs| && s.jobs[e.job].answer.Some? && Settles(e.outcome, s.jobs[e.job].order, s.jobs[e.job].answer.value)
  }

  predicate AllHonest(s: State) {
    forall i | 0 <= i < |s.emitted| :: Honest(s, s.emitted[i]) && Known(s, s.emitted[i])
  }

  /** Orders stay, and so does the answer of one that has been probed. */
  predicate AnswersKept(s: State, s': State) {
    && |s.jobs| <= |s'.jobs|
    && forall j | 0 <= j < |s.jobs| ::
         s'.jobs[j].order == s.jobs[j].order && (s.jobs[j].answer.Some? ==> s'.jobs[j].answer == s.jobs[j].answer)
  }

  lemma HonestKept(s: State, s': State)
    requires AllHonest(s) && AnswersKept(s, s') && s'.emitted == s.emitted
    ensures AllHonest(s')
  {
    forall i | 0 <= i < |s'.emitted| ensures Honest(s', s'.emitted[i]) && Known(s', s'.emitted[i]) {
      var e := s.emitted[i];
      assert Honest(s, e) && Known(s, e);
    }
  }

  lemma HonestSnoc(s: State, s': State, e: Emitted)
    requires AllHonest(s) && AnswersKept(s, s') && s'.emitted == s.emitted + [e] && Honest(s', e) && Known(s', e)
    ensures AllHonest(s')
  {
    HonestKept(s, s'.(emitted := s.emitted));
    forall i | 0 <= i < |s'.emitted| ensures Honest(s', s'.emitted[i]) && Known(s', s'.emitted[i]) {
      if i < |s.emitted| {
        assert Honest(s'.(emitted := s.emitted), s.emitted[i]) && Known(s'.(emitted := s.emitted), s.emitted[i]);
      }
    }
  }

  /** Executing an order is never itself a success. */
  lemma ExecutedIsNoSuccess(c: Config, armed: bool, o: Order, failAt: nat, now: Time)
    ensures var ran := RunOf(c.bindings, o.contractRef, o.reversal, failAt);
            var oc := Executed(c.live, armed, o, ran, now);
            oc.result != Success && (oc.result == Failure <==> Dispatches(c.live, armed, o) && !ran.ok)
  {
    var ran := RunOf(c.bindings, o.contractRef, o.reversal, failAt);
    if ran.ok {
      var b := c.bindings[o.contractRef];
      ResultIsLive(if o.reversal then b.reverse else b.forward);
    }
  }

  lemma DeliverHonest(c: Config, s: State, t: Step)
    requires t.Deliver? && AllHonest(s)
    ensures AllHonest(Do(c, s, t))
  {
    var s' := Do(c, s, t);
    assert AnswersKept(s, s');
    if RecordedFor(c, s, t).Some? {
      var o := RecordedFor(c, s, t).value;
      ExecutedIsNoSuccess(c, s.armed, o, t.failAt, t.now);
      HonestSnoc(s, s', Emitted(Executed(c.live, s.armed, o, RunOf(c.bindings, o.contractRef, false, t.failAt), t.now), false, 0));
    } else {
      HonestKept(s, s');
    }
  }

  lemma PollIsNoSuccess(o: Order, poll: PollAnswer, now: Time)
    ensures PollOutcome(o, poll, now).result != Success
  {
  }

  lemma PollAnswersKept(s: State, j: nat, poll: PollAnswer, now: Time)
    requires j < |s.jobs|
    ensures AnswersKept(s, Answered(s, j, poll, now))
  {
  }

  lemma PollHonest(s: State, j: nat, poll: PollAnswer, now: Time)
    requires AllHonest(s) && j < |s.jobs|
    ensures AllHonest(Answered(s, j, poll, now))
  {
    var s' := Answered(s, j, poll, now);
    PollAnswersKept(s, j, poll, now);
    if poll.Accepted? {
      HonestKept(s, s');
    } else {
      PollIsNoSuccess(s.jobs[j].order, poll, now);
      var e := Emitted(PollOutcome(s.jobs[j].order, poll, now), false, 0);
      assert Honest(s', e) && Known(s', e);
      HonestSnoc(s, s', e);
    }
  }

  lemma ProbeHonest(s: State, j: nat, converged: bool, now: Time)
    requires AllHonest(s) && j < |s.jobs| && s.jobs[j].answer.None?
    ensures AllHonest(Settled(s, j, converged, now))
  {
    var s', o := Settled(s, j, converged, now), s.jobs[j].order;
    ConvergenceSettles(o, converged, now);
    assert AnswersKept(s, s');
    HonestSnoc(s, s', Emitted(Convergence(o, SettlementOf(o, converged, now), now), true, j));
  }

  lemma UndoHonest(c: Config, s: State, j: nat, failAt: nat, now: Time)
    requires AllHonest(s) && j < |s.jobs|
    ensures AllHonest(Undone(c, s, j, failAt, now))
  {
    var s', undo := Undone(c, s, j, failAt, now), ReversalOf(s.jobs[j].order, now);
    ExecutedIsNoSuccess(c, s.armed, undo, failAt, now);
    assert AnswersKept(s, s');
    HonestSnoc(s, s', Emitted(Executed(c.live, s.armed, undo, RunOf(c.bindings, undo.contractRef, true, failAt), now), false, 0));
  }

  /** An order being watched has not been probed yet. */
  predicate Unprobed(s: State) {
    forall j | 0 <= j < |s.jobs| :: Waiting(s.jobs[j]) ==> s.jobs[j].answer.None?
  }

  lemma StepUnprobed(c: Config, s: State, t: Step)
    requires Unprobed(s) && Enabled(s, t)
    ensures Unprobed(Do(c, s, t))
  {
    if t.Shutdown? {
      CutAllFacts(s.jobs);
    } else if t.Deliver? {
      DeliverUnprobed(c, s, t);
    }
  }

  lemma DeliverUnprobed(c: Config, s: State, t: Step)
    requires Unprobed(s) && t.Deliver?
    ensures Unprobed(Do(c, s, t))
  {
  }

  lemma StepHonest(c: Config, s: State, t: Step)
    requires AllHonest(s) && Unprobed(s) && Enabled(s, t)
    ensures AllHonest(Do(c, s, t))
  {
    if t.Deliver? {
      DeliverHonest(c, s, t);
    } else if t.Poll? {
      PollHonest(s, t.job, t.poll, t.now);
    } else if t.Probe? {
      ProbeHonest(s, t.job, t.converged, t.now);
    } else if t.UndoStep? {
      UndoHonest(c, s, t.job, t.failAt, t.now);
    } else {
      CutAllFacts(s.jobs);
      HonestKept(s, Do(c, s, t));
    }
  }

  lemma {:induction false} RunHonest(c: Config, s: State, trace: seq<Step>)
    requires AllHonest(s) && Unprobed(s) && Legal(c, s, trace)
    ensures AllHonest(Run(c, s, trace))
    decreases trace
  {
    if trace == [] {
    } else {
      StepUnprobed(c, s, trace[0]);
      StepHonest(c, s, trace[0]);
      RunHonest(c, Do(c, s, trace[0]), trace[1..]);
    }
  }

  /** Over every run, an outcome recorded says success iff it settles an order whose
      probe found the target met: nothing that was only rendered, blocked, applied,
      proposed, undone or left unmerged is ever a success, and no missed window. */
  lemma SuccessIsAMetTarget(c: Config, trace: seq<Step>, i: nat)
    requires Legal(c, Fresh, trace) && i < |Run(c, Fresh, trace).emitted|
    ensures var s := Run(c, Fresh, trace); Honest(s, s.emitted[i]) && Known(s, s.emitted[i])
  {
    assert AllHonest(Fresh) && Unprobed(Fresh);
    RunHonest(c, Fresh, trace);
  }

  /** And so in the case base: whatever set answers a convergence outcome, the case
      learned from it is a vote on its signal, a successful one iff the probe found the
      target met; a case learned from any other outcome of the run is no success. */
  lemma VotesAreProbes(c: Config, trace: seq<Step>, i: nat, sets: seq<Ledger.Recorded>, learned: CB.Case)
    requires Legal(c, Fresh, trace) && i < |Run(c, Fresh, trace).emitted|
    requires Click.AbsorbCase(sets, Run(c, Fresh, trace).emitted[i].outcome) == Some(learned)
    ensures var s := Run(c, Fresh, trace); var e := s.emitted[i];
            && (e.convergence ==> e.job < |s.jobs|)
            && (learned.result.Success? <==> e.convergence && s.jobs[e.job].answer == Some(true))
            && (e.convergence ==> CB.Votes?(learned, s.jobs[e.job].order.signalRef))
  {
    SuccessIsAMetTarget(c, trace, i);
  }

  /** In any quiet run, a missed order whose contract holds on a miss was undone iff
      the contract also restores on success. */
  lemma HeldMissIsUndoneIff(c: Config, trace: seq<Step>, j: nat)
    requires Legal(c, Fresh, trace) && Quiet(Run(c, Fresh, trace)) && j < |Run(c, Fresh, trace).jobs|
    requires var job := Run(c, Fresh, trace).jobs[j]; job.answer == Some(false) && job.order.plan.holdOnMiss
    ensures var s := Run(c, Fresh, trace); Undos(s.calls, j) > 0 <==> s.jobs[j].order.plan.restoreOnSuccess
  {
    assert JobOK(c, Fresh, j);
    RunAccounted(c, Fresh, trace, j);
  }

  // ---- nothing that succeeded goes unwatched ------------------------------

  function JobsFor(jobs: seq<Job>, ref: string): nat {
    if jobs == [] then 0
    else JobsFor(jobs[..|jobs| - 1], ref) + if jobs[|jobs| - 1].order.contractRef == ref then 1 else 0
  }

  lemma JobsForSnoc(jobs: seq<Job>, x: Job, ref: string)
    ensures JobsFor(jobs + [x], ref) == JobsFor(jobs, ref) + if x.order.contractRef == ref then 1 else 0
  {
    assert (jobs + [x])[..|jobs|] == jobs;
  }

  lemma {:induction false} JobsForSame(a: seq<Job>, b: seq<Job>, ref: string)
    requires |a| == |b| && forall i | 0 <= i < |a| :: a[i].order == b[i].order
    ensures JobsFor(a, ref) == JobsFor(b, ref)
  {
    if a == [] {
    } else {
      JobsForSame(a[..|a| - 1], b[..|b| - 1], ref);
    }
  }

  /** The wiring has a watcher for what this ref's forward action reports. */
  predicate Watched(c: Config, ref: string) {
    ref in c.bindings &&
    match ResultOf(c.bindings[ref].forward)
    case Applied => c.reversal
    case ProposedForReview => c.acceptance
    case _ => false
  }

  predicate Tracked(s: State, ref: string) {
    JobsFor(s.jobs, ref) == Count(s.calls, ref, false)
  }

  lemma ExecuteTracked(c: Config, s: State, o: Order, failAt: nat, published: bool, now: Time, ref: string)
    requires Tracked(s, ref) && Watched(c, ref) && !o.reversal
    ensures Tracked(Execute(c, s, o, failAt, published, now), ref)
  {
    var ran := RunOf(c.bindings, o.contractRef, false, failAt);
    var oc := Executed(c.live, s.armed, o, ran, now);
    var spawn := Spawned(c, s, o, oc);
    if Dispatches(c.live, s.armed, o) {
      CountSnoc(s.calls, Call(o.contractRef, false, ran.ok, s.armed, 0), ref, false);
    }
    if spawn == [] {
      assert s.jobs + spawn == s.jobs;
    } else {
      JobsForSnoc(s.jobs, spawn[0], ref);
      assert s.jobs + spawn == s.jobs + [spawn[0]];
    }
  }

  lemma UndoTracked(c: Config, s: State, j: nat, failAt: nat, now: Time, ref: string)
    requires Tracked(s, ref) && j < |s.jobs|
    ensures Tracked(Undone(c, s, j, failAt, now), ref)
  {
    var s', r := Undone(c, s, j, failAt, now), s.jobs[j].order.contractRef;
    JobsForSame(s.jobs, s'.jobs, ref);
    CountSnoc(s.calls, Call(r, true, RunOf(c.bindings, r, true, failAt).ok, s.armed, j), ref, false);
  }

  lemma QuietTracked(s: State, s': State, ref: string)
    requires Tracked(s, ref) && s'.calls == s.calls && SameOrders(s, s')
    ensures Tracked(s', ref)
  {
    JobsForSame(s.jobs, s'.jobs, ref);
  }

  lemma DeliverTracked(c: Config, s: State, g: Governed, failAt: nat, published: bool, now: Time, ref: string)
    requires Tracked(s, ref) && Watched(c, ref)
    ensures Tracked(DeliverTo(c, s, g, failAt, published, now), ref)
  {
    if g.decision.verdict == Approved && RenderOf(g, c.catalog, now).Ready? {
      ExecuteTracked(c, s, RenderOf(g, c.catalog, now).order, failAt, published, now, ref);
    }
  }

  lemma QuietStep(c: Config, s: State, t: Step)
    requires Enabled(s, t) && !t.Deliver? && !t.UndoStep?
    ensures Do(c, s, t).calls == s.calls && SameOrders(s, Do(c, s, t))
  {
    if t.Shutdown? {
      CutAllFacts(s.jobs);
    }
  }

  lemma StepTracked(c: Config, s: State, t: Step, ref: string)
    requires Tracked(s, ref) && Watched(c, ref) && Enabled(s, t)
    ensures Tracked(Do(c, s, t), ref)
  {
    if t.Deliver? {
      DeliverTracked(c, s, t.g, t.failAt, t.published, t.now, ref);
    } else if t.UndoStep? {
      UndoTracked(c, s, t.job, t.failAt, t.now, ref);
    } else {
      QuietStep(c, s, t);
      QuietTracked(s, Do(c, s, t), ref);
    }
  }

  /** Every successful forward call has exactly one order standing behind it, to
      which OneVerdictOneUndo then applies. */
  lemma {:induction false} EveryActionIsWatched(c: Config, s: State, trace: seq<Step>, ref: string)
    requires Legal(c, s, trace) && Tracked(s, ref) && Watched(c, ref)
    ensures Tracked(Run(c, s, trace), ref)
    decreases trace
  {
    if trace == [] {
    } else {
      StepTracked(c, s, trace[0], ref);
      EveryActionIsWatched(c, Do(c, s, trace[0]), trace[1..], ref);
    }
  }

  // ---- the switch ---------------------------------------------------------

  /** The last reading of the switch file in a run. */
  function LastReading(trace: seq<Step>): Option<Reading> {
    if trace == [] then None
    else if trace[|trace| - 1].Reload? then Some(trace[|trace| - 1].reading)
    else LastReading(trace[..|trace| - 1])
  }

  predicate ArmedBy(s: State, trace: seq<Step>) {
    s.armed == (LastReading(trace).Some? && Arms(LastReading(trace).value))
  }

  lemma {:induction false} SwitchFollows(c: Config, s: State, before: seq<Step>, trace: seq<Step>)
    requires ArmedBy(s, before) && Legal(c, s, trace)
    ensures ArmedBy(Run(c, s, trace), before + trace)
    decreases trace
  {
    if trace == [] {
      assert before + trace == before;
    } else {
      var next := before + [trace[0]];
      assert next[..|next| - 1] == before;
      SwitchFollows(c, Do(c, s, trace[0]), next, trace[1..]);
      assert next + trace[1..] == before + trace;
    }
  }

  /** The whole guard of a forward call: an approval that renders, a live executor and
      an armed switch. */
  predicate Acts(c: Config, s: State, g: Governed, now: Time) {
    g.decision.verdict == Approved && c.live && s.armed && RenderOf(g, c.catalog, now).Ready?
  }

  function ForwardCall(c: Config, g: Governed, failAt: nat, now: Time): Call
    requires RenderOf(g, c.catalog, now).Ready?
  {
    var ref := RenderOf(g, c.catalog, now).order.contractRef;
    Call(ref, false, RunOf(c.bindings, ref, false, failAt).ok, true, 0)
  }

  /** One delivery: one forward call, for the order it renders, iff the guard holds. */
  lemma DeliverCalls(c: Config, s: State, g: Governed, failAt: nat, published: bool, now: Time)
    ensures DeliverTo(c, s, g, failAt, published, now).calls
         == if Acts(c, s, g, now) then s.calls + [ForwardCall(c, g, failAt, now)] else s.calls
    ensures DeliverTo(c, s, g, failAt, published, now).armed == s.armed
  {
  }

  /** A delivery makes a forward call iff it is an approval that renders, the executor
      is live, and the last reading of the switch file in the run was clean and said
      armed; and then exactly one. */
  lemma ForwardNeedsArming(c: Config, trace: seq<Step>, g: Governed, failAt: nat, published: bool, now: Time)
    requires Legal(c, Fresh, trace)
    ensures var s := Run(c, Fresh, trace);
            var acts := && g.decision.verdict == Approved && c.live && LastReading(trace) == Some(Says(true))
                        && RenderOf(g, c.catalog, now).Ready?;
            Do(c, s, Deliver(g, failAt, published, now)).calls
              == if acts then s.calls + [ForwardCall(c, g, failAt, now)] else s.calls
  {
    SwitchFollows(c, Fresh, [], trace);
    assert [] + trace == trace;
    DeliverCalls(c, Run(c, Fresh, trace), g, failAt, published, now);
  }

  // ---- how often an approval acts -----------------------------------------

  /** Forward calls for a ref, whether or not they went through. */
  function ForwardCalls(calls: seq<Call>, ref: string): nat {
    if calls == [] then 0
    else
      var last := calls[|calls| - 1];
      ForwardCalls(calls[..|calls| - 1], ref) + if last.ref == ref && !last.reverse then 1 else 0
  }

  lemma ForwardCallsSnoc(calls: seq<Call>, x: Call, ref: string)
    ensures ForwardCalls(calls + [x], ref) == ForwardCalls(calls, ref) + if x.ref == ref && !x.reverse then 1 else 0
  {
    assert (calls + [x])[..|calls|] == calls;
  }

  /** The step is a delivery that meets the guard, for `ref`. */
  predicate ActsFor(c: Config, s: State, t: Step, ref: string) {
    t.Deliver? && Acts(c, s, t.g, t.now) && RenderOf(t.g, c.catalog, t.now).order.contractRef == ref
  }

  function ActingDeliveries(c: Config, s: State, trace: seq<Step>, ref: string): nat
    requires Legal(c, s, trace)
    decreases trace
  {
    if trace == [] then 0
    else (if ActsFor(c, s, trace[0], ref) then 1 else 0) + ActingDeliveries(c, Do(c, s, trace[0]), trace[1..], ref)
  }

  lemma UndoneCalls(c: Config, s: State, j: nat, failAt: nat, now: Time, ref: string)
    requires j < |s.jobs|
    ensures ForwardCalls(Undone(c, s, j, failAt, now).calls, ref) == ForwardCalls(s.calls, ref)
  {
    if c.live {
      var r := s.jobs[j].order.contractRef;
      ForwardCallsSnoc(s.calls, Call(r, true, RunOf(c.bindings, r, true, failAt).ok, s.armed, j), ref);
    }
  }

  lemma StepForwardCalls(c: Config, s: State, t: Step, ref: string)
    requires Enabled(s, t)
    ensures ForwardCalls(Do(c, s, t).calls, ref) == ForwardCalls(s.calls, ref) + if ActsFor(c, s, t, ref) then 1 else 0
  {
    if t.Deliver? {
      DeliverCalls(c, s, t.g, t.failAt, t.published, t.now);
      if Acts(c, s, t.g, t.now) {
        ForwardCallsSnoc(s.calls, ForwardCall(c, t.g, t.failAt, t.now), ref);
      }
    } else if t.UndoStep? {
      UndoneCalls(c, s, t.job, t.failAt, t.now, ref);
    } else {
      QuietStep(c, s, t);
    }
  }

  /** Over every run the forward calls for a ref are exactly the deliveries of that
      ref that met the guard: no other step acts, and each of those acts once. */
  lemma {:induction false} ForwardCallsAreDeliveries(c: Config, s: State, trace: seq<Step>, ref: string)
    requires Legal(c, s, trace)
    ensures ForwardCalls(Run(c, s, trace).calls, ref) == ForwardCalls(s.calls, ref) + ActingDeliveries(c, s, trace, ref)
    decreases trace
  {
    if trace == [] {
    } else {
      StepForwardCalls(c, s, trace[0], ref);
      ForwardCallsAreDeliveries(c, Do(c, s, trace[0]), trace[1..], ref);
    }
  }

  /** When it is delivered makes no difference to whether a decision renders. */
  lemma RendersAtAnyTime(g: Governed, cat: seq<ActionContract>, a: Time, b: Time)
    ensures RenderOf(g, cat, a).Ready? <==> RenderOf(g, cat, b).Ready?
    ensures RenderOf(g, cat, a).Ready? ==> RenderOf(g, cat, a).order.contractRef == RenderOf(g, cat, b).order.contractRef
  {
  }

  /** Nothing remembers that a decision has been acted on: delivered twice, whatever
      its publishes did, it acts twice iff it meets the guard at all. */
  lemma RedeliveryActsAgain(c: Config, s: State, g: Governed, failAt: nat, published: bool, first: Time,
                            again: nat, publishedAgain: bool, second: Time)
    ensures var s' := DeliverTo(c, DeliverTo(c, s, g, failAt, published, first), g, again, publishedAgain, second);
            |s'.calls| == |s.calls| + if Acts(c, s, g, first) then 2 else 0
  {
    RendersAtAnyTime(g, c.catalog, first, second);
    DeliverCalls(c, s, g, failAt, published, first);
    DeliverCalls(c, DeliverTo(c, s, g, failAt, published, first), g, again, publishedAgain, second);
  }

  // ---- half done ----------------------------------------------------------

  /** Something in the cluster has moved. */
  predicate Moves(done: seq<Operation>) {
    exists i | 0 <= i < |done| :: done[i].Mutation?
  }

  /** The cluster refuses the contract's step `failAt` with a mutation already made. */
  predicate StopsHalfWay(ct: ActionContract, failAt: nat) {
    failAt < |ct.forward| && exists i | 0 <= i < failAt :: ct.forward[i].verb != "maintenanceRelease"
  }

  lemma {:induction false} BoundSteps(c: Config, forgeWired: bool, k: nat)
    requires UniqueNames(c.catalog) && BoundAll(c.catalog, forgeWired) == Some(c.bindings) && k < |c.catalog|
    ensures var ct := c.catalog[k];
            && ct.name in c.bindings && |Leaves(c.bindings[ct.name].forward)| == |ct.forward|
            && forall i | 0 <= i < |ct.forward| ::
                 Leaves(c.bindings[ct.name].forward)[i].Mutation? <==> ct.forward[i].verb != "maintenanceRelease"
  {
    var ct := c.catalog[k];
    BoundToOwnContract(c.catalog, forgeWired, k);
    BoundIsFaithful(ct.forward, forgeWired);
    forall i | 0 <= i < |ct.forward|
      ensures Leaves(c.bindings[ct.name].forward)[i].Mutation? <==> ct.forward[i].verb != "maintenanceRelease"
    {
      assert Some(Leaves(c.bindings[ct.name].forward)[i]) == MechanismFor(ct.forward[i], forgeWired);
      VerbDecides(ct.forward[i], forgeWired);
    }
  }

  /** A failed forward call has moved the cluster iff a step was refused with a
      mutating one before it. */
  lemma HalfDoneIff(c: Config, forgeWired: bool, k: nat, failAt: nat)
    requires UniqueNames(c.catalog) && BoundAll(c.catalog, forgeWired) == Some(c.bindings) && k < |c.catalog|
    ensures var ran := RunOf(c.bindings, c.catalog[k].name, false, failAt);
            !ran.ok && Moves(ran.done) <==> StopsHalfWay(c.catalog[k], failAt)
  {
    BoundSteps(c, forgeWired, k);
    var ct := c.catalog[k];
    var leaves, ran := Leaves(c.bindings[ct.name].forward), RunOf(c.bindings, ct.name, false, failAt);
    if failAt < |leaves| {
      assert ran.done == leaves[..failAt];
      forall i | 0 <= i < failAt ensures ran.done[i].Mutation? <==> ct.forward[i].verb != "maintenanceRelease" {
      }
    }
  }

  function Reversals(calls: seq<Call>): seq<Call> {
    if calls == [] then []
    else
      var last := calls[|calls| - 1];
      Reversals(calls[..|calls| - 1]) + if last.reverse then [last] else []
  }

  lemma ReversalsSnoc(calls: seq<Call>, x: Call)
    ensures Reversals(calls + [x]) == if x.reverse then Reversals(calls) + [x] else Reversals(calls)
  {
    assert (calls + [x])[..|calls|] == calls;
    assert Reversals(calls) + [] == Reversals(calls);
  }

  /** The same orders under watch, and the same undos made. */
  predicate SameUndos(a: State, b: State) {
    a.armed == b.armed && a.down == b.down && a.jobs == b.jobs && Reversals(a.calls) == Reversals(b.calls)
  }

  lemma DeliverSameUndos(c: Config, a: State, b: State, g: Governed, failAt: nat, published: bool, now: Time)
    requires SameUndos(a, b)
    ensures SameUndos(DeliverTo(c, a, g, failAt, published, now), DeliverTo(c, b, g, failAt, published, now))
  {
    DeliverCalls(c, a, g, failAt, published, now);
    DeliverCalls(c, b, g, failAt, published, now);
    if Acts(c, a, g, now) {
      ReversalsSnoc(a.calls, ForwardCall(c, g, failAt, now));
      ReversalsSnoc(b.calls, ForwardCall(c, g, failAt, now));
    }
  }

  lemma UndoneSameUndos(c: Config, a: State, b: State, j: nat, failAt: nat, now: Time)
    requires SameUndos(a, b) && j < |a.jobs|
    ensures SameUndos(Undone(c, a, j, failAt, now), Undone(c, b, j, failAt, now))
  {
    var r := a.jobs[j].order.contractRef;
    var x := Call(r, true, RunOf(c.bindings, r, true, failAt).ok, a.armed, j);
    ReversalsSnoc(a.calls, x);
    ReversalsSnoc(b.calls, x);
  }

  lemma StepSameUndos(c: Config, a: State, b: State, t: Step)
    requires SameUndos(a, b) && Enabled(a, t)
    ensures Enabled(b, t) && SameUndos(Do(c, a, t), Do(c, b, t))
  {
    if t.Deliver? {
      DeliverSameUndos(c, a, b, t.g, t.failAt, t.published, t.now);
    } else if t.UndoStep? {
      UndoneSameUndos(c, a, b, t.job, t.failAt, t.now);
    }
  }

  lemma {:induction false} RunSameUndos(c: Config, a: State, b: State, trace: seq<Step>)
    requires SameUndos(a, b) && Legal(c, a, trace)
    ensures Legal(c, b, trace) && SameUndos(Run(c, a, trace), Run(c, b, trace))
    decreases trace
  {
    if trace == [] {
    } else {
      StepSameUndos(c, a, b, trace[0]);
      RunSameUndos(c, Do(c, a, trace[0]), Do(c, b, trace[0]), trace[1..]);
    }
  }

  /** A forward call that fails, half done or not, is never undone: in every
      continuation the orders watched and the undos made are those of a run in which
      it was never delivered. */
  lemma FailureIsNeverUndone(c: Config, s: State, o: Order, failAt: nat, published: bool, now: Time, trace: seq<Step>)
    requires !o.reversal && Dispatches(c.live, s.armed, o) && !RunOf(c.bindings, o.contractRef, false, failAt).ok
    requires Legal(c, s, trace)
    ensures var s' := Execute(c, s, o, failAt, published, now);
            && Executed(c.live, s.armed, o, RunOf(c.bindings, o.contractRef, false, failAt), now).result == Failure
            && Legal(c, s', trace) && SameUndos(Run(c, s, trace), Run(c, s', trace))
  {
    var s' := Execute(c, s, o, failAt, published, now);
    ReversalsSnoc(s.calls, Call(o.contractRef, false, false, s.armed, 0));
    assert s'.jobs == s.jobs;
    RunSameUndos(c, s, s', trace);
  }

  // ---- everything recorded is auditable -----------------------------------

  /** The order whose outcome a step records, if it records one. */
  function RecordedFor(c: Config, s: State, t: Step): Option<Order>
    requires Enabled(s, t)
  {
    match t
    case Deliver(g, _, published, now) =>
      if published && g.decision.verdict == Approved && RenderOf(g, c.catalog, now).Ready?
      then Some(RenderOf(g, c.catalog, now).order) else None
    case Poll(j, poll, _) => if poll.Accepted? then None else Some(s.jobs[j].order)
    case Probe(j, _, _) => Some(s.jobs[j].order)
    case UndoStep(j, _, _) => Some(s.jobs[j].order)
    case _ => None
  }

  /** Whatever a step records, it records once, for that order's grant, signal and
      contract, at the instant of the step; and a step that records nothing adds none. */
  lemma RecordsOnce(c: Config, s: State, t: Step)
    requires Enabled(s, t)
    ensures var s' := Do(c, s, t);
            match RecordedFor(c, s, t)
            case None => s'.emitted == s.emitted
            case Some(o) =>
              |s'.emitted| == |s.emitted| + 1 && s'.emitted[..|s.emitted|] == s.emitted
              && AnswersTo(s'.emitted[|s.emitted|].outcome, o, t.now)
  {
    if t.Deliver? {
      DeliverRecords(c, s, t);
    }
  }

  lemma DeliverRecords(c: Config, s: State, t: Step)
    requires t.Deliver?
    ensures var s' := Do(c, s, t);
            match RecordedFor(c, s, t)
            case None => s'.emitted == s.emitted
            case Some(o) =>
              |s'.emitted| == |s.emitted| + 1 && s'.emitted[..|s.emitted|] == s.emitted
              && AnswersTo(s'.emitted[|s.emitted|].outcome, o, t.now)
  {
  }

  /** The grant behind what the step records had an ID. */
  predicate Identified(c: Config, s: State, t: Step)
    requires Enabled(s, t)
  {
    RecordedFor(c, s, t).Some? ==> RecordedFor(c, s, t).value.decisionRef != ""
  }

  predicate AllIdentified(c: Config, s: State, trace: seq<Step>)
    requires Legal(c, s, trace)
    decreases trace
  {
    trace == [] || (Identified(c, s, trace[0]) && AllIdentified(c, Do(c, s, trace[0]), trace[1..]))
  }

  predicate Timed(t: Step) {
    match t
    case Deliver(_, _, _, now) => now != ZERO_TIME
    case Poll(_, _, now) => now != ZERO_TIME
    case Probe(_, _, now) => now != ZERO_TIME
    case UndoStep(_, _, now) => now != ZERO_TIME
    case _ => true
  }

  predicate AllAdmissible(s: State) {
    forall i | 0 <= i < |s.emitted| :: Click.Admissible(s.emitted[i].outcome)
  }

  lemma OneMoreIff(s: State, s': State, x: Emitted)
    requires AllAdmissible(s) && s'.emitted == s.emitted + [x]
    ensures AllAdmissible(s') <==> Click.Admissible(x.outcome)
  {
    assert s'.emitted[|s.emitted|] == x;
  }

  lemma PollAdmissibleIff(o: Order, poll: PollAnswer, now: Time)
    requires now != ZERO_TIME
    ensures Click.Admissible(PollOutcome(o, poll, now)) <==> o.decisionRef != ""
  {
    NonEmptyTexts(false, false, "", o.plan.fallback);
    if poll.PollFailed? {
      assert |"acceptance poll failed: " + poll.text| > 0;
    }
  }

  lemma DeliverAdmissible(c: Config, s: State, t: Step)
    requires t.Deliver? && AllAdmissible(s) && t.now != ZERO_TIME
    ensures AllAdmissible(Do(c, s, t)) <==> Identified(c, s, t)
  {
    if RecordedFor(c, s, t).Some? {
      var o := RecordedFor(c, s, t).value;
      ExecutedAdmissibleIff(c.live, s.armed, o, c.bindings, t.failAt, t.now);
      OneMoreIff(s, Do(c, s, t), Emitted(Executed(c.live, s.armed, o, RunOf(c.bindings, o.contractRef, false, t.failAt), t.now), false, 0));
    }
  }

  lemma ProbeAdmissible(s: State, j: nat, converged: bool, now: Time)
    requires AllAdmissible(s) && j < |s.jobs| && now != ZERO_TIME
    ensures AllAdmissible(Settled(s, j, converged, now)) <==> s.jobs[j].order.decisionRef != ""
  {
    var o := s.jobs[j].order;
    ConvergenceAdmissibleIff(o, converged, now);
    OneMoreIff(s, Settled(s, j, converged, now), Emitted(Convergence(o, SettlementOf(o, converged, now), now), true, j));
  }

  lemma UndoAdmissible(c: Config, s: State, j: nat, failAt: nat, now: Time)
    requires AllAdmissible(s) && j < |s.jobs| && now != ZERO_TIME
    ensures AllAdmissible(Undone(c, s, j, failAt, now)) <==> s.jobs[j].order.decisionRef != ""
  {
    var undo := ReversalOf(s.jobs[j].order, now);
    ExecutedAdmissibleIff(c.live, s.armed, undo, c.bindings, failAt, now);
    OneMoreIff(s, Undone(c, s, j, failAt, now),
               Emitted(Executed(c.live, s.armed, undo, RunOf(c.bindings, undo.contractRef, true, failAt), now), false, 0));
  }

  lemma PollStepAdmissible(s: State, j: nat, poll: PollAnswer, now: Time)
    requires AllAdmissible(s) && j < |s.jobs| && now != ZERO_TIME
    ensures AllAdmissible(Answered(s, j, poll, now)) <==> poll.Accepted? || s.jobs[j].order.decisionRef != ""
  {
    if !poll.Accepted? {
      PollAdmissibleIff(s.jobs[j].order, poll, now);
      OneMoreIff(s, Answered(s, j, poll, now), Emitted(PollOutcome(s.jobs[j].order, poll, now), false, 0));
    }
  }

  lemma StepAdmissible(c: Config, s: State, t: Step)
    requires AllAdmissible(s) && Enabled(s, t) && Timed(t)
    ensures AllAdmissible(Do(c, s, t)) <==> Identified(c, s, t)
  {
    if t.Deliver? {
      DeliverAdmissible(c, s, t);
    } else if t.Poll? {
      PollStepAdmissible(s, t.job, t.poll, t.now);
    } else if t.Probe? {
      ProbeAdmissible(s, t.job, t.converged, t.now);
    } else if t.UndoStep? {
      UndoAdmissible(c, s, t.job, t.failAt, t.now);
    }
  }

  lemma {:induction false} EmittedGrows(c: Config, s: State, trace: seq<Step>)
    requires Legal(c, s, trace)
    ensures s.emitted <= Run(c, s, trace).emitted
    decreases trace
  {
    if trace == [] {
    } else {
      EmittedGrows(c, Do(c, s, trace[0]), trace[1..]);
    }
  }

  /** Every outcome thump records in a run passes the checks the ledger makes before
      it learns, iff every outcome was recorded for a grant that carried an ID. */
  lemma {:induction false} BornAuditableIff(c: Config, s: State, trace: seq<Step>)
    requires Legal(c, s, trace) && AllAdmissible(s)
    requires forall i | 0 <= i < |trace| :: Timed(trace[i])
    ensures AllAdmissible(Run(c, s, trace)) <==> AllIdentified(c, s, trace)
    decreases trace
  {
    if trace == [] {
    } else {
      var s1 := Do(c, s, trace[0]);
      StepAdmissible(c, s, trace[0]);
      if AllAdmissible(s1) {
        BornAuditableIff(c, s1, trace[1..]);
      } else {
        EmittedGrows(c, s1, trace[1..]);
      }
    }
  }

  // ---- and that is up to the approvals ------------------------------------

  /** An approval thump renders carries an ID. */
  predicate Grants(c: Config, t: Step) {
    t.Deliver? && t.g.decision.verdict == Approved && RenderOf(t.g, c.catalog, t.now).Ready? ==> t.g.decision.id != ""
  }

  predicate JobsIdentified(s: State) {
    forall j | 0 <= j < |s.jobs| :: s.jobs[j].order.decisionRef != ""
  }

  /** The steps that act on a job leave every order where it was. */
  predicate SameOrders(s: State, s': State) {
    |s.jobs| == |s'.jobs| && forall j | 0 <= j < |s.jobs| :: s'.jobs[j].order == s.jobs[j].order
  }

  lemma ExecuteGranted(c: Config, s: State, o: Order, failAt: nat, published: bool, now: Time)
    requires JobsIdentified(s) && o.decisionRef != ""
    ensures JobsIdentified(Execute(c, s, o, failAt, published, now))
  {
  }

  lemma DeliverGranted(c: Config, s: State, t: Step)
    requires t.Deliver? && JobsIdentified(s) && Grants(c, t)
    ensures Identified(c, s, t) && JobsIdentified(Do(c, s, t))
  {
    if t.g.decision.verdict == Approved && RenderOf(t.g, c.catalog, t.now).Ready? {
      ExecuteGranted(c, s, RenderOf(t.g, c.catalog, t.now).order, t.failAt, t.published, t.now);
    }
  }

  lemma SameOrdersIdentified(s: State, s': State)
    requires JobsIdentified(s) && SameOrders(s, s')
    ensures JobsIdentified(s')
  {
  }

  lemma GrantedStep(c: Config, s: State, t: Step)
    requires JobsIdentified(s) && Enabled(s, t) && Grants(c, t)
    ensures Identified(c, s, t) && JobsIdentified(Do(c, s, t))
  {
    if t.Deliver? {
      DeliverGranted(c, s, t);
    } else if t.UndoStep? {
      SameOrdersIdentified(s, Undone(c, s, t.job, t.failAt, t.now));
    } else {
      QuietStep(c, s, t);
      SameOrdersIdentified(s, Do(c, s, t));
    }
  }

  /** In particular when every approval it acts on carries one, published or not. */
  lemma {:induction false} IdentifiedApprovalsSuffice(c: Config, s: State, trace: seq<Step>)
    requires Legal(c, s, trace) && JobsIdentified(s) && forall i | 0 <= i < |trace| :: Grants(c, trace[i])
    ensures AllIdentified(c, s, trace)
    decreases trace
  {
    if trace == [] {
    } else {
      GrantedStep(c, s, trace[0]);
      IdentifiedApprovalsSuffice(c, Do(c, s, trace[0]), trace[1..]);
    }
  }
}
