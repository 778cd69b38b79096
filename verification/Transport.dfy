/** Thump's transport as an object (internal/thump/transport.go:86-298): each
    method makes its calls in the order the code does, and is proved to be one
    step of the machine the run theorems are about. */
module Transport {
  import opened Boundary
  import opened Catalog
  import opened Actuate
  import opened Thump
  import U = Undo

  datatype HandleError = RenderFailed(why: RenderError) | PublishFailed

  /** What handle answers: a refused rendering publishes nothing, everything else
      succeeds iff its publishes do. */
  function HandleErrorOf(g: Governed, cat: seq<ActionContract>, orderOK: bool, outcomeOK: bool, now: Time): Option<HandleError> {
    if g.decision.verdict == Approved then
      match RenderOf(g, cat, now)
      case Refused(why) => Some(RenderFailed(why))
      case Ready(_) => if orderOK && outcomeOK then None else Some(PublishFailed)
    else if outcomeOK then None
    else Some(PublishFailed)
  }

  /** The contract a decision's rendering is for. */
  function RenderedRef(g: Governed, cat: seq<ActionContract>, now: Time): string {
    match RenderOf(g, cat, now)
    case Refused(_) => ""
    case Ready(o) => o.contractRef
  }

  class Transport {
    const cfg: U.Config
    const killSwitch: FileSwitch
    const kube: Kube
    var down: bool
    var jobs: seq<U.Job>
    var calls: seq<U.Call>
    var emitted: seq<U.Emitted>
    var held: seq<Governed>
    var declined: seq<Decision>

    ghost function State(): U.State
      reads this, killSwitch
    {
      U.State(killSwitch.armed, down, jobs, calls, emitted, held, declined)
    }

    constructor (cfg: U.Config, killSwitch: FileSwitch, kube: Kube)
      requires !killSwitch.armed
      ensures this.cfg == cfg && this.killSwitch == killSwitch && this.kube == kube && State() == U.Fresh
    {
      this.cfg, this.killSwitch, this.kube := cfg, killSwitch, kube;
      down, jobs, calls, emitted, held, declined := false, [], [], [], [], [];
    }

    /** The executor: dry run, gate, or the live runner. */
    method Execute(o: Order, failAt: nat, now: Time, job: nat) returns (oc: Outcome)
      modifies this`calls, kube
      ensures var ran := RunOf(cfg.bindings, o.contractRef, o.reversal, failAt);
              && oc == Executed(cfg.live, killSwitch.armed, o, ran, now)
              && calls == old(calls) + (if Dispatches(cfg.live, killSwitch.armed, o)
                                        then [U.Call(o.contractRef, o.reversal, ran.ok, killSwitch.armed, job)] else [])
              && kube.calls == old(kube.calls) + if Dispatches(cfg.live, killSwitch.armed, o) then ran.done else []
    {
      if !cfg.live {
        return OutcomeOf(o, "", DryRun, Rendered, "", now);
      }
      if !o.reversal && !killSwitch.armed {
        return OutcomeOf(o, "", Live, Blocked, "", now);
      }
      var ran := RunAction(cfg.bindings, o.contractRef, o.reversal, kube, failAt);
      calls := calls + [U.Call(o.contractRef, o.reversal, ran.ok, killSwitch.armed, job)];
      if !ran.ok {
        return OutcomeOf(o, "", Live, Failure, RunError(o), now);
      }
      return OutcomeOf(o, "", Live, ran.result, "", now);
    }

    /** The watch an outcome calls for, if any. */
    method StartWatch(o: Order, oc: Outcome)
      modifies this`jobs
      ensures jobs == old(jobs) + U.Spawned(cfg, old(State()), o, oc)
    {
      if cfg.reversal && oc.mode == Live && oc.result == Applied {
        jobs := jobs + [U.Job(o, if down then U.Cut else U.Watching, None)];
      } else if cfg.acceptance && oc.mode == Live && oc.result == ProposedForReview {
        jobs := jobs + [U.Job(o, if down then U.Cut else U.Polling, None)];
      }
    }

    /** An approved order: execute, start its watch, publish order and outcome, and
        only then record the outcome. */
    method CarryOut(o: Order, failAt: nat, orderOK: bool, outcomeOK: bool, now: Time) returns (ok: bool)
      requires !o.reversal
      modifies this`jobs, this`calls, this`emitted, kube
      ensures ok <==> orderOK && outcomeOK
      ensures State() == U.Execute(cfg, old(State()), o, failAt, ok, now)
      ensures kube.calls == old(kube.calls)
                + if Dispatches(cfg.live, old(killSwitch.armed), o) then RunOf(cfg.bindings, o.contractRef, false, failAt).done else []
    {
      var oc := Execute(o, failAt, now, 0);
      StartWatch(o, oc);
      if !orderOK {
        return false;
      }
      if !outcomeOK {
        return false;
      }
      emitted := emitted + [U.Emitted(oc, false, 0)];
      return true;
    }

    /** handle: render, carry out, or hand on what is not an approval.  `orderOK` and
        `outcomeOK` are the two publishes of an approval; any other verdict makes one,
        `outcomeOK`. */
    method Handle(g: Governed, failAt: nat, orderOK: bool, outcomeOK: bool, now: Time) returns (err: Option<HandleError>)
      modifies this, kube
      ensures var published := outcomeOK && (g.decision.verdict == Approved ==> orderOK);
              State() == U.Do(cfg, old(State()), U.Deliver(g, failAt, published, now))
      ensures err == HandleErrorOf(g, cfg.catalog, orderOK, outcomeOK, now)
      ensures kube.calls == old(kube.calls)
                + if State().calls == old(State()).calls then []
                  else RunOf(cfg.bindings, RenderedRef(g, cfg.catalog, now), false, failAt).done
    {
      err := None;
      match g.decision.verdict {
        case Approved =>
          var r := Render(g, cfg.catalog, now);
          if r.Refused? {
            return Some(RenderFailed(r.why));
          }
          var ok := CarryOut(r.order, failAt, orderOK, outcomeOK, now);
          if !ok {
            return Some(PublishFailed);
          }
        case Hold =>
          if !outcomeOK {
            return Some(PublishFailed);
          }
          held := held + [g];
        case _ =>
          if !outcomeOK {
            return Some(PublishFailed);
          }
          declined := declined + [g.decision];
      }
    }

    /** watchAndAccept, once its window has elapsed. */
    method AfterPoll(j: nat, poll: U.PollAnswer, now: Time)
      requires U.Enabled(State(), U.Poll(j, poll, now))
      modifies this`jobs, this`emitted
      ensures State() == U.Do(cfg, old(State()), U.Poll(j, poll, now))
    {
      var o := jobs[j].order;
      match poll {
        case PollFailed(text) =>
          jobs := jobs[j := jobs[j].(stage := U.Unmerged)];
          RecordAccept(o, Failure, "acceptance poll failed: " + text, now);
        case NotAccepted =>
          jobs := jobs[j := jobs[j].(stage := U.Unmerged)];
          RecordAccept(o, PartialNonConverging, AcceptanceError(o.plan.fallback), now);
        case Accepted =>
          jobs := jobs[j := jobs[j].(stage := U.Watching)];
      }
    }

    method RecordAccept(o: Order, result: Result, text: string, now: Time)
      modifies this`emitted
      ensures emitted == old(emitted) + [U.Emitted(OutcomeOf(o, ":accept", Live, result, text, now), false, 0)]
    {
      emitted := emitted + [U.Emitted(OutcomeOf(o, ":accept", Live, result, text, now), false, 0)];
    }

    /** watchAndSettle up to its convergence outcome. */
    method Settle(j: nat, converged: bool, now: Time) returns (st: Settlement)
      requires U.Enabled(State(), U.Probe(j, converged, now))
      modifies this`jobs, this`emitted
      ensures State() == U.Do(cfg, old(State()), U.Probe(j, converged, now))
      ensures st == SettlementOf(jobs[j].order, converged, now) && st.converged == converged
    {
      var o := jobs[j].order;
      st := SettlementOf(o, converged, now);
      emitted := emitted + [U.Emitted(Convergence(o, st, now), true, j)];
      jobs := jobs[j := jobs[j].(stage := if st.fire then U.Undoing else U.Finished, answer := Some(converged))];
    }

    /** Its second half: the undo goes through the same executor, and the gate lets
        it past whatever the switch says. */
    method FireUndo(j: nat, failAt: nat, now: Time)
      requires U.Enabled(State(), U.UndoStep(j, failAt, now))
      modifies this`jobs, this`calls, this`emitted, kube
      ensures State() == U.Do(cfg, old(State()), U.UndoStep(j, failAt, now))
    {
      var undo := ReversalOf(jobs[j].order, now);
      var oc := Execute(undo, failAt, now, j);
      emitted := emitted + [U.Emitted(oc, false, 0)];
      jobs := jobs[j := jobs[j].(stage := U.Finished)];
    }

    /** Shutdown cancels the context every waiting goroutine selects on. */
    method Shutdown()
      modifies this`jobs, this`down
      ensures State() == U.Do(cfg, old(State()), U.Shutdown)
    {
      down := true;
      jobs := U.CutAll(jobs);
    }
  }
}
