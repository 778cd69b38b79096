/** Rendering, executing and settling one order (internal/thump/actuator.go,
    gatedexecutor.go, live.go, executor.go, reversal.go, killswitch.go). */
module Thump {
  import opened Boundary
  import opened Catalog
  import opened Actuate
  import Decimal
  import Click

  datatype Plan = Plan(path: Option<ReversalPath>, fallback: string, restoreOnSuccess: bool, holdOnMiss: bool)

  datatype Order = Order(
    id: string, reversal: bool, decisionRef: string, signalRef: string, sloRef: string, contractRef: string,
    grantedBand: Option<Band>, description: string, parameters: map<string, real>, plan: Plan, target: string,
    window: int, renderedAt: Time)

  function Unix(t: Time): string {
    Decimal.Format(t / 1_000_000_000)
  }

  // ---- rendering ----------------------------------------------------------

  datatype RenderError = Unauditable | Ungoverned | SeamMismatch | OutsideCatalog

  datatype Rendering = Ready(order: Order) | Refused(why: RenderError)

  /** Every scope parameter at its authored default. */
  function Defaults(scope: map<string, Range>): map<string, real> {
    map name | name in scope :: scope[name].default_
  }

  method RenderParameters(scope: map<string, Range>) returns (r: map<string, real>)
    ensures r == Defaults(scope)
  {
    r := map[];
    var todo := scope.Keys;
    while todo != {}
      invariant todo <= scope.Keys
      invariant r == map name | name in scope && name !in todo :: scope[name].default_
      decreases |todo|
    {
      var name :| name in todo;
      r := r[name := scope[name].default_];
      todo := todo - {name};
    }
  }

  function OrderFor(d: Decision, cand: Candidate, ct: ActionContract, now: Time): Order {
    Order("ord:" + d.signalRef + ":" + Unix(now), false, d.id, d.signalRef, d.sloRef, cand.contractRef, d.grantedBand,
          ct.description, Defaults(ct.scopeParameters), Plan(cand.reversal, ct.fallback, ct.restoreOnSuccess, ct.holdOnMiss),
          ct.target, ct.window, now)
  }

  function RenderOf(g: Governed, cat: seq<ActionContract>, now: Time): Rendering {
    var d, cand := g.decision, FirstById(g.set_.proposals, g.decision.candidateRef);
    if !AuditableDecision(d) then Refused(Unauditable)
    else if d.verdict != Approved then Refused(Ungoverned)
    else if d.proposalRef != g.set_.name || d.signalRef != g.set_.signalRef || cand.None? then Refused(SeamMismatch)
    else match FirstNamed(cat, cand.value.contractRef)
      case None => Refused(OutsideCatalog)
      case Some(ct) => Ready(OrderFor(d, cand.value, ct, now))
  }

  method CandidateOf(cands: seq<Candidate>, ref: string) returns (r: Option<Candidate>)
    ensures r == FirstById(cands, ref)
  {
    var i := 0;
    while i < |cands|
      invariant 0 <= i <= |cands|
      invariant FirstById(cands, ref) == FirstById(cands[i..], ref)
    {
      if cands[i].id == ref {
        return Some(cands[i]);
      }
      assert cands[i..][1..] == cands[i + 1..];
      i := i + 1;
    }
    return None;
  }

  method Render(g: Governed, cat: seq<ActionContract>, now: Time) returns (r: Rendering)
    ensures r == RenderOf(g, cat, now)
  {
    if !AuditableDecision(g.decision) {
      return Refused(Unauditable);
    }
    if g.decision.verdict != Approved {
      return Refused(Ungoverned);
    }
    var cand := CandidateOf(g.set_.proposals, g.decision.candidateRef);
    if g.decision.proposalRef != g.set_.name || g.decision.signalRef != g.set_.signalRef || cand.None? {
      return Refused(SeamMismatch);
    }
    var ct := ByName(cat, cand.value.contractRef);
    if ct.None? {
      return Refused(OutsideCatalog);
    }
    var parameters := RenderParameters(ct.value.scopeParameters);
    return Ready(Order("ord:" + g.decision.signalRef + ":" + Unix(now), false, g.decision.id, g.decision.signalRef,
                       g.decision.sloRef, cand.value.contractRef, g.decision.grantedBand, ct.value.description, parameters,
                       Plan(cand.value.reversal, ct.value.fallback, ct.value.restoreOnSuccess, ct.value.holdOnMiss),
                       ct.value.target, ct.value.window, now));
  }

  /** Which grants are refused, and why, on the grant's own fields; the first that
      applies is the answer. */
  lemma RefusedIff(g: Governed, cat: seq<ActionContract>, now: Time)
    ensures var d, r := g.decision, RenderOf(g, cat, now);
            var unaccountable := d.policyVersion == "" || d.evaluatedAt == ZERO_TIME || (!d.verdict.Approved? && d.reasons == []);
            var cand := FirstById(g.set_.proposals, d.candidateRef);
            var mismatched := d.proposalRef != g.set_.name || d.signalRef != g.set_.signalRef || cand.None?;
            && (r == Refused(Unauditable) <==> unaccountable)
            && (r == Refused(Ungoverned) <==> !unaccountable && !d.verdict.Approved?)
            && (r == Refused(SeamMismatch) <==> !unaccountable && d.verdict.Approved? && mismatched)
            && (r == Refused(OutsideCatalog) <==>
                  !unaccountable && d.verdict.Approved? && !mismatched
                  && forall i | 0 <= i < |cat| :: cat[i].name != cand.value.contractRef)
  {
  }

  // ---- executing ----------------------------------------------------------

  function OutcomeOf(o: Order, tag: string, mode: Mode, result: Result, error: string, now: Time): Outcome {
    Outcome("out:" + o.signalRef + tag + ":" + Unix(now), o.decisionRef, o.signalRef, o.contractRef, mode, result, error, now)
  }

  /** The text a failed Run comes back with; never empty. */
  function RunError(o: Order): string {
    "actuate: " + o.contractRef
  }

  /** Whether the order reaches the runner: a live executor, and either an undo or
      an armed switch. */
  predicate Dispatches(live: bool, armed: bool, o: Order) {
    live && (o.reversal || armed)
  }

  function Executed(live: bool, armed: bool, o: Order, ran: Ran, now: Time): Outcome {
    if !live then OutcomeOf(o, "", DryRun, Rendered, "", now)
    else if !Dispatches(live, armed, o) then OutcomeOf(o, "", Live, Blocked, "", now)
    else if ran.ok then OutcomeOf(o, "", Live, ran.result, "", now)
    else OutcomeOf(o, "", Live, Failure, RunError(o), now)
  }

  /** An outcome answers to its order's grant, signal and contract, at its own instant. */
  predicate AnswersTo(oc: Outcome, o: Order, now: Time) {
    oc.decisionRef == o.decisionRef && oc.signalRef == o.signalRef && oc.contractRef == o.contractRef && oc.executedAt == now
  }

  /** What executing an order comes to: a dry run renders and does nothing else; a live
      forward order behind a disarmed switch is blocked; anything else is run, and is a
      failure with a text, or what the runner reports without one. */
  lemma ExecutedIs(live: bool, armed: bool, o: Order, ran: Ran, now: Time)
    ensures var oc := Executed(live, armed, o, ran, now);
            && AnswersTo(oc, o, now) && oc.mode == (if live then Live else DryRun)
            && oc.result == (if !live then Rendered else if !o.reversal && !armed then Blocked
                             else if ran.ok then ran.result else Failure)
            && (oc.error != "" <==> live && (o.reversal || armed) && !ran.ok)
  {
    assert |RunError(o)| >= |"actuate: "| > 0;
  }

  /** Two outcomes of one signal share an ID iff they are of one kind and fall into the
      same second: then, and only then, a corpus keyed on the ID takes them for one. */
  lemma SharedIdIff(a: Order, b: Order, tagA: string, tagB: string, modeA: Mode, modeB: Mode, ra: Result, rb: Result,
                    ea: string, eb: string, t: Time, u: Time)
    requires a.signalRef == b.signalRef && tagA in {"", ":conv", ":accept"} && tagB in {"", ":conv", ":accept"}
    ensures OutcomeOf(a, tagA, modeA, ra, ea, t).id == OutcomeOf(b, tagB, modeB, rb, eb, u).id <==>
            tagA == tagB && t / 1_000_000_000 == u / 1_000_000_000
  {
    OutcomeId(a, tagA, modeA, ra, ea, t);
    OutcomeId(b, tagB, modeB, rb, eb, u);
    SamePrefix("out:" + a.signalRef, tagA + ":" + Unix(t), tagB + ":" + Unix(u));
    TaggedIff(tagA, tagB, t, u);
  }

  lemma OutcomeId(o: Order, tag: string, mode: Mode, result: Result, error: string, now: Time)
    ensures OutcomeOf(o, tag, mode, result, error, now).id == ("out:" + o.signalRef) + (tag + ":" + Unix(now))
  {
  }

  lemma SamePrefix(p: string, x: string, y: string)
    ensures p + x == p + y <==> x == y
  {
    assert (p + x)[|p|..] == x && (p + y)[|p|..] == y;
  }

  lemma TaggedIff(tagA: string, tagB: string, t: Time, u: Time)
    requires tagA in {"", ":conv", ":accept"} && tagB in {"", ":conv", ":accept"}
    ensures tagA + ":" + Unix(t) == tagB + ":" + Unix(u) <==> tagA == tagB && t / 1_000_000_000 == u / 1_000_000_000
  {
    Decimal.FormatInjective(t / 1_000_000_000, u / 1_000_000_000);
    Decimal.FormatStart(t / 1_000_000_000);
    Decimal.FormatStart(u / 1_000_000_000);
    var x, y := tagA + ":" + Unix(t), tagB + ":" + Unix(u);
    if tagA == tagB {
      SamePrefix(tagA + ":", Unix(t), Unix(u));
    } else {
      assert x[1] != y[1];
    }
  }

  // ---- settling -----------------------------------------------------------

  predicate Fires(p: Plan, converged: bool) {
    (!converged && !p.holdOnMiss) || p.restoreOnSuccess
  }

  datatype Settlement = Settlement(converged: bool, fire: bool, held: bool, undo: Option<Order>)

  function ReversalOf(o: Order, now: Time): Order {
    Order("rev:" + o.signalRef + ":" + Unix(now), true, o.decisionRef, o.signalRef, "", o.contractRef, None,
          if o.plan.path.Some? then o.plan.path.value.undo else "", map[], o.plan, "", 0, now)
  }

  /** ReversalWatcher.Watch after its window, on the one probe reading. */
  function SettlementOf(o: Order, converged: bool, now: Time): Settlement {
    if Fires(o.plan, converged) then Settlement(converged, true, false, Some(ReversalOf(o, now)))
    else Settlement(converged, false, !converged && o.plan.holdOnMiss, None)
  }

  function SettleResult(converged: bool): Result {
    if converged then Success else PartialNonConverging
  }

  function SettleError(converged: bool, held: bool, target: string, fallback: string): string {
    if converged then ""
    else if held then
      if fallback == "" then "success window elapsed without meeting " + target + "; undo held, no fallback authored"
      else "success window elapsed without meeting " + target + "; undo held, fallback: " + fallback
    else "success window elapsed without meeting " + target
  }

  function AcceptanceError(fallback: string): string {
    if fallback == "" then "release not accepted within the success window; no fallback authored"
    else "release not accepted within the success window; fallback: " + fallback
  }

  function Convergence(o: Order, st: Settlement, now: Time): Outcome {
    OutcomeOf(o, ":conv", Live, SettleResult(st.converged), SettleError(st.converged, st.held, o.target, o.plan.fallback), now)
  }

  /** An undo is the same contract under the same grant and signal, marked as one, so
      that no switch stops it; it carries the authored undo's name and nothing of the
      forward order's band, target or window. */
  lemma ReversalIs(o: Order, now: Time)
    ensures var r := ReversalOf(o, now);
            && r.reversal && r.contractRef == o.contractRef && r.decisionRef == o.decisionRef && r.signalRef == o.signalRef
            && r.plan == o.plan && r.renderedAt == now && r.grantedBand.None? && r.target == "" && r.window == 0
            && r.description == (if o.plan.path.Some? then o.plan.path.value.undo else "")
            && forall armed :: Dispatches(true, armed, r)
  {
  }

  /** A miss names the target it missed; a held one says so and ends in the fallback the
      author left, if any, and so does a release nobody merged. */
  lemma MissSays(target: string, fallback: string)
    ensures var missed, held := SettleError(false, false, target, fallback), SettleError(false, true, target, fallback);
            && missed == "success window elapsed without meeting " + target
            && missed < held
            && (fallback != "" ==> EndsIn(held, fallback) && EndsIn(AcceptanceError(fallback), fallback))
  {
    var missed := "success window elapsed without meeting " + target;
    assert SettleError(false, true, target, fallback)
        == missed + if fallback == "" then "; undo held, no fallback authored" else "; undo held, fallback: " + fallback;
  }

  predicate EndsIn(s: string, end: string) {
    |end| <= |s| && s[|s| - |end|..] == end
  }

  /** A contract that holds on a miss is documented never to undo on one.  It does
      iff it also restores on success, and then the outcome's text does not say
      that anything was held either. */
  lemma HeldMissUndoesIff(o: Order, now: Time)
    requires o.plan.holdOnMiss
    ensures var st := SettlementOf(o, false, now);
            (st.fire <==> o.plan.restoreOnSuccess) && (st.held <==> !o.plan.restoreOnSuccess)
  {
  }

  // ---- what thump emits is fit for the ledger -----------------------------

  lemma NonEmptyTexts(converged: bool, held: bool, target: string, fallback: string)
    ensures SettleError(converged, held, target, fallback) == "" <==> converged
    ensures AcceptanceError(fallback) != ""
  {
    var a := "success window elapsed without meeting ";
    assert |a| > 0 && |a + target| >= |a| && |a + target + "; undo held, fallback: " + fallback| > 0
        && |a + target + "; undo held, no fallback authored"| > 0;
    assert |"release not accepted within the success window; fallback: " + fallback| > 0;
    assert |"release not accepted within the success window; no fallback authored"| > 0;
  }

  /** Every result a runner can report, and hence every outcome thump builds from
      an order, passes the audit and coherence checks iff the grant had an ID. */
  lemma ExecutedAdmissibleIff(live: bool, armed: bool, o: Order, bindings: map<string, Binding>, failAt: nat, now: Time)
    requires now != ZERO_TIME
    ensures Click.Admissible(Executed(live, armed, o, RunOf(bindings, o.contractRef, o.reversal, failAt), now)) <==> o.decisionRef != ""
  {
    var ran := RunOf(bindings, o.contractRef, o.reversal, failAt);
    if ran.ok {
      var b := bindings[o.contractRef];
      ResultIsLive(if o.reversal then b.reverse else b.forward);
    }
    assert |RunError(o)| >= |"actuate: "| > 0;
  }

  lemma {:induction false} ResultIsLive(op: Operation)
    ensures ResultOf(op) == Applied || ResultOf(op) == ProposedForReview
    decreases op
  {
    if !op.Sequence? || op.ops == [] {
    } else {
      ResultIsLive(op.ops[|op.ops| - 1]);
    }
  }

  lemma ConvergenceAdmissibleIff(o: Order, converged: bool, now: Time)
    requires now != ZERO_TIME
    ensures Click.Admissible(Convergence(o, SettlementOf(o, converged, now), now)) <==> o.decisionRef != ""
  {
    NonEmptyTexts(converged, SettlementOf(o, converged, now).held, o.target, o.plan.fallback);
  }

  // ---- the kill switch ----------------------------------------------------

  /** What one read of the switch file yields. */
  datatype Reading = Unreadable | Unparsable | Says(armed: bool)

  /** Fail closed: only a clean read that says so arms. */
  predicate Arms(r: Reading) {
    r.Says? && r.armed
  }

  class FileSwitch {
    var armed: bool

    constructor ()
      ensures !armed
    {
      armed := false;
    }

    method Reload(r: Reading) returns (ok: bool)
      modifies this
      ensures armed == Arms(r) && ok == r.Says?
    {
      match r {
        case Unreadable => armed := false; ok := false;
        case Unparsable => armed := false; ok := false;
        case Says(a) => armed := a; ok := true;
      }
    }
  }
}
