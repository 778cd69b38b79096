/** The boundary objects the beats hand to each other (api/v1): proposal sets,
    decisions, outcomes.  Only the fields some modelled operation reads or
    writes are kept.  Go's open string enums become datatypes with an `Other`
    constructor, so that a value outside the enum is still a value; floats are
    reals; instants are nanosecond counts, with 0 standing for the zero time. */
module Boundary {

  type Time = int
  const ZERO_TIME: Time := 0

  datatype Option<+T> = None | Some(value: T)

  // ---- outcome.Outcome ----------------------------------------------------

  datatype Mode = NoMode | DryRun | Live | OtherMode(text: string)

  datatype Result =
    | NoResult
    | Rendered
    | Applied
    | ProposedForReview
    | Success
    | Failure
    | Unknown
    | Blocked
    | PartialNonConverging
    | OtherResult(text: string)

  datatype Outcome = Outcome(
    id: string,
    decisionRef: string,
    signalRef: string,
    contractRef: string,
    mode: Mode,
    result: Result,
    error: string,
    executedAt: Time)

  /** Outcome.Auditable: the invariant every emitted outcome must satisfy. */
  predicate AuditableOutcome(o: Outcome) {
    && o.decisionRef != ""
    && o.executedAt != ZERO_TIME
    && o.mode != NoMode
    && o.result != NoResult
    && ((o.result.Failure? || o.result.PartialNonConverging?) ==> o.error != "")
  }

  // ---- proposal.Set -------------------------------------------------------

  datatype Phase =
    | Proposed
    | Acknowledge
    | Acted
    | Superseded
    | Closed
    | NoAction
    | BudgetExhausted
    | Declined
    | OtherPhase(text: string)

  datatype Status = Status(phase: Phase, reason: string, outcome: Result, observedAt: Time)

  datatype EvidenceRef = EvidenceRef(tool: string, key: string, live: bool, subject: string)

  datatype NodeState = NodeState(name: string, state: string, trafficShare: real)

  datatype Topology = Topology(upstream: seq<NodeState>, downstream: seq<NodeState>)

  datatype ChangeEvent = ChangeEvent(
    id: string,
    target: string,
    age: int,
    predictedSignals: seq<string>,
    staleness: int)

  /** The frozen snapshot one reason loop reasons over. */
  datatype Sao = Sao(
    signalConfidence: real,
    originService: string,
    topology: Topology,
    changes: seq<ChangeEvent>)

  datatype CausalScore = CausalScore(eventId: string, inTopology: bool, liveCorroborated: bool, likelihood: real)

  datatype Band = Observe | ActReversible | ActDisruptive | OtherBand(text: string)

  datatype BlastTier = Low | Med | High | OtherBlast(text: string)

  datatype ReversalPath = ReversalPath(undo: string, watching: string, trigger: string, automatic: bool)

  datatype PredictedImpact = PredictedImpact(severityReduction: real, timeToEffect: string)

  datatype Candidate = Candidate(
    id: string,
    contractRef: string,
    confidence: real,
    computedConfidence: real,
    ceilingBound: bool,
    impact: Option<PredictedImpact>,
    blast: BlastTier,
    reversal: Option<ReversalPath>,
    band: Option<Band>,
    rank: nat,
    citations: seq<string>)

  datatype GateResult = GateResult(budgetOK: bool, dedupeOK: bool, evidenceOK: bool, passed: bool, reason: string)

  datatype ProposalSet = ProposalSet(
    name: string,
    runId: string,
    signalRef: string,
    sloRef: string,
    sao: Option<Sao>,
    failureClass: string,
    causalScores: seq<CausalScore>,
    evidence: seq<EvidenceRef>,
    serviceTier: string,
    gate: Option<GateResult>,
    proposals: seq<Candidate>,
    recommended: string,
    status: Option<Status>)

  /** First candidate whose ID is `id`: the lookup hiss, thump and the gate share. */
  function FirstById(cands: seq<Candidate>, id: string): (r: Option<Candidate>)
    ensures r.None? <==> forall c | c in cands :: c.id != id
    ensures r.Some? ==> r.value in cands && r.value.id == id
  {
    if cands == [] then None
    else if cands[0].id == id then Some(cands[0])
    else FirstById(cands[1..], id)
  }

  // ---- decision.Decision --------------------------------------------------

  datatype Verdict = Approved | Escalate | Rejected | Hold | OtherVerdict(text: string)

  /** Verdict.AwaitsApproval: the two verdicts that still need a human ack. */
  predicate AwaitsApproval(v: Verdict) {
    v.Escalate? || v.Hold?
  }

  datatype Decision = Decision(
    id: string,
    proposalRef: string,
    signalRef: string,
    sloRef: string,
    candidateRef: string,
    verdict: Verdict,
    reasons: seq<string>,
    requestedBand: Band,
    grantedBand: Option<Band>,
    riskBand: Option<Band>,
    floorApplied: real,
    policyVersion: string,
    evaluatedAt: Time,
    forced: bool,
    approver: string)

  /** Decision.Auditable: policy version, evaluation time, and reasons unless approved. */
  predicate AuditableDecision(d: Decision) {
    && d.policyVersion != ""
    && d.evaluatedAt != ZERO_TIME
    && (d.verdict != Approved ==> |d.reasons| > 0)
  }

  datatype Governed = Governed(decision: Decision, set_: ProposalSet)
}
