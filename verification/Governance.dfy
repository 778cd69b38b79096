/** Hiss's governor (internal/hiss/authority.go, internal/hiss/risk.go,
    internal/hiss/policy.go). */
module Governance {
  import opened Boundary
  import Decimal

  datatype Window = Window(name: string, start: Time, end: Time)

  datatype Policy = Policy(
    version: string,
    split: bool,                              // ConfidenceGate == "split"; anything else collapses
    floors: map<string, map<string, real>>,
    maxBand: map<string, Band>,
    autoBand: map<string, Band>,
    windows: seq<Window>,
    requireReversal: bool)

  function FloorOf(pol: Policy, tier: string, failureClass: string): real {
    if tier in pol.floors && failureClass in pol.floors[tier] then pol.floors[tier][failureClass] else 0.0
  }

  /** A lookup in a Go map of bands: a missing tier reads as the empty string. */
  function BandFor(bands: map<string, Band>, tier: string): Band {
    if tier in bands then bands[tier] else OtherBand("")
  }

  function BandRank(b: Band): nat {
    match b
    case Observe => 0
    case ActReversible => 1
    case ActDisruptive => 2
    case OtherBand(_) => 3
  }

  function RiskBand(reversible: bool, automatic: bool, blast: BlastTier): Band {
    if !reversible then ActDisruptive
    else if !automatic then ActDisruptive
    else if blast == High then ActDisruptive
    else ActReversible
  }

  predicate Automatic(c: Candidate) {
    c.reversal.Some? && c.reversal.value.automatic
  }

  function RiskOf(c: Candidate): Band {
    RiskBand(c.reversal.Some?, Automatic(c), c.blast)
  }

  predicate SelfReportBinds(c: Candidate) {
    BandRank(RiskOf(c)) > BandRank(ActReversible)
  }

  function EffectiveComputed(c: Candidate): real {
    if c.computedConfidence == 0.0 && c.confidence > 0.0 then c.confidence else c.computedConfidence
  }

  function Requested(c: Candidate): Band {
    if c.band.None? then Observe else c.band.value
  }

  // ---- the rules, each on its own -----------------------------------------

  predicate InWindow(w: Window, now: Time) {
    w.start <= now < w.end
  }

  predicate Frozen(pol: Policy, now: Time) {
    exists i | 0 <= i < |pol.windows| :: InWindow(pol.windows[i], now)
  }

  predicate Ungrounded(c: Candidate, pol: Policy, floor: real) {
    pol.split && EffectiveComputed(c) < floor
  }

  predicate Unconfident(c: Candidate, pol: Policy, floor: real) {
    c.confidence < floor && (pol.split ==> SelfReportBinds(c))
  }

  predicate AboveCeiling(c: Candidate, pol: Policy, tier: string) {
    BandRank(Requested(c)) > BandRank(BandFor(pol.maxBand, tier))
  }

  predicate Irreversible(c: Candidate, pol: Policy) {
    pol.requireReversal && c.reversal.None?
  }

  predicate TooRisky(c: Candidate, pol: Policy, tier: string) {
    BandRank(RiskOf(c)) > BandRank(BandFor(pol.autoBand, tier))
  }

  /** No stage-one veto. */
  predicate Eligible(c: Candidate, ps: ProposalSet, pol: Policy, now: Time) {
    var floor := FloorOf(pol, ps.serviceTier, ps.failureClass);
    && !Ungrounded(c, pol, floor)
    && !Unconfident(c, pol, floor)
    && !AboveCeiling(c, pol, ps.serviceTier)
    && !Irreversible(c, pol)
    && !Frozen(pol, now)
  }

  /** A set hiss has standing to weigh: gated, with a recommendation that resolves. */
  function Weighed(ps: ProposalSet): Option<Candidate> {
    if ps.gate.Some? && ps.gate.value.passed then FirstById(ps.proposals, ps.recommended) else None
  }

  function VerdictOn(ps: ProposalSet, pol: Policy, now: Time): Verdict {
    match Weighed(ps)
    case None => Rejected
    case Some(c) =>
      if !Eligible(c, ps, pol, now) then Escalate
      else if TooRisky(c, pol, ps.serviceTier) then Hold
      else Approved
  }

  // ---- the decision -------------------------------------------------------

  const UNGATED_INPUT := "ungated_input"
  const GROUNDING_FLOOR := "grounding_floor"
  const CONFIDENCE_FLOOR := "confidence_floor"
  const AUTHORITY_CEILING := "authority_ceiling"
  const IRREVERSIBLE := "irreversible"
  const FREEZE_WINDOW := "freeze_window"
  const RISK_CEILING := "risk_ceiling"

  function FreezeReasons(windows: seq<Window>, now: Time): seq<string> {
    if windows == [] then []
    else
      var last := windows[|windows| - 1];
      FreezeReasons(windows[..|windows| - 1], now) + if InWindow(last, now) then [FREEZE_WINDOW + ":" + last.name] else []
  }

  function When(b: bool, reason: string): seq<string> {
    if b then [reason] else []
  }

  /** Every veto that applies, in the order the checks run. */
  function Vetoes(c: Candidate, ps: ProposalSet, pol: Policy, now: Time): seq<string> {
    var floor := FloorOf(pol, ps.serviceTier, ps.failureClass);
    FloorReasons(c, pol, floor)
    + When(AboveCeiling(c, pol, ps.serviceTier), AUTHORITY_CEILING)
    + When(Irreversible(c, pol), IRREVERSIBLE)
    + FreezeReasons(pol.windows, now)
  }

  function Stamp(ps: ProposalSet, pol: Policy, now: Time): Decision {
    Decision("dec:" + ps.signalRef + ":" + Decimal.Format(now / 1_000_000_000), ps.name, ps.signalRef, ps.sloRef,
             ps.recommended, OtherVerdict(""), [], OtherBand(""), None, None, 0.0, pol.version, now, false, "")
  }

  lemma {:induction false} FreezeReasonsIff(windows: seq<Window>, now: Time)
    ensures FreezeReasons(windows, now) == [] <==> !exists i | 0 <= i < |windows| :: InWindow(windows[i], now)
  {
    if windows == [] {
    } else {
      var init, last := windows[..|windows| - 1], windows[|windows| - 1];
      FreezeReasonsIff(init, now);
      if exists i | 0 <= i < |windows| :: InWindow(windows[i], now) {
        var i :| 0 <= i < |windows| && InWindow(windows[i], now);
        assert i < |init| ==> init[i] == windows[i];
      } else {
        assert !InWindow(windows[|windows| - 1], now);
        assert forall i | 0 <= i < |init| :: init[i] == windows[i];
      }
    }
  }

  lemma VetoesIff(c: Candidate, ps: ProposalSet, pol: Policy, now: Time)
    ensures Vetoes(c, ps, pol, now) == [] <==> Eligible(c, ps, pol, now)
  {
    FreezeReasonsIff(pol.windows, now);
  }

  function FloorReasons(c: Candidate, pol: Policy, floor: real): seq<string> {
    When(Ungrounded(c, pol, floor), GROUNDING_FLOOR) + When(Unconfident(c, pol, floor), CONFIDENCE_FLOOR)
  }

  method CheckFloors(rec: Candidate, pol: Policy, floor: real) returns (reasons: seq<string>)
    ensures reasons == FloorReasons(rec, pol, floor)
  {
    reasons := [];
    if pol.split {
      if EffectiveComputed(rec) < floor {
        reasons := reasons + [GROUNDING_FLOOR];
      }
      if SelfReportBinds(rec) && rec.confidence < floor {
        reasons := reasons + [CONFIDENCE_FLOOR];
      }
    } else {
      if rec.confidence < floor {
        reasons := reasons + [CONFIDENCE_FLOOR];
      }
    }
  }

  method CheckWindows(windows: seq<Window>, now: Time) returns (reasons: seq<string>)
    ensures reasons == FreezeReasons(windows, now)
  {
    reasons := [];
    var i := 0;
    while i < |windows|
      invariant 0 <= i <= |windows|
      invariant reasons == FreezeReasons(windows[..i], now)
    {
      assert windows[..i + 1][..|windows[..i + 1]| - 1] == windows[..i];
      if windows[i].start <= now && now < windows[i].end {
        reasons := reasons + [FREEZE_WINDOW + ":" + windows[i].name];
      }
      i := i + 1;
    }
    assert windows[..i] == windows;
  }

  /** Stage one: every veto appends its own reason. */
  method StageOne(rec: Candidate, ps: ProposalSet, pol: Policy, now: Time) returns (reasons: seq<string>)
    ensures reasons == Vetoes(rec, ps, pol, now)
  {
    reasons := CheckFloors(rec, pol, FloorOf(pol, ps.serviceTier, ps.failureClass));
    if BandRank(Requested(rec)) > BandRank(BandFor(pol.maxBand, ps.serviceTier)) {
      reasons := reasons + [AUTHORITY_CEILING];
    }
    if pol.requireReversal && rec.reversal.None? {
      reasons := reasons + [IRREVERSIBLE];
    }
    var frozen := CheckWindows(pol.windows, now);
    reasons := reasons + frozen;
  }

  /** The decision as a whole: reasons for everything short of approval, a granted
      band only with one, a risk band once stage two is reached. */
  function Evaluated(ps: ProposalSet, pol: Policy, now: Time): Decision {
    var v, d := VerdictOn(ps, pol, now), Stamp(ps, pol, now);
    match Weighed(ps)
    case None => d.(verdict := v, reasons := [UNGATED_INPUT])
    case Some(c) =>
      d.(verdict := v,
         reasons := if v.Escalate? then Vetoes(c, ps, pol, now) else if v.Hold? then [RISK_CEILING] else [],
         requestedBand := Requested(c),
         floorApplied := FloorOf(pol, ps.serviceTier, ps.failureClass),
         grantedBand := if v.Approved? then Some(Requested(c)) else None,
         riskBand := if v.Escalate? then None else Some(RiskOf(c)))
  }

  /** It stands up as an audit record iff the policy is versioned and the clock set. */
  lemma EvaluatedAuditableIff(ps: ProposalSet, pol: Policy, now: Time)
    ensures AuditableDecision(Evaluated(ps, pol, now)) <==> pol.version != "" && now != ZERO_TIME
  {
    if Weighed(ps).Some? {
      VetoesIff(Weighed(ps).value, ps, pol, now);
    }
  }

  /** Evaluate. */
  method Evaluate(ps: ProposalSet, pol: Policy, now: Time) returns (d: Decision)
    ensures d == Evaluated(ps, pol, now)
  {
    d := Stamp(ps, pol, now);
    var found := RecommendedOf(ps);
    if ps.gate.None? || !ps.gate.value.passed || found.None? {
      return d.(verdict := Rejected, reasons := [UNGATED_INPUT]);
    }
    var rec := found.value;
    d := d.(requestedBand := Requested(rec), floorApplied := FloorOf(pol, ps.serviceTier, ps.failureClass));
    var reasons := StageOne(rec, ps, pol, now);
    VetoesIff(rec, ps, pol, now);
    if |reasons| > 0 {
      return d.(verdict := Escalate, reasons := reasons);
    }
    d := d.(riskBand := Some(RiskBand(rec.reversal.Some?, Automatic(rec), rec.blast)));
    if BandRank(d.riskBand.value) > BandRank(BandFor(pol.autoBand, ps.serviceTier)) {
      return d.(verdict := Hold, reasons := [RISK_CEILING]);
    }
    return d.(verdict := Approved, grantedBand := Some(d.requestedBand));
  }

  // ---- the verdict, on the policy's and the candidate's own fields --------

  function Authored<T>(m: map<string, T>, k: string): Option<T> {
    if k in m then Some(m[k]) else None
  }

  /** At least the floor authored for this tier and class; where none is, only a
      negative figure falls short. */
  predicate MeetsFloor(x: real, pol: Policy, tier: string, cls: string) {
    x >= if tier in pol.floors && cls in pol.floors[tier] then pol.floors[tier][cls] else 0.0
  }

  /** The bands in order: observe, act-reversible, act-disruptive, anything else.  A
      ceiling that is missing or unrecognised stops nothing. */
  predicate Under(b: Band, ceiling: Option<Band>) {
    match ceiling
    case Some(Observe) => b.Observe?
    case Some(ActReversible) => b.Observe? || b.ActReversible?
    case Some(ActDisruptive) => !b.OtherBand?
    case _ => true
  }

  /** Thump can complete the undo itself, and the blast is bounded. */
  predicate Contained(c: Candidate) {
    c.reversal.Some? && c.reversal.value.automatic && !c.blast.High?
  }

  /** The computed confidence; one that was never computed stands at the self-report. */
  function GroundedAt(c: Candidate): real {
    if c.computedConfidence == 0.0 && c.confidence > 0.0 then c.confidence else c.computedConfidence
  }

  /** Every confidence that binds clears the floor: under a split gate the grounded
      one, and the self-report unless the action is contained; otherwise the latter. */
  predicate Confident(c: Candidate, ps: ProposalSet, pol: Policy) {
    && (pol.split ==> MeetsFloor(GroundedAt(c), pol, ps.serviceTier, ps.failureClass))
    && ((pol.split && Contained(c)) || MeetsFloor(c.confidence, pol, ps.serviceTier, ps.failureClass))
  }

  /** No veto: confident, under the tier's ceiling, reversible where the policy asks for
      it, and outside every freeze window. */
  predicate Acceptable(c: Candidate, ps: ProposalSet, pol: Policy, now: Time) {
    && Confident(c, ps, pol)
    && Under(if c.band.Some? then c.band.value else Observe, Authored(pol.maxBand, ps.serviceTier))
    && (pol.requireReversal ==> c.reversal.Some?)
    && forall i | 0 <= i < |pol.windows| :: now < pol.windows[i].start || pol.windows[i].end <= now
  }

  /** The action's own risk stays under what the tier lets through unattended. */
  predicate Unattended(c: Candidate, ps: ProposalSet, pol: Policy) {
    Under(if Contained(c) then ActReversible else ActDisruptive, Authored(pol.autoBand, ps.serviceTier))
  }

  lemma RanksAreUnder(b: Band, bands: map<string, Band>, tier: string)
    ensures BandRank(b) <= BandRank(BandFor(bands, tier)) <==> Under(b, Authored(bands, tier))
  {
  }

  lemma RiskIsContained(c: Candidate)
    ensures RiskOf(c) == if Contained(c) then ActReversible else ActDisruptive
    ensures SelfReportBinds(c) <==> !Contained(c)
  {
  }

  lemma FloorsAreMet(c: Candidate, ps: ProposalSet, pol: Policy)
    ensures var floor := FloorOf(pol, ps.serviceTier, ps.failureClass);
            !Ungrounded(c, pol, floor) && !Unconfident(c, pol, floor) <==> Confident(c, ps, pol)
  {
    RiskIsContained(c);
  }

  lemma EligibleIsAcceptable(c: Candidate, ps: ProposalSet, pol: Policy, now: Time)
    ensures Eligible(c, ps, pol, now) <==> Acceptable(c, ps, pol, now)
  {
    FloorsAreMet(c, ps, pol);
    RanksAreUnder(Requested(c), pol.maxBand, ps.serviceTier);
    if Frozen(pol, now) {
      var i :| 0 <= i < |pol.windows| && InWindow(pol.windows[i], now);
      assert pol.windows[i].start <= now < pol.windows[i].end;
    } else {
      forall i | 0 <= i < |pol.windows| ensures now < pol.windows[i].start || pol.windows[i].end <= now {
        assert !InWindow(pol.windows[i], now);
      }
    }
  }

  /** The candidate on the table, if the gate passed and the recommendation resolves. */
  predicate OnTheTable(ps: ProposalSet, c: Candidate) {
    ps.gate.Some? && ps.gate.value.passed && FirstById(ps.proposals, ps.recommended) == Some(c)
  }

  /** What the verdict comes to, for every set, policy and instant. */
  lemma VerdictIff(ps: ProposalSet, pol: Policy, now: Time)
    ensures var v := Evaluated(ps, pol, now).verdict;
            && (v.Rejected? <==> forall c :: !OnTheTable(ps, c))
            && (v.Escalate? <==> exists c :: OnTheTable(ps, c) && !Acceptable(c, ps, pol, now))
            && (v.Hold? <==> exists c :: OnTheTable(ps, c) && Acceptable(c, ps, pol, now) && !Unattended(c, ps, pol))
            && (v.Approved? <==> exists c :: OnTheTable(ps, c) && Acceptable(c, ps, pol, now) && Unattended(c, ps, pol))
            && (AwaitsApproval(v) <==> !v.Rejected? && !v.Approved?)
  {
    match Weighed(ps) {
      case None =>
        assert forall c :: !OnTheTable(ps, c);
      case Some(c) =>
        assert OnTheTable(ps, c) && forall d :: OnTheTable(ps, d) ==> d == c;
        EligibleIsAcceptable(c, ps, pol, now);
        RiskIsContained(c);
        RanksAreUnder(RiskOf(c), pol.autoBand, ps.serviceTier);
    }
  }

  /** The approval on its own, for the candidate on the table. */
  lemma ApprovedIff(ps: ProposalSet, pol: Policy, now: Time, c: Candidate)
    requires OnTheTable(ps, c)
    ensures Evaluated(ps, pol, now).verdict == Approved <==> Acceptable(c, ps, pol, now) && Unattended(c, ps, pol)
  {
    EligibleIsAcceptable(c, ps, pol, now);
    RiskIsContained(c);
    RanksAreUnder(RiskOf(c), pol.autoBand, ps.serviceTier);
  }

  // ---- the reasons --------------------------------------------------------

  /** The window holds the instant, and `r` names it. */
  predicate Freezes(w: Window, now: Time, r: string) {
    w.start <= now < w.end && r == "freeze_window:" + w.name
  }

  predicate SomeFreezes(windows: seq<Window>, now: Time, r: string) {
    exists i | 0 <= i < |windows| :: Freezes(windows[i], now, r)
  }

  lemma FreezesSnoc(windows: seq<Window>, last: Window, now: Time, r: string)
    ensures SomeFreezes(windows + [last], now, r) <==> SomeFreezes(windows, now, r) || Freezes(last, now, r)
  {
    var all := windows + [last];
    assert all[|windows|] == last && forall i | 0 <= i < |windows| :: all[i] == windows[i];
    if SomeFreezes(windows, now, r) {
      var i :| 0 <= i < |windows| && Freezes(windows[i], now, r);
      assert Freezes(all[i], now, r);
    }
  }

  lemma {:induction false} FreezeReasonsMeaning(windows: seq<Window>, now: Time, r: string)
    ensures r in FreezeReasons(windows, now) <==> SomeFreezes(windows, now, r)
  {
    if windows == [] {
    } else {
      var init, last := windows[..|windows| - 1], windows[|windows| - 1];
      FreezeReasonsMeaning(init, now, r);
      assert windows == init + [last];
      FreezesSnoc(init, last, now, r);
      assert FREEZE_WINDOW + ":" + last.name == "freeze_window:" + last.name;
    }
  }

  lemma InWhen(b: bool, reason: string, r: string)
    ensures r in When(b, reason) <==> b && r == reason
  {
  }

  lemma InFour<T>(a: seq<T>, b: seq<T>, c: seq<T>, d: seq<T>, x: T)
    ensures x in a + b + c + d <==> x in a || x in b || x in c || x in d
  {
  }

  lemma VetoesMeaning(c: Candidate, ps: ProposalSet, pol: Policy, now: Time, r: string)
    ensures var floor := FloorOf(pol, ps.serviceTier, ps.failureClass);
            r in Vetoes(c, ps, pol, now) <==>
              || (r == GROUNDING_FLOOR && Ungrounded(c, pol, floor)) || (r == CONFIDENCE_FLOOR && Unconfident(c, pol, floor))
              || (r == AUTHORITY_CEILING && AboveCeiling(c, pol, ps.serviceTier)) || (r == IRREVERSIBLE && Irreversible(c, pol))
              || r in FreezeReasons(pol.windows, now)
  {
    var floor := FloorOf(pol, ps.serviceTier, ps.failureClass);
    InWhen(Ungrounded(c, pol, floor), GROUNDING_FLOOR, r);
    InWhen(Unconfident(c, pol, floor), CONFIDENCE_FLOOR, r);
    InWhen(AboveCeiling(c, pol, ps.serviceTier), AUTHORITY_CEILING, r);
    InWhen(Irreversible(c, pol), IRREVERSIBLE, r);
    InFour(FloorReasons(c, pol, floor), When(AboveCeiling(c, pol, ps.serviceTier), AUTHORITY_CEILING),
           When(Irreversible(c, pol), IRREVERSIBLE), FreezeReasons(pol.windows, now), r);
  }

  /** Which reasons a decision carries, whatever its verdict. */
  predicate Reason(r: string, c: Candidate, ps: ProposalSet, pol: Policy, now: Time) {
    || (r == "grounding_floor" && pol.split && !MeetsFloor(GroundedAt(c), pol, ps.serviceTier, ps.failureClass))
    || (r == "confidence_floor" && !(pol.split && Contained(c)) && !MeetsFloor(c.confidence, pol, ps.serviceTier, ps.failureClass))
    || (r == "authority_ceiling"
        && !Under(if c.band.Some? then c.band.value else Observe, Authored(pol.maxBand, ps.serviceTier)))
    || (r == "irreversible" && pol.requireReversal && c.reversal.None?)
    || SomeFreezes(pol.windows, now, r)
  }

  lemma VetoIsReason(c: Candidate, ps: ProposalSet, pol: Policy, now: Time, r: string)
    ensures r in Vetoes(c, ps, pol, now) <==> Reason(r, c, ps, pol, now)
  {
    VetoesMeaning(c, ps, pol, now, r);
    FreezeReasonsMeaning(pol.windows, now, r);
    RiskIsContained(c);
    RanksAreUnder(Requested(c), pol.maxBand, ps.serviceTier);
  }

  /** A decision names every veto that applies and no other, the risk ceiling only when
      none does, and an ungated input only when there is nothing to weigh. */
  lemma ReasonsIff(ps: ProposalSet, pol: Policy, now: Time, r: string)
    ensures r in Evaluated(ps, pol, now).reasons <==>
            || (r == "ungated_input" && forall c :: !OnTheTable(ps, c))
            || (exists c :: OnTheTable(ps, c) && Reason(r, c, ps, pol, now))
            || (r == "risk_ceiling" && exists c :: OnTheTable(ps, c) && Acceptable(c, ps, pol, now) && !Unattended(c, ps, pol))
  {
    VerdictIff(ps, pol, now);
    if Weighed(ps).Some? {
      var c := Weighed(ps).value;
      assert OnTheTable(ps, c) && forall d :: OnTheTable(ps, d) ==> d == c;
      VetoIsReason(c, ps, pol, now, r);
      VetoesIff(c, ps, pol, now);
    }
  }

  /** Where no floor is authored for the tier and class, none is a reason, unless a
      confidence is negative. */
  lemma UnauthoredFloorNeverVetoes(ps: ProposalSet, pol: Policy, now: Time)
    requires !(ps.serviceTier in pol.floors && ps.failureClass in pol.floors[ps.serviceTier])
    requires forall c | OnTheTable(ps, c) :: c.confidence >= 0.0 && c.computedConfidence >= 0.0
    ensures "grounding_floor" !in Evaluated(ps, pol, now).reasons && "confidence_floor" !in Evaluated(ps, pol, now).reasons
  {
    ReasonsIff(ps, pol, now, "grounding_floor");
    ReasonsIff(ps, pol, now, "confidence_floor");
    forall i | 0 <= i < |pol.windows|
      ensures !Freezes(pol.windows[i], now, "grounding_floor") && !Freezes(pol.windows[i], now, "confidence_floor")
    {
      var r := "freeze_window:" + pol.windows[i].name;
      assert r[0] == 'f' && "grounding_floor"[0] == 'g' && "confidence_floor"[0] == 'c';
    }
  }

  /** And what else it says: whose decision it is, the floor the set was held to, the
      band asked for, and the band granted only with an approval. */
  lemma DecisionDescribesSet(ps: ProposalSet, pol: Policy, now: Time)
    ensures var d := Evaluated(ps, pol, now);
            && d.proposalRef == ps.name && d.signalRef == ps.signalRef && d.sloRef == ps.sloRef
            && d.candidateRef == ps.recommended && d.policyVersion == pol.version && d.evaluatedAt == now
            && d.approver == "" && (d.grantedBand.Some? <==> d.verdict.Approved?)
            && forall c | OnTheTable(ps, c) ::
                 && d.requestedBand == (if c.band.Some? then c.band.value else Observe)
                 && (d.grantedBand.Some? ==> d.grantedBand.value == d.requestedBand)
                 && d.floorApplied == (if ps.serviceTier in pol.floors && ps.failureClass in pol.floors[ps.serviceTier]
                                       then pol.floors[ps.serviceTier][ps.failureClass] else 0.0)
                 && (d.riskBand == if d.verdict.Escalate? then None
                                   else Some(if Contained(c) then ActReversible else ActDisruptive))
  {
    if Weighed(ps).Some? {
      RiskIsContained(Weighed(ps).value);
    }
  }

  method RecommendedOf(ps: ProposalSet) returns (r: Option<Candidate>)
    ensures r == FirstById(ps.proposals, ps.recommended)
  {
    var i := 0;
    while i < |ps.proposals|
      invariant 0 <= i <= |ps.proposals|
      invariant FirstById(ps.proposals, ps.recommended) == FirstById(ps.proposals[i..], ps.recommended)
    {
      if ps.proposals[i].id == ps.recommended {
        return Some(ps.proposals[i]);
      }
      assert ps.proposals[i..][1..] == ps.proposals[i + 1..];
      i := i + 1;
    }
    return None;
  }

  // ---- tightening a policy ------------------------------------------------

  /** `q` asks at least what `p` asks, everywhere. */
  ghost predicate Tightens(p: Policy, q: Policy) {
    && p.split == q.split
    && (forall tier, cls :: FloorOf(p, tier, cls) <= FloorOf(q, tier, cls))
    && (forall tier :: BandRank(BandFor(q.maxBand, tier)) <= BandRank(BandFor(p.maxBand, tier)))
    && (forall tier :: BandRank(BandFor(q.autoBand, tier)) <= BandRank(BandFor(p.autoBand, tier)))
    && (forall w :: w in p.windows ==> w in q.windows)
    && (p.requireReversal ==> q.requireReversal)
  }

  function Severity(v: Verdict): nat {
    match v
    case Approved => 0
    case Hold => 1
    case Escalate => 2
    case _ => 3
  }

  /** Governance is monotone: under a tighter policy every set earns a verdict at
      least as severe at every instant, so a non-approval never becomes an approval
      and a veto never becomes a mere hold. */
  lemma TighteningNeverLoosens(ps: ProposalSet, p: Policy, q: Policy, now: Time)
    requires Tightens(p, q)
    ensures Severity(VerdictOn(ps, p, now)) <= Severity(VerdictOn(ps, q, now))
  {
    if Weighed(ps).Some? {
      var c := Weighed(ps).value;
      assert FloorOf(p, ps.serviceTier, ps.failureClass) <= FloorOf(q, ps.serviceTier, ps.failureClass);
      if Frozen(p, now) {
        var i :| 0 <= i < |p.windows| && InWindow(p.windows[i], now);
        assert p.windows[i] in q.windows;
        var j :| 0 <= j < |q.windows| && q.windows[j] == p.windows[i];
        assert InWindow(q.windows[j], now);
      }
    }
  }

  // ---- split against collapsed gating -------------------------------------

  function Collapsing(p: Policy): Policy {
    p.(split := false)
  }

  function Splitting(p: Policy): Policy {
    p.(split := true)
  }

  /** An approval under the collapsed gate is one under the split gate iff the
      grounded score clears the floor too. */
  lemma CollapsedApprovalIsSplitIff(ps: ProposalSet, p: Policy, now: Time)
    requires VerdictOn(ps, Collapsing(p), now) == Approved
    ensures VerdictOn(ps, Splitting(p), now) == Approved
       <==> EffectiveComputed(Weighed(ps).value) >= FloorOf(p, ps.serviceTier, ps.failureClass)
  {
    SameRules(ps, p, now);
  }

  lemma SameRules(ps: ProposalSet, p: Policy, now: Time)
    ensures FloorOf(Collapsing(p), ps.serviceTier, ps.failureClass) == FloorOf(p, ps.serviceTier, ps.failureClass)
         == FloorOf(Splitting(p), ps.serviceTier, ps.failureClass)
    ensures Frozen(Collapsing(p), now) == Frozen(p, now) == Frozen(Splitting(p), now)
  {
  }

  /** Scoring keeps the emitted confidence at or below the computed one; under that
      every collapsed approval is a split approval. */
  lemma SplitExtendsCollapsed(ps: ProposalSet, p: Policy, now: Time)
    requires VerdictOn(ps, Collapsing(p), now) == Approved
    requires Weighed(ps).value.confidence <= Weighed(ps).value.computedConfidence
    ensures VerdictOn(ps, Splitting(p), now) == Approved
  {
    CollapsedApprovalIsSplitIff(ps, p, now);
    SameRules(ps, p, now);
  }

  /** What splitting the gate adds: only candidates whose undo thump completes by
      itself, with bounded blast, that are grounded but that the model doubts. */
  lemma ExtraSplitApprovals(ps: ProposalSet, p: Policy, now: Time)
    requires VerdictOn(ps, Splitting(p), now) == Approved && VerdictOn(ps, Collapsing(p), now) != Approved
    ensures var c := Weighed(ps).value; var floor := FloorOf(p, ps.serviceTier, ps.failureClass);
            Automatic(c) && c.blast != High && c.confidence < floor <= EffectiveComputed(c)
  {
    SameRules(ps, p, now);
  }

  // ---- the ceiling and unknown bands --------------------------------------

  /** A band nobody recognises is documented to fail the ceiling.  It does iff the
      tier's ceiling is itself a recognised band: a tier missing from the policy, or
      mapped to a misspelling, lets any band through. */
  lemma UnknownBandFailsIff(c: Candidate, pol: Policy, tier: string)
    requires c.band.Some? && c.band.value.OtherBand?
    ensures AboveCeiling(c, pol, tier) <==> tier in pol.maxBand && !pol.maxBand[tier].OtherBand?
  {
  }

  /** Likewise a tier without a recognised automatic ceiling never holds anything. */
  lemma NeverHeldIff(pol: Policy, tier: string)
    ensures (forall c: Candidate :: !TooRisky(c, pol, tier)) <==> BandRank(BandFor(pol.autoBand, tier)) >= 2
  {
    if BandRank(BandFor(pol.autoBand, tier)) < 2 {
      var c := Candidate("", "", 0.0, 0.0, false, None, Low, None, None, 0, []);
      assert TooRisky(c, pol, tier);
    }
  }
}
