/** The authority a forward call carries, traced back through thump, hiss and clank. */
module CrossPlane {
  import opened Boundary
  import opened Catalog
  import opened Thump
  import opened Engine
  import opened Actuate
  import Gate
  import Gov = Governance
  import H = Holds
  import U = Undo
  import T = Transport
  import A = Audit
  import Conf = Confidence
  import Ranking
  import R = Replay

  /** The contract is authored, under that name alone, for the set's class and tier,
      and its preconditions hold. */
  predicate Catalogued(ref: string, ps: ProposalSet, cfg: Config, sao: Sao) {
    var ct := FirstNamed(cfg.catalog, ref);
    ct.Some? && Admits(ct.value, ps.failureClass, ps.serviceTier, sao, cfg.checks)
  }

  /** The candidate stands on gathered, live evidence about the incident. */
  predicate Evidenced(c: Candidate, ps: ProposalSet) {
    && CitesGathered(c, ps.evidence)
    && exists i | 0 <= i < |ps.evidence| :: ps.evidence[i].key in c.citations && Gate.LiveAndCoherent(ps.evidence[i], ps.sao)
  }

  /** What clank vouches for, whoever granted it. */
  predicate Vouched(ref: string, ps: ProposalSet, cfg: Config, sao: Sao) {
    && ps.proposals != [] && ps.proposals[0].contractRef == ref && ps.proposals[0].rank == 1
    && Catalogued(ref, ps, cfg, sao)
    && Evidenced(ps.proposals[0], ps)
    && FromContract(ps.proposals[0], cfg.catalog)
  }

  /** What hiss's policy grants of its own accord: every floor authored for the set's
      tier and class met, every band in its place, no freeze. */
  predicate Granted(c: Candidate, ps: ProposalSet, pol: Gov.Policy, now: Time) {
    Gov.Acceptable(c, ps, pol, now) && Gov.Unattended(c, ps, pol)
  }

  lemma AllowedIsCatalogued(c: Candidate, ps: ProposalSet, cfg: Config, sao: Sao)
    requires UniqueNames(cfg.catalog) && Allowed(c, cfg, ps.failureClass, ps.serviceTier, sao)
    ensures Catalogued(c.contractRef, ps, cfg, sao)
  {
    var i :| 0 <= i < |cfg.catalog| && cfg.catalog[i].name == c.contractRef
          && Admits(cfg.catalog[i], ps.failureClass, ps.serviceTier, sao, cfg.checks);
    FirstNamedUnique(cfg.catalog, i);
  }

  lemma GroundedIsEvidenced(ps: ProposalSet)
    requires ps.proposals != [] && ps.recommended == ps.proposals[0].id && Gate.Grounded(ps)
    requires CitesGathered(ps.proposals[0], ps.evidence)
    ensures Evidenced(ps.proposals[0], ps)
  {
    var i :| 0 <= i < |Gate.Basis(ps)| && Gate.LiveAndCoherent(Gate.Basis(ps)[i], ps.sao);
    var ref := Gate.Basis(ps)[i];
    Gate.CitedMeaning(ps.evidence, ps.proposals[0].citations, ref);
    assert ref in ps.evidence;
    var j :| 0 <= j < |ps.evidence| && ps.evidence[j] == ref;
    assert ps.evidence[j].key in ps.proposals[0].citations;
  }

  lemma VettedIsVouched(ps: ProposalSet, cfg: Config, sao: Sao)
    requires UniqueNames(cfg.catalog) && Vetted(ps, cfg, sao) && ps.proposals != []
    ensures Vouched(ps.proposals[0].contractRef, ps, cfg, sao)
  {
    assert Sound(ps.proposals[0], 0, ps, cfg, sao);
    AllowedIsCatalogued(ps.proposals[0], ps, cfg, sao);
    GroundedIsEvidenced(ps);
  }

  /** Whatever the candidate IDs, an order rendered from a vetted set for its
      recommendation is for the candidate ranked first. */
  lemma OrderIsForTheFirst(g: Governed, cat: seq<ActionContract>, now: Time, cfg: Config, sao: Sao)
    requires Vetted(g.set_, cfg, sao) && g.decision.candidateRef == g.set_.recommended
    requires RenderOf(g, cat, now).Ready?
    ensures g.set_.proposals != [] && RenderOf(g, cat, now).order.contractRef == g.set_.proposals[0].contractRef
  {
  }

  /** A delivery that changes the call history rendered an order and made one
      forward call for it, with the switch armed. */
  lemma DeliveredCall(g: Governed, c: U.Config, s: U.State, failAt: nat, published: bool, now: Time)
    requires U.DeliverTo(c, s, g, failAt, published, now).calls != s.calls
    ensures s.armed && c.live && g.decision.verdict == Approved && RenderOf(g, c.catalog, now).Ready?
    ensures var calls := U.DeliverTo(c, s, g, failAt, published, now).calls;
            && |calls| == |s.calls| + 1 && calls[..|s.calls|] == s.calls && !calls[|s.calls|].reverse
            && calls[|s.calls|].ref == RenderOf(g, c.catalog, now).order.contractRef
  {
  }

  /** Any forward call thump makes for a published set, whether hiss or a human
      granted it: the switch was armed, and clank vouches for the action. */
  lemma ForwardCallIsVouched(cfg: Config, env: Env, g: Governed, c: U.Config, s: U.State, failAt: nat, published: bool, now: Time)
    requires UniqueNames(cfg.catalog) && c.catalog == cfg.catalog
    requires Publishable(g.set_, cfg, env) && g.decision.candidateRef == g.set_.recommended
    requires U.DeliverTo(c, s, g, failAt, published, now).calls != s.calls
    ensures s.armed && c.live && g.decision.verdict == Approved
    ensures var calls := U.DeliverTo(c, s, g, failAt, published, now).calls;
            && |calls| == |s.calls| + 1 && calls[..|s.calls|] == s.calls && !calls[|s.calls|].reverse
            && Vouched(calls[|s.calls|].ref, g.set_, cfg, env.intake.value)
  {
    DeliveredCall(g, c, s, failAt, published, now);
    OrderIsForTheFirst(g, c.catalog, now, cfg, env.intake.value);
    VettedIsVouched(g.set_, cfg, env.intake.value);
  }

  /** The policy part: an approval hiss gives by itself met every floor and band. */
  lemma OwnApprovalIsGranted(ps: ProposalSet, cfg: Config, sao: Sao, pol: Gov.Policy, decidedAt: Time)
    requires Vetted(ps, cfg, sao) && ps.proposals != [] && Gov.Evaluated(ps, pol, decidedAt).verdict == Approved
    ensures Granted(ps.proposals[0], ps, pol, decidedAt)
  {
    assert FirstById(ps.proposals, ps.recommended) == Some(ps.proposals[0]);
    Gov.ApprovedIff(ps, pol, decidedAt, ps.proposals[0]);
  }

  /** One backend never clears a floor above its own weight: with no change in the
      topology to blame, a published set whose first candidate rests on one is never
      approved by hiss alone, whichever gate is configured. */
  lemma OneBackendNeverApproved(cfg: Config, env: Env, ps: ProposalSet, pol: Gov.Policy, now: Time)
    requires Publishable(ps, cfg, env) && ps.proposals != []
    requires Conf.Sane(cfg.weights) && Conf.Unit(env.intake.value.signalConfidence) && Conf.UnitOption(cfg.prior)
    requires |Conf.Backends(ps.proposals[0].citations, ps.evidence, env.intake)| <= 1
    requires forall i | 0 <= i < |env.intake.value.changes| ::
               !Gate.InTopology(env.intake.value.changes[i].target, env.intake.value.topology)
    requires ps.serviceTier in pol.floors && ps.failureClass in pol.floors[ps.serviceTier]
    requires pol.floors[ps.serviceTier][ps.failureClass] > cfg.weights.groundingOne
    ensures Gov.Evaluated(ps, pol, now).verdict != Approved
  {
    var c, sao := ps.proposals[0], env.intake.value;
    assert Sound(c, 0, ps, cfg, sao);
    Conf.NoCauseIff(sao.changes, sao.topology, cfg.weights, cfg.prior, cfg.decay);
    Conf.OneBackendIsCapped(c.computedConfidence, sao.signalConfidence, |Conf.Backends(c.citations, ps.evidence, Some(sao))|,
                            cfg.prior, cfg.weights);
    assert Gov.OnTheTable(ps, c);
    Gov.ApprovedIff(ps, pol, now, c);
  }

  /** hiss and thump agree on the seam: an approval hiss gives by itself renders iff the
      policy is versioned, the clock was set and the contract is catalogued, and then
      into an order for the candidate hiss weighed, under that decision. */
  lemma ApprovalRendersIff(ps: ProposalSet, pol: Gov.Policy, decidedAt: Time, cat: seq<ActionContract>, now: Time, c: Candidate)
    requires Gov.OnTheTable(ps, c) && Gov.Evaluated(ps, pol, decidedAt).verdict == Approved
    ensures var d := Gov.Evaluated(ps, pol, decidedAt); var r := RenderOf(Governed(d, ps), cat, now);
            && (r.Ready? <==> pol.version != "" && decidedAt != ZERO_TIME && FirstNamed(cat, c.contractRef).Some?)
            && (r.Ready? ==>
                  && r.order.contractRef == c.contractRef && r.order.decisionRef == d.id && r.order.signalRef == ps.signalRef
                  && r.order.grantedBand == d.grantedBand && !r.order.reversal && r.order.plan.path == c.reversal
                  && var ct := FirstNamed(cat, c.contractRef).value;
                     && r.order.plan.restoreOnSuccess == ct.restoreOnSuccess && r.order.plan.holdOnMiss == ct.holdOnMiss
                     && r.order.plan.fallback == ct.fallback && r.order.target == ct.target && r.order.window == ct.window)
  {
    Gov.DecisionDescribesSet(ps, pol, decidedAt);
  }

  /** Every decision hiss makes or re-issues carries an ID, so whatever thump records for
      it stands up in the ledger. */
  lemma HissIdentifies(ps: ProposalSet, pol: Gov.Policy, decidedAt: Time, held: Decision, a: H.Approval)
    ensures Gov.Evaluated(ps, pol, decidedAt).id != "" && H.Restamped(held, a, pol, decidedAt).id != ""
  {
    H.ReissueIs(held, a, pol, decidedAt);
    assert |"dec:" + ps.signalRef| >= 4;
  }

  /** Cross-plane authority: for every model behaviour, catalog of unique names and
      policy, a forward call that clank, hiss and thump lead to is for the candidate
      ranked first, catalogued for the set's class and tier, resting on cited live
      in-topology evidence, inside every floor and band, with the switch armed. */
  lemma CrossPlaneAuthority(cfg: Config, env: Env, ps: ProposalSet, pol: Gov.Policy, decidedAt: Time,
                            c: U.Config, s: U.State, failAt: nat, published: bool, now: Time)
    requires UniqueNames(cfg.catalog) && c.catalog == cfg.catalog && Publishable(ps, cfg, env)
    requires U.DeliverTo(c, s, Governed(Gov.Evaluated(ps, pol, decidedAt), ps), failAt, published, now).calls != s.calls
    ensures s.armed && c.live
    ensures var calls := U.DeliverTo(c, s, Governed(Gov.Evaluated(ps, pol, decidedAt), ps), failAt, published, now).calls;
            && |calls| == |s.calls| + 1
            && Vouched(calls[|s.calls|].ref, ps, cfg, env.intake.value)
            && Granted(ps.proposals[0], ps, pol, decidedAt)
  {
    var g := Governed(Gov.Evaluated(ps, pol, decidedAt), ps);
    assert g.decision.candidateRef == ps.recommended;
    ForwardCallIsVouched(cfg, env, g, c, s, failAt, published, now);
    OwnApprovalIsGranted(ps, cfg, env.intake.value, pol, decidedAt);
  }

  /** For a published set scoring has kept the emitted confidence at or below the
      computed one, so splitting the gate only ever adds approvals. */
  lemma SplitOnlyAdds(cfg: Config, env: Env, ps: ProposalSet, pol: Gov.Policy, now: Time)
    requires Publishable(ps, cfg, env) && Gov.VerdictOn(ps, Gov.Collapsing(pol), now) == Approved
    ensures Gov.VerdictOn(ps, Gov.Splitting(pol), now) == Approved
  {
    var i :| 0 <= i < |ps.proposals| && ps.proposals[i] == Gov.Weighed(ps).value;
    assert Sound(ps.proposals[i], i, ps, cfg, env.intake.value);
    Gov.SplitExtendsCollapsed(ps, pol, now);
  }

  /** A human's approval sets the policy's vetoes aside, and nothing else: the
      re-issued decision still only reaches what clank vouched for. */
  lemma HumanApprovalIsVouched(cfg: Config, env: Env, held: Governed, out: Governed, c: U.Config, s: U.State, failAt: nat, published: bool, now: Time)
    requires UniqueNames(cfg.catalog) && c.catalog == cfg.catalog && Publishable(held.set_, cfg, env)
    requires held.decision.candidateRef == held.set_.recommended && H.Answers(out, held)
    requires U.DeliverTo(c, s, out, failAt, published, now).calls != s.calls
    ensures s.armed && c.live
    ensures var calls := U.DeliverTo(c, s, out, failAt, published, now).calls;
            |calls| == |s.calls| + 1 && Vouched(calls[|s.calls|].ref, held.set_, cfg, env.intake.value)
  {
    ForwardCallIsVouched(cfg, env, out, c, s, failAt, published, now);
  }

  // ---- down to the cluster ------------------------------------------------

  /** The calls made are the contract's authored forward steps, in their order, up to
      the first the cluster refuses. */
  predicate Authored(done: seq<Operation>, ct: ActionContract, forgeWired: bool, failAt: nat) {
    && |done| == (if failAt < |ct.forward| then failAt else |ct.forward|)
    && forall i | 0 <= i < |done| :: Some(done[i]) == MechanismFor(ct.forward[i], forgeWired)
  }

  /** What a forward call does to the cluster is what the catalog's own entry of that
      name authors: rendering looks a name up first to last, binding last to first. */
  lemma ForwardCallIsAuthored(cat: seq<ActionContract>, forgeWired: bool, bindings: map<string, Binding>, ref: string, failAt: nat)
    requires UniqueNames(cat) && BoundAll(cat, forgeWired) == Some(bindings) && FirstNamed(cat, ref).Some?
    ensures Authored(RunOf(bindings, ref, false, failAt).done, FirstNamed(cat, ref).value, forgeWired, failAt)
  {
    var i := NamedAt(cat, ref);
    BoundToOwnContract(cat, forgeWired, i);
    BoundIsFaithful(cat[i].forward, forgeWired);
  }

  lemma {:induction false} NamedAt(cat: seq<ActionContract>, ref: string) returns (i: nat)
    requires FirstNamed(cat, ref).Some?
    ensures i < |cat| && cat[i] == FirstNamed(cat, ref).value && cat[i].name == ref
  {
    i :| i < |cat| && cat[i] == FirstNamed(cat, ref).value;
  }

  // ---- the theorem is about something -------------------------------------

  const OPEN_POLICY: Gov.Policy := Gov.Policy("v1", false, map[], map[], map[], [], false)

  /** A reversible contract whose class, tier and preconditions fit, and one live
      coherent reference that names itself. */
  predicate Fits(ct: ActionContract, ref: EvidenceRef, sao: Sao, failureClass: string, tier: string, checks: Checks) {
    && ct.undo != "" && Admits(ct, failureClass, tier, sao, checks)
    && ref.key != "" && Gate.LiveAndCoherent(ref, Some(sao))
  }

  /** The simplest model that acts: one tool call, then a proposal citing its answer. */
  function ActingTurn(ct: ActionContract, tool: string, ref: EvidenceRef, failureClass: string): Turn {
    Turn([UseTool(tool, Gathered(ref)), Propose(Some((failureClass, [ProposeCandidate("c", ct.name, None, [ref.key])])))], true)
  }

  function ActingLoop(ct: ActionContract, tool: string, ref: EvidenceRef, failureClass: string): Loop {
    Loop(true, false, failureClass, "", FromModels([ProposeCandidate("c", ct.name, None, [ref.key])]), [ref])
  }

  lemma ActingStops(ct: ActionContract, tool: string, ref: EvidenceRef, failureClass: string)
    ensures var calls := ActingTurn(ct, tool, ref, failureClass).calls;
            StopAt(calls) == 1 && Refs(calls[..1]) == [(tool, ref)]
  {
    var calls := ActingTurn(ct, tool, ref, failureClass).calls;
    assert !Ends(calls[0]) && Ends(calls[1]);
    assert calls[..1] == [calls[0]] && [calls[0]][..0] == [];
  }

  lemma ActingGathers(tool: string, ref: EvidenceRef)
    requires ref.key != ""
    ensures WithEvidence([], [(tool, ref)]) == [ref]
  {
    EvidenceSnoc([], [], tool, ref);
    assert [] + [(tool, ref)] == [(tool, ref)];
  }

  lemma ActingTurnLoops(ct: ActionContract, tool: string, ref: EvidenceRef, failureClass: string, model: nat -> Turn, maxSteps: nat)
    requires model(0) == ActingTurn(ct, tool, ref, failureClass) && ref.key != "" && maxSteps > 0
    ensures LoopFrom(model, 0, maxSteps, START) == Some(ActingLoop(ct, tool, ref, failureClass))
  {
    ActingStops(ct, tool, ref, failureClass);
    ActingGathers(tool, ref);
    var d := DispatchOf(ActingTurn(ct, tool, ref, failureClass).calls, START);
    assert d == Dispatched(true, ActingLoop(ct, tool, ref, failureClass), true);
    assert TurnOf(model(0), START) == Some((d.l, true));
  }

  /** The one candidate, as scoring and ranking leave it. */
  lemma LoneShape(cfg: Config, sig: Signal, sao: Sao, base: ProposalSet)
    requires |base.proposals| == 1
    ensures var scores := Conf.Scores(sao.changes, sao.topology, cfg.weights, cfg.prior, cfg.decay);
            var c := Scored(base.proposals[0], cfg.catalog, base.evidence, scores, sao, cfg).(rank := 1);
            ShapeOf(cfg, sig, sao, base) == base.(causalScores := scores, proposals := [c], recommended := c.id)
  {
    var scores := Conf.Scores(sao.changes, sao.topology, cfg.weights, cfg.prior, cfg.decay);
    var all := ScoredAll(cfg, sao, base, scores);
    assert all == [Scored(base.proposals[0], cfg.catalog, base.evidence, scores, sao, cfg)];
    Ranking.LoneRanked(all[0], sig.accelerating);
  }

  /** Scores are never negative, so a policy without floors turns nothing down. */
  lemma ScoredIsConfident(c: Candidate, cfg: Config, evidence: seq<EvidenceRef>, sao: Sao)
    requires Conf.Sane(cfg.weights) && Conf.Unit(sao.signalConfidence) && Conf.UnitOption(cfg.prior) && c.confidence == 1.0
    ensures var scores := Conf.Scores(sao.changes, sao.topology, cfg.weights, cfg.prior, cfg.decay);
            Scored(c, cfg.catalog, evidence, scores, sao, cfg).confidence >= 0.0
  {
    var scores := Conf.Scores(sao.changes, sao.topology, cfg.weights, cfg.prior, cfg.decay);
    var e := Enriched(c, cfg.catalog);
    Conf.StrongestInUnit(sao.changes, sao.topology, cfg.weights, cfg.prior, cfg.decay);
    Conf.ComputedInUnit(sao.signalConfidence, |Conf.Backends(e.citations, evidence, Some(sao))|, cfg.prior,
                        Conf.Strongest(scores), cfg.weights);
  }

  /** What such a run is given: nothing open, intake, and every write succeeding. */
  predicate Smooth(cfg: Config, env: Env, sao: Sao) {
    && env.openBefore == Some(0) && env.openAfter == Some(0) && env.intake == Some(sao)
    && env.recordOK && env.journalOK && env.publishOK && cfg.delivers && cfg.maxSteps > 0
    && Conf.Sane(cfg.weights) && Conf.Unit(sao.signalConfidence) && Conf.UnitOption(cfg.prior)
  }

  lemma ActingIsAllowed(ct: ActionContract, tool: string, ref: EvidenceRef, failureClass: string, tier: string, cfg: Config, sao: Sao)
    requires Fits(ct, ref, sao, failureClass, tier, cfg.checks) && cfg.catalog == [ct]
    ensures var l := ActingLoop(ct, tool, ref, failureClass);
            FirstRefusal(l.cands, cfg, failureClass, tier, sao) == None && AllCite(l.cands, l.evidence)
  {
    var l := ActingLoop(ct, tool, ref, failureClass);
    assert cfg.catalog[0].name == l.cands[0].contractRef;
    assert Allowed(l.cands[0], cfg, failureClass, tier, sao);
    assert l.cands[1..] == [];
    assert l.evidence[0].key == l.cands[0].citations[0];
  }

  lemma ActingPasses(shaped: ProposalSet, c: Candidate, ref: EvidenceRef, sao: Sao)
    requires shaped.proposals == [c] && shaped.recommended == c.id && shaped.evidence == [ref] && c.citations == [ref.key]
    requires shaped.sao == Some(sao) && Gate.LiveAndCoherent(ref, Some(sao))
    ensures Gate.GateOf(shaped, 0).passed
  {
    assert ref in shaped.evidence && ref.key in c.citations;
    Gate.PassedMeans(shaped, 0);
  }

  /** What the engine publishes for it. */
  lemma ActingPublishes(ct: ActionContract, tool: string, ref: EvidenceRef, sao: Sao, failureClass: string,
                        cfg: Config, sig: Signal, env: Env)
    requires Fits(ct, ref, sao, failureClass, sig.serviceTier, cfg.checks) && cfg.catalog == [ct] && Smooth(cfg, env, sao)
    requires env.model(0) == ActingTurn(ct, tool, ref, failureClass)
    ensures var exit := ExitOf(cfg, sig, env);
            && exit.Answered? && PublishedBy(cfg, exit) == [exit.ps]
            && |exit.ps.proposals| == 1 && exit.ps.recommended == exit.ps.proposals[0].id
            && exit.ps.proposals[0].contractRef == ct.name && exit.ps.proposals[0].confidence >= 0.0
  {
    var l := ActingLoop(ct, tool, ref, failureClass);
    ActingTurnLoops(ct, tool, ref, failureClass, env.model, cfg.maxSteps);
    ActingIsAllowed(ct, tool, ref, failureClass, sig.serviceTier, cfg, sao);
    var base := Base(sig, env, sao, l);
    LoneShape(cfg, sig, sao, base);
    ScoredIsConfident(l.cands[0], cfg, l.evidence, sao);
    var shaped := ShapeOf(cfg, sig, sao, base);
    ActingPasses(shaped, shaped.proposals[0], ref, sao);
    assert ConcludeOf(cfg, sig, env, sao, l) == Some(Gated(shaped, 0));
  }

  lemma LoneIsApproved(ps: ProposalSet, now: Time)
    requires R.PassedGate(ps) && |ps.proposals| == 1 && ps.recommended == ps.proposals[0].id
    requires ps.proposals[0].confidence >= 0.0
    ensures Gov.Evaluated(ps, OPEN_POLICY, now).verdict == Approved
  {
    var c := ps.proposals[0];
    assert Gov.Weighed(ps) == Some(c);
    assert !Gov.Frozen(OPEN_POLICY, now);
    assert Gov.FloorOf(OPEN_POLICY, ps.serviceTier, ps.failureClass) == 0.0;
  }

  /** The theorem's hypotheses are met by sets the engine does publish: any reversible
      contract whose class, tier and preconditions fit, and a model that asks one tool
      for a live coherent reference and cites it, lead to a forward call. */
  lemma AuthorityIsReachable(ct: ActionContract, tool: string, ref: EvidenceRef, sao: Sao, failureClass: string,
                             cfg: Config, sig: Signal, env: Env,
                             c: U.Config, s: U.State, failAt: nat, published: bool, decidedAt: Time, now: Time)
    requires Fits(ct, ref, sao, failureClass, sig.serviceTier, cfg.checks) && cfg.catalog == [ct] && Smooth(cfg, env, sao)
    requires env.model(0) == ActingTurn(ct, tool, ref, failureClass)
    requires c.live && c.catalog == cfg.catalog && s.armed && decidedAt != ZERO_TIME
    ensures var exit := ExitOf(cfg, sig, env);
            && UniqueNames(cfg.catalog) && exit.Answered? && PublishedBy(cfg, exit) == [exit.ps]
            && var g := Governed(Gov.Evaluated(exit.ps, OPEN_POLICY, decidedAt), exit.ps);
               U.DeliverTo(c, s, g, failAt, published, now).calls != s.calls
  {
    ActingPublishes(ct, tool, ref, sao, failureClass, cfg, sig, env);
    var ps := ExitOf(cfg, sig, env).ps;
    LoneIsApproved(ps, decidedAt);
    Gov.EvaluatedAuditableIff(ps, OPEN_POLICY, decidedAt);
    var g := Governed(Gov.Evaluated(ps, OPEN_POLICY, decidedAt), ps);
    assert FirstById(ps.proposals, g.decision.candidateRef) == Some(ps.proposals[0]);
    assert FirstNamed(c.catalog, ct.name) == Some(ct);
    assert RenderOf(g, c.catalog, now).Ready?;
    RenderedActs(c, s, g, failAt, published, now);
  }

  lemma RenderedActs(c: U.Config, s: U.State, g: Governed, failAt: nat, published: bool, now: Time)
    requires c.live && s.armed && g.decision.verdict == Approved && RenderOf(g, c.catalog, now).Ready?
    ensures U.DeliverTo(c, s, g, failAt, published, now).calls != s.calls
  {
    var calls := U.DeliverTo(c, s, g, failAt, published, now).calls;
    assert |calls| == |s.calls| + 1;
  }

  /** Exactly when a published set leads to a forward call with no human in between: the
      switch is armed, the executor live, the policy versioned, the clock set, and the
      policy grants the candidate ranked first. */
  predicate ActsOn(ps: ProposalSet, pol: Gov.Policy, decidedAt: Time, live: bool, armed: bool) {
    && ps.proposals != [] && live && armed && pol.version != "" && decidedAt != ZERO_TIME
    && Granted(ps.proposals[0], ps, pol, decidedAt)
  }

  lemma ActsOnIff(cfg: Config, env: Env, ps: ProposalSet, pol: Gov.Policy, decidedAt: Time, c: U.Config, s: U.State, now: Time)
    requires UniqueNames(cfg.catalog) && c.catalog == cfg.catalog && Publishable(ps, cfg, env)
    ensures U.Acts(c, s, Governed(Gov.Evaluated(ps, pol, decidedAt), ps), now) <==> ActsOn(ps, pol, decidedAt, c.live, s.armed)
  {
    if ps.proposals == [] {
      assert Gov.Weighed(ps).None?;
    } else {
      assert Gov.OnTheTable(ps, ps.proposals[0]);
      Gov.ApprovedIff(ps, pol, decidedAt, ps.proposals[0]);
      VettedIsVouched(ps, cfg, env.intake.value);
      if Gov.Evaluated(ps, pol, decidedAt).verdict == Approved {
        ApprovalRendersIff(ps, pol, decidedAt, c.catalog, now, ps.proposals[0]);
      }
    }
  }

  /** One incident through all three beats, as the code runs it: what it does to thump
      is one delivery of hiss's decision on the set clank published, if it did. */
  method Incident(cfg: Config, sig: Signal, env: Env, pol: Gov.Policy, decidedAt: Time,
                  tr: T.Transport, forgeWired: bool, failAt: nat, orderOK: bool, outcomeOK: bool, actedAt: Time)
    returns (exit: Exit, effects: seq<A.Effect>)
    requires UniqueNames(cfg.catalog) && tr.cfg.catalog == cfg.catalog
    requires BoundAll(cfg.catalog, forgeWired) == Some(tr.cfg.bindings)
    modifies tr, tr.kube
    ensures exit == ExitOf(cfg, sig, env) && A.Publishes(effects) == PublishedBy(cfg, exit)
    ensures A.Publishes(effects) == [] ==> tr.State() == old(tr.State())
    ensures |A.Publishes(effects)| == 1 ==>
              var ps := A.Publishes(effects)[0];
              tr.State() == Delivered(tr.cfg, old(tr.State()), ps, pol, decidedAt, failAt, orderOK, outcomeOK, actedAt)
    ensures tr.calls != old(tr.calls) <==>
              |A.Publishes(effects)| == 1
              && ActsOn(A.Publishes(effects)[0], pol, decidedAt, tr.cfg.live, old(tr.killSwitch.armed))
    ensures tr.calls == old(tr.calls) ==> tr.kube.calls == old(tr.kube.calls)
    ensures tr.calls != old(tr.calls) ==>
              && old(tr.killSwitch.armed) && |A.Publishes(effects)| == 1 && env.intake.Some?
              && |tr.calls| == |old(tr.calls)| + 1
              && var ref := tr.calls[|old(tr.calls)|].ref;
                 && Vouched(ref, A.Publishes(effects)[0], cfg, env.intake.value)
                 && Granted(A.Publishes(effects)[0].proposals[0], A.Publishes(effects)[0], pol, decidedAt)
                 && old(tr.kube.calls) <= tr.kube.calls
                 && Authored(tr.kube.calls[|old(tr.kube.calls)|..], FirstNamed(cfg.catalog, ref).value, forgeWired, failAt)
  {
    ghost var raw;
    exit, effects, raw := RunPropose(cfg, sig, env);
    var published := A.Publishes(effects);
    if published == [] {
      return;
    }
    var ps := published[0];
    var d := Gov.Evaluate(ps, pol, decidedAt);
    Act(cfg, env, ps, pol, decidedAt, d, tr, forgeWired, failAt, orderOK, outcomeOK, actedAt);
  }

  /** Thump after hiss's own decision on a set. */
  function Delivered(c: U.Config, s: U.State, ps: ProposalSet, pol: Gov.Policy, decidedAt: Time,
                     failAt: nat, orderOK: bool, outcomeOK: bool, now: Time): U.State {
    var d := Gov.Evaluated(ps, pol, decidedAt);
    U.DeliverTo(c, s, Governed(d, ps), failAt, outcomeOK && (d.verdict == Approved ==> orderOK), now)
  }

  /** Its last leg. */
  method Act(cfg: Config, ghost env: Env, ps: ProposalSet, ghost pol: Gov.Policy, ghost decidedAt: Time, d: Decision,
             tr: T.Transport, ghost forgeWired: bool, failAt: nat, orderOK: bool, outcomeOK: bool, actedAt: Time)
    requires UniqueNames(cfg.catalog) && tr.cfg.catalog == cfg.catalog
    requires BoundAll(cfg.catalog, forgeWired) == Some(tr.cfg.bindings)
    requires Publishable(ps, cfg, env) && d == Gov.Evaluated(ps, pol, decidedAt)
    modifies tr, tr.kube
    ensures tr.State() == Delivered(tr.cfg, old(tr.State()), ps, pol, decidedAt, failAt, orderOK, outcomeOK, actedAt)
    ensures tr.calls != old(tr.calls) <==> ActsOn(ps, pol, decidedAt, tr.cfg.live, old(tr.killSwitch.armed))
    ensures tr.calls == old(tr.calls) ==> tr.kube.calls == old(tr.kube.calls)
    ensures tr.calls != old(tr.calls) ==>
              && old(tr.killSwitch.armed) && |tr.calls| == |old(tr.calls)| + 1
              && var ref := tr.calls[|old(tr.calls)|].ref;
                 && Vouched(ref, ps, cfg, env.intake.value)
                 && Granted(ps.proposals[0], ps, pol, decidedAt)
                 && old(tr.kube.calls) <= tr.kube.calls
                 && Authored(tr.kube.calls[|old(tr.kube.calls)|..], FirstNamed(cfg.catalog, ref).value, forgeWired, failAt)
  {
    ghost var before, cluster := tr.State(), tr.kube.calls;
    ghost var g := Governed(d, ps);
    var err := tr.Handle(Governed(d, ps), failAt, orderOK, outcomeOK, actedAt);
    ghost var went := outcomeOK && (d.verdict == Approved ==> orderOK);
    ActsOnIff(cfg, env, ps, pol, decidedAt, tr.cfg, before, actedAt);
    U.DeliverCalls(tr.cfg, before, g, failAt, went, actedAt);
    if ActsOn(ps, pol, decidedAt, tr.cfg.live, before.armed) {
      ReachesCluster(cfg, env, ps, pol, decidedAt, tr.cfg, before, forgeWired, failAt, went, actedAt);
      AppendedPart(cluster, RunOf(tr.cfg.bindings, tr.calls[|before.calls|].ref, false, failAt).done);
    } else {
      assert cluster + [] == cluster;
    }
  }

  /** A set that is acted on: one call, vouched for and granted, whose effect on the
      cluster is what the contract authors. */
  lemma ReachesCluster(cfg: Config, env: Env, ps: ProposalSet, pol: Gov.Policy, decidedAt: Time,
                       c: U.Config, s: U.State, forgeWired: bool, failAt: nat, published: bool, now: Time)
    requires UniqueNames(cfg.catalog) && c.catalog == cfg.catalog && Publishable(ps, cfg, env)
    requires BoundAll(cfg.catalog, forgeWired) == Some(c.bindings) && ActsOn(ps, pol, decidedAt, c.live, s.armed)
    ensures var g := Governed(Gov.Evaluated(ps, pol, decidedAt), ps);
            var calls := U.DeliverTo(c, s, g, failAt, published, now).calls;
            && |calls| == |s.calls| + 1
            && var ref := calls[|s.calls|].ref;
               && ref == T.RenderedRef(g, c.catalog, now) && Vouched(ref, ps, cfg, env.intake.value)
               && Authored(RunOf(c.bindings, ref, false, failAt).done, FirstNamed(cfg.catalog, ref).value, forgeWired, failAt)
  {
    var g := Governed(Gov.Evaluated(ps, pol, decidedAt), ps);
    ActsOnIff(cfg, env, ps, pol, decidedAt, c, s, now);
    U.DeliverCalls(c, s, g, failAt, published, now);
    CrossPlaneAuthority(cfg, env, ps, pol, decidedAt, c, s, failAt, published, now);
    var calls := U.DeliverTo(c, s, g, failAt, published, now).calls;
    ForwardCallIsAuthored(cfg.catalog, forgeWired, c.bindings, calls[|s.calls|].ref, failAt);
  }

  lemma AppendedPart<T>(a: seq<T>, b: seq<T>)
    ensures a <= a + b && (a + b)[|a|..] == b
  {
  }
}
