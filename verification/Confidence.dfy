/** Causal and confidence scoring (internal/clank/causal.go,
    internal/clank/confidence.go), over the reals. */
module Confidence {
  import opened Boundary
  import opened Gate
  import Seqs

  datatype Weights = Weights(
    temporal: real, topological: real, historical: real, baseline: real, aloneCap: real, penalty: real,
    causal: real, groundingNone: real, groundingOne: real, groundingMany: real,
    recencyHalfLife: int, historicalHalfLife: int)

  /** What the shipped weights satisfy. */
  predicate Sane(w: Weights) {
    && 0.0 <= w.groundingNone <= w.groundingOne <= w.groundingMany <= 1.0
    && 0.0 <= w.causal && 0.0 <= w.aloneCap <= 1.0 && 0.0 <= w.penalty
  }

  function Min(x: real, y: real): real {
    if x <= y then x else y
  }

  function Max(x: real, y: real): real {
    if x >= y then x else y
  }

  predicate Unit(x: real) {
    0.0 <= x <= 1.0
  }

  function ClampUnit(x: real): (r: real)
    ensures Unit(r) && (Unit(x) ==> r == x)
  {
    Max(0.0, Min(1.0, x))
  }

  // ---- causal scores ------------------------------------------------------

  /** Exponential decay by half-lives; only its values matter here. */
  type Decay = (int, int) -> real

  function FirstNode(nodes: seq<NodeState>, name: string): (r: Option<NodeState>)
    ensures r.Some? <==> NamesNode(nodes, name)
    ensures r.Some? ==> r.value in nodes && r.value.name == name
  {
    if nodes == [] then None
    else if nodes[0].name == name then Some(nodes[0])
    else
      var r := FirstNode(nodes[1..], name);
      assert NamesNode(nodes, name) <==> NamesNode(nodes[1..], name) by {
        if NamesNode(nodes, name) {
          var i :| 0 <= i < |nodes| && nodes[i].name == name;
          assert nodes[1..][i - 1].name == name;
        }
        if NamesNode(nodes[1..], name) {
          var i :| 0 <= i < |nodes[1..]| && nodes[1..][i].name == name;
          assert nodes[i + 1].name == name;
        }
      }
      r
  }

  function NodeOf(topo: Topology, name: string): (r: Option<NodeState>)
    ensures r.Some? <==> InTopology(name, topo)
  {
    var up := FirstNode(topo.upstream, name);
    if up.Some? then up else FirstNode(topo.downstream, name)
  }

  predicate Observed(topo: Topology, signal: string) {
    || (exists i | 0 <= i < |topo.upstream| :: topo.upstream[i].state == signal)
    || (exists i | 0 <= i < |topo.downstream| :: topo.downstream[i].state == signal)
  }

  /** One penalty for every predicted signal nobody observes. */
  function Penalized(raw: real, topo: Topology, signals: seq<string>, penalty: real): real {
    if signals == [] then raw
    else Penalized(raw, topo, signals[..|signals| - 1], penalty) - if Observed(topo, signals[|signals| - 1]) then 0.0 else penalty
  }

  predicate Degraded(node: Option<NodeState>) {
    node.Some? && node.value.state == "degraded"
  }

  /** Before penalties: the weighted sum, capped for an event nothing live backs. */
  function RawLikelihood(e: ChangeEvent, topo: Topology, w: Weights, prior: Option<real>, decay: Decay): real {
    var node := NodeOf(topo, e.target);
    var sum := EventSum(e, if Degraded(node) then node.value.trafficShare else 0.0, w, prior, decay);
    if Degraded(node) then sum else Min(sum, w.aloneCap)
  }

  function EventSum(e: ChangeEvent, share: real, w: Weights, prior: Option<real>, decay: Decay): real {
    var base := if prior.Some? then prior.value else w.baseline;
    var recent := if w.historicalHalfLife <= 0 then 1.0 else decay(e.staleness, w.historicalHalfLife);
    Times(w.temporal, decay(e.age, w.recencyHalfLife)) + Times(w.topological, share) + Times(w.historical, Times(base, recent))
  }

  function EventScore(e: ChangeEvent, topo: Topology, w: Weights, prior: Option<real>, decay: Decay): CausalScore {
    var node := NodeOf(topo, e.target);
    CausalScore(e.id, node.Some?, Degraded(node),
                ClampUnit(Penalized(RawLikelihood(e, topo, w, prior, decay), topo, e.predictedSignals, w.penalty)))
  }

  method StateObserved(topo: Topology, signal: string) returns (r: bool)
    ensures r == Observed(topo, signal)
  {
    var i := 0;
    while i < |topo.upstream|
      invariant 0 <= i <= |topo.upstream|
      invariant forall j | 0 <= j < i :: topo.upstream[j].state != signal
    {
      if topo.upstream[i].state == signal {
        return true;
      }
      i := i + 1;
    }
    i := 0;
    while i < |topo.downstream|
      invariant 0 <= i <= |topo.downstream|
      invariant forall j | 0 <= j < i :: topo.downstream[j].state != signal
    {
      if topo.downstream[i].state == signal {
        return true;
      }
      i := i + 1;
    }
    return false;
  }

  method ApplyPenalties(raw: real, topo: Topology, signals: seq<string>, penalty: real) returns (likelihood: real)
    ensures likelihood == Penalized(raw, topo, signals, penalty)
  {
    likelihood := raw;
    var i := 0;
    while i < |signals|
      invariant 0 <= i <= |signals|
      invariant likelihood == Penalized(raw, topo, signals[..i], penalty)
    {
      assert signals[..i + 1][..|signals[..i + 1]| - 1] == signals[..i];
      var seen := StateObserved(topo, signals[i]);
      if !seen {
        likelihood := likelihood - penalty;
      }
      i := i + 1;
    }
    assert signals[..i] == signals;
  }

  method ScoreEvent(e: ChangeEvent, topo: Topology, w: Weights, prior: Option<real>, decay: Decay) returns (cs: CausalScore)
    ensures cs == EventScore(e, topo, w, prior, decay)
  {
    var node := NodeOf(topo, e.target);
    var likelihood := ApplyPenalties(RawLikelihood(e, topo, w, prior, decay), topo, e.predictedSignals, w.penalty);
    return CausalScore(e.id, node.Some?, Degraded(node), ClampUnit(likelihood));
  }

  lemma {:induction false} PenaltiesOnlyLower(raw: real, topo: Topology, signals: seq<string>, penalty: real)
    requires penalty >= 0.0
    ensures Penalized(raw, topo, signals, penalty) <= raw
  {
    if signals == [] {
    } else {
      PenaltiesOnlyLower(raw, topo, signals[..|signals| - 1], penalty);
    }
  }

  /** An event no degraded node backs never scores above its cap, whatever the case
      base, the clock or the weights of the sum say; and every score is in range. */
  lemma UncorroboratedIsCapped(e: ChangeEvent, topo: Topology, w: Weights, prior: Option<real>, decay: Decay)
    requires Sane(w)
    ensures var cs := EventScore(e, topo, w, prior, decay);
            && Unit(cs.likelihood)
            && (cs.liveCorroborated ==> cs.inTopology)
            && (!cs.liveCorroborated ==> cs.likelihood <= w.aloneCap)
  {
    PenaltiesOnlyLower(RawLikelihood(e, topo, w, prior, decay), topo, e.predictedSignals, w.penalty);
  }

  function Scores(events: seq<ChangeEvent>, topo: Topology, w: Weights, prior: Option<real>, decay: Decay): seq<CausalScore> {
    if events == [] then []
    else Scores(events[..|events| - 1], topo, w, prior, decay) + [EventScore(events[|events| - 1], topo, w, prior, decay)]
  }

  /** The strongest in-topology likelihood, None when no change is in topology. */
  function Strongest(scores: seq<CausalScore>): Option<real> {
    if scores == [] then None
    else
      var init, last := Strongest(scores[..|scores| - 1]), scores[|scores| - 1];
      if !last.inTopology then init
      else Some(Max(if init.Some? then init.value else 0.0, last.likelihood))
  }

  lemma {:induction false} StrongestInUnit(events: seq<ChangeEvent>, topo: Topology, w: Weights, prior: Option<real>, decay: Decay)
    requires Sane(w)
    ensures var s := Strongest(Scores(events, topo, w, prior, decay)); s.Some? ==> Unit(s.value)
  {
    if events == [] {
    } else {
      StrongestInUnit(events[..|events| - 1], topo, w, prior, decay);
      UncorroboratedIsCapped(events[|events| - 1], topo, w, prior, decay);
      var init := Scores(events[..|events| - 1], topo, w, prior, decay);
      var all := Scores(events, topo, w, prior, decay);
      assert all[..|all| - 1] == init;
    }
  }

  // ---- grounding ----------------------------------------------------------

  predicate Counts(ref: EvidenceRef, citations: seq<string>, sao: Option<Sao>) {
    ref.key in citations && LiveAndCoherent(ref, sao)
  }

  /** The distinct tools behind a candidate's live, coherent citations. */
  function Backends(citations: seq<string>, evidence: seq<EvidenceRef>, sao: Option<Sao>): set<string> {
    set i | 0 <= i < |evidence| && Counts(evidence[i], citations, sao) :: evidence[i].tool
  }

  method CoherentLiveCitations(citations: seq<string>, evidence: seq<EvidenceRef>, sao: Option<Sao>) returns (n: nat)
    ensures n == |Backends(citations, evidence, sao)|
  {
    var backends: set<string> := {};
    var i := 0;
    while i < |evidence|
      invariant 0 <= i <= |evidence|
      invariant backends == set j | 0 <= j < i && Counts(evidence[j], citations, sao) :: evidence[j].tool
    {
      if Counts(evidence[i], citations, sao) {
        backends := backends + {evidence[i].tool};
      }
      i := i + 1;
    }
    return |backends|;
  }

  lemma SubsetSize<T>(a: set<T>, b: set<T>)
    requires a <= b
    ensures |a| <= |b|
  {
    assert b == a + (b - a);
  }

  lemma MoreEvidenceMoreBackends(citations: seq<string>, ev: seq<EvidenceRef>, more: seq<EvidenceRef>, sao: Option<Sao>)
    requires forall i | 0 <= i < |ev| :: ev[i] in more
    ensures |Backends(citations, ev, sao)| <= |Backends(citations, more, sao)|
  {
    forall t | t in Backends(citations, ev, sao) ensures t in Backends(citations, more, sao) {
      var i :| 0 <= i < |ev| && Counts(ev[i], citations, sao) && ev[i].tool == t;
      assert ev[i] in more;
      var j :| 0 <= j < |more| && more[j] == ev[i];
    }
    SubsetSize(Backends(citations, ev, sao), Backends(citations, more, sao));
  }

  lemma RepeatedBackendAddsNothing(citations: seq<string>, ev: seq<EvidenceRef>, ref: EvidenceRef, sao: Option<Sao>)
    requires Counts(ref, citations, sao) ==> ref.tool in Backends(citations, ev, sao)
    ensures Backends(citations, ev + [ref], sao) == Backends(citations, ev, sao)
  {
    var more := ev + [ref];
    forall t | t in Backends(citations, more, sao) ensures t in Backends(citations, ev, sao) {
      var i :| 0 <= i < |more| && Counts(more[i], citations, sao) && more[i].tool == t;
      if i < |ev| {
        assert more[i] == ev[i];
      }
    }
    forall t | t in Backends(citations, ev, sao) ensures t in Backends(citations, more, sao) {
      var i :| 0 <= i < |ev| && Counts(ev[i], citations, sao) && ev[i].tool == t;
      assert more[i] == ev[i];
    }
  }

  // ---- confidence ---------------------------------------------------------

  function GroundingWeight(n: nat, w: Weights): real {
    if n >= 2 then w.groundingMany else if n == 1 then w.groundingOne else w.groundingNone
  }

  function Times(x: real, y: real): real {
    x * y
  }

  function Aligned(computed: real, alignment: Option<real>): real {
    if alignment.Some? then Times(computed, 0.5 + 0.5 * alignment.value) else computed
  }

  function Boost(w: Weights, likelihood: real): real {
    1.0 + w.causal * likelihood
  }

  function Boosted(computed: real, likelihood: Option<real>, w: Weights): real {
    if likelihood.Some? then Min(1.0, Times(computed, Boost(w, likelihood.value))) else computed
  }

  function GroundedConfidence(signal: real, n: nat, alignment: Option<real>, likelihood: Option<real>, w: Weights): real {
    Boosted(BeforeBoost(signal, n, alignment, w), likelihood, w)
  }

  predicate UnitOption(x: Option<real>) {
    x.Some? ==> Unit(x.value)
  }

  lemma ProductMono(x: real, a: real, b: real)
    requires 0.0 <= x && a <= b
    ensures x * a <= x * b && a * x <= b * x
  {
  }

  lemma TimesMono(a: real, b: real, f: real, g: real)
    requires 0.0 <= a <= b && 0.0 <= f <= g
    ensures 0.0 <= Times(a, f) <= Times(b, g)
  {
    ProductMono(f, 0.0, a);
    ProductMono(f, a, b);
    ProductMono(b, f, g);
  }

  lemma TimesUnit(x: real, y: real)
    requires Unit(x) && Unit(y)
    ensures Unit(Times(x, y))
  {
    TimesMono(x, 1.0, y, 1.0);
  }

  lemma AlignedUnit(computed: real, alignment: Option<real>)
    requires Unit(computed) && UnitOption(alignment)
    ensures Unit(Aligned(computed, alignment))
  {
    if alignment.Some? {
      TimesUnit(computed, 0.5 + 0.5 * alignment.value);
    }
  }

  lemma AlignedMono(a: real, b: real, alignment: Option<real>)
    requires 0.0 <= a <= b && UnitOption(alignment)
    ensures Aligned(a, alignment) <= Aligned(b, alignment)
  {
    if alignment.Some? {
      var f := 0.5 + 0.5 * alignment.value;
      TimesMono(a, b, f, f);
    }
  }

  lemma BoostAtLeastOne(w: Weights, l: real)
    requires Sane(w) && Unit(l)
    ensures 1.0 <= Boost(w, l)
  {
    ProductMono(w.causal, 0.0, l);
  }

  lemma ScaledUp(x: real, f: real)
    requires 0.0 <= x && 1.0 <= f
    ensures x <= Times(x, f)
  {
    TimesMono(x, x, 1.0, f);
    assert Times(x, 1.0) == x;
  }

  lemma BoostedUnit(computed: real, likelihood: Option<real>, w: Weights)
    requires Unit(computed) && UnitOption(likelihood) && Sane(w)
    ensures Unit(Boosted(computed, likelihood, w)) && computed <= Boosted(computed, likelihood, w)
  {
    if likelihood.Some? {
      BoostAtLeastOne(w, likelihood.value);
      ScaledUp(computed, Boost(w, likelihood.value));
    }
  }

  /** No less likely a cause. */
  predicate AtMost(a: Option<real>, b: Option<real>) {
    a.Some? ==> b.Some? && a.value <= b.value
  }

  lemma BoostedMono(a: real, b: real, la: Option<real>, lb: Option<real>, w: Weights)
    requires Unit(a) && Unit(b) && a <= b && UnitOption(la) && UnitOption(lb) && AtMost(la, lb) && Sane(w)
    ensures Boosted(a, la, w) <= Boosted(b, lb, w)
  {
    BoostedUnit(b, lb, w);
    if la.Some? {
      BoostAtLeastOne(w, la.value);
      ProductMono(w.causal, la.value, lb.value);
      TimesMono(a, b, Boost(w, la.value), Boost(w, lb.value));
    }
  }

  /** Computed confidence stays in the unit interval. */
  lemma ComputedInUnit(signal: real, n: nat, alignment: Option<real>, likelihood: Option<real>, w: Weights)
    requires Sane(w) && Unit(signal) && UnitOption(alignment) && UnitOption(likelihood)
    ensures Unit(GroundedConfidence(signal, n, alignment, likelihood, w))
  {
    BeforeBoostMonotone(signal, n, n, alignment, w);
    BoostedUnit(BeforeBoost(signal, n, alignment, w), likelihood, w);
  }

  function BeforeBoost(signal: real, n: nat, alignment: Option<real>, w: Weights): real {
    Aligned(Times(signal, GroundingWeight(n, w)), alignment)
  }

  lemma BeforeBoostMonotone(signal: real, n: nat, m: nat, alignment: Option<real>, w: Weights)
    requires Sane(w) && Unit(signal) && UnitOption(alignment) && n <= m
    ensures Unit(BeforeBoost(signal, n, alignment, w)) && Unit(BeforeBoost(signal, m, alignment, w))
    ensures BeforeBoost(signal, n, alignment, w) <= BeforeBoost(signal, m, alignment, w)
  {
    var x, y := GroundingWeight(n, w), GroundingWeight(m, w);
    TimesMono(signal, signal, x, y);
    TimesUnit(signal, x);
    TimesUnit(signal, y);
    AlignedUnit(Times(signal, x), alignment);
    AlignedUnit(Times(signal, y), alignment);
    AlignedMono(Times(signal, x), Times(signal, y), alignment);
  }

  /** More backends or a likelier cause never lower it. */
  lemma ComputedMonotone(signal: real, n: nat, m: nat, alignment: Option<real>, la: Option<real>, lb: Option<real>, w: Weights)
    requires Sane(w) && Unit(signal) && UnitOption(alignment) && UnitOption(la) && UnitOption(lb)
    requires n <= m && AtMost(la, lb)
    ensures GroundedConfidence(signal, n, alignment, la, w) <= GroundedConfidence(signal, m, alignment, lb, w)
  {
    BeforeBoostMonotone(signal, n, m, alignment, w);
    BoostedMono(BeforeBoost(signal, n, alignment, w), BeforeBoost(signal, m, alignment, w), la, lb, w);
  }

  /** What scoring makes of one candidate. */
  function ScoredCandidate(c: Candidate, evidence: seq<EvidenceRef>, scores: seq<CausalScore>, sao: Sao, alignment: Option<real>, w: Weights): Candidate {
    var computed := GroundedConfidence(sao.signalConfidence, |Backends(c.citations, evidence, Some(sao))|, alignment, Strongest(scores), w);
    c.(computedConfidence := computed, ceilingBound := computed > c.confidence, confidence := Min(computed, c.confidence))
  }

  /** scoreConfidences: every candidate overwritten in place. */
  method ScoreConfidences(cands: seq<Candidate>, evidence: seq<EvidenceRef>, scores: seq<CausalScore>, sao: Sao, alignment: Option<real>, w: Weights)
    returns (r: seq<Candidate>)
    ensures |r| == |cands|
    ensures forall i | 0 <= i < |cands| :: r[i] == ScoredCandidate(cands[i], evidence, scores, sao, alignment, w)
  {
    var strongest, ok := 0.0, false;
    var k := 0;
    while k < |scores|
      invariant 0 <= k <= |scores|
      invariant Strongest(scores[..k]) == if ok then Some(strongest) else None
      invariant !ok ==> strongest == 0.0
    {
      assert scores[..k + 1][..|scores[..k + 1]| - 1] == scores[..k];
      if scores[k].inTopology {
        strongest, ok := Max(strongest, scores[k].likelihood), true;
      }
      k := k + 1;
    }
    assert scores[..k] == scores;
    r := cands;
    var i := 0;
    while i < |r|
      invariant 0 <= i <= |r| == |cands|
      invariant forall j | 0 <= j < i :: r[j] == ScoredCandidate(cands[j], evidence, scores, sao, alignment, w)
      invariant forall j | i <= j < |r| :: r[j] == cands[j]
    {
      var n := CoherentLiveCitations(r[i].citations, evidence, Some(sao));
      var computed := GroundedConfidence(sao.signalConfidence, n, alignment, if ok then Some(strongest) else None, w);
      r := r[i := r[i].(computedConfidence := computed, ceilingBound := computed > r[i].confidence,
                        confidence := Min(computed, r[i].confidence))];
      i := i + 1;
    }
  }

  /** The self-report is a ceiling and the computed score is one too. */
  lemma EmittedIsCapped(c: Candidate, evidence: seq<EvidenceRef>, scores: seq<CausalScore>, sao: Sao, alignment: Option<real>, w: Weights)
    ensures var r := ScoredCandidate(c, evidence, scores, sao, alignment, w);
            r.confidence <= c.confidence && r.confidence <= r.computedConfidence
            && (r.confidence == c.confidence || r.confidence == r.computedConfidence)
  {
  }

  /** Adding evidence or changes never lowers a candidate. */
  lemma AddingNeverLowers(c: Candidate, ev: seq<EvidenceRef>, more: seq<EvidenceRef>, scores: seq<CausalScore>, also: seq<CausalScore>,
                          sao: Sao, alignment: Option<real>, w: Weights)
    requires Sane(w) && Unit(sao.signalConfidence) && UnitOption(alignment)
    requires UnitOption(Strongest(scores)) && UnitOption(Strongest(scores + also))
    requires forall i | 0 <= i < |ev| :: ev[i] in more
    ensures var r, r' := ScoredCandidate(c, ev, scores, sao, alignment, w), ScoredCandidate(c, more, scores + also, sao, alignment, w);
            r.confidence <= r'.confidence && r.computedConfidence <= r'.computedConfidence
  {
    MoreEvidenceMoreBackends(c.citations, ev, more, Some(sao));
    StrongestGrows(scores, also);
    ComputedMonotone(sao.signalConfidence, |Backends(c.citations, ev, Some(sao))|, |Backends(c.citations, more, Some(sao))|,
                     alignment, Strongest(scores), Strongest(scores + also), w);
  }

  lemma {:induction false} StrongestGrows(scores: seq<CausalScore>, also: seq<CausalScore>)
    ensures AtMost(Strongest(scores), Strongest(scores + also))
    ensures (forall i | 0 <= i < |also| :: !also[i].inTopology) ==> Strongest(scores + also) == Strongest(scores)
  {
    if also == [] {
      assert scores + also == scores;
    } else {
      var init := also[..|also| - 1];
      StrongestGrows(scores, init);
      assert (scores + also)[..|scores + also| - 1] == scores + init;
    }
  }

  /** Repeating a backend, or adding changes outside the topology, moves nothing. */
  lemma RepeatingMovesNothing(c: Candidate, ev: seq<EvidenceRef>, ref: EvidenceRef, scores: seq<CausalScore>, also: seq<CausalScore>,
                              sao: Sao, alignment: Option<real>, w: Weights)
    requires Counts(ref, c.citations, Some(sao)) ==> ref.tool in Backends(c.citations, ev, Some(sao))
    requires forall i | 0 <= i < |also| :: !also[i].inTopology
    ensures ScoredCandidate(c, ev + [ref], scores + also, sao, alignment, w) == ScoredCandidate(c, ev, scores, sao, alignment, w)
  {
    RepeatedBackendAddsNothing(c.citations, ev, ref, Some(sao));
    StrongestGrows(scores, also);
  }

  lemma {:induction false} ScoresConcat(a: seq<ChangeEvent>, b: seq<ChangeEvent>, topo: Topology, w: Weights, prior: Option<real>, decay: Decay)
    ensures Scores(a + b, topo, w, prior, decay) == Scores(a, topo, w, prior, decay) + Scores(b, topo, w, prior, decay)
  {
    if b == [] {
      assert a + b == a;
    } else {
      var init, last := b[..|b| - 1], b[|b| - 1];
      ScoresConcat(a, init, topo, w, prior, decay);
      Seqs.Unsnoc(b);
      Seqs.Assoc(a, init, [last]);
      Seqs.Front(a + init, last);
      Seqs.Assoc(Scores(a, topo, w, prior, decay), Scores(init, topo, w, prior, decay), [EventScore(last, topo, w, prior, decay)]);
    }
  }

  /** The two laws together, from raw change events: with sane weights and unit
      inputs every computed confidence is in range, and gathering more evidence or
      learning of more changes never lowers a candidate. */
  lemma ScoringIsMonotone(c: Candidate, ev: seq<EvidenceRef>, more: seq<EvidenceRef>, events: seq<ChangeEvent>, also: seq<ChangeEvent>,
                          sao: Sao, prior: Option<real>, w: Weights, decay: Decay)
    requires Sane(w) && Unit(sao.signalConfidence) && UnitOption(prior)
    requires forall i | 0 <= i < |ev| :: ev[i] in more
    ensures var r := ScoredCandidate(c, ev, Scores(events, sao.topology, w, prior, decay), sao, prior, w);
            var r' := ScoredCandidate(c, more, Scores(events + also, sao.topology, w, prior, decay), sao, prior, w);
            r.confidence <= r'.confidence && r.computedConfidence <= r'.computedConfidence && Unit(r.computedConfidence)
  {
    StrongestInUnit(events, sao.topology, w, prior, decay);
    StrongestInUnit(events + also, sao.topology, w, prior, decay);
    ScoresConcat(events, also, sao.topology, w, prior, decay);
    var scores, extra := Scores(events, sao.topology, w, prior, decay), Scores(also, sao.topology, w, prior, decay);
    AddingNeverLowers(c, ev, more, scores, extra, sao, prior, w);
    ComputedInUnit(sao.signalConfidence, |Backends(c.citations, ev, Some(sao))|, prior, Strongest(scores), w);
  }

  // ---- closed forms, on the weights ---------------------------------------

  /** What a run's evidence supports: the signal's confidence times the weight of no
      backend, of one, or of several; drawn towards a half by the observed success rate
      where one is known; raised by the likeliest in-topology change where there is one,
      never past 1. */
  predicate ScoreIs(x: real, signal: real, backends: nat, alignment: Option<real>, likelihood: Option<real>, w: Weights) {
    var base := signal * (if backends == 0 then w.groundingNone else if backends == 1 then w.groundingOne else w.groundingMany);
    var aligned := if alignment.Some? then base * (0.5 + 0.5 * alignment.value) else base;
    if likelihood.None? then x == aligned
    else
      var raised := aligned * (1.0 + w.causal * likelihood.value);
      x == if raised <= 1.0 then raised else 1.0
  }

  lemma GroundedIs(signal: real, n: nat, alignment: Option<real>, likelihood: Option<real>, w: Weights)
    ensures ScoreIs(GroundedConfidence(signal, n, alignment, likelihood, w), signal, n, alignment, likelihood, w)
  {
  }

  /** Scoring changes three fields of a candidate, and these are their values. */
  lemma ScoredIs(c: Candidate, evidence: seq<EvidenceRef>, scores: seq<CausalScore>, sao: Sao, alignment: Option<real>, w: Weights)
    ensures var r := ScoredCandidate(c, evidence, scores, sao, alignment, w);
            && ScoreIs(r.computedConfidence, sao.signalConfidence, |Backends(c.citations, evidence, Some(sao))|, alignment,
                       Strongest(scores), w)
            && r.confidence == (if r.computedConfidence <= c.confidence then r.computedConfidence else c.confidence)
            && (r.ceilingBound <==> r.computedConfidence > c.confidence)
            && r == c.(computedConfidence := r.computedConfidence, confidence := r.confidence, ceilingBound := r.ceilingBound)
  {
    GroundedIs(sao.signalConfidence, |Backends(c.citations, evidence, Some(sao))|, alignment, Strongest(scores), w);
  }

  /** A backend counts iff some reference of its is live, about the incident, and cited. */
  lemma BackendsMeaning(citations: seq<string>, evidence: seq<EvidenceRef>, sao: Sao, tool: string)
    ensures tool in Backends(citations, evidence, Some(sao)) <==>
            exists i | 0 <= i < |evidence| ::
              && evidence[i].tool == tool && evidence[i].live && evidence[i].key in citations && evidence[i].subject != ""
              && (evidence[i].subject == sao.originService || InTopology(evidence[i].subject, sao.topology))
  {
    if tool in Backends(citations, evidence, Some(sao)) {
      var i :| 0 <= i < |evidence| && Counts(evidence[i], citations, Some(sao)) && evidence[i].tool == tool;
    }
    if i :| 0 <= i < |evidence| && evidence[i].tool == tool && evidence[i].live && evidence[i].key in citations
            && evidence[i].subject != ""
            && (evidence[i].subject == sao.originService || InTopology(evidence[i].subject, sao.topology)) {
      assert Counts(evidence[i], citations, Some(sao));
    }
  }

  /** The strongest likelihood: there is one iff some change is in topology, it is
      reached by one of them or is zero, and none exceeds it. */
  lemma {:induction false} StrongestMeaning(scores: seq<CausalScore>)
    ensures Strongest(scores).None? <==> forall i | 0 <= i < |scores| :: !scores[i].inTopology
    ensures Strongest(scores).Some? ==>
              var m := Strongest(scores).value;
              && m >= 0.0 && (forall i | 0 <= i < |scores| && scores[i].inTopology :: scores[i].likelihood <= m)
              && (m == 0.0 || exists i | 0 <= i < |scores| :: scores[i].inTopology && scores[i].likelihood == m)
  {
    if scores == [] {
    } else {
      var init, n := scores[..|scores| - 1], |scores| - 1;
      StrongestMeaning(init);
      assert forall i | 0 <= i < n :: init[i] == scores[i];
      if Strongest(init).Some? && Strongest(init).value != 0.0 {
        var i :| 0 <= i < |init| && init[i].inTopology && init[i].likelihood == Strongest(init).value;
        assert scores[i].inTopology && scores[i].likelihood == Strongest(init).value;
      }
    }
  }

  lemma {:induction false} ScoresAt(events: seq<ChangeEvent>, topo: Topology, w: Weights, prior: Option<real>, decay: Decay, i: nat)
    requires i < |events|
    ensures |Scores(events, topo, w, prior, decay)| == |events|
    ensures Scores(events, topo, w, prior, decay)[i] == EventScore(events[i], topo, w, prior, decay)
  {
    if |events| == 1 {
      assert Scores(events[..0], topo, w, prior, decay) == [];
    } else {
      ScoresAt(events[..|events| - 1], topo, w, prior, decay, if i < |events| - 1 then i else 0);
    }
  }

  /** No change moves a confidence unless its target is in the topology. */
  lemma NoCauseIff(events: seq<ChangeEvent>, topo: Topology, w: Weights, prior: Option<real>, decay: Decay)
    ensures Strongest(Scores(events, topo, w, prior, decay)).None? <==>
            forall i | 0 <= i < |events| :: !InTopology(events[i].target, topo)
  {
    var scores := Scores(events, topo, w, prior, decay);
    StrongestMeaning(scores);
    if events != [] {
      forall i | 0 <= i < |events|
        ensures |scores| == |events| && (scores[i].inTopology <==> InTopology(events[i].target, topo))
      {
        ScoresAt(events, topo, w, prior, decay, i);
      }
      ScoresAt(events, topo, w, prior, decay, 0);
    }
  }

  /** The node a change is about: the first of that name, upstream before downstream. */
  predicate FirstAt(nodes: seq<NodeState>, name: string, k: int) {
    0 <= k < |nodes| && nodes[k].name == name && forall j | 0 <= j < k :: nodes[j].name != name
  }

  lemma {:induction false} FirstNodeAt(nodes: seq<NodeState>, name: string, k: int)
    requires FirstAt(nodes, name, k)
    ensures FirstNode(nodes, name) == Some(nodes[k])
  {
    if k == 0 {
    } else {
      FirstNodeAt(nodes[1..], name, k - 1);
    }
  }

  lemma NodeOfAt(topo: Topology, name: string, k: int)
    requires FirstAt(topo.upstream + topo.downstream, name, k)
    ensures NodeOf(topo, name) == Some((topo.upstream + topo.downstream)[k])
  {
    var all, n := topo.upstream + topo.downstream, |topo.upstream|;
    assert forall j | 0 <= j < n :: all[j] == topo.upstream[j];
    if k < n {
      FirstNodeAt(topo.upstream, name, k);
    } else {
      assert !NamesNode(topo.upstream, name);
      assert forall j | 0 <= j < |topo.downstream| :: all[n + j] == topo.downstream[j];
      FirstNodeAt(topo.downstream, name, k - n);
    }
  }

  /** Predicted signals nobody observes. */
  function Unseen(topo: Topology, signals: seq<string>): nat {
    if signals == [] then 0
    else Unseen(topo, signals[..|signals| - 1]) + if Observed(topo, signals[|signals| - 1]) then 0 else 1
  }

  lemma {:induction false} PenaltyPerUnseen(raw: real, topo: Topology, signals: seq<string>, penalty: real)
    ensures Penalized(raw, topo, signals, penalty) == raw - Unseen(topo, signals) as real * penalty
  {
    if signals == [] {
    } else {
      var init := signals[..|signals| - 1];
      PenaltyPerUnseen(raw, topo, init, penalty);
      var n := Unseen(topo, init) as real;
      assert (n + 1.0) * penalty == n * penalty + penalty;
    }
  }

  /** What a change's likelihood is made of: recency, the traffic share of the degraded
      node it touched, and the case base's rate, each by its own weight. */
  function Weighted(e: ChangeEvent, share: real, w: Weights, prior: Option<real>, decay: Decay): real {
    w.temporal * decay(e.age, w.recencyHalfLife) + w.topological * share
    + w.historical * ((if prior.Some? then prior.value else w.baseline)
                      * (if w.historicalHalfLife <= 0 then 1.0 else decay(e.staleness, w.historicalHalfLife)))
  }

  lemma RawIs(e: ChangeEvent, topo: Topology, w: Weights, prior: Option<real>, decay: Decay)
    ensures var node := NodeOf(topo, e.target);
            var backed := node.Some? && node.value.state == "degraded";
            var sum := Weighted(e, if backed then node.value.trafficShare else 0.0, w, prior, decay);
            RawLikelihood(e, topo, w, prior, decay) == if backed || sum <= w.aloneCap then sum else w.aloneCap
  {
    var node := NodeOf(topo, e.target);
    SumIs(e, if Degraded(node) then node.value.trafficShare else 0.0, w, prior, decay);
  }

  lemma SumIs(e: ChangeEvent, share: real, w: Weights, prior: Option<real>, decay: Decay)
    ensures Weighted(e, share, w, prior, decay) == EventSum(e, share, w, prior, decay)
  {
    var base := if prior.Some? then prior.value else w.baseline;
    var recent := if w.historicalHalfLife <= 0 then 1.0 else decay(e.staleness, w.historicalHalfLife);
    assert Times(base, recent) == base * recent;
    assert Times(w.historical, base * recent) == w.historical * (base * recent);
  }

  /** Capped when no degraded node backs the change, less one penalty for each predicted
      signal nobody sees, and kept within the unit interval. */
  lemma LikelihoodIs(e: ChangeEvent, topo: Topology, w: Weights, prior: Option<real>, decay: Decay)
    ensures var cs, node := EventScore(e, topo, w, prior, decay), NodeOf(topo, e.target);
            var backed := node.Some? && node.value.state == "degraded";
            var sum := Weighted(e, if backed then node.value.trafficShare else 0.0, w, prior, decay);
            var capped := if backed || sum <= w.aloneCap then sum else w.aloneCap;
            var left := capped - Unseen(topo, e.predictedSignals) as real * w.penalty;
            && cs.eventId == e.id && (cs.inTopology <==> InTopology(e.target, topo)) && (cs.liveCorroborated <==> backed)
            && cs.likelihood == if left < 0.0 then 0.0 else if left > 1.0 then 1.0 else left
  {
    RawIs(e, topo, w, prior, decay);
    PenaltyPerUnseen(RawLikelihood(e, topo, w, prior, decay), topo, e.predictedSignals, w.penalty);
  }

  /** One backend and no cause in topology: the score is at most the weight of one. */
  lemma OneBackendIsCapped(x: real, signal: real, backends: nat, alignment: Option<real>, w: Weights)
    requires Sane(w) && Unit(signal) && UnitOption(alignment) && backends <= 1
    requires ScoreIs(x, signal, backends, alignment, None, w)
    ensures x <= w.groundingOne
  {
    var g := if backends == 0 then w.groundingNone else w.groundingOne;
    var base := signal * g;
    TimesMono(signal, 1.0, g, g);
    assert 0.0 <= base <= g by {
      assert Times(signal, g) == base && Times(1.0, g) == g;
    }
    if alignment.Some? {
      var f := 0.5 + 0.5 * alignment.value;
      TimesMono(base, base, f, 1.0);
      assert x == base * f == Times(base, f) && Times(base, 1.0) == base;
    }
  }
}
