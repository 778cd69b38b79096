/** The readiness gate (internal/clank/gate.go): a conjunction, never an average. */
module Gate {
  import opened Boundary

  predicate NamesNode(nodes: seq<NodeState>, name: string) {
    exists i | 0 <= i < |nodes| :: nodes[i].name == name
  }

  predicate InTopology(subject: string, topo: Topology) {
    NamesNode(topo.upstream, subject) || NamesNode(topo.downstream, subject)
  }

  /** Evidence about the failing service or a node of its topology; evidence that
      names no subject is about nothing. */
  predicate CoherentSubject(ref: EvidenceRef, sao: Option<Sao>) {
    sao.Some? && ref.subject != ""
    && (ref.subject == sao.value.originService || InTopology(ref.subject, sao.value.topology))
  }

  predicate LiveAndCoherent(ref: EvidenceRef, sao: Option<Sao>) {
    ref.live && CoherentSubject(ref, sao)
  }

  function CitedEvidence(evidence: seq<EvidenceRef>, citations: seq<string>): seq<EvidenceRef> {
    if evidence == [] then []
    else
      var last := evidence[|evidence| - 1];
      CitedEvidence(evidence[..|evidence| - 1], citations) + if last.key in citations then [last] else []
  }

  /** What the gate weighs: the recommended candidate's cited evidence, or, for a
      set with no candidates at all, everything gathered. */
  function Basis(ps: ProposalSet): seq<EvidenceRef> {
    if ps.recommended == "" && ps.proposals == [] then ps.evidence
    else match FirstById(ps.proposals, ps.recommended)
      case None => []
      case Some(rec) => CitedEvidence(ps.evidence, rec.citations)
  }

  lemma {:induction false} CitedMeaning(evidence: seq<EvidenceRef>, citations: seq<string>, ref: EvidenceRef)
    ensures ref in CitedEvidence(evidence, citations) <==> ref in evidence && ref.key in citations
  {
    if evidence == [] {
    } else {
      CitedMeaning(evidence[..|evidence| - 1], citations, ref);
      assert evidence == evidence[..|evidence| - 1] + [evidence[|evidence| - 1]];
    }
  }

  lemma {:induction false} NothingCited(evidence: seq<EvidenceRef>)
    ensures CitedEvidence(evidence, []) == []
  {
    if evidence == [] {
    } else {
      NothingCited(evidence[..|evidence| - 1]);
    }
  }

  method SubjectInTopology(subject: string, topo: Topology) returns (r: bool)
    ensures r == InTopology(subject, topo)
  {
    var i := 0;
    while i < |topo.upstream|
      invariant 0 <= i <= |topo.upstream|
      invariant forall j | 0 <= j < i :: topo.upstream[j].name != subject
    {
      if topo.upstream[i].name == subject {
        return true;
      }
      i := i + 1;
    }
    i := 0;
    while i < |topo.downstream|
      invariant 0 <= i <= |topo.downstream|
      invariant forall j | 0 <= j < i :: topo.downstream[j].name != subject
    {
      if topo.downstream[i].name == subject {
        return true;
      }
      i := i + 1;
    }
    return false;
  }

  method AnyCoherentLive(refs: seq<EvidenceRef>, sao: Option<Sao>) returns (r: bool)
    ensures r <==> exists i | 0 <= i < |refs| :: LiveAndCoherent(refs[i], sao)
  {
    var i := 0;
    while i < |refs|
      invariant 0 <= i <= |refs|
      invariant forall j | 0 <= j < i :: !LiveAndCoherent(refs[j], sao)
    {
      if refs[i].live && sao.Some? && refs[i].subject != "" {
        var known := SubjectInTopology(refs[i].subject, sao.value.topology);
        if refs[i].subject == sao.value.originService || known {
          return true;
        }
      }
      i := i + 1;
    }
    return false;
  }

  method RecommendedEvidence(ps: ProposalSet) returns (r: seq<EvidenceRef>)
    ensures r == Basis(ps)
  {
    if ps.recommended == "" && |ps.proposals| == 0 {
      return ps.evidence;
    }
    var rec := FirstById(ps.proposals, ps.recommended);
    if rec.None? {
      return [];
    }
    if |rec.value.citations| == 0 {
      NothingCited(ps.evidence);
      return [];
    }
    r := [];
    var i := 0;
    while i < |ps.evidence|
      invariant 0 <= i <= |ps.evidence|
      invariant r == CitedEvidence(ps.evidence[..i], rec.value.citations)
    {
      assert ps.evidence[..i + 1][..|ps.evidence[..i + 1]| - 1] == ps.evidence[..i];
      if ps.evidence[i].key in rec.value.citations {
        r := r + [ps.evidence[i]];
      }
      i := i + 1;
    }
    assert ps.evidence[..i] == ps.evidence;
  }

  predicate Grounded(ps: ProposalSet) {
    exists i | 0 <= i < |Basis(ps)| :: LiveAndCoherent(Basis(ps)[i], ps.sao)
  }

  function GateOf(ps: ProposalSet, dupes: nat): GateResult {
    var evidenceOK, dedupeOK := Grounded(ps), dupes == 0;
    GateResult(true, dedupeOK, evidenceOK, dedupeOK && evidenceOK,
               if !evidenceOK then "evidence" else if !dedupeOK then "dedupe" else "")
  }

  method Evaluate(ps: ProposalSet, dupes: nat) returns (g: GateResult)
    ensures g == GateOf(ps, dupes)
  {
    var basis := RecommendedEvidence(ps);
    var evidenceOK := AnyCoherentLive(basis, ps.sao);
    var budgetOK, dedupeOK := true, dupes == 0;
    var passed := budgetOK && dedupeOK && evidenceOK;
    var reason := "";
    if !passed {
      if !evidenceOK {
        reason := "evidence";
      } else if !dedupeOK {
        reason := "dedupe";
      }
    }
    return GateResult(budgetOK, dedupeOK, evidenceOK, passed, reason);
  }

  /** For a set with candidates, a passed gate means the recommended candidate
      resolves and cites gathered, live evidence about the incident. */
  lemma PassedMeans(ps: ProposalSet, dupes: nat)
    requires ps.proposals != []
    ensures GateOf(ps, dupes).passed <==>
            dupes == 0 && FirstById(ps.proposals, ps.recommended).Some?
            && exists ref | ref in ps.evidence ::
                 ref.key in FirstById(ps.proposals, ps.recommended).value.citations && LiveAndCoherent(ref, ps.sao)
  {
    var rec := FirstById(ps.proposals, ps.recommended);
    if rec.Some? {
      forall ref ensures ref in Basis(ps) <==> ref in ps.evidence && ref.key in rec.value.citations {
        CitedMeaning(ps.evidence, rec.value.citations, ref);
      }
      if Grounded(ps) {
        var i :| 0 <= i < |Basis(ps)| && LiveAndCoherent(Basis(ps)[i], ps.sao);
        assert Basis(ps)[i] in Basis(ps);
      }
      if ref :| ref in ps.evidence && ref.key in rec.value.citations && LiveAndCoherent(ref, ps.sao) {
        assert ref in Basis(ps);
        var i :| 0 <= i < |Basis(ps)| && Basis(ps)[i] == ref;
      }
    }
  }
}
