/** The learn edge (internal/clank/click.go): absorb one outcome, close the set
    it answers to, and append what happened as a case. */
module Click {
  import opened Boundary
  import opened Ledger
  import CB = CaseBase
  import Gov = Governance

  /** A dry run must render; every other mode must not. */
  predicate Coherent(o: Outcome) {
    if o.mode == DryRun then o.result == Rendered else o.result != Rendered
  }

  /** The confidence newCase's scan ends on: the last candidate with that ID. */
  function LastConfidence(cands: seq<Candidate>, id: string): real {
    if cands == [] then 0.0
    else if cands[|cands| - 1].id == id then cands[|cands| - 1].confidence
    else LastConfidence(cands[..|cands| - 1], id)
  }

  function CaseOf(s: ProposalSet, o: Outcome): CB.Case {
    CB.Case(s.runId, o.signalRef, o.decisionRef, o.id, o.contractRef, s.failureClass,
            LastConfidence(s.proposals, s.recommended), o.mode, o.result, o.executedAt)
  }

  method NewCase(s: ProposalSet, o: Outcome) returns (c: CB.Case)
    ensures c == CaseOf(s, o)
  {
    var conf := 0.0;
    var i := 0;
    while i < |s.proposals|
      invariant 0 <= i <= |s.proposals|
      invariant conf == LastConfidence(s.proposals[..i], s.recommended)
    {
      assert s.proposals[..i + 1][..|s.proposals[..i + 1]| - 1] == s.proposals[..i];
      if s.proposals[i].id == s.recommended {
        conf := s.proposals[i].confidence;
      }
      i := i + 1;
    }
    assert s.proposals[..i] == s.proposals;
    c := CB.Case(s.runId, o.signalRef, o.decisionRef, o.id, o.contractRef, s.failureClass,
                 conf, o.mode, o.result, o.executedAt);
  }

  // ---- which confidence a case remembers ----------------------------------

  /** `k` is the last candidate carrying `id`. */
  predicate IsLast(cands: seq<Candidate>, id: string, k: int) {
    0 <= k < |cands| && cands[k].id == id && forall j | k < j < |cands| :: cands[j].id != id
  }

  /** `k` is the first candidate carrying `id`. */
  predicate IsFirst(cands: seq<Candidate>, id: string, k: int) {
    0 <= k < |cands| && cands[k].id == id && forall j | 0 <= j < k :: cands[j].id != id
  }

  predicate UniqueIds(cands: seq<Candidate>) {
    forall i, j | 0 <= i < j < |cands| :: cands[i].id != cands[j].id
  }

  /** The scan keeps the last match. */
  lemma {:induction false} LastConfidenceAt(cands: seq<Candidate>, id: string, k: int)
    requires IsLast(cands, id, k)
    ensures LastConfidence(cands, id) == cands[k].confidence
  {
    if k == |cands| - 1 {
    } else {
      LastConfidenceAt(cands[..|cands| - 1], id, k);
    }
  }

  /** The lookup keeps the first. */
  lemma {:induction false} FirstByIdAt(cands: seq<Candidate>, id: string, k: int)
    requires IsFirst(cands, id, k)
    ensures FirstById(cands, id) == Some(cands[k])
  {
    if k == 0 {
    } else {
      FirstByIdAt(cands[1..], id, k - 1);
    }
  }

  lemma {:induction false} SomeLast(cands: seq<Candidate>, id: string, i: nat) returns (last: nat)
    requires i < |cands| && cands[i].id == id
    ensures IsLast(cands, id, last)
    decreases |cands| - i
  {
    if j :| i < j < |cands| && cands[j].id == id {
      last := SomeLast(cands, id, j);
    } else {
      last := i;
    }
  }

  /** The case a set leaves behind carries the confidence of the candidate hiss
      weighed, thump acted on and the gate checked, exactly when the LAST candidate
      with the recommended ID has the FIRST one's confidence. */
  lemma CaseConfidenceIsWeighedIff(s: ProposalSet, o: Outcome, c: Candidate)
    requires Gov.Weighed(s) == Some(c)
    ensures CaseOf(s, o).confidence == c.confidence <==>
            forall k | IsLast(s.proposals, s.recommended, k) :: s.proposals[k].confidence == c.confidence
  {
    var i :| 0 <= i < |s.proposals| && s.proposals[i] == c;
    var last := SomeLast(s.proposals, s.recommended, i);
    LastConfidenceAt(s.proposals, s.recommended, last);
    forall k | IsLast(s.proposals, s.recommended, k) ensures k == last {
    }
  }

  /** Positions instead of lookups, for any set and any recommendation it carries. */
  lemma LastIsFirstConfidenceIff(cands: seq<Candidate>, id: string, first: int, last: int)
    requires IsFirst(cands, id, first) && IsLast(cands, id, last)
    ensures FirstById(cands, id).Some?
    ensures LastConfidence(cands, id) == FirstById(cands, id).value.confidence <==>
            cands[last].confidence == cands[first].confidence
  {
    FirstByIdAt(cands, id, first);
    LastConfidenceAt(cands, id, last);
  }

  /** With distinct IDs the two never part. */
  lemma UniqueIdsRememberWeighed(s: ProposalSet, o: Outcome, c: Candidate)
    requires Gov.Weighed(s) == Some(c) && UniqueIds(s.proposals)
    ensures CaseOf(s, o).confidence == c.confidence
  {
    CaseConfidenceIsWeighedIff(s, o, c);
    forall k | IsLast(s.proposals, s.recommended, k) ensures s.proposals[k].confidence == c.confidence {
      var i :| 0 <= i < |s.proposals| && s.proposals[i] == c;
      assert i == k;
    }
  }

  /** They do part: two candidates the model left without an ID, the recommendation
      naming the first. */
  lemma RepeatedIdSplitsConfidence(s: ProposalSet, o: Outcome, a: Candidate, b: Candidate)
    requires s.proposals == [a, b] && s.recommended == a.id == b.id == ""
    requires a.confidence == 0.9 && b.confidence == 0.2 && s.gate.Some? && s.gate.value.passed
    ensures Gov.Weighed(s) == Some(a) && CaseOf(s, o).confidence == 0.2
  {
    FirstByIdAt(s.proposals, "", 0);
    LastConfidenceAt(s.proposals, "", 1);
  }

  /** The two checks Absorb makes before it lets an outcome near the ledger. */
  predicate Admissible(o: Outcome) {
    AuditableOutcome(o) && Coherent(o)
  }

  datatype Absorbed = Unauditable | Incoherent | CtxDone | Unanswered | Unprovenanced | Learned

  /** What one Absorb does to the ledger's list. */
  function AbsorbSets(sets: seq<Recorded>, o: Outcome): seq<Recorded> {
    if Admissible(o) then Settle(sets, ByOutcome(o)) else sets
  }

  /** The case it learns, if any: only an answered, admissible, traceable outcome. */
  function AbsorbCase(sets: seq<Recorded>, o: Outcome): Option<CB.Case> {
    if !Admissible(o) then None
    else match SettleAnswer(sets, ByOutcome(o))
      case None => None
      case Some(s) => if CB.Provenanced(CaseOf(s, o)) then Some(CaseOf(s, o)) else None
  }

  /** An outcome that cannot be held to account: no grant, time, mode or result behind
      it, or a failure or miss without a word why. */
  predicate Unaccountable(o: Outcome) {
    || o.decisionRef == "" || o.executedAt == ZERO_TIME || o.mode.NoMode? || o.result.NoResult?
    || ((o.result.Failure? || o.result.PartialNonConverging?) && o.error == "")
  }

  /** Absorb's answer, on the outcome's own fields: unaccountable first, then a dry run
      that did more than render or a live one that only rendered, then the context,
      then whether a set answers, then whether the case can be traced. */
  function AbsorbAnswer(cancelled: bool, sets: seq<Recorded>, o: Outcome): Absorbed {
    if Unaccountable(o) then Unauditable
    else if o.mode.DryRun? != o.result.Rendered? then Incoherent
    else if cancelled then CtxDone
    else if NewestOpen(sets, o.signalRef).None? then Unanswered
    else if o.id == "" || o.signalRef == "" then Unprovenanced
    else Learned
  }

  /** So a case is learned iff the answer says so. */
  lemma LearnedIff(sets: seq<Recorded>, o: Outcome)
    ensures AbsorbCase(sets, o).Some? <==> AbsorbAnswer(false, sets, o) == Learned
    ensures Admissible(o) <==> !Unaccountable(o) && (o.mode.DryRun? <==> o.result.Rendered?)
  {
  }

  class Click {
    const ledger: MemProposalLog
    const cases: CB.CaseBase

    constructor (ledger: MemProposalLog, cases: CB.CaseBase)
      ensures this.ledger == ledger && this.cases == cases
    {
      this.ledger := ledger;
      this.cases := cases;
    }

    method Absorb(cancelled: bool, o: Outcome) returns (r: Absorbed)
      modifies ledger`sets, cases`cases
      ensures cancelled || !Admissible(o) ==> ledger.sets == old(ledger.sets) && cases.cases == old(cases.cases)
      ensures !cancelled ==> ledger.sets == AbsorbSets(old(ledger.sets), o)
      ensures !cancelled ==>
        match AbsorbCase(old(ledger.sets), o)
        case None => cases.cases == old(cases.cases)
        case Some(c) => r == Learned && cases.cases == CB.Appended(old(cases.cases), cases.maxCases, c)
      ensures r == AbsorbAnswer(cancelled, old(ledger.sets), o)
    {
      if !AuditableOutcome(o) {
        return Unauditable;
      }
      if !Coherent(o) {
        return Incoherent;
      }
      var a := ledger.Observe(cancelled, o);
      match a {
        case CtxCancelled => return CtxDone;
        case NoOpenSet => return Unanswered;
        case Moved(s) =>
          var c := NewCase(s, o);
          var ok := cases.Append(c);
          return if ok then Learned else Unprovenanced;
      }
    }
  }
}
