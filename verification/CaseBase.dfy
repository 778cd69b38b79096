/** The read side of learning (internal/clank/casebase.go): a bounded list of
    closed loops, and the corroborated success rate read back from it. */
module CaseBase {
  import opened Boundary

  datatype Case = Case(
    runId: string,
    signalRef: string,
    decisionRef: string,
    outcomeRef: string,
    contractRef: string,
    failureClass: string,
    confidence: real,
    mode: Mode,
    result: Result,
    observedAt: Time)

  /** A case that cannot be traced is refused. */
  predicate Provenanced(c: Case) {
    c.signalRef != "" && c.outcomeRef != "" && c.decisionRef != "" && c.result != NoResult
  }

  const MAX_CASES: nat := 10000
  const MIN_CORROBORATION: nat := 2

  function Limit(maxCases: int): (n: nat)
    ensures n > 0
  {
    if maxCases <= 0 then MAX_CASES else maxCases
  }

  /** Append on values: refuse, grow, or drop the oldest. */
  function Appended(cases: seq<Case>, maxCases: int, c: Case): seq<Case> {
    if !Provenanced(c) then cases
    else if |cases| >= Limit(maxCases) then cases[1..] + [c]
    else cases + [c]
  }

  function AppendedAll(cases: seq<Case>, maxCases: int, history: seq<Case>): seq<Case> {
    if history == [] then cases
    else Appended(AppendedAll(cases, maxCases, history[..|history| - 1]), maxCases, history[|history| - 1])
  }

  /** The accepted part of a history: what an unbounded base would hold. */
  function Accepted(history: seq<Case>): seq<Case> {
    if history == [] then []
    else
      var last := history[|history| - 1];
      Accepted(history[..|history| - 1]) + if Provenanced(last) then [last] else []
  }

  function LastOf<T>(s: seq<T>, n: nat): seq<T> {
    if |s| <= n then s else s[|s| - n..]
  }

  lemma LastOfSnoc<T>(s: seq<T>, x: T, n: nat)
    requires n > 0
    ensures LastOf(s + [x], n) == if |s| >= n then LastOf(s, n)[1..] + [x] else LastOf(s, n) + [x]
  {
  }

  /** The shifted array is a sliding window over the whole accepted history. */
  lemma {:induction false} SlidingWindow(history: seq<Case>, maxCases: int)
    ensures AppendedAll([], maxCases, history) == LastOf(Accepted(history), if maxCases > 0 then maxCases else 10_000)
  {
    if history == [] {
    } else {
      var init, last := history[..|history| - 1], history[|history| - 1];
      SlidingWindow(init, maxCases);
      LastOfSnoc(Accepted(init), last, Limit(maxCases));
      assert Accepted(history) == if Provenanced(last) then Accepted(init) + [last] else Accepted(init);
    }
  }

  // ---- alignment ----------------------------------------------------------

  predicate Votes?(c: Case, fingerprint: string) {
    && c.signalRef == fingerprint
    && c.mode == Live
    && (c.result.Success? || c.result.Failure? || c.result.PartialNonConverging?)
  }

  /** The live, settled cases of `fingerprint`. */
  function VotesFor(cases: seq<Case>, fingerprint: string): (v: seq<Case>)
    ensures |v| <= |cases|
  {
    if cases == [] then []
    else
      var last := cases[|cases| - 1];
      VotesFor(cases[..|cases| - 1], fingerprint) + if Votes?(last, fingerprint) then [last] else []
  }

  function WinsIn(votes: seq<Case>): (n: nat)
    ensures n <= |votes|
  {
    if votes == [] then 0
    else WinsIn(votes[..|votes| - 1]) + if votes[|votes| - 1].result.Success? then 1 else 0
  }

  /** The electorate is exactly the live settled cases, and unanimity reads as such. */
  lemma {:induction false} VotesMeaning(cases: seq<Case>, fingerprint: string)
    ensures forall c :: c in VotesFor(cases, fingerprint) <==> c in cases && Votes?(c, fingerprint)
    ensures WinsIn(VotesFor(cases, fingerprint)) == |VotesFor(cases, fingerprint)|
       <==> forall c | c in cases && Votes?(c, fingerprint) :: c.result.Success?
    ensures WinsIn(VotesFor(cases, fingerprint)) == 0
       <==> forall c | c in cases && Votes?(c, fingerprint) :: !c.result.Success?
  {
    if cases == [] {
    } else {
      var init, last := cases[..|cases| - 1], cases[|cases| - 1];
      assert cases == init + [last];
      VotesMeaning(init, fingerprint);
      VotesSnoc(init, last, fingerprint);
    }
  }

  lemma VotesSnoc(cases: seq<Case>, c: Case, fingerprint: string)
    ensures var v, w := VotesFor(cases, fingerprint), VotesFor(cases + [c], fingerprint);
            if Votes?(c, fingerprint)
            then |w| == |v| + 1 && WinsIn(w) == WinsIn(v) + if c.result.Success? then 1 else 0
            else w == v
  {
    assert (cases + [c])[..|cases|] == cases;
    var v := VotesFor(cases, fingerprint);
    assert (v + [c])[..|v|] == v;
  }

  /** A fraction of two counts lies in the unit interval. */
  lemma FractionInUnit(wins: nat, votes: nat)
    requires wins <= votes && votes > 0
    ensures 0.0 <= wins as real / votes as real <= 1.0
  {
    var q := wins as real / votes as real;
    assert q * votes as real == wins as real;
  }

  function Alignment(cases: seq<Case>, fingerprint: string): (r: Option<real>)
    ensures r.Some? <==> |VotesFor(cases, fingerprint)| >= MIN_CORROBORATION
    ensures r.Some? ==> 0.0 <= r.value <= 1.0
  {
    var v := VotesFor(cases, fingerprint);
    if |v| < MIN_CORROBORATION then None
    else
      FractionInUnit(WinsIn(v), |v|);
      Some(WinsIn(v) as real / |v| as real)
  }

  class CaseBase {
    var maxCases: int
    var cases: seq<Case>

    constructor (maxCases: int)
      ensures this.maxCases == maxCases && cases == []
    {
      this.maxCases := maxCases;
      cases := [];
    }

    method Append(c: Case) returns (ok: bool)
      modifies this`cases
      ensures ok == Provenanced(c)
      ensures cases == Appended(old(cases), maxCases, c)
    {
      if c.signalRef == "" || c.outcomeRef == "" || c.decisionRef == "" || c.result == NoResult {
        return false;
      }
      var limit := Limit(maxCases);
      if |cases| >= limit {
        cases := cases[1..] + [cases[|cases| - 1]];
        cases := cases[|cases| - 1 := c];
      } else {
        cases := cases + [c];
      }
      return true;
    }

    /** The counting loop of Alignment. */
    method Tally(fingerprint: string) returns (votes: nat, successes: nat)
      ensures votes == |VotesFor(cases, fingerprint)|
      ensures successes == WinsIn(VotesFor(cases, fingerprint))
    {
      votes, successes := 0, 0;
      var i := 0;
      while i < |cases|
        invariant 0 <= i <= |cases|
        invariant votes == |VotesFor(cases[..i], fingerprint)|
        invariant successes == WinsIn(VotesFor(cases[..i], fingerprint))
      {
        var c := cases[i];
        assert cases[..i + 1] == cases[..i] + [c];
        VotesSnoc(cases[..i], c, fingerprint);
        if c.signalRef == fingerprint && c.mode == Live {
          if c.result.Success? {
            votes, successes := votes + 1, successes + 1;
          } else if c.result.Failure? || c.result.PartialNonConverging? {
            votes := votes + 1;
          }
        }
        i := i + 1;
      }
      assert cases[..i] == cases;
    }

    method AlignmentFor(fingerprint: string) returns (r: Option<real>)
      ensures r == Alignment(cases, fingerprint)
    {
      var votes, successes := Tally(fingerprint);
      if votes < MIN_CORROBORATION {
        return None;
      }
      return Some(successes as real / votes as real);
    }
  }
}
