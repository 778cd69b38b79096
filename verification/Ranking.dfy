/** The ranker (internal/clank/rank.go). */
module Ranking {
  import opened Boundary
  import opened Decimal

  // ---- time to effect -----------------------------------------------------

  /** The leading digits of a text. */
  function LeadingDigits(s: string): (d: string)
    ensures AllDigits(d)
  {
    if s == "" || !IsDigit(s[0]) then "" else [s[0]] + LeadingDigits(s[1..])
  }

  /** An absent forecast counts as immediate; one with no leading digits too. */
  function TimeToEffect(c: Candidate): nat {
    if c.impact.None? then 0 else Value(LeadingDigits(c.impact.value.timeToEffect))
  }

  lemma {:induction false} LeadingDigitsAreDigits(s: string)
    ensures LeadingDigits(s) <= s
    ensures |LeadingDigits(s)| < |s| ==> !IsDigit(s[|LeadingDigits(s)|])
  {
    if s == "" || !IsDigit(s[0]) {
    } else {
      LeadingDigitsAreDigits(s[1..]);
    }
  }

  lemma ValueSnoc(s: string, c: char)
    requires AllDigits(s) && IsDigit(c)
    ensures AllDigits(s + [c]) && Value(s + [c]) == Value(s) * 10 + ValueOf(c)
  {
    assert (s + [c])[..|s|] == s;
  }

  /** The digit loop of timeToEffect. */
  method ReadTimeToEffect(c: Candidate) returns (n: nat)
    ensures n == TimeToEffect(c)
  {
    if c.impact.None? {
      return 0;
    }
    var s := c.impact.value.timeToEffect;
    LeadingDigitsAreDigits(s);
    n := 0;
    var i := 0;
    while i < |s|
      invariant 0 <= i <= |LeadingDigits(s)| <= |s|
      invariant AllDigits(s[..i]) && n == Value(s[..i])
    {
      if !IsDigit(s[i]) {
        break;
      }
      assert i < |LeadingDigits(s)|;
      ValueSnoc(s[..i], s[i]);
      assert s[..i + 1] == s[..i] + [s[i]];
      n := n * 10 + ValueOf(s[i]);
      i := i + 1;
    }
    assert i == |LeadingDigits(s)|;
    assert s[..i] == LeadingDigits(s);
  }

  // ---- stable order -------------------------------------------------------

  /** Stable insertion: after every element that is not later. */
  function InsertLate(xs: seq<Candidate>, c: Candidate): seq<Candidate> {
    if xs == [] || TimeToEffect(xs[|xs| - 1]) <= TimeToEffect(c) then xs + [c]
    else InsertLate(xs[..|xs| - 1], c) + [xs[|xs| - 1]]
  }

  function StableSorted(xs: seq<Candidate>): seq<Candidate> {
    if xs == [] then [] else InsertLate(StableSorted(xs[..|xs| - 1]), xs[|xs| - 1])
  }

  predicate BySpeed(xs: seq<Candidate>) {
    forall i, j | 0 <= i < j < |xs| :: TimeToEffect(xs[i]) <= TimeToEffect(xs[j])
  }

  /** The candidates of one speed, in order: what stability preserves. */
  function OfSpeed(xs: seq<Candidate>, n: nat): seq<Candidate> {
    if xs == [] then []
    else
      var last := xs[|xs| - 1];
      OfSpeed(xs[..|xs| - 1], n) + if TimeToEffect(last) == n then [last] else []
  }

  lemma OfSpeedSnoc(xs: seq<Candidate>, c: Candidate, n: nat)
    ensures OfSpeed(xs + [c], n) == OfSpeed(xs, n) + if TimeToEffect(c) == n then [c] else []
  {
    assert (xs + [c])[..|xs|] == xs;
  }

  lemma {:induction false} InsertLateBag(xs: seq<Candidate>, c: Candidate)
    ensures |InsertLate(xs, c)| == |xs| + 1 && multiset(InsertLate(xs, c)) == multiset(xs) + multiset{c}
  {
    if xs == [] || TimeToEffect(xs[|xs| - 1]) <= TimeToEffect(c) {
    } else {
      InsertLateBag(xs[..|xs| - 1], c);
      assert xs == xs[..|xs| - 1] + [xs[|xs| - 1]];
    }
  }

  lemma {:induction false} InsertLateOrdered(xs: seq<Candidate>, c: Candidate, bound: nat)
    requires BySpeed(xs) && TimeToEffect(c) <= bound && forall i | 0 <= i < |xs| :: TimeToEffect(xs[i]) <= bound
    ensures BySpeed(InsertLate(xs, c))
    ensures forall i | 0 <= i < |InsertLate(xs, c)| :: TimeToEffect(InsertLate(xs, c)[i]) <= bound
  {
    if xs == [] || TimeToEffect(xs[|xs| - 1]) <= TimeToEffect(c) {
    } else {
      InsertLateOrdered(xs[..|xs| - 1], c, TimeToEffect(xs[|xs| - 1]));
    }
  }

  lemma {:induction false} InsertLateStable(xs: seq<Candidate>, c: Candidate, n: nat)
    requires BySpeed(xs)
    ensures OfSpeed(InsertLate(xs, c), n) == OfSpeed(xs, n) + if TimeToEffect(c) == n then [c] else []
  {
    if xs == [] || TimeToEffect(xs[|xs| - 1]) <= TimeToEffect(c) {
      OfSpeedSnoc(xs, c, n);
    } else {
      var init, last := xs[..|xs| - 1], xs[|xs| - 1];
      InsertLateStable(init, c, n);
      OfSpeedSnoc(InsertLate(init, c), last, n);
      OfSpeedSnoc(init, last, n);
      assert xs == init + [last];
    }
  }

  /** The slowest of some candidates. */
  function Slowest(xs: seq<Candidate>, c: Candidate): (m: nat)
    ensures TimeToEffect(c) <= m && forall i | 0 <= i < |xs| :: TimeToEffect(xs[i]) <= m
  {
    if xs == [] then TimeToEffect(c)
    else
      var m, t := Slowest(xs[..|xs| - 1], c), TimeToEffect(xs[|xs| - 1]);
      if m < t then t else m
  }

  predicate StableSortOf(r: seq<Candidate>, xs: seq<Candidate>, n: nat) {
    |r| == |xs| && BySpeed(r) && multiset(r) == multiset(xs) && OfSpeed(r, n) == OfSpeed(xs, n)
  }

  lemma StableStep(r: seq<Candidate>, init: seq<Candidate>, last: Candidate, n: nat)
    requires StableSortOf(r, init, n)
    ensures StableSortOf(InsertLate(r, last), init + [last], n)
  {
    InsertLateBag(r, last);
    InsertLateOrdered(r, last, Slowest(r, last));
    InsertLateStable(r, last, n);
    OfSpeedSnoc(init, last, n);
  }

  /** The sort is a permutation in order of speed, and stable: candidates of equal
      speed keep the order the model gave them. */
  lemma {:induction false} StableSortFacts(xs: seq<Candidate>, n: nat)
    ensures StableSortOf(StableSorted(xs), xs, n)
  {
    if xs == [] {
    } else {
      var init, last := xs[..|xs| - 1], xs[|xs| - 1];
      StableSortFacts(init, n);
      StableStep(StableSorted(init), init, last, n);
      assert xs == init + [last];
    }
  }

  // ---- ranking ------------------------------------------------------------

  function Numbered(xs: seq<Candidate>): seq<Candidate> {
    seq(|xs|, i requires 0 <= i < |xs| => xs[i].(rank := i + 1))
  }

  function RankedOf(cands: seq<Candidate>, accelerating: bool): seq<Candidate> {
    Numbered(if accelerating then StableSorted(cands) else cands)
  }

  /** Rank: clone, stable sort when the signal accelerates, stamp positions. */
  method Rank(cands: seq<Candidate>, accelerating: bool) returns (ranked: seq<Candidate>)
    ensures ranked == RankedOf(cands, accelerating)
  {
    ranked := cands;
    if accelerating {
      ranked := [];
      var i := 0;
      while i < |cands|
        invariant 0 <= i <= |cands|
        invariant ranked == StableSorted(cands[..i])
      {
        assert cands[..i + 1][..|cands[..i + 1]| - 1] == cands[..i];
        ranked := InsertLate(ranked, cands[i]);
        i := i + 1;
      }
      assert cands[..i] == cands;
    }
    ghost var order := ranked;
    var i := 0;
    while i < |ranked|
      invariant 0 <= i <= |ranked| == |order|
      invariant forall j | 0 <= j < i :: ranked[j] == order[j].(rank := j + 1)
      invariant forall j | i <= j < |ranked| :: ranked[j] == order[j]
    {
      ranked := ranked[i := ranked[i].(rank := i + 1)];
      i := i + 1;
    }
  }

  /** Whatever IDs the model chose, duplicate or empty, looking up the recommended
      ID yields the candidate ranked first. */
  lemma RecommendedIsFirst(ranked: seq<Candidate>)
    requires ranked != []
    ensures FirstById(ranked, ranked[0].id) == Some(ranked[0])
  {
  }

  /** Candidates of one speed stay as they are: there is nothing to reorder. */
  lemma {:induction false} OneSpeedStays(xs: seq<Candidate>, t: nat)
    requires forall i | 0 <= i < |xs| :: TimeToEffect(xs[i]) == t
    ensures StableSorted(xs) == xs
  {
    if xs == [] {
    } else {
      OneSpeedStays(xs[..|xs| - 1], t);
      assert xs == xs[..|xs| - 1] + [xs[|xs| - 1]];
    }
  }

  lemma LoneRanked(c: Candidate, accelerating: bool)
    ensures RankedOf([c], accelerating) == [c.(rank := 1)]
  {
    OneSpeedStays([c], TimeToEffect(c));
    assert Numbered([c]) == [c.(rank := 1)];
  }

  /** Ranking only reorders and numbers. */
  lemma RankedMember(cands: seq<Candidate>, accelerating: bool, i: nat)
    requires i < |RankedOf(cands, accelerating)|
    ensures |RankedOf(cands, accelerating)| == |cands|
    ensures var c := RankedOf(cands, accelerating)[i];
            c.rank == i + 1 && exists j | 0 <= j < |cands| :: c == cands[j].(rank := i + 1)
  {
    StableSortFacts(cands, 0);
    var order := if accelerating then StableSorted(cands) else cands;
    assert order[i] in multiset(order);
    assert order[i] in multiset(cands);
    assert order[i] in cands;
    var j :| 0 <= j < |cands| && cands[j] == order[i];
    assert RankedOf(cands, accelerating)[i] == cands[j].(rank := i + 1);
  }
}
