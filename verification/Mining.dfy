/** Joining outcomes to the sets they answer, and accounting for every incident
    (internal/clank/corpus.go:27-84, 126-139, internal/corpus/mine.go:160-181). */
module Mining {
  import opened Boundary
  import opened CaseBase
  import opened Corpus
  import Click
  import L = Ledger
  import R = Replay
  import Seqs

  // ---- the join -----------------------------------------------------------

  predicate Qualifies(s: ProposalSet, at: Time) {
    s.status.Some? && s.status.value.observedAt <= at
  }

  /** latestSetBefore: the latest qualifying set; among equals the first. */
  function LatestBefore(sets: seq<ProposalSet>, at: Time): (r: Option<ProposalSet>)
    ensures r.Some? ==> Qualifies(r.value, at)
  {
    if sets == [] then None
    else
      var best, s := LatestBefore(sets[..|sets| - 1], at), sets[|sets| - 1];
      if Qualifies(s, at) && (best.None? || s.status.value.observedAt > best.value.status.value.observedAt) then Some(s) else best
  }

  method LatestSetBefore(sets: seq<ProposalSet>, at: Time) returns (best: Option<ProposalSet>)
    ensures best == LatestBefore(sets, at)
  {
    best := None;
    var i := 0;
    while i < |sets|
      invariant 0 <= i <= |sets|
      invariant best == LatestBefore(sets[..i], at)
    {
      assert sets[..i + 1][..|sets[..i + 1]| - 1] == sets[..i];
      if sets[i].status.Some? && sets[i].status.value.observedAt <= at {
        if best.None? || sets[i].status.value.observedAt > best.value.status.value.observedAt {
          best := Some(sets[i]);
        }
      }
      i := i + 1;
    }
    assert sets[..i] == sets;
  }

  function Group(sets: seq<ProposalSet>, fp: string): seq<ProposalSet> {
    if sets == [] then []
    else Group(sets[..|sets| - 1], fp) + if sets[|sets| - 1].signalRef == fp then [sets[|sets| - 1]] else []
  }

  function JoinOf(sets: seq<ProposalSet>, o: Outcome): Option<ProposalSet> {
    LatestBefore(Group(sets, o.signalRef), o.executedAt)
  }

  lemma LatestSnoc(sets: seq<ProposalSet>, s: ProposalSet, at: Time)
    ensures LatestBefore(sets + [s], at)
         == if Qualifies(s, at) && (LatestBefore(sets, at).None?
                                    || s.status.value.observedAt > LatestBefore(sets, at).value.status.value.observedAt)
            then Some(s) else LatestBefore(sets, at)
  {
    assert (sets + [s])[..|sets|] == sets;
  }

  /** An outcome joins the latest set of its own fingerprint that had been observed
      by then; it joins none iff there is none. */
  lemma {:induction false} JoinMeaning(sets: seq<ProposalSet>, o: Outcome, i: nat)
    requires i < |sets| && sets[i].signalRef == o.signalRef && Qualifies(sets[i], o.executedAt)
    ensures var r := JoinOf(sets, o);
            r.Some? && r.value.signalRef == o.signalRef && r.value in sets
            && sets[i].status.value.observedAt <= r.value.status.value.observedAt
  {
    var init, last := sets[..|sets| - 1], sets[|sets| - 1];
    assert sets == init + [last];
    if last.signalRef == o.signalRef {
      LatestSnoc(Group(init, o.signalRef), last, o.executedAt);
    } else {
      assert Group(init, o.signalRef) + [] == Group(init, o.signalRef);
    }
    if i < |init| {
      JoinMeaning(init, o, i);
    } else if JoinOf(init, o).Some? {
      JoinMember(init, o);
    }
  }

  lemma {:induction false} JoinMember(sets: seq<ProposalSet>, o: Outcome)
    requires JoinOf(sets, o).Some?
    ensures JoinOf(sets, o).value in sets && JoinOf(sets, o).value.signalRef == o.signalRef
  {
    if sets == [] {
    } else {
      var init, last := sets[..|sets| - 1], sets[|sets| - 1];
      if last.signalRef == o.signalRef {
        LatestSnoc(Group(init, o.signalRef), last, o.executedAt);
      } else {
        assert Group(init, o.signalRef) + [] == Group(init, o.signalRef);
      }
      if JoinOf(sets, o) == JoinOf(init, o) {
        JoinMember(init, o);
      }
    }
  }

  // ---- the join against the live match ------------------------------------

  /** The sets a stream published, in order. */
  function Published(ms: seq<R.Message>): seq<ProposalSet> {
    if ms == [] then []
    else
      var m := ms[|ms| - 1];
      Published(ms[..|ms| - 1]) + if m.ProposalMsg? then [m.ps] else []
  }

  /** The same set, whatever has happened to its status since. */
  predicate SameSet(a: ProposalSet, b: ProposalSet) {
    a == b.(status := a.status)
  }

  predicate Records(ledger: seq<L.Recorded>, published: seq<ProposalSet>) {
    |ledger| == |published| && forall i | 0 <= i < |ledger| :: SameSet(ledger[i].set_, published[i])
  }

  lemma SettleRecords(ledger: seq<L.Recorded>, published: seq<ProposalSet>, r: L.Ruling)
    requires Records(ledger, published)
    ensures Records(L.Settle(ledger, r), published)
  {
  }

  /** A replayed ledger is the published sets, up to their statuses. */
  lemma {:induction false} ReplayRecords(ms: seq<R.Message>)
    ensures Records(R.ReplaySets(ms), Published(ms))
  {
    if ms == [] {
    } else {
      var init, m := ms[..|ms| - 1], ms[|ms| - 1];
      ReplayRecords(init);
      match m {
        case ProposalMsg(_, _) =>
        case OutcomeMsg(_, o) => SettleRecords(R.ReplaySets(init), Published(init), L.ByOutcome(o));
        case DeclineMsg(_, fp, at) => SettleRecords(R.ReplaySets(init), Published(init), L.ByDecline(fp, at));
      }
    }
  }

  /** `i` is the first set of its fingerprint. */
  predicate IsFirstOf(sets: seq<ProposalSet>, fp: string, i: int) {
    0 <= i < |sets| && sets[i].signalRef == fp && forall j | 0 <= j < i :: sets[j].signalRef != fp
  }

  /** Every set of the fingerprint carries the one instant `t`, as published sets
      carry the zero time: nobody has ruled on them yet. */
  predicate ObservedAll(sets: seq<ProposalSet>, fp: string, t: Time) {
    forall i | 0 <= i < |sets| && sets[i].signalRef == fp ::
      sets[i].status.Some? && sets[i].status.value.observedAt == t
  }

  /** With equal instants the join answers with the FIRST set of the fingerprint. */
  lemma {:induction false} EqualInstantsJoinFirst(sets: seq<ProposalSet>, o: Outcome, t: Time, first: int)
    requires ObservedAll(sets, o.signalRef, t) && t <= o.executedAt && IsFirstOf(sets, o.signalRef, first)
    ensures JoinOf(sets, o) == Some(sets[first])
  {
    var init, last := sets[..|sets| - 1], sets[|sets| - 1];
    Seqs.Unsnoc(sets);
    if first < |init| {
      EqualInstantsJoinFirst(init, o, t, first);
      if last.signalRef == o.signalRef {
        LatestSnoc(Group(init, o.signalRef), last, o.executedAt);
      } else {
        assert Group(init, o.signalRef) + [] == Group(init, o.signalRef);
      }
    } else {
      NoneOf(init, o.signalRef);
      LatestSnoc([], last, o.executedAt);
    }
  }

  lemma {:induction false} NoneOf(sets: seq<ProposalSet>, fp: string)
    requires forall j | 0 <= j < |sets| :: sets[j].signalRef != fp
    ensures Group(sets, fp) == []
  {
    if sets == [] {
    } else {
      NoneOf(sets[..|sets| - 1], fp);
    }
  }

  /** The statuses do not reach the case. */
  lemma SameSetSameCase(a: ProposalSet, b: ProposalSet, o: Outcome)
    requires SameSet(a, b)
    ensures Click.CaseOf(a, o) == Click.CaseOf(b, o)
  {
  }

  predicate DistinctRuns(sets: seq<ProposalSet>) {
    forall i, j | 0 <= i < j < |sets| :: sets[i].runId != sets[j].runId
  }

  /** The live match is the newest open set.  So the mined case of an outcome is the
      one learned from it exactly when the set that answered was the first its
      fingerprint ever published. */
  lemma MinedIsLearnedIff(ms: seq<R.Message>, o: Outcome, t: Time, first: int, k: nat)
    requires DistinctRuns(Published(ms)) && ObservedAll(Published(ms), o.signalRef, t) && t <= o.executedAt
    requires IsFirstOf(Published(ms), o.signalRef, first)
    requires L.NewestOpen(R.ReplaySets(ms), o.signalRef) == Some(k)
    ensures var mined, learned := JoinOf(Published(ms), o), L.SettleAnswer(R.ReplaySets(ms), L.ByOutcome(o));
            && mined.Some? && learned.Some?
            && (Click.CaseOf(mined.value, o) == Click.CaseOf(learned.value, o) <==> first == k)
  {
    ReplayRecords(ms);
    EqualInstantsJoinFirst(Published(ms), o, t, first);
    var ledger := R.ReplaySets(ms);
    SameSetSameCase(L.Ruled(ledger[k], L.ByOutcome(o)).set_, Published(ms)[k], o);
    assert SameSet(ledger[k].set_, Published(ms)[k]);
    if first != k {
      assert Published(ms)[first].runId != Published(ms)[k].runId;
    }
  }

  /** So they part on every stream that publishes a fingerprint a second time: the
      ledger answers with the new set, the join still with the first. */
  lemma RepublishedIsMinedAsFirst(ms: seq<R.Message>, stamp: Time, b: ProposalSet, o: Outcome, t: Time, first: int)
    requires IsFirstOf(Published(ms), o.signalRef, first) && b.signalRef == o.signalRef && t <= o.executedAt
    requires b.status.Some? && L.IsOpen(b.status.value.phase)
    requires DistinctRuns(Published(ms) + [b]) && ObservedAll(Published(ms) + [b], o.signalRef, t)
    ensures var ms' := ms + [R.ProposalMsg(stamp, b)];
            var mined, learned := JoinOf(Published(ms'), o), L.SettleAnswer(R.ReplaySets(ms'), L.ByOutcome(o));
            mined.Some? && learned.Some? && Click.CaseOf(mined.value, o) != Click.CaseOf(learned.value, o)
  {
    var ms' := ms + [R.ProposalMsg(stamp, b)];
    Seqs.Front(ms, R.ProposalMsg(stamp, b));
    assert Published(ms') == Published(ms) + [b];
    assert R.ReplaySets(ms') == R.ReplaySets(ms) + [L.Recorded(b, stamp)];
    ReplayRecords(ms);
    assert L.Answers(R.ReplaySets(ms')[|Published(ms)|], o.signalRef);
    MinedIsLearnedIff(ms', o, t, first, |Published(ms)|);
  }

  function Joined(sets: seq<ProposalSet>, outcomes: seq<Outcome>): seq<Case> {
    if outcomes == [] then []
    else
      var o := outcomes[|outcomes| - 1];
      Joined(sets, outcomes[..|outcomes| - 1])
      + match JoinOf(sets, o) case None => [] case Some(s) => [Click.CaseOf(s, o)]
  }

  function Lookup(groups: map<string, seq<ProposalSet>>, fp: string): seq<ProposalSet> {
    if fp in groups then groups[fp] else []
  }

  method GroupSets(sets: seq<ProposalSet>) returns (groups: map<string, seq<ProposalSet>>)
    ensures forall fp :: Lookup(groups, fp) == Group(sets, fp)
  {
    groups := map[];
    var i := 0;
    while i < |sets|
      invariant 0 <= i <= |sets|
      invariant forall fp :: Lookup(groups, fp) == Group(sets[..i], fp)
    {
      assert sets[..i + 1][..|sets[..i + 1]| - 1] == sets[..i];
      var fp := sets[i].signalRef;
      groups := groups[fp := Lookup(groups, fp) + [sets[i]]];
      i := i + 1;
    }
    assert sets[..i] == sets;
  }

  method JoinAll(sets: seq<ProposalSet>, outcomes: seq<Outcome>) returns (cases: seq<Case>)
    ensures cases == Joined(sets, outcomes)
  {
    var groups := GroupSets(sets);
    cases := [];
    var j := 0;
    while j < |outcomes|
      invariant 0 <= j <= |outcomes|
      invariant cases == Joined(sets, outcomes[..j])
    {
      var o := outcomes[j];
      assert outcomes[..j + 1][..|outcomes[..j + 1]| - 1] == outcomes[..j];
      var s := LatestSetBefore(Lookup(groups, o.signalRef), o.executedAt);
      if s.Some? {
        var c := Click.NewCase(s.value, o);
        cases := cases + [c];
      }
      j := j + 1;
    }
    assert outcomes[..j] == outcomes;
  }

  method MineCorpus(sets: seq<ProposalSet>, outcomes: seq<Outcome>) returns (r: seq<Case>)
    ensures ByTime(r) && multiset(r) == multiset(Collapsed(Joined(sets, outcomes)))
  {
    var cases := JoinAll(sets, outcomes);
    var collapsed := CollapseCases(cases);
    r := SortByTime(collapsed);
  }

  // ---- every incident accounted for ---------------------------------------

  function OutcomeKey(o: Outcome): Key {
    Key(o.signalRef, o.decisionRef)
  }

  function Keys(outcomes: seq<Outcome>): set<Key> {
    set i | 0 <= i < |outcomes| :: OutcomeKey(outcomes[i])
  }

  function SettledKeys(outcomes: seq<Outcome>): set<Key> {
    set i | 0 <= i < |outcomes| && outcomes[i].result != Applied :: OutcomeKey(outcomes[i])
  }

  method InFlightCount(outcomes: seq<Outcome>) returns (n: nat)
    ensures n == |Keys(outcomes) - SettledKeys(outcomes)|
  {
    var seen: set<Key>, settled: set<Key> := {}, {};
    var i := 0;
    while i < |outcomes|
      invariant 0 <= i <= |outcomes|
      invariant seen == set j | 0 <= j < i :: OutcomeKey(outcomes[j])
      invariant settled == set j | 0 <= j < i && outcomes[j].result != Applied :: OutcomeKey(outcomes[j])
    {
      seen := seen + {OutcomeKey(outcomes[i])};
      if outcomes[i].result != Applied {
        settled := settled + {OutcomeKey(outcomes[i])};
      }
      i := i + 1;
    }
    n := CountOutside(seen, settled);
  }

  /** The counting loop over the keys seen. */
  method CountOutside(seen: set<Key>, settled: set<Key>) returns (n: nat)
    ensures n == |seen - settled|
  {
    n := 0;
    var todo := seen;
    while todo != {}
      invariant todo <= seen
      invariant n == |(seen - todo) - settled|
      decreases |todo|
    {
      var k :| k in todo;
      ghost var before := (seen - todo) - settled;
      var rest := todo - {k};
      if k !in settled {
        assert (seen - rest) - settled == before + {k};
        n := n + 1;
      } else {
        assert (seen - rest) - settled == before;
      }
      todo := rest;
    }
    assert (seen - todo) - settled == seen - settled;
  }

  function CaseKeys(cases: seq<Case>): set<Key> {
    set i | 0 <= i < |cases| && SettledCase(cases[i]) :: KeyOf(cases[i])
  }

  lemma {:induction false} KeySetSize(cases: seq<Case>)
    requires OnePerKey(cases) && AllSettled(cases)
    ensures |CaseKeys(cases)| == |cases|
  {
    if cases == [] {
      assert CaseKeys(cases) == {};
    } else {
      var init, last := cases[..|cases| - 1], cases[|cases| - 1];
      KeySetSize(init);
      CaseKeysSnoc(init, last);
      assert cases == init + [last];
      forall i | 0 <= i < |init| ensures KeyOf(init[i]) != KeyOf(last) {
        assert KeyOf(cases[i]) != KeyOf(cases[|cases| - 1]);
      }
    }
  }

  lemma CaseKeysSnoc(cases: seq<Case>, c: Case)
    ensures CaseKeys(cases + [c]) == CaseKeys(cases) + if SettledCase(c) then {KeyOf(c)} else {}
  {
    var all := cases + [c];
    forall k | k in CaseKeys(cases) ensures k in CaseKeys(all) {
      var i :| 0 <= i < |cases| && SettledCase(cases[i]) && KeyOf(cases[i]) == k;
      assert all[i] == cases[i];
    }
    if SettledCase(c) {
      assert all[|cases|] == c;
      assert KeyOf(c) in CaseKeys(all);
    }
    forall k | k in CaseKeys(all) ensures k in CaseKeys(cases) + if SettledCase(c) then {KeyOf(c)} else {} {
      var i :| 0 <= i < |all| && SettledCase(all[i]) && KeyOf(all[i]) == k;
      assert i < |cases| ==> all[i] == cases[i];
    }
  }

  /** One collapsed case per key that has settled. */
  lemma CollapsedSize(cases: seq<Case>)
    ensures |Collapsed(cases)| == |CaseKeys(cases)|
  {
    var out := Collapsed(cases);
    forall k ensures k in CaseKeys(out) <==> k in CaseKeys(cases) {
      CollapsedKeepsBest(cases, k);
      HasBest(cases, k);
      HasBest(out, k);
    }
    assert CaseKeys(out) == CaseKeys(cases);
    CollapsedKeepsBest(cases, Key("", ""));
    KeySetSize(out);
  }

  lemma HasBest(cases: seq<Case>, k: Key)
    ensures k in CaseKeys(cases) <==> BestOf(cases, k).Some?
  {
    if k in CaseKeys(cases) {
      var i :| 0 <= i < |cases| && SettledCase(cases[i]) && KeyOf(cases[i]) == k;
      BestIsLatest(cases, k, i);
    }
    if BestOf(cases, k).Some? {
      BestIsMember(cases, k);
      var i :| 0 <= i < |cases| && cases[i] == BestOf(cases, k).value;
    }
  }

  lemma {:induction false} JoinedKeysWithin(sets: seq<ProposalSet>, outcomes: seq<Outcome>)
    ensures CaseKeys(Joined(sets, outcomes)) <= SettledKeys(outcomes)
  {
    if outcomes == [] {
    } else {
      var init, o := outcomes[..|outcomes| - 1], outcomes[|outcomes| - 1];
      JoinedKeysWithin(sets, init);
      SettledKeysSnoc(init, o);
      assert outcomes == init + [o];
      if JoinOf(sets, o).Some? {
        CaseKeysSnoc(Joined(sets, init), Click.CaseOf(JoinOf(sets, o).value, o));
      } else {
        assert Joined(sets, init) + [] == Joined(sets, init);
      }
    }
  }

  lemma SettledKeysSnoc(outcomes: seq<Outcome>, o: Outcome)
    ensures SettledKeys(outcomes + [o]) == SettledKeys(outcomes) + if o.result != Applied then {OutcomeKey(o)} else {}
  {
    var all := outcomes + [o];
    forall k | k in SettledKeys(outcomes) ensures k in SettledKeys(all) {
      var i :| 0 <= i < |outcomes| && outcomes[i].result != Applied && OutcomeKey(outcomes[i]) == k;
      assert all[i] == outcomes[i];
    }
    if o.result != Applied {
      assert all[|outcomes|] == o;
      assert OutcomeKey(o) in SettledKeys(all);
    }
    forall k | k in SettledKeys(all) ensures k in SettledKeys(outcomes) + if o.result != Applied then {OutcomeKey(o)} else {} {
      var i :| 0 <= i < |all| && all[i].result != Applied && OutcomeKey(all[i]) == k;
      assert i < |outcomes| ==> all[i] == outcomes[i];
    }
  }

  /** The incident has a settled outcome that joins a set. */
  predicate SettledJoins(sets: seq<ProposalSet>, outcomes: seq<Outcome>, k: Key) {
    exists i | 0 <= i < |outcomes| ::
      outcomes[i].result != Applied && OutcomeKey(outcomes[i]) == k && JoinOf(sets, outcomes[i]).Some?
  }

  lemma JoinsSnoc(sets: seq<ProposalSet>, outcomes: seq<Outcome>, o: Outcome, k: Key)
    ensures SettledJoins(sets, outcomes + [o], k) <==>
            SettledJoins(sets, outcomes, k) || (o.result != Applied && OutcomeKey(o) == k && JoinOf(sets, o).Some?)
  {
    var all := outcomes + [o];
    assert all[|outcomes|] == o && forall i | 0 <= i < |outcomes| :: all[i] == outcomes[i];
    if SettledJoins(sets, outcomes, k) {
      var i :| 0 <= i < |outcomes| && outcomes[i].result != Applied && OutcomeKey(outcomes[i]) == k
               && JoinOf(sets, outcomes[i]).Some?;
      assert all[i] == outcomes[i];
    }
  }

  lemma {:induction false} MinedKeysMeaning(sets: seq<ProposalSet>, outcomes: seq<Outcome>, k: Key)
    ensures k in CaseKeys(Joined(sets, outcomes)) <==> SettledJoins(sets, outcomes, k)
  {
    if outcomes == [] {
    } else {
      var init, o := outcomes[..|outcomes| - 1], outcomes[|outcomes| - 1];
      MinedKeysMeaning(sets, init, k);
      Seqs.Unsnoc(outcomes);
      JoinsSnoc(sets, init, o, k);
      if JoinOf(sets, o).Some? {
        CaseKeysSnoc(Joined(sets, init), Click.CaseOf(JoinOf(sets, o).value, o));
      } else {
        assert Joined(sets, init) + [] == Joined(sets, init);
      }
    }
  }

  lemma SizesAddUpIff<T>(all: set<T>, settled: set<T>, mined: set<T>)
    requires mined <= settled <= all
    ensures |mined| + |all - settled| == |all| <==> mined == settled
  {
    assert all == settled + (all - settled);
    assert settled == mined + (settled - mined);
    if |settled - mined| == 0 {
      assert settled - mined == {};
      assert mined == settled;
    }
  }

  /** Incidents = mined cases + in-flight ones, iff every incident that settled has
      some settled outcome that joins a set. */
  lemma PopulationsAddUpIff(sets: seq<ProposalSet>, outcomes: seq<Outcome>)
    ensures |Collapsed(Joined(sets, outcomes))| + |Keys(outcomes) - SettledKeys(outcomes)| == |Keys(outcomes)|
       <==> forall k | k in SettledKeys(outcomes) :: SettledJoins(sets, outcomes, k)
  {
    CollapsedSize(Joined(sets, outcomes));
    JoinedKeysWithin(sets, outcomes);
    var all, settled, mined := Keys(outcomes), SettledKeys(outcomes), CaseKeys(Joined(sets, outcomes));
    assert settled <= all;
    SizesAddUpIff(all, settled, mined);
    forall k ensures k in mined <==> SettledJoins(sets, outcomes, k) {
      MinedKeysMeaning(sets, outcomes, k);
    }
  }

  /** In particular when every outcome joins. */
  lemma AllJoinAddsUp(sets: seq<ProposalSet>, outcomes: seq<Outcome>)
    requires forall i | 0 <= i < |outcomes| :: JoinOf(sets, outcomes[i]).Some?
    ensures |Collapsed(Joined(sets, outcomes))| + |Keys(outcomes) - SettledKeys(outcomes)| == |Keys(outcomes)|
  {
    PopulationsAddUpIff(sets, outcomes);
    forall k | k in SettledKeys(outcomes) ensures SettledJoins(sets, outcomes, k) {
      var i :| 0 <= i < |outcomes| && outcomes[i].result != Applied && OutcomeKey(outcomes[i]) == k;
      assert JoinOf(sets, outcomes[i]).Some?;
    }
  }

  // ---- floor support ------------------------------------------------------

  datatype FloorSupport = FloorSupport(admitted: nat, admittedWins: nat, refused: nat, refusedWins: nat)

  predicate Graded(c: Case, failureClass: string) {
    c.failureClass == failureClass && c.result != Rendered && c.result != Applied
  }

  function SupportOf(cases: seq<Case>, failureClass: string, floor: real): FloorSupport {
    if cases == [] then FloorSupport(0, 0, 0, 0)
    else
      var fs, c := SupportOf(cases[..|cases| - 1], failureClass, floor), cases[|cases| - 1];
      var win := if c.result == Success then 1 else 0;
      if !Graded(c, failureClass) then fs
      else if c.confidence >= floor then fs.(admitted := fs.admitted + 1, admittedWins := fs.admittedWins + win)
      else fs.(refused := fs.refused + 1, refusedWins := fs.refusedWins + win)
  }

  method FloorSupportFor(cases: seq<Case>, failureClass: string, floor: real) returns (fs: FloorSupport)
    ensures fs == SupportOf(cases, failureClass, floor)
  {
    fs := FloorSupport(0, 0, 0, 0);
    var i := 0;
    while i < |cases|
      invariant 0 <= i <= |cases|
      invariant fs == SupportOf(cases[..i], failureClass, floor)
    {
      assert cases[..i + 1][..|cases[..i + 1]| - 1] == cases[..i];
      var c := cases[i];
      if c.failureClass == failureClass && c.result != Rendered && c.result != Applied {
        var win := if c.result == Success then 1 else 0;
        if c.confidence >= floor {
          fs := fs.(admitted := fs.admitted + 1, admittedWins := fs.admittedWins + win);
        } else {
          fs := fs.(refused := fs.refused + 1, refusedWins := fs.refusedWins + win);
        }
      }
      i := i + 1;
    }
    assert cases[..i] == cases;
  }

  /** Raising a floor only moves cases from admitted to refused: totals and wins are
      conserved, and wins never exceed their side. */
  lemma {:induction false} RaisingTheFloor(cases: seq<Case>, failureClass: string, low: real, high: real)
    requires low <= high
    ensures var a, b := SupportOf(cases, failureClass, low), SupportOf(cases, failureClass, high);
            && a.admitted + a.refused == b.admitted + b.refused
            && a.admittedWins + a.refusedWins == b.admittedWins + b.refusedWins
            && b.admitted <= a.admitted && b.admittedWins <= a.admittedWins
            && a.admittedWins <= a.admitted && a.refusedWins <= a.refused
  {
    if cases == [] {
    } else {
      RaisingTheFloor(cases[..|cases| - 1], failureClass, low, high);
    }
  }
}
