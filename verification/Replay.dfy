/** Restart replay (internal/clank/rebuild.go).  A live ledger records every
    formed set, prunes, and absorbs outcomes through Click; the rebuilt one sees
    only published sets, outcomes and declines, in stream order, and skips
    Absorb's two checks.  This module proves exactly when the two stay in step. */
module Replay {
  import opened Boundary
  import Seqs
  import opened Ledger
  import opened Click
  import CB = CaseBase

  /** One thing that happened, in stream order.  `stamp` is the stream's own
      timestamp; `now` and `at` are the two clock reads Record made. */
  datatype Event =
    | Formed(ps: ProposalSet, now: Time, at: Time, stamp: Time)
    | Landed(o: Outcome, stamp: Time)
    | RuledAgainst(fingerprint: string, evaluatedAt: Time, stamp: Time)

  datatype Message =
    | ProposalMsg(stamp: Time, ps: ProposalSet)
    | OutcomeMsg(stamp: Time, o: Outcome)
    | DeclineMsg(stamp: Time, fingerprint: string, evaluatedAt: Time)

  /** A ledger's list and every case ever handed on to the case base. */
  datatype State = State(sets: seq<Recorded>, learned: seq<CB.Case>)

  predicate PassedGate(ps: ProposalSet) {
    ps.gate.Some? && ps.gate.value.passed
  }

  /** What the reason loop guarantees of a set it records: it carries a status,
      and that status is open exactly when the gate passed (and so published it). */
  predicate EngineFormed(ps: ProposalSet) {
    ps.status.Some? && (IsOpen(ps.status.value.phase) <==> PassedGate(ps))
  }

  predicate WellFormed(h: seq<Event>) {
    forall i | 0 <= i < |h| :: h[i].Formed? ==> EngineFormed(h[i].ps)
  }

  // ---- the two machines ---------------------------------------------------

  function LiveStep(s: State, e: Event, retention: int): State {
    match e
    case Formed(ps, now, at, _) =>
      s.(sets := Prune(s.sets, now - EffectiveRetention(retention)) + [Recorded(ps, at)])
    case Landed(o, _) =>
      State(AbsorbSets(s.sets, o), s.learned + match AbsorbCase(s.sets, o)
                                               case None => []
                                               case Some(c) => [c])
    case RuledAgainst(fp, at, _) =>
      s.(sets := Settle(s.sets, ByDecline(fp, at)))
  }

  function LiveRun(s: State, h: seq<Event>, retention: int): State {
    if h == [] then s
    else LiveStep(LiveRun(s, h[..|h| - 1], retention), h[|h| - 1], retention)
  }

  /** What an event leaves on the stream: an ungated set leaves nothing. */
  function Emitted(e: Event): seq<Message> {
    match e
    case Formed(ps, _, _, stamp) => if PassedGate(ps) then [ProposalMsg(stamp, ps)] else []
    case Landed(o, stamp) => [OutcomeMsg(stamp, o)]
    case RuledAgainst(fp, at, stamp) => [DeclineMsg(stamp, fp, at)]
  }

  function Stream(h: seq<Event>): seq<Message> {
    if h == [] then [] else Stream(h[..|h| - 1]) + Emitted(h[|h| - 1])
  }

  /** replayInto: None is a rebuild that fails because a case cannot be traced. */
  function ReplayStep(s: State, m: Message): Option<State> {
    match m
    case ProposalMsg(stamp, ps) => Some(s.(sets := s.sets + [Recorded(ps, stamp)]))
    case OutcomeMsg(_, o) =>
      (match SettleAnswer(s.sets, ByOutcome(o))
       case None => Some(s)
       case Some(set_) =>
         if CB.Provenanced(CaseOf(set_, o))
         then Some(State(Settle(s.sets, ByOutcome(o)), s.learned + [CaseOf(set_, o)]))
         else None)
    case DeclineMsg(_, fp, at) => Some(s.(sets := Settle(s.sets, ByDecline(fp, at))))
  }

  function ReplayRun(ms: seq<Message>): Option<State> {
    if ms == [] then Some(State([], []))
    else match ReplayRun(ms[..|ms| - 1])
      case None => None
      case Some(s) => ReplayStep(s, ms[|ms| - 1])
  }

  function ReplayAll(s: State, ms: seq<Message>): Option<State>
    requires |ms| <= 1
  {
    if ms == [] then Some(s) else ReplayStep(s, ms[0])
  }

  lemma ReplayRunConcat(ms: seq<Message>, more: seq<Message>)
    requires |more| <= 1
    ensures ReplayRun(ms + more) == match ReplayRun(ms) case None => None case Some(s) => ReplayAll(s, more)
  {
    if more == [] {
      assert ms + more == ms;
    } else {
      assert (ms + more)[..|ms|] == ms;
    }
  }

  // ---- agreement ----------------------------------------------------------

  /** Same sets in the same order; with `exact`, the same stamps too. */
  predicate Matches(a: seq<Recorded>, b: seq<Recorded>, exact: bool) {
    |a| == |b| && forall i | 0 <= i < |a| :: a[i].set_ == b[i].set_ && (exact ==> a[i].at == b[i].at)
  }

  predicate Agree(live: State, rebuilt: Option<State>, exact: bool) {
    && rebuilt.Some?
    && Matches(LiveOf(live.sets), LiveOf(rebuilt.value.sets), exact)
    && live.learned == rebuilt.value.learned
  }

  lemma {:induction false} NewestOpenMatches(a: seq<Recorded>, b: seq<Recorded>, fp: string)
    requires Matches(a, b, false)
    ensures NewestOpen(a, fp) == NewestOpen(b, fp)
  {
    if a == [] {
    } else {
      NewestOpenMatches(a[..|a| - 1], b[..|b| - 1], fp);
    }
  }

  lemma {:induction false} LiveOfMatches(a: seq<Recorded>, b: seq<Recorded>, exact: bool)
    requires Matches(a, b, exact)
    ensures Matches(LiveOf(a), LiveOf(b), exact)
  {
    if a == [] {
    } else {
      LiveOfMatches(a[..|a| - 1], b[..|b| - 1], exact);
    }
  }

  lemma SettleMatchesDirect(a: seq<Recorded>, b: seq<Recorded>, r: Ruling, exact: bool)
    requires Matches(a, b, exact)
    ensures Matches(Settle(a, r), Settle(b, r), exact)
    ensures SettleAnswer(a, r) == SettleAnswer(b, r)
  {
    NewestOpenMatches(a, b, Target(r));
  }

  /** A ruling keeps matching live views matching, and answers alike on both. */
  lemma SettleMatches(a: seq<Recorded>, b: seq<Recorded>, r: Ruling, exact: bool)
    requires Matches(LiveOf(a), LiveOf(b), exact)
    ensures Matches(LiveOf(Settle(a, r)), LiveOf(Settle(b, r)), exact)
    ensures SettleAnswer(a, r) == SettleAnswer(b, r)
  {
    SettleOnLive(a, r);
    SettleOnLive(b, r);
    SettleMatchesDirect(LiveOf(a), LiveOf(b), r, exact);
    LiveOfMatches(Settle(LiveOf(a), r), Settle(LiveOf(b), r), exact);
  }

  /** Recording on one side and seeding on the other keeps the live views matching. */
  lemma RecordMatches(a: seq<Recorded>, b: seq<Recorded>, cutoff: Time, ps: ProposalSet, at: Time, stamp: Time, exact: bool)
    requires Matches(LiveOf(a), LiveOf(b), exact) && (exact ==> at == stamp)
    ensures Matches(LiveOf(Prune(a, cutoff) + [Recorded(ps, at)]), LiveOf(b + [Recorded(ps, stamp)]), exact)
    ensures IsClosed(Recorded(ps, at)) ==> Matches(LiveOf(Prune(a, cutoff) + [Recorded(ps, at)]), LiveOf(b), exact)
  {
    PruneKeepsLive(a, cutoff);
    LiveOfSnoc(Prune(a, cutoff), Recorded(ps, at));
    LiveOfSnoc(b, Recorded(ps, stamp));
    MatchesSnoc(LiveOf(a), LiveOf(b), Recorded(ps, at), Recorded(ps, stamp), exact);
  }

  lemma MatchesSnoc(a: seq<Recorded>, b: seq<Recorded>, x: Recorded, y: Recorded, exact: bool)
    requires Matches(a, b, exact) && x.set_ == y.set_ && (exact ==> x.at == y.at)
    ensures Matches(a + [x], b + [y], exact)
  {
  }

  /** An outcome the live path would have let through, leaving a traceable case. */
  predicate Absorbable(o: Outcome) {
    Admissible(o) && o.id != "" && o.signalRef != ""
  }

  /** Replay's blind spot: an answered outcome Absorb would not have learned from. */
  predicate Slips(sets: seq<Recorded>, e: Event) {
    e.Landed? && NewestOpen(sets, e.o.signalRef).Some? && !Absorbable(e.o)
  }

  predicate StampHonest(e: Event) {
    e.Formed? && PassedGate(e.ps) ==> e.at == e.stamp
  }

  lemma FormedStep(live: State, rep: State, e: Event, retention: int, exact: bool)
    requires Agree(live, Some(rep), exact) && e.Formed? && EngineFormed(e.ps) && (exact ==> StampHonest(e))
    ensures Agree(LiveStep(live, e, retention), ReplayAll(rep, Emitted(e)), exact)
  {
    RecordMatches(live.sets, rep.sets, e.now - EffectiveRetention(retention), e.ps, e.at,
                  if PassedGate(e.ps) then e.stamp else e.at, exact);
  }

  lemma DeclineStep(live: State, rep: State, e: Event, retention: int, exact: bool)
    requires Agree(live, Some(rep), exact) && e.RuledAgainst?
    ensures Agree(LiveStep(live, e, retention), ReplayAll(rep, Emitted(e)), exact)
  {
    SettleMatches(live.sets, rep.sets, ByDecline(e.fingerprint, e.evaluatedAt), exact);
  }

  /** One event from agreement: the machines agree again iff the event does not slip. */
  lemma AgreeStep(live: State, rep: State, e: Event, retention: int, exact: bool)
    requires Agree(live, Some(rep), exact)
    requires e.Formed? ==> EngineFormed(e.ps)
    requires exact ==> StampHonest(e)
    ensures Agree(LiveStep(live, e, retention), ReplayAll(rep, Emitted(e)), exact) <==> !Slips(live.sets, e)
  {
    if e.Formed? {
      FormedStep(live, rep, e, retention, exact);
    } else if e.Landed? {
      LandedStep(live, rep, e.o, exact, e, retention);
    } else {
      DeclineStep(live, rep, e, retention, exact);
    }
  }

  lemma LandedStep(live: State, rep: State, o: Outcome, exact: bool, e: Event, retention: int)
    requires Agree(live, Some(rep), exact) && e.Landed? && e.o == o
    ensures Agree(LiveStep(live, e, retention), ReplayAll(rep, Emitted(e)), exact) <==> !Slips(live.sets, e)
  {
    SettleMatches(live.sets, rep.sets, ByOutcome(o), exact);
    var replayed := ReplayStep(rep, OutcomeMsg(e.stamp, o));
    match SettleAnswer(live.sets, ByOutcome(o)) {
      case None =>
      case Some(s) =>
        if Absorbable(o) {
          assert CB.Provenanced(CaseOf(s, o));
        } else if CB.Provenanced(CaseOf(s, o)) {
          assert |replayed.value.learned| == |rep.learned| + 1;
        }
    }
  }

  // ---- whole histories ----------------------------------------------------

  predicate AllHonest(h: seq<Event>) {
    forall i | 0 <= i < |h| :: StampHonest(h[i])
  }

  const EMPTY := State([], [])

  /** The live ledger, started at `start`, and the one rebuilt from the stream of `h`
      alone, after that same history. */
  predicate InStepFrom(start: State, h: seq<Event>, retention: int) {
    Agree(LiveRun(start, h, retention), ReplayRun(Stream(h)), AllHonest(h))
  }

  predicate NeverDivergesFrom(start: State, h: seq<Event>, retention: int) {
    forall k | 0 <= k <= |h| :: InStepFrom(start, h[..k], retention)
  }

  predicate NothingSlipsFrom(start: State, h: seq<Event>, retention: int) {
    forall k | 0 <= k < |h| :: !Slips(LiveRun(start, h[..k], retention).sets, h[k])
  }

  /** "Replay can never diverge": after every prefix of the history the rebuilt
      ledger and the live one agree. */
  predicate NeverDiverges(h: seq<Event>, retention: int) {
    NeverDivergesFrom(EMPTY, h, retention)
  }

  /** The caller-checkable condition: no answered outcome in the history would
      have been turned away by Absorb's checks or by the case base. */
  predicate NothingSlips(h: seq<Event>, retention: int) {
    NothingSlipsFrom(EMPTY, h, retention)
  }

  lemma LiveSnoc(start: State, h: seq<Event>, e: Event, retention: int)
    ensures LiveRun(start, h + [e], retention) == LiveStep(LiveRun(start, h, retention), e, retention)
  {
    Seqs.Front(h, e);
  }

  lemma StreamSnoc(h: seq<Event>, e: Event)
    ensures Stream(h + [e]) == Stream(h) + Emitted(e)
  {
    Seqs.Front(h, e);
  }

  lemma ReplaySnoc(h: seq<Event>, e: Event)
    requires ReplayRun(Stream(h)).Some?
    ensures ReplayRun(Stream(h + [e])) == ReplayAll(ReplayRun(Stream(h)).value, Emitted(e))
  {
    StreamSnoc(h, e);
    ReplayRunConcat(Stream(h), Emitted(e));
  }

  lemma HonestSnoc(h: seq<Event>, e: Event)
    ensures AllHonest(h + [e]) <==> AllHonest(h) && StampHonest(e)
  {
    var longer := h + [e];
    assert longer[|h|] == e && forall i | 0 <= i < |h| :: longer[i] == h[i];
  }

  lemma AgreeWeaker(live: State, rep: State, exact: bool, weaker: bool)
    requires Agree(live, Some(rep), exact) && (weaker ==> exact)
    ensures Agree(live, Some(rep), weaker)
  {
  }

  lemma InStepSnoc(start: State, h: seq<Event>, e: Event, retention: int)
    requires InStepFrom(start, h, retention) && (e.Formed? ==> EngineFormed(e.ps))
    ensures InStepFrom(start, h + [e], retention) <==> !Slips(LiveRun(start, h, retention).sets, e)
  {
    var live, rep := LiveRun(start, h, retention), ReplayRun(Stream(h)).value;
    LiveSnoc(start, h, e, retention);
    ReplaySnoc(h, e);
    HonestSnoc(h, e);
    AgreeWeaker(live, rep, AllHonest(h), AllHonest(h + [e]));
    AgreeStep(live, rep, e, retention, AllHonest(h + [e]));
  }

  lemma SlipsPrefix(start: State, h: seq<Event>, n: nat, retention: int)
    requires n <= |h| && NothingSlipsFrom(start, h, retention)
    ensures NothingSlipsFrom(start, h[..n], retention)
  {
    forall k | 0 <= k < n ensures !Slips(LiveRun(start, h[..n][..k], retention).sets, h[..n][k]) {
      assert h[..n][..k] == h[..k] && h[..n][k] == h[k];
    }
  }

  /** A ledger with nothing open, from which no case has been learned yet. */
  predicate Quiet(s: State) {
    LiveOf(s.sets) == [] && s.learned == []
  }

  lemma QuietIff(start: State, retention: int)
    ensures InStepFrom(start, [], retention) <==> Quiet(start)
  {
  }

  lemma {:induction false} StaysInStep(start: State, h: seq<Event>, retention: int)
    requires WellFormed(h) && Quiet(start) && NothingSlipsFrom(start, h, retention)
    ensures InStepFrom(start, h, retention)
  {
    if h == [] {
      QuietIff(start, retention);
    } else {
      var n := |h| - 1;
      SlipsPrefix(start, h, n, retention);
      StaysInStep(start, h[..n], retention);
      assert !Slips(LiveRun(start, h[..n], retention).sets, h[n]);
      InStepSnoc(start, h[..n], h[n], retention);
      Seqs.Unsnoc(h);
    }
  }

  /** From any state of the live ledger: the ledger rebuilt from what came after stays
      in step at every point iff the live one was quiet there and nothing slips. */
  lemma ReplayFromIff(start: State, h: seq<Event>, retention: int)
    requires WellFormed(h)
    ensures NeverDivergesFrom(start, h, retention) <==> Quiet(start) && NothingSlipsFrom(start, h, retention)
  {
    if Quiet(start) && NothingSlipsFrom(start, h, retention) {
      forall k | 0 <= k <= |h| ensures InStepFrom(start, h[..k], retention) {
        SlipsPrefix(start, h, k, retention);
        StaysInStep(start, h[..k], retention);
      }
    } else if Quiet(start) {
      var k :| 0 <= k < |h| && Slips(LiveRun(start, h[..k], retention).sets, h[k]);
      SlipFallsOut(start, h, k, retention);
    } else {
      assert h[..0] == [];
      QuietIff(start, retention);
    }
  }

  /** The simulation theorem: for every history of formed sets, outcomes and
      declines, replay stays in step at every point iff nothing slips. */
  lemma ReplayNeverDivergesIff(h: seq<Event>, retention: int)
    requires WellFormed(h)
    ensures NeverDiverges(h, retention) <==> NothingSlips(h, retention)
  {
    ReplayFromIff(EMPTY, h, retention);
  }

  lemma SlipBreaksStep(start: State, p: seq<Event>, e: Event, q: seq<Event>, retention: int)
    requires q == p + [e] && (e.Formed? ==> EngineFormed(e.ps)) && Slips(LiveRun(start, p, retention).sets, e)
    ensures !InStepFrom(start, p, retention) || !InStepFrom(start, q, retention)
  {
    if InStepFrom(start, p, retention) {
      InStepSnoc(start, p, e, retention);
    }
  }

  lemma SlipFallsOut(start: State, h: seq<Event>, k: nat, retention: int)
    requires WellFormed(h) && k < |h| && Slips(LiveRun(start, h[..k], retention).sets, h[k])
    ensures !NeverDivergesFrom(start, h, retention)
  {
    assert h[..k + 1] == h[..k] + [h[k]];
    SlipBreaksStep(start, h[..k], h[k], h[..k + 1], retention);
  }

  // ---- conservation -------------------------------------------------------

  /** Sets that came to be open. */
  function Opened(h: seq<Event>): nat {
    if h == [] then 0
    else
      var e := h[|h| - 1];
      Opened(h[..|h| - 1]) + if e.Formed? && PassedGate(e.ps) then 1 else 0
  }

  /** The event ends an open set: an answered decline, or an answered outcome Absorb
      admits whose result is terminal. */
  predicate EndsOne(sets: seq<Recorded>, e: Event) {
    match e
    case Formed(_, _, _, _) => false
    case Landed(o, _) => Admissible(o) && Terminal(o.result) && NewestOpen(sets, o.signalRef).Some?
    case RuledAgainst(fp, _, _) => NewestOpen(sets, fp).Some?
  }

  function Ended(h: seq<Event>, retention: int): nat {
    if h == [] then 0
    else Ended(h[..|h| - 1], retention)
         + if EndsOne(LiveRun(EMPTY, h[..|h| - 1], retention).sets, h[|h| - 1]) then 1 else 0
  }

  lemma FormedCounts(s: State, e: Event, retention: int)
    requires e.Formed? && EngineFormed(e.ps)
    ensures |LiveOf(LiveStep(s, e, retention).sets)| == |LiveOf(s.sets)| + if PassedGate(e.ps) then 1 else 0
  {
    var cutoff := e.now - EffectiveRetention(retention);
    PruneKeepsLive(s.sets, cutoff);
    LiveOfSnoc(Prune(s.sets, cutoff), Recorded(e.ps, e.at));
  }

  lemma LandedCounts(s: State, e: Event, retention: int)
    requires e.Landed?
    ensures |LiveOf(LiveStep(s, e, retention).sets)| == |LiveOf(s.sets)| - if EndsOne(s.sets, e) then 1 else 0
  {
    LiveCount(s.sets, ByOutcome(e.o));
  }

  lemma StepCounts(s: State, e: Event, retention: int)
    requires e.Formed? ==> EngineFormed(e.ps)
    ensures |LiveOf(LiveStep(s, e, retention).sets)| + (if EndsOne(s.sets, e) then 1 else 0)
         == |LiveOf(s.sets)| + if e.Formed? && PassedGate(e.ps) then 1 else 0
  {
    if e.Formed? {
      FormedCounts(s, e, retention);
    } else if e.Landed? {
      LandedCounts(s, e, retention);
    } else {
      LiveCount(s.sets, ByDecline(e.fingerprint, e.evaluatedAt));
    }
  }

  /** Over every history: the sets still open are those that passed their gate, less
      one for each answered decline and each answered terminal outcome. */
  lemma {:induction false} OpenSetsConserved(h: seq<Event>, retention: int)
    requires WellFormed(h)
    ensures |LiveOf(LiveRun(EMPTY, h, retention).sets)| + Ended(h, retention) == Opened(h)
  {
    if h == [] {
    } else {
      OpenSetsConserved(h[..|h| - 1], retention);
      StepCounts(LiveRun(EMPTY, h[..|h| - 1], retention), h[|h| - 1], retention);
    }
  }

  // ---- the retained part of the stream ------------------------------------

  /** The stream keeps two days of messages, so a rebuild sees only those. */
  const STREAM_MAX_AGE := 172_800_000_000_000

  function Retained(ms: seq<Message>, now: Time): seq<Message> {
    if ms == [] then []
    else
      var last := ms[|ms| - 1];
      Retained(ms[..|ms| - 1], now) + if last.stamp >= now - STREAM_MAX_AGE then [last] else []
  }

  predicate InStampOrder(h: seq<Event>) {
    forall i, j | 0 <= i < j < |h| :: h[i].stamp <= h[j].stamp
  }

  /** `n` events are too old for the stream. */
  predicate CutAt(h: seq<Event>, n: nat, now: Time) {
    && n <= |h|
    && (forall i | 0 <= i < n :: h[i].stamp < now - STREAM_MAX_AGE)
    && (forall i | n <= i < |h| :: h[i].stamp >= now - STREAM_MAX_AGE)
  }

  lemma RetainedConcat(ms: seq<Message>, more: seq<Message>, now: Time)
    requires |more| <= 1
    ensures Retained(ms + more, now) ==
            Retained(ms, now) + if more != [] && more[0].stamp >= now - STREAM_MAX_AGE then more else []
  {
    if more == [] {
      assert ms + more == ms;
    } else {
      assert ms + more == ms + [more[0]];
      Seqs.Front(ms, more[0]);
    }
  }

  lemma RetainedSnoc(h: seq<Event>, e: Event, now: Time)
    ensures Retained(Stream(h + [e]), now) ==
            Retained(Stream(h), now) + if e.stamp >= now - STREAM_MAX_AGE then Emitted(e) else []
  {
    StreamSnoc(h, e);
    RetainedConcat(Stream(h), Emitted(e), now);
  }

  lemma SuffixFront<T>(h: seq<T>, n: nat)
    requires n < |h|
    ensures h[n..] == h[..|h| - 1][n..] + [h[|h| - 1]]
  {
  }

  lemma CutFront(h: seq<Event>, n: nat, now: Time)
    requires CutAt(h, n, now) && h != []
    ensures CutAt(h[..|h| - 1], if n == |h| then n - 1 else n, now)
    ensures h[|h| - 1].stamp >= now - STREAM_MAX_AGE <==> n < |h|
  {
  }

  lemma RetainedStep(init: seq<Event>, last: Event, n: nat, now: Time)
    requires n <= |init| && last.stamp >= now - STREAM_MAX_AGE && Retained(Stream(init), now) == Stream(init[n..])
    ensures Retained(Stream(init + [last]), now) == Stream(init[n..] + [last])
  {
    RetainedSnoc(init, last, now);
    StreamSnoc(init[n..], last);
  }

  /** What the stream retains of a history is the stream of a suffix of it. */
  lemma {:induction false} RetainedIsSuffix(h: seq<Event>, n: nat, now: Time)
    requires CutAt(h, n, now)
    ensures Retained(Stream(h), now) == Stream(h[n..])
  {
    if h == [] {
    } else {
      var init, last := h[..|h| - 1], h[|h| - 1];
      Seqs.Unsnoc(h);
      CutFront(h, n, now);
      if n == |h| {
        RetainedIsSuffix(init, n - 1, now);
        RetainedSnoc(init, last, now);
        assert init[|init|..] == [] && h[n..] == [];
      } else {
        RetainedIsSuffix(init, n, now);
        RetainedStep(init, last, n, now);
        SuffixFront(h, n);
      }
    }
  }

  /** In stamp order there is such a suffix, whatever the hour of the restart. */
  lemma {:induction false} CutExists(h: seq<Event>, now: Time) returns (n: nat)
    requires InStampOrder(h)
    ensures CutAt(h, n, now)
  {
    if h == [] || h[|h| - 1].stamp < now - STREAM_MAX_AGE {
      n := |h|;
    } else {
      n := CutExists(h[..|h| - 1], now);
    }
  }

  lemma {:induction false} LiveConcat(start: State, a: seq<Event>, b: seq<Event>, retention: int)
    ensures LiveRun(start, a + b, retention) == LiveRun(LiveRun(start, a, retention), b, retention)
  {
    if b == [] {
      assert a + b == a;
    } else {
      var init, last := b[..|b| - 1], b[|b| - 1];
      LiveConcat(start, a, init, retention);
      Seqs.Unsnoc(b);
      Seqs.Assoc(a, init, [last]);
      LiveSnoc(start, a + init, last, retention);
    }
  }

  /** What a run learns is added behind what was learned before, and never matters
      to the sets. */
  lemma {:induction false} LearnedBehind(s: State, h: seq<Event>, retention: int)
    ensures var r, r0 := LiveRun(s, h, retention), LiveRun(s.(learned := []), h, retention);
            r.sets == r0.sets && r.learned == s.learned + r0.learned
  {
    if h == [] {
    } else {
      var init, last := h[..|h| - 1], h[|h| - 1];
      LearnedBehind(s, init, retention);
      var r, r0 := LiveRun(s, init, retention), LiveRun(s.(learned := []), init, retention);
      BehindStep(r, r0, s.learned, last, retention);
    }
  }

  lemma BehindStep(r: State, r0: State, l: seq<CB.Case>, e: Event, retention: int)
    requires r.sets == r0.sets && r.learned == l + r0.learned
    ensures LiveStep(r, e, retention).sets == LiveStep(r0, e, retention).sets
    ensures LiveStep(r, e, retention).learned == l + LiveStep(r0, e, retention).learned
  {
    if e.Landed? {
      var more := match AbsorbCase(r.sets, e.o) case None => [] case Some(c) => [c];
      Seqs.Assoc(l, r0.learned, more);
    }
  }

  /** The live ledger after `k` events, with the cases it learned since event `n`. */
  function LiveSince(h: seq<Event>, n: nat, k: nat, retention: int): State
    requires n <= k <= |h|
  {
    LiveRun(LiveRun(EMPTY, h[..n], retention).(learned := []), h[n..k], retention)
  }

  lemma LiveSinceMeaning(h: seq<Event>, n: nat, k: nat, retention: int)
    requires n <= k <= |h|
    ensures var live := LiveRun(EMPTY, h[..k], retention);
            && LiveSince(h, n, k, retention).sets == live.sets
            && live.learned == LiveRun(EMPTY, h[..n], retention).learned + LiveSince(h, n, k, retention).learned
  {
    assert h[..k] == h[..n] + h[n..k];
    LiveConcat(EMPTY, h[..n], h[n..k], retention);
    LearnedBehind(LiveRun(EMPTY, h[..n], retention), h[n..k], retention);
  }

  /** A ledger rebuilt when only the events from `n` on are retained, against the live
      one: the same open sets, and the cases learned from `n` on. */
  predicate InStepSince(h: seq<Event>, n: nat, k: nat, retention: int)
    requires n <= k <= |h|
  {
    Agree(LiveSince(h, n, k, retention), ReplayRun(Stream(h[n..k])), AllHonest(h[n..k]))
  }

  /** Nothing open when the retained part begins. */
  predicate NothingOpenAt(h: seq<Event>, n: nat, retention: int)
    requires n <= |h|
  {
    LiveOf(LiveRun(EMPTY, h[..n], retention).sets) == []
  }

  predicate NothingSlipsSince(h: seq<Event>, n: nat, retention: int) {
    forall k | n <= k < |h| :: !Slips(LiveRun(EMPTY, h[..k], retention).sets, h[k])
  }

  lemma SuffixAt(h: seq<Event>, n: nat, k: nat)
    requires n <= k <= |h|
    ensures h[n..][..k - n] == h[n..k]
    ensures k < |h| ==> h[n..][k - n] == h[k]
  {
  }

  lemma SlipsSince(h: seq<Event>, n: nat, retention: int)
    requires n <= |h|
    ensures NothingSlipsSince(h, n, retention) <==>
            NothingSlipsFrom(LiveRun(EMPTY, h[..n], retention).(learned := []), h[n..], retention)
  {
    var start, g := LiveRun(EMPTY, h[..n], retention).(learned := []), h[n..];
    forall k | n <= k < |h|
      ensures Slips(LiveRun(EMPTY, h[..k], retention).sets, h[k]) <==>
              Slips(LiveRun(start, g[..k - n], retention).sets, g[k - n])
    {
      SuffixAt(h, n, k);
      LiveSinceMeaning(h, n, k, retention);
    }
    if NothingSlipsSince(h, n, retention) {
      forall j | 0 <= j < |g| ensures !Slips(LiveRun(start, g[..j], retention).sets, g[j]) {
        assert !Slips(LiveRun(EMPTY, h[..j + n], retention).sets, h[j + n]);
      }
    }
  }

  lemma StepsSince(h: seq<Event>, n: nat, retention: int)
    requires n <= |h|
    ensures (forall k | n <= k <= |h| :: InStepSince(h, n, k, retention)) <==>
            NeverDivergesFrom(LiveRun(EMPTY, h[..n], retention).(learned := []), h[n..], retention)
  {
    var start, g := LiveRun(EMPTY, h[..n], retention).(learned := []), h[n..];
    forall k | n <= k <= |h|
      ensures InStepSince(h, n, k, retention) <==> InStepFrom(start, g[..k - n], retention)
    {
      SuffixAt(h, n, k);
    }
    if forall k | n <= k <= |h| :: InStepSince(h, n, k, retention) {
      forall j | 0 <= j <= |g| ensures InStepFrom(start, g[..j], retention) {
        assert InStepSince(h, n, j + n, retention);
      }
    }
  }

  /** With the front of the stream gone: the rebuilt ledger stays in step from the cut
      on iff nothing was open at the cut and nothing slips after it. */
  lemma RetainedReplayIff(h: seq<Event>, n: nat, retention: int)
    requires WellFormed(h) && n <= |h|
    ensures (forall k | n <= k <= |h| :: InStepSince(h, n, k, retention)) <==>
            NothingOpenAt(h, n, retention) && NothingSlipsSince(h, n, retention)
  {
    StepsSince(h, n, retention);
    SlipsSince(h, n, retention);
    ReplayFromIff(LiveRun(EMPTY, h[..n], retention).(learned := []), h[n..], retention);
  }

  /** A set that stays open longer than the stream remembers is forgotten: the live
      ledger would answer its fingerprint, the rebuilt one has never heard of it. */
  lemma ForgottenSet(ps: ProposalSet, now: Time, at: Time, stamp: Time, retention: int)
    requires EngineFormed(ps) && PassedGate(ps)
    ensures var h := [Formed(ps, now, at, stamp)];
            && NeverDiverges(h, retention) && !InStepSince(h, 1, 1, retention)
            && NewestOpen(LiveRun(EMPTY, h, retention).sets, ps.signalRef).Some?
            && ReplayRun(Stream(h[1..])) == Some(EMPTY)
  {
    var e := Formed(ps, now, at, stamp);
    var h := [e];
    assert h[..0] == [] && h[..1] == h && h[1..1] == [] && h[1..] == [];
    LoneFormed(e, retention);
    ReplayNeverDivergesIff(h, retention);
    assert LiveSince(h, 1, 1, retention) == LiveRun(EMPTY, h, retention).(learned := []);
  }

  lemma LoneFormed(e: Event, retention: int)
    requires e.Formed? && EngineFormed(e.ps) && PassedGate(e.ps)
    ensures var sets := LiveRun(EMPTY, [e], retention).sets;
            sets == [Recorded(e.ps, e.at)] && |LiveOf(sets)| == 1 && NewestOpen(sets, e.ps.signalRef).Some?
  {
    LiveSnoc(EMPTY, [], e, retention);
    assert [] + [e] == [e];
    assert Prune([], e.now - EffectiveRetention(retention)) == [];
    LiveOfSnoc([], Recorded(e.ps, e.at));
    assert [] + [Recorded(e.ps, e.at)] == [Recorded(e.ps, e.at)];
    assert Answers(Recorded(e.ps, e.at), e.ps.signalRef);
  }

  /** A whole family of divergences: any answered outcome Absorb would refuse. */
  lemma RefusedOutcomeDiverges(ps: ProposalSet, now: Time, at: Time, stamp: Time, o: Outcome, later: Time, retention: int)
    requires EngineFormed(ps) && PassedGate(ps)
    requires o.signalRef == ps.signalRef && !Absorbable(o)
    ensures !NeverDiverges([Formed(ps, now, at, stamp), Landed(o, later)], retention)
  {
    var h := [Formed(ps, now, at, stamp), Landed(o, later)];
    assert h[..1] == [h[0]] && h[..1][..0] == [];
    assert Prune([], now - EffectiveRetention(retention)) == [];
    assert LiveRun(EMPTY, h[..1], retention).sets == [Recorded(ps, at)];
    assert Answers(Recorded(ps, at), o.signalRef);
    assert Slips(LiveRun(EMPTY, h[..1], retention).sets, h[1]);
    ReplayNeverDivergesIff(h, retention);
  }

  /** The documented claim fails: a dry-run outcome that claims success is turned
      away live, yet replay closes the set with it and learns from it. */
  lemma ReplayDiverges(ps: ProposalSet) returns (h: seq<Event>)
    requires EngineFormed(ps) && PassedGate(ps)
    ensures WellFormed(h) && AllHonest(h) && !NeverDiverges(h, 0)
  {
    var o := Outcome("out", "dec", ps.signalRef, "restart", DryRun, Success, "", 3);
    h := [Formed(ps, 1, 2, 2), Landed(o, 4)];
    PairIsFair(ps, 1, 2, o, 4);
    RefusedOutcomeDiverges(ps, 1, 2, 2, o, 4, 0);
  }

  lemma PairIsFair(ps: ProposalSet, now: Time, at: Time, o: Outcome, later: Time)
    requires EngineFormed(ps)
    ensures var h := [Formed(ps, now, at, at), Landed(o, later)]; WellFormed(h) && AllHonest(h)
  {
  }

  // ---- after the restart --------------------------------------------------

  /** Two ledgers that match answer every ruling alike, and with equal stamps
      every dedup query too. */
  lemma MatchingAnswers(a: State, b: State, exact: bool, r: Ruling, fp: string, since: Time)
    requires Agree(a, Some(b), exact)
    ensures SettleAnswer(a.sets, r) == SettleAnswer(b.sets, r)
    ensures exact ==> OpenSets(a.sets, fp, since) == OpenSets(b.sets, fp, since)
  {
    SettleMatches(a.sets, b.sets, r, exact);
    if exact {
      OpenSetsOnLive(a.sets, fp, since);
      OpenSetsOnLive(b.sets, fp, since);
      assert LiveOf(a.sets) == LiveOf(b.sets);
    }
  }

  lemma LaterFormed(x: State, y: State, exact: bool, e: Event, r1: int, r2: int)
    requires Agree(x, Some(y), exact) && e.Formed?
    ensures Agree(LiveStep(x, e, r1), Some(LiveStep(y, e, r2)), exact)
  {
    var cutoff := e.now - EffectiveRetention(r2);
    PruneKeepsLive(y.sets, cutoff);
    RecordMatches(x.sets, Prune(y.sets, cutoff), e.now - EffectiveRetention(r1), e.ps, e.at, e.at, exact);
  }

  lemma LaterLanded(x: State, y: State, exact: bool, e: Event, r1: int, r2: int)
    requires Agree(x, Some(y), exact) && e.Landed?
    ensures Agree(LiveStep(x, e, r1), Some(LiveStep(y, e, r2)), exact)
  {
    SettleMatches(x.sets, y.sets, ByOutcome(e.o), exact);
  }

  lemma LaterStep(x: State, y: State, exact: bool, e: Event, r1: int, r2: int)
    requires Agree(x, Some(y), exact)
    ensures Agree(LiveStep(x, e, r1), Some(LiveStep(y, e, r2)), exact)
  {
    if e.Formed? {
      LaterFormed(x, y, exact, e, r1, r2);
    } else if e.Landed? {
      LaterLanded(x, y, exact, e, r1, r2);
    } else {
      SettleMatches(x.sets, y.sets, ByDecline(e.fingerprint, e.evaluatedAt), exact);
    }
  }

  /** A matching pair stays matching through the same later live events, however
      long each of the two keeps closed entries: a ledger that prunes and one that
      never does answer every query alike, and so do a rebuilt one and a live one. */
  lemma {:induction false} LaterAgrees(a: State, b: State, exact: bool, later: seq<Event>, r1: int, r2: int)
    requires Agree(a, Some(b), exact)
    ensures Agree(LiveRun(a, later, r1), Some(LiveRun(b, later, r2)), exact)
  {
    if later == [] {
    } else {
      var init := later[..|later| - 1];
      LaterAgrees(a, b, exact, init, r1, r2);
      LaterStep(LiveRun(a, init, r1), LiveRun(b, init, r2), exact, later[|later| - 1], r1, r2);
    }
  }

  // ---- gathering and sorting ----------------------------------------------

  predicate SortedByStamp(ms: seq<Message>) {
    forall i, j | 0 <= i < j < |ms| :: ms[i].stamp <= ms[j].stamp
  }

  predicate StrictByStamp(ms: seq<Message>) {
    forall i, j | 0 <= i < j < |ms| :: ms[i].stamp < ms[j].stamp
  }

  lemma MultisetSnoc<T>(s: seq<T>)
    requires s != []
    ensures multiset(s) == multiset(s[..|s| - 1]) + multiset{s[|s| - 1]}
    ensures multiset(s[..|s| - 1]) == multiset(s) - multiset{s[|s| - 1]}
  {
    assert s == s[..|s| - 1] + [s[|s| - 1]];
  }

  lemma MultisetAt<T>(s: seq<T>, i: nat)
    requires i < |s|
    ensures multiset(s[..i + 1]) == multiset(s[..i]) + multiset{s[i]}
  {
    assert s[..i + 1] == s[..i] + [s[i]];
  }

  lemma SameLast(a: seq<Message>, b: seq<Message>)
    requires SortedByStamp(a) && StrictByStamp(b) && multiset(a) == multiset(b) && a != [] && b != []
    ensures a[|a| - 1] == b[|b| - 1]
  {
    var x, y := a[|a| - 1], b[|b| - 1];
    assert x in multiset(a) && y in multiset(b);
    assert x in multiset(b) && y in multiset(a);
    var i :| 0 <= i < |b| && b[i] == x;
    var j :| 0 <= j < |a| && a[j] == y;
  }

  /** With distinct stamps there is only one sorted order, so an unstable sort is
      as good as a stable one. */
  lemma {:induction false} SortedOrderIsUnique(a: seq<Message>, b: seq<Message>)
    requires SortedByStamp(a) && StrictByStamp(b) && multiset(a) == multiset(b)
    ensures a == b
  {
    assert |multiset(a)| == |a| && |multiset(b)| == |b|;
    if a == [] {
    } else {
      SameLast(a, b);
      MultisetSnoc(a);
      MultisetSnoc(b);
      SortedOrderIsUnique(a[..|a| - 1], b[..|b| - 1]);
      Seqs.Unsnoc(a);
      Seqs.Unsnoc(b);
    }
  }

  function Inserted(r: seq<Message>, k: nat, m: Message): seq<Message>
    requires k <= |r|
  {
    r[..k] + [m] + r[k..]
  }

  lemma InsertedSorted(r: seq<Message>, k: nat, m: Message)
    requires k <= |r| && SortedByStamp(r)
    requires k > 0 ==> r[k - 1].stamp <= m.stamp
    requires forall j | k <= j < |r| :: r[j].stamp > m.stamp
    ensures SortedByStamp(Inserted(r, k, m))
  {
    var s := Inserted(r, k, m);
    forall i, j | 0 <= i < j < |s| ensures s[i].stamp <= s[j].stamp {
      assert s[i] == if i < k then r[i] else if i == k then m else r[i - 1];
      assert s[j] == if j < k then r[j] else if j == k then m else r[j - 1];
    }
  }

  lemma InsertedMultiset(r: seq<Message>, k: nat, m: Message)
    requires k <= |r|
    ensures multiset(Inserted(r, k, m)) == multiset(r) + multiset{m}
  {
    assert multiset(r) == multiset(r[..k]) + multiset(r[k..]) by {
      assert r == r[..k] + r[k..];
    }
  }

  /** sort.Slice by stamp, of which only "sorted permutation" is promised. */
  method SortByStamp(ms: seq<Message>) returns (r: seq<Message>)
    ensures SortedByStamp(r) && multiset(r) == multiset(ms)
  {
    r := [];
    var i := 0;
    while i < |ms|
      invariant 0 <= i <= |ms|
      invariant SortedByStamp(r) && multiset(r) == multiset(ms[..i])
    {
      var k := |r|;
      while k > 0 && r[k - 1].stamp > ms[i].stamp
        invariant 0 <= k <= |r|
        invariant forall j | k <= j < |r| :: r[j].stamp > ms[i].stamp
      {
        k := k - 1;
      }
      MultisetAt(ms, i);
      InsertedSorted(r, k, ms[i]);
      InsertedMultiset(r, k, ms[i]);
      r := Inserted(r, k, ms[i]);
      i := i + 1;
    }
    assert ms[..i] == ms;
  }

  /** The sets a replay leaves, with or without a case base to feed. */
  function ReplaySets(ms: seq<Message>): seq<Recorded> {
    if ms == [] then [] else SetsStep(ReplaySets(ms[..|ms| - 1]), ms[|ms| - 1])
  }

  function SetsStep(sets: seq<Recorded>, m: Message): seq<Recorded> {
    match m
    case ProposalMsg(stamp, ps) => sets + [Recorded(ps, stamp)]
    case OutcomeMsg(_, o) => Settle(sets, ByOutcome(o))
    case DeclineMsg(_, fp, at) => Settle(sets, ByDecline(fp, at))
  }

  lemma ReplayStepSets(s: State, m: Message)
    requires ReplayStep(s, m).Some?
    ensures ReplayStep(s, m).value.sets == SetsStep(s.sets, m)
  {
  }

  lemma {:induction false} ReplayRunSets(ms: seq<Message>)
    requires ReplayRun(ms).Some?
    ensures ReplayRun(ms).value.sets == ReplaySets(ms)
  {
    if ms == [] {
    } else {
      var init := ms[..|ms| - 1];
      ReplayRunSets(init);
      ReplayStepSets(ReplayRun(init).value, ms[|ms| - 1]);
    }
  }

  lemma ReplayNext(ms: seq<Message>, i: nat)
    requires i < |ms|
    ensures ReplaySets(ms[..i + 1]) == SetsStep(ReplaySets(ms[..i]), ms[i])
    ensures ReplayRun(ms[..i]).Some? ==> ReplayRun(ms[..i + 1]) == ReplayStep(ReplayRun(ms[..i]).value, ms[i])
  {
    assert ms[..i + 1][..|ms[..i + 1]| - 1] == ms[..i];
  }

  /** replayInto: one event into the ledger and, when there is one, the case base;
      `s` is the state they are in, `start` the case base before the rebuild. */
  method ReplayInto(e: Message, cancelled: bool, ledger: MemProposalLog, cases: CB.CaseBase?,
                    ghost s: State, ghost start: seq<CB.Case>)
    returns (ok: bool)
    requires ledger.sets == s.sets
    requires cases != null ==> cases.cases == CB.AppendedAll(start, cases.maxCases, s.learned)
    modifies ledger`sets, if cases == null then {} else {cases}
    ensures ok <==> (cancelled ==> e.ProposalMsg?) && (cases == null || ReplayStep(s, e).Some?)
    ensures ok ==> ledger.sets == SetsStep(s.sets, e)
    ensures ok && cases != null ==> cases.cases == CB.AppendedAll(start, cases.maxCases, ReplayStep(s, e).value.learned)
  {
    match e {
      case ProposalMsg(stamp, ps) => ledger.SeedAt(ps, stamp);
      case OutcomeMsg(_, o) =>
        var a := ledger.Observe(cancelled, o);
        if a.CtxCancelled? {
          return false;
        }
        if a.Moved? && cases != null {
          var c := NewCase(a.set_, o);
          var appended := cases.Append(c);
          if !appended {
            return false;
          }
          Seqs.Front(s.learned, c);
        }
      case DeclineMsg(_, fp, at) =>
        var a := ledger.Decline(cancelled, fp, at);
        if a.CtxCancelled? {
          return false;
        }
    }
    return true;
  }

  /** A drained subject; None is a drain that failed. */
  type Drained = Option<seq<Message>>

  function Gathered(proposals: Drained, outcomes: Drained, declines: Drained): Option<seq<Message>> {
    if proposals.None? || outcomes.None? || declines.None? then None
    else Some(proposals.value + outcomes.value + declines.value)
  }

  /** A context done from event `done` on stops the replay at the first outcome or
      decline; seeding a proposal does not look at it. */
  predicate Uncancelled(events: seq<Message>, done: nat) {
    forall i | done <= i < |events| :: events[i].ProposalMsg?
  }

  lemma UncancelledAt(events: seq<Message>, i: nat, done: nat)
    requires i < |events|
    ensures Uncancelled(events[..i + 1], done) <==> Uncancelled(events[..i], done) && (done <= i ==> events[i].ProposalMsg?)
    ensures Uncancelled(events, done) ==> Uncancelled(events[..i + 1], done)
  {
    var longer := events[..i + 1];
    assert longer[i] == events[i] && forall j | 0 <= j < i :: longer[j] == events[..i][j];
  }

  /** A replay stopped at event `i` is one that fails as a whole. */
  lemma StoppedAt(events: seq<Message>, i: nat, done: nat, bare: bool)
    requires i < |events| && (bare || ReplayRun(events[..i]).Some?)
    requires !((done <= i ==> events[i].ProposalMsg?) && (bare || ReplayStep(ReplayRun(events[..i]).value, events[i]).Some?))
    ensures !(Uncancelled(events, done) && (bare || ReplayRun(events).Some?))
  {
    UncancelledAt(events, i, done);
    ReplayNext(events, i);
    if !bare && ReplayStep(ReplayRun(events[..i]).value, events[i]).None? {
      FailedReplayStays(events, i + 1);
    }
  }

  /** One round of the loop. */
  method ReplayAt(events: seq<Message>, i: nat, done: nat, ledger: MemProposalLog, cases: CB.CaseBase?, ghost before: seq<CB.Case>)
    returns (applied: bool)
    requires i < |events| && ledger.sets == ReplaySets(events[..i])
    requires cases != null ==> ReplayRun(events[..i]).Some?
    requires cases != null ==>
      cases.cases == CB.AppendedAll(before, cases.maxCases, ReplayRun(events[..i]).value.learned)
    modifies ledger`sets, if cases == null then {} else {cases}
    ensures applied <==> (done <= i ==> events[i].ProposalMsg?) && (cases == null || ReplayRun(events[..i + 1]).Some?)
    ensures applied ==> ledger.sets == ReplaySets(events[..i + 1])
    ensures applied && cases != null ==>
      cases.cases == CB.AppendedAll(before, cases.maxCases, ReplayRun(events[..i + 1]).value.learned)
  {
    ReplayNext(events, i);
    ghost var s := State(ReplaySets(events[..i]), []);
    if cases != null {
      ReplayRunSets(events[..i]);
      s := ReplayRun(events[..i]).value;
    }
    applied := ReplayInto(events[i], done <= i, ledger, cases, s, before);
  }

  /** The loop over the sorted events. */
  method ReplayEvents(events: seq<Message>, done: nat, ledger: MemProposalLog, cases: CB.CaseBase?) returns (ok: bool)
    requires ledger.sets == []
    modifies ledger`sets, if cases == null then {} else {cases}
    ensures ok <==> Uncancelled(events, done) && (cases == null || ReplayRun(events).Some?)
    ensures ok ==> ledger.sets == ReplaySets(events)
    ensures ok && cases != null ==>
              cases.cases == CB.AppendedAll(old(cases.cases), cases.maxCases, ReplayRun(events).value.learned)
  {
    var i := 0;
    ghost var before := if cases == null then [] else cases.cases;
    while i < |events|
      invariant 0 <= i <= |events| && Uncancelled(events[..i], done)
      invariant cases != null ==> ReplayRun(events[..i]).Some?
      invariant ledger.sets == ReplaySets(events[..i])
      invariant cases != null ==>
        cases.cases == CB.AppendedAll(before, cases.maxCases, ReplayRun(events[..i]).value.learned)
    {
      var applied := ReplayAt(events, i, done, ledger, cases, before);
      UncancelledAt(events, i, done);
      if !applied {
        ReplayNext(events, i);
        StoppedAt(events, i, done, cases == null);
        return false;
      }
      i := i + 1;
    }
    assert events[..i] == events;
    ok := true;
  }

  /** rebuildLedger over the three drained subjects.  `order` is the order the
      sort chose; the ledger and the case base are what replaying it yields. */
  method RebuildLedger(proposals: Drained, outcomes: Drained, declines: Drained, done: nat, retention: int, cases: CB.CaseBase?)
    returns (ledger: MemProposalLog?, ghost order: seq<Message>)
    modifies if cases == null then {} else {cases}
    ensures Gathered(proposals, outcomes, declines).None? ==>
              ledger == null && (cases != null ==> cases.cases == old(cases.cases))
    ensures Gathered(proposals, outcomes, declines).Some? ==>
              && SortedByStamp(order)
              && multiset(order) == multiset(Gathered(proposals, outcomes, declines).value)
              && (ledger != null <==> Uncancelled(order, done) && (cases == null || ReplayRun(order).Some?))
    ensures ledger != null ==> fresh(ledger) && ledger.retention == retention && ledger.sets == ReplaySets(order)
    ensures ledger != null && cases != null ==>
              cases.cases == CB.AppendedAll(old(cases.cases), cases.maxCases, ReplayRun(order).value.learned)
  {
    order := [];
    if proposals.None? || outcomes.None? || declines.None? {
      return null, order;
    }
    var events := SortByStamp(proposals.value + outcomes.value + declines.value);
    order := events;
    var seeded := new MemProposalLog(retention);
    var ok := ReplayEvents(events, done, seeded, cases);
    ledger := if ok then seeded else null;
  }

  lemma {:induction false} FailedReplayStays(ms: seq<Message>, n: nat)
    requires n <= |ms| && ReplayRun(ms[..n]).None?
    ensures ReplayRun(ms).None?
    decreases |ms| - n
  {
    if n == |ms| {
      assert ms[..n] == ms;
    } else {
      assert ms[..n + 1][..|ms[..n + 1]| - 1] == ms[..n];
      FailedReplayStays(ms, n + 1);
    }
  }

  predicate StrictEvents(h: seq<Event>) {
    forall i, j | 0 <= i < j < |h| :: h[i].stamp < h[j].stamp
  }

  lemma {:induction false} StreamBelow(h: seq<Event>, bound: Time)
    requires forall i | 0 <= i < |h| :: h[i].stamp < bound
    ensures forall i | 0 <= i < |Stream(h)| :: Stream(h)[i].stamp < bound
  {
    if h == [] {
    } else {
      StreamBelow(h[..|h| - 1], bound);
    }
  }

  lemma StrictConcat(ms: seq<Message>, more: seq<Message>)
    requires StrictByStamp(ms) && |more| <= 1
    requires more != [] ==> forall i | 0 <= i < |ms| :: ms[i].stamp < more[0].stamp
    ensures StrictByStamp(ms + more)
  {
  }

  lemma {:induction false} StreamOrdered(h: seq<Event>)
    requires StrictEvents(h)
    ensures StrictByStamp(Stream(h))
  {
    if h == [] {
    } else {
      var init, last := h[..|h| - 1], h[|h| - 1];
      StreamOrdered(init);
      StreamBelow(init, last.stamp);
      StrictConcat(Stream(init), Emitted(last));
    }
  }

  /** End to end: the three subjects of a history with distinct stamps are drained at
      `now`, sorted and replayed.  What comes out has the live ledger's open sets and
      the cases it learned since the cut, if nothing was open at the cut and nothing
      slipped after it; with everything retained, the cut is 0. */
  lemma RebuiltIsLive(h: seq<Event>, n: nat, now: Time, retention: int, gathered: seq<Message>, order: seq<Message>)
    requires WellFormed(h) && CutAt(h, n, now) && NothingOpenAt(h, n, retention) && NothingSlipsSince(h, n, retention)
    requires StrictEvents(h) && multiset(gathered) == multiset(Retained(Stream(h), now))
    requires SortedByStamp(order) && multiset(order) == multiset(gathered)
    ensures Agree(LiveSince(h, n, |h|, retention), ReplayRun(order), AllHonest(h[n..]))
  {
    RetainedIsSuffix(h, n, now);
    StreamOrdered(h[n..]);
    SortedOrderIsUnique(order, Stream(h[n..]));
    RetainedReplayIff(h, n, retention);
    assert InStepSince(h, n, |h|, retention);
    assert h[n..|h|] == h[n..];
  }
}
