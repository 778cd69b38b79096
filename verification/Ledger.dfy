/** clank's proposal ledger (internal/clank/ledger.go): a mutable list of
    recorded sets, a phase machine, pruning on Record and "the newest open set
    answers".  The specification works on the list; the class carries the loops. */
module Ledger {
  import opened Boundary
  import Seqs

  datatype Recorded = Recorded(set_: ProposalSet, at: Time)

  predicate IsOpen(p: Phase) {
    p.Proposed? || p.Acknowledge? || p.Acted?
  }

  /** Closed entries are what Record may prune; a missing status is never closed. */
  predicate IsClosed(r: Recorded) {
    r.set_.status.Some? && !IsOpen(r.set_.status.value.phase)
  }

  /** The test Observe and Decline apply while scanning for the set that answers. */
  predicate Answers(r: Recorded, fingerprint: string) {
    r.set_.signalRef == fingerprint && r.set_.status.Some? && IsOpen(r.set_.status.value.phase)
  }

  // ---- the phase machine --------------------------------------------------

  function Transition(st: Status, o: Outcome): Status {
    match o.result
    case Rendered => st.(phase := Acknowledge, observedAt := o.executedAt)
    case Applied => st.(phase := Acted, outcome := o.result, observedAt := o.executedAt)
    case Success => st.(phase := Closed, outcome := o.result, observedAt := o.executedAt)
    case Failure => st.(phase := Closed, outcome := o.result, observedAt := o.executedAt)
    case PartialNonConverging => st.(phase := Closed, outcome := o.result, observedAt := o.executedAt)
    case _ => st.(phase := Acted, outcome := o.result, observedAt := o.executedAt)
  }

  /** What moves a set: an outcome on the return edge, or governance ruling against it. */
  datatype Ruling = ByOutcome(o: Outcome) | ByDecline(fingerprint: string, at: Time)

  function Target(r: Ruling): string {
    match r
    case ByOutcome(o) => o.signalRef
    case ByDecline(fp, _) => fp
  }

  function Rule(st: Status, r: Ruling): Status {
    match r
    case ByOutcome(o) => Transition(st, o)
    case ByDecline(_, at) => st.(phase := Declined, observedAt := at)
  }

  function Ruled(e: Recorded, r: Ruling): Recorded
    requires e.set_.status.Some?
  {
    e.(set_ := e.set_.(status := Some(Rule(e.set_.status.value, r))))
  }

  // ---- the list operations ------------------------------------------------

  /** Position of the most recently recorded open set for `fingerprint`. */
  function NewestOpen(rs: seq<Recorded>, fingerprint: string): (i: Option<nat>)
    ensures i.Some? ==> i.value < |rs| && Answers(rs[i.value], fingerprint)
    ensures i.Some? ==> forall j | i.value < j < |rs| :: !Answers(rs[j], fingerprint)
    ensures i.None? ==> forall j | 0 <= j < |rs| :: !Answers(rs[j], fingerprint)
  {
    if rs == [] then None
    else if Answers(rs[|rs| - 1], fingerprint) then Some(|rs| - 1)
    else NewestOpen(rs[..|rs| - 1], fingerprint)
  }

  /** Observe and Decline: move the newest open set, or answer nothing. */
  function Settle(rs: seq<Recorded>, r: Ruling): seq<Recorded> {
    match NewestOpen(rs, Target(r))
    case None => rs
    case Some(i) => rs[i := Ruled(rs[i], r)]
  }

  function SettleAnswer(rs: seq<Recorded>, r: Ruling): Option<ProposalSet> {
    match NewestOpen(rs, Target(r))
    case None => None
    case Some(i) => Some(Ruled(rs[i], r).set_)
  }

  function Prune(rs: seq<Recorded>, cutoff: Time): seq<Recorded> {
    if rs == [] then []
    else
      var last := rs[|rs| - 1];
      Prune(rs[..|rs| - 1], cutoff) + if last.at > cutoff || !IsClosed(last) then [last] else []
  }

  const LEDGER_RETENTION: int := 24 * 3600 * 1_000_000_000

  function EffectiveRetention(retention: int): int {
    if retention <= 0 then LEDGER_RETENTION else retention
  }

  /** How long a closed entry is kept: as configured, or a day. */
  function Kept(retention: int): int {
    if retention > 0 then retention else 86_400_000_000_000
  }

  /** The answer to the dedup query.  `NilStatus` is the nil dereference the scan
      runs into when a matching entry carries no status. */
  datatype OpenAnswer = Cancelled | NilStatus | Sets(open: seq<ProposalSet>)

  predicate Candidate?(r: Recorded, fingerprint: string, since: Time) {
    r.set_.signalRef == fingerprint && r.at > since
  }

  function OpenSets(rs: seq<Recorded>, fingerprint: string, since: Time): OpenAnswer {
    if rs == [] then Sets([])
    else
      var last := rs[|rs| - 1];
      match OpenSets(rs[..|rs| - 1], fingerprint, since)
      case Sets(open) =>
        if !Candidate?(last, fingerprint, since) then Sets(open)
        else if last.set_.status.None? then NilStatus
        else if IsOpen(last.set_.status.value.phase) then Sets(open + [last.set_])
        else Sets(open)
      case other => other
  }

  // ---- the live view ------------------------------------------------------

  /** Everything that is not closed, in order: all a query can ever see. */
  function LiveOf(rs: seq<Recorded>): seq<Recorded> {
    if rs == [] then []
    else
      var last := rs[|rs| - 1];
      LiveOf(rs[..|rs| - 1]) + if IsClosed(last) then [] else [last]
  }

  predicate NoneClosed(rs: seq<Recorded>) {
    forall i | 0 <= i < |rs| :: !IsClosed(rs[i])
  }

  lemma {:induction false} LiveNotClosed(rs: seq<Recorded>)
    ensures NoneClosed(LiveOf(rs))
  {
    if rs == [] {
    } else {
      LiveNotClosed(rs[..|rs| - 1]);
    }
  }

  lemma {:induction false} LiveOfIdentity(rs: seq<Recorded>)
    requires NoneClosed(rs)
    ensures LiveOf(rs) == rs
  {
    if rs == [] {
    } else {
      LiveOfIdentity(rs[..|rs| - 1]);
      Seqs.Unsnoc(rs);
    }
  }

  lemma {:induction false} LiveOfConcat(a: seq<Recorded>, b: seq<Recorded>)
    ensures LiveOf(a + b) == LiveOf(a) + LiveOf(b)
  {
    if b == [] {
      assert a + b == a;
    } else {
      var init, last := b[..|b| - 1], b[|b| - 1];
      LiveOfConcat(a, init);
      Seqs.Unsnoc(b);
      Seqs.Assoc(a, init, [last]);
      LiveOfSnoc(a + init, last);
      LiveOfSnoc(init, last);
      Seqs.Assoc(LiveOf(a), LiveOf(init), [last]);
    }
  }

  /** Pruning is invisible: it never touches the live view. */
  lemma {:induction false} PruneKeepsLive(rs: seq<Recorded>, cutoff: Time)
    ensures LiveOf(Prune(rs, cutoff)) == LiveOf(rs)
  {
    if rs == [] {
    } else {
      var last := rs[|rs| - 1];
      var kept := if last.at > cutoff || !IsClosed(last) then [last] else [];
      PruneKeepsLive(rs[..|rs| - 1], cutoff);
      LiveOfConcat(Prune(rs[..|rs| - 1], cutoff), kept);
    }
  }

  /** One entry at a time: a ruling lands on the last entry or passes it by. */
  lemma SettleSnoc(init: seq<Recorded>, last: Recorded, r: Ruling)
    ensures Answers(last, Target(r)) ==>
      Settle(init + [last], r) == init + [Ruled(last, r)] && SettleAnswer(init + [last], r) == Some(Ruled(last, r).set_)
    ensures !Answers(last, Target(r)) ==>
      Settle(init + [last], r) == Settle(init, r) + [last] && SettleAnswer(init + [last], r) == SettleAnswer(init, r)
  {
    var rs := init + [last];
    assert rs[..|rs| - 1] == init && rs[|rs| - 1] == last;
  }

  lemma LiveOfSnoc(init: seq<Recorded>, last: Recorded)
    ensures LiveOf(init + [last]) == if IsClosed(last) then LiveOf(init) else LiveOf(init) + [last]
  {
    assert (init + [last])[..|init|] == init;
  }

  /** A ruling's answer, and what it leaves live, depend on the live view alone. */
  lemma {:induction false} SettleOnLive(rs: seq<Recorded>, r: Ruling)
    ensures SettleAnswer(rs, r) == SettleAnswer(LiveOf(rs), r)
    ensures LiveOf(Settle(rs, r)) == LiveOf(Settle(LiveOf(rs), r))
  {
    if rs == [] {
    } else {
      var init, last := rs[..|rs| - 1], rs[|rs| - 1];
      assert rs == init + [last];
      LiveOfSnoc(init, last);
      SettleSnoc(init, last, r);
      SettleSnoc(LiveOf(init), last, r);
      if Answers(last, Target(r)) {
        LiveOfSnoc(init, Ruled(last, r));
        LiveOfSnoc(LiveOf(init), Ruled(last, r));
        LiveNotClosed(init);
        LiveOfIdentity(LiveOf(init));
      } else {
        SettleOnLive(init, r);
        LiveOfSnoc(Settle(init, r), last);
        LiveOfSnoc(Settle(LiveOf(init), r), last);
      }
    }
  }

  /** The answer after one more entry. */
  function OpenWith(a: OpenAnswer, last: Recorded, fingerprint: string, since: Time): OpenAnswer {
    if !a.Sets? || !Candidate?(last, fingerprint, since) then a
    else if last.set_.status.None? then NilStatus
    else if IsOpen(last.set_.status.value.phase) then Sets(a.open + [last.set_])
    else a
  }

  lemma OpenSetsSnoc(init: seq<Recorded>, last: Recorded, fingerprint: string, since: Time)
    ensures OpenSets(init + [last], fingerprint, since) == OpenWith(OpenSets(init, fingerprint, since), last, fingerprint, since)
  {
    Seqs.Front(init, last);
  }

  /** The dedup query, too, depends on the live view alone. */
  lemma {:induction false} OpenSetsOnLive(rs: seq<Recorded>, fingerprint: string, since: Time)
    ensures OpenSets(rs, fingerprint, since) == OpenSets(LiveOf(rs), fingerprint, since)
  {
    if rs == [] {
    } else {
      var init, last := rs[..|rs| - 1], rs[|rs| - 1];
      assert rs == init + [last];
      LiveOfSnoc(init, last);
      OpenSetsOnLive(init, fingerprint, since);
      OpenSetsSnoc(init, last, fingerprint, since);
      OpenSetsSnoc(LiveOf(init), last, fingerprint, since);
    }
  }

  /** The query's meaning, stated on positions: it panics exactly when a matching
      entry has no status, and otherwise returns exactly the matching open sets. */
  lemma {:induction false} OpenSetsMeaning(rs: seq<Recorded>, fingerprint: string, since: Time)
    ensures OpenSets(rs, fingerprint, since).NilStatus?
       <==> exists r :: r in rs && Candidate?(r, fingerprint, since) && r.set_.status.None?
    ensures !OpenSets(rs, fingerprint, since).Cancelled?
    ensures var a := OpenSets(rs, fingerprint, since);
            a.Sets? ==> forall s :: s in a.open <==>
              exists r :: r in rs && r.set_ == s && r.at > since && Answers(r, fingerprint)
  {
    if rs == [] {
    } else {
      var init, last := rs[..|rs| - 1], rs[|rs| - 1];
      OpenSetsMeaning(init, fingerprint, since);
      assert rs == init + [last];
      var a := OpenSets(rs, fingerprint, since);
      if a.Sets? {
        forall s ensures s in a.open <==>
            exists r :: r in rs && r.set_ == s && r.at > since && Answers(r, fingerprint)
        {
          if r :| r in rs && r.set_ == s && r.at > since && Answers(r, fingerprint) {
            assert r in init || r == last;
          }
        }
      }
    }
  }

  /** Closed entries are final: no ruling touches one, and no other entry moves
      but the newest open set of its own fingerprint. */
  lemma SettleFrame(rs: seq<Recorded>, r: Ruling, i: nat)
    requires i < |rs|
    ensures |Settle(rs, r)| == |rs|
    ensures Settle(rs, r)[i].at == rs[i].at && Settle(rs, r)[i].set_.signalRef == rs[i].set_.signalRef
    ensures Settle(rs, r)[i] != rs[i] ==>
      Answers(rs[i], Target(r)) && forall j | i < j < |rs| :: !Answers(rs[j], Target(r))
    ensures IsClosed(rs[i]) ==> Settle(rs, r)[i] == rs[i]
  {
  }

  // ---- where a ruling leads -----------------------------------------------

  /** The results that end an incident. */
  predicate Terminal(r: Result) {
    r.Success? || r.Failure? || r.PartialNonConverging?
  }

  /** `after` is `before` moved on by an outcome: closed by a terminal result,
      acknowledged by a rendered one, acted on by any other.  A rendered one leaves the
      recorded result as it was, and nothing but the status moves. */
  predicate MovedByOutcome(before: Recorded, after: Recorded, o: Outcome) {
    && before.set_.status.Some? && after.set_.status.Some?
    && after == before.(set_ := before.set_.(status := after.set_.status))
    && var was, now := before.set_.status.value, after.set_.status.value;
       && (now.phase.Closed? <==> Terminal(o.result))
       && (now.phase.Acknowledge? <==> o.result.Rendered?)
       && (now.phase.Acted? <==> !Terminal(o.result) && !o.result.Rendered?)
       && now.outcome == (if o.result.Rendered? then was.outcome else o.result)
       && now.observedAt == o.executedAt && now.reason == was.reason
  }

  /** The same for a decline, which says nothing about a result. */
  predicate MovedByDecline(before: Recorded, after: Recorded, at: Time) {
    && before.set_.status.Some? && after.set_.status.Some?
    && after == before.(set_ := before.set_.(status := after.set_.status))
    && var was, now := before.set_.status.value, after.set_.status.value;
       now.phase.Declined? && now.outcome == was.outcome && now.observedAt == at && now.reason == was.reason
  }

  /** An outcome moves the newest open set of its signal as its result says, and no
      other entry at all. */
  lemma OutcomeMoves(rs: seq<Recorded>, o: Outcome, i: nat)
    requires NewestOpen(rs, o.signalRef) == Some(i)
    ensures var rs' := Settle(rs, ByOutcome(o));
            && |rs'| == |rs| && MovedByOutcome(rs[i], rs'[i], o)
            && forall j | 0 <= j < |rs| && j != i :: rs'[j] == rs[j]
  {
  }

  lemma DeclineMoves(rs: seq<Recorded>, fp: string, at: Time, i: nat)
    requires NewestOpen(rs, fp) == Some(i)
    ensures var rs' := Settle(rs, ByDecline(fp, at));
            && |rs'| == |rs| && MovedByDecline(rs[i], rs'[i], at)
            && forall j | 0 <= j < |rs| && j != i :: rs'[j] == rs[j]
  {
  }

  /** A ruling that ends the set it answers to: a decline, or a terminal outcome. */
  predicate Ends(r: Ruling) {
    r.ByDecline? || Terminal(r.o.result)
  }

  /** A ruling takes exactly one entry out of the live view iff it is answered and
      ends its set; any other leaves as many live as there were. */
  lemma {:induction false} LiveCount(rs: seq<Recorded>, r: Ruling)
    ensures |LiveOf(Settle(rs, r))| == |LiveOf(rs)| - if NewestOpen(rs, Target(r)).Some? && Ends(r) then 1 else 0
  {
    if rs == [] {
    } else {
      var init, last := rs[..|rs| - 1], rs[|rs| - 1];
      Seqs.Unsnoc(rs);
      SettleSnoc(init, last, r);
      LiveOfSnoc(init, last);
      if Answers(last, Target(r)) {
        LiveOfSnoc(init, Ruled(last, r));
      } else {
        LiveCount(init, r);
        LiveOfSnoc(Settle(init, r), last);
      }
    }
  }

  /** One step of Record's in-place filter. */
  lemma CompactStep(sets: seq<Recorded>, was: seq<Recorded>, kept: nat, i: nat, cutoff: Time)
    requires kept <= i < |sets| == |was| && sets[i..] == was[i..]
    requires sets[..kept] == Prune(was[..i], cutoff)
    ensures sets[i] == was[i] && sets[i + 1..] == was[i + 1..] && sets[kept := sets[i]][i + 1..] == was[i + 1..]
    ensures Prune(was[..i + 1], cutoff)
         == if was[i].at > cutoff || !IsClosed(was[i]) then sets[kept := sets[i]][..kept + 1] else sets[..kept]
  {
    assert sets[i] == sets[i..][0] == was[i..][0];
    assert sets[i + 1..] == sets[i..][1..] == was[i..][1..];
    assert sets[kept := sets[i]][..kept + 1] == sets[..kept] + [sets[i]];
    PruneAt(was, i, cutoff);
  }

  /** Pruning drops exactly the closed entries that are too old. */
  lemma {:induction false} PruneMeaning(rs: seq<Recorded>, cutoff: Time)
    ensures forall e :: e in Prune(rs, cutoff) <==> e in rs && (!IsClosed(e) || e.at > cutoff)
  {
    if rs == [] {
    } else {
      PruneMeaning(rs[..|rs| - 1], cutoff);
      Seqs.Unsnoc(rs);
    }
  }

  lemma PruneAt(was: seq<Recorded>, i: nat, cutoff: Time)
    requires i < |was|
    ensures Prune(was[..i + 1], cutoff)
         == Prune(was[..i], cutoff) + if was[i].at > cutoff || !IsClosed(was[i]) then [was[i]] else []
  {
    assert was[..i + 1][..|was[..i + 1]| - 1] == was[..i];
  }

  // ---- the ledger itself --------------------------------------------------

  datatype Answer = CtxCancelled | NoOpenSet | Moved(set_: ProposalSet)

  class MemProposalLog {
    var retention: int
    var sets: seq<Recorded>

    constructor (retention: int)
      ensures this.retention == retention && sets == []
    {
      this.retention := retention;
      sets := [];
    }

    /** Record: prune in place, then append.  `now` is the clock read for the
        cutoff, `at` the second read that stamps the entry. */
    method Record(cancelled: bool, ps: ProposalSet, now: Time, at: Time) returns (ok: bool)
      modifies this`sets
      ensures ok == !cancelled
      ensures sets == if cancelled then old(sets)
                      else Prune(old(sets), now - EffectiveRetention(retention)) + [Recorded(ps, at)]
      ensures !cancelled ==> sets != [] && sets[|sets| - 1] == Recorded(ps, at)
      ensures !cancelled ==> forall e ::
                e in sets[..|sets| - 1] <==> e in old(sets) && (!IsClosed(e) || now - e.at < Kept(retention))
    {
      if cancelled {
        return false;
      }
      var cutoff := now - EffectiveRetention(retention);
      ghost var was := sets;
      var kept, i := 0, 0;
      while i < |sets|
        invariant 0 <= kept <= i <= |sets| == |was|
        invariant sets[i..] == was[i..]
        invariant sets[..kept] == Prune(was[..i], cutoff)
      {
        var r := sets[i];
        CompactStep(sets, was, kept, i, cutoff);
        if r.at > cutoff || !IsClosed(r) {
          sets := sets[kept := r];
          kept := kept + 1;
        }
        i := i + 1;
      }
      assert was[..i] == was;
      sets := sets[..kept];
      PruneMeaning(was, cutoff);
      sets := sets + [Recorded(ps, at)];
      return true;
    }

    /** Open: the dedup query. */
    method Open(cancelled: bool, fingerprint: string, since: Time) returns (r: OpenAnswer)
      ensures r == if cancelled then Cancelled else OpenSets(sets, fingerprint, since)
    {
      if cancelled {
        return Cancelled;
      }
      var open: seq<ProposalSet> := [];
      var i := 0;
      while i < |sets|
        invariant 0 <= i <= |sets|
        invariant OpenSets(sets[..i], fingerprint, since) == Sets(open)
      {
        var e := sets[i];
        assert sets[..i + 1][..|sets[..i + 1]| - 1] == sets[..i];
        if Candidate?(e, fingerprint, since) {
          if e.set_.status.None? {
            NilStaysNil(sets, i + 1, fingerprint, since);
            return NilStatus;
          }
          if IsOpen(e.set_.status.value.phase) {
            open := open + [e.set_];
          }
        }
        i := i + 1;
      }
      assert sets[..i] == sets;
      return Sets(open);
    }

    /** Observe and Decline share one downward scan; `r` says which status change applies. */
    method Move(cancelled: bool, r: Ruling) returns (a: Answer)
      modifies this`sets
      ensures cancelled ==> a == CtxCancelled && sets == old(sets)
      ensures !cancelled ==> sets == Settle(old(sets), r)
      ensures !cancelled ==> a == match SettleAnswer(old(sets), r)
                                  case None => NoOpenSet
                                  case Some(s) => Moved(s)
    {
      if cancelled {
        return CtxCancelled;
      }
      var i := |sets| - 1;
      while i >= 0
        invariant -1 <= i < |sets|
        invariant sets == old(sets)
        invariant NewestOpen(sets, Target(r)) == NewestOpen(sets[..i + 1], Target(r))
      {
        var e := sets[i];
        assert sets[..i + 1][..|sets[..i + 1]| - 1] == sets[..i];
        if Answers(e, Target(r)) {
          sets := sets[i := Ruled(e, r)];
          return Moved(sets[i].set_);
        }
        i := i - 1;
      }
      return NoOpenSet;
    }

    method Observe(cancelled: bool, o: Outcome) returns (a: Answer)
      modifies this`sets
      ensures cancelled ==> a == CtxCancelled && sets == old(sets)
      ensures !cancelled ==> sets == Settle(old(sets), ByOutcome(o))
      ensures !cancelled ==> a == match SettleAnswer(old(sets), ByOutcome(o))
                                  case None => NoOpenSet
                                  case Some(s) => Moved(s)
      ensures !cancelled && NewestOpen(old(sets), o.signalRef).Some? ==>
                var i := NewestOpen(old(sets), o.signalRef).value;
                |sets| == |old(sets)| && MovedByOutcome(old(sets)[i], sets[i], o) && a == Moved(sets[i].set_)
    {
      a := Move(cancelled, ByOutcome(o));
    }

    method Decline(cancelled: bool, fingerprint: string, at: Time) returns (a: Answer)
      modifies this`sets
      ensures cancelled ==> a == CtxCancelled && sets == old(sets)
      ensures !cancelled ==> sets == Settle(old(sets), ByDecline(fingerprint, at))
      ensures !cancelled ==> a == match SettleAnswer(old(sets), ByDecline(fingerprint, at))
                                  case None => NoOpenSet
                                  case Some(s) => Moved(s)
      ensures !cancelled && NewestOpen(old(sets), fingerprint).Some? ==>
                var i := NewestOpen(old(sets), fingerprint).value;
                |sets| == |old(sets)| && MovedByDecline(old(sets)[i], sets[i], at) && a == Moved(sets[i].set_)
    {
      a := Move(cancelled, ByDecline(fingerprint, at));
    }

    /** seedAt: replay's Record, which never prunes. */
    method SeedAt(ps: ProposalSet, at: Time)
      modifies this`sets
      ensures sets == old(sets) + [Recorded(ps, at)]
    {
      sets := sets + [Recorded(ps, at)];
    }
  }

  lemma {:induction false} NilStaysNil(rs: seq<Recorded>, n: nat, fingerprint: string, since: Time)
    requires n <= |rs|
    requires OpenSets(rs[..n], fingerprint, since) == NilStatus
    ensures OpenSets(rs, fingerprint, since) == NilStatus
    decreases |rs| - n
  {
    if n == |rs| {
      assert rs[..n] == rs;
    } else {
      assert rs[..n + 1][..|rs[..n + 1]| - 1] == rs[..n];
      NilStaysNil(rs, n + 1, fingerprint, since);
    }
  }
}
