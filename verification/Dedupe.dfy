/** The dedupe window over whole runs (internal/clank/engine.go:133-143 and
    436-455 on internal/clank/ledger.go): how far apart two simultaneously open
    sets for one fingerprint must have been recorded. */
module Dedupe {
  import opened Boundary
  import opened Ledger

  /** What one Propose call does to the ledger, seen from the ledger.  `formed`
      is false when the loop ended without a proposal or was refused before the
      gate; `evidence` is the gate's evidence minimum. */
  datatype Step =
    | Attempt(ps: ProposalSet, formed: bool, evidence: bool, precheckAt: Time, gateAt: Time, now: Time, at: Time)
    | Settled(r: Ruling)

  /** The gate's dedup minimum. */
  predicate NoDupes(sets: seq<Recorded>, fingerprint: string, at: Time, window: int) {
    OpenSets(sets, fingerprint, at - window) == Sets([])
  }

  /** The set as recorded: open exactly when every minimum was met. */
  function Stamped(s: Step, sets: seq<Recorded>, window: int): ProposalSet
    requires s.Attempt?
  {
    var passed := s.formed && s.evidence && NoDupes(sets, s.ps.signalRef, s.gateAt, window);
    s.ps.(status := Some(Status(if passed then Proposed else NoAction, "", NoResult, ZERO_TIME)))
  }

  /** One whole, uninterrupted call: precheck, gate, record. */
  function DoStep(sets: seq<Recorded>, s: Step, window: int, retention: int): seq<Recorded> {
    match s
    case Settled(r) => Settle(sets, r)
    case Attempt(ps, _, _, precheckAt, _, now, at) =>
      if !NoDupes(sets, ps.signalRef, precheckAt, window) then sets
      else Prune(sets, now - EffectiveRetention(retention)) + [Recorded(Stamped(s, sets, window), at)]
  }

  /** The same through the ledger's own methods, in the order the engine calls them. */
  method Propose(ledger: MemProposalLog, s: Step, window: int)
    requires s.Attempt?
    modifies ledger`sets
    ensures ledger.sets == DoStep(old(ledger.sets), s, window, ledger.retention)
  {
    var open := ledger.Open(false, s.ps.signalRef, s.precheckAt - window);
    if open != Sets([]) {
      return;
    }
    var dupes := ledger.Open(false, s.ps.signalRef, s.gateAt - window);
    var passed := s.formed && s.evidence && dupes == Sets([]);
    var ps := s.ps.(status := Some(Status(if passed then Proposed else NoAction, "", NoResult, ZERO_TIME)));
    assert ps == Stamped(s, ledger.sets, window);
    var _ := ledger.Record(false, ps, s.now, s.at);
  }

  /** What a call leaves behind: nothing if the precheck finds an open set inside the
      window, otherwise exactly one entry, open iff the loop formed a set with evidence
      and the gate finds none either; and it never touches another live one. */
  lemma AttemptLeaves(sets: seq<Recorded>, s: Step, window: int, retention: int)
    requires s.Attempt?
    ensures var sets' := DoStep(sets, s, window, retention);
            if !NoDupes(sets, s.ps.signalRef, s.precheckAt, window) then sets' == sets
            else
              && sets' != [] && LiveOf(sets'[..|sets'| - 1]) == LiveOf(sets)
              && var e := sets'[|sets'| - 1];
                 && e.at == s.at && e.set_ == s.ps.(status := e.set_.status)
                 && (OpenEntry(e) <==> s.formed && s.evidence && NoDupes(sets, s.ps.signalRef, s.gateAt, window))
                 && (IsClosed(e) <==> !OpenEntry(e))
  {
    var cutoff := s.now - EffectiveRetention(retention);
    PruneKeepsLive(sets, cutoff);
    if NoDupes(sets, s.ps.signalRef, s.precheckAt, window) {
      var kept := Prune(sets, cutoff);
      assert (kept + [Recorded(Stamped(s, sets, window), s.at)])[..|kept|] == kept;
    }
  }

  function DoRun(sets: seq<Recorded>, steps: seq<Step>, window: int, retention: int): seq<Recorded> {
    if steps == [] then sets
    else DoStep(DoRun(sets, steps[..|steps| - 1], window, retention), steps[|steps| - 1], window, retention)
  }

  predicate OpenEntry(r: Recorded) {
    r.set_.status.Some? && IsOpen(r.set_.status.value.phase)
  }

  /** `last` was recorded at least a window after every open set of its fingerprint. */
  predicate ClearOf(rs: seq<Recorded>, last: Recorded, window: int) {
    forall e | e in rs :: OpenEntry(e) && e.set_.signalRef == last.set_.signalRef ==> last.at - e.at >= window
  }

  predicate Spaced(rs: seq<Recorded>, window: int) {
    rs == [] || (Spaced(rs[..|rs| - 1], window)
                 && (OpenEntry(rs[|rs| - 1]) ==> ClearOf(rs[..|rs| - 1], rs[|rs| - 1], window)))
  }

  /** The invariant read on positions. */
  lemma {:induction false} SpacedMeaning(rs: seq<Recorded>, window: int)
    ensures Spaced(rs, window) <==>
      forall i, j | 0 <= i < j < |rs| ::
        (OpenEntry(rs[i]) && OpenEntry(rs[j]) && rs[i].set_.signalRef == rs[j].set_.signalRef
         ==> rs[j].at - rs[i].at >= window)
  {
    if rs == [] {
    } else {
      var init, n := rs[..|rs| - 1], |rs| - 1;
      SpacedMeaning(init, window);
      if Spaced(rs, window) {
        forall i, j | 0 <= i < j < |rs| && OpenEntry(rs[i]) && OpenEntry(rs[j]) && rs[i].set_.signalRef == rs[j].set_.signalRef
          ensures rs[j].at - rs[i].at >= window
        {
          assert init[i] == rs[i];
          assert rs[i] in init;
          if j < n {
            assert init[j] == rs[j];
          }
        }
      } else if Spaced(init, window) {
        var e :| e in init && OpenEntry(e) && e.set_.signalRef == rs[n].set_.signalRef && rs[n].at - e.at < window;
        var i :| 0 <= i < |init| && init[i] == e;
        assert rs[i] == e;
      } else {
        var i, j :| 0 <= i < j < |init| && OpenEntry(init[i]) && OpenEntry(init[j])
          && init[i].set_.signalRef == init[j].set_.signalRef && init[j].at - init[i].at < window;
        assert rs[i] == init[i] && rs[j] == init[j];
      }
    }
  }

  lemma SpacedSnoc(rs: seq<Recorded>, last: Recorded, window: int)
    ensures Spaced(rs + [last], window) <==> Spaced(rs, window) && (OpenEntry(last) ==> ClearOf(rs, last, window))
  {
    assert (rs + [last])[..|rs|] == rs;
  }

  lemma {:induction false} PruneMembers(rs: seq<Recorded>, cutoff: Time)
    ensures forall e | e in Prune(rs, cutoff) :: e in rs
  {
    if rs == [] {
    } else {
      PruneMembers(rs[..|rs| - 1], cutoff);
    }
  }

  lemma {:induction false} PruneSpaced(rs: seq<Recorded>, cutoff: Time, window: int)
    requires Spaced(rs, window)
    ensures Spaced(Prune(rs, cutoff), window)
  {
    if rs == [] {
    } else {
      var init, last := rs[..|rs| - 1], rs[|rs| - 1];
      PruneSpaced(init, cutoff, window);
      PruneMembers(init, cutoff);
      SpacedSnoc(Prune(init, cutoff), last, window);
      assert Prune(init, cutoff) + [] == Prune(init, cutoff);
    }
  }

  /** Every entry after a ruling is an old entry, or an old open one moved on. */
  lemma {:induction false} SettleMembers(rs: seq<Recorded>, r: Ruling)
    ensures forall e | e in Settle(rs, r) && OpenEntry(e) ::
      exists f :: f in rs && OpenEntry(f) && f.at == e.at && f.set_.signalRef == e.set_.signalRef
  {
    forall e | e in Settle(rs, r) && OpenEntry(e)
      ensures exists f :: f in rs && OpenEntry(f) && f.at == e.at && f.set_.signalRef == e.set_.signalRef
    {
      var i :| 0 <= i < |Settle(rs, r)| && Settle(rs, r)[i] == e;
      assert rs[i] in rs && OpenEntry(rs[i]);
    }
  }

  lemma {:induction false} SettleSpaced(rs: seq<Recorded>, r: Ruling, window: int)
    requires Spaced(rs, window)
    ensures Spaced(Settle(rs, r), window)
  {
    if rs == [] {
    } else {
      var init, last := rs[..|rs| - 1], rs[|rs| - 1];
      assert rs == init + [last];
      SettleSnoc(init, last, r);
      if Answers(last, Target(r)) {
        SpacedSnoc(init, Ruled(last, r), window);
      } else {
        SettleSpaced(init, r, window);
        SettleMembers(init, r);
        SpacedSnoc(Settle(init, r), last, window);
      }
    }
  }

  /** A passed dedup check leaves no open set inside the window. */
  lemma NoDupesMeansClear(rs: seq<Recorded>, last: Recorded, gateAt: Time, window: int)
    requires NoDupes(rs, last.set_.signalRef, gateAt, window) && gateAt <= last.at
    ensures ClearOf(rs, last, window)
  {
    OpenSetsMeaning(rs, last.set_.signalRef, gateAt - window);
    forall e | e in rs && OpenEntry(e) && e.set_.signalRef == last.set_.signalRef
      ensures last.at - e.at >= window
    {
      assert Answers(e, last.set_.signalRef);
      assert e.set_ !in OpenSets(rs, last.set_.signalRef, gateAt - window).open;
    }
  }

  lemma StepSpaced(sets: seq<Recorded>, s: Step, window: int, retention: int)
    requires Spaced(sets, window)
    requires s.Attempt? ==> s.gateAt <= s.at
    ensures Spaced(DoStep(sets, s, window, retention), window)
  {
    if s.Settled? {
      SettleSpaced(sets, s.r, window);
    } else if NoDupes(sets, s.ps.signalRef, s.precheckAt, window) {
      var cutoff := s.now - EffectiveRetention(retention);
      var entry := Recorded(Stamped(s, sets, window), s.at);
      PruneSpaced(sets, cutoff, window);
      PruneMembers(sets, cutoff);
      SpacedSnoc(Prune(sets, cutoff), entry, window);
      if OpenEntry(entry) {
        NoDupesMeansClear(sets, entry, s.gateAt, window);
      }
    }
  }

  /** Over every run of uninterrupted calls and rulings, any two sets open at the
      same time for one fingerprint were recorded at least a window apart. */
  lemma {:induction false} OpenSetsAreSpaced(sets: seq<Recorded>, steps: seq<Step>, window: int, retention: int)
    requires Spaced(sets, window)
    requires forall s | s in steps :: s.Attempt? ==> s.gateAt <= s.at
    ensures Spaced(DoRun(sets, steps, window, retention), window)
  {
    if steps == [] {
    } else {
      OpenSetsAreSpaced(sets, steps[..|steps| - 1], window, retention);
      StepSpaced(DoRun(sets, steps[..|steps| - 1], window, retention), steps[|steps| - 1], window, retention);
    }
  }

  /** Interleaved calls lose the guarantee, and this is exactly when: recording an
      open set keeps the spacing iff no open set landed inside the window by the
      time it is recorded, whatever its gate saw earlier. */
  lemma LateRecordSpacedIff(sets: seq<Recorded>, ps: ProposalSet, at: Time, window: int)
    requires Spaced(sets, window) && OpenEntry(Recorded(ps, at)) && OpenSets(sets, ps.signalRef, at - window).Sets?
    ensures Spaced(sets + [Recorded(ps, at)], window) <==> NoDupes(sets, ps.signalRef, at, window)
  {
    var entry := Recorded(ps, at);
    SpacedSnoc(sets, entry, window);
    OpenSetsMeaning(sets, ps.signalRef, at - window);
    var open := OpenSets(sets, ps.signalRef, at - window).open;
    if NoDupes(sets, ps.signalRef, at, window) {
      NoDupesMeansClear(sets, entry, at, window);
    } else {
      assert open[0] in open;
      var e :| e in sets && e.set_ == open[0] && e.at > at - window && Answers(e, ps.signalRef);
    }
  }
}
