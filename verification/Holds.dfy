/** Held decisions and their rebuild from the log (internal/hiss/pending.go,
    internal/hiss/rebuild.go, internal/hiss/transport.go:60-112). */
module Holds {
  import opened Boundary
  import opened Governance
  import Decimal

  datatype Approval = Approval(signalRef: string, approver: string, capBand: Option<Band>)

  type Held = map<string, Governed>

  /** approveHandler's re-stamp of a held decision. */
  function Restamped(d: Decision, a: Approval, pol: Policy, now: Time): Decision {
    d.(id := "dec:" + d.signalRef + ":" + Decimal.Format(now / 1_000_000_000), verdict := Approved,
       grantedBand := Some(d.requestedBand), reasons := [], approver := a.approver, policyVersion := pol.version,
       evaluatedAt := now)
  }

  datatype Step =
    | Judge(ps: ProposalSet, now: Time, created: bool, published: bool)   // handle
    | Approve(a: Approval, now: Time, published: bool)                    // approveHandler
    | External(g: Governed)                                               // someone else's decision on the subject

  /** Live holds and the published log, which is all a restart has. */
  datatype State = State(live: Held, log: seq<Governed>)

  function Judged(pol: Policy, t: Step): Governed
    requires t.Judge?
  {
    Governed(Evaluated(t.ps, pol, t.now), t.ps)
  }

  function Reissued(pol: Policy, held: Governed, t: Step): Governed
    requires t.Approve?
  {
    Governed(Restamped(held.decision, t.a, pol, t.now), held.set_)
  }

  /** The re-issue went out. */
  predicate Released(pol: Policy, held: Governed, t: Step)
    requires t.Approve?
  {
    AuditableDecision(Reissued(pol, held, t).decision) && t.published
  }

  function Do(pol: Policy, s: State, t: Step): State {
    match t
    case Judge(ps, now, created, published) =>
      var g := Judged(pol, t);
      var waits := AwaitsApproval(g.decision.verdict);
      State(if waits then s.live[ps.signalRef := g] else s.live,
            if published && (waits ==> created) then s.log + [g] else s.log)
    case Approve(a, now, published) =>
      if a.signalRef !in s.live then s
      else
        var held := s.live[a.signalRef];
        State(s.live - {a.signalRef}, if Released(pol, held, t) then s.log + [Reissued(pol, held, t)] else s.log)
    case External(g) => s.(log := s.log + [g])
  }

  /** The two verdicts that leave a human something to decide. */
  predicate HoldsOff(v: Verdict) {
    v.Escalate? || v.Hold?
  }

  /** A re-issue is the held decision under a new ID, approved at the band it asked for,
      by the operator, under the policy and at the instant of the approval; nothing
      else about it moves. */
  lemma ReissueIs(d: Decision, a: Approval, pol: Policy, now: Time)
    ensures var r := Restamped(d, a, pol, now);
            && r.verdict == Approved && r.grantedBand == Some(d.requestedBand) && r.reasons == []
            && r.approver == a.approver && r.policyVersion == pol.version && r.evaluatedAt == now
            && |r.id| > 4 + |d.signalRef| && r.id[..4] == "dec:" && r.id[4..4 + |d.signalRef|] == d.signalRef
            && d == r.(id := d.id, verdict := d.verdict, grantedBand := d.grantedBand, reasons := d.reasons,
                       approver := d.approver, policyVersion := d.policyVersion, evaluatedAt := d.evaluatedAt)
  {
  }

  // ---- rebuilding ---------------------------------------------------------

  /** The last decision per fingerprint. */
  function Latest(log: seq<Governed>): Held {
    if log == [] then map[] else Latest(log[..|log| - 1])[log[|log| - 1].decision.signalRef := log[|log| - 1]]
  }

  function Awaiting(m: Held): Held {
    map fp | fp in m && AwaitsApproval(m[fp].decision.verdict) :: m[fp]
  }

  function Rebuilt(log: seq<Governed>): Held {
    Awaiting(Latest(log))
  }

  lemma LatestSnoc(log: seq<Governed>, g: Governed)
    ensures Latest(log + [g]) == Latest(log)[g.decision.signalRef := g]
  {
    assert (log + [g])[..|log|] == log;
  }

  lemma RebuiltSnoc(log: seq<Governed>, g: Governed)
    ensures Rebuilt(log + [g])
         == if AwaitsApproval(g.decision.verdict) then Rebuilt(log)[g.decision.signalRef := g]
            else Rebuilt(log) - {g.decision.signalRef}
  {
    LatestSnoc(log, g);
  }

  lemma {:induction false} LatestKeyed(log: seq<Governed>, fp: string)
    requires fp in Latest(log)
    ensures Latest(log)[fp].decision.signalRef == fp
  {
    if log[|log| - 1].decision.signalRef == fp {
    } else {
      LatestKeyed(log[..|log| - 1], fp);
    }
  }

  /** Position `i` holds the last decision on a fingerprint. */
  predicate LastOn(log: seq<Governed>, fp: string, i: int) {
    && 0 <= i < |log| && log[i].decision.signalRef == fp
    && forall j | i < j < |log| :: log[j].decision.signalRef != fp
  }

  lemma {:induction false} LatestAt(log: seq<Governed>, fp: string, i: int)
    requires LastOn(log, fp, i)
    ensures fp in Latest(log) && Latest(log)[fp] == log[i]
  {
    if i == |log| - 1 {
    } else {
      LatestAt(log[..|log| - 1], fp, i);
    }
  }

  lemma {:induction false} LatestSomewhere(log: seq<Governed>, fp: string) returns (i: int)
    requires fp in Latest(log)
    ensures LastOn(log, fp, i)
  {
    if log[|log| - 1].decision.signalRef == fp {
      i := |log| - 1;
    } else {
      i := LatestSomewhere(log[..|log| - 1], fp);
    }
  }

  /** The rebuild read on positions: a fingerprint is held iff the last decision on it
      waits for a human, and then by that decision. */
  lemma RebuiltIff(log: seq<Governed>, fp: string, g: Governed)
    ensures fp in Rebuilt(log) && Rebuilt(log)[fp] == g <==>
            exists i :: LastOn(log, fp, i) && log[i] == g && HoldsOff(g.decision.verdict)
  {
    if fp in Latest(log) {
      var i := LatestSomewhere(log, fp);
      LatestAt(log, fp, i);
    }
    if i :| LastOn(log, fp, i) && log[i] == g && HoldsOff(g.decision.verdict) {
      LatestAt(log, fp, i);
    }
  }

  class PendingHolds {
    var holds: Held

    constructor ()
      ensures holds == map[]
    {
      holds := map[];
    }

    method Record(g: Governed)
      modifies this
      ensures holds == old(holds)[g.decision.signalRef := g]
    {
      holds := holds[g.decision.signalRef := g];
    }

    method Take(fp: string) returns (g: Option<Governed>)
      modifies this
      ensures holds == old(holds) - {fp}
      ensures g == if fp in old(holds) then Some(old(holds)[fp]) else None
    {
      if fp in holds {
        g := Some(holds[fp]);
        holds := holds - {fp};
      } else {
        g := None;
        assert holds - {fp} == holds;
      }
    }
  }

  /** rebuildHolds. */
  method RebuildHolds(log: seq<Governed>) returns (h: PendingHolds)
    ensures fresh(h) && h.holds == Rebuilt(log)
  {
    var latest: Held := map[];
    var i := 0;
    while i < |log|
      invariant 0 <= i <= |log|
      invariant latest == Latest(log[..i])
    {
      assert log[..i + 1][..|log[..i + 1]| - 1] == log[..i];
      latest := latest[log[i].decision.signalRef := log[i]];
      i := i + 1;
    }
    assert log[..i] == log;
    h := new PendingHolds();
    var todo := latest.Keys;
    while todo != {}
      invariant fresh(h) && latest == Latest(log)
      invariant todo <= latest.Keys
      invariant h.holds == map fp | fp in latest && fp !in todo && AwaitsApproval(latest[fp].decision.verdict) :: latest[fp]
      decreases |todo|
    {
      var fp :| fp in todo;
      todo := todo - {fp};
      LatestKeyed(log, fp);
      if AwaitsApproval(latest[fp].decision.verdict) {
        h.Record(latest[fp]);
      }
    }
  }

  // ---- the live side ------------------------------------------------------

  class Hiss {
    const policy: Policy
    const holds: PendingHolds
    var log: seq<Governed>

    constructor (policy: Policy, holds: PendingHolds)
      ensures this.policy == policy && this.holds == holds && log == []
    {
      this.policy, this.holds := policy, holds;
      log := [];
    }

    ghost function View(): State
      reads this, holds
    {
      State(holds.holds, log)
    }

    /** handle: a waiting verdict is recorded before anything is published. */
    method Handle(ps: ProposalSet, now: Time, created: bool, published: bool) returns (ok: bool)
      modifies this, holds
      ensures View() == Do(policy, old(View()), Judge(ps, now, created, published))
      ensures ok <==> published && (HoldsOff(Evaluated(ps, policy, now).verdict) ==> created)
    {
      var d := Evaluate(ps, policy, now);
      var g := Governed(d, ps);
      if AwaitsApproval(d.verdict) {
        holds.Record(g);
        if !created {
          return false;
        }
      }
      if published {
        log := log + [g];
      }
      return published;
    }

    /** approveHandler: the hold is gone from the map whether or not the re-issue
        makes it out. */
    method ApproveHandler(a: Approval, now: Time, published: bool) returns (ok: bool)
      modifies this, holds
      ensures View() == Do(policy, old(View()), Approve(a, now, published))
      ensures ok <==> a.signalRef !in old(holds.holds) || (policy.version != "" && now != ZERO_TIME && published)
    {
      var taken := holds.Take(a.signalRef);
      if taken.None? {
        assert holds.holds == old(holds.holds);
        return true;
      }
      var d := Restamped(taken.value.decision, a, policy, now);
      if !AuditableDecision(d) || !published {
        return false;
      }
      log := log + [Governed(d, taken.value.set_)];
      return true;
    }
  }

  // ---- agreement with the log ---------------------------------------------

  predicate Within(a: Held, b: Held) {
    forall fp | fp in a :: fp in b && a[fp] == b[fp]
  }

  predicate Keyed(live: Held) {
    forall fp | fp in live :: live[fp].decision.signalRef == fp
  }

  /** Exactly when a step keeps the rebuilt map inside the live one: a waiting
      verdict is published (or changes nothing a rebuild would see), and a taken
      hold is re-issued (or was already closed in the log).  Decisions published by
      others are always fine. */
  predicate StaysWithin(pol: Policy, s: State, t: Step) {
    match t
    case Judge(ps, _, created, published) =>
      AwaitsApproval(Judged(pol, t).decision.verdict) ==>
        (created && published) || ps.signalRef !in Rebuilt(s.log) || Rebuilt(s.log)[ps.signalRef] == Judged(pol, t)
    case Approve(a, _, _) =>
      a.signalRef in s.live ==> Released(pol, s.live[a.signalRef], t) || a.signalRef !in Rebuilt(s.log)
    case External(g) => !AwaitsApproval(g.decision.verdict)
  }

  lemma KeyedStep(pol: Policy, s: State, t: Step)
    requires Keyed(s.live)
    ensures Keyed(Do(pol, s, t).live)
  {
  }

  lemma JudgeWithin(pol: Policy, s: State, t: Step)
    requires t.Judge? && Within(Rebuilt(s.log), s.live)
    ensures Within(Rebuilt(Do(pol, s, t).log), Do(pol, s, t).live) <==> StaysWithin(pol, s, t)
  {
    var g := Judged(pol, t);
    RebuiltSnoc(s.log, g);
    var fp := t.ps.signalRef;
    assert g.decision.signalRef == fp;
    if AwaitsApproval(g.decision.verdict) && !(t.created && t.published) && fp in Rebuilt(s.log) {
      assert Do(pol, s, t).log == s.log && Do(pol, s, t).live[fp] == g;
    }
  }

  /** Taking a key out of both maps, or only out of the larger. */
  lemma TakenWithin(a: Held, b: Held, fp: string)
    requires Within(a, b)
    ensures Within(a - {fp}, b - {fp})
    ensures Within(a, b - {fp}) <==> fp !in a
  {
    if fp in a {
      assert fp !in b - {fp};
    }
  }

  lemma ApproveWithin(pol: Policy, s: State, t: Step)
    requires t.Approve? && Keyed(s.live) && Within(Rebuilt(s.log), s.live)
    ensures Within(Rebuilt(Do(pol, s, t).log), Do(pol, s, t).live) <==> StaysWithin(pol, s, t)
  {
    var fp := t.a.signalRef;
    if fp in s.live {
      var out := Reissued(pol, s.live[fp], t);
      assert out.decision.signalRef == fp && !AwaitsApproval(out.decision.verdict);
      RebuiltSnoc(s.log, out);
      TakenWithin(Rebuilt(s.log), s.live, fp);
    }
  }

  /** External waiting decisions are hiss's alone to make; any other keeps the
      rebuilt map inside the live one. */
  lemma ExternalWithin(pol: Policy, s: State, g: Governed)
    requires Within(Rebuilt(s.log), s.live) && !AwaitsApproval(g.decision.verdict)
    ensures Within(Rebuilt(s.log + [g]), s.live)
  {
    RebuiltSnoc(s.log, g);
  }

  predicate Foreign(t: Step) {
    t.External? ==> !AwaitsApproval(t.g.decision.verdict)
  }

  lemma StepWithin(pol: Policy, s: State, t: Step)
    requires Keyed(s.live) && Within(Rebuilt(s.log), s.live) && Foreign(t)
    ensures Within(Rebuilt(Do(pol, s, t).log), Do(pol, s, t).live) <==> StaysWithin(pol, s, t)
  {
    match t {
      case Judge(_, _, _, _) => JudgeWithin(pol, s, t);
      case Approve(_, _, _) => ApproveWithin(pol, s, t);
      case External(g) => ExternalWithin(pol, s, g);
    }
  }

  function Run(pol: Policy, s: State, trace: seq<Step>): State
    decreases trace
  {
    if trace == [] then s else Run(pol, Do(pol, s, trace[0]), trace[1..])
  }

  predicate AllStayWithin(pol: Policy, s: State, trace: seq<Step>)
    decreases trace
  {
    trace == [] || (StaysWithin(pol, s, trace[0]) && AllStayWithin(pol, Do(pol, s, trace[0]), trace[1..]))
  }

  /** At every moment of the run a restart would rebuild only holds the live map
      has, with the same decision and set. */
  predicate AlwaysWithin(pol: Policy, s: State, trace: seq<Step>)
    decreases trace
  {
    Within(Rebuilt(s.log), s.live) && (trace == [] || AlwaysWithin(pol, Do(pol, s, trace[0]), trace[1..]))
  }

  lemma {:induction false} RebuiltWithinLiveIff(pol: Policy, s: State, trace: seq<Step>)
    requires Keyed(s.live) && Within(Rebuilt(s.log), s.live) && forall i | 0 <= i < |trace| :: Foreign(trace[i])
    ensures AlwaysWithin(pol, s, trace) <==> AllStayWithin(pol, s, trace)
    decreases trace
  {
    if trace == [] {
    } else {
      var s1 := Do(pol, s, trace[0]);
      KeyedStep(pol, s, trace[0]);
      StepWithin(pol, s, trace[0]);
      if Within(Rebuilt(s1.log), s1.live) {
        assert forall i | 0 <= i < |trace[1..]| :: trace[1..][i] == trace[i + 1];
        RebuiltWithinLiveIff(pol, s1, trace[1..]);
      } else {
        assert !AlwaysWithin(pol, s1, trace[1..]);
      }
    }
  }

  /** Exactly when a step keeps the two maps equal: as above, and no decision that
      does not wait lands on a held fingerprint, its own approval apart. */
  predicate StaysEqual(pol: Policy, s: State, t: Step) {
    match t
    case Judge(ps, _, created, published) =>
      if AwaitsApproval(Judged(pol, t).decision.verdict)
      then (created && published) || (ps.signalRef in s.live && s.live[ps.signalRef] == Judged(pol, t))
      else published ==> ps.signalRef !in s.live
    case Approve(a, _, _) => a.signalRef in s.live ==> Released(pol, s.live[a.signalRef], t)
    case External(g) => !AwaitsApproval(g.decision.verdict) && g.decision.signalRef !in s.live
  }

  lemma JudgeEqual(pol: Policy, s: State, t: Step)
    requires t.Judge? && Rebuilt(s.log) == s.live
    ensures Rebuilt(Do(pol, s, t).log) == Do(pol, s, t).live <==> StaysEqual(pol, s, t)
  {
    var g, fp := Judged(pol, t), t.ps.signalRef;
    RebuiltSnoc(s.log, g);
    if AwaitsApproval(g.decision.verdict) {
      if !(t.created && t.published) {
        assert (s.live[fp := g] == s.live) <==> (fp in s.live && s.live[fp] == g);
      }
    } else if t.published {
      assert (s.live - {fp} == s.live) <==> fp !in s.live;
    }
  }

  lemma ApproveEqual(pol: Policy, s: State, t: Step)
    requires t.Approve? && Keyed(s.live) && Rebuilt(s.log) == s.live
    ensures Rebuilt(Do(pol, s, t).log) == Do(pol, s, t).live <==> StaysEqual(pol, s, t)
  {
    var fp := t.a.signalRef;
    if fp in s.live {
      RebuiltSnoc(s.log, Reissued(pol, s.live[fp], t));
      if !Released(pol, s.live[fp], t) {
        assert fp in Rebuilt(Do(pol, s, t).log) && fp !in Do(pol, s, t).live;
      }
    }
  }

  lemma StepEqual(pol: Policy, s: State, t: Step)
    requires Keyed(s.live) && Rebuilt(s.log) == s.live && Foreign(t)
    ensures Rebuilt(Do(pol, s, t).log) == Do(pol, s, t).live <==> StaysEqual(pol, s, t)
  {
    match t {
      case Judge(_, _, _, _) => JudgeEqual(pol, s, t);
      case Approve(_, _, _) => ApproveEqual(pol, s, t);
      case External(g) =>
        RebuiltSnoc(s.log, g);
        assert (s.live - {g.decision.signalRef} == s.live) <==> g.decision.signalRef !in s.live;
    }
  }

  predicate AllStayEqual(pol: Policy, s: State, trace: seq<Step>)
    decreases trace
  {
    trace == [] || (StaysEqual(pol, s, trace[0]) && AllStayEqual(pol, Do(pol, s, trace[0]), trace[1..]))
  }

  predicate AlwaysEqual(pol: Policy, s: State, trace: seq<Step>)
    decreases trace
  {
    Rebuilt(s.log) == s.live && (trace == [] || AlwaysEqual(pol, Do(pol, s, trace[0]), trace[1..]))
  }

  /** The cache agrees with the log at every moment of a run iff every step obeys. */
  lemma {:induction false} RebuiltIsLiveIff(pol: Policy, s: State, trace: seq<Step>)
    requires Keyed(s.live) && Rebuilt(s.log) == s.live && forall i | 0 <= i < |trace| :: Foreign(trace[i])
    ensures AlwaysEqual(pol, s, trace) <==> AllStayEqual(pol, s, trace)
    decreases trace
  {
    if trace == [] {
    } else {
      var s1 := Do(pol, s, trace[0]);
      KeyedStep(pol, s, trace[0]);
      StepEqual(pol, s, trace[0]);
      if Rebuilt(s1.log) == s1.live {
        assert forall i | 0 <= i < |trace[1..]| :: trace[1..][i] == trace[i + 1];
        RebuiltIsLiveIff(pol, s1, trace[1..]);
      } else {
        assert !AlwaysEqual(pol, s1, trace[1..]);
      }
    }
  }

  // ---- when the front of the log is gone ----------------------------------

  /** The stream keeps two days of decisions; a rebuild sees a suffix of the log. */
  predicate DecidedIn(log: seq<Governed>, fp: string) {
    exists i | 0 <= i < |log| :: log[i].decision.signalRef == fp
  }

  lemma {:induction false} LatestDecided(log: seq<Governed>, fp: string)
    ensures fp in Latest(log) <==> DecidedIn(log, fp)
  {
    if log == [] {
    } else {
      var init, last := log[..|log| - 1], log[|log| - 1];
      LatestDecided(init, fp);
      if DecidedIn(init, fp) {
        var i :| 0 <= i < |init| && init[i].decision.signalRef == fp;
        assert log[i].decision.signalRef == fp;
      } else if last.decision.signalRef == fp {
        assert log[|log| - 1].decision.signalRef == fp;
      } else {
        assert forall i | 0 <= i < |init| :: log[i] == init[i];
      }
    }
  }

  /** A suffix knows the same last decision about every fingerprint it mentions. */
  lemma {:induction false} LatestOfSuffix(log: seq<Governed>, n: nat, fp: string)
    requires n <= |log|
    ensures fp in Latest(log[n..]) ==> fp in Latest(log) && Latest(log)[fp] == Latest(log[n..])[fp]
  {
    if n == |log| {
      assert log[n..] == [];
    } else {
      var init, last := log[..|log| - 1], log[|log| - 1];
      assert log[n..] == init[n..] + [last];
      LatestSnoc(init[n..], last);
      if fp != last.decision.signalRef {
        LatestOfSuffix(init, n, fp);
      }
    }
  }

  /** A rebuild from a suffix keeps exactly the holds the suffix mentions. */
  lemma RebuiltOfSuffix(log: seq<Governed>, n: nat, fp: string)
    requires n <= |log|
    ensures fp in Rebuilt(log[n..]) <==> fp in Rebuilt(log) && DecidedIn(log[n..], fp)
    ensures fp in Rebuilt(log[n..]) ==> Rebuilt(log[n..])[fp] == Rebuilt(log)[fp]
  {
    LatestDecided(log[n..], fp);
    LatestOfSuffix(log, n, fp);
  }

  /** Losing the front of the log never invents a hold: what is rebuilt stays inside
      the live map whenever the whole log's rebuild was. */
  lemma RetainedStaysWithin(s: State, n: nat)
    requires n <= |s.log| && Within(Rebuilt(s.log), s.live)
    ensures Within(Rebuilt(s.log[n..]), s.live)
  {
    forall fp | fp in Rebuilt(s.log[n..]) ensures fp in s.live && Rebuilt(s.log[n..])[fp] == s.live[fp] {
      RebuiltOfSuffix(s.log, n, fp);
    }
  }

  /** But it can lose one: where the whole log rebuilds the live map, the retained
      part does iff no live hold's last decision lies before the cut. */
  lemma RetainedIsLiveIff(s: State, n: nat)
    requires n <= |s.log| && Rebuilt(s.log) == s.live
    ensures Rebuilt(s.log[n..]) == s.live <==> forall fp | fp in s.live :: DecidedIn(s.log[n..], fp)
  {
    forall fp
      ensures fp in Rebuilt(s.log[n..]) <==> fp in s.live && DecidedIn(s.log[n..], fp)
      ensures fp in Rebuilt(s.log[n..]) ==> Rebuilt(s.log[n..])[fp] == s.live[fp]
    {
      RebuiltOfSuffix(s.log, n, fp);
    }
    if Rebuilt(s.log[n..]) == s.live {
      forall fp | fp in s.live ensures DecidedIn(s.log[n..], fp) {
        assert fp in Rebuilt(s.log[n..]);
      }
    }
  }

  /** A decision nobody approves for longer than the stream remembers is forgotten. */
  lemma ForgottenHold(g: Governed)
    requires AwaitsApproval(g.decision.verdict)
    ensures Rebuilt([g]) == map[g.decision.signalRef := g] && Rebuilt([g][1..]) == map[]
  {
    RebuiltSnoc([], g);
    assert [] + [g] == [g] && [g][1..] == [];
  }

  // ---- released at most once ----------------------------------------------

  /** A re-issue, and which recording of a hold it answers. */
  datatype Release = Release(token: nat, out: Governed)

  /** A run's bookkeeping: every recording in order, whose recording each live hold
      is, and every re-issue. */
  datatype Book = Book(s: State, tokens: map<string, nat>, records: seq<Governed>, releases: seq<Release>)

  function Enter(pol: Policy, b: Book, t: Step): Book {
    var s' := Do(pol, b.s, t);
    match t
    case Judge(ps, _, _, _) =>
      var g := Judged(pol, t);
      if AwaitsApproval(g.decision.verdict)
      then Book(s', b.tokens[ps.signalRef := |b.records|], b.records + [g], b.releases)
      else b.(s := s')
    case Approve(a, _, _) =>
      if a.signalRef !in b.s.live || a.signalRef !in b.tokens then b
      else
        var held := b.s.live[a.signalRef];
        Book(s', b.tokens - {a.signalRef}, b.records,
             if Released(pol, held, t) then b.releases + [Release(b.tokens[a.signalRef], Reissued(pol, held, t))] else b.releases)
    case External(_) => b.(s := s')
  }

  /** The re-issue carries exactly the set that was held, for the same candidate,
      at the band that was asked for. */
  predicate Answers(out: Governed, held: Governed) {
    && out.set_ == held.set_
    && out.decision.verdict == Approved && out.decision.signalRef == held.decision.signalRef
    && out.decision.proposalRef == held.decision.proposalRef
    && out.decision.candidateRef == held.decision.candidateRef
    && out.decision.grantedBand == Some(held.decision.requestedBand)
    && AuditableDecision(out.decision)
  }

  predicate HoldsKnown(b: Book) {
    && b.tokens.Keys == b.s.live.Keys
    && Keyed(b.s.live)
    && forall fp | fp in b.tokens :: b.tokens[fp] < |b.records| && b.records[b.tokens[fp]] == b.s.live[fp]
  }

  predicate ReleasesKnown(b: Book) {
    && (forall i | 0 <= i < |b.releases| ::
          b.releases[i].token < |b.records| && Answers(b.releases[i].out, b.records[b.releases[i].token]))
    && (forall i, j | 0 <= i < j < |b.releases| :: b.releases[i].token != b.releases[j].token)
    && (forall i, fp | 0 <= i < |b.releases| && fp in b.tokens :: b.releases[i].token != b.tokens[fp])
  }

  lemma RecordKnown(b: Book, b': Book, fp: string, g: Governed)
    requires HoldsKnown(b) && g.decision.signalRef == fp
    requires b'.tokens == b.tokens[fp := |b.records|] && b'.records == b.records + [g]
    requires b'.s.live == b.s.live[fp := g]
    ensures HoldsKnown(b')
  {
  }

  lemma RecordReleases(b: Book, b': Book, fp: string, g: Governed)
    requires ReleasesKnown(b) && b'.releases == b.releases
    requires b'.tokens == b.tokens[fp := |b.records|] && b'.records == b.records + [g]
    ensures ReleasesKnown(b')
  {
  }

  lemma JudgeEntered(pol: Policy, b: Book, t: Step)
    requires t.Judge? && HoldsKnown(b) && ReleasesKnown(b)
    ensures HoldsKnown(Enter(pol, b, t)) && ReleasesKnown(Enter(pol, b, t))
  {
    var g := Judged(pol, t);
    if AwaitsApproval(g.decision.verdict) {
      RecordKnown(b, Enter(pol, b, t), t.ps.signalRef, g);
      RecordReleases(b, Enter(pol, b, t), t.ps.signalRef, g);
    }
  }

  /** Two live holds are never the same recording. */
  lemma TokensDistinct(b: Book, x: string, y: string)
    requires HoldsKnown(b) && x in b.tokens && y in b.tokens && x != y
    ensures b.tokens[x] != b.tokens[y]
  {
    assert b.s.live[x].decision.signalRef == x && b.s.live[y].decision.signalRef == y;
  }

  lemma ReissueAnswers(pol: Policy, held: Governed, t: Step)
    requires t.Approve? && Released(pol, held, t)
    ensures Answers(Reissued(pol, held, t), held)
  {
  }

  lemma ApproveHoldsKnown(pol: Policy, b: Book, t: Step)
    requires t.Approve? && HoldsKnown(b)
    ensures HoldsKnown(Enter(pol, b, t))
  {
  }

  lemma OneMoreRelease(b: Book, b': Book, fp: string, out: Governed)
    requires HoldsKnown(b) && ReleasesKnown(b) && fp in b.tokens
    requires b'.tokens == b.tokens - {fp} && b'.records == b.records
    requires b'.releases == b.releases + [Release(b.tokens[fp], out)]
    requires Answers(out, b.s.live[fp])
    ensures ReleasesKnown(b')
  {
    forall other | other in b'.tokens ensures b'.tokens[other] != b.tokens[fp] {
      TokensDistinct(b, other, fp);
    }
  }

  lemma ApproveEntered(pol: Policy, b: Book, t: Step)
    requires t.Approve? && HoldsKnown(b) && ReleasesKnown(b)
    ensures HoldsKnown(Enter(pol, b, t)) && ReleasesKnown(Enter(pol, b, t))
  {
    ApproveHoldsKnown(pol, b, t);
    var fp := t.a.signalRef;
    if fp in b.tokens && Released(pol, b.s.live[fp], t) {
      ReissueAnswers(pol, b.s.live[fp], t);
      OneMoreRelease(b, Enter(pol, b, t), fp, Reissued(pol, b.s.live[fp], t));
    }
  }

  lemma EnterKeeps(pol: Policy, b: Book, t: Step)
    requires HoldsKnown(b) && ReleasesKnown(b)
    ensures HoldsKnown(Enter(pol, b, t)) && ReleasesKnown(Enter(pol, b, t))
  {
    if t.Judge? {
      JudgeEntered(pol, b, t);
    } else if t.Approve? {
      ApproveEntered(pol, b, t);
    }
  }

  function Entered(pol: Policy, b: Book, trace: seq<Step>): Book
    decreases trace
  {
    if trace == [] then b else Entered(pol, Enter(pol, b, trace[0]), trace[1..])
  }

  /** Under duplicate, unknown and redelivered approvals, each recorded hold is
      released at most once, and the release carries exactly its held set. */
  lemma {:induction false} ReleasedAtMostOnce(pol: Policy, b: Book, trace: seq<Step>)
    requires HoldsKnown(b) && ReleasesKnown(b)
    ensures HoldsKnown(Entered(pol, b, trace)) && ReleasesKnown(Entered(pol, b, trace))
    decreases trace
  {
    if trace == [] {
    } else {
      EnterKeeps(pol, b, trace[0]);
      ReleasedAtMostOnce(pol, Enter(pol, b, trace[0]), trace[1..]);
    }
  }

  // ---- what an approval does and does not respect -------------------------

  /** An approval that finds its hold goes out iff the policy is versioned, the
      clock is set and the publish works.  Otherwise the hold is gone from the live
      map while a rebuild would still have it, and every redelivery is inert. */
  lemma ApprovalLostIff(pol: Policy, s: State, t: Step, again: Step)
    requires t.Approve? && again.Approve? && again.a.signalRef == t.a.signalRef && t.a.signalRef in s.live
    ensures Do(pol, s, t).log == s.log <==> !(pol.version != "" && t.now != ZERO_TIME && t.published)
    ensures Do(pol, Do(pol, s, t), again) == Do(pol, s, t)
  {
    var held := s.live[t.a.signalRef];
    assert Released(pol, held, t) <==> pol.version != "" && t.now != ZERO_TIME && t.published;
  }

  /** The operator's cap is documented as the highest band granted.  The code grants
      what was requested: the cap is respected iff it is absent or not exceeded. */
  predicate RespectsCap(a: Approval, d: Decision) {
    a.capBand.Some? && d.grantedBand.Some? ==> BandRank(d.grantedBand.value) <= BandRank(a.capBand.value)
  }

  lemma ApprovalRespectsCapIff(d: Decision, a: Approval, pol: Policy, now: Time)
    ensures RespectsCap(a, Restamped(d, a, pol, now))
       <==> a.capBand.None? || BandRank(d.requestedBand) <= BandRank(a.capBand.value)
  {
  }
}
