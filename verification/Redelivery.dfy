/** What the broker's redelivery does to a beat: an approval delivered more than once
    to thump (internal/broker/subscriber.go:95-152 on internal/thump/transport.go:86-148),
    and a detection delivered again to clank after a run that could not publish
    (internal/clank/engine.go:133-143, 453-463). */
module Redelivery {
  import opened Boundary
  import opened Catalog
  import opened Thump
  import opened Ledger
  import U = Undo
  import T = Transport
  import D = Delivery
  import E = Engine
  import Dedupe
  import R = Replay
  import Seqs

  // ---- an approval at thump -----------------------------------------------

  /** One delivery of a message: what thump's machine does before it, how its two
      publishes go, and what happens around it at the broker. */
  datatype Round = Round(between: seq<U.Step>, failAt: nat, orderOK: bool, outcomeOK: bool,
                         heard: bool, metadata: bool, deadLetterOK: bool, now: Time)

  type Rounds = nat -> Round

  predicate PublishesAll(g: Governed, r: Round) {
    r.outcomeOK && (g.decision.verdict == Approved ==> r.orderOK)
  }

  /** The delivery as the broker sees it: handled iff handle returns nil. */
  function AttemptOf(cat: seq<ActionContract>, g: Governed, r: Round): D.Attempt {
    D.Attempt(T.HandleErrorOf(g, cat, r.orderOK, r.outcomeOK, r.now).None?, r.heard, r.metadata, r.deadLetterOK)
  }

  function Attempts(cat: seq<ActionContract>, g: Governed, rounds: Rounds): nat -> D.Attempt {
    (i: nat) => AttemptOf(cat, g, rounds(i))
  }

  /** The message is delivered this often. */
  function Deliveries(c: U.Config, g: Governed, rounds: Rounds): nat {
    D.Deliveries(true, Attempts(c.catalog, g, rounds), 0)
  }

  /** The first `n` rounds can happen. */
  predicate Possible(c: U.Config, s: U.State, g: Governed, rounds: Rounds, n: nat)
    decreases n, 0
  {
    n == 0 || (Possible(c, s, g, rounds, n - 1) && U.Legal(c, After(c, s, g, rounds, n - 1), rounds(n - 1).between))
  }

  /** The machine after `n` deliveries. */
  function After(c: U.Config, s: U.State, g: Governed, rounds: Rounds, n: nat): U.State
    requires Possible(c, s, g, rounds, n)
    decreases n, 1
  {
    if n == 0 then s
    else
      var r := rounds(n - 1);
      U.DeliverTo(c, U.Run(c, After(c, s, g, rounds, n - 1), r.between), g, r.failAt, PublishesAll(g, r), r.now)
  }

  /** What delivery `n` finds. */
  function Found(c: U.Config, s: U.State, g: Governed, rounds: Rounds, n: nat): U.State
    requires Possible(c, s, g, rounds, n + 1)
  {
    U.Run(c, After(c, s, g, rounds, n), rounds(n).between)
  }

  /** Calls of the runner made by the first `n` deliveries themselves. */
  function Actions(c: U.Config, s: U.State, g: Governed, rounds: Rounds, n: nat): int
    requires Possible(c, s, g, rounds, n)
  {
    if n == 0 then 0
    else Actions(c, s, g, rounds, n - 1)
         + |After(c, s, g, rounds, n).calls| - |Found(c, s, g, rounds, n - 1).calls|
  }

  /** Delivery `i` meets the guard of a forward call. */
  predicate Guarded(c: U.Config, s: U.State, g: Governed, rounds: Rounds, i: nat)
    requires Possible(c, s, g, rounds, i + 1)
  {
    U.Acts(c, Found(c, s, g, rounds, i), g, rounds(i).now)
  }

  lemma RoundActs(c: U.Config, s: U.State, g: Governed, rounds: Rounds, n: nat)
    requires n > 0 && Possible(c, s, g, rounds, n)
    ensures Actions(c, s, g, rounds, n)
         == Actions(c, s, g, rounds, n - 1) + if Guarded(c, s, g, rounds, n - 1) then 1 else 0
  {
    var r := rounds(n - 1);
    U.DeliverCalls(c, Found(c, s, g, rounds, n - 1), g, r.failAt, PublishesAll(g, r), r.now);
  }

  /** Which of the first `n` deliveries meet the guard. */
  function Guards(c: U.Config, s: U.State, g: Governed, rounds: Rounds, n: nat): (m: seq<bool>)
    requires Possible(c, s, g, rounds, n)
    ensures |m| == n
  {
    if n == 0 then [] else Guards(c, s, g, rounds, n - 1) + [Guarded(c, s, g, rounds, n - 1)]
  }

  lemma {:induction false} GuardsMeaning(c: U.Config, s: U.State, g: Governed, rounds: Rounds, n: nat, i: nat)
    requires Possible(c, s, g, rounds, n) && i < n
    ensures Possible(c, s, g, rounds, i + 1) && (Guards(c, s, g, rounds, n)[i] <==> Guarded(c, s, g, rounds, i))
  {
    if i == n - 1 {
    } else {
      GuardsMeaning(c, s, g, rounds, n - 1, i);
    }
  }

  function Trues(m: seq<bool>): nat {
    if m == [] then 0 else Trues(m[..|m| - 1]) + if m[|m| - 1] then 1 else 0
  }

  /** Exactly one of them, namely `i`. */
  predicate OnlyTrue(m: seq<bool>, i: int) {
    0 <= i < |m| && m[i] && forall j | 0 <= j < |m| && j != i :: !m[j]
  }

  lemma {:induction false} NoTrues(m: seq<bool>)
    ensures Trues(m) == 0 <==> forall i | 0 <= i < |m| :: !m[i]
  {
    if m == [] {
    } else {
      NoTrues(m[..|m| - 1]);
    }
  }

  lemma {:induction false} OneTrueIff(m: seq<bool>)
    ensures Trues(m) == 1 <==> exists i :: OnlyTrue(m, i)
  {
    if m == [] {
    } else {
      var init, n := m[..|m| - 1], |m| - 1;
      OneTrueIff(init);
      NoTrues(init);
      if m[n] {
        if Trues(init) == 0 {
          assert OnlyTrue(m, n);
        } else {
          var k :| 0 <= k < |init| && init[k];
          assert m[k] && k != n;
        }
      } else {
        forall i ensures OnlyTrue(m, i) <==> OnlyTrue(init, i) {
        }
      }
    }
  }

  lemma {:induction false} AllTrue(m: seq<bool>)
    requires forall i | 0 <= i < |m| :: m[i]
    ensures Trues(m) == |m|
  {
    if m == [] {
    } else {
      AllTrue(m[..|m| - 1]);
    }
  }

  /** The deliveries act as often as they meet the guard. */
  lemma {:induction false} ActionsAreGuarded(c: U.Config, s: U.State, g: Governed, rounds: Rounds, n: nat)
    requires Possible(c, s, g, rounds, n)
    ensures Actions(c, s, g, rounds, n) == Trues(Guards(c, s, g, rounds, n))
  {
    if n == 0 {
    } else {
      ActionsAreGuarded(c, s, g, rounds, n - 1);
      RoundActs(c, s, g, rounds, n);
      NextGuard(c, s, g, rounds, n);
    }
  }

  lemma NextGuard(c: U.Config, s: U.State, g: Governed, rounds: Rounds, n: nat)
    requires n > 0 && Possible(c, s, g, rounds, n)
    ensures Trues(Guards(c, s, g, rounds, n))
         == Trues(Guards(c, s, g, rounds, n - 1)) + if Guarded(c, s, g, rounds, n - 1) then 1 else 0
  {
    GuardsSnoc(c, s, g, rounds, n);
    TruesSnoc(Guards(c, s, g, rounds, n - 1), Guarded(c, s, g, rounds, n - 1));
  }

  lemma GuardsSnoc(c: U.Config, s: U.State, g: Governed, rounds: Rounds, n: nat)
    requires n > 0 && Possible(c, s, g, rounds, n)
    ensures Guards(c, s, g, rounds, n) == Guards(c, s, g, rounds, n - 1) + [Guarded(c, s, g, rounds, n - 1)]
  {
  }

  lemma TruesSnoc(m: seq<bool>, b: bool)
    ensures Trues(m + [b]) == Trues(m) + if b then 1 else 0
  {
    Seqs.Front(m, b);
  }

  /** Over the whole life of an approval's message, at most six deliveries with
      anything at all happening between them: it acts exactly once iff exactly one
      delivery meets the guard. */
  lemma ActsOnceIff(c: U.Config, s: U.State, g: Governed, rounds: Rounds)
    requires Possible(c, s, g, rounds, Deliveries(c, g, rounds))
    ensures 1 <= Deliveries(c, g, rounds) <= D.MAX_DELIVER
    ensures Actions(c, s, g, rounds, Deliveries(c, g, rounds)) == 1 <==>
            exists i :: OnlyTrue(Guards(c, s, g, rounds, Deliveries(c, g, rounds)), i)
  {
    var n := Deliveries(c, g, rounds);
    ActionsAreGuarded(c, s, g, rounds, n);
    OneTrueIff(Guards(c, s, g, rounds, n));
  }

  /** An approval that renders is handled iff both publishes go through; the server
      must then hear the ack. */
  lemma ClosesIff(c: U.Config, g: Governed, rounds: Rounds, i: nat)
    requires g.decision.verdict == Approved && RenderOf(g, c.catalog, rounds(i).now).Ready?
    ensures D.Closes(true, Attempts(c.catalog, g, rounds)(i)) <==>
            rounds(i).orderOK && rounds(i).outcomeOK && rounds(i).heard
  {
  }

  /** With the guard met throughout, every delivery acts; so the action is taken once
      iff the first delivery's publishes go through and its ack is heard. */
  lemma GuardedActsOnceIff(c: U.Config, s: U.State, g: Governed, rounds: Rounds)
    requires Possible(c, s, g, rounds, Deliveries(c, g, rounds))
    requires forall i | 0 <= i < Deliveries(c, g, rounds) :: Guards(c, s, g, rounds, Deliveries(c, g, rounds))[i]
    ensures Actions(c, s, g, rounds, Deliveries(c, g, rounds)) == Deliveries(c, g, rounds)
    ensures Actions(c, s, g, rounds, Deliveries(c, g, rounds)) == 1 <==>
            rounds(0).orderOK && rounds(0).outcomeOK && rounds(0).heard
  {
    var n := Deliveries(c, g, rounds);
    ActionsAreGuarded(c, s, g, rounds, n);
    AllTrue(Guards(c, s, g, rounds, n));
    GuardsMeaning(c, s, g, rounds, n, 0);
    ClosesIff(c, g, rounds, 0);
  }

  lemma UnrenderableIsNotHandled(c: U.Config, g: Governed, rounds: Rounds, i: nat)
    requires g.decision.verdict == Approved && RenderOf(g, c.catalog, ZERO_TIME).Refused?
    ensures RenderOf(g, c.catalog, rounds(i).now).Refused? && !D.Closes(true, Attempts(c.catalog, g, rounds)(i))
  {
    U.RendersAtAnyTime(g, c.catalog, ZERO_TIME, rounds(i).now);
  }

  lemma UnrenderableGuards(c: U.Config, s: U.State, g: Governed, rounds: Rounds, n: nat)
    requires g.decision.verdict == Approved && RenderOf(g, c.catalog, ZERO_TIME).Refused?
    requires Possible(c, s, g, rounds, n)
    ensures Trues(Guards(c, s, g, rounds, n)) == 0
  {
    var m := Guards(c, s, g, rounds, n);
    forall i | 0 <= i < n ensures !m[i] {
      GuardsMeaning(c, s, g, rounds, n, i);
      UnrenderableIsNotHandled(c, g, rounds, i);
    }
    NoTrues(m);
  }

  lemma UnrenderableComesAgain(c: U.Config, g: Governed, rounds: Rounds)
    requires g.decision.verdict == Approved && RenderOf(g, c.catalog, ZERO_TIME).Refused?
    ensures Deliveries(c, g, rounds) == D.MAX_DELIVER
  {
    D.DeliveriesMeaning(true, Attempts(c.catalog, g, rounds), 0);
    UnrenderableIsNotHandled(c, g, rounds, Deliveries(c, g, rounds) - 1);
  }

  /** An order that cannot be rendered comes six times and never acts. */
  lemma UnrenderableNeverActs(c: U.Config, s: U.State, g: Governed, rounds: Rounds, n: nat)
    requires g.decision.verdict == Approved && RenderOf(g, c.catalog, ZERO_TIME).Refused?
    requires Possible(c, s, g, rounds, n)
    ensures Actions(c, s, g, rounds, n) == 0 && Deliveries(c, g, rounds) == D.MAX_DELIVER
  {
    UnrenderableComesAgain(c, g, rounds);
    UnrenderableGuards(c, s, g, rounds, n);
    ActionsAreGuarded(c, s, g, rounds, n);
  }

  /** Between deliveries the switch file may be read again. */
  predicate AtMostReload(steps: seq<U.Step>) {
    steps == [] || (|steps| == 1 && steps[0].Reload?)
  }

  lemma ReloadRuns(c: U.Config, s: U.State, steps: seq<U.Step>)
    requires AtMostReload(steps)
    ensures U.Legal(c, s, steps)
    ensures U.Run(c, s, steps) == if steps == [] then s else s.(armed := Arms(steps[0].reading))
  {
    if steps != [] {
      assert steps[1..] == [];
    }
  }

  method Refresh(tr: T.Transport, steps: seq<U.Step>)
    requires AtMostReload(steps)
    modifies tr.killSwitch
    ensures U.Legal(tr.cfg, old(tr.State()), steps) && tr.State() == U.Run(tr.cfg, old(tr.State()), steps)
  {
    ReloadRuns(tr.cfg, tr.State(), steps);
    if |steps| > 0 {
      var _ := tr.killSwitch.Reload(steps[0].reading);
    }
  }

  lemma NextRound(c: U.Config, s: U.State, g: Governed, rounds: Rounds, n: nat)
    requires Possible(c, s, g, rounds, n) && U.Legal(c, After(c, s, g, rounds, n), rounds(n).between)
    ensures Possible(c, s, g, rounds, n + 1)
    ensures var r := rounds(n);
            After(c, s, g, rounds, n + 1)
              == U.DeliverTo(c, U.Run(c, After(c, s, g, rounds, n), r.between), g, r.failAt, PublishesAll(g, r), r.now)
  {
  }

  /** One delivery: the callback of the subscriber around thump's handle. */
  method DeliverOnce(tr: T.Transport, g: Governed, r: Round, m: D.Message)
    requires AtMostReload(r.between) && m.fate == D.InFlight && m.delivered < D.MAX_DELIVER && m.decodes
    modifies tr, tr.kube, tr.killSwitch, m
    ensures U.Legal(tr.cfg, old(tr.State()), r.between)
    ensures tr.State() == U.DeliverTo(tr.cfg, U.Run(tr.cfg, old(tr.State()), r.between), g, r.failAt, PublishesAll(g, r), r.now)
    ensures m.delivered == old(m.delivered) + 1 && m.deadLetters >= old(m.deadLetters)
    ensures m.fate == D.FateOf(true, AttemptOf(tr.cfg.catalog, g, r), m.delivered, m.deadLetters)
  {
    Refresh(tr, r.between);
    var err := tr.Handle(g, r.failAt, r.orderOK, r.outcomeOK, r.now);
    m.Deliver(D.Attempt(err.None?, r.heard, r.metadata, r.deadLetterOK));
  }

  /** The subscriber and thump's transport together: the message is delivered exactly
      as often as Deliveries says, and leaves the transport where After says. */
  method Consume(tr: T.Transport, g: Governed, rounds: Rounds) returns (m: D.Message)
    requires forall i: nat :: AtMostReload(rounds(i).between)
    modifies tr, tr.kube, tr.killSwitch
    ensures m.delivered == Deliveries(tr.cfg, g, rounds)
    ensures Possible(tr.cfg, old(tr.State()), g, rounds, m.delivered)
    ensures tr.State() == After(tr.cfg, old(tr.State()), g, rounds, m.delivered)
  {
    ghost var start := tr.State();
    ghost var attempts := Attempts(tr.cfg.catalog, g, rounds);
    m := new D.Message(true);
    while true
      invariant fresh(m) && m.decodes && m.fate == D.InFlight && m.delivered < D.MAX_DELIVER
      invariant Possible(tr.cfg, start, g, rounds, m.delivered)
      invariant tr.State() == After(tr.cfg, start, g, rounds, m.delivered)
      invariant D.Deliveries(true, attempts, 0) == D.Deliveries(true, attempts, m.delivered)
      decreases D.MAX_DELIVER - m.delivered
    {
      var n := m.delivered;
      DeliverOnce(tr, g, rounds(n), m);
      NextRound(tr.cfg, start, g, rounds, n);
      D.FateInFlight(true, attempts, n, m.deadLetters);
      if m.fate != D.InFlight {
        return;
      }
    }
  }

  // ---- a detection at clank -----------------------------------------------

  /** The run gets as far as a concluded set. */
  predicate Concludes(cfg: E.Config, sig: E.Signal, env: E.Env, ps: ProposalSet) {
    && env.openBefore == Some(0) && env.intake.Some?
    && var l := E.LoopFrom(env.model, 0, cfg.maxSteps, E.START);
       l.Some? && E.ConcludeOf(cfg, sig, env, env.intake.value, l.value) == Some(ps)
  }

  /** The ledger as the run leaves it. */
  function Booked(env: E.Env, ps: ProposalSet, sets: seq<Recorded>, now: Time, at: Time, retention: int): seq<Recorded> {
    if env.recordOK then Prune(sets, now - EffectiveRetention(retention)) + [Recorded(ps, at)] else sets
  }

  function SettleAll(sets: seq<Recorded>, rulings: seq<Ruling>): seq<Recorded> {
    if rulings == [] then sets else Settle(SettleAll(sets, rulings[..|rulings| - 1]), rulings[|rulings| - 1])
  }

  /** What some rulings make of the newest entry. */
  function MovedBy(e: Recorded, rulings: seq<Ruling>): Recorded {
    if rulings == [] then e
    else
      var m, r := MovedBy(e, rulings[..|rulings| - 1]), rulings[|rulings| - 1];
      if Answers(m, Target(r)) then Ruled(m, r) else m
  }

  /** Every entry the dedup query would look at is closed. */
  predicate ClearFor(rs: seq<Recorded>, fp: string, since: Time) {
    forall i | 0 <= i < |rs| :: Candidate?(rs[i], fp, since) ==> IsClosed(rs[i])
  }

  lemma {:induction false} ClearForIff(rs: seq<Recorded>, fp: string, since: Time)
    ensures OpenSets(rs, fp, since) == Sets([]) <==> ClearFor(rs, fp, since)
  {
    if rs == [] {
    } else {
      ClearForIff(rs[..|rs| - 1], fp, since);
      var last := rs[|rs| - 1];
      if ClearFor(rs[..|rs| - 1], fp, since) {
        assert ClearFor(rs, fp, since) <==> (Candidate?(last, fp, since) ==> IsClosed(last));
      }
    }
  }

  lemma SettleClear(rs: seq<Recorded>, r: Ruling, fp: string, since: Time)
    requires ClearFor(rs, fp, since)
    ensures ClearFor(Settle(rs, r), fp, since)
  {
  }

  lemma PruneClear(rs: seq<Recorded>, cutoff: Time, fp: string, since: Time)
    requires ClearFor(rs, fp, since)
    ensures ClearFor(Prune(rs, cutoff), fp, since)
  {
    Dedupe.PruneMembers(rs, cutoff);
    var p := Prune(rs, cutoff);
    forall i | 0 <= i < |p| && Candidate?(p[i], fp, since) ensures IsClosed(p[i]) {
      assert p[i] in rs;
    }
  }

  lemma {:induction false} SettleAllClear(rs: seq<Recorded>, rulings: seq<Ruling>, fp: string, since: Time)
    requires ClearFor(rs, fp, since)
    ensures ClearFor(SettleAll(rs, rulings), fp, since)
  {
    if rulings == [] {
    } else {
      SettleAllClear(rs, rulings[..|rulings| - 1], fp, since);
      SettleClear(SettleAll(rs, rulings[..|rulings| - 1]), rulings[|rulings| - 1], fp, since);
    }
  }

  /** The newest entry moves by itself; what is clear before it stays clear. */
  lemma {:induction false} NewestMoves(init: seq<Recorded>, e: Recorded, rulings: seq<Ruling>, fp: string, since: Time)
    returns (rest: seq<Recorded>)
    requires ClearFor(init, fp, since)
    ensures SettleAll(init + [e], rulings) == rest + [MovedBy(e, rulings)] && ClearFor(rest, fp, since)
  {
    if rulings == [] {
      rest := init;
    } else {
      var before, r := rulings[..|rulings| - 1], rulings[|rulings| - 1];
      rest := NewestMoves(init, e, before, fp, since);
      SettleSnoc(rest, MovedBy(e, before), r);
      if !Answers(MovedBy(e, before), Target(r)) {
        SettleClear(rest, r, fp, since);
        rest := Settle(rest, r);
      }
    }
  }

  lemma OnlyNewest(rest: seq<Recorded>, e: Recorded, fp: string, since: Time)
    requires ClearFor(rest, fp, since) && e.set_.status.Some?
    ensures OpenSets(rest + [e], fp, since) == if e.at > since && Answers(e, fp) then Sets([e.set_]) else Sets([])
  {
    ClearForIff(rest, fp, since);
    Seqs.Front(rest, e);
  }

  lemma {:induction false} MovedKeeps(e: Recorded, rulings: seq<Ruling>)
    requires e.set_.status.Some?
    ensures var m := MovedBy(e, rulings);
            && m.at == e.at && m.set_.signalRef == e.set_.signalRef && m.set_.status.Some?
            && (IsClosed(e) ==> m == e)
  {
    if rulings == [] {
    } else {
      MovedKeeps(e, rulings[..|rulings| - 1]);
    }
  }

  predicate FormedFor(ps: ProposalSet, fp: string) {
    R.EngineFormed(ps) && ps.signalRef == fp
  }

  lemma GatedIsFormed(shaped: ProposalSet, dupes: nat)
    ensures FormedFor(E.Gated(shaped, dupes), shaped.signalRef)
  {
  }

  lemma DeclinedIsFormed(base: ProposalSet, reason: string)
    requires base.gate.None?
    ensures FormedFor(E.Declined(base, reason), base.signalRef)
  {
  }

  lemma ConcludedIsFormed(cfg: E.Config, sig: E.Signal, env: E.Env, sao: Sao, l: E.Loop)
    requires E.ConcludeOf(cfg, sig, env, sao, l).Some?
    ensures FormedFor(E.ConcludeOf(cfg, sig, env, sao, l).value, sig.fingerprint)
  {
    var base := E.Base(sig, env, sao, l);
    assert base.gate.None? && base.signalRef == sig.fingerprint;
    if l.proposed || l.declined {
      var ps := E.ConcludeOf(cfg, sig, env, sao, l).value;
      if env.openAfter.Some? && ps == E.Gated(E.ShapeOf(cfg, sig, sao, base), env.openAfter.value) {
        GatedIsFormed(E.ShapeOf(cfg, sig, sao, base), env.openAfter.value);
      } else {
        assert ps.status.Some? && ps == E.Declined(base, ps.status.value.reason);
        DeclinedIsFormed(base, ps.status.value.reason);
      }
    }
  }

  lemma ConcludedIsFiled(cfg: E.Config, sig: E.Signal, env: E.Env, ps: ProposalSet)
    requires Concludes(cfg, sig, env, ps)
    ensures E.ExitOf(cfg, sig, env) == E.FileOf(cfg, env, ps) && FormedFor(ps, sig.fingerprint)
  {
    var l := E.LoopFrom(env.model, 0, cfg.maxSteps, E.START).value;
    ConcludedIsFormed(cfg, sig, env, env.intake.value, l);
  }

  /** The precheck of a redelivered detection finds an open set. */
  predicate Found?(sets: seq<Recorded>, fp: string, at: Time, window: int) {
    var a := OpenSets(sets, fp, at - window);
    a.Sets? && a.open != []
  }

  /** The set went into the ledger with its gate passed, and then could not be
      journaled or delivered. */
  predicate Stranded(cfg: E.Config, env: E.Env, ps: ProposalSet) {
    env.recordOK && R.PassedGate(ps) && !(env.journalOK && (cfg.delivers ==> env.publishOK))
  }

  lemma BookedFinds(env: E.Env, ps: ProposalSet, sets: seq<Recorded>, now: Time, at: Time, retention: int,
                    rulings: seq<Ruling>, again: Time, window: int)
    requires ClearFor(sets, ps.signalRef, again - window) && R.EngineFormed(ps)
    ensures Found?(SettleAll(Booked(env, ps, sets, now, at, retention), rulings), ps.signalRef, again, window) <==>
            && env.recordOK && R.PassedGate(ps) && at > again - window
            && Answers(MovedBy(Recorded(ps, at), rulings), ps.signalRef)
  {
    var fp, since, e := ps.signalRef, again - window, Recorded(ps, at);
    if env.recordOK {
      var kept := Prune(sets, now - EffectiveRetention(retention));
      PruneClear(sets, now - EffectiveRetention(retention), fp, since);
      var rest := NewestMoves(kept, e, rulings, fp, since);
      MovedKeeps(e, rulings);
      OnlyNewest(rest, MovedBy(e, rulings), fp, since);
    } else {
      SettleAllClear(sets, rulings, fp, since);
      ClearForIff(SettleAll(sets, rulings), fp, since);
    }
  }

  /** A detection is swallowed when its run fails, so that it is delivered again, and
      the redelivery is skipped as already answered.  With no other set open for the
      fingerprint when the gate looked, and any rulings in between, that happens iff
      the set was stranded, is still open, and the redelivery falls inside the dedup
      window of its recording; nothing is then ever published for it. */
  lemma SwallowedIff(cfg: E.Config, sig: E.Signal, env: E.Env, ps: ProposalSet, sets: seq<Recorded>, gateAt: Time,
                     now: Time, at: Time, rulings: seq<Ruling>, again: Time, window: int, retention: int)
    requires Concludes(cfg, sig, env, ps)
    requires Dedupe.NoDupes(sets, sig.fingerprint, gateAt, window) && gateAt <= again
    ensures var later := SettleAll(Booked(env, ps, sets, now, at, retention), rulings);
            E.ExitOf(cfg, sig, env) == E.Failed && Found?(later, sig.fingerprint, again, window) <==>
              && Stranded(cfg, env, ps) && at > again - window
              && Answers(MovedBy(Recorded(ps, at), rulings), sig.fingerprint)
  {
    ConcludedIsFiled(cfg, sig, env, ps);
    ClearForIff(sets, sig.fingerprint, gateAt - window);
    assert ClearFor(sets, sig.fingerprint, again - window);
    BookedFinds(env, ps, sets, now, at, retention, rulings, again, window);
  }

  /** The skip itself: nothing published by either run. */
  lemma SwallowedPublishesNothing(cfg: E.Config, sig: E.Signal, env: E.Env, again: E.Env)
    requires E.ExitOf(cfg, sig, env) == E.Failed && again.openBefore.Some? && again.openBefore.value > 0
    ensures E.ExitOf(cfg, sig, again) == E.Skipped
    ensures E.PublishedBy(cfg, E.ExitOf(cfg, sig, env)) == [] && E.PublishedBy(cfg, E.ExitOf(cfg, sig, again)) == []
  {
  }
}
