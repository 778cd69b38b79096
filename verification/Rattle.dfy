/** Burn-rate detection and debouncing (internal/rattle/detector.go,
    internal/rattle/debounce.go, internal/rattle/reconcile.go). */
module Rattle {
  import opened Boundary
  import Seqs

  // ---- the detectors ------------------------------------------------------

  function Sum(xs: seq<real>): real {
    if xs == [] then 0.0 else Sum(xs[..|xs| - 1]) + xs[|xs| - 1]
  }

  function DiffsOf(xs: seq<real>): seq<real> {
    if |xs| < 2 then [] else seq(|xs| - 1, i requires 0 <= i < |xs| - 1 => xs[i + 1] - xs[i])
  }

  function MeanOf(xs: seq<real>): real {
    if xs == [] then 0.0 else Sum(xs) / (|xs| as real)
  }

  method Diffs(xs: seq<real>) returns (r: seq<real>)
    ensures r == DiffsOf(xs)
  {
    if |xs| < 2 {
      return [];
    }
    var out := new real[|xs| - 1];
    var i := 0;
    while i < out.Length
      invariant 0 <= i <= out.Length == |xs| - 1
      invariant forall j | 0 <= j < i :: out[j] == xs[j + 1] - xs[j]
    {
      out[i] := xs[i + 1] - xs[i];
      i := i + 1;
    }
    r := out[..];
  }

  method Mean(xs: seq<real>) returns (r: real)
    ensures r == MeanOf(xs)
  {
    if |xs| == 0 {
      return 0.0;
    }
    var sum := 0.0;
    var i := 0;
    while i < |xs|
      invariant 0 <= i <= |xs|
      invariant sum == Sum(xs[..i])
    {
      assert xs[..i + 1][..|xs[..i + 1]| - 1] == xs[..i];
      sum := sum + xs[i];
      i := i + 1;
    }
    assert xs[..i] == xs;
    return sum / (|xs| as real);
  }

  /** Differences telescope. */
  lemma {:induction false} Telescopes(xs: seq<real>)
    requires |xs| >= 1
    ensures Sum(DiffsOf(xs)) == xs[|xs| - 1] - xs[0]
  {
    if |xs| == 1 {
    } else {
      var init := xs[..|xs| - 1];
      Telescopes(init);
      if |xs| == 2 {
        assert DiffsOf(xs) == [xs[1] - xs[0]];
        assert DiffsOf(xs)[..0] == [];
      } else {
        assert DiffsOf(xs)[..|xs| - 2] == DiffsOf(init);
      }
    }
  }

  /** The mean slope and the mean second difference, in closed form: the loops only
      ever depend on the two samples at each end. */
  function Slope(xs: seq<real>): real
    requires |xs| >= 2
  {
    (xs[|xs| - 1] - xs[0]) / ((|xs| - 1) as real)
  }

  function Acceleration(xs: seq<real>): real
    requires |xs| >= 3
  {
    ((xs[|xs| - 1] - xs[|xs| - 2]) - (xs[1] - xs[0])) / ((|xs| - 2) as real)
  }

  lemma MeanSecondDifference(xs: seq<real>)
    requires |xs| >= 3
    ensures MeanOf(DiffsOf(xs)) == Slope(xs) && MeanOf(DiffsOf(DiffsOf(xs))) == Acceleration(xs)
  {
    Telescopes(xs);
    Telescopes(DiffsOf(xs));
  }

  /** AccelerationDetector.Detect, against the closed form. */
  method DetectAcceleration(window: seq<real>, threshold: real) returns (fired: bool, accel: real)
    ensures |window| < 3 ==> !fired && accel == 0.0
    ensures |window| >= 3 ==>
              && accel == Acceleration(window)
              && (fired <==> Slope(window) > 0.0 && Acceleration(window) > threshold)
  {
    if |window| < 3 {
      return false, 0.0;
    }
    var d1 := Diffs(window);
    var d2 := Diffs(d1);
    accel := Mean(d2);
    var slope := Mean(d1);
    MeanSecondDifference(window);
    fired := slope > 0.0 && accel > threshold;
  }

  /** SustainedBurnDetector.Detect: every one of the trailing samples at the level.
      A negative sample count slices past the window's end and panics. */
  method DetectSustained(window: seq<real>, threshold: real, minSamples: int)
    returns (fired: bool, level: real, panics: bool)
    ensures panics <==> minSamples < 0
    ensures fired <==> 0 < minSamples <= |window| && forall i | |window| - minSamples <= i < |window| :: window[i] >= threshold
    ensures level == if fired then window[|window| - 1] else 0.0
  {
    fired, level, panics := false, 0.0, false;
    if |window| < minSamples || minSamples == 0 {
      return;
    }
    var i := |window| - minSamples;
    if i > |window| {
      return false, 0.0, true;
    }
    while i < |window|
      invariant |window| - minSamples <= i <= |window|
      invariant forall j | |window| - minSamples <= j < i :: window[j] >= threshold
    {
      if window[i] < threshold {
        return;
      }
      i := i + 1;
    }
    return true, window[|window| - 1], false;
  }

  // ---- debouncing over passes ---------------------------------------------

  datatype Detection = Detection(fp: string, at: Time)

  /** What one watched SLO turns up in a pass.  LateError is a detector that fired
      and was let through, followed by a query error. */
  datatype Reading = SourceError | NotFresh | NotFired | Fired | LateError

  datatype Watch = Watch(object_: string, now: Time, reading: Reading)

  function Fingerprint(object_: string): string {
    "slo_burn:" + object_
  }

  /** Different objects never share a fingerprint, so none is debounced for another. */
  lemma FingerprintsDistinct(a: string, b: string)
    ensures Fingerprint(a) == Fingerprint(b) <==> a == b
  {
    assert Fingerprint(a)[9..] == a && Fingerprint(b)[9..] == b;
  }

  type Stamps = map<string, Time>

  predicate Allows(last: Stamps, hold: int, fp: string, now: Time) {
    fp in last ==> now - last[fp] >= hold
  }

  class Debouncer {
    const hold: int
    var last: Stamps

    constructor (hold: int)
      ensures this.hold == hold && last == map[]
    {
      this.hold := hold;
      last := map[];
    }

    method Allow(fp: string, now: Time) returns (ok: bool)
      modifies this
      ensures ok == Allows(old(last), hold, fp, now)
      ensures last == if ok then old(last)[fp := now] else old(last)
    {
      if fp in last && now - last[fp] < hold {
        return false;
      }
      last := last[fp := now];
      return true;
    }
  }

  /** Stamps and detections after a prefix of a pass, and whether it aborted. */
  datatype Pass = Pass(last: Stamps, out: seq<Detection>, aborted: bool)

  function PassStep(p: Pass, hold: int, w: Watch): Pass {
    var fp := Fingerprint(w.object_);
    if p.aborted then p
    else match w.reading
      case SourceError => p.(aborted := true)
      case NotFresh => p
      case NotFired => p
      case Fired =>
        if Allows(p.last, hold, fp, w.now) then Pass(p.last[fp := w.now], p.out + [Detection(fp, w.now)], false) else p
      case LateError =>
        if Allows(p.last, hold, fp, w.now) then Pass(p.last[fp := w.now], p.out, true) else p
  }

  function PassOver(last: Stamps, hold: int, watches: seq<Watch>): Pass {
    if watches == [] then Pass(last, [], false)
    else PassStep(PassOver(last, hold, watches[..|watches| - 1]), hold, watches[|watches| - 1])
  }

  /** An aborted pass emits nothing, though its stamps stay. */
  function Emitted(p: Pass): seq<Detection> {
    if p.aborted then [] else p.out
  }

  lemma {:induction false} AbortedStays(last: Stamps, hold: int, watches: seq<Watch>, i: nat)
    requires i <= |watches| && PassOver(last, hold, watches[..i]).aborted
    ensures PassOver(last, hold, watches) == PassOver(last, hold, watches[..i])
  {
    if i < |watches| {
      assert watches[..|watches| - 1][..i] == watches[..i];
      AbortedStays(last, hold, watches[..|watches| - 1], i);
    } else {
      assert watches[..i] == watches;
    }
  }

  /** Reconcile: one pass over the watched SLOs. */
  method Reconcile(d: Debouncer, watches: seq<Watch>) returns (out: seq<Detection>, ok: bool)
    modifies d
    ensures var p := PassOver(old(d.last), d.hold, watches); d.last == p.last && out == Emitted(p) && ok == !p.aborted
  {
    out, ok := [], true;
    var i := 0;
    while i < |watches|
      invariant 0 <= i <= |watches|
      invariant Pass(d.last, out, false) == PassOver(old(d.last), d.hold, watches[..i]) && ok
    {
      var w := watches[i];
      assert watches[..i + 1][..|watches[..i + 1]| - 1] == watches[..i];
      if w.reading == SourceError {
        AbortedStays(old(d.last), d.hold, watches, i + 1);
        return [], false;
      }
      if w.reading == Fired || w.reading == LateError {
        var allowed := d.Allow(Fingerprint(w.object_), w.now);
        if allowed {
          if w.reading == LateError {
            AbortedStays(old(d.last), d.hold, watches, i + 1);
            return [], false;
          }
          out := out + [Detection(Fingerprint(w.object_), w.now)];
        }
      }
      i := i + 1;
    }
    assert watches[..i] == watches;
  }

  // ---- spacing ------------------------------------------------------------

  predicate Spaced(ds: seq<Detection>, hold: int) {
    forall i, j | 0 <= i < j < |ds| && ds[i].fp == ds[j].fp :: ds[j].at - ds[i].at >= hold
  }

  /** Every emitted detection is covered by its fingerprint's stamp. */
  predicate Covered(ds: seq<Detection>, last: Stamps) {
    forall i | 0 <= i < |ds| :: ds[i].fp in last && ds[i].at <= last[ds[i].fp]
  }

  /** Stamps only move forward. */
  predicate Forward(a: Stamps, b: Stamps) {
    forall fp | fp in a :: fp in b && a[fp] <= b[fp]
  }

  lemma {:induction false} PassSpaced(before: seq<Detection>, last: Stamps, hold: int, watches: seq<Watch>)
    requires hold >= 0 && Spaced(before, hold) && Covered(before, last)
    ensures var p := PassOver(last, hold, watches);
            Spaced(before + p.out, hold) && Covered(before + p.out, p.last) && Forward(last, p.last)
  {
    if watches == [] {
      assert before + [] == before;
    } else {
      PassSpaced(before, last, hold, watches[..|watches| - 1]);
      var p, w := PassOver(last, hold, watches[..|watches| - 1]), watches[|watches| - 1];
      StepSpaced(before, p, hold, w);
    }
  }

  lemma StepSpaced(before: seq<Detection>, p: Pass, hold: int, w: Watch)
    requires hold >= 0 && Spaced(before + p.out, hold) && Covered(before + p.out, p.last)
    ensures var q := PassStep(p, hold, w);
            Spaced(before + q.out, hold) && Covered(before + q.out, q.last) && Forward(p.last, q.last)
  {
    var q, ds := PassStep(p, hold, w), before + p.out;
    if q.out != p.out {
      assert before + q.out == ds + [Detection(Fingerprint(w.object_), w.now)];
    }
  }

  /** Passes one after another, keeping their stamps. */
  function RunPasses(last: Stamps, hold: int, passes: seq<seq<Watch>>): (Stamps, seq<Detection>) {
    if passes == [] then (last, [])
    else
      var r := RunPasses(last, hold, passes[..|passes| - 1]);
      var p := PassOver(r.0, hold, passes[|passes| - 1]);
      (p.last, r.1 + Emitted(p))
  }

  lemma CoveredForward(ds: seq<Detection>, a: Stamps, b: Stamps)
    requires Covered(ds, a) && Forward(a, b)
    ensures Covered(ds, b)
  {
  }

  /** Later passes keep what was emitted before them at its distance. */
  lemma {:induction false} RunSpaced(before: seq<Detection>, last: Stamps, hold: int, passes: seq<seq<Watch>>)
    requires hold >= 0 && Spaced(before, hold) && Covered(before, last)
    ensures var r := RunPasses(last, hold, passes); Spaced(before + r.1, hold) && Covered(before + r.1, r.0)
  {
    if passes == [] {
      assert before + [] == before;
    } else {
      var init := passes[..|passes| - 1];
      RunSpaced(before, last, hold, init);
      var r := RunPasses(last, hold, init);
      var p := PassOver(r.0, hold, passes[|passes| - 1]);
      PassSpaced(before + r.1, r.0, hold, passes[|passes| - 1]);
      if p.aborted {
        CoveredForward(before + r.1, r.0, p.last);
        assert r.1 + [] == r.1;
      } else {
        Seqs.Assoc(before, r.1, p.out);
      }
    }
  }

  /** Over every history of passes, aborted ones included, whatever the clock does,
      two emitted detections of one fingerprint are at least the hold apart. */
  lemma EmissionsAreSpaced(hold: int, passes: seq<seq<Watch>>)
    requires hold >= 0
    ensures var r := RunPasses(map[], hold, passes); Spaced(r.1, hold) && Covered(r.1, r.0)
  {
    RunSpaced([], map[], hold, passes);
    var ds := RunPasses(map[], hold, passes).1;
    assert [] + ds == ds;
  }

  // ---- what an aborted pass costs -----------------------------------------

  predicate Passes(p: Pass, hold: int, w: Watch) {
    !p.aborted && (w.reading == Fired || w.reading == LateError) && Allows(p.last, hold, Fingerprint(w.object_), w.now)
  }

  /** Every detection the debouncer lets through in a pass, delivered or not. */
  function LetThrough(last: Stamps, hold: int, watches: seq<Watch>): seq<Detection> {
    if watches == [] then []
    else
      var init, w := watches[..|watches| - 1], watches[|watches| - 1];
      LetThrough(last, hold, init)
      + if Passes(PassOver(last, hold, init), hold, w) then [Detection(Fingerprint(w.object_), w.now)] else []
  }

  function Stamped(last: Stamps, ds: seq<Detection>): Stamps {
    if ds == [] then last else Stamped(last, ds[..|ds| - 1])[ds[|ds| - 1].fp := ds[|ds| - 1].at]
  }

  lemma StampedSnoc(last: Stamps, ds: seq<Detection>, d: Detection)
    ensures Stamped(last, ds + [d]) == Stamped(last, ds)[d.fp := d.at]
  {
    Seqs.Front(ds, d);
  }

  /** The stamps a pass leaves are those of what it let through, and what it delivers
      is all of that, or nothing when it aborted. */
  lemma {:induction false} PassAccounts(last: Stamps, hold: int, watches: seq<Watch>)
    ensures var p, ds := PassOver(last, hold, watches), LetThrough(last, hold, watches);
            p.last == Stamped(last, ds) && (!p.aborted ==> p.out == ds)
  {
    if watches == [] {
    } else {
      var init, w := watches[..|watches| - 1], watches[|watches| - 1];
      PassAccounts(last, hold, init);
      AccountStep(last, PassOver(last, hold, init), LetThrough(last, hold, init), hold, w);
    }
  }

  lemma AccountStep(last: Stamps, p: Pass, ds: seq<Detection>, hold: int, w: Watch)
    requires p.last == Stamped(last, ds) && (!p.aborted ==> p.out == ds)
    ensures var q := PassStep(p, hold, w);
            var ds' := ds + if Passes(p, hold, w) then [Detection(Fingerprint(w.object_), w.now)] else [];
            q.last == Stamped(last, ds') && (!q.aborted ==> q.out == ds')
  {
    if Passes(p, hold, w) {
      StampedSnoc(last, ds, Detection(Fingerprint(w.object_), w.now));
    } else {
      assert ds + [] == ds;
    }
  }

  /** Watch `i` ends the pass: its burn, correlation or baseline query fails, or its
      traffic query does after the debouncer has let its detection through. */
  predicate EndsPass(last: Stamps, hold: int, watches: seq<Watch>, i: nat)
    requires i < |watches|
  {
    var w := watches[i];
    || w.reading == SourceError
    || (w.reading == LateError && Allows(PassOver(last, hold, watches[..i]).last, hold, Fingerprint(w.object_), w.now))
  }

  /** Some query the pass comes to fails. */
  predicate QueryFails(last: Stamps, hold: int, watches: seq<Watch>) {
    exists i | 0 <= i < |watches| :: EndsPass(last, hold, watches, i)
  }

  lemma EndsPassPrefix(last: Stamps, hold: int, watches: seq<Watch>, i: nat)
    requires i < |watches| - 1
    ensures EndsPass(last, hold, watches, i) <==> EndsPass(last, hold, watches[..|watches| - 1], i)
  {
    assert watches[..|watches| - 1][..i] == watches[..i];
  }

  /** A pass aborts iff some query it comes to fails. */
  lemma {:induction false} AbortedIff(last: Stamps, hold: int, watches: seq<Watch>)
    ensures PassOver(last, hold, watches).aborted <==> QueryFails(last, hold, watches)
  {
    if watches == [] {
    } else {
      var init, n := watches[..|watches| - 1], |watches| - 1;
      AbortedIff(last, hold, init);
      if QueryFails(last, hold, init) {
        var i :| 0 <= i < |init| && EndsPass(last, hold, init, i);
        EndsPassPrefix(last, hold, watches, i);
        assert EndsPass(last, hold, watches, i);
      } else {
        forall i | 0 <= i < n ensures !EndsPass(last, hold, watches, i) {
          EndsPassPrefix(last, hold, watches, i);
        }
        assert PassOver(last, hold, watches).aborted <==> EndsPass(last, hold, watches, n);
      }
    }
  }

  /** In every pass: whatever was let through, and so stamped, is delivered iff no
      query the pass comes to fails, that of a later SLO included. */
  lemma DeliveredIff(last: Stamps, hold: int, watches: seq<Watch>, i: nat)
    requires i < |LetThrough(last, hold, watches)|
    ensures LetThrough(last, hold, watches)[i] in Emitted(PassOver(last, hold, watches)) <==>
            !QueryFails(last, hold, watches)
  {
    AbortedIff(last, hold, watches);
    PassAccounts(last, hold, watches);
  }

  predicate Mentions(ds: seq<Detection>, fp: string) {
    exists i | 0 <= i < |ds| :: ds[i].fp == fp
  }

  lemma {:induction false} StampedIff(last: Stamps, ds: seq<Detection>, fp: string)
    ensures Mentions(ds, fp) ==> fp in Stamped(last, ds) && Detection(fp, Stamped(last, ds)[fp]) in ds
    ensures !Mentions(ds, fp) ==> (fp in Stamped(last, ds) <==> fp in last) && (fp in last ==> Stamped(last, ds)[fp] == last[fp])
  {
    if ds == [] {
    } else {
      var init, d := ds[..|ds| - 1], ds[|ds| - 1];
      StampedIff(last, init, fp);
      assert d in ds;
      if Mentions(init, fp) {
        var i :| 0 <= i < |init| && init[i].fp == fp;
        assert ds[i].fp == fp;
      } else {
        assert forall i | 0 <= i < |init| :: ds[i] == init[i];
      }
    }
  }

  /** Everything later passes let through. */
  function AllLetThrough(last: Stamps, hold: int, passes: seq<seq<Watch>>): seq<Detection> {
    if passes == [] then []
    else
      var init := passes[..|passes| - 1];
      AllLetThrough(last, hold, init) + LetThrough(RunPasses(last, hold, init).0, hold, passes[|passes| - 1])
  }

  lemma MentionsConcat(a: seq<Detection>, b: seq<Detection>, fp: string)
    ensures Mentions(a + b, fp) <==> Mentions(a, fp) || Mentions(b, fp)
  {
    if Mentions(a, fp) {
      var i :| 0 <= i < |a| && a[i].fp == fp;
      assert (a + b)[i].fp == fp;
    } else if Mentions(b, fp) {
      var i :| 0 <= i < |b| && b[i].fp == fp;
      assert (a + b)[|a| + i].fp == fp;
    } else {
      assert forall i | 0 <= i < |a + b| :: (a + b)[i] == if i < |a| then a[i] else b[i - |a|];
    }
  }

  lemma PassKeepsStamp(last: Stamps, hold: int, watches: seq<Watch>, fp: string)
    requires fp in last && !Mentions(LetThrough(last, hold, watches), fp)
    ensures var p := PassOver(last, hold, watches); fp in p.last && p.last[fp] == last[fp]
  {
    PassAccounts(last, hold, watches);
    StampedIff(last, LetThrough(last, hold, watches), fp);
  }

  lemma {:induction false} RunKeepsStamp(last: Stamps, hold: int, passes: seq<seq<Watch>>, fp: string)
    requires fp in last && !Mentions(AllLetThrough(last, hold, passes), fp)
    ensures var r := RunPasses(last, hold, passes).0; fp in r && r[fp] == last[fp]
  {
    if passes == [] {
    } else {
      var init, pass := passes[..|passes| - 1], passes[|passes| - 1];
      var r := RunPasses(last, hold, init).0;
      MentionsConcat(AllLetThrough(last, hold, init), LetThrough(r, hold, pass), fp);
      RunKeepsStamp(last, hold, init, fp);
      PassKeepsStamp(r, hold, pass, fp);
    }
  }

  lemma LaterThanStamp(stamps: Stamps, hold: int, fp: string, later: seq<seq<Watch>>)
    requires hold >= 0 && fp in stamps
    ensures var ds := RunPasses(stamps, hold, later).1;
            forall j | 0 <= j < |ds| && ds[j].fp == fp :: ds[j].at - stamps[fp] >= hold
  {
    var before, ds := [Detection(fp, stamps[fp])], RunPasses(stamps, hold, later).1;
    RunSpaced(before, stamps, hold, later);
    forall j | 0 <= j < |ds| && ds[j].fp == fp ensures ds[j].at - stamps[fp] >= hold {
      assert (before + ds)[0] == before[0] && (before + ds)[j + 1] == ds[j];
    }
  }

  /** The price of a failing query, on any SLO: nothing the pass let through is
      delivered, and no later pass delivers one of those fingerprints before the hold
      since its stamp is over. */
  lemma AbortSwallows(last: Stamps, hold: int, watches: seq<Watch>, fp: string, later: seq<seq<Watch>>)
    requires hold >= 0 && QueryFails(last, hold, watches) && Mentions(LetThrough(last, hold, watches), fp)
    ensures var p := PassOver(last, hold, watches);
            && Emitted(p) == [] && fp in p.last && Detection(fp, p.last[fp]) in LetThrough(last, hold, watches)
            && var ds := RunPasses(p.last, hold, later).1;
               forall j | 0 <= j < |ds| && ds[j].fp == fp :: ds[j].at - p.last[fp] >= hold
  {
    var p := PassOver(last, hold, watches);
    AbortedIff(last, hold, watches);
    PassAccounts(last, hold, watches);
    StampedIff(last, LetThrough(last, hold, watches), fp);
    LaterThanStamp(p.last, hold, fp, later);
  }

  /** And exactly then: however many passes later, the next firing of a stamped
      fingerprint gets through iff the hold since the stamp is over. */
  lemma NextPassesIff(stamps: Stamps, hold: int, later: seq<seq<Watch>>, pass: seq<Watch>, w: Watch)
    requires Fingerprint(w.object_) in stamps && (w.reading == Fired || w.reading == LateError)
    requires !Mentions(AllLetThrough(stamps, hold, later), Fingerprint(w.object_))
    requires var r := RunPasses(stamps, hold, later).0;
             !PassOver(r, hold, pass).aborted && !Mentions(LetThrough(r, hold, pass), Fingerprint(w.object_))
    ensures var r, fp := RunPasses(stamps, hold, later).0, Fingerprint(w.object_);
            LetThrough(r, hold, pass + [w]) == LetThrough(r, hold, pass)
              + if w.now - stamps[fp] >= hold then [Detection(fp, w.now)] else []
  {
    var r, fp := RunPasses(stamps, hold, later).0, Fingerprint(w.object_);
    RunKeepsStamp(stamps, hold, later, fp);
    PassKeepsStamp(r, hold, pass, fp);
    Seqs.Front(pass, w);
  }
}
