/** Shipping preserves order: over any number of process lives, crashes and recoveries
    given up half way included, what the sink holds is at every moment a prefix of
    what was appended and survived, recovery's leftover copies aside, as long as every
    (re)start finds no segment numbered above the count it numbers from. */
module WalOrder {
  import opened Boundary
  import opened Framing
  import opened Decimal
  import opened Segments
  import opened Wal
  import opened WalSafety
  import Seqs

  // ---- numbering ----------------------------------------------------------

  /** Instants with as many digits as those of the years 2001 to 2286. */
  predicate ClockOK(t: Time) {
    0 <= t <= MAX_INT64 && |Digits(t)| == 19
  }

  predicate KeyOK(k: Key) {
    InRange(k) && ClockOK(k.nanos)
  }

  /** nextBaseOffset counts segments.  The name it leads to sorts after every
      segment present iff none of them carries an offset above that count. */
  lemma NextNameSortsLastIff(keys: seq<Key>, now: Time)
    requires forall i | 0 <= i < |keys| :: KeyOK(keys[i]) && keys[i].nanos < now
    requires ClockOK(now) && |keys| <= MAX_INT64
    ensures (forall i | 0 <= i < |keys| :: Before(keys[i], Key(|keys|, now)))
       <==> (forall i | 0 <= i < |keys| :: keys[i].offset <= |keys|)
  {
    forall i | 0 <= i < |keys|
      ensures Before(keys[i], Key(|keys|, now)) <==> keys[i].offset <= |keys|
    {
      SortsAfterIff(keys[i], |keys|, now);
    }
  }

  lemma SortsAfterIff(k: Key, offset: nat, now: Time)
    requires KeyOK(k) && ClockOK(now) && k.nanos < now && offset <= MAX_INT64
    ensures Before(k, Key(offset, now)) <==> k.offset <= offset
  {
    var next := Key(offset, now);
    if k.offset < offset {
      NamesSortByOffset(k, next);
    } else if k.offset > offset {
      NamesSortByOffset(next, k);
    } else {
      NamesSortByTime(k, next);
    }
  }

  /** After shipping and a restart the count falls below the offsets still on disk,
      and the next segment jumps the queue. */
  lemma ReusedOffsetJumpsQueue(k: Key, now: Time)
    requires KeyOK(k) && ClockOK(now) && k.nanos < now && k.offset > 1
    ensures Before(Key(1, now), k)
  {
    NamesSortByOffset(Key(1, now), k);
  }

  // ---- content in order ---------------------------------------------------

  function SegLines(segs: seq<Segment>): seq<Bytes> {
    if segs == [] then []
    else SegLines(segs[..|segs| - 1]) + LinesOf(segs[|segs| - 1])
  }

  function SinkLines(objs: seq<Object>): seq<Bytes> {
    if objs == [] then [] else SinkLines(objs[..|objs| - 1]) + ObjectLines(objs[|objs| - 1])
  }

  /** A copy left behind by a recovery that did not finish repeats lines held
      elsewhere; it is not counted. */
  function ObjectLines(o: Object): seq<Bytes> {
    if o.copy then [] else Lines(o.data)
  }

  /** Everything, oldest first: the sink, then the sealed segments in listing
      order, then the active file. */
  function Content(s: State): seq<Bytes> {
    SinkLines(s.archive) + SegLines(s.sealed) + Lines(ActiveBytes(s))
  }

  lemma SegLinesSnoc(segs: seq<Segment>, x: Segment)
    ensures SegLines(segs + [x]) == SegLines(segs) + LinesOf(x)
  {
    Seqs.Front(segs, x);
  }

  function LinesOf(x: Segment): seq<Bytes> {
    if x.copy then [] else Lines(x.file.data)
  }

  lemma {:induction false} SegLinesHead(segs: seq<Segment>)
    requires segs != []
    ensures SegLines(segs) == LinesOf(segs[0]) + SegLines(segs[1..])
  {
    if |segs| == 1 {
      assert segs[..0] == [] && segs[1..] == [];
    } else {
      var init, last := segs[..|segs| - 1], segs[|segs| - 1];
      SegLinesHead(init);
      Seqs.Unsnoc(segs);
      Seqs.TailFront(segs);
      SegLinesSnoc(init, last);
      SegLinesSnoc(init[1..], last);
      Seqs.Assoc(LinesOf(segs[0]), SegLines(init[1..]), LinesOf(last));
    }
  }

  lemma {:induction false} SegLinesSame(a: seq<Segment>, b: seq<Segment>)
    requires |a| == |b|
    requires forall i | 0 <= i < |a| :: a[i].copy == b[i].copy && (!a[i].copy ==> a[i].file.data == b[i].file.data)
    ensures SegLines(a) == SegLines(b)
  {
    if a == [] {
    } else {
      SegLinesSame(a[..|a| - 1], b[..|b| - 1]);
    }
  }

  lemma SinkLinesSnoc(objs: seq<Object>, o: Object)
    ensures SinkLines(objs + [o]) == SinkLines(objs) + ObjectLines(o)
  {
    assert (objs + [o])[..|objs|] == objs;
  }

  // ---- orderly runs -------------------------------------------------------

  /** The shipper always at the head of the listing (it stops at its first failure)
      and off the segment recovery is writing, and every (re)start above what it
      finds. */
  predicate Orderly(s: State, t: Step) {
    match t
    case Put(i) => i == 0 && i < |s.sealed| && !IsTarget(s, s.sealed[i])
    case Unlink(i) => i == 0
    case Rename(nanos) => ClockOK(nanos)
    case BeginRecover(nanos) => ClockOK(nanos) && StartsAbove(s)
    case OpenFresh => s.mode.Down? ==> StartsAbove(s)
    case _ => true
  }

  /** The numbering condition a (re)start needs. */
  predicate StartsAbove(s: State) {
    |s.sealed| <= MAX_INT64 && forall i | 0 <= i < |s.sealed| :: s.sealed[i].key.offset <= |s.sealed|
  }

  predicate Numbered(s: State) {
    && (forall i | 0 <= i < |s.sealed| :: KeyOK(s.sealed[i].key))
    && (!s.mode.Down? ==> forall i | 0 <= i < |s.sealed| :: s.sealed[i].key.offset <= s.base)
    && (s.mode.Recovering? ==> TargetLast(s))
  }

  /** While recovery runs, its target is the last segment listed. */
  predicate TargetLast(s: State)
    requires s.mode.Recovering?
  {
    && |s.sealed| > 0
    && s.sealed[|s.sealed| - 1].key == s.mode.target && s.sealed[|s.sealed| - 1].copy && !s.sealed[|s.sealed| - 1].armed
    && s.mode.shipped.None?
  }

  predicate OrderInv(s: State) {
    Inv(s) && Tight(s) && Numbered(s)
  }

  function Added(t: Step): seq<Bytes> {
    if t.Write? then [t.line] else []
  }

  lemma InsertLast(s: State, x: Segment)
    requires SegsOK(s) && KeyOK(x.key) && s.clock < x.key.nanos
    requires forall i | 0 <= i < |s.sealed| :: KeyOK(s.sealed[i].key) && s.sealed[i].key.offset <= x.key.offset
    ensures Insert(s.sealed, x) == s.sealed + [x]
  {
    if s.sealed != [] {
      var last := s.sealed[|s.sealed| - 1];
      assert SegOK(last, s);
      SortsAfterIff(last.key, x.key.offset, x.key.nanos);
    }
  }

  /** Regrouping: content is a concatenation of three parts. */
  lemma Regroup<T>(a: seq<T>, b: seq<T>, c: seq<T>, x: seq<T>)
    ensures a + b + (c + x) == a + b + c + x
    ensures a + (b + c) + [] == a + b + c
    ensures (a + x) + b + c == a + (x + b) + c
  {
  }

  lemma WriteInOrder(s: State, l: Bytes)
    requires Shape(s) && Numbered(s) && Enabled(s, Write(l))
    ensures Content(Do(s, Write(l))) == Content(s) + [l] && Numbered(Do(s, Write(l)))
  {
    LinesSnoc(s.active.value.data, l);
    Regroup(SinkLines(s.archive), SegLines(s.sealed), Lines(s.active.value.data), [l]);
  }

  lemma InsertedNumbered(s: State, x: Segment, s': State)
    requires Numbered(s) && !s.mode.Recovering?
    requires s'.sealed == s.sealed + [x] && KeyOK(x.key)
    requires forall i | 0 <= i < |s.sealed| :: s.sealed[i].key.offset <= x.key.offset
    requires !s'.mode.Down? && x.key.offset <= s'.base
    requires s'.mode.Recovering? ==> s'.mode.target == x.key && x.copy && !x.armed && s'.mode.shipped.None?
    ensures Numbered(s')
  {
  }

  lemma RenameInOrder(s: State, nanos: Time)
    requires Shape(s) && Numbered(s) && Enabled(s, Rename(nanos)) && ClockOK(nanos) && s.base <= MAX_INT64
    ensures Content(Do(s, Rename(nanos))) == Content(s) && Numbered(Do(s, Rename(nanos)))
  {
    var x := Segment(Key(s.base, nanos), s.active.value, None, false, false, false);
    InsertLast(s, x);
    InsertedNumbered(s, x, Do(s, Rename(nanos)));
    SegLinesSnoc(s.sealed, x);
    assert Lines([]) == [];
    Regroup(SinkLines(s.archive), SegLines(s.sealed), Lines(s.active.value.data), []);
  }

  lemma BeginRecoverNumbered(s: State, nanos: Time)
    requires Shape(s) && Numbered(s) && Enabled(s, BeginRecover(nanos)) && ClockOK(nanos) && StartsAbove(s)
    ensures Numbered(Do(s, BeginRecover(nanos)))
    ensures Do(s, BeginRecover(nanos)).sealed
         == s.sealed + [Segment(Key(|s.sealed|, nanos), File([], 0), None, false, true, true)]
  {
    var x := Segment(Key(|s.sealed|, nanos), File([], 0), None, false, true, true);
    InsertLast(s, x);
    InsertedNumbered(s, x, Do(s, BeginRecover(nanos)));
  }

  lemma BeginRecoverInOrder(s: State, nanos: Time)
    requires Shape(s) && Numbered(s) && Enabled(s, BeginRecover(nanos)) && ClockOK(nanos) && StartsAbove(s)
    ensures Content(Do(s, BeginRecover(nanos))) == Content(s) && Numbered(Do(s, BeginRecover(nanos)))
  {
    BeginRecoverNumbered(s, nanos);
    SegLinesSnoc(s.sealed, Segment(Key(|s.sealed|, nanos), File([], 0), None, false, true, true));
    assert SegLines(s.sealed) + [] == SegLines(s.sealed);
  }

  lemma TargetAt(s: State)
    requires Numbered(s) && s.mode.Recovering?
    ensures Find(s.sealed, s.mode.target) == Some(|s.sealed| - 1)
  {
  }

  lemma RecoverInOrder(s: State, t: Step)
    requires Numbered(s) && Enabled(s, t) && (t.RecoverWrite? || t.RecoverSync?)
    ensures Content(Do(s, t)) == Content(s) && Numbered(Do(s, t))
  {
    TargetAt(s);
    SegLinesSame(s.sealed, Do(s, t).sealed);
  }

  lemma RecoverRemoveNumbered(s: State)
    requires Shape(s) && Numbered(s) && Enabled(s, RecoverRemove)
    ensures Numbered(Do(s, RecoverRemove))
  {
    TargetAt(s);
  }

  /** Turning the last segment from a copy into the holder of its lines. */
  lemma LastHolds(segs: seq<Segment>, x: Segment)
    requires segs != [] && segs[|segs| - 1].copy && !x.copy
    ensures SegLines(segs[|segs| - 1 := x]) == SegLines(segs) + Lines(x.file.data)
  {
    var init, was := segs[..|segs| - 1], segs[|segs| - 1];
    Seqs.Unsnoc(segs);
    Seqs.UpdateEnd(segs, x);
    SegLinesSnoc(init, was);
    SegLinesSnoc(init, x);
    assert SegLines(init) + [] == SegLines(init);
  }

  lemma RecoverRemoveInOrder(s: State)
    requires Shape(s) && Numbered(s) && Enabled(s, RecoverRemove)
    ensures Content(Do(s, RecoverRemove)) == Content(s) && Numbered(Do(s, RecoverRemove))
  {
    TargetAt(s);
    RecoverRemoveNumbered(s);
    var s', n := Do(s, RecoverRemove), |s.sealed| - 1;
    LastHolds(s.sealed, s'.sealed[n]);
    CompleteAndTail(s.active.value.data);
    assert Lines([]) == [];
    Regroup(SinkLines(s.archive), SegLines(s.sealed), Lines(s.active.value.data), []);
  }

  lemma HeadIsWhole(s: State)
    requires Shape(s) && Tight(s) && Numbered(s) && Enabled(s, Unlink(0))
    ensures s.sealed[0].uploaded == Some(s.sealed[0].file.data) && !IsTarget(s, s.sealed[0])
    ensures s.mode.Recovering? ==> |s.sealed| > 1
  {
    assert SegOK(s.sealed[0], s);
    if s.mode.Recovering? {
      assert s.sealed[0].key != s.mode.target;
    }
  }

  lemma UnlinkNumbered(s: State)
    requires Shape(s) && Tight(s) && Numbered(s) && Enabled(s, Unlink(0))
    ensures Numbered(Do(s, Unlink(0))) && Do(s, Unlink(0)).sealed == s.sealed[1..]
  {
    HeadIsWhole(s);
    var s' := Do(s, Unlink(0));
    assert s'.sealed == s.sealed[1..];
    forall i | 0 <= i < |s'.sealed| ensures s'.sealed[i] == s.sealed[i + 1] {
    }
  }

  lemma UnlinkInOrder(s: State)
    requires Shape(s) && Tight(s) && Numbered(s) && Enabled(s, Unlink(0))
    ensures Content(Do(s, Unlink(0))) == Content(s) && Numbered(Do(s, Unlink(0)))
  {
    var s', seg := Do(s, Unlink(0)), s.sealed[0];
    HeadIsWhole(s);
    UnlinkNumbered(s);
    SegLinesHead(s.sealed);
    SinkLinesSnoc(s.archive, Object(seg.key, seg.uploaded.value, seg.copy));
    Regroup(SinkLines(s.archive), SegLines(s'.sealed), Lines(ActiveBytes(s)), LinesOf(seg));
  }

  lemma PutNumbered(s: State)
    requires Numbered(s) && Enabled(s, Put(0)) && Orderly(s, Put(0))
    ensures Numbered(Do(s, Put(0)))
  {
    var s' := Do(s, Put(0));
    assert forall i | 0 <= i < |s.sealed| :: s'.sealed[i].key == s.sealed[i].key && s'.sealed[i].copy == s.sealed[i].copy;
  }

  lemma PutInOrder(s: State)
    requires Shape(s) && Numbered(s) && Enabled(s, Put(0)) && Orderly(s, Put(0))
    ensures Content(Do(s, Put(0))) == Content(s) && Numbered(Do(s, Put(0)))
  {
    PutNumbered(s);
    SegLinesSame(s.sealed, Do(s, Put(0)).sealed);
  }

  lemma OpenFreshInOrder(s: State)
    requires Shape(s) && Numbered(s) && Enabled(s, OpenFresh) && Orderly(s, OpenFresh)
    ensures Content(Do(s, OpenFresh)) == Content(s) && Numbered(Do(s, OpenFresh))
  {
    assert Lines([]) == [];
  }

  lemma QuietInOrder(s: State, t: Step)
    requires Shape(s) && Numbered(s) && Enabled(s, t) && Orderly(s, t)
    requires t.Sync? || t.BeginSeal? || t.CloseHandle? || t.GiveUp?
    ensures Content(Do(s, t)) == Content(s) && Numbered(Do(s, t))
  {
    var s' := Do(s, t);
    assert s'.sealed == s.sealed && s'.archive == s.archive && ActiveBytes(s') == ActiveBytes(s) && s'.base == s.base;
    SameNumbering(s, s');
  }

  lemma SameNumbering(s: State, s': State)
    requires Numbered(s) && s'.sealed == s.sealed && s'.base == s.base
    requires s'.mode == s.mode || s'.mode.Down? || (!s.mode.Down? && !s'.mode.Recovering?)
    ensures Numbered(s')
  {
  }

  // ---- crashes ------------------------------------------------------------

  /** How many lines a step tears off the end of the active file. */
  function TornLines(s: State, t: Step): (n: nat)
    requires Enabled(s, t)
    ensures n <= |Lines(ActiveBytes(s))|
  {
    if t.Crash? && s.active.Some? then
      LinesOfPrefix(s.active.value.data, t.cut);
      |Lines(s.active.value.data)| - |Lines(s.active.value.data[..t.cut])|
    else 0
  }

  /** What a step makes of the lines so far: an append adds one, a crash takes the
      torn ones off the end. */
  function Next(s: State, t: Step, xs: seq<Bytes>): seq<Bytes>
    requires Enabled(s, t)
  {
    if TornLines(s, t) <= |xs| then xs[..|xs| - TornLines(s, t)] + Added(t) else Added(t)
  }

  lemma TornSegLines(segs: seq<Segment>, cuts: seq<nat>, s: State)
    requires SegsOK(s) && s.sealed == segs && CutsFit(segs, cuts)
    ensures SegLines(TornAll(segs, cuts)) == SegLines(segs)
  {
    var torn := TornAll(segs, cuts);
    forall i | 0 <= i < |segs|
      ensures torn[i].copy == segs[i].copy && (!segs[i].copy ==> torn[i].file.data == segs[i].file.data)
    {
      assert SegOK(segs[i], s);
      if !segs[i].copy {
        assert segs[i].file.data[..cuts[i]] == segs[i].file.data;
      }
    }
    SegLinesSame(segs, torn);
  }

  lemma CutTail<T>(a: seq<T>, b: seq<T>, c: seq<T>, n: nat)
    requires n <= |c|
    ensures (a + b + c)[..|a + b + c| - n] == a + b + c[..|c| - n]
  {
  }

  lemma CrashActive(s: State, cut: nat, cuts: seq<nat>)
    requires Enabled(s, Crash(cut, cuts))
    ensures var t, lines := Crash(cut, cuts), Lines(ActiveBytes(s));
            Lines(ActiveBytes(Do(s, t))) == lines[..|lines| - TornLines(s, t)]
  {
    var lines := Lines(ActiveBytes(s));
    if s.active.Some? {
      LinesOfPrefix(s.active.value.data, cut);
    } else {
      assert lines[..|lines|] == lines;
    }
  }

  lemma CrashContent(s: State, cut: nat, cuts: seq<nat>)
    requires Shape(s) && Enabled(s, Crash(cut, cuts))
    ensures Content(Do(s, Crash(cut, cuts))) == Next(s, Crash(cut, cuts), Content(s))
  {
    var t := Crash(cut, cuts);
    TornSegLines(s.sealed, cuts, s);
    CrashActive(s, cut, cuts);
    CutTail(SinkLines(s.archive), SegLines(s.sealed), Lines(ActiveBytes(s)), TornLines(s, t));
    NoneAdded(Content(s)[..|Content(s)| - TornLines(s, t)]);
  }

  lemma NoneAdded<T>(xs: seq<T>)
    ensures xs + [] == xs && xs[..|xs|] == xs
  {
  }

  lemma CrashNumbered(s: State, cut: nat, cuts: seq<nat>)
    requires Numbered(s) && Enabled(s, Crash(cut, cuts))
    ensures Numbered(Do(s, Crash(cut, cuts)))
  {
  }

  lemma StepContent(s: State, t: Step)
    requires Shape(s) && Tight(s) && Numbered(s) && Enabled(s, t) && Orderly(s, t) && s.base <= MAX_INT64
    ensures Numbered(Do(s, t)) && Content(Do(s, t)) == Next(s, t, Content(s))
  {
    if t.Crash? {
      CrashNumbered(s, t.cut, t.cuts);
      CrashContent(s, t.cut, t.cuts);
    } else {
      NoneAdded(Content(s));
      if t.Write? {
        WriteInOrder(s, t.line);
      } else {
        SilentStep(s, t);
      }
    }
  }

  lemma SilentStep(s: State, t: Step)
    requires Shape(s) && Tight(s) && Numbered(s) && Enabled(s, t) && Orderly(s, t) && s.base <= MAX_INT64 && !t.Write? && !t.Crash?
    ensures Numbered(Do(s, t)) && Content(Do(s, t)) == Content(s)
  {
    if t.Rename? {
      RenameInOrder(s, t.nanos);
    } else if t.BeginRecover? {
      BeginRecoverInOrder(s, t.nanos);
    } else if t.RecoverWrite? || t.RecoverSync? {
      RecoverInOrder(s, t);
    } else if t.RecoverRemove? {
      RecoverRemoveInOrder(s);
    } else if t.Unlink? {
      UnlinkInOrder(s);
    } else if t.Put? {
      PutInOrder(s);
    } else if t.OpenFresh? {
      OpenFreshInOrder(s);
    } else {
      QuietInOrder(s, t);
    }
  }

  lemma StepInOrder(s: State, t: Step)
    requires OrderInv(s) && Enabled(s, t) && Orderly(s, t) && s.base <= MAX_INT64
    ensures OrderInv(Do(s, t)) && Content(Do(s, t)) == Next(s, t, Content(s))
  {
    StepKeeps(s, t);
    TightStep(s, t);
    StepContent(s, t);
  }

  predicate OrderlyRun(s: State, trace: seq<Step>)
    decreases trace
  {
    trace == [] || (Enabled(s, trace[0]) && Orderly(s, trace[0]) && s.base <= MAX_INT64
                    && OrderlyRun(Do(s, trace[0]), trace[1..]))
  }

  function OrderlyEnd(s: State, trace: seq<Step>): State
    requires OrderlyRun(s, trace)
    decreases trace
  {
    if trace == [] then s else OrderlyEnd(Do(s, trace[0]), trace[1..])
  }

  function Appended(trace: seq<Step>): seq<Bytes> {
    if trace == [] then [] else Added(trace[0]) + Appended(trace[1..])
  }

  /** The lines that survive a run begun with `xs`, in order. */
  function Survivors(s: State, trace: seq<Step>, xs: seq<Bytes>): seq<Bytes>
    requires OrderlyRun(s, trace)
    decreases trace
  {
    if trace == [] then xs else Survivors(Do(s, trace[0]), trace[1..], Next(s, trace[0], xs))
  }

  predicate Crashless(t: seq<Step>) {
    forall i | 0 <= i < |t| :: !t[i].Crash?
  }

  /** Without a crash everything survives. */
  lemma {:induction false} AllSurvive(s: State, trace: seq<Step>, xs: seq<Bytes>)
    requires OrderlyRun(s, trace) && Crashless(trace)
    ensures Survivors(s, trace, xs) == xs + Appended(trace)
    decreases trace
  {
    if trace == [] {
      NoneAdded(xs);
    } else {
      NoneAdded(xs);
      AllSurvive(Do(s, trace[0]), trace[1..], xs + Added(trace[0]));
      Seqs.Assoc(xs, Added(trace[0]), Appended(trace[1..]));
    }
  }

  lemma {:induction false} ContentGrows(s: State, trace: seq<Step>)
    requires OrderInv(s) && OrderlyRun(s, trace)
    ensures OrderInv(OrderlyEnd(s, trace))
    ensures Content(OrderlyEnd(s, trace)) == Survivors(s, trace, Content(s))
    decreases trace
  {
    if trace == [] {
    } else {
      StepInOrder(s, trace[0]);
      ContentGrows(Do(s, trace[0]), trace[1..]);
    }
  }

  /** The order theorem: with failing uploads, failed removes, recoveries given up and
      crashes anywhere in the run, the content in order is what was there at the start
      followed by what was appended, less what crashes tore off the end; the sink
      always holds a prefix of it, and all of it once nothing is sealed and the active
      file is empty. */
  lemma ShippingPreservesOrder(s: State, trace: seq<Step>)
    requires OrderInv(s) && OrderlyRun(s, trace)
    ensures var s', lines := OrderlyEnd(s, trace), Survivors(s, trace, Content(s));
            && Content(s') == lines && SinkLines(s'.archive) <= lines
            && (s'.sealed == [] && ActiveBytes(s') == [] ==> SinkLines(s'.archive) == lines)
            && (Crashless(trace) ==> lines == Content(s) + Appended(trace))
  {
    ContentGrows(s, trace);
    assert Lines([]) == [];
    if Crashless(trace) {
      AllSurvive(s, trace, Content(s));
    }
  }

  /** Everything stored, copies and all. */
  function StoredLines(objs: seq<Object>): seq<Bytes> {
    if objs == [] then [] else StoredLines(objs[..|objs| - 1]) + Lines(objs[|objs| - 1].data)
  }

  predicate EmptyCopies(objs: seq<Object>) {
    forall i | 0 <= i < |objs| :: objs[i].copy ==> Lines(objs[i].data) == []
  }

  lemma EmptyCopiesSnoc(objs: seq<Object>, o: Object)
    ensures EmptyCopies(objs + [o]) <==> EmptyCopies(objs) && (o.copy ==> Lines(o.data) == [])
  {
    var all := objs + [o];
    assert all[|objs|] == o && forall i | 0 <= i < |objs| :: all[i] == objs[i];
  }

  lemma {:induction false} NoFewerStored(objs: seq<Object>)
    ensures |SinkLines(objs)| <= |StoredLines(objs)|
    ensures |SinkLines(objs)| == |StoredLines(objs)| <==> EmptyCopies(objs)
  {
    if objs == [] {
    } else {
      var init, last := objs[..|objs| - 1], objs[|objs| - 1];
      NoFewerStored(init);
      Seqs.Unsnoc(objs);
      EmptyCopiesSnoc(init, last);
    }
  }

  lemma {:induction false} EmptyCopiesStored(objs: seq<Object>)
    requires EmptyCopies(objs)
    ensures StoredLines(objs) == SinkLines(objs)
  {
    if objs == [] {
    } else {
      EmptyCopiesStored(objs[..|objs| - 1]);
    }
  }

  /** What a reader of the bucket sees is in order and without repeats iff no copy that
      was shipped holds a line. */
  lemma StoredIsSinkIff(objs: seq<Object>)
    ensures StoredLines(objs) == SinkLines(objs) <==> EmptyCopies(objs)
  {
    NoFewerStored(objs);
    if EmptyCopies(objs) {
      EmptyCopiesStored(objs);
    }
  }
}
