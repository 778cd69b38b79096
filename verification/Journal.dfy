/** The WAL object (internal/publish/wal.go:89-310, internal/publish/shipper.go:27-86):
    each method is the sequence of system calls the code makes, with every I/O
    result an input, and is proved to be a legal run of the step machine. */
module Journal {
  import opened Boundary
  import opened Decimal
  import opened Framing
  import opened Segments
  import opened Wal
  import opened WalSafety
  import opened WalOrder
  import Seqs

  const DEFAULT_MAX_BYTES: int := 64 * 1024 * 1024
  const DEFAULT_MAX_AGE: int := 600 * 1_000_000_000

  /** The results of the calls one seal makes, and the clock read in the middle. */
  datatype SealIO = SealIO(syncOK: bool, closeOK: bool, now: Time, renameOK: bool, openOK: bool)

  /** The same for recoverOrphan; `wrote` is how far its one Write got. */
  datatype RecoverIO = RecoverIO(now: Time, createOK: bool, wrote: nat, syncOK: bool, removeOK: bool)

  /** One Append's: the record as a line (None when it does not marshal), the
      clock at its age check, and what each call returns. */
  datatype AppendIO = AppendIO(cancelled: bool, recover: RecoverIO, openOK: bool, openedAt: Time,
                               now: Time, stale: SealIO, line: Option<Bytes>, writeOK: bool, full: SealIO)

  datatype ShipIO = ShipClean | PutFails(at: nat) | RemoveFails(at: nat)

  // ---- runs, extended one step at a time ----------------------------------

  lemma {:induction false} LegalSnoc(s: State, t: seq<Step>, x: Step)
    requires Legal(s, t) && Enabled(Run(s, t), x) && !Races(Run(s, t), x)
    ensures Legal(s, t + [x]) && Run(s, t + [x]) == Do(Run(s, t), x)
    decreases t
  {
    if t == [] {
      assert t + [x] == [x] && [x][1..] == [];
    } else {
      LegalSnoc(Do(s, t[0]), t[1..], x);
      Seqs.Uncons(t, [x]);
      LegalHead(s, t + [x]);
    }
  }

  lemma {:induction false} LegalConcat(s: State, a: seq<Step>, b: seq<Step>)
    requires Legal(s, a) && Legal(Run(s, a), b)
    ensures Legal(s, a + b) && Run(s, a + b) == Run(Run(s, a), b)
    decreases a
  {
    if a == [] {
      assert a + b == b;
    } else {
      LegalConcat(Do(s, a[0]), a[1..], b);
      Seqs.Uncons(a, b);
      LegalHead(s, a + b);
    }
  }

  /** Legal and Run, one step unfolded. */
  lemma LegalHead(s: State, t: seq<Step>)
    requires t != [] && Enabled(s, t[0]) && !Races(s, t[0]) && Legal(Do(s, t[0]), t[1..])
    ensures Legal(s, t) && Run(s, t) == Run(Do(s, t[0]), t[1..])
  {
  }

  lemma {:induction false} AppendedConcat(a: seq<Step>, b: seq<Step>)
    ensures Appended(a + b) == Appended(a) + Appended(b)
  {
    if a == [] {
      assert a + b == b;
    } else {
      AppendedConcat(a[1..], b);
      Seqs.Uncons(a, b);
      Seqs.Assoc(Added(a[0]), Appended(a[1..]), Appended(b));
    }
  }

  /** `t` leads from `start` to `s`, appending exactly `lines` on the way and losing
      nothing. */
  predicate Reached(start: State, t: seq<Step>, s: State, lines: seq<Bytes>) {
    Legal(start, t) && Run(start, t) == s && Appended(t) == lines && Crashless(t) && s.lost == start.lost
  }

  /** A step of one orderly process life, with room left in the numbering. */
  predicate Calm(s: State, x: Step) {
    Orderly(s, x) && s.base <= MAX_INT64
  }

  lemma Take(start: State, t: seq<Step>, s: State, lines: seq<Bytes>, x: Step)
    requires Reached(start, t, s, lines) && Enabled(s, x) && !Races(s, x) && !x.Crash? && Do(s, x).lost == s.lost
    ensures Reached(start, t + [x], Do(s, x), lines + Added(x))
    ensures OrderlyRun(start, t) && Calm(s, x) ==> OrderlyRun(start, t + [x])
  {
    LegalSnoc(start, t, x);
    AppendedConcat(t, [x]);
    assert Appended([x]) == Added(x) + Appended([x][1..]) == Added(x);
    if OrderlyRun(start, t) && Calm(s, x) {
      OrderlySnoc(start, t, x);
    }
  }

  lemma TakeQuiet(start: State, t: seq<Step>, s: State, lines: seq<Bytes>, x: Step)
    requires Reached(start, t, s, lines) && Enabled(s, x) && !Races(s, x) && !x.Crash? && !x.Write? && Do(s, x).lost == s.lost
    ensures Reached(start, t + [x], Do(s, x), lines)
    ensures OrderlyRun(start, t) && Calm(s, x) ==> OrderlyRun(start, t + [x])
  {
    Take(start, t, s, lines, x);
    assert lines + [] == lines;
  }

  lemma Chain(start: State, a: seq<Step>, mid: State, la: seq<Bytes>, b: seq<Step>, s: State, lb: seq<Bytes>)
    requires Reached(start, a, mid, la) && Reached(mid, b, s, lb)
    ensures Reached(start, a + b, s, la + lb)
    ensures OrderlyRun(start, a) && OrderlyRun(mid, b) ==> OrderlyRun(start, a + b)
  {
    LegalConcat(start, a, b);
    AppendedConcat(a, b);
    if OrderlyRun(start, a) && OrderlyRun(mid, b) {
      OrderlyConcat(start, a, b);
    }
  }

  lemma {:induction false} OrderlySnoc(s: State, t: seq<Step>, x: Step)
    requires Legal(s, t) && OrderlyRun(s, t) && Enabled(Run(s, t), x) && Calm(Run(s, t), x)
    ensures OrderlyRun(s, t + [x])
    decreases t
  {
    if t == [] {
      assert t + [x] == [x] && [x][1..] == [];
    } else {
      OrderlySnoc(Do(s, t[0]), t[1..], x);
      Seqs.Uncons(t, [x]);
      OrderlyHead(s, t + [x]);
    }
  }

  lemma {:induction false} OrderlyConcat(s: State, a: seq<Step>, b: seq<Step>)
    requires Legal(s, a) && OrderlyRun(s, a) && OrderlyRun(Run(s, a), b)
    ensures OrderlyRun(s, a + b)
    decreases a
  {
    if a == [] {
      assert a + b == b;
    } else {
      OrderlyConcat(Do(s, a[0]), a[1..], b);
      Seqs.Uncons(a, b);
      OrderlyHead(s, a + b);
    }
  }

  lemma OrderlyHead(s: State, t: seq<Step>)
    requires t != [] && Enabled(s, t[0]) && Calm(s, t[0]) && OrderlyRun(Do(s, t[0]), t[1..])
    ensures OrderlyRun(s, t)
  {
  }

  lemma {:induction false} SameEnd(s: State, t: seq<Step>)
    requires Legal(s, t) && OrderlyRun(s, t)
    ensures OrderlyEnd(s, t) == Run(s, t)
    decreases t
  {
    if t == [] {
    } else {
      SameEnd(Do(s, t[0]), t[1..]);
    }
  }

  lemma {:induction false} LegalIsPossible(s: State, t: seq<Step>)
    requires Legal(s, t)
    ensures Possible(s, t) && End(s, t) == Run(s, t)
    decreases t
  {
    if t == [] {
    } else {
      LegalIsPossible(Do(s, t[0]), t[1..]);
    }
  }

  lemma KeptStep(s: State, x: Step)
    requires Enabled(s, x) && !x.Crash?
    ensures Do(s, x).kept == s.kept + multiset(Added(x))
  {
  }

  lemma {:induction false} KeptGrows(start: State, t: seq<Step>)
    requires Legal(start, t) && Crashless(t)
    ensures Run(start, t).kept == start.kept + multiset(Appended(t))
    decreases t
  {
    if t == [] {
    } else {
      KeptStep(start, t[0]);
      KeptGrows(Do(start, t[0]), t[1..]);
      BagOfConcat(start.kept, Added(t[0]), Appended(t[1..]));
    }
  }

  lemma BagOfConcat<T>(m: multiset<T>, a: seq<T>, b: seq<T>)
    ensures m + multiset(a) + multiset(b) == m + multiset(a + b)
  {
  }

  lemma GrowBy<T>(h: multiset<T>, h': multiset<T>, l: multiset<T>, x: multiset<T>)
    requires h' + l == (h + l) + x
    ensures h' == h + x
  {
    forall e ensures h'[e] == (h + x)[e] {
      assert (h' + l)[e] == ((h + l) + x)[e];
    }
  }

  /** What every method below means for the journal: it keeps the invariant, and
      the lines on disk and in the sink grow by exactly the lines it appended. */
  lemma HeldGrows(start: State, t: seq<Step>, s: State, lines: seq<Bytes>)
    requires Inv(start) && Reached(start, t, s, lines)
    ensures Inv(s) && Held(s) == Held(start) + multiset(lines)
  {
    KeptGrows(start, t);
    LegalIsPossible(start, t);
    RunKeeps(start, t);
    GrowBy(Held(start), Held(s), s.lost, multiset(lines));
  }

  /** And, for an orderly one, that they grow in order. */
  lemma OrderGrows(start: State, t: seq<Step>, s: State, lines: seq<Bytes>)
    requires OrderInv(start) && Reached(start, t, s, lines) && OrderlyRun(start, t)
    ensures OrderInv(s) && Content(s) == Content(start) + lines
  {
    SameEnd(start, t);
    ContentGrows(start, t);
    AllSurvive(start, t, Content(start));
  }

  // ---- directory listing --------------------------------------------------

  /** A listing is sorted by name, as os.ReadDir and sort.Strings leave it. */
  predicate Listed(segs: seq<Segment>) {
    forall i, j | 0 <= i < j < |segs| :: Before(segs[i].key, segs[j].key)
  }

  lemma NotBeforeIsAfter(a: Key, b: Key)
    requires InRange(a) && InRange(b) && a != b && !Before(a, b)
    ensures Before(b, a)
  {
    LtTotal(SegmentName(a), SegmentName(b));
    if SegmentName(a) == SegmentName(b) {
      NameInjective(a, b);
    }
  }

  lemma ListedSnoc(segs: seq<Segment>, x: Segment)
    requires Listed(segs) && forall i | 0 <= i < |segs| :: Before(segs[i].key, x.key)
    ensures Listed(segs + [x])
  {
  }

  lemma AllBefore(segs: seq<Segment>, k: Key)
    requires Listed(segs) && segs != [] && Before(segs[|segs| - 1].key, k)
    ensures forall i | 0 <= i < |segs| :: Before(segs[i].key, k)
  {
    forall i | 0 <= i < |segs| ensures Before(segs[i].key, k) {
      if i < |segs| - 1 {
        LtTransitive(SegmentName(segs[i].key), SegmentName(segs[|segs| - 1].key), SegmentName(k));
      }
    }
  }

  /** Creating a file keeps the listing sorted. */
  lemma {:induction false} InsertKeepsListed(segs: seq<Segment>, x: Segment)
    requires Listed(segs)
    requires InRange(x.key) && forall i | 0 <= i < |segs| :: InRange(segs[i].key) && segs[i].key != x.key
    ensures Listed(Insert(segs, x))
  {
    if segs == [] {
    } else if Before(segs[|segs| - 1].key, x.key) {
      AllBefore(segs, x.key);
      ListedSnoc(segs, x);
    } else {
      var init, last := segs[..|segs| - 1], segs[|segs| - 1];
      InsertKeepsListed(init, x);
      InsertMembers(init, x);
      NotBeforeIsAfter(last.key, x.key);
      var r := Insert(init, x);
      forall i | 0 <= i < |r| ensures Before(r[i].key, last.key) {
        assert r[i] in r;
      }
      ListedSnoc(r, last);
    }
  }

  predicate KeysInRange(segs: seq<Segment>) {
    forall i | 0 <= i < |segs| :: InRange(segs[i].key)
  }

  /** The name a step gives a new segment is one parseSegmentName reads back. */
  predicate NamesFit(s: State, t: Step) {
    match t
    case Rename(nanos) => InRange(Key(s.base, nanos))
    case BeginRecover(nanos) => InRange(Key(|s.sealed|, nanos))
    case _ => true
  }

  lemma InsertListed(s: State, x: Segment)
    requires SegsOK(s) && Listed(s.sealed) && KeysInRange(s.sealed) && InRange(x.key) && s.clock < x.key.nanos
    ensures Listed(Insert(s.sealed, x)) && KeysInRange(Insert(s.sealed, x))
  {
    forall i | 0 <= i < |s.sealed| ensures InRange(s.sealed[i].key) && s.sealed[i].key != x.key {
      assert SegOK(s.sealed[i], s);
    }
    InsertKeepsListed(s.sealed, x);
    InsertMembers(s.sealed, x);
    forall i | 0 <= i < |Insert(s.sealed, x)| ensures InRange(Insert(s.sealed, x)[i].key) {
      assert Insert(s.sealed, x)[i] in Insert(s.sealed, x);
    }
  }

  lemma SameKeysListed(a: seq<Segment>, b: seq<Segment>)
    requires Listed(a) && KeysInRange(a) && SameKeyed(a, b)
    ensures Listed(b) && KeysInRange(b)
  {
  }

  lemma RemoveListed(a: seq<Segment>, i: nat)
    requires Listed(a) && KeysInRange(a) && i < |a|
    ensures Listed(RemoveAt(a, i)) && KeysInRange(RemoveAt(a, i))
  {
    var b := RemoveAt(a, i);
    forall j | 0 <= j < |b| ensures b[j] == a[if j < i then j else j + 1] {
    }
  }

  lemma StepKeepsListed(s: State, t: Step)
    requires SegsOK(s) && Listed(s.sealed) && KeysInRange(s.sealed) && Enabled(s, t) && NamesFit(s, t)
    ensures Listed(Do(s, t).sealed) && KeysInRange(Do(s, t).sealed)
  {
    if t.Rename? {
      InsertListed(s, Segment(Key(s.base, t.nanos), s.active.value, None, false, false, false));
    } else if t.BeginRecover? {
      InsertListed(s, Segment(Key(|s.sealed|, t.nanos), File([], 0), None, false, true, true));
    } else if t.Unlink? {
      RemoveListed(s.sealed, t.i);
    } else {
      SameKeys(s, t);
      SameKeysListed(s.sealed, Do(s, t).sealed);
    }
  }

  lemma SameKeys(s: State, t: Step)
    requires Enabled(s, t) && !t.Rename? && !t.BeginRecover? && !t.Unlink?
    ensures SameKeyed(s.sealed, Do(s, t).sealed)
  {
    if t.Put? {
    } else if t.Crash? {
      TornKeys(s.sealed, t.cuts);
    } else if t.RecoverWrite? {
      TargetKeys(s.sealed, s.mode.target, File(s.mode.want[..t.n], 0), true);
    } else if t.RecoverSync? || t.RecoverRemove? {
      TargetKeys(s.sealed, s.mode.target, File(s.mode.want, |s.mode.want|), t.RecoverSync?);
    } else {
      assert Do(s, t).sealed == s.sealed;
    }
  }

  lemma TornKeys(segs: seq<Segment>, cuts: seq<nat>)
    requires CutsFit(segs, cuts)
    ensures SameKeyed(segs, TornAll(segs, cuts))
  {
  }

  lemma TargetKeys(segs: seq<Segment>, k: Key, f: File, copy: bool)
    ensures SameKeyed(segs, WithTarget(segs, k, f, copy))
  {
  }

  predicate SameKeyed(a: seq<Segment>, b: seq<Segment>) {
    |a| == |b| && forall i | 0 <= i < |a| :: b[i].key == a[i].key
  }

  predicate NamesFitAll(s: State, trace: seq<Step>)
    requires Possible(s, trace)
    decreases trace
  {
    trace == [] || (NamesFit(s, trace[0]) && NamesFitAll(Do(s, trace[0]), trace[1..]))
  }

  /** However seals, recoveries, shipments and crashes interleave, the segments stay
      in name order, so the shipper's sorted listing is the model's sequence. */
  lemma {:induction false} RunKeepsListed(s: State, trace: seq<Step>)
    requires Inv(s) && Possible(s, trace) && Listed(s.sealed) && KeysInRange(s.sealed) && NamesFitAll(s, trace)
    ensures Listed(End(s, trace).sealed) && KeysInRange(End(s, trace).sealed)
    decreases trace
  {
    if trace == [] {
    } else {
      StepKeeps(s, trace[0]);
      StepKeepsListed(s, trace[0]);
      RunKeepsListed(Do(s, trace[0]), trace[1..]);
    }
  }

  function DirNames(segs: seq<Segment>): seq<string> {
    if segs == [] then [ACTIVE_NAME] else DirNames(segs[..|segs| - 1]) + [SegmentName(segs[|segs| - 1].key)]
  }

  function CountParsed(names: seq<string>): nat {
    if names == [] then 0
    else CountParsed(names[..|names| - 1]) + if ParseSegmentName(names[|names| - 1]).Some? then 1 else 0
  }

  /** nextBaseOffset's counting loop. */
  method NextBaseOffset(names: seq<string>) returns (count: nat)
    ensures count == CountParsed(names)
  {
    count := 0;
    var i := 0;
    while i < |names|
      invariant 0 <= i <= |names|
      invariant count == CountParsed(names[..i])
    {
      assert names[..i + 1][..|names[..i + 1]| - 1] == names[..i];
      if ParseSegmentName(names[i]).Some? {
        count := count + 1;
      }
      i := i + 1;
    }
    assert names[..i] == names;
  }

  /** It counts the sealed segments and never the active file. */
  lemma {:induction false} CountIsSealed(segs: seq<Segment>)
    requires forall i | 0 <= i < |segs| :: InRange(segs[i].key)
    ensures CountParsed(DirNames(segs)) == |segs|
  {
    if segs == [] {
      ActiveNameIsNotSealed();
      assert DirNames(segs)[..0] == [];
    } else {
      CountIsSealed(segs[..|segs| - 1]);
      NameRoundTrip(segs[|segs| - 1].key);
      var names := DirNames(segs);
      assert names[..|names| - 1] == DirNames(segs[..|segs| - 1]);
    }
  }

  lemma WriteKeepsActive(s: State, line: Bytes)
    requires ActiveOK(s) && Enabled(s, Write(line))
    ensures ActiveOK(Do(s, Write(line)))
    ensures |Do(s, Write(line)).active.value.data| == |s.active.value.data| + |line| + 1
  {
    LinesSnoc(s.active.value.data, line);
  }

  // ---- the object ---------------------------------------------------------

  class WAL {
    const maxBytes: int
    const maxAge: int
    var s: State
    var size: nat
    var openedAt: Time
    var closed: bool
    var closeOK: bool

    /** No call half done, and `size` counts the handle's bytes.  Durability is the
        machine's invariant, which HeldGrows carries across every method. */
    ghost predicate Valid()
      reads this
    {
      && ActiveOK(s)
      && !s.mode.Recovering? && !s.mode.Reopening?
      && (!s.mode.Down? ==> size == |s.active.value.data|)
    }

    constructor (maxBytes: int, maxAge: int, disk: State)
      requires ActiveOK(disk) && disk.mode == Down
      ensures Valid() && s == disk && !closed && this.maxBytes == maxBytes && this.maxAge == maxAge
    {
      this.maxBytes := maxBytes;
      this.maxAge := maxAge;
      s := disk;
      size := 0;
      openedAt := ZERO_TIME;
      closed, closeOK := false, true;
    }

    function MaxBytes(): int {
      if maxBytes <= 0 then DEFAULT_MAX_BYTES else maxBytes
    }

    function MaxAge(): int {
      if maxAge <= 0 then DEFAULT_MAX_AGE else maxAge
    }

    /** The first half of a seal: fsync and close.  A handle an earlier failed seal
        closed fails its fsync, so nothing happens any more. */
    method SyncAndClose(io: SealIO) returns (ok: bool, ghost t: seq<Step>)
      requires Valid() && !s.mode.Down?
      modifies this`s
      ensures Valid() && Reached(old(s), t, s, [])
      ensures ok <==> old(s).mode.Open? && io.syncOK && io.closeOK
      ensures if old(s).mode.Open? && io.syncOK then s.mode.Sealing? else s == old(s)
      ensures ActiveBytes(s) == ActiveBytes(old(s))
      ensures s.sealed == old(s).sealed && s.archive == old(s).archive && s.clock == old(s).clock && s.base == old(s).base
      ensures old(s).base <= MAX_INT64 ==> OrderlyRun(old(s), t)
    {
      t := [];
      ok := false;
      if s.mode.Sealing? || !io.syncOK {
        return;
      }
      ghost var start := s;
      TakeQuiet(start, t, s, [], Sync);
      t, s := t + [Sync], Do(s, Sync);
      TakeQuiet(start, t, s, [], BeginSeal);
      t, s := t + [BeginSeal], Do(s, BeginSeal);
      ok := io.closeOK;
    }

    /** seal: fsync, close, rename, open fresh. */
    method Seal(io: SealIO) returns (ok: bool, ghost t: seq<Step>)
      requires Valid() && !s.mode.Down? && s.clock < io.now
      modifies this`s, this`size, this`openedAt
      ensures Valid() && Reached(old(s), t, s, [])
      ensures ok <==> old(s).mode.Open? && io.syncOK && io.closeOK && io.renameOK && io.openOK
      ensures ok ==> s.mode.Open? && ActiveBytes(s) == [] && size == 0 && openedAt == io.now
      ensures ok ==> s.sealed == Insert(old(s).sealed, Segment(Key(old(s).base, io.now),
                                 File(ActiveBytes(old(s)), |ActiveBytes(old(s))|), None, false, false, false))
      ensures !ok ==>
                if !old(s).mode.Open? || !io.syncOK then s == old(s)
                else if !io.closeOK || !io.renameOK
                then s.mode.Sealing? && ActiveBytes(s) == ActiveBytes(old(s)) && s.sealed == old(s).sealed
                else s.mode.Down? && s.active.None? && |s.sealed| == |old(s).sealed| + 1
      ensures s.archive == old(s).archive && s.clock <= io.now && s.base <= old(s).base + 1
      ensures ClockOK(io.now) && old(s).base < MAX_INT64 ==> OrderlyRun(old(s), t)
    {
      ghost var start := s;
      ok, t := SyncAndClose(io);
      if !ok || !io.renameOK {
        ok := false;
        return;
      }
      InsertMembers(s.sealed, Segment(Key(s.base, io.now), s.active.value, None, false, false, false));
      TakeQuiet(start, t, s, [], Rename(io.now));
      t, s := t + [Rename(io.now)], Do(s, Rename(io.now));
      ok, t := OpenActive(io.openOK, io.now, start, t);
    }

    /** Opening a fresh active segment where there is none. */
    method OpenActive(openOK: bool, now: Time, ghost start: State, ghost before: seq<Step>)
      returns (ok: bool, ghost t: seq<Step>)
      requires s.active.None? && (s.mode.Reopening? || s.mode.Down?) && Reached(start, before, s, [])
      modifies this`s, this`size, this`openedAt
      ensures Valid() && Reached(start, t, s, []) && ok == openOK
      ensures if ok then s.mode.Open? && ActiveBytes(s) == [] && size == 0 && openedAt == now
              else s.mode.Down? && s.active.None?
      ensures s.sealed == old(s).sealed && s.archive == old(s).archive && s.clock == old(s).clock
      ensures s.base == if ok && old(s).mode.Down? then |old(s).sealed| else old(s).base
      ensures OrderlyRun(start, before) && old(s).base <= MAX_INT64 && (old(s).mode.Down? ==> StartsAbove(old(s))) ==>
                OrderlyRun(start, t)
    {
      t, ok := before, openOK;
      if openOK {
        TakeQuiet(start, t, s, [], OpenFresh);
        t, s := t + [OpenFresh], Do(s, OpenFresh);
        size, openedAt := 0, now;
      } else if s.mode.Reopening? {
        TakeQuiet(start, t, s, [], GiveUp);
        t, s := t + [GiveUp], Do(s, GiveUp);
      }
    }

    /** The first half of recoverOrphan: the complete lines under a sealed name,
        synced.  Any failure gives up with the active file as it was. */
    method CopyComplete(io: RecoverIO) returns (ok: bool, ghost t: seq<Step>)
      requires ActiveOK(s) && s.mode.Down? && s.active.Some? && s.clock < io.now
      modifies this`s
      ensures Reached(old(s), t, s, []) && ActiveOK(s) && s.active == old(s).active
      ensures if ok then s.mode.Recovering? && s.mode.fsynced && s.mode.shipped.None? && s.base == |old(s).sealed|
              else s.mode.Down? && (s.base == old(s).base || s.base == |old(s).sealed|)
      ensures s.archive == old(s).archive && s.clock <= io.now
      ensures ok <==> Copies(io, Complete(old(s).active.value.data))
      ensures StartsCleanly(old(s), io) ==> OrderlyRun(old(s), t)
    {
      t := [];
      ok := false;
      if !io.createOK {
        return;
      }
      ghost var start := s;
      TakeQuiet(start, t, s, [], BeginRecover(io.now));
      t, s := t + [BeginRecover(io.now)], Do(s, BeginRecover(io.now));
      ok, t := WriteCopy(io, start, t);
    }

    /** Write what the copy is to hold, and sync it. */
    method WriteCopy(io: RecoverIO, ghost start: State, ghost before: seq<Step>) returns (ok: bool, ghost t: seq<Step>)
      requires ActiveOK(s) && s.mode.Recovering? && s.mode.written == 0 && !s.mode.fsynced && s.mode.shipped.None?
      requires Reached(start, before, s, [])
      modifies this`s
      ensures Reached(start, t, s, []) && ActiveOK(s) && s.active == old(s).active && s.base == old(s).base
      ensures if ok then s.mode.Recovering? && s.mode.fsynced && s.mode.shipped.None? else s.mode.Down?
      ensures ok <==> io.wrote >= |old(s).mode.want| && io.syncOK
      ensures s.archive == old(s).archive && s.clock == old(s).clock
      ensures OrderlyRun(start, before) && old(s).base <= MAX_INT64 ==> OrderlyRun(start, t)
    {
      t, ok := before, false;
      var want := s.mode.want;
      var n := if io.wrote < |want| then io.wrote else |want|;
      TakeQuiet(start, t, s, [], RecoverWrite(n));
      t, s := t + [RecoverWrite(n)], Do(s, RecoverWrite(n));
      if n < |want| || !io.syncOK {
        TakeQuiet(start, t, s, [], GiveUp);
        t, s := t + [GiveUp], Do(s, GiveUp);
        return;
      }
      TakeQuiet(start, t, s, [], RecoverSync);
      t, s := t + [RecoverSync], Do(s, RecoverSync);
      ok := true;
    }

    /** recoverOrphan: copy, then remove the active file. */
    method RecoverOrphan(io: RecoverIO) returns (ok: bool, ghost t: seq<Step>)
      requires ActiveOK(s) && s.mode.Down? && s.active.Some? && s.clock < io.now
      modifies this`s
      ensures Reached(old(s), t, s, [])
      ensures ActiveOK(s) && if ok then s.mode.Reopening? && s.base == |old(s).sealed| + 1
              else s.mode.Down? && s.active == old(s).active && (s.base == old(s).base || s.base == |old(s).sealed|)
      ensures ok <==> Copies(io, Complete(old(s).active.value.data)) && io.removeOK
      ensures s.archive == old(s).archive && s.clock <= io.now
      ensures StartsCleanly(old(s), io) ==> OrderlyRun(old(s), t)
    {
      ghost var start := s;
      ok, t := CopyComplete(io);
      if !ok {
        return;
      }
      if !io.removeOK {
        TakeQuiet(start, t, s, [], GiveUp);
        t, s := t + [GiveUp], Do(s, GiveUp);
        ok := false;
        return;
      }
      RemoveDone(s);
      TakeQuiet(start, t, s, [], RecoverRemove);
      t, s := t + [RecoverRemove], Do(s, RecoverRemove);
    }

    /** ensureActive: nothing to do with a handle; otherwise recover an orphan if
        there is one, and open a fresh segment. */
    method EnsureActive(rio: RecoverIO, openOK: bool, now: Time) returns (ok: bool, ghost t: seq<Step>)
      requires Valid() && s.clock < rio.now
      modifies this`s, this`size, this`openedAt
      ensures Valid() && Reached(old(s), t, s, [])
      ensures !old(s).mode.Down? ==> ok && s == old(s) && size == old(size) && openedAt == old(openedAt)
      ensures old(s).mode.Down? && ok ==> s.mode.Open? && ActiveBytes(s) == [] && size == 0 && openedAt == now
      ensures old(s).mode.Down? && !ok ==> s.mode.Down?
      ensures old(s).mode.Down? ==> (ok <==> Starts(old(s), rio, openOK))
      ensures s.archive == old(s).archive && s.clock <= rio.now
      ensures s.base <= old(s).base || s.base <= |old(s).sealed| + 1
      ensures !old(s).mode.Down? || StartsCleanly(old(s), rio) ==> OrderlyRun(old(s), t)
    {
      t := [];
      ok := true;
      if !s.mode.Down? {
        return;
      }
      ghost var start := s;
      if s.active.Some? {
        ok, t := RecoverOrphan(rio);
        if !ok {
          return;
        }
      }
      ok, t := OpenActive(openOK, now, start, t);
    }

    /** The age check at the head of Append. */
    method RotateIfOld(now: Time, io: SealIO) returns (ok: bool, ghost t: seq<Step>)
      requires Valid() && !s.mode.Down? && s.clock < io.now
      modifies this`s, this`size, this`openedAt
      ensures Valid() && Reached(old(s), t, s, [])
      ensures now - old(openedAt) < MaxAge() ==> ok && s == old(s) && size == old(size)
      ensures now - old(openedAt) >= MaxAge() ==> (ok <==> old(s).mode.Open? && SealsWell(io))
      ensures now - old(openedAt) >= MaxAge() && ok ==>
                && s.mode.Open? && ActiveBytes(s) == [] && size == 0
                && s.sealed == Insert(old(s).sealed, Segment(Key(old(s).base, io.now),
                                      File(ActiveBytes(old(s)), |ActiveBytes(old(s))|), None, false, false, false))
      ensures ok ==> s.mode == old(s).mode
      ensures s.archive == old(s).archive && s.clock <= io.now && s.base <= old(s).base + 1
      ensures ClockOK(io.now) && old(s).base < MAX_INT64 ==> OrderlyRun(old(s), t)
    {
      if now - openedAt < MaxAge() {
        return true, [];
      }
      ok, t := Seal(io);
    }

    /** The write and the size check at its tail. */
    method WriteLine(line: Bytes, io: SealIO) returns (ok: bool, ghost t: seq<Step>)
      requires Valid() && s.mode.Open? && IsLine(line) && s.clock < io.now
      modifies this`s, this`size, this`openedAt
      ensures Valid() && Reached(old(s), t, s, [line])
      ensures ok <==> old(size) + |line| + 1 < MaxBytes() || SealsWell(io)
      ensures ok ==> s.mode.Open? && if old(size) + |line| + 1 < MaxBytes()
                                     then s == Do(old(s), Write(line)) && size == old(size) + |line| + 1
                                     else ActiveBytes(s) == [] && size == 0 && |s.sealed| == |old(s).sealed| + 1
      ensures s.archive == old(s).archive
      ensures ClockOK(io.now) && old(s).base < MAX_INT64 ==> OrderlyRun(old(s), t)
    {
      ghost var start := s;
      t := [];
      Take(start, t, s, [], Write(line));
      WriteKeepsActive(s, line);
      t, s := t + [Write(line)], Do(s, Write(line));
      size := size + |line| + 1;
      ok := true;
      if size >= MaxBytes() {
        ghost var mid, t' := s, t;
        ok, t' := Seal(io);
        Chain(start, t, mid, [line], t', s, []);
        t := t + t';
        InsertMembers(mid.sealed, Segment(Key(mid.base, io.now), File(ActiveBytes(mid), |ActiveBytes(mid)|), None, false, false, false));
      }
    }

    /** The part of Append before the record is encoded: a handle, on a segment young
        enough. */
    method PrepareActive(io: AppendIO) returns (ok: bool, ghost t: seq<Step>)
      requires Valid() && s.clock < io.recover.now < io.stale.now
      modifies this`s, this`size, this`openedAt
      ensures Valid() && Reached(old(s), t, s, [])
      ensures ok && !s.mode.Sealing? <==>
                && (if old(s).mode.Down? then Starts(old(s), io.recover, io.openOK) else old(s).mode.Open?)
                && (Stale(old(s), old(openedAt), maxAge, io) ==> SealsWell(io.stale))
      ensures ok && !s.mode.Sealing? ==>
                && s.mode.Open?
                && size == if old(s).mode.Down? || Stale(old(s), old(openedAt), maxAge, io) then 0 else old(size)
      ensures s.archive == old(s).archive && s.clock <= io.stale.now
      ensures AppendsCleanly(old(s), io) ==> OrderlyRun(old(s), t) && s.base < MAX_INT64
    {
      ghost var start := s;
      ok, t := EnsureActive(io.recover, io.openOK, io.openedAt);
      if !ok {
        return;
      }
      ghost var mid, t' := s, t;
      ok, t' := RotateIfOld(io.now, io.stale);
      Chain(start, t, mid, [], t', s, []);
      t := t + t';
    }

    /** Append.  `wrote` says whether the record went in: an Append that returns an
        error may still have journalled it, when only the seal after it failed. */
    method AppendRecord(io: AppendIO) returns (ok: bool, wrote: bool, ghost t: seq<Step>)
      requires Valid()
      requires io.line.Some? ==> IsLine(io.line.value)
      requires s.clock < io.recover.now < io.stale.now < io.full.now
      modifies this`s, this`size, this`openedAt
      ensures Valid()
      ensures wrote <==> Writes(old(s), old(openedAt), maxAge, io)
      ensures Reached(old(s), t, s, if wrote then [io.line.value] else [])
      ensures ok <==> wrote && (SizeAfter(old(s), old(size), old(openedAt), maxAge, io) < Bound(maxBytes, 67_108_864) || SealsWell(io.full))
      ensures ok ==> s.mode.Open? && if SizeAfter(old(s), old(size), old(openedAt), maxAge, io) < Bound(maxBytes, 67_108_864)
                                     then size == SizeAfter(old(s), old(size), old(openedAt), maxAge, io)
                                     else ActiveBytes(s) == [] && size == 0
      ensures s.archive == old(s).archive
      ensures AppendsCleanly(old(s), io) ==> OrderlyRun(old(s), t)
    {
      t := [];
      ok, wrote := false, false;
      if io.cancelled {
        return;
      }
      ghost var start := s;
      var ready;
      ready, t := PrepareActive(io);
      if !ready || io.line.None? || !io.writeOK || s.mode.Sealing? {
        return;
      }
      ghost var mid, t' := s, t;
      wrote := true;
      ok, t' := WriteLine(io.line.value, io.full);
      Chain(start, t, mid, [], t', s, [io.line.value]);
      t := t + t';
    }

    /** Append, and what it does to the content in order. */
    method Append(io: AppendIO) returns (ok: bool, wrote: bool, ghost t: seq<Step>)
      requires Valid()
      requires io.line.Some? ==> IsLine(io.line.value)
      requires s.clock < io.recover.now < io.stale.now < io.full.now
      modifies this`s, this`size, this`openedAt
      ensures Valid()
      ensures wrote <==> Writes(old(s), old(openedAt), maxAge, io)
      ensures Reached(old(s), t, s, if wrote then [io.line.value] else [])
      ensures ok <==> wrote && (SizeAfter(old(s), old(size), old(openedAt), maxAge, io) < Bound(maxBytes, 67_108_864) || SealsWell(io.full))
      ensures ok ==> s.mode.Open? && if SizeAfter(old(s), old(size), old(openedAt), maxAge, io) < Bound(maxBytes, 67_108_864)
                                     then size == SizeAfter(old(s), old(size), old(openedAt), maxAge, io)
                                     else ActiveBytes(s) == [] && size == 0
      ensures s.archive == old(s).archive
      ensures AppendsCleanly(old(s), io) ==> OrderlyRun(old(s), t)
      ensures AppendsCleanly(old(s), io) && OrderInv(old(s)) ==>
                OrderInv(s) && Content(s) == Content(old(s)) + if wrote then [io.line.value] else []
    {
      ghost var start := s;
      ok, wrote, t := AppendRecord(io);
      if AppendsCleanly(start, io) && OrderInv(start) {
        OrderGrows(start, t, s, if wrote then [io.line.value] else []);
      }
    }

    /** SealIfStale: a segment that is empty or young is left alone. */
    method SealIfStale(now: Time, io: SealIO) returns (ok: bool, ghost t: seq<Step>)
      requires Valid() && s.clock < io.now
      modifies this`s, this`size, this`openedAt
      ensures Valid() && Reached(old(s), t, s, [])
      ensures var stale := !old(s).mode.Down? && old(size) > 0 && now - old(openedAt) >= Bound(maxAge, 600_000_000_000);
              && (ok <==> !stale || (old(s).mode.Open? && SealsWell(io)))
              && (!stale ==> s == old(s) && size == old(size) && openedAt == old(openedAt))
              && (stale && ok ==>
                    && s.mode.Open? && ActiveBytes(s) == [] && size == 0
                    && s.sealed == Insert(old(s).sealed, Segment(Key(old(s).base, io.now),
                                          File(ActiveBytes(old(s)), |ActiveBytes(old(s))|), None, false, false, false)))
      ensures s.archive == old(s).archive && s.clock <= io.now
      ensures ClockOK(io.now) && old(s).base < MAX_INT64 ==> OrderlyRun(old(s), t)
      ensures ClockOK(io.now) && old(s).base < MAX_INT64 && OrderInv(old(s)) ==>
                OrderInv(s) && Content(s) == Content(old(s))
    {
      if s.mode.Down? || size == 0 || now - openedAt < MaxAge() {
        return true, [];
      }
      ghost var start := s;
      ok, t := Seal(io);
      if ClockOK(io.now) && start.base < MAX_INT64 && OrderInv(start) {
        OrderGrows(start, t, s, []);
      }
    }

    /** Close: once; later calls repeat its answer.  The handle is gone even when
        its last fsync fails; an error closing the handle is reported too. */
    method Close(syncOK: bool, handleOK: bool) returns (ok: bool, ghost t: seq<Step>)
      requires Valid()
      modifies this`s, this`closed, this`closeOK
      ensures Valid() && Reached(old(s), t, s, []) && closed && closeOK == ok
      ensures old(closed) ==> s == old(s) && ok == old(closeOK)
      ensures !old(closed) ==> s.mode.Down?
      ensures !old(closed) ==> (ok <==> old(s).mode.Down? || (old(s).mode.Open? && syncOK && handleOK))
      ensures !old(closed) && old(s).mode.Open? && syncOK ==> SyncedBytes(s) == ActiveBytes(s)
      ensures old(s).base <= MAX_INT64 ==> OrderlyRun(old(s), t)
      ensures ActiveBytes(s) == ActiveBytes(old(s)) && s.sealed == old(s).sealed && s.archive == old(s).archive
    {
      t := [];
      ok := closeOK;
      if closed {
        return;
      }
      closed, closeOK := true, true;
      ok := true;
      if s.mode.Down? {
        return;
      }
      ghost var start := s;
      var stuck := s.mode.Sealing?;
      TakeQuiet(start, t, s, [], CloseHandle);
      t, s := t + [CloseHandle], Do(s, CloseHandle);
      if stuck || !syncOK {
        ok, closeOK := false, false;
        return;
      }
      TakeQuiet(start, t, s, [], Sync);
      t, s := t + [Sync], Do(s, Sync);
      ok, closeOK := handleOK, handleOK;
    }

    /** shipOne: the segment file goes only after its upload came back good. */
    method ShipOne(putOK: bool, removeOK: bool, ghost start: State, ghost before: seq<Step>)
      returns (ok: bool, ghost t: seq<Step>)
      requires Valid() && s.sealed != [] && Reached(start, before, s, [])
      modifies this`s
      ensures Valid() && Reached(start, t, s, [])
      ensures ok <==> putOK && removeOK
      ensures ok ==> s.sealed == old(s).sealed[1..] && s.archive == old(s).archive + [Shipped(old(s).sealed[0])]
      ensures !ok ==> s.archive == old(s).archive && SameFiles(s.sealed, old(s).sealed)
      ensures s.active == old(s).active && s.mode == old(s).mode && s.clock == old(s).clock && s.base == old(s).base
      ensures OrderlyRun(start, before) && old(s).base <= MAX_INT64 ==> OrderlyRun(start, t)
    {
      t := before;
      if !putOK {
        return false, t;
      }
      PutDone(s);
      TakeQuiet(start, t, s, [], Put(0));
      t, s := t + [Put(0)], Do(s, Put(0));
      if !removeOK {
        return false, t;
      }
      UnlinkDone(s);
      TakeQuiet(start, t, s, [], Unlink(0));
      t, s := t + [Unlink(0)], Do(s, Unlink(0));
      ok := true;
    }

    /** The loop of Ship. */
    method ShipListed(io: ShipIO) returns (ok: bool, n: nat, ghost t: seq<Step>)
      requires Valid()
      modifies this`s
      ensures Valid() && Reached(old(s), t, s, [])
      ensures n <= |old(s).sealed| && (ok <==> n == |old(s).sealed|)
      ensures n == if io.ShipClean? || io.at > |old(s).sealed| then |old(s).sealed| else io.at
      ensures s.archive == old(s).archive + ShippedAll(old(s).sealed[..n])
      ensures SameFiles(s.sealed, old(s).sealed[n..])
      ensures s.active == old(s).active && s.mode == old(s).mode && s.clock == old(s).clock && s.base == old(s).base
      ensures old(s).base <= MAX_INT64 ==> OrderlyRun(old(s), t)
    {
      ghost var start := s;
      var segments := s.sealed;
      t, n, ok := [], 0, true;
      while n < |segments|
        invariant n <= |segments| && segments == start.sealed
        invariant Valid() && Reached(start, t, s, []) && ok
        invariant io.ShipClean? || n <= io.at
        invariant s.sealed == segments[n..] && s.archive == start.archive + ShippedAll(segments[..n])
        invariant s.active == start.active && s.mode == start.mode && s.clock == start.clock && s.base == start.base
        invariant start.base <= MAX_INT64 ==> OrderlyRun(start, t)
      {
        ok, t := ShipOne(!(io.PutFails? && io.at == n), !(io.RemoveFails? && io.at == n), start, t);
        if !ok {
          return;
        }
        ShippedSnoc(start.archive, segments, n);
        n := n + 1;
      }
      assert segments[n..] == [];
    }

    /** Ship: in listing order, stopping at the first failure, so the sink gets a
        prefix of the listing and the disk keeps the rest. */
    method Ship(io: ShipIO) returns (ok: bool, n: nat, ghost t: seq<Step>)
      requires Valid()
      modifies this`s
      ensures Valid() && Reached(old(s), t, s, [])
      ensures n <= |old(s).sealed| && (ok <==> n == |old(s).sealed|)
      ensures n == if io.ShipClean? || io.at > |old(s).sealed| then |old(s).sealed| else io.at
      ensures s.archive == old(s).archive + ShippedAll(old(s).sealed[..n])
      ensures SameFiles(s.sealed, old(s).sealed[n..])
      ensures s.active == old(s).active && s.mode == old(s).mode && s.clock == old(s).clock && s.base == old(s).base
      ensures old(s).base <= MAX_INT64 ==> OrderlyRun(old(s), t)
      ensures old(s).base <= MAX_INT64 && OrderInv(old(s)) ==> OrderInv(s) && Content(s) == Content(old(s))
    {
      ghost var start := s;
      ok, n, t := ShipListed(io);
      if start.base <= MAX_INT64 && OrderInv(start) {
        OrderGrows(start, t, s, []);
      }
    }

    /** Drain: seal what is active, ship everything, close.  After a nil answer the
        sink holds every line, and holds them in order, iff there was a handle or
        the orphan this process never opened has no complete line. */
    method Drain(seal: SealIO, ship: ShipIO, syncOK: bool, handleOK: bool) returns (ok: bool, ghost t: seq<Step>)
      requires Valid() && s.clock < seal.now
      modifies this
      ensures Valid() && Reached(old(s), t, s, [])
      ensures ok <==> DrainsWell(old(s), old(size), old(closed), old(closeOK), seal, ship, syncOK, handleOK)
      ensures ok ==> s.sealed == []
      ensures ok ==> ActiveBytes(s) == if old(s).mode.Down? then ActiveBytes(old(s)) else []
      ensures ok && Inv(old(s)) ==> (ArchiveBag(s.archive) == Held(old(s)) <==> NothingOrphaned(old(s)))
      ensures ClockOK(seal.now) && old(s).base < MAX_INT64 ==> OrderlyRun(old(s), t)
      ensures ok && OrderInv(old(s)) && ClockOK(seal.now) && old(s).base < MAX_INT64 ==>
                && SinkLines(s.archive) <= Content(old(s))
                && (SinkLines(s.archive) == Content(old(s)) <==> NothingOrphaned(old(s)))
    {
      ghost var start := s;
      ok, t := DrainFiles(seal, ship, syncOK, handleOK);
      if ok && Inv(start) {
        DrainedIff(start, t, s);
      }
      if ok && OrderInv(start) && ClockOK(seal.now) && start.base < MAX_INT64 {
        DrainedInOrder(start, t, s);
      }
    }

    /** Its calls. */
    method DrainFiles(seal: SealIO, ship: ShipIO, syncOK: bool, handleOK: bool) returns (ok: bool, ghost t: seq<Step>)
      requires Valid() && s.clock < seal.now
      modifies this
      ensures Valid() && Reached(old(s), t, s, [])
      ensures ok <==> DrainsWell(old(s), old(size), old(closed), old(closeOK), seal, ship, syncOK, handleOK)
      ensures ok ==> s.sealed == [] && ActiveBytes(s) == if old(s).mode.Down? then ActiveBytes(old(s)) else []
      ensures ClockOK(seal.now) && old(s).base < MAX_INT64 ==> OrderlyRun(old(s), t)
    {
      ghost var start := s;
      ok, t := SealLast(seal);
      if !ok {
        return;
      }
      ok, t := ShipAndClose(ship, syncOK, handleOK, start, t);
    }

    /** The half of Drain under the lock: an active segment with something in it is
        sealed, whatever its age. */
    method SealLast(io: SealIO) returns (ok: bool, ghost t: seq<Step>)
      requires Valid() && s.clock < io.now
      modifies this`s, this`size, this`openedAt
      ensures Valid() && Reached(old(s), t, s, []) && s.base <= old(s).base + 1
      ensures var sealing := !old(s).mode.Down? && old(size) > 0;
              && (ok <==> (sealing ==> old(s).mode.Open? && SealsWell(io)))
              && (ok ==> s.mode == old(s).mode && |s.sealed| == |old(s).sealed| + if sealing then 1 else 0)
              && (ok ==> ActiveBytes(s) == if old(s).mode.Down? then ActiveBytes(old(s)) else [])
      ensures ClockOK(io.now) && old(s).base < MAX_INT64 ==> OrderlyRun(old(s), t)
    {
      t, ok := [], true;
      if !s.mode.Down? && size > 0 {
        ghost var start := s;
        ok, t := Seal(io);
        InsertMembers(start.sealed, Segment(Key(start.base, io.now), File(ActiveBytes(start), |ActiveBytes(start)|),
                                            None, false, false, false));
      }
    }

    /** The unlocked half of Drain. */
    method ShipAndClose(ship: ShipIO, syncOK: bool, handleOK: bool, ghost start: State, ghost before: seq<Step>)
      returns (ok: bool, ghost t: seq<Step>)
      requires Valid() && Reached(start, before, s, [])
      modifies this
      ensures Valid() && Reached(start, t, s, [])
      ensures ok <==>
                && ShipsAll(ship, |old(s).sealed|)
                && if old(closed) then old(closeOK) else old(s).mode.Down? || (old(s).mode.Open? && syncOK && handleOK)
      ensures ok ==> s.sealed == [] && ActiveBytes(s) == ActiveBytes(old(s))
      ensures OrderlyRun(start, before) && old(s).base <= MAX_INT64 ==> OrderlyRun(start, t)
    {
      t := before;
      ghost var mid, t' := s, t;
      var n;
      ok, n, t' := Ship(ship);
      Chain(start, t, mid, [], t', s, []);
      t := t + t';
      if !ok {
        return;
      }
      mid := s;
      ok, t' := Close(syncOK, handleOK);
      Chain(start, t, mid, [], t', s, []);
      t := t + t';
    }
  }

  /** Every call of a seal comes back good. */
  predicate SealsWell(io: SealIO) {
    io.syncOK && io.closeOK && io.renameOK && io.openOK
  }

  /** Recovery's copy is created, written in full and synced. */
  predicate Copies(io: RecoverIO, complete: Bytes) {
    io.createOK && io.wrote >= |complete| && io.syncOK
  }

  /** A process without a handle gets one. */
  predicate Starts(s: State, io: RecoverIO, openOK: bool) {
    openOK && (s.active.Some? ==> Copies(io, Complete(s.active.value.data)) && io.removeOK)
  }

  /** A bound as configured, or what stands in for one that is unset. */
  function Bound(configured: int, standard: int): int {
    if configured > 0 then configured else standard
  }

  /** The segment Append finds or opens is too old to be written to as it is. */
  predicate Stale(s: State, openedAt: Time, maxAge: int, io: AppendIO) {
    io.now - (if s.mode.Down? then io.openedAt else openedAt) >= Bound(maxAge, 600_000_000_000)
  }

  /** When the record goes in, said of what Append is given: there is or can be had a
      handle that no failed seal has closed, its segment is young or its seal good, the
      record marshals and its write succeeds. */
  predicate Writes(s: State, openedAt: Time, maxAge: int, io: AppendIO) {
    && !io.cancelled && io.line.Some? && io.writeOK
    && (if s.mode.Down? then Starts(s, io.recover, io.openOK) else s.mode.Open?)
    && (Stale(s, openedAt, maxAge, io) ==> SealsWell(io.stale))
  }

  /** The segment's size with the record in it. */
  function SizeAfter(s: State, size: nat, openedAt: Time, maxAge: int, io: AppendIO): nat {
    (if s.mode.Down? || Stale(s, openedAt, maxAge, io) then 0 else size)
    + if io.line.Some? then |io.line.value| + 1 else 0
  }

  /** When a Drain returns nil: the seal it may owe goes well, every segment ships, and
      the handle closes, or had closed before without an error. */
  predicate DrainsWell(s: State, size: nat, closed: bool, closedOK: bool,
                       seal: SealIO, ship: ShipIO, syncOK: bool, handleOK: bool) {
    var sealing := !s.mode.Down? && size > 0;
    && (sealing ==> s.mode.Open? && SealsWell(seal))
    && ShipsAll(ship, |s.sealed| + if sealing then 1 else 0)
    && if closed then closedOK else s.mode.Down? || (s.mode.Open? && syncOK && handleOK)
  }

  predicate ShipsAll(io: ShipIO, n: nat) {
    io.ShipClean? || io.at >= n
  }

  /** What a Drain can see: a handle, or an active file with no complete line. */
  predicate NothingOrphaned(s: State) {
    !s.mode.Down? || Lines(ActiveBytes(s)) == []
  }

  /** A (re)start in order: nothing numbered above the count, a usable clock and room in
      the numbering. */
  predicate StartsCleanly(s: State, io: RecoverIO) {
    StartsAbove(s) && |s.sealed| < MAX_INT64 && s.base <= MAX_INT64 && ClockOK(io.now)
  }

  predicate AppendsCleanly(s: State, io: AppendIO) {
    && (s.mode.Down? ==> StartsCleanly(s, io.recover))
    && s.base + 3 <= MAX_INT64 && |s.sealed| + 3 <= MAX_INT64
    && ClockOK(io.stale.now) && ClockOK(io.full.now)
  }

  /** Removing the active file of a recovery nobody shipped loses nothing. */
  lemma RemoveDone(s: State)
    requires Enabled(s, RecoverRemove) && s.mode.shipped.None?
    ensures var s' := Do(s, RecoverRemove);
            && s'.lost == s.lost && s'.mode.Reopening? && s'.active.None? && s'.archive == s.archive
            && s'.clock == s.clock && s'.base == s.base + 1
  {
    NothingAdded(s.lost);
  }

  /** An upload changes nothing but the shipper's notes on the segment. */
  lemma PutDone(s: State)
    requires s.sealed != [] && !s.mode.Recovering?
    ensures var s' := Do(s, Put(0));
            && s' == s.(sealed := s'.sealed) && SameFiles(s'.sealed, s.sealed) && s'.sealed[1..] == s.sealed[1..]
            && s'.sealed[0].armed && s'.sealed[0].uploaded == Some(s'.sealed[0].file.data)
            && Shipped(s'.sealed[0]) == Shipped(s.sealed[0])
  {
  }

  /** A segment removed right after its upload loses nothing. */
  lemma UnlinkDone(s: State)
    requires Enabled(s, Unlink(0)) && s.sealed[0].uploaded == Some(s.sealed[0].file.data) && !s.mode.Recovering?
    ensures Do(s, Unlink(0)) == s.(sealed := s.sealed[1..], archive := s.archive + [Shipped(s.sealed[0])])
  {
    var d := s.sealed[0].file.data;
    assert LineBag(d) - LineBag(d) == multiset{};
    NothingAdded(s.lost);
    assert RemoveAt(s.sealed, 0) == s.sealed[1..];
  }

  function Shipped(seg: Segment): Object {
    Object(seg.key, seg.file.data, seg.copy)
  }

  function ShippedAll(segs: seq<Segment>): seq<Object> {
    if segs == [] then [] else ShippedAll(segs[..|segs| - 1]) + [Shipped(segs[|segs| - 1])]
  }

  lemma ShippedSnoc(before: seq<Object>, segs: seq<Segment>, n: nat)
    requires n < |segs|
    ensures before + ShippedAll(segs[..n]) + [Shipped(segs[n])] == before + ShippedAll(segs[..n + 1])
    ensures segs[n..][0] == segs[n] && segs[n..][1..] == segs[n + 1..]
  {
    assert segs[..n + 1][..n] == segs[..n];
  }

  /** The same files under the same names; only the shipper's notes may differ. */
  predicate SameFiles(a: seq<Segment>, b: seq<Segment>) {
    |a| == |b| && forall i | 0 <= i < |a| :: Shipped(a[i]) == Shipped(b[i])
  }

  /** With nothing sealed, the sink holds every line iff no complete line is left in
      an active file. */
  lemma DrainedIff(start: State, t: seq<Step>, s: State)
    requires Inv(start) && Reached(start, t, s, []) && s.sealed == []
    ensures ArchiveBag(s.archive) == Held(start) <==> Lines(ActiveBytes(s)) == []
  {
    HeldGrows(start, t, s, []);
    assert SegBag(s.sealed) == multiset{};
    OnlyRest(Lines(ActiveBytes(s)), ArchiveBag(s.archive), Held(start));
  }

  lemma OnlyRest<T>(left: seq<T>, b: multiset<T>, whole: multiset<T>)
    requires multiset(left) + multiset{} + b == whole + multiset([])
    ensures b == whole <==> left == []
  {
    if left == [] {
      assert b == multiset(left) + multiset{} + b == whole + multiset([]) == whole;
    } else {
      var x := left[0];
      assert x in multiset(left);
      assert (whole + multiset([]))[x] == (multiset(left) + multiset{} + b)[x] > b[x];
    }
  }

  /** The same in order. */
  lemma DrainedInOrder(start: State, t: seq<Step>, s: State)
    requires OrderInv(start) && Reached(start, t, s, []) && OrderlyRun(start, t) && s.sealed == []
    ensures SinkLines(s.archive) <= Content(start)
    ensures SinkLines(s.archive) == Content(start) <==> Lines(ActiveBytes(s)) == []
  {
    OrderGrows(start, t, s, []);
    var sink, left := SinkLines(s.archive), Lines(ActiveBytes(s));
    assert Content(start) == sink + left by {
      assert Content(start) + [] == Content(start) && sink + [] == sink;
    }
  }
}
