/** The write-ahead log and its shipper as a step machine over a small file
    system (internal/publish/wal.go, internal/publish/shipper.go).  Every step is
    one system call, so a crash, an I/O error or the other goroutine can come
    between any two.  A file keeps its bytes and how many of them an fsync has
    covered; a crash cuts each file anywhere past that mark. */
module Wal {
  import opened Boundary
  import opened Framing
  import opened Segments
  import Seqs

  datatype File = File(data: Bytes, synced: nat)

  /** A segment file in the directory.  `uploaded` is the object last put under
      its key, `armed` says the shipper of this process life has put it and will
      now remove it, and `copy` marks a file recovery is still copying the active
      file into: it becomes the holder of its lines only when recovery removes
      the active file.  `recovered` marks a file some recovery created. */
  datatype Segment = Segment(key: Key, file: File, uploaded: Option<Bytes>, armed: bool, copy: bool, recovered: bool)

  /** An object in the sink whose segment file is gone.  A copy whose file the
      shipper removed before recovery removed the active file becomes the holder in
      that step, whatever it holds. */
  datatype Object = Object(key: Key, data: Bytes, copy: bool)

  /** Where the lock-holding side of the WAL stands. */
  datatype Mode =
    | Down                // no handle: a fresh process, a closed WAL, or a failed open
    | Open                // w.active is usable
    | Sealing             // synced and closed, rename still to come
    | Reopening           // active file moved away, fresh one not yet created
    | Recovering(target: Key, want: Bytes, written: nat, fsynced: bool, shipped: Option<nat>)

  /** `kept`, `acked` and `lost` are history: the lines written and not torn away by
      a crash, the lines some fsync of the active file has covered or a crash has spared,
      and the lines neither on disk nor in the sink any more.  `shipped` in the mode is history
      too: where the archive holds the target, once its file is gone. */
  datatype State = State(
    active: Option<File>,
    sealed: seq<Segment>,
    archive: seq<Object>,
    mode: Mode,
    base: nat,
    clock: Time,
    kept: multiset<Bytes>,
    acked: multiset<Bytes>,
    lost: multiset<Bytes>)

  datatype Step =
    | Write(line: Bytes)              // w.active.Write
    | Sync                            // fsync of the active file: timer, seal or Close
    | BeginSeal                       // w.active.Close after a good sync
    | Rename(nanos: Time)             // os.Rename onto the sealed name
    | OpenFresh                       // os.OpenFile with O_TRUNC
    | CloseHandle                     // WAL.Close takes the handle away
    | BeginRecover(nanos: Time)       // recoverOrphan creates the sealed file
    | RecoverWrite(n: nat)            // its Write has now put n bytes in place
    | RecoverSync
    | RecoverRemove                   // os.Remove of the active file
    | GiveUp                          // recovery or reopening stops on an I/O error
    | Put(i: nat)                     // sink.Put of the i-th listed segment
    | Unlink(i: nat)                  // os.Remove of it
    | Crash(cut: nat, cuts: seq<nat>) // power loss, then a new process

  // ---- small pieces -------------------------------------------------------

  /** Directory listing order: by name. */
  function Insert(segs: seq<Segment>, s: Segment): seq<Segment> {
    if segs == [] || Before(segs[|segs| - 1].key, s.key) then segs + [s]
    else Insert(segs[..|segs| - 1], s) + [segs[|segs| - 1]]
  }

  function RemoveAt<T>(xs: seq<T>, i: nat): seq<T>
    requires i < |xs|
  {
    xs[..i] + xs[i + 1..]
  }

  function Find(segs: seq<Segment>, k: Key): (i: Option<nat>)
    ensures i.Some? ==> i.value < |segs| && segs[i.value].key == k
    ensures i.None? ==> forall j | 0 <= j < |segs| :: segs[j].key != k
  {
    if segs == [] then None
    else if segs[|segs| - 1].key == k then Some(|segs| - 1)
    else Find(segs[..|segs| - 1], k)
  }

  function WithTarget(segs: seq<Segment>, k: Key, f: File, copy: bool): seq<Segment> {
    match Find(segs, k)
    case None => segs          // unlinked under the writer: the bytes go nowhere
    case Some(i) => segs[i := segs[i].(file := f, copy := copy)]
  }

  function Torn(f: File, cut: nat): File
    requires f.synced <= cut <= |f.data|
  {
    File(f.data[..cut], cut)
  }

  predicate CutsFit(segs: seq<Segment>, cuts: seq<nat>) {
    |cuts| == |segs| && forall i | 0 <= i < |segs| :: segs[i].file.synced <= cuts[i] <= |segs[i].file.data|
  }

  function TornAll(segs: seq<Segment>, cuts: seq<nat>): seq<Segment>
    requires CutsFit(segs, cuts)
  {
    seq(|segs|, i requires 0 <= i < |segs| => segs[i].(file := Torn(segs[i].file, cuts[i]), armed := false))
  }

  function LineBag(d: Bytes): multiset<Bytes> {
    multiset(Lines(d))
  }

  function ActiveBytes(s: State): Bytes {
    if s.active.Some? then s.active.value.data else []
  }

  function SyncedBytes(s: State): Bytes {
    if s.active.Some? && s.active.value.synced <= |s.active.value.data|
    then s.active.value.data[..s.active.value.synced] else []
  }

  predicate IsTarget(s: State, seg: Segment) {
    s.mode.Recovering? && seg.key == s.mode.target
  }

  /** Removing a segment file loses what its upload does not hold. */
  function LostOnUnlink(seg: Segment): multiset<Bytes>
    requires seg.uploaded.Some?
  {
    if seg.copy then multiset{} else LineBag(seg.file.data) - LineBag(seg.uploaded.value)
  }

  /** Where the archive holds recovery's target, if its file is already gone. */
  function ShippedTarget(s: State): (k: Option<nat>)
    ensures k.Some? ==> k.value < |s.archive| && s.mode.Recovering?
  {
    if s.mode.Recovering? && s.mode.shipped.Some? && s.mode.shipped.value < |s.archive| then s.mode.shipped else None
  }

  /** The archive once recovery removes the active file: a shipped target now counts. */
  function Adopted(s: State): seq<Object> {
    match ShippedTarget(s)
    case None => s.archive
    case Some(k) => s.archive[k := s.archive[k].(copy := false)]
  }

  /** Removing the active file loses what a target shipped meanwhile does not hold. */
  function LostOnRemove(s: State): multiset<Bytes>
    requires s.mode.Recovering?
  {
    match ShippedTarget(s)
    case None => multiset{}
    case Some(k) => LineBag(s.mode.want) - LineBag(s.archive[k].data)
  }

  // ---- what the code may do, and what it does -----------------------------

  predicate Enabled(s: State, t: Step) {
    match t
    case Write(l) => s.mode.Open? && s.active.Some? && IsLine(l)
    case Sync => s.active.Some?
    case BeginSeal => s.mode.Open? && s.active.Some? && s.active.value.synced == |s.active.value.data|
    case Rename(nanos) => s.mode.Sealing? && s.active.Some? && s.clock < nanos
    case OpenFresh => s.active.None? && (s.mode.Reopening? || s.mode.Down?)
    case CloseHandle => s.mode.Open? || s.mode.Sealing?
    case BeginRecover(nanos) => s.mode.Down? && s.active.Some? && s.clock < nanos
    case RecoverWrite(n) => s.mode.Recovering? && !s.mode.fsynced && s.mode.written <= n <= |s.mode.want|
    case RecoverSync => s.mode.Recovering? && s.mode.written == |s.mode.want|
    case RecoverRemove => s.mode.Recovering? && s.mode.fsynced && s.active.Some?
    case GiveUp => s.mode.Recovering? || s.mode.Reopening?
    case Put(i) => i < |s.sealed|
    case Unlink(i) => i < |s.sealed| && s.sealed[i].armed && s.sealed[i].uploaded.Some?
    case Crash(cut, cuts) =>
      && (s.active.Some? ==> s.active.value.synced <= cut <= |s.active.value.data|)
      && CutsFit(s.sealed, cuts)
  }

  function Do(s: State, t: Step): State
    requires Enabled(s, t)
  {
    match t
    case Write(l) =>
      s.(active := Some(s.active.value.(data := s.active.value.data + EncodeLine(l))), kept := s.kept + multiset{l})
    case Sync =>
      s.(active := Some(s.active.value.(synced := |s.active.value.data|)),
         acked := s.acked + (LineBag(ActiveBytes(s)) - LineBag(SyncedBytes(s))))
    case BeginSeal => s.(mode := Sealing)
    case Rename(nanos) =>
      s.(sealed := Insert(s.sealed, Segment(Key(s.base, nanos), s.active.value, None, false, false, false)),
         active := None, mode := Reopening, base := s.base + 1, clock := nanos)
    case OpenFresh =>
      s.(active := Some(File([], 0)), mode := Open, base := if s.mode.Down? then |s.sealed| else s.base)
    case CloseHandle => s.(mode := Down)
    case BeginRecover(nanos) =>
      var target := Key(|s.sealed|, nanos);
      s.(sealed := Insert(s.sealed, Segment(target, File([], 0), None, false, true, true)),
         mode := Recovering(target, Complete(s.active.value.data), 0, false, None),
         base := |s.sealed|, clock := nanos)
    case RecoverWrite(n) =>
      s.(sealed := WithTarget(s.sealed, s.mode.target, File(s.mode.want[..n], 0), true),
         mode := s.mode.(written := n))
    case RecoverSync =>
      s.(sealed := WithTarget(s.sealed, s.mode.target, File(s.mode.want, |s.mode.want|), true),
         mode := s.mode.(fsynced := true))
    case RecoverRemove =>
      s.(sealed := WithTarget(s.sealed, s.mode.target, File(s.mode.want, |s.mode.want|), false),
         archive := Adopted(s), lost := s.lost + LostOnRemove(s),
         active := None, mode := Reopening, base := s.base + 1)
    case GiveUp => s.(mode := Down)
    case Put(i) =>
      s.(sealed := s.sealed[i := s.sealed[i].(uploaded := Some(s.sealed[i].file.data), armed := true)])
    case Unlink(i) =>
      var seg := s.sealed[i];
      s.(sealed := RemoveAt(s.sealed, i),
         archive := s.archive + [Object(seg.key, seg.uploaded.value, seg.copy)],
         lost := s.lost + LostOnUnlink(seg),
         mode := if IsTarget(s, seg) then s.mode.(shipped := Some(|s.archive|)) else s.mode)
    case Crash(cut, cuts) =>
      var lost := if s.active.None? then multiset{}
                  else LineBag(s.active.value.data) - LineBag(s.active.value.data[..cut]);
      var spared := if s.active.None? then multiset{}
                    else LineBag(s.active.value.data[..cut]) - LineBag(SyncedBytes(s));
      s.(active := if s.active.None? then None else Some(Torn(s.active.value, cut)),
         sealed := TornAll(s.sealed, cuts), mode := Down, kept := s.kept - lost, acked := s.acked + spared)
  }

  /** The hazard: the shipper takes no lock, so it can upload the very segment
      recovery is still writing, and then remove it on the strength of that. */
  predicate Races(s: State, t: Step) {
    t.Put? && t.i < |s.sealed| && IsTarget(s, s.sealed[t.i]) && s.mode.written < |s.mode.want|
  }

  // ---- accounting ---------------------------------------------------------

  function Part(seg: Segment): multiset<Bytes> {
    if seg.copy then multiset{} else LineBag(seg.file.data)
  }

  function SegBag(segs: seq<Segment>): multiset<Bytes> {
    if segs == [] then multiset{} else SegBag(segs[..|segs| - 1]) + Part(segs[|segs| - 1])
  }

  function ObjectPart(o: Object): multiset<Bytes> {
    if o.copy then multiset{} else LineBag(o.data)
  }

  function ArchiveBag(objs: seq<Object>): multiset<Bytes> {
    if objs == [] then multiset{}
    else ArchiveBag(objs[..|objs| - 1]) + ObjectPart(objs[|objs| - 1])
  }

  /** Every line on disk or in the sink, counting each once: the copies an
      interrupted recovery left behind are not counted. */
  function Held(s: State): multiset<Bytes> {
    LineBag(ActiveBytes(s)) + SegBag(s.sealed) + ArchiveBag(s.archive)
  }

  lemma SegBagSnoc(segs: seq<Segment>, x: Segment)
    ensures SegBag(segs + [x]) == SegBag(segs) + Part(x)
  {
    assert (segs + [x])[..|segs|] == segs;
  }

  lemma Assoc<T>(x: multiset<T>, y: multiset<T>, z: multiset<T>)
    ensures x + y + z == x + (y + z)
  {
  }

  lemma {:induction false} SegBagConcat(a: seq<Segment>, b: seq<Segment>)
    ensures SegBag(a + b) == SegBag(a) + SegBag(b)
  {
    if b == [] {
      assert a + b == a;
    } else {
      var init, last := b[..|b| - 1], b[|b| - 1];
      calc {
        SegBag(a + b);
        { Seqs.Unsnoc(b); Seqs.Assoc(a, init, [last]); SegBagSnoc(a + init, last); }
        SegBag(a + init) + Part(last);
        { SegBagConcat(a, init); }
        SegBag(a) + SegBag(init) + Part(last);
        { Assoc(SegBag(a), SegBag(init), Part(last)); }
        SegBag(a) + SegBag(b);
      }
    }
  }

  lemma SegBagAt(segs: seq<Segment>, i: nat)
    requires i < |segs|
    ensures SegBag(segs) == SegBag(segs[..i]) + Part(segs[i]) + SegBag(segs[i + 1..])
  {
    Seqs.SplitAt(segs, i);
    SegBagConcat(segs[..i] + [segs[i]], segs[i + 1..]);
    SegBagSnoc(segs[..i], segs[i]);
  }

  lemma SegBagUpdate(segs: seq<Segment>, i: nat, x: Segment)
    requires i < |segs|
    ensures SegBag(segs[i := x]) + Part(segs[i]) == SegBag(segs) + Part(x)
  {
    SegBagAt(segs, i);
    SegBagAt(segs[i := x], i);
    assert segs[i := x][..i] == segs[..i] && segs[i := x][i + 1..] == segs[i + 1..];
  }

  lemma SegBagRemove(segs: seq<Segment>, i: nat)
    requires i < |segs|
    ensures SegBag(RemoveAt(segs, i)) + Part(segs[i]) == SegBag(segs)
  {
    SegBagAt(segs, i);
    SegBagConcat(segs[..i], segs[i + 1..]);
  }

  lemma {:induction false} SegBagInsert(segs: seq<Segment>, x: Segment)
    ensures SegBag(Insert(segs, x)) == SegBag(segs) + Part(x)
  {
    if segs == [] || Before(segs[|segs| - 1].key, x.key) {
      SegBagSnoc(segs, x);
    } else {
      SegBagInsert(segs[..|segs| - 1], x);
      SegBagSnoc(Insert(segs[..|segs| - 1], x), segs[|segs| - 1]);
    }
  }

  lemma {:induction false} InsertMembers(segs: seq<Segment>, x: Segment)
    ensures |Insert(segs, x)| == |segs| + 1
    ensures forall y :: y in Insert(segs, x) <==> y in segs || y == x
  {
    if segs != [] && !Before(segs[|segs| - 1].key, x.key) {
      var init, last := segs[..|segs| - 1], segs[|segs| - 1];
      InsertMembers(init, x);
      Seqs.Unsnoc(segs);
      forall y ensures y in Insert(segs, x) <==> y in segs || y == x {
        Seqs.InConcat(Insert(init, x), [last], y);
        Seqs.InConcat(init, [last], y);
      }
    } else {
      forall y ensures y in Insert(segs, x) <==> y in segs || y == x {
        Seqs.InConcat(segs, [x], y);
      }
    }
  }

  // ---- the invariant ------------------------------------------------------

  predicate SegOK(seg: Segment, s: State) {
    && seg.file.synced <= |seg.file.data|
    && seg.key.nanos <= s.clock
    && (!seg.copy ==> seg.file.synced == |seg.file.data| && Aligned(seg.file.data))
    && (seg.copy ==> seg.recovered)
    && (seg.armed ==> UploadOK(seg))
    && (IsTarget(s, seg) ==>
          && seg.copy
          && s.mode.written <= |s.mode.want|
          && seg.file.data == s.mode.want[..s.mode.written])
  }

  /** What this process has uploaded is the file as it was at some moment: all of it,
      unless some recovery was still writing it. */
  predicate UploadOK(seg: Segment) {
    seg.uploaded.Some? && seg.uploaded.value <= seg.file.data && (seg.uploaded.value != seg.file.data ==> seg.recovered)
  }

  predicate ActiveOK(s: State) {
    && (s.active.Some? ==> s.active.value.synced <= |s.active.value.data|)
    && (s.mode.Open? || s.mode.Sealing? ==> s.active.Some? && Aligned(s.active.value.data))
    && (s.mode.Sealing? ==> s.active.value.synced == |s.active.value.data|)
    && (s.mode.Reopening? ==> s.active.None?)
  }

  predicate ModeOK(s: State) {
    s.mode.Recovering? ==>
      && s.active.Some? && s.mode.want == Complete(s.active.value.data)
      && s.mode.written <= |s.mode.want|
      && (s.mode.fsynced ==> s.mode.written == |s.mode.want|)
      && (s.mode.shipped.None? ==> Find(s.sealed, s.mode.target).Some?)
      && (s.mode.shipped.Some? ==> Find(s.sealed, s.mode.target).None? && ShippedOK(s))
  }

  predicate ShippedOK(s: State)
    requires s.mode.Recovering? && s.mode.shipped.Some?
  {
    var k := s.mode.shipped.value;
    k < |s.archive| && s.archive[k].copy && s.archive[k].data <= s.mode.want
  }

  predicate Durable(s: State) {
    s.acked + LineBag(ActiveBytes(s)) <= s.kept + LineBag(SyncedBytes(s))
  }

  predicate Distinct(segs: seq<Segment>) {
    forall i, j | 0 <= i < j < |segs| :: segs[i].key != segs[j].key
  }

  predicate SegsOK(s: State) {
    Distinct(s.sealed) && forall i | 0 <= i < |s.sealed| :: SegOK(s.sealed[i], s)
  }

  predicate Shape(s: State) {
    ActiveOK(s) && ModeOK(s) && SegsOK(s)
  }

  /** Every line is accounted for: held, or lost. */
  predicate Balanced(s: State) {
    Held(s) + s.lost == s.kept
  }

  predicate Inv(s: State) {
    Shape(s) && Balanced(s) && Durable(s)
  }

  /** No upload of this process fell short: what holds as long as nobody races. */
  predicate Tight(s: State) {
    && (forall i | 0 <= i < |s.sealed| && s.sealed[i].armed :: s.sealed[i].uploaded == Some(s.sealed[i].file.data))
    && (forall i | 0 <= i < |s.sealed| && s.sealed[i].armed && IsTarget(s, s.sealed[i]) :: s.mode.written == |s.mode.want|)
    && (ShippedTarget(s).Some? ==> s.archive[ShippedTarget(s).value].data == s.mode.want)
  }
}
