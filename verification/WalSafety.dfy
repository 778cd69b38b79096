/** What becomes of every line, over every run of the WAL machine: appends, seals,
    failed recoveries, uploads, removals and crashes, in any interleaving.  A line
    is held or lost, and lines are lost in exactly one way: the shipper removes a
    segment on the strength of an upload it took while recovery was still writing
    it.  Runs without such an upload lose nothing an fsync has covered. */
module WalSafety {
  import opened Boundary
  import opened Framing
  import opened Segments
  import opened Wal
  import Seqs

  // ---- bags ---------------------------------------------------------------

  lemma PrefixBag(d: Bytes, k: nat)
    requires k <= |d|
    ensures LineBag(d[..k]) <= LineBag(d)
  {
    LinesOfPrefix(d, k);
    var rest := Lines(d)[|Lines(d[..k])|..];
    assert Lines(d) == Lines(d[..k]) + rest;
    assert multiset(Lines(d)) == multiset(Lines(d[..k])) + multiset(rest);
  }

  lemma SyncArithmetic<T>(acked: multiset<T>, kept: multiset<T>, whole: multiset<T>, part: multiset<T>)
    requires part <= whole && acked + whole <= kept + part
    ensures acked + (whole - part) + whole <= kept + whole
  {
    forall x ensures (acked + (whole - part) + whole)[x] <= (kept + whole)[x] {
      assert (acked + whole)[x] <= (kept + part)[x];
    }
  }

  lemma CrashArithmetic<T>(acked: multiset<T>, kept: multiset<T>, rest: multiset<T>,
                           whole: multiset<T>, part: multiset<T>, cut: multiset<T>)
    requires kept == whole + rest && part <= cut <= whole && acked + whole <= kept + part
    ensures cut + rest == kept - (whole - cut)
    ensures acked + (cut - part) + cut <= kept - (whole - cut) + cut
  {
    forall x ensures (acked + (cut - part) + cut)[x] <= (kept - (whole - cut) + cut)[x] {
      assert (acked + whole)[x] <= (kept + part)[x];
      assert part[x] <= cut[x] <= whole[x];
    }
  }

  lemma {:induction false} SegBagSame(a: seq<Segment>, b: seq<Segment>)
    requires |a| == |b| && forall i | 0 <= i < |a| :: Part(a[i]) == Part(b[i])
    ensures SegBag(a) == SegBag(b)
  {
    if a == [] {
    } else {
      SegBagSame(a[..|a| - 1], b[..|b| - 1]);
    }
  }

  lemma ArchiveSnoc(objs: seq<Object>, o: Object)
    ensures ArchiveBag(objs + [o]) == ArchiveBag(objs) + ObjectPart(o)
  {
    assert (objs + [o])[..|objs|] == objs;
  }

  lemma {:induction false} ArchiveOne(objs: seq<Object>, k: nat, o: Object)
    requires k < |objs|
    ensures ArchiveBag(objs[k := o]) + ObjectPart(objs[k]) == ArchiveBag(objs) + ObjectPart(o)
    decreases |objs|
  {
    var init, last := objs[..|objs| - 1], objs[|objs| - 1];
    Seqs.Unsnoc(objs);
    ArchiveSnoc(init, last);
    if k == |objs| - 1 {
      Seqs.UpdateEnd(objs, o);
      ArchiveSnoc(init, o);
      Exchange(ArchiveBag(init), ObjectPart(o), ObjectPart(last));
    } else {
      assert objs[k := o] == init[k := o] + [last];
      ArchiveSnoc(init[k := o], last);
      ArchiveOne(init, k, o);
      Slide(ArchiveBag(init[k := o]), ArchiveBag(init), ObjectPart(last), ObjectPart(objs[k]), ObjectPart(o));
    }
  }

  lemma Exchange<T>(a: multiset<T>, x: multiset<T>, y: multiset<T>)
    ensures a + x + y == a + y + x
  {
  }

  lemma Slide<T>(a': multiset<T>, a: multiset<T>, l: multiset<T>, x: multiset<T>, y: multiset<T>)
    requires a' + x == a + y
    ensures (a' + l) + x == (a + l) + y
  {
    forall e ensures ((a' + l) + x)[e] == ((a + l) + y)[e] {
      assert (a' + x)[e] == (a + y)[e];
    }
  }

  /** Balance depends on four bags; these say how it survives a change. */
  lemma AddToFirst<T>(a: multiset<T>, b: multiset<T>, c: multiset<T>, l: multiset<T>, x: multiset<T>)
    ensures (a + x) + b + c + l == a + b + c + l + x
  {
  }

  lemma MoveToSecond<T>(a: multiset<T>, b: multiset<T>, c: multiset<T>, l: multiset<T>, b': multiset<T>)
    requires b' == b + a
    ensures multiset{} + b' + c + (l + multiset{}) == a + b + c + l
  {
  }

  /** A part of the second moves to the third, which keeps `y` of it; the rest is lost. */
  lemma MoveToThird<T>(a: multiset<T>, b: multiset<T>, c: multiset<T>, l: multiset<T>,
                       x: multiset<T>, y: multiset<T>, b': multiset<T>, c': multiset<T>)
    requires b' + x == b && c' == c + y && y <= x
    ensures a + b' + c' + (l + (x - y)) == a + b + c + l
  {
    forall e ensures (a + b' + c' + (l + (x - y)))[e] == (a + b + c + l)[e] {
      assert (b' + x)[e] == b[e] && y[e] <= x[e];
    }
  }

  /** The first goes; the third gains `y` of it; the rest is lost. */
  lemma FirstToThird<T>(a: multiset<T>, b: multiset<T>, c: multiset<T>, l: multiset<T>, y: multiset<T>, c': multiset<T>)
    requires c' == c + y && y <= a
    ensures multiset{} + b + c' + (l + (a - y)) == a + b + c + l
  {
    forall e ensures (multiset{} + b + c' + (l + (a - y)))[e] == (a + b + c + l)[e] {
      assert y[e] <= a[e];
    }
  }

  lemma ShortfallIff<T>(whole: multiset<T>, part: multiset<T>)
    requires part <= whole
    ensures whole - part == multiset{} <==> part == whole
  {
    if whole - part == multiset{} {
      forall e ensures part[e] == whole[e] {
        assert (whole - part)[e] == 0;
      }
    }
  }

  lemma AddToBoth<T>(acked: multiset<T>, kept: multiset<T>, whole: multiset<T>, part: multiset<T>, x: multiset<T>)
    requires acked + whole <= kept + part
    ensures acked + (whole + x) <= (kept + x) + part
  {
    forall y ensures (acked + (whole + x))[y] <= ((kept + x) + part)[y] {
      assert (acked + whole)[y] <= (kept + part)[y];
    }
  }

  lemma Cancel<T>(x: multiset<T>, y: multiset<T>, z: multiset<T>)
    requires x + z == y + z
    ensures x == y
  {
    forall e ensures x[e] == y[e] {
      assert (x + z)[e] == (y + z)[e];
    }
  }

  lemma EmptyBag()
    ensures LineBag([]) == multiset{}
  {
  }

  // ---- the active file ----------------------------------------------------

  lemma WriteBag(d: Bytes, l: Bytes)
    requires Aligned(d) && IsLine(l)
    ensures Aligned(d + EncodeLine(l)) && LineBag(d + EncodeLine(l)) == LineBag(d) + multiset{l}
  {
    LinesSnoc(d, l);
  }

  lemma WriteKeeps(s: State, l: Bytes)
    requires Inv(s) && Enabled(s, Write(l))
    ensures Inv(Do(s, Write(l)))
  {
    var s' := Do(s, Write(l));
    var f := s.active.value;
    WriteBag(f.data, l);
    assert Shape(s');
    AddToFirst(LineBag(f.data), SegBag(s.sealed), ArchiveBag(s.archive), s.lost, multiset{l});
    assert s'.active.value.data[..f.synced] == f.data[..f.synced];
    AddToBoth(s.acked, s.kept, LineBag(f.data), LineBag(f.data[..f.synced]), multiset{l});
  }

  lemma SyncKeeps(s: State)
    requires Inv(s) && Enabled(s, Sync)
    ensures Inv(Do(s, Sync))
  {
    var s' := Do(s, Sync);
    var f := s.active.value;
    PrefixBag(f.data, f.synced);
    SyncArithmetic(s.acked, s.kept, LineBag(f.data), LineBag(f.data[..f.synced]));
    assert SyncedBytes(s') == f.data;
    assert Held(s') == Held(s);
  }

  lemma InsertDistinct(segs: seq<Segment>, x: Segment)
    requires Distinct(segs) && forall i | 0 <= i < |segs| :: segs[i].key != x.key
    ensures Distinct(Insert(segs, x))
  {
    if segs != [] && !Before(segs[|segs| - 1].key, x.key) {
      var init, last := segs[..|segs| - 1], segs[|segs| - 1];
      InsertDistinct(init, x);
      InsertMembers(init, x);
      var r := Insert(init, x);
      forall i | 0 <= i < |r| ensures r[i].key != last.key {
        assert r[i] in r;
      }
    }
  }

  /** A new name never hits an old one: the clock only moves forward. */
  lemma NewKeyKeepsSegs(s: State, x: Segment, s': State)
    requires SegsOK(s) && s.clock < x.key.nanos <= s'.clock
    requires !s.mode.Recovering? && s'.sealed == Insert(s.sealed, x)
    requires s'.mode.Recovering? ==> s'.mode.target == x.key
    requires SegOK(x, s')
    ensures SegsOK(s')
  {
    InsertDistinct(s.sealed, x);
    InsertMembers(s.sealed, x);
    forall i | 0 <= i < |s'.sealed| ensures SegOK(s'.sealed[i], s') {
      assert s'.sealed[i] in s'.sealed;
    }
  }

  lemma RenameShape(s: State, nanos: Time)
    requires Shape(s) && Enabled(s, Rename(nanos))
    ensures Shape(Do(s, Rename(nanos)))
  {
    NewKeyKeepsSegs(s, Segment(Key(s.base, nanos), s.active.value, None, false, false, false), Do(s, Rename(nanos)));
  }

  lemma RenameBalanced(s: State, nanos: Time)
    requires Balanced(s) && Enabled(s, Rename(nanos))
    ensures Balanced(Do(s, Rename(nanos)))
  {
    var s', f := Do(s, Rename(nanos)), s.active.value;
    SegBagInsert(s.sealed, Segment(Key(s.base, nanos), f, None, false, false, false));
    EmptyBag();
    MoveToSecond(LineBag(f.data), SegBag(s.sealed), ArchiveBag(s.archive), s.lost, SegBag(s'.sealed));
  }

  lemma RenameDurable(s: State, nanos: Time)
    requires ActiveOK(s) && Durable(s) && Enabled(s, Rename(nanos))
    ensures Durable(Do(s, Rename(nanos)))
  {
    var f := s.active.value;
    EmptyBag();
    assert f.data[..f.synced] == f.data;
    DropActive(s.acked, s.kept, LineBag(f.data), LineBag(f.data));
  }

  lemma RenameHeld(s: State, nanos: Time)
    requires ActiveOK(s) && Balanced(s) && Durable(s) && Enabled(s, Rename(nanos))
    ensures var s' := Do(s, Rename(nanos)); Balanced(s') && Durable(s')
  {
    RenameBalanced(s, nanos);
    RenameDurable(s, nanos);
  }

  lemma RenameKeeps(s: State, nanos: Time)
    requires Inv(s) && Enabled(s, Rename(nanos))
    ensures Inv(Do(s, Rename(nanos)))
  {
    RenameShape(s, nanos);
    RenameHeld(s, nanos);
  }

  lemma OpenFreshKeeps(s: State)
    requires Inv(s) && Enabled(s, OpenFresh)
    ensures Inv(Do(s, OpenFresh))
  {
    var s' := Do(s, OpenFresh);
    assert LineBag([]) == multiset{};
    assert SyncedBytes(s') == [] && SyncedBytes(s) == [];
    assert Held(s') == Held(s);
  }

  lemma ModeChangeKeeps(s: State, t: Step)
    requires Inv(s) && Enabled(s, t) && (t.BeginSeal? || t.CloseHandle? || t.GiveUp?)
    ensures Inv(Do(s, t))
  {
    var s' := Do(s, t);
    assert Held(s') == Held(s);
  }

  // ---- recovery -----------------------------------------------------------

  lemma BeginRecoverKeeps(s: State, nanos: Time)
    requires Inv(s) && Enabled(s, BeginRecover(nanos))
    ensures Inv(Do(s, BeginRecover(nanos)))
  {
    var s' := Do(s, BeginRecover(nanos));
    var x := Segment(Key(|s.sealed|, nanos), File([], 0), None, false, true, true);
    BeginRecoverShape(s, nanos);
    SegBagInsert(s.sealed, x);
    NothingAdded(SegBag(s.sealed));
    assert SegBag(s'.sealed) == SegBag(s.sealed);
  }

  lemma BeginRecoverShape(s: State, nanos: Time)
    requires Shape(s) && Enabled(s, BeginRecover(nanos))
    ensures Shape(Do(s, BeginRecover(nanos)))
  {
    var s' := Do(s, BeginRecover(nanos));
    var x := Segment(Key(|s.sealed|, nanos), File([], 0), None, false, true, true);
    NewKeyKeepsSegs(s, x, s');
    InsertMembers(s.sealed, x);
    assert x in s'.sealed;
  }

  lemma NothingAdded<T>(m: multiset<T>)
    ensures m + multiset{} == m
  {
  }

  /** Rewriting the file recovery is copying into touches nothing that counts. */
  lemma TargetBag(segs: seq<Segment>, k: Key, f: File)
    requires Find(segs, k).Some? ==> segs[Find(segs, k).value].copy
    ensures SegBag(WithTarget(segs, k, f, true)) == SegBag(segs)
  {
    if Find(segs, k).Some? {
      var i := Find(segs, k).value;
      var x := segs[i].(file := f, copy := true);
      SegBagUpdate(segs, i, x);
      NothingAdded(SegBag(segs));
      NothingAdded(SegBag(segs[i := x]));
    }
  }

  lemma TargetIsCopy(s: State)
    requires Shape(s) && s.mode.Recovering? && Find(s.sealed, s.mode.target).Some?
    ensures s.sealed[Find(s.sealed, s.mode.target).value].copy
  {
    assert SegOK(s.sealed[Find(s.sealed, s.mode.target).value], s);
  }

  lemma TargetSegs(s: State, s': State, f: File)
    requires SegsOK(s) && s.mode.Recovering?
    requires s'.sealed == WithTarget(s.sealed, s.mode.target, f, true) && s'.clock == s.clock
    requires s'.mode.Recovering? && s'.mode.target == s.mode.target && s'.mode.want == s.mode.want
    requires s.mode.written <= s'.mode.written <= |s'.mode.want|
    requires f.data == s'.mode.want[..s'.mode.written] && f.synced <= |f.data|
    ensures SegsOK(s')
  {
    forall j | 0 <= j < |s'.sealed| ensures SegOK(s'.sealed[j], s') {
      assert SegOK(s.sealed[j], s);
      if IsTarget(s, s.sealed[j]) && s.sealed[j].armed {
        assert s.sealed[j].file.data <= f.data;
      }
    }
  }

  lemma TargetShape(s: State, s': State, f: File)
    requires Shape(s) && s.mode.Recovering?
    requires s'.sealed == WithTarget(s.sealed, s.mode.target, f, true)
    requires s'.active == s.active && s'.clock == s.clock && s'.archive == s.archive
    requires s'.mode.Recovering? && s'.mode.target == s.mode.target && s'.mode.want == s.mode.want
    requires s'.mode.shipped == s.mode.shipped
    requires s.mode.written <= s'.mode.written <= |s'.mode.want|
    requires f.data == s'.mode.want[..s'.mode.written] && f.synced <= |f.data|
    requires s'.mode.fsynced ==> s'.mode.written == |s'.mode.want|
    ensures Shape(s')
  {
    TargetSegs(s, s', f);
    if Find(s.sealed, s.mode.target).Some? {
      FindUpdate(s.sealed, Find(s.sealed, s.mode.target).value, s'.sealed[Find(s.sealed, s.mode.target).value], s.mode.target);
    }
  }

  lemma RecoverWriteKeeps(s: State, n: nat)
    requires Inv(s) && Enabled(s, RecoverWrite(n))
    ensures Inv(Do(s, RecoverWrite(n)))
  {
    var s' := Do(s, RecoverWrite(n));
    if Find(s.sealed, s.mode.target).Some? {
      TargetIsCopy(s);
    }
    TargetBag(s.sealed, s.mode.target, File(s.mode.want[..n], 0));
    TargetShape(s, s', File(s.mode.want[..n], 0));
  }

  lemma RecoverSyncKeeps(s: State)
    requires Inv(s) && Enabled(s, RecoverSync)
    ensures Inv(Do(s, RecoverSync))
  {
    var s' := Do(s, RecoverSync);
    assert s.mode.want[..s.mode.written] == s.mode.want;
    if Find(s.sealed, s.mode.target).Some? {
      TargetIsCopy(s);
    }
    TargetBag(s.sealed, s.mode.target, File(s.mode.want, |s.mode.want|));
    TargetShape(s, s', File(s.mode.want, |s.mode.want|));
  }

  lemma HandOverBag(segs: seq<Segment>, k: Key, f: File)
    requires Find(segs, k).Some? && segs[Find(segs, k).value].copy
    ensures SegBag(WithTarget(segs, k, f, false)) == SegBag(segs) + LineBag(f.data)
  {
    var i := Find(segs, k).value;
    var x := segs[i].(file := f, copy := false);
    SegBagUpdate(segs, i, x);
    NothingAdded(SegBag(segs[i := x]));
  }

  lemma HandOverSegs(s: State, s': State)
    requires SegsOK(s) && s.mode.Recovering? && s.mode.written == |s.mode.want| && Aligned(s.mode.want)
    requires s'.sealed == WithTarget(s.sealed, s.mode.target, File(s.mode.want, |s.mode.want|), false)
    requires s'.clock == s.clock && !s'.mode.Recovering?
    ensures SegsOK(s')
  {
    assert s.mode.want[..|s.mode.want|] == s.mode.want;
    forall j | 0 <= j < |s'.sealed| ensures SegOK(s'.sealed[j], s') {
      assert SegOK(s.sealed[j], s);
    }
  }

  lemma HandOverShape(s: State)
    requires Shape(s) && Enabled(s, RecoverRemove)
    ensures Shape(Do(s, RecoverRemove))
  {
    CompleteAndTail(s.active.value.data);
    HandOverSegs(s, Do(s, RecoverRemove));
  }

  /** The target's file is still there: it becomes the holder in the very step that
      removes the active file. */
  lemma HandOverHeld(s: State)
    requires Shape(s) && Balanced(s) && Enabled(s, RecoverRemove) && s.mode.shipped.None?
    ensures Balanced(Do(s, RecoverRemove)) && Do(s, RecoverRemove).lost == s.lost
  {
    var s', f := Do(s, RecoverRemove), s.active.value;
    TargetIsCopy(s);
    HandOverBag(s.sealed, s.mode.target, File(s.mode.want, |s.mode.want|));
    CompleteAndTail(f.data);
    EmptyBag();
    MoveToSecond(LineBag(f.data), SegBag(s.sealed), ArchiveBag(s.archive), s.lost, SegBag(s'.sealed));
    NothingAdded(s.lost);
  }

  /** The target's file is gone: its object becomes the holder of what it holds. */
  lemma AdoptHeld(s: State)
    requires Shape(s) && Balanced(s) && Enabled(s, RecoverRemove) && s.mode.shipped.Some?
    ensures Balanced(Do(s, RecoverRemove))
  {
    var s', f, o := Do(s, RecoverRemove), s.active.value, s.archive[s.mode.shipped.value];
    AdoptedBag(s);
    CompleteAndTail(f.data);
    EmptyBag();
    FirstToThird(LineBag(f.data), SegBag(s.sealed), ArchiveBag(s.archive), s.lost, LineBag(o.data), ArchiveBag(Adopted(s)));
  }

  lemma AdoptedBag(s: State)
    requires ModeOK(s) && s.mode.Recovering? && s.mode.shipped.Some?
    ensures var o := s.archive[s.mode.shipped.value];
            && ArchiveBag(Adopted(s)) == ArchiveBag(s.archive) + LineBag(o.data)
            && LineBag(o.data) <= LineBag(s.mode.want)
  {
    var k := s.mode.shipped.value;
    var o := s.archive[k];
    ArchiveOne(s.archive, k, o.(copy := false));
    NothingAdded(ArchiveBag(Adopted(s)));
    assert o.data == s.mode.want[..|o.data|];
    PrefixBag(s.mode.want, |o.data|);
  }

  lemma RecoverRemoveKeeps(s: State)
    requires Inv(s) && Enabled(s, RecoverRemove)
    ensures Inv(Do(s, RecoverRemove))
  {
    var f := s.active.value;
    HandOverShape(s);
    if s.mode.shipped.None? {
      HandOverHeld(s);
    } else {
      AdoptHeld(s);
    }
    EmptyBag();
    PrefixBag(f.data, f.synced);
    DropActive(s.acked, s.kept, LineBag(f.data), LineBag(f.data[..f.synced]));
  }

  lemma DropActive<T>(acked: multiset<T>, kept: multiset<T>, whole: multiset<T>, part: multiset<T>)
    requires acked + whole <= kept + part && part <= whole
    ensures acked <= kept
  {
    forall x ensures acked[x] <= kept[x] {
      assert (acked + whole)[x] <= (kept + part)[x];
    }
  }

  // ---- shipping -----------------------------------------------------------

  lemma PutShape(s: State, i: nat)
    requires Shape(s) && Enabled(s, Put(i))
    ensures Shape(Do(s, Put(i)))
  {
    var s' := Do(s, Put(i));
    if s.mode.Recovering? {
      FindUpdate(s.sealed, i, s'.sealed[i], s.mode.target);
    }
    forall j | 0 <= j < |s'.sealed| ensures SegOK(s'.sealed[j], s') {
      assert SegOK(s.sealed[j], s);
    }
  }

  lemma PutKeeps(s: State, i: nat)
    requires Inv(s) && Enabled(s, Put(i))
    ensures Inv(Do(s, Put(i)))
  {
    var s' := Do(s, Put(i));
    PutShape(s, i);
    SegBagUpdate(s.sealed, i, s'.sealed[i]);
    assert Part(s'.sealed[i]) == Part(s.sealed[i]);
    Cancel(SegBag(s'.sealed), SegBag(s.sealed), Part(s.sealed[i]));
  }

  lemma UnlinkSegs(s: State, i: nat)
    requires SegsOK(s) && Enabled(s, Unlink(i))
    ensures SegsOK(Do(s, Unlink(i)))
  {
    var s' := Do(s, Unlink(i));
    forall j | 0 <= j < |s'.sealed| ensures s'.sealed[j] == s.sealed[if j < i then j else j + 1] {
    }
    forall j | 0 <= j < |s'.sealed| ensures SegOK(s'.sealed[j], s') {
      assert SegOK(s.sealed[if j < i then j else j + 1], s);
    }
  }

  /** Removing another file leaves the target findable. */
  lemma FindAfterRemove(segs: seq<Segment>, i: nat, k: Key)
    requires i < |segs| && Distinct(segs)
    ensures segs[i].key != k ==> (Find(RemoveAt(segs, i), k).Some? <==> Find(segs, k).Some?)
    ensures segs[i].key == k ==> Find(RemoveAt(segs, i), k).None?
  {
    var r := RemoveAt(segs, i);
    forall j | 0 <= j < |r| ensures r[j] == segs[if j < i then j else j + 1] {
    }
    if segs[i].key != k && Find(segs, k).Some? {
      var j := Find(segs, k).value;
      assert r[if j < i then j else j - 1].key == k;
    }
  }

  lemma UnlinkMode(s: State, i: nat)
    requires Shape(s) && Enabled(s, Unlink(i)) && s.mode.Recovering?
    ensures ModeOK(Do(s, Unlink(i)))
  {
    var seg := s.sealed[i];
    assert SegOK(seg, s);
    FindAfterRemove(s.sealed, i, s.mode.target);
    if IsTarget(s, seg) {
      assert seg.file.data <= s.mode.want;
    }
  }

  lemma UnlinkShape(s: State, i: nat)
    requires Shape(s) && Enabled(s, Unlink(i))
    ensures Shape(Do(s, Unlink(i)))
  {
    UnlinkSegs(s, i);
    if s.mode.Recovering? {
      UnlinkMode(s, i);
    }
  }

  /** What goes to the sink is at most what the disk held of it; the rest is lost. */
  lemma UploadedPart(s: State, seg: Segment)
    requires SegOK(seg, s) && seg.armed
    ensures var o := Object(seg.key, seg.uploaded.value, seg.copy);
            ObjectPart(o) <= Part(seg) && LostOnUnlink(seg) == Part(seg) - ObjectPart(o)
  {
    var d := seg.uploaded.value;
    assert d == seg.file.data[..|d|];
    PrefixBag(seg.file.data, |d|);
  }

  lemma UnlinkHeld(s: State, i: nat)
    requires SegsOK(s) && Balanced(s) && Enabled(s, Unlink(i))
    ensures Balanced(Do(s, Unlink(i)))
  {
    var s', seg := Do(s, Unlink(i)), s.sealed[i];
    var o := Object(seg.key, seg.uploaded.value, seg.copy);
    UploadedPart(s, seg);
    SegBagRemove(s.sealed, i);
    ArchiveSnoc(s.archive, o);
    MoveToThird(LineBag(ActiveBytes(s)), SegBag(s.sealed), ArchiveBag(s.archive), s.lost, Part(seg), ObjectPart(o),
                SegBag(s'.sealed), ArchiveBag(s'.archive));
  }

  lemma UnlinkKeeps(s: State, i: nat)
    requires Inv(s) && Enabled(s, Unlink(i))
    ensures Inv(Do(s, Unlink(i)))
  {
    UnlinkShape(s, i);
    UnlinkHeld(s, i);
  }

  // ---- crashing -----------------------------------------------------------

  lemma TornSegment(s: State, s': State, i: nat, cuts: seq<nat>)
    requires i < |s.sealed| && SegOK(s.sealed[i], s) && CutsFit(s.sealed, cuts)
    requires s'.clock == s.clock && s'.mode.Down?
    ensures var x := TornAll(s.sealed, cuts)[i]; SegOK(x, s') && Part(x) == Part(s.sealed[i])
  {
    var d := s.sealed[i].file.data;
    if !s.sealed[i].copy {
      assert d[..cuts[i]] == d;
    }
  }

  lemma TornSegments(s: State, s': State, cuts: seq<nat>)
    requires SegsOK(s) && CutsFit(s.sealed, cuts)
    requires s'.sealed == TornAll(s.sealed, cuts) && s'.clock == s.clock && s'.mode.Down?
    ensures SegsOK(s')
  {
    forall i | 0 <= i < |s'.sealed| ensures SegOK(s'.sealed[i], s') && s'.sealed[i].key == s.sealed[i].key {
      assert SegOK(s.sealed[i], s);
      TornSegment(s, s', i, cuts);
    }
  }

  lemma TornBag(s: State, s': State, cuts: seq<nat>)
    requires SegsOK(s) && CutsFit(s.sealed, cuts)
    requires s'.sealed == TornAll(s.sealed, cuts) && s'.clock == s.clock && s'.mode.Down?
    ensures SegBag(s'.sealed) == SegBag(s.sealed)
  {
    forall i | 0 <= i < |s.sealed| ensures Part(s.sealed[i]) == Part(s'.sealed[i]) {
      assert SegOK(s.sealed[i], s);
      TornSegment(s, s', i, cuts);
    }
    SegBagSame(s.sealed, s'.sealed);
  }

  lemma CrashShape(s: State, cut: nat, cuts: seq<nat>)
    requires Shape(s) && Enabled(s, Crash(cut, cuts))
    ensures var s' := Do(s, Crash(cut, cuts)); Shape(s') && SegBag(s'.sealed) == SegBag(s.sealed)
  {
    var s' := Do(s, Crash(cut, cuts));
    TornSegments(s, s', cuts);
    TornBag(s, s', cuts);
  }

  lemma AllOfRest<T>(a: multiset<T>, b: multiset<T>, c: multiset<T>, l: multiset<T>)
    ensures a + b + c + l == a + (b + c + l)
  {
  }

  lemma CrashKeeps(s: State, cut: nat, cuts: seq<nat>)
    requires Inv(s) && Enabled(s, Crash(cut, cuts))
    ensures Inv(Do(s, Crash(cut, cuts)))
  {
    var s' := Do(s, Crash(cut, cuts));
    CrashShape(s, cut, cuts);
    if s.active.Some? {
      var f := s.active.value;
      PrefixBag(f.data, cut);
      assert f.data[..cut][..f.synced] == f.data[..f.synced];
      PrefixBag(f.data[..cut], f.synced);
      var rest := SegBag(s.sealed) + ArchiveBag(s.archive) + s.lost;
      AllOfRest(LineBag(f.data), SegBag(s.sealed), ArchiveBag(s.archive), s.lost);
      AllOfRest(LineBag(f.data[..cut]), SegBag(s.sealed), ArchiveBag(s.archive), s.lost);
      CrashArithmetic(s.acked, s.kept, rest, LineBag(f.data), LineBag(f.data[..f.synced]), LineBag(f.data[..cut]));
      assert s'.active.value.data[..cut] == f.data[..cut];
    } else {
      assert s.kept - multiset{} == s.kept && s.acked + multiset{} == s.acked;
    }
  }

  // ---- runs ---------------------------------------------------------------

  lemma StepKeeps(s: State, t: Step)
    requires Inv(s) && Enabled(s, t)
    ensures Inv(Do(s, t))
  {
    match t {
      case Write(l) => WriteKeeps(s, l);
      case Sync => SyncKeeps(s);
      case BeginSeal => ModeChangeKeeps(s, t);
      case Rename(nanos) => RenameKeeps(s, nanos);
      case OpenFresh => OpenFreshKeeps(s);
      case CloseHandle => ModeChangeKeeps(s, t);
      case BeginRecover(nanos) => BeginRecoverKeeps(s, nanos);
      case RecoverWrite(n) => RecoverWriteKeeps(s, n);
      case RecoverSync => RecoverSyncKeeps(s);
      case RecoverRemove => RecoverRemoveKeeps(s);
      case GiveUp => ModeChangeKeeps(s, t);
      case Put(i) => PutKeeps(s, i);
      case Unlink(i) => UnlinkKeeps(s, i);
      case Crash(cut, cuts) => CrashKeeps(s, cut, cuts);
    }
  }

  /** `trace` is a run from `s`: any interleaving the code can take. */
  predicate Possible(s: State, trace: seq<Step>)
    decreases trace
  {
    trace == [] || (Enabled(s, trace[0]) && Possible(Do(s, trace[0]), trace[1..]))
  }

  function End(s: State, trace: seq<Step>): State
    requires Possible(s, trace)
    decreases trace
  {
    if trace == [] then s else End(Do(s, trace[0]), trace[1..])
  }

  lemma {:induction false} RunKeeps(s: State, trace: seq<Step>)
    requires Inv(s) && Possible(s, trace)
    ensures Inv(End(s, trace))
    decreases trace
  {
    if trace == [] {
    } else {
      StepKeeps(s, trace[0]);
      RunKeeps(Do(s, trace[0]), trace[1..]);
    }
  }

  lemma SyncedAreKept(s: State)
    requires Inv(s)
    ensures s.acked <= s.kept
  {
    PrefixBag(ActiveBytes(s), |SyncedBytes(s)|);
    assert SyncedBytes(s) == ActiveBytes(s)[..|SyncedBytes(s)|];
    DropActive(s.acked, s.kept, LineBag(ActiveBytes(s)), LineBag(SyncedBytes(s)));
  }

  /** Conservation over every run whatsoever: each line kept is held on disk or in
      the sink, or lost, and counted once; and every line an fsync ever covered is
      among them. */
  lemma EveryLineAccountedFor(s: State, trace: seq<Step>)
    requires Inv(s) && Possible(s, trace)
    ensures var s' := End(s, trace); Held(s') + s'.lost == s'.kept && s'.acked <= Held(s') + s'.lost
  {
    RunKeeps(s, trace);
    SyncedAreKept(End(s, trace));
  }

  // ---- when lines are lost ------------------------------------------------

  /** The two ways: removing a segment recovery has finished, on an upload that fell
      short of it; or removing the active file when its copy has already gone, on
      an upload that fell short. */
  predicate Losing(s: State, t: Step) {
    match t
    case Unlink(i) =>
      i < |s.sealed| && !s.sealed[i].copy && s.sealed[i].uploaded.Some? && s.sealed[i].uploaded.value != s.sealed[i].file.data
    case RecoverRemove =>
      ShippedTarget(s).Some? && s.archive[ShippedTarget(s).value].data != s.mode.want
    case _ => false
  }

  lemma ShorterPrefixFewerLines(d: Bytes, n: nat)
    requires Aligned(d) && n <= |d|
    ensures LineBag(d[..n]) == LineBag(d) <==> n == |d|
  {
    if n < |d| {
      LinesOfPrefix(d[..|d| - 1], n);
      assert d[..|d| - 1][..n] == d[..n];
      assert |Lines(d)| == |Lines(d[..|d| - 1])| + 1;
      assert |LineBag(d[..n])| == |Lines(d[..n])| && |LineBag(d)| == |Lines(d)|;
    } else {
      assert d[..n] == d;
    }
  }

  lemma ShortUploadLosesIff(whole: Bytes, part: Bytes)
    requires Aligned(whole) && part <= whole
    ensures LineBag(whole) - LineBag(part) == multiset{} <==> part == whole
  {
    assert part == whole[..|part|];
    PrefixBag(whole, |part|);
    ShorterPrefixFewerLines(whole, |part|);
    ShortfallIff(LineBag(whole), LineBag(part));
  }

  lemma GrowsIff<T>(l: multiset<T>, x: multiset<T>)
    ensures l <= l + x && (l + x == l <==> x == multiset{})
  {
    if l + x == l {
      forall e ensures x[e] == 0 {
        assert (l + x)[e] == l[e];
      }
    }
  }

  lemma UnlinkLosesIff(s: State, i: nat)
    requires SegsOK(s) && Enabled(s, Unlink(i))
    ensures var s' := Do(s, Unlink(i)); s.lost <= s'.lost && (s'.lost == s.lost <==> !Losing(s, Unlink(i)))
    ensures Losing(s, Unlink(i)) ==> s.sealed[i].recovered && |s.sealed[i].uploaded.value| < |s.sealed[i].file.data|
  {
    var seg := s.sealed[i];
    assert SegOK(seg, s);
    GrowsIff(s.lost, LostOnUnlink(seg));
    if !seg.copy {
      ShortUploadLosesIff(seg.file.data, seg.uploaded.value);
    }
  }

  lemma RemoveLosesIff(s: State)
    requires Inv(s) && Enabled(s, RecoverRemove)
    ensures var s' := Do(s, RecoverRemove); s.lost <= s'.lost && (s'.lost == s.lost <==> !Losing(s, RecoverRemove))
  {
    GrowsIff(s.lost, LostOnRemove(s));
    if s.mode.shipped.Some? {
      CompleteAndTail(s.active.value.data);
      ShortUploadLosesIff(s.mode.want, s.archive[s.mode.shipped.value].data);
    }
  }

  /** A step loses lines iff it is one of the two, and what it then removes is a
      segment some recovery wrote. */
  lemma LosesIff(s: State, t: Step)
    requires Inv(s) && Enabled(s, t)
    ensures s.lost <= Do(s, t).lost && (Do(s, t).lost == s.lost <==> !Losing(s, t))
    ensures Losing(s, t) && t.Unlink? ==> s.sealed[t.i].recovered && |s.sealed[t.i].uploaded.value| < |s.sealed[t.i].file.data|
  {
    if t.Unlink? {
      UnlinkLosesIff(s, t.i);
    } else if t.RecoverRemove? {
      RemoveLosesIff(s);
    }
  }

  /** No step of the run is a losing one. */
  predicate Lossless(s: State, trace: seq<Step>)
    requires Possible(s, trace)
    decreases trace
  {
    trace == [] || (!Losing(s, trace[0]) && Lossless(Do(s, trace[0]), trace[1..]))
  }

  /** Over every run: lines are lost iff at some step recovery's copy and the active
      file are both gone while the upload taken of the copy was short of it. */
  lemma {:induction false} LinesLostIff(s: State, trace: seq<Step>)
    requires Inv(s) && Possible(s, trace)
    ensures s.lost <= End(s, trace).lost
    ensures End(s, trace).lost == s.lost <==> Lossless(s, trace)
    decreases trace
  {
    if trace == [] {
    } else {
      var s1 := Do(s, trace[0]);
      StepKeeps(s, trace[0]);
      LosesIff(s, trace[0]);
      LinesLostIff(s1, trace[1..]);
      Between(s.lost, s1.lost, End(s1, trace[1..]).lost);
    }
  }

  lemma Between<T>(a: multiset<T>, b: multiset<T>, c: multiset<T>)
    requires a <= b <= c
    ensures a <= c && (c == a <==> b == a && c == b)
  {
    if c == a {
      forall e ensures b[e] == a[e] {
        assert a[e] <= b[e] <= c[e];
      }
    }
  }

  // ---- without the race ---------------------------------------------------

  lemma TightRecover(s: State, t: Step)
    requires Shape(s) && Tight(s) && Enabled(s, t) && (t.RecoverWrite? || t.RecoverSync?)
    ensures Tight(Do(s, t))
  {
    var s' := Do(s, t);
    assert s.mode.want[..|s.mode.want|] == s.mode.want;
    forall i | 0 <= i < |s'.sealed| && s'.sealed[i].armed
      ensures s'.sealed[i].uploaded == Some(s'.sealed[i].file.data)
      ensures IsTarget(s', s'.sealed[i]) ==> s'.mode.written == |s'.mode.want|
    {
      assert SegOK(s.sealed[i], s);
    }
  }

  lemma TightUnlink(s: State, i: nat)
    requires Shape(s) && Tight(s) && Enabled(s, Unlink(i))
    ensures Tight(Do(s, Unlink(i)))
  {
    var s', seg := Do(s, Unlink(i)), s.sealed[i];
    forall j | 0 <= j < |s'.sealed| ensures s'.sealed[j] == s.sealed[if j < i then j else j + 1] {
    }
    assert SegOK(seg, s);
    assert s.mode.Recovering? ==> s.mode.want[..|s.mode.want|] == s.mode.want;
  }

  lemma TightShip(s: State, t: Step)
    requires Shape(s) && Tight(s) && Enabled(s, t) && !Races(s, t) && (t.Put? || t.Unlink?)
    ensures Tight(Do(s, t))
  {
    if t.Unlink? {
      TightUnlink(s, t.i);
    }
  }

  lemma TightInsert(s: State, t: Step)
    requires Shape(s) && Tight(s) && Enabled(s, t) && (t.Rename? || t.BeginRecover?)
    ensures Tight(Do(s, t))
  {
    var s' := Do(s, t);
    var x := if t.Rename? then Segment(Key(s.base, t.nanos), s.active.value, None, false, false, false)
             else Segment(Key(|s.sealed|, t.nanos), File([], 0), None, false, true, true);
    InsertMembers(s.sealed, x);
    forall i | 0 <= i < |s'.sealed| && s'.sealed[i].armed
      ensures s'.sealed[i].uploaded == Some(s'.sealed[i].file.data) && !IsTarget(s', s'.sealed[i])
    {
      assert s'.sealed[i] in s'.sealed;
      var j :| 0 <= j < |s.sealed| && s.sealed[j] == s'.sealed[i];
      assert SegOK(s.sealed[j], s);
    }
  }

  lemma TightRemove(s: State)
    requires Shape(s) && Tight(s) && Enabled(s, RecoverRemove)
    ensures Tight(Do(s, RecoverRemove))
  {
    var s' := Do(s, RecoverRemove);
    assert s.mode.want[..|s.mode.want|] == s.mode.want;
    forall i | 0 <= i < |s'.sealed| && s'.sealed[i].armed
      ensures s'.sealed[i].uploaded == Some(s'.sealed[i].file.data)
    {
      assert SegOK(s.sealed[i], s);
    }
  }

  lemma TightStep(s: State, t: Step)
    requires Shape(s) && Tight(s) && Enabled(s, t) && !Races(s, t)
    ensures Tight(Do(s, t)) && !Losing(s, t)
  {
    if t.RecoverWrite? || t.RecoverSync? {
      TightRecover(s, t);
    } else if t.Put? || t.Unlink? {
      TightShip(s, t);
    } else if t.Rename? || t.BeginRecover? {
      TightInsert(s, t);
    } else if t.RecoverRemove? {
      TightRemove(s);
    }
  }

  /** A run in which nobody uploads a segment recovery is still writing. */
  predicate Legal(s: State, trace: seq<Step>)
    decreases trace
  {
    trace == [] || (Enabled(s, trace[0]) && !Races(s, trace[0]) && Legal(Do(s, trace[0]), trace[1..]))
  }

  function Run(s: State, trace: seq<Step>): State
    requires Legal(s, trace)
    decreases trace
  {
    if trace == [] then s else Run(Do(s, trace[0]), trace[1..])
  }

  /** The durability theorem: a run without the race, even one in which the shipper
      uploads and removes recovery's copy once it is written in full, loses nothing.
      What is held is what is kept, less what an earlier race had lost; from a
      clean start every line an fsync ever covered is held. */
  lemma {:induction false} SyncedLinesSurvive(s: State, trace: seq<Step>)
    requires Inv(s) && Tight(s) && Legal(s, trace)
    ensures var s' := Run(s, trace); Inv(s') && Tight(s') && s'.lost == s.lost
    ensures s.lost == multiset{} ==> var s' := Run(s, trace); Held(s') == s'.kept && s'.acked <= Held(s')
    decreases trace
  {
    if trace == [] {
      NothingAdded(Held(s));
      SyncedAreKept(s);
    } else {
      StepKeeps(s, trace[0]);
      TightStep(s, trace[0]);
      LosesIff(s, trace[0]);
      SyncedLinesSurvive(Do(s, trace[0]), trace[1..]);
    }
  }

  // ---- what an fsync promises ---------------------------------------------

  /** Every line in the synced part of the active file is on record as such. */
  predicate AllAcked(s: State) {
    LineBag(SyncedBytes(s)) <= s.acked
  }

  lemma Topped<T>(acked: multiset<T>, part: multiset<T>, whole: multiset<T>)
    requires part <= acked
    ensures whole <= acked + (whole - part) && acked <= acked + (whole - part)
  {
    forall x ensures whole[x] <= (acked + (whole - part))[x] {
      assert part[x] <= acked[x];
    }
  }

  lemma CrashAcks(s: State, cut: nat, cuts: seq<nat>)
    requires AllAcked(s) && Enabled(s, Crash(cut, cuts))
    ensures AllAcked(Do(s, Crash(cut, cuts))) && s.acked <= Do(s, Crash(cut, cuts)).acked
  {
    EmptyBag();
    if s.active.Some? {
      var d := s.active.value.data;
      Topped(s.acked, LineBag(SyncedBytes(s)), LineBag(d[..cut]));
      assert d[..cut][..cut] == d[..cut];
    }
  }

  /** An fsync puts every line of the active file on record. */
  lemma SyncAcks(s: State)
    requires AllAcked(s) && Enabled(s, Sync)
    ensures AllAcked(Do(s, Sync)) && s.acked <= Do(s, Sync).acked && LineBag(ActiveBytes(s)) <= Do(s, Sync).acked
  {
    var d := ActiveBytes(s);
    Topped(s.acked, LineBag(SyncedBytes(s)), LineBag(d));
    assert d[..|d|] == d;
  }

  lemma StepAcks(s: State, t: Step)
    requires ActiveOK(s) && AllAcked(s) && Enabled(s, t)
    ensures AllAcked(Do(s, t)) && s.acked <= Do(s, t).acked
  {
    EmptyBag();
    if t.Crash? {
      CrashAcks(s, t.cut, t.cuts);
    } else if t.Sync? {
      SyncAcks(s);
    } else if t.Write? {
      var f := s.active.value;
      assert (f.data + EncodeLine(t.line))[..f.synced] == f.data[..f.synced];
    } else {
      assert Do(s, t).acked == s.acked;
      assert SyncedBytes(Do(s, t)) == SyncedBytes(s) || SyncedBytes(Do(s, t)) == [];
    }
  }

  lemma {:induction false} RunAcks(s: State, trace: seq<Step>)
    requires Inv(s) && AllAcked(s) && Legal(s, trace)
    ensures AllAcked(Run(s, trace)) && s.acked <= Run(s, trace).acked
    decreases trace
  {
    if trace == [] {
    } else {
      StepKeeps(s, trace[0]);
      StepAcks(s, trace[0]);
      RunAcks(Do(s, trace[0]), trace[1..]);
    }
  }

  /** Once an fsync returns, every line then in the active file is on disk or in the sink
      after every later run without the race, whatever crashes, seals, recoveries and
      shipments come. */
  lemma FsyncedLinesSurvive(s: State, before: seq<Step>, after: seq<Step>)
    requires Inv(s) && Tight(s) && AllAcked(s) && s.lost == multiset{} && Legal(s, before)
    requires Enabled(Run(s, before), Sync) && Legal(Do(Run(s, before), Sync), after)
    ensures LineBag(ActiveBytes(Run(s, before))) <= Held(Run(Do(Run(s, before), Sync), after))
  {
    var mid := Run(s, before);
    SyncedLinesSurvive(s, before);
    RunAcks(s, before);
    SyncAcks(mid);
    StepKeeps(mid, Sync);
    TightStep(mid, Sync);
    var done := Do(mid, Sync);
    RunAcks(done, after);
    SyncedLinesSurvive(done, after);
  }

  /** The start of the first process life. */
  function Fresh(clock: Time): State {
    State(None, [], [], Down, 0, clock, multiset{}, multiset{}, multiset{})
  }

  lemma FreshIsSafe(clock: Time)
    ensures Inv(Fresh(clock)) && Tight(Fresh(clock)) && AllAcked(Fresh(clock))
  {
    assert Lines([]) == [];
    assert Held(Fresh(clock)) == multiset{};
  }

  // ---- with it ------------------------------------------------------------

  lemma {:induction false} FindUpdate(segs: seq<Segment>, i: nat, x: Segment, k: Key)
    requires i < |segs| && x.key == segs[i].key
    ensures Find(segs[i := x], k) == Find(segs, k)
  {
    var last := |segs| - 1;
    if i < last {
      FindUpdate(segs[..last], i, x, k);
      assert segs[i := x][..last] == segs[..last][i := x];
    } else {
      assert segs[i := x][..last] == segs[..last];
    }
  }

  /** Up to the fsync: the target is still there, armed with what was uploaded. */
  lemma RaceToSync(s: State, i: nat) returns (a: State, b: State, c: State)
    requires Inv(s) && s.mode.Recovering? && !s.mode.fsynced && Find(s.sealed, s.mode.target) == Some(i)
    ensures Enabled(s, Put(i)) && a == Do(s, Put(i))
    ensures Enabled(a, RecoverWrite(|s.mode.want|)) && b == Do(a, RecoverWrite(|s.mode.want|))
    ensures Enabled(b, RecoverSync) && c == Do(b, RecoverSync)
    ensures c.mode == s.mode.(written := |s.mode.want|, fsynced := true) && c.active == s.active && c.archive == s.archive
    ensures Find(c.sealed, s.mode.target) == Some(i) && c.sealed[i].armed
    ensures c.sealed[i].uploaded == Some(s.mode.want[..s.mode.written])
  {
    var k, want := s.mode.target, s.mode.want;
    assert SegOK(s.sealed[i], s);
    a := Do(s, Put(i));
    FindUpdate(s.sealed, i, a.sealed[i], k);
    b := Do(a, RecoverWrite(|want|));
    FindUpdate(a.sealed, i, b.sealed[i], k);
    c := Do(b, RecoverSync);
    FindUpdate(b.sealed, i, c.sealed[i], k);
  }

  /** Recovery removes the active file; the target, now the holder, is still armed. */
  lemma RaceRemoved(c: State, i: nat) returns (d: State)
    requires c.mode.Recovering? && c.mode.fsynced && c.active.Some? && Find(c.sealed, c.mode.target) == Some(i)
    requires c.sealed[i].armed && c.sealed[i].uploaded.Some?
    ensures Enabled(c, RecoverRemove) && d == Do(c, RecoverRemove) && Enabled(d, Unlink(i))
    ensures d.sealed[i].file.data == c.mode.want && !d.sealed[i].copy && d.sealed[i].uploaded == c.sealed[i].uploaded
  {
    d := Do(c, RecoverRemove);
  }

  lemma ConsStep(s: State, x: Step, t: seq<Step>)
    requires Enabled(s, x) && Possible(Do(s, x), t)
    ensures Possible(s, [x] + t) && (Lossless(s, [x] + t) <==> !Losing(s, x) && Lossless(Do(s, x), t))
  {
    assert ([x] + t)[0] == x && ([x] + t)[1..] == t;
  }

  lemma RaceTail(c: State, i: nat)
    requires c.mode.Recovering? && c.mode.fsynced && c.active.Some? && Find(c.sealed, c.mode.target) == Some(i)
    requires c.sealed[i].armed && c.sealed[i].uploaded.Some? && !Losing(c, RecoverRemove)
    ensures var t := [RecoverRemove] + ([Unlink(i)] + []);
            Possible(c, t) && (Lossless(c, t) <==> c.sealed[i].uploaded.value == c.mode.want)
  {
    var d := RaceRemoved(c, i);
    ConsStep(d, Unlink(i), []);
    ConsStep(c, RecoverRemove, [Unlink(i)] + []);
  }

  /** The steps of one race: the shipper uploads the target as it stands, recovery
      finishes, the shipper removes what it uploaded. */
  function RaceSteps(s: State, i: nat): seq<Step>
    requires s.mode.Recovering?
  {
    [Put(i)] + ([RecoverWrite(|s.mode.want|)] + ([RecoverSync] + ([RecoverRemove] + ([Unlink(i)] + []))))
  }

  /** Nothing in the code stops the interleaving, and it loses lines iff the shipper
      read the file before its last byte was written. */
  lemma RaceLosesIff(s: State, i: nat)
    requires Inv(s) && s.mode.Recovering? && !s.mode.fsynced && Find(s.sealed, s.mode.target) == Some(i)
    ensures Possible(s, RaceSteps(s, i))
    ensures Lossless(s, RaceSteps(s, i)) <==> s.mode.written == |s.mode.want|
  {
    var a, b, c := RaceToSync(s, i);
    NoneShipped(s, c, i);
    RaceTail(c, i);
    var t := [RecoverRemove] + ([Unlink(i)] + []);
    ConsStep(b, RecoverSync, t);
    ConsStep(a, RecoverWrite(|s.mode.want|), [RecoverSync] + t);
    ConsStep(s, Put(i), [RecoverWrite(|s.mode.want|)] + ([RecoverSync] + t));
    ShortIff(s.mode.want, s.mode.written);
  }

  lemma ShortIff(d: Bytes, n: nat)
    requires n <= |d|
    ensures d[..n] == d <==> n == |d|
  {
  }

  lemma NoneShipped(s: State, c: State, i: nat)
    requires ModeOK(s) && s.mode.Recovering? && Find(s.sealed, s.mode.target) == Some(i)
    requires c.mode.Recovering? && c.mode.shipped == s.mode.shipped
    ensures !Losing(c, RecoverRemove)
  {
  }

  /** When every surviving line had been synced, a run that loses any loses synced
      lines: some line an fsync covered is then nowhere. */
  lemma LossReachesSyncedLines(s: State, trace: seq<Step>)
    requires Inv(s) && Possible(s, trace) && s.lost == multiset{} && !Lossless(s, trace)
    requires End(s, trace).acked == End(s, trace).kept
    ensures !(End(s, trace).acked <= Held(End(s, trace)))
  {
    var s' := End(s, trace);
    RunKeeps(s, trace);
    LinesLostIff(s, trace);
    var e :| e in s'.lost;
    assert (Held(s') + s'.lost)[e] == s'.kept[e];
  }

  // ---- tearing ------------------------------------------------------------

  /** Power lost so that segment i keeps n bytes and every other file all of its. */
  function CutOnly(segs: seq<Segment>, i: nat, n: nat): seq<nat> {
    seq(|segs|, j requires 0 <= j < |segs| => if j == i then n else |segs[j].file.data|)
  }

  lemma CutOnlyFits(s: State, i: nat, n: nat)
    requires SegsOK(s) && i < |s.sealed| && s.sealed[i].file.synced <= n <= |s.sealed[i].file.data|
    ensures CutsFit(s.sealed, CutOnly(s.sealed, i, n))
  {
    forall j | 0 <= j < |s.sealed|
      ensures s.sealed[j].file.synced <= CutOnly(s.sealed, i, n)[j] <= |s.sealed[j].file.data|
    {
      assert SegOK(s.sealed[j], s);
    }
  }

  /** Some crash enabled now would shorten segment i. */
  ghost predicate CanTear(s: State, i: nat)
    requires i < |s.sealed|
  {
    exists cut: nat, cuts: seq<nat> ::
      Enabled(s, Crash(cut, cuts)) && |Do(s, Crash(cut, cuts)).sealed[i].file.data| < |s.sealed[i].file.data|
  }

  /** "A crash can never corrupt a sealed segment": one can tear it, and then at any
      byte past its synced mark, iff the file is not fully synced; and only a file
      some recovery was copying into and never finished is not. */
  lemma CanTearIff(s: State, i: nat)
    requires Inv(s) && i < |s.sealed|
    ensures CanTear(s, i) <==> s.sealed[i].file.synced < |s.sealed[i].file.data|
    ensures CanTear(s, i) ==> s.sealed[i].copy && s.sealed[i].recovered
  {
    assert SegOK(s.sealed[i], s);
    if s.sealed[i].file.synced < |s.sealed[i].file.data| {
      UnsyncedTears(s, i);
    } else {
      forall cut: nat, cuts: seq<nat> | Enabled(s, Crash(cut, cuts))
        ensures |Do(s, Crash(cut, cuts)).sealed[i].file.data| == |s.sealed[i].file.data|
      {
        assert CutsFit(s.sealed, cuts);
      }
    }
  }

  lemma UnsyncedTears(s: State, i: nat)
    requires Shape(s) && i < |s.sealed| && s.sealed[i].file.synced < |s.sealed[i].file.data|
    ensures CanTear(s, i)
  {
    var n := s.sealed[i].file.synced;
    var cut := if s.active.Some? then s.active.value.synced else 0;
    CutOnlyFits(s, i, n);
    var t := Crash(cut, CutOnly(s.sealed, i, n));
    assert Enabled(s, t);
    assert Do(s, t).sealed[i].file == Torn(s.sealed[i].file, n);
  }

  /** Every byte past the mark can be the last one left, and no line goes with it. */
  lemma TearsAnywhere(s: State, i: nat, n: nat)
    requires Inv(s) && i < |s.sealed| && s.sealed[i].file.synced <= n <= |s.sealed[i].file.data|
    ensures var t := Crash(if s.active.Some? then |s.active.value.data| else 0, CutOnly(s.sealed, i, n));
            Enabled(s, t) && Do(s, t).sealed[i].file.data == s.sealed[i].file.data[..n] && Held(Do(s, t)) == Held(s)
  {
    var cut := if s.active.Some? then |s.active.value.data| else 0;
    CutOnlyFits(s, i, n);
    CrashShape(s, cut, CutOnly(s.sealed, i, n));
    if s.active.Some? {
      assert s.active.value.data[..cut] == s.active.value.data;
    }
  }

  /** A segment no recovery is responsible for is whole after every run. */
  lemma SealedSegmentsStayWhole(s: State, trace: seq<Step>, i: nat)
    requires Inv(s) && Possible(s, trace) && i < |End(s, trace).sealed| && !End(s, trace).sealed[i].copy
    ensures !CanTear(End(s, trace), i)
  {
    RunKeeps(s, trace);
    CanTearIff(End(s, trace), i);
  }
}
