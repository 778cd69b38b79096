/** Segment file names (internal/publish/wal.go:342-385): what segmentName prints,
    what parseSegmentName accepts, and how the names sort. */
module Segments {
  import opened Boundary
  import opened Decimal

  const EXT: string := ".jsonl"
  const ACTIVE_NAME: string := "active.jsonl"
  const WIDTH: nat := 20

  /** A sealed segment's identity: its base offset and the instant it was sealed. */
  datatype Key = Key(offset: nat, nanos: int)

  function SegmentName(k: Key): string {
    Pad(Digits(k.offset), WIDTH) + ("-" + (Format(k.nanos) + EXT))
  }

  /** strings.Cut at the first '-'. */
  function CutDash(s: string): Option<(string, string)> {
    if s == [] then None
    else if s[0] == '-' then Some(("", s[1..]))
    else match CutDash(s[1..])
      case None => None
      case Some((head, tail)) => Some(([s[0]] + head, tail))
  }

  function CutSuffix(s: string, suffix: string): Option<string> {
    if |suffix| <= |s| && s[|s| - |suffix|..] == suffix then Some(s[..|s| - |suffix|]) else None
  }

  function ParseSegmentName(name: string): Option<(int, int)> {
    match CutSuffix(name, EXT)
    case None => None
    case Some(trimmed) =>
      match CutDash(trimmed)
      case None => None
      case Some((offsetPart, nanosPart)) =>
        match ParseInt(offsetPart)
        case None => None
        case Some(offset) =>
          match ParseInt(nanosPart)
          case None => None
          case Some(nanos) => Some((offset, nanos))
  }

  lemma {:induction false} CutDashAt(head: string, tail: string)
    requires forall i | 0 <= i < |head| :: head[i] != '-'
    ensures CutDash(head + ("-" + tail)) == Some((head, tail))
  {
    var s := head + ("-" + tail);
    if head == [] {
      assert s == "-" + tail;
      assert s[1..] == tail;
    } else {
      CutDashAt(head[1..], tail);
      assert s[1..] == head[1..] + ("-" + tail);
      assert head == [head[0]] + head[1..];
    }
  }

  lemma {:induction false} NoDashNoCut(s: string)
    requires forall i | 0 <= i < |s| :: s[i] != '-'
    ensures CutDash(s).None?
  {
    if s == [] {
    } else {
      NoDashNoCut(s[1..]);
    }
  }

  predicate InRange(k: Key) {
    k.offset <= MAX_INT64 && MIN_INT64 <= k.nanos <= MAX_INT64
  }

  /** parseSegmentName inverts segmentName on every nonnegative int64 offset. */
  lemma NameRoundTrip(k: Key)
    requires InRange(k)
    ensures ParseSegmentName(SegmentName(k)) == Some((k.offset as int, k.nanos))
  {
    var head, nanos := Pad(Digits(k.offset), WIDTH), Format(k.nanos);
    var name := SegmentName(k);
    var trimmed := head + ("-" + nanos);
    assert name == trimmed + EXT;
    assert name[|name| - |EXT|..] == EXT && name[..|name| - |EXT|] == trimmed;
    forall i | 0 <= i < |head| ensures head[i] != '-' {
      assert IsDigit(head[i]);
    }
    CutDashAt(head, nanos);
    ParsePad(k.offset, WIDTH);
    ParseFormat(k.nanos);
  }

  /** The open segment's own name is never taken for a sealed one. */
  lemma ActiveNameIsNotSealed()
    ensures ParseSegmentName(ACTIVE_NAME).None?
  {
    assert ACTIVE_NAME[6..] == EXT && ACTIVE_NAME[..6] == "active";
    NoDashNoCut("active");
  }

  lemma NameInjective(a: Key, b: Key)
    requires InRange(a) && InRange(b) && SegmentName(a) == SegmentName(b)
    ensures a == b
  {
    NameRoundTrip(a);
    NameRoundTrip(b);
  }

  lemma {:induction false} DigitsWidth(n: nat)
    ensures n < Pow10(|Digits(n)|) && (n > 0 ==> Pow10(|Digits(n)| - 1) <= n)
  {
    if n >= 10 {
      DigitsWidth(n / 10);
    } else {
      assert Pow10(1) == 10 * Pow10(0);
    }
  }

  lemma {:induction false} Pow10Monotone(a: nat, b: nat)
    requires a <= b
    ensures Pow10(a) <= Pow10(b)
  {
    if a == b {
    } else {
      Pow10Monotone(a, b - 1);
    }
  }

  lemma Pow10Twenty()
    ensures Pow10(WIDTH) > MAX_INT64
  {
    assert Pow10(5) == 100_000 by {
      assert Pow10(3) == 1000;
    }
    assert Pow10(10) == 100_000 * Pow10(5) by {
      assert Pow10(8) == 1000 * Pow10(5);
    }
    assert Pow10(15) == 100_000 * Pow10(10) by {
      assert Pow10(13) == 1000 * Pow10(10);
    }
    assert Pow10(20) == 100_000 * Pow10(15) by {
      assert Pow10(18) == 1000 * Pow10(15);
    }
  }

  lemma OffsetFits(n: nat)
    requires n <= MAX_INT64
    ensures |Digits(n)| <= WIDTH
  {
    DigitsWidth(n);
    Pow10Twenty();
    var w := |Digits(n)| - 1;
    if WIDTH <= w {
      Pow10Monotone(WIDTH, w);
    }
  }

  /** Whether `b` sorts after `a` in a directory listing. */
  predicate Before(a: Key, b: Key) {
    Lt(SegmentName(a), SegmentName(b))
  }

  /** Zero-padded names sort by offset. */
  lemma NamesSortByOffset(a: Key, b: Key)
    requires InRange(a) && InRange(b) && a.offset < b.offset
    ensures Before(a, b) && !Before(b, a)
  {
    var p, q := Pad(Digits(a.offset), WIDTH), Pad(Digits(b.offset), WIDTH);
    OffsetFits(a.offset);
    OffsetFits(b.offset);
    ValuePad(a.offset, WIDTH);
    ValuePad(b.offset, WIDTH);
    LtIsNumeric(p, q);
    LtIsNumeric(q, p);
    LtHead(p, q, "-" + (Format(a.nanos) + EXT), "-" + (Format(b.nanos) + EXT));
    LtHead(q, p, "-" + (Format(b.nanos) + EXT), "-" + (Format(a.nanos) + EXT));
  }

  /** Names with one offset sort by seal time, as long as the two instants have
      the same number of digits (every instant from 2001 to 2286 does). */
  lemma NamesSortByTime(a: Key, b: Key)
    requires a.offset == b.offset && 0 <= a.nanos && 0 <= b.nanos
    requires |Digits(a.nanos)| == |Digits(b.nanos)|
    ensures Before(a, b) <==> a.nanos < b.nanos
  {
    var p := Pad(Digits(a.offset), WIDTH);
    var x, y := Digits(a.nanos), Digits(b.nanos);
    LtHead(p, p, "-" + (x + EXT), "-" + (y + EXT));
    LtHead("-", "-", x + EXT, y + EXT);
    LtHead(x, y, EXT, EXT);
    ValueDigits(a.nanos);
    ValueDigits(b.nanos);
    LtIsNumeric(x, y);
    LtIrreflexive(EXT);
  }
}
