/** Line framing of a journal file: encodeLine's newline-terminated lines, what
    recoverOrphan keeps of a torn file (internal/publish/wal.go:249-254), and
    how UnsealSegment splits a segment again (internal/objectstore/objectstore.go:141-147). */
module Framing {
  import Seqs

  newtype Byte = x: int | 0 <= x < 256
  type Bytes = seq<Byte>

  const NEWLINE: Byte := 10

  /** A JSON text carries no raw newline (section 7 of RFC 8259) and is never empty. */
  predicate NoNewline(l: Bytes) {
    forall i | 0 <= i < |l| :: l[i] != NEWLINE
  }

  predicate IsLine(l: Bytes) {
    l != [] && NoNewline(l)
  }

  predicate AllLines(ls: seq<Bytes>) {
    forall i | 0 <= i < |ls| :: IsLine(ls[i])
  }

  function EncodeLine(l: Bytes): Bytes {
    l + [NEWLINE]
  }

  function Encode(ls: seq<Bytes>): Bytes {
    if ls == [] then [] else Encode(ls[..|ls| - 1]) + EncodeLine(ls[|ls| - 1])
  }

  /** The unfinished last line: what a torn write leaves after the last newline. */
  function Tail(d: Bytes): (t: Bytes)
    ensures |t| <= |d| && NoNewline(t)
  {
    if d == [] || d[|d| - 1] == NEWLINE then [] else Tail(d[..|d| - 1]) + [d[|d| - 1]]
  }

  /** The whole lines of a file, in order, without their newlines. */
  function Lines(d: Bytes): seq<Bytes> {
    if d == [] then []
    else if d[|d| - 1] == NEWLINE then Lines(d[..|d| - 1]) + [Tail(d[..|d| - 1])]
    else Lines(d[..|d| - 1])
  }

  /** A file that ends where a line ends. */
  predicate Aligned(d: Bytes) {
    d == [] || d[|d| - 1] == NEWLINE
  }

  /** raw[:bytes.LastIndexByte(raw, '\n')+1]: what recovery keeps of a torn file. */
  function Complete(d: Bytes): Bytes {
    d[..|d| - |Tail(d)|]
  }

  lemma Snoc(d: Bytes, x: Byte)
    ensures Lines(d + [x]) == if x == NEWLINE then Lines(d) + [Tail(d)] else Lines(d)
    ensures Tail(d + [x]) == if x == NEWLINE then [] else Tail(d) + [x]
  {
    assert (d + [x])[..|d|] == d;
  }

  /** Lines of an aligned file followed by anything: the two parts' lines. */
  lemma {:induction false} LinesConcat(a: Bytes, b: Bytes)
    requires Aligned(a)
    ensures Lines(a + b) == Lines(a) + Lines(b)
    ensures Tail(a + b) == Tail(b)
  {
    if b == [] {
      assert a + b == a;
    } else {
      var init, x := b[..|b| - 1], b[|b| - 1];
      LinesConcat(a, init);
      Seqs.Unsnoc(b);
      Seqs.Assoc(a, init, [x]);
      Snoc(init, x);
      Snoc(a + init, x);
      Seqs.Assoc(Lines(a), Lines(init), [Tail(init)]);
    }
  }

  lemma {:induction false} TailOnly(l: Bytes)
    requires NoNewline(l)
    ensures Lines(l) == [] && Tail(l) == l
  {
    if l == [] {
    } else {
      TailOnly(l[..|l| - 1]);
    }
  }

  lemma LinesOfOne(l: Bytes)
    requires NoNewline(l)
    ensures Lines(EncodeLine(l)) == [l] && Aligned(EncodeLine(l))
  {
    TailOnly(l);
    Snoc(l, NEWLINE);
  }

  /** Appending one encoded line to an aligned file adds exactly that line. */
  lemma LinesSnoc(d: Bytes, l: Bytes)
    requires Aligned(d) && NoNewline(l)
    ensures Aligned(d + EncodeLine(l))
    ensures Lines(d + EncodeLine(l)) == Lines(d) + [l]
  {
    LinesConcat(d, EncodeLine(l));
    LinesOfOne(l);
  }

  /** Every file is its complete part followed by its torn tail. */
  lemma {:induction false} CompleteAndTail(d: Bytes)
    ensures d == Complete(d) + Tail(d) && Aligned(Complete(d))
    ensures Lines(Complete(d)) == Lines(d)
  {
    if d != [] && d[|d| - 1] != NEWLINE {
      var init, x := d[..|d| - 1], d[|d| - 1];
      CompleteAndTail(init);
      assert d == init + [x];
      Snoc(init, x);
      assert Complete(d) == Complete(init);
    } else {
      assert Complete(d) == d;
    }
  }

  /** Cutting a torn file at its last newline drops only the torn line. */
  lemma CompleteOfTorn(a: Bytes, tail: Bytes)
    requires Aligned(a) && NoNewline(tail)
    ensures Complete(a + tail) == a && Lines(a + tail) == Lines(a)
  {
    LinesConcat(a, tail);
    TailOnly(tail);
  }

  lemma {:induction false} EncodeAligned(ls: seq<Bytes>)
    requires forall i | 0 <= i < |ls| :: NoNewline(ls[i])
    ensures Aligned(Encode(ls)) && Lines(Encode(ls)) == ls
  {
    if ls == [] {
    } else {
      Seqs.Unsnoc(ls);
      EncodeAligned(ls[..|ls| - 1]);
      LinesSnoc(Encode(ls[..|ls| - 1]), ls[|ls| - 1]);
    }
  }

  /** Reading back any concatenation of encoded lines returns those lines in
      order, whatever newline-free tail a torn write left behind. */
  lemma LinesOfEncode(ls: seq<Bytes>, tail: Bytes)
    requires forall i | 0 <= i < |ls| :: NoNewline(ls[i])
    requires NoNewline(tail)
    ensures Lines(Encode(ls) + tail) == ls
    ensures Complete(Encode(ls) + tail) == Encode(ls)
  {
    EncodeAligned(ls);
    CompleteOfTorn(Encode(ls), tail);
  }

  /** An aligned file is the encoding of its own lines: framing loses nothing. */
  lemma {:induction false} EncodeLines(d: Bytes)
    ensures Encode(Lines(d)) + Tail(d) == d
  {
    if d == [] {
    } else {
      var init, x := d[..|d| - 1], d[|d| - 1];
      EncodeLines(init);
      Seqs.Unsnoc(d);
      Snoc(init, x);
      Seqs.Assoc(Encode(Lines(init)), Tail(init), [x]);
      if x == NEWLINE {
        EncodeSnoc(Lines(init), Tail(init));
        assert d + [] == d;
      }
    }
  }

  lemma EncodeSnoc(ls: seq<Bytes>, l: Bytes)
    ensures Encode(ls + [l]) == Encode(ls) + (l + [NEWLINE])
  {
    Seqs.Front(ls, l);
  }

  /** Cutting a file short keeps a prefix of its lines: only the lines after the
      cut, and the one the cut tears, are gone. */
  lemma {:induction false} LinesOfPrefix(d: Bytes, k: nat)
    requires k <= |d|
    ensures Lines(d[..k]) <= Lines(d)
  {
    if k == |d| {
      assert d[..k] == d;
    } else {
      LinesOfPrefix(d[..|d| - 1], k);
      assert d[..|d| - 1][..k] == d[..k];
    }
  }

  // ---- UnsealSegment's splitting loop -------------------------------------

  function NonEmpty(ls: seq<Bytes>): seq<Bytes> {
    if ls == [] then []
    else NonEmpty(ls[..|ls| - 1]) + if ls[|ls| - 1] == [] then [] else [ls[|ls| - 1]]
  }

  lemma NonEmptySnoc(ls: seq<Bytes>, l: Bytes)
    ensures NonEmpty(ls + [l]) == if l == [] then NonEmpty(ls) else NonEmpty(ls) + [l]
  {
    assert (ls + [l])[..|ls|] == ls;
  }

  lemma {:induction false} NonEmptyIdentity(ls: seq<Bytes>)
    requires forall i | 0 <= i < |ls| :: ls[i] != []
    ensures NonEmpty(ls) == ls
  {
    if ls == [] {
    } else {
      NonEmptyIdentity(ls[..|ls| - 1]);
    }
  }

  /** bytes.TrimSuffix. */
  function Trimmed(plain: Bytes): Bytes {
    if |plain| > 0 && plain[|plain| - 1] == NEWLINE then plain[..|plain| - 1] else plain
  }

  /** bytes.SplitSeq with the empty-line filter, as one scan over the trimmed text. */
  method SplitSegment(plain: Bytes) returns (lines: seq<Bytes>)
    ensures lines == NonEmpty(Lines(EncodeLine(Trimmed(plain))))
  {
    var trimmed := Trimmed(plain);
    lines := [];
    var line: Bytes := [];
    var i := 0;
    while i < |trimmed|
      invariant 0 <= i <= |trimmed|
      invariant line == Tail(trimmed[..i])
      invariant lines == NonEmpty(Lines(trimmed[..i]))
    {
      assert trimmed[..i + 1] == trimmed[..i] + [trimmed[i]];
      Snoc(trimmed[..i], trimmed[i]);
      NonEmptySnoc(Lines(trimmed[..i]), line);
      if trimmed[i] == NEWLINE {
        if |line| > 0 {
          lines := lines + [line];
        }
        line := [];
      } else {
        line := line + [trimmed[i]];
      }
      i := i + 1;
    }
    assert trimmed[..i] == trimmed;
    Snoc(trimmed, NEWLINE);
    NonEmptySnoc(Lines(trimmed), line);
    if |line| > 0 {
      lines := lines + [line];
    }
  }

  /** Unsealing a segment written by encodeLine returns its lines, all of them, in order. */
  lemma SplitReturnsTheLines(ls: seq<Bytes>)
    requires AllLines(ls)
    ensures NonEmpty(Lines(EncodeLine(Trimmed(Encode(ls))))) == ls
  {
    EncodeAligned(ls);
    NonEmptyIdentity(ls);
    if ls == [] {
      LinesOfOne([]);
      var none: seq<Bytes> := [];
      NonEmptySnoc(none, []);
      assert none + [[]] == [[]];
    } else {
      assert EncodeLine(Trimmed(Encode(ls))) == Encode(ls);
    }
  }
}
