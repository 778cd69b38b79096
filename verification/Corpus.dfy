/** Mining closed loops into a calibration corpus (internal/clank/corpus.go,
    internal/corpus/mine.go). */
module Corpus {
  import opened Boundary
  import opened CaseBase

  datatype Key = Key(signalRef: string, decisionRef: string)

  function KeyOf(c: Case): Key {
    Key(c.signalRef, c.decisionRef)
  }

  /** An execute-time ack settles nothing. */
  predicate SettledCase(c: Case) {
    c.result != Applied
  }

  // ---- the best case per incident -----------------------------------------

  /** The latest settled case for a key; among equals the first. */
  function BestOf(cases: seq<Case>, k: Key): (r: Option<Case>)
    ensures r.Some? ==> KeyOf(r.value) == k && SettledCase(r.value)
  {
    if cases == [] then None
    else
      var best, c := BestOf(cases[..|cases| - 1], k), cases[|cases| - 1];
      if KeyOf(c) == k && SettledCase(c) && (best.None? || c.observedAt > best.value.observedAt) then Some(c) else best
  }

  lemma BestSnoc(cases: seq<Case>, c: Case, k: Key)
    ensures BestOf(cases + [c], k)
         == if KeyOf(c) == k && SettledCase(c) && (BestOf(cases, k).None? || c.observedAt > BestOf(cases, k).value.observedAt)
            then Some(c) else BestOf(cases, k)
  {
    assert (cases + [c])[..|cases|] == cases;
  }

  /** It is one of the cases, and none settled for the key is later. */
  lemma {:induction false} BestIsLatest(cases: seq<Case>, k: Key, i: nat)
    requires i < |cases| && KeyOf(cases[i]) == k && SettledCase(cases[i])
    ensures BestOf(cases, k).Some? && BestOf(cases, k).value in cases
    ensures cases[i].observedAt <= BestOf(cases, k).value.observedAt
  {
    var init := cases[..|cases| - 1];
    if i < |init| {
      BestIsLatest(init, k, i);
    } else if BestOf(init, k).Some? {
      BestIsMember(init, k);
    }
  }

  lemma {:induction false} BestIsMember(cases: seq<Case>, k: Key)
    requires BestOf(cases, k).Some?
    ensures BestOf(cases, k).value in cases
  {
    if BestOf(cases, k).value == cases[|cases| - 1] {
    } else {
      BestIsMember(cases[..|cases| - 1], k);
    }
  }

  function Later(a: Option<Case>, b: Option<Case>): Option<Case> {
    if a.None? then b
    else if b.Some? && b.value.observedAt > a.value.observedAt then b
    else a
  }

  lemma {:induction false} BestConcat(a: seq<Case>, b: seq<Case>, k: Key)
    ensures BestOf(a + b, k) == Later(BestOf(a, k), BestOf(b, k))
  {
    if b == [] {
      assert a + b == a;
    } else {
      var init, last := b[..|b| - 1], b[|b| - 1];
      BestConcat(a, init, k);
      assert a + b == (a + init) + [last] && b == init + [last];
      BestSnoc(a + init, last, k);
      BestSnoc(init, last, k);
    }
  }

  // ---- collapsing ---------------------------------------------------------

  /** Keys in order of first appearance. */
  function Order(cases: seq<Case>): seq<Key> {
    if cases == [] then []
    else
      var ks, k := Order(cases[..|cases| - 1]), KeyOf(cases[|cases| - 1]);
      if k in ks then ks else ks + [k]
  }

  function Picked(keys: seq<Key>, cases: seq<Case>): seq<Case> {
    if keys == [] then []
    else
      var best := BestOf(cases, keys[|keys| - 1]);
      Picked(keys[..|keys| - 1], cases) + if best.Some? then [best.value] else []
  }

  function Collapsed(cases: seq<Case>): seq<Case> {
    Picked(Order(cases), cases)
  }

  predicate DistinctKeys(keys: seq<Key>) {
    forall i, j | 0 <= i < j < |keys| :: keys[i] != keys[j]
  }

  predicate OnePerKey(cases: seq<Case>) {
    forall i, j | 0 <= i < j < |cases| :: KeyOf(cases[i]) != KeyOf(cases[j])
  }

  predicate AllSettled(cases: seq<Case>) {
    forall i | 0 <= i < |cases| :: SettledCase(cases[i])
  }

  lemma {:induction false} OrderFacts(cases: seq<Case>)
    ensures DistinctKeys(Order(cases))
    ensures forall i | 0 <= i < |cases| :: KeyOf(cases[i]) in Order(cases)
  {
    if cases == [] {
    } else {
      var init, k := cases[..|cases| - 1], KeyOf(cases[|cases| - 1]);
      OrderFacts(init);
      NewKeyDistinct(Order(init), k);
      forall i | 0 <= i < |cases| ensures KeyOf(cases[i]) in Order(cases) {
        if i < |init| {
          assert KeyOf(init[i]) in Order(init);
        }
      }
    }
  }

  lemma NewKeyDistinct(keys: seq<Key>, k: Key)
    requires DistinctKeys(keys)
    ensures k !in keys ==> DistinctKeys(keys + [k])
  {
  }

  /** Each pick answers to its own key. */
  lemma {:induction false} PickedKeys(keys: seq<Key>, cases: seq<Case>)
    requires DistinctKeys(keys)
    ensures var p := Picked(keys, cases);
            OnePerKey(p) && AllSettled(p)
            && forall i | 0 <= i < |p| :: KeyOf(p[i]) in keys && BestOf(cases, KeyOf(p[i])) == Some(p[i])
  {
    if keys == [] {
    } else {
      var init, last := keys[..|keys| - 1], keys[|keys| - 1];
      PickedKeys(init, cases);
      assert last !in init;
    }
  }

  lemma {:induction false} PickedBest(keys: seq<Key>, cases: seq<Case>, k: Key)
    requires DistinctKeys(keys)
    ensures BestOf(Picked(keys, cases), k) == if k in keys then BestOf(cases, k) else None
  {
    if keys == [] {
    } else {
      var init, last := keys[..|keys| - 1], keys[|keys| - 1];
      PickedBest(init, cases, k);
      var best := BestOf(cases, last);
      if best.Some? {
        BestSnoc(Picked(init, cases), best.value, k);
      } else {
        assert Picked(init, cases) + [] == Picked(init, cases);
      }
    }
  }

  lemma {:induction false} UnseenKeyHasNoBest(cases: seq<Case>, k: Key)
    requires k !in Order(cases)
    ensures BestOf(cases, k).None?
  {
    if cases == [] {
    } else {
      UnseenKeyHasNoBest(cases[..|cases| - 1], k);
    }
  }

  /** Collapsing keeps exactly one case per key, always a settled one, and loses no
      key's latest settled case. */
  lemma CollapsedKeepsBest(cases: seq<Case>, k: Key)
    ensures OnePerKey(Collapsed(cases)) && AllSettled(Collapsed(cases))
    ensures BestOf(Collapsed(cases), k) == BestOf(cases, k)
  {
    OrderFacts(cases);
    PickedKeys(Order(cases), cases);
    PickedBest(Order(cases), cases, k);
    if k !in Order(cases) {
      UnseenKeyHasNoBest(cases, k);
    }
  }

  lemma {:induction false} BestOfUnique(cases: seq<Case>, i: nat)
    requires OnePerKey(cases) && AllSettled(cases) && i < |cases|
    ensures BestOf(cases, KeyOf(cases[i])) == Some(cases[i])
  {
    var init := cases[..|cases| - 1];
    if i < |init| {
      BestOfUnique(init, i);
    } else {
      NoneForKey(init, KeyOf(cases[i]));
    }
  }

  lemma {:induction false} NoneForKey(cases: seq<Case>, k: Key)
    requires forall i | 0 <= i < |cases| :: KeyOf(cases[i]) != k
    ensures BestOf(cases, k).None?
  {
    if cases == [] {
    } else {
      NoneForKey(cases[..|cases| - 1], k);
    }
  }

  /** The best case per key, read off a collapsed list in any order. */
  lemma BestUnderPermutation(a: seq<Case>, b: seq<Case>, k: Key)
    requires OnePerKey(a) && AllSettled(a) && multiset(a) == multiset(b)
    ensures OnePerKey(b) && AllSettled(b) && BestOf(a, k) == BestOf(b, k)
  {
    PermutedUnique(a, b);
    if i :| 0 <= i < |a| && KeyOf(a[i]) == k {
      BestOfUnique(a, i);
      assert a[i] in multiset(b);
      var j :| 0 <= j < |b| && b[j] == a[i];
      BestOfUnique(b, j);
    } else {
      NoneForKey(a, k);
      forall j | 0 <= j < |b| ensures KeyOf(b[j]) != k {
        assert b[j] in multiset(a);
      }
      NoneForKey(b, k);
    }
  }

  lemma {:induction false} CountAtLeastTwo(b: seq<Case>, i: nat, j: nat)
    requires i < j < |b| && b[i] == b[j]
    ensures multiset(b)[b[i]] >= 2
  {
    assert b == b[..j] + [b[j]] + b[j + 1..];
    assert b[..j][i] == b[i];
    assert b[i] in multiset(b[..j]);
  }

  lemma {:induction false} UniqueCountOne(a: seq<Case>, c: Case)
    requires OnePerKey(a)
    ensures multiset(a)[c] <= 1
  {
    if a == [] {
    } else {
      var init, last := a[..|a| - 1], a[|a| - 1];
      UniqueCountOne(init, c);
      assert a == init + [last];
      forall i | 0 <= i < |init| ensures init[i] != last {
        assert KeyOf(a[i]) != KeyOf(a[|a| - 1]);
      }
    }
  }

  lemma PermutedUnique(a: seq<Case>, b: seq<Case>)
    requires OnePerKey(a) && AllSettled(a) && multiset(a) == multiset(b)
    ensures OnePerKey(b) && AllSettled(b)
  {
    forall j | 0 <= j < |b| ensures b[j] in a {
      assert b[j] in multiset(b);
      assert b[j] in multiset(a);
    }
    forall i, j | 0 <= i < j < |b| ensures KeyOf(b[i]) != KeyOf(b[j]) {
      if KeyOf(b[i]) == KeyOf(b[j]) {
        SameCase(a, b[i], b[j]);
        CountAtLeastTwo(b, i, j);
        UniqueCountOne(a, b[i]);
      }
    }
  }

  lemma SameCase(a: seq<Case>, c: Case, d: Case)
    requires OnePerKey(a) && c in a && d in a && KeyOf(c) == KeyOf(d)
    ensures c == d
  {
    var i :| 0 <= i < |a| && a[i] == c;
    var j :| 0 <= j < |a| && a[j] == d;
    assert i == j;
  }

  // ---- the collapse as a loop ---------------------------------------------

  method CollapseCases(cases: seq<Case>) returns (out: seq<Case>)
    ensures out == Collapsed(cases)
  {
    var order: seq<Key> := [];
    var best: map<Key, Case> := map[];
    var i := 0;
    while i < |cases|
      invariant 0 <= i <= |cases|
      invariant order == Order(cases[..i])
      invariant forall k :: BestOf(cases[..i], k) == if k in best then Some(best[k]) else None
    {
      var c := cases[i];
      assert cases[..i + 1] == cases[..i] + [c];
      forall k ensures BestOf(cases[..i + 1], k) == if KeyOf(c) == k && SettledCase(c)
                          && (BestOf(cases[..i], k).None? || c.observedAt > BestOf(cases[..i], k).value.observedAt)
                          then Some(c) else BestOf(cases[..i], k)
      {
        BestSnoc(cases[..i], c, k);
      }
      assert cases[..i + 1][..|cases[..i + 1]| - 1] == cases[..i];
      if KeyOf(c) !in order {
        order := order + [KeyOf(c)];
      }
      if c.result != Applied && (KeyOf(c) !in best || c.observedAt > best[KeyOf(c)].observedAt) {
        best := best[KeyOf(c) := c];
      }
      i := i + 1;
    }
    assert cases[..i] == cases;
    out := [];
    var j := 0;
    while j < |order|
      invariant 0 <= j <= |order|
      invariant out == Picked(order[..j], cases)
    {
      assert order[..j + 1][..|order[..j + 1]| - 1] == order[..j];
      assert BestOf(cases, order[j]) == if order[j] in best then Some(best[order[j]]) else None;
      if order[j] in best {
        out := out + [best[order[j]]];
      }
      j := j + 1;
    }
    assert order[..j] == order;
  }

  /** Collapsing what is collapsed changes nothing. */
  lemma {:induction false} OrderOfUnique(cases: seq<Case>)
    requires OnePerKey(cases)
    ensures |Order(cases)| == |cases| && forall i | 0 <= i < |cases| :: Order(cases)[i] == KeyOf(cases[i])
  {
    if cases == [] {
    } else {
      var init := cases[..|cases| - 1];
      OrderOfUnique(init);
      var k := KeyOf(cases[|cases| - 1]);
      forall i | 0 <= i < |init| ensures Order(init)[i] != k {
        assert KeyOf(cases[i]) != k;
      }
    }
  }

  lemma {:induction false} PickedAll(keys: seq<Key>, cases: seq<Case>, n: nat)
    requires n <= |cases| == |keys| && forall i | 0 <= i < |cases| :: BestOf(cases, keys[i]) == Some(cases[i])
    ensures Picked(keys[..n], cases) == cases[..n]
  {
    if n == 0 {
    } else {
      PickedAll(keys, cases, n - 1);
      assert keys[..n][..n - 1] == keys[..n - 1];
      assert cases[..n] == cases[..n - 1] + [cases[n - 1]];
    }
  }

  lemma CollapsedIdempotent(cases: seq<Case>)
    ensures Collapsed(Collapsed(cases)) == Collapsed(cases)
  {
    var c := Collapsed(cases);
    CollapsedKeepsBest(cases, Key("", ""));
    OrderOfUnique(c);
    forall i | 0 <= i < |c| ensures BestOf(c, Order(c)[i]) == Some(c[i]) {
      BestOfUnique(c, i);
    }
    PickedAll(Order(c), c, |c|);
    assert Order(c)[..|c|] == Order(c) && c[..|c|] == c;
  }

  // ---- merging ------------------------------------------------------------

  function Refs(cases: seq<Case>): set<string> {
    set i | 0 <= i < |cases| :: cases[i].outcomeRef
  }

  /** The first case of every OutcomeRef. */
  function Deduped(cases: seq<Case>): seq<Case> {
    if cases == [] then []
    else
      var init, last := cases[..|cases| - 1], cases[|cases| - 1];
      if last.outcomeRef in Refs(init) then Deduped(init) else Deduped(init) + [last]
  }

  /** An OutcomeRef determines its case. */
  predicate Determined(cases: seq<Case>) {
    forall i, j | 0 <= i < |cases| && 0 <= j < |cases| && cases[i].outcomeRef == cases[j].outcomeRef :: cases[i] == cases[j]
  }

  lemma {:induction false} BestOfDeduped(cases: seq<Case>, k: Key)
    requires Determined(cases)
    ensures BestOf(Deduped(cases), k) == BestOf(cases, k)
  {
    if cases == [] {
    } else {
      var init, last := cases[..|cases| - 1], cases[|cases| - 1];
      forall i | 0 <= i < |init| ensures init[i] == cases[i] {}
      BestOfDeduped(init, k);
      if last.outcomeRef in Refs(init) {
        var i :| 0 <= i < |init| && init[i].outcomeRef == last.outcomeRef;
        assert cases[i] == cases[|cases| - 1];
        if KeyOf(last) == k && SettledCase(last) {
          BestIsLatest(init, k, i);
        }
      } else {
        BestSnoc(Deduped(init), last, k);
      }
    }
  }

  lemma {:induction false} DedupedMembers(cases: seq<Case>)
    ensures forall i | 0 <= i < |Deduped(cases)| :: Deduped(cases)[i] in cases
  {
    if cases == [] {
    } else {
      DedupedMembers(cases[..|cases| - 1]);
    }
  }

  predicate ByTime(cases: seq<Case>) {
    forall i, j | 0 <= i < j < |cases| :: cases[i].observedAt <= cases[j].observedAt
  }

  /** What mergeCorpus may return: the union on OutcomeRef, collapsed, in some order
      by time (the sort is not stable, so the order among equals is open). */
  predicate IsMerge(r: seq<Case>, existing: seq<Case>, mined: seq<Case>) {
    ByTime(r) && multiset(r) == multiset(Collapsed(Deduped(existing + mined)))
  }

  function InsertByTime(xs: seq<Case>, c: Case): seq<Case> {
    if xs == [] || xs[|xs| - 1].observedAt <= c.observedAt then xs + [c]
    else InsertByTime(xs[..|xs| - 1], c) + [xs[|xs| - 1]]
  }

  lemma {:induction false} InsertByTimeBag(xs: seq<Case>, c: Case)
    ensures multiset(InsertByTime(xs, c)) == multiset(xs) + multiset{c}
  {
    if xs == [] || xs[|xs| - 1].observedAt <= c.observedAt {
    } else {
      InsertByTimeBag(xs[..|xs| - 1], c);
      assert xs == xs[..|xs| - 1] + [xs[|xs| - 1]];
    }
  }

  lemma {:induction false} InsertByTimeOrdered(xs: seq<Case>, c: Case, bound: int)
    requires ByTime(xs) && c.observedAt <= bound && forall i | 0 <= i < |xs| :: xs[i].observedAt <= bound
    ensures ByTime(InsertByTime(xs, c))
    ensures forall i | 0 <= i < |InsertByTime(xs, c)| :: InsertByTime(xs, c)[i].observedAt <= bound
  {
    if xs == [] || xs[|xs| - 1].observedAt <= c.observedAt {
    } else {
      InsertByTimeOrdered(xs[..|xs| - 1], c, xs[|xs| - 1].observedAt);
    }
  }

  function Bound(xs: seq<Case>, c: Case): (m: int)
    ensures c.observedAt <= m && forall i | 0 <= i < |xs| :: xs[i].observedAt <= m
  {
    if xs == [] then c.observedAt
    else
      var m, t := Bound(xs[..|xs| - 1], c), xs[|xs| - 1].observedAt;
      if m < t then t else m
  }

  method SortByTime(cases: seq<Case>) returns (r: seq<Case>)
    ensures ByTime(r) && multiset(r) == multiset(cases)
  {
    r := [];
    var i := 0;
    while i < |cases|
      invariant 0 <= i <= |cases|
      invariant ByTime(r) && multiset(r) == multiset(cases[..i])
    {
      InsertByTimeBag(r, cases[i]);
      InsertByTimeOrdered(r, cases[i], Bound(r, cases[i]));
      assert cases[..i + 1] == cases[..i] + [cases[i]];
      r := InsertByTime(r, cases[i]);
      i := i + 1;
    }
    assert cases[..i] == cases;
  }

  method MergeCorpus(existing: seq<Case>, mined: seq<Case>) returns (r: seq<Case>)
    ensures IsMerge(r, existing, mined)
  {
    var all := existing + mined;
    var seen: set<string> := {};
    var cases: seq<Case> := [];
    var i := 0;
    while i < |all|
      invariant 0 <= i <= |all|
      invariant seen == Refs(all[..i]) && cases == Deduped(all[..i])
    {
      assert all[..i + 1][..|all[..i + 1]| - 1] == all[..i];
      RefsSnoc(all, i);
      if all[i].outcomeRef !in seen {
        cases := cases + [all[i]];
      }
      seen := seen + {all[i].outcomeRef};
      i := i + 1;
    }
    assert all[..i] == all;
    var collapsed := CollapseCases(cases);
    r := SortByTime(collapsed);
  }

  lemma RefsSnoc(all: seq<Case>, i: nat)
    requires i < |all|
    ensures Refs(all[..i + 1]) == Refs(all[..i]) + {all[i].outcomeRef}
  {
    forall x | x in Refs(all[..i]) ensures x in Refs(all[..i + 1]) {
      var j :| 0 <= j < i && all[..i][j].outcomeRef == x;
      assert all[..i + 1][j] == all[..i][j];
    }
    assert all[..i + 1][i] == all[i];
    forall x | x in Refs(all[..i + 1]) ensures x in Refs(all[..i]) + {all[i].outcomeRef} {
      var j :| 0 <= j < i + 1 && all[..i + 1][j].outcomeRef == x;
      assert j < i ==> all[..i][j] == all[..i + 1][j];
    }
  }

  // ---- incremental equals batch -------------------------------------------

  function Concat(chunks: seq<seq<Case>>): seq<Case> {
    if chunks == [] then [] else Concat(chunks[..|chunks| - 1]) + chunks[|chunks| - 1]
  }

  /** `accs[i + 1]` is what merging chunk i into `accs[i]` may give. */
  predicate IsFold(accs: seq<seq<Case>>, chunks: seq<seq<Case>>) {
    |accs| == |chunks| + 1 && accs[0] == [] && forall i | 0 <= i < |chunks| :: IsMerge(accs[i + 1], accs[i], chunks[i])
  }

  lemma MergeMembers(r: seq<Case>, existing: seq<Case>, mined: seq<Case>, c: Case)
    requires IsMerge(r, existing, mined) && c in r
    ensures c in existing || c in mined
  {
    var d := Deduped(existing + mined);
    assert c in multiset(r);
    assert c in multiset(Collapsed(d));
    OrderFacts(d);
    PickedKeys(Order(d), d);
    var i :| 0 <= i < |Collapsed(d)| && Collapsed(d)[i] == c;
    BestIsMember(d, KeyOf(c));
    DedupedMembers(existing + mined);
  }

  lemma MergeBest(r: seq<Case>, existing: seq<Case>, mined: seq<Case>, k: Key)
    requires IsMerge(r, existing, mined) && Determined(existing + mined)
    ensures BestOf(r, k) == BestOf(existing + mined, k) && OnePerKey(r) && AllSettled(r)
  {
    var d := Deduped(existing + mined);
    BestOfDeduped(existing + mined, k);
    CollapsedKeepsBest(d, k);
    BestUnderPermutation(Collapsed(d), r, k);
  }

  predicate SubOf(a: seq<Case>, b: seq<Case>) {
    forall i | 0 <= i < |a| :: a[i] in b
  }

  lemma DeterminedSub(a: seq<Case>, b: seq<Case>)
    requires Determined(b) && SubOf(a, b)
    ensures Determined(a)
  {
    forall i, j | 0 <= i < |a| && 0 <= j < |a| && a[i].outcomeRef == a[j].outcomeRef ensures a[i] == a[j] {
      var x :| 0 <= x < |b| && b[x] == a[i];
      var y :| 0 <= y < |b| && b[y] == a[j];
      assert b[x] == b[y];
    }
  }

  lemma SubOfConcat(a: seq<Case>, b: seq<Case>, whole: seq<Case>)
    requires SubOf(a, whole)
    ensures SubOf(a + b, whole + b) && SubOf(whole, whole + b)
  {
    forall i | 0 <= i < |a + b| ensures (a + b)[i] in whole + b {
      if i < |a| {
        assert a[i] in whole;
        var j :| 0 <= j < |whole| && whole[j] == a[i];
        assert (whole + b)[j] == a[i];
      } else {
        assert (whole + b)[|whole| + i - |a|] == b[i - |a|];
      }
    }
    forall i | 0 <= i < |whole| ensures whole[i] in whole + b {
      assert (whole + b)[i] == whole[i];
    }
  }

  lemma MergeSub(r: seq<Case>, existing: seq<Case>, mined: seq<Case>, whole: seq<Case>)
    requires IsMerge(r, existing, mined) && SubOf(existing, whole)
    ensures SubOf(r, whole + mined)
  {
    forall i | 0 <= i < |r| ensures r[i] in whole + mined {
      MergeMembers(r, existing, mined, r[i]);
      if r[i] in existing {
        var j :| 0 <= j < |existing| && existing[j] == r[i];
        assert existing[j] in whole;
      }
    }
  }

  lemma FoldPrefix(accs: seq<seq<Case>>, chunks: seq<seq<Case>>)
    requires IsFold(accs, chunks) && chunks != []
    ensures IsFold(accs[..|chunks|], chunks[..|chunks| - 1])
    ensures IsMerge(accs[|chunks|], accs[|chunks| - 1], chunks[|chunks| - 1])
    ensures Concat(chunks) == Concat(chunks[..|chunks| - 1]) + chunks[|chunks| - 1]
  {
  }

  lemma {:induction false} FoldMembers(accs: seq<seq<Case>>, chunks: seq<seq<Case>>)
    requires IsFold(accs, chunks)
    ensures SubOf(accs[|chunks|], Concat(chunks))
  {
    if chunks == [] {
    } else {
      var n := |chunks| - 1;
      FoldPrefix(accs, chunks);
      FoldMembers(accs[..n + 1], chunks[..n]);
      MergeSub(accs[n + 1], accs[n], chunks[n], Concat(chunks[..n]));
    }
  }

  lemma {:induction false} FoldBest(accs: seq<seq<Case>>, chunks: seq<seq<Case>>, k: Key)
    requires IsFold(accs, chunks) && Determined(Concat(chunks))
    ensures BestOf(accs[|chunks|], k) == BestOf(Concat(chunks), k)
    ensures OnePerKey(accs[|chunks|]) && AllSettled(accs[|chunks|])
  {
    if chunks == [] {
    } else {
      var n := |chunks| - 1;
      var before, chunk, acc := Concat(chunks[..n]), chunks[n], accs[n];
      FoldPrefix(accs, chunks);
      FoldMembers(accs[..n + 1], chunks[..n]);
      SubOfConcat(acc, chunk, before);
      DeterminedSub(before, before + chunk);
      DeterminedSub(acc + chunk, before + chunk);
      FoldBest(accs[..n + 1], chunks[..n], k);
      MergeBest(accs[n + 1], acc, chunk, k);
      BestConcat(acc, chunk, k);
      BestConcat(before, chunk, k);
    }
  }

  /** Mining in any number of instalments, however the cases are split, yields the
      same case for every incident as collapsing all of them at once. */
  lemma IncrementalIsBatch(accs: seq<seq<Case>>, chunks: seq<seq<Case>>, k: Key)
    requires IsFold(accs, chunks) && Determined(Concat(chunks))
    ensures BestOf(accs[|chunks|], k) == BestOf(Collapsed(Concat(chunks)), k)
    ensures multiset(accs[|chunks|]) == multiset(Collapsed(Concat(chunks)))
  {
    var all, last := Concat(chunks), accs[|chunks|];
    FoldBest(accs, chunks, k);
    CollapsedKeepsBest(all, k);
    forall k' ensures BestOf(last, k') == BestOf(Collapsed(all), k') {
      FoldBest(accs, chunks, k');
      CollapsedKeepsBest(all, k');
    }
    SameBestSameBag(last, Collapsed(all));
  }

  lemma SameBestSameBag(a: seq<Case>, b: seq<Case>)
    requires OnePerKey(a) && AllSettled(a) && OnePerKey(b) && AllSettled(b)
    requires forall k :: BestOf(a, k) == BestOf(b, k)
    ensures multiset(a) == multiset(b)
  {
    forall c ensures multiset(a)[c] == multiset(b)[c] {
      UniqueCountOne(a, c);
      UniqueCountOne(b, c);
      InByBest(a, c);
      InByBest(b, c);
      assert c in a <==> c in multiset(a);
      assert c in b <==> c in multiset(b);
    }
  }

  lemma InByBest(a: seq<Case>, c: Case)
    requires OnePerKey(a) && AllSettled(a)
    ensures c in a <==> BestOf(a, KeyOf(c)) == Some(c)
  {
    if c in a {
      var i :| 0 <= i < |a| && a[i] == c;
      BestOfUnique(a, i);
    }
    if BestOf(a, KeyOf(c)) == Some(c) {
      BestIsMember(a, KeyOf(c));
    }
  }

  /** Without that assumption merging can keep the wrong case: of two settled cases
      under one OutcomeRef the batch keeps the later, the merge the first seen. */
  lemma SharedRefKeepsTheFirst(a: Case, b: Case)
    requires KeyOf(a) == KeyOf(b) && a.outcomeRef == b.outcomeRef && SettledCase(a) && SettledCase(b)
    requires a.observedAt < b.observedAt
    ensures BestOf([a] + [b], KeyOf(a)) == Some(b) && BestOf(Deduped([a] + [b]), KeyOf(a)) == Some(a)
  {
    JustOne(a);
    BestSnoc([a], b, KeyOf(a));
    DedupedSnoc([a], b);
  }

  lemma JustOne(a: Case)
    requires SettledCase(a)
    ensures BestOf([a], KeyOf(a)) == Some(a) && Deduped([a]) == [a] && a.outcomeRef in Refs([a])
  {
    var none: seq<Case> := [];
    assert none + [a] == [a];
    BestSnoc(none, a, KeyOf(a));
    DedupedSnoc(none, a);
    assert [a][0].outcomeRef in Refs([a]);
  }

  lemma DedupedSnoc(cases: seq<Case>, c: Case)
    ensures Deduped(cases + [c]) == if c.outcomeRef in Refs(cases) then Deduped(cases) else Deduped(cases) + [c]
  {
    assert (cases + [c])[..|cases|] == cases;
  }
}
