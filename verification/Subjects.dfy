/** Which topology node some cluster coordinates belong to
    (internal/subjects/subjects.go). */
module Subjects {

  datatype Coordinates = Coordinates(namespace: string, kind: string, name: string, labels: map<string, string>)

  datatype Rule = Rule(subject: string, coords: Coordinates)

  predicate Pinned(want: string, got: string) {
    want == "" || want == got
  }

  /** Reading a Go map: an absent key reads as the empty string. */
  function LabelOf(labels: map<string, string>, k: string): string {
    if k in labels then labels[k] else ""
  }

  predicate LabelsCover(want: map<string, string>, query: map<string, string>) {
    forall k | k in want :: LabelOf(query, k) == want[k]
  }

  predicate Matches(r: Rule, c: Coordinates) {
    && Pinned(r.coords.namespace, c.namespace)
    && Pinned(r.coords.kind, c.kind)
    && Pinned(r.coords.name, c.name)
    && LabelsCover(r.coords.labels, c.labels)
  }

  function Constraints(r: Rule): nat {
    |r.coords.labels| + (if r.coords.namespace != "" then 1 else 0)
    + (if r.coords.kind != "" then 1 else 0) + if r.coords.name != "" then 1 else 0
  }

  /** labelsCover's loop over the wanted keys. */
  method CoversLabels(want: map<string, string>, query: map<string, string>) returns (r: bool)
    ensures r == LabelsCover(want, query)
  {
    var todo := want.Keys;
    while todo != {}
      invariant todo <= want.Keys
      invariant forall k | k in want && k !in todo :: LabelOf(query, k) == want[k]
      decreases |todo|
    {
      var k :| k in todo;
      if LabelOf(query, k) != want[k] {
        return false;
      }
      todo := todo - {k};
    }
    return true;
  }

  // ---- the rule, stated on its own ----------------------------------------

  /** A matching rule no matching rule out-constrains. */
  predicate MostSpecific(rules: seq<Rule>, c: Coordinates, i: nat)
    requires i < |rules|
  {
    Matches(rules[i], c) && forall j | 0 <= j < |rules| && Matches(rules[j], c) :: Constraints(rules[j]) <= Constraints(rules[i])
  }

  /** Some rule claims the coordinates, and the most specific ones all name `s`. */
  predicate Claims(rules: seq<Rule>, c: Coordinates, s: string) {
    && (exists i | 0 <= i < |rules| :: Matches(rules[i], c))
    && forall i | 0 <= i < |rules| && MostSpecific(rules, c, i) :: rules[i].subject == s
  }

  /** A matching rule of exactly that many constraints. */
  predicate Top(rules: seq<Rule>, c: Coordinates, j: int, specificity: int) {
    0 <= j < |rules| && Matches(rules[j], c) && Constraints(rules[j]) == specificity
  }

  /** The scan's variables: the highest specificity seen so far (-1 for none), the
      subject of the first rule that reached it, and whether another disagreed. */
  datatype Scan = Scan(subject: string, specificity: int, ambiguous: bool)

  /** They describe the first n rules; `at` is the rule the subject came from. */
  predicate Describes(v: Scan, rules: seq<Rule>, c: Coordinates, n: nat, at: nat) {
    && n <= |rules| && v.specificity >= -1
    && (forall j | 0 <= j < n && Matches(rules[j], c) :: Constraints(rules[j]) <= v.specificity)
    && (v.specificity == -1 ==> v.subject == "" && !v.ambiguous)
    && (v.specificity >= 0 ==> at < n && Top(rules, c, at, v.specificity) && rules[at].subject == v.subject)
    && (!v.ambiguous ==> forall j | 0 <= j < n && Top(rules, c, j, v.specificity) :: rules[j].subject == v.subject)
    && (v.ambiguous ==> exists j | 0 <= j < n :: Top(rules, c, j, v.specificity) && rules[j].subject != v.subject)
  }

  function ScanRule(v: Scan, r: Rule, c: Coordinates): Scan {
    if !Matches(r, c) then v
    else if Constraints(r) > v.specificity then Scan(r.subject, Constraints(r), false)
    else if Constraints(r) == v.specificity && r.subject != v.subject then v.(ambiguous := true)
    else v
  }

  lemma ScanHigher(v: Scan, rules: seq<Rule>, c: Coordinates, n: nat, at: nat)
    requires n < |rules| && Describes(v, rules, c, n, at)
    requires Matches(rules[n], c) && Constraints(rules[n]) > v.specificity
    ensures Describes(Scan(rules[n].subject, Constraints(rules[n]), false), rules, c, n + 1, n)
  {
  }

  lemma ScanTied(v: Scan, rules: seq<Rule>, c: Coordinates, n: nat, at: nat)
    requires n < |rules| && Describes(v, rules, c, n, at)
    requires Matches(rules[n], c) && Constraints(rules[n]) == v.specificity && rules[n].subject != v.subject
    ensures Describes(v.(ambiguous := true), rules, c, n + 1, at)
  {
    assert Top(rules, c, n, v.specificity) && rules[n].subject != v.subject;
  }

  lemma ScanSame(v: Scan, rules: seq<Rule>, c: Coordinates, n: nat, at: nat)
    requires n < |rules| && Describes(v, rules, c, n, at)
    requires Matches(rules[n], c) ==>
               Constraints(rules[n]) < v.specificity || (Constraints(rules[n]) == v.specificity && rules[n].subject == v.subject)
    ensures Describes(v, rules, c, n + 1, at)
  {
    if v.ambiguous {
      var j :| 0 <= j < n && Top(rules, c, j, v.specificity) && rules[j].subject != v.subject;
      assert 0 <= j < n + 1;
    }
  }

  lemma ScanStep(v: Scan, rules: seq<Rule>, c: Coordinates, n: nat, at: nat) returns (at': nat)
    requires n < |rules| && Describes(v, rules, c, n, at)
    ensures Describes(ScanRule(v, rules[n], c), rules, c, n + 1, at')
  {
    var r := rules[n];
    at' := at;
    if Matches(r, c) && Constraints(r) > v.specificity {
      ScanHigher(v, rules, c, n, at);
      at' := n;
    } else if Matches(r, c) && Constraints(r) == v.specificity && r.subject != v.subject {
      ScanTied(v, rules, c, n, at);
    } else {
      ScanSame(v, rules, c, n, at);
    }
  }

  /** For: one scan keeping the best so far. */
  method For(rules: seq<Rule>, c: Coordinates) returns (r: string)
    ensures forall s | s != "" :: r == s <==> Claims(rules, c, s)
  {
    var v := Scan("", -1, false);
    ghost var at := 0;
    var i := 0;
    while i < |rules|
      invariant 0 <= i <= |rules| && Describes(v, rules, c, i, at)
    {
      at := ScanStep(v, rules, c, i, at);
      ghost var next := ScanRule(v, rules[i], c);
      var labels := CoversLabels(rules[i].coords.labels, c.labels);
      if labels && Pinned(rules[i].coords.namespace, c.namespace) && Pinned(rules[i].coords.kind, c.kind)
         && Pinned(rules[i].coords.name, c.name) {
        var n := Constraints(rules[i]);
        if n > v.specificity {
          v := Scan(rules[i].subject, n, false);
        } else if n == v.specificity && rules[i].subject != v.subject {
          v := v.(ambiguous := true);
        }
      }
      assert v == next;
      i := i + 1;
    }
    ScanMeans(v, rules, c, at);
    r := if v.ambiguous then "" else v.subject;
  }

  lemma ScanMeans(v: Scan, rules: seq<Rule>, c: Coordinates, at: nat)
    requires Describes(v, rules, c, |rules|, at)
    ensures forall s | s != "" :: (if v.ambiguous then "" else v.subject) == s <==> Claims(rules, c, s)
  {
    if v.specificity >= 0 {
      forall j | 0 <= j < |rules| ensures MostSpecific(rules, c, j) <==> Top(rules, c, j, v.specificity) {
        if MostSpecific(rules, c, j) {
          assert Constraints(rules[at]) <= Constraints(rules[j]);
        }
      }
      assert MostSpecific(rules, c, at);
      if v.ambiguous {
        var j :| 0 <= j < |rules| && Top(rules, c, j, v.specificity) && rules[j].subject != v.subject;
        assert MostSpecific(rules, c, j);
      }
    } else {
      forall j | 0 <= j < |rules| ensures !Matches(rules[j], c) {
      }
    }
  }

  // ---- order and repetition do not matter ---------------------------------

  /** The same rules, whatever their order and however often each is repeated. */
  predicate SameRules(a: seq<Rule>, b: seq<Rule>) {
    (forall i | 0 <= i < |a| :: a[i] in b) && (forall i | 0 <= i < |b| :: b[i] in a)
  }

  lemma ClaimsCarries(a: seq<Rule>, b: seq<Rule>, c: Coordinates, s: string)
    requires SameRules(a, b) && Claims(a, c, s)
    ensures Claims(b, c, s)
  {
    var i :| 0 <= i < |a| && Matches(a[i], c);
    assert a[i] in b;
    var i' :| 0 <= i' < |b| && b[i'] == a[i];
    forall j | 0 <= j < |b| && MostSpecific(b, c, j) ensures b[j].subject == s {
      assert b[j] in a;
      var k :| 0 <= k < |a| && a[k] == b[j];
      forall m | 0 <= m < |a| && Matches(a[m], c) ensures Constraints(a[m]) <= Constraints(a[k]) {
        assert a[m] in b;
        var m' :| 0 <= m' < |b| && b[m'] == a[m];
      }
      assert MostSpecific(a, c, k);
    }
  }

  /** So the answer, being determined by what is claimed, is the same too. */
  lemma ClaimsIgnoreOrder(a: seq<Rule>, b: seq<Rule>, c: Coordinates, s: string)
    requires SameRules(a, b)
    ensures Claims(a, c, s) <==> Claims(b, c, s)
  {
    if Claims(a, c, s) {
      ClaimsCarries(a, b, c, s);
    }
    if Claims(b, c, s) {
      ClaimsCarries(b, a, c, s);
    }
  }

  // ---- matching and specificity, on the coordinates -----------------------

  /** A rule constrains only what it declares: each declared coordinate must be the
      query's, each declared label must be there at that value, and nothing else the
      query carries counts against it. */
  lemma MatchesIff(r: Rule, c: Coordinates)
    ensures Matches(r, c) <==>
            && (r.coords.namespace != "" ==> c.namespace == r.coords.namespace)
            && (r.coords.kind != "" ==> c.kind == r.coords.kind)
            && (r.coords.name != "" ==> c.name == r.coords.name)
            && forall k | k in r.coords.labels ::
                 if k in c.labels then c.labels[k] == r.coords.labels[k] else r.coords.labels[k] == ""
  {
    if Matches(r, c) {
      forall k | k in r.coords.labels
        ensures if k in c.labels then c.labels[k] == r.coords.labels[k] else r.coords.labels[k] == ""
      {
        assert LabelOf(c.labels, k) == r.coords.labels[k];
      }
    }
  }

  predicate Keeps(a: string, b: string) {
    a == "" || a == b
  }

  /** `b` declares everything `a` does, at the same values. */
  predicate Narrows(a: Coordinates, b: Coordinates) {
    && Keeps(a.namespace, b.namespace) && Keeps(a.kind, b.kind) && Keeps(a.name, b.name)
    && forall k | k in a.labels :: k in b.labels && b.labels[k] == a.labels[k]
  }

  lemma MoreLabels(x: map<string, string>, y: map<string, string>)
    requires forall k | k in x :: k in y && y[k] == x[k]
    ensures |x| <= |y| && (|x| == |y| <==> x == y)
  {
    assert x.Keys <= y.Keys;
    assert y.Keys == x.Keys + (y.Keys - x.Keys);
    assert |x| == |x.Keys| && |y| == |y.Keys|;
    if |x| == |y| {
      assert y.Keys - x.Keys == {};
      assert x.Keys == y.Keys;
    }
  }

  /** The narrower of two rules counts for more, strictly unless they declare the same.
      So a rule naming a namespace and a resource beats one naming the namespace alone. */
  lemma NarrowerWins(a: Rule, b: Rule)
    requires Narrows(a.coords, b.coords)
    ensures Constraints(a) <= Constraints(b) && (Constraints(a) == Constraints(b) <==> a.coords == b.coords)
  {
    MoreLabels(a.coords.labels, b.coords.labels);
  }

  /** And it matches only what the wider one matches. */
  lemma NarrowerMatchesLess(a: Rule, b: Rule, c: Coordinates)
    requires Narrows(a.coords, b.coords) && Matches(b, c)
    ensures Matches(a, c)
  {
    forall k | k in a.coords.labels ensures LabelOf(c.labels, k) == a.coords.labels[k] {
      assert k in b.coords.labels;
    }
  }
}
