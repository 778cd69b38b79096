/** The runner that turns a contract ref into cluster mutations
    (internal/actuate/runner.go, internal/actuate/binding.go). */
module Actuate {
  import opened Boundary
  import opened Catalog

  datatype Operation =
    | Mutation(step: Step)            // exec, scale, restart, flagVariant
    | Release(step: Step)             // maintenanceRelease: an artifact for review
    | Sequence(ops: seq<Operation>)

  datatype Binding = Binding(forward: Operation, reverse: Operation)

  // ---- binding ------------------------------------------------------------

  /** mechanismFor: the closed verb set, with every required target checked. */
  function MechanismFor(s: Step, forgeWired: bool): Option<Operation> {
    if s.verb == "exec" then
      if s.namespace == "" || s.selector == "" || s.command == [] then None else Some(Mutation(s))
    else if s.verb == "scale" then
      if s.namespace == "" || s.deployment == "" || s.replicas.None? then None else Some(Mutation(s))
    else if s.verb == "restart" then
      if s.namespace == "" || s.deployment == "" then None else Some(Mutation(s))
    else if s.verb == "flagVariant" then
      if s.namespace == "" || s.configMap == "" || s.dataKey == "" || s.flag == "" || s.variant == "" then None
      else Some(Mutation(s))
    else if s.verb == "maintenanceRelease" then
      if !forgeWired || s.path == "" || s.flag == "" || s.variant == "" then None else Some(Release(s))
    else None
  }

  /** The mechanism of every step, or None when one of them names none. */
  function AllMechanisms(steps: seq<Step>, forgeWired: bool): (r: Option<seq<Operation>>)
    ensures r.Some? ==> |r.value| == |steps|
  {
    if steps == [] then Some([])
    else
      var init := AllMechanisms(steps[..|steps| - 1], forgeWired);
      var last := MechanismFor(steps[|steps| - 1], forgeWired);
      if init.Some? && last.Some? then Some(init.value + [last.value]) else None
  }

  function Collapsed(steps: seq<Step>, forgeWired: bool): Option<Operation> {
    var all := AllMechanisms(steps, forgeWired);
    if all.None? || steps == [] then None
    else if |steps| == 1 then Some(all.value[0])
    else Some(Sequence(all.value))
  }

  lemma {:induction false} FailedPrefixFails(steps: seq<Step>, forgeWired: bool, i: nat)
    requires i < |steps| && MechanismFor(steps[i], forgeWired).None?
    ensures AllMechanisms(steps, forgeWired).None?
  {
    if i == |steps| - 1 {
    } else {
      FailedPrefixFails(steps[..|steps| - 1], forgeWired, i);
    }
  }

  lemma SingleMechanism(steps: seq<Step>, forgeWired: bool)
    requires |steps| == 1
    ensures Collapsed(steps, forgeWired) == MechanismFor(steps[0], forgeWired)
  {
    var none: seq<Step> := steps[..|steps| - 1];
    assert none == [];
    assert AllMechanisms(none, forgeWired) == Some([]);
    var last := MechanismFor(steps[|steps| - 1], forgeWired);
    assert AllMechanisms(steps, forgeWired) == if last.Some? then Some([] + [last.value]) else None;
  }

  method OpFor(steps: seq<Step>, forgeWired: bool) returns (r: Option<Operation>)
    ensures r == Collapsed(steps, forgeWired)
  {
    if |steps| == 0 {
      return None;
    }
    if |steps| == 1 {
      SingleMechanism(steps, forgeWired);
      return MechanismFor(steps[0], forgeWired);
    }
    var ops: seq<Operation> := [];
    var i := 0;
    while i < |steps|
      invariant 0 <= i <= |steps|
      invariant AllMechanisms(steps[..i], forgeWired) == Some(ops)
    {
      var op := MechanismFor(steps[i], forgeWired);
      if op.None? {
        FailedPrefixFails(steps, forgeWired, i);
        return None;
      }
      assert steps[..i + 1][..|steps[..i + 1]| - 1] == steps[..i];
      ops := ops + [op.value];
      i := i + 1;
    }
    assert steps[..i] == steps;
    return Some(Sequence(ops));
  }

  function BindingOf(c: ActionContract, forgeWired: bool): Option<Binding> {
    var f, r := Collapsed(c.forward, forgeWired), Collapsed(c.reverse, forgeWired);
    if f.Some? && r.Some? then Some(Binding(f.value, r.value)) else None
  }

  /** bindingFor: both halves or neither. */
  method BindingFor(c: ActionContract, forgeWired: bool) returns (b: Option<Binding>)
    ensures b == BindingOf(c, forgeWired)
  {
    var forward := OpFor(c.forward, forgeWired);
    if forward.None? {
      return None;
    }
    var reverse := OpFor(c.reverse, forgeWired);
    if reverse.None? {
      return None;
    }
    return Some(Binding(forward.value, reverse.value));
  }

  /** All or nothing; a later contract of the same name replaces an earlier one. */
  function BoundAll(cat: seq<ActionContract>, forgeWired: bool): Option<map<string, Binding>> {
    if cat == [] then Some(map[])
    else
      var init := BoundAll(cat[..|cat| - 1], forgeWired);
      var last := BindingOf(cat[|cat| - 1], forgeWired);
      if init.Some? && last.Some? then Some(init.value[cat[|cat| - 1].name := last.value]) else None
  }

  lemma BoundAt(cat: seq<ActionContract>, forgeWired: bool, i: nat)
    requires i < |cat| && BoundAll(cat[..i], forgeWired).Some?
    ensures BoundAll(cat[..i + 1], forgeWired)
         == match BindingOf(cat[i], forgeWired)
            case None => None
            case Some(b) => Some(BoundAll(cat[..i], forgeWired).value[cat[i].name := b])
  {
    assert cat[..i + 1][..|cat[..i + 1]| - 1] == cat[..i];
  }

  method Bind(cat: seq<ActionContract>, forgeWired: bool) returns (r: Option<map<string, Binding>>)
    ensures r == BoundAll(cat, forgeWired)
  {
    var out: map<string, Binding> := map[];
    var i := 0;
    while i < |cat|
      invariant 0 <= i <= |cat|
      invariant BoundAll(cat[..i], forgeWired) == Some(out)
    {
      BoundAt(cat, forgeWired, i);
      var b := BindingFor(cat[i], forgeWired);
      if b.None? {
        UnboundPrefix(cat, forgeWired, i + 1);
        return None;
      }
      out := out[cat[i].name := b.value];
      i := i + 1;
    }
    assert cat[..i] == cat;
    return Some(out);
  }

  lemma {:induction false} UnboundPrefix(cat: seq<ActionContract>, forgeWired: bool, i: nat)
    requires i <= |cat| && BoundAll(cat[..i], forgeWired).None?
    ensures BoundAll(cat, forgeWired).None?
  {
    if i < |cat| {
      assert cat[..|cat| - 1][..i] == cat[..i];
      UnboundPrefix(cat[..|cat| - 1], forgeWired, i);
    } else {
      assert cat[..i] == cat;
    }
  }

  /** A step an author has completed: one of the five verbs, with every target that verb
      acts on, and a forge for a release. */
  predicate Complete(s: Step, forgeWired: bool) {
    || (s.verb == "exec" && s.namespace != "" && s.selector != "" && s.command != [])
    || (s.verb == "scale" && s.namespace != "" && s.deployment != "" && s.replicas.Some?)
    || (s.verb == "restart" && s.namespace != "" && s.deployment != "")
    || (s.verb == "flagVariant" && s.namespace != "" && s.configMap != "" && s.dataKey != "" && s.flag != "" && s.variant != "")
    || (s.verb == "maintenanceRelease" && forgeWired && s.path != "" && s.flag != "" && s.variant != "")
  }

  /** A complete step becomes exactly itself: an artifact for review if it is a release,
      a mutation otherwise. */
  lemma MechanismIs(s: Step, forgeWired: bool)
    ensures MechanismFor(s, forgeWired)
         == if !Complete(s, forgeWired) then None
            else if s.verb == "maintenanceRelease" then Some(Release(s)) else Some(Mutation(s))
  {
  }

  lemma {:induction false} AllMechanismsIff(steps: seq<Step>, forgeWired: bool)
    ensures AllMechanisms(steps, forgeWired).Some? <==> forall i | 0 <= i < |steps| :: Complete(steps[i], forgeWired)
  {
    if steps == [] {
    } else {
      AllMechanismsIff(steps[..|steps| - 1], forgeWired);
      MechanismIs(steps[|steps| - 1], forgeWired);
    }
  }

  /** A contract binds iff both directions are authored and every step is complete. */
  predicate Bindable(c: ActionContract, forgeWired: bool) {
    && c.forward != [] && c.reverse != []
    && (forall i | 0 <= i < |c.forward| :: Complete(c.forward[i], forgeWired))
    && (forall i | 0 <= i < |c.reverse| :: Complete(c.reverse[i], forgeWired))
  }

  lemma BindingIff(c: ActionContract, forgeWired: bool)
    ensures BindingOf(c, forgeWired).Some? <==> Bindable(c, forgeWired)
  {
    AllMechanismsIff(c.forward, forgeWired);
    AllMechanismsIff(c.reverse, forgeWired);
  }

  /** A catalog loads iff every contract in it binds: an irreversible action, or one with
      a step nobody can carry out, stops the whole of it. */
  lemma {:induction false} BindsIff(cat: seq<ActionContract>, forgeWired: bool)
    ensures BoundAll(cat, forgeWired).Some? <==> forall i | 0 <= i < |cat| :: Bindable(cat[i], forgeWired)
  {
    if cat == [] {
    } else {
      BindsIff(cat[..|cat| - 1], forgeWired);
      BindingIff(cat[|cat| - 1], forgeWired);
    }
  }

  predicate Named(cat: seq<ActionContract>, n: string) {
    exists i | 0 <= i < |cat| :: cat[i].name == n
  }

  lemma NamedSnoc(cat: seq<ActionContract>, n: string)
    requires cat != []
    ensures Named(cat, n) <==> Named(cat[..|cat| - 1], n) || cat[|cat| - 1].name == n
  {
    var init := cat[..|cat| - 1];
    if Named(cat, n) {
      var i :| 0 <= i < |cat| && cat[i].name == n;
      assert i < |init| ==> init[i].name == n;
    }
    if Named(init, n) {
      var i :| 0 <= i < |init| && init[i].name == n;
      assert cat[i].name == n;
    }
  }

  /** Exactly the catalogued names are bound. */
  lemma {:induction false} BoundNames(cat: seq<ActionContract>, forgeWired: bool, n: string)
    requires BoundAll(cat, forgeWired).Some?
    ensures n in BoundAll(cat, forgeWired).value <==> Named(cat, n)
  {
    if cat == [] {
    } else {
      BoundNames(cat[..|cat| - 1], forgeWired, n);
      NamedSnoc(cat, n);
    }
  }

  /** The catalog lookup takes the first contract of a name, the binding the last:
      with unique names thump executes the contract it rendered. */
  lemma {:induction false} BoundToOwnContract(cat: seq<ActionContract>, forgeWired: bool, i: nat)
    requires UniqueNames(cat) && i < |cat| && BoundAll(cat, forgeWired).Some?
    ensures var b := BoundAll(cat, forgeWired).value;
            cat[i].name in b && Some(b[cat[i].name]) == BindingOf(cat[i], forgeWired)
  {
    if i == |cat| - 1 {
    } else {
      BoundToOwnContract(cat[..|cat| - 1], forgeWired, i);
    }
  }

  // ---- running ------------------------------------------------------------

  /** The cluster and forge calls an operation makes, in order. */
  function Leaves(op: Operation): seq<Operation> {
    match op
    case Sequence(ops) => AllLeaves(ops)
    case _ => [op]
  }

  function AllLeaves(ops: seq<Operation>): seq<Operation> {
    if ops == [] then [] else AllLeaves(ops[..|ops| - 1]) + Leaves(ops[|ops| - 1])
  }

  /** What opFor builds: a leaf, or a non-empty sequence of leaves. */
  predicate Bound(op: Operation) {
    op.Sequence? ==> op.ops != [] && forall i | 0 <= i < |op.ops| :: !op.ops[i].Sequence?
  }

  lemma {:induction false} MechanismsAreLeaves(steps: seq<Step>, forgeWired: bool)
    requires AllMechanisms(steps, forgeWired).Some?
    ensures var ops := AllMechanisms(steps, forgeWired).value;
            (forall i | 0 <= i < |ops| :: !ops[i].Sequence?) && AllLeaves(ops) == ops
  {
    if steps == [] {
    } else {
      MechanismsAreLeaves(steps[..|steps| - 1], forgeWired);
      var ops := AllMechanisms(steps, forgeWired).value;
      assert ops[..|ops| - 1] == AllMechanisms(steps[..|steps| - 1], forgeWired).value;
    }
  }

  /** A bound contract is never a no-op in either direction: it makes one call per
      authored step, in the authored order. */
  lemma BoundIsFaithful(steps: seq<Step>, forgeWired: bool)
    requires Collapsed(steps, forgeWired).Some?
    ensures var op := Collapsed(steps, forgeWired).value;
            Bound(op) && |Leaves(op)| == |steps| > 0
            && forall i | 0 <= i < |steps| :: Some(Leaves(op)[i]) == MechanismFor(steps[i], forgeWired)
  {
    MechanismsAreLeaves(steps, forgeWired);
    forall i | 0 <= i < |steps| ensures Some(AllMechanisms(steps, forgeWired).value[i]) == MechanismFor(steps[i], forgeWired) {
      MechanismAt(steps, forgeWired, i);
    }
  }

  lemma {:induction false} MechanismAt(steps: seq<Step>, forgeWired: bool, i: nat)
    requires AllMechanisms(steps, forgeWired).Some? && i < |steps|
    ensures Some(AllMechanisms(steps, forgeWired).value[i]) == MechanismFor(steps[i], forgeWired)
  {
    if i == |steps| - 1 {
    } else {
      MechanismAt(steps[..|steps| - 1], forgeWired, i);
    }
  }

  function ResultOf(op: Operation): Result {
    match op
    case Release(_) => ProposedForReview
    case Sequence(ops) => if ops == [] then Applied else ResultOf(ops[|ops| - 1])
    case Mutation(_) => Applied
  }

  lemma {:induction false} LeafSuffix(ops: seq<Operation>)
    requires forall i | 0 <= i < |ops| :: !ops[i].Sequence?
    ensures AllLeaves(ops) == ops
  {
    if ops == [] {
    } else {
      LeafSuffix(ops[..|ops| - 1]);
    }
  }

  /** The reported result is the last call's. */
  lemma ResultIsLastLeaf(op: Operation)
    requires Bound(op)
    ensures Leaves(op) != []
    ensures ResultOf(op) == if Leaves(op)[|Leaves(op)| - 1].Release? then ProposedForReview else Applied
  {
    if op.Sequence? {
      LeafSuffix(op.ops);
    }
  }

  /** "Proposed" is read as "nothing in the cluster has moved".  That is so iff the
      forward list authors nothing but releases. */
  lemma ProposedMovesNothingIff(steps: seq<Step>, forgeWired: bool)
    requires Collapsed(steps, forgeWired).Some?
    ensures var op := Collapsed(steps, forgeWired).value;
            && (ResultOf(op) == ProposedForReview <==> steps[|steps| - 1].verb == "maintenanceRelease")
            && ((forall i | 0 <= i < |Leaves(op)| :: !Leaves(op)[i].Mutation?)
                <==> (forall i | 0 <= i < |steps| :: steps[i].verb == "maintenanceRelease"))
  {
    var op := Collapsed(steps, forgeWired).value;
    BoundIsFaithful(steps, forgeWired);
    ResultIsLastLeaf(op);
    forall i | 0 <= i < |steps|
      ensures Leaves(op)[i].Mutation? <==> steps[i].verb != "maintenanceRelease"
      ensures Leaves(op)[i].Release? <==> steps[i].verb == "maintenanceRelease"
    {
      assert Some(Leaves(op)[i]) == MechanismFor(steps[i], forgeWired);
      VerbDecides(steps[i], forgeWired);
    }
  }

  lemma VerbDecides(s: Step, forgeWired: bool)
    requires MechanismFor(s, forgeWired).Some?
    ensures var op := MechanismFor(s, forgeWired).value;
            (op.Release? <==> s.verb == "maintenanceRelease") && (op.Mutation? <==> s.verb != "maintenanceRelease")
  {
  }

  /** Outcome of one Run: the calls that went through, and what came back. */
  datatype Ran = Ran(done: seq<Operation>, result: Result, ok: bool)

  /** `failAt` is the position of the first call the cluster refuses. */
  function RunOf(bindings: map<string, Binding>, ref: string, reverse: bool, failAt: nat): Ran {
    if ref !in bindings then Ran([], NoResult, false)
    else
      var op := if reverse then bindings[ref].reverse else bindings[ref].forward;
      var n := |Leaves(op)|;
      if failAt < n then Ran(Leaves(op)[..failAt], NoResult, false) else Ran(Leaves(op), ResultOf(op), true)
  }

  class Kube {
    var calls: seq<Operation>

    constructor ()
      ensures calls == []
    {
      calls := [];
    }
  }

  lemma AllLeavesAt(ops: seq<Operation>, i: nat)
    requires i < |ops|
    ensures AllLeaves(ops[..i + 1]) == AllLeaves(ops[..i]) + Leaves(ops[i])
  {
    assert ops[..i + 1][..|ops[..i + 1]| - 1] == ops[..i];
  }

  lemma {:induction false} LeavesSplit(ops: seq<Operation>, i: nat)
    requires i <= |ops|
    ensures AllLeaves(ops) == AllLeaves(ops[..i]) + AllLeaves(ops[i..])
  {
    if i == |ops| {
      assert ops[..i] == ops && ops[i..] == [];
    } else {
      var init := ops[..|ops| - 1];
      LeavesSplit(init, i);
      assert init[..i] == ops[..i] && init[i..] == ops[i..][..|ops[i..]| - 1];
    }
  }

  /** How the i-th operation continues what the ones before it have done. */
  lemma LeafStep(ops: seq<Operation>, i: nat, failAt: nat)
    requires i < |ops| && |AllLeaves(ops[..i])| <= failAt
    ensures AllLeaves(ops[..i + 1]) == AllLeaves(ops[..i]) + Leaves(ops[i])
    ensures |AllLeaves(ops[..i + 1])| <= |AllLeaves(ops)|
    ensures failAt < |AllLeaves(ops[..i + 1])| ==>
              AllLeaves(ops)[..failAt] == AllLeaves(ops[..i]) + Leaves(ops[i])[..failAt - |AllLeaves(ops[..i])|]
  {
    AllLeavesAt(ops, i);
    LeavesSplit(ops, i + 1);
    PrefixOfThree(AllLeaves(ops[..i]), Leaves(ops[i]), AllLeaves(ops[i + 1..]), failAt);
  }

  lemma PrefixOfThree<T>(a: seq<T>, b: seq<T>, c: seq<T>, n: nat)
    requires |a| <= n
    ensures n < |a + b| ==> (a + b + c)[..n] == a + b[..n - |a|]
  {
  }

  /** operation.do: leaves in order, stopping at the first failure, so what reached
      the cluster is exactly the prefix before it, however sequences nest. */
  method Perform(op: Operation, kube: Kube, failAt: nat) returns (ok: bool)
    modifies kube
    ensures ok <==> |Leaves(op)| <= failAt
    ensures kube.calls == old(kube.calls) + if ok then Leaves(op) else Leaves(op)[..failAt]
    decreases op
  {
    match op {
      case Sequence(ops) =>
        var i := 0;
        while i < |ops|
          invariant 0 <= i <= |ops|
          invariant |AllLeaves(ops[..i])| <= failAt
          invariant kube.calls == old(kube.calls) + AllLeaves(ops[..i])
        {
          LeafStep(ops, i, failAt);
          ok := Perform(ops[i], kube, failAt - |AllLeaves(ops[..i])|);
          if !ok {
            return;
          }
          i := i + 1;
        }
        assert ops[..i] == ops;
        ok := true;
      case _ =>
        ok := failAt > 0;
        if ok {
          kube.calls := kube.calls + [op];
        }
    }
  }

  /** Runner.Run: an unbound ref is an error, never a silent no-op. */
  method RunAction(bindings: map<string, Binding>, ref: string, reverse: bool, kube: Kube, failAt: nat) returns (r: Ran)
    modifies kube
    ensures r == RunOf(bindings, ref, reverse, failAt)
    ensures kube.calls == old(kube.calls) + r.done
  {
    if ref !in bindings {
      return Ran([], NoResult, false);
    }
    var op := bindings[ref].forward;
    if reverse {
      op := bindings[ref].reverse;
    }
    var ok := Perform(op, kube, failAt);
    if !ok {
      return Ran(Leaves(op)[..failAt], NoResult, false);
    }
    return Ran(Leaves(op), ResultOf(op), true);
  }

  /** releaseKey: a revert is a second review, so it never shares the key of the
      forward release, whatever refs are authored without the suffix. */
  function ReleaseKey(ref: string, reverse: bool): string {
    if reverse then ref + ":revert" else ref
  }

  lemma ReleaseKeysDistinct(a: string, b: string, ra: bool, rb: bool)
    requires ReleaseKey(a, ra) == ReleaseKey(b, rb)
    ensures ra == rb ==> a == b
    ensures ra && !rb ==> b == a + ":revert"
  {
    if ra && rb {
      assert a == (a + ":revert")[..|a|] && b == (b + ":revert")[..|b|];
      assert |a + ":revert"| == |a| + 7 && |b + ":revert"| == |b| + 7;
    }
  }
}
