/** The authored action catalog (internal/contract/contract.go). */
module Catalog {
  import opened Boundary

  datatype Step = Step(
    verb: string, namespace: string, selector: string, command: seq<string>, deployment: string,
    replicas: Option<int>, configMap: string, dataKey: string, flag: string, variant: string, path: string)

  datatype ActionContract = ActionContract(
    name: string,
    classes: seq<string>,
    tiers: seq<string>,
    blast: BlastTier,
    preconditions: seq<string>,
    description: string,
    undo: string,
    fallback: string,
    restoreOnSuccess: bool,
    holdOnMiss: bool,
    forward: seq<Step>,
    reverse: seq<Step>,
    metric: string,
    target: string,
    window: int,
    severityReductionPct: real,
    scopeParameters: map<string, Range>)

  datatype Range = Range(min: real, max: real, default_: real)

  /** Preconditions are authored code; `ok` stands for it. */
  type Checks = (string, Sao) -> bool

  predicate PreconditionsMet(c: ActionContract, sao: Sao, ok: Checks) {
    forall i | 0 <= i < |c.preconditions| :: ok(c.preconditions[i], sao)
  }

  predicate AdmitsTier(c: ActionContract, tier: string, sao: Sao, ok: Checks) {
    tier in c.tiers && PreconditionsMet(c, sao, ok)
  }

  predicate Admits(c: ActionContract, failureClass: string, tier: string, sao: Sao, ok: Checks) {
    failureClass in c.classes && AdmitsTier(c, tier, sao, ok)
  }

  function ApplicableOf(cat: seq<ActionContract>, failureClass: string, tier: string, sao: Sao, ok: Checks): seq<ActionContract> {
    if cat == [] then []
    else
      var last := cat[|cat| - 1];
      ApplicableOf(cat[..|cat| - 1], failureClass, tier, sao, ok) + if Admits(last, failureClass, tier, sao, ok) then [last] else []
  }

  function MenuOf(cat: seq<ActionContract>, tier: string, sao: Sao, ok: Checks): seq<ActionContract> {
    if cat == [] then []
    else
      var last := cat[|cat| - 1];
      MenuOf(cat[..|cat| - 1], tier, sao, ok) + if AdmitsTier(last, tier, sao, ok) then [last] else []
  }

  function FirstNamed(cat: seq<ActionContract>, name: string): (r: Option<ActionContract>)
    ensures r.None? <==> forall i | 0 <= i < |cat| :: cat[i].name != name
    ensures r.Some? ==> r.value in cat && r.value.name == name
  {
    if cat == [] then None
    else if cat[0].name == name then Some(cat[0])
    else FirstNamed(cat[1..], name)
  }

  predicate UniqueNames(cat: seq<ActionContract>) {
    forall i, j | 0 <= i < j < |cat| :: cat[i].name != cat[j].name
  }

  method PreconditionsHold(c: ActionContract, sao: Sao, ok: Checks) returns (r: bool)
    ensures r == PreconditionsMet(c, sao, ok)
  {
    var i := 0;
    while i < |c.preconditions|
      invariant 0 <= i <= |c.preconditions|
      invariant forall j | 0 <= j < i :: ok(c.preconditions[j], sao)
    {
      if !ok(c.preconditions[i], sao) {
        return false;
      }
      i := i + 1;
    }
    return true;
  }

  method Applicable(cat: seq<ActionContract>, failureClass: string, tier: string, sao: Sao, ok: Checks)
    returns (r: seq<ActionContract>)
    ensures r == ApplicableOf(cat, failureClass, tier, sao, ok)
  {
    r := [];
    var i := 0;
    while i < |cat|
      invariant 0 <= i <= |cat|
      invariant r == ApplicableOf(cat[..i], failureClass, tier, sao, ok)
    {
      assert cat[..i + 1][..|cat[..i + 1]| - 1] == cat[..i];
      if failureClass in cat[i].classes && tier in cat[i].tiers {
        var met := PreconditionsHold(cat[i], sao, ok);
        if met {
          r := r + [cat[i]];
        }
      }
      i := i + 1;
    }
    assert cat[..i] == cat;
  }

  method ApplicableToTier(cat: seq<ActionContract>, tier: string, sao: Sao, ok: Checks) returns (r: seq<ActionContract>)
    ensures r == MenuOf(cat, tier, sao, ok)
  {
    r := [];
    var i := 0;
    while i < |cat|
      invariant 0 <= i <= |cat|
      invariant r == MenuOf(cat[..i], tier, sao, ok)
    {
      assert cat[..i + 1][..|cat[..i + 1]| - 1] == cat[..i];
      if tier in cat[i].tiers {
        var met := PreconditionsHold(cat[i], sao, ok);
        if met {
          r := r + [cat[i]];
        }
      }
      i := i + 1;
    }
    assert cat[..i] == cat;
  }

  method ByName(cat: seq<ActionContract>, name: string) returns (r: Option<ActionContract>)
    ensures r == FirstNamed(cat, name)
  {
    var i := 0;
    while i < |cat|
      invariant 0 <= i <= |cat|
      invariant FirstNamed(cat, name) == FirstNamed(cat[i..], name)
    {
      if cat[i].name == name {
        return Some(cat[i]);
      }
      assert cat[i..][1..] == cat[i + 1..];
      i := i + 1;
    }
    return None;
  }

  /** The filter is exact. */
  lemma {:induction false} ApplicableMeaning(cat: seq<ActionContract>, failureClass: string, tier: string, sao: Sao, ok: Checks, c: ActionContract)
    ensures c in ApplicableOf(cat, failureClass, tier, sao, ok) <==> c in cat && Admits(c, failureClass, tier, sao, ok)
  {
    if cat == [] {
    } else {
      ApplicableMeaning(cat[..|cat| - 1], failureClass, tier, sao, ok, c);
      assert cat == cat[..|cat| - 1] + [cat[|cat| - 1]];
    }
  }

  /** Choosing a class from the tier's menu afterwards is the same as asking for
      that class and tier at once, in the same order. */
  lemma {:induction false} MenuThenClass(cat: seq<ActionContract>, failureClass: string, tier: string, sao: Sao, ok: Checks)
    ensures ApplicableOf(MenuOf(cat, tier, sao, ok), failureClass, tier, sao, ok) == ApplicableOf(cat, failureClass, tier, sao, ok)
  {
    if cat == [] {
    } else {
      var init, last := cat[..|cat| - 1], cat[|cat| - 1];
      MenuThenClass(init, failureClass, tier, sao, ok);
      var menu := MenuOf(init, tier, sao, ok);
      assert (menu + [last])[..|menu|] == menu;
      assert menu + [] == menu;
    }
  }

  /** With unique names a contract is found under its own name. */
  lemma {:induction false} FirstNamedUnique(cat: seq<ActionContract>, i: nat)
    requires UniqueNames(cat) && i < |cat|
    ensures FirstNamed(cat, cat[i].name) == Some(cat[i])
  {
    if i == 0 {
    } else {
      FirstNamedUnique(cat[1..], i - 1);
    }
  }
}
