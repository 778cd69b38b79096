/** The audit trail one reason loop owes (internal/clank/engine.go:97-124), as an
    automaton over its outside effects. */
module Audit {
  import opened Boundary
  import opened Replay

  /** What a run does to the world.  Only a checkpoint, record, journal entry or
      publish that succeeded is an effect; a completion and a tool run are, even if
      they fail, since they were asked for. */
  datatype Effect =
    | Completed(step: nat)
    | Checkpointed(step: nat)
    | ToolRan(step: nat, tool: string)
    | RecordedSet(ps: ProposalSet)
    | JournaledSet(ps: ProposalSet)
    | PublishedSet(ps: ProposalSet)

  /** How far an auditor has read.  Ready(n): turns 0..n-1 asked for and
      checkpointed.  Asked(n): turn n asked for as well. */
  datatype Mark =
    | Ready(n: nat)
    | Asked(n: nat)
    | Filed(n: nat, ps: ProposalSet)
    | Archived(n: nat, ps: ProposalSet)
    | Delivered(n: nat, ps: ProposalSet)
    | Broken

  function Next(m: Mark, e: Effect): Mark {
    match e
    case Completed(k) => if m == Ready(k) then Asked(k) else Broken
    case Checkpointed(k) => if m == Asked(k) then Ready(k + 1) else Broken
    case ToolRan(k, _) => if m == Ready(k + 1) then m else Broken
    case RecordedSet(ps) => if m.Ready? then Filed(m.n, ps) else Broken
    case JournaledSet(ps) => if m.Filed? && m.ps == ps then Archived(m.n, ps) else Broken
    case PublishedSet(ps) => if m.Archived? && m.ps == ps && PassedGate(ps) then Delivered(m.n, ps) else Broken
  }

  function Read(effects: seq<Effect>): Mark {
    if effects == [] then Ready(0) else Next(Read(effects[..|effects| - 1]), effects[|effects| - 1])
  }

  lemma ReadSnoc(effects: seq<Effect>, e: Effect)
    ensures Read(effects + [e]) == Next(Read(effects), e)
  {
    assert (effects + [e])[..|effects|] == effects;
  }

  // ---- what an unbroken trail means ---------------------------------------

  function Completions(effects: seq<Effect>): nat {
    if effects == [] then 0
    else Completions(effects[..|effects| - 1]) + if effects[|effects| - 1].Completed? then 1 else 0
  }

  function Records(effects: seq<Effect>): seq<ProposalSet> {
    if effects == [] then []
    else
      var e := effects[|effects| - 1];
      Records(effects[..|effects| - 1]) + if e.RecordedSet? then [e.ps] else []
  }

  function Journals(effects: seq<Effect>): seq<ProposalSet> {
    if effects == [] then []
    else
      var e := effects[|effects| - 1];
      Journals(effects[..|effects| - 1]) + if e.JournaledSet? then [e.ps] else []
  }

  function Publishes(effects: seq<Effect>): seq<ProposalSet> {
    if effects == [] then []
    else
      var e := effects[|effects| - 1];
      Publishes(effects[..|effects| - 1]) + if e.PublishedSet? then [e.ps] else []
  }

  /** An unbroken trail asked the model once per step and filed at most one set. */
  lemma {:induction false} TrailCounts(effects: seq<Effect>)
    requires Read(effects) != Broken
    ensures var m := Read(effects);
            && Completions(effects) == (if m.Asked? then m.n + 1 else m.n)
            && Records(effects) == (if m.Ready? || m.Asked? then [] else [m.ps])
            && Journals(effects) == (if m.Archived? || m.Delivered? then [m.ps] else [])
            && Publishes(effects) == (if m.Delivered? then [m.ps] else [])
            && (m.Delivered? ==> PassedGate(m.ps))
  {
    if effects == [] {
    } else {
      TrailCounts(effects[..|effects| - 1]);
    }
  }

  /** In an unbroken trail a tool runs only in a turn already checkpointed. */
  lemma {:induction false} ToolsFollowTheirCheckpoint(effects: seq<Effect>, i: nat)
    requires Read(effects) != Broken && i < |effects| && effects[i].ToolRan?
    ensures exists j | 0 <= j < i :: effects[j] == Checkpointed(effects[i].step)
  {
    if i < |effects| - 1 {
      ToolsFollowTheirCheckpoint(effects[..|effects| - 1], i);
    } else {
      CheckpointsBelow(effects[..i], effects[i].step);
      var j :| 0 <= j < i && effects[..i][j] == Checkpointed(effects[i].step);
      assert effects[j] == effects[..i][j];
    }
  }

  /** Every turn below the mark has its checkpoint. */
  lemma {:induction false} CheckpointsBelow(effects: seq<Effect>, k: nat)
    requires Read(effects) != Broken && k < Read(effects).n
    ensures exists j | 0 <= j < |effects| :: effects[j] == Checkpointed(k)
  {
    var init := effects[..|effects| - 1];
    if effects[|effects| - 1] == Checkpointed(k) {
    } else {
      CheckpointsBelow(init, k);
      var j :| 0 <= j < |init| && init[j] == Checkpointed(k);
      assert effects[j] == Checkpointed(k);
    }
  }

  /** A publish comes after the record and the journal entry of the same set. */
  lemma {:induction false} PublishComesLast(effects: seq<Effect>, i: nat)
    requires Read(effects) != Broken && i < |effects| && effects[i].PublishedSet?
    ensures PassedGate(effects[i].ps) && i >= 2
    ensures effects[i - 1] == JournaledSet(effects[i].ps) && effects[i - 2] == RecordedSet(effects[i].ps)
  {
    if i < |effects| - 1 {
      PublishComesLast(effects[..|effects| - 1], i);
    } else {
      var before := effects[..i];
      assert Read(before).Archived?;
      assert before != [] && Read(before) == Next(Read(before[..i - 1]), before[i - 1]);
      var two := before[..i - 1];
      assert Read(two).Filed?;
      assert two != [] && Read(two) == Next(Read(two[..i - 2]), two[i - 2]);
    }
  }
}
