/** The bounded reason loop (internal/clank/engine.go).  The model is an
    adversary: a completion may carry any calls at all. */
module Engine {
  import opened Boundary
  import opened Catalog
  import opened Replay
  import opened Audit
  import Gate
  import Conf = Confidence
  import Ranking
  import Decimal
  import Seqs

  // ---- the outside --------------------------------------------------------

  datatype ProposeCandidate = ProposeCandidate(id: string, contractRef: string, confidence: Option<real>, citations: seq<string>)

  datatype ToolAnswer = UnknownTool | ToolFailed | Gathered(ref: EvidenceRef)

  /** One tool call of a completion; None is a body that does not decode. */
  datatype Call =
    | Propose(proposal: Option<(string, seq<ProposeCandidate>)>)
    | Insufficient(decline: Option<(string, string)>)
    | UseTool(name: string, answer: ToolAnswer)

  datatype Turn = ModelFailed | Turn(calls: seq<Call>, checkpointed: bool)

  datatype Signal = Signal(name: string, fingerprint: string, sloRef: string, serviceTier: string, accelerating: bool)

  datatype Config = Config(
    catalog: seq<ActionContract>, checks: Checks, maxSteps: nat,
    weights: Conf.Weights, decay: Conf.Decay, prior: Option<real>, delivers: bool)

  /** Everything a run reads: the ledger's two answers (None is an error), intake,
      the model, and whether each write succeeds. */
  datatype Env = Env(
    runId: string, openBefore: Option<nat>, intake: Option<Sao>, model: nat -> Turn,
    openAfter: Option<nat>, recordOK: bool, journalOK: bool, publishOK: bool)

  datatype Exit = Skipped | Failed | Answered(ps: ProposalSet)

  // ---- evidence keys ------------------------------------------------------

  function EvidenceKey(tool: string, n: nat): string {
    tool + "-" + Decimal.Digits(n)
  }

  lemma SameTailLength(a: string, d: string, b: string, e: string)
    requires a + "-" + d == b + "-" + e && Decimal.AllDigits(d) && Decimal.AllDigits(e)
    ensures |d| >= |e|
  {
    var s := a + "-" + d;
    assert s[|a|] == '-';
    forall k | |b| < k < |s| ensures Decimal.IsDigit(s[k]) {
      assert s[k] == e[k - |b| - 1];
    }
  }

  /** Engine-assigned keys never collide with each other, whatever tools are called. */
  lemma KeysNeverCollide(a: string, m: nat, b: string, n: nat)
    requires EvidenceKey(a, m) == EvidenceKey(b, n)
    ensures a == b && m == n
  {
    var d, e := Decimal.Digits(m), Decimal.Digits(n);
    SameTailLength(a, d, b, e);
    SameTailLength(b, e, a, d);
    assert d == (a + "-" + d)[|a| + 1..] && e == (b + "-" + e)[|b| + 1..];
    assert a == (a + "-" + d)[..|a|] && b == (b + "-" + e)[..|b|];
    Decimal.DigitsInjective(m, n);
  }

  /** A tool's own key stands; an empty one is replaced by the position's label. */
  function Labelled(tool: string, ref: EvidenceRef, n: nat): EvidenceRef {
    if ref.key == "" then ref.(key := EvidenceKey(tool, n)) else ref
  }

  /** `raw` is what the tools answered, in order. */
  ghost predicate Labels(evidence: seq<EvidenceRef>, raw: seq<(string, EvidenceRef)>) {
    |evidence| == |raw| && forall i | 0 <= i < |raw| :: evidence[i] == Labelled(raw[i].0, raw[i].1, i)
  }

  lemma AssignedKeysDistinct(evidence: seq<EvidenceRef>, raw: seq<(string, EvidenceRef)>, i: nat, j: nat)
    requires Labels(evidence, raw) && i < j < |raw| && raw[i].1.key == "" && raw[j].1.key == ""
    ensures evidence[i].key != evidence[j].key
  {
    if evidence[i].key == evidence[j].key {
      KeysNeverCollide(raw[i].0, i, raw[j].0, j);
    }
  }

  // ---- the loop -----------------------------------------------------------

  /** The loop's variables. */
  datatype Loop = Loop(
    proposed: bool, declined: bool, failureClass: string, reason: string,
    cands: seq<Candidate>, evidence: seq<EvidenceRef>)

  const START: Loop := Loop(false, false, "", "", [], [])

  function FromModel(p: ProposeCandidate): Candidate {
    Candidate(p.id, p.contractRef, if p.confidence.Some? then p.confidence.value else 1.0, 0.0, false, None,
              OtherBlast(""), None, None, 0, p.citations)
  }

  function FromModels(ps: seq<ProposeCandidate>): seq<Candidate> {
    seq(|ps|, i requires 0 <= i < |ps| => FromModel(ps[i]))
  }

  /** candidates(): an unstated confidence is no ceiling at all. */
  method Candidates(ps: seq<ProposeCandidate>) returns (r: seq<Candidate>)
    ensures r == FromModels(ps)
  {
    r := [];
    var i := 0;
    while i < |ps|
      invariant 0 <= i <= |ps| && |r| == i
      invariant forall j | 0 <= j < i :: r[j] == FromModel(ps[j])
    {
      r := r + [FromModel(ps[i])];
      i := i + 1;
    }
  }

  /** What the model may author of a candidate, and nothing else. */
  predicate ModelAuthored(c: Candidate) {
    c.impact.None? && c.reversal.None? && c.band.None? && c.rank == 0
  }

  predicate LoopOK(l: Loop, done: bool) {
    && !(l.proposed && l.declined)
    && (l.proposed || l.declined ==> done)
    && (forall i | 0 <= i < |l.cands| :: ModelAuthored(l.cands[i]))
  }

  /** A call nothing after which is run: a terminal one, decodable or not, and a tool
      that fails. */
  predicate Ends(c: Call) {
    c.Propose? || c.Insufficient? || c.answer.ToolFailed?
  }

  /** Position of the first such call. */
  function StopAt(calls: seq<Call>): (n: nat)
    ensures n <= |calls| && (n < |calls| ==> Ends(calls[n])) && forall i | 0 <= i < n :: !Ends(calls[i])
  {
    if calls == [] || Ends(calls[0]) then 0 else 1 + StopAt(calls[1..])
  }

  /** The tools among some calls that were really run, failing ones included, in order. */
  function ToolRuns(calls: seq<Call>, step: nat): seq<Effect> {
    if calls == [] then []
    else
      var c := calls[|calls| - 1];
      ToolRuns(calls[..|calls| - 1], step) + if c.UseTool? && !c.answer.UnknownTool? then [ToolRan(step, c.name)] else []
  }

  /** What they answered. */
  function Refs(calls: seq<Call>): seq<(string, EvidenceRef)> {
    if calls == [] then []
    else
      var c := calls[|calls| - 1];
      Refs(calls[..|calls| - 1]) + if c.UseTool? && c.answer.Gathered? then [(c.name, c.answer.ref)] else []
  }

  /** The calls of a turn that are looked at: up to and including the one that ends it. */
  function Attempted(calls: seq<Call>): seq<Call> {
    calls[..if StopAt(calls) < |calls| then StopAt(calls) + 1 else |calls|]
  }

  function WithEvidence(ev: seq<EvidenceRef>, raw: seq<(string, EvidenceRef)>): seq<EvidenceRef> {
    if raw == [] then ev
    else
      var init := WithEvidence(ev, raw[..|raw| - 1]);
      init + [Labelled(raw[|raw| - 1].0, raw[|raw| - 1].1, |init|)]
  }

  datatype Dispatched = Dispatched(ok: bool, l: Loop, done: bool)

  /** What a turn's calls come to: the evidence of the tools before the first ending
      call, and then whatever that call says. */
  function DispatchOf(calls: seq<Call>, before: Loop): Dispatched {
    var n := StopAt(calls);
    var l := before.(evidence := WithEvidence(before.evidence, Refs(calls[..n])));
    if n == |calls| then Dispatched(true, l, false)
    else match calls[n]
      case Propose(Some(p)) => Dispatched(true, l.(proposed := true, failureClass := p.0, cands := FromModels(p.1)), true)
      case Insufficient(Some(d)) => Dispatched(true, l.(declined := true, reason := d.0, failureClass := d.1), true)
      case _ => Dispatched(false, l, false)
  }

  lemma CallsSnoc(calls: seq<Call>, i: nat, step: nat)
    requires i < |calls|
    ensures var c, runs := calls[i], ToolRuns(calls[..i], step);
            ToolRuns(calls[..i + 1], step) == if c.UseTool? && !c.answer.UnknownTool? then runs + [ToolRan(step, c.name)] else runs
    ensures var c, refs := calls[i], Refs(calls[..i]);
            Refs(calls[..i + 1]) == if c.UseTool? && c.answer.Gathered? then refs + [(c.name, c.answer.ref)] else refs
  {
    assert calls[..i + 1][..|calls[..i + 1]| - 1] == calls[..i];
    assert ToolRuns(calls[..i], step) + [] == ToolRuns(calls[..i], step) && Refs(calls[..i]) + [] == Refs(calls[..i]);
  }

  lemma EvidenceSnoc(ev: seq<EvidenceRef>, raw: seq<(string, EvidenceRef)>, name: string, ref: EvidenceRef)
    ensures WithEvidence(ev, raw + [(name, ref)])
         == WithEvidence(ev, raw) + [Labelled(name, ref, |WithEvidence(ev, raw)|)]
  {
    Seqs.Front(raw, (name, ref));
  }

  /** One turn's calls, in order, up to the first that ends the run: exactly those
      tools ran, and the loop is left as DispatchOf says. */
  method Dispatch(calls: seq<Call>, step: nat, before: Loop, effects: seq<Effect>, ghost rawBefore: seq<(string, EvidenceRef)>)
    returns (ok: bool, l: Loop, done: bool, effects': seq<Effect>, ghost raw: seq<(string, EvidenceRef)>)
    requires LoopOK(before, false) && Labels(before.evidence, rawBefore)
    requires Read(effects) == Ready(step + 1)
    ensures Dispatched(ok, l, done) == DispatchOf(calls, before)
    ensures effects' == effects + ToolRuns(Attempted(calls), step) && raw == rawBefore + Refs(calls[..StopAt(calls)])
    ensures Read(effects') == Ready(step + 1)
    ensures LoopOK(l, done) && Labels(l.evidence, raw)
    ensures ok && done ==> l.proposed || l.declined
  {
    var n;
    n, l, effects' := RunTools(calls, step, before, effects);
    effects' := RunEnding(calls, step, effects, effects', n);
    raw := rawBefore + Refs(calls[..n]);
    GatheredAreLabelled(before.evidence, rawBefore, Refs(calls[..n]));
    if n == |calls| {
      return true, l, false, effects', raw;
    }
    match calls[n] {
      case Propose(Some(p)) =>
        var cands := Candidates(p.1);
        return true, l.(proposed := true, failureClass := p.0, cands := cands), true, effects', raw;
      case Insufficient(Some(d)) =>
        return true, l.(declined := true, reason := d.0, failureClass := d.1), true, effects', raw;
      case _ => return false, l, false, effects', raw;
    }
  }

  /** The loop of a turn up to the call that ends it. */
  method RunTools(calls: seq<Call>, step: nat, before: Loop, effects: seq<Effect>)
    returns (n: nat, l: Loop, effects': seq<Effect>)
    requires Read(effects) == Ready(step + 1)
    ensures n == StopAt(calls) && l == before.(evidence := WithEvidence(before.evidence, Refs(calls[..n])))
    ensures effects' == effects + ToolRuns(calls[..n], step) && Read(effects') == Ready(step + 1)
  {
    n, l, effects' := 0, before, effects;
    assert calls[..0] == [] && effects + [] == effects;
    while n < |calls| && !Ends(calls[n])
      invariant n <= StopAt(calls)
      invariant l == before.(evidence := WithEvidence(before.evidence, Refs(calls[..n])))
      invariant effects' == effects + ToolRuns(calls[..n], step) && Read(effects') == Ready(step + 1)
    {
      l, effects' := RunCall(calls, n, step, before, l, effects, effects');
      n := n + 1;
    }
  }

  /** One call that ends nothing: a tool that answers, or one nobody has heard of. */
  method RunCall(calls: seq<Call>, n: nat, step: nat, ghost before: Loop, l: Loop, ghost first: seq<Effect>, effects: seq<Effect>)
    returns (l': Loop, effects': seq<Effect>)
    requires n < |calls| && !Ends(calls[n]) && l == before.(evidence := WithEvidence(before.evidence, Refs(calls[..n])))
    requires effects == first + ToolRuns(calls[..n], step) && Read(effects) == Ready(step + 1)
    ensures l' == before.(evidence := WithEvidence(before.evidence, Refs(calls[..n + 1])))
    ensures effects' == first + ToolRuns(calls[..n + 1], step) && Read(effects') == Ready(step + 1)
  {
    CallsSnoc(calls, n, step);
    l', effects' := l, effects;
    if calls[n].answer.Gathered? {
      effects' := RunTool(first, effects, ToolRuns(calls[..n], step), step, calls[n].name);
      l' := Gather(before, l, Refs(calls[..n]), calls[n].name, calls[n].answer.ref);
    }
  }

  /** The ending call itself, when it is a tool that fails. */
  method RunEnding(calls: seq<Call>, step: nat, ghost first: seq<Effect>, effects: seq<Effect>, n: nat) returns (effects': seq<Effect>)
    requires Read(effects) == Ready(step + 1) && n == StopAt(calls) && effects == first + ToolRuns(calls[..n], step)
    ensures effects' == first + ToolRuns(Attempted(calls), step) && Read(effects') == Ready(step + 1)
  {
    effects' := effects;
    if n < |calls| {
      CallsSnoc(calls, n, step);
      if calls[n].UseTool? {
        effects' := RunTool(first, effects', ToolRuns(calls[..n], step), step, calls[n].name);
      }
    }
  }

  /** What a tool answered joins the evidence, labelled. */
  method Gather(ghost before: Loop, l: Loop, ghost refs: seq<(string, EvidenceRef)>, name: string, ref: EvidenceRef)
    returns (l': Loop)
    requires l == before.(evidence := WithEvidence(before.evidence, refs))
    ensures l' == before.(evidence := WithEvidence(before.evidence, refs + [(name, ref)]))
  {
    EvidenceSnoc(before.evidence, refs, name, ref);
    l' := l.(evidence := l.evidence + [Labelled(name, ref, |l.evidence|)]);
  }

  lemma {:induction false} GatheredAreLabelled(ev: seq<EvidenceRef>, raw: seq<(string, EvidenceRef)>, more: seq<(string, EvidenceRef)>)
    requires Labels(ev, raw)
    ensures Labels(WithEvidence(ev, more), raw + more)
  {
    if more == [] {
      assert raw + more == raw;
    } else {
      var init := more[..|more| - 1];
      GatheredAreLabelled(ev, raw, init);
      Seqs.Unsnoc(more);
      Seqs.Assoc(raw, init, [more[|more| - 1]]);
    }
  }

  /** One tool run, on record whether or not it fails. */
  method RunTool(ghost first: seq<Effect>, effects: seq<Effect>, ghost runs: seq<Effect>, step: nat, name: string)
    returns (effects': seq<Effect>)
    requires Read(effects) == Ready(step + 1) && effects == first + runs
    ensures effects' == first + (runs + [ToolRan(step, name)]) && Read(effects') == Ready(step + 1)
  {
    ReadSnoc(effects, ToolRan(step, name));
    Seqs.Assoc(first, runs, [ToolRan(step, name)]);
    effects' := effects + [ToolRan(step, name)];
  }

  /** What one turn comes to; None is a run that stops with an error. */
  function TurnOf(turn: Turn, l: Loop): Option<(Loop, bool)> {
    if turn.ModelFailed? || !turn.checkpointed then None
    else if turn.calls == [] then Some((l.(declined := true, reason := "model ended turn without a tool call"), true))
    else
      var d := DispatchOf(turn.calls, l);
      if d.ok then Some((d.l, d.done)) else None
  }

  /** The whole loop. */
  function LoopFrom(model: nat -> Turn, step: nat, maxSteps: nat, l: Loop): Option<Loop>
    decreases maxSteps - step
  {
    if step >= maxSteps then Some(l)
    else match TurnOf(model(step), l)
      case None => None
      case Some(t) => if t.1 then Some(t.0) else LoopFrom(model, step + 1, maxSteps, t.0)
  }

  /** What a turn does to the world: the completion asked for, its checkpoint if that
      succeeds, and then the tools up to the call that ends it. */
  function TurnTrail(turn: Turn, step: nat): seq<Effect> {
    if turn.ModelFailed? || !turn.checkpointed then [Completed(step)]
    else [Completed(step), Checkpointed(step)] + ToolRuns(Attempted(turn.calls), step)
  }

  function LoopTrail(model: nat -> Turn, step: nat, maxSteps: nat, l: Loop): seq<Effect>
    decreases maxSteps - step
  {
    if step >= maxSteps then []
    else
      TurnTrail(model(step), step)
      + match TurnOf(model(step), l)
        case None => []
        case Some(t) => if t.1 then [] else LoopTrail(model, step + 1, maxSteps, t.0)
  }

  lemma NoRuns(effects: seq<Effect>, step: nat)
    ensures effects + ToolRuns(Attempted([]), step) == effects
  {
  }

  lemma TrailOfTwo(before: seq<Effect>, step: nat, rest: seq<Effect>)
    ensures before + [Completed(step)] + [Checkpointed(step)] + rest == before + ([Completed(step), Checkpointed(step)] + rest)
  {
  }

  /** One turn: ask, checkpoint, then run its calls. */
  method TakeTurn(turn: Turn, step: nat, before: Loop, effectsBefore: seq<Effect>, ghost rawBefore: seq<(string, EvidenceRef)>)
    returns (ok: bool, l: Loop, done: bool, effects: seq<Effect>, ghost raw: seq<(string, EvidenceRef)>)
    requires LoopOK(before, false) && Labels(before.evidence, rawBefore) && Read(effectsBefore) == Ready(step)
    ensures LoopOK(l, done) && Labels(l.evidence, raw)
    ensures Read(effects) == Ready(step + 1) || (!ok && Read(effects) == Asked(step))
    ensures ok && done ==> l.proposed || l.declined
    ensures if ok then TurnOf(turn, before) == Some((l, done)) else TurnOf(turn, before).None?
    ensures effects == effectsBefore + TurnTrail(turn, step)
  {
    ok, l, done, raw := true, before, false, rawBefore;
    ReadSnoc(effectsBefore, Completed(step));
    effects := effectsBefore + [Completed(step)];
    if turn.ModelFailed? || !turn.checkpointed {
      ok := false;
      return;
    }
    ReadSnoc(effects, Checkpointed(step));
    effects := effects + [Checkpointed(step)];
    TrailOfTwo(effectsBefore, step, ToolRuns(Attempted(turn.calls), step));
    if |turn.calls| == 0 {
      NoRuns(effects, step);
      l := l.(declined := true, reason := "model ended turn without a tool call");
      done := true;
      return;
    }
    ok, l, done, effects, raw := Dispatch(turn.calls, step, l, effects, raw);
  }

  /** What the whole loop comes to and does, with the turns up to `step` behind it. */
  predicate OnTrack(model: nat -> Turn, maxSteps: nat, step: nat, l: Loop, effects: seq<Effect>) {
    && LoopFrom(model, 0, maxSteps, START) == LoopFrom(model, step, maxSteps, l)
    && LoopTrail(model, 0, maxSteps, START) == effects + LoopTrail(model, step, maxSteps, l)
  }

  /** The whole loop has come to this. */
  predicate Over(model: nat -> Turn, maxSteps: nat, l: Option<Loop>, effects: seq<Effect>) {
    LoopFrom(model, 0, maxSteps, START) == l && LoopTrail(model, 0, maxSteps, START) == effects
  }

  lemma NextTurn(model: nat -> Turn, maxSteps: nat, step: nat, l: Loop, effects: seq<Effect>)
    requires OnTrack(model, maxSteps, step, l, effects) && step < maxSteps
    ensures var after := effects + TurnTrail(model(step), step);
            match TurnOf(model(step), l)
            case None => Over(model, maxSteps, None, after)
            case Some(t) => if t.1 then Over(model, maxSteps, Some(t.0), after) else OnTrack(model, maxSteps, step + 1, t.0, after)
  {
    var turn := TurnTrail(model(step), step);
    assert turn + [] == turn;
    match TurnOf(model(step), l) {
      case None =>
      case Some(t) =>
        Seqs.Assoc(effects, turn, LoopTrail(model, step + 1, maxSteps, t.0));
    }
  }

  lemma TrackEnds(model: nat -> Turn, maxSteps: nat, l: Loop, effects: seq<Effect>)
    requires OnTrack(model, maxSteps, maxSteps, l, effects)
    ensures Over(model, maxSteps, Some(l), effects)
  {
    assert effects + [] == effects;
  }

  lemma TrackStarts(model: nat -> Turn, maxSteps: nat)
    ensures OnTrack(model, maxSteps, 0, START, [])
  {
    var t := LoopTrail(model, 0, maxSteps, START);
    assert [] + t == t;
  }

  /** The loop: at most maxSteps completions, each checkpointed before its calls run. */
  method ReasonLoop(model: nat -> Turn, maxSteps: nat)
    returns (ok: bool, l: Loop, effects: seq<Effect>, ghost raw: seq<(string, EvidenceRef)>)
    ensures Read(effects).Ready? || (!ok && Read(effects).Asked?)
    ensures Completions(effects) <= maxSteps
    ensures LoopOK(l, true) && Labels(l.evidence, raw)
    ensures ok && !l.proposed && !l.declined ==> Completions(effects) == maxSteps
    ensures LoopFrom(model, 0, maxSteps, START) == if ok then Some(l) else None
    ensures effects == LoopTrail(model, 0, maxSteps, START)
  {
    ok, l, effects, raw := RunTurns(model, maxSteps);
    TrailCounts(effects);
  }

  /** Where an auditor stands after some turns. */
  predicate Stands(m: Mark, ok: bool, l: Loop, maxSteps: nat) {
    && (m.Ready? || (!ok && m.Asked?)) && m.n <= maxSteps && (m.Asked? ==> m.n < maxSteps)
    && (ok && !l.proposed && !l.declined ==> m == Ready(maxSteps))
  }

  /** Its turns. */
  method RunTurns(model: nat -> Turn, maxSteps: nat)
    returns (ok: bool, l: Loop, effects: seq<Effect>, ghost raw: seq<(string, EvidenceRef)>)
    ensures Stands(Read(effects), ok, l, maxSteps)
    ensures LoopOK(l, true) && Labels(l.evidence, raw)
    ensures Over(model, maxSteps, if ok then Some(l) else None, effects)
  {
    ok, l, effects, raw := true, START, [], [];
    var step := 0;
    TrackStarts(model, maxSteps);
    while step < maxSteps
      invariant 0 <= step <= maxSteps && ok
      invariant LoopOK(l, false) && Labels(l.evidence, raw)
      invariant Read(effects) == Ready(step) && OnTrack(model, maxSteps, step, l, effects)
    {
      var done;
      NextTurn(model, maxSteps, step, l, effects);
      ok, l, done, effects, raw := TakeTurn(model(step), step, l, effects, raw);
      if !ok || done {
        return;
      }
      step := step + 1;
    }
    TrackEnds(model, maxSteps, l, effects);
  }

  // ---- the two enforcements -----------------------------------------------

  predicate Allowed(c: Candidate, cfg: Config, failureClass: string, tier: string, sao: Sao) {
    exists i | 0 <= i < |cfg.catalog| ::
      cfg.catalog[i].name == c.contractRef && Admits(cfg.catalog[i], failureClass, tier, sao, cfg.checks)
  }

  predicate AllAllowed(cands: seq<Candidate>, cfg: Config, failureClass: string, tier: string, sao: Sao) {
    forall i | 0 <= i < |cands| :: Allowed(cands[i], cfg, failureClass, tier, sao)
  }

  /** The first refused ref, and whether it is at least catalogued. */
  function FirstRefusal(cands: seq<Candidate>, cfg: Config, failureClass: string, tier: string, sao: Sao): Option<bool> {
    if cands == [] then None
    else if !Allowed(cands[0], cfg, failureClass, tier, sao) then Some(FirstNamed(cfg.catalog, cands[0].contractRef).Some?)
    else FirstRefusal(cands[1..], cfg, failureClass, tier, sao)
  }

  /** enforceCatalog: None, or whether the first refused ref is at least catalogued. */
  method EnforceCatalog(cands: seq<Candidate>, cfg: Config, failureClass: string, tier: string, sao: Sao)
    returns (refused: Option<bool>)
    ensures refused.None? <==> AllAllowed(cands, cfg, failureClass, tier, sao)
    ensures refused == FirstRefusal(cands, cfg, failureClass, tier, sao)
  {
    var menu := Applicable(cfg.catalog, failureClass, tier, sao, cfg.checks);
    var allowed: set<string> := {};
    var k := 0;
    while k < |menu|
      invariant 0 <= k <= |menu|
      invariant forall n :: n in allowed <==> exists j | 0 <= j < k :: menu[j].name == n
    {
      allowed := allowed + {menu[k].name};
      k := k + 1;
    }
    var i := 0;
    while i < |cands|
      invariant 0 <= i <= |cands|
      invariant forall j | 0 <= j < i :: Allowed(cands[j], cfg, failureClass, tier, sao)
      invariant FirstRefusal(cands, cfg, failureClass, tier, sao) == FirstRefusal(cands[i..], cfg, failureClass, tier, sao)
    {
      assert cands[i..][1..] == cands[i + 1..];
      MenuNames(cands[i], cfg, failureClass, tier, sao, menu);
      if cands[i].contractRef !in allowed {
        var known := ByName(cfg.catalog, cands[i].contractRef);
        return Some(known.Some?);
      }
      i := i + 1;
    }
    return None;
  }

  lemma MenuNames(c: Candidate, cfg: Config, failureClass: string, tier: string, sao: Sao, menu: seq<ActionContract>)
    requires menu == ApplicableOf(cfg.catalog, failureClass, tier, sao, cfg.checks)
    ensures Allowed(c, cfg, failureClass, tier, sao) <==> exists j | 0 <= j < |menu| :: menu[j].name == c.contractRef
  {
    if Allowed(c, cfg, failureClass, tier, sao) {
      var i :| 0 <= i < |cfg.catalog| && cfg.catalog[i].name == c.contractRef
            && Admits(cfg.catalog[i], failureClass, tier, sao, cfg.checks);
      ApplicableMeaning(cfg.catalog, failureClass, tier, sao, cfg.checks, cfg.catalog[i]);
      var j :| 0 <= j < |menu| && menu[j] == cfg.catalog[i];
    }
    if j :| 0 <= j < |menu| && menu[j].name == c.contractRef {
      ApplicableMeaning(cfg.catalog, failureClass, tier, sao, cfg.checks, menu[j]);
      var i :| 0 <= i < |cfg.catalog| && cfg.catalog[i] == menu[j];
      assert cfg.catalog[i].name == c.contractRef;
    }
  }

  predicate GatheredKey(key: string, evidence: seq<EvidenceRef>) {
    key != "" && exists i | 0 <= i < |evidence| :: evidence[i].key == key
  }

  predicate CitesGathered(c: Candidate, evidence: seq<EvidenceRef>) {
    c.citations != [] && forall j | 0 <= j < |c.citations| :: GatheredKey(c.citations[j], evidence)
  }

  predicate AllCite(cands: seq<Candidate>, evidence: seq<EvidenceRef>) {
    forall i | 0 <= i < |cands| :: CitesGathered(cands[i], evidence)
  }

  method EnforceCitations(cands: seq<Candidate>, evidence: seq<EvidenceRef>) returns (ok: bool)
    ensures ok <==> AllCite(cands, evidence)
  {
    var gathered: set<string> := {};
    var k := 0;
    while k < |evidence|
      invariant 0 <= k <= |evidence|
      invariant forall n :: n in gathered <==> n != "" && exists j | 0 <= j < k :: evidence[j].key == n
    {
      if evidence[k].key != "" {
        gathered := gathered + {evidence[k].key};
      }
      k := k + 1;
    }
    var i := 0;
    while i < |cands|
      invariant 0 <= i <= |cands|
      invariant forall j | 0 <= j < i :: CitesGathered(cands[j], evidence)
    {
      if |cands[i].citations| == 0 {
        return false;
      }
      var c := 0;
      while c < |cands[i].citations|
        invariant 0 <= c <= |cands[i].citations|
        invariant forall j | 0 <= j < c :: GatheredKey(cands[i].citations[j], evidence)
      {
        if cands[i].citations[c] !in gathered {
          assert !GatheredKey(cands[i].citations[c], evidence);
          return false;
        }
        c := c + 1;
      }
      i := i + 1;
    }
    return true;
  }

  // ---- enrichment ---------------------------------------------------------

  predicate AutomaticSteps(steps: seq<Step>) {
    forall i | 0 <= i < |steps| :: steps[i].verb != "maintenanceRelease"
  }

  /** automaticReversal. */
  method AutomaticReversal(steps: seq<Step>) returns (r: bool)
    ensures r == AutomaticSteps(steps)
  {
    var i := 0;
    while i < |steps|
      invariant 0 <= i <= |steps|
      invariant forall j | 0 <= j < i :: steps[j].verb != "maintenanceRelease"
    {
      if steps[i].verb == "maintenanceRelease" {
        return false;
      }
      i := i + 1;
    }
    return true;
  }

  /** A candidate with the facts its contract authors stamped on. */
  function Stamped(c: Candidate, ct: ActionContract, automatic: bool): Candidate {
    var c1 := c.(blast := ct.blast);
    var c2 := if ct.severityReductionPct == 0.0 then c1
              else c1.(impact := Some(PredictedImpact(ct.severityReductionPct,
                                                      if c.impact.Some? then c.impact.value.timeToEffect else "")));
    if ct.undo != "" then c2.(reversal := Some(UndoPath(ct, automatic)), band := Some(ActReversible))
    else c2.(band := Some(ActDisruptive))
  }

  function UndoPath(ct: ActionContract, automatic: bool): ReversalPath {
    ReversalPath(ct.undo, ct.metric, ct.target, automatic)
  }

  function Enriched(c: Candidate, catalog: seq<ActionContract>): Candidate {
    match FirstNamed(catalog, c.contractRef)
    case None => c
    case Some(ct) => Stamped(c, ct, AutomaticSteps(ct.reverse))
  }

  /** enrichFromCatalog: the slice is edited in place. */
  method EnrichFromCatalog(catalog: seq<ActionContract>, cands: seq<Candidate>) returns (r: seq<Candidate>)
    ensures |r| == |cands| && forall i | 0 <= i < |cands| :: r[i] == Enriched(cands[i], catalog)
  {
    r := cands;
    var i := 0;
    while i < |r|
      invariant 0 <= i <= |r| == |cands|
      invariant forall j | 0 <= j < i :: r[j] == Enriched(cands[j], catalog)
      invariant forall j | i <= j < |r| :: r[j] == cands[j]
    {
      var found := ByName(catalog, r[i].contractRef);
      if found.Some? {
        var automatic := AutomaticReversal(found.value.reverse);
        r := r[i := Stamped(r[i], found.value, automatic)];
      }
      i := i + 1;
    }
  }

  // ---- what a formed set is -----------------------------------------------

  /** The candidate's governance facts are its contract's, never the model's. */
  predicate FromContract(c: Candidate, catalog: seq<ActionContract>) {
    match FirstNamed(catalog, c.contractRef)
    case None => true
    case Some(ct) =>
      && c.blast == ct.blast
      && c.impact == (if ct.severityReductionPct == 0.0 then None else Some(PredictedImpact(ct.severityReductionPct, "")))
      && c.band == Some(if ct.undo != "" then ActReversible else ActDisruptive)
      && (c.reversal.Some? <==> ct.undo != "")
      && (c.reversal.Some? ==>
            && c.reversal.value.undo == ct.undo && c.reversal.value.watching == ct.metric && c.reversal.value.trigger == ct.target
            && (c.reversal.value.automatic <==> forall i | 0 <= i < |ct.reverse| :: ct.reverse[i].verb != "maintenanceRelease"))
  }

  /** What holds of every candidate of a set that reached the gate. */
  predicate Sound(c: Candidate, position: nat, ps: ProposalSet, cfg: Config, sao: Sao) {
    && Allowed(c, cfg, ps.failureClass, ps.serviceTier, sao)
    && CitesGathered(c, ps.evidence)
    && FromContract(c, cfg.catalog)
    && Graded(c, ps, cfg, sao)
    && c.rank == position + 1
  }

  /** Its computed confidence is what the set's evidence and changes support, and the
      emitted one does not exceed it. */
  predicate Graded(c: Candidate, ps: ProposalSet, cfg: Config, sao: Sao) {
    && c.confidence <= c.computedConfidence
    && Conf.ScoreIs(c.computedConfidence, sao.signalConfidence, |Conf.Backends(c.citations, ps.evidence, Some(sao))|,
                    cfg.prior, Conf.Strongest(ps.causalScores), cfg.weights)
  }

  predicate Vetted(ps: ProposalSet, cfg: Config, sao: Sao) {
    && ps.sao == Some(sao)
    && ps.causalScores == Conf.Scores(sao.changes, sao.topology, cfg.weights, cfg.prior, cfg.decay)
    && (forall i | 0 <= i < |ps.proposals| :: Sound(ps.proposals[i], i, ps, cfg, sao))
    && ps.recommended == (if ps.proposals == [] then "" else ps.proposals[0].id)
    && Gate.Grounded(ps)
  }

  function Scored(c: Candidate, catalog: seq<ActionContract>, evidence: seq<EvidenceRef>, scores: seq<CausalScore>, sao: Sao, cfg: Config): Candidate {
    Conf.ScoredCandidate(Enriched(c, catalog), evidence, scores, sao, cfg.prior, cfg.weights)
  }

  lemma ScoredIsGraded(c: Candidate, position: nat, ps: ProposalSet, cfg: Config, sao: Sao)
    ensures Graded(Scored(c, cfg.catalog, ps.evidence, ps.causalScores, sao, cfg).(rank := position + 1), ps, cfg, sao)
  {
    var e := Enriched(c, cfg.catalog);
    Conf.EmittedIsCapped(e, ps.evidence, ps.causalScores, sao, cfg.prior, cfg.weights);
    Conf.ScoredIs(e, ps.evidence, ps.causalScores, sao, cfg.prior, cfg.weights);
  }

  lemma ScoredIsSound(c: Candidate, position: nat, ps: ProposalSet, scores: seq<CausalScore>, cfg: Config, sao: Sao)
    requires ps.causalScores == scores
    requires ModelAuthored(c) && Allowed(c, cfg, ps.failureClass, ps.serviceTier, sao) && CitesGathered(c, ps.evidence)
    ensures Sound(Scored(c, cfg.catalog, ps.evidence, scores, sao, cfg).(rank := position + 1), position, ps, cfg, sao)
  {
    var e := Enriched(c, cfg.catalog);
    ScoredIsGraded(c, position, ps, cfg, sao);
    var r := Scored(c, cfg.catalog, ps.evidence, scores, sao, cfg).(rank := position + 1);
    assert r.contractRef == c.contractRef && r.citations == c.citations;
    assert r.blast == e.blast && r.band == e.band && r.reversal == e.reversal;
  }

  /** The set is about the signal it was formed for, in this run, on what intake froze. */
  predicate Describes(ps: ProposalSet, sig: Signal, env: Env, sao: Sao) {
    && ps.name == sig.name && ps.runId == env.runId && ps.signalRef == sig.fingerprint && ps.sloRef == sig.sloRef
    && ps.serviceTier == sig.serviceTier && ps.sao == Some(sao)
    && ps.status.Some? && ps.status.value.outcome == NoResult && ps.status.value.observedAt == ZERO_TIME
  }

  function Base(sig: Signal, env: Env, sao: Sao, l: Loop): ProposalSet {
    ProposalSet(sig.name, env.runId, sig.fingerprint, sig.sloRef, Some(sao), l.failureClass, [], l.evidence, sig.serviceTier,
                None, l.cands, "", Some(Status(OtherPhase(""), l.reason, NoResult, ZERO_TIME)))
  }

  method ScoreAll(events: seq<ChangeEvent>, sao: Sao, cfg: Config) returns (r: seq<CausalScore>)
    ensures r == Conf.Scores(events, sao.topology, cfg.weights, cfg.prior, cfg.decay)
  {
    r := [];
    var i := 0;
    while i < |events|
      invariant 0 <= i <= |events|
      invariant r == Conf.Scores(events[..i], sao.topology, cfg.weights, cfg.prior, cfg.decay)
    {
      assert events[..i + 1][..|events[..i + 1]| - 1] == events[..i];
      var cs := Conf.ScoreEvent(events[i], sao.topology, cfg.weights, cfg.prior, cfg.decay);
      r := r + [cs];
      i := i + 1;
    }
    assert events[..i] == events;
  }

  function ScoredAll(cfg: Config, sao: Sao, base: ProposalSet, scores: seq<CausalScore>): seq<Candidate> {
    seq(|base.proposals|, i requires 0 <= i < |base.proposals| =>
          Scored(base.proposals[i], cfg.catalog, base.evidence, scores, sao, cfg))
  }

  function ShapeOf(cfg: Config, sig: Signal, sao: Sao, base: ProposalSet): ProposalSet {
    var scores := Conf.Scores(sao.changes, sao.topology, cfg.weights, cfg.prior, cfg.decay);
    var ranked := Ranking.RankedOf(ScoredAll(cfg, sao, base, scores), sig.accelerating);
    base.(causalScores := scores, proposals := ranked, recommended := if ranked == [] then "" else ranked[0].id)
  }

  /** Enrich, score and rank: the set as the gate sees it. */
  method Shape(cfg: Config, sig: Signal, sao: Sao, base: ProposalSet) returns (ps: ProposalSet)
    requires base.sao == Some(sao) && base.recommended == ""
    requires forall i | 0 <= i < |base.proposals| :: ModelAuthored(base.proposals[i])
    requires AllAllowed(base.proposals, cfg, base.failureClass, base.serviceTier, sao) && AllCite(base.proposals, base.evidence)
    ensures forall i | 0 <= i < |ps.proposals| :: Sound(ps.proposals[i], i, ps, cfg, sao)
    ensures ps.recommended == if ps.proposals == [] then "" else ps.proposals[0].id
    ensures |ps.proposals| == |base.proposals|
    ensures ps == ShapeOf(cfg, sig, sao, base)
  {
    var enriched := EnrichFromCatalog(cfg.catalog, base.proposals);
    var scores := ScoreAll(sao.changes, sao, cfg);
    var scored := Conf.ScoreConfidences(enriched, base.evidence, scores, sao, cfg.prior, cfg.weights);
    assert scored == ScoredAll(cfg, sao, base, scores);
    var ranked := Ranking.Rank(scored, sig.accelerating);
    ps := base.(causalScores := scores, proposals := ranked);
    if |ranked| > 0 {
      ps := ps.(recommended := ranked[0].id);
    }
    assert |ranked| == |scored| by {
      Ranking.StableSortFacts(scored, 0);
    }
    forall i | 0 <= i < |ranked| ensures Sound(ranked[i], i, ps, cfg, sao) {
      Ranking.RankedMember(scored, sig.accelerating, i);
      var j :| 0 <= j < |scored| && ranked[i] == scored[j].(rank := i + 1);
      ScoredIsSound(base.proposals[j], i, ps, scores, cfg, sao);
      assert scored[j] == Scored(base.proposals[j], cfg.catalog, base.evidence, scores, sao, cfg);
    }
  }

  // ---- filing -------------------------------------------------------------

  /** Exactly one set recorded and journaled, and published iff its gate passed. */
  predicate Filing(effects: seq<Effect>, ps: ProposalSet, cfg: Config) {
    && Records(effects) == [ps] && Journals(effects) == [ps]
    && Publishes(effects) == if PassedGate(ps) && cfg.delivers then [ps] else []
  }

  /** What filing a set does to the world. */
  function FileTrail(cfg: Config, env: Env, ps: ProposalSet): seq<Effect> {
    if !env.recordOK then []
    else if !env.journalOK then [RecordedSet(ps)]
    else if PassedGate(ps) && cfg.delivers && env.publishOK then [RecordedSet(ps), JournaledSet(ps), PublishedSet(ps)]
    else [RecordedSet(ps), JournaledSet(ps)]
  }

  /** Record, journal, and publish a set whose gate passed: in that order, stopping
      at the first that fails.  An unconfigured journal succeeds. */
  method File(cfg: Config, env: Env, ps: ProposalSet, effects: seq<Effect>) returns (exit: Exit, effects': seq<Effect>)
    requires Read(effects).Ready?
    ensures exit == FileOf(cfg, env, ps) && effects' == effects + FileTrail(cfg, env, ps)
    ensures var n, m := Read(effects).n, Read(effects');
            if exit == Failed then m in {Ready(n), Filed(n, ps), Archived(n, ps)}
            else m == if PassedGate(ps) && cfg.delivers then Delivered(n, ps) else Archived(n, ps)
  {
    effects' := effects;
    exit := Failed;
    if !env.recordOK {
      return;
    }
    ReadSnoc(effects', RecordedSet(ps));
    effects' := effects' + [RecordedSet(ps)];
    if !env.journalOK {
      return;
    }
    ReadSnoc(effects', JournaledSet(ps));
    effects' := effects' + [JournaledSet(ps)];
    if PassedGate(ps) && cfg.delivers {
      if !env.publishOK {
        return;
      }
      ReadSnoc(effects', PublishedSet(ps));
      effects' := effects' + [PublishedSet(ps)];
    }
    exit := Answered(ps);
  }

  function Declined(base: ProposalSet, reason: string): ProposalSet {
    base.(status := Some(Status(NoAction, reason, NoResult, ZERO_TIME)))
  }

  /** A shaped set once the gate has looked at it. */
  function Gated(shaped: ProposalSet, dupes: nat): ProposalSet {
    var gate := Gate.GateOf(shaped, dupes);
    var reason := if shaped.status.Some? then shaped.status.value.reason else "";
    shaped.(gate := Some(gate),
            status := Some(Status(if gate.passed then Proposed else NoAction, if gate.passed then reason else gate.reason,
                                  NoResult, ZERO_TIME)))
  }

  function ConcludeOf(cfg: Config, sig: Signal, env: Env, sao: Sao, l: Loop): Option<ProposalSet> {
    var base := Base(sig, env, sao, l);
    var refusal := FirstRefusal(l.cands, cfg, l.failureClass, sig.serviceTier, sao);
    if !l.proposed && !l.declined then
      Some(base.(gate := Some(GateResult(false, false, false, false, "budget")),
                 status := Some(Status(BudgetExhausted, l.reason, NoResult, ZERO_TIME))))
    else if !l.proposed then Some(Declined(base, l.reason))
    else if refusal == Some(true) then Some(Declined(base, "candidate not applicable to declared failure class"))
    else if refusal == Some(false) then Some(Declined(base, "proposed contract not in catalog"))
    else if !AllCite(l.cands, l.evidence) then Some(Declined(base, "candidate cites evidence the run did not gather"))
    else if env.openAfter.None? then None
    else Some(Gated(ShapeOf(cfg, sig, sao, base), env.openAfter.value))
  }

  /** The set a run ends on, before it is filed; None when the ledger cannot be
      asked about duplicates. */
  method Conclude(cfg: Config, sig: Signal, env: Env, sao: Sao, l: Loop) returns (r: Option<ProposalSet>)
    requires LoopOK(l, true)
    ensures r.Some? ==> EngineFormed(r.value) && (PassedGate(r.value) ==> Vetted(r.value, cfg, sao))
    ensures r.Some? ==> Describes(r.value, sig, env, sao) && r.value.evidence == l.evidence && r.value.failureClass == l.failureClass
    ensures r.Some? && PassedGate(r.value) ==> l.proposed && env.openAfter == Some(0)
    ensures r == ConcludeOf(cfg, sig, env, sao, l)
  {
    var base := Base(sig, env, sao, l);
    if !l.proposed && !l.declined {
      return Some(base.(gate := Some(GateResult(false, false, false, false, "budget")),
                        status := Some(base.status.value.(phase := BudgetExhausted))));
    }
    if !l.proposed {
      return Some(base.(status := Some(base.status.value.(phase := NoAction))));
    }
    var refused := EnforceCatalog(l.cands, cfg, l.failureClass, sig.serviceTier, sao);
    if refused.Some? {
      return Some(base.(status := Some(base.status.value.(phase := NoAction,
                        reason := if refused.value then "candidate not applicable to declared failure class"
                                  else "proposed contract not in catalog"))));
    }
    var grounded := EnforceCitations(l.cands, l.evidence);
    if !grounded {
      return Some(base.(status := Some(base.status.value.(phase := NoAction,
                        reason := "candidate cites evidence the run did not gather"))));
    }
    if env.openAfter.None? {
      return None;
    }
    var ps := FormSet(cfg, sig, sao, base, env.openAfter.value);
    return Some(ps);
  }

  /** Shape the set, ask the gate, and mark it with the answer. */
  method FormSet(cfg: Config, sig: Signal, sao: Sao, base: ProposalSet, dupes: nat) returns (ps: ProposalSet)
    requires base.sao == Some(sao) && base.recommended == "" && base.status.Some?
    requires base.status.value == Status(OtherPhase(""), base.status.value.reason, NoResult, ZERO_TIME)
    requires forall i | 0 <= i < |base.proposals| :: ModelAuthored(base.proposals[i])
    requires AllAllowed(base.proposals, cfg, base.failureClass, base.serviceTier, sao) && AllCite(base.proposals, base.evidence)
    ensures ps == Gated(ShapeOf(cfg, sig, sao, base), dupes)
    ensures PassedGate(ps) ==> Vetted(ps, cfg, sao) && dupes == 0
  {
    var shaped := Shape(cfg, sig, sao, base);
    var gate := Gate.Evaluate(shaped, dupes);
    var st := shaped.status.value;
    ps := shaped.(gate := Some(gate),
                  status := Some(if gate.passed then st.(phase := Proposed) else st.(phase := NoAction, reason := gate.reason)));
    if gate.passed {
      SameBasis(shaped, ps);
      forall i | 0 <= i < |ps.proposals| ensures Sound(ps.proposals[i], i, ps, cfg, sao) {
        assert Sound(shaped.proposals[i], i, shaped, cfg, sao);
      }
    }
  }

  lemma SameBasis(a: ProposalSet, b: ProposalSet)
    requires a.proposals == b.proposals && a.recommended == b.recommended && a.evidence == b.evidence && a.sao == b.sao
    ensures Gate.Grounded(a) == Gate.Grounded(b)
  {
    assert Gate.Basis(a) == Gate.Basis(b);
  }

  function FileOf(cfg: Config, env: Env, ps: ProposalSet): Exit {
    if env.recordOK && env.journalOK && (PassedGate(ps) && cfg.delivers ==> env.publishOK) then Answered(ps) else Failed
  }

  function ExitWith(cfg: Config, env: Env, concluded: Option<ProposalSet>): Exit {
    match concluded
    case None => Failed
    case Some(ps) => FileOf(cfg, env, ps)
  }

  function TrailWith(cfg: Config, env: Env, concluded: Option<ProposalSet>): seq<Effect> {
    match concluded
    case None => []
    case Some(ps) => FileTrail(cfg, env, ps)
  }

  /** How a run ends, as a function of what it reads. */
  function ExitOf(cfg: Config, sig: Signal, env: Env): Exit {
    if env.openBefore.None? then Failed
    else if env.openBefore.value > 0 then Skipped
    else if env.intake.None? then Failed
    else match LoopFrom(env.model, 0, cfg.maxSteps, START)
      case None => Failed
      case Some(l) => ExitWith(cfg, env, ConcludeOf(cfg, sig, env, env.intake.value, l))
  }

  /** Everything it does to the world, in order. */
  function TrailOf(cfg: Config, sig: Signal, env: Env): seq<Effect> {
    if env.openBefore != Some(0) || env.intake.None? then []
    else
      LoopTrail(env.model, 0, cfg.maxSteps, START)
      + match LoopFrom(env.model, 0, cfg.maxSteps, START)
        case None => []
        case Some(l) => TrailWith(cfg, env, ConcludeOf(cfg, sig, env, env.intake.value, l))
  }

  /** What it publishes. */
  function PublishedBy(cfg: Config, exit: Exit): seq<ProposalSet> {
    if exit.Answered? && PassedGate(exit.ps) && cfg.delivers then [exit.ps] else []
  }

  /** What may be said of a published set. */
  predicate Publishable(ps: ProposalSet, cfg: Config, env: Env) {
    PassedGate(ps) && env.intake.Some? && Vetted(ps, cfg, env.intake.value) && env.openAfter == Some(0)
  }

  /** What becomes of a concluded set, if there is one. */
  method FileConcluded(cfg: Config, env: Env, concluded: Option<ProposalSet>, before: seq<Effect>)
    returns (exit: Exit, effects: seq<Effect>)
    requires Read(before).Ready?
    ensures Read(effects) != Broken && Completions(effects) == Completions(before)
    ensures exit == ExitWith(cfg, env, concluded) && effects == before + TrailWith(cfg, env, concluded)
    ensures exit.Answered? ==> concluded == Some(exit.ps) && Filing(effects, exit.ps, cfg)
    ensures Publishes(effects) == PublishedBy(cfg, exit)
  {
    TrailCounts(before);
    if concluded.None? {
      assert before + [] == before;
      return Failed, before;
    }
    exit, effects := File(cfg, env, concluded.value, before);
    TrailCounts(effects);
  }

  /** The part of Propose after the loop. */
  method Close(cfg: Config, sig: Signal, env: Env, l: Loop, before: seq<Effect>) returns (exit: Exit, effects: seq<Effect>)
    requires LoopOK(l, true) && env.intake.Some? && Read(before).Ready?
    ensures Read(effects) != Broken && Completions(effects) == Completions(before) && exit != Skipped
    ensures exit.Answered? ==> Filing(effects, exit.ps, cfg) && EngineFormed(exit.ps) && exit.ps.evidence == l.evidence
    ensures exit.Answered? ==> Describes(exit.ps, sig, env, env.intake.value)
    ensures Publishes(effects) == PublishedBy(cfg, exit)
    ensures Publishes(effects) == [] || (|Publishes(effects)| == 1 && Publishable(Publishes(effects)[0], cfg, env))
    ensures var concluded := ConcludeOf(cfg, sig, env, env.intake.value, l);
            exit == ExitWith(cfg, env, concluded) && effects == before + TrailWith(cfg, env, concluded)
  {
    var concluded := Conclude(cfg, sig, env, env.intake.value, l);
    exit, effects := FileConcluded(cfg, env, concluded, before);
  }

  /** A run that gets past intake, in two parts. */
  lemma RunParts(cfg: Config, sig: Signal, env: Env, l: Option<Loop>)
    requires env.openBefore == Some(0) && env.intake.Some? && LoopFrom(env.model, 0, cfg.maxSteps, START) == l
    ensures var trail := LoopTrail(env.model, 0, cfg.maxSteps, START);
            match l
            case None => ExitOf(cfg, sig, env) == Failed && TrailOf(cfg, sig, env) == trail
            case Some(l) =>
              var concluded := ConcludeOf(cfg, sig, env, env.intake.value, l);
              ExitOf(cfg, sig, env) == ExitWith(cfg, env, concluded)
              && TrailOf(cfg, sig, env) == trail + TrailWith(cfg, env, concluded)
  {
    var trail := LoopTrail(env.model, 0, cfg.maxSteps, START);
    assert trail + [] == trail;
  }

  /** Propose.  For every model behaviour: at most maxSteps completions, an unbroken
      trail, nothing at all on a skip, exactly one set recorded and journaled on any
      other nil-error exit, and a set published only if its gate passed, in which
      case it is vetted. */
  method RunPropose(cfg: Config, sig: Signal, env: Env)
    returns (exit: Exit, effects: seq<Effect>, ghost raw: seq<(string, EvidenceRef)>)
    ensures Read(effects) != Broken && Completions(effects) <= cfg.maxSteps
    ensures exit == Skipped <==> env.openBefore.Some? && env.openBefore.value > 0
    ensures exit == Skipped ==> effects == []
    ensures exit.Answered? ==> Filing(effects, exit.ps, cfg) && EngineFormed(exit.ps) && Labels(exit.ps.evidence, raw)
    ensures exit.Answered? ==> env.intake.Some? && Describes(exit.ps, sig, env, env.intake.value)
    ensures exit == ExitOf(cfg, sig, env) && effects == TrailOf(cfg, sig, env)
    ensures Publishes(effects) == PublishedBy(cfg, exit)
    ensures Publishes(effects) == [] || (|Publishes(effects)| == 1 && Publishable(Publishes(effects)[0], cfg, env))
  {
    effects, raw := [], [];
    if env.openBefore.None? {
      return Failed, effects, raw;
    }
    if env.openBefore.value > 0 {
      return Skipped, effects, raw;
    }
    if env.intake.None? {
      return Failed, effects, raw;
    }
    var ok, l;
    ok, l, effects, raw := ReasonLoop(env.model, cfg.maxSteps);
    RunParts(cfg, sig, env, if ok then Some(l) else None);
    if !ok {
      TrailCounts(effects);
      return Failed, effects, raw;
    }
    exit, effects := Close(cfg, sig, env, l, effects);
  }

  // ---- acceleration -------------------------------------------------------

  /** No candidate of the model's carries a time to effect, and no contract authors
      one: enrichment leaves every candidate immediate. */
  lemma EnrichedIsImmediate(c: Candidate, cfg: Config, evidence: seq<EvidenceRef>, scores: seq<CausalScore>, sao: Sao)
    requires ModelAuthored(c)
    ensures Ranking.TimeToEffect(Scored(c, cfg.catalog, evidence, scores, sao, cfg)) == 0
  {
    var e := Enriched(c, cfg.catalog);
    assert e.impact.Some? ==> e.impact.value.timeToEffect == "";
    assert Scored(c, cfg.catalog, evidence, scores, sao, cfg).impact == e.impact;
  }

  lemma AccelerationShapesNothing(cfg: Config, sig: Signal, sao: Sao, base: ProposalSet, accelerating: bool)
    requires forall i | 0 <= i < |base.proposals| :: ModelAuthored(base.proposals[i])
    ensures ShapeOf(cfg, sig.(accelerating := accelerating), sao, base) == ShapeOf(cfg, sig, sao, base)
  {
    var scores := Conf.Scores(sao.changes, sao.topology, cfg.weights, cfg.prior, cfg.decay);
    var all := ScoredAll(cfg, sao, base, scores);
    forall i | 0 <= i < |all| ensures Ranking.TimeToEffect(all[i]) == 0 {
      EnrichedIsImmediate(base.proposals[i], cfg, base.evidence, scores, sao);
    }
    Ranking.OneSpeedStays(all, 0);
  }

  lemma {:induction false} LoopIsModelAuthored(model: nat -> Turn, step: nat, maxSteps: nat, l: Loop)
    requires LoopFrom(model, step, maxSteps, l).Some?
    requires forall i | 0 <= i < |l.cands| :: ModelAuthored(l.cands[i])
    ensures var r := LoopFrom(model, step, maxSteps, l).value; forall i | 0 <= i < |r.cands| :: ModelAuthored(r.cands[i])
    decreases maxSteps - step
  {
    if step >= maxSteps || TurnOf(model(step), l).value.1 {
    } else {
      LoopIsModelAuthored(model, step + 1, maxSteps, TurnOf(model(step), l).value.0);
    }
  }

  lemma AccelerationConcludesNothing(cfg: Config, sig: Signal, env: Env, sao: Sao, l: Loop, accelerating: bool)
    requires forall i | 0 <= i < |l.cands| :: ModelAuthored(l.cands[i])
    ensures ConcludeOf(cfg, sig.(accelerating := accelerating), env, sao, l) == ConcludeOf(cfg, sig, env, sao, l)
  {
    var base := Base(sig, env, sao, l);
    assert Base(sig.(accelerating := accelerating), env, sao, l) == base;
    AccelerationShapesNothing(cfg, sig, sao, base, accelerating);
  }

  /** Ranking is documented to be weighted by velocity.  Whether the signal is
      accelerating never makes a difference to what a run concludes or publishes. */
  lemma AccelerationChangesNothing(cfg: Config, sig: Signal, env: Env, accelerating: bool)
    ensures ExitOf(cfg, sig.(accelerating := accelerating), env) == ExitOf(cfg, sig, env)
  {
    var looped := LoopFrom(env.model, 0, cfg.maxSteps, START);
    if env.intake.Some? && looped.Some? {
      LoopIsModelAuthored(env.model, 0, cfg.maxSteps, START);
      AccelerationConcludesNothing(cfg, sig, env, env.intake.value, looped.value, accelerating);
    }
  }

  // ---- what the model is and is not believed ------------------------------

  /** Everything before `n` is a tool that answers or that nobody has heard of; `n`, if
      there is such a call, is the first of any other kind. */
  predicate FirstEnding(calls: seq<Call>, n: int) {
    && 0 <= n <= |calls|
    && (forall i | 0 <= i < n :: calls[i].UseTool? && !calls[i].answer.ToolFailed?)
    && (n < |calls| ==> calls[n].UseTool? ==> calls[n].answer.ToolFailed?)
  }

  /** What a turn comes to: an unknown tool is passed over, a failing one or a body that
      does not decode fails the run, and the first proposal or decline settles it with
      what it says; a turn with none of these goes on. */
  lemma DispatchIs(calls: seq<Call>, before: Loop, n: int)
    requires FirstEnding(calls, n)
    ensures var d := DispatchOf(calls, before);
            && d.l.evidence == WithEvidence(before.evidence, Refs(calls[..n]))
            && if n == |calls| then d.ok && !d.done && d.l == before.(evidence := d.l.evidence)
               else match calls[n]
                 case Propose(Some(p)) =>
                   && d.ok && d.done && d.l.proposed && d.l.declined == before.declined
                   && d.l.failureClass == p.0 && d.l.cands == FromModels(p.1) && d.l.reason == before.reason
                 case Insufficient(Some(p)) =>
                   && d.ok && d.done && d.l.declined && d.l.proposed == before.proposed
                   && d.l.reason == p.0 && d.l.failureClass == p.1 && d.l.cands == before.cands
                 case _ => !d.ok && !d.done
  {
    assert n < |calls| ==> Ends(calls[n]);
    assert forall i | 0 <= i < n :: !Ends(calls[i]);
    assert StopAt(calls) == n;
  }

  /** Evidence is what the tools answered, in order, with a key where they gave none;
      nothing else about a reference is the engine's to say. */
  lemma EvidenceIs(evidence: seq<EvidenceRef>, raw: seq<(string, EvidenceRef)>, i: nat)
    requires Labels(evidence, raw) && i < |raw|
    ensures var e, a := evidence[i], raw[i].1;
            && e == a.(key := e.key) && e.key != ""
            && (a.key != "" ==> e.key == a.key)
            && (a.key == "" ==> e.key == raw[i].0 + "-" + Decimal.Digits(i))
  {
    assert |EvidenceKey(raw[i].0, i)| > 0;
  }

  /** Of a candidate the model is believed for four things: its ID, the contract it
      names, what it cites, and how sure it is, where silence is no doubt. */
  lemma BelievedOf(ps: seq<ProposeCandidate>, i: nat)
    requires i < |ps|
    ensures var c := FromModels(ps)[i];
            && |FromModels(ps)| == |ps|
            && c.id == ps[i].id && c.contractRef == ps[i].contractRef && c.citations == ps[i].citations
            && c.confidence == (if ps[i].confidence.Some? then ps[i].confidence.value else 1.0)
            && c.computedConfidence == 0.0 && ModelAuthored(c)
  {
  }

  lemma EnrichedKeeps(c: Candidate, catalog: seq<ActionContract>)
    ensures var e := Enriched(c, catalog);
            e.id == c.id && e.contractRef == c.contractRef && e.citations == c.citations && e.confidence == c.confidence
  {
  }

  /** What scoring and ranking leave of a candidate: the four things as proposed, with
      the confidence lowered to what the evidence supports. */
  predicate ComesFrom(c: Candidate, was: Candidate, position: nat) {
    && c.id == was.id && c.contractRef == was.contractRef && c.citations == was.citations
    && c.confidence == (if c.computedConfidence <= was.confidence then c.computedConfidence else was.confidence)
    && (c.ceilingBound <==> c.computedConfidence > was.confidence) && c.rank == position + 1
  }

  lemma ScoredComesFrom(c: Candidate, cfg: Config, sao: Sao, evidence: seq<EvidenceRef>, scores: seq<CausalScore>, position: nat)
    ensures ComesFrom(Scored(c, cfg.catalog, evidence, scores, sao, cfg).(rank := position + 1), c, position)
  {
    EnrichedKeeps(c, cfg.catalog);
    Conf.ScoredIs(Enriched(c, cfg.catalog), evidence, scores, sao, cfg.prior, cfg.weights);
  }

  /** And so of every candidate of a shaped set. */
  lemma ShapedFrom(cfg: Config, sig: Signal, sao: Sao, base: ProposalSet, i: nat) returns (j: nat)
    requires i < |ShapeOf(cfg, sig, sao, base).proposals|
    ensures j < |base.proposals| && ComesFrom(ShapeOf(cfg, sig, sao, base).proposals[i], base.proposals[j], i)
  {
    var scores := Conf.Scores(sao.changes, sao.topology, cfg.weights, cfg.prior, cfg.decay);
    var all := ScoredAll(cfg, sao, base, scores);
    Ranking.RankedMember(all, sig.accelerating, i);
    j :| j < |all| && Ranking.RankedOf(all, sig.accelerating)[i] == all[j].(rank := i + 1);
    ScoredComesFrom(base.proposals[j], cfg, sao, base.evidence, scores, i);
  }
}
