/** Any number of turns, on any engines, interleaved at their awaits over one shared store. */
module TurnSystem {
  import opened Basics
  import opened DedupeLedger
  import opened DispatchPolicy
  import opened TurnEngine

  /** One turn in flight: the phase it runs next, whether it passed the dedupe phase, whether it
      awaits the executor, and what the executor answered. */
  datatype Proc = Proc(context: Context, phase: nat, passed: bool, awaiting: bool, answer: Option<ExecutorAnswer>)

  datatype Dispatch = Dispatch(turn: nat, key: string, triple: (string, string, int), degraded: bool)

  /** Whether some store call of some turn has raised so far: in a dedupe phase, while settling. */
  datatype Trouble = Trouble(dedupe: bool, settle: bool)

  const CALM := Trouble(false, false)

  datatype System = System(ledger: Ledger, procs: map<nat, Proc>, dispatches: seq<Dispatch>, trouble: Trouble)

  datatype Move =
    | Begin(id: nat, input: TurnInput, action: Option<Action>)
    | Advance(id: nat, ports: Ports)
    | CallExecutor(id: nat)
    | Settle(id: nat, executorAnswer: ExecutorAnswer, faults: Faults)

  predicate Live(s: System, id: nat) {
    id in s.procs && !Done(s.procs[id].context)
  }

  predicate DedupeFaults(f: Faults) { f.get || f.reserve || f.alias }
  predicate SettleFaults(f: Faults) { f.settle || f.aliasSettle }

  function AfterDedupe(t: Trouble, f: Faults): Trouble { t.(dedupe := t.dedupe || DedupeFaults(f)) }
  function AfterSettle(t: Trouble, f: Faults): Trouble { t.(settle := t.settle || SettleFaults(f)) }

  function Triple(c: Context): (string, string, int)
    requires c.action.Some?
  {
    (c.input.runId, c.action.value.actionId, c.input.basedOnOffset)
  }

  /** One atomic step; a move that is not enabled changes nothing. */
  function Step(s: System, move: Move): System {
    match move
    case Begin(id, input, action) =>
      if id in s.procs then s
      else s.(procs := s.procs[id := Proc(Start(input, action), 0, false, false, None)])
    case Advance(id, ports) =>
      if !Live(s, id) || s.procs[id].phase >= 5 || !PhaseReady(s.procs[id].phase, s.procs[id].context) then s
      else
        var p := s.procs[id];
        var t := Phase(p.phase, Turn(p.context, s.ledger, []), ports);
        var p' := Proc(t.context, p.phase + 1, p.phase == 4 && !Done(t.context), false, None);
        System(t.ledger, s.procs[id := p'], s.dispatches,
               if p.phase == 4 then AfterDedupe(s.trouble, ports.faults) else s.trouble)
    case CallExecutor(id) =>
      if !Live(s, id) || s.procs[id].phase != 5 || s.procs[id].awaiting || !PhaseReady(5, s.procs[id].context) then s
      else
        var p := s.procs[id];
        s.(procs := s.procs[id := p.(awaiting := true)],
           dispatches := s.dispatches
             + [Dispatch(id, p.context.envelope.value.key, Triple(p.context), !p.context.dedupeAvailable)])
    case Settle(id, answer, faults) =>
      if !Live(s, id) || !s.procs[id].awaiting || !PhaseReady(5, s.procs[id].context) then s
      else
        var p := s.procs[id];
        var (c, l) := PhaseSettle(p.context, s.ledger, answer, faults);
        System(l, s.procs[id := p.(context := c, awaiting := false, answer := Some(answer))], s.dispatches,
               AfterSettle(s.trouble, faults))
  }

  function Run(l: Ledger, moves: seq<Move>): System {
    if moves == [] then System(l, map[], [], CALM)
    else Step(Run(l, moves[..|moves| - 1]), moves[|moves| - 1])
  }

  // ---------------------------------------------------------------------
  // The invariant
  // ---------------------------------------------------------------------

  function Key(p: Proc): string
    requires p.context.identity.Some?
  {
    p.context.identity.value.dispatchKey
  }

  /** Where both records of a turn stand, given the executor's answer. */
  function SettledState(answer: Option<ExecutorAnswer>): DedupeState {
    match answer
    case Some(Acks) => Acknowledged
    case Some(DoesNotAck) => UnknownEffect
    case Some(ExecutorRaised) => UnknownEffect
    case _ => Dispatched
  }

  /** The store keys a turn has taken for itself. */
  function Owned(p: Proc): set<string> {
    if !p.passed || !ExecuteReady(p.context) then {}
    else
      var own := if p.context.dedupeAvailable then {Key(p)} else {};
      var alias := if p.context.legacyAlias.Some? then {p.context.legacyAlias.value} else {};
      own + alias
  }

  /** The turn reserved its policy key and mirrored it under its legacy key. */
  predicate Mirrored(p: Proc) {
    ExecuteReady(p.context) && p.context.dedupeAvailable && p.context.legacyAlias == Some(OwnLegacyKey(p.context))
  }

  predicate InStep(l: Ledger, p: Proc) {
    && Mirrored(p)
    && Key(p) in l && OwnLegacyKey(p.context) in l
    && l[Key(p)].state == l[OwnLegacyKey(p.context)].state == SettledState(p.answer)
  }

  predicate ProcOk(l: Ledger, t: Trouble, p: Proc) {
    && p.phase <= 5
    && (!Done(p.context) ==> PhaseReady(p.phase, p.context))
    && (!Done(p.context) ==> (p.passed <==> p.phase == 5))
    && (p.phase < 5 ==> p.context.dedupeAvailable && p.context.legacyAlias == None)
    && (2 <= p.phase && !Done(p.context) ==> OwnLegacyKey(p.context) != Key(p))
    && (p.awaiting ==> p.passed && p.answer == None)
    && (p.answer.Some? ==> p.passed)
    && (p.passed ==> ExecuteReady(p.context) && p.context.envelope.value.key == Key(p))
    && (p.passed ==> (Done(p.context) <==> p.answer.Some?))
    && (p.passed ==> OwnLegacyKey(p.context) != Key(p))
    && Owned(p) <= l.Keys
    && (!t.dedupe && p.passed ==> Mirrored(p))
    && (t == CALM && p.passed ==> InStep(l, p))
    && (t == CALM && p.answer.Some? ==> Reported(p))
  }

  /** What the turn reports once the executor has answered. */
  predicate Reported(p: Proc)
    requires p.answer.Some?
  {
    match p.answer.value
    case Acks => p.context.result.Some? && p.context.result.value.outcome == DispatchedOk
    case DoesNotAck => p.context.result.Some? && p.context.result.value.outcome == RecoveryNeeded
    case _ => p.context.raised && p.context.result.None?
  }

  predicate DispatchOk(s: System, d: Dispatch) {
    && d.turn in s.procs
    && var p := s.procs[d.turn];
    && p.passed && ExecuteReady(p.context) && (p.awaiting || p.answer.Some?)
    && d == Dispatch(d.turn, Key(p), Triple(p.context), !p.context.dedupeAvailable)
  }

  predicate Inv(s: System) {
    && (forall id :: id in s.procs ==> ProcOk(s.ledger, s.trouble, s.procs[id]))
    && (forall i, j :: i in s.procs && j in s.procs && i != j ==> Owned(s.procs[i]) !! Owned(s.procs[j]))
    && (forall k :: 0 <= k < |s.dispatches| ==> DispatchOk(s, s.dispatches[k]))
    && (forall k, m :: 0 <= k < m < |s.dispatches| ==> s.dispatches[k].turn != s.dispatches[m].turn)
  }

  predicate Worse(t: Trouble, t': Trouble) { (t.dedupe ==> t'.dedupe) && (t.settle ==> t'.settle) }

  /** Other turns are unaffected by a ledger change that keeps their own records. */
  lemma OthersKeep(l: Ledger, l': Ledger, t: Trouble, t': Trouble, p: Proc)
    requires ProcOk(l, t, p)
    requires l.Keys <= l'.Keys && forall k :: k in Owned(p) && k in l ==> l'[k] == l[k]
    requires Worse(t, t')
    ensures ProcOk(l', t', p)
  {
  }

  /** A step of turn `id` that only moves records of keys no other turn owns. */
  lemma StepFrame(s: System, s': System, id: nat)
    requires Inv(s) && id in s.procs && id in s'.procs
    requires s'.procs == s.procs[id := s'.procs[id]] && s'.dispatches == s.dispatches
    requires Worse(s.trouble, s'.trouble)
    requires s.ledger.Keys <= s'.ledger.Keys
    requires forall k :: k in s.ledger && k !in Owned(s.procs[id]) ==> s'.ledger[k] == s.ledger[k]
    requires Owned(s.procs[id]) <= Owned(s'.procs[id])
    requires (Owned(s'.procs[id]) - Owned(s.procs[id])) !! s.ledger.Keys
    requires ProcOk(s'.ledger, s'.trouble, s'.procs[id])
    requires s.procs[id].passed ==>
               var p, p' := s.procs[id], s'.procs[id];
               && p'.passed && ExecuteReady(p'.context) && ExecuteReady(p.context) && Key(p') == Key(p)
               && Triple(p'.context) == Triple(p.context)
               && p'.context.dedupeAvailable == p.context.dedupeAvailable
               && (p.awaiting || p.answer.Some? ==> p'.awaiting || p'.answer.Some?)
    ensures Inv(s')
  {
    forall j | j in s'.procs && j != id
      ensures ProcOk(s'.ledger, s'.trouble, s'.procs[j])
      ensures Owned(s'.procs[j]) !! Owned(s'.procs[id])
    {
      assert Owned(s.procs[j]) !! Owned(s.procs[id]);
      OthersKeep(s.ledger, s'.ledger, s.trouble, s'.trouble, s.procs[j]);
    }
    forall k | 0 <= k < |s'.dispatches|
      ensures DispatchOk(s', s'.dispatches[k])
    {
      assert DispatchOk(s, s.dispatches[k]);
    }
  }

  /** Phases 0 to 3 touch neither the store nor what the turn owns. */
  lemma EarlyStep(l: Ledger, trouble: Trouble, p: Proc, ports: Ports)
    requires ProcOk(l, trouble, p) && !Done(p.context) && p.phase < 4
    ensures var t := Phase(p.phase, Turn(p.context, l, []), ports);
            t.ledger == l && ProcOk(l, trouble, Proc(t.context, p.phase + 1, false, false, None))
  {
    PhaseKeepsReady(p.phase, Turn(p.context, l, []), ports);
    if p.phase == 1 && ports.snapshot.Built? {
      KeysDiffer(p.context.input.runId, p.context.action.value.actionId, p.context.input.basedOnOffset,
                 ports.snapshot.contentHash);
    }
  }

  /** The dedupe step adds only keys that nobody holds, and without faults adds both. */
  lemma DedupeStep(l: Ledger, t: Trouble, p: Proc, f: Faults)
    requires ProcOk(l, t, p) && !Done(p.context) && p.phase == 4
    ensures var (c, l') := PhaseDedupe(p.context, l, f);
            var p' := Proc(c, 5, !Done(c), false, None);
            && ProcOk(l', AfterDedupe(t, f), p')
            && l.Keys <= l'.Keys && (forall k :: k in l ==> l'[k] == l[k])
            && Owned(p') !! l.Keys
  {
  }

  /** Without faults, a turn whose records stand `Dispatched` settles both as its answer says. */
  lemma SettleAgrees(l: Ledger, p: Proc, answer: ExecutorAnswer, f: Faults)
    requires p.passed && p.answer == None && !Done(p.context) && InStep(l, p) && OwnLegacyKey(p.context) != Key(p)
    requires !SettleFaults(f)
    ensures var (c, l') := PhaseSettle(p.context, l, answer, f);
            var p' := p.(context := c, awaiting := false, answer := Some(answer));
            InStep(l', p') && Reported(p')
  {
  }

  lemma SettleStep(l: Ledger, t: Trouble, p: Proc, answer: ExecutorAnswer, f: Faults)
    requires ProcOk(l, t, p) && !Done(p.context) && p.awaiting
    ensures var (c, l') := PhaseSettle(p.context, l, answer, f);
            var p' := p.(context := c, awaiting := false, answer := Some(answer));
            && ProcOk(l', AfterSettle(t, f), p')
            && Owned(p') == Owned(p) && Key(p') == Key(p) && Triple(p'.context) == Triple(p.context)
            && l.Keys <= l'.Keys && (forall k :: k in l && k !in Owned(p) ==> l'[k] == l[k])
  {
    SettleFrame(l, p.context, answer, f);
    if AfterSettle(t, f) == CALM {
      SettleAgrees(l, p, answer, f);
    }
  }

  lemma BeginKeepsInv(s: System, id: nat, input: TurnInput, action: Option<Action>)
    requires Inv(s) && id !in s.procs
    ensures Inv(Step(s, Begin(id, input, action)))
  {
    var s' := Step(s, Begin(id, input, action));
    assert Owned(s'.procs[id]) == {};
    forall k | 0 <= k < |s'.dispatches| ensures DispatchOk(s', s'.dispatches[k]) {
      assert DispatchOk(s, s.dispatches[k]);
    }
  }

  lemma AdvanceKeepsInv(s: System, id: nat, ports: Ports)
    requires Inv(s) && Live(s, id) && s.procs[id].phase < 5
    ensures Inv(Step(s, Advance(id, ports)))
  {
    var p := s.procs[id];
    assert ProcOk(s.ledger, s.trouble, p);
    if p.phase < 4 {
      EarlyStep(s.ledger, s.trouble, p, ports);
    } else {
      DedupeStep(s.ledger, s.trouble, p, ports.faults);
    }
    StepFrame(s, Step(s, Advance(id, ports)), id);
  }

  lemma CallKeepsProc(l: Ledger, t: Trouble, p: Proc)
    requires ProcOk(l, t, p) && !Done(p.context) && p.phase == 5 && !p.awaiting
    ensures ProcOk(l, t, p.(awaiting := true)) && Owned(p.(awaiting := true)) == Owned(p) && p.passed && p.answer == None
  {
  }

  lemma CallKeepsProcs(s: System, id: nat)
    requires Inv(s) && Live(s, id) && s.procs[id].phase == 5 && !s.procs[id].awaiting
    ensures var procs := s.procs[id := s.procs[id].(awaiting := true)];
            && (forall i :: i in procs ==> ProcOk(s.ledger, s.trouble, procs[i]))
            && (forall i, j :: i in procs && j in procs && i != j ==> Owned(procs[i]) !! Owned(procs[j]))
            && s.procs[id].passed && s.procs[id].answer == None
  {
    assert ProcOk(s.ledger, s.trouble, s.procs[id]);
    CallKeepsProc(s.ledger, s.trouble, s.procs[id]);
    var procs := s.procs[id := s.procs[id].(awaiting := true)];
    forall i | i in procs ensures Owned(procs[i]) == Owned(s.procs[i]) { }
  }

  lemma CallKeepsDispatches(s: System, id: nat, s': System)
    requires Inv(s) && Live(s, id) && s.procs[id].phase == 5 && !s.procs[id].awaiting
    requires ProcOk(s.ledger, s.trouble, s.procs[id]) && s' == Step(s, CallExecutor(id))
    ensures forall k :: 0 <= k < |s.dispatches| ==> s.dispatches[k].turn != id && DispatchOk(s', s.dispatches[k])
    ensures |s'.dispatches| == |s.dispatches| + 1 && s'.dispatches[..|s.dispatches|] == s.dispatches
    ensures s'.dispatches[|s.dispatches|].turn == id && DispatchOk(s', s'.dispatches[|s.dispatches|])
  {
    forall k | 0 <= k < |s.dispatches| ensures s.dispatches[k].turn != id && DispatchOk(s', s.dispatches[k]) {
      assert DispatchOk(s, s.dispatches[k]);
    }
  }

  lemma CallKeepsInv(s: System, id: nat)
    requires Inv(s) && Live(s, id) && s.procs[id].phase == 5 && !s.procs[id].awaiting
    ensures Inv(Step(s, CallExecutor(id)))
  {
    CallKeepsProcs(s, id);
    var s' := Step(s, CallExecutor(id));
    CallKeepsDispatches(s, id, s');
    DispatchesGrow(s, s');
  }

  lemma DispatchesGrow(s: System, s': System)
    requires var n := |s.dispatches|;
             && |s'.dispatches| == n + 1 && s'.dispatches[..n] == s.dispatches && DispatchOk(s', s'.dispatches[n])
             && (forall k :: 0 <= k < n ==> s.dispatches[k].turn != s'.dispatches[n].turn && DispatchOk(s', s.dispatches[k]))
    requires forall k, m :: 0 <= k < m < |s.dispatches| ==> s.dispatches[k].turn != s.dispatches[m].turn
    ensures forall k :: 0 <= k < |s'.dispatches| ==> DispatchOk(s', s'.dispatches[k])
    ensures forall k, m :: 0 <= k < m < |s'.dispatches| ==> s'.dispatches[k].turn != s'.dispatches[m].turn
  {
    forall k | 0 <= k < |s.dispatches| ensures s'.dispatches[k] == s.dispatches[k] {
      assert s'.dispatches[..|s.dispatches|][k] == s.dispatches[k];
    }
  }

  lemma SettleKeepsInv(s: System, id: nat, answer: ExecutorAnswer, f: Faults)
    requires Inv(s) && Live(s, id) && s.procs[id].awaiting
    ensures Inv(Step(s, Settle(id, answer, f)))
  {
    assert ProcOk(s.ledger, s.trouble, s.procs[id]);
    SettleStep(s.ledger, s.trouble, s.procs[id], answer, f);
    StepFrame(s, Step(s, Settle(id, answer, f)), id);
  }

  lemma StepKeepsInv(s: System, move: Move)
    requires Inv(s)
    ensures Inv(Step(s, move))
  {
    match move
    case Begin(id, input, action) =>
      if id !in s.procs { BeginKeepsInv(s, id, input, action); }
    case Advance(id, ports) =>
      if Live(s, id) && s.procs[id].phase < 5 { AdvanceKeepsInv(s, id, ports); }
    case CallExecutor(id) =>
      if Live(s, id) && s.procs[id].phase == 5 && !s.procs[id].awaiting { CallKeepsInv(s, id); }
    case Settle(id, answer, f) =>
      if Live(s, id) && s.procs[id].awaiting { SettleKeepsInv(s, id, answer, f); }
  }

  lemma {:induction false} RunKeepsInv(l: Ledger, moves: seq<Move>)
    ensures Inv(Run(l, moves))
  {
    if moves != [] {
      RunKeepsInv(l, moves[..|moves| - 1]);
      StepKeepsInv(Run(l, moves[..|moves| - 1]), moves[|moves| - 1]);
    }
  }

  // ---------------------------------------------------------------------
  // Main results, for every starting store and every interleaving
  // ---------------------------------------------------------------------

  /** At most one executor call per dispatch key, not counting calls made after the store itself
      refused to reserve; and while no dedupe phase has met a failing store there are no such calls,
      and at most one call per run, action and offset, whatever the snapshot hashes were. Failures
      while settling do not matter. */
  lemma AtMostOnceDispatch(l: Ledger, moves: seq<Move>, i: nat, j: nat)
    requires i < j < |Run(l, moves).dispatches|
    ensures var s := Run(l, moves);
            var d, e := s.dispatches[i], s.dispatches[j];
            && (!d.degraded && !e.degraded ==> d.key != e.key)
            && (!s.trouble.dedupe ==> !d.degraded && !e.degraded && d.key != e.key && d.triple != e.triple)
  {
    var s := Run(l, moves);
    RunKeepsInv(l, moves);
    var d, e := s.dispatches[i], s.dispatches[j];
    assert DispatchOk(s, d) && DispatchOk(s, e);
    assert Owned(s.procs[d.turn]) !! Owned(s.procs[e.turn]);
  }

  /** Both records of a turn agree, and they are final exactly when the turn is. */
  predicate Settled(l: Ledger, p: Proc) {
    && InStep(l, p)
    && (Done(p.context) <==> p.answer.Some?)
    && (p.answer.Some? ==>
          && (l[Key(p)].state == Acknowledged <==>
                p.context.result.Some? && p.context.result.value.outcome == DispatchedOk)
          && (l[Key(p)].state == Dispatched <==> p.answer.value in {NotADict, Cancelled}))
  }

  /** While no store call has raised, a turn that passed its dedupe phase has its policy key and
      its legacy key on record in the same state at every step, and once the executor has answered
      that state is final: acknowledged exactly when the turn reports a dispatch, unknown-effect
      when it reports recovery or the executor raised. Only an answer that is not a dict, or a
      cancelled call, leaves the pair `Dispatched`. */
  lemma AliasInStepAndSettled(l: Ledger, moves: seq<Move>, id: nat)
    requires var s := Run(l, moves); s.trouble == CALM && id in s.procs && s.procs[id].passed
    ensures Settled(Run(l, moves).ledger, Run(l, moves).procs[id])
  {
    RunKeepsInv(l, moves);
    ProcSettles(Run(l, moves).ledger, Run(l, moves).procs[id]);
  }

  lemma ProcSettles(l: Ledger, p: Proc)
    requires ProcOk(l, CALM, p) && p.passed
    ensures Settled(l, p)
  {
  }

  /** While no dedupe phase has met a failing store: once a run, action and offset have been
      dispatched, the dedupe step of any further turn with the same three blocks that turn and
      leaves the store as it is. */
  lemma RepeatIsBlocked(l: Ledger, moves: seq<Move>, i: nat, id: nat, ports: Ports)
    requires var s := Run(l, moves);
             && !s.trouble.dedupe && i < |s.dispatches| && Live(s, id) && s.procs[id].phase == 4
             && s.procs[id].context.action.Some? && Triple(s.procs[id].context) == s.dispatches[i].triple && !ports.faults.get
    ensures var s, s' := Run(l, moves), Step(Run(l, moves), Advance(id, ports));
            && s'.ledger == s.ledger
            && s'.procs[id].context.result.Some? && s'.procs[id].context.result.value.outcome == Blocked
  {
    var s := Run(l, moves);
    RunKeepsInv(l, moves);
    var d := s.dispatches[i];
    assert DispatchOk(s, d) && ProcOk(s.ledger, s.trouble, s.procs[d.turn]) && ProcOk(s.ledger, s.trouble, s.procs[id]);
    assert OwnLegacyKey(s.procs[d.turn].context) == OwnLegacyKey(s.procs[id].context);
  }

  // ---------------------------------------------------------------------
  // A turn that runs alone is the engine's own turn
  // ---------------------------------------------------------------------

  function Exec(s: System, moves: seq<Move>): System
    decreases |moves|
  {
    if moves == [] then s else Exec(Step(s, moves[0]), moves[1..])
  }

  lemma {:induction false} ExecSnoc(s: System, moves: seq<Move>, move: Move)
    ensures Exec(s, moves + [move]) == Step(Exec(s, moves), move)
    decreases |moves|
  {
    if moves == [] {
      assert (moves + [move])[1..] == [];
    } else {
      assert (moves + [move])[1..] == moves[1..] + [move];
      ExecSnoc(Step(s, moves[0]), moves[1..], move);
    }
  }

  lemma {:induction false} RunIsExec(l: Ledger, moves: seq<Move>)
    ensures Run(l, moves) == Exec(System(l, map[], [], CALM), moves)
  {
    if moves != [] {
      RunIsExec(l, moves[..|moves| - 1]);
      ExecSnoc(System(l, map[], [], CALM), moves[..|moves| - 1], moves[|moves| - 1]);
      assert moves == moves[..|moves| - 1] + [moves[|moves| - 1]];
    }
  }

  /** The remaining moves of turn 0 from phase `i` on. */
  function SoloMoves(i: nat, p: Ports): seq<Move>
    decreases 5 - i
  {
    if i < 5 then [Advance(0, p)] + SoloMoves(i + 1, p) else [CallExecutor(0), Settle(0, p.executor, p.faults)]
  }

  lemma {:induction false} DoneStaysDone(s: System, i: nat, p: Ports)
    requires 0 in s.procs && Done(s.procs[0].context)
    ensures Exec(s, SoloMoves(i, p)) == s
    decreases 5 - i
  {
    var moves := SoloMoves(i, p);
    if i < 5 {
      assert moves[1..] == SoloMoves(i + 1, p);
      DoneStaysDone(s, i + 1, p);
    } else {
      assert moves[1..] == [Settle(0, p.executor, p.faults)] && moves[1..][1..] == [];
      assert Step(s, CallExecutor(0)) == s && Step(s, Settle(0, p.executor, p.faults)) == s;
      assert Exec(s, moves[1..]) == Exec(s, moves[1..][1..]);
    }
  }

  lemma SoloFinish(s: System, p: Ports)
    requires s.procs.Keys == {0} && s.dispatches == []
    requires var q := s.procs[0];
             q.phase == 5 && !q.awaiting && q.answer == None && !Done(q.context) && PhaseReady(5, q.context)
    ensures var s', t := Exec(s, SoloMoves(5, p)), Phase(5, Turn(s.procs[0].context, s.ledger, []), p);
            && 0 in s'.procs && s'.procs[0].context == t.context && s'.ledger == t.ledger
            && |s'.dispatches| == |t.calls|
  {
    var moves := SoloMoves(5, p);
    assert moves[1..] == [Settle(0, p.executor, p.faults)] && moves[1..][1..] == [];
    var s1 := Step(s, CallExecutor(0));
    var s2 := Step(s1, Settle(0, p.executor, p.faults));
    assert Exec(s, moves) == Exec(s1, moves[1..]) == Exec(s2, moves[1..][1..]) == s2;
  }

  /** Turn 0 is alone and about to run phase `i`. */
  predicate SoloAt(i: nat, s: System) {
    && s.procs.Keys == {0} && s.dispatches == []
    && var q := s.procs[0];
    && q.phase == i && !q.awaiting && q.answer == None && !Done(q.context) && PhaseReady(i, q.context)
  }

  lemma SoloAdvance(i: nat, s: System, p: Ports)
    requires i < 5 && SoloAt(i, s)
    ensures var s', t := Step(s, Advance(0, p)), Phase(i, Turn(s.procs[0].context, s.ledger, []), p);
            && 0 in s'.procs && s'.procs[0].context == t.context && s'.ledger == t.ledger && t.calls == []
            && s'.dispatches == [] && (Done(t.context) || SoloAt(i + 1, s'))
  {
    PhaseKeepsReady(i, Turn(s.procs[0].context, s.ledger, []), p);
  }

  lemma {:induction false} SoloFrom(i: nat, s: System, p: Ports)
    requires i <= 5 && SoloAt(i, s)
    ensures var s', t := Exec(s, SoloMoves(i, p)), RunFrom(i, Turn(s.procs[0].context, s.ledger, []), p);
            && 0 in s'.procs && s'.procs[0].context == t.context && s'.ledger == t.ledger
            && |s'.dispatches| == |t.calls|
    decreases 5 - i
  {
    if i == 5 {
      PhaseKeepsReady(5, Turn(s.procs[0].context, s.ledger, []), p);
      SoloFinish(s, p);
    } else {
      var moves, s1 := SoloMoves(i, p), Step(s, Advance(0, p));
      assert moves[0] == Advance(0, p) && moves[1..] == SoloMoves(i + 1, p);
      SoloAdvance(i, s, p);
      if Done(s1.procs[0].context) {
        DoneStaysDone(s1, i + 1, p);
      } else {
        SoloFrom(i + 1, s1, p);
      }
    }
  }

  /** Scheduled alone, a turn of this system is exactly the turn the engine runs in place. */
  lemma SoloTurnIsEngineTurn(input: TurnInput, action: Option<Action>, l: Ledger, p: Ports)
    ensures var s, t := Run(l, [Begin(0, input, action)] + SoloMoves(0, p)), RunTurn(input, action, l, p);
            && 0 in s.procs && s.procs[0].context == t.context && s.ledger == t.ledger
            && |s.dispatches| == |t.calls|
  {
    var moves := [Begin(0, input, action)] + SoloMoves(0, p);
    RunIsExec(l, moves);
    assert moves[1..] == SoloMoves(0, p);
    var s0 := System(l, map[], [], CALM);
    SoloFrom(0, Step(s0, Begin(0, input, action)), p);
  }
}
