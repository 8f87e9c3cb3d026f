/** The run-trace observer: what an exported commit stream says about turns and runs. */
module RunTrace {
  import opened Basics
  import opened DedupeLedger
  import opened DispatchPolicy
  import opened TurnEngine
  import opened TurnGate

  function InferOutcome(types: seq<string>): Option<OutcomeKind> {
    if "turn.recovery_pending" in types || "turn.effect_unknown" in types then Some(RecoveryNeeded)
    else if "turn.dispatch_acknowledged" in types || "turn.effect_recorded" in types || "turn.dispatched" in types then
      Some(DispatchedOk)
    else if "turn.dispatch_blocked" in types then Some(Blocked)
    else if "turn.completed_noop" in types then Some(Noop)
    else None
  }

  datatype DedupeOutcome = AcceptedOnce | Degraded | DuplicateKey

  function InferDedupe(types: seq<string>): Option<DedupeOutcome> {
    if "turn.dispatched" in types then Some(if "turn.dedupe_degraded" in types then Degraded else AcceptedOnce)
    else if "turn.dispatch_blocked" in types then Some(DuplicateKey)
    else None
  }

  // ---------------------------------------------------------------------
  // The observer recovers what the engine reported
  // ---------------------------------------------------------------------

  function Name(s: TurnState): string {
    match s
    case Collecting => "turn.collecting"
    case IntentCommitted => "turn.intent_committed"
    case Reasoning => "turn.reasoning"
    case ReasoningFailed => "turn.reasoning_failed"
    case SnapshotBuilt => "turn.snapshot_built"
    case AdmissionChecked => "turn.admission_checked"
    case DispatchBlocked => "turn.dispatch_blocked"
    case DedupeDegraded => "turn.dedupe_degraded"
    case TurnDispatched => "turn.dispatched"
    case DispatchAcknowledged => "turn.dispatch_acknowledged"
    case EffectUnknown => "turn.effect_unknown"
    case RecoveryPending => "turn.recovery_pending"
    case CompletedNoop => "turn.completed_noop"
  }

  /** The event types a turn's commit carries. */
  function Exported(es: seq<TurnEvent>): seq<string> {
    seq(|es|, i requires 0 <= i < |es| => Name(es[i].state))
  }

  /** Length, sixth character and eighth character tell all state names apart. */
  function Mark(s: string): (int, char, char)
    requires |s| > 8
  {
    (|s|, s[5], s[7])
  }

  lemma NamesAreMarked(s: TurnState)
    ensures |Name(s)| > 8
    ensures Mark(Name(s)) == match s
                             case Collecting => (15, 'c', 'l')
                             case IntentCommitted => (21, 'i', 't')
                             case Reasoning => (14, 'r', 'a')
                             case ReasoningFailed => (21, 'r', 'a')
                             case SnapshotBuilt => (19, 's', 'a')
                             case AdmissionChecked => (22, 'a', 'm')
                             case DispatchBlocked => (21, 'd', 's')
                             case DedupeDegraded => (20, 'd', 'd')
                             case TurnDispatched => (15, 'd', 's')
                             case DispatchAcknowledged => (26, 'd', 's')
                             case EffectUnknown => (19, 'e', 'f')
                             case RecoveryPending => (21, 'r', 'c')
                             case CompletedNoop => (19, 'c', 'm')
  {
  }

  lemma NamesAreDistinct(s: TurnState, t: TurnState)
    ensures Name(s) == Name(t) ==> s == t
    ensures Name(s) != "turn.effect_recorded"
  {
    NamesAreMarked(s);
    NamesAreMarked(t);
    assert Mark("turn.effect_recorded") == (20, 'e', 'f');
  }

  /** A state's type is exported exactly when the state was emitted. */
  lemma ExportedIff(es: seq<TurnEvent>, s: TurnState)
    ensures Name(s) in Exported(es) <==> Emits(es, s)
    ensures "turn.effect_recorded" !in Exported(es)
  {
    forall i | 0 <= i < |es| ensures Exported(es)[i] != "turn.effect_recorded" && (Exported(es)[i] == Name(s) ==> es[i].state == s) {
      NamesAreDistinct(es[i].state, s);
    }
    if Emits(es, s) {
      var i :| 0 <= i < |es| && es[i].state == s;
      assert Exported(es)[i] == Name(s);
    }
  }

  /** States the automaton can still be in after `s`. */
  predicate CanFollow(s: TurnState, t: TurnState) {
    match s
    case TurnDispatched => t in {TurnDispatched, DispatchAcknowledged, EffectUnknown, RecoveryPending}
    case DispatchAcknowledged => t == DispatchAcknowledged
    case EffectUnknown => t in {EffectUnknown, RecoveryPending}
    case RecoveryPending => t == RecoveryPending
    case DispatchBlocked => t == DispatchBlocked
    case CompletedNoop => t == CompletedNoop
    case _ => true
  }

  lemma {:induction false} PathRespectsOrder(es: seq<TurnEvent>, i: nat, j: nat)
    requires IsPath(es) && i <= j < |es|
    ensures CanFollow(es[i].state, es[j].state)
  {
    if i < j {
      PathRespectsOrder(es, i, j - 1);
      assert es[j].state in Successors(es[j - 1].state);
    }
  }

  lemma EmittedBeforeEnd(es: seq<TurnEvent>, s: TurnState)
    requires IsPath(es)
    ensures Emits(es, s) ==> CanFollow(s, Last(es))
    ensures Emits(es, Last(es))
  {
    if Emits(es, s) {
      var i :| 0 <= i < |es| && es[i].state == s;
      PathRespectsOrder(es, i, |es| - 1);
    }
    assert es[|es| - 1].state == Last(es);
  }

  /** What the observer infers, told by the states emitted instead of their names. */
  lemma OutcomeReadsBack(es: seq<TurnEvent>)
    ensures InferOutcome(Exported(es)) ==
            if Emits(es, RecoveryPending) || Emits(es, EffectUnknown) then Some(RecoveryNeeded)
            else if Emits(es, DispatchAcknowledged) || Emits(es, TurnDispatched) then Some(DispatchedOk)
            else if Emits(es, DispatchBlocked) then Some(Blocked)
            else if Emits(es, CompletedNoop) then Some(Noop)
            else None
  {
    ExportedIff(es, RecoveryPending);
    ExportedIff(es, EffectUnknown);
    ExportedIff(es, DispatchAcknowledged);
    ExportedIff(es, TurnDispatched);
    ExportedIff(es, DispatchBlocked);
    ExportedIff(es, CompletedNoop);
  }

  /** Reading a complete path recovers the outcome of its last state. */
  lemma PathOutcome(es: seq<TurnEvent>)
    requires IsPath(es) && OutcomeOf(Last(es)).Some?
    ensures InferOutcome(Exported(es)) == OutcomeOf(Last(es))
  {
    OutcomeReadsBack(es);
    EmittedBeforeEnd(es, RecoveryPending);
    EmittedBeforeEnd(es, EffectUnknown);
    EmittedBeforeEnd(es, DispatchAcknowledged);
    EmittedBeforeEnd(es, TurnDispatched);
    EmittedBeforeEnd(es, DispatchBlocked);
  }

  /** For every turn that returns, the exported events alone give back its outcome. */
  lemma ObserverRecoversOutcome(input: TurnInput, action: Option<Action>, l: Ledger, p: Ports)
    ensures var r := RunTurn(input, action, l, p).context.result;
            r.Some? ==> InferOutcome(Exported(r.value.emitted)) == Some(r.value.outcome)
  {
    TurnFollowsAutomaton(input, action, l, p);
    var c := RunTurn(input, action, l, p).context;
    if c.result.Some? {
      PathOutcome(c.emitted);
    }
  }

  /** For every turn that reached the executor, the inferred dedupe outcome is "degraded" exactly
      when the reservation raised, and "accepted" otherwise. */
  lemma ObserverRecoversDedupe(input: TurnInput, action: Option<Action>, l: Ledger, p: Ports)
    ensures var t := RunTurn(input, action, l, p);
            t.calls != [] ==>
              InferDedupe(Exported(t.context.emitted)) == Some(if p.faults.reserve then Degraded else AcceptedOnce)
  {
    DegradedIsAnnounced(input, action, l, p);
    DedupeReadsBack(RunTurn(input, action, l, p).context.emitted);
  }

  lemma DedupeReadsBack(es: seq<TurnEvent>)
    ensures InferDedupe(Exported(es)) ==
            if Emits(es, TurnDispatched) then Some(if Emits(es, DedupeDegraded) then Degraded else AcceptedOnce)
            else if Emits(es, DispatchBlocked) then Some(DuplicateKey)
            else None
  {
    ExportedIff(es, TurnDispatched);
    ExportedIff(es, DedupeDegraded);
    ExportedIff(es, DispatchBlocked);
  }

  // ---------------------------------------------------------------------
  // Accumulating a run
  // ---------------------------------------------------------------------

  datatype Commit = Commit(createdAt: string, types: seq<string>, action: Option<Action>)

  datatype TurnTrace = TurnTrace(
    actionId: string,
    actionType: string,
    effectClass: string,
    outcome: Option<OutcomeKind>,
    dedupe: Option<DedupeOutcome>,
    types: seq<string>,
    committedAt: string)

  datatype Trace = Trace(
    turns: seq<TurnTrace>,
    lifecycle: seq<string>,
    failures: nat,
    terminal: Option<string>,
    firstCommitAt: Option<string>,
    lastCommitAt: Option<string>)

  const NO_TRACE := Trace([], [], 0, None, None, None)

  function TurnOf(c: Commit): TurnTrace
    requires c.action.Some?
  {
    TurnTrace(c.action.value.actionId, c.action.value.actionType, c.action.value.effectClass,
              InferOutcome(c.types), InferDedupe(c.types), c.types, c.createdAt)
  }

  /** `completed` or `aborted` for a terminal event type. */
  function TerminalName(t: string): Option<string> {
    if t == "run.completed" then Some("completed")
    else if t == "run.aborted" then Some("aborted")
    else None
  }

  function NoteLifecycle(seen: seq<string>, types: seq<string>): seq<string> {
    if types == [] then seen
    else
      var before, t := NoteLifecycle(seen, types[..|types| - 1]), types[|types| - 1];
      if StartsWith(t, "run.") && t !in before then before + [t] else before
  }

  function NoteTerminal(seen: Option<string>, types: seq<string>): Option<string> {
    if types == [] then seen
    else
      var before := NoteTerminal(seen, types[..|types| - 1]);
      if before.Some? then before else TerminalName(types[|types| - 1])
  }

  function Absorb(t: Trace, c: Commit): Trace {
    Trace(if c.action.Some? then t.turns + [TurnOf(c)] else t.turns,
          NoteLifecycle(t.lifecycle, c.types),
          t.failures + (if c.action.Some? && TurnOf(c).outcome == Some(RecoveryNeeded) then 1 else 0),
          NoteTerminal(t.terminal, c.types),
          if t.firstCommitAt.Some? then t.firstCommitAt else Some(c.createdAt),
          Some(c.createdAt))
  }

  class RunTraceRecord {
    var turns: seq<TurnTrace>
    var lifecycle: seq<string>
    var failures: nat
    var terminal: Option<string>
    var firstCommitAt: Option<string>
    var lastCommitAt: Option<string>

    function Value(): Trace
      reads this
    {
      Trace(turns, lifecycle, failures, terminal, firstCommitAt, lastCommitAt)
    }

    constructor ()
      ensures Value() == NO_TRACE
    {
      turns, lifecycle, failures, terminal, firstCommitAt, lastCommitAt := [], [], 0, None, None, None;
    }

    method AbsorbCommit(c: Commit)
      modifies this
      ensures Value() == Absorb(old(Value()), c)
    {
      if firstCommitAt.None? {
        firstCommitAt := Some(c.createdAt);
      }
      lastCommitAt := Some(c.createdAt);
      for i := 0 to |c.types|
        modifies this`lifecycle
        invariant lifecycle == NoteLifecycle(old(lifecycle), c.types[..i])
      {
        assert c.types[..i + 1][..i] == c.types[..i];
        if StartsWith(c.types[i], "run.") && c.types[i] !in lifecycle {
          lifecycle := lifecycle + [c.types[i]];
        }
      }
      for i := 0 to |c.types|
        modifies this`terminal
        invariant terminal == NoteTerminal(old(terminal), c.types[..i])
      {
        assert c.types[..i + 1][..i] == c.types[..i];
        if terminal.None? && TerminalName(c.types[i]).Some? {
          terminal := TerminalName(c.types[i]);
        }
      }
      assert c.types[..|c.types|] == c.types;
      if c.action.Some? {
        var turn := TurnOf(c);
        turns := turns + [turn];
        if turn.outcome == Some(RecoveryNeeded) {
          failures := failures + 1;
        }
      }
    }
  }

  function AbsorbAll(cs: seq<Commit>): Trace {
    if cs == [] then NO_TRACE else Absorb(AbsorbAll(cs[..|cs| - 1]), cs[|cs| - 1])
  }

  /** The whole event stream, commit boundaries forgotten. */
  function Flat(cs: seq<Commit>): seq<string> {
    if cs == [] then [] else Flat(cs[..|cs| - 1]) + cs[|cs| - 1].types
  }

  function Failures(turns: seq<TurnTrace>): nat {
    if turns == [] then 0
    else Failures(turns[..|turns| - 1]) + (if turns[|turns| - 1].outcome == Some(RecoveryNeeded) then 1 else 0)
  }

  /** The commits that carry an action, in order. */
  function Turns(cs: seq<Commit>): seq<TurnTrace> {
    if cs == [] then []
    else Turns(cs[..|cs| - 1]) + (if cs[|cs| - 1].action.Some? then [TurnOf(cs[|cs| - 1])] else [])
  }

  /** The `run.*` types at the positions where they occur for the first time. */
  function FirstOccurrences(types: seq<string>): seq<string> {
    if types == [] then []
    else
      var front, t := types[..|types| - 1], types[|types| - 1];
      FirstOccurrences(front) + (if StartsWith(t, "run.") && t !in front then [t] else [])
  }

  /** The earliest terminal event of the stream. */
  function FirstTerminal(types: seq<string>): Option<string> {
    if types == [] then None
    else if TerminalName(types[0]).Some? then TerminalName(types[0])
    else FirstTerminal(types[1..])
  }

  lemma {:induction false} OccurrencesListed(types: seq<string>, t: string)
    ensures t in FirstOccurrences(types) <==> StartsWith(t, "run.") && t in types
  {
    if types != [] {
      var front, last := types[..|types| - 1], types[|types| - 1];
      OccurrencesListed(front, t);
      OccurrencesListed(front, last);
      assert types == front + [last];
    }
  }

  lemma OccurrencesSnoc(types: seq<string>, t: string)
    ensures FirstOccurrences(types + [t]) == FirstOccurrences(types) + (if StartsWith(t, "run.") && t !in types then [t] else [])
  {
    assert (types + [t])[..|types|] == types;
  }

  lemma NoteSnoc(seen: seq<string>, types: seq<string>, t: string)
    ensures var before := NoteLifecycle(seen, types);
            NoteLifecycle(seen, types + [t]) == if StartsWith(t, "run.") && t !in before then before + [t] else before
  {
    assert (types + [t])[..|types|] == types;
  }

  lemma {:induction false} LifecycleOverCommits(flat: seq<string>, types: seq<string>)
    ensures NoteLifecycle(FirstOccurrences(flat), types) == FirstOccurrences(flat + types)
  {
    if types == [] {
      assert flat + types == flat;
    } else {
      var front, t := types[..|types| - 1], types[|types| - 1];
      var all := flat + front;
      LifecycleOverCommits(flat, front);
      assert types == front + [t] && flat + types == all + [t];
      NoteSnoc(FirstOccurrences(flat), front, t);
      OccurrencesSnoc(all, t);
      OccurrencesListed(all, t);
      assert FirstOccurrences(all) + [] == FirstOccurrences(all);
    }
  }

  lemma {:induction false} TerminalSplits(a: seq<string>, b: seq<string>)
    ensures FirstTerminal(a + b) == if FirstTerminal(a).Some? then FirstTerminal(a) else FirstTerminal(b)
  {
    if a == [] {
      assert a + b == b;
    } else {
      assert (a + b)[1..] == a[1..] + b;
      if TerminalName(a[0]).None? {
        TerminalSplits(a[1..], b);
      }
    }
  }

  lemma {:induction false} TerminalOverCommits(flat: seq<string>, types: seq<string>)
    ensures NoteTerminal(FirstTerminal(flat), types) == FirstTerminal(flat + types)
  {
    if types == [] {
      assert flat + types == flat;
    } else {
      var front, t := types[..|types| - 1], types[|types| - 1];
      TerminalOverCommits(flat, front);
      assert flat + types == (flat + front) + [t];
      TerminalSplits(flat + front, [t]);
      assert [t][1..] == [];
    }
  }

  /** Over any commits: the turns are those of the action commits, failures count the
      recovery-pending ones, the terminal state is that of the first terminal event of the whole
      stream, and the lifecycle list keeps the first occurrence of every `run.*` type. */
  lemma {:induction false} TraceSummarisesStream(cs: seq<Commit>)
    ensures var t := AbsorbAll(cs);
            && t.turns == Turns(cs) && t.failures == Failures(Turns(cs))
            && t.terminal == FirstTerminal(Flat(cs))
            && t.lifecycle == FirstOccurrences(Flat(cs))
  {
    if cs != [] {
      var front, c := cs[..|cs| - 1], cs[|cs| - 1];
      TraceSummarisesStream(front);
      LifecycleOverCommits(Flat(front), c.types);
      TerminalOverCommits(Flat(front), c.types);
      if c.action.Some? {
        assert (Turns(front) + [TurnOf(c)])[..|Turns(front)|] == Turns(front);
      }
    }
  }
}
