/** One turn of the kernel: six phases over a context, one shared dedupe store. */
module TurnEngine {
  import opened Basics
  import opened Decimal
  import opened DedupeLedger
  import opened DispatchPolicy

  datatype TurnState =
    | Collecting | IntentCommitted | Reasoning | ReasoningFailed | SnapshotBuilt | AdmissionChecked
    | DispatchBlocked | DedupeDegraded | TurnDispatched | DispatchAcknowledged | EffectUnknown
    | RecoveryPending | CompletedNoop

  datatype OutcomeKind = Noop | Blocked | DispatchedOk | RecoveryNeeded

  datatype TurnEvent = TurnEvent(state: TurnState, reason: Option<string>, scopes: Option<(string, string)>)

  datatype TurnInput = TurnInput(runId: string, throughOffset: int, basedOnOffset: int, trigger: string)

  datatype Identity = Identity(decisionRef: string, fingerprint: string, intentRef: string, dispatchKey: string)

  datatype TurnResult = TurnResult(
    state: TurnState,
    outcome: OutcomeKind,
    decisionRef: string,
    fingerprint: string,
    dispatchKey: Option<string>,
    intentRef: Option<string>,
    hostKind: Option<HostKind>,
    emitted: seq<TurnEvent>)

  /** The mutable carrier passed between phases; `raised` means an exception left the turn. */
  datatype Context = Context(
    input: TurnInput,
    action: Option<Action>,
    emitted: seq<TurnEvent>,
    result: Option<TurnResult>,
    identity: Option<Identity>,
    snapshotHash: Option<string>,
    admittedEnvelope: Option<Envelope>,
    policy: Option<Policy>,
    envelope: Option<Envelope>,
    dedupeAvailable: bool,
    legacyAlias: Option<string>,
    raised: bool)

  // What the turn's collaborators answer; every answer is arbitrary.
  datatype ReasoningAnswer = NoLoop | LoopRaised | LoopReturned(actions: seq<Action>)
  datatype SnapshotAnswer = Built(snapshotHash: string, contentHash: string) | Rejected | SnapshotRaised
  datatype AdmissionAnswer = Decided(admitted: bool, envelope: Option<Envelope>) | AdmissionRaised
  datatype ExecutorAnswer = Acks | DoesNotAck | ExecutorRaised | NotADict | Cancelled
  datatype Faults = Faults(get: bool, reserve: bool, alias: bool, settle: bool, aliasSettle: bool, errorName: string)

  const NO_FAULTS := Faults(false, false, false, false, false, "")

  datatype Ports = Ports(
    reasoning: ReasoningAnswer,
    snapshot: SnapshotAnswer,
    admission: AdmissionAnswer,
    fold: Fold,
    executor: ExecutorAnswer,
    faults: Faults)

  // ---------------------------------------------------------------------
  // Identity
  // ---------------------------------------------------------------------

  function LegacyKey(runId: string, actionId: string, offset: int): string {
    runId + ":" + actionId + ":" + PrintInt(offset)
  }

  /** `dispatch:{run_id}:{action_id}:{content_hash}`, for any content hash. */
  function PolicyKey(runId: string, actionId: string, contentHash: string): string {
    "dispatch:" + runId + ":" + actionId + ":" + contentHash
  }

  function BuildIdentity(input: TurnInput, a: Action, contentHash: Option<string>): Identity {
    Identity("decision:" + input.runId + ":" + PrintInt(input.basedOnOffset),
             input.runId + ":" + input.trigger + ":" + a.actionId + ":" + PrintInt(input.basedOnOffset),
             "intent:" + a.actionId + ":" + PrintInt(input.throughOffset),
             match contentHash
             case Some(h) => PolicyKey(input.runId, a.actionId, h)
             case None => LegacyKey(input.runId, a.actionId, input.basedOnOffset))
  }

  /** A turn's policy key is never its own legacy key, whatever the ids contain. */
  lemma KeysDiffer(runId: string, actionId: string, offset: int, contentHash: string)
    ensures LegacyKey(runId, actionId, offset) != PolicyKey(runId, actionId, contentHash)
  {
    var legacy, policy := LegacyKey(runId, actionId, offset), PolicyKey(runId, actionId, contentHash);
    var digits := PrintInt(offset);
    if |legacy| == |policy| {
      assert |"dispatch:"| == 9 && |digits| == |contentHash| + 9;
      var at := |policy| - |contentHash| - 1;
      assert policy[at] == ':';
      assert legacy[at] == digits[|digits| - |contentHash| - 1];
    }
  }

  // ---------------------------------------------------------------------
  // Phases
  // ---------------------------------------------------------------------

  function Ev(s: TurnState): TurnEvent { TurnEvent(s, None, None) }

  function Start(input: TurnInput, action: Option<Action>): Context {
    Context(input, action, [Ev(Collecting), Ev(IntentCommitted)],
            None, None, None, None, None, None, true, None, false)
  }

  function Emit(c: Context, s: TurnState): Context { c.(emitted := c.emitted + [Ev(s)]) }

  function Raise(c: Context): Context { c.(raised := true) }

  /** Set a terminal result that reports the events emitted so far. */
  function Finish(c: Context, s: TurnState, o: OutcomeKind): Context
    requires c.identity.Some?
  {
    var id := c.identity.value;
    c.(result := Some(TurnResult(s, o, id.decisionRef, id.fingerprint, Some(id.dispatchKey), Some(id.intentRef),
                                 if c.policy.Some? then Some(c.policy.value.hostKind) else None, c.emitted)))
  }

  function NoopWithoutAction(c: Context): Context {
    var c' := Emit(c, CompletedNoop);
    c'.(result := Some(TurnResult(CompletedNoop, Noop,
                                  "decision:" + c.input.runId + ":" + PrintInt(c.input.basedOnOffset),
                                  c.input.runId + ":" + c.input.trigger + ":noop:" + PrintInt(c.input.basedOnOffset),
                                  None, None, None, c'.emitted)))
  }

  function PhaseReasoning(c: Context, p: Ports): Context {
    if c.action.Some? then c
    else match p.reasoning
      case NoLoop => NoopWithoutAction(c)
      case LoopRaised => NoopWithoutAction(Emit(Emit(c, Reasoning), ReasoningFailed))
      case LoopReturned(actions) =>
        var c' := Emit(c, Reasoning);
        if actions == [] then NoopWithoutAction(c') else c'.(action := Some(actions[0]))
  }

  function PhaseSnapshot(c: Context, p: Ports): Context
    requires c.action.Some?
  {
    var a := c.action.value;
    match p.snapshot
    case Built(hash, content) =>
      Emit(c.(identity := Some(BuildIdentity(c.input, a, Some(content))), snapshotHash := Some(hash)), SnapshotBuilt)
    case Rejected =>
      Finish(Emit(c.(identity := Some(BuildIdentity(c.input, a, None))), CompletedNoop), CompletedNoop, Noop)
    case SnapshotRaised => Raise(c.(identity := Some(BuildIdentity(c.input, a, None))))
  }

  function PhaseAdmission(c: Context, p: Ports): Context
    requires c.identity.Some?
  {
    match p.admission
    case AdmissionRaised => Raise(c)
    case Decided(admitted, envelope) =>
      var c' := Emit(c.(admittedEnvelope := envelope), AdmissionChecked);
      if admitted then c' else Finish(Emit(c', DispatchBlocked), DispatchBlocked, Blocked)
  }

  function PhasePolicy(c: Context, p: Ports): Context
    requires c.action.Some? && c.identity.Some?
  {
    var policy := ResolvePolicy(p.fold, c.action.value);
    var c' := c.(policy := Some(policy));
    if policy.shouldBlock then
      Finish(c'.(emitted := c.emitted + [TurnEvent(DispatchBlocked, policy.blockReason, None)]), DispatchBlocked, Blocked)
    else c'
  }

  function HostName(h: HostKind): string {
    match h
    case LocalCli => "local_cli"
    case LocalProcess => "local_process"
    case RemoteService => "remote_service"
    case CliProcess => "cli_process"
    case InProcessPython => "in_process_python"
  }

  /** The admission envelope never chooses the key or the fingerprint: the turn identity does. */
  function ResolveEnvelope(proposed: Option<Envelope>, id: Identity, a: Action, hash: string, host: HostKind): Envelope {
    match proposed
    case Some(e) => e.(key := id.dispatchKey, fingerprint := id.fingerprint)
    case None => Envelope(id.dispatchKey, id.fingerprint, 1, a.effectClass, hash, HostName(host), None, None, None)
  }

  function DowngradedScope(h: HostKind): string {
    if h == RemoteService then "irreversible_write" else "compensatable_write"
  }

  predicate DedupeReady(c: Context) {
    c.action.Some? && c.identity.Some? && c.snapshotHash.Some? && c.policy.Some?
  }

  function OwnLegacyKey(c: Context): string
    requires c.action.Some?
  {
    LegacyKey(c.input.runId, c.action.value.actionId, c.input.basedOnOffset)
  }

  function OwnEnvelope(c: Context): Envelope
    requires DedupeReady(c)
  {
    ResolveEnvelope(c.admittedEnvelope, c.identity.value, c.action.value, c.snapshotHash.value, c.policy.value.hostKind)
  }

  function BlockDispatch(c: Context): Context
    requires c.identity.Some?
  {
    Finish(Emit(c, DispatchBlocked), DispatchBlocked, Blocked)
  }

  /** Reservation failed inside the store: only idempotent writes go on, with a weaker scope. */
  function Degrade(c: Context, errorName: string): Context
    requires DedupeReady(c)
  {
    if c.action.value.effectClass != "idempotent_write" then Raise(c.(envelope := Some(OwnEnvelope(c))))
    else
      var scope := DowngradedScope(c.policy.value.hostKind);
      Emit(c.(envelope := Some(OwnEnvelope(c).(effectScope := scope)),
              dedupeAvailable := false,
              emitted := c.emitted + [TurnEvent(DedupeDegraded, Some(errorName), Some(("idempotent_write", scope)))]),
           TurnDispatched)
  }

  /** Phase 5 has no await, so it is one atomic step on the store. */
  function PhaseDedupe(c: Context, l: Ledger, f: Faults): (Context, Ledger)
    requires DedupeReady(c)
  {
    var legacy, key := OwnLegacyKey(c), c.identity.value.dispatchKey;
    if legacy != key && !f.get && legacy in l then (BlockDispatch(c), l)
    else if f.reserve then (Degrade(c, f.errorName), l)
    else
      var own := OwnEnvelope(c);
      var step := Apply(l, ReserveAndDispatch(own, None));
      var c' := c.(envelope := Some(own), dedupeAvailable := true);
      if step.outcome != Accepted then (BlockDispatch(c'), l)
      else if legacy == key || f.alias then (Emit(c', TurnDispatched), step.ledger)
      else
        var mirror := Apply(step.ledger, ReserveAndDispatch(own.(key := legacy), own.peerOperationId));
        (Emit(if mirror.outcome == Accepted then c'.(legacyAlias := Some(legacy)) else c', TurnDispatched), mirror.ledger)
  }

  predicate ExecuteReady(c: Context) {
    DedupeReady(c) && c.envelope.Some?
  }

  /** A store call whose failure the engine suppresses. */
  function Suppressed(l: Ledger, call: DedupeLedger.Call, fails: bool): Ledger {
    if fails then l else Apply(l, call).ledger
  }

  function SettleAlias(c: Context, l: Ledger, ack: bool, f: Faults): Ledger {
    match c.legacyAlias
    case None => l
    case Some(alias) => Suppressed(l, if ack then MarkAcknowledged(alias, None) else MarkUnknownEffect(alias), f.aliasSettle)
  }

  /** The executor returned a dict: settle both keys, then build the result. */
  function SettleReturned(c: Context, l: Ledger, ack: bool, f: Faults): (Context, Ledger)
    requires ExecuteReady(c)
  {
    var key := c.identity.value.dispatchKey;
    var own := Apply(l, if ack then MarkAcknowledged(key, None) else MarkUnknownEffect(key));
    if c.dedupeAvailable && (f.settle || own.outcome != Marked) then (Raise(c), l)
    else
      var l' := if c.dedupeAvailable then SettleAlias(c, own.ledger, ack, f) else l;
      (if ack then Finish(Emit(c, DispatchAcknowledged), DispatchAcknowledged, DispatchedOk)
       else Finish(Emit(Emit(c, EffectUnknown), RecoveryPending), RecoveryPending, RecoveryNeeded),
       l')
  }

  /** The part of phase 6 after the executor call. */
  function PhaseSettle(c: Context, l: Ledger, answer: ExecutorAnswer, f: Faults): (Context, Ledger)
    requires ExecuteReady(c)
  {
    match answer
    case Acks => SettleReturned(c, l, true, f)
    case DoesNotAck => SettleReturned(c, l, false, f)
    case ExecutorRaised =>
      var l' := Suppressed(l, MarkUnknownEffect(c.identity.value.dispatchKey), f.settle);
      (Raise(c), if c.dedupeAvailable then SettleAlias(c, l', false, f) else l)
    case NotADict => (Raise(c), l)
    case Cancelled => (Raise(c), l)
  }

  // ---------------------------------------------------------------------
  // One whole turn
  // ---------------------------------------------------------------------

  predicate Done(c: Context) { c.result.Some? || c.raised }

  /** What the source asserts at the head of phase `i` (0-based). */
  predicate PhaseReady(i: nat, c: Context) {
    && (1 <= i ==> c.action.Some?)
    && (2 <= i ==> c.identity.Some? && c.snapshotHash.Some?)
    && (4 <= i ==> c.policy.Some?)
    && (5 <= i ==> c.envelope.Some?)
  }

  datatype Turn = Turn(context: Context, ledger: Ledger, calls: seq<Envelope>)

  /** Phase `i`; the executor is called only by phase 5. */
  function Phase(i: nat, t: Turn, p: Ports): Turn
    requires i < 6 && PhaseReady(i, t.context)
  {
    match i
    case 0 => t.(context := PhaseReasoning(t.context, p))
    case 1 => t.(context := PhaseSnapshot(t.context, p))
    case 2 => t.(context := PhaseAdmission(t.context, p))
    case 3 => t.(context := PhasePolicy(t.context, p))
    case 4 =>
      var (c, l) := PhaseDedupe(t.context, t.ledger, p.faults);
      t.(context := c, ledger := l)
    case _ =>
      var (c, l) := PhaseSettle(t.context, t.ledger, p.executor, p.faults);
      Turn(c, l, t.calls + [t.context.envelope.value])
  }

  lemma PhaseKeepsReady(i: nat, t: Turn, p: Ports)
    requires i < 6 && PhaseReady(i, t.context) && !Done(t.context)
    ensures var t' := Phase(i, t, p); Done(t'.context) || (i < 5 && PhaseReady(i + 1, t'.context))
  {
    if i < 4 {
      PreparationKeepsReady(i, t.context, p);
    } else {
      StorePhasesKeepReady(t.context, t.ledger, p);
    }
  }

  lemma PreparationKeepsReady(i: nat, c: Context, p: Ports)
    requires i < 4 && PhaseReady(i, c) && !Done(c)
    ensures var c' := Phase(i, Turn(c, map[], []), p).context; Done(c') || PhaseReady(i + 1, c')
  {
  }

  lemma StorePhasesKeepReady(c: Context, l: Ledger, p: Ports)
    requires PhaseReady(4, c) && !Done(c)
    ensures var c' := PhaseDedupe(c, l, p.faults).0; Done(c') || PhaseReady(5, c')
    ensures PhaseReady(5, c) ==> Done(PhaseSettle(c, l, p.executor, p.faults).0)
  {
  }

  /** The dispatcher: run phases from `i` until one of them ends the turn. */
  function RunFrom(i: nat, t: Turn, p: Ports): (r: Turn)
    requires i < 6 && PhaseReady(i, t.context) && !Done(t.context)
    ensures Done(r.context)
    decreases 6 - i
  {
    PhaseKeepsReady(i, t, p);
    var t' := Phase(i, t, p);
    if Done(t'.context) then t' else RunFrom(i + 1, t', p)
  }

  function RunTurn(input: TurnInput, action: Option<Action>, l: Ledger, p: Ports): Turn {
    RunFrom(0, Turn(Start(input, action), l, []), p)
  }

  // ---------------------------------------------------------------------
  // The same turn as the engine runs it, on the shared store object
  // ---------------------------------------------------------------------

  method DedupeInPlace(store: InMemoryDedupeStore, c: Context, f: Faults) returns (c': Context)
    requires DedupeReady(c)
    modifies store
    ensures (c', store.records) == PhaseDedupe(c, old(store.records), f)
  {
    var legacy, key := OwnLegacyKey(c), c.identity.value.dispatchKey;
    if legacy != key && !f.get && legacy in store.records {
      return BlockDispatch(c);
    }
    if f.reserve {
      return Degrade(c, f.errorName);
    }
    var own := OwnEnvelope(c);
    c' := c.(envelope := Some(own), dedupeAvailable := true);
    var reservation := store.DoReserveAndDispatch(own, None);
    if reservation != Accepted {
      return BlockDispatch(c');
    }
    if legacy != key && !f.alias {
      var mirror := store.DoReserveAndDispatch(own.(key := legacy), own.peerOperationId);
      if mirror == Accepted {
        c' := c'.(legacyAlias := Some(legacy));
      }
    }
    c' := Emit(c', TurnDispatched);
  }

  method SettleInPlace(store: InMemoryDedupeStore, c: Context, answer: ExecutorAnswer, f: Faults) returns (c': Context)
    requires ExecuteReady(c)
    modifies store
    ensures (c', store.records) == PhaseSettle(c, old(store.records), answer, f)
  {
    var key := c.identity.value.dispatchKey;
    if answer == NotADict || answer == Cancelled {
      return Raise(c);
    }
    var ack := answer == Acks;
    if c.dedupeAvailable {
      var own := StateError;
      if !f.settle {
        if ack { own := store.DoMarkAcknowledged(key, None); } else { own := store.DoMarkUnknownEffect(key); }
      }
      if answer != ExecutorRaised && own != Marked {
        return Raise(c);
      }
      if c.legacyAlias.Some? && !f.aliasSettle {
        var alias := c.legacyAlias.value;
        if ack {
          var _ := store.DoMarkAcknowledged(alias, None);
        } else {
          var _ := store.DoMarkUnknownEffect(alias);
        }
      }
    }
    if answer == ExecutorRaised {
      return Raise(c);
    }
    c' := if ack then Finish(Emit(c, DispatchAcknowledged), DispatchAcknowledged, DispatchedOk)
          else Finish(Emit(Emit(c, EffectUnknown), RecoveryPending), RecoveryPending, RecoveryNeeded);
  }

  method PhaseInPlace(i: nat, store: InMemoryDedupeStore, c: Context, calls: seq<Envelope>, p: Ports)
    returns (c': Context, calls': seq<Envelope>)
    requires i < 6 && PhaseReady(i, c)
    modifies store
    ensures Turn(c', store.records, calls') == Phase(i, Turn(c, old(store.records), calls), p)
  {
    calls' := calls;
    match i
    case 0 => c' := PhaseReasoning(c, p);
    case 1 => c' := PhaseSnapshot(c, p);
    case 2 => c' := PhaseAdmission(c, p);
    case 3 => c' := PhasePolicy(c, p);
    case 4 => c' := DedupeInPlace(store, c, p.faults);
    case _ =>
      calls' := calls + [c.envelope.value];
      c' := SettleInPlace(store, c, p.executor, p.faults);
  }

  /** `run_turn`: no phase assertion fails and the "no result" fallback is never reached. */
  method RunTurnInPlace(store: InMemoryDedupeStore, input: TurnInput, action: Option<Action>, p: Ports)
    returns (c: Context, calls: seq<Envelope>)
    modifies store
    ensures Turn(c, store.records, calls) == RunTurn(input, action, old(store.records), p)
    ensures Done(c)
  {
    c, calls := Start(input, action), [];
    for i := 0 to 6
      invariant i < 6 && !Done(c) && PhaseReady(i, c)
      invariant RunFrom(i, Turn(c, store.records, calls), p) == RunTurn(input, action, old(store.records), p)
    {
      PhaseKeepsReady(i, Turn(c, store.records, calls), p);
      c, calls := PhaseInPlace(i, store, c, calls, p);
      if Done(c) {
        return;
      }
    }
    assert false;
  }

  // ---------------------------------------------------------------------
  // The phase automaton
  // ---------------------------------------------------------------------

  function Successors(s: TurnState): set<TurnState> {
    match s
    case Collecting => {IntentCommitted}
    case IntentCommitted => {Reasoning, SnapshotBuilt, CompletedNoop}
    case Reasoning => {ReasoningFailed, SnapshotBuilt, CompletedNoop}
    case ReasoningFailed => {CompletedNoop}
    case SnapshotBuilt => {AdmissionChecked}
    case AdmissionChecked => {DispatchBlocked, DedupeDegraded, TurnDispatched}
    case DedupeDegraded => {TurnDispatched}
    case TurnDispatched => {DispatchAcknowledged, EffectUnknown}
    case EffectUnknown => {RecoveryPending}
    case _ => {}
  }

  function OutcomeOf(s: TurnState): Option<OutcomeKind> {
    match s
    case CompletedNoop => Some(Noop)
    case DispatchBlocked => Some(Blocked)
    case DispatchAcknowledged => Some(DispatchedOk)
    case RecoveryPending => Some(RecoveryNeeded)
    case _ => None
  }

  predicate IsPath(es: seq<TurnEvent>) {
    && es != [] && es[0].state == Collecting
    && forall i :: 0 < i < |es| ==> es[i].state in Successors(es[i - 1].state)
  }

  function Last(es: seq<TurnEvent>): TurnState
    requires es != []
  {
    es[|es| - 1].state
  }

  /** Where in the automaton an unfinished turn stands before phase `i`. */
  function StatesBefore(i: nat): set<TurnState> {
    match i
    case 0 => {IntentCommitted}
    case 1 => {IntentCommitted, Reasoning}
    case 2 => {SnapshotBuilt}
    case 3 => {AdmissionChecked}
    case 4 => {AdmissionChecked}
    case _ => {TurnDispatched}
  }

  /** The emitted events are a path, and a result, if set, reports exactly them. */
  predicate Consistent(c: Context) {
    && IsPath(c.emitted)
    && (c.result.Some? ==>
          && c.result.value.emitted == c.emitted
          && Last(c.emitted) == c.result.value.state
          && OutcomeOf(c.result.value.state) == Some(c.result.value.outcome))
  }

  predicate OnPath(i: nat, c: Context) {
    Consistent(c) && (!Done(c) ==> Last(c.emitted) in StatesBefore(i))
  }

  lemma PathGrows(es: seq<TurnEvent>, e: TurnEvent)
    requires IsPath(es) && e.state in Successors(Last(es))
    ensures IsPath(es + [e]) && Last(es + [e]) == e.state
  {
  }

  lemma EmitOnPath(c: Context, s: TurnState)
    requires IsPath(c.emitted) && s in Successors(Last(c.emitted))
    ensures IsPath(Emit(c, s).emitted) && Last(Emit(c, s).emitted) == s
  {
    PathGrows(c.emitted, Ev(s));
  }

  lemma ReasoningOnPath(c: Context, p: Ports)
    requires !Done(c) && OnPath(0, c)
    ensures OnPath(1, PhaseReasoning(c, p))
  {
    if c.action.None? {
      EmitOnPath(c, CompletedNoop);
      EmitOnPath(c, Reasoning);
      EmitOnPath(Emit(c, Reasoning), CompletedNoop);
      EmitOnPath(Emit(c, Reasoning), ReasoningFailed);
      EmitOnPath(Emit(Emit(c, Reasoning), ReasoningFailed), CompletedNoop);
    }
  }

  lemma SnapshotOnPath(c: Context, p: Ports)
    requires c.action.Some? && !Done(c) && OnPath(1, c)
    ensures OnPath(2, PhaseSnapshot(c, p))
  {
    PathGrows(c.emitted, Ev(SnapshotBuilt));
    PathGrows(c.emitted, Ev(CompletedNoop));
  }

  lemma AdmissionOnPath(c: Context, p: Ports)
    requires c.identity.Some? && !Done(c) && OnPath(2, c)
    ensures OnPath(3, PhaseAdmission(c, p))
  {
    PathGrows(c.emitted, Ev(AdmissionChecked));
    PathGrows(c.emitted + [Ev(AdmissionChecked)], Ev(DispatchBlocked));
  }

  lemma PolicyOnPath(c: Context, p: Ports)
    requires c.action.Some? && c.identity.Some? && !Done(c) && OnPath(3, c)
    ensures OnPath(4, PhasePolicy(c, p))
  {
    PathGrows(c.emitted, TurnEvent(DispatchBlocked, ResolvePolicy(p.fold, c.action.value).blockReason, None));
  }

  lemma DegradeOnPath(c: Context, errorName: string)
    requires DedupeReady(c) && !Done(c) && OnPath(4, c)
    ensures OnPath(5, Degrade(c, errorName))
  {
    PathGrows(c.emitted, Ev(DispatchBlocked));
    var degraded := TurnEvent(DedupeDegraded, Some(errorName),
                              Some(("idempotent_write", DowngradedScope(c.policy.value.hostKind))));
    PathGrows(c.emitted, degraded);
    PathGrows(c.emitted + [degraded], Ev(TurnDispatched));
  }

  lemma SendOnPath(c: Context)
    requires c.identity.Some? && !Done(c) && OnPath(4, c)
    ensures OnPath(5, Emit(c, TurnDispatched)) && OnPath(5, BlockDispatch(c))
  {
    PathGrows(c.emitted, Ev(DispatchBlocked));
    PathGrows(c.emitted, Ev(TurnDispatched));
  }

  lemma DedupeOnPath(c: Context, l: Ledger, f: Faults)
    requires DedupeReady(c) && !Done(c) && OnPath(4, c)
    ensures OnPath(5, PhaseDedupe(c, l, f).0)
  {
    var c' := c.(envelope := Some(OwnEnvelope(c)), dedupeAvailable := true);
    DegradeOnPath(c, f.errorName);
    SendOnPath(c);
    SendOnPath(c');
    SendOnPath(c'.(legacyAlias := Some(OwnLegacyKey(c))));
  }

  lemma SettleOnPath(c: Context, l: Ledger, answer: ExecutorAnswer, f: Faults)
    requires ExecuteReady(c) && !Done(c) && OnPath(5, c)
    ensures Consistent(PhaseSettle(c, l, answer, f).0) && Done(PhaseSettle(c, l, answer, f).0)
  {
    EmitOnPath(c, DispatchAcknowledged);
    EmitOnPath(c, EffectUnknown);
    EmitOnPath(Emit(c, EffectUnknown), RecoveryPending);
  }

  lemma PhaseOnPath(i: nat, t: Turn, p: Ports)
    requires i < 6 && PhaseReady(i, t.context) && !Done(t.context) && OnPath(i, t.context)
    ensures OnPath(i + 1, Phase(i, t, p).context)
  {
    match i
    case 0 => ReasoningOnPath(t.context, p);
    case 1 => SnapshotOnPath(t.context, p);
    case 2 => AdmissionOnPath(t.context, p);
    case 3 => PolicyOnPath(t.context, p);
    case 4 => DedupeOnPath(t.context, t.ledger, p.faults);
    case _ => SettleOnPath(t.context, t.ledger, p.executor, p.faults);
  }

  lemma {:induction false} RunOnPath(i: nat, t: Turn, p: Ports)
    requires i < 6 && PhaseReady(i, t.context) && !Done(t.context) && OnPath(i, t.context)
    ensures Consistent(RunFrom(i, t, p).context)
    decreases 6 - i
  {
    PhaseOnPath(i, t, p);
    PhaseKeepsReady(i, t, p);
    if !Done(Phase(i, t, p).context) {
      RunOnPath(i + 1, Phase(i, t, p), p);
    }
  }

  /** Every turn ends; what it emitted is a path of the automaton, and a returned turn stops in
      the final state its result names, with the outcome that belongs to that state. */
  lemma TurnFollowsAutomaton(input: TurnInput, action: Option<Action>, l: Ledger, p: Ports)
    ensures var c := RunTurn(input, action, l, p).context;
            && Done(c) && IsPath(c.emitted)
            && (c.result.Some? ==>
                  && c.result.value.emitted == c.emitted
                  && Last(c.emitted) == c.result.value.state
                  && Successors(c.result.value.state) == {}
                  && OutcomeOf(c.result.value.state) == Some(c.result.value.outcome))
  {
    RunOnPath(0, Turn(Start(input, action), l, []), p);
  }

  // ---------------------------------------------------------------------
  // What settling touches
  // ---------------------------------------------------------------------

  predicate SameExcept(l: Ledger, l': Ledger, keys: set<string>) {
    l'.Keys == l.Keys && forall k :: k in l && k !in keys ==> l'[k] == l[k]
  }

  lemma MarkFrame(l: Ledger, call: DedupeLedger.Call, fails: bool)
    requires call.MarkAcknowledged? || call.MarkUnknownEffect?
    ensures SameExcept(l, Apply(l, call).ledger, {call.key}) && SameExcept(l, Suppressed(l, call, fails), {call.key})
  {
  }

  /** The keys whose records a settling turn may move. */
  function SettledKeys(c: Context): set<string>
    requires ExecuteReady(c)
  {
    if !c.dedupeAvailable then {}
    else {c.identity.value.dispatchKey} + if c.legacyAlias.Some? then {c.legacyAlias.value} else {}
  }

  lemma AliasFrame(c: Context, l: Ledger, ack: bool, f: Faults)
    ensures SameExcept(l, SettleAlias(c, l, ack, f), if c.legacyAlias.Some? then {c.legacyAlias.value} else {})
  {
    if c.legacyAlias.Some? {
      MarkFrame(l, if ack then MarkAcknowledged(c.legacyAlias.value, None) else MarkUnknownEffect(c.legacyAlias.value),
                f.aliasSettle);
    }
  }

  /** Settling moves only the turn's own records, ends the turn and keeps what identifies it. */
  lemma SettleFrame(l: Ledger, c: Context, answer: ExecutorAnswer, f: Faults)
    requires ExecuteReady(c)
    ensures SameExcept(l, PhaseSettle(c, l, answer, f).1, SettledKeys(c))
    ensures var c' := PhaseSettle(c, l, answer, f).0;
            Done(c') && c' == c.(emitted := c'.emitted, result := c'.result, raised := c'.raised)
  {
    var key, ack := c.identity.value.dispatchKey, answer == Acks;
    var mark := if ack then MarkAcknowledged(key, None) else MarkUnknownEffect(key);
    MarkFrame(l, mark, f.settle);
    AliasFrame(c, Apply(l, mark).ledger, ack, f);
    AliasFrame(c, Suppressed(l, mark, f.settle), ack, f);
  }
}
