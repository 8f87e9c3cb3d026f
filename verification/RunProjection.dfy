/** Runtime events and the run projection they replay into. */
module RunProjection {
  import opened Basics

  datatype Authority = AuthoritativeFact | DerivedReplayable | DerivedDiagnostic

  /** A committed event; its type text has been read by `KindOf`. */
  datatype Event = Event(
    runId: string,
    offset: int,
    kind: Kind,
    authority: Authority,
    createdAt: string,
    payload: Payload)

  datatype Lifecycle = Created | Ready | Dispatching | WaitingExternal | Recovering | Completed | Aborted

  datatype Projection = Projection(
    runId: string,
    lifecycle: Lifecycle,
    offset: int,
    waitingExternal: bool,
    readyForDispatch: bool,
    recoveryMode: Option<string>,
    recoveryReason: Option<string>,
    children: seq<string>)

  /** What an event type means to the projection and to the trace registries. */
  datatype Kind =
    | RunCreated | RunReady | ResumeRequested | CancelRequested | RecoverySucceeded | RecoveryAborted
    | RunWaitingExternal | RunDispatching | RunRecovering | RunCompleted | RunAborted | ReconcileFailed
    | ChildSpawned | ChildCompleted | Callback | OtherSignal
    | BranchOpened | BranchChanged | StageOpened | StageChanged | GateOpened | GateResolved | OtherTrace
    | Irrelevant

  function KindOf(t: string): Kind {
    if StartsWith(t, "trace.") then TraceKind(t)
    else if StartsWith(t, "signal.") then SignalKind(t)
    else PlainKind(t)
  }

  function TraceKind(t: string): Kind {
    if t == "trace.branch_opened" then BranchOpened
    else if t == "trace.branch_state_changed" then BranchChanged
    else if t == "trace.stage_opened" then StageOpened
    else if t == "trace.stage_state_changed" then StageChanged
    else if t == "trace.human_gate_opened" then GateOpened
    else if t == "trace.human_gate_resolved" then GateResolved
    else OtherTrace
  }

  function SignalKind(t: string): Kind {
    if t == "signal.child_spawned" then ChildSpawned
    else if t == "signal.child_completed" || t == "signal.child_run_completed" then ChildCompleted
    else if t == "signal.external_callback" || t == "signal.callback" then Callback
    else OtherSignal
  }

  function PlainKind(t: string): Kind {
    if t == "run.created" then RunCreated
    else if t == "run.ready" then RunReady
    else if t == "run.resume_requested" then ResumeRequested
    else if t == "run.cancel_requested" then CancelRequested
    else if t == "run.recovery_succeeded" then RecoverySucceeded
    else if t == "run.recovery_aborted" then RecoveryAborted
    else if t == "run.waiting_external" then RunWaitingExternal
    else if t == "run.dispatching" then RunDispatching
    else if t == "run.recovering" then RunRecovering
    else if t == "run.completed" then RunCompleted
    else if t == "run.aborted" then RunAborted
    else if t == "reconcile.failed" then ReconcileFailed
    else if t == "run.child_spawned" then ChildSpawned
    else if t == "run.child_completed" || t == "run.child_run_completed" then ChildCompleted
    else Irrelevant
  }

  /** An event as a writer submits it; the log assigns the offset. */
  function Submitted(runId: string, eventType: string, authority: Authority, createdAt: string, payload: Payload): Event {
    Event(runId, 0, KindOf(eventType), authority, createdAt, payload)
  }

  function Default(runId: string): Projection {
    Projection(runId, Created, 0, false, false, None, None, [])
  }

  // ---------------------------------------------------------------------
  // Operational precedence: Cancel > HardFailure > Timeout > ExternalCallback
  // ---------------------------------------------------------------------

  function LowerChar(c: char): char {
    if 'A' <= c <= 'Z' then (c as int + 32) as char else c
  }

  predicate MatchesAt(s: string, i: nat, word: string) {
    i + |word| <= |s| && forall j :: 0 <= j < |word| ==> LowerChar(s[i + j]) == word[j]
  }

  predicate IsCancelReason(reason: Option<string>) {
    reason.Some? && exists i :: 0 <= i <= |reason.value| && MatchesAt(reason.value, i, "cancel")
  }

  /** 0 stands for "no operational class". */
  function EventRank(k: Kind): nat {
    match k
    case Callback => 1
    case RunWaitingExternal => 2
    case ReconcileFailed => 2
    case RecoveryAborted => 3
    case RunAborted => 3
    case CancelRequested => 4
    case _ => 0
  }

  function ProjectionRank(p: Projection): nat {
    if p.lifecycle == Aborted then (if IsCancelReason(p.recoveryReason) then 4 else 3)
    else if p.lifecycle == WaitingExternal then 2
    else 0
  }

  predicate LosesToCurrent(p: Projection, k: Kind) {
    ProjectionRank(p) > 0 && EventRank(k) > 0 && EventRank(k) < ProjectionRank(p)
  }

  // ---------------------------------------------------------------------
  // Transition
  // ---------------------------------------------------------------------

  datatype Core = Core(lifecycle: Lifecycle, waitingExternal: bool, readyForDispatch: bool, recoveryMode: Option<string>)

  function CoreOf(p: Projection): Core {
    Core(p.lifecycle, p.waitingExternal, p.readyForDispatch, p.recoveryMode)
  }

  /** The static transition table, the `reconcile.failed` case and the signal family. */
  function Target(k: Kind): Option<Core> {
    match k
    case RunCreated => Some(Core(Created, false, false, None))
    case RunReady => Some(Core(Ready, false, true, None))
    case ResumeRequested => Some(Core(Recovering, false, false, Some("static_compensation")))
    case CancelRequested => Some(Core(Aborted, false, false, Some("abort")))
    case RecoverySucceeded => Some(Core(Ready, false, true, None))
    case RecoveryAborted => Some(Core(Aborted, false, false, Some("abort")))
    case RunWaitingExternal => Some(Core(WaitingExternal, true, false, Some("human_escalation")))
    case ReconcileFailed => Some(Core(WaitingExternal, true, false, Some("human_escalation")))
    case RunDispatching => Some(Core(Dispatching, false, true, None))
    case RunRecovering => Some(Core(Recovering, false, false, Some("static_compensation")))
    case RunCompleted => Some(Core(Completed, false, false, None))
    case RunAborted => Some(Core(Aborted, false, false, Some("abort")))
    case Callback => Some(Core(Ready, false, true, None))
    case OtherSignal => Some(Core(Ready, false, true, None))
    case _ => None
  }

  function DeriveReason(e: Event, fallback: Option<string>): Option<string> {
    var k := e.kind;
    var given := FromJson(Get(e.payload, "reason"));
    if k == Callback || k == OtherSignal then fallback
    else if given.Some? then given
    else if k == CancelRequested then (if fallback.Some? then fallback else Some("cancel_requested"))
    else if k == RunReady || k == RunCompleted || k == RunCreated then None
    else fallback
  }

  predicate BlockedEvent(p: Projection, k: Kind) {
    p.lifecycle == Completed || LosesToCurrent(p, k) || (p.lifecycle == Aborted && k != CancelRequested)
  }

  function ChildId(e: Event): Option<string> {
    var c := FromJson(Get(e.payload, "child_run_id"));
    if c == Some("") then None else c
  }

  function Without(s: seq<string>, x: string): seq<string> {
    if s == [] then [] else (if s[0] == x then [] else [s[0]]) + Without(s[1..], x)
  }

  predicate Terminal(p: Projection) { p.lifecycle == Completed || p.lifecycle == Aborted }

  predicate Spawns(e: Event, c: string) { e.kind == ChildSpawned && ChildId(e) == Some(c) }
  predicate Completes(e: Event, c: string) { e.kind == ChildCompleted && ChildId(e) == Some(c) }

  function NextChildren(p: Projection, e: Event): seq<string> {
    var k, c := e.kind, ChildId(e);
    if Terminal(p) || c.None? then p.children
    else if k == ChildSpawned then (if c.value in p.children then p.children else p.children + [c.value])
    else if k == ChildCompleted then Without(p.children, c.value)
    else p.children
  }

  function ApplyEvent(p: Projection, e: Event): Projection {
    var k := e.kind;
    var target := Target(k);
    var moves := !BlockedEvent(p, k) && target.Some?;
    var core := if moves then target.value else CoreOf(p);
    Projection(p.runId, core.lifecycle, e.offset, core.waitingExternal, core.readyForDispatch, core.recoveryMode,
               if moves then DeriveReason(e, p.recoveryReason) else p.recoveryReason,
               NextChildren(p, e))
  }

  function ApplyAll(p: Projection, es: seq<Event>): Projection {
    if es == [] then p else ApplyEvent(ApplyAll(p, es[..|es| - 1]), es[|es| - 1])
  }

  // ---------------------------------------------------------------------
  // Reachable projections
  // ---------------------------------------------------------------------

  /** Flags and recovery mode are functions of the lifecycle state alone. */
  function CoreFor(l: Lifecycle): Core {
    match l
    case Created => Core(l, false, false, None)
    case Ready => Core(l, false, true, None)
    case Dispatching => Core(l, false, true, None)
    case WaitingExternal => Core(l, true, false, Some("human_escalation"))
    case Recovering => Core(l, false, false, Some("static_compensation"))
    case Completed => Core(l, false, false, None)
    case Aborted => Core(l, false, false, Some("abort"))
  }

  predicate Coherent(p: Projection) {
    CoreOf(p) == CoreFor(p.lifecycle)
  }

  lemma TargetIsCoherent(k: Kind)
    requires Target(k).Some?
    ensures Target(k).value == CoreFor(Target(k).value.lifecycle)
  {
  }

  lemma CoherentStep(p: Projection, e: Event)
    requires Coherent(p)
    ensures Coherent(ApplyEvent(p, e))
  {
    if Target(e.kind).Some? {
      TargetIsCoherent(e.kind);
    }
  }

  lemma {:induction false} ReplayIsCoherent(runId: string, es: seq<Event>)
    ensures Coherent(ApplyAll(Default(runId), es))
  {
    if es != [] {
      var front := es[..|es| - 1];
      ReplayIsCoherent(runId, front);
      CoherentStep(ApplyAll(Default(runId), front), es[|es| - 1]);
    }
  }

  /** The dispatch-readiness test of `StaticDispatchAdmissionService.check`. */
  predicate DispatchReady(p: Projection) {
    (p.lifecycle == Ready || p.lifecycle == Dispatching) && p.readyForDispatch && !p.waitingExternal
  }

  /** On replayed projections the readiness test reads the lifecycle state only. */
  lemma ReadinessIsLifecycle(runId: string, es: seq<Event>)
    ensures var p := ApplyAll(Default(runId), es);
            DispatchReady(p) <==> p.lifecycle in {Ready, Dispatching}
  {
    ReplayIsCoherent(runId, es);
  }

  lemma CoreStep(p: Projection, q: Projection, e: Event)
    requires CoreOf(p) == CoreOf(q)
    ensures CoreOf(ApplyEvent(p, e)) == CoreOf(ApplyEvent(q, e))
  {
  }

  /** The recovery reason is a passenger: although the class of an aborted run is read from its
      text, no replay ends in a different lifecycle state, flag or recovery mode because of it. */
  lemma {:induction false} ReasonDoesNotSteer(p: Projection, q: Projection, es: seq<Event>)
    requires CoreOf(p) == CoreOf(q)
    ensures CoreOf(ApplyAll(p, es)) == CoreOf(ApplyAll(q, es))
  {
    if es != [] {
      var front := es[..|es| - 1];
      ReasonDoesNotSteer(p, q, front);
      CoreStep(ApplyAll(p, front), ApplyAll(q, front), es[|es| - 1]);
    }
  }

  /** Terminal states absorb every event; only a cancel request may still rewrite the reason, and
      only on an aborted run. */
  lemma {:induction false} TerminalAbsorbs(p: Projection, es: seq<Event>)
    requires Terminal(p) && Coherent(p)
    ensures var p' := ApplyAll(p, es);
            && CoreOf(p') == CoreOf(p) && p'.children == p.children
            && (p'.recoveryReason != p.recoveryReason ==>
                  p.lifecycle == Aborted && exists i :: 0 <= i < |es| && es[i].kind == CancelRequested)
  {
    if es != [] {
      TerminalAbsorbs(p, es[..|es| - 1]);
      var mid := ApplyAll(p, es[..|es| - 1]);
      if mid.recoveryReason != p.recoveryReason {
        var i :| 0 <= i < |es| - 1 && es[..|es| - 1][i].kind == CancelRequested;
        assert es[i].kind == CancelRequested;
      }
    }
  }

  // ---------------------------------------------------------------------
  // Confluence of the operational classes
  // ---------------------------------------------------------------------

  predicate AllOperational(es: seq<Event>) {
    forall i :: 0 <= i < |es| ==> EventRank(es[i].kind) > 0
  }

  function HighestRank(es: seq<Event>): nat {
    if es == [] then 0
    else
      var r, last := HighestRank(es[..|es| - 1]), EventRank(es[|es| - 1].kind);
      if last > r then last else r
  }

  /** The state that belongs to a class; below every class the run stays where it was. */
  function ClassCore(rank: nat, start: Core): Core {
    if rank == 0 then start
    else if rank == 1 then CoreFor(Ready)
    else if rank == 2 then CoreFor(WaitingExternal)
    else CoreFor(Aborted)
  }

  function Max(a: nat, b: nat): nat { if a < b then b else a }

  lemma ClassStep(q: Projection, e: Event, rank: nat, start: Core)
    requires Coherent(q) && CoreOf(q) == ClassCore(rank, start) && EventRank(e.kind) > 0
    requires rank == 0 ==> start.lifecycle !in {WaitingExternal, Completed, Aborted}
    ensures CoreOf(ApplyEvent(q, e)) == ClassCore(Max(rank, EventRank(e.kind)), start)
  {
  }

  /** The highest class among the start and the events decides, whatever the order. */
  lemma {:induction false} HighestClassWins(p: Projection, es: seq<Event>)
    requires Coherent(p) && !Terminal(p) && AllOperational(es)
    ensures CoreOf(ApplyAll(p, es)) == ClassCore(Max(ProjectionRank(p), HighestRank(es)), CoreOf(p))
  {
    if es != [] {
      var front, e := es[..|es| - 1], es[|es| - 1];
      HighestClassWins(p, front);
      var rank := Max(ProjectionRank(p), HighestRank(front));
      ClassStep(ApplyAll(p, front), e, rank, CoreOf(p));
    }
  }

  lemma {:induction false} HighestRankIsAttained(es: seq<Event>)
    ensures forall i :: 0 <= i < |es| ==> EventRank(es[i].kind) <= HighestRank(es)
    ensures es != [] ==> exists i :: 0 <= i < |es| && EventRank(es[i].kind) == HighestRank(es)
  {
    if es != [] {
      var front, e := es[..|es| - 1], es[|es| - 1];
      HighestRankIsAttained(front);
      forall i | 0 <= i < |es| - 1 ensures EventRank(es[i].kind) <= HighestRank(front) {
        assert front[i] == es[i];
      }
      if EventRank(e.kind) >= HighestRank(front) {
        assert EventRank(es[|es| - 1].kind) == HighestRank(es);
      } else {
        var i :| 0 <= i < |front| && EventRank(front[i].kind) == HighestRank(front);
        assert es[i] == front[i];
      }
    }
  }

  lemma RankBoundedBy(es: seq<Event>, fs: seq<Event>)
    requires forall e :: e in es ==> e in fs
    ensures HighestRank(es) <= HighestRank(fs)
  {
    HighestRankIsAttained(es);
    HighestRankIsAttained(fs);
    if es != [] {
      var i :| 0 <= i < |es| && EventRank(es[i].kind) == HighestRank(es);
      assert es[i] in fs;
    }
  }

  /** Any reordering of operational events, and any change to their repetition, ends in the same
      lifecycle, flags and recovery mode. */
  lemma OperationalOrderIsIrrelevant(p: Projection, es: seq<Event>, fs: seq<Event>)
    requires Coherent(p) && !Terminal(p) && AllOperational(es) && AllOperational(fs)
    requires forall e :: e in es <==> e in fs
    ensures CoreOf(ApplyAll(p, es)) == CoreOf(ApplyAll(p, fs))
  {
    RankBoundedBy(es, fs);
    RankBoundedBy(fs, es);
    HighestClassWins(p, es);
    HighestClassWins(p, fs);
  }

  // ---------------------------------------------------------------------
  // Child tracking
  // ---------------------------------------------------------------------

  lemma {:induction false} WithoutRemoves(s: seq<string>, x: string)
    ensures forall y :: y in Without(s, x) <==> y in s && y != x
    ensures NoDuplicates(s) ==> NoDuplicates(Without(s, x))
  {
    if s != [] {
      WithoutRemoves(s[1..], x);
      if NoDuplicates(s) {
        assert NoDuplicates(s[1..]);
        assert s[0] !in s[1..];
      }
    }
  }

  /** Which events reached a run that had not ended yet. */
  function Liveness(runId: string, es: seq<Event>): (live: seq<bool>)
    ensures |live| == |es|
  {
    if es == [] then []
    else
      var front := es[..|es| - 1];
      Liveness(runId, front) + [!Terminal(ApplyAll(Default(runId), front))]
  }

  /** The last live spawn or completion of `c` is a spawn. */
  predicate LastIsSpawn(live: seq<bool>, es: seq<Event>, c: string)
    requires |live| == |es|
  {
    exists i :: 0 <= i < |es| && live[i] && Spawns(es[i], c)
             && forall j :: i < j < |es| && live[j] ==> !Completes(es[j], c)
  }

  lemma LastIsSpawnStep(live: seq<bool>, es: seq<Event>, alive: bool, e: Event, c: string)
    requires |live| == |es|
    ensures LastIsSpawn(live + [alive], es + [e], c) <==>
              if alive && Spawns(e, c) then true
              else if alive && Completes(e, c) then false
              else LastIsSpawn(live, es, c)
  {
    var n, live', es' := |es|, live + [alive], es + [e];
    if alive && Spawns(e, c) {
      assert live'[n] && Spawns(es'[n], c);
    } else if LastIsSpawn(live, es, c) && !(alive && Completes(e, c)) {
      var i :| 0 <= i < n && live[i] && Spawns(es[i], c) && forall j :: i < j < n && live[j] ==> !Completes(es[j], c);
      assert live'[i] && Spawns(es'[i], c);
    }
    if LastIsSpawn(live', es', c) && !(alive && Spawns(e, c)) {
      var i :| 0 <= i <= n && live'[i] && Spawns(es'[i], c) && forall j :: i < j <= n && live'[j] ==> !Completes(es'[j], c);
      assert i < n && live[i] && Spawns(es[i], c);
      forall j | i < j < n && live[j] ensures !Completes(es[j], c) {
        assert live'[j] && es'[j] == es[j];
      }
      assert alive ==> live'[n] && !Completes(es'[n], c);
    }
  }

  lemma NextChildrenStep(p: Projection, e: Event)
    requires NoDuplicates(p.children)
    ensures NoDuplicates(NextChildren(p, e))
    ensures forall c :: c in NextChildren(p, e) <==>
                          (!Terminal(p) && Spawns(e, c)) || (c in p.children && !(!Terminal(p) && Completes(e, c)))
  {
    if ChildId(e).Some? {
      WithoutRemoves(p.children, ChildId(e).value);
    }
  }

  /** After any replay the tracked children are, without repetition, exactly those whose last
      spawn or completion before the run ended was a spawn. */
  lemma {:induction false} ChildrenAreExact(runId: string, es: seq<Event>)
    ensures NoDuplicates(ApplyAll(Default(runId), es).children)
    ensures forall c :: c in ApplyAll(Default(runId), es).children <==> LastIsSpawn(Liveness(runId, es), es, c)
  {
    if es != [] {
      var front, e := es[..|es| - 1], es[|es| - 1];
      ChildrenAreExact(runId, front);
      assert es == front + [e];
      var p := ApplyAll(Default(runId), front);
      NextChildrenStep(p, e);
      forall c ensures c in NextChildren(p, e) <==> LastIsSpawn(Liveness(runId, es), es, c) {
        LastIsSpawnStep(Liveness(runId, front), front, !Terminal(p), e, c);
      }
    }
  }

  /** Liveness says what it should: the events before this one had not ended the run. */
  lemma {:induction false} LivenessIsPrefixState(runId: string, es: seq<Event>, i: nat)
    requires i < |es|
    ensures Liveness(runId, es)[i] <==> !Terminal(ApplyAll(Default(runId), es[..i]))
  {
    if i < |es| - 1 {
      LivenessIsPrefixState(runId, es[..|es| - 1], i);
      assert es[..|es| - 1][..i] == es[..i];
    }
  }

  predicate IsChildEvent(e: Event) {
    e.kind == ChildSpawned || e.kind == ChildCompleted
  }

  function DropChildEvents(es: seq<Event>): seq<Event> {
    if es == [] then []
    else DropChildEvents(es[..|es| - 1]) + (if IsChildEvent(es[|es| - 1]) then [] else [es[|es| - 1]])
  }

  lemma SteeredAlike(p: Projection, q: Projection, e: Event)
    requires CoreOf(p) == CoreOf(q) && p.recoveryReason == q.recoveryReason
    ensures var p', q' := ApplyEvent(p, e), ApplyEvent(q, e);
            CoreOf(p') == CoreOf(q') && p'.recoveryReason == q'.recoveryReason
    ensures IsChildEvent(e) ==> CoreOf(ApplyEvent(p, e)) == CoreOf(p) && ApplyEvent(p, e).recoveryReason == p.recoveryReason
  {
    assert ProjectionRank(p) == ProjectionRank(q);
  }

  /** Child events never move the run itself: deleting all of them changes no lifecycle state,
      flag, recovery mode or reason. */
  lemma {:induction false} ChildEventsDoNotSteer(p: Projection, es: seq<Event>)
    ensures var with, bare := ApplyAll(p, es), ApplyAll(p, DropChildEvents(es));
            CoreOf(with) == CoreOf(bare) && with.recoveryReason == bare.recoveryReason
  {
    if es != [] {
      var front, e := es[..|es| - 1], es[|es| - 1];
      ChildEventsDoNotSteer(p, front);
      var kept := DropChildEvents(front);
      SteeredAlike(ApplyAll(p, front), ApplyAll(p, kept), e);
      assert (kept + [e])[..|kept|] == kept;
      assert kept + [] == kept;
    }
  }
}
