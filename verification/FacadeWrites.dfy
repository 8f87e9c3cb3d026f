/** A run this facade writes while others write it too: what it shows against what a fresh facade
    rebuilds from the log. */
module FacadeWrites {
  import opened Basics
  import opened RunProjection
  import opened EventLog
  import opened TraceRegistry
  import opened TraceWrites
  import opened KernelFacade
  import opened FacadeReads

  /** The writing facade's registry and rebuild offset, the run's log, and the facade's own writes
      that are in flight: done locally, not logged yet. `synced`: since the facade last replayed the
      log nobody else changed the run's trace, it was not evicted, and its writes were logged in the
      order they were made. */
  datatype Desk = Desk(registry: Registry, offset: int, log: seq<Event>, inFlight: seq<Write>, synced: bool)

  const FRESH := Desk(EMPTY, 0, [], [], true)

  /** A write is two moves, with anything in between: the facade awaits the workflow's signal before
      it logs. `Elsewhere`: events this facade's six writes did not log, from the run actor, from
      other facades or from its own other calls. */
  datatype DeskMove =
    | Update(write: Write)
    | LogNext(k: nat, at: string)
    | Elsewhere(events: seq<Event>)
    | Evict
    | Refresh

  /** The log as the facade has yet to replay it. */
  function Pending(d: Desk): seq<TraceOp> {
    if 0 <= d.offset <= |d.log| then Decoded(d.log[d.offset..]) else []
  }

  function OpsOf(ws: seq<Write>): (ops: seq<TraceOp>)
    ensures |ops| == |ws|
  {
    seq(|ws|, i requires 0 <= i < |ws| => OpOf(ws[i]))
  }

  /** `opener` opens an id that `op` names. */
  predicate Meets(op: TraceOp, opener: TraceOp) {
    || (BranchOp(opener).Opens? && Names(BranchOp(op), BranchOp(opener).id))
    || (StageOp(opener).Opens? && Names(StageOp(op), StageOp(opener).id))
  }

  /** No id that `opener` opens is named here. */
  predicate Unnamed(ops: seq<TraceOp>, opener: TraceOp) {
    forall i :: 0 <= i < |ops| ==> !Meets(ops[i], opener)
  }

  /** The writes covered: an id is opened only if neither the facade nor an event it has yet to
      replay knows it, and no stage gets an empty failure code. */
  predicate Admissible(d: Desk, w: Write) {
    && Unnamed(Pending(d), OpOf(w))
    && match w
       case OpenBranch(id, _, _, _, _) => JStr(id) !in d.registry.branches
       case OpenStage(id, _, _) => JStr(id) !in d.registry.stages
       case MarkStage(_, _, code, _) => code != Some("")
       case _ => true
  }

  /** What is logged now does not name an id whose opening is still in flight. */
  predicate MayLog(d: Desk, k: nat) {
    && k < |d.inFlight|
    && forall j :: 0 <= j < |d.inFlight| && j != k ==> !Meets(OpOf(d.inFlight[k]), OpOf(d.inFlight[j]))
  }

  predicate MayArrive(d: Desk, ops: seq<TraceOp>) {
    AllWellFormed(ops) && forall k :: 0 <= k < |d.inFlight| ==> Unnamed(ops, OpOf(d.inFlight[k]))
  }

  predicate Effectless(ops: seq<TraceOp>) { forall i :: 0 <= i < |ops| ==> ops[i] == NoEffect }

  /** One step; a move that is not enabled changes nothing. */
  function DeskStep(run: string, d: Desk, move: DeskMove): Desk {
    match move
    case Update(w) =>
      if !Admissible(d, w) || Local(d.registry, w).None? then d
      else d.(registry := Local(d.registry, w).value, inFlight := d.inFlight + [w])
    case LogNext(k, at) =>
      if !MayLog(d, k) then d
      else d.(log := d.log + Stamp([Logged(run, d.inFlight[k], at)], |d.log| + 1),
              inFlight := d.inFlight[..k] + d.inFlight[k + 1..],
              synced := d.synced && k == 0)
    case Elsewhere(es) =>
      if !MayArrive(d, Decoded(es)) then d
      else d.(log := d.log + Stamp(es, |d.log| + 1), synced := d.synced && Effectless(Decoded(es)))
    case Evict => d.(registry := EMPTY, offset := 0, synced := false)
    case Refresh =>
      var es := After(d.log, d.offset);
      var r := Replay(d.registry, Decoded(es));
      d.(registry := r.registry, offset := if r.ok then TraceOffset(d.offset, es) else d.offset,
         synced := r.ok && d.inFlight == [])
  }

  function DeskRun(run: string, moves: seq<DeskMove>): Desk {
    if moves == [] then FRESH
    else DeskStep(run, DeskRun(run, moves[..|moves| - 1]), moves[|moves| - 1])
  }

  /** What a fresh facade rebuilds from the log. */
  function Cold(d: Desk): Registry { Replay(EMPTY, Decoded(d.log)).registry }

  /** Branches, stages, open gates and resolved gates coincide. */
  predicate Alike(r: Registry, q: Registry) {
    r.branches == q.branches && r.stages == q.stages && r.openGates == q.openGates && r.resolvedGates == q.resolvedGates
  }

  /** As `Alike`, but a resolved gate need not be listed as open: a facade that resolves a gate it
      did not open records the resolution only. */
  predicate Agree(own: Registry, cold: Registry) {
    && own.branches == cold.branches && own.stages == cold.stages
    && own.resolvedGates == cold.resolvedGates
    && own.openGates + own.resolvedGates == cold.openGates
  }

  /** `ops` holds `op`, before which no id it opens is named. */
  predicate Finds(ops: seq<TraceOp>, op: TraceOp) {
    exists i :: 0 <= i < |ops| && ops[i] == op && Unnamed(ops[..i], op)
  }

  /** A possible continuation of the log: sooner or later, in any order and among anything else, it
      holds every write in flight. */
  predicate Continues(future: seq<TraceOp>, inFlight: seq<TraceOp>) {
    AllWellFormed(future) && forall k :: 0 <= k < |inFlight| ==> Finds(future, inFlight[k])
  }

  /** However the log goes on, replaying what is pending and then the rest brings the facade to what
      a fresh facade rebuilds. */
  ghost predicate CatchesUp(own: Registry, pending: seq<TraceOp>, cold: Registry, inFlight: seq<TraceOp>) {
    forall future :: Continues(future, inFlight) ==>
                       Alike(Replay(own, pending + future).registry, Replay(cold, future).registry)
  }

  ghost predicate DeskInv(d: Desk) {
    && Dense(d.log) && 0 <= d.offset <= |d.log| && AllWellFormed(Decoded(d.log))
    && CatchesUp(d.registry, Pending(d), Cold(d), OpsOf(d.inFlight))
    && (d.synced ==> Agree(d.registry, Replay(Cold(d), OpsOf(d.inFlight)).registry))
  }

  // ---------------------------------------------------------------------
  // Replay facts
  // ---------------------------------------------------------------------

  lemma PendingReplays(d: Desk, r: Registry)
    requires 0 <= d.offset <= |d.log| && AllWellFormed(Decoded(d.log))
    ensures AllWellFormed(Pending(d)) && Replay(r, Pending(d)).ok && Replay(r, Decoded(d.log)).ok
  {
    forall i | 0 <= i < |Pending(d)| ensures WellFormed(Pending(d)[i]) {
      assert Pending(d)[i] == Decoded(d.log)[d.offset + i];
    }
    WellFormedReplays(r, Pending(d));
    WellFormedReplays(r, Decoded(d.log));
  }

  /** Growing the log grows what is pending by the same events. */
  lemma PendingGrows(d: Desk, es: seq<Event>)
    requires Dense(d.log) && 0 <= d.offset <= |d.log|
    ensures var log' := d.log + Stamp(es, |d.log| + 1);
            && Dense(log') && Decoded(log') == Decoded(d.log) + Decoded(es)
            && Pending(d.(log := log')) == Pending(d) + Decoded(es)
  {
    var more := Stamp(es, |d.log| + 1);
    StampIsNumbered(d.log, es);
    DecodedStamp(es, |d.log| + 1);
    DecodedConcat(d.log, more);
    DecodedConcat(d.log[d.offset..], more);
    assert (d.log + more)[d.offset..] == d.log[d.offset..] + more;
  }

  lemma AlikeStep(r: Registry, q: Registry, op: TraceOp)
    requires Alike(r, q)
    ensures Alike(ApplyTrace(r, op), ApplyTrace(q, op)) && Raises(r, op) == Raises(q, op)
  {
    StepByMap(r, op);
    StepByMap(q, op);
  }

  /** Replay treats registries alike that are alike. */
  lemma {:induction false} AlikeReplay(r: Registry, q: Registry, ops: seq<TraceOp>)
    requires Alike(r, q)
    ensures Alike(Replay(r, ops).registry, Replay(q, ops).registry) && Replay(r, ops).ok == Replay(q, ops).ok
  {
    if ops != [] {
      var front := ops[..|ops| - 1];
      AlikeReplay(r, q, front);
      AlikeStep(Replay(r, front).registry, Replay(q, front).registry, ops[|ops| - 1]);
    }
  }

  lemma {:induction false} EffectlessReplay(r: Registry, ops: seq<TraceOp>)
    requires Effectless(ops)
    ensures Replay(r, ops) == Replayed(r, true)
  {
    if ops != [] {
      EffectlessReplay(r, ops[..|ops| - 1]);
    }
  }

  lemma ReplayOne(r: Registry, ops: seq<TraceOp>, op: TraceOp)
    requires Replay(r, ops).ok && WellFormed(op)
    ensures Replay(r, ops + [op]) == Replayed(ApplyTrace(Replay(r, ops).registry, op), true)
  {
    assert (ops + [op])[..|ops|] == ops;
  }

  // ---------------------------------------------------------------------
  // The facade's own write
  // ---------------------------------------------------------------------

  lemma WritesAreWellFormed(w: Write)
    ensures WellFormed(OpOf(w))
  {
  }

  lemma LoggedDecodesAlone(run: string, w: Write, at: string)
    ensures Decoded([Logged(run, w, at)]) == [OpOf(w)]
  {
    var e := Logged(run, w, at);
    LoggedDecodes(run, w, at, e.offset);
    assert e.(offset := e.offset) == e;
  }

  /** The local update does to each view map what the logged event will do. */
  lemma LocalStep(d: Desk, w: Write)
    requires Admissible(d, w) && Local(d.registry, w).Some?
    ensures var own, r := Local(d.registry, w).value, d.registry;
            own.branches == ApplyOp(r.branches, BranchOp(OpOf(w))) && own.stages == ApplyOp(r.stages, StageOp(OpOf(w)))
  {
    LocalMatchesReplay(d.registry, w);
    StepByMap(d.registry, OpOf(w));
  }

  predicate MayRunAhead(m: Views, ops: seq<ViewOp>, op: ViewOp) {
    && (op.Opens? ==> op.id !in m && !Mentioned(ops, op.id))
    && (op.Changes? ==> op.id in m)
  }

  lemma WriteMayRunAhead(d: Desk, w: Write, ops: seq<TraceOp>)
    requires Admissible(d, w) && Local(d.registry, w).Some? && Unnamed(ops, OpOf(w))
    ensures MayRunAhead(d.registry.branches, BranchOps(ops), BranchOp(OpOf(w)))
    ensures MayRunAhead(d.registry.stages, StageOps(ops), StageOp(OpOf(w)))
  {
  }

  /** Updating at once and again in its place in the log is updating in place only: views. */
  lemma WriteAheadViews(d: Desk, w: Write, ops: seq<TraceOp>)
    requires Admissible(d, w) && Local(d.registry, w).Some? && Unnamed(ops, OpOf(w)) && AllWellFormed(ops)
    ensures var own, op := Local(d.registry, w).value, OpOf(w);
            var ahead := ApplyTrace(Replay(own, ops).registry, op);
            var inPlace := ApplyTrace(Replay(d.registry, ops).registry, op);
            ahead.branches == inPlace.branches && ahead.stages == inPlace.stages
  {
    var own, op := Local(d.registry, w).value, OpOf(w);
    WellFormedReplays(own, ops);
    WellFormedReplays(d.registry, ops);
    LocalStep(d, w);
    WriteMayRunAhead(d, w, ops);
    ReplayByMap(own, ops);
    ReplayByMap(d.registry, ops);
    StepByMap(Replay(own, ops).registry, op);
    StepByMap(Replay(d.registry, ops).registry, op);
    EarlyWrite(d.registry.branches, BranchOps(ops), BranchOp(op));
    EarlyWrite(d.registry.stages, StageOps(ops), StageOp(op));
  }

  /** Gates named by opening or resolving events, and by resolving events. */
  function OpenRefs(ops: seq<TraceOp>): set<Json> {
    set i | 0 <= i < |ops| && (ops[i].GateOpens? || ops[i].GateResolves?) :: ops[i].ref
  }

  function ResolvedRefs(ops: seq<TraceOp>): set<Json> {
    set i | 0 <= i < |ops| && ops[i].GateResolves? :: ops[i].ref
  }

  lemma RefsSnoc(ops: seq<TraceOp>, op: TraceOp)
    ensures OpenRefs(ops + [op]) == OpenRefs(ops) + (if op.GateOpens? || op.GateResolves? then {op.ref} else {})
    ensures ResolvedRefs(ops + [op]) == ResolvedRefs(ops) + (if op.GateResolves? then {op.ref} else {})
  {
    var ops' := ops + [op];
    forall i | 0 <= i < |ops| ensures ops'[i] == ops[i] { }
    assert ops'[|ops|] == op;
    forall x | x in OpenRefs(ops) ensures x in OpenRefs(ops') {
      var i :| 0 <= i < |ops| && (ops[i].GateOpens? || ops[i].GateResolves?) && ops[i].ref == x;
      assert ops'[i].ref == x;
    }
    forall x | x in ResolvedRefs(ops) ensures x in ResolvedRefs(ops') {
      var i :| 0 <= i < |ops| && ops[i].GateResolves? && ops[i].ref == x;
      assert ops'[i].ref == x;
    }
  }

  lemma {:induction false} ReplayGates(r: Registry, ops: seq<TraceOp>)
    requires Replay(r, ops).ok
    ensures Replay(r, ops).registry.openGates == r.openGates + OpenRefs(ops)
    ensures Replay(r, ops).registry.resolvedGates == r.resolvedGates + ResolvedRefs(ops)
  {
    if ops != [] {
      var front, op := ops[..|ops| - 1], ops[|ops| - 1];
      ReplayGates(r, front);
      assert ops == front + [op];
      RefsSnoc(front, op);
    }
  }

  /** The same for gates. */
  lemma WriteAheadGates(r: Registry, w: Write, ops: seq<TraceOp>)
    requires Local(r, w).Some? && AllWellFormed(ops)
    ensures var ahead := ApplyTrace(Replay(Local(r, w).value, ops).registry, OpOf(w));
            var inPlace := ApplyTrace(Replay(r, ops).registry, OpOf(w));
            ahead.openGates == inPlace.openGates && ahead.resolvedGates == inPlace.resolvedGates
  {
    WellFormedReplays(r, ops);
    WellFormedReplays(Local(r, w).value, ops);
    ReplayGates(r, ops);
    ReplayGates(Local(r, w).value, ops);
  }

  lemma WriteAhead(d: Desk, w: Write, ops: seq<TraceOp>, rest: seq<TraceOp>)
    requires Admissible(d, w) && Local(d.registry, w).Some? && Unnamed(ops, OpOf(w)) && AllWellFormed(ops)
    ensures Alike(Replay(Local(d.registry, w).value, ops + [OpOf(w)] + rest).registry,
                  Replay(d.registry, ops + [OpOf(w)] + rest).registry)
  {
    var own, op := Local(d.registry, w).value, OpOf(w);
    WritesAreWellFormed(w);
    WellFormedReplays(own, ops);
    WellFormedReplays(d.registry, ops);
    ReplayOne(own, ops, op);
    ReplayOne(d.registry, ops, op);
    WriteAheadViews(d, w, ops);
    WriteAheadGates(d.registry, w, ops);
    ReplaySplit(own, ops + [op], rest);
    ReplaySplit(d.registry, ops + [op], rest);
    AlikeReplay(Replay(own, ops + [op]).registry, Replay(d.registry, ops + [op]).registry, rest);
  }

  lemma UnnamedConcat(a: seq<TraceOp>, b: seq<TraceOp>, op: TraceOp)
    requires Unnamed(a, op) && Unnamed(b, op)
    ensures Unnamed(a + b, op)
  {
  }

  /** One possible future: the write is found in it, and what precedes it does not name its id. */
  lemma UpdateInFuture(d: Desk, w: Write, future: seq<TraceOp>)
    requires Admissible(d, w) && Local(d.registry, w).Some?
    requires AllWellFormed(Pending(d)) && AllWellFormed(future) && Finds(future, OpOf(w))
    ensures Alike(Replay(Local(d.registry, w).value, Pending(d) + future).registry,
                  Replay(d.registry, Pending(d) + future).registry)
  {
    var op := OpOf(w);
    var i :| 0 <= i < |future| && future[i] == op && Unnamed(future[..i], op);
    var before, rest := Pending(d) + future[..i], future[i + 1..];
    UnnamedConcat(Pending(d), future[..i], op);
    WellFormedConcat(Pending(d), future[..i]);
    WriteAhead(d, w, before, rest);
    assert Pending(d) + future == before + [op] + rest;
  }

  lemma OpsOfSnoc(ws: seq<Write>, w: Write)
    ensures OpsOf(ws + [w]) == OpsOf(ws) + [OpOf(w)]
  {
  }

  lemma UpdateCatchesUp(d: Desk, w: Write)
    requires DeskInv(d) && Admissible(d, w) && Local(d.registry, w).Some?
    ensures CatchesUp(Local(d.registry, w).value, Pending(d), Cold(d), OpsOf(d.inFlight + [w]))
  {
    var ops, ops' := OpsOf(d.inFlight), OpsOf(d.inFlight + [w]);
    OpsOfSnoc(d.inFlight, w);
    PendingReplays(d, EMPTY);
    forall future | Continues(future, ops')
      ensures Alike(Replay(Local(d.registry, w).value, Pending(d) + future).registry, Replay(Cold(d), future).registry)
    {
      assert Finds(future, ops'[|ops|]);
      forall k | 0 <= k < |ops| ensures Finds(future, ops[k]) { assert ops'[k] == ops[k]; }
      assert Continues(future, ops);
      UpdateInFuture(d, w, future);
    }
  }

  lemma AgreeStep(d: Desk, w: Write, cold: Registry)
    requires Admissible(d, w) && Local(d.registry, w).Some? && Agree(d.registry, cold)
    ensures Agree(Local(d.registry, w).value, ApplyTrace(cold, OpOf(w)))
  {
    LocalStep(d, w);
    StepByMap(cold, OpOf(w));
  }

  lemma WritesReplay(r: Registry, ws: seq<Write>)
    ensures Replay(r, OpsOf(ws)).ok
  {
    forall i | 0 <= i < |ws| ensures WellFormed(OpsOf(ws)[i]) { WritesAreWellFormed(ws[i]); }
    WellFormedReplays(r, OpsOf(ws));
  }

  lemma UpdateKeepsInv(run: string, d: Desk, w: Write)
    requires DeskInv(d) && Admissible(d, w) && Local(d.registry, w).Some?
    ensures DeskInv(DeskStep(run, d, Update(w)))
  {
    var d' := DeskStep(run, d, Update(w));
    UpdateCatchesUp(d, w);
    assert Pending(d') == Pending(d);
    if d.synced {
      WritesReplay(Cold(d), d.inFlight);
      WritesAreWellFormed(w);
      OpsOfSnoc(d.inFlight, w);
      ReplayOne(Cold(d), OpsOf(d.inFlight), OpOf(w));
      AgreeStep(d, w, Replay(Cold(d), OpsOf(d.inFlight)).registry);
    }
  }

  // ---------------------------------------------------------------------
  // Events reach the log
  // ---------------------------------------------------------------------

  lemma WellFormedConcat(a: seq<TraceOp>, b: seq<TraceOp>)
    requires AllWellFormed(a) && AllWellFormed(b)
    ensures AllWellFormed(a + b)
  {
  }

  lemma FindsPast(more: seq<TraceOp>, future: seq<TraceOp>, op: TraceOp)
    requires Unnamed(more, op) && Finds(future, op)
    ensures Finds(more + future, op)
  {
    var i :| 0 <= i < |future| && future[i] == op && Unnamed(future[..i], op);
    UnnamedConcat(more, future[..i], op);
    assert (more + future)[..|more| + i] == more + future[..i];
    assert (more + future)[|more| + i] == op;
  }

  /** What arrives becomes pending and joins the fresh rebuild; every future after it was a future
      before it. */
  lemma ArrivalCatchesUp(d: Desk, more: seq<TraceOp>, left: seq<TraceOp>)
    requires DeskInv(d) && AllWellFormed(more)
    requires forall future :: Continues(future, left) ==> Continues(more + future, OpsOf(d.inFlight))
    ensures CatchesUp(d.registry, Pending(d) + more, Replay(Cold(d), more).registry, left)
  {
    forall future | Continues(future, left)
      ensures Alike(Replay(d.registry, Pending(d) + more + future).registry,
                    Replay(Replay(Cold(d), more).registry, future).registry)
    {
      assert Continues(more + future, OpsOf(d.inFlight));
      assert Pending(d) + more + future == Pending(d) + (more + future);
      WellFormedReplays(Cold(d), more);
      ReplaySplit(Cold(d), more, future);
    }
  }

  /** The log, the pending part and the fresh rebuild each gain the events. */
  lemma LogGrows(d: Desk, es: seq<Event>, d': Desk)
    requires Dense(d.log) && 0 <= d.offset <= |d.log| && AllWellFormed(Decoded(d.log)) && AllWellFormed(Decoded(es))
    requires d'.offset == d.offset && d'.log == d.log + Stamp(es, |d.log| + 1)
    ensures Dense(d'.log) && AllWellFormed(Decoded(d'.log))
    ensures Pending(d') == Pending(d) + Decoded(es) && Cold(d') == Replay(Cold(d), Decoded(es)).registry
  {
    PendingGrows(d, es);
    WellFormedConcat(Decoded(d.log), Decoded(es));
    WellFormedReplays(EMPTY, Decoded(d.log));
    ReplaySplit(EMPTY, Decoded(d.log), Decoded(es));
  }

  lemma ElsewhereKeepsInv(run: string, d: Desk, es: seq<Event>)
    requires DeskInv(d) && MayArrive(d, Decoded(es))
    ensures DeskInv(DeskStep(run, d, Elsewhere(es)))
  {
    var d', more, ops := DeskStep(run, d, Elsewhere(es)), Decoded(es), OpsOf(d.inFlight);
    LogGrows(d, es, d');
    forall future | Continues(future, ops) ensures Continues(more + future, ops) {
      WellFormedConcat(more, future);
      forall k | 0 <= k < |ops| ensures Finds(more + future, ops[k]) { FindsPast(more, future, ops[k]); }
    }
    ArrivalCatchesUp(d, more, ops);
    if d'.synced {
      EffectlessReplay(Cold(d), more);
    }
  }

  /** A future of the remaining writes is, with the logged one in front, a future of all. */
  lemma LoggedIsFound(d: Desk, k: nat, future: seq<TraceOp>)
    requires MayLog(d, k) && Continues(future, OpsOf(d.inFlight[..k] + d.inFlight[k + 1..]))
    ensures Continues([OpOf(d.inFlight[k])] + future, OpsOf(d.inFlight))
  {
    var ws, first := d.inFlight, [OpOf(d.inFlight[k])];
    var left := ws[..k] + ws[k + 1..];
    WritesAreWellFormed(ws[k]);
    WellFormedConcat(first, future);
    forall j | 0 <= j < |ws| ensures Finds(first + future, OpsOf(ws)[j]) {
      if j == k {
        assert (first + future)[0] == OpsOf(ws)[k];
      } else {
        var i := if j < k then j else j - 1;
        assert left[i] == ws[j] && OpsOf(left)[i] == OpsOf(ws)[j];
        assert Finds(future, OpsOf(left)[i]);
        FindsPast(first, future, OpsOf(ws)[j]);
      }
    }
  }

  lemma LogNextCatchesUp(run: string, d: Desk, k: nat, at: string)
    requires DeskInv(d) && MayLog(d, k)
    ensures var d' := DeskStep(run, d, LogNext(k, at));
            CatchesUp(d'.registry, Pending(d'), Cold(d'), OpsOf(d'.inFlight))
  {
    var d', w := DeskStep(run, d, LogNext(k, at)), d.inFlight[k];
    var left := OpsOf(d'.inFlight);
    LogNextGrows(run, d, k, at);
    WritesAreWellFormed(w);
    forall future | Continues(future, left) ensures Continues([OpOf(w)] + future, OpsOf(d.inFlight)) {
      LoggedIsFound(d, k, future);
    }
    ArrivalCatchesUp(d, [OpOf(w)], left);
  }

  lemma LogNextGrows(run: string, d: Desk, k: nat, at: string)
    requires DeskInv(d) && MayLog(d, k)
    ensures var d', more := DeskStep(run, d, LogNext(k, at)), [OpOf(d.inFlight[k])];
            && Dense(d'.log) && d'.offset <= |d'.log| && AllWellFormed(Decoded(d'.log))
            && Pending(d') == Pending(d) + more && Cold(d') == Replay(Cold(d), more).registry
  {
    var w := d.inFlight[k];
    LoggedDecodesAlone(run, w, at);
    WritesAreWellFormed(w);
    LogGrows(d, [Logged(run, w, at)], DeskStep(run, d, LogNext(k, at)));
  }

  lemma LogNextKeepsInv(run: string, d: Desk, k: nat, at: string)
    requires DeskInv(d) && MayLog(d, k)
    ensures DeskInv(DeskStep(run, d, LogNext(k, at)))
  {
    LogNextGrows(run, d, k, at);
    LogNextCatchesUp(run, d, k, at);
    LogNextStaysWarm(run, d, k, at);
  }

  lemma LogNextStaysWarm(run: string, d: Desk, k: nat, at: string)
    requires DeskInv(d) && MayLog(d, k)
    ensures var d' := DeskStep(run, d, LogNext(k, at));
            d'.synced ==> Agree(d'.registry, Replay(Cold(d'), OpsOf(d'.inFlight)).registry)
  {
    LogNextGrows(run, d, k, at);
    if k == 0 {
      FirstLogged(d, Cold(d));
    }
  }

  /** Logging the oldest write in flight does not change where the fresh rebuild is heading. */
  lemma FirstLogged(d: Desk, cold: Registry)
    requires d.inFlight != []
    ensures Replay(Replay(cold, [OpOf(d.inFlight[0])]).registry, OpsOf(d.inFlight[..0] + d.inFlight[1..]))
         == Replay(cold, OpsOf(d.inFlight))
  {
    var first, rest := [OpOf(d.inFlight[0])], OpsOf(d.inFlight[1..]);
    assert d.inFlight[..0] + d.inFlight[1..] == d.inFlight[1..];
    assert OpsOf(d.inFlight) == first + rest;
    WritesAreWellFormed(d.inFlight[0]);
    WellFormedReplays(cold, first);
    ReplaySplit(cold, first, rest);
  }

  // ---------------------------------------------------------------------
  // Refresh and eviction
  // ---------------------------------------------------------------------

  lemma RefreshReplays(run: string, d: Desk)
    requires DeskInv(d)
    ensures var d' := DeskStep(run, d, Refresh);
            && Replay(d.registry, Pending(d)) == Replayed(d'.registry, true)
            && d'.offset == TraceOffset(d.offset, d.log[d.offset..])
  {
    LoadDropsPrefix(d.log, d.offset);
    PendingReplays(d, d.registry);
  }

  /** What is still pending after a refresh has no effect. */
  lemma RefreshCatchesUp(run: string, d: Desk)
    requires DeskInv(d)
    ensures var d' := DeskStep(run, d, Refresh);
            && 0 <= d'.offset <= |d.log|
            && Replay(d.registry, Pending(d)) == Replayed(d'.registry, true)
            && Replay(d'.registry, Pending(d')) == Replayed(d'.registry, true)
  {
    RefreshReplays(run, d);
    RestIsQuiet(d.log, d.offset);
    var d' := DeskStep(run, d, Refresh);
    QuietReplay(d'.registry, d.log[d'.offset..]);
  }

  lemma RefreshKeepsFutures(run: string, d: Desk, d': Desk, future: seq<TraceOp>)
    requires DeskInv(d) && d' == DeskStep(run, d, Refresh) && Continues(future, OpsOf(d.inFlight))
    ensures Alike(Replay(d'.registry, Pending(d') + future).registry, Replay(Cold(d), future).registry)
  {
    RefreshCatchesUp(run, d);
    ReplaySplit(d'.registry, Pending(d'), future);
    ReplaySplit(d.registry, Pending(d), future);
  }

  /** With nothing in flight a refresh lands on the fresh rebuild. */
  lemma RefreshLands(run: string, d: Desk)
    requires DeskInv(d) && d.inFlight == []
    ensures var d' := DeskStep(run, d, Refresh); Alike(d'.registry, Cold(d)) && Agree(d'.registry, Cold(d))
  {
    RefreshCatchesUp(run, d);
    assert Continues([], OpsOf(d.inFlight)) && Pending(d) + [] == Pending(d);
    ResolvedWereOpened(Decoded(d.log));
    PendingReplays(d, EMPTY);
    ReplayGates(EMPTY, Decoded(d.log));
  }

  lemma ResolvedWereOpened(ops: seq<TraceOp>)
    ensures ResolvedRefs(ops) <= OpenRefs(ops)
  {
  }

  lemma RefreshKeepsInv(run: string, d: Desk)
    requires DeskInv(d)
    ensures DeskInv(DeskStep(run, d, Refresh))
  {
    var d' := DeskStep(run, d, Refresh);
    RefreshCatchesUp(run, d);
    forall future | Continues(future, OpsOf(d.inFlight))
      ensures Alike(Replay(d'.registry, Pending(d') + future).registry, Replay(Cold(d), future).registry)
    {
      RefreshKeepsFutures(run, d, d', future);
    }
    if d'.synced {
      RefreshLands(run, d);
      assert OpsOf(d.inFlight) == [];
    }
  }

  lemma EvictKeepsInv(run: string, d: Desk)
    requires DeskInv(d)
    ensures DeskInv(DeskStep(run, d, Evict))
  {
    var d' := DeskStep(run, d, Evict);
    assert d.log[0..] == d.log;
    PendingReplays(d, EMPTY);
    forall future | Continues(future, OpsOf(d.inFlight))
      ensures Alike(Replay(EMPTY, Pending(d') + future).registry, Replay(Cold(d), future).registry)
    {
      ReplaySplit(EMPTY, Decoded(d.log), future);
    }
  }

  lemma DeskStepKeepsInv(run: string, d: Desk, move: DeskMove)
    requires DeskInv(d)
    ensures DeskInv(DeskStep(run, d, move))
  {
    match move
    case Update(w) => if Admissible(d, w) && Local(d.registry, w).Some? { UpdateKeepsInv(run, d, w); }
    case LogNext(k, at) => if MayLog(d, k) { LogNextKeepsInv(run, d, k, at); }
    case Elsewhere(es) => if MayArrive(d, Decoded(es)) { ElsewhereKeepsInv(run, d, es); }
    case Evict => EvictKeepsInv(run, d);
    case Refresh => RefreshKeepsInv(run, d);
  }

  lemma FreshIsInv()
    ensures DeskInv(FRESH)
  {
    assert Pending(FRESH) == [] && Decoded(FRESH.log) == [] && OpsOf(FRESH.inFlight) == [];
    forall future | Continues(future, []) ensures Alike(Replay(EMPTY, [] + future).registry, Replay(Cold(FRESH), future).registry) {
      assert [] + future == future;
    }
  }

  lemma {:induction false} DeskRunKeepsInv(run: string, moves: seq<DeskMove>)
    ensures DeskInv(DeskRun(run, moves))
  {
    if moves != [] {
      DeskRunKeepsInv(run, moves[..|moves| - 1]);
      DeskStepKeepsInv(run, DeskRun(run, moves[..|moves| - 1]), moves[|moves| - 1]);
    } else {
      FreshIsInv();
    }
  }

  // ---------------------------------------------------------------------
  // Main results, over every sequence of moves
  // ---------------------------------------------------------------------

  /** However the facade's own writes, other writers' events, evictions and refreshes interleave,
      a refresh while no own write is in flight shows exactly the branches, stages, open and
      resolved gates that a fresh facade rebuilds from the same log. */
  lemma QueryEqualsCold(run: string, moves: seq<DeskMove>)
    requires DeskRun(run, moves).inFlight == []
    ensures var d := DeskRun(run, moves);
            && Replay(EMPTY, Decoded(d.log)).ok
            && DeskStep(run, d, Refresh).log == d.log && Alike(DeskStep(run, d, Refresh).registry, Cold(d))
  {
    DeskRunKeepsInv(run, moves);
    PendingReplays(DeskRun(run, moves), EMPTY);
    RefreshLands(run, DeskRun(run, moves));
  }

  /** With own writes in flight, the facade and a fresh one meet as soon as the log has taken them
      in, in whatever order and among whatever else: no update done early is lost or resurrected. */
  lemma InFlightCatchesUp(run: string, moves: seq<DeskMove>, future: seq<TraceOp>)
    requires Continues(future, OpsOf(DeskRun(run, moves).inFlight))
    ensures var d := DeskRun(run, moves);
            Alike(Replay(d.registry, Pending(d) + future).registry, Replay(EMPTY, Decoded(d.log) + future).registry)
  {
    var d := DeskRun(run, moves);
    DeskRunKeepsInv(run, moves);
    PendingReplays(d, EMPTY);
    ReplaySplit(EMPTY, Decoded(d.log), future);
  }

  /** And without a refresh, while the facade is in sync: branches, stages and resolved gates are
      those a fresh facade would have once the writes in flight are logged, and its open gates are
      the writer's open or resolved ones. */
  lemma WarmEqualsCold(run: string, moves: seq<DeskMove>)
    requires DeskRun(run, moves).synced
    ensures var d := DeskRun(run, moves); Agree(d.registry, Replay(EMPTY, Decoded(d.log) + OpsOf(d.inFlight)).registry)
  {
    var d := DeskRun(run, moves);
    DeskRunKeepsInv(run, moves);
    PendingReplays(d, EMPTY);
    ReplaySplit(EMPTY, Decoded(d.log), OpsOf(d.inFlight));
  }

  /** Then, with nothing in flight, replaying the log from wherever the writer left off changes none
      of its views. */
  lemma OwnReplayIsIdle(run: string, moves: seq<DeskMove>)
    requires DeskRun(run, moves).synced && DeskRun(run, moves).inFlight == []
    ensures var d := DeskRun(run, moves);
            var d' := DeskStep(run, d, Refresh);
            d'.registry.branches == d.registry.branches && d'.registry.stages == d.registry.stages
  {
    var d := DeskRun(run, moves);
    DeskRunKeepsInv(run, moves);
    RefreshLands(run, d);
    assert OpsOf(d.inFlight) == [];
  }

  /** The two conditions on writes are needed. Any write of a facade that is in sync, covered or
      not, leaves its branches and stages those of a fresh facade exactly when it neither opens a
      known id with other content nor blanks a stage's failure code. */
  lemma WriteStaysWarmIff(run: string, moves: seq<DeskMove>, w: Write)
    requires DeskRun(run, moves).synced && Local(DeskRun(run, moves).registry, w).Some?
    ensures var d := DeskRun(run, moves);
            var own := Local(d.registry, w).value;
            var cold := Replay(EMPTY, Decoded(d.log) + OpsOf(d.inFlight + [w])).registry;
            (own.branches == cold.branches && own.stages == cold.stages) <==> Faithful(d.registry, w)
  {
    var d := DeskRun(run, moves);
    var before := Decoded(d.log) + OpsOf(d.inFlight);
    WarmEqualsCold(run, moves);
    OpsOfSnoc(d.inFlight, w);
    assert Decoded(d.log) + OpsOf(d.inFlight + [w]) == before + [OpOf(w)];
    DeskRunKeepsInv(run, moves);
    WritesReplay(Cold(d), d.inFlight);
    PendingReplays(d, EMPTY);
    ReplaySplit(EMPTY, Decoded(d.log), OpsOf(d.inFlight));
    WritesAreWellFormed(w);
    ReplayOne(EMPTY, before, OpOf(w));
    LocalMatchesReplay(d.registry, w);
    StepByMap(d.registry, OpOf(w));
    StepByMap(Replay(EMPTY, before).registry, OpOf(w));
  }

  /** So is the condition on the order of logging. If a branch is opened and marked locally and the
      mark is logged before the opening, the facade keeps the mark for good and a fresh facade
      never sees it: they agree exactly when the mark says nothing new. */
  lemma LateOpeningDiverges(open: Write, mark: Write)
    requires open.OpenBranch? && mark.MarkBranch? && mark.branchId == open.branchId
    ensures var started := Local(EMPTY, open).value;
            var log := [OpOf(mark), OpOf(open)];
            && Local(started, mark).Some?
            && (Replay(Local(started, mark).value, log).registry.branches == Replay(EMPTY, log).registry.branches
                <==> mark.newState == "active" && NonEmpty(mark.failureCode).None?)
  {
    var own := Local(Local(EMPTY, open).value, mark).value;
    var op, id, v := OpOf(mark).op, JStr(open.branchId), NewBranch(open);
    TwoEvents(own, OpOf(mark), OpOf(open));
    TwoEvents(EMPTY, OpOf(mark), OpOf(open));
    LateOpening(id, v, op.patch);
    LocalMatchesReplay(Local(EMPTY, open).value, mark);
    assert own.branches == map[id := PatchView(op.patch, v)];
    PatchSaysNothing(mark, v);
  }

  lemma TwoEvents(r: Registry, a: TraceOp, b: TraceOp)
    requires WellFormed(a) && WellFormed(b)
    ensures Replay(r, [a, b]).registry.branches == ApplyOp(ApplyOp(r.branches, BranchOp(a)), BranchOp(b))
  {
    ReplayOne(r, [], a);
    ReplayOne(r, [a], b);
    assert [] + [a] == [a] && [a] + [b] == [a, b];
    StepByMap(r, a);
    StepByMap(ApplyTrace(r, a), b);
  }

  lemma LateOpening(id: Json, v: View, p: Patch)
    ensures ApplyOp(ApplyOp(map[id := PatchView(p, v)], Changes(id, p)), Opens(id, v)) == map[id := PatchView(p, v)]
    ensures ApplyOp(ApplyOp(map[], Changes(id, p)), Opens(id, v)) == map[id := v]
  {
    var m: Views := map[id := PatchView(p, v)];
    assert ApplyOp(m, Changes(id, p))[id] == PatchView(p, v);
    assert ApplyOp(m, Changes(id, p)) == m;
  }

  lemma PatchSaysNothing(mark: Write, v: View)
    requires mark.MarkBranch? && v.state == JStr("active") && v.failureCode == JNull
    ensures PatchView(OpOf(mark).op.patch, v) == v <==> mark.newState == "active" && NonEmpty(mark.failureCode).None?
  {
  }

  // ---------------------------------------------------------------------
  // The desk is what the facade does to one run
  // ---------------------------------------------------------------------

  function DeskOf(s: Cache, run: string, log: seq<Event>, inFlight: seq<Write>, synced: bool): Desk {
    Desk(RegistryOf(s, run), OffsetOf(s, run), log, inFlight, synced)
  }

  /** A touch never costs the run it touches its own state. */
  lemma TouchKeepsOwn(s: Cache, cap: nat, run: string)
    requires Tidy(s, cap) && cap > 0
    ensures RegistryOf(Touch(s, cap, run), run) == RegistryOf(s, run)
    ensures OffsetOf(Touch(s, cap, run), run) == OffsetOf(s, run)
  {
    if run !in s.tracked {
      TouchIsFifo(s, cap, run);
      assert |s.order| == cap ==> s.order[0] in Elements(s.order);
    }
  }

  /** Up to its log append, a write of the facade is the desk's update, whatever it evicts. */
  lemma FacadeWritesLikeDesk(s: Cache, cap: nat, run: string, log: seq<Event>, inFlight: seq<Write>, synced: bool, w: Write)
    requires Tidy(s, cap) && cap > 0
    requires Perform(s, cap, run, w).logs && Admissible(DeskOf(s, run, log, inFlight, synced), w)
    ensures DeskOf(Perform(s, cap, run, w).cache, run, log, inFlight + [w], synced)
         == DeskStep(run, DeskOf(s, run, log, inFlight, synced), Update(w))
  {
    TouchKeepsOwn(s, cap, run);
  }

  /** A rebuild of the facade's cache is the desk's refresh. */
  lemma FacadeRefreshesLikeDesk(s: Cache, run: string, log: seq<Event>, inFlight: seq<Write>, synced: bool)
    ensures var done := Rebuild(s, run, log);
            var desk := DeskOf(done.cache, run, log, inFlight, done.ok && inFlight == []);
            desk == DeskStep(run, DeskOf(s, run, log, inFlight, synced), Refresh)
  {
  }

  /** Touches and cleanups, of this run or any other, leave the desk alone or evict it. */
  lemma FacadeEvictsLikeDesk(s: Cache, cap: nat, run: string, log: seq<Event>, inFlight: seq<Write>, q: string)
    ensures forall s' :: s' in {Touch(s, cap, q), Cleanup(s, q)} ==>
              || (forall synced :: DeskOf(s', run, log, inFlight, synced) == DeskOf(s, run, log, inFlight, synced))
              || (forall synced :: DeskOf(s', run, log, inFlight, false)
                                == DeskStep(run, DeskOf(s, run, log, inFlight, synced), Evict))
  {
    if q !in s.tracked {
      EvictDownKeepsOrResets(run, s.(tracked := s.tracked + {q}, order := s.order + [q]), cap);
    }
  }
}
