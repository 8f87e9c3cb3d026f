/** Branch, stage and human-gate registries of one run, and their replay from trace events. */
module TraceRegistry {
  import opened Basics
  import opened RunProjection

  datatype Fixed =
    | BranchFields(stageId: Json, openedAt: Json, parentBranchId: Json, proposedBy: Json)
    | StageFields(enteredAt: Json, branchId: Json)

  /** A branch or stage view: the fields set at opening and the three that change later. */
  datatype View = View(state: Json, exitedAt: Json, failureCode: Json, fixed: Fixed)

  /** Views by id. Ids are whatever JSON value an event carries, as a dictionary key. */
  type Views = map<Json, View>

  datatype Registry = Registry(
    branches: Views,
    stages: Views,
    openGates: set<Json>,
    resolvedGates: set<Json>,
    gateTypes: map<string, string>,
    gateResolutions: map<string, string>)

  const EMPTY := Registry(map[], map[], {}, {}, map[], map[])

  /** A state change as it is replayed: falsy parts keep the old value. */
  datatype Patch = Patch(state: Option<Json>, exitedAt: Json, failureCode: Json)

  function PatchView(p: Patch, v: View): View {
    v.(state := if p.state.Some? then p.state.value else v.state,
       exitedAt := if Truthy(p.exitedAt) then p.exitedAt else v.exitedAt,
       failureCode := if Truthy(p.failureCode) then p.failureCode else v.failureCode)
  }

  /** What one event does to one of the two view maps. */
  datatype ViewOp = Opens(id: Json, view: View) | Changes(id: Json, patch: Patch) | Leaves

  function ApplyOp(m: Views, op: ViewOp): Views {
    match op
    case Opens(id, v) => if id in m then m else m[id := v]
    case Changes(id, p) => if id in m then m[id := PatchView(p, m[id])] else m
    case Leaves => m
  }

  datatype TraceOp = OnBranch(op: ViewOp) | OnStage(op: ViewOp) | GateOpens(ref: Json) | GateResolves(ref: Json)
                   | NoEffect | Malformed

  function GetOr(p: Payload, key: string, default: Json): Json {
    if key in p then p[key] else default
  }

  function Lookup(p: Payload, key: string): Option<Json> {
    if key in p then Some(p[key]) else None
  }

  /** A JSON value as a dictionary key: `True` and `False` are the keys 1 and 0, lists and objects
      cannot be keys. */
  function AsKey(j: Json): Option<Json> {
    match j
    case JBool(b) => Some(JNum(if b then 1.0 else 0.0))
    case JList(_) => None
    case JObj(_) => None
    case _ => Some(j)
  }

  function KeyAt(p: Payload, key: string): Option<Json> {
    if key in p then AsKey(p[key]) else None
  }

  /** Read an event's payload the way the rebuild does; an id that is missing or cannot be a key
      is a `KeyError` or a `TypeError`. */
  function Decode(e: Event): TraceOp {
    var p := e.payload;
    match e.kind
    case BranchOpened =>
      if KeyAt(p, "branch_id").Some? && "stage_id" in p then
        OnBranch(Opens(KeyAt(p, "branch_id").value,
                       View(GetOr(p, "state", JStr("active")), JNull, JNull,
                            BranchFields(p["stage_id"], GetOr(p, "opened_at", JStr(e.createdAt)),
                                         Get(p, "parent_branch_id"), Get(p, "proposed_by")))))
      else Malformed
    case BranchChanged =>
      if KeyAt(p, "branch_id").Some? then
        OnBranch(Changes(KeyAt(p, "branch_id").value, Patch(Lookup(p, "new_state"), JNull, Get(p, "failure_code"))))
      else Malformed
    case StageOpened =>
      if KeyAt(p, "stage_id").Some? then
        OnStage(Opens(KeyAt(p, "stage_id").value,
                      View(GetOr(p, "state", JStr("active")), JNull, JNull,
                           StageFields(GetOr(p, "entered_at", JStr(e.createdAt)), Get(p, "branch_id")))))
      else Malformed
    case StageChanged =>
      if KeyAt(p, "stage_id").Some? then
        OnStage(Changes(KeyAt(p, "stage_id").value,
                        Patch(Lookup(p, "new_state"), Get(p, "exited_at"), Get(p, "failure_code"))))
      else Malformed
    case GateOpened => if KeyAt(p, "gate_ref").Some? then GateOpens(KeyAt(p, "gate_ref").value) else Malformed
    case GateResolved => if KeyAt(p, "gate_ref").Some? then GateResolves(KeyAt(p, "gate_ref").value) else Malformed
    case _ => NoEffect
  }

  /** The rebuild of one event raises: an id is missing, or the new state of a known view is. */
  predicate Raises(r: Registry, op: TraceOp) {
    match op
    case Malformed => true
    case OnBranch(Changes(id, p)) => id in r.branches && p.state.None?
    case OnStage(Changes(id, p)) => id in r.stages && p.state.None?
    case _ => false
  }

  function ApplyTrace(r: Registry, op: TraceOp): Registry {
    match op
    case OnBranch(o) => r.(branches := ApplyOp(r.branches, o))
    case OnStage(o) => r.(stages := ApplyOp(r.stages, o))
    case GateOpens(ref) => r.(openGates := r.openGates + {ref})
    case GateResolves(ref) => r.(openGates := r.openGates + {ref}, resolvedGates := r.resolvedGates + {ref})
    case _ => r
  }

  datatype Replayed = Replayed(registry: Registry, ok: bool)

  function Decoded(es: seq<Event>): (ops: seq<TraceOp>)
    ensures |ops| == |es|
  {
    seq(|es|, i requires 0 <= i < |es| => Decode(es[i]))
  }

  /** Merge events in order; the first one that raises ends the replay. */
  function Replay(r: Registry, ops: seq<TraceOp>): Replayed {
    if ops == [] then Replayed(r, true)
    else
      var before, op := Replay(r, ops[..|ops| - 1]), ops[|ops| - 1];
      if !before.ok then before
      else if Raises(before.registry, op) then before.(ok := false)
      else Replayed(ApplyTrace(before.registry, op), true)
  }

  lemma {:induction false} ReplaySplit(r: Registry, a: seq<TraceOp>, b: seq<TraceOp>)
    requires Replay(r, a).ok
    ensures Replay(r, a + b) == Replay(Replay(r, a).registry, b)
  {
    if b == [] {
      assert a + b == a;
    } else {
      ReplaySplit(r, a, b[..|b| - 1]);
      assert (a + b)[..|a + b| - 1] == a + b[..|b| - 1];
    }
  }

  /** Carries every field its writer always writes. */
  predicate WellFormed(op: TraceOp) {
    !op.Malformed? && (op.OnBranch? || op.OnStage? ==> op.op.Changes? ==> op.op.patch.state.Some?)
  }

  lemma {:induction false} WellFormedReplays(r: Registry, ops: seq<TraceOp>)
    requires forall i :: 0 <= i < |ops| ==> WellFormed(ops[i])
    ensures Replay(r, ops).ok
  {
    if ops != [] {
      WellFormedReplays(r, ops[..|ops| - 1]);
    }
  }

  // ---------------------------------------------------------------------
  // A write applied before the events that precede it in the log
  // ---------------------------------------------------------------------

  function ApplyOps(m: Views, ops: seq<ViewOp>): Views {
    if ops == [] then m else ApplyOp(ApplyOps(m, ops[..|ops| - 1]), ops[|ops| - 1])
  }

  predicate Names(op: ViewOp, id: Json) { !op.Leaves? && op.id == id }

  predicate Mentioned(ops: seq<ViewOp>, id: Json) {
    exists i :: 0 <= i < |ops| && Names(ops[i], id)
  }

  function Compose(p: Patch, q: Patch): Patch {
    Patch(if q.state.Some? then q.state else p.state,
          if Truthy(q.exitedAt) then q.exitedAt else p.exitedAt,
          if Truthy(q.failureCode) then q.failureCode else p.failureCode)
  }

  /** All changes of one id as a single patch. */
  function Total(ops: seq<ViewOp>, id: Json): Patch {
    if ops == [] then Patch(None, JNull, JNull)
    else
      var before, last := Total(ops[..|ops| - 1], id), ops[|ops| - 1];
      if last.Changes? && last.id == id then Compose(before, last.patch) else before
  }

  lemma ComposedPatch(p: Patch, q: Patch, v: View)
    ensures PatchView(Compose(p, q), v) == PatchView(q, PatchView(p, v))
  {
  }

  lemma OneOpOnPresent(m: Views, op: ViewOp, id: Json, p: Patch, v: View)
    requires id in m
    ensures var p' := if op.Changes? && op.id == id then Compose(p, op.patch) else p;
            id in ApplyOp(m, op) && ApplyOp(m[id := PatchView(p, v)], op) == ApplyOp(m, op)[id := PatchView(p', v)]
  {
    if op.Changes? && op.id == id {
      ComposedPatch(p, op.patch, v);
    }
  }

  /** A view already present evolves on its own, by the total patch of its id. */
  lemma {:induction false} PresentViewEvolves(m: Views, ops: seq<ViewOp>, id: Json, v: View)
    requires id in m
    ensures id in ApplyOps(m, ops)
    ensures ApplyOps(m[id := v], ops) == ApplyOps(m, ops)[id := PatchView(Total(ops, id), v)]
  {
    if ops != [] {
      var front, last := ops[..|ops| - 1], ops[|ops| - 1];
      PresentViewEvolves(m, front, id, v);
      OneOpOnPresent(ApplyOps(m, front), last, id, Total(front, id), v);
    }
  }

  lemma {:induction false} UnmentionedIsFree(m: Views, ops: seq<ViewOp>, id: Json, v: View)
    requires id !in m && !Mentioned(ops, id)
    ensures id !in ApplyOps(m, ops) && ApplyOps(m[id := v], ops) == ApplyOps(m, ops)[id := v]
  {
    if ops != [] {
      var front := ops[..|ops| - 1];
      assert !Names(ops[|ops| - 1], id);
      forall i | 0 <= i < |front| ensures !Names(front[i], id) { assert front[i] == ops[i]; }
      UnmentionedIsFree(m, front, id, v);
    }
  }

  lemma PatchAbsorbs(p: Patch, f: Patch, v: View)
    ensures PatchView(p, PatchView(f, PatchView(p, v))) == PatchView(p, PatchView(f, v))
  {
  }

  lemma EarlyChange(m: Views, ops: seq<ViewOp>, id: Json, p: Patch)
    requires id in m
    ensures ApplyOp(ApplyOps(m[id := PatchView(p, m[id])], ops), Changes(id, p)) == ApplyOp(ApplyOps(m, ops), Changes(id, p))
  {
    PresentViewEvolves(m, ops, id, PatchView(p, m[id]));
    PresentViewEvolves(m, ops, id, m[id]);
    assert m[id := m[id]] == m;
    PatchAbsorbs(p, Total(ops, id), m[id]);
  }

  /** The writer's map may run ahead: applying an operation at once, before the operations the log
      holds in front of it, ends in the same views as applying it only in its place in the log, as
      long as a change finds its view and an opened id is new to the map and to those operations. */
  lemma EarlyWrite(m: Views, ops: seq<ViewOp>, op: ViewOp)
    requires op.Opens? ==> op.id !in m && !Mentioned(ops, op.id)
    requires op.Changes? ==> op.id in m
    ensures ApplyOp(ApplyOps(ApplyOp(m, op), ops), op) == ApplyOp(ApplyOps(m, ops), op)
  {
    match op
    case Opens(id, v) => UnmentionedIsFree(m, ops, id, v);
    case Changes(id, p) => EarlyChange(m, ops, id, p);
    case Leaves =>
  }

  // ---------------------------------------------------------------------
  // Replay seen through each map
  // ---------------------------------------------------------------------

  function BranchOp(op: TraceOp): ViewOp { if op.OnBranch? then op.op else Leaves }
  function StageOp(op: TraceOp): ViewOp { if op.OnStage? then op.op else Leaves }

  function BranchOps(ops: seq<TraceOp>): seq<ViewOp> {
    seq(|ops|, i requires 0 <= i < |ops| => BranchOp(ops[i]))
  }

  function StageOps(ops: seq<TraceOp>): seq<ViewOp> {
    seq(|ops|, i requires 0 <= i < |ops| => StageOp(ops[i]))
  }

  lemma StepByMap(r: Registry, op: TraceOp)
    ensures ApplyTrace(r, op).branches == ApplyOp(r.branches, BranchOp(op))
    ensures ApplyTrace(r, op).stages == ApplyOp(r.stages, StageOp(op))
  {
  }

  lemma OpsSnoc(ops: seq<TraceOp>)
    requires ops != []
    ensures var front, last := ops[..|ops| - 1], ops[|ops| - 1];
            BranchOps(ops) == BranchOps(front) + [BranchOp(last)] && StageOps(ops) == StageOps(front) + [StageOp(last)]
  {
  }

  lemma ApplySnoc(m: Views, ops: seq<ViewOp>, op: ViewOp)
    ensures ApplyOps(m, ops + [op]) == ApplyOp(ApplyOps(m, ops), op)
  {
    assert (ops + [op])[..|ops|] == ops;
  }

  /** Replay acts on the branch map and on the stage map independently. */
  lemma {:induction false} ReplayByMap(r: Registry, ops: seq<TraceOp>)
    requires Replay(r, ops).ok
    ensures Replay(r, ops).registry.branches == ApplyOps(r.branches, BranchOps(ops))
    ensures Replay(r, ops).registry.stages == ApplyOps(r.stages, StageOps(ops))
  {
    if ops != [] {
      var front, last := ops[..|ops| - 1], ops[|ops| - 1];
      ReplayByMap(r, front);
      StepByMap(Replay(r, front).registry, last);
      OpsSnoc(ops);
      ApplySnoc(r.branches, BranchOps(front), BranchOp(last));
      ApplySnoc(r.stages, StageOps(front), StageOp(last));
    }
  }
}
