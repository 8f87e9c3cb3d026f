/** The facade's trace writes: the local registry update and the event each one logs. */
module TraceWrites {
  import opened Basics
  import opened RunProjection
  import opened TraceRegistry

  datatype Write =
    | OpenBranch(branchId: string, stageId: string, parent: Option<string>, proposedBy: Option<string>, now: string)
    | MarkBranch(branchId: string, newState: string, failureCode: Option<string>)
    | OpenStage(stageId: string, branch: Option<string>, now: string)
    | MarkStage(stageId: string, newState: string, failureCode: Option<string>, now: string)
    | OpenGate(gateRef: string, gateType: string)
    | Approve(approvalRef: string, approved: bool)

  function Opt(o: Option<string>): Json { if o.Some? then JStr(o.value) else JNull }

  /** An optional string that counts as absent when empty. */
  function NonEmpty(o: Option<string>): Option<string> { OrElse(o, None) }

  function NewBranch(w: Write): View
    requires w.OpenBranch?
  {
    View(JStr("active"), JNull, JNull, BranchFields(JStr(w.stageId), JStr(w.now), Opt(w.parent), Opt(w.proposedBy)))
  }

  function NewStage(w: Write): View
    requires w.OpenStage?
  {
    View(JStr("active"), JNull, JNull, StageFields(JStr(w.now), Opt(w.branch)))
  }

  function ExitTime(w: Write): Option<string>
    requires w.MarkStage?
  {
    if w.newState == "completed" || w.newState == "failed" then Some(w.now) else None
  }

  /** The writing facade's own registry afterwards; `None` is the `KeyError` of an unknown id. */
  function Local(r: Registry, w: Write): Option<Registry> {
    match w
    case OpenBranch(id, _, _, _, _) => Some(r.(branches := r.branches[JStr(id) := NewBranch(w)]))
    case MarkBranch(id, s, code) =>
      if JStr(id) !in r.branches then None
      else
        var v := r.branches[JStr(id)];
        Some(r.(branches := r.branches[JStr(id) :=
          v.(state := JStr(s), failureCode := if NonEmpty(code).Some? then JStr(code.value) else v.failureCode)]))
    case OpenStage(id, _, _) => Some(r.(stages := r.stages[JStr(id) := NewStage(w)]))
    case MarkStage(id, s, code, _) =>
      if JStr(id) !in r.stages then None
      else
        var v, exit := r.stages[JStr(id)], ExitTime(w);
        Some(r.(stages := r.stages[JStr(id) :=
          v.(state := JStr(s),
             exitedAt := if NonEmpty(exit).Some? then JStr(exit.value) else v.exitedAt,
             failureCode := if code.Some? then JStr(code.value) else v.failureCode)]))
    case OpenGate(ref, t) => Some(r.(openGates := r.openGates + {JStr(ref)}, gateTypes := r.gateTypes[ref := t]))
    case Approve(ref, yes) =>
      Some(r.(resolvedGates := r.resolvedGates + {JStr(ref)},
              gateResolutions := r.gateResolutions[ref := if yes then "approved" else "rejected"]))
  }

  function EventType(w: Write): string {
    match w
    case OpenBranch(_, _, _, _, _) => "trace.branch_opened"
    case MarkBranch(_, _, _) => "trace.branch_state_changed"
    case OpenStage(_, _, _) => "trace.stage_opened"
    case MarkStage(_, _, _, _) => "trace.stage_state_changed"
    case OpenGate(_, _) => "trace.human_gate_opened"
    case Approve(_, _) => "trace.human_gate_resolved"
  }

  function EventPayload(w: Write): Payload {
    match w
    case OpenBranch(id, stage, parent, proposer, now) =>
      map["branch_id" := JStr(id), "stage_id" := JStr(stage), "state" := JStr("active"), "opened_at" := JStr(now),
          "parent_branch_id" := Opt(parent), "proposed_by" := Opt(proposer)]
    case MarkBranch(id, s, code) =>
      map["branch_id" := JStr(id), "new_state" := JStr(s), "failure_code" := Opt(NonEmpty(code))]
    case OpenStage(id, branch, now) =>
      map["stage_id" := JStr(id), "state" := JStr("active"), "entered_at" := JStr(now), "branch_id" := Opt(branch)]
    case MarkStage(id, s, code, _) =>
      map["stage_id" := JStr(id), "new_state" := JStr(s), "exited_at" := Opt(ExitTime(w)), "failure_code" := Opt(code)]
    case OpenGate(ref, t) => map["gate_ref" := JStr(ref), "gate_type" := JStr(t)]
    case Approve(ref, yes) => map["gate_ref" := JStr(ref), "approved" := JBool(yes)]
  }

  /** The event `_append_trace_event` submits. */
  function Logged(runId: string, w: Write, at: string): Event {
    Submitted(runId, EventType(w), DerivedReplayable, at, EventPayload(w))
  }

  /** What a reader makes of the write. */
  function OpOf(w: Write): TraceOp {
    match w
    case OpenBranch(id, _, _, _, _) => OnBranch(Opens(JStr(id), NewBranch(w)))
    case MarkBranch(id, s, code) => OnBranch(Changes(JStr(id), Patch(Some(JStr(s)), JNull, Opt(NonEmpty(code)))))
    case OpenStage(id, _, _) => OnStage(Opens(JStr(id), NewStage(w)))
    case MarkStage(id, s, code, _) => OnStage(Changes(JStr(id), Patch(Some(JStr(s)), Opt(ExitTime(w)), Opt(code))))
    case OpenGate(ref, _) => GateOpens(JStr(ref))
    case Approve(ref, _) => GateResolves(JStr(ref))
  }

  lemma KindsOfWrites(w: Write)
    ensures KindOf(EventType(w)) == match w
                                    case OpenBranch(_, _, _, _, _) => BranchOpened
                                    case MarkBranch(_, _, _) => BranchChanged
                                    case OpenStage(_, _, _) => StageOpened
                                    case MarkStage(_, _, _, _) => StageChanged
                                    case OpenGate(_, _) => GateOpened
                                    case Approve(_, _) => GateResolved
  {
    TraceTypes();
  }

  lemma TraceTypes()
    ensures KindOf("trace.branch_opened") == BranchOpened
    ensures KindOf("trace.branch_state_changed") == BranchChanged
    ensures KindOf("trace.stage_opened") == StageOpened
    ensures KindOf("trace.stage_state_changed") == StageChanged
    ensures KindOf("trace.human_gate_opened") == GateOpened
    ensures KindOf("trace.human_gate_resolved") == GateResolved
  {
  }

  /** Round trip: the logged event decodes to the write. */
  lemma LoggedDecodes(runId: string, w: Write, at: string, offset: int)
    ensures Decode(Logged(runId, w, at).(offset := offset)) == OpOf(w)
  {
    KindsOfWrites(w);
  }

  /** Local update and replayed event agree on the views, unless an open id is opened again with
      different content, or a stage's failure code is overwritten with the empty string. */
  predicate Faithful(r: Registry, w: Write) {
    match w
    case OpenBranch(id, _, _, _, _) => JStr(id) in r.branches ==> r.branches[JStr(id)] == NewBranch(w)
    case OpenStage(id, _, _) => JStr(id) in r.stages ==> r.stages[JStr(id)] == NewStage(w)
    case MarkStage(id, _, code, _) => code == Some("") && JStr(id) in r.stages ==> r.stages[JStr(id)].failureCode == JStr("")
    case _ => true
  }

  lemma LocalMatchesReplay(r: Registry, w: Write)
    requires Local(r, w).Some?
    ensures var own, replayed := Local(r, w).value, ApplyTrace(r, OpOf(w));
            (own.branches == replayed.branches && own.stages == replayed.stages) <==> Faithful(r, w)
  {
    match w
    case OpenBranch(id, _, _, _, _) =>
      if JStr(id) in r.branches { assert Local(r, w).value.branches[JStr(id)] == NewBranch(w); }
    case OpenStage(id, _, _) =>
      if JStr(id) in r.stages { assert Local(r, w).value.stages[JStr(id)] == NewStage(w); }
    case MarkStage(id, s, code, _) =>
      var own, replayed := Local(r, w).value, ApplyTrace(r, OpOf(w));
      assert own.stages[JStr(id)].failureCode == (if code.Some? then JStr(code.value) else r.stages[JStr(id)].failureCode);
      if Faithful(r, w) {
        assert own.stages[JStr(id)] == replayed.stages[JStr(id)];
      }
    case MarkBranch(id, s, code) =>
      assert Local(r, w).value.branches[JStr(id)] == ApplyTrace(r, OpOf(w)).branches[JStr(id)];
    case _ =>
  }
}
