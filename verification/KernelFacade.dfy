/** The facade's per-run trace cache: rebuilt incrementally from the log, evicted first-in first-out. */
module KernelFacade {
  import opened Basics
  import opened RunProjection
  import opened EventLog
  import opened TraceRegistry
  import opened TraceWrites

  /** The per-run dictionaries are grouped into one registry per run; a missing run reads as empty. */
  datatype Cache = Cache(
    registries: map<string, Registry>,
    approvals: set<(string, string)>,
    offsets: map<string, int>,
    order: seq<string>,
    tracked: set<string>)

  function RegistryOf(s: Cache, runId: string): Registry {
    if runId in s.registries then s.registries[runId] else EMPTY
  }

  function OffsetOf(s: Cache, runId: string): int {
    if runId in s.offsets then s.offsets[runId] else 0
  }

  function Purge(s: Cache, runId: string): Cache {
    s.(registries := s.registries - {runId},
       approvals := (set a | a in s.approvals && a.0 != runId),
       offsets := s.offsets - {runId})
  }

  function EvictOldest(s: Cache): Cache {
    if s.order == [] then s
    else Purge(s.(order := s.order[1..], tracked := s.tracked - {s.order[0]}), s.order[0])
  }

  function EvictDown(s: Cache, cap: nat): Cache
    decreases |s.order|
  {
    if |s.tracked| <= cap || s.order == [] then s else EvictDown(EvictOldest(s), cap)
  }

  function Touch(s: Cache, cap: nat, runId: string): Cache {
    if runId in s.tracked then s
    else EvictDown(s.(tracked := s.tracked + {runId}, order := s.order + [runId]), cap)
  }

  /** `list.remove`: the first occurrence goes. */
  function RemoveFirst(s: seq<string>, x: string): seq<string> {
    if s == [] then [] else if s[0] == x then s[1..] else [s[0]] + RemoveFirst(s[1..], x)
  }

  function Cleanup(s: Cache, runId: string): Cache {
    Purge(s.(tracked := s.tracked - {runId}, order := RemoveFirst(s.order, runId)), runId)
  }

  predicate IsTrace(e: Event) {
    e.kind in {BranchOpened, BranchChanged, StageOpened, StageChanged, GateOpened, GateResolved, OtherTrace}
  }

  /** The rebuild offset: the largest offset of a trace event seen. */
  function TraceOffset(after: int, es: seq<Event>): int {
    if es == [] then after
    else
      var m, e := TraceOffset(after, es[..|es| - 1]), es[|es| - 1];
      if IsTrace(e) && e.offset > m then e.offset else m
  }

  datatype Rebuilt = Rebuilt(cache: Cache, ok: bool)

  /** Merge the events after the rebuild offset; if one raises, what was merged stays and the
      offset does not move. */
  function Rebuild(s: Cache, runId: string, log: seq<Event>): Rebuilt {
    var es := After(log, OffsetOf(s, runId));
    var r := Replay(RegistryOf(s, runId), Decoded(es));
    Rebuilt(s.(registries := s.registries[runId := r.registry],
               offsets := if r.ok then s.offsets[runId := TraceOffset(OffsetOf(s, runId), es)] else s.offsets),
            r.ok)
  }

  datatype Written = Written(cache: Cache, logs: bool, raised: bool)

  /** One trace write: touch, drop repeated approvals, update locally, then log the event. */
  function Perform(s: Cache, cap: nat, runId: string, w: Write): Written {
    var s1 := Touch(s, cap, runId);
    if w.Approve? && (runId, w.approvalRef) in s1.approvals then Written(s1, false, false)
    else
      match Local(RegistryOf(s1, runId), w)
      case None => Written(s1, false, true)
      case Some(r) =>
        var s2 := s1.(registries := s1.registries[runId := r]);
        Written(if w.Approve? then s2.(approvals := s2.approvals + {(runId, w.approvalRef)}) else s2, true, false)
  }

  class TraceCache {
    const cap: nat
    var registries: map<string, Registry>
    var approvals: set<(string, string)>
    var offsets: map<string, int>
    var order: seq<string>
    var tracked: set<string>

    function Value(): Cache
      reads this
    {
      Cache(registries, approvals, offsets, order, tracked)
    }

    constructor (cap: nat)
      ensures this.cap == cap && Value() == Cache(map[], {}, map[], [], {})
    {
      this.cap := cap;
      registries, approvals, offsets, order, tracked := map[], {}, map[], [], {};
    }

    method PurgeRunState(runId: string)
      modifies this`registries, this`approvals, this`offsets
      ensures Value() == Purge(old(Value()), runId)
    {
      registries := registries - {runId};
      approvals := set a | a in approvals && a.0 != runId;
      offsets := offsets - {runId};
    }

    method EvictOldestRun()
      modifies this
      ensures Value() == EvictOldest(old(Value()))
    {
      if order == [] {
        return;
      }
      var oldest := order[0];
      order := order[1..];
      tracked := tracked - {oldest};
      PurgeRunState(oldest);
    }

    /** Needs the order list and the set to agree, or the loop could not make progress. */
    method TouchRun(runId: string)
      requires Tidy(Value(), cap)
      modifies this
      ensures Value() == Touch(old(Value()), cap, runId) && Tidy(Value(), cap)
    {
      TouchKeepsTidy(Value(), cap, runId);
      if runId in tracked {
        return;
      }
      tracked := tracked + {runId};
      order := order + [runId];
      ghost var start := Value();
      while |tracked| > cap && order != []
        invariant EvictDown(Value(), cap) == EvictDown(start, cap)
        decreases |order|
      {
        EvictOldestRun();
      }
    }

    method CleanupCompletedRun(runId: string)
      modifies this
      ensures Value() == Cleanup(old(Value()), runId)
    {
      tracked := tracked - {runId};
      order := RemoveFirst(order, runId);
      PurgeRunState(runId);
    }

    method PerformWrite(log: InMemoryEventLog, runId: string, w: Write, at: string) returns (raised: bool)
      requires Tidy(Value(), cap)
      modifies this, log
      ensures var done := Perform(old(Value()), cap, runId, w);
              && Value() == done.cache && raised == done.raised && Tidy(Value(), cap)
              && log.Value() == if done.logs then Append(old(log.Value()), runId, [Logged(runId, w, at)]).value
                                else old(log.Value())
    {
      TouchRun(runId);
      if w.Approve? {
        if (runId, w.approvalRef) in approvals {
          return false;
        }
        approvals := approvals + {(runId, w.approvalRef)};
      }
      var own := Local(RegistryOf(Value(), runId), w);
      if own.None? {
        return true;
      }
      registries := registries[runId := own.value];
      var _ := log.AppendCommit(runId, [Logged(runId, w, at)]);
      raised := false;
    }

    method RebuildFromEvents(log: InMemoryEventLog, runId: string) returns (ok: bool)
      modifies this`registries, this`offsets
      ensures Rebuilt(Value(), ok) == Rebuild(old(Value()), runId, EventsOf(log.Value(), runId))
    {
      var after := OffsetOf(Value(), runId);
      var events := log.Load(runId, after);
      var registry, maxOffset, merged := MergeLoop(RegistryOf(Value(), runId), after, events);
      registries := registries[runId := registry];
      if merged {
        offsets := offsets[runId := maxOffset];
      }
      ok := merged;
    }
  }

  /** The loop of the rebuild: merge trace events in order until one raises. */
  method MergeLoop(start: Registry, after: int, events: seq<Event>)
    returns (registry: Registry, maxOffset: int, ok: bool)
    ensures Replayed(registry, ok) == Replay(start, Decoded(events))
    ensures ok ==> maxOffset == TraceOffset(after, events)
  {
    registry, maxOffset, ok := start, after, true;
    ghost var ops := Decoded(events);
    for i := 0 to |events|
      invariant ok && Replay(start, ops[..i]) == Replayed(registry, true)
      invariant maxOffset == TraceOffset(after, events[..i])
    {
      var e := events[i];
      ReplaySnoc(start, ops, i);
      TraceOffsetSnoc(after, events, i);
      if IsTrace(e) {
        if e.offset > maxOffset {
          maxOffset := e.offset;
        }
        var op := Decode(e);
        if Raises(registry, op) {
          RaiseSticks(start, ops, i + 1);
          return registry, maxOffset, false;
        }
        registry := ApplyTrace(registry, op);
      } else {
        OnlyTraceHasEffect(e);
      }
    }
    assert events[..|events|] == events && ops[..|ops|] == ops;
  }

  lemma ReplaySnoc(r: Registry, ops: seq<TraceOp>, i: nat)
    requires i < |ops| && Replay(r, ops[..i]).ok
    ensures var before := Replay(r, ops[..i]);
            Replay(r, ops[..i + 1]) ==
            if Raises(before.registry, ops[i]) then before.(ok := false)
            else Replayed(ApplyTrace(before.registry, ops[i]), true)
  {
    assert ops[..i + 1][..i] == ops[..i];
  }

  lemma TraceOffsetSnoc(after: int, es: seq<Event>, i: nat)
    requires i < |es|
    ensures var m := TraceOffset(after, es[..i]);
            TraceOffset(after, es[..i + 1]) == if IsTrace(es[i]) && es[i].offset > m then es[i].offset else m
  {
    assert es[..i + 1][..i] == es[..i];
  }

  lemma OnlyTraceHasEffect(e: Event)
    ensures !IsTrace(e) ==> Decode(e) == NoEffect
  {
  }

  lemma {:induction false} RaiseSticks(r: Registry, ops: seq<TraceOp>, i: nat)
    requires i <= |ops| && !Replay(r, ops[..i]).ok
    ensures Replay(r, ops) == Replay(r, ops[..i])
    decreases |ops|
  {
    if i < |ops| {
      assert ops[..|ops| - 1][..i] == ops[..i];
      RaiseSticks(r, ops[..|ops| - 1], i);
    } else {
      assert ops[..i] == ops;
    }
  }

  // ---------------------------------------------------------------------
  // The tracked order never exceeds the cap
  // ---------------------------------------------------------------------

  /** The order list has no repeats, lists exactly the tracked set, and fits the cap. */
  predicate Listed(s: Cache) {
    NoDuplicates(s.order) && Elements(s.order) == s.tracked
  }

  predicate Tidy(s: Cache, cap: nat) {
    Listed(s) && |s.order| <= cap
  }

  lemma {:induction false} ElementsCount(s: seq<string>)
    requires NoDuplicates(s)
    ensures |Elements(s)| == |s|
  {
    if s != [] {
      var front := s[..|s| - 1];
      ElementsCount(front);
      assert s[|s| - 1] !in front;
      assert Elements(s) == Elements(front) + {s[|s| - 1]};
    }
  }

  lemma EvictKeepsListed(s: Cache)
    requires Listed(s) && s.order != []
    ensures Listed(EvictOldest(s))
  {
    var rest := s.order[1..];
    assert s.order == [s.order[0]] + rest;
    assert s.order[0] !in rest;
    assert Elements(rest) == Elements(s.order) - {s.order[0]};
  }

  lemma {:induction false} EvictDownFits(s: Cache, cap: nat)
    requires Listed(s)
    ensures Tidy(EvictDown(s, cap), cap)
    decreases |s.order|
  {
    ElementsCount(s.order);
    if |s.tracked| > cap {
      EvictKeepsListed(s);
      EvictDownFits(EvictOldest(s), cap);
    }
  }

  lemma TouchKeepsTidy(s: Cache, cap: nat, runId: string)
    requires Tidy(s, cap)
    ensures Tidy(Touch(s, cap, runId), cap)
  {
    if runId !in s.tracked {
      var s' := s.(tracked := s.tracked + {runId}, order := s.order + [runId]);
      ElementsSnoc(s.order, runId);
      EvictDownFits(s', cap);
    }
  }

  /** A first touch appends the run; when the cap was full it costs exactly the longest tracked
      run, whose state is gone, while every other run keeps its own. */
  lemma TouchIsFifo(s: Cache, cap: nat, runId: string)
    requires Tidy(s, cap) && runId !in s.tracked && cap > 0
    ensures var s' := Touch(s, cap, runId);
            if |s.order| < cap then s' == s.(order := s.order + [runId], tracked := s.tracked + {runId})
            else
              && s'.order == s.order[1..] + [runId]
              && RegistryOf(s', s.order[0]) == EMPTY && OffsetOf(s', s.order[0]) == 0
              && (forall q :: q != s.order[0] ==>
                    RegistryOf(s', q) == RegistryOf(s, q) && OffsetOf(s', q) == OffsetOf(s, q))
  {
    var mid := s.(order := s.order + [runId], tracked := s.tracked + {runId});
    ElementsSnoc(s.order, runId);
    SizeOfTracked(s);
    SizeOfTracked(mid);
    if |s.order| == cap {
      EvictOnce(mid, cap);
      OldestGone(mid);
      assert mid.order[0] == s.order[0] && mid.order[1..] == s.order[1..] + [runId];
    }
  }

  lemma OldestGone(s: Cache)
    requires s.order != []
    ensures var s', oldest := EvictOldest(s), s.order[0];
            && s'.order == s.order[1..]
            && RegistryOf(s', oldest) == EMPTY && OffsetOf(s', oldest) == 0
            && (forall q :: q != oldest ==> RegistryOf(s', q) == RegistryOf(s, q) && OffsetOf(s', q) == OffsetOf(s, q))
  {
  }

  lemma SizeOfTracked(s: Cache)
    requires Listed(s)
    ensures |s.tracked| == |s.order|
  {
    ElementsCount(s.order);
  }

  lemma EvictOnce(s: Cache, cap: nat)
    requires Listed(s) && |s.order| == cap + 1
    ensures EvictDown(s, cap) == EvictOldest(s)
  {
    SizeOfTracked(s);
    EvictKeepsListed(s);
    SizeOfTracked(EvictOldest(s));
  }

  lemma ElementsCons(x: string, s: seq<string>)
    ensures Elements([x] + s) == {x} + Elements(s)
  {
  }

  lemma {:induction false} RemoveFirstRemoves(s: seq<string>, x: string)
    requires NoDuplicates(s)
    ensures NoDuplicates(RemoveFirst(s, x)) && Elements(RemoveFirst(s, x)) == Elements(s) - {x}
    ensures |RemoveFirst(s, x)| <= |s|
  {
    if s != [] {
      var rest := s[1..];
      assert s == [s[0]] + rest && s[0] !in rest;
      RemoveFirstRemoves(rest, x);
      ElementsCons(s[0], rest);
      ElementsCons(s[0], RemoveFirst(rest, x));
      assert s[0] !in Elements(RemoveFirst(rest, x));
    }
  }

  lemma CleanupKeepsTidy(s: Cache, cap: nat, runId: string)
    requires Tidy(s, cap)
    ensures Tidy(Cleanup(s, runId), cap)
  {
    RemoveFirstRemoves(s.order, runId);
  }
}
