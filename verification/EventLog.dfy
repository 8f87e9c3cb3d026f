/** The in-memory runtime event log: dense offsets per run, oldest run evicted over the cap. */
module EventLog {
  import opened Basics
  import opened RunProjection

  const MAX_RETAINED_RUNS := 5000

  /** `order` is the insertion order of the run dictionary. */
  datatype Log = Log(events: map<string, seq<Event>>, next: map<string, int>, order: seq<string>, commits: nat)

  function EventsOf(g: Log, runId: string): seq<Event> {
    if runId in g.events then g.events[runId] else []
  }

  function NextOf(g: Log, runId: string): int {
    if runId in g.next then g.next[runId] else 1
  }

  /** Normalised copies of the submitted events, numbered from `first`. */
  function Stamp(es: seq<Event>, first: int): (r: seq<Event>)
    ensures |r| == |es|
  {
    seq(|es|, i requires 0 <= i < |es| => es[i].(offset := first + i))
  }

  function Forget(g: Log, runId: string): Log {
    g.(events := g.events - {runId}, next := g.next - {runId}, order := Without(g.order, runId))
  }

  function Added(g: Log, runId: string, es: seq<Event>): Log {
    Log(g.events[runId := EventsOf(g, runId) + Stamp(es, NextOf(g, runId))],
        g.next[runId := NextOf(g, runId) + |es|],
        if runId in g.events then g.order else g.order + [runId],
        g.commits + 1)
  }

  /** `append_action_commit`; an empty commit is refused. */
  function Append(g: Log, runId: string, es: seq<Event>): Option<Log> {
    if es == [] then None
    else
      var g' := Added(g, runId, es);
      if |g'.events| > MAX_RETAINED_RUNS && g'.order != [] then Some(Forget(g', g'.order[0])) else Some(g')
  }

  /** Events after an offset, in order. */
  function After(es: seq<Event>, after: int): seq<Event> {
    if es == [] then []
    else After(es[..|es| - 1], after) + (if es[|es| - 1].offset > after then [es[|es| - 1]] else [])
  }

  predicate Dense(es: seq<Event>) {
    forall i :: 0 <= i < |es| ==> es[i].offset == i + 1
  }

  /** Offsets run from 1 and `next` is the first free one. */
  predicate Numbered(es: seq<Event>, next: int) {
    Dense(es) && next == |es| + 1
  }

  /** The three per-run tables agree and every run's offsets are 1, 2, 3, ... */
  predicate InSync(g: Log) {
    && g.events.Keys == g.next.Keys
    && NoDuplicates(g.order)
    && Elements(g.order) == g.events.Keys
    && (forall r :: r in g.events ==> Numbered(g.events[r], g.next[r]))
  }

  predicate ValidLog(g: Log) {
    InSync(g) && |g.events| <= MAX_RETAINED_RUNS
  }

  /** The numbering loop of one commit. */
  method Normalize(es: seq<Event>, first: int) returns (stamped: seq<Event>)
    ensures stamped == Stamp(es, first)
  {
    stamped := [];
    var offset := first;
    for i := 0 to |es|
      invariant offset == first + i && stamped == Stamp(es, first)[..i]
    {
      stamped := stamped + [es[i].(offset := offset)];
      offset := offset + 1;
    }
  }

  class InMemoryEventLog {
    var events: map<string, seq<Event>>
    var next: map<string, int>
    var order: seq<string>
    var commits: nat

    function Value(): Log
      reads this
    {
      Log(events, next, order, commits)
    }

    constructor ()
      ensures Value() == Log(map[], map[], [], 0) && ValidLog(Value())
    {
      events, next, order, commits := map[], map[], [], 0;
    }

    method AppendCommit(runId: string, es: seq<Event>) returns (accepted: bool)
      modifies this
      ensures accepted <==> es != []
      ensures Value() == if accepted then Append(old(Value()), runId, es).value else old(Value())
    {
      if es == [] {
        return false;
      }
      var first := if runId in next then next[runId] else 1;
      var stamped := Normalize(es, first);
      if runId !in events {
        order := order + [runId];
      }
      events := events[runId := (if runId in events then events[runId] else []) + stamped];
      next := next[runId := first + |es|];
      commits := commits + 1;
      assert Value() == Added(old(Value()), runId, es);
      if |events| > MAX_RETAINED_RUNS && order != [] {
        var oldest := order[0];
        events := events - {oldest};
        next := next - {oldest};
        order := Without(order, oldest);
      }
      accepted := true;
    }

    method Load(runId: string, after: int) returns (es: seq<Event>)
      ensures es == After(EventsOf(Value(), runId), after)
    {
      es := [];
      if runId in events {
        var run := events[runId];
        for i := 0 to |run|
          invariant es == After(run[..i], after)
        {
          assert run[..i + 1][..i] == run[..i];
          if run[i].offset > after {
            es := es + [run[i]];
          }
        }
        assert run[..|run|] == run;
      }
    }

    method CleanupCompletedRun(runId: string)
      modifies this
      ensures Value() == Forget(old(Value()), runId)
    {
      events := events - {runId};
      next := next - {runId};
      order := Without(order, runId);
    }
  }

  lemma OrderWithout(order: seq<string>, runId: string)
    requires NoDuplicates(order)
    ensures NoDuplicates(Without(order, runId)) && Elements(Without(order, runId)) == Elements(order) - {runId}
  {
    WithoutRemoves(order, runId);
  }

  lemma MapSize<V>(m: map<string, V>)
    ensures |m| == |m.Keys|
  {
  }

  lemma ForgetKeepsSync(g: Log, runId: string)
    requires InSync(g)
    ensures InSync(Forget(g, runId))
    ensures |Forget(g, runId).events| == |g.events| - (if runId in g.events then 1 else 0)
  {
    OrderWithout(g.order, runId);
    var g' := Forget(g, runId);
    assert g'.events.Keys == g.events.Keys - {runId} && g'.next.Keys == g.next.Keys - {runId};
    MapSize(g'.events);
    MapSize(g.events);
  }

  lemma StampIsNumbered(run: seq<Event>, es: seq<Event>)
    requires Dense(run)
    ensures Numbered(run + Stamp(es, |run| + 1), |run| + 1 + |es|)
  {
  }

  lemma AddedKeys(g: Log, runId: string, es: seq<Event>)
    ensures var g' := Added(g, runId, es);
            && g'.events.Keys == g.events.Keys + {runId} && g'.next.Keys == g.next.Keys + {runId}
            && |g'.events| == |g.events| + (if runId in g.events then 0 else 1)
  {
    var g' := Added(g, runId, es);
    assert g'.events.Keys == g.events.Keys + {runId};
    MapSize(g'.events);
    MapSize(g.events);
  }

  lemma AddedOrder(g: Log, runId: string, es: seq<Event>)
    requires NoDuplicates(g.order) && Elements(g.order) == g.events.Keys
    ensures var order := Added(g, runId, es).order;
            NoDuplicates(order) && Elements(order) == g.events.Keys + {runId}
  {
    if runId !in g.events {
      ElementsSnoc(g.order, runId);
    }
  }

  lemma AddedNumbers(g: Log, runId: string, es: seq<Event>)
    requires g.events.Keys == g.next.Keys && (runId in g.events ==> Numbered(g.events[runId], g.next[runId]))
    ensures var g', run := Added(g, runId, es), EventsOf(g, runId);
            g'.events[runId] == run + Stamp(es, |run| + 1) && Numbered(g'.events[runId], g'.next[runId])
  {
    var run := EventsOf(g, runId);
    assert NextOf(g, runId) == |run| + 1;
    StampIsNumbered(run, es);
  }

  lemma AddedKeepsSync(g: Log, runId: string, es: seq<Event>)
    requires InSync(g)
    ensures InSync(Added(g, runId, es))
    ensures |Added(g, runId, es).events| == |g.events| + (if runId in g.events then 0 else 1)
    ensures EventsOf(Added(g, runId, es), runId) == EventsOf(g, runId) + Stamp(es, |EventsOf(g, runId)| + 1)
  {
    AddedKeys(g, runId, es);
    AddedOrder(g, runId, es);
    AddedNumbers(g, runId, es);
    var g' := Added(g, runId, es);
    forall r | r in g'.events ensures Numbered(g'.events[r], g'.next[r]) {
      assert r != runId ==> g'.events[r] == g.events[r] && g'.next[r] == g.next[r];
    }
  }

  /** What one commit does to the retained runs. */
  ghost predicate OnlyOldestLost(g: Log, g': Log, runId: string) {
    && (forall r :: r in g.events && r != runId && r in g'.events ==> g'.events[r] == g.events[r])
    && (forall r :: r in g.events && r !in g'.events ==>
          && g.order != [] && r == g.order[0] && r != runId
          && runId !in g.events && |g.events| == MAX_RETAINED_RUNS)
  }

  lemma EvictionTarget(g: Log, runId: string, es: seq<Event>)
    requires ValidLog(g) && |Added(g, runId, es).events| > MAX_RETAINED_RUNS
    ensures runId !in g.events && |g.events| == MAX_RETAINED_RUNS
    ensures g.order != [] && g.order[0] in g.events && Added(g, runId, es).order[0] == g.order[0]
  {
    AddedKeepsSync(g, runId, es);
    MapSize(g.events);
    assert g.order == [] ==> Elements(g.order) == {};
    assert g.order[0] in Elements(g.order);
  }

  /** Offsets stay dense over every commit. */
  lemma AppendIsDense(g: Log, runId: string, es: seq<Event>)
    requires ValidLog(g) && es != []
    ensures ValidLog(Append(g, runId, es).value)
  {
    AddedKeepsSync(g, runId, es);
    if |Added(g, runId, es).events| > MAX_RETAINED_RUNS {
      EvictionTarget(g, runId, es);
      ForgetKeepsSync(Added(g, runId, es), g.order[0]);
    }
  }

  /** The run written to only grows: it is never the run its own commit evicts. */
  lemma AppendGrowsItsRun(g: Log, runId: string, es: seq<Event>)
    requires ValidLog(g) && es != []
    ensures EventsOf(Append(g, runId, es).value, runId) == EventsOf(g, runId) + Stamp(es, |EventsOf(g, runId)| + 1)
  {
    AddedKeepsSync(g, runId, es);
    if |Added(g, runId, es).events| > MAX_RETAINED_RUNS {
      EvictionTarget(g, runId, es);
    }
  }

  /** A commit leaves every other run alone, except that a new run over the cap costs the oldest. */
  lemma AppendLosesOnlyOldest(g: Log, runId: string, es: seq<Event>)
    requires ValidLog(g) && es != []
    ensures OnlyOldestLost(g, Append(g, runId, es).value, runId)
  {
    if |Added(g, runId, es).events| > MAX_RETAINED_RUNS {
      EvictionTarget(g, runId, es);
    }
  }

  /** On a dense run, loading after an offset is dropping a prefix. */
  lemma {:induction false} LoadDropsPrefix(es: seq<Event>, after: nat)
    requires Dense(es)
    ensures After(es, after) == if after <= |es| then es[after..] else []
  {
    if es != [] {
      LoadDropsPrefix(es[..|es| - 1], after);
    }
  }
}
