/** The run heartbeat monitor: per-run liveness and the watchdog that signals silent runs. */
module Heartbeat {
  import opened Basics

  datatype Entry = Entry(lastSeenMs: int, state: string, count: nat)

  datatype Monitor = Monitor(entries: map<string, Entry>, timedOut: set<string>)

  type Policy = map<string, int>

  const DEFAULT_TIMEOUTS: map<string, int> := map[
    "dispatching" := 300, "waiting_result" := 600, "waiting_external" := 3600,
    "waiting_human_input" := 86400, "recovering" := 180]

  /** Timeout in seconds; `None` for a state that is not monitored. */
  function TimeoutFor(policy: Policy, state: string): Option<int> {
    if state !in DEFAULT_TIMEOUTS then None
    else if state in policy then Some(policy[state])
    else Some(DEFAULT_TIMEOUTS[state])
  }

  predicate Expired(policy: Policy, e: Entry, now: int) {
    var t := TimeoutFor(policy, e.state);
    t.Some? && (now - e.lastSeenMs) as real / 1000.0 >= t.value as real
  }

  /** `is_alive`: unknown runs and unmonitored states count as alive. */
  predicate Alive(policy: Policy, m: Monitor, runId: string, now: int) {
    runId in m.entries ==> !Expired(policy, m.entries[runId], now)
  }

  function Touch(m: Monitor, runId: string, state: Option<string>, at: int): Monitor {
    var e := if runId in m.entries
             then Entry(at, if state.Some? then state.value else m.entries[runId].state, m.entries[runId].count + 1)
             else Entry(at, if state.Some? && state.value != "" then state.value else "ready", 1);
    Monitor(m.entries[runId := e], m.timedOut - {runId})
  }

  function Clear(m: Monitor, runId: string): Monitor {
    Monitor(m.entries - {runId}, m.timedOut - {runId})
  }

  /** The runs a scan at `now` reports. */
  function Reported(policy: Policy, m: Monitor, now: int): set<string> {
    set r | r in m.entries && r !in m.timedOut && Expired(policy, m.entries[r], now)
  }

  function Scan(policy: Policy, m: Monitor, now: int): Monitor {
    m.(timedOut := m.timedOut + Reported(policy, m, now))
  }

  function DeliveryFailed(m: Monitor, runId: string): Monitor {
    m.(timedOut := m.timedOut - {runId})
  }

  /** The scan loop so far: `seen` have been found due, marked and listed once each. */
  ghost predicate Marked(before: set<string>, seen: set<string>, marks: set<string>, runs: seq<string>) {
    marks == before + seen && Elements(runs) == seen && NoDuplicates(runs)
  }

  lemma MarkOne(before: set<string>, seen: set<string>, marks: set<string>, runs: seq<string>, runId: string)
    requires Marked(before, seen, marks, runs) && runId !in marks
    ensures Marked(before, seen + {runId}, marks + {runId}, runs + [runId])
  {
    ElementsSnoc(runs, runId);
  }

  lemma DueShrinks(due: set<string>, todo: set<string>, runId: string)
    requires runId in todo
    ensures due - (todo - {runId}) == (due - todo) + (if runId in due then {runId} else {})
  {
  }

  class RunHeartbeatMonitor {
    const policy: Policy
    var entries: map<string, Entry>
    var timedOut: set<string>

    function Value(): Monitor
      reads this
    {
      Monitor(entries, timedOut)
    }

    constructor (policy: Policy)
      ensures this.policy == policy && Value() == Monitor(map[], {})
    {
      this.policy := policy;
      entries, timedOut := map[], {};
    }

    method TouchRun(runId: string, state: Option<string>, at: int)
      modifies this
      ensures Value() == Touch(old(Value()), runId, state, at)
    {
      if runId !in entries {
        entries := entries[runId := Entry(at, if state.Some? && state.value != "" then state.value else "ready", 1)];
      } else {
        var e := entries[runId];
        e := e.(lastSeenMs := at, count := e.count + 1);
        if state.Some? {
          e := e.(state := state.value);
        }
        entries := entries[runId := e];
      }
      timedOut := timedOut - {runId};
    }

    method ClearRun(runId: string)
      modifies this
      ensures Value() == Clear(old(Value()), runId)
    {
      entries := entries - {runId};
      timedOut := timedOut - {runId};
    }

    method LifecycleTransition(runId: string, toState: string, at: int)
      modifies this
      ensures var touched := Touch(old(Value()), runId, Some(toState), at);
              Value() == if toState == "completed" || toState == "aborted" then Clear(touched, runId) else touched
    {
      TouchRun(runId, Some(toState), at);
      if toState == "completed" || toState == "aborted" {
        ClearRun(runId);
      }
    }

    method IsAlive(runId: string, now: int) returns (alive: bool)
      ensures alive == Alive(policy, Value(), runId, now)
    {
      if runId !in entries {
        return true;
      }
      var t := TimeoutFor(policy, entries[runId].state);
      if t.None? {
        return true;
      }
      alive := (now - entries[runId].lastSeenMs) as real / 1000.0 < t.value as real;
    }

    method GetTimedOutRuns(now: int) returns (runs: seq<string>)
      modifies this`timedOut
      ensures Value() == Scan(policy, old(Value()), now)
      ensures Elements(runs) == Reported(policy, old(Value()), now)
      ensures NoDuplicates(runs)
    {
      runs := [];
      ghost var m, due := Value(), Reported(policy, Value(), now);
      var todo := entries.Keys;
      while todo != {}
        invariant todo <= entries.Keys
        invariant Marked(m.timedOut, due - todo, timedOut, runs)
        decreases |todo|
      {
        var runId :| runId in todo;
        DueShrinks(due, todo, runId);
        var expired := Expired(policy, entries[runId], now);
        assert runId in due <==> runId !in m.timedOut && expired;
        if runId !in timedOut && expired {
          MarkOne(m.timedOut, due - todo, timedOut, runs, runId);
          runs := runs + [runId];
          timedOut := timedOut + {runId};
        }
        todo := todo - {runId};
      }
      assert due - todo == due;
    }

    /** One sweep with nothing interleaved. It reports the runs that are due, each once, and is the
        scan move followed by one failed-delivery move for each report that did not get through. */
    method WatchdogOnce(now: int, delivered: string -> bool) returns (runs: seq<string>)
      modifies this`timedOut
      ensures Elements(runs) == Reported(policy, old(Value()), now) && NoDuplicates(runs)
      ensures Value() == StepAll(policy, old(Value()), SweepMoves(now, runs, delivered))
      ensures timedOut == old(timedOut) + (set r | r in Reported(policy, old(Value()), now) && delivered(r))
    {
      ghost var m := Value();
      runs := GetTimedOutRuns(now);
      for i := 0 to |runs|
        invariant Value() == StepAll(policy, m, SweepMoves(now, runs[..i], delivered))
      {
        SweepSnoc(policy, m, now, runs, i, delivered);
        if !delivered(runs[i]) {
          timedOut := timedOut - {runs[i]};
        }
      }
      assert runs[..|runs|] == runs;
      SweepMarks(policy, m, now, runs, delivered);
    }
  }

  // ---------------------------------------------------------------------
  // Every run of the monitor, with touches, clears and deliveries interleaved
  // ---------------------------------------------------------------------

  datatype Move =
    | Touched(runId: string, state: Option<string>, at: int)
    | Cleared(runId: string)
    | Scanned(now: int)
    | Failed(runId: string)

  function Step(policy: Policy, m: Monitor, move: Move): Monitor {
    match move
    case Touched(r, state, at) => Touch(m, r, state, at)
    case Cleared(r) => Clear(m, r)
    case Scanned(now) => Scan(policy, m, now)
    case Failed(r) => DeliveryFailed(m, r)
  }

  function After(policy: Policy, moves: seq<Move>): Monitor {
    if moves == [] then Monitor(map[], {})
    else Step(policy, After(policy, moves[..|moves| - 1]), moves[|moves| - 1])
  }

  function StepAll(policy: Policy, m: Monitor, moves: seq<Move>): Monitor {
    if moves == [] then m else Step(policy, StepAll(policy, m, moves[..|moves| - 1]), moves[|moves| - 1])
  }

  /** The failed deliveries of a sweep, in report order. */
  function Failures(runs: seq<string>, delivered: string -> bool): seq<Move> {
    if runs == [] then []
    else
      var last := runs[|runs| - 1];
      Failures(runs[..|runs| - 1], delivered) + (if delivered(last) then [] else [Failed(last)])
  }

  function SweepMoves(now: int, runs: seq<string>, delivered: string -> bool): seq<Move> {
    [Scanned(now)] + Failures(runs, delivered)
  }

  lemma StepSnoc(policy: Policy, m: Monitor, moves: seq<Move>, move: Move)
    ensures StepAll(policy, m, moves + [move]) == Step(policy, StepAll(policy, m, moves), move)
  {
    assert (moves + [move])[..|moves|] == moves;
  }

  lemma SweepSnoc(policy: Policy, m: Monitor, now: int, runs: seq<string>, i: nat, delivered: string -> bool)
    requires i < |runs|
    ensures var before := StepAll(policy, m, SweepMoves(now, runs[..i], delivered));
            StepAll(policy, m, SweepMoves(now, runs[..i + 1], delivered)) ==
            if delivered(runs[i]) then before else DeliveryFailed(before, runs[i])
  {
    var moves := SweepMoves(now, runs[..i], delivered);
    assert runs[..i + 1][..i] == runs[..i];
    if delivered(runs[i]) {
      assert SweepMoves(now, runs[..i + 1], delivered) == moves;
    } else {
      assert SweepMoves(now, runs[..i + 1], delivered) == moves + [Failed(runs[i])];
      StepSnoc(policy, m, moves, Failed(runs[i]));
    }
  }

  function Undelivered(runs: seq<string>, delivered: string -> bool): set<string> {
    set r | r in runs && !delivered(r)
  }

  lemma UndeliveredSnoc(runs: seq<string>, i: nat, delivered: string -> bool)
    requires i < |runs|
    ensures Undelivered(runs[..i + 1], delivered)
         == Undelivered(runs[..i], delivered) + (if delivered(runs[i]) then {} else {runs[i]})
  {
    assert runs[..i + 1] == runs[..i] + [runs[i]];
  }

  lemma SweepStarts(policy: Policy, m: Monitor, now: int, delivered: string -> bool)
    ensures StepAll(policy, m, SweepMoves(now, [], delivered)) == Scan(policy, m, now)
  {
    StepSnoc(policy, m, [], Scanned(now));
    assert SweepMoves(now, [], delivered) == [] + [Scanned(now)];
  }

  lemma LiftOne(marks: set<string>, lifted: set<string>, runId: string)
    ensures marks - (lifted + {}) == marks - lifted && marks - (lifted + {runId}) == (marks - lifted) - {runId}
  {
  }

  lemma {:induction false} FailuresLift(policy: Policy, m: Monitor, now: int, runs: seq<string>, i: nat, delivered: string -> bool)
    requires i <= |runs|
    ensures var m' := StepAll(policy, m, SweepMoves(now, runs[..i], delivered));
            && m'.entries == m.entries
            && m'.timedOut == Scan(policy, m, now).timedOut - Undelivered(runs[..i], delivered)
  {
    if i == 0 {
      SweepStarts(policy, m, now, delivered);
      assert runs[..0] == [] && Undelivered([], delivered) == {};
    } else {
      FailuresLift(policy, m, now, runs, i - 1, delivered);
      SweepSnoc(policy, m, now, runs, i - 1, delivered);
      UndeliveredSnoc(runs, i - 1, delivered);
      LiftOne(Scan(policy, m, now).timedOut, Undelivered(runs[..i - 1], delivered), runs[i - 1]);
    }
  }

  /** After a sweep exactly the delivered reports are newly marked. */
  lemma SweepMarks(policy: Policy, m: Monitor, now: int, runs: seq<string>, delivered: string -> bool)
    requires Elements(runs) == Reported(policy, m, now)
    ensures var m' := StepAll(policy, m, SweepMoves(now, runs, delivered));
            && m'.entries == m.entries
            && m'.timedOut == m.timedOut + (set r | r in Reported(policy, m, now) && delivered(r))
  {
    FailuresLift(policy, m, now, runs, |runs|, delivered);
    assert runs[..|runs|] == runs;
    assert forall r :: r in runs <==> r in Reported(policy, m, now) by {
      assert forall r :: r in runs <==> r in Elements(runs);
    }
  }

  /** A history that ends in a sweep is again a history, so every result about histories covers it. */
  lemma {:induction false} SweepExtendsHistory(policy: Policy, moves: seq<Move>, sweep: seq<Move>)
    ensures After(policy, moves + sweep) == StepAll(policy, After(policy, moves), sweep)
  {
    if sweep == [] {
      assert moves + sweep == moves;
    } else {
      SweepExtendsHistory(policy, moves, sweep[..|sweep| - 1]);
      assert (moves + sweep)[..|moves + sweep| - 1] == moves + sweep[..|sweep| - 1];
    }
  }

  /** Signalled runs are always tracked runs. */
  lemma {:induction false} SignalledAreTracked(policy: Policy, moves: seq<Move>)
    ensures After(policy, moves).timedOut <= After(policy, moves).entries.Keys
  {
    if moves != [] {
      SignalledAreTracked(policy, moves[..|moves| - 1]);
    }
  }

  /** After a scan no tracked run is both silent past its timeout and unsignalled. */
  lemma ScanLeavesNoneBehind(policy: Policy, moves: seq<Move>, now: int, runId: string)
    ensures var m := After(policy, moves + [Scanned(now)]);
            runId in m.entries ==> Alive(policy, m, runId, now) || runId in m.timedOut
  {
    assert (moves + [Scanned(now)])[..|moves|] == moves;
  }

  predicate ReportedAt(policy: Policy, moves: seq<Move>, i: nat, runId: string)
    requires i < |moves|
  {
    moves[i].Scanned? && runId in Reported(policy, After(policy, moves[..i]), moves[i].now)
  }

  /** A move that lifts the "already signalled" mark of a run. */
  predicate Lifts(move: Move, runId: string) {
    (move.Touched? || move.Cleared? || move.Failed?) && move.runId == runId
  }

  lemma {:induction false} MarkStaysUntilLifted(policy: Policy, moves: seq<Move>, i: nat, j: nat, runId: string)
    requires i <= j <= |moves|
    requires runId in After(policy, moves[..i]).timedOut
    requires forall k :: i <= k < j ==> !Lifts(moves[k], runId)
    ensures runId in After(policy, moves[..j]).timedOut
    decreases j
  {
    if i < j {
      MarkStaysUntilLifted(policy, moves, i, j - 1, runId);
      assert moves[..j][..j - 1] == moves[..j - 1] && moves[..j][j - 1] == moves[j - 1];
    }
  }

  /** Once per silence: between two reports of the same run there is a touch, a clear or a failed
      delivery of that run. */
  lemma OneReportPerSilence(policy: Policy, moves: seq<Move>, i: nat, j: nat, runId: string)
    requires i < j < |moves| && ReportedAt(policy, moves, i, runId) && ReportedAt(policy, moves, j, runId)
    ensures exists k :: i < k < j && Lifts(moves[k], runId)
  {
    assert moves[..i + 1][..i] == moves[..i] && moves[..i + 1][i] == moves[i];
    if forall k :: i < k < j ==> !Lifts(moves[k], runId) {
      MarkStaysUntilLifted(policy, moves, i + 1, j, runId);
    }
  }

  /** Nothing is reported early: a reported run was tracked, silent for its whole timeout and not
      marked, and the report marks it. */
  lemma ReportsAreDue(policy: Policy, moves: seq<Move>, i: nat, runId: string)
    requires i < |moves| && moves[i].Scanned?
    ensures var m := After(policy, moves[..i]);
            ReportedAt(policy, moves, i, runId) <==> !Alive(policy, m, runId, moves[i].now) && runId !in m.timedOut
    ensures ReportedAt(policy, moves, i, runId) ==> runId in After(policy, moves[..i + 1]).timedOut
  {
    assert moves[..i + 1][..i] == moves[..i] && moves[..i + 1][i] == moves[i];
  }
}
