/** A run this facade only reads: its cached registries are a replay of the log, whatever is
    evicted, cleaned up or queried in between. */
module FacadeReads {
  import opened Basics
  import opened RunProjection
  import opened EventLog
  import opened TraceRegistry
  import opened KernelFacade

  /** The facade's cache and the log of the run in question, written by other facades. */
  datatype World = World(cache: Cache, log: seq<Event>)

  datatype Move =
    | Grow(events: seq<Event>)
    | Query
    | TouchAny(runId: string)
    | CleanupAny(runId: string)
    | WriteElsewhere(runId: string, registry: Registry, approvals: set<(string, string)>)

  predicate AllWellFormed(ops: seq<TraceOp>) {
    forall i :: 0 <= i < |ops| ==> WellFormed(ops[i])
  }

  /** One step; a move that is not enabled changes nothing. */
  function Step(cap: nat, run: string, w: World, move: Move): World {
    match move
    case Grow(es) => if AllWellFormed(Decoded(es)) then w.(log := w.log + Stamp(es, |w.log| + 1)) else w
    case Query => w.(cache := Rebuild(w.cache, run, w.log).cache)
    case TouchAny(q) => w.(cache := Touch(w.cache, cap, q))
    case CleanupAny(q) => w.(cache := Cleanup(w.cache, q))
    case WriteElsewhere(q, r, approvals) =>
      if q == run then w
      else w.(cache := w.cache.(registries := w.cache.registries[q := r], approvals := approvals))
  }

  function Execute(cap: nat, run: string, moves: seq<Move>): World {
    if moves == [] then World(Cache(map[], {}, map[], [], {}), [])
    else Step(cap, run, Execute(cap, run, moves[..|moves| - 1]), moves[|moves| - 1])
  }

  predicate InSyncWithLog(run: string, w: World) {
    && 0 <= OffsetOf(w.cache, run) <= |w.log|
    && Replay(EMPTY, Decoded(w.log[..OffsetOf(w.cache, run)])) == Replayed(RegistryOf(w.cache, run), true)
  }

  predicate Inv(cap: nat, run: string, w: World) {
    Dense(w.log) && AllWellFormed(Decoded(w.log)) && InSyncWithLog(run, w) && Tidy(w.cache, cap)
  }

  lemma DecodeIgnoresOffset(e: Event, offset: int)
    ensures Decode(e.(offset := offset)) == Decode(e)
  {
  }

  lemma DecodedConcat(a: seq<Event>, b: seq<Event>)
    ensures Decoded(a + b) == Decoded(a) + Decoded(b)
  {
  }

  lemma DecodedStamp(es: seq<Event>, first: int)
    ensures Decoded(Stamp(es, first)) == Decoded(es)
  {
    forall i | 0 <= i < |es| ensures Decoded(Stamp(es, first))[i] == Decoded(es)[i] {
      DecodeIgnoresOffset(es[i], first + i);
    }
  }

  predicate Quiet(es: seq<Event>) { forall i :: 0 <= i < |es| ==> !IsTrace(es[i]) }

  /** Past the rebuild offset there is no trace event left. */
  lemma {:induction false} TraceOffsetCovers(log: seq<Event>, from: nat, n: nat)
    requires Dense(log) && from <= n <= |log|
    ensures var m := TraceOffset(from, log[from..n]);
            from <= m <= n && forall i :: m <= i < n ==> !IsTrace(log[i])
  {
    if from < n {
      TraceOffsetCovers(log, from, n - 1);
      TraceOffsetSnoc(from, log[from..n], n - 1 - from);
      assert log[from..n][..n - 1 - from] == log[from..n - 1] && log[from..n][..n - from] == log[from..n];
    }
  }

  lemma DecodedSnoc(es: seq<Event>)
    requires es != []
    ensures Decoded(es)[..|es| - 1] == Decoded(es[..|es| - 1])
  {
  }

  lemma {:induction false} QuietReplay(r: Registry, es: seq<Event>)
    requires Quiet(es)
    ensures Replay(r, Decoded(es)) == Replayed(r, true)
  {
    if es != [] {
      QuietReplay(r, es[..|es| - 1]);
      DecodedSnoc(es);
      OnlyTraceHasEffect(es[|es| - 1]);
    }
  }

  /** Everything from the rebuild offset on is quiet. */
  lemma RestIsQuiet(log: seq<Event>, off: nat)
    requires Dense(log) && off <= |log|
    ensures var m := TraceOffset(off, log[off..]); off <= m <= |log| && Quiet(log[m..])
  {
    assert log[off..|log|] == log[off..];
    TraceOffsetCovers(log, off, |log|);
  }

  /** The incremental merge is the full replay of the log. */
  lemma MergeIsFullReplay(run: string, w: World)
    requires Dense(w.log) && AllWellFormed(Decoded(w.log)) && InSyncWithLog(run, w)
    ensures var es := After(w.log, OffsetOf(w.cache, run));
            && es == w.log[OffsetOf(w.cache, run)..]
            && Replay(EMPTY, Decoded(w.log)).ok
            && Replay(RegistryOf(w.cache, run), Decoded(es)) == Replay(EMPTY, Decoded(w.log))
  {
    var off := OffsetOf(w.cache, run);
    LoadDropsPrefix(w.log, off);
    var a, b := w.log[..off], w.log[off..];
    assert w.log == a + b;
    DecodedConcat(a, b);
    ReplaySplit(EMPTY, Decoded(a), Decoded(b));
    WellFormedReplays(EMPTY, Decoded(w.log));
  }

  /** Stopping at the last trace event loses nothing. */
  lemma OffsetKeepsReplay(log: seq<Event>, off: nat)
    requires Dense(log) && AllWellFormed(Decoded(log)) && off <= |log|
    ensures var m := TraceOffset(off, log[off..]);
            off <= m <= |log| && Replay(EMPTY, Decoded(log[..m])) == Replay(EMPTY, Decoded(log))
  {
    RestIsQuiet(log, off);
    var m := TraceOffset(off, log[off..]);
    WellFormedPrefix(log, m);
    WellFormedReplays(EMPTY, Decoded(log[..m]));
    DecodedConcat(log[..m], log[m..]);
    assert log == log[..m] + log[m..];
    ReplaySplit(EMPTY, Decoded(log[..m]), Decoded(log[m..]));
    QuietReplay(Replay(EMPTY, Decoded(log[..m])).registry, log[m..]);
  }

  /** A query brings the run to the full replay of the log as it stands. */
  lemma QueryIsFullReplay(cap: nat, run: string, w: World)
    requires Inv(cap, run, w)
    ensures Inv(cap, run, Step(cap, run, w, Query))
    ensures Rebuild(w.cache, run, w.log).ok
    ensures RegistryOf(Step(cap, run, w, Query).cache, run) == Replay(EMPTY, Decoded(w.log)).registry
  {
    MergeIsFullReplay(run, w);
    OffsetKeepsReplay(w.log, OffsetOf(w.cache, run));
  }

  lemma WellFormedPrefix(log: seq<Event>, n: nat)
    requires n <= |log| && AllWellFormed(Decoded(log))
    ensures AllWellFormed(Decoded(log[..n]))
  {
    forall i | 0 <= i < n ensures WellFormed(Decoded(log[..n])[i]) {
      assert Decoded(log[..n])[i] == Decoded(log)[i];
    }
  }

  lemma GrowKeepsInv(cap: nat, run: string, w: World, es: seq<Event>)
    requires Inv(cap, run, w) && AllWellFormed(Decoded(es))
    ensures Inv(cap, run, Step(cap, run, w, Grow(es)))
  {
    var more := Stamp(es, |w.log| + 1);
    StampIsNumbered(w.log, es);
    DecodedStamp(es, |w.log| + 1);
    DecodedConcat(w.log, more);
    var off := OffsetOf(w.cache, run);
    assert (w.log + more)[..off] == w.log[..off];
  }

  /** Eviction and cleanup either leave the run alone or reset it to "nothing replayed yet". */
  predicate KeptOrReset(run: string, s: Cache, s': Cache) {
    || (RegistryOf(s', run) == RegistryOf(s, run) && OffsetOf(s', run) == OffsetOf(s, run))
    || (RegistryOf(s', run) == EMPTY && OffsetOf(s', run) == 0)
  }

  lemma {:induction false} EvictDownKeepsOrResets(run: string, s: Cache, cap: nat)
    ensures KeptOrReset(run, s, EvictDown(s, cap))
    decreases |s.order|
  {
    if |s.tracked| > cap && s.order != [] {
      EvictDownKeepsOrResets(run, EvictOldest(s), cap);
    }
  }

  lemma ResetKeepsSync(run: string, w: World, s': Cache)
    requires InSyncWithLog(run, w) && KeptOrReset(run, w.cache, s')
    ensures InSyncWithLog(run, w.(cache := s'))
  {
    assert Decoded(w.log[..0]) == [];
  }

  lemma StepKeepsInv(cap: nat, run: string, w: World, move: Move)
    requires Inv(cap, run, w)
    ensures Inv(cap, run, Step(cap, run, w, move))
  {
    match move
    case Grow(es) => if AllWellFormed(Decoded(es)) { GrowKeepsInv(cap, run, w, es); }
    case Query => QueryIsFullReplay(cap, run, w);
    case TouchAny(q) =>
      TouchKeepsTidy(w.cache, cap, q);
      if q !in w.cache.tracked {
        EvictDownKeepsOrResets(run, w.cache.(tracked := w.cache.tracked + {q}, order := w.cache.order + [q]), cap);
      }
      ResetKeepsSync(run, w, Touch(w.cache, cap, q));
    case CleanupAny(q) =>
      CleanupKeepsTidy(w.cache, cap, q);
      ResetKeepsSync(run, w, Cleanup(w.cache, q));
    case WriteElsewhere(q, r, approvals) =>
  }

  lemma {:induction false} ExecuteKeepsInv(cap: nat, run: string, moves: seq<Move>)
    ensures Inv(cap, run, Execute(cap, run, moves))
  {
    if moves == [] {
      assert Decoded([][..0]) == [];
      assert Elements([]) == {};
    } else {
      ExecuteKeepsInv(cap, run, moves[..|moves| - 1]);
      StepKeepsInv(cap, run, Execute(cap, run, moves[..|moves| - 1]), moves[|moves| - 1]);
    }
  }

  /** Whatever log growth, queries, touches, evictions, cleanups and writes to other runs came
      before: the run's registries are the replay of its log up to the rebuild offset, and the
      tracked runs are listed once each and fit the cap. */
  lemma CacheIsReplay(cap: nat, run: string, moves: seq<Move>)
    ensures var w := Execute(cap, run, moves);
            && InSyncWithLog(run, w)
            && NoDuplicates(w.cache.order) && Elements(w.cache.order) == w.cache.tracked && |w.cache.order| <= cap
  {
    ExecuteKeepsInv(cap, run, moves);
  }

  /** Evict-then-query loses nothing: two facades with arbitrary histories over the same log show
      the same registries after a query. */
  lemma QueryForgetsEvictions(cap: nat, cap': nat, run: string, moves: seq<Move>, moves': seq<Move>)
    requires Execute(cap, run, moves).log == Execute(cap', run, moves').log
    ensures RegistryOf(Step(cap, run, Execute(cap, run, moves), Query).cache, run)
         == RegistryOf(Step(cap', run, Execute(cap', run, moves'), Query).cache, run)
  {
    ExecuteKeepsInv(cap, run, moves);
    ExecuteKeepsInv(cap', run, moves');
    QueryIsFullReplay(cap, run, Execute(cap, run, moves));
    QueryIsFullReplay(cap', run, Execute(cap', run, moves'));
  }
}
