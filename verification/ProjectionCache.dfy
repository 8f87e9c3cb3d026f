/** The projection service: an incremental, diagnostic-skipping replay cached per run. */
module ProjectionCache {
  import opened Basics
  import opened RunProjection
  import opened EventLog

  /** Whether an event takes part in replay. */
  predicate Replays(reject: bool, e: Event) {
    !(reject && e.authority == DerivedDiagnostic)
  }

  function Fold(reject: bool, p: Projection, es: seq<Event>): Projection {
    if es == [] then p
    else
      var q := Fold(reject, p, es[..|es| - 1]);
      if Replays(reject, es[|es| - 1]) then ApplyEvent(q, es[|es| - 1]) else q
  }

  /** The whole run replayed from scratch: the reference the cache must agree with. */
  function FullReplay(reject: bool, runId: string, es: seq<Event>): Projection {
    Fold(reject, Default(runId), es)
  }

  /** The events a bounded catch-up looks at: it stops at the first one past the bound. */
  function UpTo(es: seq<Event>, through: int): seq<Event> {
    if es == [] || es[0].offset > through then [] else [es[0]] + UpTo(es[1..], through)
  }

  /** `catch_up` (a bound is given) or `get` (none) on the events loaded after the cached offset. */
  function CatchUp(reject: bool, p: Projection, unseen: seq<Event>, through: Option<int>): Projection {
    Fold(reject, p, if through.Some? then UpTo(unseen, through.value) else unseen)
  }

  function Cached(cache: map<string, Projection>, runId: string): Projection {
    if runId in cache then cache[runId] else Default(runId)
  }

  class InMemoryProjectionService {
    const reject: bool
    var cache: map<string, Projection>

    constructor (reject: bool)
      ensures this.reject == reject && cache == map[]
    {
      this.reject := reject;
      cache := map[];
    }

    method DoCatchUp(log: InMemoryEventLog, runId: string, through: int) returns (p: Projection)
      modifies this
      ensures var base := Cached(old(cache), runId);
              p == CatchUp(reject, base, After(EventsOf(log.Value(), runId), base.offset), Some(through))
      ensures cache == old(cache)[runId := p]
    {
      var base := Cached(cache, runId);
      var unseen := log.Load(runId, base.offset);
      p := FoldLoop(base, unseen, through);
      cache := cache[runId := p];
    }

    /** The replay loop of `catch_up`: stop past the bound, skip what does not replay. */
    method FoldLoop(base: Projection, unseen: seq<Event>, through: int) returns (p: Projection)
      ensures p == CatchUp(reject, base, unseen, Some(through))
    {
      p := base;
      var i := 0;
      while i < |unseen|
        invariant 0 <= i <= |unseen|
        invariant p == Fold(reject, base, unseen[..i])
        invariant UpTo(unseen, through) == unseen[..i] + UpTo(unseen[i..], through)
      {
        var e := unseen[i];
        if e.offset > through {
          break;
        }
        StepOver(unseen, i, through);
        FoldSnoc(reject, base, unseen, i);
        i := i + 1;
        if Replays(reject, e) {
          p := ApplyEvent(p, e);
        }
      }
      assert unseen[..i] + [] == unseen[..i];
    }

    method DoGet(log: InMemoryEventLog, runId: string) returns (p: Projection)
      modifies this
      ensures var base := Cached(old(cache), runId);
              p == CatchUp(reject, base, After(EventsOf(log.Value(), runId), base.offset), None)
      ensures cache == old(cache)[runId := p]
    {
      var base := Cached(cache, runId);
      p := base;
      var unseen := log.Load(runId, base.offset);
      for i := 0 to |unseen|
        invariant p == Fold(reject, base, unseen[..i]) && cache == old(cache)
      {
        FoldSnoc(reject, base, unseen, i);
        if Replays(reject, unseen[i]) {
          p := ApplyEvent(p, unseen[i]);
        }
      }
      assert unseen[..|unseen|] == unseen;
      cache := cache[runId := p];
    }

    method DoReadiness(log: InMemoryEventLog, runId: string, required: int) returns (ready: bool)
      modifies this
      ensures var base := Cached(old(cache), runId);
              var p := CatchUp(reject, base, After(EventsOf(log.Value(), runId), base.offset), None);
              cache == old(cache)[runId := p] && ready == (p.offset >= required)
    {
      var p := DoGet(log, runId);
      ready := p.offset >= required;
    }
  }

  lemma StepOver(es: seq<Event>, i: nat, through: int)
    requires i < |es| && es[i].offset <= through
    ensures es[..i] + UpTo(es[i..], through) == es[..i + 1] + UpTo(es[i + 1..], through)
  {
    assert es[i..][1..] == es[i + 1..];
    assert es[..i + 1] == es[..i] + [es[i]];
  }

  lemma FoldSnoc(reject: bool, p: Projection, es: seq<Event>, i: nat)
    requires i < |es|
    ensures Fold(reject, p, es[..i + 1]) ==
            if Replays(reject, es[i]) then ApplyEvent(Fold(reject, p, es[..i]), es[i]) else Fold(reject, p, es[..i])
  {
    assert es[..i + 1][..i] == es[..i];
  }

  // ---------------------------------------------------------------------
  // Replay facts
  // ---------------------------------------------------------------------

  lemma {:induction false} FoldSplit(reject: bool, p: Projection, a: seq<Event>, b: seq<Event>)
    ensures Fold(reject, p, a + b) == Fold(reject, Fold(reject, p, a), b)
  {
    if b == [] {
      assert a + b == a;
    } else {
      FoldSplit(reject, p, a, b[..|b| - 1]);
      assert (a + b)[..|a + b| - 1] == a + b[..|b| - 1];
    }
  }

  /** Offset of the last event that replays, or `default` if none does. */
  function LastOr(reject: bool, es: seq<Event>, default: int): int {
    if es == [] then default
    else if Replays(reject, es[|es| - 1]) then es[|es| - 1].offset
    else LastOr(reject, es[..|es| - 1], default)
  }

  function LastReplayable(reject: bool, es: seq<Event>): int { LastOr(reject, es, 0) }

  lemma {:induction false} FoldOffset(reject: bool, p: Projection, es: seq<Event>)
    ensures Fold(reject, p, es).offset == LastOr(reject, es, p.offset)
  {
    if es != [] {
      FoldOffset(reject, p, es[..|es| - 1]);
    }
  }

  lemma {:induction false} LastOrSplit(reject: bool, a: seq<Event>, b: seq<Event>, default: int)
    ensures LastOr(reject, a + b, default) == LastOr(reject, b, LastOr(reject, a, default))
  {
    if b == [] {
      assert a + b == a;
    } else {
      LastOrSplit(reject, a, b[..|b| - 1], default);
      assert (a + b)[..|a + b| - 1] == a + b[..|b| - 1];
    }
  }

  lemma {:induction false} ReplayableBound(reject: bool, es: seq<Event>)
    requires Dense(es)
    ensures 0 <= LastReplayable(reject, es) <= |es|
  {
    if es != [] {
      ReplayableBound(reject, es[..|es| - 1]);
    }
  }

  /** A replay stands at the last replayable event, and what follows it adds nothing. */
  lemma {:induction false} ReplayOffset(reject: bool, runId: string, es: seq<Event>)
    requires Dense(es)
    ensures var p := FullReplay(reject, runId, es);
            && 0 <= p.offset <= |es| && p.offset == LastReplayable(reject, es)
            && p == FullReplay(reject, runId, es[..p.offset])
  {
    FoldOffset(reject, Default(runId), es);
    ReplayableBound(reject, es);
    if es != [] {
      var front := es[..|es| - 1];
      var p := FullReplay(reject, runId, es);
      if Replays(reject, es[|es| - 1]) {
        assert es[..|es|] == es;
      } else {
        ReplayOffset(reject, runId, front);
        assert front[..p.offset] == es[..p.offset];
      }
    }
  }

  lemma {:induction false} UpToIsPrefix(es: seq<Event>, from: nat, through: int)
    requires Dense(es) && from <= |es|
    ensures var n := if through < from then from else if through > |es| then |es| else through;
            UpTo(es[from..], through) == es[from..n]
    decreases |es| - from
  {
    if from < |es| && from + 1 <= through {
      UpToIsPrefix(es, from + 1, through);
      assert es[from..][1..] == es[from + 1..];
    }
  }

  /** The cached projection is a full replay of some prefix of the run. */
  predicate CacheOk(reject: bool, runId: string, es: seq<Event>, p: Projection) {
    0 <= p.offset <= |es| && p == FullReplay(reject, runId, es[..p.offset])
  }

  /** How far a call that started from offset `from` with `seen` events loaded gets. */
  function Reach(from: int, seen: int, through: Option<int>): int {
    match through
    case None => seen
    case Some(t) => if t < from then from else if t > seen then seen else t
  }

  lemma ReplayFrom(reject: bool, runId: string, es: seq<Event>, p: Projection, n: nat)
    requires CacheOk(reject, runId, es, p) && p.offset <= n <= |es|
    ensures Fold(reject, p, es[p.offset..n]) == FullReplay(reject, runId, es[..n])
  {
    assert es[..n] == es[..p.offset] + es[p.offset..n];
    FoldSplit(reject, Default(runId), es[..p.offset], es[p.offset..n]);
  }

  lemma PrefixReplayIsCacheOk(reject: bool, runId: string, es: seq<Event>, m: nat, n: nat)
    requires Dense(es) && m <= n <= |es|
    ensures CacheOk(reject, runId, es, FullReplay(reject, runId, es[..n]))
    ensures FullReplay(reject, runId, es[..m]).offset <= FullReplay(reject, runId, es[..n]).offset
  {
    var q := FullReplay(reject, runId, es[..n]);
    ReplayOffset(reject, runId, es[..n]);
    assert es[..n][..q.offset] == es[..q.offset];
    ReplayOffset(reject, runId, es[..m]);
    ReplayableGrows(reject, es, m, n);
  }

  /** The events a call folds: those past the cached offset, up to its bound. */
  lemma CatchUpFolds(reject: bool, es: seq<Event>, p: Projection, through: Option<int>)
    requires Dense(es) && 0 <= p.offset <= |es|
    ensures var n := Reach(p.offset, |es|, through);
            p.offset <= n <= |es| && CatchUp(reject, p, After(es, p.offset), through) == Fold(reject, p, es[p.offset..n])
  {
    LoadDropsPrefix(es, p.offset);
    if through.Some? {
      UpToIsPrefix(es, p.offset, through.value);
    } else {
      assert es[p.offset..|es|] == es[p.offset..];
    }
  }

  /** One call is a full replay of the log as loaded, up to its bound. */
  lemma CatchUpIsFullReplay(reject: bool, runId: string, es: seq<Event>, p: Projection, through: Option<int>)
    requires Dense(es) && CacheOk(reject, runId, es, p)
    ensures var q := CatchUp(reject, p, After(es, p.offset), through);
            && q == FullReplay(reject, runId, es[..Reach(p.offset, |es|, through)])
            && CacheOk(reject, runId, es, q) && p.offset <= q.offset
  {
    var n := Reach(p.offset, |es|, through);
    CatchUpFolds(reject, es, p, through);
    ReplayFrom(reject, runId, es, p, n);
    PrefixReplayIsCacheOk(reject, runId, es, p.offset, n);
  }

  lemma ReplayableGrows(reject: bool, es: seq<Event>, m: nat, n: nat)
    requires Dense(es) && m <= n <= |es|
    ensures LastReplayable(reject, es[..m]) <= LastReplayable(reject, es[..n])
  {
    var last := LastReplayable(reject, es[..m]);
    assert es[..n] == es[..m] + es[m..n];
    LastOrSplit(reject, es[..m], es[m..n], 0);
    ReplayableBound(reject, es[..m]);
    LastPast(reject, es[m..n], m, last, last);
  }

  predicate AllPast(es: seq<Event>, offset: int) {
    forall i :: 0 <= i < |es| ==> es[i].offset > offset
  }

  /** Either nothing replays and each default stands, or the default does not matter. */
  lemma {:induction false} LastPast(reject: bool, es: seq<Event>, from: int, d: int, d': int)
    requires AllPast(es, from)
    ensures || (LastOr(reject, es, d) == d && LastOr(reject, es, d') == d')
            || (LastOr(reject, es, d) == LastOr(reject, es, d') > from)
  {
    if es != [] {
      LastPast(reject, es[..|es| - 1], from, d, d');
    }
  }

  // ---------------------------------------------------------------------
  // Interleavings: appends happen while a call waits for its load
  // ---------------------------------------------------------------------

  /** A call that holds the run's lock and has loaded the first `seen` events. */
  datatype Pending = Pending(base: Projection, unseen: seq<Event>, seen: nat, through: Option<int>)

  datatype Answer = Answer(through: Option<int>, from: int, seen: nat, projection: Projection)

  /** `restarted`: the log dropped this run at least once, while the service kept its projection. */
  datatype Run = Run(
    log: seq<Event>, cache: Option<Projection>, pending: Option<Pending>, answers: seq<Answer>, restarted: bool)

  datatype Move = Commit(events: seq<Event>) | Load(through: Option<int>) | FoldAndStore | Restart

  function Current(runId: string, r: Run): Projection {
    if r.cache.Some? then r.cache.value else Default(runId)
  }

  /** One step on one run; a move that is not enabled changes nothing. */
  function Step(reject: bool, runId: string, r: Run, move: Move): Run {
    match move
    case Commit(es) => r.(log := r.log + Stamp(es, |r.log| + 1))
    case Load(through) =>
      if r.pending.Some? then r
      else
        var base := Current(runId, r);
        r.(pending := Some(Pending(base, After(r.log, base.offset), |r.log|, through)))
    case FoldAndStore =>
      if r.pending.None? then r
      else
        var w := r.pending.value;
        var p := CatchUp(reject, w.base, w.unseen, w.through);
        Run(r.log, Some(p), None, r.answers + [Answer(w.through, w.base.offset, w.seen, p)], r.restarted)
    case Restart => r.(log := [], restarted := true)
  }

  function Execute(reject: bool, runId: string, moves: seq<Move>): Run {
    if moves == [] then Run([], None, None, [], false)
    else Step(reject, runId, Execute(reject, runId, moves[..|moves| - 1]), moves[|moves| - 1])
  }

  predicate AnswerOk(reject: bool, runId: string, log: seq<Event>, a: Answer) {
    && 0 <= a.from <= a.seen <= |log|
    && a.projection == FullReplay(reject, runId, log[..Reach(a.from, a.seen, a.through)])
  }

  predicate Inv(reject: bool, runId: string, r: Run) {
    && Dense(r.log)
    && CacheOk(reject, runId, r.log, Current(runId, r))
    && (r.pending.Some? ==>
          var w := r.pending.value;
          w.base == Current(runId, r) && w.base.offset <= w.seen <= |r.log| && w.unseen == After(r.log[..w.seen], w.base.offset))
    && (forall i :: 0 <= i < |r.answers| ==> AnswerOk(reject, runId, r.log, r.answers[i]))
  }

  lemma CommitKeepsInv(reject: bool, runId: string, r: Run, es: seq<Event>)
    requires Inv(reject, runId, r)
    ensures Inv(reject, runId, Step(reject, runId, r, Commit(es)))
  {
    var log' := r.log + Stamp(es, |r.log| + 1);
    StampIsNumbered(r.log, es);
    forall n | 0 <= n <= |r.log| ensures log'[..n] == r.log[..n] { }
    var r' := Step(reject, runId, r, Commit(es));
    forall i | 0 <= i < |r'.answers| ensures AnswerOk(reject, runId, log', r'.answers[i]) {
      assert AnswerOk(reject, runId, r.log, r.answers[i]);
    }
  }

  lemma StoredIsReplay(reject: bool, runId: string, r: Run)
    requires Inv(reject, runId, r) && r.pending.Some?
    ensures var w := r.pending.value;
            var q := CatchUp(reject, w.base, w.unseen, w.through);
            && CacheOk(reject, runId, r.log, q) && w.base.offset <= q.offset
            && AnswerOk(reject, runId, r.log, Answer(w.through, w.base.offset, w.seen, q))
  {
    var w := r.pending.value;
    var loaded := r.log[..w.seen];
    assert loaded[..w.base.offset] == r.log[..w.base.offset];
    CatchUpIsFullReplay(reject, runId, loaded, w.base, w.through);
    var q := CatchUp(reject, w.base, w.unseen, w.through);
    var n := Reach(w.base.offset, w.seen, w.through);
    assert loaded[..n] == r.log[..n] && loaded[..q.offset] == r.log[..q.offset];
  }

  lemma StoreKeepsInv(reject: bool, runId: string, r: Run)
    requires Inv(reject, runId, r) && r.pending.Some?
    ensures Inv(reject, runId, Step(reject, runId, r, FoldAndStore))
  {
    StoredIsReplay(reject, runId, r);
  }

  lemma StepKeepsInv(reject: bool, runId: string, r: Run, move: Move)
    requires Inv(reject, runId, r) && move != Restart
    ensures Inv(reject, runId, Step(reject, runId, r, move))
  {
    match move
    case Commit(es) => CommitKeepsInv(reject, runId, r, es);
    case Load(through) => assert r.log[..|r.log|] == r.log;
    case FoldAndStore => if r.pending.Some? { StoreKeepsInv(reject, runId, r); }
  }

  lemma {:induction false} ExecuteKeepsInv(reject: bool, runId: string, moves: seq<Move>)
    requires !Execute(reject, runId, moves).restarted
    ensures Inv(reject, runId, Execute(reject, runId, moves))
  {
    if moves != [] {
      ExecuteKeepsInv(reject, runId, moves[..|moves| - 1]);
      StepKeepsInv(reject, runId, Execute(reject, runId, moves[..|moves| - 1]), moves[|moves| - 1]);
    }
  }

  /** Under every interleaving of commits and calls on a run the log has not dropped, the cache is
      a full replay of the log up to its own offset, and every answer given is a full replay of the
      log as that call loaded it. */
  lemma CacheRefinesReplay(reject: bool, runId: string, moves: seq<Move>)
    requires !Execute(reject, runId, moves).restarted
    ensures var r := Execute(reject, runId, moves);
            && CacheOk(reject, runId, r.log, Current(runId, r))
            && forall i :: 0 <= i < |r.answers| ==> AnswerOk(reject, runId, r.log, r.answers[i])
  {
    ExecuteKeepsInv(reject, runId, moves);
  }

  /** `readiness(required)` holds exactly up to the last replayable event that was loaded. */
  lemma ReadinessIsExact(reject: bool, runId: string, moves: seq<Move>, i: nat, required: int)
    requires var r := Execute(reject, runId, moves);
             !r.restarted && i < |r.answers| && r.answers[i].through == None
    ensures var r := Execute(reject, runId, moves);
            && r.answers[i].seen <= |r.log|
            && (r.answers[i].projection.offset >= required <==>
                  required <= LastReplayable(reject, r.log[..r.answers[i].seen]))
  {
    ExecuteKeepsInv(reject, runId, moves);
    var r := Execute(reject, runId, moves);
    assert AnswerOk(reject, runId, r.log, r.answers[i]);
    ReplayOffset(reject, runId, r.log[..r.answers[i].seen]);
  }

  // ---------------------------------------------------------------------
  // Restarts: the log drops the run, the service does not
  // ---------------------------------------------------------------------

  lemma {:induction false} LoadedArePast(es: seq<Event>, offset: int)
    ensures AllPast(After(es, offset), offset)
  {
    if es != [] {
      LoadedArePast(es[..|es| - 1], offset);
    }
  }

  lemma {:induction false} BoundedArePast(es: seq<Event>, offset: int, through: int)
    requires AllPast(es, offset)
    ensures AllPast(UpTo(es, through), offset)
  {
    if es != [] && es[0].offset <= through {
      BoundedArePast(es[1..], offset, through);
    }
  }

  lemma {:induction false} FoldMovesOn(reject: bool, p: Projection, es: seq<Event>)
    requires AllPast(es, p.offset)
    ensures var q := Fold(reject, p, es); p.offset <= q.offset && (q.offset == p.offset ==> q == p)
  {
    if es != [] {
      FoldMovesOn(reject, p, es[..|es| - 1]);
    }
  }

  /** What holds even across restarts: a projection still at offset 0 is the untouched default. */
  predicate Sound(runId: string, r: Run) {
    && Dense(r.log)
    && var p := Current(runId, r);
    && 0 <= p.offset && (p.offset == 0 ==> p == Default(runId))
    && (r.pending.Some? ==> r.pending.value.base == p && AllPast(r.pending.value.unseen, p.offset))
  }

  lemma StoreMovesOn(reject: bool, w: Pending)
    requires AllPast(w.unseen, w.base.offset)
    ensures var q := CatchUp(reject, w.base, w.unseen, w.through);
            w.base.offset <= q.offset && (q.offset == w.base.offset ==> q == w.base)
  {
    if w.through.Some? {
      BoundedArePast(w.unseen, w.base.offset, w.through.value);
    }
    FoldMovesOn(reject, w.base, if w.through.Some? then UpTo(w.unseen, w.through.value) else w.unseen);
  }

  lemma StepKeepsSound(reject: bool, runId: string, r: Run, move: Move)
    requires Sound(runId, r)
    ensures Sound(runId, Step(reject, runId, r, move))
    ensures Current(runId, r).offset <= Current(runId, Step(reject, runId, r, move)).offset
  {
    match move
    case Commit(es) => StampIsNumbered(r.log, es);
    case Load(through) => LoadedArePast(r.log, Current(runId, r).offset);
    case FoldAndStore => if r.pending.Some? { StoreMovesOn(reject, r.pending.value); }
    case Restart =>
  }

  lemma {:induction false} ExecuteKeepsSound(reject: bool, runId: string, moves: seq<Move>)
    ensures Sound(runId, Execute(reject, runId, moves))
  {
    if moves != [] {
      ExecuteKeepsSound(reject, runId, moves[..|moves| - 1]);
      StepKeepsSound(reject, runId, Execute(reject, runId, moves[..|moves| - 1]), moves[|moves| - 1]);
    }
  }

  /** The projected offset never moves back, not even when the log restarts. */
  lemma {:induction false} OffsetNeverDecreases(reject: bool, runId: string, moves: seq<Move>, i: nat)
    requires i <= |moves|
    ensures Current(runId, Execute(reject, runId, moves[..i])).offset <= Current(runId, Execute(reject, runId, moves)).offset
    decreases |moves|
  {
    if i < |moves| {
      var front := moves[..|moves| - 1];
      OffsetNeverDecreases(reject, runId, front, i);
      assert front[..i] == moves[..i];
      ExecuteKeepsSound(reject, runId, front);
      StepKeepsSound(reject, runId, Execute(reject, runId, front), moves[|moves| - 1]);
    } else {
      assert moves[..i] == moves;
    }
  }

  /** Events up to the cached offset of a restarted log stay invisible to the service. */
  lemma RestartedLogIsInvisible(reject: bool, p: Projection, restarted: seq<Event>, through: Option<int>)
    requires Dense(restarted) && |restarted| <= p.offset
    ensures CatchUp(reject, p, After(restarted, p.offset), through) == p
  {
    LoadDropsPrefix(restarted, p.offset);
  }

  /** Whatever the cached projection is, `get` stands at the larger of its offset and the last
      replayable offset of the log. So it stands where a replay of the log stands exactly when the
      log has a replayable event at or past the cached offset, and a log still shorter than the
      cached offset is always answered wrongly. */
  lemma AnswerOverAnyCache(reject: bool, runId: string, p: Projection, es: seq<Event>)
    requires Dense(es) && 0 <= p.offset
    ensures var q, last := CatchUp(reject, p, After(es, p.offset), None), LastReplayable(reject, es);
            var full := FullReplay(reject, runId, es);
            && q.offset == (if last > p.offset then last else p.offset)
            && (q.offset == full.offset <==> last >= p.offset)
            && (|es| < p.offset ==> q != full)
  {
    FoldOffset(reject, Default(runId), es);
    ReplayableBound(reject, es);
    if p.offset <= |es| {
      GetOffset(reject, p, es);
    } else {
      RestartedLogIsInvisible(reject, p, es, None);
    }
  }

  lemma GetOffset(reject: bool, p: Projection, es: seq<Event>)
    requires Dense(es) && 0 <= p.offset <= |es|
    ensures var last := LastReplayable(reject, es);
            CatchUp(reject, p, After(es, p.offset), None).offset == if last > p.offset then last else p.offset
  {
    var seen, rest := es[..p.offset], es[p.offset..];
    LoadDropsPrefix(es, p.offset);
    DenseSplit(es, p.offset);
    FoldPastOffset(reject, p, seen, rest);
  }

  lemma DenseSplit(es: seq<Event>, k: nat)
    requires Dense(es) && k <= |es|
    ensures Dense(es[..k]) && AllPast(es[k..], k) && es == es[..k] + es[k..]
  {
    forall i | 0 <= i < |es[k..]| ensures es[k..][i].offset > k {
      assert es[k..][i] == es[k + i];
    }
  }

  lemma FoldPastOffset(reject: bool, p: Projection, seen: seq<Event>, rest: seq<Event>)
    requires Dense(seen) && |seen| == p.offset && AllPast(rest, p.offset)
    ensures var last := LastReplayable(reject, seen + rest);
            Fold(reject, p, rest).offset == if last > p.offset then last else p.offset
  {
    FoldOffset(reject, p, rest);
    LastOrSplit(reject, seen, rest, 0);
    ReplayableBound(reject, seen);
    LastPast(reject, rest, p.offset, p.offset, LastReplayable(reject, seen));
  }

  /** The projection the service holds after a `get` that nothing interrupts. */
  function AfterGet(reject: bool, runId: string, r: Run): Projection {
    Current(runId, Step(reject, runId, Step(reject, runId, r, Load(None)), FoldAndStore))
  }

  /** Over every run, restarts included: `readiness` answers every required offset as a replay of
      the log would exactly when the log's last replayable offset has reached the cached one. */
  lemma ReadinessAcrossRestarts(reject: bool, runId: string, moves: seq<Move>)
    requires Execute(reject, runId, moves).pending.None?
    ensures var r := Execute(reject, runId, moves);
            (forall required :: Ready(AfterGet(reject, runId, r), required)
                           <==> Ready(FullReplay(reject, runId, r.log), required))
            <==> LastReplayable(reject, r.log) >= Current(runId, r).offset
  {
    var r := Execute(reject, runId, moves);
    ExecuteKeepsSound(reject, runId, moves);
    AnswerOverAnyCache(reject, runId, Current(runId, r), r.log);
    SameReadiness(AfterGet(reject, runId, r), FullReplay(reject, runId, r.log));
  }

  predicate Ready(p: Projection, required: int) { p.offset >= required }

  lemma SameReadiness(p: Projection, q: Projection)
    ensures (forall required :: Ready(p, required) <==> Ready(q, required)) <==> p.offset == q.offset
  {
    assert Ready(p, p.offset) && Ready(q, q.offset);
  }

  /** A restart is harmless exactly for a run whose projection never moved: in every other
      reachable state the next `get` answers something else than a replay of the restarted log. */
  lemma RestartBreaksRefinement(reject: bool, runId: string, moves: seq<Move>)
    requires Execute(reject, runId, moves).pending.None?
    ensures var r := Execute(reject, runId, moves);
            var r' := Step(reject, runId, r, Restart);
            AfterGet(reject, runId, r') == FullReplay(reject, runId, r'.log) <==> Current(runId, r).offset == 0
  {
    ExecuteKeepsSound(reject, runId, moves);
  }

  lemma ExecuteSnoc(reject: bool, runId: string, moves: seq<Move>, move: Move)
    ensures Execute(reject, runId, moves + [move]) == Step(reject, runId, Execute(reject, runId, moves), move)
  {
    assert (moves + [move])[..|moves|] == moves;
  }

  /** Such states are reachable: commit any replayable event, get, and let the log drop the run. */
  lemma RestartedRunIsReachable(reject: bool, runId: string, e: Event)
    requires Replays(reject, e)
    ensures var r := Execute(reject, runId, [Commit([e]), Load(None), FoldAndStore] + [Restart]);
            AfterGet(reject, runId, r) != FullReplay(reject, runId, r.log)
  {
    var m1, m2 := [Commit([e])], [Commit([e]), Load(None)];
    var m3 := [Commit([e]), Load(None), FoldAndStore];
    ExecuteSnoc(reject, runId, [], Commit([e]));
    ExecuteSnoc(reject, runId, m1, Load(None));
    ExecuteSnoc(reject, runId, m2, FoldAndStore);
    ExecuteSnoc(reject, runId, m3, Restart);
    assert [] + m1 == m1 && m1 + [Load(None)] == m2 && m2 + [FoldAndStore] == m3;
    var r1 := Execute(reject, runId, m1);
    assert r1.log == [e.(offset := 1)];
    AnswerOverAnyCache(reject, runId, Default(runId), r1.log);
    RestartBreaksRefinement(reject, runId, m3);
  }
}
