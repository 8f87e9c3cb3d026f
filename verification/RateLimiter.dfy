/** Rule 5 of snapshot-driven admission: a 60-second sliding window of admissions per run. */
module RateLimiter {
  type Windows = map<string, seq<real>>

  const SPAN: real := 60.0

  function WindowOf(ws: Windows, runId: string): seq<real> {
    if runId in ws then ws[runId] else []
  }

  /** The deque after popping expired timestamps from the left. */
  function DropOld(w: seq<real>, start: real): seq<real> {
    if w != [] && w[0] < start then DropOld(w[1..], start) else w
  }

  datatype Verdict = Verdict(windows: Windows, admitted: bool)

  /** One request; `denied` is the verdict of rules 1 to 4, which never reach the window. */
  datatype Request = Request(runId: string, now: real, limit: int, denied: bool)

  function Admit(ws: Windows, q: Request): Verdict {
    if q.denied then Verdict(ws, false)
    else
      var w := DropOld(WindowOf(ws, q.runId), q.now - SPAN);
      if |w| >= q.limit then Verdict(ws[q.runId := w], false)
      else Verdict(ws[q.runId := w + [q.now]], true)
  }

  class SlidingWindowLimiter {
    var windows: Windows

    constructor ()
      ensures windows == map[]
    {
      windows := map[];
    }

    method CheckRateLimit(runId: string, now: real, limit: int) returns (admitted: bool)
      modifies this
      ensures Verdict(windows, admitted) == Admit(old(windows), Request(runId, now, limit, false))
    {
      var windowStart := now - SPAN;
      var window := if runId in windows then windows[runId] else [];
      while window != [] && window[0] < windowStart
        invariant DropOld(window, windowStart) == DropOld(WindowOf(old(windows), runId), windowStart)
        invariant windows == old(windows)
        decreases |window|
      {
        window := window[1..];
      }
      if |window| >= limit {
        windows := windows[runId := window];
        return false;
      }
      windows := windows[runId := window + [now]];
      admitted := true;
    }
  }

  // ---------------------------------------------------------------------
  // Whole histories
  // ---------------------------------------------------------------------

  function After(qs: seq<Request>): Windows {
    if qs == [] then map[] else Admit(After(qs[..|qs| - 1]), qs[|qs| - 1]).windows
  }

  predicate AdmittedLast(qs: seq<Request>)
    requires qs != []
  {
    Admit(After(qs[..|qs| - 1]), qs[|qs| - 1]).admitted
  }

  /** Every admission a run ever got: what the window abbreviates. */
  function Times(qs: seq<Request>, runId: string): seq<real> {
    if qs == [] then []
    else
      var last := qs[|qs| - 1];
      Times(qs[..|qs| - 1], runId) + (if last.runId == runId && AdmittedLast(qs) then [last.now] else [])
  }

  function Count(ts: seq<real>, lo: real, hi: real): nat {
    if ts == [] then 0
    else Count(ts[..|ts| - 1], lo, hi) + (if lo <= ts[|ts| - 1] <= hi then 1 else 0)
  }

  predicate ClockForward(qs: seq<Request>) {
    forall i :: 0 < i < |qs| ==> qs[i - 1].now <= qs[i].now
  }

  predicate Sorted(ts: seq<real>) {
    forall i, j :: 0 <= i < j < |ts| ==> ts[i] <= ts[j]
  }

  /** The window is the full history without a prefix that has expired for good. */
  predicate Abbreviates(w: seq<real>, ts: seq<real>, now: real) {
    && |w| <= |ts| && w == ts[|ts| - |w|..]
    && Sorted(ts)
    && (forall i :: 0 <= i < |ts| ==> ts[i] <= now)
    && (forall i :: 0 <= i < |ts| - |w| ==> ts[i] < now - SPAN)
  }

  lemma {:induction false} DropOldAbbreviates(w: seq<real>, ts: seq<real>, now: real)
    requires Abbreviates(w, ts, now)
    ensures var d := DropOld(w, now - SPAN);
            Abbreviates(d, ts, now) && forall i :: 0 <= i < |d| ==> d[i] >= now - SPAN
    decreases |w|
  {
    if w != [] && w[0] < now - SPAN {
      assert w[1..] == ts[|ts| - |w[1..]|..];
      DropOldAbbreviates(w[1..], ts, now);
    } else if w != [] {
      forall i | 0 <= i < |w| ensures w[i] >= now - SPAN {
        assert w[i] == ts[|ts| - |w| + i] && w[0] == ts[|ts| - |w|];
      }
    }
  }

  lemma {:induction false} CountNone(ts: seq<real>, lo: real, hi: real)
    requires forall i :: 0 <= i < |ts| ==> ts[i] < lo
    ensures Count(ts, lo, hi) == 0
  {
    if ts != [] {
      CountNone(ts[..|ts| - 1], lo, hi);
    }
  }

  lemma {:induction false} CountAll(ts: seq<real>, more: seq<real>, lo: real, hi: real)
    requires forall i :: 0 <= i < |more| ==> lo <= more[i] <= hi
    ensures Count(ts + more, lo, hi) == Count(ts, lo, hi) + |more|
  {
    if more == [] {
      assert ts + more == ts;
    } else {
      var front, x := more[..|more| - 1], more[|more| - 1];
      CountAll(ts, front, lo, hi);
      assert ts + more == (ts + front) + [x];
      CountExtend(ts + front, x, lo, hi);
    }
  }

  lemma CountExtend(ts: seq<real>, x: real, lo: real, hi: real)
    ensures Count(ts + [x], lo, hi) == Count(ts, lo, hi) + (if lo <= x <= hi then 1 else 0)
  {
    assert (ts + [x])[..|ts|] == ts;
  }

  /** What is left in the deque is exactly the history inside the last 60 seconds. */
  lemma WindowCounts(d: seq<real>, ts: seq<real>, now: real)
    requires Abbreviates(d, ts, now) && forall i :: 0 <= i < |d| ==> d[i] >= now - SPAN
    ensures Count(ts, now - SPAN, now) == |d|
  {
    var cut := |ts| - |d|;
    var gone := ts[..cut];
    assert ts == gone + d;
    forall i | 0 <= i < |d| ensures now - SPAN <= d[i] <= now { assert d[i] == ts[cut + i]; }
    CountNone(gone, now - SPAN, now);
    CountAll(gone, d, now - SPAN, now);
  }

  function Extend(ts: seq<real>, admitted: bool, now: real): seq<real> {
    if admitted then ts + [now] else ts
  }

  lemma AppendAbbreviates(d: seq<real>, ts: seq<real>, now: real)
    requires Abbreviates(d, ts, now)
    ensures Abbreviates(d + [now], ts + [now], now)
  {
    assert (ts + [now])[|ts| - |d|..] == ts[|ts| - |d|..] + [now];
  }

  lemma VerdictCounts(ws: Windows, ts: seq<real>, q: Request)
    requires Abbreviates(WindowOf(ws, q.runId), ts, q.now) && !q.denied
    ensures Admit(ws, q).admitted <==> Count(ts, q.now - SPAN, q.now) < q.limit
  {
    DropOldAbbreviates(WindowOf(ws, q.runId), ts, q.now);
    WindowCounts(DropOld(WindowOf(ws, q.runId), q.now - SPAN), ts, q.now);
  }

  lemma VerdictAbbreviates(ws: Windows, ts: seq<real>, q: Request)
    requires Abbreviates(WindowOf(ws, q.runId), ts, q.now)
    ensures Abbreviates(WindowOf(Admit(ws, q).windows, q.runId), Extend(ts, Admit(ws, q).admitted, q.now), q.now)
  {
    if !q.denied {
      DropOldAbbreviates(WindowOf(ws, q.runId), ts, q.now);
      AppendAbbreviates(DropOld(WindowOf(ws, q.runId), q.now - SPAN), ts, q.now);
    }
  }

  lemma HistoryStep(qs: seq<Request>, q: Request, runId: string)
    ensures After(qs + [q]) == Admit(After(qs), q).windows
    ensures Times(qs + [q], runId) == Extend(Times(qs, runId), q.runId == runId && Admit(After(qs), q).admitted, q.now)
  {
    assert (qs + [q])[..|qs|] == qs;
  }

  lemma OthersUntouched(ws: Windows, q: Request, runId: string)
    requires q.runId != runId
    ensures WindowOf(Admit(ws, q).windows, runId) == WindowOf(ws, runId)
  {
  }

  lemma SplitLast(qs: seq<Request>) returns (front: seq<Request>, q: Request)
    requires qs != []
    ensures qs == front + [q] && front == qs[..|qs| - 1] && q == qs[|qs| - 1]
    ensures ClockForward(qs) ==> ClockForward(front) && (front != [] ==> front[|front| - 1].now <= q.now)
  {
    front, q := qs[..|qs| - 1], qs[|qs| - 1];
  }

  lemma StillAbbreviates(w: seq<real>, ts: seq<real>, now: real, later: real)
    requires Abbreviates(w, ts, now) && now <= later
    ensures Abbreviates(w, ts, later)
  {
  }

  /** The left-popped deque is always the unexpired part of the full admission history. */
  lemma {:induction false} WindowAbbreviates(qs: seq<Request>, runId: string, now: real)
    requires ClockForward(qs) && (qs != [] ==> qs[|qs| - 1].now <= now)
    ensures Abbreviates(WindowOf(After(qs), runId), Times(qs, runId), now)
    decreases |qs|
  {
    if qs != [] {
      var front, q := SplitLast(qs);
      WindowAbbreviates(front, runId, q.now);
      HistoryStep(front, q, runId);
      if q.runId == runId {
        VerdictAbbreviates(After(front), Times(front, runId), q);
      } else {
        OthersUntouched(After(front), q, runId);
      }
      StillAbbreviates(WindowOf(After(qs), runId), Times(qs, runId), q.now, now);
    }
  }

  /** A request that reaches rule 5 is denied exactly when the run already has `limit` admissions
      in the closed minute before it; a denied request uses no quota. */
  lemma DenialIsExact(qs: seq<Request>, q: Request)
    requires ClockForward(qs) && (qs != [] ==> qs[|qs| - 1].now <= q.now) && !q.denied
    ensures Admit(After(qs), q).admitted <==> Count(Times(qs, q.runId), q.now - SPAN, q.now) < q.limit
    ensures !Admit(After(qs), q).admitted ==> forall r :: Times(qs + [q], r) == Times(qs, r)
  {
    WindowAbbreviates(qs, q.runId, q.now);
    VerdictCounts(After(qs), Times(qs, q.runId), q);
    forall r { HistoryStep(qs, q, r); }
  }

  lemma {:induction false} CountShrinks(ts: seq<real>, lo: real, hi: real, lo': real, hi': real)
    requires forall i :: 0 <= i < |ts| && lo <= ts[i] <= hi ==> lo' <= ts[i] <= hi'
    ensures Count(ts, lo, hi) <= Count(ts, lo', hi')
  {
    if ts != [] {
      CountShrinks(ts[..|ts| - 1], lo, hi, lo', hi');
    }
  }

  /** An admission finds fewer than `limit` earlier ones in any closed interval that reaches it. */
  lemma AdmissionLeavesRoom(qs: seq<Request>, q: Request, t: real)
    requires ClockForward(qs) && (qs != [] ==> qs[|qs| - 1].now <= q.now)
    requires Admit(After(qs), q).admitted && t <= q.now <= t + SPAN
    ensures Count(Times(qs, q.runId), t, t + SPAN) < q.limit
  {
    DenialIsExact(qs, q);
    WindowAbbreviates(qs, q.runId, q.now);
    CountShrinks(Times(qs, q.runId), t, t + SPAN, q.now - SPAN, q.now);
  }

  /** With a forward clock and one limit, no closed 60-second interval ever holds more
      admissions of a run than the limit. */
  lemma {:induction false} NoIntervalOverLimit(qs: seq<Request>, limit: int, runId: string, t: real)
    requires ClockForward(qs) && forall i :: 0 <= i < |qs| ==> qs[i].limit == limit
    ensures Count(Times(qs, runId), t, t + SPAN) <= if limit > 0 then limit else 0
    decreases |qs|
  {
    if qs != [] {
      var front, q := SplitLast(qs);
      NoIntervalOverLimit(front, limit, runId, t);
      HistoryStep(front, q, runId);
      if q.runId == runId && Admit(After(front), q).admitted {
        CountExtend(Times(front, runId), q.now, t, t + SPAN);
        if t <= q.now <= t + SPAN {
          AdmissionLeavesRoom(front, q, t);
        }
      }
    }
  }

  function Only(qs: seq<Request>, runId: string): seq<Request> {
    if qs == [] then []
    else Only(qs[..|qs| - 1], runId) + (if qs[|qs| - 1].runId == runId then [qs[|qs| - 1]] else [])
  }

  lemma OnlySnoc(qs: seq<Request>, q: Request, runId: string)
    ensures Only(qs + [q], runId) == if q.runId == runId then Only(qs, runId) + [q] else Only(qs, runId)
  {
    assert (qs + [q])[..|qs|] == qs;
  }

  /** Runs do not affect each other: a run's window and admissions are those it would have alone. */
  lemma {:induction false} RunsAreIndependent(qs: seq<Request>, runId: string)
    ensures WindowOf(After(qs), runId) == WindowOf(After(Only(qs, runId)), runId)
    ensures Times(qs, runId) == Times(Only(qs, runId), runId)
    decreases |qs|
  {
    if qs != [] {
      var front, q := SplitLast(qs);
      var own := Only(front, runId);
      RunsAreIndependent(front, runId);
      HistoryStep(front, q, runId);
      OnlySnoc(front, q, runId);
      if q.runId == runId {
        HistoryStep(own, q, runId);
        SameWindowSameVerdict(After(front), After(own), q);
      } else {
        OthersUntouched(After(front), q, runId);
      }
    }
  }

  lemma SameWindowSameVerdict(a: Windows, b: Windows, q: Request)
    requires WindowOf(a, q.runId) == WindowOf(b, q.runId)
    ensures Admit(a, q).admitted == Admit(b, q).admitted
    ensures WindowOf(Admit(a, q).windows, q.runId) == WindowOf(Admit(b, q).windows, q.runId)
  {
  }
}
