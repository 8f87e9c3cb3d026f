/** When exactly a turn reaches the executor, and with which envelope. */
module TurnGate {
  import opened Basics
  import opened DedupeLedger
  import opened DispatchPolicy
  import opened TurnEngine

  /** The action the turn works on: the given one, or the first the reasoning loop proposes. */
  function ResolvedAction(action: Option<Action>, p: Ports): Option<Action> {
    if action.Some? then action
    else if p.reasoning.LoopReturned? && p.reasoning.actions != [] then Some(p.reasoning.actions[0])
    else None
  }

  /** Every gate open: snapshot, admission, policy, and a reservation of the turn's own key. */
  predicate GatesOpen(input: TurnInput, action: Option<Action>, l: Ledger, p: Ports) {
    && ResolvedAction(action, p).Some?
    && p.snapshot.Built?
    && p.admission.Decided? && p.admission.admitted
    && var a := ResolvedAction(action, p).value;
    && !ResolvePolicy(p.fold, a).shouldBlock
    && (p.faults.get || LegacyKey(input.runId, a.actionId, input.basedOnOffset) !in l)
    && if p.faults.reserve then a.effectClass == "idempotent_write"
       else PolicyKey(input.runId, a.actionId, p.snapshot.contentHash) !in l
  }

  predicate Announces(es: seq<TurnEvent>, a: Action, host: HostKind) {
    exists i :: 0 <= i < |es| && es[i].state == DedupeDegraded
             && es[i].scopes == Some((a.effectClass, DowngradedScope(host)))
  }

  predicate Emits(es: seq<TurnEvent>, s: TurnState) {
    exists i :: 0 <= i < |es| && es[i].state == s
  }

  predicate EmitsDegraded(es: seq<TurnEvent>) { Emits(es, DedupeDegraded) }

  /** Phases 0 to 3 as one step: they never touch the ledger or the executor. */
  function Prepare(c: Context, p: Ports): Context {
    var c0 := PhaseReasoning(c, p);
    if Done(c0) || c0.action.None? then c0
    else
      var c1 := PhaseSnapshot(c0, p);
      if Done(c1) then c1
      else
        var c2 := PhaseAdmission(c1, p);
        if Done(c2) then c2 else PhasePolicy(c2, p)
  }

  lemma PrepareThenDedupe(input: TurnInput, action: Option<Action>, l: Ledger, p: Ports)
    ensures var c := Prepare(Start(input, action), p);
            && (Done(c) ==> RunTurn(input, action, l, p) == Turn(c, l, []))
            && (!Done(c) ==> PhaseReady(4, c) && RunTurn(input, action, l, p) == RunFrom(4, Turn(c, l, []), p))
  {
    var t := Turn(Start(input, action), l, []);
    var c0 := PhaseReasoning(t.context, p);
    if !Done(c0) {
      assert RunFrom(0, t, p) == RunFrom(1, t.(context := c0), p);
      var c1 := PhaseSnapshot(c0, p);
      if !Done(c1) {
        assert RunFrom(1, t.(context := c0), p) == RunFrom(2, t.(context := c1), p);
        var c2 := PhaseAdmission(c1, p);
        if !Done(c2) {
          assert RunFrom(2, t.(context := c1), p) == RunFrom(3, t.(context := c2), p);
          assert Done(PhasePolicy(c2, p)) || RunFrom(3, t.(context := c2), p) == RunFrom(4, t.(context := PhasePolicy(c2, p)), p);
        }
      }
    }
  }

  lemma Prepared(input: TurnInput, action: Option<Action>, p: Ports)
    ensures var c, a := Prepare(Start(input, action), p), ResolvedAction(action, p);
            && (!Done(c) <==> a.Some? && p.snapshot.Built? && p.admission.Decided? && p.admission.admitted
                              && !ResolvePolicy(p.fold, a.value).shouldBlock)
            && (!Done(c) ==>
                  && DedupeReady(c) && c.input == input && c.action == a
                  && c.identity.value == BuildIdentity(input, a.value, Some(p.snapshot.contentHash))
                  && c.policy.value == ResolvePolicy(p.fold, a.value)
                  && c.dedupeAvailable && c.legacyAlias == None
                  && !EmitsDegraded(c.emitted))
  {
  }

  /** The executor runs at most once, and exactly when every gate is open. It gets the turn's own
      key; after a reservation that is a fresh key now on record, and after a store failure it is
      an idempotent write announced as degraded and handed over with the downgraded scope. */
  lemma ExecutorIsGated(input: TurnInput, action: Option<Action>, l: Ledger, p: Ports)
    ensures var t := RunTurn(input, action, l, p);
            && |t.calls| <= 1
            && (t.calls != [] <==> GatesOpen(input, action, l, p))
            && (t.calls != [] ==>
                  var a, e := ResolvedAction(action, p).value, t.calls[0];
                  var policy := ResolvePolicy(p.fold, a);
                  && e.key == PolicyKey(input.runId, a.actionId, p.snapshot.contentHash)
                  && Emits(t.context.emitted, TurnDispatched)
                  && (if p.faults.reserve
                      then e.effectScope == DowngradedScope(policy.hostKind)
                           && Announces(t.context.emitted, a, policy.hostKind) && t.ledger == l
                      else e.key in t.ledger && !EmitsDegraded(t.context.emitted)))
  {
    PrepareThenDedupe(input, action, l, p);
    Prepared(input, action, p);
    var c := Prepare(Start(input, action), p);
    if !Done(c) {
      KeysDiffer(input.runId, c.action.value.actionId, input.basedOnOffset, p.snapshot.contentHash);
      DedupePhase(c, l, p.faults);
      DedupeGate(c, l, p);
    }
  }

  /** An executed turn announces its dispatch, and a degradation exactly when reservation raised. */
  lemma DegradedIsAnnounced(input: TurnInput, action: Option<Action>, l: Ledger, p: Ports)
    ensures var t := RunTurn(input, action, l, p);
            t.calls != [] ==>
              Emits(t.context.emitted, TurnDispatched) && (EmitsDegraded(t.context.emitted) <==> p.faults.reserve)
  {
    ExecutorIsGated(input, action, l, p);
  }

  /** The envelope and announcements of a turn that is past its dedupe phase. */
  predicate Cleared(c: Context, c': Context, l: Ledger, l': Ledger, f: Faults)
    requires DedupeReady(c)
  {
    && ExecuteReady(c') && c'.envelope.value.key == c.identity.value.dispatchKey
    && Emits(c'.emitted, TurnDispatched)
    && if f.reserve
       then !c'.dedupeAvailable && l' == l
            && c'.envelope.value.effectScope == DowngradedScope(c.policy.value.hostKind)
            && Announces(c'.emitted, c.action.value, c.policy.value.hostKind)
       else c.identity.value.dispatchKey in l' && !EmitsDegraded(c'.emitted)
  }

  lemma DedupePhase(c: Context, l: Ledger, f: Faults)
    requires DedupeReady(c) && !Done(c) && !EmitsDegraded(c.emitted)
    requires OwnLegacyKey(c) != c.identity.value.dispatchKey
    ensures var (c', l') := PhaseDedupe(c, l, f);
            && (!Done(c') <==>
                  && (f.get || OwnLegacyKey(c) !in l)
                  && if f.reserve then c.action.value.effectClass == "idempotent_write"
                     else c.identity.value.dispatchKey !in l)
            && (!Done(c') ==> Cleared(c, c', l, l', f))
  {
    var (c', l') := PhaseDedupe(c, l, f);
    if !Done(c') {
      assert c'.emitted[|c'.emitted| - 1].state == TurnDispatched;
      if f.reserve {
        assert c'.emitted[|c.emitted|].state == DedupeDegraded;
      }
    }
  }

  lemma RunsToSettle(c: Context, l: Ledger, p: Ports)
    requires DedupeReady(c) && !Done(c) && !Done(PhaseDedupe(c, l, p.faults).0)
    requires ExecuteReady(PhaseDedupe(c, l, p.faults).0)
    ensures var (c', l') := PhaseDedupe(c, l, p.faults);
            var (c'', l'') := PhaseSettle(c', l', p.executor, p.faults);
            RunFrom(4, Turn(c, l, []), p) == Turn(c'', l'', [c'.envelope.value])
  {
    var (c', l') := PhaseDedupe(c, l, p.faults);
    var t, t' := Turn(c, l, []), Turn(c', l', []);
    assert Phase(4, t, p) == t';
    PhaseKeepsReady(5, t', p);
    assert RunFrom(4, t, p) == RunFrom(5, t', p) == Phase(5, t', p);
    assert [] + [c'.envelope.value] == [c'.envelope.value];
  }

  /** From the dedupe phase on: one call if the phase clears the turn, none otherwise. */
  lemma DedupeGate(c: Context, l: Ledger, p: Ports)
    requires DedupeReady(c) && !Done(c) && !EmitsDegraded(c.emitted)
    requires OwnLegacyKey(c) != c.identity.value.dispatchKey
    ensures var t := RunFrom(4, Turn(c, l, []), p);
            var c' := PhaseDedupe(c, l, p.faults).0;
            if Done(c') then t.calls == []
            else
              && ExecuteReady(c') && t.calls == [c'.envelope.value]
              && c'.emitted <= t.context.emitted && Emits(t.context.emitted, TurnDispatched)
              && (EmitsDegraded(t.context.emitted) ==> EmitsDegraded(c'.emitted))
              && t.ledger.Keys == PhaseDedupe(c, l, p.faults).1.Keys
              && (p.faults.reserve ==> t.ledger == l)
  {
    DedupePhase(c, l, p.faults);
    var (c', l') := PhaseDedupe(c, l, p.faults);
    if !Done(c') {
      RunsToSettle(c, l, p);
      SettleKeeps(c', l', p.executor, p.faults);
      SettleEmits(c', l', p.executor, p.faults);
      EmitsGrows(c'.emitted, PhaseSettle(c', l', p.executor, p.faults).0.emitted, TurnDispatched);
    }
  }

  lemma EmitsGrows(es: seq<TurnEvent>, es': seq<TurnEvent>, s: TurnState)
    requires es <= es' && Emits(es, s)
    ensures Emits(es', s)
  {
    var i :| 0 <= i < |es| && es[i].state == s;
    assert es'[i].state == s;
  }

  lemma SettleEmits(c: Context, l: Ledger, answer: ExecutorAnswer, f: Faults)
    requires ExecuteReady(c)
    ensures var c' := PhaseSettle(c, l, answer, f).0;
            c.emitted <= c'.emitted && (EmitsDegraded(c'.emitted) ==> EmitsDegraded(c.emitted))
  {
  }

  lemma SettleKeeps(c: Context, l: Ledger, answer: ExecutorAnswer, f: Faults)
    requires ExecuteReady(c)
    ensures var l' := PhaseSettle(c, l, answer, f).1;
            l'.Keys == l.Keys && (!c.dedupeAvailable ==> l' == l)
  {
    SettleFrame(l, c, answer, f);
  }

  /** A turn whose run, action and offset were already dispatched stays away from the executor
      and from the store, whatever its snapshot hash is. */
  lemma RepeatedTurnIsInert(input: TurnInput, action: Option<Action>, l: Ledger, p: Ports)
    requires ResolvedAction(action, p).Some? && !p.faults.get
    requires LegacyKey(input.runId, ResolvedAction(action, p).value.actionId, input.basedOnOffset) in l
    ensures RunTurn(input, action, l, p).calls == [] && RunTurn(input, action, l, p).ledger == l
  {
    PrepareThenDedupe(input, action, l, p);
    Prepared(input, action, p);
    var c := Prepare(Start(input, action), p);
    if !Done(c) {
      KeysDiffer(input.runId, c.action.value.actionId, input.basedOnOffset, p.snapshot.contentHash);
    }
  }

  lemma DedupeKeys(c: Context, l: Ledger, f: Faults)
    requires DedupeReady(c) && !Done(c) && OwnLegacyKey(c) != c.identity.value.dispatchKey
    ensures var (c', l') := PhaseDedupe(c, l, f);
            var key, legacy := c.identity.value.dispatchKey, OwnLegacyKey(c);
            && (Done(c') ==> l' == l)
            && (!Done(c') ==> l'.Keys == l.Keys + (if f.reserve then {} else {key})
                                       + (if f.reserve || f.alias then {} else {legacy}))
  {
  }

  /** What a turn leaves behind: nothing unless it reaches the executor, and then its policy key
      exactly when the reservation answered and its legacy key exactly when the mirror did too. */
  lemma TurnLeavesRecords(input: TurnInput, action: Option<Action>, l: Ledger, p: Ports)
    ensures var t := RunTurn(input, action, l, p);
            if !GatesOpen(input, action, l, p) then t.ledger == l
            else
              var id := ResolvedAction(action, p).value.actionId;
              t.ledger.Keys == l.Keys
                + (if p.faults.reserve then {} else {PolicyKey(input.runId, id, p.snapshot.contentHash)})
                + (if p.faults.reserve || p.faults.alias then {} else {LegacyKey(input.runId, id, input.basedOnOffset)})
  {
    PrepareThenDedupe(input, action, l, p);
    Prepared(input, action, p);
    var c := Prepare(Start(input, action), p);
    if !Done(c) {
      KeysDiffer(input.runId, c.action.value.actionId, input.basedOnOffset, p.snapshot.contentHash);
      DedupePhase(c, l, p.faults);
      DedupeKeys(c, l, p.faults);
      DedupeGate(c, l, p);
    }
  }

  /** When a dispatched turn can be dispatched again. `p` are the answers of the first run, `q` those
      of the second, which may carry another snapshot hash and an action with the same id. Both
      barriers must be down: the legacy key was not recorded (or cannot be read), and the policy key
      is another one, was not recorded, or reservation fails again for an idempotent write. */
  lemma RepeatIsExact(input: TurnInput, action: Option<Action>, l: Ledger, p: Ports, q: Ports)
    requires GatesOpen(input, action, l, p)
    requires ResolvedAction(action, q).Some?
    requires ResolvedAction(action, q).value.actionId == ResolvedAction(action, p).value.actionId
    ensures var u := RunTurn(input, action, RunTurn(input, action, l, p).ledger, q);
            var a := ResolvedAction(action, q).value;
            var legacy := LegacyKey(input.runId, a.actionId, input.basedOnOffset);
            u.calls != [] <==>
              && q.snapshot.Built? && q.admission.Decided? && q.admission.admitted
              && !ResolvePolicy(q.fold, a).shouldBlock
              && (q.faults.get || (legacy !in l && (p.faults.reserve || p.faults.alias)))
              && if q.faults.reserve then a.effectClass == "idempotent_write"
                 else PolicyKey(input.runId, a.actionId, q.snapshot.contentHash) !in l
                      && (p.faults.reserve || q.snapshot.contentHash != p.snapshot.contentHash)
  {
    HeldAfterTurn(input, action, l, p, if q.snapshot.Built? then q.snapshot.contentHash else "");
    CallsIffOpen(input, action, RunTurn(input, action, l, p).ledger, q);
  }

  lemma CallsIffOpen(input: TurnInput, action: Option<Action>, l: Ledger, p: Ports)
    ensures RunTurn(input, action, l, p).calls != [] <==> GatesOpen(input, action, l, p)
  {
    ExecutorIsGated(input, action, l, p);
  }

  /** The keys on record after a dispatched turn, for its own action and any snapshot hash. */
  lemma HeldAfterTurn(input: TurnInput, action: Option<Action>, l: Ledger, p: Ports, hash: string)
    requires GatesOpen(input, action, l, p)
    ensures var id, l' := ResolvedAction(action, p).value.actionId, RunTurn(input, action, l, p).ledger;
            var key, legacy := PolicyKey(input.runId, id, hash), LegacyKey(input.runId, id, input.basedOnOffset);
            && (legacy in l' <==> legacy in l || !(p.faults.reserve || p.faults.alias))
            && (key in l' <==> key in l || (!p.faults.reserve && hash == p.snapshot.contentHash))
  {
    var id := ResolvedAction(action, p).value.actionId;
    TurnLeavesRecords(input, action, l, p);
    KeysDiffer(input.runId, id, input.basedOnOffset, p.snapshot.contentHash);
    KeysDiffer(input.runId, id, input.basedOnOffset, hash);
    PolicyKeyByHash(input.runId, id, p.snapshot.contentHash, hash);
  }

  lemma PolicyKeyByHash(runId: string, actionId: string, hash: string, hash': string)
    ensures PolicyKey(runId, actionId, hash) == PolicyKey(runId, actionId, hash') <==> hash == hash'
  {
    var head := "dispatch:" + runId + ":" + actionId + ":";
    assert PolicyKey(runId, actionId, hash)[|head|..] == hash;
    assert PolicyKey(runId, actionId, hash')[|head|..] == hash';
  }

  /** The same turn run again with the same answers reaches the executor again exactly when its
      reservation raised: a failed lookup, mirror or settlement never lets it through. */
  lemma RepeatsExactlyWhenDegraded(input: TurnInput, action: Option<Action>, l: Ledger, p: Ports)
    requires GatesOpen(input, action, l, p)
    ensures RunTurn(input, action, RunTurn(input, action, l, p).ledger, p).calls != [] <==> p.faults.reserve
  {
    RepeatIsExact(input, action, l, p, p);
  }

  /** A degraded turn leaves no record: the repeat is the same call on the same store. */
  lemma DegradedTurnRepeats(input: TurnInput, action: Option<Action>, l: Ledger, p: Ports)
    requires p.faults.reserve && GatesOpen(input, action, l, p)
    ensures var t := RunTurn(input, action, l, p);
            var u := RunTurn(input, action, t.ledger, p);
            t.calls != [] && u.calls == t.calls && u.ledger == l
  {
    ExecutorIsGated(input, action, l, p);
  }

  /** After a reservation and mirror that answered, no later run of the same run, action and offset
      that can read the store reaches the executor or changes the store. */
  lemma ReservedTurnDoesNotRepeat(input: TurnInput, action: Option<Action>, l: Ledger, p: Ports, q: Ports)
    requires !p.faults.reserve && !p.faults.alias && GatesOpen(input, action, l, p)
    requires !q.faults.get && ResolvedAction(action, q).Some?
    requires ResolvedAction(action, q).value.actionId == ResolvedAction(action, p).value.actionId
    ensures var t := RunTurn(input, action, l, p);
            var u := RunTurn(input, action, t.ledger, q);
            t.calls != [] && u.calls == [] && u.ledger == t.ledger
  {
    ExecutorIsGated(input, action, l, p);
    TurnLeavesRecords(input, action, l, p);
    RepeatedTurnIsInert(input, action, RunTurn(input, action, l, p).ledger, q);
  }

  lemma SettleReports(c: Context, l: Ledger, answer: ExecutorAnswer, f: Faults)
    requires ExecuteReady(c) && c.result.None?
    ensures var c', id := PhaseSettle(c, l, answer, f).0, c.identity.value;
            c'.result.Some? ==>
              c'.result.value.dispatchKey == Some(id.dispatchKey) && c'.result.value.fingerprint == id.fingerprint
  {
  }

  lemma AliasAdvances(c: Context, l: Ledger, ack: bool, f: Faults, key: string)
    requires key in l
    ensures key in SettleAlias(c, l, ack, f) && Advances(l[key], SettleAlias(c, l, ack, f)[key])
  {
    if c.legacyAlias.Some? {
      var alias := c.legacyAlias.value;
      CallAdvances(l, if ack then MarkAcknowledged(alias, None) else MarkUnknownEffect(alias), key);
    }
  }

  /** Settling moves every record forward or not at all. */
  lemma SettleAdvances(c: Context, l: Ledger, answer: ExecutorAnswer, f: Faults, key: string)
    requires ExecuteReady(c) && key in l
    ensures var l' := PhaseSettle(c, l, answer, f).1; key in l' && Advances(l[key], l'[key])
  {
    var ack, own := answer == Acks, c.identity.value.dispatchKey;
    var mark := if ack then MarkAcknowledged(own, None) else MarkUnknownEffect(own);
    CallAdvances(l, mark, key);
    AliasAdvances(c, Apply(l, mark).ledger, ack, f, key);
    AliasAdvances(c, l, ack, f, key);
  }

  /** One identity throughout: the key and fingerprint the executor got are those in the store's
      record and those the caller reads in the result. */
  lemma ReportNamesTheCall(input: TurnInput, action: Option<Action>, l: Ledger, p: Ports)
    ensures var t := RunTurn(input, action, l, p);
            t.calls != [] && !p.faults.reserve ==>
              var e := t.calls[0];
              && e.key in t.ledger && SameIdentity(t.ledger[e.key], e)
              && (t.context.result.Some? ==>
                    t.context.result.value.dispatchKey == Some(e.key) && t.context.result.value.fingerprint == e.fingerprint)
  {
    ExecutorIsGated(input, action, l, p);
    if GatesOpen(input, action, l, p) && !p.faults.reserve {
      PrepareThenDedupe(input, action, l, p);
      Prepared(input, action, p);
      var c := Prepare(Start(input, action), p);
      KeysDiffer(input.runId, c.action.value.actionId, input.basedOnOffset, p.snapshot.contentHash);
      DedupePhase(c, l, p.faults);
      RecordedAsSent(c, l, p.faults);
      RunsToSettle(c, l, p);
      var (c', l') := PhaseDedupe(c, l, p.faults);
      SettleReports(c', l', p.executor, p.faults);
      SettleAdvances(c', l', p.executor, p.faults, c.identity.value.dispatchKey);
    }
  }

  lemma RecordedAsSent(c: Context, l: Ledger, f: Faults)
    requires DedupeReady(c) && !Done(c) && !f.reserve && OwnLegacyKey(c) != c.identity.value.dispatchKey
    requires !Done(PhaseDedupe(c, l, f).0)
    ensures var (c', l') := PhaseDedupe(c, l, f);
            && ExecuteReady(c') && c'.identity == c.identity && c'.result.None?
            && var e := c'.envelope.value;
            && e.key == c.identity.value.dispatchKey && e.fingerprint == c.identity.value.fingerprint
            && e.key in l' && SameIdentity(l'[e.key], e)
  {
  }
}
