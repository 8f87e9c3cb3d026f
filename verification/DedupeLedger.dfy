/** The dispatch dedupe store: one monotone record per idempotency key. */
module DedupeLedger {
  import opened Basics

  datatype DedupeState = Reserved | Dispatched | Acknowledged | Succeeded | UnknownEffect

  datatype Envelope = Envelope(
    key: string,
    fingerprint: string,
    attemptSeq: int,
    effectScope: string,
    snapshotHash: string,
    hostKind: string,
    peerOperationId: Option<string>,
    policySnapshotRef: Option<string>,
    ruleBundleHash: Option<string>)

  datatype Record = Record(
    key: string,
    fingerprint: string,
    attemptSeq: int,
    state: DedupeState,
    peerOperationId: Option<string>,
    externalAckRef: Option<string>)

  type Ledger = map<string, Record>

  datatype Call =
    | Reserve(envelope: Envelope)
    | ReserveAndDispatch(envelope: Envelope, peer: Option<string>)
    | MarkDispatched(key: string, peer: Option<string>)
    | MarkAcknowledged(key: string, ack: Option<string>)
    | MarkSucceeded(key: string, ack: Option<string>)
    | MarkUnknownEffect(key: string)

  datatype Outcome = Accepted | Duplicate(existing: Record) | Marked | StateError

  datatype Step = Step(ledger: Ledger, outcome: Outcome)

  function Fresh(e: Envelope, s: DedupeState, peer: Option<string>): Record {
    Record(e.key, e.fingerprint, e.attemptSeq, s, peer, None)
  }

  function Mark(l: Ledger, key: string, from: set<DedupeState>, change: Record -> Record): Step {
    if key in l && l[key].state in from then Step(l[key := change(l[key])], Marked)
    else Step(l, StateError)
  }

  /** One store call; a call that raises leaves the ledger as it was. */
  function Apply(l: Ledger, c: Call): Step {
    match c
    case Reserve(e) =>
      if e.key in l then Step(l, Duplicate(l[e.key]))
      else Step(l[e.key := Fresh(e, Reserved, e.peerOperationId)], Accepted)
    case ReserveAndDispatch(e, peer) =>
      if e.key in l then Step(l, Duplicate(l[e.key]))
      else Step(l[e.key := Fresh(e, Dispatched, OrElse(peer, e.peerOperationId))], Accepted)
    case MarkDispatched(k, peer) =>
      Mark(l, k, {Reserved, Dispatched},
           (r: Record) => r.(state := Dispatched, peerOperationId := OrElse(peer, r.peerOperationId)))
    case MarkAcknowledged(k, ack) =>
      Mark(l, k, {Dispatched, Acknowledged},
           (r: Record) => r.(state := Acknowledged, externalAckRef := OrElse(ack, r.externalAckRef)))
    case MarkSucceeded(k, ack) =>
      Mark(l, k, {Acknowledged, Succeeded},
           (r: Record) => r.(state := Succeeded, externalAckRef := OrElse(ack, r.externalAckRef)))
    case MarkUnknownEffect(k) =>
      Mark(l, k, {Dispatched, UnknownEffect}, (r: Record) => r.(state := UnknownEffect))
  }

  /** The in-memory store; every method is one `Apply` step on `records`. */
  class InMemoryDedupeStore {
    var records: Ledger

    constructor ()
      ensures records == map[]
    {
      records := map[];
    }

    method DoReserve(e: Envelope) returns (o: Outcome)
      modifies this
      ensures Step(records, o) == Apply(old(records), Reserve(e))
    {
      if e.key in records {
        return Duplicate(records[e.key]);
      }
      records := records[e.key := Record(e.key, e.fingerprint, e.attemptSeq, Reserved, e.peerOperationId, None)];
      o := Accepted;
    }

    method DoReserveAndDispatch(e: Envelope, peer: Option<string>) returns (o: Outcome)
      modifies this
      ensures Step(records, o) == Apply(old(records), ReserveAndDispatch(e, peer))
    {
      if e.key in records {
        return Duplicate(records[e.key]);
      }
      records := records[e.key := Record(e.key, e.fingerprint, e.attemptSeq, Dispatched,
                                         OrElse(peer, e.peerOperationId), None)];
      o := Accepted;
    }

    method DoMarkDispatched(key: string, peer: Option<string>) returns (o: Outcome)
      modifies this
      ensures Step(records, o) == Apply(old(records), MarkDispatched(key, peer))
    {
      if key !in records || records[key].state !in {Reserved, Dispatched} {
        return StateError;
      }
      var r := records[key];
      records := records[key := Record(r.key, r.fingerprint, r.attemptSeq, Dispatched,
                                       OrElse(peer, r.peerOperationId), r.externalAckRef)];
      o := Marked;
    }

    method DoMarkAcknowledged(key: string, ack: Option<string>) returns (o: Outcome)
      modifies this
      ensures Step(records, o) == Apply(old(records), MarkAcknowledged(key, ack))
    {
      if key !in records || records[key].state !in {Dispatched, Acknowledged} {
        return StateError;
      }
      var r := records[key];
      records := records[key := Record(r.key, r.fingerprint, r.attemptSeq, Acknowledged,
                                       r.peerOperationId, OrElse(ack, r.externalAckRef))];
      o := Marked;
    }

    method DoMarkSucceeded(key: string, ack: Option<string>) returns (o: Outcome)
      modifies this
      ensures Step(records, o) == Apply(old(records), MarkSucceeded(key, ack))
    {
      if key !in records || records[key].state !in {Acknowledged, Succeeded} {
        return StateError;
      }
      var r := records[key];
      records := records[key := Record(r.key, r.fingerprint, r.attemptSeq, Succeeded,
                                       r.peerOperationId, OrElse(ack, r.externalAckRef))];
      o := Marked;
    }

    method DoMarkUnknownEffect(key: string) returns (o: Outcome)
      modifies this
      ensures Step(records, o) == Apply(old(records), MarkUnknownEffect(key))
    {
      if key !in records || records[key].state !in {Dispatched, UnknownEffect} {
        return StateError;
      }
      var r := records[key];
      records := records[key := Record(r.key, r.fingerprint, r.attemptSeq, UnknownEffect,
                                       r.peerOperationId, r.externalAckRef)];
      o := Marked;
    }
  }

  // ---------------------------------------------------------------------
  // Whole histories
  // ---------------------------------------------------------------------

  function Run(l: Ledger, calls: seq<Call>): Ledger {
    if calls == [] then l else Apply(Run(l, calls[..|calls| - 1]), calls[|calls| - 1]).ledger
  }

  /** `a` is no later than `b`; Acknowledged and UnknownEffect are incomparable. */
  predicate NoLaterThan(a: DedupeState, b: DedupeState) {
    a == b || a == Reserved || (a == Dispatched && b != Reserved) || (a == Acknowledged && b == Succeeded)
  }

  predicate NonEmptyRef(o: Option<string>) { o.Some? && o.value != "" }

  /** What every stretch of history keeps of a record. */
  predicate Advances(r: Record, r': Record) {
    && NoLaterThan(r.state, r'.state)
    && r'.key == r.key && r'.fingerprint == r.fingerprint && r'.attemptSeq == r.attemptSeq
    && (NonEmptyRef(r.externalAckRef) ==> NonEmptyRef(r'.externalAckRef))
  }

  lemma CallAdvances(l: Ledger, c: Call, key: string)
    requires key in l
    ensures key in Apply(l, c).ledger && Advances(l[key], Apply(l, c).ledger[key])
  {
  }

  lemma CallCreates(l: Ledger, c: Call, key: string)
    requires key !in l && key in Apply(l, c).ledger
    ensures (c.Reserve? || c.ReserveAndDispatch?) && c.envelope.key == key && Apply(l, c).outcome == Accepted
    ensures SameIdentity(Apply(l, c).ledger[key], c.envelope)
  {
  }

  /** Over any history a record only advances and keeps what identifies it. */
  lemma {:induction false} HistoryIsMonotone(l: Ledger, calls: seq<Call>, key: string)
    requires key in l
    ensures key in Run(l, calls) && Advances(l[key], Run(l, calls)[key])
  {
    if calls != [] {
      HistoryIsMonotone(l, calls[..|calls| - 1], key);
      CallAdvances(Run(l, calls[..|calls| - 1]), calls[|calls| - 1], key);
    }
  }

  lemma {:induction false} RunConcat(l: Ledger, a: seq<Call>, b: seq<Call>)
    ensures Run(l, a + b) == Run(Run(l, a), b)
  {
    if b == [] {
      assert a + b == a;
    } else {
      RunConcat(l, a, b[..|b| - 1]);
      assert (a + b)[..|a + b| - 1] == a + b[..|b| - 1];
    }
  }

  lemma RunSplit(l: Ledger, calls: seq<Call>, i: nat)
    requires i <= |calls|
    ensures Run(l, calls) == Run(Run(l, calls[..i]), calls[i..])
  {
    assert calls == calls[..i] + calls[i..];
    RunConcat(l, calls[..i], calls[i..]);
  }

  function StateAt(l: Ledger, calls: seq<Call>, i: nat, key: string): Option<DedupeState>
    requires i <= |calls|
  {
    var l' := Run(l, calls[..i]);
    if key in l' then Some(l'[key].state) else None
  }

  /** A confirmed effect and an unknown effect exclude each other over the whole history. */
  lemma ConfirmedExcludesUnknown(l: Ledger, calls: seq<Call>, i: nat, j: nat, key: string)
    requires i <= |calls| && j <= |calls|
    requires StateAt(l, calls, i, key) in {Some(Acknowledged), Some(Succeeded)}
    ensures StateAt(l, calls, j, key) != Some(UnknownEffect)
  {
    var a, b := if i <= j then i else j, if i <= j then j else i;
    RunSplit(l, calls[..b], a);
    assert calls[..b][..a] == calls[..a];
    if key in Run(l, calls[..a]) {
      HistoryIsMonotone(Run(l, calls[..a]), calls[..b][a..], key);
    }
  }

  predicate ReservesAt(l: Ledger, calls: seq<Call>, i: nat, key: string)
    requires i < |calls|
  {
    && (calls[i].Reserve? || calls[i].ReserveAndDispatch?)
    && calls[i].envelope.key == key
    && Apply(Run(l, calls[..i]), calls[i]).outcome == Accepted
  }

  lemma ReservedStays(l: Ledger, calls: seq<Call>, i: nat, j: nat, key: string)
    requires i < j <= |calls| && ReservesAt(l, calls, i, key)
    ensures key in Run(l, calls[..j])
  {
    RunSplit(l, calls[..j], i + 1);
    assert calls[..j][..i + 1] == calls[..i + 1] && calls[..i + 1][..i] == calls[..i];
    HistoryIsMonotone(Run(l, calls[..i + 1]), calls[..j][i + 1..], key);
  }

  /** A key is reserved at most once in any history, from any starting ledger. */
  lemma ReservedOnce(l: Ledger, calls: seq<Call>, i: nat, j: nat, key: string)
    requires i < |calls| && j < |calls|
    requires ReservesAt(l, calls, i, key) && ReservesAt(l, calls, j, key)
    ensures i == j
  {
    if i < j {
      ReservedStays(l, calls, i, j, key);
    } else if j < i {
      ReservedStays(l, calls, j, i, key);
    }
  }

  predicate SameIdentity(r: Record, e: Envelope) {
    r.key == e.key && r.fingerprint == e.fingerprint && r.attemptSeq == e.attemptSeq
  }

  /** Every record of a store that started empty stems from one accepted reservation, whose
      fingerprint and attempt number it still carries. */
  lemma {:induction false} RecordStemsFromReservation(calls: seq<Call>, key: string) returns (at: nat)
    requires key in Run(map[], calls)
    ensures at < |calls| && ReservesAt(map[], calls, at, key)
    ensures SameIdentity(Run(map[], calls)[key], calls[at].envelope)
  {
    var n := |calls| - 1;
    var before := Run(map[], calls[..n]);
    if key in before {
      at := RecordStemsFromReservation(calls[..n], key);
      assert calls[..n][..at] == calls[..at];
      CallAdvances(before, calls[n], key);
    } else {
      at := n;
      CallCreates(before, calls[n], key);
    }
  }

  /** The atomic call is the two-step call with no window in between. */
  lemma AtomicReservation(l: Ledger, e: Envelope, peer: Option<string>)
    ensures var atomic, reserved := Apply(l, ReserveAndDispatch(e, peer)), Apply(l, Reserve(e));
            && atomic.outcome == reserved.outcome
            && atomic.ledger == if reserved.outcome == Accepted
                                then Apply(reserved.ledger, MarkDispatched(e.key, peer)).ledger
                                else l
  {
    var reserved := Apply(l, Reserve(e));
    if e.key !in l {
      assert reserved.ledger[e.key].state == Reserved;
    }
  }
}
