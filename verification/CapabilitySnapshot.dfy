/** Canonical capability snapshots: normalised lists and a hash of the canonical payload. */
module CapabilitySnapshot {
  import opened Basics
  import opened Decimal

  datatype Digest = Digest(bundleRef: string, semanticsVersion: string, contentHash: string, compileHash: string)

  datatype Input = Input(
    runId: string,
    basedOnOffset: int,
    tenantPolicyRef: string,
    permissionMode: string,
    tools: seq<string>,
    mcp: seq<string>,
    skills: seq<string>,
    flags: seq<string>,
    peers: seq<string>,
    contextBindingRef: Option<string>,
    contextContentHash: Option<string>,
    budgetRef: Option<string>,
    quotaRef: Option<string>,
    sessionMode: Option<string>,
    approvalState: Option<string>,
    digest: Option<Digest>)

  /** What is hashed; the context binding reference is not part of it. */
  datatype Canonical = Canonical(
    schemaVersion: string,
    runId: string,
    basedOnOffset: int,
    tenantPolicyRef: string,
    permissionMode: string,
    tools: seq<string>,
    mcp: seq<string>,
    skills: seq<string>,
    flags: seq<string>,
    contextContentHash: Option<string>,
    budgetRef: Option<string>,
    quotaRef: Option<string>,
    sessionMode: Option<string>,
    approvalState: Option<string>,
    digest: Option<Digest>,
    peers: seq<string>)

  /** A snapshot keeps its normalised input fields next to the hash. */
  datatype Snapshot = Snapshot(snapshotRef: string, snapshotHash: string, fields: Input, createdAt: string, schemaVersion: string)

  datatype Outcome = Built(snapshot: Snapshot) | BuildError(message: string)

  const SCHEMA_VERSION := "1"

  /** Code-point order on strings, as Python compares them. */
  predicate Less(a: string, b: string) {
    b != [] && (a == [] || a[0] < b[0] || (a[0] == b[0] && Less(a[1..], b[1..])))
  }

  function Insert(x: string, s: seq<string>): seq<string> {
    if s == [] || Less(x, s[0]) then [x] + s
    else if x == s[0] then s
    else [s[0]] + Insert(x, s[1..])
  }

  /** `sorted({value for value in values if value})` */
  function Normalize(values: seq<string>): seq<string> {
    if values == [] then []
    else if values[0] == "" then Normalize(values[1..])
    else Insert(values[0], Normalize(values[1..]))
  }

  function Validate(i: Input): Option<string> {
    if i.runId == "" then Some("run_id is required.")
    else if i.basedOnOffset < 0 then Some("based_on_offset must be >= 0.")
    else if i.tenantPolicyRef == "" then Some("tenant_policy_ref is required.")
    else if i.permissionMode == "" then Some("permission_mode is required.")
    else if OrElse(i.contextBindingRef, None).Some? && OrElse(i.contextContentHash, None).None? then
      Some("context_content_hash is required when context_binding_ref is set.")
    else None
  }

  function Canonicalize(i: Input): Canonical {
    Canonical(SCHEMA_VERSION, i.runId, i.basedOnOffset, i.tenantPolicyRef, i.permissionMode,
              Normalize(i.tools), Normalize(i.mcp), Normalize(i.skills), Normalize(i.flags),
              i.contextContentHash, i.budgetRef, i.quotaRef, i.sessionMode, i.approvalState, i.digest,
              Normalize(i.peers))
  }

  function Normalized(i: Input): Input {
    i.(tools := Normalize(i.tools), mcp := Normalize(i.mcp), skills := Normalize(i.skills),
       flags := Normalize(i.flags), peers := Normalize(i.peers))
  }

  function Take(s: string, n: nat): string { if |s| < n then s else s[..n] }

  /** `build`; `sha` stands for SHA-256 over the canonical JSON text. */
  function Build(sha: Canonical -> string, i: Input, now: string): Outcome {
    var error := Validate(i);
    if error.Some? then BuildError(error.value)
    else
      var hash := sha(Canonicalize(i));
      Built(Snapshot("snapshot:" + i.runId + ":" + PrintInt(i.basedOnOffset) + ":" + Take(hash, 12),
                     hash, Normalized(i), now, SCHEMA_VERSION))
  }

  // ---------------------------------------------------------------------
  // Normal forms are exactly the sets of non-empty strings
  // ---------------------------------------------------------------------

  predicate StrictlySorted(s: seq<string>) {
    forall i, j :: 0 <= i < j < |s| ==> Less(s[i], s[j])
  }

  lemma {:induction false} Trichotomy(a: string, b: string)
    ensures !(Less(a, b) && Less(b, a)) && !Less(a, a)
    ensures a == b || Less(a, b) || Less(b, a)
    decreases |a| + |b|
  {
    if a != [] && b != [] && a[0] == b[0] {
      Trichotomy(a[1..], b[1..]);
      assert a == [a[0]] + a[1..] && b == [b[0]] + b[1..];
    }
    if a != [] {
      Irreflexive(a);
    }
  }

  lemma {:induction false} Irreflexive(a: string)
    ensures !Less(a, a)
  {
    if a != [] {
      Irreflexive(a[1..]);
    }
  }

  lemma {:induction false} Transitive(a: string, b: string, c: string)
    requires Less(a, b) && Less(b, c)
    ensures Less(a, c)
  {
    if a != [] && a[0] == b[0] == c[0] {
      Transitive(a[1..], b[1..], c[1..]);
    }
  }

  lemma {:induction false} InsertSorts(x: string, s: seq<string>)
    requires StrictlySorted(s)
    ensures StrictlySorted(Insert(x, s))
    ensures forall y :: y in Insert(x, s) <==> y == x || y in s
  {
    if s == [] {
    } else if Less(x, s[0]) {
      forall j | 0 <= j < |s| ensures Less(x, s[j]) {
        if j > 0 { Transitive(x, s[0], s[j]); }
      }
    } else if x != s[0] {
      Trichotomy(x, s[0]);
      assert s == [s[0]] + s[1..];
      InsertSorts(x, s[1..]);
      var rest := Insert(x, s[1..]);
      forall j | 0 <= j < |rest| ensures Less(s[0], rest[j]) {
        assert rest[j] in rest;
        if rest[j] != x {
          var k :| 0 <= k < |s[1..]| && s[1..][k] == rest[j];
          assert s[k + 1] == rest[j];
        }
      }
    }
  }

  /** The normal form is strictly sorted and holds exactly the non-empty input strings. */
  lemma {:induction false} NormalizeIsExact(values: seq<string>)
    ensures StrictlySorted(Normalize(values))
    ensures forall y :: y in Normalize(values) <==> y in values && y != ""
  {
    if values != [] {
      NormalizeIsExact(values[1..]);
      assert values == [values[0]] + values[1..];
      if values[0] != "" {
        InsertSorts(values[0], Normalize(values[1..]));
      }
    }
  }

  lemma FirstIsLeast(a: seq<string>, b: seq<string>)
    requires StrictlySorted(a) && StrictlySorted(b) && a != [] && b != []
    requires forall x :: x in a <==> x in b
    ensures a[0] == b[0]
  {
    assert a[0] in b && b[0] in a;
    var i :| 0 <= i < |b| && b[i] == a[0];
    var j :| 0 <= j < |a| && a[j] == b[0];
    if i > 0 && j > 0 {
      Trichotomy(a[0], b[0]);
    }
  }

  lemma TailElements(a: seq<string>, x: string)
    requires StrictlySorted(a) && a != []
    ensures StrictlySorted(a[1..])
    ensures x in a[1..] <==> x in a && x != a[0]
  {
    if x in a[1..] {
      var i :| 0 <= i < |a[1..]| && a[1..][i] == x;
      assert a[i + 1] == x;
      Irreflexive(x);
    }
    assert a == [a[0]] + a[1..];
  }

  /** A strictly sorted list is determined by its elements. */
  lemma {:induction false} SortedIsUnique(a: seq<string>, b: seq<string>)
    requires StrictlySorted(a) && StrictlySorted(b)
    requires forall x :: x in a <==> x in b
    ensures a == b
  {
    assert a != [] ==> a[0] in b;
    assert b != [] ==> b[0] in a;
    if a != [] && b != [] {
      FirstIsLeast(a, b);
      forall x ensures x in a[1..] <==> x in b[1..] {
        TailElements(a, x);
        TailElements(b, x);
      }
      TailElements(a, "");
      TailElements(b, "");
      SortedIsUnique(a[1..], b[1..]);
      assert a == [a[0]] + a[1..] && b == [b[0]] + b[1..];
    }
  }

  /** Two lists hold the same non-empty strings. */
  ghost predicate SameStrings(a: seq<string>, b: seq<string>) {
    forall x :: x != "" ==> (x in a <==> x in b)
  }

  lemma NormalFormsDecide(a: seq<string>, b: seq<string>)
    ensures Normalize(a) == Normalize(b) <==> SameStrings(a, b)
  {
    NormalizeIsExact(a);
    NormalizeIsExact(b);
    if SameStrings(a, b) {
      SortedIsUnique(Normalize(a), Normalize(b));
    }
    if Normalize(a) == Normalize(b) {
      forall x | x != "" ensures x in a <==> x in b {
        assert x in Normalize(a) <==> x in Normalize(b);
      }
    }
  }

  lemma NormalizeIsIdempotent(a: seq<string>)
    ensures Normalize(Normalize(a)) == Normalize(a)
  {
    NormalizeIsExact(a);
    assert SameStrings(Normalize(a), a);
    NormalFormsDecide(Normalize(a), a);
  }

  // ---------------------------------------------------------------------
  // The canonical payload
  // ---------------------------------------------------------------------

  predicate SameScalars(a: Input, b: Input) {
    && a.runId == b.runId && a.basedOnOffset == b.basedOnOffset && a.tenantPolicyRef == b.tenantPolicyRef
    && a.permissionMode == b.permissionMode && a.contextContentHash == b.contextContentHash
    && a.budgetRef == b.budgetRef && a.quotaRef == b.quotaRef && a.sessionMode == b.sessionMode
    && a.approvalState == b.approvalState && a.digest == b.digest
  }

  ghost predicate SameMeaning(a: Input, b: Input) {
    && SameScalars(a, b)
    && SameStrings(a.tools, b.tools) && SameStrings(a.mcp, b.mcp) && SameStrings(a.skills, b.skills)
    && SameStrings(a.flags, b.flags) && SameStrings(a.peers, b.peers)
  }

  /** The canonical payload separates exactly the inputs that differ in meaning: order, repeats,
      empty strings and the context binding reference never matter, everything else does. */
  lemma CanonicalIsExact(a: Input, b: Input)
    ensures Canonicalize(a) == Canonicalize(b) <==> SameMeaning(a, b)
  {
    NormalFormsDecide(a.tools, b.tools);
    NormalFormsDecide(a.mcp, b.mcp);
    NormalFormsDecide(a.skills, b.skills);
    NormalFormsDecide(a.flags, b.flags);
    NormalFormsDecide(a.peers, b.peers);
  }

  /** Same meaning, same hash; with a collision-free hash, also the other way round. */
  lemma HashFollowsMeaning(sha: Canonical -> string, a: Input, b: Input, t: string, u: string)
    requires Build(sha, a, t).Built? && Build(sha, b, u).Built?
    ensures var x, y := Build(sha, a, t).snapshot, Build(sha, b, u).snapshot;
            && (SameMeaning(a, b) ==> x.snapshotHash == y.snapshotHash && x.snapshotRef == y.snapshotRef)
            && ((forall c, d :: sha(c) == sha(d) ==> c == d) ==>
                  (x.snapshotHash == y.snapshotHash <==> SameMeaning(a, b)))
  {
    CanonicalIsExact(a, b);
  }

  /** Rebuilding from a snapshot's own fields gives the same snapshot back. */
  lemma RebuildIsFixpoint(sha: Canonical -> string, i: Input, now: string)
    requires Build(sha, i, now).Built?
    ensures Build(sha, Build(sha, i, now).snapshot.fields, now) == Build(sha, i, now)
  {
    NormalizeIsIdempotent(i.tools);
    NormalizeIsIdempotent(i.mcp);
    NormalizeIsIdempotent(i.skills);
    NormalizeIsIdempotent(i.flags);
    NormalizeIsIdempotent(i.peers);
  }
}
