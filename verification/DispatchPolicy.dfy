/** The action contract and the two policy gates that inspect it before dispatch:
    the turn engine's dispatch policy and the static admission service. */
module DispatchPolicy {
  import opened Basics

  datatype Action = Action(
    actionId: string,
    runId: string,
    actionType: string,
    effectClass: string,
    externalLevel: Option<string>,
    inputJson: Option<Payload>,
    policyTags: seq<string>,
    timeoutMs: Option<int>)

  datatype HostKind = LocalCli | LocalProcess | RemoteService | CliProcess | InProcessPython

  datatype RemoteContract = RemoteContract(
    acceptsDispatchKey: bool,
    returnsStableAck: bool,
    peerRetryModel: string,
    defaultRetryPolicy: string)

  datatype RemotePolicy = RemotePolicy(
    effectiveLevel: string,
    defaultRetryPolicy: string,
    autoRetryEnabled: bool,
    canClaimGuaranteed: bool,
    reason: string)

  datatype Policy = Policy(
    hostKind: HostKind,
    shouldBlock: bool,
    blockReason: Option<string>,
    remote: Option<RemotePolicy>)

  datatype Admission = Admission(admitted: bool, reasonCode: string)

  // The text normalisation `.strip().lower()` is a parameter: nothing below depends on it.
  type Fold = string -> string

  // A host-kind vocabulary: what a normalised word means, if anything.
  type Vocabulary = string -> Option<HostKind>

  /** Words the turn engine accepts. */
  function EngineWord(w: string): Option<HostKind> {
    if w == "local_cli" then Some(LocalCli)
    else if w == "local_process" then Some(LocalProcess)
    else if w == "remote_service" then Some(RemoteService)
    else if w == "cli_process" then Some(CliProcess)
    else if w == "in_process_python" then Some(InProcessPython)
    else None
  }

  /** Words static admission accepts. */
  function AdmissionWord(w: string): Option<HostKind> {
    if w == "local_cli" then Some(LocalCli)
    else if w == "local_process" then Some(LocalProcess)
    else if w == "remote_service" then Some(RemoteService)
    else None
  }

  const TAG_PREFIXES := ["host:", "host_kind:", "dispatch_host:", "dispatch_host_kind:"]
  const PAYLOAD_KEYS := ["host_kind", "dispatch_host_kind", "host", "dispatch_host"]

  function HostInTag(fold: Fold, words: Vocabulary, tag: string, prefixes: seq<string>): Option<HostKind> {
    if prefixes == [] then None
    else if StartsWith(tag, prefixes[0]) && words(fold(tag[|prefixes[0]|..])).Some? then
      words(fold(tag[|prefixes[0]|..]))
    else HostInTag(fold, words, tag, prefixes[1..])
  }

  function HostInTags(fold: Fold, words: Vocabulary, tags: seq<string>): Option<HostKind> {
    if tags == [] then None
    else
      var here := HostInTag(fold, words, fold(tags[0]), TAG_PREFIXES);
      if here.Some? then here else HostInTags(fold, words, tags[1..])
  }

  function HostInKeys(fold: Fold, words: Vocabulary, p: Payload, keys: seq<string>): Option<HostKind> {
    if keys == [] then None
    else
      var v := Get(p, keys[0]);
      if v.JStr? && words(fold(v.s)).Some? then words(fold(v.s))
      else HostInKeys(fold, words, p, keys[1..])
  }

  function HostInPayload(fold: Fold, words: Vocabulary, p: Payload): Option<HostKind> {
    var direct := HostInKeys(fold, words, p, PAYLOAD_KEYS);
    if direct.Some? then direct
    else if Get(p, "dispatch").JObj? then HostInKeys(fold, words, Get(p, "dispatch").fields, PAYLOAD_KEYS)
    else None
  }

  function PayloadOf(a: Action): Payload {
    if a.inputJson.Some? then a.inputJson.value else map[]
  }

  function ExplicitHost(fold: Fold, words: Vocabulary, a: Action): Option<HostKind> {
    var tagged := HostInTags(fold, words, a.policyTags);
    if tagged.Some? then tagged else HostInPayload(fold, words, PayloadOf(a))
  }

  /** `_resolve_dispatch_host_kind`, once per vocabulary. */
  function ResolveHost(fold: Fold, words: Vocabulary, a: Action): HostKind {
    var explicit := ExplicitHost(fold, words, a);
    if explicit.Some? then explicit.value
    else if a.effectClass != "read_only" && a.externalLevel.Some? then RemoteService
    else LocalCli
  }

  function ParseContract(j: Json): Option<RemoteContract> {
    if !j.JObj? then None
    else
      var p := j.fields;
      var accepts, stable := Get(p, "accepts_dispatch_idempotency_key"), Get(p, "returns_stable_ack");
      var model, retry := Get(p, "peer_retry_model"), Get(p, "default_retry_policy");
      if !accepts.JBool? || !stable.JBool? then None
      else if model !in [JStr("unknown"), JStr("at_most_once"), JStr("at_least_once"), JStr("exactly_once_claimed")] then None
      else if retry !in [JStr("no_auto_retry"), JStr("bounded_retry")] then None
      else Some(RemoteContract(accepts.b, stable.b, model.s, retry.s))
  }

  function FirstContract(candidates: seq<Json>): Option<RemoteContract> {
    if candidates == [] then None
    else
      var c := ParseContract(candidates[0]);
      if c.Some? then c else FirstContract(candidates[1..])
  }

  function ExtractContract(a: Action): Option<RemoteContract> {
    var p := PayloadOf(a);
    var nested := Get(p, "remote_service");
    FirstContract(
      [Get(p, "remote_service_idempotency_contract"), Get(p, "remote_idempotency_contract"), Get(p, "idempotency_contract")]
      + (if nested.JObj? then [Get(nested.fields, "idempotency_contract"), Get(nested.fields, "contract")] else []))
  }

  function EvaluateRemote(level: Option<string>, contract: Option<RemoteContract>): RemotePolicy {
    var normalized := if level.Some? && level.value != "" then level.value else "unknown";
    var lowered := if normalized == "guaranteed" then "best_effort" else normalized;
    match contract
    case None => RemotePolicy(lowered, "no_auto_retry", false, false, "missing_remote_idempotency_contract")
    case Some(c) =>
      var can := normalized == "guaranteed" && c.acceptsDispatchKey && c.returnsStableAck;
      RemotePolicy(if can then "guaranteed" else lowered,
                   c.defaultRetryPolicy,
                   c.defaultRetryPolicy == "bounded_retry",
                   can,
                   if can then "validated_remote_contract" else "remote_contract_constrained")
  }

  /** No contract, no claim: the level `guaranteed` survives exactly when it was requested and the
      contract takes the dispatch key and acknowledges stably; retries need a contract that says so. */
  lemma RemotePolicyIsConservative(level: Option<string>, contract: Option<RemoteContract>)
    ensures var p := EvaluateRemote(level, contract);
            && (p.effectiveLevel == "guaranteed" <==> p.canClaimGuaranteed)
            && (p.canClaimGuaranteed <==>
                  level == Some("guaranteed") && contract.Some?
                  && contract.value.acceptsDispatchKey && contract.value.returnsStableAck)
            && (p.autoRetryEnabled <==> contract.Some? && contract.value.defaultRetryPolicy == "bounded_retry")
            && (level.Some? && level.value !in ["", "guaranteed"] ==> p.effectiveLevel == level.value)
  {
    assert |"guaranteed"| == 10 && |"best_effort"| == 11 && |"unknown"| == 7;
  }

  /** The turn engine's dispatch policy (phase 4). */
  function ResolvePolicy(fold: Fold, a: Action): Policy {
    var host := ResolveHost(fold, EngineWord, a);
    if host != RemoteService || a.effectClass == "read_only" then Policy(host, false, None, None)
    else
      var remote := EvaluateRemote(a.externalLevel, ExtractContract(a));
      if a.externalLevel == Some("guaranteed") && !remote.canClaimGuaranteed then
        Policy(host, true, Some("idempotency_contract_insufficient"), Some(remote))
      else Policy(host, false, None, Some(remote))
  }

  /** Static admission's own copy of the contract check. */
  predicate RequiresContractBlock(fold: Fold, a: Action) {
    && a.effectClass != "read_only"
    && a.externalLevel == Some("guaranteed")
    && ResolveHost(fold, AdmissionWord, a) == RemoteService
    && !EvaluateRemote(a.externalLevel, ExtractContract(a)).canClaimGuaranteed
  }

  function MaxCost(parse: string -> Option<real>, tags: seq<string>): Option<real> {
    if tags == [] then None
    else if StartsWith(tags[0], "max_cost:") && parse(tags[0][|"max_cost:"|..]).Some? then
      parse(tags[0][|"max_cost:"|..])
    else MaxCost(parse, tags[1..])
  }

  /** The deny rules shared by `admit` and `check`; `None` means no rule denies. */
  function PolicyDenies(fold: Fold, parse: string -> Option<real>, a: Action): Option<Admission> {
    var maxCost, estimate := MaxCost(parse, a.policyTags), Get(PayloadOf(a), "estimated_cost");
    if "requires_human_review" in a.policyTags then Some(Admission(false, "policy_denied"))
    else if a.timeoutMs.Some? && a.timeoutMs.value > 300000 then Some(Admission(false, "policy_denied"))
    else if maxCost.Some? && estimate.JNum? && estimate.n > maxCost.value then Some(Admission(false, "quota_exceeded"))
    else if RequiresContractBlock(fold, a) then Some(Admission(false, "idempotency_contract_insufficient"))
    else None
  }

  function Admit(fold: Fold, parse: string -> Option<real>, a: Action): Admission {
    var denied := PolicyDenies(fold, parse, a);
    if denied.Some? then denied.value else Admission(true, "ok")
  }

  // ---------------------------------------------------------------------
  // The two vocabularies agree wherever the engine's answer is a shared word
  // ---------------------------------------------------------------------

  predicate Shared(h: Option<HostKind>) {
    h != Some(CliProcess) && h != Some(InProcessPython)
  }

  lemma {:induction false} TagAgrees(fold: Fold, tag: string, prefixes: seq<string>)
    requires Shared(HostInTag(fold, EngineWord, tag, prefixes))
    ensures HostInTag(fold, AdmissionWord, tag, prefixes) == HostInTag(fold, EngineWord, tag, prefixes)
  {
    if prefixes != [] && !(StartsWith(tag, prefixes[0]) && EngineWord(fold(tag[|prefixes[0]|..])).Some?) {
      TagAgrees(fold, tag, prefixes[1..]);
    }
  }

  lemma {:induction false} TagsAgree(fold: Fold, tags: seq<string>)
    requires Shared(HostInTags(fold, EngineWord, tags))
    ensures HostInTags(fold, AdmissionWord, tags) == HostInTags(fold, EngineWord, tags)
  {
    if tags != [] {
      TagAgrees(fold, fold(tags[0]), TAG_PREFIXES);
      if HostInTag(fold, EngineWord, fold(tags[0]), TAG_PREFIXES).None? {
        TagsAgree(fold, tags[1..]);
      }
    }
  }

  lemma {:induction false} KeysAgree(fold: Fold, p: Payload, keys: seq<string>)
    requires Shared(HostInKeys(fold, EngineWord, p, keys))
    ensures HostInKeys(fold, AdmissionWord, p, keys) == HostInKeys(fold, EngineWord, p, keys)
  {
    if keys != [] && !(Get(p, keys[0]).JStr? && EngineWord(fold(Get(p, keys[0]).s)).Some?) {
      KeysAgree(fold, p, keys[1..]);
    }
  }

  /** The admission gate resolves the engine's host whenever that host is in its own vocabulary. */
  lemma HostsAgree(fold: Fold, a: Action)
    requires Shared(Some(ResolveHost(fold, EngineWord, a)))
    ensures ResolveHost(fold, AdmissionWord, a) == ResolveHost(fold, EngineWord, a)
  {
    TagsAgree(fold, a.policyTags);
    if HostInTags(fold, EngineWord, a.policyTags).None? {
      var p := PayloadOf(a);
      KeysAgree(fold, p, PAYLOAD_KEYS);
      if HostInKeys(fold, EngineWord, p, PAYLOAD_KEYS).None? && Get(p, "dispatch").JObj? {
        KeysAgree(fold, Get(p, "dispatch").fields, PAYLOAD_KEYS);
      }
    }
  }

  /** Whatever the engine would block for its contract, admission has already denied. */
  lemma AdmissionSubsumesEngine(fold: Fold, parse: string -> Option<real>, a: Action)
    requires ResolvePolicy(fold, a).shouldBlock
    ensures RequiresContractBlock(fold, a) && !Admit(fold, parse, a).admitted
  {
    HostsAgree(fold, a);
  }

  /** The contract carries a guaranteed claim. */
  predicate Proves(contract: Option<RemoteContract>) {
    contract.Some? && contract.value.acceptsDispatchKey && contract.value.returnsStableAck
  }

  /** The contract checks differ exactly on side effects with a guaranteed claim and no contract to
      carry it, where the engine resolves a host word admission does not know while admission goes
      on to a later remote hint or the remote default; there admission denies alone. */
  lemma ContractChecksDiffer(fold: Fold, a: Action)
    ensures RequiresContractBlock(fold, a) != ResolvePolicy(fold, a).shouldBlock
       <==> && a.effectClass != "read_only"
            && a.externalLevel == Some("guaranteed")
            && ResolveHost(fold, EngineWord, a) in {CliProcess, InProcessPython}
            && ResolveHost(fold, AdmissionWord, a) == RemoteService
            && !Proves(ExtractContract(a))
  {
    RemotePolicyIsConservative(a.externalLevel, ExtractContract(a));
    if Shared(Some(ResolveHost(fold, EngineWord, a))) {
      HostsAgree(fold, a);
    }
  }

  lemma {:induction false} NoHostWord(fold: Fold, words: Vocabulary, p: Payload, keys: seq<string>)
    requires forall k :: k in p && p[k].JStr? ==> words(fold(p[k].s)).None?
    ensures HostInKeys(fold, words, p, keys) == None
  {
    if keys != [] {
      NoHostWord(fold, words, p, keys[1..]);
    }
  }

  lemma {:induction false} NoContractIn(candidates: seq<Json>)
    requires forall i :: 0 <= i < |candidates| ==> candidates[i] == JNull
    ensures FirstContract(candidates) == None
  {
    if candidates != [] {
      NoContractIn(candidates[1..]);
    }
  }

  /** The converse of subsumption fails: a `cli_process` action with a guaranteed claim. */
  lemma AdmissionIsStricter() returns (a: Action)
    ensures var fold := (s: string) => s;
            RequiresContractBlock(fold, a) && !ResolvePolicy(fold, a).shouldBlock
  {
    var p: Payload := map["host_kind" := JStr("cli_process")];
    a := Action("a", "r", "tool_call", "idempotent_write", Some("guaranteed"), Some(p), [], None);
    var fold := (s: string) => s;
    assert |"cli_process"| == 11;
    NoHostWord(fold, AdmissionWord, p, PAYLOAD_KEYS);
    assert HostInKeys(fold, EngineWord, p, PAYLOAD_KEYS) == Some(CliProcess);
    assert "dispatch" !in p && "remote_service" !in p && "remote_service_idempotency_contract" !in p;
    assert "remote_idempotency_contract" !in p && "idempotency_contract" !in p;
    NoContractIn([JNull, JNull, JNull]);
    assert [JNull, JNull, JNull] + [] == [JNull, JNull, JNull];
  }
}
