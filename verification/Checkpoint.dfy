/** Checkpoint export and resume import: the `snapshot:<run_id>:<offset>` identity. */
module Checkpoint {
  import opened Basics
  import opened Decimal
  import opened RunProjection

  const PREFIX := "snapshot:"

  function Export(runId: string, offset: int): string {
    PREFIX + runId + ":" + PrintInt(offset)
  }

  /** Index of the last colon, as `rpartition` finds it. */
  function LastColon(s: string): (r: Option<nat>)
    ensures r.Some? ==> r.value < |s| && s[r.value] == ':' && ':' !in s[r.value + 1..]
    ensures r.None? ==> ':' !in s
  {
    if s == [] then None
    else if s[|s| - 1] == ':' then Some(|s| - 1)
    else
      var r := LastColon(s[..|s| - 1]);
      assert s == s[..|s| - 1] + [s[|s| - 1]];
      assert r.Some? ==> s[r.value + 1..] == s[..|s| - 1][r.value + 1..] + [s[|s| - 1]];
      r
  }

  datatype ParseResult = Parsed(runId: string, offset: nat) | Invalid

  function Parse(id: string): ParseResult {
    if !StartsWith(id, PREFIX) then Invalid
    else
      var body := id[|PREFIX|..];
      var colon := LastColon(body);
      if colon.None? then Invalid
      else
        var runId, digits := body[..colon.value], body[colon.value + 1..];
        if runId == "" || digits == "" || !AllDigits(digits) then Invalid
        else Parsed(runId, ReadDigits(digits))
  }

  datatype ResumeRequest = ResumeRequest(runId: string, snapshotId: Option<string>, offset: Option<nat>)

  /** `import_resume_request`; `None` is the `ValueError`. */
  function ImportResume(runId: string, snapshotId: Option<string>): Option<ResumeRequest> {
    match snapshotId
    case None => Some(ResumeRequest(runId, None, None))
    case Some(id) =>
      match Parse(id)
      case Invalid => None
      case Parsed(r, n) => if r != runId then None else Some(ResumeRequest(runId, snapshotId, Some(n)))
  }

  datatype CheckpointView = CheckpointView(runId: string, snapshotId: Option<string>, offset: int, lifecycle: Lifecycle)

  class CheckpointAdapter {
    var projections: map<string, Projection>

    constructor ()
      ensures projections == map[]
    {
      projections := map[];
    }

    method BindProjection(p: Projection)
      modifies this
      ensures projections == old(projections)[p.runId := p]
    {
      projections := projections[p.runId := p];
    }

    /** An exported view of a bound, replayed run can always be handed back to resume it. */
    method ExportView(runId: string) returns (v: CheckpointView)
      ensures runId !in projections ==> v == CheckpointView(runId, None, 0, Created)
      ensures runId in projections ==>
                v == CheckpointView(runId, Some(Export(runId, projections[runId].offset)),
                                    projections[runId].offset, projections[runId].lifecycle)
      ensures runId != "" && v.offset >= 0 ==>
                ImportResume(runId, v.snapshotId) ==
                Some(ResumeRequest(runId, v.snapshotId, if runId in projections then Some(v.offset) else None))
    {
      if runId !in projections {
        return CheckpointView(runId, None, 0, Created);
      }
      var p := projections[runId];
      v := CheckpointView(runId, Some(PREFIX + runId + ":" + PrintInt(p.offset)), p.offset, p.lifecycle);
      if runId != "" && p.offset >= 0 {
        ExportParses(runId, p.offset);
      }
    }
  }

  lemma {:induction false} LastColonUnique(runId: string, tail: string)
    requires ':' !in tail
    ensures LastColon(runId + ":" + tail) == Some(|runId|)
  {
    var s := runId + ":" + tail;
    if tail == [] {
      assert s[|s| - 1] == ':';
    } else {
      var front := tail[..|tail| - 1];
      assert s[..|s| - 1] == runId + ":" + front && s[|s| - 1] == tail[|tail| - 1] != ':';
      LastColonUnique(runId, front);
    }
  }

  lemma BodyOf(body: string)
    ensures StartsWith(PREFIX + body, PREFIX) && (PREFIX + body)[|PREFIX|..] == body
  {
  }

  lemma Regroup(runId: string, tail: string)
    ensures PREFIX + runId + ":" + tail == PREFIX + (runId + ":" + tail)
  {
  }

  lemma Parts(runId: string, tail: string)
    ensures var body := runId + ":" + tail; body[..|runId|] == runId && body[|runId| + 1..] == tail
  {
  }

  /** What the parser makes of an id whose part after the last colon is `tail`. */
  lemma ParseParts(runId: string, tail: string)
    requires ':' !in tail
    ensures Parse(PREFIX + runId + ":" + tail) ==
            if runId == "" || tail == "" || !AllDigits(tail) then Invalid else Parsed(runId, ReadDigits(tail))
  {
    Regroup(runId, tail);
    BodyOf(runId + ":" + tail);
    LastColonUnique(runId, tail);
    Parts(runId, tail);
  }

  /** The parser accepts every well-shaped id; colons inside the run id are fine. */
  lemma ShapedIdParses(runId: string, digits: string)
    requires runId != "" && digits != "" && AllDigits(digits)
    ensures Parse(PREFIX + runId + ":" + digits) == Parsed(runId, ReadDigits(digits))
  {
    ParseParts(runId, digits);
  }

  /** Round trip: parsing an exported id gives back the pair. */
  lemma ExportParses(runId: string, offset: nat)
    requires runId != ""
    ensures Parse(Export(runId, offset)) == Parsed(runId, offset)
  {
    ShapedIdParses(runId, Print(offset));
    ReadAfterPrint(offset);
  }

  lemma DistinctPairsDistinctIds(runId: string, offset: nat, runId': string, offset': nat)
    requires runId != "" && runId' != "" && Export(runId, offset) == Export(runId', offset')
    ensures runId == runId' && offset == offset'
  {
    ExportParses(runId, offset);
    ExportParses(runId', offset');
  }

  /** Every accepted id prints back to itself, except for leading zeros of the offset. */
  lemma AcceptedIdReprints(id: string) returns (digits: string)
    requires Parse(id).Parsed?
    ensures var Parsed(runId, offset) := Parse(id);
            && runId != "" && id == PREFIX + runId + ":" + digits
            && ZeroPadded(digits, Print(offset))
            && (digits == Print(offset) ==> id == Export(runId, offset))
  {
    var body := id[|PREFIX|..];
    var colon := LastColon(body).value;
    digits := body[colon + 1..];
    PrintAfterRead(digits);
    assert id == PREFIX + body;
    SplitAtColon(body, colon);
    Regroup(body[..colon], digits);
  }

  lemma SplitAtColon(body: string, colon: nat)
    requires colon < |body| && body[colon] == ':'
    ensures body == body[..colon] + ":" + body[colon + 1..]
  {
  }

  /** Resume import accepts an exported id exactly for the run it was exported from. */
  lemma ResumeChecksOwnership(runId: string, offset: nat, requester: string)
    requires runId != ""
    ensures ImportResume(requester, Some(Export(runId, offset))) ==
            if requester == runId then Some(ResumeRequest(runId, Some(Export(runId, offset)), Some(offset))) else None
  {
    ExportParses(runId, offset);
  }

  /** What exports cannot be read back: an empty run id or a negative offset, and nothing else. */
  lemma ExportParsesIff(runId: string, offset: int)
    ensures Parse(Export(runId, offset)).Parsed? <==> runId != "" && offset >= 0
  {
    var tail := PrintInt(offset);
    ParseParts(runId, tail);
    if offset < 0 {
      assert tail[0] == '-';
    }
  }
}
