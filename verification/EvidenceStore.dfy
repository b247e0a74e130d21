/** The evidence commands in the source's own form: procedures over one story's report files, each
    proved to do what module EvidenceModel says. */
module EvidenceStore {
  import opened Common
  import opened Evidence
  import opened EvidenceModel

  class StoryReports {
    const tools: Tools
    var manifest: Option<string>
    var identity: Option<Identity>
    var bundleIntact: bool
    var pytest: Option<CheckOutput>
    var ruff: Option<CheckOutput>
    var storyId: Yaml
    var record: Option<Mapping>
    var decision: Option<Decision>

    function Value(): World
      reads this
    {
      World(manifest, identity, bundleIntact, pytest, ruff, storyId, record, decision)
    }

    constructor (tools: Tools, w: World)
      ensures this.tools == tools && Value() == w
    {
      this.tools := tools;
      manifest, identity, bundleIntact, pytest, ruff := w.manifest, w.identity, w.bundleIntact, w.pytest, w.ruff;
      storyId, record, decision := w.storyId, w.record, w.decision;
    }

    /** _validate_role_coverage */
    method ValidateRoleCoverage(roles: seq<string>, lower: string -> string) returns (c: Coverage)
      ensures c == Cover(tools, Value(), roles, |roles|, lower)
    {
      hide RoleEntry;
      c := Coverage([], 0, map[]);
      for n := 0 to |roles|
        invariant c == Cover(tools, Value(), roles, n, lower)
      {
        var entry := RoleEntry(tools, Value(), roles[n], lower);
        if entry.None? {
          c := c.(errors := c.errors + 1);
        } else {
          c := c.(valid := c.valid + [roles[n]], evidence := c.evidence[roles[n] := Map(entry.value)]);
        }
      }
    }

    method RecordLocalExecution(r: RecordRequest) returns (result: Result<Mapping, RecordError>)
      modifies this`record
      ensures (Value(), result) == Record(tools, old(Value()), r)
    {
      hide RecordFor, StoredChecksum, BuildPayload, PayloadMapping, RecordRefusal;
      var refusal := RecordRefusal(tools, Value(), r);
      if refusal.Some? { return Err(refusal.value); }
      RefusalNeedsManifest(tools, Value(), r);
      var payload := BuildPayload(tools, Value(), r);
      var checksum := tools.hashMapping(PayloadMapping(payload));
      var executedAt := Str(r.now);
      if record.Some? {
        var existing := record.value;
        if StoredChecksum(existing) == Str(checksum) {
          executedAt := Get(Section(existing, "execution"), "executed_at", executedAt);
        } else if !r.force {
          if Get(Section(existing, "repository"), "head_sha") != ManifestHead(tools, Value())
             || Get(Section(existing, "review_evidence"), "manifest_checksum") != Str(payload.manifestChecksum) {
            return Err(BoundElsewhere);
          }
          return Err(DifferentInputs);
        }
      }
      var written := RecordFor(tools, payload, executedAt);
      if !r.dryRun { record := Some(written); }
      result := Ok(written);
    }

    method RecordLocalReview(r: ReviewRequest) returns (result: Result<Decision, ReviewError>)
      modifies this`decision
      ensures (Value(), result) == Review(tools, old(Value()), r)
    {
      var refusal := ReviewRefusal(tools, Value(), r);
      if refusal.Some? { return Err(refusal.value); }
      hide ReviewRefusal, StoredChecksum, BundleValid;
      var checksum := StoredChecksum(record.value);
      if decision.Some? && !r.force {
        if decision.value.recordChecksum == checksum && decision.value.decision == r.decision {
          return Ok(decision.value);
        }
        return Err(DecisionExists);
      }
      var d := Decision(OrEmpty(ManifestHead(tools, Value())), tools.hashText(manifest.value), checksum, r.reviewer,
                        r.decision, r.now, r.notes);
      if !r.dryRun { decision := Some(d); }
      result := Ok(d);
    }

    /** validate_local_evidence: failure reasons pile up, the flags follow from them. */
    method ValidateLocalEvidence() returns (a: Assessment)
      ensures a == Assess(tools, Value())
    {
      hide StoredChecksum, ComputeRecordChecksum, BindingReasons, Falsy;
      if record.None? { return Assessment(false, false, "pending", false, [RecordMissing]); }
      var reasons: seq<Reason> := [];
      var checksum := StoredChecksum(record.value);
      if Falsy(checksum) { return Assessment(false, false, "pending", false, [ChecksumMissing]); }
      if Str(ComputeRecordChecksum(tools, record.value)) != checksum { reasons := reasons + [ChecksumMismatch]; }
      if !BundleValid(tools, Value()) { return Assessment(false, false, "pending", false, reasons + [BundleFailed]); }
      reasons := reasons + BindingReasons(tools, Value(), record.value);
      var recordValid := |reasons| == 0;
      var decisionValid, decisionValue, ready := false, "pending", false;
      if decision.Some? {
        var d := decision.value;
        decisionValue := d.decision;
        if d.recordChecksum != checksum {
          reasons := reasons + [DecisionForOtherRecord];
        } else if d.headSha != ManifestHead(tools, Value()) {
          reasons := reasons + [DecisionForOtherHead];
        } else if d.manifestChecksum != tools.hashText(manifest.value) {
          reasons := reasons + [DecisionForOtherManifest];
        } else {
          decisionValid := true;
          ready := d.decision == READY;
        }
      }
      if recordValid && !decisionValid && (decision.None? || decisionValue == "pending") {
        reasons := reasons + [DecisionPending];
      }
      if !recordValid { ready := false; }
      a := Assessment(recordValid, decisionValid, decisionValue, ready, reasons);
    }
  }

  lemma RefusalNeedsManifest(tools: Tools, w: World, r: RecordRequest)
    requires RecordRefusal(tools, w, r).None?
    ensures w.manifest.Some?
  {
  }
}
