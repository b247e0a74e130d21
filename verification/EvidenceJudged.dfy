/** The evidence validator's answer, told condition by condition from the stored files
    (validate_local_evidence in src/agentic_dev/local_evidence_validation.py). */
module EvidenceJudged {
  import opened Common
  import opened Evidence
  import opened EvidenceModel
  import opened EvidenceGates
  import FreshRecord

  /** There is a record with a checksum. */
  ghost predicate Sealed(w: World) {
    w.record.Some? && !Falsy(Get(Section(w.record.value, "integrity"), "record_checksum"))
  }

  /** The checksum in the record is that of its content. */
  ghost predicate Untouched(tools: Tools, record: Mapping) {
    Get(Section(record, "integrity"), "record_checksum") == Str(ComputeRecordChecksum(tools, record))
  }

  /** There is a sealed record and a review bundle of the current commit to hold it against. */
  ghost predicate Comparable(tools: Tools, w: World) {
    Sealed(w) && BundleMatches(tools, w)
  }

  ghost predicate ValidRecord(tools: Tools, w: World) {
    && Comparable(tools, w) && Untouched(tools, w.record.value)
    && FreshRecord.BindingsAgree(tools, w, w.record.value) && FreshRecord.RoleEvidenceHolds(w.record.value)
  }

  /** The stored decision is about this record, the commit checked out and the manifest on disk. */
  ghost predicate DecisionApplies(tools: Tools, w: World) {
    && w.decision.Some? && w.record.Some? && w.identity.Some? && w.manifest.Some?
    && w.decision.value.recordChecksum == Get(Section(w.record.value, "integrity"), "record_checksum")
    && w.decision.value.headSha == Str(w.identity.value.headSha)
    && w.decision.value.manifestChecksum == tools.hashText(w.manifest.value)
  }

  /** When the validator gives the reason. */
  ghost predicate Found(tools: Tools, w: World, reason: Reason) {
    match reason
    case RecordMissing => w.record.None?
    case ChecksumMissing => w.record.Some? && !Sealed(w)
    case ChecksumMismatch => Sealed(w) && !Untouched(tools, w.record.value)
    case BundleFailed => Sealed(w) && !BundleMatches(tools, w)
    case _ => Comparable(tools, w) && FoundAgainst(tools, w, w.record.value, reason)
  }

  /** When the validator holds the reason against a record that it can compare. */
  ghost predicate FoundAgainst(tools: Tools, w: World, record: Mapping, reason: Reason)
    requires BundleMatches(tools, w) && w.record.Some?
  {
    var review, repository := Section(record, "review_evidence"), Section(record, "repository");
    var data, id := tools.parse(w.manifest.value), w.identity.value;
    var checksum := Get(Section(w.record.value, "integrity"), "record_checksum");
    match reason
    case ManifestChanged => Get(review, "manifest_checksum") != Str(tools.hashText(w.manifest.value))
    case HeadChanged => Get(repository, "head_sha") != Str(id.headSha)
    case BaseChanged => Get(repository, "base_sha") != Str(id.baseSha)
    case MergeBaseChanged => Get(repository, "merge_base_sha") != Str(id.mergeBaseSha)
    case CleanlinessChanged => Get(review, "cleanliness") != Get(Section(data, "working_tree"), "classification")
    case ParityChanged =>
      Get(Section(data, "host"), "status") != Null && Get(review, "parity_status") != Get(Section(data, "host"), "status")
    case DeveloperEvidenceMissing =>
      Claims(record, "developer") && Falsy(Get(RoleClaim(record, "developer"), "committed_patch_checksum"))
    case TestEvidenceMissing => Claims(record, "test") && Falsy(Get(RoleClaim(record, "test"), "pytest_evidence_checksum"))
    case DocsEvidenceMissing =>
      && Claims(record, "docs") && Falsy(Get(RoleClaim(record, "docs"), "paths"))
      && Falsy(Get(RoleClaim(record, "docs"), "checksums"))
    case ResearchEvidenceMissing => Claims(record, "research") && Falsy(Get(RoleClaim(record, "research"), "artifacts"))
    case DecisionForOtherRecord => w.decision.Some? && w.decision.value.recordChecksum != checksum
    case DecisionForOtherHead =>
      && w.decision.Some? && w.decision.value.recordChecksum == checksum
      && w.decision.value.headSha != Str(id.headSha)
    case DecisionForOtherManifest =>
      && w.decision.Some? && w.decision.value.recordChecksum == checksum
      && w.decision.value.headSha == Str(id.headSha)
      && w.decision.value.manifestChecksum != tools.hashText(w.manifest.value)
    case DecisionPending =>
      && ValidRecord(tools, w)
      && (w.decision.None? || (!DecisionApplies(tools, w) && w.decision.value.decision == "pending"))
    case _ => false
  }

  lemma RecordValidIs(tools: Tools, w: World)
    ensures Assess(tools, w).recordValid <==> ValidRecord(tools, w)
  {
    hide BindingReasons, ComputeRecordChecksum, DecisionReasons, BundleValid, Falsy, Get, Section,
         FreshRecord.BindingsAgree, FreshRecord.RoleEvidenceHolds;
    BundleIs(tools, w);
    if BundleMatches(tools, w) && w.record.Some? { FreshRecord.NoReasonsExactly(tools, w, w.record.value); }
  }

  lemma DecisionIs(tools: Tools, w: World, d: Decision, checksum: Yaml)
    requires BundleMatches(tools, w)
    ensures var reasons := DecisionReasons(tools, w, d, checksum);
            && (DecisionForOtherRecord in reasons <==> d.recordChecksum != checksum)
            && (DecisionForOtherHead in reasons <==> d.recordChecksum == checksum && d.headSha != Str(w.identity.value.headSha))
            && (DecisionForOtherManifest in reasons <==>
                && d.recordChecksum == checksum && d.headSha == Str(w.identity.value.headSha)
                && d.manifestChecksum != tools.hashText(w.manifest.value))
            && (reasons == [] <==> && d.recordChecksum == checksum && d.headSha == Str(w.identity.value.headSha)
                                   && d.manifestChecksum == tools.hashText(w.manifest.value))
            && forall reason | reason in reasons ::
                 reason in {DecisionForOtherRecord, DecisionForOtherHead, DecisionForOtherManifest}
  {
    HeadIs(tools, w);
    hide ManifestHead;
  }

  const BINDING: seq<Reason> := [ManifestChanged, HeadChanged, BaseChanged, MergeBaseChanged, CleanlinessChanged,
                                 ParityChanged, DeveloperEvidenceMissing, TestEvidenceMissing, DocsEvidenceMissing,
                                 ResearchEvidenceMissing]

  /** The reasons of the first kind that are found, in the order in which they are reported. */
  ghost function FoundBinding(tools: Tools, w: World, record: Mapping, n: nat): seq<Reason>
    requires BundleMatches(tools, w) && w.record.Some? && n <= |BINDING|
  {
    if n == 0 then []
    else FoundBinding(tools, w, record, n - 1) + Listed(FoundAgainst(tools, w, record, BINDING[n - 1]), BINDING[n - 1])
  }

  lemma {:induction false} FoundIsListed(tools: Tools, w: World, record: Mapping, n: nat, reason: Reason)
    requires BundleMatches(tools, w) && w.record.Some? && n <= |BINDING|
    ensures reason in FoundBinding(tools, w, record, n) <==> reason in BINDING[..n] && FoundAgainst(tools, w, record, reason)
  {
    hide FoundAgainst, BundleMatches, BINDING;
    if n > 0 {
      FoundIsListed(tools, w, record, n - 1, reason);
      assert BINDING[..n] == BINDING[..n - 1] + [BINDING[n - 1]];
    }
  }

  lemma TenInOrder(tools: Tools, w: World, record: Mapping)
    requires BundleMatches(tools, w) && w.record.Some?
    ensures FoundBinding(tools, w, record, 10) ==
            Listed(FoundAgainst(tools, w, record, ManifestChanged), ManifestChanged) +
            Listed(FoundAgainst(tools, w, record, HeadChanged), HeadChanged) +
            Listed(FoundAgainst(tools, w, record, BaseChanged), BaseChanged) +
            Listed(FoundAgainst(tools, w, record, MergeBaseChanged), MergeBaseChanged) +
            Listed(FoundAgainst(tools, w, record, CleanlinessChanged), CleanlinessChanged) +
            Listed(FoundAgainst(tools, w, record, ParityChanged), ParityChanged) +
            Listed(FoundAgainst(tools, w, record, DeveloperEvidenceMissing), DeveloperEvidenceMissing) +
            Listed(FoundAgainst(tools, w, record, TestEvidenceMissing), TestEvidenceMissing) +
            Listed(FoundAgainst(tools, w, record, DocsEvidenceMissing), DocsEvidenceMissing) +
            Listed(FoundAgainst(tools, w, record, ResearchEvidenceMissing), ResearchEvidenceMissing)
  {
    hide FoundAgainst, BundleMatches, Listed;
    assert FoundBinding(tools, w, record, 1) == Listed(FoundAgainst(tools, w, record, ManifestChanged), ManifestChanged) by {
      assert FoundBinding(tools, w, record, 0) == [];
    }
    assert FoundBinding(tools, w, record, 2) == FoundBinding(tools, w, record, 1)
      + Listed(FoundAgainst(tools, w, record, HeadChanged), HeadChanged);
    assert FoundBinding(tools, w, record, 4) == FoundBinding(tools, w, record, 2)
      + Listed(FoundAgainst(tools, w, record, BaseChanged), BaseChanged)
      + Listed(FoundAgainst(tools, w, record, MergeBaseChanged), MergeBaseChanged);
    assert FoundBinding(tools, w, record, 6) == FoundBinding(tools, w, record, 4)
      + Listed(FoundAgainst(tools, w, record, CleanlinessChanged), CleanlinessChanged)
      + Listed(FoundAgainst(tools, w, record, ParityChanged), ParityChanged);
    assert FoundBinding(tools, w, record, 8) == FoundBinding(tools, w, record, 6)
      + Listed(FoundAgainst(tools, w, record, DeveloperEvidenceMissing), DeveloperEvidenceMissing)
      + Listed(FoundAgainst(tools, w, record, TestEvidenceMissing), TestEvidenceMissing);
    assert FoundBinding(tools, w, record, 10) == FoundBinding(tools, w, record, 8)
      + Listed(FoundAgainst(tools, w, record, DocsEvidenceMissing), DocsEvidenceMissing)
      + Listed(FoundAgainst(tools, w, record, ResearchEvidenceMissing), ResearchEvidenceMissing);
  }

  /** The binding reasons are those found, in that order. */
  lemma BindingIsFound(tools: Tools, w: World, record: Mapping)
    requires BundleMatches(tools, w) && w.record.Some?
    ensures BindingReasons(tools, w, record) == FoundBinding(tools, w, record, 10)
  {
    hide BundleMatches, Listed, Get, Section, Claims, RoleClaim, Falsy, ManifestRepository, ValidRecord, DecisionApplies,
         FoundBinding;
    CurrentIs(tools, w);
    TenInOrder(tools, w, record);
  }

  lemma BindingIs(tools: Tools, w: World, record: Mapping, reason: Reason)
    requires BundleMatches(tools, w) && w.record.Some?
    ensures reason in BindingReasons(tools, w, record) <==> reason in BINDING && FoundAgainst(tools, w, record, reason)
  {
    hide BundleMatches, FoundBinding, FoundAgainst, BindingReasons;
    BindingIsFound(tools, w, record);
    FoundIsListed(tools, w, record, 10, reason);
    assert BINDING[..10] == BINDING;
  }

  lemma CurrentIs(tools: Tools, w: World)
    requires BundleMatches(tools, w)
    ensures w.manifest.Some? && w.identity.Some?
    ensures var current, id := ManifestRepository(tools, w), w.identity.value;
            && Get(current, "head_sha") == Str(id.headSha) && Get(current, "base_sha") == Str(id.baseSha)
            && Get(current, "merge_base_sha") == Str(id.mergeBaseSha)
  {
    hide Get, Section;
  }

  /** The validator gives a reason exactly when the files call for it, for each of its reasons. */
  lemma {:induction false} ReasonsExactly(tools: Tools, w: World, reason: Reason)
    ensures reason in Assess(tools, w).reasons <==> Found(tools, w, reason)
  {
    hide BindingReasons, ComputeRecordChecksum, DecisionReasons, BundleValid, BundleMatches, Falsy, Get, Section,
         FreshRecord.BindingsAgree, FreshRecord.RoleEvidenceHolds, FoundAgainst, BINDING;
    BundleIs(tools, w);
    BundleHasManifest(tools, w);
    RecordValidIs(tools, w);
    if Comparable(tools, w) { ComparedReasons(tools, w, reason); }
  }

  lemma ComparedReasons(tools: Tools, w: World, reason: Reason)
    requires Comparable(tools, w)
    ensures reason in Assess(tools, w).reasons <==> Found(tools, w, reason)
  {
    hide Assess, BindingReasons, ComputeRecordChecksum, DecisionReasons, Falsy, Get, Section, ValidRecord, Claims, RoleClaim,
         BundleMatches;
    ReasonsAre(tools, w, reason);
    BindingIs(tools, w, w.record.value, reason);
    CurrentIs(tools, w);
    if w.decision.Some? { DecisionIs(tools, w, w.decision.value, StoredChecksum(w.record.value)); }
  }

  /** The reasons given for a record that can be compared. */
  lemma ReasonsAre(tools: Tools, w: World, reason: Reason)
    requires Comparable(tools, w)
    ensures w.manifest.Some?
    ensures reason in Assess(tools, w).reasons <==>
            || (reason == ChecksumMismatch && !Untouched(tools, w.record.value))
            || reason in BindingReasons(tools, w, w.record.value)
            || (w.decision.Some? && reason in DecisionReasons(tools, w, w.decision.value, StoredChecksum(w.record.value)))
            || (reason == DecisionPending && ValidRecord(tools, w)
                && (w.decision.None? || (!DecisionApplies(tools, w) && w.decision.value.decision == "pending")))
  {
    hide BindingReasons, ComputeRecordChecksum, DecisionReasons, BundleValid, Falsy, Get, Section, ValidRecord, BundleMatches,
         DecisionApplies;
    BundleIs(tools, w);
    RecordValidIs(tools, w);
    BundleHasManifest(tools, w);
    if w.decision.Some? { AppliesIs(tools, w); }
  }

  lemma AppliesIs(tools: Tools, w: World)
    requires Comparable(tools, w) && w.decision.Some?
    ensures w.manifest.Some?
    ensures DecisionApplies(tools, w) <==> DecisionReasons(tools, w, w.decision.value, StoredChecksum(w.record.value)) == []
  {
    hide DecisionReasons, Get, Section, Falsy;
    DecisionIs(tools, w, w.decision.value, StoredChecksum(w.record.value));
  }

  /** The story is ready exactly when the record is sealed, untouched, bound to the current files and backed
      by evidence for each role it claims, and a `ready_for_review` decision is about this very record, HEAD
      and manifest. */
  lemma {:induction false} ReadyExactly(tools: Tools, w: World)
    ensures Assess(tools, w).ready <==>
            ValidRecord(tools, w) && DecisionApplies(tools, w) && w.decision.value.decision == "ready_for_review"
    ensures Assess(tools, w).recordValid <==> ValidRecord(tools, w)
    ensures Assess(tools, w).decisionValid <==> Comparable(tools, w) && DecisionApplies(tools, w)
    ensures Assess(tools, w).decision ==
            if Comparable(tools, w) && w.decision.Some? then w.decision.value.decision else "pending"
  {
    hide BindingReasons, ComputeRecordChecksum, DecisionReasons, BundleValid, Falsy, Get, Section,
         FreshRecord.BindingsAgree, FreshRecord.RoleEvidenceHolds;
    BundleIs(tools, w);
    RecordValidIs(tools, w);
    if Comparable(tools, w) && w.decision.Some? { DecisionIs(tools, w, w.decision.value, StoredChecksum(w.record.value)); }
  }
}
