/** Whether a record that was just written is judged valid by the evidence validator. */
module FreshRecord {
  import opened Common
  import opened Evidence
  import opened EvidenceModel
  import Strings

  lemma {:induction false} CoveredRolesHaveEntries(tools: Tools, w: World, roles: seq<string>, n: nat,
                                                   lower: string -> string, role: string)
    requires n <= |roles| && role in Cover(tools, w, roles, n, lower).valid
    ensures RoleEntry(tools, w, role, lower).Some?
    ensures Get(Cover(tools, w, roles, n, lower).evidence, role) == Map(RoleEntry(tools, w, role, lower).value)
  {
    hide RoleEntry;
    if roles[n - 1] != role || RoleEntry(tools, w, roles[n - 1], lower).None? {
      CoveredRolesHaveEntries(tools, w, roles, n - 1, lower, role);
    }
  }

  /** The entry of a covered role always satisfies the validator's check of that role. */
  lemma EntriesPassTheirChecks(tools: Tools, w: World, lower: string -> string)
    requires Sound(tools)
    ensures var e := RoleEntry(tools, w, "developer", lower); e.Some? ==> !Falsy(Get(e.value, "committed_patch_checksum"))
    ensures var e := RoleEntry(tools, w, "test", lower); e.Some? ==> !Falsy(Get(e.value, "pytest_evidence_checksum"))
    ensures var e := RoleEntry(tools, w, "docs", lower); e.Some? ==> !Falsy(Get(e.value, "paths"))
    ensures var e := RoleEntry(tools, w, "research", lower); e.Some? ==> !Falsy(Get(e.value, "artifacts"))
  {
  }

  /** What the validator reads from a record. */
  lemma RecordReads(p: Payload, checksum: string, t: Yaml)
    ensures var record := RecordMapping(p, checksum, t);
            && Section(record, "review_evidence") == ReviewSection(Flattened(p))
            && Section(record, "repository") == RepositorySection(Flattened(p))
            && Get(Section(record, "execution"), "roles_covered", List([])) == Texts(p.roles)
            && Section(Section(record, "execution"), "role_evidence") == p.roleEvidence
  {
    hide StorySection, RepositorySection, ReviewSection, ProvenanceSection;
    var f, record := Flattened(p), RecordMapping(p, checksum, t);
    assert record["review_evidence"] == Map(ReviewSection(f)) && record["repository"] == Map(RepositorySection(f));
    assert record["execution"] == Map(ExecutionSection(f)["executed_at" := t]);
  }

  lemma ClaimsAreRoles(p: Payload, checksum: string, t: Yaml, role: string)
    ensures Claims(RecordMapping(p, checksum, t), role) <==> role in p.roles
    ensures RoleClaim(RecordMapping(p, checksum, t), role) == Section(p.roleEvidence, role)
  {
    RecordReads(p, checksum, t);
    hide RecordMapping;
    assert forall i | 0 <= i < |p.roles| :: Texts(p.roles).items[i] == Str(p.roles[i]);
  }

  ghost predicate SortsNames(r: RecordRequest) {
    forall s, x :: x in r.sorted(s) <==> x in s
  }

  ghost predicate RoleEvidenceHolds(record: Mapping) {
    && (Claims(record, "developer") ==> !Falsy(Get(RoleClaim(record, "developer"), "committed_patch_checksum")))
    && (Claims(record, "test") ==> !Falsy(Get(RoleClaim(record, "test"), "pytest_evidence_checksum")))
    && (Claims(record, "docs") ==> !Falsy(Get(RoleClaim(record, "docs"), "paths"))
                                   || !Falsy(Get(RoleClaim(record, "docs"), "checksums")))
    && (Claims(record, "research") ==> !Falsy(Get(RoleClaim(record, "research"), "artifacts")))
  }

  lemma RoleReasonsAbsent(tools: Tools, w: World, r: RecordRequest, t: Yaml)
    requires Sound(tools) && SortsNames(r) && w.manifest.Some?
    ensures RoleEvidenceHolds(RecordFor(tools, BuildPayload(tools, w, r), t))
  {
    hide RecordMapping, Cover, RoleEntry, PayloadMapping, ManifestData, Claims, RoleClaim, Falsy;
    EntriesPassTheirChecks(tools, w, r.lower);
    var p := BuildPayload(tools, w, r);
    forall role | Claims(RecordFor(tools, p, t), role)
      ensures RoleEntry(tools, w, role, r.lower).Some?
      ensures RoleClaim(RecordFor(tools, p, t), role) == RoleEntry(tools, w, role, r.lower).value
    {
      ClaimsAreRoles(p, tools.hashMapping(PayloadMapping(p)), t, role);
      CoveredRolesHaveEntries(tools, w, r.roles, |r.roles|, r.lower, role);
    }
  }

  /** The record repeats the manifest checksum, identity, cleanliness and parity it was built from. */
  ghost predicate BindingsAgree(tools: Tools, w: World, record: Mapping)
    requires w.manifest.Some?
  {
    var review, repository := Section(record, "review_evidence"), Section(record, "repository");
    var current, data := ManifestRepository(tools, w), ManifestData(tools, w);
    var hostStatus := Get(Section(data, "host"), "status");
    && Get(review, "manifest_checksum") == Str(tools.hashText(w.manifest.value))
    && Get(repository, "head_sha") == Get(current, "head_sha")
    && Get(repository, "base_sha") == Get(current, "base_sha")
    && Get(repository, "merge_base_sha") == Get(current, "merge_base_sha")
    && Get(review, "cleanliness") == Get(Section(data, "working_tree"), "classification")
    && (Get(review, "parity_status") == hostStatus || hostStatus == Null)
  }

  /** The validator finds nothing against a record exactly when its bindings agree and each claimed
      role has its evidence. */
  lemma NoReasonsExactly(tools: Tools, w: World, record: Mapping)
    requires w.manifest.Some?
    ensures BindingReasons(tools, w, record) == [] <==> BindingsAgree(tools, w, record) && RoleEvidenceHolds(record)
  {
    hide Claims, RoleClaim, Falsy, Get, Section, ManifestRepository, ManifestData;
  }

  /** What a fresh record holds where the validator compares it with the manifest. */
  lemma FreshFields(p: Payload, checksum: string, t: Yaml)
    ensures var record := RecordMapping(p, checksum, t);
            var review, repository := Section(record, "review_evidence"), Section(record, "repository");
            && Get(review, "manifest_checksum") == Str(p.manifestChecksum)
            && Get(review, "cleanliness") == OrEmpty(p.cleanliness) && Get(review, "parity_status") == p.parityStatus
            && Get(repository, "head_sha") == OrEmpty(p.headSha) && Get(repository, "base_sha") == OrEmpty(p.baseSha)
            && Get(repository, "merge_base_sha") == OrEmpty(p.mergeBaseSha)
  {
    RecordReads(p, checksum, t);
    hide RecordMapping, OrEmpty;
  }

  lemma FreshAgrees(tools: Tools, w: World, r: RecordRequest, t: Yaml)
    requires RecordRefusal(tools, w, r).None?
    ensures var p := BuildPayload(tools, w, r);
            BindingsAgree(tools, w, RecordFor(tools, p, t)) <==>
            EmptyOrTruthy(p.headSha) && EmptyOrTruthy(p.baseSha) && EmptyOrTruthy(p.mergeBaseSha)
  {
    var p := BuildPayload(tools, w, r);
    CleanlinessKnown(tools, w, r);
    FreshFields(p, tools.hashMapping(PayloadMapping(p)), t);
    hide RecordMapping, Cover, PayloadMapping, ManifestData, BundleValid;
  }

  /** The bindings of a fresh record hold exactly when the copied identity fields are not None (or
      otherwise falsy but not ""). */
  lemma FreshBindings(tools: Tools, w: World, r: RecordRequest, t: Yaml)
    requires Sound(tools) && SortsNames(r) && RecordRefusal(tools, w, r).None?
    ensures var p := BuildPayload(tools, w, r);
            BindingReasons(tools, w, RecordFor(tools, p, t)) == [] <==>
            EmptyOrTruthy(p.headSha) && EmptyOrTruthy(p.baseSha) && EmptyOrTruthy(p.mergeBaseSha)
  {
    var p := BuildPayload(tools, w, r);
    hide RecordFor, Cover, BindingReasons, BindingsAgree, RoleEvidenceHolds, Sound, SortsNames;
    NoReasonsExactly(tools, w, RecordFor(tools, p, t));
    RoleReasonsAbsent(tools, w, r, t);
    FreshAgrees(tools, w, r, t);
  }

  /** The identity fields of a payload whose bundle is valid are those git resolved. */
  lemma IdentityKnown(tools: Tools, w: World, r: RecordRequest)
    requires BundleValid(tools, w)
    ensures var p, id := BuildPayload(tools, w, r), w.identity.value;
            && p.headSha == Str(id.headSha) && p.baseSha == Str(id.baseSha) && p.mergeBaseSha == Str(id.mergeBaseSha)
            && p.branch == OptionalText(id.branch)
            && p.baseRef == Get(ManifestRepository(tools, w), "requested_base_ref")
  {
    hide Cover, ManifestData;
  }

  /** Just after recording, for whatever manifest the bundle holds, the validator judges the record
      valid exactly when the manifest's base ref is not an empty value other than None. */
  lemma {:induction false} FreshRecordValidExactly(tools: Tools, w: World, r: RecordRequest)
    requires Sound(tools) && SortsNames(r) && Record(tools, w, r).1.Ok? && !r.dryRun
    ensures Assess(tools, Record(tools, w, r).0).recordValid <==>
            NullOrTruthy(Get(ManifestRepository(tools, w), "requested_base_ref"))
  {
    var t := RecordedFresh(tools, w, r);
    hide Record, RecordMapping, BindingReasons, PayloadMapping, ComputeRecordChecksum, StoredChecksum, Cover, SortsNames,
         DecisionReasons, BundleValid, BuildPayload, ManifestRepository;
    var p := BuildPayload(tools, w, r);
    var record := RecordFor(tools, p, t);
    IdentityKnown(tools, w, r);
    FreshBindings(tools, w, r, t);
    ChecksumRoundTrip(tools, p, t);
    StoredChecksumIs(p, tools.hashMapping(PayloadMapping(p)), t);
    SameBundle(tools, w.(record := Some(record)), w);
    SameBindings(tools, w.(record := Some(record)), w, record);
    JudgedValidExactly(tools, w.(record := Some(record)), record);
    CleanlinessKnown(tools, w, r);
  }

  /** The manifest's repository section was written by identity_to_manifest, at whatever commit. */
  ghost predicate BuiltManifest(tools: Tools, w: World) {
    exists id: Identity :: BuiltAt(tools, w, id)
  }

  ghost predicate BuiltAt(tools: Tools, w: World, id: Identity) {
    forall key | key in RepositoryFor(id) :: Get(ManifestRepository(tools, w), key) == RepositoryFor(id)[key]
  }

  lemma BuiltBaseRef(tools: Tools, w: World)
    requires BuiltManifest(tools, w)
    ensures !Falsy(Get(ManifestRepository(tools, w), "requested_base_ref"))
  {
    hide ManifestRepository;
    var id: Identity :| BuiltAt(tools, w, id);
    assert "requested_base_ref" in RepositoryFor(id);
  }

  /** Every record written from a manifest the bundle service built is judged valid. */
  lemma {:induction false} FreshRecordsAreValid(tools: Tools, w: World, r: RecordRequest)
    requires Sound(tools) && SortsNames(r) && Record(tools, w, r).1.Ok? && !r.dryRun && BuiltManifest(tools, w)
    ensures Assess(tools, Record(tools, w, r).0).recordValid
  {
    hide Record, Assess, Sound, SortsNames, ManifestRepository, BuiltManifest;
    FreshRecordValidExactly(tools, w, r);
    BuiltBaseRef(tools, w);
  }

  lemma CleanlinessKnown(tools: Tools, w: World, r: RecordRequest)
    requires RecordRefusal(tools, w, r).None?
    ensures w.manifest.Some? && !Falsy(BuildPayload(tools, w, r).cleanliness)
  {
    hide Cover, ManifestData;
  }

  lemma JudgedValidExactly(tools: Tools, v: World, record: Mapping)
    requires v.record == Some(record) && BundleValid(tools, v) && !Falsy(StoredChecksum(record))
    ensures v.manifest.Some?
    ensures Assess(tools, v).recordValid <==>
            Str(ComputeRecordChecksum(tools, record)) == StoredChecksum(record) && BindingReasons(tools, v, record) == []
  {
    hide BindingReasons, StoredChecksum, ComputeRecordChecksum, DecisionReasons;
  }

  // ---------------------------------------------------------------- the older validator

  /** validate_local_execution_record, its checksum check */
  predicate OlderChecksumMatches(tools: Tools, record: Mapping) {
    Str(tools.hashMapping(PlainPayload(record))) == StoredChecksum(record)
  }

  /** The older validator's checksum accepts a record written from a built manifest exactly when a
      branch is checked out: on a detached HEAD it calls the untouched record tampered with. */
  lemma {:induction false} OlderValidatorNeedsBranch(tools: Tools, w: World, r: RecordRequest)
    requires Sound(tools) && SortsNames(r) && Record(tools, w, r).1.Ok? && !r.dryRun && BuiltManifest(tools, w)
    ensures w.identity.Some? && Record(tools, w, r).0.record.Some?
    ensures OlderChecksumMatches(tools, Record(tools, w, r).0.record.value) <==> w.identity.value.branch.Some?
  {
    var t := RecordedFresh(tools, w, r);
    hide Record, RecordFor, PayloadMapping, PlainPayload, StoredChecksum, BundleValid, BuildPayload, BuiltManifest,
         ManifestRepository, Sound, SortsNames, RecordRefusal;
    IdentityKnown(tools, w, r);
    CleanlinessKnown(tools, w, r);
    BuiltBaseRef(tools, w);
    IdentityResolved(tools, w);
    PlainChecksumRoundTrip(tools, BuildPayload(tools, w, r), t);
  }

  lemma IdentityResolved(tools: Tools, w: World)
    requires BundleValid(tools, w)
    ensures w.identity.Some?
  {
  }

  /** A story whose checks pass, on a detached HEAD. */
  function DetachedStory(): World {
    World(Some("manifest"), Some(Identity("h", "b", "m", None, "origin/main")), true, Some(CheckOutput("1 passed", true)),
          Some(CheckOutput("All checks passed!", true)), Null, None, None)
  }

  /** The manifest text parses to what the bundle service writes at that commit. */
  function DetachedTools(tools: Tools): Tools {
    tools.(parse := _ => map["repository" := Map(RepositoryFor(Identity("h", "b", "m", None, "origin/main"))),
                             "committed_diff" := Map(map[]),
                             "working_tree" := Map(map["classification" := Str("clean")])])
  }

  ghost predicate ValidButRejected(tools: Tools, w: World, r: RecordRequest) {
    var written := Record(tools, w, r);
    && written.1.Ok? && Assess(tools, written.0).recordValid
    && written.0.record.Some? && !OlderChecksumMatches(tools, written.0.record.value)
  }

  lemma DetachedMeansRejected(tools: Tools, w: World, r: RecordRequest)
    requires Sound(tools) && SortsNames(r) && Record(tools, w, r).1.Ok? && !r.dryRun && BuiltManifest(tools, w)
    requires w.identity.Some? && w.identity.value.branch.None?
    ensures ValidButRejected(tools, w, r)
  {
    hide Record, Assess, OlderChecksumMatches, Sound, SortsNames, BuiltManifest;
    FreshRecordsAreValid(tools, w, r);
    OlderValidatorNeedsBranch(tools, w, r);
  }

  /** Such a story can be recorded; the record is valid, and the older validator rejects it. */
  lemma {:induction false} DetachedHeadIsRejected(tools: Tools, r: RecordRequest)
    requires Sound(tools) && SortsNames(r) && r.executionType == "manual" && r.executor == "operator"
    requires r.roles == ["test"] && !r.dryRun
    ensures ValidButRejected(DetachedTools(tools), DetachedStory(), r)
  {
    hide Record, Sound, SortsNames, BuiltManifest, ValidButRejected;
    DetachedBundle(tools);
    DetachedStoryIsRecorded(tools, r);
    SameHashesSound(tools, DetachedTools(tools));
    DetachedMeansRejected(DetachedTools(tools), DetachedStory(), r);
  }

  lemma SameHashesSound(tools: Tools, t: Tools)
    requires Sound(tools) && t == tools.(parse := t.parse)
    ensures Sound(t)
  {
  }

  lemma DetachedBundle(tools: Tools)
    ensures BundleValid(DetachedTools(tools), DetachedStory()) && BuiltManifest(DetachedTools(tools), DetachedStory())
    ensures Section(ManifestData(DetachedTools(tools), DetachedStory()), "working_tree") == map["classification" := Str("clean")]
  {
    var t, w := DetachedTools(tools), DetachedStory();
    assert ManifestRepository(t, w) == RepositoryFor(w.identity.value);
    assert BuiltAt(t, w, w.identity.value);
  }

  lemma DetachedRoles(tools: Tools, r: RecordRequest)
    requires r.roles == ["test"]
    ensures Cover(DetachedTools(tools), DetachedStory(), r.roles, |r.roles|, r.lower).errors == 0
  {
    var t, w := DetachedTools(tools), DetachedStory();
    hide ManifestData;
    assert RoleEntry(t, w, "test", r.lower).Some?;
    assert Cover(t, w, r.roles, 0, r.lower).errors == 0;
  }

  lemma OperatorIsSafe()
    ensures SafeName("operator")
  {
    var name := "operator";
    forall i | 0 <= i <= |name| ensures !Strings.OccursAt(name, "..", i) {
      if i + 2 <= |name| { assert name[i..i + 2][0] == name[i] != '.'; }
    }
  }

  lemma DetachedStoryIsRecorded(tools: Tools, r: RecordRequest)
    requires r.executionType == "manual" && r.executor == "operator" && r.roles == ["test"]
    ensures Record(DetachedTools(tools), DetachedStory(), r).1.Ok?
  {
    DetachedBundle(tools);
    DetachedRoles(tools, r);
    OperatorIsSafe();
    DetachedIsNotRefused(tools, r);
    hide RecordRefusal, Record, DetachedTools, BuiltManifest, BundleValid;
    FirstRecording(DetachedTools(tools), DetachedStory(), r);
  }

  lemma DetachedIsNotRefused(tools: Tools, r: RecordRequest)
    requires r.executionType == "manual" && SafeName(r.executor) && BundleValid(DetachedTools(tools), DetachedStory())
    requires Section(ManifestData(DetachedTools(tools), DetachedStory()), "working_tree") == map["classification" := Str("clean")]
    requires Cover(DetachedTools(tools), DetachedStory(), r.roles, |r.roles|, r.lower).errors == 0
    ensures RecordRefusal(DetachedTools(tools), DetachedStory(), r).None?
  {
    hide SafeName, BundleValid, Cover, ManifestData, Section, DetachedTools;
  }

  /** Nothing but the first checks can refuse a first recording. */
  lemma FirstRecording(tools: Tools, w: World, r: RecordRequest)
    requires w.record.None? && RecordRefusal(tools, w, r).None?
    ensures Record(tools, w, r).1.Ok?
  {
    hide BundleValid, Cover, ManifestData, RecordFor, PayloadMapping, StoredChecksum;
  }
}
