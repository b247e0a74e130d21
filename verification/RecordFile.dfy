/** What a record file holds, key by key, told from the files and the request it was made from
    (_build_evidence_payload, _build_record and _record_to_yaml_dict in
    src/agentic_dev/local_execution_recording.py). */
module RecordFile {
  import opened Common
  import opened Evidence
  import opened EvidenceModel
  import opened EvidenceGates
  import FreshRecord

  function Truth(y: Yaml): Yaml {
    if y in {Null, Str(""), Flag(false), Num(0), List([]), Map(map[])} then Str("") else y
  }

  lemma TruthIs(y: Yaml)
    ensures OrEmpty(y) == Truth(y)
  {
  }

  /** The repository section names the commit, bases and branch that git resolved; a detached HEAD is
      written as "". */
  ghost predicate RepositoryHolds(tools: Tools, w: World, repository: Mapping)
    requires BundleMatches(tools, w)
  {
    var id := w.identity.value;
    && Get(repository, "branch") == (if id.branch.Some? then Str(id.branch.value) else Str(""))
    && Get(repository, "head_sha") == Str(id.headSha) && Get(repository, "base_sha") == Str(id.baseSha)
    && Get(repository, "merge_base_sha") == Str(id.mergeBaseSha)
    && Get(repository, "base_ref") == Truth(Get(Section(tools.parse(w.manifest.value), "repository"), "requested_base_ref"))
  }

  /** The review section binds the manifest, the committed patch and both check outputs by checksum. */
  ghost predicate ReviewHolds(tools: Tools, w: World, r: RecordRequest, review: Mapping)
    requires w.manifest.Some? && w.pytest.Some? && w.ruff.Some?
  {
    var data := tools.parse(w.manifest.value);
    && Get(review, "manifest_checksum") == Str(tools.hashText(w.manifest.value))
    && Get(review, "manifest_path") == Str("stories/" + r.slug + "/review_bundle/manifest.yaml")
    && Get(review, "committed_patch_checksum") == Get(Section(data, "committed_diff"), "patch_checksum", Str(""))
    && Get(review, "pytest_checksum") == Str(tools.hashText(w.pytest.value.text))
    && Get(review, "ruff_checksum") == Str(tools.hashText(w.ruff.value.text))
    && Get(review, "cleanliness") == Get(Section(data, "working_tree"), "classification")
    && Get(review, "parity_status") == Get(Section(data, "host"), "status", Str("not_checked"))
  }

  /** The execution section names who ran what: exactly the requested roles, each with its evidence. */
  ghost predicate ExecutionHolds(tools: Tools, w: World, r: RecordRequest, execution: Mapping)
    requires w.manifest.Some?
  {
    && Get(execution, "mode") == Str("local") && Get(execution, "type") == Str(r.executionType)
    && Get(execution, "executor") == Str(r.executor)
    && Get(execution, "roles_covered").List? && |Get(execution, "roles_covered").items| == |r.sorted(r.roles)|
    && (forall i | 0 <= i < |r.sorted(r.roles)| :: Get(execution, "roles_covered").items[i] == Str(r.sorted(r.roles)[i]))
    && forall i | 0 <= i < |r.roles| ::
         EntryFor(tools, w, r.roles[i], r.lower, Section(Section(execution, "role_evidence"), r.roles[i]))
  }

  /** The provenance section never claims that agents ran. */
  ghost predicate ProvenanceHolds(r: RecordRequest, provenance: Mapping) {
    && Get(provenance, "ai_role_agents_executed") == Flag(false) && Get(provenance, "evidence_derived") == Flag(true)
    && Get(provenance, "human_attestation_supplied") == Flag(r.attestation.Some?)
    && Get(provenance, "attestation_checksum") == (if r.attestation.Some? then Str(r.attestation.value) else Null)
  }

  // ---------------------------------------------------------------- section by section

  lemma Sections(p: Payload, checksum: string, t: Yaml)
    ensures var record := RecordMapping(p, checksum, t);
            && Section(record, "story") == StorySection(p) && Section(record, "provenance") == ProvenanceSection(p)
            && Section(record, "execution") == ExecutionSection(p)["executed_at" := t]
            && Get(record, "schema_version") == Num(1)
            && Section(record, "readiness") == map["local_execution_recorded" := Flag(true)]
  {
    hide RepositorySection, ReviewSection;
    assert StorySection(Flattened(p)) == StorySection(p) && ProvenanceSection(Flattened(p)) == ProvenanceSection(p);
    assert ExecutionSection(Flattened(p)) == ExecutionSection(p);
    hide StorySection, ProvenanceSection, ExecutionSection, Flattened;
  }

  /** What the payload takes from the manifest, git and the check outputs. */
  lemma BuiltRepository(tools: Tools, w: World, r: RecordRequest)
    requires BundleMatches(tools, w)
    ensures var p := BuildPayload(tools, w, r);
            RepositoryHolds(tools, w, RepositorySection(Flattened(p)))
  {
    hide Cover;
    var p := BuildPayload(tools, w, r);
    TruthIs(p.baseRef);
    hide Truth;
  }

  lemma BuiltReview(tools: Tools, w: World, r: RecordRequest)
    requires w.manifest.Some? && w.pytest.Some? && w.ruff.Some? && CleanTree(tools, w)
    ensures ReviewHolds(tools, w, r, ReviewSection(Flattened(BuildPayload(tools, w, r))))
  {
    hide Cover, BuildPayload, ReviewSection, Section, OrEmpty;
    var p := BuildPayload(tools, w, r);
    BuiltBindings(tools, w, r);
    CleanIsTruthy(tools, w);
    ReviewKeys(Flattened(p));
  }

  lemma BuiltBindings(tools: Tools, w: World, r: RecordRequest)
    requires w.manifest.Some? && w.pytest.Some? && w.ruff.Some?
    ensures var p, data := BuildPayload(tools, w, r), tools.parse(w.manifest.value);
            && p.slug == r.slug && p.manifestChecksum == tools.hashText(w.manifest.value)
            && p.patchChecksum == Get(Section(data, "committed_diff"), "patch_checksum", Str(""))
            && p.pytestChecksum == tools.hashText(w.pytest.value.text) && p.ruffChecksum == tools.hashText(w.ruff.value.text)
            && p.cleanliness == Get(Section(data, "working_tree"), "classification")
            && p.parityStatus == Get(Section(data, "host"), "status", Str("not_checked"))
  {
    hide Cover, Section, Get;
  }

  lemma CleanIsTruthy(tools: Tools, w: World)
    requires CleanTree(tools, w)
    ensures w.manifest.Some?
    ensures var y := Get(Section(tools.parse(w.manifest.value), "working_tree"), "classification"); OrEmpty(y) == y
  {
    hide Section, Get;
  }

  lemma ReviewKeys(p: Payload)
    ensures var review := ReviewSection(p);
            && Get(review, "manifest_path") == Str("stories/" + p.slug + "/review_bundle/manifest.yaml")
            && Get(review, "manifest_checksum") == Str(p.manifestChecksum)
            && Get(review, "committed_patch_checksum") == p.patchChecksum
            && Get(review, "pytest_checksum") == Str(p.pytestChecksum) && Get(review, "ruff_checksum") == Str(p.ruffChecksum)
            && Get(review, "cleanliness") == p.cleanliness && Get(review, "parity_status") == p.parityStatus
  {
  }

  /** The coverage's evidence has an entry for every requested role, when all are covered. */
  lemma {:induction false} CoverHolds(tools: Tools, w: World, roles: seq<string>, n: nat, lower: string -> string)
    requires w.manifest.Some? && n <= |roles| && forall i | 0 <= i < n :: Covered(tools, w, roles[i], lower)
    ensures forall i | 0 <= i < n ::
              EntryFor(tools, w, roles[i], lower, Section(Cover(tools, w, roles, n, lower).evidence, roles[i]))
  {
    hide RoleEntry, Covered, EntryFor;
    CoverIs(tools, w, roles, n, lower);
    forall i | 0 <= i < n
      ensures EntryFor(tools, w, roles[i], lower, Section(Cover(tools, w, roles, n, lower).evidence, roles[i]))
    {
      assert roles[i] in Cover(tools, w, roles, n, lower).valid;
      FreshRecord.CoveredRolesHaveEntries(tools, w, roles, n, lower, roles[i]);
      EntryIs(tools, w, roles[i], lower);
    }
  }

  lemma BuiltExecution(tools: Tools, w: World, r: RecordRequest, t: Yaml)
    requires w.manifest.Some? && forall i | 0 <= i < |r.roles| :: Covered(tools, w, r.roles[i], r.lower)
    ensures ExecutionHolds(tools, w, r, ExecutionSection(BuildPayload(tools, w, r))["executed_at" := t])
  {
    hide Covered, Cover, EntryFor, BuildPayload, ExecutionSection, Texts;
    CoverIs(tools, w, r.roles, |r.roles|, r.lower);
    CoverHolds(tools, w, r.roles, |r.roles|, r.lower);
    assert r.roles[..|r.roles|] == r.roles;
    var p := BuildPayload(tools, w, r);
    ExecutionKeys(p, t);
    BuiltRoles(tools, w, r);
    TextsAre(p.roles);
  }

  lemma ExecutionKeys(p: Payload, t: Yaml)
    ensures var section := ExecutionSection(p)["executed_at" := t];
            && Get(section, "mode") == Str("local") && Get(section, "type") == Str(p.executionType)
            && Get(section, "executor") == Str(p.executor) && Get(section, "roles_covered") == Texts(p.roles)
            && Section(section, "role_evidence") == p.roleEvidence
  {
    hide Texts;
  }

  lemma BuiltRoles(tools: Tools, w: World, r: RecordRequest)
    requires w.manifest.Some?
    ensures var p, c := BuildPayload(tools, w, r), Cover(tools, w, r.roles, |r.roles|, r.lower);
            && p.executionType == r.executionType && p.executor == r.executor
            && p.roles == r.sorted(c.valid) && p.roleEvidence == c.evidence
  {
    hide Cover, ManifestData;
  }

  lemma TextsAre(items: seq<string>)
    ensures Texts(items).List? && |Texts(items).items| == |items|
    ensures forall i | 0 <= i < |items| :: Texts(items).items[i] == Str(items[i])
  {
  }

  /** Every key of a record that was just made, told from the files and the request. */
  lemma {:induction false} RecordFileHolds(tools: Tools, w: World, r: RecordRequest)
    requires Record(tools, w, r).1.Ok?
    ensures Recordable(tools, w, r)
    ensures var record := Record(tools, w, r).1.value;
            && Get(record, "schema_version") == Num(1)
            && Get(Section(record, "story"), "slug") == Str(r.slug) && Get(Section(record, "story"), "story_id") == w.storyId
            && RepositoryHolds(tools, w, Section(record, "repository"))
            && ReviewHolds(tools, w, r, Section(record, "review_evidence"))
            && ExecutionHolds(tools, w, r, Section(record, "execution"))
            && ProvenanceHolds(r, Section(record, "provenance"))
            && Section(record, "readiness") == map["local_execution_recorded" := Flag(true)]
            && Get(Section(record, "execution"), "executed_at") ==
               (if SameInputs(tools, w, r) then Get(Section(w.record.value, "execution"), "executed_at", Str(r.now))
                else Str(r.now))
  {
    hide Record, RecordMapping, Covered, Cover, BundleMatches, CleanTree, PlainName, PayloadMapping, SameInputs,
         BuildPayload, RepositoryHolds, ReviewHolds, ExecutionHolds, ProvenanceHolds, ReviewSection, RepositorySection;
    RecordSucceedsExactly(tools, w, r);
    BundleHasManifest(tools, w);
    var p, t := BuildPayload(tools, w, r), RecordTime(tools, w, r);
    RecordIs(tools, w, r);
    Sections(p, tools.hashMapping(PayloadMapping(p)), t);
    FreshRecord.RecordReads(p, tools.hashMapping(PayloadMapping(p)), t);
    BuiltRepository(tools, w, r);
    BuiltReview(tools, w, r);
    BuiltExecution(tools, w, r, t);
    BuiltRest(tools, w, r);
    hide ExecutionSection, StorySection;
  }

  lemma BuiltRest(tools: Tools, w: World, r: RecordRequest)
    requires w.manifest.Some?
    ensures var p := BuildPayload(tools, w, r);
            && ProvenanceHolds(r, ProvenanceSection(p))
            && Get(StorySection(p), "slug") == Str(r.slug) && Get(StorySection(p), "story_id") == w.storyId
  {
    hide Cover;
  }

  function RecordTime(tools: Tools, w: World, r: RecordRequest): Yaml
    requires w.manifest.Some?
  {
    if w.record.Some? && StoredChecksum(w.record.value) == Str(tools.hashMapping(PayloadMapping(BuildPayload(tools, w, r))))
    then Get(Section(w.record.value, "execution"), "executed_at", Str(r.now)) else Str(r.now)
  }

  lemma RecordIs(tools: Tools, w: World, r: RecordRequest)
    requires Record(tools, w, r).1.Ok? && w.manifest.Some?
    ensures Record(tools, w, r).1.value == RecordFor(tools, BuildPayload(tools, w, r), RecordTime(tools, w, r))
    ensures RecordTime(tools, w, r) ==
            if SameInputs(tools, w, r) then Get(Section(w.record.value, "execution"), "executed_at", Str(r.now)) else Str(r.now)
  {
    hide RecordFor, BuildPayload, PayloadMapping, RecordRefusal;
  }
}
