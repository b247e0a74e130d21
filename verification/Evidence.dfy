/** Recording local execution evidence: the payload, its checksum, the serialized record, and the
    checksum recomputed from the record
    (src/agentic_dev/local_execution_recording.py, src/agentic_dev/local_evidence_validation.py). */
module Evidence {
  import opened Common

  // ---------------------------------------------------------------- YAML values

  datatype Yaml =
    | Null
    | Str(text: string)
    | Flag(flag: bool)
    | Num(number: int)
    | List(items: seq<Yaml>)
    | Map(entries: map<string, Yaml>)

  type Mapping = map<string, Yaml>

  /** Python's falsehood: None, "", False, 0 and the empty collections. */
  predicate Falsy(y: Yaml) {
    match y
    case Null => true
    case Str(s) => s == ""
    case Flag(b) => !b
    case Num(n) => n == 0
    case List(items) => items == []
    case Map(entries) => entries == map[]
  }

  /** `y or ""` */
  function OrEmpty(y: Yaml): Yaml {
    if Falsy(y) then Str("") else y
  }

  /** `m.get(key, default)` */
  function Get(m: Mapping, key: string, default: Yaml := Null): Yaml {
    if key in m then m[key] else default
  }

  /** `m.get(key, {})` for a key that holds a section. */
  function Section(m: Mapping, key: string): Mapping {
    if key in m && m[key].Map? then m[key].entries else map[]
  }

  /** Checksums and YAML parsing; checksums are taken to be free of collisions and never empty. */
  datatype Tools = Tools(parse: string -> Mapping, hashText: string -> string, hashMapping: Mapping -> string)

  ghost predicate Sound(tools: Tools) {
    && (forall a, b | tools.hashText(a) == tools.hashText(b) :: a == b)
    && (forall a, b | tools.hashMapping(a) == tools.hashMapping(b) :: a == b)
    && (forall a :: tools.hashText(a) != "")
    && (forall a :: tools.hashMapping(a) != "")
  }

  // ---------------------------------------------------------------- payload and record

  /** The evidence a record is built from. Fields copied from the manifest may be anything. */
  datatype Payload = Payload(
    slug: string, storyId: Yaml,
    branch: Yaml, headSha: Yaml, baseRef: Yaml, baseSha: Yaml, mergeBaseSha: Yaml,
    manifestChecksum: string, patchChecksum: Yaml, pytestChecksum: string, ruffChecksum: string,
    cleanliness: Yaml, parityStatus: Yaml,
    executionType: string, executor: string, roles: seq<string>, roleEvidence: Mapping, attestation: Option<string>)

  function Texts(items: seq<string>): Yaml {
    List(seq(|items|, i requires 0 <= i < |items| => Str(items[i])))
  }

  function OptionalText(t: Option<string>): Yaml {
    if t.Some? then Str(t.value) else Null
  }

  function StorySection(p: Payload): Mapping {
    map["slug" := Str(p.slug), "story_id" := p.storyId]
  }

  function RepositorySection(p: Payload): Mapping {
    map["branch" := p.branch, "head_sha" := p.headSha, "base_ref" := p.baseRef, "base_sha" := p.baseSha,
        "merge_base_sha" := p.mergeBaseSha]
  }

  function ReviewSection(p: Payload): Mapping {
    map["manifest_path" := Str("stories/" + p.slug + "/review_bundle/manifest.yaml"),
        "manifest_checksum" := Str(p.manifestChecksum), "committed_patch_checksum" := p.patchChecksum,
        "pytest_checksum" := Str(p.pytestChecksum), "ruff_checksum" := Str(p.ruffChecksum),
        "cleanliness" := p.cleanliness, "parity_status" := p.parityStatus]
  }

  function ExecutionSection(p: Payload): Mapping {
    map["mode" := Str("local"), "type" := Str(p.executionType), "executor" := Str(p.executor),
        "roles_covered" := Texts(p.roles), "role_evidence" := Map(p.roleEvidence)]
  }

  function ProvenanceSection(p: Payload): Mapping {
    map["ai_role_agents_executed" := Flag(false), "evidence_derived" := Flag(true),
        "human_attestation_supplied" := Flag(p.attestation.Some?),
        "attestation_checksum" := OptionalText(p.attestation)]
  }

  /** _build_evidence_payload: the mapping whose checksum identifies the evidence. */
  function PayloadMapping(p: Payload): Mapping {
    map["schema_version" := Num(1), "story" := Map(StorySection(p)), "repository" := Map(RepositorySection(p)),
        "review_evidence" := Map(ReviewSection(p)), "execution" := Map(ExecutionSection(p)),
        "provenance" := Map(ProvenanceSection(p)), "readiness" := Map(map["local_execution_recorded" := Flag(true)])]
  }

  /** What _build_record does to the fields it copies: None becomes "". */
  function Flattened(p: Payload): Payload {
    p.(branch := OrEmpty(p.branch), headSha := OrEmpty(p.headSha), baseRef := OrEmpty(p.baseRef),
       baseSha := OrEmpty(p.baseSha), mergeBaseSha := OrEmpty(p.mergeBaseSha), cleanliness := OrEmpty(p.cleanliness))
  }

  /** _build_record and _record_to_yaml_dict: the record file. */
  function RecordMapping(p: Payload, checksum: string, executedAt: Yaml): Mapping {
    var f := Flattened(p);
    PayloadMapping(f)["execution" := Map(ExecutionSection(f)["executed_at" := executedAt])]
                     ["integrity" := Map(map["record_checksum" := Str(checksum)])]
  }

  function RecordFor(tools: Tools, p: Payload, executedAt: Yaml): Mapping {
    RecordMapping(p, tools.hashMapping(PayloadMapping(p)), executedAt)
  }

  function StoredChecksum(record: Mapping): Yaml {
    Get(Section(record, "integrity"), "record_checksum")
  }

  // ---------------------------------------------------------------- recomputed checksums

  /** What validate_local_execution_record hashes: the record without integrity and executed_at. */
  function PlainPayload(record: Mapping): Mapping {
    (map k | k in record && k != "integrity" && k != "execution" :: record[k])
      ["execution" := Map(map k | k in Section(record, "execution") && k != "executed_at" :: Section(record, "execution")[k])]
  }

  function NullForEmpty(y: Yaml): Yaml {
    if y == Str("") then Null else y
  }

  /** What compute_local_execution_record_checksum hashes: also turns "" in `repository` back to None. */
  function RestoredPayload(record: Mapping): Mapping {
    var plain := PlainPayload(record);
    if "repository" in plain && plain["repository"].Map? then
      var repository := plain["repository"].entries;
      plain["repository" := Map(map k | k in repository :: NullForEmpty(repository[k]))]
    else plain
  }

  function ComputeRecordChecksum(tools: Tools, record: Mapping): string {
    tools.hashMapping(RestoredPayload(record))
  }

  predicate NullOrTruthy(y: Yaml) { y == Null || !Falsy(y) }

  predicate EmptyOrTruthy(y: Yaml) { y == Str("") || !Falsy(y) }

  /** The payload whose mapping the restored record is. */
  function Restored(p: Payload): Payload {
    var f := Flattened(p);
    f.(branch := NullForEmpty(f.branch), headSha := NullForEmpty(f.headSha), baseRef := NullForEmpty(f.baseRef),
       baseSha := NullForEmpty(f.baseSha), mergeBaseSha := NullForEmpty(f.mergeBaseSha))
  }

  lemma PlainPayloadIs(p: Payload, checksum: string, executedAt: Yaml)
    ensures PlainPayload(RecordMapping(p, checksum, executedAt)) == PayloadMapping(Flattened(p))
  {
    var f, record := Flattened(p), RecordMapping(p, checksum, executedAt);
    hide Flattened, StorySection, RepositorySection, ReviewSection, ProvenanceSection;
    assert Section(record, "execution") == ExecutionSection(f)["executed_at" := executedAt];
    ExecutedAtRemoved(f, executedAt);
    hide ExecutionSection, Section;
  }

  lemma ExecutedAtRemoved(p: Payload, executedAt: Yaml)
    ensures var section := ExecutionSection(p)["executed_at" := executedAt];
            (map k | k in section && k != "executed_at" :: section[k]) == ExecutionSection(p)
  {
  }

  lemma RestoredRepository(p: Payload)
    ensures var repository := RepositorySection(Flattened(p));
            (map k | k in repository :: NullForEmpty(repository[k])) == RepositorySection(Restored(p))
  {
    hide OrEmpty, NullForEmpty;
  }

  lemma OtherSectionsKept(p: Payload)
    ensures PayloadMapping(Flattened(p))["repository" := Map(RepositorySection(Restored(p)))] == PayloadMapping(Restored(p))
  {
    hide OrEmpty, NullForEmpty, Texts, OptionalText;
    var f, r := Flattened(p), Restored(p);
    assert StorySection(f) == StorySection(r) && ReviewSection(f) == ReviewSection(r);
    assert ExecutionSection(f) == ExecutionSection(r) && ProvenanceSection(f) == ProvenanceSection(r);
    hide Flattened, Restored, StorySection, RepositorySection, ReviewSection, ExecutionSection, ProvenanceSection;
  }

  lemma RestoredPayloadIs(p: Payload, checksum: string, executedAt: Yaml)
    ensures RestoredPayload(RecordMapping(p, checksum, executedAt)) == PayloadMapping(Restored(p))
  {
    PlainPayloadIs(p, checksum, executedAt);
    RestoredRepository(p);
    OtherSectionsKept(p);
    assert PayloadMapping(Flattened(p))["repository"] == Map(RepositorySection(Flattened(p)));
    hide Flattened, Restored, PayloadMapping, RecordMapping, PlainPayload, RepositorySection, NullForEmpty;
  }

  lemma SectionsEqual(p: Payload, q: Payload)
    requires PayloadMapping(p) == PayloadMapping(q)
    ensures RepositorySection(p) == RepositorySection(q) && ReviewSection(p) == ReviewSection(q)
  {
    hide StorySection, RepositorySection, ReviewSection, ExecutionSection, ProvenanceSection;
    assert PayloadMapping(p)["repository"] == PayloadMapping(q)["repository"];
    assert PayloadMapping(p)["review_evidence"] == PayloadMapping(q)["review_evidence"];
  }

  lemma SameMappingSameFields(p: Payload, q: Payload)
    requires PayloadMapping(p) == PayloadMapping(q)
    ensures p.branch == q.branch && p.headSha == q.headSha && p.baseRef == q.baseRef && p.baseSha == q.baseSha
    ensures p.mergeBaseSha == q.mergeBaseSha && p.cleanliness == q.cleanliness && p.manifestChecksum == q.manifestChecksum
  {
    SectionsEqual(p, q);
    var a, b := RepositorySection(p), RepositorySection(q);
    assert a["branch"] == b["branch"] && a["head_sha"] == b["head_sha"] && a["base_ref"] == b["base_ref"];
    assert a["base_sha"] == b["base_sha"] && a["merge_base_sha"] == b["merge_base_sha"];
    var c, d := ReviewSection(p), ReviewSection(q);
    assert c["cleanliness"] == d["cleanliness"] && c["manifest_checksum"] == d["manifest_checksum"];
  }

  /** Write-then-validate: the checksum recomputed from the serialized record equals the stored one
      exactly when each repository field is None or truthy and the cleanliness is truthy or "". */
  lemma ChecksumRoundTrip(tools: Tools, p: Payload, executedAt: Yaml)
    requires Sound(tools)
    ensures Str(ComputeRecordChecksum(tools, RecordFor(tools, p, executedAt))) == StoredChecksum(RecordFor(tools, p, executedAt))
            <==> NullOrTruthy(p.branch) && NullOrTruthy(p.headSha) && NullOrTruthy(p.baseRef) && NullOrTruthy(p.baseSha)
                 && NullOrTruthy(p.mergeBaseSha) && EmptyOrTruthy(p.cleanliness)
  {
    RestoredPayloadIs(p, tools.hashMapping(PayloadMapping(p)), executedAt);
    if PayloadMapping(Restored(p)) == PayloadMapping(p) { SameMappingSameFields(Restored(p), p); }
    StoredChecksumIs(p, tools.hashMapping(PayloadMapping(p)), executedAt);
    hide PayloadMapping, RecordMapping, RestoredPayload, StoredChecksum;
  }

  lemma StoredChecksumIs(p: Payload, checksum: string, executedAt: Yaml)
    ensures StoredChecksum(RecordMapping(p, checksum, executedAt)) == Str(checksum)
  {
  }

  /** The older validator, which does not turn "" back into None, accepts a fresh record exactly when
      no copied field is None (or otherwise falsy but not ""). */
  lemma PlainChecksumRoundTrip(tools: Tools, p: Payload, executedAt: Yaml)
    requires Sound(tools)
    ensures Str(tools.hashMapping(PlainPayload(RecordFor(tools, p, executedAt)))) == StoredChecksum(RecordFor(tools, p, executedAt))
            <==> EmptyOrTruthy(p.branch) && EmptyOrTruthy(p.headSha) && EmptyOrTruthy(p.baseRef) && EmptyOrTruthy(p.baseSha)
                 && EmptyOrTruthy(p.mergeBaseSha) && EmptyOrTruthy(p.cleanliness)
  {
    PlainPayloadIs(p, tools.hashMapping(PayloadMapping(p)), executedAt);
    if PayloadMapping(Flattened(p)) == PayloadMapping(p) { SameMappingSameFields(Flattened(p), p); }
    StoredChecksumIs(p, tools.hashMapping(PayloadMapping(p)), executedAt);
    hide PayloadMapping, RecordMapping, PlainPayload, StoredChecksum;
  }

  lemma TextsAreInjective(a: seq<string>, b: seq<string>)
    requires Texts(a) == Texts(b)
    ensures a == b
  {
    assert |Texts(a).items| == |a| && |Texts(b).items| == |b|;
    forall i | 0 <= i < |a| ensures a[i] == b[i] {
      assert Texts(a).items[i] == Str(a[i]) && Texts(b).items[i] == Str(b[i]);
    }
  }

  lemma OtherSectionsEqual(p: Payload, q: Payload)
    requires PayloadMapping(p) == PayloadMapping(q)
    ensures StorySection(p) == StorySection(q) && ExecutionSection(p) == ExecutionSection(q)
    ensures ProvenanceSection(p) == ProvenanceSection(q)
  {
    hide StorySection, RepositorySection, ReviewSection, ExecutionSection, ProvenanceSection;
    var a, b := PayloadMapping(p), PayloadMapping(q);
    assert a["story"] == b["story"] && a["execution"] == b["execution"] && a["provenance"] == b["provenance"];
  }

  lemma SectionFields(p: Payload, q: Payload)
    requires StorySection(p) == StorySection(q) && ReviewSection(p) == ReviewSection(q)
    ensures p.slug == q.slug && p.storyId == q.storyId && p.patchChecksum == q.patchChecksum
    ensures p.pytestChecksum == q.pytestChecksum && p.ruffChecksum == q.ruffChecksum && p.parityStatus == q.parityStatus
  {
    var a, b := StorySection(p), StorySection(q);
    assert a["slug"] == b["slug"] && a["story_id"] == b["story_id"];
    var c, d := ReviewSection(p), ReviewSection(q);
    assert c["committed_patch_checksum"] == d["committed_patch_checksum"] && c["pytest_checksum"] == d["pytest_checksum"];
    assert c["ruff_checksum"] == d["ruff_checksum"] && c["parity_status"] == d["parity_status"];
  }

  lemma ExecutionFields(p: Payload, q: Payload)
    requires ExecutionSection(p) == ExecutionSection(q) && ProvenanceSection(p) == ProvenanceSection(q)
    ensures p.executionType == q.executionType && p.executor == q.executor && p.roles == q.roles
    ensures p.roleEvidence == q.roleEvidence && p.attestation == q.attestation
  {
    hide Texts;
    var a, b := ExecutionSection(p), ExecutionSection(q);
    assert a["type"] == b["type"] && a["executor"] == b["executor"] && a["roles_covered"] == b["roles_covered"];
    assert a["role_evidence"] == b["role_evidence"];
    TextsAreInjective(p.roles, q.roles);
    assert ProvenanceSection(p)["attestation_checksum"] == ProvenanceSection(q)["attestation_checksum"];
  }

  /** The payload mapping determines every field of the payload. */
  lemma MappingDeterminesPayload(p: Payload, q: Payload)
    requires PayloadMapping(p) == PayloadMapping(q)
    ensures p == q
  {
    SameMappingSameFields(p, q);
    SectionsEqual(p, q);
    OtherSectionsEqual(p, q);
    SectionFields(p, q);
    ExecutionFields(p, q);
  }
}
