/** Recording, reviewing and judging a story's local evidence, as functions on the stored files
    (record_local_execution, record_local_review, validate_local_evidence). */
module EvidenceModel {
  import opened Common
  import opened Evidence
  import Strings

  // ---------------------------------------------------------------- stored files

  /** The answer of a git command that succeeded. */
  type GitText = s: string | s != "" witness "HEAD"

  /** resolve_repository_identity: it raises unless HEAD, base and merge base are found; there is no
      branch when HEAD is detached. */
  datatype Identity = Identity(headSha: GitText, baseSha: GitText, mergeBaseSha: GitText, branch: Option<GitText>,
                               baseRef: GitText)

  /** A check's output file in the review bundle and whether it shows a pass. */
  datatype CheckOutput = CheckOutput(text: string, passed: bool)

  datatype Decision = Decision(headSha: Yaml, manifestChecksum: string, recordChecksum: Yaml, reviewer: string,
                               decision: string, timestamp: string, notes: Yaml)

  /** `identity` is None when git cannot resolve it; `bundleIntact` stands for the checks of the review
      bundle that are not about identity. */
  datatype World = World(manifest: Option<string>, identity: Option<Identity>, bundleIntact: bool,
                         pytest: Option<CheckOutput>, ruff: Option<CheckOutput>, storyId: Yaml,
                         record: Option<Mapping>, decision: Option<Decision>)

  const READY := "ready_for_review"
  const ACCEPTED_DECISIONS: set<string> := {"pending", READY, "request_changes"}
  const ACCEPTABLE_CLEANLINESS: set<string> := {"clean", "normalization_noise_only", "clean_with_generated_artifacts"}

  function ManifestData(tools: Tools, w: World): Mapping {
    if w.manifest.Some? then tools.parse(w.manifest.value) else map[]
  }

  function ManifestRepository(tools: Tools, w: World): Mapping {
    Section(ManifestData(tools, w), "repository")
  }

  function ManifestHead(tools: Tools, w: World): Yaml {
    Get(ManifestRepository(tools, w), "head_sha")
  }

  function GitHead(w: World): Option<GitText> {
    if w.identity.Some? then Some(w.identity.value.headSha) else None
  }

  /** identity_to_manifest, as far as it is read: the repository section of a manifest built at this identity. */
  function RepositoryFor(id: Identity): Mapping {
    map["branch" := OptionalText(id.branch), "head_sha" := Str(id.headSha), "requested_base_ref" := Str(id.baseRef),
        "base_sha" := Str(id.baseSha), "merge_base_sha" := Str(id.mergeBaseSha)]
  }

  /** validate_review_bundle: the manifest is about the current branch, HEAD, base and merge base. */
  predicate BundleValid(tools: Tools, w: World) {
    var data, repository := ManifestData(tools, w), ManifestRepository(tools, w);
    && w.manifest.Some? && "repository" in data && "committed_diff" in data && w.bundleIntact && w.identity.Some?
    && var id := w.identity.value;
    && Get(repository, "head_sha") == Str(id.headSha) && Get(repository, "base_sha") == Str(id.baseSha)
    && Get(repository, "merge_base_sha") == Str(id.mergeBaseSha) && Get(repository, "branch") == OptionalText(id.branch)
  }

  // ---------------------------------------------------------------- role coverage

  datatype Coverage = Coverage(valid: seq<string>, errors: nat, evidence: Mapping)

  function PathTexts(committed: Mapping): seq<Yaml> {
    var paths := Get(committed, "paths", List([]));
    if paths.List? then paths.items else []
  }

  predicate IsDocPath(y: Yaml) {
    y.Str? && (Strings.Contains(y.text, "/docs/") || (|y.text| >= 3 && y.text[|y.text| - 3..] == ".md"))
  }

  predicate IsResearchPath(y: Yaml, lower: string -> string) {
    y.Str? && Strings.Contains(lower(y.text), "research")
  }

  function Select(items: seq<Yaml>, keep: Yaml -> bool): seq<Yaml> {
    if items == [] then []
    else if keep(items[0]) then [items[0]] + Select(items[1..], keep)
    else Select(items[1..], keep)
  }

  function DocPaths(committed: Mapping): seq<Yaml> {
    Select(PathTexts(committed), IsDocPath)
  }

  function ResearchPaths(committed: Mapping, lower: string -> string): seq<Yaml> {
    Select(PathTexts(committed), y => IsResearchPath(y, lower))
  }

  function Artifact(path: Yaml): Yaml {
    Map(map["path" := path, "checksum" := Str("")])
  }

  /** `[{"path": p, "checksum": ""} for p in paths]` */
  function ArtifactsOf(paths: seq<Yaml>): seq<Yaml> {
    seq(|paths|, i requires 0 <= i < |paths| => Artifact(paths[i]))
  }

  /** One requested role: the evidence entry it contributes, or None when it is not covered. */
  function RoleEntry(tools: Tools, w: World, role: string, lower: string -> string): Option<Mapping> {
    var committed := Section(ManifestData(tools, w), "committed_diff");
    if role == "developer" then
      if Get(committed, "commit_count", Num(0)) == Num(0) || Falsy(Get(committed, "patch_checksum")) then None
      else Some(map["committed_patch_checksum" := Get(committed, "patch_checksum"),
                    "changed_paths" := Get(committed, "paths", List([]))])
    else if role == "test" then
      if w.pytest.None? || !w.pytest.value.passed then None
      else Some(map["pytest_evidence_checksum" := Str(tools.hashText(w.pytest.value.text))])
    else if role == "docs" then
      var docs := DocPaths(committed);
      if docs == [] then None else Some(map["paths" := List(docs), "checksums" := Map(map[])])
    else if role == "research" then
      var found := ResearchPaths(committed, lower);
      if found == [] then None else Some(map["artifacts" := List(ArtifactsOf(found))])
    else None
  }

  /** _validate_role_coverage over the first `n` requested roles */
  function Cover(tools: Tools, w: World, roles: seq<string>, n: nat, lower: string -> string): Coverage
    requires n <= |roles|
  {
    if n == 0 then Coverage([], 0, map[])
    else
      var c, role := Cover(tools, w, roles, n - 1, lower), roles[n - 1];
      match RoleEntry(tools, w, role, lower)
      case None => c.(errors := c.errors + 1)
      case Some(entry) => c.(valid := c.valid + [role], evidence := c.evidence[role := Map(entry)])
  }

  // ---------------------------------------------------------------- recording

  /** A recording request, defaults for executor and roles filled in; `sorted` sorts role names and
      `attestation` is the checksum of a validated attestation. */
  datatype RecordRequest = RecordRequest(slug: string, executionType: string, executor: string, roles: seq<string>,
                                         attestation: Option<string>, dryRun: bool, force: bool, now: string,
                                         sorted: seq<string> -> seq<string>, lower: string -> string)

  datatype RecordError =
    | BadExecutionType | UnsafeExecutor | InvalidBundle | UnacceptableCleanliness | PytestNotPassing | RuffNotPassing
    | RoleNotCovered | BoundElsewhere | DifferentInputs

  function BuildPayload(tools: Tools, w: World, r: RecordRequest): Payload
    requires w.manifest.Some?
  {
    var data, repository := ManifestData(tools, w), ManifestRepository(tools, w);
    var coverage := Cover(tools, w, r.roles, |r.roles|, r.lower);
    Payload(r.slug, w.storyId, Get(repository, "branch"), Get(repository, "head_sha"),
            Get(repository, "requested_base_ref"), Get(repository, "base_sha"), Get(repository, "merge_base_sha"),
            tools.hashText(w.manifest.value), Get(Section(data, "committed_diff"), "patch_checksum", Str("")),
            if w.pytest.Some? then tools.hashText(w.pytest.value.text) else "",
            if w.ruff.Some? then tools.hashText(w.ruff.value.text) else "",
            Get(Section(data, "working_tree"), "classification"), Get(Section(data, "host"), "status", Str("not_checked")),
            r.executionType, r.executor, r.sorted(coverage.valid), coverage.evidence, r.attestation)
  }

  /** No "..", "~", backslash or NUL. */
  predicate SafeName(name: string) {
    !Strings.Contains(name, "..") && '~' !in name && '\\' !in name && '\0' !in name
  }

  /** The refusals that do not depend on an existing record, in the order they are made. */
  function RecordRefusal(tools: Tools, w: World, r: RecordRequest): Option<RecordError> {
    if r.executionType !in {"manual", "agentless"} then Some(BadExecutionType)
    else if !SafeName(r.executor) then Some(UnsafeExecutor)
    else if !BundleValid(tools, w) then Some(InvalidBundle)
    else
      var cleanliness := Get(Section(ManifestData(tools, w), "working_tree"), "classification", Str(""));
      if !cleanliness.Str? || cleanliness.text !in ACCEPTABLE_CLEANLINESS then Some(UnacceptableCleanliness)
      else if w.pytest.None? || !w.pytest.value.passed then Some(PytestNotPassing)
      else if w.ruff.None? || !w.ruff.value.passed then Some(RuffNotPassing)
      else if Cover(tools, w, r.roles, |r.roles|, r.lower).errors > 0 then Some(RoleNotCovered)
      else None
  }

  /** record_local_execution: the new files, and the record or the refusal. */
  function Record(tools: Tools, w: World, r: RecordRequest): (World, Result<Mapping, RecordError>) {
    if RecordRefusal(tools, w, r).Some? then (w, Err(RecordRefusal(tools, w, r).value))
    else
      var payload := BuildPayload(tools, w, r);
      var same := w.record.Some? && StoredChecksum(w.record.value) == Str(tools.hashMapping(PayloadMapping(payload)));
      if w.record.Some? && !same && !r.force then
        var elsewhere := || Get(Section(w.record.value, "repository"), "head_sha") != ManifestHead(tools, w)
                         || Get(Section(w.record.value, "review_evidence"), "manifest_checksum") != Str(payload.manifestChecksum);
        (w, Err(if elsewhere then BoundElsewhere else DifferentInputs))
      else
        var executedAt := if same then Get(Section(w.record.value, "execution"), "executed_at", Str(r.now)) else Str(r.now);
        var record := RecordFor(tools, payload, executedAt);
        (if r.dryRun then w else w.(record := Some(record)), Ok(record))
  }

  // ---------------------------------------------------------------- reviewing

  datatype ReviewRequest = ReviewRequest(reviewer: string, decision: string, notes: Yaml, force: bool, dryRun: bool,
                                         now: string)

  datatype ReviewError =
    | BadDecision | ReviewBundleInvalid | NoRecord | NoRecordChecksum | HeadMismatch | ManifestMismatch | DecisionExists

  function ReviewRefusal(tools: Tools, w: World, r: ReviewRequest): Option<ReviewError> {
    if r.decision !in ACCEPTED_DECISIONS then Some(BadDecision)
    else if !BundleValid(tools, w) then Some(ReviewBundleInvalid)
    else if w.record.None? then Some(NoRecord)
    else if Falsy(StoredChecksum(w.record.value)) then Some(NoRecordChecksum)
    else if Get(Section(w.record.value, "repository"), "head_sha") != ManifestHead(tools, w) then Some(HeadMismatch)
    else if Get(Section(w.record.value, "review_evidence"), "manifest_checksum") != Str(tools.hashText(w.manifest.value))
    then Some(ManifestMismatch)
    else None
  }

  /** record_local_review: keeps an equal decision, refuses to replace another one unforced. */
  function Review(tools: Tools, w: World, r: ReviewRequest): (World, Result<Decision, ReviewError>) {
    if ReviewRefusal(tools, w, r).Some? then (w, Err(ReviewRefusal(tools, w, r).value))
    else
      var checksum := StoredChecksum(w.record.value);
      if w.decision.Some? && !r.force then
        if w.decision.value.recordChecksum == checksum && w.decision.value.decision == r.decision
        then (w, Ok(w.decision.value)) else (w, Err(DecisionExists))
      else
        var d := Decision(OrEmpty(ManifestHead(tools, w)), tools.hashText(w.manifest.value), checksum, r.reviewer,
                          r.decision, r.now, r.notes);
        (if r.dryRun then w else w.(decision := Some(d)), Ok(d))
  }

  // ---------------------------------------------------------------- judging

  datatype Reason =
    | RecordMissing | ChecksumMissing | ChecksumMismatch | BundleFailed | ManifestChanged | HeadChanged | BaseChanged
    | MergeBaseChanged | CleanlinessChanged | ParityChanged | DeveloperEvidenceMissing | TestEvidenceMissing
    | DocsEvidenceMissing | ResearchEvidenceMissing | DecisionForOtherRecord | DecisionForOtherHead
    | DecisionForOtherManifest | DecisionPending

  datatype Assessment = Assessment(recordValid: bool, decisionValid: bool, decision: string, ready: bool,
                                   reasons: seq<Reason>)

  function Listed(condition: bool, reason: Reason): seq<Reason> {
    if condition then [reason] else []
  }

  function Claims(record: Mapping, role: string): bool {
    var roles := Get(Section(record, "execution"), "roles_covered", List([]));
    roles.List? && Str(role) in roles.items
  }

  function RoleClaim(record: Mapping, role: string): Mapping {
    Section(Section(Section(record, "execution"), "role_evidence"), role)
  }

  /** The bindings and role checks of a record whose bundle is valid. */
  function BindingReasons(tools: Tools, w: World, record: Mapping): seq<Reason>
    requires w.manifest.Some?
  {
    var review, repository := Section(record, "review_evidence"), Section(record, "repository");
    var current, data := ManifestRepository(tools, w), ManifestData(tools, w);
    var hostStatus := Get(Section(data, "host"), "status");
    Listed(Get(review, "manifest_checksum") != Str(tools.hashText(w.manifest.value)), ManifestChanged)
    + Listed(Get(repository, "head_sha") != Get(current, "head_sha"), HeadChanged)
    + Listed(Get(repository, "base_sha") != Get(current, "base_sha"), BaseChanged)
    + Listed(Get(repository, "merge_base_sha") != Get(current, "merge_base_sha"), MergeBaseChanged)
    + Listed(Get(review, "cleanliness") != Get(Section(data, "working_tree"), "classification"), CleanlinessChanged)
    + Listed(Get(review, "parity_status") != hostStatus && hostStatus != Null, ParityChanged)
    + Listed(Claims(record, "developer") && Falsy(Get(RoleClaim(record, "developer"), "committed_patch_checksum")),
             DeveloperEvidenceMissing)
    + Listed(Claims(record, "test") && Falsy(Get(RoleClaim(record, "test"), "pytest_evidence_checksum")),
             TestEvidenceMissing)
    + Listed(Claims(record, "docs") && Falsy(Get(RoleClaim(record, "docs"), "paths"))
             && Falsy(Get(RoleClaim(record, "docs"), "checksums")), DocsEvidenceMissing)
    + Listed(Claims(record, "research") && Falsy(Get(RoleClaim(record, "research"), "artifacts")),
             ResearchEvidenceMissing)
  }

  /** Why a stored decision does not apply to the current record, HEAD and manifest. */
  function DecisionReasons(tools: Tools, w: World, d: Decision, checksum: Yaml): seq<Reason>
    requires w.manifest.Some?
  {
    if d.recordChecksum != checksum then [DecisionForOtherRecord]
    else if d.headSha != ManifestHead(tools, w) then [DecisionForOtherHead]
    else if d.manifestChecksum != tools.hashText(w.manifest.value) then [DecisionForOtherManifest]
    else []
  }

  /** validate_local_evidence */
  function Assess(tools: Tools, w: World): Assessment {
    if w.record.None? then Assessment(false, false, "pending", false, [RecordMissing])
    else
      var record, checksum := w.record.value, StoredChecksum(w.record.value);
      if Falsy(checksum) then Assessment(false, false, "pending", false, [ChecksumMissing])
      else
        var reasons := Listed(Str(ComputeRecordChecksum(tools, record)) != checksum, ChecksumMismatch);
        if !BundleValid(tools, w) then Assessment(false, false, "pending", false, reasons + [BundleFailed])
        else
          var reasons := reasons + BindingReasons(tools, w, record);
          var recordValid := reasons == [];
          match w.decision
          case None =>
            Assessment(recordValid, false, "pending", false, reasons + Listed(recordValid, DecisionPending))
          case Some(d) =>
            var unmet := DecisionReasons(tools, w, d, checksum);
            Assessment(recordValid, unmet == [], d.decision, recordValid && unmet == [] && d.decision == READY,
                       reasons + unmet + Listed(recordValid && unmet != [] && d.decision == "pending", DecisionPending))
  }

  // ---------------------------------------------------------------- what the judgement depends on

  lemma SameBundle(tools: Tools, v: World, w: World)
    requires v.manifest == w.manifest && v.identity == w.identity && v.bundleIntact == w.bundleIntact
    ensures BundleValid(tools, v) == BundleValid(tools, w)
  {
    assert ManifestData(tools, v) == ManifestData(tools, w);
    assert ManifestRepository(tools, v) == ManifestRepository(tools, w);
    hide ManifestData, ManifestRepository, Get;
  }

  lemma SameBindings(tools: Tools, v: World, w: World, record: Mapping)
    requires v.manifest == w.manifest && w.manifest.Some?
    ensures BindingReasons(tools, v, record) == BindingReasons(tools, w, record)
  {
    assert ManifestData(tools, v) == ManifestData(tools, w);
    assert ManifestRepository(tools, v) == ManifestRepository(tools, w);
    hide ManifestData, ManifestRepository, Get, Section, Claims, RoleClaim, Listed, Falsy;
  }

  lemma SameDecision(tools: Tools, v: World, w: World, d: Decision, checksum: Yaml)
    requires v.manifest == w.manifest && w.manifest.Some?
    ensures DecisionReasons(tools, v, d, checksum) == DecisionReasons(tools, w, d, checksum)
  {
    assert ManifestHead(tools, v) == ManifestHead(tools, w);
    hide ManifestHead;
  }

  /** A successful recording leaves a record of the payload built from the files it read. */
  lemma RecordedFresh(tools: Tools, w: World, r: RecordRequest) returns (t: Yaml)
    requires Record(tools, w, r).1.Ok? && !r.dryRun
    ensures RecordRefusal(tools, w, r).None? && BundleValid(tools, w)
    ensures Record(tools, w, r).0 == w.(record := Some(RecordFor(tools, BuildPayload(tools, w, r), t)))
  {
    hide RecordFor, BuildPayload, StoredChecksum, PayloadMapping, Cover;
    var p := BuildPayload(tools, w, r);
    var same := w.record.Some? && StoredChecksum(w.record.value) == Str(tools.hashMapping(PayloadMapping(p)));
    t := if same then Get(Section(w.record.value, "execution"), "executed_at", Str(r.now)) else Str(r.now);
  }
}
