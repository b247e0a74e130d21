/** What recording and reviewing demand of the stored files, condition by condition
    (record_local_execution in src/agentic_dev/local_execution_recording.py, record_local_review in
    src/agentic_dev/local_review.py). */
module EvidenceGates {
  import opened Common
  import opened Evidence
  import opened EvidenceModel
  import opened Strings

  // ---------------------------------------------------------------- the conditions

  /** The manifest names the commit, bases and branch that git resolves, and the bundle is whole. */
  ghost predicate BundleMatches(tools: Tools, w: World) {
    && w.manifest.Some? && w.identity.Some? && w.bundleIntact
    && var data, id := tools.parse(w.manifest.value), w.identity.value;
    && "repository" in data && "committed_diff" in data
    && var repository := Section(data, "repository");
    && Get(repository, "head_sha") == Str(id.headSha) && Get(repository, "base_sha") == Str(id.baseSha)
    && Get(repository, "merge_base_sha") == Str(id.mergeBaseSha)
    && Get(repository, "branch") == (if id.branch.Some? then Str(id.branch.value) else Null)
  }

  /** The working tree is clean but for line endings or generated files. */
  ghost predicate CleanTree(tools: Tools, w: World) {
    && w.manifest.Some?
    && Get(Section(tools.parse(w.manifest.value), "working_tree"), "classification")
       in {Str("clean"), Str("normalization_noise_only"), Str("clean_with_generated_artifacts")}
  }

  /** `path` is among the paths of the committed diff. */
  ghost predicate CommittedPath(committed: Mapping, path: string) {
    "paths" in committed && committed["paths"].List? && Str(path) in committed["paths"].items
  }

  ghost predicate DocPath(path: string) {
    Embeds(path, "/docs/") || exists stem :: path == stem + ".md"
  }

  /** The bundle holds evidence for the role; a role of any other name can have none. */
  ghost predicate Covered(tools: Tools, w: World, role: string, lower: string -> string) {
    && w.manifest.Some?
    && var committed := Section(tools.parse(w.manifest.value), "committed_diff");
    || (role == "developer" && "commit_count" in committed && committed["commit_count"] != Num(0)
        && !Falsy(Get(committed, "patch_checksum")))
    || (role == "test" && w.pytest.Some? && w.pytest.value.passed)
    || (role == "docs" && exists path :: CommittedPath(committed, path) && DocPath(path))
    || (role == "research" && exists path :: CommittedPath(committed, path) && Embeds(lower(path), "research"))
  }

  ghost predicate PlainName(name: string) {
    !Embeds(name, "..") && '~' !in name && '\\' !in name && '\0' !in name
  }

  /** What recording demands, in the order in which it is checked. */
  const RECORD_GATES: seq<RecordError> :=
    [BadExecutionType, UnsafeExecutor, InvalidBundle, UnacceptableCleanliness, PytestNotPassing, RuffNotPassing, RoleNotCovered]

  ghost predicate RecordGate(tools: Tools, w: World, r: RecordRequest, e: RecordError) {
    match e
    case BadExecutionType => r.executionType == "manual" || r.executionType == "agentless"
    case UnsafeExecutor => PlainName(r.executor)
    case InvalidBundle => BundleMatches(tools, w)
    case UnacceptableCleanliness => CleanTree(tools, w)
    case PytestNotPassing => w.pytest.Some? && w.pytest.value.passed
    case RuffNotPassing => w.ruff.Some? && w.ruff.value.passed
    case RoleNotCovered => forall i | 0 <= i < |r.roles| :: Covered(tools, w, r.roles[i], r.lower)
    case _ => true
  }

  /** Every demand is met. */
  ghost predicate Recordable(tools: Tools, w: World, r: RecordRequest) {
    && (r.executionType == "manual" || r.executionType == "agentless") && PlainName(r.executor)
    && BundleMatches(tools, w) && CleanTree(tools, w)
    && w.pytest.Some? && w.pytest.value.passed && w.ruff.Some? && w.ruff.value.passed
    && forall i | 0 <= i < |r.roles| :: Covered(tools, w, r.roles[i], r.lower)
  }

  // ---------------------------------------------------------------- the conditions are those of the model

  lemma BundleIs(tools: Tools, w: World)
    ensures BundleValid(tools, w) <==> BundleMatches(tools, w)
  {
    hide Get, Section;
  }

  lemma NameIs(name: string)
    ensures SafeName(name) <==> PlainName(name)
  {
    hide Contains, Embeds;
    ContainsExactly(name, "..");
  }

  lemma TreeIs(tools: Tools, w: World)
    requires w.manifest.Some?
    ensures var cleanliness := Get(Section(ManifestData(tools, w), "working_tree"), "classification", Str(""));
            CleanTree(tools, w) <==> cleanliness.Str? && cleanliness.text in ACCEPTABLE_CLEANLINESS
  {
    hide Section;
  }

  lemma DocPathIs(path: string)
    ensures IsDocPath(Str(path)) <==> DocPath(path)
  {
    hide Contains, Embeds;
    ContainsExactly(path, "/docs/");
    if |path| >= 3 && path[|path| - 3..] == ".md" { assert path == path[..|path| - 3] + ".md"; }
    if exists stem :: path == stem + ".md" {
      var stem :| path == stem + ".md";
      assert path[|path| - 3..] == ".md";
    }
  }

  lemma {:induction false} CoveredIs(tools: Tools, w: World, role: string, lower: string -> string)
    requires w.manifest.Some?
    ensures RoleEntry(tools, w, role, lower).Some? <==> Covered(tools, w, role, lower)
  {
    hide DocPaths, ResearchPaths, Embeds, CommittedPath, DocPath, Falsy, ArtifactsOf;
    var committed := Section(ManifestData(tools, w), "committed_diff");
    DocsCovered(committed);
    ResearchCovered(committed, lower);
  }

  lemma DocsCovered(committed: Mapping)
    ensures DocPaths(committed) != [] <==> exists path :: CommittedPath(committed, path) && DocPath(path)
  {
    hide DocPaths, CommittedPath, DocPath;
    DocsChosen(committed);
    var chosen := DocPaths(committed);
    if chosen != [] { assert chosen[0] in chosen; }
    if path :| CommittedPath(committed, path) && DocPath(path) { assert Str(path) in chosen; }
  }

  lemma ResearchCovered(committed: Mapping, lower: string -> string)
    ensures ResearchPaths(committed, lower) != [] <==>
            exists path :: CommittedPath(committed, path) && Embeds(lower(path), "research")
  {
    hide ResearchPaths, CommittedPath, Embeds;
    ResearchPathsAre(committed, lower);
    var chosen := ResearchPaths(committed, lower);
    if chosen != [] { assert chosen[0] in chosen; }
    if path :| CommittedPath(committed, path) && Embeds(lower(path), "research") { assert Str(path) in chosen; }
  }

  /** Coverage has no error exactly when every role is covered, and then lists them all in order. */
  lemma {:induction false} CoverIs(tools: Tools, w: World, roles: seq<string>, n: nat, lower: string -> string)
    requires w.manifest.Some? && n <= |roles|
    ensures var c := Cover(tools, w, roles, n, lower);
            && (c.errors == 0 <==> forall i | 0 <= i < n :: Covered(tools, w, roles[i], lower))
            && (c.errors == 0 ==> c.valid == roles[..n])
  {
    hide RoleEntry, Covered;
    if n > 0 {
      CoverIs(tools, w, roles, n - 1, lower);
      CoveredIs(tools, w, roles[n - 1], lower);
    }
  }

  // ---------------------------------------------------------------- recording

  /** The refusals that do not depend on an existing record: the first demand that is not met, in the
      listed order, is the one reported. */
  lemma {:induction false} RefusedForFirst(tools: Tools, w: World, r: RecordRequest, k: nat)
    requires k < |RECORD_GATES|
    ensures RecordRefusal(tools, w, r) == Some(RECORD_GATES[k]) <==>
            && !RecordGate(tools, w, r, RECORD_GATES[k])
            && forall j | 0 <= j < k :: RecordGate(tools, w, r, RECORD_GATES[j])
    ensures RecordRefusal(tools, w, r).None? <==> Recordable(tools, w, r)
  {
    hide BundleValid, BundleMatches, SafeName, PlainName, CleanTree, Cover, Covered;
    BundleIs(tools, w);
    NameIs(r.executor);
    if w.manifest.Some? {
      TreeIs(tools, w);
      CoverIs(tools, w, r.roles, |r.roles|, r.lower);
    }
    BundleHasManifest(tools, w);
    assert RECORD_GATES[0] == BadExecutionType && RECORD_GATES[1] == UnsafeExecutor && RECORD_GATES[2] == InvalidBundle;
    assert RECORD_GATES[3] == UnacceptableCleanliness && RECORD_GATES[4] == PytestNotPassing;
    assert RECORD_GATES[5] == RuffNotPassing && RECORD_GATES[6] == RoleNotCovered;
  }

  lemma NotRefusedIs(tools: Tools, w: World, r: RecordRequest)
    ensures RecordRefusal(tools, w, r).None? <==> Recordable(tools, w, r)
  {
    hide RecordRefusal, Recordable, RecordGate;
    RefusedForFirst(tools, w, r, 0);
  }

  lemma BundleHasManifest(tools: Tools, w: World)
    ensures BundleMatches(tools, w) || CleanTree(tools, w) ==> w.manifest.Some?
  {
  }

  /** The record on disk was made from the same evidence as a recording now would be. */
  ghost predicate SameInputs(tools: Tools, w: World, r: RecordRequest) {
    && w.record.Some? && w.manifest.Some?
    && Get(Section(w.record.value, "integrity"), "record_checksum")
       == Str(tools.hashMapping(PayloadMapping(BuildPayload(tools, w, r))))
  }

  /** Recording succeeds exactly when every demand is met and it is the first one, or repeats the same
      evidence, or is forced. Over other evidence it fails, and the error tells whether the record is bound
      to another HEAD or manifest. */
  lemma {:induction false} RecordSucceedsExactly(tools: Tools, w: World, r: RecordRequest)
    ensures Record(tools, w, r).1.Ok? <==>
            Recordable(tools, w, r) && (w.record.None? || r.force || SameInputs(tools, w, r))
    ensures Recordable(tools, w, r) && w.record.Some? && !r.force && !SameInputs(tools, w, r) ==>
              && w.identity.Some? && w.manifest.Some?
              && var record := w.record.value;
              Record(tools, w, r).1 ==
              if Get(Section(record, "repository"), "head_sha") == Str(w.identity.value.headSha)
                 && Get(Section(record, "review_evidence"), "manifest_checksum") == Str(tools.hashText(w.manifest.value))
              then Err(DifferentInputs) else Err(BoundElsewhere)
    ensures Record(tools, w, r).1.Err? || r.dryRun ==> Record(tools, w, r).0 == w
    ensures Record(tools, w, r).1.Ok? && !r.dryRun ==>
              Record(tools, w, r).0 == w.(record := Some(Record(tools, w, r).1.value))
  {
    hide BundleValid, SafeName, PlainName, CleanTree, Cover, Covered, RecordRefusal, RecordMapping, PayloadMapping, Get, Section,
         RecordGate;
    RefusedForFirst(tools, w, r, 0);
    if Recordable(tools, w, r) { PayloadBinds(tools, w, r); }
  }

  /** The HEAD and manifest checksum an accepted recording is bound to. */
  lemma PayloadBinds(tools: Tools, w: World, r: RecordRequest)
    requires BundleMatches(tools, w)
    ensures ManifestHead(tools, w) == Str(w.identity.value.headSha)
    ensures BuildPayload(tools, w, r).manifestChecksum == tools.hashText(w.manifest.value)
  {
    hide Cover;
  }

  // ---------------------------------------------------------------- reviewing

  const REVIEW_GATES: seq<ReviewError> :=
    [BadDecision, ReviewBundleInvalid, NoRecord, NoRecordChecksum, HeadMismatch, ManifestMismatch]

  /** The record on disk names the commit that is checked out. */
  ghost predicate BoundToHead(w: World) {
    && w.record.Some? && w.identity.Some?
    && Get(Section(w.record.value, "repository"), "head_sha") == Str(w.identity.value.headSha)
  }

  /** The record on disk names the manifest on disk. */
  ghost predicate BoundToManifest(tools: Tools, w: World) {
    && w.record.Some? && w.manifest.Some?
    && Get(Section(w.record.value, "review_evidence"), "manifest_checksum") == Str(tools.hashText(w.manifest.value))
  }

  ghost predicate ReviewGate(tools: Tools, w: World, r: ReviewRequest, e: ReviewError) {
    match e
    case BadDecision => r.decision == "pending" || r.decision == "ready_for_review" || r.decision == "request_changes"
    case ReviewBundleInvalid => BundleMatches(tools, w)
    case NoRecord => w.record.Some?
    case NoRecordChecksum => w.record.Some? && !Falsy(Get(Section(w.record.value, "integrity"), "record_checksum"))
    case HeadMismatch => BoundToHead(w)
    case ManifestMismatch => BoundToManifest(tools, w)
    case DecisionExists => true
  }

  /** Every demand on a review is met: the decision is a known one, and the record is bound to this very
      HEAD and manifest. */
  ghost predicate Reviewable(tools: Tools, w: World, r: ReviewRequest) {
    forall k | 0 <= k < |REVIEW_GATES| :: ReviewGate(tools, w, r, REVIEW_GATES[k])
  }

  lemma {:induction false} ReviewRefusedForFirst(tools: Tools, w: World, r: ReviewRequest, k: nat)
    requires k < |REVIEW_GATES|
    ensures ReviewRefusal(tools, w, r) == Some(REVIEW_GATES[k]) <==>
            && !ReviewGate(tools, w, r, REVIEW_GATES[k])
            && forall j | 0 <= j < k :: ReviewGate(tools, w, r, REVIEW_GATES[j])
    ensures ReviewRefusal(tools, w, r).None? <==> Reviewable(tools, w, r)
  {
    hide BundleValid, Falsy, Get, Section;
    BundleIs(tools, w);
    HeadIs(tools, w);
    assert REVIEW_GATES[0] == BadDecision && REVIEW_GATES[1] == ReviewBundleInvalid && REVIEW_GATES[2] == NoRecord;
    assert REVIEW_GATES[3] == NoRecordChecksum && REVIEW_GATES[4] == HeadMismatch && REVIEW_GATES[5] == ManifestMismatch;
  }

  lemma HeadIs(tools: Tools, w: World)
    ensures BundleMatches(tools, w) ==>
              ManifestHead(tools, w) == Str(w.identity.value.headSha) && OrEmpty(ManifestHead(tools, w)) == ManifestHead(tools, w)
  {
  }

  /** A review succeeds exactly when every demand is met and it is the first one, or is forced, or repeats
      the stored decision on this record; unless it repeats, it writes a decision on exactly what is on disk. */
  lemma {:induction false} ReviewSucceedsExactly(tools: Tools, w: World, r: ReviewRequest)
    ensures Review(tools, w, r).1.Ok? <==>
            && Reviewable(tools, w, r)
            && (w.decision.None? || r.force || RepeatsDecision(w, r))
    ensures Review(tools, w, r).1.Ok? && !(w.decision.Some? && !r.force) ==>
              && w.identity.Some? && w.manifest.Some? && w.record.Some?
              && Review(tools, w, r).1.value ==
                 Decision(Str(w.identity.value.headSha), tools.hashText(w.manifest.value),
                          Get(Section(w.record.value, "integrity"), "record_checksum"), r.reviewer, r.decision, r.now, r.notes)
              && Review(tools, w, r).0 == if r.dryRun then w else w.(decision := Some(Review(tools, w, r).1.value))
    ensures Review(tools, w, r).1.Err? || (w.decision.Some? && !r.force) ==> Review(tools, w, r).0 == w
    ensures Reviewable(tools, w, r) && Review(tools, w, r).1.Err? ==> Review(tools, w, r).1 == Err(DecisionExists)
  {
    hide BundleValid, Falsy, Get, Section, ReviewRefusal, OrEmpty, ManifestHead, Reviewable;
    ReviewRefusedForFirst(tools, w, r, 0);
    HeadIs(tools, w);
    if Reviewable(tools, w, r) { ReviewableMeans(tools, w, r); }
  }

  /** The stored decision is the same one, on this record. */
  ghost predicate RepeatsDecision(w: World, r: ReviewRequest) {
    && w.decision.Some? && w.record.Some? && w.decision.value.decision == r.decision
    && w.decision.value.recordChecksum == Get(Section(w.record.value, "integrity"), "record_checksum")
  }

  lemma ReviewableMeans(tools: Tools, w: World, r: ReviewRequest)
    requires Reviewable(tools, w, r)
    ensures BundleMatches(tools, w) && w.record.Some? && BoundToHead(w) && BoundToManifest(tools, w)
  {
    hide BundleMatches, BoundToHead, BoundToManifest;
    assert REVIEW_GATES[1] == ReviewBundleInvalid && REVIEW_GATES[2] == NoRecord;
    assert REVIEW_GATES[4] == HeadMismatch && REVIEW_GATES[5] == ManifestMismatch;
  }

  // ---------------------------------------------------------------- the record file

  /** The evidence entry of a covered role. */
  ghost predicate EntryFor(tools: Tools, w: World, role: string, lower: string -> string, entry: Mapping)
    requires w.manifest.Some?
  {
    var committed := Section(tools.parse(w.manifest.value), "committed_diff");
    && (role == "developer" ==>
          entry == map["committed_patch_checksum" := Get(committed, "patch_checksum"),
                       "changed_paths" := Get(committed, "paths", List([]))])
    && (role == "test" ==> w.pytest.Some? && entry == map["pytest_evidence_checksum" := Str(tools.hashText(w.pytest.value.text))])
    && (role == "docs" ==>
          && Get(entry, "paths").List? && entry == map["paths" := Get(entry, "paths"), "checksums" := Map(map[])]
          && forall y :: y in Get(entry, "paths").items <==> y.Str? && CommittedPath(committed, y.text) && DocPath(y.text))
    && (role == "research" ==>
          && Get(entry, "artifacts").List? && entry == map["artifacts" := Get(entry, "artifacts")]
          && forall y :: y in Get(entry, "artifacts").items <==>
               && Get(MapOf(y), "path").Str? && y == Map(map["path" := Get(MapOf(y), "path"), "checksum" := Str("")])
               && CommittedPath(committed, Get(MapOf(y), "path").text)
               && Embeds(lower(Get(MapOf(y), "path").text), "research"))
  }

  function MapOf(y: Yaml): Mapping {
    if y.Map? then y.entries else map[]
  }

  lemma {:induction false} EntryIs(tools: Tools, w: World, role: string, lower: string -> string)
    requires w.manifest.Some? && RoleEntry(tools, w, role, lower).Some?
    ensures EntryFor(tools, w, role, lower, RoleEntry(tools, w, role, lower).value)
  {
    hide DocPaths, ResearchPaths, Embeds, CommittedPath, DocPath, Falsy, ArtifactsOf;
    var committed := Section(ManifestData(tools, w), "committed_diff");
    DocsChosen(committed);
    ResearchChosen(committed, lower);
  }

  lemma {:induction false} Selected(items: seq<Yaml>, keep: Yaml -> bool)
    ensures forall y :: y in Select(items, keep) <==> y in items && keep(y)
  {
    if items != [] {
      Selected(items[1..], keep);
      assert items == [items[0]] + items[1..];
    }
  }

  lemma DocsChosen(committed: Mapping)
    ensures forall y :: y in DocPaths(committed) <==> y.Str? && CommittedPath(committed, y.text) && DocPath(y.text)
  {
    hide Select, Contains, Embeds, DocPath;
    forall y: Yaml | y.Str? ensures IsDocPath(y) <==> DocPath(y.text) { DocPathIs(y.text); }
    Selected(PathTexts(committed), IsDocPath);
  }

  lemma ArtifactsAre(paths: seq<Yaml>)
    ensures forall y :: y in ArtifactsOf(paths) <==> y == Artifact(Get(MapOf(y), "path")) && Get(MapOf(y), "path") in paths
  {
    forall path ensures Get(MapOf(Artifact(path)), "path") == path {}
    hide Artifact, Get;
    forall path | path in paths ensures Artifact(path) in ArtifactsOf(paths) {
      var i :| 0 <= i < |paths| && paths[i] == path;
      assert ArtifactsOf(paths)[i] == Artifact(path);
    }
  }

  /** The artifacts are those of the committed paths that mention research. */
  lemma ResearchChosen(committed: Mapping, lower: string -> string)
    ensures forall y :: y in ArtifactsOf(ResearchPaths(committed, lower)) <==>
              && Get(MapOf(y), "path").Str? && y == Artifact(Get(MapOf(y), "path"))
              && CommittedPath(committed, Get(MapOf(y), "path").text)
              && Embeds(lower(Get(MapOf(y), "path").text), "research")
  {
    hide Select, Contains, Embeds, Artifact, ArtifactsOf, Get, MapOf;
    ArtifactsAre(ResearchPaths(committed, lower));
    ResearchPathsAre(committed, lower);
  }

  lemma ResearchPathsAre(committed: Mapping, lower: string -> string)
    ensures forall y :: y in ResearchPaths(committed, lower) <==>
              y.Str? && CommittedPath(committed, y.text) && Embeds(lower(y.text), "research")
  {
    hide Select, Contains, Embeds;
    forall y: Yaml | y.Str? ensures IsResearchPath(y, lower) <==> Embeds(lower(y.text), "research") {
      ContainsExactly(lower(y.text), "research");
    }
    Selected(PathTexts(committed), y => IsResearchPath(y, lower));
  }

  /** Selecting goes from left to right: one more item at the end is kept last or not at all. */
  lemma {:induction false} SelectionKeepsOrder(items: seq<Yaml>, last: Yaml, keep: Yaml -> bool)
    ensures Select(items + [last], keep) == if keep(last) then Select(items, keep) + [last] else Select(items, keep)
  {
    if items == [] {
      assert items + [last] == [last] && [last][1..] == [];
    } else {
      SelectionKeepsOrder(items[1..], last, keep);
      assert (items + [last])[1..] == items[1..] + [last];
    }
  }
}
