/** Safety of readiness over all interleavings of recording, reviewing and outside changes. */
module Readiness {
  import opened Common
  import opened Evidence
  import opened EvidenceModel
  import opened EvidenceGates
  import opened RecordFile
  import FreshRecord

  predicate Ready(tools: Tools, w: World) {
    Assess(tools, w).ready
  }

  // ---------------------------------------------------------------- histories

  datatype Event =
    | Recorded(record: RecordRequest)
    | Reviewed(review: ReviewRequest)
    | BundleRebuilt(manifest: Option<string>, intact: bool, pytest: Option<CheckOutput>, ruff: Option<CheckOutput>)
    | IdentityMoved(identity: Option<Identity>)
    | StatusEdited(storyId: Yaml)

  function Apply(tools: Tools, w: World, e: Event): World {
    match e
    case Recorded(r) => Record(tools, w, r).0
    case Reviewed(r) => Review(tools, w, r).0
    case BundleRebuilt(manifest, intact, pytest, ruff) =>
      w.(manifest := manifest, bundleIntact := intact, pytest := pytest, ruff := ruff)
    case IdentityMoved(identity) => w.(identity := identity)
    case StatusEdited(storyId) => w.(storyId := storyId)
  }

  function After(tools: Tools, w: World, events: seq<Event>, n: nat): World
    requires n <= |events|
  {
    if n == 0 then w else Apply(tools, After(tools, w, events, n - 1), events[n - 1])
  }

  /** The record on disk was written for payload `p`. */
  ghost predicate RecordOf(tools: Tools, w: World, p: Payload) {
    w.record.Some? && exists t :: w.record.value == RecordFor(tools, p, t)
  }

  ghost predicate RecordWritten(tools: Tools, w: World) {
    w.record.Some? ==> exists p :: RecordOf(tools, w, p)
  }

  /** At `v` the event is a review that is accepted and writes the decision `d`, which binds what is on
      disk there. */
  ghost predicate ReviewTakenAt(tools: Tools, v: World, e: Event, d: Decision) {
    && e.Reviewed? && !e.review.dryRun && (v.decision.None? || e.review.force)
    && Review(tools, v, e.review) == (v.(decision := Some(d)), Ok(d))
    && d.decision == e.review.decision && v.manifest.Some? && v.record.Some?
    && d.headSha == OrEmpty(ManifestHead(tools, v)) && d.manifestChecksum == tools.hashText(v.manifest.value)
    && d.recordChecksum == StoredChecksum(v.record.value)
  }

  /** The decision `d` was taken at event `k` and has been on disk ever since, up to event `n`. */
  ghost predicate TakenAndKept(tools: Tools, w: World, events: seq<Event>, k: nat, n: nat, d: Decision)
    requires k < n <= |events|
  {
    && ReviewTakenAt(tools, After(tools, w, events, k), events[k], d)
    && forall j | k < j <= n :: After(tools, w, events, j).decision == Some(d)
  }

  /** The stored decision was taken at one of the first `n` events and not replaced since. */
  ghost predicate DecisionTaken(tools: Tools, w: World, events: seq<Event>, n: nat)
    requires n <= |events|
  {
    var end := After(tools, w, events, n);
    end.decision.Some? ==> exists k: nat :: k < n && TakenAndKept(tools, w, events, k, n, end.decision.value)
  }

  /** At `v` the event is a recording that meets every demand and writes `record`. */
  ghost predicate RecordingTakenAt(tools: Tools, v: World, e: Event, record: Mapping) {
    && e.Recorded? && !e.record.dryRun && Recordable(tools, v, e.record)
    && Record(tools, v, e.record) == (v.(record := Some(record)), Ok(record))
  }

  /** The record was written at event `k` and has been on disk ever since, up to event `n`. */
  ghost predicate WrittenAndKept(tools: Tools, w: World, events: seq<Event>, k: nat, n: nat, record: Mapping)
    requires k < n <= |events|
  {
    && RecordingTakenAt(tools, After(tools, w, events, k), events[k], record)
    && forall j | k < j <= n :: After(tools, w, events, j).record == Some(record)
  }

  /** The stored record was written at one of the first `n` events and not replaced since. */
  ghost predicate RecordTaken(tools: Tools, w: World, events: seq<Event>, n: nat)
    requires n <= |events|
  {
    var end := After(tools, w, events, n);
    end.record.Some? ==> exists k: nat :: k < n && WrittenAndKept(tools, w, events, k, n, end.record.value)
  }

  lemma RecordingTaken(tools: Tools, w: World, r: RecordRequest)
    requires Record(tools, w, r).0.record != w.record
    ensures Record(tools, w, r).0.record.Some?
    ensures RecordingTakenAt(tools, w, Recorded(r), Record(tools, w, r).0.record.value)
  {
    hide Record, Recordable, SameInputs;
    RecordSucceedsExactly(tools, w, r);
  }

  /** When recording changes the record file, it writes the record of the payload built there. */
  lemma RecordWrites(tools: Tools, w: World, r: RecordRequest)
    requires Record(tools, w, r).0.record != w.record
    ensures w.manifest.Some? && RecordOf(tools, Record(tools, w, r).0, BuildPayload(tools, w, r))
  {
    hide RecordFor, StoredChecksum, BuildPayload, PayloadMapping, Cover;
  }

  lemma RecordStep(tools: Tools, w: World, e: Event)
    requires RecordWritten(tools, w)
    ensures RecordWritten(tools, Apply(tools, w, e))
  {
    hide RecordFor, StoredChecksum, Record, BuildPayload, Review;
    var next := Apply(tools, w, e);
    match e
    case Recorded(r) =>
      if next.record != w.record {
        RecordWrites(tools, w, r);
        assert RecordOf(tools, next, BuildPayload(tools, w, r));
      } else {
        SameRecord(tools, w, next);
      }
    case Reviewed(r) =>
      ReviewKeepsRest(tools, w, r);
      SameRecord(tools, w, next);
    case BundleRebuilt(_, _, _, _) => SameRecord(tools, w, next);
    case IdentityMoved(_) => SameRecord(tools, w, next);
    case StatusEdited(_) => SameRecord(tools, w, next);
  }

  lemma SameRecord(tools: Tools, v: World, w: World)
    requires RecordWritten(tools, v) && v.record == w.record
    ensures RecordWritten(tools, w)
  {
    if w.record.Some? {
      var p :| RecordOf(tools, v, p);
      assert RecordOf(tools, w, p);
    }
  }

  lemma ReviewKeepsRest(tools: Tools, w: World, r: ReviewRequest)
    ensures Review(tools, w, r).0 == w.(decision := Review(tools, w, r).0.decision)
    ensures Review(tools, w, r).0.decision != w.decision ==>
            Review(tools, w, r).0.decision.Some?
            && ReviewTakenAt(tools, w, Reviewed(r), Review(tools, w, r).0.decision.value)
  {
    hide StoredChecksum, OrEmpty;
  }

  lemma RecordKeepsDecision(tools: Tools, w: World, r: RecordRequest)
    ensures Record(tools, w, r).0 == w.(record := Record(tools, w, r).0.record)
  {
    hide StoredChecksum, RecordRefusal, RecordFor, BuildPayload, PayloadMapping;
  }

  lemma {:induction false} HistoryFacts(tools: Tools, w: World, events: seq<Event>, n: nat)
    requires n <= |events| && w.record.None? && w.decision.None?
    ensures RecordWritten(tools, After(tools, w, events, n))
    ensures DecisionTaken(tools, w, events, n)
  {
    hide Record, Review, RecordWritten, ReviewTakenAt;
    if n == 0 {
      assert RecordWritten(tools, w) by { NothingRecorded(tools, w); }
    } else {
      var before, e := After(tools, w, events, n - 1), events[n - 1];
      var end := Apply(tools, before, e);
      HistoryFacts(tools, w, events, n - 1);
      RecordStep(tools, before, e);
      if e.Reviewed? { ReviewKeepsRest(tools, before, e.review); }
      if e.Recorded? { RecordKeepsDecision(tools, before, e.record); }
      if end.decision == before.decision && end.decision.Some? {
        var k: nat :| k < n - 1 && TakenAndKept(tools, w, events, k, n - 1, before.decision.value);
        assert TakenAndKept(tools, w, events, k, n, end.decision.value);
      } else if end.decision.Some? {
        assert TakenAndKept(tools, w, events, n - 1, n, end.decision.value);
      }
    }
  }

  lemma NothingRecorded(tools: Tools, w: World)
    requires w.record.None?
    ensures RecordWritten(tools, w)
  {
  }

  /** Over every history the stored record was written by a recording that met every demand. */
  lemma {:induction false} RecordsWereTaken(tools: Tools, w: World, events: seq<Event>, n: nat)
    requires n <= |events| && w.record.None?
    ensures RecordTaken(tools, w, events, n)
  {
    hide Record, Review, RecordingTakenAt;
    if n > 0 {
      var before, e := After(tools, w, events, n - 1), events[n - 1];
      var end := Apply(tools, before, e);
      RecordsWereTaken(tools, w, events, n - 1);
      if e.Reviewed? { ReviewKeepsRest(tools, before, e.review); }
      if end.record == before.record && end.record.Some? {
        var k: nat :| k < n - 1 && WrittenAndKept(tools, w, events, k, n - 1, before.record.value);
        assert WrittenAndKept(tools, w, events, k, n, end.record.value);
      } else if end.record.Some? {
        RecordingTaken(tools, before, e.record);
        assert WrittenAndKept(tools, w, events, n - 1, n, end.record.value);
      }
    }
  }

  // ---------------------------------------------------------------- what readiness implies

  /** What a ready assessment says of the files as they are. */
  lemma {:induction false} ReadyMeans(tools: Tools, w: World)
    requires Ready(tools, w)
    ensures w.record.Some? && w.decision.Some? && w.manifest.Some? && BundleValid(tools, w)
    ensures var d := w.decision.value;
            && d.decision == READY && d.recordChecksum == StoredChecksum(w.record.value)
            && w.identity.Some? && d.headSha == ManifestHead(tools, w) == Str(w.identity.value.headSha)
            && d.manifestChecksum == tools.hashText(w.manifest.value)
    ensures Str(ComputeRecordChecksum(tools, w.record.value)) == StoredChecksum(w.record.value)
  {
    hide BindingReasons, StoredChecksum, ComputeRecordChecksum;
  }

  /** Both states hold records of payload `p`, the same manifest and the same git HEAD. */
  ghost predicate SameEvidence(tools: Tools, v: World, w: World, p: Payload) {
    RecordOf(tools, v, p) && RecordOf(tools, w, p) && v.manifest == w.manifest
    && ManifestHead(tools, v) == ManifestHead(tools, w) && GitHead(v).Some? && GitHead(v) == GitHead(w)
  }

  lemma SamePayload(tools: Tools, v: World, w: World) returns (p: Payload)
    requires Sound(tools) && RecordWritten(tools, v) && RecordWritten(tools, w) && v.record.Some? && w.record.Some?
    requires StoredChecksum(v.record.value) == StoredChecksum(w.record.value)
    ensures RecordOf(tools, v, p) && RecordOf(tools, w, p)
  {
    p :| RecordOf(tools, v, p);
    var q :| RecordOf(tools, w, q);
    var s :| v.record.value == RecordFor(tools, p, s);
    var t :| w.record.value == RecordFor(tools, q, t);
    StoredChecksumIs(p, tools.hashMapping(PayloadMapping(p)), s);
    StoredChecksumIs(q, tools.hashMapping(PayloadMapping(q)), t);
    hide StoredChecksum;
    assert PayloadMapping(p) == PayloadMapping(q);
    MappingDeterminesPayload(p, q);
    assert w.record.value == RecordFor(tools, p, t);
  }

  lemma TakenHead(tools: Tools, v: World, e: Event, w: World)
    requires w.decision.Some? && w.manifest.Some? && v.manifest.Some? && Sound(tools)
    requires ReviewTakenAt(tools, v, e, w.decision.value)
    requires w.decision.value.manifestChecksum == tools.hashText(w.manifest.value)
    requires w.identity.Some? && ManifestHead(tools, w) == Str(w.identity.value.headSha)
    ensures v.manifest == w.manifest && ManifestHead(tools, v) == ManifestHead(tools, w)
    ensures GitHead(v).Some? && GitHead(v) == GitHead(w)
  {
    hide StoredChecksum, OrEmpty;
  }

  lemma TakenThenSame(tools: Tools, v: World, e: Event, w: World) returns (p: Payload)
    requires Sound(tools) && Ready(tools, w) && RecordWritten(tools, v) && RecordWritten(tools, w)
    requires w.decision.Some? && ReviewTakenAt(tools, v, e, w.decision.value)
    ensures SameEvidence(tools, v, w, p) && e.Reviewed? && e.review.decision == READY
  {
    ReadyMeans(tools, w);
    hide Assess, RecordWritten, RecordOf, StoredChecksum, OrEmpty;
    TakenHead(tools, v, e, w);
    hide Sound, ManifestHead, BundleValid;
    p := SamePayload(tools, v, w);
  }

  /** The stored decision is `ready_for_review`; it was taken by an accepted review, never replaced
      since, and the evidence that review saw is the evidence after the last event. */
  ghost predicate WasReviewedAsIs(tools: Tools, w: World, events: seq<Event>) {
    var n, end := |events|, After(tools, w, events, |events|);
    && end.decision.Some? && end.decision.value.decision == READY
    && exists k: nat, p :: k < n && TakenAndKept(tools, w, events, k, n, end.decision.value)
                           && SameEvidence(tools, After(tools, w, events, k), end, p)
  }

  /** Over every history that starts without record and decision: if the story is ready, then its
      decision was written by an accepted `ready_for_review` review, no later event touched it, and when
      it was taken the manifest, the record's payload and the HEAD were exactly what they are now. */
  lemma {:induction false} ReadinessWasReviewed(tools: Tools, w: World, events: seq<Event>)
    requires Sound(tools) && w.record.None? && w.decision.None?
    requires Ready(tools, After(tools, w, events, |events|))
    ensures WasReviewedAsIs(tools, w, events)
  {
    hide Apply, Assess, Sound, RecordWritten, SameEvidence, ReviewTakenAt;
    var n, end := |events|, After(tools, w, events, |events|);
    HistoryFacts(tools, w, events, n);
    ReadyMeans(tools, end);
    var k: nat :| k < n && TakenAndKept(tools, w, events, k, n, end.decision.value);
    HistoryFacts(tools, w, events, k);
    var p := TakenThenSame(tools, After(tools, w, events, k), events[k], end);
  }

  /** The stored record was written, at the manifest and HEAD that hold now, when pytest and ruff had
      passed, the working tree was clean and every requested role was covered; it was never replaced since. */
  ghost predicate WasRecordedAsIs(tools: Tools, w: World, events: seq<Event>, k: nat)
    requires k < |events|
  {
    var v, end := After(tools, w, events, k), After(tools, w, events, |events|);
    && end.record.Some? && WrittenAndKept(tools, w, events, k, |events|, end.record.value)
    && v.pytest.Some? && v.pytest.value.passed && v.ruff.Some? && v.ruff.value.passed
    && Recordable(tools, v, events[k].record)
    && v.manifest == end.manifest && GitHead(v).Some? && GitHead(v) == GitHead(end)
  }

  /** Over every history that starts without a record: if the story is ready, then its record was written
      by a recording made when both checks had passed at the very manifest and HEAD that hold now. */
  lemma {:induction false} ReadinessWasRecorded(tools: Tools, w: World, events: seq<Event>)
    requires Sound(tools) && w.record.None? && Ready(tools, After(tools, w, events, |events|))
    ensures exists k: nat :: k < |events| && WasRecordedAsIs(tools, w, events, k)
  {
    hide Apply, Assess, Sound, RecordingTakenAt, Recordable;
    var n, end := |events|, After(tools, w, events, |events|);
    RecordsWereTaken(tools, w, events, n);
    ReadyMeans(tools, end);
    var k: nat :| k < n && WrittenAndKept(tools, w, events, k, n, end.record.value);
    TakenAtSameEvidence(tools, After(tools, w, events, k), events[k], end);
    assert WasRecordedAsIs(tools, w, events, k);
  }

  lemma TakenAtSameEvidence(tools: Tools, v: World, e: Event, end: World)
    requires Sound(tools) && Ready(tools, end) && end.record.Some? && RecordingTakenAt(tools, v, e, end.record.value)
    ensures v.pytest.Some? && v.pytest.value.passed && v.ruff.Some? && v.ruff.value.passed
    ensures Recordable(tools, v, e.record)
    ensures v.manifest == end.manifest && GitHead(v).Some? && GitHead(v) == GitHead(end)
  {
    hide Record, Assess, BundleValid, CleanTree, PlainName, Covered, ExecutionHolds, ProvenanceHolds, ComputeRecordChecksum,
         StoredChecksum, FreshRecord.RoleEvidenceHolds, BindingReasons, Get, Section, SameInputs, ManifestHead, BundleMatches;
    RecordFileHolds(tools, v, e.record);
    ReadyMeans(tools, end);
    ReadyBinds(tools, end);
    BundleHasManifest(tools, v);
    MatchedHead(tools, v);
    assert tools.hashText(v.manifest.value) == tools.hashText(end.manifest.value);
  }

  lemma MatchedHead(tools: Tools, v: World)
    requires BundleMatches(tools, v)
    ensures v.identity.Some?
  {
  }

  lemma ReadyBinds(tools: Tools, w: World)
    requires Ready(tools, w)
    ensures w.record.Some? && w.manifest.Some?
    ensures Get(Section(w.record.value, "review_evidence"), "manifest_checksum") == Str(tools.hashText(w.manifest.value))
    ensures Get(Section(w.record.value, "repository"), "head_sha") == ManifestHead(tools, w)
  {
    hide StoredChecksum, ComputeRecordChecksum, Get, Section, DecisionReasons, BundleValid, ManifestRepository,
         BindingReasons, FreshRecord.RoleEvidenceHolds;
    ReadyMeans(tools, w);
    FreshRecord.NoReasonsExactly(tools, w, w.record.value);
  }

  // ---------------------------------------------------------------- readiness is reached

  /** What a valid record says of the files. */
  lemma ValidMeans(tools: Tools, w: World)
    requires Assess(tools, w).recordValid
    ensures w.record.Some? && w.manifest.Some? && BundleValid(tools, w) && !Falsy(StoredChecksum(w.record.value))
    ensures Str(ComputeRecordChecksum(tools, w.record.value)) == StoredChecksum(w.record.value)
    ensures BindingReasons(tools, w, w.record.value) == []
  {
    hide BindingReasons, StoredChecksum, ComputeRecordChecksum, DecisionReasons, ManifestRepository, ManifestData, Get;
  }

  lemma ValidIsReviewable(tools: Tools, w: World, r: ReviewRequest)
    requires Assess(tools, w).recordValid && r.decision in ACCEPTED_DECISIONS
    ensures ReviewRefusal(tools, w, r).None?
  {
    ValidMeans(tools, w);
    FreshRecord.NoReasonsExactly(tools, w, w.record.value);
    hide BindingReasons, StoredChecksum, ComputeRecordChecksum, BundleValid, Assess, FreshRecord.RoleEvidenceHolds, Get, Section,
         ManifestRepository, ManifestData;
  }

  /** An accepted `ready_for_review` review of a valid record makes the story ready. */
  lemma ReviewMakesReady(tools: Tools, w: World, r: ReviewRequest)
    requires Assess(tools, w).recordValid && r.decision == READY && !r.dryRun && (w.decision.None? || r.force)
    ensures Review(tools, w, r).1.Ok? && Ready(tools, Review(tools, w, r).0)
  {
    ValidMeans(tools, w);
    ValidIsReviewable(tools, w, r);
    HeadIsText(tools, w);
    var v := Review(tools, w, r).0;
    hide ReviewRefusal, BindingReasons, StoredChecksum, ComputeRecordChecksum, BundleValid;
    assert v == w.(decision := v.decision) && v.decision.Some?;
    SameBundle(tools, v, w);
    SameBindings(tools, v, w, w.record.value);
    SameDecision(tools, v, w, v.decision.value, StoredChecksum(w.record.value));
  }

  lemma HeadIsText(tools: Tools, w: World)
    requires BundleValid(tools, w)
    ensures OrEmpty(ManifestHead(tools, w)) == ManifestHead(tools, w)
  {
  }

  /** Readiness is reached: a successful recording from a built manifest followed by a
      `ready_for_review` review, forced if there is an older decision, makes the story ready. */
  lemma {:induction false} RecordAndReviewMakeReady(tools: Tools, w: World, r: RecordRequest, review: ReviewRequest)
    requires Sound(tools) && FreshRecord.SortsNames(r) && FreshRecord.BuiltManifest(tools, w)
    requires Record(tools, w, r).1.Ok? && !r.dryRun
    requires review.decision == READY && !review.dryRun && (w.decision.None? || review.force)
    ensures var v := Record(tools, w, r).0;
            Review(tools, v, review).1.Ok? && Ready(tools, Review(tools, v, review).0)
  {
    RecordKeepsDecision(tools, w, r);
    hide Record, Review, Assess, Sound, FreshRecord.SortsNames, FreshRecord.BuiltManifest;
    FreshRecord.FreshRecordsAreValid(tools, w, r);
    ReviewMakesReady(tools, Record(tools, w, r).0, review);
  }

  // ---------------------------------------------------------------- revocation

  /** A changed manifest or HEAD revokes readiness for as long as it differs; going back to what was
      reviewed restores it. */
  lemma {:induction false} ChangeRevokes(tools: Tools, w: World, v: World)
    requires Sound(tools) && Ready(tools, w) && v.record == w.record && v.decision == w.decision
    ensures v.manifest != w.manifest || GitHead(v) != GitHead(w) ==> !Ready(tools, v)
    ensures v.manifest == w.manifest && v.identity == w.identity && v.bundleIntact == w.bundleIntact ==> Ready(tools, v)
  {
    ReadyMeans(tools, w);
    if Ready(tools, v) { ReadyMeans(tools, v); }
    if v.manifest == w.manifest && v.identity == w.identity && v.bundleIntact == w.bundleIntact {
      SameAssessment(tools, v, w);
    }
  }

  lemma SameAssessment(tools: Tools, v: World, w: World)
    requires v.manifest == w.manifest && v.identity == w.identity && v.bundleIntact == w.bundleIntact
    requires v.record == w.record && v.decision == w.decision
    ensures Assess(tools, v) == Assess(tools, w)
  {
    SameBundle(tools, v, w);
    if w.manifest.Some? && w.record.Some? {
      SameBindings(tools, v, w, w.record.value);
      if w.decision.Some? { SameDecision(tools, v, w, w.decision.value, StoredChecksum(w.record.value)); }
    }
    hide ComputeRecordChecksum, StoredChecksum, BundleValid, BindingReasons, DecisionReasons;
  }

  /** Re-recording different evidence, which only force allows, revokes readiness; re-recording the
      same evidence changes nothing on disk, executed_at included. */
  lemma {:induction false} RerecordExactly(tools: Tools, w: World, p: Payload, r: RecordRequest)
    requires Sound(tools) && Ready(tools, w) && RecordOf(tools, w, p)
    requires Record(tools, w, r).1.Ok? && !r.dryRun
    ensures w.manifest.Some? && (BuildPayload(tools, w, r) == p ==> Record(tools, w, r).0 == w)
    ensures w.manifest.Some? && (Ready(tools, Record(tools, w, r).0) <==> BuildPayload(tools, w, r) == p)
  {
    hide Assess, BuildPayload, RecordRefusal, BundleValid;
    ReadyMeans(tools, w);
    var t :| w.record.value == RecordFor(tools, p, t);
    RerecordKeeps(tools, w, p, t, r);
    var q, v := BuildPayload(tools, w, r), Record(tools, w, r).0;
    StoredChecksumIs(p, tools.hashMapping(PayloadMapping(p)), t);
    if Ready(tools, v) && q != p {
      ReadyMeans(tools, v);
      var s :| v.record.value == RecordFor(tools, q, s);
      StoredChecksumIs(q, tools.hashMapping(PayloadMapping(q)), s);
      MappingDeterminesPayload(p, q);
    }
  }

  /** Recording over the record of the same payload rewrites it unchanged. */
  lemma RerecordKeeps(tools: Tools, w: World, p: Payload, t: Yaml, r: RecordRequest)
    requires w.record == Some(RecordFor(tools, p, t)) && Record(tools, w, r).1.Ok? && !r.dryRun
    ensures w.manifest.Some? && (BuildPayload(tools, w, r) == p ==> Record(tools, w, r).0 == w)
    ensures BuildPayload(tools, w, r) != p && Sound(tools) ==>
              Record(tools, w, r).0.decision == w.decision && RecordOf(tools, Record(tools, w, r).0, BuildPayload(tools, w, r))
  {
    hide BuildPayload, RecordMapping, PayloadMapping, StoredChecksum, Cover;
    StoredChecksumIs(p, tools.hashMapping(PayloadMapping(p)), t);
    ExecutedAtIs(p, tools.hashMapping(PayloadMapping(p)), t, Str(r.now));
  }

  lemma ExecutedAtIs(p: Payload, checksum: string, t: Yaml, default: Yaml)
    ensures Get(Section(RecordMapping(p, checksum, t), "execution"), "executed_at", default) == t
  {
    hide Flattened, StorySection, RepositorySection, ReviewSection, ProvenanceSection, ExecutionSection;
  }

  /** Recording twice with the same evidence, at whatever time and with or without force, keeps the
      first record as it is. */
  lemma {:induction false} RecordingIsIdempotent(tools: Tools, w: World, first: RecordRequest, again: RecordRequest)
    requires Record(tools, w, first).1.Ok? && !first.dryRun
    requires again == first.(force := again.force, now := again.now)
    ensures var v := Record(tools, w, first).0;
            Record(tools, v, again) == (v, Ok(v.record.GetOr(map[])))
  {
    var v := Record(tools, w, first).0;
    var t := RecordedFresh(tools, w, first);
    SamePayloadBuilt(tools, w, v, first, again);
    hide BuildPayload, RecordMapping, PayloadMapping, StoredChecksum, RecordRefusal;
    var p := BuildPayload(tools, w, first);
    StoredChecksumIs(p, tools.hashMapping(PayloadMapping(p)), t);
    ExecutedAtIs(p, tools.hashMapping(PayloadMapping(p)), t, Str(again.now));
  }

  lemma {:induction false} SameCoverage(tools: Tools, w: World, v: World, roles: seq<string>, n: nat,
                                        lower: string -> string)
    requires v == w.(record := v.record) && n <= |roles|
    ensures Cover(tools, v, roles, n, lower) == Cover(tools, w, roles, n, lower)
  {
    if n > 0 {
      SameCoverage(tools, w, v, roles, n - 1, lower);
      assert ManifestData(tools, v) == ManifestData(tools, w);
      assert RoleEntry(tools, v, roles[n - 1], lower) == RoleEntry(tools, w, roles[n - 1], lower);
    }
  }

  lemma SamePayloadBuilt(tools: Tools, w: World, v: World, r: RecordRequest, s: RecordRequest)
    requires v == w.(record := v.record) && s == r.(force := s.force, now := s.now)
    ensures RecordRefusal(tools, v, s) == RecordRefusal(tools, w, r)
    ensures w.manifest.Some? ==> BuildPayload(tools, v, s) == BuildPayload(tools, w, r)
  {
    SameCoverage(tools, w, v, r.roles, |r.roles|, r.lower);
    hide Cover;
    assert ManifestData(tools, v) == ManifestData(tools, w);
  }

  /** Without force an existing decision is never replaced: the same decision on the same record is
      returned as it stands, anything else is an error. */
  lemma {:induction false} UnforcedReviewKeepsDecision(tools: Tools, w: World, r: ReviewRequest)
    requires w.decision.Some? && !r.force
    ensures Review(tools, w, r).0 == w
    ensures Review(tools, w, r).1.Ok? <==>
            && Reviewable(tools, w, r) && w.decision.value.decision == r.decision
            && w.record.Some? && w.decision.value.recordChecksum == StoredChecksum(w.record.value)
    ensures Review(tools, w, r).1.Ok? ==> Review(tools, w, r).1.value == w.decision.value
  {
    hide BundleValid, Falsy, Reviewable, ReviewRefusal, Get, Section;
    ReviewRefusedForFirst(tools, w, r, 0);
    if Reviewable(tools, w, r) { ReviewableMeans(tools, w, r); }
  }

  /** Without force an existing record of other evidence is never replaced. */
  lemma {:induction false} UnforcedRecordKeepsRecord(tools: Tools, w: World, p: Payload, r: RecordRequest)
    requires Sound(tools) && RecordOf(tools, w, p) && !r.force
    ensures Record(tools, w, r).0 == w
    ensures Record(tools, w, r).1.Ok? <==> Recordable(tools, w, r) && BuiltFrom(tools, w, r, p)
  {
    hide Recordable, RecordMapping, PayloadMapping, StoredChecksum, BuildPayload, RecordRefusal, ManifestHead;
    NotRefusedIs(tools, w, r);
    var t :| w.record.value == RecordFor(tools, p, t);
    StoredChecksumIs(p, tools.hashMapping(PayloadMapping(p)), t);
    ExecutedAtIs(p, tools.hashMapping(PayloadMapping(p)), t, Str(r.now));
    if RecordRefusal(tools, w, r).None? {
      NeedsManifest(tools, w, r);
      var q := BuildPayload(tools, w, r);
      if PayloadMapping(p) == PayloadMapping(q) { MappingDeterminesPayload(p, q); }
    }
  }

  ghost predicate BuiltFrom(tools: Tools, w: World, r: RecordRequest, p: Payload) {
    w.manifest.Some? && BuildPayload(tools, w, r) == p
  }

  lemma NeedsManifest(tools: Tools, w: World, r: RecordRequest)
    requires RecordRefusal(tools, w, r).None?
    ensures w.manifest.Some?
  {
  }

  /** A dry run reports what the real run would and writes nothing. */
  lemma {:induction false} DryRunForetells(tools: Tools, w: World, r: RecordRequest)
    ensures Record(tools, w, r.(dryRun := true)) == (w, Record(tools, w, r.(dryRun := false)).1)
  {
    hide RecordRefusal, BuildPayload, RecordFor, StoredChecksum, PayloadMapping, ManifestHead, Get, Section;
    NotAboutDryRun(tools, w, r);
    if RecordRefusal(tools, w, r.(dryRun := false)).None? { NeedsManifest(tools, w, r.(dryRun := false)); }
  }

  lemma NotAboutDryRun(tools: Tools, w: World, r: RecordRequest)
    ensures var dry, wet := r.(dryRun := true), r.(dryRun := false);
            RecordRefusal(tools, w, dry) == RecordRefusal(tools, w, wet)
            && (w.manifest.Some? ==> BuildPayload(tools, w, dry) == BuildPayload(tools, w, wet))
  {
    hide Cover;
  }
}
