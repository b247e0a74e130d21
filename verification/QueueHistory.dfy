/** What every sequence of create, set-status and promote keeps. */
module QueueHistory {
  import opened Common
  import opened FreshNames
  import opened StoryNumbers
  import opened QueueModel
  import opened QueueNumbering
  import opened Numerals
  import opened StoryNames
  import Strings

  // ---------------------------------------------------------------- the invariant

  /** The decision history starts at pending, each entry starts where the last ended, and it ends at
      the current status. */
  ghost predicate ChainOfDecisions(item: Item) {
    var h := item.history;
    && (if h == [] then item.status == PendingItem else h[0].from == PendingItem && h[|h| - 1].to == item.status)
    && forall i | 0 < i < |h| :: h[i].from == h[i - 1].to
  }

  ghost predicate Filed(s: Slot, item: Item) {
    item.id == s.id && item.status == s.status && Prefix(s.queueType) + "-" <= s.id && ChainOfDecisions(item)
  }

  /** Each file lies where its own fields say, and each id has exactly one file. */
  ghost predicate FilesInv(files: Files) {
    && (forall s | s in files :: Filed(s, files[s]))
    && (forall s, t | s in files && t in files && s.id == t.id :: s == t)
  }

  /** A promoted item names a story that is in the blueprint; different items name different stories. */
  ghost predicate PromotionsInv(p: Project) {
    && (forall s | s in p.files && p.files[s].promotion.Some? ::
          p.blueprint.Some? && HasId(p.blueprint.value, p.files[s].promotion.value.storyId))
    && (forall s, t | s in p.files && t in p.files && s != t && p.files[s].promotion.Some? && p.files[t].promotion.Some? ::
          p.files[s].promotion.value.storyId != p.files[t].promotion.value.storyId)
  }

  ghost predicate Inv(p: Project) {
    FilesInv(p.files) && PromotionsInv(p)
  }

  lemma PrefixesDiffer(t: QueueType, u: QueueType, id: string)
    requires Prefix(t) + "-" <= id && Prefix(u) + "-" <= id
    ensures t == u
  {
    assert (Prefix(t) + "-")[0] == id[0] == (Prefix(u) + "-")[0];
  }

  lemma LocateFinds(files: Files, filter: Option<QueueType>, s: Slot)
    requires FilesInv(files) && s in files && (filter.Some? ==> s.queueType == filter.value)
    ensures Locate(files, filter, s.id) == Some(s)
  {
    SearchSlotsAreAll(filter, s.id, s);
  }

  lemma FreshIdIsPrefixed(t: QueueType, stamp: string, k: nat)
    ensures Prefix(t) + "-" <= Candidate(ItemIdScheme(Prefix(t), stamp), k)
  {
    assert Prefix(t) + "-" + stamp <= Candidate(ItemIdScheme(Prefix(t), stamp), k);
    assert Prefix(t) + "-" <= Prefix(t) + "-" + stamp;
  }

  lemma CreateKeeps(p: Project, t: QueueType, title: string, details: string, stamp: string)
    requires Inv(p)
    ensures var (q, id) := Create(p, t, title, details, stamp);
            Inv(q) && (forall s | s in p.files :: s.id != id && s in q.files && q.files[s] == p.files[s])
  {
    hide Candidate, ItemIdScheme, FilesInv, PromotionsInv, Prefix, Filed;
    var scheme, id := ItemIdScheme(Prefix(t), stamp), Create(p, t, title, details, stamp).1;
    FreshIdIsPrefixed(t, stamp, FirstFree(scheme, UsedIds(p.files, t)));
    NoOtherHasId(p.files, t, id);
    NewItemIsFiled(t, id, title, details);
    AddedFile(p.files, Slot(t, PendingItem, id), Item(id, title, details, PendingItem, "", [], None));
    AddedItem(p, Slot(t, PendingItem, id), Item(id, title, details, PendingItem, "", [], None));
  }

  lemma NoOtherHasId(files: Files, t: QueueType, id: string)
    requires FilesInv(files) && Prefix(t) + "-" <= id && id !in UsedIds(files, t)
    ensures forall s | s in files :: s.id != id
  {
    hide Prefix, ChainOfDecisions;
    forall s | s in files ensures s.id != id {
      if s.id == id { PrefixesDiffer(s.queueType, t, id); }
    }
  }

  lemma NewItemIsFiled(t: QueueType, id: string, title: string, details: string)
    requires Prefix(t) + "-" <= id
    ensures Filed(Slot(t, PendingItem, id), Item(id, title, details, PendingItem, "", [], None))
  {
    hide Prefix;
  }

  lemma AddedFile(files: Files, slot: Slot, item: Item)
    requires FilesInv(files) && Filed(slot, item) && forall s | s in files :: s.id != slot.id
    ensures FilesInv(files[slot := item])
  {
    hide Filed;
  }

  lemma AddedItem(p: Project, slot: Slot, item: Item)
    requires PromotionsInv(p) && item.promotion.None? && slot !in p.files
    ensures PromotionsInv(p.(files := p.files[slot := item]))
  {
    hide HasId;
  }

  /** What a creation leaves: one more file, pending, with the given title and details, no history and no
      promotion, under its queue's prefix and time stamp with the first counter that makes it unused. */
  lemma {:induction false} CreateResult(p: Project, t: QueueType, title: string, details: string, stamp: string)
    ensures var (q, id) := Create(p, t, title, details, stamp);
            var prefix := match t case Improvement => "IMP" case Maintenance => "MAINT" case Feature => "FEATURE";
            && FreshItemId(prefix, stamp, set s | s in p.files && s.queueType == t :: s.id, id)
            && q == p.(files := p.files[Slot(t, PendingItem, id) := Item(id, title, details, PendingItem, "", [], None)])
            && Slot(t, PendingItem, id) !in p.files
  {
    hide FreshItemId;
    ItemIdIsFresh(Prefix(t), stamp, UsedIds(p.files, t));
    var id := Create(p, t, title, details, stamp).1;
    assert id !in UsedIds(p.files, t);
  }

  lemma MovedKeepsChain(item: Item, to: Status, at: string, note: string)
    requires ChainOfDecisions(item)
    ensures ChainOfDecisions(Moved(item, item.status, to, at, note))
  {
  }

  lemma SetItemIsSound(item: Item, source: Slot, status: Status, at: string, note: string)
    requires Filed(source, item)
    ensures var moved := Moved(item, source.status, status, at, note).(decisionNote := note);
            moved.id == source.id && ChainOfDecisions(moved)
  {
    MovedKeepsChain(item, status, at, note);
  }

  /** Storing an item under its own id and status always succeeds and keeps every file in place. */
  lemma StoreKeeps(files: Files, source: Slot, item: Item)
    requires FilesInv(files) && source in files && item.id == source.id && ChainOfDecisions(item)
    ensures var destination := Slot(source.queueType, item.status, item.id);
            && Store(files, source, destination, item).Ok?
            && FilesInv(Store(files, source, destination, item).value)
  {
  }

  lemma SetStatusKeeps(p: Project, filter: Option<QueueType>, id: string, status: Status, note: string, at: string)
    requires Inv(p)
    ensures Inv(SetStatus(p, filter, id, status, note, at).0)
    ensures SetStatus(p, filter, id, status, note, at).1.Ok? <==> Locate(p.files, filter, id).Some?
  {
    hide Locate, Filed, ChainOfDecisions;
    match Locate(p.files, filter, id)
    case None =>
    case Some(source) =>
      var item := Moved(p.files[source], source.status, status, at, note).(decisionNote := note);
      assert item.id == source.id && ChainOfDecisions(item) by { SetItemIsSound(p.files[source], source, status, at, note); }
      StoreKeeps(p.files, source, item);
      SamePromotions(p, source, item);
  }

  lemma SamePromotions(p: Project, source: Slot, item: Item)
    requires Inv(p) && source in p.files && item.promotion == p.files[source].promotion
    ensures PromotionsInv(p.(files := (p.files - {source})[Slot(source.queueType, item.status, item.id) := item]))
  {
  }

  /** The slot is one that the id, and the queue type if one is given, ask for. */
  predicate Asked(filter: Option<QueueType>, id: string, s: Slot) {
    s.id == id && (filter.Some? ==> s.queueType == filter.value)
  }

  /** The slot is the one the request is about. */
  predicate Addressed(r: Request, s: Slot) {
    Asked(r.filter, r.id, s)
  }

  /** Exactly one way of moving the item is asked for, or none; the blueprint lists stories; and the item is
      on file, not promoted yet, and approved, or pending with pending items allowed. */
  ghost predicate Promotable(p: Project, r: Request) {
    && !(r.closeAfter && r.parkAfter) && p.blueprint.Some?
    && exists s :: && s in p.files && Addressed(r, s) && p.files[s].promotion.None?
                   && (s.status == Approved || (s.status == PendingItem && r.allowPending))
  }

  /** A promotion succeeds exactly when the item may be promoted, and otherwise changes nothing. */
  lemma {:induction false} PromoteSucceedsExactly(p: Project, r: Request)
    requires Inv(p)
    ensures Promote(p, r).1.Ok? <==> Promotable(p, r)
    ensures Promote(p, r).1.Err? ==> Promote(p, r).0 == p
  {
    hide Named, Promote, ChainOfDecisions, PromotionsInv, Locate, Prefix;
    PromoteUnlessRefused(p, r);
    if s :| s in p.files && Addressed(r, s) { LocateFinds(p.files, r.filter, s); }
    LocateAddressed(p, r);
  }

  lemma LocateAsked(files: Files, filter: Option<QueueType>, id: string)
    ensures var l := Locate(files, filter, id);
            if l.Some? then l.value in files && Asked(filter, id, l.value) else forall s | s in files :: !Asked(filter, id, s)
  {
    hide SearchSlots;
    forall s | s in files && Asked(filter, id, s) { SearchSlotsAreAll(filter, id, s); }
  }

  lemma LocateAddressed(p: Project, r: Request)
    ensures var l := Locate(p.files, r.filter, r.id);
            if l.Some? then l.value in p.files && Addressed(r, l.value) else forall s | s in p.files :: !Addressed(r, s)
  {
    hide Locate;
    LocateAsked(p.files, r.filter, r.id);
  }

  /** When the promotion fails with each error. Names that are taken and files in the way never stop it. */
  ghost predicate RefusedWith(p: Project, r: Request, e: Error) {
    match e
    case BothMoves => r.closeAfter && r.parkAfter
    case NotFound => !(r.closeAfter && r.parkAfter) && forall s | s in p.files :: !Addressed(r, s)
    case NeedsAllowPending =>
      && !(r.closeAfter && r.parkAfter) && !r.allowPending
      && exists s :: s in p.files && Addressed(r, s) && s.status == PendingItem
    case NeedsApproval =>
      && !(r.closeAfter && r.parkAfter)
      && exists s :: s in p.files && Addressed(r, s) && s.status != PendingItem && s.status != Approved
    case AlreadyPromoted =>
      && !(r.closeAfter && r.parkAfter)
      && exists s :: && s in p.files && Addressed(r, s) && p.files[s].promotion.Some?
                     && (s.status == Approved || (s.status == PendingItem && r.allowPending))
    case MalformedBlueprint =>
      && !(r.closeAfter && r.parkAfter) && p.blueprint.None?
      && exists s :: && s in p.files && Addressed(r, s) && p.files[s].promotion.None?
                     && (s.status == Approved || (s.status == PendingItem && r.allowPending))
    case _ => false
  }

  lemma {:induction false} PromotionRefusedExactly(p: Project, r: Request, e: Error)
    requires Inv(p)
    ensures Promote(p, r).1 == Err(e) <==> RefusedWith(p, r, e)
  {
    hide Named, Promote, Inv, Locate, RefusedWith, Refusal;
    PromoteUnlessRefused(p, r);
    if s :| s in p.files && Addressed(r, s) {
      OnlyAddressed(p, r, s);
      RefusalOfItem(p, r, e, s);
    } else {
      LocateAddressed(p, r);
      RefusalWithoutItem(p, r, e);
    }
  }

  lemma OnlyAddressed(p: Project, r: Request, s: Slot)
    requires Inv(p) && s in p.files && Addressed(r, s)
    ensures Locate(p.files, r.filter, r.id) == Some(s) && forall t | t in p.files && Addressed(r, t) :: t == s
  {
    hide Filed, PromotionsInv, Locate;
    LocateFinds(p.files, r.filter, s);
  }

  lemma RefusalOfItem(p: Project, r: Request, e: Error, s: Slot)
    requires s in p.files && Addressed(r, s) && Locate(p.files, r.filter, r.id) == Some(s)
    requires forall t | t in p.files && Addressed(r, t) :: t == s
    ensures Refusal(p, r) == Some(e) <==> RefusedWith(p, r, e)
  {
    hide Locate;
  }

  lemma RefusalWithoutItem(p: Project, r: Request, e: Error)
    requires (forall s | s in p.files :: !Addressed(r, s)) && Locate(p.files, r.filter, r.id).None?
    ensures Refusal(p, r) == Some(e) <==> RefusedWith(p, r, e)
  {
    hide Locate;
  }

  /** A promotion succeeds when none of its first checks refuses it, and otherwise fails with that refusal. */
  lemma {:induction false} PromoteUnlessRefused(p: Project, r: Request)
    requires Inv(p)
    ensures Promote(p, r).1.Ok? <==> Refusal(p, r).None?
    ensures Promote(p, r).1.Err? ==> Refusal(p, r) == Some(Promote(p, r).1.error) && Promote(p, r).0 == p
  {
    hide Named;
    if Refusal(p, r).None? {
      NamesAreFresh(p, r);
      var source := Locate(p.files, r.filter, r.id).value;
      PromotedItemChain(p.files[source], source, r, Named(p, r));
      StoreKeeps(p.files, source, PromotedItem(p.files[source], source, r, Named(p, r)));
    }
  }

  lemma PromotedItemChain(item: Item, source: Slot, r: Request, name: (string, string))
    requires Filed(source, item) && (source.status == Approved || source.status == PendingItem)
    ensures var q := PromotedItem(item, source, r, name);
            && ChainOfDecisions(q) && q.id == item.id && q.promotion == Some(Promotion(name.0, name.1, r.at))
            && q.status == (if r.closeAfter then Closed else if r.parkAfter then Parked else source.status)
  {
    var note := "Promoted to " + name.0 + " (" + name.1 + ").";
    var marked := item.(promotion := Some(Promotion(name.0, name.1, r.at)));
    if r.closeAfter { MovedKeepsChain(marked, Closed, r.at, note); }
    else if r.parkAfter { MovedKeepsChain(marked, Parked, r.at, note); }
  }

  lemma PromoteKeeps(p: Project, r: Request)
    requires Inv(p)
    ensures Inv(Promote(p, r).0)
  {
    hide Named;
    PromoteUnlessRefused(p, r);
    if Refusal(p, r).None? {
      var name, source := Named(p, r), Locate(p.files, r.filter, r.id).value;
      var item := PromotedItem(p.files[source], source, r, name);
      NamesAreFresh(p, r);
      PromotedItemChain(p.files[source], source, r, name);
      StoreKeeps(p.files, source, item);
      PromotionAdded(p, source, item, name);
      assert Promote(p, r).0.blueprint == Some(p.blueprint.value + [Story(name.0, name.1)]);
    }
  }

  lemma PromotionAdded(p: Project, source: Slot, item: Item, name: (string, string))
    requires Inv(p) && source in p.files && p.blueprint.Some? && !HasId(p.blueprint.value, name.0)
    requires item.promotion.Some? && item.promotion.value.storyId == name.0
    ensures var files := (p.files - {source})[Slot(source.queueType, item.status, item.id) := item];
            forall folder :: PromotionsInv(Project(files, Some(p.blueprint.value + [Story(name.0, name.1)]), folder))
  {
    var stories, more := p.blueprint.value, p.blueprint.value + [Story(name.0, name.1)];
    assert more[|stories|] == Story(name.0, name.1);
    forall id | HasId(stories, id) ensures HasId(more, id) {
      var k :| 0 <= k < |stories| && stories[k].Story? && stories[k].id == id;
      assert more[k] == stories[k];
    }
    assert HasId(more, name.0);
  }

  /** What a status change leaves: the one file of the item lies in the new status folder, says so, and
      its history is longer by the entry from the old folder to the new. */
  lemma {:induction false} SetStatusResult(p: Project, filter: Option<QueueType>, source: Slot, status: Status,
                                           note: string, at: string)
    requires Inv(p) && source in p.files && (filter.Some? ==> source.queueType == filter.value)
    ensures var q := SetStatus(p, filter, source.id, status, note, at).0;
            var target := Slot(source.queueType, status, source.id);
            && target in q.files && (source in q.files <==> source == target)
            && q.files[target] == p.files[source].(status := status, decisionNote := note,
                                                   history := p.files[source].history + [Change(source.status, status, at, note)])
            && SetStatus(p, filter, source.id, status, note, at).1 == Ok(target)
  {
    LocateFinds(p.files, filter, source);
    SetStatusKeeps(p, filter, source.id, status, note, at);
    hide Locate, ChainOfDecisions;
  }

  /** A status change fails exactly when no item is asked for that is on file, and then changes nothing. */
  lemma {:induction false} SetStatusFailsExactly(p: Project, filter: Option<QueueType>, id: string, status: Status,
                                                 note: string, at: string)
    requires Inv(p)
    ensures var r := SetStatus(p, filter, id, status, note, at);
            r.1.Err? <==> r == (p, Err(NotFound))
    ensures SetStatus(p, filter, id, status, note, at).1.Err? <==> forall s | s in p.files :: !Asked(filter, id, s)
  {
    hide Locate, Inv, Store;
    SetStatusKeeps(p, filter, id, status, note, at);
    LocateAsked(p.files, filter, id);
  }

  /** Storing refuses exactly when another file is in the way; otherwise the item lies at its destination, the
      source is gone if it moved, and every other file is left alone. */
  lemma {:induction false} StoreExactly(files: Files, source: Slot, destination: Slot, item: Item)
    ensures Store(files, source, destination, item) == Err(FileExists) <==> destination != source && destination in files
    ensures var r := Store(files, source, destination, item);
            r.Ok? ==> && destination in r.value && r.value[destination] == item && (source in r.value <==> source == destination)
                      && forall s | s != source && s != destination ::
                           (s in r.value <==> s in files) && (s in files ==> r.value[s] == files[s])
  {
  }

  /** What a promotion leaves: the blueprint and the stories folder end with the new story, whose
      number is the next one, and the item's one file names that story. */
  lemma {:induction false} PromotionResult(p: Project, r: Request)
    requires Inv(p) && Promote(p, r).1.Ok?
    ensures var q, promotion := Promote(p, r).0, Promote(p, r).1.value;
            && p.blueprint.Some? && q.blueprint == Some(p.blueprint.value + [Story(promotion.storyId, promotion.storySlug)])
            && Numbers(promotion.storyId) == [NextStoryNumber(p.blueprint.value, p.folder)]
            && q.folder == p.folder + [FolderEntry(promotion.storySlug, true, Some(r.markdown))]
            && exists s :: s in q.files && s.id == r.id && q.files[s].promotion == Some(promotion)
  {
    PromotedFiles(p, r);
    var source, name := Locate(p.files, r.filter, r.id).value, Named(p, r);
    ReadStoryId(NextStoryNumber(p.blueprint.value, p.folder));
    hide Inv, Named, NextStoryNumber, Locate, Numbers, Promote, PromotedItem;
    NamedTarget(p, source, r, name);
  }

  /** Everything a promotion leaves, told from the item, the request and the next story number: the story's id,
      its slug made from the item's title (or its id), and the item's one file, moved if asked for, with the
      promotion and the move on record. */
  lemma {:induction false} PromotionTold(p: Project, r: Request, source: Slot)
    requires Inv(p) && Promote(p, r).1.Ok? && source in p.files && Addressed(r, source)
    ensures p.blueprint.Some?
    ensures var q, promotion, item := Promote(p, r).0, Promote(p, r).1.value, p.files[source];
            var stories, number := p.blueprint.value, Pad(3, NextStoryNumber(p.blueprint.value, p.folder));
            var title := if Strings.Strip(item.title) == "" then r.id else Strings.Strip(item.title);
            && promotion.storyId == "STORY-" + number && promotion.promotedAt == r.at
            && FreshSlug("story_" + number + "_" + SafeSlugText(r.lower(title)),
                         (set e | e in stories && e.Story? :: e.slug) + (set e | e in p.folder :: e.name), promotion.storySlug)
            && q.files == (p.files - {source})[FinalSlot(r, source) := FinalItem(r, source, item, promotion)]
  {
    hide Inv, Named, NextStoryNumber, Locate, Promote, PromotedItem, SafeSlugText, FreshSlug, FinalItem, Pad, Refusal,
         Strings.Strip;
    LocateSource(p, r, source);
    PromotedFiles(p, r);
    NamedTold(p, r, source);
    FinalItemIs(p, r, source);
  }

  lemma LocateSource(p: Project, r: Request, source: Slot)
    requires Inv(p) && source in p.files && Addressed(r, source)
    ensures Locate(p.files, r.filter, r.id) == Some(source)
    ensures p.files[source].id == source.id && p.files[source].status == source.status
  {
    LocateFinds(p.files, r.filter, source);
  }

  /** Where a promoted item's file ends. */
  function FinalSlot(r: Request, source: Slot): Slot {
    source.(status := if r.closeAfter then Closed else if r.parkAfter then Parked else source.status)
  }

  /** What a promoted item's file says. */
  function FinalItem(r: Request, source: Slot, item: Item, promotion: Promotion): Item {
    var to := FinalSlot(r, source).status;
    var note := "Promoted to " + promotion.storyId + " (" + promotion.storySlug + ").";
    item.(promotion := Some(promotion), status := to,
          history := item.history + if r.closeAfter || r.parkAfter then [Change(source.status, to, r.at, note)] else [])
  }

  lemma FinalItemIs(p: Project, r: Request, source: Slot)
    requires source in p.files && p.files[source].id == source.id && p.files[source].status == source.status
    requires Refusal(p, r).None? && Locate(p.files, r.filter, r.id) == Some(source)
    ensures var item := PromotedItem(p.files[source], source, r, Named(p, r));
            && item.id == source.id && item == FinalItem(r, source, p.files[source], item.promotion.value)
            && item.promotion.value == Promotion(Named(p, r).0, Named(p, r).1, r.at)
  {
    hide Locate, Named;
    assert p.files[source].history + [] == p.files[source].history;
  }

  lemma NamedTold(p: Project, r: Request, source: Slot)
    requires Refusal(p, r).None? && Locate(p.files, r.filter, r.id) == Some(source)
    ensures var item, number := p.files[source], Pad(3, NextStoryNumber(p.blueprint.value, p.folder));
            var title := if Strings.Strip(item.title) == "" then r.id else Strings.Strip(item.title);
            && Named(p, r).0 == "STORY-" + number
            && FreshSlug("story_" + number + "_" + SafeSlugText(r.lower(title)),
                         (set e | e in p.blueprint.value && e.Story? :: e.slug) + (set e | e in p.folder :: e.name),
                         Named(p, r).1)
  {
    hide NextStoryNumber, SafeSlugText, FreshSlug, Locate, Pad, Strings.Strip, FirstFree, Candidate, SlugScheme;
    var title := TitleOf(p.files[source], r.id);
    var base := SlugBase(NextStoryNumber(p.blueprint.value, p.folder), SafeSlugText(r.lower(title)));
    SlugIsFresh(base, UsedSlugs(p.blueprint.value) + FolderNames(p.folder));
  }

  lemma PromotedFiles(p: Project, r: Request)
    requires Promote(p, r).1.Ok?
    ensures Refusal(p, r).None? && Locate(p.files, r.filter, r.id).Some? && p.blueprint.Some?
    ensures var source := Locate(p.files, r.filter, r.id).value;
            var item := PromotedItem(p.files[source], source, r, Named(p, r));
            var status := if r.closeAfter then Closed else if r.parkAfter then Parked else source.status;
            && Promote(p, r).0.files == (p.files - {source})[Slot(source.queueType, status, item.id) := item]
            && Promote(p, r).1.value == item.promotion.value
            && Promote(p, r).0.blueprint == Some(p.blueprint.value + [Story(Named(p, r).0, Named(p, r).1)])
            && Promote(p, r).0.folder == p.folder + [FolderEntry(Named(p, r).1, true, Some(r.markdown))]
  {
    hide Named, Locate, PromotedItem, HasId, UsedSlugs, FolderNames;
  }

  lemma NamedTarget(p: Project, source: Slot, r: Request, name: (string, string))
    requires Inv(p) && Promote(p, r).1.Ok? && Refusal(p, r).None?
    requires source == Locate(p.files, r.filter, r.id).value && name == Named(p, r)
    ensures var item := PromotedItem(p.files[source], source, r, name);
            var target := Slot(source.queueType, item.status, item.id);
            target in Promote(p, r).0.files && Promote(p, r).0.files[target] == item && item.id == r.id
            && Promote(p, r).1.value == item.promotion.value && item.promotion.value == Promotion(name.0, name.1, r.at)
  {
    PromotedFiles(p, r);
    PromotedItemChain(p.files[source], source, r, name);
    hide Promote, Named, Locate, Inv, PromotedItem;
  }

  // ---------------------------------------------------------------- sequences of commands

  datatype Command =
    | CreateItem(queueType: QueueType, title: string, details: string, stamp: string)
    | SetItemStatus(filter: Option<QueueType>, id: string, status: Status, note: string, at: string)
    | PromoteItem(request: Request)

  function Apply(p: Project, c: Command): Project {
    match c
    case CreateItem(t, title, details, stamp) => Create(p, t, title, details, stamp).0
    case SetItemStatus(filter, id, status, note, at) => SetStatus(p, filter, id, status, note, at).0
    case PromoteItem(request) => Promote(p, request).0
  }

  function ApplyAll(p: Project, commands: seq<Command>): Project {
    if commands == [] then p
    else Apply(ApplyAll(p, commands[..|commands| - 1]), commands[|commands| - 1])
  }

  lemma ApplyKeeps(p: Project, c: Command)
    requires Inv(p)
    ensures Inv(Apply(p, c))
  {
    hide Inv;
    match c
    case CreateItem(t, title, details, stamp) => CreateKeeps(p, t, title, details, stamp);
    case SetItemStatus(filter, id, status, note, at) => SetStatusKeeps(p, filter, id, status, note, at);
    case PromoteItem(request) => PromoteKeeps(p, request);
  }

  lemma {:induction false} HistoryKeeps(p: Project, commands: seq<Command>)
    requires Inv(p)
    ensures Inv(ApplyAll(p, commands))
  {
    hide Inv, Apply;
    if commands != [] {
      HistoryKeeps(p, commands[..|commands| - 1]);
      ApplyKeeps(ApplyAll(p, commands[..|commands| - 1]), commands[|commands| - 1]);
    }
  }

  /** A new project, whatever its blueprint and stories folder: no item yet. */
  lemma EmptyQueueIsFine(p: Project)
    requires p.files == map[]
    ensures Inv(p)
  {
  }

  // ---------------------------------------------------------------- totals

  function SlotsOf(files: Files, t: QueueType): set<Slot> {
    set s | s in files && s.queueType == t
  }

  function SlotsIn(files: Files, t: QueueType, status: Status): set<Slot> {
    set s | s in files && s.queueType == t && s.status == status
  }

  lemma DisjointUnion<T>(a: set<T>, b: set<T>)
    requires a !! b
    ensures |a + b| == |a| + |b|
  {
  }

  lemma FoldersDisjoint(files: Files, t: QueueType, u: Status, v: Status)
    requires u != v
    ensures SlotsIn(files, t, u) !! SlotsIn(files, t, v)
  {
  }

  lemma FoldersCover(files: Files, t: QueueType)
    ensures SlotsOf(files, t) == SlotsIn(files, t, PendingItem) + SlotsIn(files, t, Approved) + SlotsIn(files, t, Rejected)
                                 + SlotsIn(files, t, Parked) + SlotsIn(files, t, Closed)
  {
    forall s | s in SlotsOf(files, t) ensures s in SlotsIn(files, t, s.status) {
    }
  }

  /** The total that count_queue_items adds up over the status folders is the number of items. */
  lemma TotalIsSumOverFolders(files: Files, t: QueueType)
    ensures |SlotsIn(files, t, PendingItem)| + |SlotsIn(files, t, Approved)| + |SlotsIn(files, t, Rejected)|
            + |SlotsIn(files, t, Parked)| + |SlotsIn(files, t, Closed)| == |SlotsOf(files, t)|
  {
    hide SlotsIn, SlotsOf;
    var a, b, c, d, e := SlotsIn(files, t, PendingItem), SlotsIn(files, t, Approved), SlotsIn(files, t, Rejected),
                         SlotsIn(files, t, Parked), SlotsIn(files, t, Closed);
    FoldersCover(files, t);
    forall u: Status, v: Status | u != v ensures SlotsIn(files, t, u) !! SlotsIn(files, t, v) {
      FoldersDisjoint(files, t, u, v);
    }
    DisjointUnion(a, b);
    DisjointUnion(a + b, c);
    DisjointUnion(a + b + c, d);
    DisjointUnion(a + b + c + d, e);
  }

  lemma AddedSlot(files: Files, slot: Slot, item: Item, t: QueueType)
    requires slot !in files
    ensures |SlotsOf(files[slot := item], t)| == |SlotsOf(files, t)| + (if slot.queueType == t then 1 else 0)
  {
    if slot.queueType == t {
      assert SlotsOf(files[slot := item], t) == SlotsOf(files, t) + {slot};
    } else {
      assert SlotsOf(files[slot := item], t) == SlotsOf(files, t);
    }
  }

  lemma StoreConserves(files: Files, source: Slot, destination: Slot, item: Item, t: QueueType)
    requires source in files && destination.queueType == source.queueType
    requires Store(files, source, destination, item).Ok?
    ensures |SlotsOf(Store(files, source, destination, item).value, t)| == |SlotsOf(files, t)|
  {
    hide SlotsOf;
    var rest := files - {source};
    assert rest[source := files[source]] == files;
    AddedSlot(rest, source, files[source], t);
    AddedSlot(rest, destination, item, t);
  }

  lemma CreateAddsOne(p: Project, u: QueueType, title: string, details: string, stamp: string, t: QueueType)
    requires Inv(p)
    ensures |SlotsOf(Create(p, u, title, details, stamp).0.files, t)| == |SlotsOf(p.files, t)| + (if u == t then 1 else 0)
  {
    CreateKeeps(p, u, title, details, stamp);
    var (q, id) := Create(p, u, title, details, stamp);
    assert Slot(u, PendingItem, id) !in p.files;
    hide Inv, SlotsOf;
    AddedSlot(p.files, Slot(u, PendingItem, id), q.files[Slot(u, PendingItem, id)], t);
  }

  lemma SetStatusConserves(p: Project, filter: Option<QueueType>, id: string, status: Status, note: string, at: string,
                           t: QueueType)
    ensures |SlotsOf(SetStatus(p, filter, id, status, note, at).0.files, t)| == |SlotsOf(p.files, t)|
  {
    hide Store, SlotsOf, Locate;
    if Locate(p.files, filter, id).Some? {
      var source := Locate(p.files, filter, id).value;
      var item := Moved(p.files[source], source.status, status, at, note).(decisionNote := note);
      var destination := Slot(source.queueType, status, item.id);
      if Store(p.files, source, destination, item).Ok? {
        StoreConserves(p.files, source, destination, item, t);
      }
    }
  }

  /** Only creation changes the number of items of a queue, and it adds one to its own queue. */
  lemma TotalsConserved(p: Project, c: Command, t: QueueType)
    requires Inv(p)
    ensures |SlotsOf(Apply(p, c).files, t)| ==
            |SlotsOf(p.files, t)| + (if c.CreateItem? && c.queueType == t then 1 else 0)
  {
    hide Inv, SlotsOf, Create, SetStatus, Promote;
    match c
    case CreateItem(u, title, details, stamp) => CreateAddsOne(p, u, title, details, stamp, t);
    case SetItemStatus(filter, id, status, note, at) => SetStatusConserves(p, filter, id, status, note, at, t);
    case PromoteItem(r) => PromoteConserves(p, r, t);
  }

  lemma PromoteConserves(p: Project, r: Request, t: QueueType)
    ensures |SlotsOf(Promote(p, r).0.files, t)| == |SlotsOf(p.files, t)|
  {
    hide Named, SlotsOf, Store, Locate;
    if Promote(p, r).1.Ok? {
      var source := Locate(p.files, r.filter, r.id).value;
      var item := PromotedItem(p.files[source], source, r, Named(p, r));
      var destination := Slot(source.queueType,
                              if r.closeAfter then Closed else if r.parkAfter then Parked else source.status, item.id);
      StoreConserves(p.files, source, destination, item, t);
    }
  }

  // ---------------------------------------------------------------- promoted at most once

  ghost predicate IsPromoted(files: Files, id: string) {
    exists s :: s in files && s.id == id && files[s].promotion.Some?
  }

  /** The command promotes the item `id` when run on `p`. */
  predicate Promotes(p: Project, c: Command, id: string) {
    c.PromoteItem? && c.request.id == id && Promote(p, c.request).1.Ok?
  }

  function SuccessfulPromotions(p: Project, commands: seq<Command>, id: string): nat {
    if commands == [] then 0
    else
      var n := |commands| - 1;
      SuccessfulPromotions(p, commands[..n], id)
      + (if Promotes(ApplyAll(p, commands[..n]), commands[n], id) then 1 else 0)
  }

  lemma StorePromotion(files: Files, source: Slot, destination: Slot, item: Item, id: string)
    requires FilesInv(files) && source in files && item.id == source.id == destination.id
    requires Store(files, source, destination, item).Ok?
    ensures IsPromoted(Store(files, source, destination, item).value, id) <==>
            if id == source.id then item.promotion.Some? else IsPromoted(files, id)
  {
    var after := Store(files, source, destination, item).value;
    if id == source.id {
      assert destination in after && after[destination] == item;
    } else {
      forall s | s in files && s.id == id ensures s in after && after[s] == files[s] {
      }
    }
  }

  /** An item is promoted after a command exactly when it was before or the command promoted it; the
      two never both hold. */
  lemma PromotionStep(p: Project, c: Command, id: string)
    requires Inv(p)
    ensures IsPromoted(Apply(p, c).files, id) <==> IsPromoted(p.files, id) || Promotes(p, c, id)
    ensures !(IsPromoted(p.files, id) && Promotes(p, c, id))
  {
    match c
    case CreateItem(t, title, details, stamp) =>
      CreateKeeps(p, t, title, details, stamp);
    case SetItemStatus(filter, target, status, note, at) =>
      if Locate(p.files, filter, target).Some? {
        var source := Locate(p.files, filter, target).value;
        var item := Moved(p.files[source], source.status, status, at, note).(decisionNote := note);
        SetStatusKeeps(p, filter, target, status, note, at);
        StorePromotion(p.files, source, Slot(source.queueType, status, item.id), item, id);
      }
    case PromoteItem(r) => PromoteStep(p, r, id);
  }

  lemma PromotionIsUnique(files: Files, s: Slot)
    requires FilesInv(files) && s in files
    ensures IsPromoted(files, s.id) <==> files[s].promotion.Some?
  {
  }

  lemma PromoteStep(p: Project, r: Request, id: string)
    requires Inv(p)
    ensures IsPromoted(Promote(p, r).0.files, id) <==> IsPromoted(p.files, id) || (r.id == id && Promote(p, r).1.Ok?)
    ensures !(IsPromoted(p.files, id) && r.id == id && Promote(p, r).1.Ok?)
  {
    hide Named, IsPromoted, Store, Locate, ChainOfDecisions;
    PromoteUnlessRefused(p, r);
    if Promote(p, r).1.Ok? {
      var source := Locate(p.files, r.filter, r.id).value;
      var item := PromotedItem(p.files[source], source, r, Named(p, r));
      PromotedItemChain(p.files[source], source, r, Named(p, r));
      StorePromotion(p.files, source, Slot(source.queueType, item.status, item.id), item, id);
      PromotionIsUnique(p.files, source);
    }
  }

  /** Over any history each item is promoted at most once, and its file says so exactly when it was. */
  lemma {:induction false} PromotedAtMostOnce(p: Project, commands: seq<Command>, id: string)
    requires Inv(p)
    ensures SuccessfulPromotions(p, commands, id) + (if IsPromoted(p.files, id) then 1 else 0)
            == (if IsPromoted(ApplyAll(p, commands).files, id) then 1 else 0)
  {
    hide Inv, Apply, IsPromoted, Promotes;
    if commands != [] {
      var n := |commands| - 1;
      PromotedAtMostOnce(p, commands[..n], id);
      HistoryKeeps(p, commands[..n]);
      PromotionStep(ApplyAll(p, commands[..n]), commands[n], id);
    }
  }

  // ---------------------------------------------------------------- what commands leave alone

  /** A command leaves every file alone that is not of the item it addresses. */
  lemma {:induction false} OthersUntouched(p: Project, c: Command, s: Slot)
    requires Inv(p) && s in p.files
    requires c.SetItemStatus? ==> c.id != s.id
    requires c.PromoteItem? ==> c.request.id != s.id
    ensures s in Apply(p, c).files && Apply(p, c).files[s] == p.files[s]
  {
    hide Inv, Create, SetStatus, Promote;
    match c
    case CreateItem(t, title, details, stamp) => CreateKeeps(p, t, title, details, stamp);
    case SetItemStatus(filter, id, status, note, at) => SetStatusMovesOnlyItsItem(p, filter, id, status, note, at, s);
    case PromoteItem(r) => PromotionMovesOnlyItsItem(p, r, s);
  }

  lemma SetStatusMovesOnlyItsItem(p: Project, filter: Option<QueueType>, id: string, status: Status, note: string,
                                  at: string, s: Slot)
    requires Inv(p) && s in p.files && id != s.id
    ensures var q := SetStatus(p, filter, id, status, note, at).0; s in q.files && q.files[s] == p.files[s]
  {
    hide Locate, ChainOfDecisions;
  }

  lemma PromotionMovesOnlyItsItem(p: Project, r: Request, s: Slot)
    requires Inv(p) && s in p.files && r.id != s.id
    ensures s in Promote(p, r).0.files && Promote(p, r).0.files[s] == p.files[s]
  {
    hide Named, Locate, ChainOfDecisions, PromotedItem;
    if Promote(p, r).1.Ok? {
      PromotedFiles(p, r);
      hide Promote;
      var source := Locate(p.files, r.filter, r.id).value;
      PromotedItemChain(p.files[source], source, r, Named(p, r));
    } else {
      hide PromotionsInv;
      PromoteUnlessRefused(p, r);
    }
  }

  function Creations(commands: seq<Command>, t: QueueType): nat {
    if commands == [] then 0
    else
      var last := commands[|commands| - 1];
      Creations(commands[..|commands| - 1], t) + (if last.CreateItem? && last.queueType == t then 1 else 0)
  }

  /** After any history a queue holds what it held before plus what was created in it. */
  lemma {:induction false} HistoryTotals(p: Project, commands: seq<Command>, t: QueueType)
    requires Inv(p)
    ensures |SlotsOf(ApplyAll(p, commands).files, t)| == |SlotsOf(p.files, t)| + Creations(commands, t)
  {
    hide Inv, Apply, SlotsOf;
    if commands != [] {
      var n := |commands| - 1;
      HistoryTotals(p, commands[..n], t);
      HistoryKeeps(p, commands[..n]);
      TotalsConserved(ApplyAll(p, commands[..n]), commands[n], t);
    }
  }

  // ---------------------------------------------------------------- names stay unique

  /** No two blueprint stories share an id or a slug, and no two entries of the stories folder a name. */
  ghost predicate NamesUnique(p: Project) {
    && (p.blueprint.Some? ==> StoriesUnique(p.blueprint.value))
    && forall i, j | 0 <= i < j < |p.folder| :: p.folder[i].name != p.folder[j].name
  }

  ghost predicate StoriesUnique(stories: seq<StoryEntry>) {
    forall i, j | 0 <= i < j < |stories| && stories[i].Story? && stories[j].Story? ::
      stories[i].id != stories[j].id && stories[i].slug != stories[j].slug
  }

  lemma OneMoreStory(stories: seq<StoryEntry>, id: string, slug: string)
    requires StoriesUnique(stories) && !HasId(stories, id) && slug !in UsedSlugs(stories)
    ensures StoriesUnique(stories + [Story(id, slug)])
  {
    var more := stories + [Story(id, slug)];
    forall i | 0 <= i < |stories| && stories[i].Story? ensures stories[i].id != id && stories[i].slug != slug {
      assert stories[i] in stories;
    }
  }

  lemma OneMoreFolder(folder: seq<FolderEntry>, e: FolderEntry)
    requires forall i, j | 0 <= i < j < |folder| :: folder[i].name != folder[j].name
    requires e.name !in FolderNames(folder)
    ensures forall i, j | 0 <= i < j < |folder| + 1 :: (folder + [e])[i].name != (folder + [e])[j].name
  {
    assert forall i | 0 <= i < |folder| :: folder[i] in folder;
  }

  /** A promotion adds nothing, or one story and one folder with names not used before. */
  lemma PromotionAddsFreshNames(p: Project, r: Request)
    ensures var q := Promote(p, r).0;
            || (q.blueprint == p.blueprint && q.folder == p.folder)
            || (Refusal(p, r).None? && var name := Named(p, r);
                && p.blueprint.Some? && !HasId(p.blueprint.value, name.0) && name.1 !in UsedSlugs(p.blueprint.value)
                && name.1 !in FolderNames(p.folder)
                && q.blueprint == Some(p.blueprint.value + [Story(name.0, name.1)])
                && q.folder == p.folder + [FolderEntry(name.1, true, Some(r.markdown))])
  {
    hide Named, Locate, PromotedItem, HasId, UsedSlugs, FolderNames, Store;
  }

  lemma PromoteKeepsNames(p: Project, r: Request)
    requires NamesUnique(p)
    ensures NamesUnique(Promote(p, r).0)
  {
    PromotionAddsFreshNames(p, r);
    var q := Promote(p, r).0;
    hide Promote, Refusal, Named, HasId, UsedSlugs, FolderNames;
    if q.blueprint != p.blueprint || q.folder != p.folder {
      var name := Named(p, r);
      OneMoreStory(p.blueprint.value, name.0, name.1);
      OneMoreFolder(p.folder, FolderEntry(name.1, true, Some(r.markdown)));
    }
  }

  /** Over any history of commands names that start unique stay unique. */
  lemma {:induction false} HistoryKeepsNamesUnique(p: Project, commands: seq<Command>)
    requires NamesUnique(p)
    ensures NamesUnique(ApplyAll(p, commands))
  {
    if commands != [] {
      var before := ApplyAll(p, commands[..|commands| - 1]);
      HistoryKeepsNamesUnique(p, commands[..|commands| - 1]);
      hide Locate, Store, Promote;
      match commands[|commands| - 1]
      case CreateItem(_, _, _, _) =>
      case SetItemStatus(_, _, _, _, _) =>
      case PromoteItem(request) => PromoteKeepsNames(before, request);
    }
  }

  /** The histories of a project without items, whatever its blueprint and stories folder: the invariant
      holds throughout, each queue holds what was created in it, and each item is promoted at most once. */
  lemma {:induction false} FreshProjectHistory(p: Project, commands: seq<Command>, t: QueueType, id: string)
    requires p.files == map[]
    ensures Inv(ApplyAll(p, commands))
    ensures |SlotsOf(ApplyAll(p, commands).files, t)| == Creations(commands, t)
    ensures SuccessfulPromotions(p, commands, id) == (if IsPromoted(ApplyAll(p, commands).files, id) then 1 else 0)
  {
    EmptyQueueIsFine(p);
    assert SlotsOf(p.files, t) == {} && !IsPromoted(p.files, id);
    hide Inv, ApplyAll, SlotsOf, IsPromoted, Creations, SuccessfulPromotions;
    HistoryKeeps(p, commands);
    HistoryTotals(p, commands, t);
    PromotedAtMostOnce(p, commands, id);
  }
}
