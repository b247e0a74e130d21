/** The work-item queue (one folder per type and status) and the promotion of an item to a story,
    as functions on the project's files (src/agentic_dev/queue_management.py). */
module QueueModel {
  import opened Common
  import opened FreshNames
  import opened StoryNumbers
  import Strings

  // ---------------------------------------------------------------- files

  datatype QueueType = Improvement | Maintenance | Feature

  datatype Status = PendingItem | Approved | Rejected | Parked | Closed

  datatype Change = Change(from: Status, to: Status, changedAt: string, note: string)

  datatype Promotion = Promotion(storyId: string, storySlug: string, promotedAt: string)

  datatype Item = Item(id: string, title: string, details: string, status: Status, decisionNote: string,
                       history: seq<Change>, promotion: Option<Promotion>)

  /** The path of an item file: queue folder, status folder, file stem. */
  datatype Slot = Slot(queueType: QueueType, status: Status, id: string)

  type Files = map<Slot, Item>

  /** An element of the blueprint's `stories` list. */
  datatype StoryEntry = NotMapping | Story(id: string, slug: string)

  /** An entry of the `stories/` folder and, for a directory, its story.md. */
  datatype FolderEntry = FolderEntry(name: string, isDirectory: bool, markdown: Option<string>)

  /** `blueprint` is None when its `stories` is not a list. */
  datatype Project = Project(files: Files, blueprint: Option<seq<StoryEntry>>, folder: seq<FolderEntry>)

  datatype Error =
    | NotFound | FileExists | BothMoves | NeedsApproval | NeedsAllowPending | AlreadyPromoted
    | MalformedBlueprint | WorkspaceExists | DuplicateStoryId | DuplicateStorySlug

  function Prefix(t: QueueType): string {
    match t
    case Improvement => "IMP"
    case Maintenance => "MAINT"
    case Feature => "FEATURE"
  }

  // ---------------------------------------------------------------- lookup and counting

  /** The item's path in each status folder of one queue, in the order they are searched. */
  function StatusSlots(t: QueueType, id: string): seq<Slot> {
    [Slot(t, PendingItem, id), Slot(t, Approved, id), Slot(t, Rejected, id), Slot(t, Parked, id), Slot(t, Closed, id)]
  }

  lemma StatusSlotsAreAll(t: QueueType, id: string, s: Slot)
    ensures s in StatusSlots(t, id) <==> s.queueType == t && s.id == id
  {
    var slots := StatusSlots(t, id);
    if s.queueType == t && s.id == id {
      match s.status
      case PendingItem => assert slots[0] == s;
      case Approved => assert slots[1] == s;
      case Rejected => assert slots[2] == s;
      case Parked => assert slots[3] == s;
      case Closed => assert slots[4] == s;
    }
  }

  function SearchSlots(filter: Option<QueueType>, id: string): seq<Slot> {
    if filter.Some? then StatusSlots(filter.value, id)
    else StatusSlots(Improvement, id) + StatusSlots(Maintenance, id) + StatusSlots(Feature, id)
  }

  lemma SearchSlotsAreAll(filter: Option<QueueType>, id: string, s: Slot)
    ensures s in SearchSlots(filter, id) <==> s.id == id && (filter.Some? ==> s.queueType == filter.value)
  {
    hide StatusSlots;
    if filter.Some? { StatusSlotsAreAll(filter.value, id, s); }
    StatusSlotsAreAll(Improvement, id, s);
    StatusSlotsAreAll(Maintenance, id, s);
    StatusSlotsAreAll(Feature, id, s);
  }

  function FirstPresent(files: Files, slots: seq<Slot>): (r: Option<Slot>)
    ensures r.None? <==> forall s | s in slots :: s !in files
    ensures r.Some? ==> r.value in slots && r.value in files
  {
    if slots == [] then None
    else if slots[0] in files then Some(slots[0])
    else FirstPresent(files, slots[1..])
  }

  /** find_queue_item */
  function Locate(files: Files, filter: Option<QueueType>, id: string): (r: Option<Slot>)
    ensures r.Some? ==> r.value in files && r.value.id == id && (filter.Some? ==> r.value.queueType == filter.value)
  {
    var r := FirstPresent(files, SearchSlots(filter, id));
    assert r.Some? ==> r.value.id == id && (filter.Some? ==> r.value.queueType == filter.value) by {
      if r.Some? { SearchSlotsAreAll(filter, id, r.value); }
    }
    r
  }

  function UsedIds(files: Files, t: QueueType): set<string> {
    set s | s in files && s.queueType == t :: s.id
  }

  // ---------------------------------------------------------------- create and move

  /** create_queue_item: the new id, and the item in the pending folder. */
  function Create(p: Project, t: QueueType, title: string, details: string, stamp: string): (r: (Project, string)) {
    var scheme := ItemIdScheme(Prefix(t), stamp);
    var id := Candidate(scheme, FirstFree(scheme, UsedIds(p.files, t)));
    (p.(files := p.files[Slot(t, PendingItem, id) := Item(id, title, details, PendingItem, "", [], None)]), id)
  }

  /** Writes the item to its destination and removes the source if it moved; refuses to overwrite. */
  function Store(files: Files, source: Slot, destination: Slot, item: Item): Result<Files, Error> {
    if destination != source && destination in files then Err(FileExists)
    else Ok((files - {source})[destination := item])
  }

  function Moved(item: Item, from: Status, to: Status, at: string, note: string): Item {
    item.(status := to, history := item.history + [Change(from, to, at, note)])
  }

  /** set_queue_item_status */
  function SetStatus(p: Project, filter: Option<QueueType>, id: string, status: Status, note: string, at: string):
    (Project, Result<Slot, Error>)
  {
    match Locate(p.files, filter, id)
    case None => (p, Err(NotFound))
    case Some(source) =>
      var item := Moved(p.files[source], source.status, status, at, note).(decisionNote := note);
      var destination := Slot(source.queueType, status, item.id);
      match Store(p.files, source, destination, item)
      case Err(e) => (p, Err(e))
      case Ok(files) => (p.(files := files), Ok(destination))
  }

  // ---------------------------------------------------------------- next_story_number

  function StoryTextNumbers(stories: seq<StoryEntry>): seq<nat> {
    if stories == [] then []
    else
      (match stories[0]
       case NotMapping => []
       case Story(id, slug) => Numbers(id) + Numbers(slug)) + StoryTextNumbers(stories[1..])
  }

  /** read_text_prefix */
  function TextPrefix(text: string): string {
    text[..Min(500, |text|)]
  }

  function EntryNumbers(e: FolderEntry): seq<nat> {
    if !e.isDirectory then []
    else Numbers(e.name) + (if e.markdown.Some? then Numbers(TextPrefix(e.markdown.value)) else [])
  }

  function FolderNumbers(folder: seq<FolderEntry>): seq<nat> {
    if folder == [] then [] else EntryNumbers(folder[0]) + FolderNumbers(folder[1..])
  }

  function MaxOf(numbers: seq<nat>): (m: nat)
    ensures forall k | k in numbers :: k <= m
    ensures if numbers == [] then m == 0 else m in numbers
  {
    if numbers == [] then 0
    else
      var rest := MaxOf(numbers[1..]);
      assert numbers == [numbers[0]] + numbers[1..];
      if numbers[0] > rest then numbers[0] else rest
  }

  function NextStoryNumber(stories: seq<StoryEntry>, folder: seq<FolderEntry>): nat {
    MaxOf(StoryTextNumbers(stories) + FolderNumbers(folder)) + 1
  }

  // ---------------------------------------------------------------- promotion

  function UsedSlugs(stories: seq<StoryEntry>): set<string> {
    set e | e in stories && e.Story? :: e.slug
  }

  function FolderNames(folder: seq<FolderEntry>): set<string> {
    set e | e in folder :: e.name
  }

  /** unique_story_slug */
  function UniqueSlug(stories: seq<StoryEntry>, folder: seq<FolderEntry>, n: nat, lowered: string): string {
    var scheme := SlugScheme(SlugBase(n, SafeSlugText(lowered)));
    Candidate(scheme, FirstFree(scheme, UsedSlugs(stories) + FolderNames(folder)))
  }

  /** A promotion request; `lower` is the lower-casing of text and `markdown` the new story.md. */
  datatype Request = Request(filter: Option<QueueType>, id: string, allowPending: bool, closeAfter: bool,
                             parkAfter: bool, at: string, lower: string -> string, markdown: string)

  predicate HasId(stories: seq<StoryEntry>, id: string) {
    exists k :: 0 <= k < |stories| && stories[k].Story? && stories[k].id == id
  }

  /** The checks before anything is numbered, in the order the command makes them. */
  function Refusal(p: Project, r: Request): Option<Error> {
    if r.closeAfter && r.parkAfter then Some(BothMoves)
    else match Locate(p.files, r.filter, r.id)
      case None => Some(NotFound)
      case Some(slot) =>
        if slot.status != Approved && !(slot.status == PendingItem && r.allowPending) then
          Some(if slot.status == PendingItem then NeedsAllowPending else NeedsApproval)
        else if p.files[slot].promotion.Some? then Some(AlreadyPromoted)
        else if p.blueprint.None? then Some(MalformedBlueprint)
        else None
  }

  function TitleOf(item: Item, id: string): string {
    if Strings.Strip(item.title) == "" then id else Strings.Strip(item.title)
  }

  /** The id and slug the promoted story gets. */
  function Named(p: Project, r: Request): (string, string)
    requires Refusal(p, r).None?
  {
    var item := p.files[Locate(p.files, r.filter, r.id).value];
    var n := NextStoryNumber(p.blueprint.value, p.folder);
    (FormatStoryId(n), UniqueSlug(p.blueprint.value, p.folder, n, r.lower(TitleOf(item, r.id))))
  }

  function PromotedItem(item: Item, source: Slot, r: Request, name: (string, string)): (q: Item)
    ensures q.promotion.Some?
  {
    var marked := item.(promotion := Some(Promotion(name.0, name.1, r.at)));
    var note := "Promoted to " + name.0 + " (" + name.1 + ").";
    if r.closeAfter then Moved(marked, source.status, Closed, r.at, note)
    else if r.parkAfter then Moved(marked, source.status, Parked, r.at, note)
    else marked
  }

  /** promote_queue_item_to_story */
  function Promote(p: Project, r: Request): (Project, Result<Promotion, Error>) {
    if Refusal(p, r).Some? then (p, Err(Refusal(p, r).value))
    else
      var source, name, stories := Locate(p.files, r.filter, r.id).value, Named(p, r), p.blueprint.value;
      if name.1 in FolderNames(p.folder) then (p, Err(WorkspaceExists))
      else if HasId(stories, name.0) then (p, Err(DuplicateStoryId))
      else if name.1 in UsedSlugs(stories) then (p, Err(DuplicateStorySlug))
      else
        var q := p.(blueprint := Some(stories + [Story(name.0, name.1)]),
                    folder := p.folder + [FolderEntry(name.1, true, Some(r.markdown))]);
        var item := PromotedItem(p.files[source], source, r, name);
        var destination := Slot(source.queueType,
                                if r.closeAfter then Closed else if r.parkAfter then Parked else source.status, item.id);
        match Store(p.files, source, destination, item)
        case Err(e) => (q, Err(e))
        case Ok(files) => (q.(files := files), Ok(item.promotion.value))
  }
}
