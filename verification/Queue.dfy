/** The queue commands in the source's own form: procedures that read and rewrite the project's files
    (src/agentic_dev/queue_management.py), each proved to do what module QueueModel says. */
module Queue {
  import opened Common
  import opened FreshNames
  import opened StoryNumbers
  import opened QueueModel
  import QueueNumbering
  import QueueHistory

  class ProjectFolder {
    var items: Files
    var blueprint: Option<seq<StoryEntry>>
    var stories: seq<FolderEntry>

    function Value(): Project
      reads this
    {
      Project(items, blueprint, stories)
    }

    constructor (p: Project)
      ensures Value() == p
    {
      items, blueprint, stories := p.files, p.blueprint, p.folder;
    }

    method CreateQueueItem(t: QueueType, title: string, details: string, stamp: string) returns (id: string)
      modifies this`items
      ensures (Value(), id) == Create(old(Value()), t, title, details, stamp)
      ensures QueueHistory.Inv(old(Value())) ==> QueueHistory.Inv(Value())
    {
      id := GenerateItemId(Prefix(t), stamp, UsedIds(items, t));
      ghost var before := Value();
      items := items[Slot(t, PendingItem, id) := Item(id, title, details, PendingItem, "", [], None)];
      if QueueHistory.Inv(before) { QueueHistory.CreateKeeps(before, t, title, details, stamp); }
    }

    /** write_yaml_mapping followed by remove_source_if_moved */
    method WriteItem(source: Slot, destination: Slot, item: Item) returns (r: Result<Slot, Error>)
      modifies this`items
      ensures match Store(old(items), source, destination, item)
              case Err(e) => r == Err(e) && items == old(items)
              case Ok(files) => r == Ok(destination) && items == files
    {
      if destination != source && destination in items { return Err(FileExists); }
      items := items[destination := item];
      if source != destination { items := items - {source}; }
      r := Ok(destination);
    }

    method SetQueueItemStatus(filter: Option<QueueType>, id: string, status: Status, note: string, at: string)
      returns (r: Result<Slot, Error>)
      modifies this`items
      ensures (Value(), r) == SetStatus(old(Value()), filter, id, status, note, at)
      ensures QueueHistory.Inv(old(Value())) ==>
              QueueHistory.Inv(Value()) && (r.Ok? <==> exists s :: s in old(items) && QueueHistory.Asked(filter, id, s))
    {
      hide Store, Locate;
      ghost var before := Value();
      if QueueHistory.Inv(before) {
        QueueHistory.SetStatusKeeps(before, filter, id, status, note, at);
        QueueHistory.SetStatusFailsExactly(before, filter, id, status, note, at);
      }
      hide QueueHistory.Inv;
      var located := Locate(items, filter, id);
      if located.None? { return Err(NotFound); }
      var source := located.value;
      var item := items[source];
      item := item.(status := status, decisionNote := note,
                    history := item.history + [Change(source.status, status, at, note)]);
      r := WriteItem(source, Slot(source.queueType, status, item.id), item);
    }

    /** next_story_number, format_story_id and unique_story_slug for a request that passed its checks */
    method NameStory(request: Request) returns (storyId: string, storySlug: string)
      requires Refusal(Value(), request).None?
      ensures (storyId, storySlug) == Named(Value(), request)
    {
      hide NextStoryNumber, SafeSlugText, SlugBase, FormatStoryId, TitleOf;
      var source := Locate(items, request.filter, request.id).value;
      var number := QueueNumbering.NextNumber(blueprint.value, stories);
      var title := TitleOf(items[source], request.id);
      storyId := FormatStoryId(number);
      storySlug := UniqueName(SlugBase(number, SafeSlugText(request.lower(title))),
                              UsedSlugs(blueprint.value) + FolderNames(stories));
    }

    /** Everything promote_queue_item_to_story does after its first checks. */
    method PromoteChecked(request: Request) returns (r: Result<Promotion, Error>)
      requires Refusal(Value(), request).None?
      modifies this
      ensures (Value(), r) == Promote(old(Value()), request)
    {
      hide Store, Named, PromotedItem, UsedSlugs, FolderNames, HasId;
      var source := Locate(items, request.filter, request.id).value;
      var storyId, storySlug := NameStory(request);
      if storySlug in FolderNames(stories) { return Err(WorkspaceExists); }
      if HasId(blueprint.value, storyId) { return Err(DuplicateStoryId); }
      if storySlug in UsedSlugs(blueprint.value) { return Err(DuplicateStorySlug); }
      blueprint := Some(blueprint.value + [Story(storyId, storySlug)]);
      stories := stories + [FolderEntry(storySlug, true, Some(request.markdown))];
      var item := PromotedItem(items[source], source, request, (storyId, storySlug));
      var status := if request.closeAfter then Closed else if request.parkAfter then Parked else source.status;
      var written := WriteItem(source, Slot(source.queueType, status, item.id), item);
      r := if written.Ok? then Ok(item.promotion.value) else Err(written.error);
    }

    method PromoteQueueItemToStory(request: Request) returns (r: Result<Promotion, Error>)
      modifies this
      ensures (Value(), r) == Promote(old(Value()), request)
      ensures QueueHistory.Inv(old(Value())) ==>
              QueueHistory.Inv(Value()) && (r.Ok? <==> QueueHistory.Promotable(old(Value()), request))
    {
      hide Store, Named, PromotedItem, QueueHistory.Inv, QueueHistory.Promotable;
      if QueueHistory.Inv(Value()) {
        QueueHistory.PromoteKeeps(Value(), request);
        QueueHistory.PromoteSucceedsExactly(Value(), request);
      }
      var refusal := Refusal(Value(), request);
      if refusal.Some? { return Err(refusal.value); }
      r := PromoteChecked(request);
    }
  }
}
