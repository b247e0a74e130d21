/** Promoted stories always get an unused number, id and slug. */
module QueueNumbering {
  import opened Common
  import opened FreshNames
  import opened StoryNumbers
  import opened QueueModel

  lemma {:induction false} StoryNumbersCounted(stories: seq<StoryEntry>, e: StoryEntry)
    requires e in stories && e.Story?
    ensures forall k | k in Numbers(e.id) || k in Numbers(e.slug) :: k in StoryTextNumbers(stories)
  {
    hide Numbers;
    if stories[0] != e { StoryNumbersCounted(stories[1..], e); }
  }

  lemma {:induction false} FolderNumbersCounted(folder: seq<FolderEntry>, e: FolderEntry)
    requires e in folder && e.isDirectory
    ensures forall k | k in Numbers(e.name) :: k in FolderNumbers(folder)
  {
    hide Numbers;
    if folder[0] != e { FolderNumbersCounted(folder[1..], e); }
  }

  /** The blueprint entry carries the number `k` in its id or slug. */
  predicate StoryCarries(e: StoryEntry, k: nat) {
    e.Story? && (k in Numbers(e.id) || k in Numbers(e.slug))
  }

  /** The directory carries the number `k` in its name or in the first 500 characters of its story. */
  predicate FolderCarries(e: FolderEntry, k: nat) {
    && e.isDirectory
    && (k in Numbers(e.name)
        || (e.markdown.Some? && k in Numbers(if |e.markdown.value| > 500 then e.markdown.value[..500] else e.markdown.value)))
  }

  ghost predicate Carried(stories: seq<StoryEntry>, folder: seq<FolderEntry>, k: nat) {
    (exists e :: e in stories && StoryCarries(e, k)) || exists e :: e in folder && FolderCarries(e, k)
  }

  lemma {:induction false} StoriesCarry(stories: seq<StoryEntry>, k: nat)
    ensures k in StoryTextNumbers(stories) <==> exists e :: e in stories && StoryCarries(e, k)
  {
    hide Numbers;
    if stories != [] {
      StoriesCarry(stories[1..], k);
      assert stories == [stories[0]] + stories[1..];
      assert k in StoryTextNumbers(stories) <==> StoryCarries(stories[0], k) || k in StoryTextNumbers(stories[1..]);
    }
  }

  lemma {:induction false} FoldersCarry(folder: seq<FolderEntry>, k: nat)
    ensures k in FolderNumbers(folder) <==> exists e :: e in folder && FolderCarries(e, k)
  {
    hide Numbers;
    if folder != [] {
      FoldersCarry(folder[1..], k);
      EntryCarries(folder[0], k);
      hide EntryNumbers, FolderCarries;
      assert folder == [folder[0]] + folder[1..];
      assert k in FolderNumbers(folder) <==> FolderCarries(folder[0], k) || k in FolderNumbers(folder[1..]);
    }
  }

  lemma EntryCarries(e: FolderEntry, k: nat)
    ensures k in EntryNumbers(e) <==> FolderCarries(e, k)
  {
    hide Numbers;
    if e.markdown.Some? {
      var text := e.markdown.value;
      assert |text| <= 500 ==> TextPrefix(text) == text;
    }
  }

  /** The next number is one more than the largest number carried anywhere, and 1 when there is none. */
  lemma {:induction false} NextNumberExactly(stories: seq<StoryEntry>, folder: seq<FolderEntry>)
    ensures var n := NextStoryNumber(stories, folder);
            && n >= 1 && (forall k: nat | Carried(stories, folder, k) :: k < n)
            && (n > 1 ==> Carried(stories, folder, n - 1))
  {
    hide StoryTextNumbers, FolderNumbers, StoryCarries, FolderCarries;
    forall k: nat
      ensures Carried(stories, folder, k) <==> k in StoryTextNumbers(stories) + FolderNumbers(folder)
    {
      StoriesCarry(stories, k);
      FoldersCarry(folder, k);
    }
  }

  /** No blueprint entry carries the next number in its id or slug, and no story directory in its name. */
  lemma NextNumberIsUnused(stories: seq<StoryEntry>, folder: seq<FolderEntry>, text: string)
    requires forall c | c in text :: SlugChar(c)
    ensures var n := NextStoryNumber(stories, folder);
            && (forall e | e in stories && e.Story? :: e.id != FormatStoryId(n) && e.slug != SlugBase(n, text))
            && (forall e | e in folder && e.isDirectory :: e.name != SlugBase(n, text))
  {
    hide Numbers, FormatStoryId, SlugBase;
    var n := NextStoryNumber(stories, folder);
    ReadStoryId(n);
    ReadSlug(n, text);
    assert n !in StoryTextNumbers(stories) + FolderNumbers(folder);
    forall e | e in stories && e.Story? ensures e.id != FormatStoryId(n) && e.slug != SlugBase(n, text) {
      StoryNumbersCounted(stories, e);
      assert n !in Numbers(e.id) && n !in Numbers(e.slug);
    }
    forall e | e in folder && e.isDirectory ensures e.name != SlugBase(n, text) {
      FolderNumbersCounted(folder, e);
      assert n !in Numbers(e.name);
    }
  }

  /** After numbering, the plain slug is taken exactly when a plain file of that name lies in
      `stories/`; with directories only, the collision loop never runs. */
  lemma {:induction false} PlainSlugTakenExactly(stories: seq<StoryEntry>, folder: seq<FolderEntry>, lowered: string)
    ensures var n := NextStoryNumber(stories, folder);
            var base := SlugBase(n, SafeSlugText(lowered));
            UniqueSlug(stories, folder, n, lowered) != base <==>
            exists e :: e in folder && !e.isDirectory && e.name == base
  {
    var n := NextStoryNumber(stories, folder);
    SafeSlugShape(lowered);
    NextNumberIsUnused(stories, folder, SafeSlugText(lowered));
    hide SlugBase, SafeSlugText, NextStoryNumber;
    var base := SlugBase(n, SafeSlugText(lowered));
    var used := UsedSlugs(stories) + FolderNames(folder);
    var k := FirstFree(SlugScheme(base), used);
    if k > 0 { CandidatesDiffer(SlugScheme(base), 0, k); }
    assert k == 0 <==> base !in used by {
      assert Candidate(SlugScheme(base), 0) == base;
    }
  }

  lemma PlainFilesHaveNoNumbers(e: FolderEntry)
    requires !e.isDirectory
    ensures FolderNumbers([e]) == [] && StoryTextNumbers([]) == [] && NextStoryNumber([], [e]) == 1
  {
    hide Numbers;
    assert [e][1..] == [];
  }

  /** The concrete failure: an empty blueprint and, in `stories/`, a plain file named like the slug of the
      first story; the promoted story gets a numbered slug. */
  lemma {:induction false} PlainFileTakesTheSlug(lowered: string)
    ensures var base := SlugBase(1, SafeSlugText(lowered));
            var folder := [FolderEntry(base, false, None)];
            NextStoryNumber([], folder) == 1 && UniqueSlug([], folder, 1, lowered) != base
  {
    hide SlugBase, SafeSlugText, Numbers;
    var base := SlugBase(1, SafeSlugText(lowered));
    var folder := [FolderEntry(base, false, None)];
    PlainFilesHaveNoNumbers(folder[0]);
    hide FolderNumbers, StoryTextNumbers;
    PlainSlugTakenExactly([], folder, lowered);
    assert folder[0] in folder;
  }

  /** The chosen id and slug are in neither the blueprint nor the folder, whatever the folder holds,
      so the duplicate checks of the promotion never fire. */
  lemma {:induction false} NamesAreFresh(p: Project, r: Request)
    requires Refusal(p, r).None?
    ensures var name := Named(p, r);
            && !HasId(p.blueprint.value, name.0)
            && name.1 !in UsedSlugs(p.blueprint.value) && name.1 !in FolderNames(p.folder)
  {
    NextNumberIsUnused(p.blueprint.value, p.folder, "");
  }

  method BlueprintNumbers(stories: seq<StoryEntry>) returns (numbers: seq<nat>)
    ensures numbers == StoryTextNumbers(stories)
  {
    hide Numbers;
    numbers := [];
    for i := 0 to |stories|
      invariant numbers + StoryTextNumbers(stories[i..]) == StoryTextNumbers(stories)
    {
      if stories[i].Story? {
        var fromId := StoryNumbersFromText(stories[i].id);
        var fromSlug := StoryNumbersFromText(stories[i].slug);
        numbers := numbers + fromId + fromSlug;
      }
      assert stories[i..][1..] == stories[i + 1..];
    }
  }

  lemma FolderStep(folder: seq<FolderEntry>, i: nat, numbers: seq<nat>)
    requires i < |folder|
    ensures (numbers + EntryNumbers(folder[i])) + FolderNumbers(folder[i + 1..]) == numbers + FolderNumbers(folder[i..])
  {
    hide EntryNumbers;
    assert folder[i..][1..] == folder[i + 1..];
  }

  method WorkspaceNumbers(folder: seq<FolderEntry>) returns (numbers: seq<nat>)
    ensures numbers == FolderNumbers(folder)
  {
    hide Numbers, TextPrefix;
    numbers := [];
    for i := 0 to |folder|
      invariant numbers + FolderNumbers(folder[i..]) == FolderNumbers(folder)
    {
      var e, found := folder[i], [];
      if e.isDirectory {
        found := StoryNumbersFromText(e.name);
        if e.markdown.Some? {
          var fromText := StoryNumbersFromText(TextPrefix(e.markdown.value));
          found := found + fromText;
        }
      }
      assert found == EntryNumbers(e);
      FolderStep(folder, i, numbers);
      numbers := numbers + found;
    }
  }

  /** next_story_number: one more than every number found in the blueprint and the stories folder. */
  method NextNumber(stories: seq<StoryEntry>, folder: seq<FolderEntry>) returns (n: nat)
    ensures n == NextStoryNumber(stories, folder)
  {
    var inBlueprint := BlueprintNumbers(stories);
    var inFolder := WorkspaceNumbers(folder);
    n := MaxOf(inBlueprint + inFolder) + 1;
  }
}
