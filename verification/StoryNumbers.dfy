/** Story ids, slugs and the numbers read back from them
    (format_story_id, safe_story_slug_text, story_numbers_from_text in
    src/agentic_dev/queue_management.py). */
module StoryNumbers {
  import opened Common
  import opened Numerals

  // ---------------------------------------------------------------- story_numbers_from_text

  predicate IsWord(c: char) {
    'a' <= c <= 'z' || 'A' <= c <= 'Z' || IsDigit(c) || c == '_'
  }

  /** A match of the pattern: the number it captures and where scanning goes on. */
  datatype Hit = Hit(number: nat, end: nat)

  function DigitsEnd(s: string, i: nat): (e: nat)
    requires i <= |s|
    ensures i <= e <= |s| && AllDigits(s[i..e]) && (e == |s| || !IsDigit(s[e]))
    decreases |s| - i
  {
    if i < |s| && IsDigit(s[i]) then
      var e := DigitsEnd(s, i + 1);
      assert s[i..e] == [s[i]] + s[i + 1..e];
      e
    else i
  }

  /** `\bSTORY-(\d+)\b` at position `i` */
  function IdAt(s: string, i: nat): (h: Option<Hit>)
    requires i < |s|
    ensures h.Some? ==> i < h.value.end <= |s|
  {
    if i + 6 <= |s| && s[i..i + 6] == "STORY-" && (i == 0 || !IsWord(s[i - 1])) then
      var e := DigitsEnd(s, i + 6);
      if e > i + 6 && (e == |s| || !IsWord(s[e])) then Some(Hit(Value(s[i + 6..e]), e)) else None
    else None
  }

  /** `(?:^|/)story_(\d+)(?:_|$)` at position `i`; `$` also matches before a final newline. */
  function SlugAt(s: string, i: nat): (h: Option<Hit>)
    requires i < |s|
    ensures h.Some? ==> i < h.value.end <= |s|
  {
    if s[i] != '/' && i != 0 then None
    else
      var b := if s[i] == '/' then i + 1 else 0;
      if b + 6 <= |s| && s[b..b + 6] == "story_" then
        var e := DigitsEnd(s, b + 6);
        if e == b + 6 then None
        else if e < |s| && s[e] == '_' then Some(Hit(Value(s[b + 6..e]), e + 1))
        else if e == |s| || (e == |s| - 1 && s[e] == '\n') then Some(Hit(Value(s[b + 6..e]), e))
        else None
      else None
  }

  function HitAt(s: string, i: nat): (h: Option<Hit>)
    requires i < |s|
    ensures h.Some? ==> i < h.value.end <= |s|
  {
    if IdAt(s, i).Some? then IdAt(s, i) else SlugAt(s, i)
  }

  /** The numbers of the successive non-overlapping matches from position `i` on. */
  function Numbers(s: string, i: nat := 0): seq<nat>
    requires i <= |s|
    decreases |s| - i
  {
    if i == |s| then []
    else
      match HitAt(s, i)
      case Some(hit) => [hit.number] + Numbers(s, hit.end)
      case None => Numbers(s, i + 1)
  }

  /** story_numbers_from_text */
  method StoryNumbersFromText(value: string) returns (numbers: seq<nat>)
    ensures numbers == Numbers(value)
  {
    numbers := [];
    var i := 0;
    while i < |value|
      invariant 0 <= i <= |value|
      invariant numbers + Numbers(value, i) == Numbers(value)
    {
      var hit := HitAt(value, i);
      if hit.Some? {
        numbers := numbers + [hit.value.number];
        i := hit.value.end;
      } else {
        i := i + 1;
      }
    }
  }

  // ---------------------------------------------------------------- printing

  function FormatStoryId(n: nat): string {
    "STORY-" + Pad(3, n)
  }

  function SlugBase(n: nat, text: string): string {
    "story_" + Pad(3, n) + "_" + text
  }

  predicate SlugChar(c: char) {
    'a' <= c <= 'z' || IsDigit(c) || c == '_'
  }

  lemma {:induction false} DigitsEndIs(s: string, i: nat, e: nat)
    requires i <= e <= |s| && AllDigits(s[i..e]) && (e == |s| || !IsDigit(s[e]))
    ensures DigitsEnd(s, i) == e
    decreases e - i
  {
    if i < e {
      assert s[i] == s[i..e][0] && s[i] in s[i..e];
      assert s[i + 1..e] == s[i..e][1..];
      DigitsEndIs(s, i + 1, e);
    }
  }

  /** Reading a printed story id gives back exactly its number. */
  lemma ReadStoryId(n: nat)
    ensures Numbers(FormatStoryId(n)) == [n]
  {
    var s := FormatStoryId(n);
    assert s[0..6] == "STORY-";
    assert s[6..|s|] == Pad(3, n);
    DigitsEndIs(s, 6, |s|);
    ReadBack(3, n);
    assert IdAt(s, 0) == Some(Hit(n, |s|));
    assert Numbers(s, |s|) == [];
  }

  lemma {:induction false} NoHitsInSlugText(s: string, i: nat)
    requires 0 < i <= |s| && forall k | i <= k < |s| :: SlugChar(s[k])
    ensures Numbers(s, i) == []
    decreases |s| - i
  {
    if i < |s| {
      assert i + 6 <= |s| ==> s[i..i + 6][0] == s[i] != 'S';
      assert HitAt(s, i) == None;
      NoHitsInSlugText(s, i + 1);
    }
  }

  /** Reading a printed slug, whatever slug text follows, gives back exactly its number. */
  lemma ReadSlug(n: nat, text: string)
    requires forall c | c in text :: SlugChar(c)
    ensures Numbers(SlugBase(n, text)) == [n]
  {
    var s, p := SlugBase(n, text), Pad(3, n);
    var e := 6 + |p|;
    assert s[0..6] == "story_" && s[6..e] == p && s[e] == '_';
    DigitsEndIs(s, 6, e);
    ReadBack(3, n);
    assert IdAt(s, 0) == None;
    assert SlugAt(s, 0) == Some(Hit(n, e + 1));
    forall k | e + 1 <= k < |s| ensures SlugChar(s[k]) {
      assert s[k] == text[k - e - 1];
    }
    NoHitsInSlugText(s, e + 1);
  }

  // ---------------------------------------------------------------- safe_story_slug_text

  predicate Plain(c: char) { 'a' <= c <= 'z' || IsDigit(c) }

  /** `re.sub(r"[^a-z0-9]+", "_", s)`; `inRun` tells that the previous character was replaced too. */
  function Squash(s: string, inRun: bool): string {
    if s == "" then ""
    else if Plain(s[0]) then [s[0]] + Squash(s[1..], false)
    else if inRun then Squash(s[1..], true)
    else "_" + Squash(s[1..], true)
  }

  function StripUnderscoresLeft(s: string): string {
    if s != "" && s[0] == '_' then StripUnderscoresLeft(s[1..]) else s
  }

  function StripUnderscoresRight(s: string): string {
    if s != "" && s[|s| - 1] == '_' then StripUnderscoresRight(s[..|s| - 1]) else s
  }

  /** `re.sub(r"_+", "_", s)` */
  function Collapse(s: string): string {
    if |s| >= 2 && s[0] == '_' && s[1] == '_' then Collapse(s[1..])
    else if s == "" then ""
    else [s[0]] + Collapse(s[1..])
  }

  /** safe_story_slug_text of an already lower-cased title */
  function SafeSlugText(lowered: string): string {
    var slug := Collapse(StripUnderscoresRight(StripUnderscoresLeft(Squash(lowered, false))));
    if slug == "" then "queue_item" else slug
  }

  /** Only slug characters, and never two underscores in a row. */
  ghost predicate Tidy(s: string) {
    (forall c | c in s :: SlugChar(c)) && forall i | 0 < i < |s| :: !(s[i - 1] == '_' && s[i] == '_')
  }

  lemma {:induction false} SquashIsTidy(s: string, inRun: bool)
    ensures Tidy(Squash(s, inRun))
    ensures inRun && Squash(s, inRun) != "" ==> Squash(s, inRun)[0] != '_'
  {
    if s != "" {
      SquashIsTidy(s[1..], !Plain(s[0]));
    }
  }

  lemma {:induction false} StripLeftIsTidy(s: string)
    requires Tidy(s)
    ensures var r := StripUnderscoresLeft(s); Tidy(r) && (r == "" || r[0] != '_')
  {
    if s != "" && s[0] == '_' { StripLeftIsTidy(s[1..]); }
  }

  lemma {:induction false} StripRightIsTidy(s: string)
    requires Tidy(s) && (s == "" || s[0] != '_')
    ensures var r := StripUnderscoresRight(s); Tidy(r) && (r == "" || (r[0] != '_' && r[|r| - 1] != '_'))
  {
    if s != "" && s[|s| - 1] == '_' { StripRightIsTidy(s[..|s| - 1]); }
  }

  lemma {:induction false} CollapseChangesNothing(s: string)
    requires Tidy(s)
    ensures Collapse(s) == s
  {
    if s != "" { CollapseChangesNothing(s[1..]); }
  }

  /** The slug text is never empty, uses only [a-z0-9_], has no underscore at either end and none
      doubled; the final collapse of repeated underscores never changes anything. */
  lemma SafeSlugShape(lowered: string)
    ensures var r := SafeSlugText(lowered);
            r != "" && Tidy(r) && r[0] != '_' && r[|r| - 1] != '_'
    ensures var stripped := StripUnderscoresRight(StripUnderscoresLeft(Squash(lowered, false)));
            Collapse(stripped) == stripped
  {
    SquashIsTidy(lowered, false);
    StripLeftIsTidy(Squash(lowered, false));
    StripRightIsTidy(StripUnderscoresLeft(Squash(lowered, false)));
    CollapseChangesNothing(StripUnderscoresRight(StripUnderscoresLeft(Squash(lowered, false))));
  }
}
