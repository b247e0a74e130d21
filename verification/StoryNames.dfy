/** The printed and parsed names of stories and queue items, told from their texts
    (src/agentic_dev/queue_management.py). */
module StoryNames {
  import opened Common
  import opened Numerals
  import opened FreshNames
  import opened StoryNumbers

  // ---------------------------------------------------------------- numerals

  lemma {:induction false} DigitsAreShortest(n: nat)
    ensures |Digits(n)| > 1 ==> Digits(n)[0] != '0'
    ensures |Digits(n)| == 1 <==> n < 10
  {
    if n >= 10 { DigitsAreShortest(n / 10); }
  }

  /** A padded numeral has the given width, or is longer and does not begin with a zero. */
  lemma {:induction false} PadIsShortest(width: nat, n: nat)
    requires width > 0
    ensures |Pad(width, n)| == width || (|Pad(width, n)| > width && Pad(width, n)[0] != '0')
  {
    DigitsAreShortest(n);
  }

  // ---------------------------------------------------------------- the two patterns

  /** No letter, digit or underscore: a character at which a word ends. */
  ghost predicate EndsWord(c: char) {
    !('a' <= c <= 'z') && !('A' <= c <= 'Z') && !('0' <= c <= '9') && c != '_'
  }

  /** A story id is at `s[i..e]`: a whole word STORY- and decimal digits. */
  ghost predicate IdHit(s: string, i: nat, n: nat, e: nat) {
    && i + 6 < e <= |s| && s[i..i + 6] == "STORY-" && AllDigits(s[i + 6..e]) && n == Value(s[i + 6..e])
    && (i == 0 || EndsWord(s[i - 1])) && (e == |s| || EndsWord(s[e]))
  }

  /** A slug's number is at `s[b + 6..f]`, the slug beginning the text or a path segment. */
  ghost predicate SlugHit(s: string, i: nat, b: nat, f: nat, n: nat, e: nat) {
    && i < |s| && (if s[i] == '/' then b == i + 1 else i == 0 && b == 0)
    && b + 6 < f <= |s| && s[b..b + 6] == "story_" && AllDigits(s[b + 6..f]) && n == Value(s[b + 6..f])
    && (if f < |s| && s[f] == '_' then e == f + 1 else e == f && (f == |s| || (f == |s| - 1 && s[f] == '\n')))
  }

  lemma {:induction false} IdAtExactly(s: string, i: nat, n: nat, e: nat)
    requires i < |s|
    ensures IdAt(s, i) == Some(Hit(n, e)) <==> IdHit(s, i, n, e)
  {
    if IdHit(s, i, n, e) { DigitsEndIs(s, i + 6, e); }
  }

  lemma {:induction false} SlugAtExactly(s: string, i: nat, n: nat, e: nat)
    requires i < |s|
    ensures SlugAt(s, i) == Some(Hit(n, e)) <==> exists b: nat, f: nat :: SlugHit(s, i, b, f, n, e)
  {
    forall b: nat, f: nat | SlugHit(s, i, b, f, n, e) ensures DigitsEnd(s, b + 6) == f { DigitsEndIs(s, b + 6, f); }
    if SlugAt(s, i) == Some(Hit(n, e)) {
      var b := if s[i] == '/' then i + 1 else 0;
      assert SlugHit(s, i, b, DigitsEnd(s, b + 6), n, e);
    }
  }

  /** `starts` are where the matches of either pattern found from position `i` on begin: no match begins
      between one match's end and the next one's start, nor after the last one's end. */
  ghost predicate Successive(s: string, i: nat, starts: seq<nat>, numbers: seq<nat>)
    decreases |starts|
  {
    && |numbers| == |starts| && i <= |s|
    && if starts == [] then forall j | i <= j < |s| :: HitAt(s, j).None?
       else && i <= starts[0] < |s| && (forall j | i <= j < starts[0] :: HitAt(s, j).None?)
            && HitAt(s, starts[0]).Some? && HitAt(s, starts[0]).value.number == numbers[0]
            && Successive(s, HitAt(s, starts[0]).value.end, starts[1..], numbers[1..])
  }

  /** The numbers read from a text are those of the successive matches, from left to right. */
  lemma {:induction false} NumbersAreSuccessive(s: string, i: nat) returns (starts: seq<nat>)
    requires i <= |s|
    ensures Successive(s, i, starts, Numbers(s, i))
    decreases |s| - i
  {
    hide HitAt;
    if i == |s| {
      starts := [];
    } else {
      match HitAt(s, i)
      case Some(hit) =>
        var rest := NumbersAreSuccessive(s, hit.end);
        starts := [i] + rest;
        assert starts[1..] == rest && Numbers(s, i)[1..] == Numbers(s, hit.end);
      case None =>
        starts := NumbersAreSuccessive(s, i + 1);
    }
  }

  // ---------------------------------------------------------------- candidate names

  /** An item id is its prefix and time stamp, or that with the first free two-digit counter. */
  ghost predicate FreshItemId(prefix: string, stamp: string, used: set<string>, id: string) {
    var base := prefix + "-" + stamp;
    && id !in used
    && (id == base || (base in used && exists k: nat :: k >= 1 && id == base + "-" + Pad(2, k)
                                                        && forall j: nat | 1 <= j < k :: base + "-" + Pad(2, j) in used))
  }

  lemma {:induction false} ItemIdIsFresh(prefix: string, stamp: string, used: set<string>)
    ensures var scheme := ItemIdScheme(prefix, stamp);
            FreshItemId(prefix, stamp, used, Candidate(scheme, FirstFree(scheme, used)))
  {
    hide Pad;
    var scheme, base := ItemIdScheme(prefix, stamp), prefix + "-" + stamp;
    var k := FirstFree(scheme, used);
    assert Candidate(scheme, 0) == base;
    if k > 0 {
      forall j: nat | 1 <= j < k ensures base + "-" + Pad(2, j) in used { assert Candidate(scheme, j) in used; }
      assert Candidate(scheme, k) == base + "-" + Pad(2, k);
    }
  }

  /** A slug is its base, or the base with the first free counter from 2 on. */
  ghost predicate FreshSlug(base: string, used: set<string>, slug: string) {
    && slug !in used
    && (slug == base || (base in used && exists k: nat :: k >= 2 && slug == base + "_" + Pad(1, k)
                                                          && forall j: nat | 2 <= j < k :: base + "_" + Pad(1, j) in used))
  }

  lemma {:induction false} SlugIsFresh(base: string, used: set<string>)
    ensures FreshSlug(base, used, Candidate(SlugScheme(base), FirstFree(SlugScheme(base), used)))
  {
    hide Pad;
    var scheme := SlugScheme(base);
    var k := FirstFree(scheme, used);
    assert Candidate(scheme, 0) == base;
    if k > 0 {
      forall j: nat | 2 <= j < k + 1 ensures base + "_" + Pad(1, j) in used { assert Candidate(scheme, j - 1) in used; }
      assert Candidate(scheme, k) == base + "_" + Pad(1, k + 1);
    }
  }

  // ---------------------------------------------------------------- slug texts

  ghost predicate AllPlain(s: string) {
    forall i | 0 <= i < |s| :: 'a' <= s[i] <= 'z' || '0' <= s[i] <= '9'
  }

  ghost predicate NonePlain(s: string) {
    forall i | 0 <= i < |s| :: !('a' <= s[i] <= 'z') && !('0' <= s[i] <= '9')
  }

  /** `words` are the maximal runs of [a-z0-9] in `s`, in order. */
  ghost predicate RunsOf(s: string, words: seq<string>)
    decreases |words|
  {
    if words == [] then NonePlain(s)
    else exists gap, rest :: Begins(s, gap, words[0], rest) && RunsOf(rest, words[1..])
  }

  ghost predicate Begins(s: string, gap: string, word: string, rest: string) {
    s == gap + word + rest && NonePlain(gap) && word != "" && AllPlain(word) && (rest == "" || NonePlain(rest[..1]))
  }

  /** Each word after an underscore. */
  function Marked(words: seq<string>): string {
    if words == [] then "" else "_" + words[0] + Marked(words[1..])
  }

  function Underscored(words: seq<string>): string {
    if words == [] then "" else words[0] + Marked(words[1..])
  }

  lemma {:induction false} SquashGap(gap: string, t: string)
    requires NonePlain(gap)
    ensures Squash(gap + t, true) == Squash(t, true)
    ensures Squash(gap + t, false) == if gap == "" then Squash(t, false) else "_" + Squash(t, true)
  {
    if gap == "" {
      assert gap + t == t;
    } else {
      SquashGap(gap[1..], t);
      assert (gap + t)[1..] == gap[1..] + t;
    }
  }

  lemma {:induction false} SquashWord(word: string, t: string, inRun: bool)
    requires AllPlain(word) && word != ""
    ensures Squash(word + t, inRun) == word + Squash(t, false)
  {
    assert (word + t)[1..] == word[1..] + t && word == [word[0]] + word[1..];
    if |word| == 1 {
      assert word[1..] + t == t;
    } else {
      SquashWord(word[1..], t, false);
    }
  }

  /** The text is empty or begins in a gap. */
  ghost predicate InGap(s: string) {
    s == "" || NonePlain(s[..1])
  }

  lemma GapFirst(s: string, gap: string, word: string, rest: string)
    requires Begins(s, gap, word, rest)
    ensures InGap(s) <==> gap != ""
    ensures InGap(rest)
  {
    if gap == "" { assert s[0] == word[0] && s[..1][0] == s[0]; } else { assert s[..1][0] == gap[0]; }
  }

  lemma SquashFirst(s: string, gap: string, word: string, rest: string)
    requires Begins(s, gap, word, rest)
    ensures Squash(s, false) == (if gap == "" then word else "_" + word) + Squash(rest, false)
  {
    hide Squash, NonePlain, AllPlain;
    assert s == gap + (word + rest);
    SquashGap(gap, word + rest);
    SquashWord(word, rest, false);
    SquashWord(word, rest, true);
  }

  lemma SquashLast(s: string)
    requires NonePlain(s)
    ensures Squash(s, false) == if s == "" then "" else "_"
  {
    hide NonePlain;
    SquashGap(s, "");
    assert s + "" == s;
  }

  /** From a gap on, squashing leaves each run after one underscore, and perhaps one more underscore. */
  lemma {:induction false} SquashRuns(s: string, words: seq<string>) returns (tail: string)
    requires RunsOf(s, words) && InGap(s)
    ensures tail == "" || tail == "_"
    ensures Squash(s, false) == Marked(words) + tail
    decreases |words|
  {
    hide Squash, NonePlain, AllPlain, InGap, Begins;
    if words == [] {
      SquashLast(s);
      tail := Squash(s, false);
    } else {
      var gap, rest :| Begins(s, gap, words[0], rest) && RunsOf(rest, words[1..]);
      GapFirst(s, gap, words[0], rest);
      SquashFirst(s, gap, words[0], rest);
      tail := SquashRuns(rest, words[1..]);
      var mark, more := "_" + words[0], Marked(words[1..]);
      assert mark + (more + tail) == (mark + more) + tail;
    }
  }

  lemma {:induction false} MarkedEnd(words: seq<string>)
    requires words != [] && forall k | 0 <= k < |words| :: words[k] != "" && AllPlain(words[k])
    ensures var r := Underscored(words); r != "" && r[0] != '_' && r[|r| - 1] != '_'
  {
    hide AllPlain;
    PlainEnds(words[0]);
    if |words| > 1 {
      var rest := words[1..];
      MarkedEnd(rest);
      assert Marked(rest) == "_" + Underscored(rest);
    }
  }

  lemma PlainEnds(word: string)
    requires word != "" && AllPlain(word)
    ensures word[0] != '_' && word[|word| - 1] != '_'
  {
  }

  lemma {:induction false} RunsArePlain(s: string, words: seq<string>)
    requires RunsOf(s, words)
    ensures forall k | 0 <= k < |words| :: words[k] != "" && AllPlain(words[k])
    decreases |words|
  {
    if words != [] {
      var gap, rest :| Begins(s, gap, words[0], rest) && RunsOf(rest, words[1..]);
      RunsArePlain(rest, words[1..]);
      forall k | 0 < k < |words| ensures words[k] != "" && AllPlain(words[k]) { assert words[k] == words[1..][k - 1]; }
    }
  }

  lemma LeftStrips(lead: string, t: string)
    requires (lead == "" || lead == "_") && t != "" && t[0] != '_'
    ensures StripUnderscoresLeft(lead + t) == t
  {
    if lead == "" { assert lead + t == t; } else { assert (lead + t)[1..] == t; }
  }

  lemma RightStrips(t: string, tail: string)
    requires (tail == "" || tail == "_") && t != "" && t[|t| - 1] != '_'
    ensures StripUnderscoresRight(t + tail) == t
  {
    if tail == "" { assert t + tail == t; } else { assert (t + tail)[..|t + tail| - 1] == t; }
  }

  lemma StripsUnderscores(lead: string, middle: string, tail: string)
    requires (lead == "" || lead == "_") && (tail == "" || tail == "_")
    requires middle != "" && middle[0] != '_' && middle[|middle| - 1] != '_'
    ensures StripUnderscoresRight(StripUnderscoresLeft(lead + (middle + tail))) == middle
  {
    hide StripUnderscoresLeft, StripUnderscoresRight;
    LeftStrips(lead, middle + tail);
    RightStrips(middle, tail);
  }

  /** The squashed text is its runs joined by underscores, with at most one more at each end. */
  lemma SquashedRuns(s: string, words: seq<string>) returns (lead: string, tail: string)
    requires RunsOf(s, words) && words != []
    ensures (lead == "" || lead == "_") && (tail == "" || tail == "_")
    ensures Squash(s, false) == lead + (Underscored(words) + tail)
  {
    hide Squash, NonePlain, AllPlain, InGap, Begins;
    var gap, rest :| Begins(s, gap, words[0], rest) && RunsOf(rest, words[1..]);
    GapFirst(s, gap, words[0], rest);
    SquashFirst(s, gap, words[0], rest);
    tail := SquashRuns(rest, words[1..]);
    lead := if gap == "" then "" else "_";
    var more := Marked(words[1..]);
    assert (lead + words[0]) + (more + tail) == lead + ((words[0] + more) + tail);
  }

  lemma NothingToStrip(s: string)
    requires s == "" || s == "_"
    ensures StripUnderscoresRight(StripUnderscoresLeft(s)) == ""
  {
    if s == "_" { assert s[1..] == ""; }
  }

  /** The slug text of a title is its runs of [a-z0-9], joined by single underscores; without any run it is
      "queue_item". */
  lemma {:induction false} SlugTextExactly(lowered: string, words: seq<string>)
    requires RunsOf(lowered, words)
    ensures SafeSlugText(lowered) == if words == [] then "queue_item" else Underscored(words)
  {
    SafeSlugShape(lowered);
    if words == [] {
      SquashLast(lowered);
      NothingToStrip(Squash(lowered, false));
      hide Squash, StripUnderscoresLeft, StripUnderscoresRight;
    } else {
      hide Squash, Collapse, RunsOf, Underscored, StripUnderscoresLeft, StripUnderscoresRight;
      var lead, tail := SquashedRuns(lowered, words);
      RunsArePlain(lowered, words);
      MarkedEnd(words);
      StripsUnderscores(lead, Underscored(words), tail);
    }
  }

  /** Every text has such runs. */
  lemma {:induction false} RunsExist(s: string) returns (words: seq<string>)
    ensures RunsOf(s, words)
    decreases |s|
  {
    if NonePlain(s) {
      words := [];
    } else {
      var gap := FirstRun(s, 0);
      var end := RunEnd(s, gap);
      var more := RunsExist(s[end..]);
      words := [s[gap..end]] + more;
      assert words[1..] == more && s == s[..gap] + s[gap..end] + s[end..];
      assert Begins(s, s[..gap], words[0], s[end..]);
    }
  }

  lemma {:induction false} FirstRun(s: string, i: nat) returns (k: nat)
    requires i <= |s| && (forall j | 0 <= j < i :: !Plain(s[j])) && !NonePlain(s)
    ensures k < |s| && Plain(s[k]) && forall j | 0 <= j < k :: !Plain(s[j])
    decreases |s| - i
  {
    if Plain(s[i]) { k := i; } else { k := FirstRun(s, i + 1); }
  }

  lemma {:induction false} RunEnd(s: string, i: nat) returns (e: nat)
    requires i < |s| && Plain(s[i])
    ensures i < e <= |s| && AllPlain(s[i..e]) && (e == |s| || !Plain(s[e]))
    decreases |s| - i
  {
    if i + 1 == |s| || !Plain(s[i + 1]) {
      e := i + 1;
    } else {
      e := RunEnd(s, i + 1);
      assert s[i..e] == [s[i]] + s[i + 1..e];
    }
  }
}
