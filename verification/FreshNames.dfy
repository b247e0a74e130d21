/** The two "try the plain name, then numbered ones" searches of
    src/agentic_dev/queue_management.py: item ids and story slugs. */
module FreshNames {
  import Numerals

  /** A naming scheme: `base`, then `base` + separator + zero-padded counters from `first` on. */
  datatype Scheme = Scheme(base: string, separator: char, width: nat, first: nat)

  function Candidate(scheme: Scheme, k: nat): string {
    if k == 0 then scheme.base
    else scheme.base + [scheme.separator] + Numerals.Pad(scheme.width, scheme.first + k - 1)
  }

  lemma CandidatesDiffer(scheme: Scheme, j: nat, k: nat)
    requires j != k
    ensures Candidate(scheme, j) != Candidate(scheme, k)
  {
    var n := |scheme.base| + 1;
    if j > 0 && k > 0 {
      assert Candidate(scheme, j)[n..] == Numerals.Pad(scheme.width, scheme.first + j - 1);
      assert Candidate(scheme, k)[n..] == Numerals.Pad(scheme.width, scheme.first + k - 1);
      if Candidate(scheme, j) == Candidate(scheme, k) {
        Numerals.PadIsInjective(scheme.width, scheme.first + j - 1, scheme.first + k - 1);
      }
    } else {
      assert |Candidate(scheme, 0)| < |Candidate(scheme, if j > 0 then j else k)|;
    }
  }

  ghost predicate TakenBelow(scheme: Scheme, used: set<string>, k: nat) {
    forall i: nat | i < k :: Candidate(scheme, i) in used
  }

  ghost function CandidatesBelow(scheme: Scheme, k: nat): set<string> {
    if k == 0 then {} else CandidatesBelow(scheme, k - 1) + {Candidate(scheme, k - 1)}
  }

  lemma {:induction false} CandidatesBelowCount(scheme: Scheme, k: nat)
    ensures |CandidatesBelow(scheme, k)| == k
  {
    hide Candidate;
    if k > 0 {
      CandidatesBelowCount(scheme, k - 1);
      NotTriedBefore(scheme, k - 1, k - 1);
    }
  }

  lemma {:induction false} NotTriedBefore(scheme: Scheme, n: nat, k: nat)
    requires n <= k
    ensures Candidate(scheme, k) !in CandidatesBelow(scheme, n)
  {
    hide Candidate;
    if n > 0 {
      NotTriedBefore(scheme, n - 1, k);
      CandidatesDiffer(scheme, n - 1, k);
    }
  }

  lemma {:induction false} TriedAreUsed(scheme: Scheme, used: set<string>, k: nat)
    requires TakenBelow(scheme, used, k)
    ensures CandidatesBelow(scheme, k) <= used
  {
    hide Candidate;
    if k > 0 { TriedAreUsed(scheme, used, k - 1); }
  }

  /** Pigeonhole: at most as many candidates in a row can be taken as there are names in use. */
  lemma TakenAtMostAll(scheme: Scheme, used: set<string>, k: nat)
    requires TakenBelow(scheme, used, k)
    ensures k <= |used|
  {
    CandidatesBelowCount(scheme, k);
    TriedAreUsed(scheme, used, k);
    var tried := CandidatesBelow(scheme, k);
    assert used == tried + (used - tried);
    assert |used| == |tried| + |used - tried|;
  }

  /** `k` is the number of the first free candidate. */
  ghost predicate IsFirstFree(scheme: Scheme, used: set<string>, k: nat) {
    TakenBelow(scheme, used, k) && Candidate(scheme, k) !in used
  }

  /** The first free candidate at or after `k`. */
  function FirstFree(scheme: Scheme, used: set<string>, k: nat := 0): (r: nat)
    requires TakenBelow(scheme, used, k)
    ensures k <= r <= |used| && IsFirstFree(scheme, used, r)
    decreases |used| + 1 - k
  {
    TakenAtMostAll(scheme, used, k);
    if Candidate(scheme, k) !in used then k
    else
      TakenAtMostAll(scheme, used, k + 1);
      FirstFree(scheme, used, k + 1)
  }

  lemma FirstFreeIsUnique(scheme: Scheme, used: set<string>, k: nat)
    requires IsFirstFree(scheme, used, k)
    ensures k == FirstFree(scheme, used)
  {
    var f := FirstFree(scheme, used);
    assert f == k;
  }

  /** `{prefix}-{timestamp}`, then `-01`, `-02`, ... */
  function ItemIdScheme(prefix: string, stamp: string): Scheme {
    Scheme(prefix + "-" + stamp, '-', 2, 1)
  }

  /** `base`, then `base_2`, `base_3`, ... */
  function SlugScheme(base: string): Scheme {
    Scheme(base, '_', 1, 2)
  }

  /** generate_item_id: the loop ends, on an unused id, after at most as many steps as there are names. */
  method GenerateItemId(prefix: string, stamp: string, used: set<string>) returns (candidate: string)
    ensures candidate !in used
    ensures candidate == Candidate(ItemIdScheme(prefix, stamp), FirstFree(ItemIdScheme(prefix, stamp), used))
  {
    ghost var scheme := ItemIdScheme(prefix, stamp);
    var baseId := prefix + "-" + stamp;
    candidate := baseId;
    var counter := 1;
    while candidate in used
      invariant counter >= 1 && candidate == Candidate(scheme, counter - 1)
      invariant TakenBelow(scheme, used, counter - 1)
      decreases |used| + 1 - counter
    {
      candidate := baseId + "-" + Numerals.Pad(2, counter);
      counter := counter + 1;
      TakenAtMostAll(scheme, used, counter - 1);
    }
    FirstFreeIsUnique(scheme, used, counter - 1);
  }

  /** unique_story_slug's loop, with the names taken by the blueprint and by the stories folder. */
  method UniqueName(base: string, used: set<string>) returns (candidate: string)
    ensures candidate !in used
    ensures candidate == Candidate(SlugScheme(base), FirstFree(SlugScheme(base), used))
  {
    ghost var scheme := SlugScheme(base);
    candidate := base;
    var counter := 2;
    while candidate in used
      invariant counter >= 2 && candidate == Candidate(scheme, counter - 2)
      invariant TakenBelow(scheme, used, counter - 2)
      decreases |used| + 2 - counter
    {
      candidate := base + "_" + Numerals.Pad(1, counter);
      counter := counter + 1;
      TakenAtMostAll(scheme, used, counter - 2);
    }
    FirstFreeIsUnique(scheme, used, counter - 2);
  }
}
