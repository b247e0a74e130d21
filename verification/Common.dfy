/** Small shared vocabulary: optional values, results, and sequences without repetition. */
module Common {

  datatype Option<+T> = None | Some(value: T) {
    function GetOr(default: T): T {
      if Some? then value else default
    }
  }

  datatype Result<+T, +E> = Ok(value: T) | Err(error: E)

  ghost predicate NoDuplicates<T>(s: seq<T>) {
    forall i, j | 0 <= i < j < |s| :: s[i] != s[j]
  }

  lemma HeadAppearsOnce<T>(s: seq<T>)
    requires NoDuplicates(s) && s != []
    ensures s[0] !in s[1..]
  {
    forall i | 0 <= i < |s[1..]| ensures s[1..][i] != s[0] {
      assert s[1..][i] == s[i + 1];
    }
  }

  lemma OneMore<T>(s: seq<T>, v: T)
    ensures NoDuplicates(s + [v]) <==> NoDuplicates(s) && v !in s
  {
    var all := s + [v];
    assert all[|s|] == v && forall i | 0 <= i < |s| :: all[i] == s[i];
    if NoDuplicates(all) {
      forall i | 0 <= i < |s| ensures s[i] != v { assert all[i] != all[|s|]; }
    }
  }

  /** `[x for x in s if x != v]` */
  function Without<T(==,!new)>(s: seq<T>, v: T): (r: seq<T>)
    ensures forall x :: x in r <==> x in s && x != v
    ensures NoDuplicates(s) ==> NoDuplicates(r)
  {
    if s == [] then []
    else if s[0] == v then Without(s[1..], v)
    else
      assert NoDuplicates(s) ==> s[0] !in s[1..] by { if NoDuplicates(s) { HeadAppearsOnce(s); } }
      [s[0]] + Without(s[1..], v)
  }

  lemma WithoutOnly<T(!new)>(v: T)
    ensures Without([v], v) == [] && Without<T>([], v) == []
  {
    assert [v][1..] == [];
  }

  /** Removing a value goes from left to right: one more element at the end is kept last or not at all. */
  lemma {:induction false} WithoutKeepsOrder<T(!new)>(s: seq<T>, last: T, v: T)
    ensures Without(s + [last], v) == if last == v then Without(s, v) else Without(s, v) + [last]
  {
    if s == [] {
      WithoutOnly(last);
      assert s + [last] == [last] && [last][1..] == [];
    } else {
      WithoutKeepsOrder(s[1..], last, v);
      assert (s + [last])[1..] == s[1..] + [last];
    }
  }

  /** `if v not in s: s.append(v)` */
  function AppendOnce<T(==,!new)>(s: seq<T>, v: T): (r: seq<T>)
    ensures forall x :: x in r <==> x in s || x == v
    ensures NoDuplicates(s) ==> NoDuplicates(r)
    ensures s <= r
  {
    if v in s then s else s + [v]
  }

  function Min(a: int, b: int): int {
    if a < b then a else b
  }

  lemma EmptyOrInhabited<T(!new)>(s: seq<T>)
    ensures s == [] || exists x :: x in s
  {
    if s != [] {
      assert s[0] in s;
    }
  }

  /** A duplicate-free sequence has as many elements as its set of elements. */
  lemma {:induction false} SizeOfElements<T>(s: seq<T>)
    requires NoDuplicates(s)
    ensures |set x | x in s| == |s|
  {
    if s != [] {
      var rest := s[1..];
      SizeOfElements(rest);
      assert (set x | x in s) == (set x | x in rest) + {s[0]};
      HeadAppearsOnce(s);
    }
  }
}
