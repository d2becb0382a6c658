/** Lists of coin ids, as the two watchlist views keep them. */
module IdLists {

  predicate NoDuplicates(s: seq<string>)
  {
    forall i, j :: 0 <= i < j < |s| ==> s[i] != s[j]
  }

  /** `s.filter((id) => id !== x)`. On a duplicate-free list this is also `Set.delete(x)` on the
      set that iterates in the list's order. */
  function RemoveAll(s: seq<string>, x: string): (r: seq<string>)
  {
    if s == [] then [] else (if s[0] == x then [] else [s[0]]) + RemoveAll(s[1..], x)
  }

  /** Removal keeps every other id exactly as often as before and drops every copy of x. */
  lemma {:induction false} RemoveAllCounts(s: seq<string>, x: string)
    ensures multiset(RemoveAll(s, x))[x] == 0
    ensures forall y :: y != x ==> multiset(RemoveAll(s, x))[y] == multiset(s)[y]
    ensures |RemoveAll(s, x)| <= |s|
  {
    if s != [] {
      RemoveAllCounts(s[1..], x);
      assert s == [s[0]] + s[1..];
    }
  }

  /** Removal works piece by piece, so the ids that remain keep their relative order. */
  lemma {:induction false} RemoveAllDistributes(s: seq<string>, t: seq<string>, x: string)
    ensures RemoveAll(s + t, x) == RemoveAll(s, x) + RemoveAll(t, x)
  {
    if s == [] {
      assert s + t == t;
    } else {
      assert (s + t)[1..] == s[1..] + t;
      RemoveAllDistributes(s[1..], t, x);
    }
  }

  /** Removing an id that is not in the list leaves the list as it is. */
  lemma {:induction false} RemoveAbsentIsIdentity(s: seq<string>, x: string)
    requires x !in s
    ensures RemoveAll(s, x) == s
  {
    if s != [] {
      RemoveAbsentIsIdentity(s[1..], x);
    }
  }

  /** Removing twice is removing once. */
  lemma RemoveAllIdempotent(s: seq<string>, x: string)
    ensures RemoveAll(RemoveAll(s, x), x) == RemoveAll(s, x)
  {
    RemoveAllCounts(s, x);
    assert x !in multiset(RemoveAll(s, x));
    RemoveAbsentIsIdentity(RemoveAll(s, x), x);
  }

  /** Removal from a duplicate-free list leaves it duplicate-free. */
  lemma {:induction false} RemoveAllKeepsNoDuplicates(s: seq<string>, x: string)
    requires NoDuplicates(s)
    ensures NoDuplicates(RemoveAll(s, x))
  {
    if s != [] {
      RemoveAllKeepsNoDuplicates(s[1..], x);
      RemoveAllCounts(s[1..], x);
      assert s[0] !in s[1..];
      assert multiset(s[1..])[s[0]] == 0;
      assert s[0] !in RemoveAll(s[1..], x) by {
        assert multiset(RemoveAll(s[1..], x))[s[0]] == 0;
      }
    }
  }

  /** `new Set(list)` iterated in order: the first occurrence of every id. */
  function Dedup(s: seq<string>): (r: seq<string>)
  {
    if s == [] then []
    else
      var d := Dedup(s[..|s| - 1]);
      if s[|s| - 1] in d then d else d + [s[|s| - 1]]
  }

  /** The set built from a list holds exactly the list's ids, each once; a list that is already
      duplicate-free is kept as it is. */
  lemma {:induction false} DedupIsSetOfList(s: seq<string>)
    ensures NoDuplicates(Dedup(s))
    ensures forall y :: y in Dedup(s) <==> y in s
    ensures NoDuplicates(s) ==> Dedup(s) == s
  {
    if s != [] {
      var n := |s| - 1;
      DedupIsSetOfList(s[..n]);
      assert s == s[..n] + [s[n]];
      if NoDuplicates(s) {
        assert NoDuplicates(s[..n]);
        assert s[n] !in s[..n];
      }
    }
  }

  /** `toggleWatchlist` on the set: an id in the set is deleted, any other id is added last. */
  function Toggle(s: seq<string>, x: string): seq<string>
  {
    if x in s then RemoveAll(s, x) else s + [x]
  }

  /** Toggling flips the membership of x and keeps that of every other id; the set stays
      duplicate-free. */
  lemma ToggleFlipsMembership(s: seq<string>, x: string)
    requires NoDuplicates(s)
    ensures NoDuplicates(Toggle(s, x))
    ensures x in Toggle(s, x) <==> x !in s
    ensures forall y :: y != x ==> (y in Toggle(s, x) <==> y in s)
  {
    RemoveAllCounts(s, x);
    if x in s {
      RemoveAllKeepsNoDuplicates(s, x);
      assert x !in multiset(RemoveAll(s, x));
      forall y | y != x ensures y in RemoveAll(s, x) <==> y in s {
        assert y in multiset(RemoveAll(s, x)) <==> y in multiset(s);
      }
    }
  }

  /** Toggling twice restores the set; when x was absent it restores the very list. */
  lemma ToggleTwice(s: seq<string>, x: string)
    requires NoDuplicates(s)
    ensures forall y :: y in Toggle(Toggle(s, x), x) <==> y in s
    ensures x !in s ==> Toggle(Toggle(s, x), x) == s
  {
    ToggleFlipsMembership(s, x);
    ToggleFlipsMembership(Toggle(s, x), x);
    if x !in s {
      RemoveAllDistributes(s, [x], x);
      RemoveAbsentIsIdentity(s, x);
      assert RemoveAll([x], x) == [];
    }
  }
}
