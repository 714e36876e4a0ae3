/**
 * The derived view `filteredDogs`: the dogs whose name or breed contains the
 * search term (case-insensitively) and whose size matches the size selector.
 */
module DogFilter {
  import opened Wrappers
  import opened Text
  import opened Dogs

  /**
   * `dog.name?.toLowerCase().includes(q) || dog.breed?.toLowerCase().includes(q)`,
   * with the search term lower-cased too. An absent property yields
   * `undefined`, which is falsy: it never matches, not even the empty term.
   */
  predicate MatchesSearch(d: Dog, q: string) {
    (d.name.Some? && Contains(Lower(d.name.value), Lower(q)))
    || (d.breed.Some? && Contains(Lower(d.breed.value), Lower(q)))
  }

  /** `sizeFilter === 'all' || dog.size === sizeFilter`. */
  predicate MatchesSize(d: Dog, sizeFilter: string) {
    sizeFilter == "all" || d.size == Some(sizeFilter)
  }

  /** The filter callback. */
  predicate Keep(d: Dog, q: string, sizeFilter: string) {
    MatchesSearch(d, q) && MatchesSize(d, sizeFilter)
  }

  predicate HasNameOrBreed(d: Dog) {
    d.name.Some? || d.breed.Some?
  }

  /** `dogs.filter(...)`: the kept dogs, in their original order. */
  function Filtered(dogs: seq<Dog>, q: string, sizeFilter: string): (r: seq<Dog>)
    ensures |r| <= |dogs|
    ensures forall d :: d in r ==> d in dogs && Keep(d, q, sizeFilter)
  {
    if dogs == [] then []
    else (if Keep(dogs[0], q, sizeFilter) then [dogs[0]] else []) + Filtered(dogs[1..], q, sizeFilter)
  }

  /** A dog is in the view iff it is in the collection and passes both tests. */
  lemma {:induction false} FilteredMembership(dogs: seq<Dog>, q: string, sizeFilter: string, d: Dog)
    ensures d in Filtered(dogs, q, sizeFilter) <==> d in dogs && Keep(d, q, sizeFilter)
  {
    if dogs != [] && d != dogs[0] {
      FilteredMembership(dogs[1..], q, sizeFilter, d);
      assert d in dogs <==> d in dogs[1..];
    }
  }

  /** Every index of `s`, plus one. */
  ghost function Shift(s: seq<nat>): (r: seq<nat>)
    ensures |r| == |s| && forall k :: 0 <= k < |s| ==> r[k] == s[k] + 1
  {
    seq(|s|, k requires 0 <= k < |s| => s[k] + 1)
  }

  /** The positions, in `dogs`, of the dogs the filter keeps. */
  ghost function KeptIndices(dogs: seq<Dog>, q: string, sizeFilter: string): seq<nat>
  {
    if dogs == [] then []
    else
      var shifted := Shift(KeptIndices(dogs[1..], q, sizeFilter));
      if Keep(dogs[0], q, sizeFilter) then [0] + shifted else shifted
  }

  lemma ShiftMembership(s: seq<nat>, j: int)
    ensures j in Shift(s) <==> 1 <= j && j - 1 in s
  {
    if 1 <= j && j - 1 in s {
      var k :| 0 <= k < |s| && s[k] == j - 1;
      assert Shift(s)[k] == j;
    }
  }

  lemma {:induction false} KeptIndicesAt(dogs: seq<Dog>, q: string, sizeFilter: string)
    ensures |KeptIndices(dogs, q, sizeFilter)| == |Filtered(dogs, q, sizeFilter)|
    ensures forall k :: 0 <= k < |KeptIndices(dogs, q, sizeFilter)| ==>
      KeptIndices(dogs, q, sizeFilter)[k] < |dogs|
      && Filtered(dogs, q, sizeFilter)[k] == dogs[KeptIndices(dogs, q, sizeFilter)[k]]
  {
    if dogs != [] {
      KeptIndicesAt(dogs[1..], q, sizeFilter);
    }
  }

  lemma {:induction false} KeptIndicesIncreasing(dogs: seq<Dog>, q: string, sizeFilter: string)
    ensures forall k, l :: 0 <= k < l < |KeptIndices(dogs, q, sizeFilter)| ==>
      KeptIndices(dogs, q, sizeFilter)[k] < KeptIndices(dogs, q, sizeFilter)[l]
  {
    if dogs != [] {
      KeptIndicesIncreasing(dogs[1..], q, sizeFilter);
    }
  }

  lemma {:induction false} KeptIndicesExact(dogs: seq<Dog>, q: string, sizeFilter: string, j: int)
    requires 0 <= j < |dogs|
    ensures Keep(dogs[j], q, sizeFilter) <==> j in KeptIndices(dogs, q, sizeFilter)
  {
    var rest := KeptIndices(dogs[1..], q, sizeFilter);
    ShiftMembership(rest, j);
    if j > 0 {
      KeptIndicesExact(dogs[1..], q, sizeFilter, j - 1);
      assert dogs[1..][j - 1] == dogs[j];
    }
  }

  /**
   * The view is exactly the kept dogs of the collection, each at one
   * position of the collection, in collection order.
   */
  lemma FilteredIndices(dogs: seq<Dog>, q: string, sizeFilter: string)
    ensures var idx := KeptIndices(dogs, q, sizeFilter);
      && |idx| == |Filtered(dogs, q, sizeFilter)|
      && (forall k :: 0 <= k < |idx| ==> idx[k] < |dogs| && Filtered(dogs, q, sizeFilter)[k] == dogs[idx[k]])
      && (forall k, l :: 0 <= k < l < |idx| ==> idx[k] < idx[l])
      && (forall j :: 0 <= j < |dogs| ==> (Keep(dogs[j], q, sizeFilter) <==> j in idx))
  {
    KeptIndicesAt(dogs, q, sizeFilter);
    KeptIndicesIncreasing(dogs, q, sizeFilter);
    forall j | 0 <= j < |dogs|
      ensures Keep(dogs[j], q, sizeFilter) <==> j in KeptIndices(dogs, q, sizeFilter)
    {
      KeptIndicesExact(dogs, q, sizeFilter, j);
    }
  }

  /** Filtering distributes over concatenation, so it never reorders. */
  lemma {:induction false} FilteredConcat(a: seq<Dog>, b: seq<Dog>, q: string, sizeFilter: string)
    ensures Filtered(a + b, q, sizeFilter) == Filtered(a, q, sizeFilter) + Filtered(b, q, sizeFilter)
  {
    if a == [] {
      assert a + b == b;
    } else {
      var head := if Keep(a[0], q, sizeFilter) then [a[0]] else [];
      assert (a + b)[0] == a[0];
      assert (a + b)[1..] == a[1..] + b;
      calc {
        Filtered(a + b, q, sizeFilter);
        head + Filtered(a[1..] + b, q, sizeFilter);
        { FilteredConcat(a[1..], b, q, sizeFilter); }
        head + (Filtered(a[1..], q, sizeFilter) + Filtered(b, q, sizeFilter));
        (head + Filtered(a[1..], q, sizeFilter)) + Filtered(b, q, sizeFilter);
      }
    }
  }

  /** Filtering the view again with the same filter state changes nothing. */
  lemma {:induction false} FilteredIdempotent(dogs: seq<Dog>, q: string, sizeFilter: string)
    ensures Filtered(Filtered(dogs, q, sizeFilter), q, sizeFilter) == Filtered(dogs, q, sizeFilter)
  {
    if dogs != [] {
      var head := if Keep(dogs[0], q, sizeFilter) then [dogs[0]] else [];
      FilteredIdempotent(dogs[1..], q, sizeFilter);
      FilteredConcat(head, Filtered(dogs[1..], q, sizeFilter), q, sizeFilter);
      if head != [] {
        assert head[1..] == [];
      }
    }
  }

  /** The search is case-insensitive: lower-casing the term first gives the same view. */
  lemma {:induction false} SearchCaseInsensitive(dogs: seq<Dog>, q: string, sizeFilter: string)
    ensures Filtered(dogs, Lower(q), sizeFilter) == Filtered(dogs, q, sizeFilter)
  {
    LowerIdempotent(q);
    if dogs != [] {
      SearchCaseInsensitive(dogs[1..], q, sizeFilter);
    }
  }

  /** With the empty term and all sizes, a dog is kept iff it has a name or a breed. */
  lemma EmptySearchKeeps(d: Dog)
    ensures Keep(d, "", "all") <==> HasNameOrBreed(d)
  {
    assert Lower("") == "";
    if d.name.Some? {
      ContainsEmpty(Lower(d.name.value));
    }
    if d.breed.Some? {
      ContainsEmpty(Lower(d.breed.value));
    }
  }

  /**
   * With the empty term and all sizes the view is the whole collection
   * exactly when every dog has a name or a breed; otherwise the view is
   * precisely the dogs that have one.
   */
  lemma {:induction false} EmptySearchAllSizes(dogs: seq<Dog>)
    ensures forall d :: d in Filtered(dogs, "", "all") <==> d in dogs && HasNameOrBreed(d)
    ensures Filtered(dogs, "", "all") == dogs <==> forall i :: 0 <= i < |dogs| ==> HasNameOrBreed(dogs[i])
  {
    forall d
      ensures d in Filtered(dogs, "", "all") <==> d in dogs && HasNameOrBreed(d)
    {
      FilteredMembership(dogs, "", "all", d);
      EmptySearchKeeps(d);
    }
    if dogs != [] {
      EmptySearchAllSizes(dogs[1..]);
      EmptySearchKeeps(dogs[0]);
      if Filtered(dogs, "", "all") == dogs {
        assert forall i :: 0 <= i < |dogs| ==> dogs[i] in Filtered(dogs, "", "all");
      }
      if forall i :: 0 <= i < |dogs| ==> HasNameOrBreed(dogs[i]) {
        assert forall i :: 0 <= i < |dogs[1..]| ==> HasNameOrBreed(dogs[1..][i]) by {
          forall i | 0 <= i < |dogs[1..]| ensures HasNameOrBreed(dogs[1..][i]) {
            assert dogs[1..][i] == dogs[i + 1];
          }
        }
      }
    }
  }

  /** `s.toLowerCase().includes(s.toLowerCase())`: a string contains itself. */
  lemma ContainsSelf(s: string)
    ensures Contains(s, s)
  {
    assert s <= s;
  }

  /**
   * A record built from a valid form or from a template is shown under the
   * empty search, and a template record is found by searching its breed.
   */
  lemma NewRecordsVisible(v: DogForm, t: Template, draw: nat)
    requires FormValid(v) && draw < 8
    ensures Keep(FromForm(v), "", "all")
    ensures Keep(FromTemplate(t, draw), "", "all")
    ensures Keep(FromTemplate(t, draw), t.breed, "all")
  {
    EmptySearchKeeps(FromForm(v));
    EmptySearchKeeps(FromTemplate(t, draw));
    ContainsSelf(Lower(t.breed));
  }

  /** Toggling the favourite flag never changes whether a dog is shown. */
  lemma ToggleKeepsVisibility(d: Dog, q: string, sizeFilter: string)
    ensures Keep(Toggled(d), q, sizeFilter) == Keep(d, q, sizeFilter)
  {
  }

  /** The three worked examples over the collection holding only Rex. */
  lemma RexExamples()
    ensures var rex := Dog(Some("1"), Some("Rex"), Some("Beagle"), None, Some("medium"), None, None, None, Some(false));
      && Filtered([rex], "rex", "all") == [rex]
      && Filtered([rex], "", "large") == []
      && Filtered([rex], "", "all") == [rex]
  {
    var rex := Dog(Some("1"), Some("Rex"), Some("Beagle"), None, Some("medium"), None, None, None, Some(false));
    assert Lower("Rex") == "rex";
    assert Lower("rex") == "rex";
    ContainsSelf("rex");
    EmptySearchKeeps(rex);
  }
}
