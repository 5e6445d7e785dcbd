/** The mock favorites store: a module-level list of tagged records, keyed by `id`. Saving appends a
    record whose id is absent and ignores one whose id is present; removing filters out every record
    with the id. Every call reports success and ignores `userId`; the simulated delay is not modelled. */
module Favorites {
  import opened Common
  import opened MediaItems
  import Recommendations

  /** `favs.some(fav => fav.id === id)`. */
  function HasId(favs: seq<Tagged>, id: string): (b: bool)
    ensures b <==> exists i :: 0 <= i < |favs| && favs[i].item.id == id
    decreases |favs|
  {
    if favs == [] then false else favs[0].item.id == id || HasId(favs[1..], id)
  }

  /** `favs.filter(item => item.id !== id)`: every record with that id removed, the others kept in order. */
  function WithoutId(favs: seq<Tagged>, id: string): (r: seq<Tagged>)
    ensures forall f :: f in r ==> f in favs && f.item.id != id
    ensures forall f :: f in favs && f.item.id != id ==> f in r
    ensures !HasId(r, id)
    ensures !HasId(favs, id) ==> r == favs
    decreases |favs|
  {
    if favs == [] then []
    else if favs[0].item.id == id then WithoutId(favs[1..], id)
    else [favs[0]] + WithoutId(favs[1..], id)
  }

  /** Filtering distributes over concatenation, so the survivors keep their relative order. */
  lemma {:induction false} WithoutIdAppend(a: seq<Tagged>, b: seq<Tagged>, id: string)
    ensures WithoutId(a + b, id) == WithoutId(a, id) + WithoutId(b, id)
  {
    if a == [] {
      assert a + b == b;
    } else {
      assert (a + b)[0] == a[0];
      assert (a + b)[1..] == a[1..] + b;
      WithoutIdAppend(a[1..], b, id);
    }
  }

  /** No two records share an id. */
  ghost predicate UniqueIds(favs: seq<Tagged>)
  {
    forall i, j :: 0 <= i < j < |favs| ==> favs[i].item.id != favs[j].item.id
  }

  /** The list after `saveToFavorites(userId, item, kind)`. */
  function Saved(favs: seq<Tagged>, item: Item, kind: Kind): (r: seq<Tagged>)
    ensures HasId(favs, item.id) ==> r == favs
    ensures !HasId(favs, item.id) ==> |r| == |favs| + 1 && r[..|favs|] == favs && r[|favs|] == Tagged(item, kind)
    ensures HasId(r, item.id)
  {
    if HasId(favs, item.id) then favs else favs + [Tagged(item, kind)]
  }

  /** Saving never introduces a second record with the same id. */
  lemma SavedKeepsIdsUnique(favs: seq<Tagged>, item: Item, kind: Kind)
    requires UniqueIds(favs)
    ensures UniqueIds(Saved(favs, item, kind))
  {
    if !HasId(favs, item.id) {
      var r := Saved(favs, item, kind);
      forall i, j | 0 <= i < j < |r| ensures r[i].item.id != r[j].item.id {
        assert r[i] == favs[i];
        if j < |favs| { assert r[j] == favs[j]; }
      }
    }
  }

  /** A list with unique ids splits into a head whose id is not in the tail, and a tail with unique ids. */
  lemma UniqueIdsSplit(favs: seq<Tagged>)
    requires favs != [] && UniqueIds(favs)
    ensures UniqueIds(favs[1..])
    ensures !HasId(favs[1..], favs[0].item.id)
  {
    var tail := favs[1..];
    forall i, j | 0 <= i < j < |tail| ensures tail[i].item.id != tail[j].item.id {
      assert tail[i] == favs[i + 1] && tail[j] == favs[j + 1];
    }
    forall k | 0 <= k < |tail| ensures tail[k].item.id != favs[0].item.id {
      assert tail[k] == favs[k + 1];
    }
  }

  /** A record whose id is not in a list with unique ids can be put in front of it. */
  lemma UniqueIdsCons(x: Tagged, rest: seq<Tagged>)
    requires UniqueIds(rest) && !HasId(rest, x.item.id)
    ensures UniqueIds([x] + rest)
  {
    var r := [x] + rest;
    forall i, j | 0 <= i < j < |r| ensures r[i].item.id != r[j].item.id {
      assert r[j] == rest[j - 1];
      if i > 0 { assert r[i] == rest[i - 1]; }
    }
  }

  /** Removing records never brings in an id. */
  lemma {:induction false} WithoutIdKeepsAbsent(favs: seq<Tagged>, id: string, other: string)
    requires !HasId(favs, other)
    ensures !HasId(WithoutId(favs, id), other)
    decreases |favs|
  {
    if favs != [] {
      WithoutIdKeepsAbsent(favs[1..], id, other);
    }
  }

  /** Removing keeps ids unique. */
  lemma {:induction false} WithoutIdKeepsIdsUnique(favs: seq<Tagged>, id: string)
    requires UniqueIds(favs)
    ensures UniqueIds(WithoutId(favs, id))
    decreases |favs|
  {
    if favs != [] {
      UniqueIdsSplit(favs);
      WithoutIdKeepsIdsUnique(favs[1..], id);
      if favs[0].item.id != id {
        WithoutIdKeepsAbsent(favs[1..], id, favs[0].item.id);
        UniqueIdsCons(favs[0], WithoutId(favs[1..], id));
      }
    }
  }

  /** Saving a record whose id is absent and then removing that id gives back the original list. */
  lemma SaveThenRemoveRestores(favs: seq<Tagged>, item: Item, kind: Kind)
    requires !HasId(favs, item.id)
    ensures WithoutId(Saved(favs, item, kind), item.id) == favs
  {
    WithoutIdAppend(favs, [Tagged(item, kind)], item.id);
    assert favs + [] == favs;
  }

  /** `let mockFavorites = [...]`: utils/favorites.ts spells out movie m2 and song s1 of the recommendation pools, tagged. */
  function InitialFavorites(): (r: seq<Tagged>)
    ensures |r| == 2 && r[0].item.id == "m2" && r[1].item.id == "s1"
    ensures r[0].kind == Movie && r[1].kind == Music
    ensures UniqueIds(r)
  {
    var m2 := Recommendations.MockMovies[1];
    var s1 := Recommendations.MockMusic[0];
    [Tagged(m2, Movie), Tagged(s1, Music)]
  }

  /** The module-level `mockFavorites` list and the three exported functions over it. */
  class FavoritesStore {
    var mockFavorites: seq<Tagged>

    ghost predicate Valid()
      reads this
    {
      UniqueIds(mockFavorites)
    }

    constructor ()
      ensures mockFavorites == InitialFavorites() && Valid()
    {
      mockFavorites := InitialFavorites();
    }

    /** `getFavorites(userId)`: the current list, whoever asks. */
    method GetFavorites(userId: string) returns (r: seq<Tagged>)
      ensures r == mockFavorites
    {
      r := mockFavorites;
    }

    /** `saveToFavorites(userId, item, type)`. */
    method SaveToFavorites(userId: string, item: Item, kind: Kind) returns (success: bool)
      requires Valid()
      modifies this
      ensures Valid()
      ensures mockFavorites == Saved(old(mockFavorites), item, kind)
      ensures success
    {
      var itemWithType := Tagged(item, kind);
      var alreadySaved := HasId(mockFavorites, item.id);
      if !alreadySaved {
        SavedKeepsIdsUnique(mockFavorites, item, kind);
        mockFavorites := mockFavorites + [itemWithType];
      }
      success := true;
    }

    /** `removeFromFavorites(userId, itemId)`. */
    method RemoveFromFavorites(userId: string, itemId: string) returns (success: bool)
      requires Valid()
      modifies this
      ensures Valid()
      ensures mockFavorites == WithoutId(old(mockFavorites), itemId)
      ensures success
    {
      WithoutIdKeepsIdsUnique(mockFavorites, itemId);
      mockFavorites := WithoutId(mockFavorites, itemId);
      success := true;
    }
  }
}
