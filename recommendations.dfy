/** The recommendation stub: both generators return the first five items of a shuffled copy of a fixed
    pool, whatever mood, weather and filters they are given, and the "recent" list is the first two
    items of each pool, tagged, in shuffled order.

    The shuffle `[...pool].sort(() => 0.5 - Math.random())` is modelled as an arbitrary permutation of
    the copy: the caller supplies `perm`, a rearrangement of the indices `0 .. |pool| - 1`, and the
    shuffled copy is `pool[perm[0]], pool[perm[1]], ...`. No distribution is modelled. The pools are
    constants, so nothing here can change them. */
module Recommendations {
  import opened Common
  import opened MediaItems

  const MockMovies: seq<Item> := [
      MovieItem("m1", "The Midnight Sky", "George Clooney", 2020, "118 min", "Sci-Fi, Drama", "5.0",
        "A lone scientist in the Arctic races to contact a crew of astronauts returning home to a mysterious global catastrophe.",
        "https://images.pexels.com/photos/2150/sky-space-dark-galaxy.jpg?auto=compress&cs=tinysrgb&w=1260&h=750&dpr=2"),
      MovieItem("m2", "Rainy Day in New York", "Woody Allen", 2019, "92 min", "Comedy, Romance", "4.2",
        "A young couple arrives in New York for a weekend where they are met with bad weather and a series of adventures.",
        "https://images.pexels.com/photos/2129796/pexels-photo-2129796.png?auto=compress&cs=tinysrgb&w=1260&h=750&dpr=2"),
      MovieItem("m3", "Sunset Boulevard", "Billy Wilder", 1950, "110 min", "Drama, Film-Noir", "4.8",
        "A screenwriter is hired to rework a faded silent film star's script, only to find himself developing a dangerous relationship.",
        "https://images.pexels.com/photos/2258536/pexels-photo-2258536.jpeg?auto=compress&cs=tinysrgb&w=1260&h=750&dpr=2"),
      MovieItem("m4", "Neon Nights", "Anna Rodriguez", 2022, "125 min", "Thriller, Action", "4.6",
        "A detective investigates a series of murders in a city where it never stops raining, and the neon lights never go out.",
        "https://images.pexels.com/photos/1722183/pexels-photo-1722183.jpeg?auto=compress&cs=tinysrgb&w=1260&h=750&dpr=2"),
      MovieItem("m5", "Morning Joy", "Michael Chen", 2021, "105 min", "Drama, Family", "4.3",
        "A family rediscovers what truly matters while spending a summer in a small coastal town.",
        "https://images.pexels.com/photos/1671325/pexels-photo-1671325.jpeg?auto=compress&cs=tinysrgb&w=1260&h=750&dpr=2")
  ]

  const MockMusic: seq<Item> := [
      SongItem("s1", "Summer Breeze", "The Ocean Waves", "3:42", "Indie Pop", "Coastal Memories", "4.7",
        "An upbeat summer anthem that captures the feeling of a perfect day at the beach with friends.",
        "https://images.pexels.com/photos/1105666/pexels-photo-1105666.jpeg?auto=compress&cs=tinysrgb&w=1260&h=750&dpr=2"),
      SongItem("s2", "Rainy Reflections", "Echo Chamber", "4:15", "Lo-fi, Ambient", "Weather Patterns", "4.5",
        "A soothing melody perfect for rainy days, studying, or quiet contemplation.",
        "https://images.pexels.com/photos/3721941/pexels-photo-3721941.jpeg?auto=compress&cs=tinysrgb&w=1260&h=750&dpr=2"),
      SongItem("s3", "Midnight Drive", "Neon Pulse", "3:55", "Synthwave, Electronic", "After Hours", "4.8",
        "An energetic electronic track that captures the essence of driving through a city at night.",
        "https://images.pexels.com/photos/1694900/pexels-photo-1694900.jpeg?auto=compress&cs=tinysrgb&w=1260&h=750&dpr=2"),
      SongItem("s4", "Morning Serenity", "Daybreak Collective", "4:30", "Classical, New Age", "First Light", "4.6",
        "A peaceful piano composition designed to bring calm and clarity to your morning routine.",
        "https://images.pexels.com/photos/1571442/pexels-photo-1571442.jpeg?auto=compress&cs=tinysrgb&w=1260&h=750&dpr=2"),
      SongItem("s5", "Electric Storm", "Thunder & Lightning", "5:10", "Rock, Alternative", "Weather Systems", "4.4",
        "A powerful rock anthem with driving guitars and thunderous drums, perfect for workouts or when you need motivation.",
        "https://images.pexels.com/photos/1114690/pexels-photo-1114690.jpeg?auto=compress&cs=tinysrgb&w=1260&h=750&dpr=2")
  ]

  /** The index sequence `0, 1, ..., n - 1`. */
  function Identity(n: nat): (r: seq<nat>)
    ensures |r| == n && forall i :: 0 <= i < n ==> r[i] == i
  {
    seq(n, i => i)
  }

  /** `p` lists each index below `n` exactly once, in some order. */
  ghost predicate IsIndexPermutation(p: seq<nat>, n: nat)
  {
    multiset(p) == multiset(Identity(n))
  }

  /** Every entry of `p` is an index below `n`. */
  predicate IndicesBelow(p: seq<nat>, n: nat)
  {
    forall i :: 0 <= i < |p| ==> p[i] < n
  }

  /** Every entry of an index permutation is a valid index, and it has exactly `n` entries. */
  lemma IndexPermutationBounds(p: seq<nat>, n: nat)
    requires IsIndexPermutation(p, n)
    ensures |p| == n
    ensures IndicesBelow(p, n)
  {
    assert |multiset(p)| == |multiset(Identity(n))|;
    forall i | 0 <= i < |p| ensures p[i] < n {
      assert p[i] in multiset(p);
      assert p[i] in Identity(n);
    }
  }

  /** The copy of `pool` rearranged by the index sequence `p`. */
  function Rearrange<T>(pool: seq<T>, p: seq<nat>): (r: seq<T>)
    requires IndicesBelow(p, |pool|)
    ensures |r| == |p| && forall i :: 0 <= i < |p| ==> r[i] == pool[p[i]]
  {
    seq(|p|, i requires 0 <= i < |p| => pool[p[i]])
  }

  /** Rearranging by a concatenation is concatenating the rearrangements. */
  lemma RearrangeConcat<T>(pool: seq<T>, a: seq<nat>, b: seq<nat>)
    requires IndicesBelow(a, |pool|)
    requires IndicesBelow(b, |pool|)
    ensures IndicesBelow(a + b, |pool|)
    ensures Rearrange(pool, a + b) == Rearrange(pool, a) + Rearrange(pool, b)
  {
  }

  /** Dropping the entry at `j` drops one copy of it from the multiset. */
  lemma MultisetDropAt<T>(q: seq<T>, j: nat)
    requires j < |q|
    ensures multiset(q[..j] + q[j + 1..]) == multiset(q) - multiset{q[j]}
  {
    assert q == q[..j] + [q[j]] + q[j + 1..];
  }

  /** Splitting the index sequence at `j` splits the rearrangement at `j`; without `q[j]` the rest is rearranged as before. */
  lemma RearrangeSplitAt<T>(pool: seq<T>, q: seq<nat>, j: nat)
    requires IndicesBelow(q, |pool|)
    requires j < |q|
    ensures IndicesBelow(q[..j] + q[j + 1..], |pool|)
    ensures multiset(Rearrange(pool, q))
         == multiset(Rearrange(pool, q[..j] + q[j + 1..])) + multiset{pool[q[j]]}
  {
    var front, back := q[..j], q[j + 1..];
    var xb := [q[j]] + back;
    assert q == front + xb by {
      assert q == q[..j] + [q[j]] + q[j + 1..];
    }
    RearrangeConcat(pool, [q[j]], back);
    assert Rearrange(pool, [q[j]]) == [pool[q[j]]];
    RearrangeConcat(pool, front, xb);
    RearrangeConcat(pool, front, back);
  }

  /** A position holding `x`, for an `x` that occurs. */
  lemma IndexOf<T>(q: seq<T>, x: T) returns (j: nat)
    requires x in multiset(q)
    ensures j < |q| && q[j] == x
  {
    assert x in q;
    j :| 0 <= j < |q| && q[j] == x;
  }

  /** Rearranging by `p` is picking `pool[p[0]]` and rearranging by the rest of `p`. */
  lemma RearrangeHead<T>(pool: seq<T>, p: seq<nat>)
    requires IndicesBelow(p, |pool|) && p != []
    ensures IndicesBelow(p[1..], |pool|)
    ensures multiset(p[1..]) == multiset(p) - multiset{p[0]}
    ensures multiset(Rearrange(pool, p)) == multiset(Rearrange(pool, p[1..])) + multiset{pool[p[0]]}
  {
    assert p == [p[0]] + p[1..];
    RearrangeConcat(pool, [p[0]], p[1..]);
    assert Rearrange(pool, [p[0]]) == [pool[p[0]]];
  }

  /** Index sequences with the same multiset select the same multiset of elements. */
  lemma {:induction false} RearrangeMultiset<T>(pool: seq<T>, p: seq<nat>, q: seq<nat>)
    requires IndicesBelow(p, |pool|)
    requires IndicesBelow(q, |pool|)
    requires multiset(p) == multiset(q)
    ensures multiset(Rearrange(pool, p)) == multiset(Rearrange(pool, q))
    decreases |p|
  {
    if p == [] {
      assert |multiset(q)| == 0;
    } else {
      assert p[0] in multiset(p);
      var j := IndexOf(q, p[0]);
      var rest := q[..j] + q[j + 1..];
      MultisetDropAt(q, j);
      RearrangeHead(pool, p);
      RearrangeSplitAt(pool, q, j);
      RearrangeMultiset(pool, p[1..], rest);
    }
  }

  /** Rearranging by an index permutation yields a permutation of the pool. */
  lemma PermutedCopy<T>(pool: seq<T>, p: seq<nat>)
    requires IsIndexPermutation(p, |pool|)
    ensures IndicesBelow(p, |pool|)
    ensures |Rearrange(pool, p)| == |pool|
    ensures multiset(Rearrange(pool, p)) == multiset(pool)
  {
    IndexPermutationBounds(p, |pool|);
    RearrangeMultiset(pool, p, Identity(|pool|));
    assert Rearrange(pool, Identity(|pool|)) == pool;
  }

  /** `[...pool].sort(random).slice(0, 5)`: at most five items, drawn without repetition from the pool;
      when the pool has at most five items the result holds every pool item exactly once. */
  function ShuffleAndTake<T>(pool: seq<T>, perm: seq<nat>): (r: seq<T>)
    requires IsIndexPermutation(perm, |pool|)
    ensures |r| == Min(5, |pool|)
    ensures multiset(r) <= multiset(pool)
    ensures |pool| <= 5 ==> multiset(r) == multiset(pool)
  {
    PermutedCopy(pool, perm);
    var shuffled := Rearrange(pool, perm);
    var k := Min(5, |shuffled|);
    assert shuffled == shuffled[..k] + shuffled[k..];
    shuffled[..k]
  }

  /** `generateMovieRecommendations(mood, weather, filters)`; the three arguments are accepted and ignored. */
  function GenerateMovieRecommendations<M, W, F>(
    mood: M, weather: W, filters: F, perm: seq<nat>): (r: seq<Item>)
    requires IsIndexPermutation(perm, |MockMovies|)
    ensures |r| == 5
    ensures multiset(r) == multiset(MockMovies)
  {
    ShuffleAndTake(MockMovies, perm)
  }

  /** `generateMusicRecommendations(mood, weather, filters)`; the three arguments are accepted and ignored. */
  function GenerateMusicRecommendations<M, W, F>(
    mood: M, weather: W, filters: F, perm: seq<nat>): (r: seq<Item>)
    requires IsIndexPermutation(perm, |MockMusic|)
    ensures |r| == 5
    ensures multiset(r) == multiset(MockMusic)
  {
    ShuffleAndTake(MockMusic, perm)
  }

  /** Which items come back depends on the shuffle alone, never on mood, weather or filters. This
      follows from the signatures: the generators take those arguments at generic types and never use them. */
  lemma GenerationIgnoresInputs<M, W, F>(m1: M, w1: W, f1: F, m2: M, w2: W, f2: F, perm: seq<nat>)
    requires IsIndexPermutation(perm, 5)
    ensures GenerateMovieRecommendations(m1, w1, f1, perm) == GenerateMovieRecommendations(m2, w2, f2, perm)
    ensures GenerateMusicRecommendations(m1, w1, f1, perm) == GenerateMusicRecommendations(m2, w2, f2, perm)
  {
  }

  /** The movie pool holds five items with the distinct ids m1 to m5. */
  lemma MoviePoolIds()
    ensures Ids(MockMovies) == ["m1", "m2", "m3", "m4", "m5"]
    ensures NoDup(Ids(MockMovies))
  {
    var ids := Ids(MockMovies);
    assert ids[0] == "m1" && ids[1] == "m2" && ids[2] == "m3" && ids[3] == "m4" && ids[4] == "m5";
  }

  /** The music pool holds five items with the distinct ids s1 to s5. */
  lemma MusicPoolIds()
    ensures Ids(MockMusic) == ["s1", "s2", "s3", "s4", "s5"]
    ensures NoDup(Ids(MockMusic))
  {
    var ids := Ids(MockMusic);
    assert ids[0] == "s1" && ids[1] == "s2" && ids[2] == "s3" && ids[3] == "s4" && ids[4] == "s5";
  }

  /** The four tagged records `fetchRecentRecommendations` combines before shuffling. */
  function RecentPool(): (r: seq<Tagged>)
    ensures r == [Tagged(MockMovies[0], Movie), Tagged(MockMovies[1], Movie),
                  Tagged(MockMusic[0], Music), Tagged(MockMusic[1], Music)]
  {
    TagAll(MockMovies[..2], Movie) + TagAll(MockMusic[..2], Music)
  }

  /** `fetchRecentRecommendations(userId)`: m1 and m2 tagged `movie` and s1 and s2 tagged `music`, each once, in shuffled order. */
  function FetchRecentRecommendations(userId: string, perm: seq<nat>): (r: seq<Tagged>)
    requires IsIndexPermutation(perm, 4)
    ensures |r| == 4
    ensures multiset(r) == multiset{Tagged(MockMovies[0], Movie), Tagged(MockMovies[1], Movie),
                                    Tagged(MockMusic[0], Music), Tagged(MockMusic[1], Music)}
    ensures forall i :: 0 <= i < |r| ==> r[i].item.id in {"m1", "m2", "s1", "s2"}
  {
    var pool := RecentPool();
    PermutedCopy(pool, perm);
    var r := Rearrange(pool, perm);
    forall i | 0 <= i < |r| ensures r[i].item.id in {"m1", "m2", "s1", "s2"} {
      assert r[i] in multiset(r);
    }
    r
  }
}
