/** The community feed: a list of posts that a tap on a card promotes by a
    small random number of impressions, after which the whole list is ranked
    again by impressions, highest first (screens/RedditStyleFeed.js). */
module Feed {

  /** One card of the feed. Counters are JavaScript numbers that only ever
      hold integers here, so they are modelled as `int`. */
  datatype Post = Post(
    id: string,
    title: string,
    author: string,
    impressions: int,
    comments: int,
    likes: int)

  /** Bounds of `Math.floor(Math.random() * 20) + 1`. */
  const MinIncrement: int := 1
  const MaxIncrement: int := 20

  /** The three sample posts the screen starts with. */
  function InitialPosts(): seq<Post>
  {
    [ Post("1", "New React Native update released", "ReactNativeTeam", 1234, 250, 1200),
      Post("2", "Expo tips and tricks for beginners", "ExpoExpert", 499, 150, 800),
      Post("3", "React Native vs Flutter: Which is better?", "TechDebater", 500, 320, 900) ]
  }

  /** No two posts share an id (the list's `keyExtractor` relies on it). */
  predicate DistinctIds(s: seq<Post>)
  {
    forall i, j :: 0 <= i < j < |s| ==> s[i].id != s[j].id
  }

  /** Non-increasing order of impressions: the order the comparator
      `(a, b) => b.impressions - a.impressions` asks for. */
  predicate Sorted(s: seq<Post>)
  {
    forall i, j :: 0 <= i < j < |s| ==> s[i].impressions >= s[j].impressions
  }

  /** The posts of `s` that have exactly `k` impressions, in their order in `s`.
      A sort is stable when it keeps every such subsequence as it was. */
  function WithImpressions(s: seq<Post>, k: int): seq<Post>
  {
    if s == [] then []
    else (if s[0].impressions == k then [s[0]] else []) + WithImpressions(s[1..], k)
  }

  /** `a` and `b` list the posts of every impression count in the same order. */
  ghost predicate SameTies(a: seq<Post>, b: seq<Post>)
  {
    forall k :: WithImpressions(a, k) == WithImpressions(b, k)
  }

  // ---------------------------------------------------------------------------
  // The update step: `prevPosts.map(...)` with an object spread.
  // ---------------------------------------------------------------------------

  /** One post after a tap on the card with id `id`. */
  function BumpOne(p: Post, id: string, inc: int): Post
  {
    if p.id == id then p.(impressions := p.impressions + inc) else p
  }

  /** `prevPosts.map(...)`: every post whose id is `id` gains `inc`
      impressions and keeps all its other fields; every other post is
      returned as it was, in the same position. */
  function Bump(s: seq<Post>, id: string, inc: int): (r: seq<Post>)
    ensures |r| == |s|
    ensures forall i :: 0 <= i < |s| ==>
      r[i].id == s[i].id && r[i].title == s[i].title && r[i].author == s[i].author &&
      r[i].likes == s[i].likes && r[i].comments == s[i].comments
    ensures forall i :: 0 <= i < |s| && s[i].id != id ==> r[i] == s[i]
    ensures forall i :: 0 <= i < |s| && s[i].id == id ==> r[i].impressions == s[i].impressions + inc
  {
    if s == [] then [] else [BumpOne(s[0], id, inc)] + Bump(s[1..], id, inc)
  }

  /** A post whose id is not the tapped one occurs in the updated list exactly
      as often as it did before. */
  lemma {:induction false} BumpKeepsOthers(s: seq<Post>, id: string, inc: int, p: Post)
    requires p.id != id
    ensures multiset(Bump(s, id, inc))[p] == multiset(s)[p]
  {
    if s != [] {
      var t := Bump(s[1..], id, inc);
      BumpKeepsOthers(s[1..], id, inc, p);
      assert s == [s[0]] + s[1..];
      assert multiset(Bump(s, id, inc)) == multiset{BumpOne(s[0], id, inc)} + multiset(t);
      assert BumpOne(s[0], id, inc) == p <==> s[0] == p;
    }
  }

  // ---------------------------------------------------------------------------
  // The ranking step: `[...updatedPosts].sort(...)`. JavaScript's
  // `Array.prototype.sort` is stable, so the result is defined here as a
  // stable insertion sort; RankIsTheStableSort shows that no other ordering
  // satisfies what a stable sort with that comparator promises.
  // ---------------------------------------------------------------------------

  /** Place `p`, which came before every post of `s`, into the ranked list
      `s`: after the posts with strictly more impressions, before the rest. */
  function Insert(p: Post, s: seq<Post>): (r: seq<Post>)
    ensures |r| == |s| + 1
    ensures multiset(r) == multiset(s) + multiset{p}
  {
    if s == [] || p.impressions >= s[0].impressions then [p] + s
    else assert s == [s[0]] + s[1..]; [s[0]] + Insert(p, s[1..])
  }

  /** The list ranked by impressions, highest first, equal counts in their
      prior order. */
  function Rank(s: seq<Post>): (r: seq<Post>)
    ensures |r| == |s|
    ensures multiset(r) == multiset(s)
  {
    if s == [] then [] else assert s == [s[0]] + s[1..]; Insert(s[0], Rank(s[1..]))
  }

  lemma {:induction false} InsertSorted(p: Post, s: seq<Post>)
    requires Sorted(s)
    ensures Sorted(Insert(p, s))
  {
    if s != [] && p.impressions < s[0].impressions {
      var t := Insert(p, s[1..]);
      InsertSorted(p, s[1..]);
      forall j | 0 <= j < |t|
        ensures t[j].impressions <= s[0].impressions
      {
        assert t[j] in multiset(t);
        assert t[j] == p || t[j] in multiset(s[1..]);
      }
      assert Insert(p, s) == [s[0]] + t;
    }
  }

  /** The ranked list is in non-increasing order of impressions. */
  lemma {:induction false} RankSorted(s: seq<Post>)
    ensures Sorted(Rank(s))
  {
    if s != [] {
      RankSorted(s[1..]);
      InsertSorted(s[0], Rank(s[1..]));
    }
  }

  lemma WithImpressionsCons(x: Post, t: seq<Post>, k: int)
    ensures WithImpressions([x] + t, k) == (if x.impressions == k then [x] else []) + WithImpressions(t, k)
  {
    assert ([x] + t)[1..] == t;
  }

  lemma {:induction false} InsertTies(p: Post, s: seq<Post>, k: int)
    ensures WithImpressions(Insert(p, s), k) ==
            (if p.impressions == k then [p] else []) + WithImpressions(s, k)
  {
    if s == [] || p.impressions >= s[0].impressions {
      WithImpressionsCons(p, s, k);
    } else {
      var t := Insert(p, s[1..]);
      assert Insert(p, s) == [s[0]] + t;
      WithImpressionsCons(s[0], t, k);
      InsertTies(p, s[1..], k);
      if p.impressions == k {
        // s[0] has more impressions than p, so it is not in p's group
        assert WithImpressions(Insert(p, s), k) == WithImpressions(t, k);
        assert WithImpressions(s, k) == WithImpressions(s[1..], k);
      } else {
        assert WithImpressions(t, k) == WithImpressions(s[1..], k);
      }
    }
  }

  /** Ranking is stable: posts with the same number of impressions keep
      their relative order. */
  lemma {:induction false} RankStable(s: seq<Post>, k: int)
    ensures WithImpressions(Rank(s), k) == WithImpressions(s, k)
  {
    if s != [] {
      RankStable(s[1..], k);
      InsertTies(s[0], Rank(s[1..]), k);
    }
  }

  lemma {:induction false} WithImpressionsWitness(s: seq<Post>, k: int)
    requires WithImpressions(s, k) != []
    ensures exists i :: 0 <= i < |s| && s[i].impressions == k
  {
    if s[0].impressions != k {
      WithImpressionsWitness(s[1..], k);
      var i :| 0 <= i < |s[1..]| && s[1..][i].impressions == k;
      assert s[i + 1].impressions == k;
    }
  }

  /** A non-empty list does not agree on ties with the empty list. */
  lemma NotTiedWithEmpty(a: seq<Post>, b: seq<Post>)
    requires a != [] && b == []
    ensures WithImpressions(a, a[0].impressions) != WithImpressions(b, a[0].impressions)
  {
  }

  /** Two lists in non-increasing order of impressions that agree on the
      order of every group of equal counts are the same list. */
  lemma {:induction false} SortedTiesUnique(a: seq<Post>, b: seq<Post>)
    requires Sorted(a) && Sorted(b) && SameTies(a, b)
    ensures a == b
  {
    if a != [] && b != [] {
      var m, n := a[0].impressions, b[0].impressions;
      assert WithImpressions(a, m) != [];
      WithImpressionsWitness(b, m);
      assert WithImpressions(b, n) != [];
      WithImpressionsWitness(a, n);
      assert m == n;
      var x, y := WithImpressions(a[1..], m), WithImpressions(b[1..], m);
      assert WithImpressions(a, m) == [a[0]] + x && WithImpressions(b, m) == [b[0]] + y;
      assert ([a[0]] + x)[0] == ([b[0]] + y)[0];
      assert ([a[0]] + x)[1..] == x && ([b[0]] + y)[1..] == y;
      forall k
        ensures WithImpressions(a[1..], k) == WithImpressions(b[1..], k)
      {
        assert WithImpressions(a, k) == WithImpressions(b, k);
        if k != m {
          assert WithImpressions(a, k) == WithImpressions(a[1..], k);
          assert WithImpressions(b, k) == WithImpressions(b[1..], k);
        }
      }
      SortedTiesUnique(a[1..], b[1..]);
      assert a == [a[0]] + a[1..] && b == [b[0]] + b[1..];
    } else if a != [] {
      NotTiedWithEmpty(a, b);
    } else if b != [] {
      NotTiedWithEmpty(b, a);
    }
  }

  /** Rank(s) is the one and only stable descending sort of `s`: any list in
      non-increasing order of impressions that keeps the relative order of
      equal counts is Rank(s). */
  lemma RankIsTheStableSort(s: seq<Post>, r: seq<Post>)
    requires Sorted(r) && SameTies(r, s)
    ensures r == Rank(s)
  {
    RankSorted(s);
    forall k ensures WithImpressions(Rank(s), k) == WithImpressions(r, k) {
      RankStable(s, k);
    }
    SortedTiesUnique(r, Rank(s));
  }

  /** Ranking a ranked list changes nothing. */
  lemma RankIdempotent(s: seq<Post>)
    ensures Rank(Rank(s)) == Rank(s)
  {
    RankSorted(s);
    RankIsTheStableSort(Rank(s), Rank(s));
  }

  lemma {:induction false} InsertDistinct(p: Post, s: seq<Post>)
    requires DistinctIds(s)
    requires forall i :: 0 <= i < |s| ==> s[i].id != p.id
    ensures DistinctIds(Insert(p, s))
  {
    if s != [] && p.impressions < s[0].impressions {
      var t := Insert(p, s[1..]);
      InsertDistinct(p, s[1..]);
      forall j | 0 <= j < |t|
        ensures t[j].id != s[0].id
      {
        assert t[j] in multiset(t);
        assert t[j] == p || t[j] in multiset(s[1..]);
      }
    }
  }

  /** Ranking never merges or duplicates ids. */
  lemma {:induction false} RankDistinct(s: seq<Post>)
    requires DistinctIds(s)
    ensures DistinctIds(Rank(s))
  {
    if s != [] {
      var t := Rank(s[1..]);
      RankDistinct(s[1..]);
      forall j | 0 <= j < |t|
        ensures t[j].id != s[0].id
      {
        assert t[j] in multiset(s[1..]);
      }
      InsertDistinct(s[0], t);
    }
  }

  // ---------------------------------------------------------------------------
  // The click handler.
  // ---------------------------------------------------------------------------

  /** The updater `handleCardClick` passes to `setPosts`: raise the tapped
      post's impressions by `inc` (the value `Math.random` produced), then
      rank the whole list again. The result is ranked, holds exactly the
      updated posts, and keeps equal counts in their prior order. */
  function HandleCardClick(prev: seq<Post>, id: string, inc: int): (r: seq<Post>)
    requires MinIncrement <= inc <= MaxIncrement
    ensures |r| == |prev|
    ensures Sorted(r)
    ensures multiset(r) == multiset(Bump(prev, id, inc))
    ensures SameTies(r, Bump(prev, id, inc))
  {
    var updated := Bump(prev, id, inc);
    RankSorted(updated);
    assert forall k :: WithImpressions(Rank(updated), k) == WithImpressions(updated, k) by {
      forall k ensures WithImpressions(Rank(updated), k) == WithImpressions(updated, k) {
        RankStable(updated, k);
      }
    }
    Rank(updated)
  }

  /** A position of `x` in `s`. */
  lemma IndexOf(s: seq<Post>, x: Post) returns (m: nat)
    requires x in multiset(s)
    ensures m < |s| && s[m] == x
  {
    assert x in s;
    m :| 0 <= m < |s| && s[m] == x;
  }

  /** With distinct ids, the tapped post is the only one of the mapped list
      carrying its id. */
  lemma BumpOnlyTarget(prev: seq<Post>, id: string, inc: int, i: nat)
    requires DistinctIds(prev)
    requires i < |prev| && prev[i].id == id
    ensures forall m :: 0 <= m < |prev| && Bump(prev, id, inc)[m].id == id ==> m == i
  {
    var u := Bump(prev, id, inc);
    forall m | 0 <= m < |prev| && u[m].id == id ensures m == i {
      assert prev[m].id == id;
    }
  }

  /** If every post of `u` with id `id` is `x`, the same holds of any
      permutation of `u`. */
  lemma PermutationKeepsIdOwner(r: seq<Post>, u: seq<Post>, id: string, x: Post)
    requires multiset(r) == multiset(u)
    requires forall m :: 0 <= m < |u| && u[m].id == id ==> u[m] == x
    ensures forall j :: 0 <= j < |r| && r[j].id == id ==> r[j] == x
  {
    forall j | 0 <= j < |r| && r[j].id == id ensures r[j] == x {
      assert r[j] in multiset(r);
      var m := IndexOf(u, r[j]);
    }
  }

  /** The tapped post appears once in the result, with every field as before
      except impressions, which grew by exactly `inc` (so strictly). */
  lemma ClickedPost(prev: seq<Post>, id: string, inc: int, i: nat)
    requires MinIncrement <= inc <= MaxIncrement
    requires DistinctIds(prev)
    requires i < |prev| && prev[i].id == id
    ensures var r := HandleCardClick(prev, id, inc);
      prev[i].(impressions := prev[i].impressions + inc) in r &&
      forall j :: 0 <= j < |r| && r[j].id == id ==>
        r[j] == prev[i].(impressions := prev[i].impressions + inc) &&
        r[j].impressions > prev[i].impressions
  {
    var u := Bump(prev, id, inc);
    var r := HandleCardClick(prev, id, inc);
    assert u[i] in multiset(u);
    BumpOnlyTarget(prev, id, inc, i);
    PermutationKeepsIdOwner(r, u, id, u[i]);
  }

  /** A post whose id is not the tapped one is in the result, unchanged, as
      many times as before. */
  lemma ClickKeepsOthers(prev: seq<Post>, id: string, inc: int, p: Post)
    requires MinIncrement <= inc <= MaxIncrement
    requires p in prev && p.id != id
    ensures p in HandleCardClick(prev, id, inc)
    ensures multiset(HandleCardClick(prev, id, inc))[p] == multiset(prev)[p]
  {
    BumpKeepsOthers(prev, id, inc, p);
  }

  /** Tapping an id that no post has changes no counter: the list is only
      ranked again. */
  lemma ClickAbsent(prev: seq<Post>, id: string, inc: int)
    requires MinIncrement <= inc <= MaxIncrement
    requires forall i :: 0 <= i < |prev| ==> prev[i].id != id
    ensures HandleCardClick(prev, id, inc) == Rank(prev)
    ensures multiset(HandleCardClick(prev, id, inc)) == multiset(prev)
  {
    var u := Bump(prev, id, inc);
    assert u == prev;
  }

  /** `p` is `q` after some number of taps: same id, likes and comments,
      no fewer impressions. */
  predicate Outgrows(p: Post, q: Post)
  {
    p.id == q.id && p.likes == q.likes && p.comments == q.comments &&
    p.impressions >= q.impressions
  }

  /** Counters never decrease: every post of the result outgrows some post
      of the list before the tap. */
  lemma ClickMonotone(prev: seq<Post>, id: string, inc: int)
    requires MinIncrement <= inc <= MaxIncrement
    ensures var r := HandleCardClick(prev, id, inc);
      forall j :: 0 <= j < |r| ==> exists i :: 0 <= i < |prev| && Outgrows(r[j], prev[i])
  {
    var u := Bump(prev, id, inc);
    var r := HandleCardClick(prev, id, inc);
    forall j | 0 <= j < |r|
      ensures exists i :: 0 <= i < |prev| && Outgrows(r[j], prev[i])
    {
      assert r[j] in multiset(u);
      var m :| 0 <= m < |u| && u[m] == r[j];
      assert Outgrows(u[m], prev[m]);
    }
  }

  /** Ids stay distinct across a tap. */
  lemma ClickKeepsIdsDistinct(prev: seq<Post>, id: string, inc: int)
    requires MinIncrement <= inc <= MaxIncrement
    requires DistinctIds(prev)
    ensures DistinctIds(HandleCardClick(prev, id, inc))
  {
    RankDistinct(Bump(prev, id, inc));
  }

  /** The sample list is shown unranked until the first tap. */
  lemma InitialPostsUnranked()
    ensures DistinctIds(InitialPosts()) && !Sorted(InitialPosts())
  {
    assert InitialPosts()[1].impressions < InitialPosts()[2].impressions;
  }

  /** One impression on post "2" ties it with post "3" at 500; the stable sort
      keeps "2" ahead of "3", as it was before the tap. */
  lemma FirstTapExample()
    ensures HandleCardClick(InitialPosts(), "2", 1) ==
      [ InitialPosts()[0], InitialPosts()[1].(impressions := 500), InitialPosts()[2] ]
  {
    var s := InitialPosts();
    var u := Bump(s, "2", 1);
    var expected := [ s[0], s[1].(impressions := 500), s[2] ];
    assert u == expected;
    assert Sorted(expected);
    RankIsTheStableSort(u, u);
  }

  /** The feed screen's state: the list of posts it renders. */
  class FeedScreen {
    var posts: seq<Post>

    ghost predicate Valid()
      reads this
    {
      DistinctIds(posts)
    }

    /** `useState(initialPosts)`. */
    constructor ()
      ensures Valid()
      ensures posts == InitialPosts()
    {
      posts := InitialPosts();
      InitialPostsUnranked();
    }

    /** A tap on the card with id `id`; `inc` is the increment `Math.random`
        produced for it. */
    method Click(id: string, inc: int)
      requires Valid()
      requires MinIncrement <= inc <= MaxIncrement
      modifies this
      ensures Valid()
      ensures posts == HandleCardClick(old(posts), id, inc)
    {
      ClickKeepsIdsDistinct(posts, id, inc);
      posts := HandleCardClick(posts, id, inc);
    }
  }
}
