/** The community board (src/app/community/page.tsx): the `filteredPosts` memo
    — category filter, then a stable sort in descending order of one of three
    keys — and the order in which the page lays the posts and the inline ad out. */
module Community {
  import opened Wrappers
  import opened Seqs
  import Ads

  /** A post as the board reads it; dates are already converted to timestamps. */
  datatype Post = Post(id: string, title: string, author: string, category: string,
                       createdAt: int, likes: int, views: int)

  datatype SortKey = Latest | Popular | Views

  /** The number a sort key orders posts by. */
  function KeyOf(sort: SortKey): Post -> int {
    match sort
    case Latest => (p: Post) => p.createdAt
    case Popular => (p: Post) => p.likes
    case Views => (p: Post) => p.views
  }

  /** `post.category === selectedCategory`. The selection is `None` when a
      button stored `undefined`; a post's category is always a string, so no
      post matches it then. */
  function InSelection(selected: Option<string>): Post -> bool {
    (p: Post) => Some(p.category) == selected
  }

  /** The category stage: 'all' keeps every post, any other selection exactly
      the posts whose category it is, each as often as it occurs. */
  function ByCategory(posts: seq<Post>, selected: Option<string>): (r: seq<Post>)
    ensures selected == Some("all") ==> r == posts
    ensures selected != Some("all") ==> forall p :: p in r <==> p in posts && Some(p.category) == selected
    ensures selected != Some("all") ==>
      forall p :: multiset(r)[p] == if Some(p.category) == selected then multiset(posts)[p] else 0
    ensures selected.None? ==> r == []
    ensures IsSubseq(r, posts)
  {
    if selected == Some("all") then
      FilterAll(posts, (p: Post) => true);
      FilterIsSubseq(posts, (p: Post) => true);
      posts
    else
      FilterIsSubseq(posts, InSelection(selected));
      FilterMultiset(posts, InSelection(selected));
      if selected.None? then
        FilterNone(posts, InSelection(selected));
        Filter(posts, InSelection(selected))
      else
        Filter(posts, InSelection(selected))
  }

  predicate SortedDesc(s: seq<Post>, key: Post -> int) {
    forall i, j :: 0 <= i < j < |s| ==> key(s[i]) >= key(s[j])
  }

  /** Places `x` before the first element whose key is not larger, so that `x`
      stays ahead of the equal-keyed elements it preceded in the input. */
  function Insert(x: Post, s: seq<Post>, key: Post -> int): (r: seq<Post>)
    ensures multiset(r) == multiset(s) + multiset{x}
    ensures |r| == |s| + 1
    ensures r[0] == x || (|s| > 0 && r[0] == s[0])
    ensures SortedDesc(s, key) ==> SortedDesc(r, key)
  {
    if |s| == 0 || key(x) >= key(s[0]) then
      assert SortedDesc(s, key) ==> SortedDesc([x] + s, key) by {
        if SortedDesc(s, key) {
          ConsSorted(x, s, key);
        }
      }
      [x] + s
    else
      var rest := Insert(x, s[1..], key);
      assert s == [s[0]] + s[1..];
      assert SortedDesc(s, key) ==> SortedDesc([s[0]] + rest, key) by {
        if SortedDesc(s, key) {
          assert SortedDesc(s[1..], key);
          ConsSorted(s[0], rest, key);
        }
      }
      [s[0]] + rest
  }

  /** A head no smaller than the first element of a descending list keeps it descending. */
  lemma ConsSorted(a: Post, t: seq<Post>, key: Post -> int)
    requires SortedDesc(t, key)
    requires |t| > 0 ==> key(a) >= key(t[0])
    ensures SortedDesc([a] + t, key)
  {
    var r := [a] + t;
    forall i, j | 0 <= i < j < |r|
      ensures key(r[i]) >= key(r[j])
    {
      if i == 0 {
        assert r[j] == t[j - 1];
        assert key(t[0]) >= key(t[j - 1]) || j == 1;
      } else {
        assert r[i] == t[i - 1] && r[j] == t[j - 1];
      }
    }
  }

  /** `[...posts].sort((a, b) => key(b) - key(a))`: a stable descending sort. */
  function SortDesc(s: seq<Post>, key: Post -> int): (r: seq<Post>)
    ensures multiset(r) == multiset(s)
    ensures |r| == |s|
    ensures SortedDesc(r, key)
  {
    if |s| == 0 then []
    else
      assert s == [s[0]] + s[1..];
      Insert(s[0], SortDesc(s[1..], key), key)
  }

  function HasKey(key: Post -> int, k: int): Post -> bool {
    (p: Post) => key(p) == k
  }

  lemma SortedTail(t: seq<Post>, key: Post -> int)
    requires |t| > 0 && SortedDesc(t, key)
    ensures SortedDesc(t[1..], key)
  {
    forall i, j | 0 <= i < j < |t| - 1
      ensures key(t[1..][i]) >= key(t[1..][j])
    {
      assert t[1..][i] == t[i + 1] && t[1..][j] == t[j + 1];
    }
  }

  /** Insertion keeps the relative order of the posts that share a key value. */
  lemma {:induction false} InsertKeepsKeyOrder(x: Post, t: seq<Post>, key: Post -> int, k: int)
    requires SortedDesc(t, key)
    ensures Filter(Insert(x, t, key), HasKey(key, k)) ==
            (if key(x) == k then [x] else []) + Filter(t, HasKey(key, k))
  {
    if |t| == 0 || key(x) >= key(t[0]) {
      assert Insert(x, t, key) == [x] + t;
      FilterCons(x, t, HasKey(key, k));
    } else {
      SortedTail(t, key);
      InsertKeepsKeyOrder(x, t[1..], key, k);
      InsertUnfold(x, t, key);
      FilterPastHead(x, t, Insert(x, t[1..], key), Insert(x, t, key),
                     if key(x) == k then [x] else [], HasKey(key, k));
    }
  }

  /** Past a head with a larger key, insertion goes on into the tail. */
  lemma InsertUnfold(x: Post, t: seq<Post>, key: Post -> int)
    requires |t| > 0 && key(x) < key(t[0])
    ensures Insert(x, t, key) == [t[0]] + Insert(x, t[1..], key)
  {
  }

  /** The sort is stable: for every key value, the posts carrying it appear in
      the output in the same order as in the input. */
  lemma {:induction false} SortIsStable(s: seq<Post>, key: Post -> int, k: int)
    ensures Filter(SortDesc(s, key), HasKey(key, k)) == Filter(s, HasKey(key, k))
  {
    if |s| > 0 {
      SortIsStable(s[1..], key, k);
      InsertKeepsKeyOrder(s[0], SortDesc(s[1..], key), key, k);
    }
  }

  /** The `filteredPosts` memo. */
  function FilteredPosts(posts: seq<Post>, selected: Option<string>, sort: SortKey): (r: seq<Post>)
    ensures multiset(r) == multiset(ByCategory(posts, selected))
    ensures SortedDesc(r, KeyOf(sort))
    ensures forall p :: p in r <==> p in posts && (selected == Some("all") || Some(p.category) == selected)
  {
    var r := SortDesc(ByCategory(posts, selected), KeyOf(sort));
    assert forall p :: p in r <==> p in multiset(r);
    r
  }

  /** Posts with equal sort keys keep their catalogue order. */
  lemma FilteredPostsStable(posts: seq<Post>, selected: Option<string>, sort: SortKey, k: int)
    ensures Filter(FilteredPosts(posts, selected, sort), HasKey(KeyOf(sort), k))
         == Filter(ByCategory(posts, selected), HasKey(KeyOf(sort), k))
  {
    SortIsStable(ByCategory(posts, selected), KeyOf(sort), k);
  }

  /** What the separate "전체" button stores. */
  const AllButton: Option<string> := Some("all")

  /** What a button of the category list ("전체", "자유게시판", "구인", "기타")
      stores: `category.value`, and a plain string has no `value` property,
      so it is `undefined`. */
  function CategoryButton(category: string): Option<string> {
    None
  }

  /** After any category button, the board lists no post at all, even when
      posts of that category exist. */
  lemma CategoryButtonEmptiesBoard(posts: seq<Post>, category: string, sort: SortKey)
    ensures FilteredPosts(posts, CategoryButton(category), sort) == []
  {
    var r := FilteredPosts(posts, CategoryButton(category), sort);
    assert |multiset(r)| == |r|;
  }

  /** The evidently intended button: it stores the category it shows. */
  function FixedCategoryButton(category: string): Option<string> {
    Some(category)
  }

  /** With the intended button, choosing a category lists exactly that
      category's posts, each as often as it occurs, in sort order; the
      "전체" button still lists everything. */
  lemma FixedButtonShowsCategory(posts: seq<Post>, category: string, sort: SortKey)
    requires category != "all"
    ensures forall p :: p in FilteredPosts(posts, FixedCategoryButton(category), sort) <==>
                        p in posts && p.category == category
    ensures forall p :: multiset(FilteredPosts(posts, FixedCategoryButton(category), sort))[p] ==
                        if p.category == category then multiset(posts)[p] else 0
    ensures multiset(FilteredPosts(posts, AllButton, sort)) == multiset(posts)
  {
  }

  /** One rendered block of the list. */
  datatype Block = PostCard(post: Post) | InlineAdBlock(ad: Ads.Ad)

  /** The posts shown by a list of blocks, in order. */
  function PostsOf(blocks: seq<Block>): seq<Post> {
    if |blocks| == 0 then []
    else (if blocks[0].PostCard? then [blocks[0].post] else []) + PostsOf(blocks[1..])
  }

  function Cards(posts: seq<Post>): (r: seq<Block>)
    ensures |r| == |posts|
    ensures forall i :: 0 <= i < |r| ==> r[i].PostCard?
  {
    seq(|posts|, i requires 0 <= i < |posts| => PostCard(posts[i]))
  }

  lemma {:induction false} PostsOfAppend(a: seq<Block>, b: seq<Block>)
    ensures PostsOf(a + b) == PostsOf(a) + PostsOf(b)
  {
    if |a| == 0 {
      assert a + b == b;
    } else {
      var h := if a[0].PostCard? then [a[0].post] else [];
      assert (a + b)[0] == a[0];
      assert (a + b)[1..] == a[1..] + b;
      assert PostsOf(a + b) == h + PostsOf(a[1..] + b);
      assert PostsOf(a) == h + PostsOf(a[1..]);
      PostsOfAppend(a[1..], b);
    }
  }

  lemma {:induction false} PostsOfCards(posts: seq<Post>)
    ensures PostsOf(Cards(posts)) == posts
  {
    if |posts| > 0 {
      assert Cards(posts)[1..] == Cards(posts[1..]);
      PostsOfCards(posts[1..]);
    }
  }

  /** The list as rendered: the first post, the inline ad when the page runs in
      the browser and more than two posts remain, then `slice(1)`. The page's
      mount effect sets `isClient` together with `ad := getRandomAd('inline')`,
      so on the client `ad` is `Ads.RandomAd(Ads.Inline, x)` for the draw `x`
      (see `ClientLayout`). */
  function Layout(posts: seq<Post>, isClient: bool, ad: Ads.Ad): (r: seq<Block>)
    ensures PostsOf(r) == posts
    ensures |r| == |posts| + (if isClient && |posts| > 2 then 1 else 0)
    ensures (exists i :: 0 <= i < |r| && r[i].InlineAdBlock?) <==> isClient && |posts| > 2
    ensures isClient && |posts| > 2 ==> r[1] == InlineAdBlock(ad)
  {
    if |posts| == 0 then []
    else
      var adBlock := if isClient && |posts| > 2 then [InlineAdBlock(ad)] else [];
      var r := [PostCard(posts[0])] + adBlock + Cards(posts[1..]);
      PostsOfCards(posts[1..]);
      PostsOfAppend([PostCard(posts[0])], adBlock);
      PostsOfAppend([PostCard(posts[0])] + adBlock, Cards(posts[1..]));
      assert [PostCard(posts[0])][1..] == [];
      assert adBlock != [] ==> adBlock[1..] == [];
      assert posts == [posts[0]] + posts[1..];
      r
  }

  /** On the client the ad after the first post is the mount effect's draw
      from the inline pool. */
  lemma ClientLayout(posts: seq<Post>, x: real)
    requires 0.0 <= x < 1.0
    requires |posts| > 2
    ensures var r := Layout(posts, true, Ads.RandomAd(Ads.Inline, x));
            r[1].InlineAdBlock? && r[1].ad in Ads.InlineAds() && r[1].ad.adType == Ads.Inline
  {
  }
}
