/** The server-rendered pages: the home page (`read_root`), the top list
    (`top_list`) and a single blog post (`blog_post`). Template rendering
    is left out; each handler is modelled by the values it hands to its
    template. */
module Pages {
  import opened Wrappers
  import opened Models
  import opened Tables
  import opened Queries
  import opened Store

  /** A watched row as a template sees it: the row plus `blog_slug`. */
  datatype Listed = Listed(item: Watched, blogSlug: Option<string>)

  /** `blog_map.get(id)`. */
  function Lookup(m: map<int, string>, k: int): (r: Option<string>)
    ensures r.Some? <==> k in m
    ensures r.Some? ==> r.value == m[k]
  {
    if k in m then Some(m[k]) else None
  }

  /** The rows behind a list of decorated rows. */
  function Items(s: seq<Listed>): (r: seq<Watched>)
    ensures |r| == |s|
    ensures forall i :: 0 <= i < |s| ==> r[i] == s[i].item
  {
    seq(|s|, i requires 0 <= i < |s| => s[i].item)
  }

  /** `for item in items: item["blog_slug"] = blog_map.get(item["id"])`:
      every row gets the map's slug for its id, or none, in place. */
  method AttachBlogSlugs(a: array<Listed>, blogMap: map<int, string>)
    modifies a
    ensures forall i :: 0 <= i < a.Length ==> a[i] == old(a[i]).(blogSlug := Lookup(blogMap, old(a[i]).item.id))
  {
    var i := 0;
    while i < a.Length
      invariant 0 <= i <= a.Length
      invariant forall j :: 0 <= j < i ==> a[j] == old(a[j]).(blogSlug := Lookup(blogMap, old(a[j]).item.id))
      invariant forall j :: i <= j < a.Length ==> a[j] == old(a[j])
    {
      a[i] := a[i].(blogSlug := Lookup(blogMap, a[i].item.id));
      i := i + 1;
    }
  }

  /** `rows` decorated with the slugs of the posts about them, as the two
      pages build it: the ids go to `get_blog_slug_map`, whose answer is
      attached row by row. */
  method Decorate(store: Store, rows: seq<Watched>) returns (r: seq<Listed>)
    ensures Items(r) == rows
    ensures forall i :: 0 <= i < |r| ==>
              (r[i].blogSlug.Some? <==> exists p :: p in store.posts && p.watchedId == rows[i].id)
    ensures forall i :: 0 <= i < |r| && r[i].blogSlug.Some? ==>
              exists p :: p in store.posts && p.watchedId == rows[i].id && p.slug == r[i].blogSlug.value
  {
    var ids := Ids(rows, WatchedId);
    var blogMap := store.BlogSlugMap(ids);
    var a := new Listed[|rows|](i requires 0 <= i < |rows| => Listed(rows[i], None));
    AttachBlogSlugs(a, blogMap);
    r := a[..];
    forall i | 0 <= i < |r| ensures rows[i].id in ids {
      assert ids[i] == rows[i].id;
    }
  }

  /** What the home page shows. The two averages are left out. */
  datatype RootPage = RootPage(
    watchedList: seq<Listed>,
    wantToWatchList: seq<WantToWatch>,
    watchedCount: nat,
    plannedCount: nat)

  /** `read_root`: the watched list with each row's blog slug, the
      watch-list, and the two counts, which are the lengths of the lists. */
  method ReadRoot(store: Store) returns (page: RootPage)
    ensures Items(page.watchedList) == WatchedList(store.watched)
    ensures page.wantToWatchList == WantToWatchList(store.wantToWatch)
    ensures page.watchedCount == |page.watchedList| == |Filter(store.watched, Unranked)|
    ensures page.plannedCount == |page.wantToWatchList| == |store.wantToWatch|
    ensures forall i :: 0 <= i < |page.watchedList| ==>
              var x := page.watchedList[i];
              x.blogSlug.Some? <==> exists p :: p in store.posts && p.watchedId == x.item.id
    ensures forall i :: 0 <= i < |page.watchedList| && page.watchedList[i].blogSlug.Some? ==>
              var x := page.watchedList[i];
              exists p :: p in store.posts && p.watchedId == x.item.id && p.slug == x.blogSlug.value
  {
    var watchedList := WatchedList(store.watched);
    var wantToWatchList := WantToWatchList(store.wantToWatch);
    var decorated := Decorate(store, watchedList);
    assert |multiset(watchedList)| == |multiset(Filter(store.watched, Unranked))|;
    assert |multiset(wantToWatchList)| == |multiset(store.wantToWatch)|;
    page := RootPage(decorated, wantToWatchList, |decorated|, |wantToWatchList|);
  }

  const MovieType := "Movie"
  const SeriesType := "TV Series"

  predicate IsMovie(w: Watched) { w.contentType == MovieType }

  predicate IsSeries(w: Watched) { w.contentType == SeriesType }

  predicate ListedIsMovie(x: Listed) { IsMovie(x.item) }

  predicate ListedIsSeries(x: Listed) { IsSeries(x.item) }

  /** Filtering decorated rows by their row's type keeps the same rows as
      filtering the rows themselves. */
  lemma {:induction false} FilterItems(s: seq<Listed>, p: Listed -> bool, q: Watched -> bool)
    requires forall i :: 0 <= i < |s| ==> (p(s[i]) <==> q(s[i].item))
    ensures Items(Filter(s, p)) == Filter(Items(s), q)
  {
    if s != [] {
      var tail := s[1..];
      FilterItems(tail, p, q);
      var items := Items(s);
      assert items[0] == s[0].item;
      assert items[1..] == Items(tail);
      var head := if p(s[0]) then [s[0]] else [];
      var rest := Filter(tail, p);
      assert Filter(s, p) == head + rest;
      assert Filter(items, q) == Items(head) + Filter(items[1..], q);
      assert Items(head + rest) == Items(head) + Items(rest);
    }
  }

  /** What the top page shows. */
  datatype TopPage = TopPage(topMovies: seq<Listed>, topSeries: seq<Listed>)

  /** `top_list`: the ranked rows, each with its blog slug, split into the
      movies and the series, each part in rank order. */
  method TopListPage(store: Store) returns (page: TopPage)
    ensures Items(page.topMovies) == Filter(TopList(store.watched), IsMovie)
    ensures Items(page.topSeries) == Filter(TopList(store.watched), IsSeries)
    ensures forall i :: 0 <= i < |page.topMovies| ==>
              var x := page.topMovies[i];
              x.blogSlug.Some? <==> exists p :: p in store.posts && p.watchedId == x.item.id
    ensures forall i :: 0 <= i < |page.topSeries| ==>
              var x := page.topSeries[i];
              x.blogSlug.Some? <==> exists p :: p in store.posts && p.watchedId == x.item.id
    ensures forall i :: 0 <= i < |page.topMovies| && page.topMovies[i].blogSlug.Some? ==>
              var x := page.topMovies[i];
              exists p :: p in store.posts && p.watchedId == x.item.id && p.slug == x.blogSlug.value
    ensures forall i :: 0 <= i < |page.topSeries| && page.topSeries[i].blogSlug.Some? ==>
              var x := page.topSeries[i];
              exists p :: p in store.posts && p.watchedId == x.item.id && p.slug == x.blogSlug.value
  {
    var allTop := TopList(store.watched);
    var decorated := Decorate(store, allTop);
    var movies := Filter(decorated, ListedIsMovie);
    var series := Filter(decorated, ListedIsSeries);
    FilterItems(decorated, ListedIsMovie, IsMovie);
    FilterItems(decorated, ListedIsSeries, IsSeries);
    page := TopPage(movies, series);
  }

  /** The split of the top list: movies and series in rank order, every
      other type on neither list, and no row on both. */
  lemma TopSplit(rows: seq<Watched>, w: Watched)
    ensures w in Filter(TopList(rows), IsMovie) <==> w in rows && w.topRank.Some? && w.contentType == "Movie"
    ensures w in Filter(TopList(rows), IsSeries) <==> w in rows && w.topRank.Some? && w.contentType == "TV Series"
    ensures !(w in Filter(TopList(rows), IsMovie) && w in Filter(TopList(rows), IsSeries))
    ensures forall i, j :: 0 <= i < j < |Filter(TopList(rows), IsMovie)| ==>
              Filter(TopList(rows), IsMovie)[i].topRank.value <= Filter(TopList(rows), IsMovie)[j].topRank.value
    ensures forall i, j :: 0 <= i < j < |Filter(TopList(rows), IsSeries)| ==>
              Filter(TopList(rows), IsSeries)[i].topRank.value <= Filter(TopList(rows), IsSeries)[j].topRank.value
  {
    FilterMember(TopList(rows), IsMovie, w);
    FilterMember(TopList(rows), IsSeries, w);
    FilterKeepsOrder(TopList(rows), IsMovie);
    FilterKeepsOrder(TopList(rows), IsSeries);
  }

  /** A filter of a rank-ordered list is rank-ordered. */
  lemma {:induction false} FilterKeepsOrder(s: seq<Watched>, p: Watched -> bool)
    requires forall i :: 0 <= i < |s| ==> s[i].topRank.Some?
    requires forall i, j :: 0 <= i < j < |s| ==> s[i].topRank.value <= s[j].topRank.value
    ensures forall i :: 0 <= i < |Filter(s, p)| ==> Filter(s, p)[i].topRank.Some?
    ensures forall i, j :: 0 <= i < j < |Filter(s, p)| ==> Filter(s, p)[i].topRank.value <= Filter(s, p)[j].topRank.value
  {
    if s != [] {
      FilterKeepsOrder(s[1..], p);
      var rest := Filter(s[1..], p);
      forall k | 0 <= k < |rest| ensures s[0].topRank.value <= rest[k].topRank.value {
        var j :| 0 <= j < |s[1..]| && s[1..][j] == rest[k];
        assert s[j + 1] == rest[k];
      }
    }
  }

  /** What the blog post page hands its template. */
  datatype BlogPage = BlogPage(status: int, post: Option<(BlogPost, Watched)>)

  /** `blog`: every post whose watched row exists, as the blog list query
      joins them. */
  function BlogIndex(store: Store): (r: seq<BlogPost>)
    reads store
    ensures forall p :: p in r <==> p in store.posts && exists w :: w in store.watched && w.id == p.watchedId
  {
    var ids := Ids(store.watched, WatchedId);
    forall k: int ensures k in ids <==> exists w :: w in store.watched && w.id == k {
      if k in ids {
        var i :| 0 <= i < |ids| && ids[i] == k;
        assert store.watched[i] in store.watched;
      }
      if w :| w in store.watched && w.id == k {
        var i :| 0 <= i < |store.watched| && store.watched[i] == w;
        assert ids[i] == k;
      }
    }
    JoinedPosts(store.posts, store.watched)
  }

  /** `blog_post`: the post with this slug joined to its watched row; 404
      with no post when there is none. */
  function BlogPostPage(store: Store, slug: string): (r: BlogPage)
    reads store
    ensures r.status == 404 <==> r.post.None?
    ensures r.status != 404 ==> r.status == 200
    ensures r.post == PostBySlug(store.posts, store.watched, slug)
    ensures r.status == 404 <==>
              forall p, w :: p in store.posts && p.slug == slug && w in store.watched ==> w.id != p.watchedId
  {
    var post := PostBySlug(store.posts, store.watched, slug);
    if post.None? then BlogPage(404, None) else BlogPage(200, post)
  }
}
