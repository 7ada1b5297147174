/** The three tables behind the item and blog handlers, as one object whose
    methods are the write handlers (`add_to_*`, `update_*`, `delete_*`,
    `add_blog_post`, `update_blog_post`, `delete_blog_post`) and whose
    readers are the queries they share (`get_blog_slug_map`,
    `get_blog_post_by_slug`, `get_blog_posts`). Each table keeps its rows in
    row-id order together with the largest id it has handed out. */
module Store {
  import opened Wrappers
  import opened Http
  import opened Slug
  import opened Models
  import opened Tables
  import opened Forms

  const ItemNotFound := NotFound("Item not found")
  const PostNotFound := NotFound("Post not found")
  const SlugRequired := BadRequest("Slug must be provided")
  const WatchedMissing := BadRequest("Watched item not found")
  const SlugTaken := BadRequest("Slug already exists")
  const ItemDeleted := "Item deleted successfully"
  const PostDeleted := "Post deleted successfully"

  /** `slug TEXT NOT NULL UNIQUE`: two posts with one slug are one post. */
  predicate UniqueSlugs(posts: seq<BlogPost>) {
    forall p, q :: p in posts && q in posts && p.slug == q.slug ==> p == q
  }

  /** Every stored slug is a non-empty normalised slug: the only writes to
      the column go through `normalize_slug` and reject an empty result. */
  predicate NormalSlugs(posts: seq<BlogPost>) {
    forall p :: p in posts ==> p.slug != "" && IsSlug(p.slug)
  }

  /** Some post already uses `slug`. */
  predicate SlugInUse(posts: seq<BlogPost>, slug: string) {
    exists p :: p in posts && p.slug == slug
  }

  /** Some post other than post `k` uses `slug`. */
  predicate SlugUsedByOther(posts: seq<BlogPost>, slug: string, k: int) {
    exists p :: p in posts && p.slug == slug && p.id != k
  }

  /** `get_blog_post_by_slug`: the post with exactly this slug joined to the
      watched row it is about; `None` when there is no such post or its
      watched row is gone. */
  function PostBySlug(posts: seq<BlogPost>, watched: seq<Watched>, slug: string): (r: Option<(BlogPost, Watched)>)
    ensures r.Some? ==> r.value.0 in posts && r.value.0.slug == slug
                        && r.value.1 in watched && r.value.1.id == r.value.0.watchedId
    ensures r.None? ==> forall p, w :: p in posts && p.slug == slug && w in watched ==> w.id != p.watchedId
  {
    if posts == [] then None
    else if posts[0].slug == slug && posts[0].watchedId in Ids(watched, WatchedId) then
      var w := WatchedRow(watched, posts[0].watchedId);
      Some((posts[0], w))
    else PostBySlug(posts[1..], watched, slug)
  }

  /** The watched row with id `k`. */
  function WatchedRow(watched: seq<Watched>, k: int): (w: Watched)
    requires k in Ids(watched, WatchedId)
    ensures w in watched && w.id == k
  {
    if watched[0].id == k then watched[0] else WatchedRow(watched[1..], k)
  }

  /** `get_blog_posts` without its `ORDER BY`: every post whose watched row
      still exists (the inner join drops the others). */
  function JoinedPosts(posts: seq<BlogPost>, watched: seq<Watched>): (r: seq<BlogPost>)
    ensures forall p :: p in r <==> p in posts && p.watchedId in Ids(watched, WatchedId)
  {
    if posts == [] then []
    else (if posts[0].watchedId in Ids(watched, WatchedId) then [posts[0]] else []) + JoinedPosts(posts[1..], watched)
  }

  /** What `add_blog_post` answers, given the tables and the id the insert
      would get: the slug is normalised first and an empty result is 400
      before the store is read; then the watched title must exist; then a
      slug some post already has is 400 and nothing is inserted; otherwise
      the new row. `now` is the UTC clock reading in ISO text. */
  function BlogCreate(posts: seq<BlogPost>, watched: seq<Watched>, nextId: int,
                      watchedId: int, title: string, slug: string, body: string, now: string)
    : (r: Result<BlogPost, HttpError>)
    ensures NormalizeSlug(slug) == "" ==> r == Err(SlugRequired)
    ensures NormalizeSlug(slug) != "" && watchedId !in Ids(watched, WatchedId) ==> r == Err(WatchedMissing)
    ensures NormalizeSlug(slug) != "" && watchedId in Ids(watched, WatchedId) && SlugInUse(posts, NormalizeSlug(slug))
            ==> r == Err(SlugTaken)
    ensures r.Ok? <==> NormalizeSlug(slug) != "" && watchedId in Ids(watched, WatchedId)
                       && !SlugInUse(posts, NormalizeSlug(slug))
    ensures r.Ok? ==> r.value == BlogPost(nextId, watchedId, title, NormalizeSlug(slug), body, now)
    ensures r.Ok? ==> r.value.slug != "" && IsSlug(r.value.slug) && !SlugInUse(posts, r.value.slug)
  {
    var slugValue := NormalizeSlug(slug);
    if slugValue == "" then Err(SlugRequired)
    else if watchedId !in Ids(watched, WatchedId) then Err(WatchedMissing)
    else if SlugInUse(posts, slugValue) then Err(SlugTaken)
    else Ok(BlogPost(nextId, watchedId, title, slugValue, body, now))
  }

  /** What `update_blog_post` answers: an empty normalised slug is 400
      before the store is touched; an update of an existing post to a slug
      another post holds violates the uniqueness and is 400; a missing post
      is 404; otherwise the body with the path id and the normalised slug,
      `created_at` and `watched_id` taken from the body unchecked. */
  function BlogUpdate(posts: seq<BlogPost>, k: int, post: BlogPost): (r: Result<BlogPost, HttpError>)
    ensures NormalizeSlug(post.slug) == "" ==> r == Err(SlugRequired)
    ensures (NormalizeSlug(post.slug) != "" && k in Ids(posts, PostId)
             && SlugUsedByOther(posts, NormalizeSlug(post.slug), k)) ==> r == Err(SlugTaken)
    ensures NormalizeSlug(post.slug) != "" && k !in Ids(posts, PostId) ==> r == Err(PostNotFound)
    ensures r.Ok? <==> NormalizeSlug(post.slug) != "" && k in Ids(posts, PostId)
                       && !SlugUsedByOther(posts, NormalizeSlug(post.slug), k)
    ensures r.Ok? ==> r.value == post.(id := k, slug := NormalizeSlug(post.slug))
    ensures r.Ok? ==> r.value.slug != "" && IsSlug(r.value.slug) && !SlugUsedByOther(posts, r.value.slug, k)
  {
    var slugValue := NormalizeSlug(post.slug);
    if slugValue == "" then Err(SlugRequired)
    else
      var count := RowCount(posts, PostId, k);
      if count != 0 && SlugUsedByOther(posts, slugValue, k) then Err(SlugTaken)
      else if count == 0 then Err(PostNotFound)
      else Ok(post.(id := k, slug := slugValue))
  }

  /** Replacing post `k` by `row`, whose slug no other post uses, keeps the
      slugs unique. */
  lemma UpdateUniqueSlugs(posts: seq<BlogPost>, k: int, row: BlogPost)
    requires UniqueSlugs(posts) && row.id == k
    requires !SlugUsedByOther(posts, row.slug, k)
    ensures UniqueSlugs(UpdateWhere(posts, PostId, k, row))
  {
    var r := UpdateWhere(posts, PostId, k, row);
    forall p, q | p in r && q in r && p.slug == q.slug ensures p == q {
      UpdateWhereMember(posts, PostId, k, row, p);
      UpdateWhereMember(posts, PostId, k, row, q);
    }
  }

  /** Appending a post whose slug is normalised, non-empty and unused keeps
      the slug invariants. */
  lemma AppendPostSlugs(posts: seq<BlogPost>, post: BlogPost)
    requires UniqueSlugs(posts) && NormalSlugs(posts)
    requires post.slug != "" && IsSlug(post.slug) && !SlugInUse(posts, post.slug)
    ensures UniqueSlugs(posts + [post]) && NormalSlugs(posts + [post])
  {
  }

  /** Replacing post `k` by a post with a normalised, non-empty slug keeps
      every slug normalised. */
  lemma UpdateNormalSlugs(posts: seq<BlogPost>, k: int, row: BlogPost)
    requires NormalSlugs(posts) && row.slug != "" && IsSlug(row.slug)
    ensures NormalSlugs(UpdateWhere(posts, PostId, k, row))
  {
    var r := UpdateWhere(posts, PostId, k, row);
    forall p | p in r ensures p.slug != "" && IsSlug(p.slug) {
      var i :| 0 <= i < |r| && r[i] == p;
      if posts[i].id != k {
        assert posts[i] in posts;
      }
    }
  }

  /** The blog table's invariant: keyed, slugs unique and normalised. */
  predicate PostsValid(posts: seq<BlogPost>, hi: nat) {
    Keyed(posts, PostId, hi) && UniqueSlugs(posts) && NormalSlugs(posts)
  }

  lemma AppendPostValid(posts: seq<BlogPost>, hi: nat, post: BlogPost)
    requires PostsValid(posts, hi) && post.id == hi + 1
    requires post.slug != "" && IsSlug(post.slug) && !SlugInUse(posts, post.slug)
    ensures PostsValid(posts + [post], hi + 1)
  {
    InsertKeyed(posts, PostId, hi, post);
    AppendPostSlugs(posts, post);
  }

  lemma UpdatePostValid(posts: seq<BlogPost>, hi: nat, k: int, row: BlogPost)
    requires PostsValid(posts, hi) && row.id == k
    requires row.slug != "" && IsSlug(row.slug) && !SlugUsedByOther(posts, row.slug, k)
    ensures PostsValid(UpdateWhere(posts, PostId, k, row), hi)
  {
    UpdateKeyed(posts, PostId, hi, k, row);
    UpdateUniqueSlugs(posts, k, row);
    UpdateNormalSlugs(posts, k, row);
  }

  lemma DeletePostValid(posts: seq<BlogPost>, hi: nat, k: int)
    requires PostsValid(posts, hi)
    ensures PostsValid(DeleteWhere(posts, PostId, k), hi)
  {
    DeleteKeyed(posts, PostId, hi, k);
    forall p | p in DeleteWhere(posts, PostId, k) ensures p in posts {
      DeleteSubset(posts, PostId, k, p);
    }
  }

  /** The rows a delete leaves behind all come from the old table. */
  lemma DeleteSubset<T>(rows: seq<T>, id: T -> int, k: int, x: T)
    requires x in DeleteWhere(rows, id, k)
    ensures x in rows
  {
    var r := DeleteWhere(rows, id, k);
    var i :| 0 <= i < |r| && r[i] == x;
  }

  class Store {
    var watched: seq<Watched>
    var wantToWatch: seq<WantToWatch>
    var posts: seq<BlogPost>
    /** The `AUTOINCREMENT` high-water marks of the three tables. */
    var watchedSeq: nat
    var wantSeq: nat
    var postSeq: nat

    predicate Valid()
      reads this
    {
      && Keyed(watched, WatchedId, watchedSeq)
      && Keyed(wantToWatch, WantToWatchId, wantSeq)
      && PostsValid(posts, postSeq)
    }

    /** A freshly created database: three empty tables. */
    constructor ()
      ensures Valid()
      ensures watched == [] && wantToWatch == [] && posts == []
      ensures watchedSeq == 0 && wantSeq == 0 && postSeq == 0
    {
      watched, wantToWatch, posts := [], [], [];
      watchedSeq, wantSeq, postSeq := 0, 0, 0;
    }

    /** `add_to_watched_list`: a rejected form changes nothing; otherwise the
        row is inserted under the next id and committed, and only then is
        the response record validated, so a score outside 0..10 or a season
        below 1 answers 500 with the row already stored. */
    method AddWatched(form: WatchedForm, upload: Option<Upload>, token: string) returns (r: Result<Watched, HttpError>)
      requires Valid()
      modifies this
      ensures Valid()
      ensures wantToWatch == old(wantToWatch) && wantSeq == old(wantSeq)
      ensures posts == old(posts) && postSeq == old(postSeq)
      ensures var p := PrepareWatched(form, upload, token, old(watchedSeq) + 1);
              && (p.Err? ==> r == p && watched == old(watched) && watchedSeq == old(watchedSeq))
              && (p.Ok? ==> && watched == old(watched) + [p.value] && watchedSeq == old(watchedSeq) + 1
                            && r == if p.value.Valid() then p else Err(InternalServerError))
    {
      var p := PrepareWatched(form, upload, token, watchedSeq + 1);
      if p.Err? {
        return p;
      }
      InsertKeyed(watched, WatchedId, watchedSeq, p.value);
      watched := watched + [p.value];
      watchedSeq := watchedSeq + 1;
      r := if p.value.Valid() then p else Err(InternalServerError);
    }

    /** `add_to_want_to_watch_list`, with the same order of effects as
        `AddWatched`; the response check is excitement in 1..10 and season
        at least 1. */
    method AddWantToWatch(form: WantToWatchForm, upload: Option<Upload>, token: string)
      returns (r: Result<WantToWatch, HttpError>)
      requires Valid()
      modifies this
      ensures Valid()
      ensures watched == old(watched) && watchedSeq == old(watchedSeq)
      ensures posts == old(posts) && postSeq == old(postSeq)
      ensures var p := PrepareWantToWatch(form, upload, token, old(wantSeq) + 1);
              && (p.Err? ==> r == p && wantToWatch == old(wantToWatch) && wantSeq == old(wantSeq))
              && (p.Ok? ==> && wantToWatch == old(wantToWatch) + [p.value] && wantSeq == old(wantSeq) + 1
                            && r == if p.value.Valid() then p else Err(InternalServerError))
    {
      var p := PrepareWantToWatch(form, upload, token, wantSeq + 1);
      if p.Err? {
        return p;
      }
      InsertKeyed(wantToWatch, WantToWatchId, wantSeq, p.value);
      wantToWatch := wantToWatch + [p.value];
      wantSeq := wantSeq + 1;
      r := if p.value.Valid() then p else Err(InternalServerError);
    }

    /** `update_watched_item`: every column of row `k` is overwritten by the
        body (whose own id is ignored; its season is stored as sent), and
        the body comes back under id `k`; no such row is 404 and no change. */
    method UpdateWatched(k: int, item: Watched) returns (r: Result<Watched, HttpError>)
      requires Valid() && item.Valid()
      modifies this
      ensures Valid()
      ensures wantToWatch == old(wantToWatch) && wantSeq == old(wantSeq)
      ensures posts == old(posts) && postSeq == old(postSeq) && watchedSeq == old(watchedSeq)
      ensures watched == UpdateWhere(old(watched), WatchedId, k, item.(id := k))
      ensures k in Ids(old(watched), WatchedId) ==> r == Ok(item.(id := k))
      ensures k !in Ids(old(watched), WatchedId) ==> r == Err(ItemNotFound) && watched == old(watched)
    {
      UpdateKeyed(watched, WatchedId, watchedSeq, k, item.(id := k));
      var count := RowCount(watched, WatchedId, k);
      watched := UpdateWhere(watched, WatchedId, k, item.(id := k));
      if count == 0 {
        return Err(ItemNotFound);
      }
      r := Ok(item.(id := k));
    }

    /** `update_want_to_watch_item`, the same rule on the watch-list table. */
    method UpdateWantToWatch(k: int, item: WantToWatch) returns (r: Result<WantToWatch, HttpError>)
      requires Valid() && item.Valid()
      modifies this
      ensures Valid()
      ensures watched == old(watched) && watchedSeq == old(watchedSeq)
      ensures posts == old(posts) && postSeq == old(postSeq) && wantSeq == old(wantSeq)
      ensures wantToWatch == UpdateWhere(old(wantToWatch), WantToWatchId, k, item.(id := k))
      ensures k in Ids(old(wantToWatch), WantToWatchId) ==> r == Ok(item.(id := k))
      ensures k !in Ids(old(wantToWatch), WantToWatchId) ==> r == Err(ItemNotFound) && wantToWatch == old(wantToWatch)
    {
      UpdateKeyed(wantToWatch, WantToWatchId, wantSeq, k, item.(id := k));
      var count := RowCount(wantToWatch, WantToWatchId, k);
      wantToWatch := UpdateWhere(wantToWatch, WantToWatchId, k, item.(id := k));
      if count == 0 {
        return Err(ItemNotFound);
      }
      r := Ok(item.(id := k));
    }

    /** `delete_watched_item`. The posts about the deleted title stay: the
        declared cascade is never switched on. */
    method DeleteWatched(k: int) returns (r: Result<string, HttpError>)
      requires Valid()
      modifies this
      ensures Valid()
      ensures wantToWatch == old(wantToWatch) && wantSeq == old(wantSeq)
      ensures posts == old(posts) && postSeq == old(postSeq) && watchedSeq == old(watchedSeq)
      ensures watched == DeleteWhere(old(watched), WatchedId, k)
      ensures r == if k in Ids(old(watched), WatchedId) then Ok(ItemDeleted) else Err(ItemNotFound)
    {
      var count := RowCount(watched, WatchedId, k);
      if count == 0 {
        DeleteWhereNothing(watched, WatchedId, k);
        return Err(ItemNotFound);
      }
      var rest := DeleteWhere(watched, WatchedId, k);
      DeleteKeyed(watched, WatchedId, watchedSeq, k);
      watched := rest;
      r := Ok(ItemDeleted);
    }

    /** `delete_want_to_watch_item`. */
    method DeleteWantToWatch(k: int) returns (r: Result<string, HttpError>)
      requires Valid()
      modifies this
      ensures Valid()
      ensures watched == old(watched) && watchedSeq == old(watchedSeq)
      ensures posts == old(posts) && postSeq == old(postSeq) && wantSeq == old(wantSeq)
      ensures wantToWatch == DeleteWhere(old(wantToWatch), WantToWatchId, k)
      ensures r == if k in Ids(old(wantToWatch), WantToWatchId) then Ok(ItemDeleted) else Err(ItemNotFound)
    {
      var count := RowCount(wantToWatch, WantToWatchId, k);
      if count == 0 {
        DeleteWhereNothing(wantToWatch, WantToWatchId, k);
        return Err(ItemNotFound);
      }
      var rest := DeleteWhere(wantToWatch, WantToWatchId, k);
      DeleteKeyed(wantToWatch, WantToWatchId, wantSeq, k);
      wantToWatch := rest;
      r := Ok(ItemDeleted);
    }

    /** `add_blog_post`: the row `BlogCreate` decides on is appended under
        the next id; a rejection changes nothing. */
    method AddBlogPost(watchedId: int, title: string, slug: string, body: string, now: string)
      returns (r: Result<BlogPost, HttpError>)
      requires Valid()
      modifies this
      ensures Valid()
      ensures watched == old(watched) && watchedSeq == old(watchedSeq)
      ensures wantToWatch == old(wantToWatch) && wantSeq == old(wantSeq)
      ensures r == BlogCreate(old(posts), watched, old(postSeq) + 1, watchedId, title, slug, body, now)
      ensures r.Err? ==> posts == old(posts) && postSeq == old(postSeq)
      ensures r.Ok? ==> posts == old(posts) + [r.value] && postSeq == old(postSeq) + 1
    {
      r := BlogCreate(posts, watched, postSeq + 1, watchedId, title, slug, body, now);
      if r.Ok? {
        AppendPostValid(posts, postSeq, r.value);
        posts := posts + [r.value];
        postSeq := postSeq + 1;
      }
    }

    /** `update_blog_post`: on success post `k` becomes the row `BlogUpdate`
        returns; a rejection changes nothing. */
    method UpdateBlogPost(k: int, post: BlogPost) returns (r: Result<BlogPost, HttpError>)
      requires Valid()
      modifies this
      ensures Valid()
      ensures watched == old(watched) && watchedSeq == old(watchedSeq)
      ensures wantToWatch == old(wantToWatch) && wantSeq == old(wantSeq) && postSeq == old(postSeq)
      ensures r == BlogUpdate(old(posts), k, post)
      ensures r.Err? ==> posts == old(posts)
      ensures r.Ok? ==> posts == UpdateWhere(old(posts), PostId, k, r.value)
    {
      r := BlogUpdate(posts, k, post);
      if r.Ok? {
        UpdatePostValid(posts, postSeq, k, r.value);
        posts := UpdateWhere(posts, PostId, k, r.value);
      }
    }

    /** `delete_blog_post`. */
    method DeleteBlogPost(k: int) returns (r: Result<string, HttpError>)
      requires Valid()
      modifies this
      ensures Valid()
      ensures watched == old(watched) && watchedSeq == old(watchedSeq)
      ensures wantToWatch == old(wantToWatch) && wantSeq == old(wantSeq) && postSeq == old(postSeq)
      ensures posts == DeleteWhere(old(posts), PostId, k)
      ensures r == if k in Ids(old(posts), PostId) then Ok(PostDeleted) else Err(PostNotFound)
    {
      var count := RowCount(posts, PostId, k);
      if count == 0 {
        DeleteWhereNothing(posts, PostId, k);
        return Err(PostNotFound);
      }
      var rest := DeleteWhere(posts, PostId, k);
      DeletePostValid(posts, postSeq, k);
      posts := rest;
      r := Ok(PostDeleted);
    }

    /** `get_blog_slug_map`: no ids gives the empty map without a query;
        otherwise, walking the matching posts in row order, each one sets
        its title's entry to its slug. A title is a key exactly when one of
        the given ids is its id and some post is about it. */
    method BlogSlugMap(ids: seq<int>) returns (m: map<int, string>)
      ensures ids == [] ==> m == map[]
      ensures forall w :: w in m <==> w in ids && exists p :: p in posts && p.watchedId == w
      ensures forall w :: w in m ==> exists p :: p in posts && p.watchedId == w && p.slug == m[w]
    {
      m := map[];
      if ids == [] {
        return;
      }
      var i := 0;
      while i < |posts|
        invariant 0 <= i <= |posts|
        invariant forall w :: w in m <==> w in ids && exists j :: 0 <= j < i && posts[j].watchedId == w
        invariant forall w :: w in m ==> exists j :: 0 <= j < i && posts[j].watchedId == w && posts[j].slug == m[w]
      {
        var p := posts[i];
        if p.watchedId in ids {
          m := m[p.watchedId := p.slug];
        }
        i := i + 1;
      }
      forall w | w in m ensures exists p :: p in posts && p.watchedId == w && p.slug == m[w] {
        var j :| 0 <= j < |posts| && posts[j].watchedId == w && posts[j].slug == m[w];
        assert posts[j] in posts;
      }
      forall w | w in ids && (exists p :: p in posts && p.watchedId == w) ensures w in m {
        var p :| p in posts && p.watchedId == w;
        var j :| 0 <= j < |posts| && posts[j] == p;
      }
    }
  }

  /** Deleting a watched title leaves its posts behind: the slug stays
      taken, so no new post can have it, yet the post can no longer be
      shown, because the join finds no watched row. */
  lemma OrphanedPost(watched: seq<Watched>, hi: nat, posts: seq<BlogPost>, p: BlogPost)
    requires Keyed(watched, WatchedId, hi) && UniqueSlugs(posts) && p in posts
    ensures SlugInUse(posts, p.slug)
    ensures PostBySlug(posts, DeleteWhere(watched, WatchedId, p.watchedId), p.slug).None?
  {
    var rest := DeleteWhere(watched, WatchedId, p.watchedId);
    var r := PostBySlug(posts, rest, p.slug);
    if r.Some? {
      assert false;
    }
  }
}
