/**
 * Blog posts (`PostService`): a listing newest first, paged by ten, lookup
 * by id, and adding, editing and removing posts. Bodies are stored
 * compressed and shown decompressed.
 */
module PostService {
  import opened Common
  import opened Calendar
  import opened Queries
  import opened Compression
  import opened Store

  const POST_PAGE_SIZE := 10

  /**
   * The stored thumbnail: the supplied value when it is absent or
   * non-empty, the empty string otherwise; which is the supplied value in
   * every case.
   */
  function ThumbnailRule(thumbnail: Option<string>): (r: Option<string>)
    ensures r == thumbnail
  {
    if thumbnail.None? || |thumbnail.value| > 0 then thumbnail else Some("")
  }

  /** A post as listed: its body decompressed, its author shown by id. */
  datatype PostView = PostView(
    postId: int,
    createdBy: UserId,
    creationDate: DateTime,
    latestUpdate: DateTime,
    title: string,
    content: string,
    thumbnail: Option<string>)

  function ViewOfPost(p: Post): (v: PostView)
    ensures v.postId == p.postId && v.createdBy == p.userId && v.title == p.title
    ensures v.creationDate == p.creationDate && v.latestUpdate == p.latestUpdate
    ensures v.content == DecompressString(p.content) && v.thumbnail == p.thumbnail
  {
    PostView(p.postId, p.userId, p.creationDate, p.latestUpdate, p.title, DecompressString(p.content), p.thumbnail)
  }

  /** The posts, newest first. */
  function PostsNewestFirst(posts: seq<Post>): (r: seq<Post>)
    ensures multiset(r) == multiset(posts) && |r| == |posts|
    ensures forall i, j :: 0 <= i < j < |r| ==> NotBefore(r[i].creationDate, r[j].creationDate)
  {
    var key := (p: Post) => p.creationDate;
    NotBeforeIsTotalPreorder();
    SortBySorted(posts, key, NotBefore);
    SortBy(posts, key, NotBefore)
  }

  /**
   * The posts a page lists: for a page of 1 or more, at most ten posts
   * starting at ten times the page before it; for any other page, every
   * post.
   */
  function PostPage(posts: seq<Post>, page: int): (r: seq<Post>)
    ensures page <= 0 ==> r == PostsNewestFirst(posts)
    ensures page > 0 ==> |r| <= POST_PAGE_SIZE
    ensures page > 0 ==> var start := PageStart(page, POST_PAGE_SIZE);
              && (forall i :: 0 <= i < |r| ==> start + i < |posts| && r[i] == PostsNewestFirst(posts)[start + i])
              && (|r| == POST_PAGE_SIZE || start + |r| >= |posts|)
    ensures forall p :: p in r ==> p in posts
    ensures forall i, j :: 0 <= i < j < |r| ==> NotBefore(r[i].creationDate, r[j].creationDate)
  {
    var sorted := PostsNewestFirst(posts);
    assert forall p :: p in sorted ==> p in multiset(posts);
    if page > 0 then Page(sorted, page, POST_PAGE_SIZE) else sorted
  }

  /** `GetAllPosts`: the page's posts as listed, newest first. */
  function GetAllPosts(posts: seq<Post>, page: int): (r: seq<PostView>)
    ensures |r| == |PostPage(posts, page)|
    ensures forall i :: 0 <= i < |r| ==> r[i] == ViewOfPost(PostPage(posts, page)[i])
    ensures page <= 0 ==> |r| == |posts|
    ensures page > 0 ==> |r| <= POST_PAGE_SIZE
  {
    var listed := PostPage(posts, page);
    seq(|listed|, i requires 0 <= i < |listed| => ViewOfPost(listed[i]))
  }

  /** The position of a post by identity (`Posts.FindAsync(postId)`). */
  function PostIndex(posts: seq<Post>, postId: int): (r: Option<nat>)
    ensures r.Some? ==> r.value < |posts| && posts[r.value].postId == postId
    ensures r.None? ==> forall j :: 0 <= j < |posts| ==> posts[j].postId != postId
  {
    IndexWhere(posts, (p: Post) => p.postId == postId)
  }

  /** `GetPostById`: the post's view, or NotFound. */
  function GetPostById(posts: seq<Post>, postId: int): (r: (Response, Option<PostView>))
    ensures r.0 == Ok || r.0 == NotFound
    ensures r.0 == NotFound <==> forall p :: p in posts ==> p.postId != postId
    ensures r.0 == NotFound <==> r.1.None?
    ensures r.1.Some? ==> exists p :: p in posts && p.postId == postId && r.1.value == ViewOfPost(p)
  {
    match PostIndex(posts, postId)
    case None => (NotFound, None)
    case Some(i) => (Ok, Some(ViewOfPost(posts[i])))
  }

  /** A new post: its author, title, compressed body and thumbnail, created and updated now. */
  function NewPost(postId: int, userId: UserId, title: string, description: string, thumbnail: Option<string>,
                   now: DateTime): (p: Post)
    ensures p.postId == postId && p.userId == userId && p.title == title && p.thumbnail == thumbnail
    ensures DecompressString(p.content) == StripBom(description)
    ensures description == [] || description[0] != BOM ==> DecompressString(p.content) == description
    ensures p.creationDate == now && p.latestUpdate == now
  {
    Post(postId, userId, title, CompressString(description), ThumbnailRule(thumbnail), now, now)
  }

  /** A post with a new thumbnail, title and body, updated now; identity, author and creation date kept. */
  function EditedPost(p: Post, title: string, description: string, thumbnail: Option<string>, now: DateTime)
    : (r: Post)
    ensures r.postId == p.postId && r.userId == p.userId && r.creationDate == p.creationDate
    ensures r.title == title && r.thumbnail == thumbnail && r.latestUpdate == now
    ensures DecompressString(r.content) == StripBom(description)
    ensures description == [] || description[0] != BOM ==> DecompressString(r.content) == description
  {
    p.(thumbnail := ThumbnailRule(thumbnail), title := title, content := CompressString(description),
       latestUpdate := now)
  }

  /**
   * `AddPost`: a post with the next identity is appended, with the given
   * author and title, the compressed description as body, and the
   * thumbnail as supplied. The author id is taken as given.
   */
  method AddPost(db: Db, userId: UserId, title: string, description: string, thumbnail: Option<string>,
                 now: DateTime) returns (r: Response, postId: int)
    requires db.Valid()
    modifies db`posts, db`nextPostId
    ensures db.Valid()
    ensures r == Ok && postId == old(db.nextPostId) && db.nextPostId == postId + 1
    ensures db.posts == old(db.posts) + [NewPost(postId, userId, title, description, thumbnail, now)]
  {
    postId := db.nextPostId;
    var post := NewPost(postId, userId, title, description, thumbnail, now);
    assert PostsWellFormed(db.posts + [post], postId + 1);
    db.posts, db.nextPostId := db.posts + [post], postId + 1;
    r := Ok;
  }

  /**
   * A post appended under a fresh identity reads back with the text it was
   * written from, less a leading U+FEFF.
   */
  lemma AddedPostReadsBack(posts: seq<Post>, next: int, userId: UserId, title: string, description: string,
                           thumbnail: Option<string>, now: DateTime)
    requires PostsWellFormed(posts, next)
    ensures var added := posts + [NewPost(next, userId, title, description, thumbnail, now)];
            GetPostById(added, next) == (Ok, Some(PostView(next, userId, now, now, title, StripBom(description), thumbnail)))
    ensures var added := posts + [NewPost(next, userId, title, description, thumbnail, now)];
            description == [] || description[0] != BOM ==>
              GetPostById(added, next) == (Ok, Some(PostView(next, userId, now, now, title, description, thumbnail)))
  {
    var post := NewPost(next, userId, title, description, thumbnail, now);
    var added := posts + [post];
    var found := PostIndex(added, next);
    assert added[|posts|] == post;
    assert found == Some(|posts|);
  }

  /**
   * `EditPost` on a stored post: its thumbnail, title, body and update time
   * are overwritten; its identity, author and creation date, and every
   * other post, are kept.
   */
  method EditPost(db: Db, postId: int, title: string, description: string, thumbnail: Option<string>,
                  now: DateTime) returns (r: Response)
    requires db.Valid()
    requires PostIndex(db.posts, postId).Some?
    modifies db`posts
    ensures db.Valid()
    ensures r == Ok
    ensures var i := PostIndex(old(db.posts), postId).value;
            db.posts == old(db.posts)[i := EditedPost(old(db.posts)[i], title, description, thumbnail, now)]
  {
    var i := PostIndex(db.posts, postId).value;
    var edited := EditedPost(db.posts[i], title, description, thumbnail, now);
    assert PostsWellFormed(db.posts[i := edited], db.nextPostId);
    db.posts := db.posts[i := edited];
    r := Ok;
  }

  /**
   * `RemovePost`: NotFound for an unknown id; otherwise exactly that post
   * is removed, so no post with the id remains.
   */
  method RemovePost(db: Db, postId: int) returns (r: Response)
    requires db.Valid()
    modifies db`posts
    ensures db.Valid()
    ensures r == (if PostIndex(old(db.posts), postId).Some? then Ok else NotFound)
    ensures r == NotFound ==> db.posts == old(db.posts)
    ensures r == Ok ==> var i := PostIndex(old(db.posts), postId).value;
                        db.posts == old(db.posts)[..i] + old(db.posts)[i + 1..]
    ensures PostIndex(db.posts, postId).None?
  {
    var found := PostIndex(db.posts, postId);
    if found.None? {
      return NotFound;
    }
    var i := found.value;
    RemovedPostWellFormed(db.posts, db.nextPostId, i);
    db.posts := db.posts[..i] + db.posts[i + 1..];
    r := Ok;
  }

  /** Removing a row keeps the post table well formed and leaves no post with the removed id. */
  lemma RemovedPostWellFormed(posts: seq<Post>, next: int, i: int)
    requires PostsWellFormed(posts, next) && 0 <= i < |posts|
    ensures PostsWellFormed(posts[..i] + posts[i + 1..], next)
    ensures PostIndex(posts[..i] + posts[i + 1..], posts[i].postId).None?
  {
    var rest := posts[..i] + posts[i + 1..];
    assert forall a :: 0 <= a < |rest| ==> rest[a] == posts[if a < i then a else a + 1];
  }
}
