/**
 * The blog collection container: the list of posts fetched for a user, the
 * post opened on its own, a loading flag and the last error message; the six
 * asynchronous operations that talk to the store; and the reducers that apply
 * each phase of an operation to the container.
 */
module BlogSlice {
  import opened Wrappers
  import opened Records
  import opened Remote
  import opened Async

  const FETCH_BLOGS_FAILED := "Failed to fetch blogs"
  const FETCH_BLOG_FAILED := "Failed to fetch blog"
  const CREATE_BLOG_FAILED := "Failed to create blog"
  const UPDATE_BLOG_FAILED := "Failed to update blog"
  const DELETE_BLOG_FAILED := "Failed to delete blog"
  const LIKE_BLOG_FAILED := "Failed to like blog"

  // ---------------------------------------------------------------------------
  // The like computation

  /** `blog.likes || []`: a post stored without a like list has no likes. */
  function LikesOf(b: Blog): (r: seq<UserId>)
    ensures b.likes.Some? ==> r == b.likes.value
    ensures b.likes.None? ==> r == []
  {
    b.likes.GetOr([])
  }

  /** No user id occurs twice. */
  predicate Distinct(likes: seq<UserId>) {
    forall i, j :: 0 <= i < j < |likes| ==> likes[i] != likes[j]
  }

  /**
   * `likes.filter(likeId => likeId !== userId)`: every other id, as often as
   * it occurred, and never `userId`. The same filter as `WithoutId`, over the
   * ids of a like list rather than over posts compared by their `id` field.
   */
  function Without(likes: seq<UserId>, userId: UserId): (r: seq<UserId>)
    ensures forall x :: x in r <==> x in likes && x != userId
    ensures forall x :: x != userId ==> multiset(r)[x] == multiset(likes)[x]
    ensures |r| <= |likes|
  {
    if likes == [] then []
    else
      assert likes == [likes[0]] + likes[1..];
      (if likes[0] == userId then [] else [likes[0]]) + Without(likes[1..], userId)
  }

  /**
   * Unlike when `userId` already likes the post, like otherwise. The user's
   * membership flips, and the other ids stay as they were, in their relative
   * order; a like appends exactly one copy of `userId` at the end.
   */
  function ToggledLikes(likes: seq<UserId>, userId: UserId): (r: seq<UserId>)
    ensures userId in r <==> userId !in likes
    ensures Without(r, userId) == Without(likes, userId)
    ensures userId !in likes ==> |r| == |likes| + 1 && r[..|likes|] == likes
  {
    if userId in likes then
      WithoutAbsent(Without(likes, userId), userId);
      Without(likes, userId)
    else
      WithoutAppended(likes, userId);
      likes + [userId]
  }

  /** The filter keeps the other ids in their original relative order. */
  lemma {:induction false} WithoutIsSubsequence(likes: seq<UserId>, userId: UserId)
    ensures IsSubsequence(Without(likes, userId), likes)
  {
    if likes != [] {
      WithoutIsSubsequence(likes[1..], userId);
      var rest := Without(likes[1..], userId);
      if likes[0] == userId {
        assert Without(likes, userId) == rest;
        SubsequenceOfTail(rest, likes);
      } else {
        assert Without(likes, userId) == [likes[0]] + rest;
        assert ([likes[0]] + rest)[1..] == rest;
      }
    }
  }

  /** Filtering out an id that does not occur changes nothing. */
  lemma {:induction false} WithoutAbsent(likes: seq<UserId>, userId: UserId)
    requires userId !in likes
    ensures Without(likes, userId) == likes
  {
    if likes != [] {
      WithoutAbsent(likes[1..], userId);
      assert likes == [likes[0]] + likes[1..];
    }
  }

  /** Filtering out `userId` undoes appending it. */
  lemma {:induction false} WithoutAppended(likes: seq<UserId>, userId: UserId)
    ensures Without(likes + [userId], userId) == Without(likes, userId)
  {
    if likes == [] {
      assert Without([userId], userId) == [] + Without([], userId);
    } else {
      assert (likes + [userId])[1..] == likes[1..] + [userId];
      WithoutAppended(likes[1..], userId);
    }
  }

  /** Like then unlike by the same user gives back exactly the original list. */
  lemma LikeThenUnlike(likes: seq<UserId>, userId: UserId)
    requires userId !in likes
    ensures ToggledLikes(ToggledLikes(likes, userId), userId) == likes
  {
    WithoutAppended(likes, userId);
    WithoutAbsent(likes, userId);
  }

  /** Unlike then like by the same user gives back the same set of ids. */
  lemma UnlikeThenLike(likes: seq<UserId>, userId: UserId)
    requires userId in likes
    ensures forall x :: x in ToggledLikes(ToggledLikes(likes, userId), userId) <==> x in likes
  {
  }

  /** Filtering keeps a duplicate-free list duplicate-free. */
  lemma {:induction false} WithoutKeepsDistinct(likes: seq<UserId>, userId: UserId)
    requires Distinct(likes)
    ensures Distinct(Without(likes, userId))
  {
    if likes != [] {
      WithoutKeepsDistinct(likes[1..], userId);
      var rest := Without(likes[1..], userId);
      if likes[0] != userId {
        var r := [likes[0]] + rest;
        forall i, j | 0 <= i < j < |r| ensures r[i] != r[j] {
          if i == 0 {
            assert r[j] in likes[1..];
          }
        }
      }
    }
  }

  /** A like list with each user at most once keeps that property under a toggle. */
  lemma ToggleKeepsDistinct(likes: seq<UserId>, userId: UserId)
    requires Distinct(likes)
    ensures Distinct(ToggledLikes(likes, userId))
  {
    if userId in likes {
      WithoutKeepsDistinct(likes, userId);
    }
  }

  // ---------------------------------------------------------------------------
  // The asynchronous operations: what each one asks of the store and what it
  // fulfils or rejects with.

  /**
   * fetchBlogs: the user's posts as the store lists them: each of the user's
   * posts as often as the store holds it, no other post, in store order.
   */
  function FetchBlogs(s: Server, userId: UserId): (r: Settled<seq<Blog>>)
    ensures s.fault.Some? ==> r == Rejected(RejectionMessage(s.fault.value, FETCH_BLOGS_FAILED))
    ensures s.fault.None? ==> r.Fulfilled?
    ensures r.Fulfilled? ==> forall b :: b in r.payload <==> b in s.blogs && b.userId == userId
    ensures r.Fulfilled? ==>
      forall b: Blog :: b.userId == userId ==> multiset(r.payload)[b] == multiset(s.blogs)[b]
    ensures r.Fulfilled? ==> IsSubsequence(r.payload, s.blogs)
  {
    BlogsOfUserIsSubsequence(s.blogs, userId);
    match GetBlogsByUser(s, userId)
    case Ok(list) => Fulfilled(list)
    case Err(f) => Rejected(RejectionMessage(f, FETCH_BLOGS_FAILED))
  }

  /** fetchBlogById: the stored post with that id; a missing post rejects with the fixed message. */
  function FetchBlogById(s: Server, id: BlogId): (r: Settled<Blog>)
    ensures r.Fulfilled? <==> s.fault.None? && exists b :: b in s.blogs && b.id == id
    ensures r.Fulfilled? ==> r.payload in s.blogs && r.payload.id == id
    ensures s.fault.Some? ==> r == Rejected(RejectionMessage(s.fault.value, FETCH_BLOG_FAILED))
    ensures s.fault.None? && r.Rejected? ==> r.message == FETCH_BLOG_FAILED
  {
    match GetBlog(s, id)
    case Ok(b) => Fulfilled(b)
    case Err(f) => Rejected(RejectionMessage(f, FETCH_BLOG_FAILED))
  }

  /** createBlog: the caller's post is stored as given and appended to the store. */
  function CreateBlog(s: Server, post: Blog): (c: Completion<Blog>)
    ensures s.fault.None? ==> c.outcome == Fulfilled(post) && c.server == s.(blogs := s.blogs + [post])
    ensures s.fault.Some? ==> c.outcome == Rejected(RejectionMessage(s.fault.value, CREATE_BLOG_FAILED))
    ensures s.fault.Some? ==> c.server == s
  {
    var (reply, after) := PostBlog(s, post);
    match reply
    case Ok(b) => Completion(Fulfilled(b), after)
    case Err(f) => Completion(Rejected(RejectionMessage(f, CREATE_BLOG_FAILED)), after)
  }

  /** updateBlog: the stored post merged with the patch, keeping its id and its place in the store. */
  function UpdateBlog(s: Server, id: BlogId, patch: BlogPatch): (c: Completion<Blog>)
    ensures c.outcome.Fulfilled? <==> s.fault.None? && exists b :: b in s.blogs && b.id == id
    ensures c.outcome.Fulfilled? ==>
      var k := FindIndexById(s.blogs, id);
      && c.outcome.payload == MergeBlog(s.blogs[k], patch)
      && c.outcome.payload.id == id
      && c.server == s.(blogs := s.blogs[k := c.outcome.payload])
    ensures c.outcome.Rejected? ==> c.server == s
    ensures s.fault.Some? ==> c.outcome == Rejected(RejectionMessage(s.fault.value, UPDATE_BLOG_FAILED))
    ensures s.fault.None? && c.outcome.Rejected? ==> c.outcome.message == UPDATE_BLOG_FAILED
  {
    var (reply, after) := PatchBlog(s, id, patch);
    match reply
    case Ok(b) => Completion(Fulfilled(b), after)
    case Err(f) => Completion(Rejected(RejectionMessage(f, UPDATE_BLOG_FAILED)), after)
  }

  /** deleteBlog: fulfils with the id it was given once the store has dropped that post. */
  function DeleteBlog(s: Server, id: BlogId): (c: Completion<BlogId>)
    ensures c.outcome.Fulfilled? <==> s.fault.None? && exists b :: b in s.blogs && b.id == id
    ensures c.outcome.Fulfilled? ==> c.outcome.payload == id && c.server == s.(blogs := WithoutId(s.blogs, id))
    ensures c.outcome.Rejected? ==> c.server == s
    ensures s.fault.Some? ==> c.outcome == Rejected(RejectionMessage(s.fault.value, DELETE_BLOG_FAILED))
    ensures s.fault.None? && c.outcome.Rejected? ==> c.outcome.message == DELETE_BLOG_FAILED
  {
    var (reply, after) := DeleteBlogById(s, id);
    match reply
    case Ok(_) => Completion(Fulfilled(id), after)
    case Err(f) => Completion(Rejected(RejectionMessage(f, DELETE_BLOG_FAILED)), after)
  }

  /**
   * toggleLikeBlog: reads the post, computes its new like list, and writes
   * that list back as a partial update; fulfils with the updated post.
   */
  function ToggleLikeBlog(s: Server, id: BlogId, userId: UserId): (c: Completion<Blog>)
    ensures c.outcome.Fulfilled? <==> s.fault.None? && exists b :: b in s.blogs && b.id == id
    ensures c.outcome.Fulfilled? ==>
      var k := FindIndexById(s.blogs, id);
      && c.outcome.payload == s.blogs[k].(likes := Some(ToggledLikes(LikesOf(s.blogs[k]), userId)))
      && c.server == s.(blogs := s.blogs[k := c.outcome.payload])
    ensures c.outcome.Rejected? ==> c.server == s
    ensures s.fault.Some? ==> c.outcome == Rejected(RejectionMessage(s.fault.value, LIKE_BLOG_FAILED))
    ensures s.fault.None? && c.outcome.Rejected? ==> c.outcome.message == LIKE_BLOG_FAILED
  {
    match GetBlog(s, id)
    case Err(f) => Completion(Rejected(RejectionMessage(f, LIKE_BLOG_FAILED)), s)
    case Ok(blog) =>
      var updated := ToggledLikes(LikesOf(blog), userId);
      var patch := BlogPatch(None, None, None, None, Some(updated), None);
      var (reply, after) := PatchBlog(s, id, patch);
      match reply
      case Ok(b) => Completion(Fulfilled(b), after)
      case Err(f) => Completion(Rejected(RejectionMessage(f, LIKE_BLOG_FAILED)), after)
  }

  // ---------------------------------------------------------------------------
  // What the operations promise when run one after another against the store.

  /** Replacing the first post with an id by another post with that id keeps it the first. */
  lemma FindIndexAfterReplace(blogs: seq<Blog>, id: BlogId, b: Blog)
    requires FindIndexById(blogs, id) != -1 && b.id == id
    ensures FindIndexById(blogs[FindIndexById(blogs, id) := b], id) == FindIndexById(blogs, id)
  {
    var k := FindIndexById(blogs, id);
    assert blogs[k := b][k].id == id;
    assert forall i :: 0 <= i < k ==> blogs[k := b][i] == blogs[i];
  }

  /** After a successful delete, fetching the same post fails. */
  lemma DeletedBlogCannotBeFetched(s: Server, id: BlogId)
    requires DeleteBlog(s, id).outcome.Fulfilled?
    ensures FetchBlogById(DeleteBlog(s, id).server, id) == Rejected(FETCH_BLOG_FAILED)
  {
  }

  /** The author's posts, listed after one is appended. */
  lemma {:induction false} BlogsOfUserAppend(blogs: seq<Blog>, post: Blog)
    ensures BlogsOfUser(blogs + [post], post.userId) == BlogsOfUser(blogs, post.userId) + [post]
  {
    if blogs == [] {
      assert BlogsOfUser([post], post.userId) == [post] + BlogsOfUser([], post.userId);
    } else {
      assert (blogs + [post])[1..] == blogs[1..] + [post];
      BlogsOfUserAppend(blogs[1..], post);
    }
  }

  /** A created post shows up at the end of its author's list. */
  lemma CreatedBlogIsListedLast(s: Server, post: Blog)
    requires CreateBlog(s, post).outcome.Fulfilled?
    ensures FetchBlogs(CreateBlog(s, post).server, post.userId)
         == Fulfilled(FetchBlogs(s, post.userId).payload + [post])
  {
    BlogsOfUserAppend(s.blogs, post);
  }

  /**
   * Two successive toggles by the same user, with nothing in between, give
   * the post back its original likes when the user had not liked it.
   */
  lemma ToggleTwiceRestoresLikes(s: Server, id: BlogId, userId: UserId)
    requires ToggleLikeBlog(s, id, userId).outcome.Fulfilled?
    requires userId !in LikesOf(s.blogs[FindIndexById(s.blogs, id)])
    ensures
      var first := ToggleLikeBlog(s, id, userId);
      var second := ToggleLikeBlog(first.server, id, userId);
      && second.outcome.Fulfilled?
      && LikesOf(second.outcome.payload) == LikesOf(s.blogs[FindIndexById(s.blogs, id)])
  {
    var k := FindIndexById(s.blogs, id);
    var first := ToggleLikeBlog(s, id, userId);
    FindIndexAfterReplace(s.blogs, id, first.outcome.payload);
    assert first.server.blogs[k] == first.outcome.payload;
    LikeThenUnlike(LikesOf(s.blogs[k]), userId);
  }

  // ---------------------------------------------------------------------------
  // The container and its reducers.

  class BlogState {
    var blogs: seq<Blog>
    var loading: bool
    var error: Option<string>
    var currentBlog: Option<Blog>

    /** The initial state: no posts, not loading, no error, no open post. */
    constructor ()
      ensures blogs == [] && !loading && error == None && currentBlog == None
    {
      blogs := [];
      loading := false;
      error := None;
      currentBlog := None;
    }

    method ClearError()
      modifies this
      ensures error == None
      ensures blogs == old(blogs) && loading == old(loading) && currentBlog == old(currentBlog)
    {
      error := None;
    }

    /** The pending case shared by fetchBlogs, fetchBlogById, createBlog, updateBlog and deleteBlog. */
    method Pending()
      modifies this
      ensures loading && error == None
      ensures blogs == old(blogs) && currentBlog == old(currentBlog)
    {
      loading := true;
      error := None;
    }

    /** The rejected case shared by the same five operations. */
    method Reject(message: string)
      modifies this
      ensures !loading && error == Some(message)
      ensures blogs == old(blogs) && currentBlog == old(currentBlog)
    {
      loading := false;
      error := Some(message);
    }

    method FetchBlogsFulfilled(payload: seq<Blog>)
      modifies this
      ensures !loading && blogs == payload
      ensures error == old(error) && currentBlog == old(currentBlog)
    {
      loading := false;
      blogs := payload;
    }

    method FetchBlogByIdFulfilled(payload: Blog)
      modifies this
      ensures !loading && currentBlog == Some(payload)
      ensures blogs == old(blogs) && error == old(error)
    {
      loading := false;
      currentBlog := Some(payload);
    }

    method CreateBlogFulfilled(payload: Blog)
      modifies this
      ensures !loading
      ensures |blogs| == |old(blogs)| + 1 && blogs[|old(blogs)|] == payload
      ensures blogs[..|old(blogs)|] == old(blogs)
      ensures error == old(error) && currentBlog == old(currentBlog)
    {
      loading := false;
      blogs := blogs + [payload];
    }

    method UpdateBlogFulfilled(payload: Blog)
      modifies this
      ensures !loading && ReplacesFirstById(old(blogs), blogs, payload)
      ensures error == old(error) && currentBlog == old(currentBlog)
    {
      loading := false;
      var index := FindIndexById(blogs, payload.id);
      if index != -1 {
        blogs := blogs[index := payload];
      }
    }

    method DeleteBlogFulfilled(id: BlogId)
      modifies this
      ensures !loading && blogs == WithoutId(old(blogs), id)
      ensures error == old(error) && currentBlog == old(currentBlog)
    {
      loading := false;
      blogs := WithoutId(blogs, id);
    }

    /** The only case toggleLikeBlog has: it leaves `loading` and `error` alone. */
    method ToggleLikeBlogFulfilled(payload: Blog)
      modifies this
      ensures ReplacesFirstById(old(blogs), blogs, payload)
      ensures loading == old(loading) && error == old(error) && currentBlog == old(currentBlog)
    {
      var index := FindIndexById(blogs, payload.id);
      if index != -1 {
        blogs := blogs[index := payload];
      }
    }

    // -------------------------------------------------------------------------
    // Each operation as one step: the pending case, the request, then the
    // fulfilled or rejected case.

    method DispatchFetchBlogs(server: Server, userId: UserId)
      modifies this
      ensures !loading && currentBlog == old(currentBlog)
      ensures match FetchBlogs(server, userId)
              case Fulfilled(list) => blogs == list && error == None
              case Rejected(m) => blogs == old(blogs) && error == Some(m)
    {
      Pending();
      match FetchBlogs(server, userId) {
        case Fulfilled(list) => FetchBlogsFulfilled(list);
        case Rejected(m) => Reject(m);
      }
    }

    method DispatchFetchBlogById(server: Server, id: BlogId)
      modifies this
      ensures !loading && blogs == old(blogs)
      ensures match FetchBlogById(server, id)
              case Fulfilled(b) => currentBlog == Some(b) && error == None
              case Rejected(m) => currentBlog == old(currentBlog) && error == Some(m)
    {
      Pending();
      match FetchBlogById(server, id) {
        case Fulfilled(b) => FetchBlogByIdFulfilled(b);
        case Rejected(m) => Reject(m);
      }
    }

    method DispatchCreateBlog(server: Server, post: Blog) returns (after: Server)
      modifies this
      ensures after == CreateBlog(server, post).server
      ensures !loading && currentBlog == old(currentBlog)
      ensures match CreateBlog(server, post).outcome
              case Fulfilled(b) => blogs == old(blogs) + [b] && error == None
              case Rejected(m) => blogs == old(blogs) && error == Some(m)
    {
      Pending();
      var c := CreateBlog(server, post);
      after := c.server;
      match c.outcome {
        case Fulfilled(b) => CreateBlogFulfilled(b);
        case Rejected(m) => Reject(m);
      }
    }

    method DispatchUpdateBlog(server: Server, id: BlogId, patch: BlogPatch) returns (after: Server)
      modifies this
      ensures after == UpdateBlog(server, id, patch).server
      ensures !loading && currentBlog == old(currentBlog)
      ensures match UpdateBlog(server, id, patch).outcome
              case Fulfilled(b) => ReplacesFirstById(old(blogs), blogs, b) && error == None
              case Rejected(m) => blogs == old(blogs) && error == Some(m)
    {
      Pending();
      var c := UpdateBlog(server, id, patch);
      after := c.server;
      match c.outcome {
        case Fulfilled(b) => UpdateBlogFulfilled(b);
        case Rejected(m) => Reject(m);
      }
    }

    method DispatchDeleteBlog(server: Server, id: BlogId) returns (after: Server)
      modifies this
      ensures after == DeleteBlog(server, id).server
      ensures !loading && currentBlog == old(currentBlog)
      ensures match DeleteBlog(server, id).outcome
              case Fulfilled(deleted) => blogs == WithoutId(old(blogs), deleted) && error == None
              case Rejected(m) => blogs == old(blogs) && error == Some(m)
    {
      Pending();
      var c := DeleteBlog(server, id);
      after := c.server;
      match c.outcome {
        case Fulfilled(deleted) => DeleteBlogFulfilled(deleted);
        case Rejected(m) => Reject(m);
      }
    }

    /** No pending or rejected case: a failed toggle leaves the container as it was. */
    method DispatchToggleLikeBlog(server: Server, id: BlogId, userId: UserId) returns (after: Server)
      modifies this
      ensures after == ToggleLikeBlog(server, id, userId).server
      ensures loading == old(loading) && error == old(error) && currentBlog == old(currentBlog)
      ensures match ToggleLikeBlog(server, id, userId).outcome
              case Fulfilled(b) => ReplacesFirstById(old(blogs), blogs, b)
              case Rejected(_) => blogs == old(blogs)
    {
      var c := ToggleLikeBlog(server, id, userId);
      after := c.server;
      if c.outcome.Fulfilled? {
        ToggleLikeBlogFulfilled(c.outcome.payload);
      }
    }
  }

  // ---------------------------------------------------------------------------
  // Two runs of the container against a store, end to end.

  /** A post by `author` with an empty like list. */
  function SamplePost(id: BlogId, author: UserId): Blog {
    Blog(id, "title", "description", "content", "category", author, "author", Some([]), "t0", "t0")
  }

  /** Three posts created by "u1" are appended to the store and to the list, in creation order. */
  method CreateScenario() {
    var p1, p2, p3 := SamplePost("1", "u1"), SamplePost("2", "u1"), SamplePost("3", "u1");
    var state := new BlogState();
    var server := Server([], [], None);
    server := state.DispatchCreateBlog(server, p1);
    server := state.DispatchCreateBlog(server, p2);
    server := state.DispatchCreateBlog(server, p3);
    assert server.blogs == [p1, p2, p3];
    assert state.blogs == [p1, p2, p3];
  }

  /** When every stored post is by `userId`, the author's query returns the whole store. */
  lemma {:induction false} AllOfOneAuthor(blogs: seq<Blog>, userId: UserId)
    requires forall i :: 0 <= i < |blogs| ==> blogs[i].userId == userId
    ensures BlogsOfUser(blogs, userId) == blogs
  {
    if blogs != [] {
      AllOfOneAuthor(blogs[1..], userId);
      assert blogs == [blogs[0]] + blogs[1..];
    }
  }

  /** A store answering and holding only `userId`'s posts gives all of them back, in store order. */
  lemma FetchAllOfOneAuthor(s: Server, userId: UserId)
    requires s.fault.None?
    requires forall i :: 0 <= i < |s.blogs| ==> s.blogs[i].userId == userId
    ensures FetchBlogs(s, userId) == Fulfilled(s.blogs)
  {
    AllOfOneAuthor(s.blogs, userId);
  }

  /** A store holding three posts of "u1" gives them back in store order. */
  method FetchScenario() {
    var p1, p2, p3 := SamplePost("1", "u1"), SamplePost("2", "u1"), SamplePost("3", "u1");
    var state := new BlogState();
    var server := Server([], [p1, p2, p3], None);
    FetchAllOfOneAuthor(server, "u1");
    state.DispatchFetchBlogs(server, "u1");
    assert state.blogs == [p1, p2, p3];
  }

  /** Deleting "2" from the posts "1", "2", "3" leaves "1" and "3", in that order. */
  method DeleteScenario() {
    var p1, p2, p3 := SamplePost("1", "u1"), SamplePost("2", "u1"), SamplePost("3", "u1");
    var state := new BlogState();
    state.FetchBlogsFulfilled([p1, p2, p3]);
    var server := Server([], [p1, p2, p3], None);
    assert p2 in server.blogs;
    assert WithoutId([p3], "2") == [p3];
    assert WithoutId([p2, p3], "2") == [p3];
    assert WithoutId([p1, p2, p3], "2") == [p1, p3];
    server := state.DispatchDeleteBlog(server, "2");
    assert state.blogs == [p1, p3] && server.blogs == [p1, p3];
    assert !state.loading && state.error == None;
  }

  /** "u2" likes post "1" and then unlikes it. */
  method ToggleLikeScenario() {
    var state := new BlogState();
    var server := Server([], [SamplePost("1", "u1")], None);
    BlogsOfUserAppend([], SamplePost("1", "u1"));
    assert [] + [SamplePost("1", "u1")] == [SamplePost("1", "u1")];
    state.DispatchFetchBlogs(server, "u1");
    assert state.blogs == [SamplePost("1", "u1")];
    assert FindIndexById(server.blogs, "1") == 0;
    assert ToggledLikes([], "u2") == ["u2"];
    server := state.DispatchToggleLikeBlog(server, "1", "u2");
    assert state.blogs[0].likes == Some(["u2"]);
    server := state.DispatchToggleLikeBlog(server, "1", "u2");
    assert state.blogs[0].likes == Some([]);
  }
}
