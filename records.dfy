/**
 * The records exchanged with the remote store (users and blog posts) and the
 * two searches the blog collection performs over an in-memory list of posts.
 */
module Records {
  import opened Wrappers

  type UserId = string
  type BlogId = string

  /** A registered user as the `users` collection stores it. */
  datatype User = User(
    id: UserId,
    fullName: string,
    email: string,
    password: string,
    bio: Option<string>,
    createdAt: string)

  /**
   * The object a caller hands to registration. `id` and `createdAt` are
   * present only when the caller supplies them; the spread in
   * `{ id, ...userData, createdAt }` decides which one wins.
   */
  datatype UserData = UserData(
    id: Option<UserId>,
    fullName: string,
    email: string,
    password: string,
    bio: Option<string>,
    createdAt: Option<string>)

  /** The fields a profile update may carry; an absent field is left as it is. */
  datatype UserPatch = UserPatch(
    fullName: Option<string>,
    email: Option<string>,
    password: Option<string>,
    bio: Option<string>)

  /** A blog post. `likes` may be missing from a stored record, hence the Option. */
  datatype Blog = Blog(
    id: BlogId,
    title: string,
    description: string,
    content: string,
    category: string,
    userId: UserId,
    authorName: string,
    likes: Option<seq<UserId>>,
    createdAt: string,
    updatedAt: string)

  /** The fields an edit or a like toggle may carry; an absent field is left as it is. */
  datatype BlogPatch = BlogPatch(
    title: Option<string>,
    description: Option<string>,
    content: Option<string>,
    category: Option<string>,
    likes: Option<seq<UserId>>,
    updatedAt: Option<string>)

  /** `s` can be obtained from `t` by deleting elements, keeping the order of the rest. */
  predicate IsSubsequence<T(==)>(s: seq<T>, t: seq<T>)
    decreases |t|
  {
    if s == [] then true
    else if t == [] then false
    else if s[0] == t[0] then IsSubsequence(s[1..], t[1..])
    else IsSubsequence(s, t[1..])
  }

  /** No two posts of the list share an id. */
  predicate UniqueIds(blogs: seq<Blog>) {
    forall i, j :: 0 <= i < j < |blogs| ==> blogs[i].id != blogs[j].id
  }

  /**
   * `blogs.findIndex(blog => blog.id === id)`: the position of the first post
   * with that id, or -1 when no post has it.
   */
  function FindIndexById(blogs: seq<Blog>, id: BlogId): (index: int)
    ensures -1 <= index < |blogs|
    ensures index == -1 <==> forall i :: 0 <= i < |blogs| ==> blogs[i].id != id
    ensures 0 <= index ==> blogs[index].id == id
    ensures 0 <= index ==> forall i :: 0 <= i < index ==> blogs[i].id != id
  {
    if blogs == [] then -1
    else if blogs[0].id == id then 0
    else
      var k := FindIndexById(blogs[1..], id);
      if k == -1 then -1 else k + 1
  }

  /**
   * `after` is `before` with the first post whose id is `payload.id` replaced
   * by `payload`, every other position as it was; when no post has that id,
   * `after` is `before`.
   */
  ghost predicate ReplacesFirstById(before: seq<Blog>, after: seq<Blog>, payload: Blog) {
    var k := FindIndexById(before, payload.id);
    && |after| == |before|
    && (k == -1 ==> after == before)
    && (k != -1 ==> after[k] == payload)
    && (forall i :: 0 <= i < |before| && i != k ==> after[i] == before[i])
  }

  /**
   * `blogs.filter(blog => blog.id !== id)`: every post without that id, each
   * as often as it occurred, and no post with it.
   */
  function WithoutId(blogs: seq<Blog>, id: BlogId): (r: seq<Blog>)
    ensures forall b :: b in r <==> b in blogs && b.id != id
    ensures forall b: Blog :: b.id != id ==> multiset(r)[b] == multiset(blogs)[b]
    ensures |r| <= |blogs|
  {
    if blogs == [] then []
    else
      assert blogs == [blogs[0]] + blogs[1..];
      if blogs[0].id == id then WithoutId(blogs[1..], id)
      else [blogs[0]] + WithoutId(blogs[1..], id)
  }

  /** The filter keeps the survivors in their original relative order. */
  lemma {:induction false} WithoutIdIsSubsequence(blogs: seq<Blog>, id: BlogId)
    ensures IsSubsequence(WithoutId(blogs, id), blogs)
  {
    if blogs != [] {
      WithoutIdIsSubsequence(blogs[1..], id);
      var rest := WithoutId(blogs[1..], id);
      if blogs[0].id == id {
        SubsequenceOfTail(rest, blogs);
      } else {
        assert WithoutId(blogs, id) == [blogs[0]] + rest;
        assert ([blogs[0]] + rest)[1..] == rest;
      }
    }
  }

  /** A subsequence of the tail is a subsequence of the whole. */
  lemma {:induction false} SubsequenceOfTail<T>(s: seq<T>, t: seq<T>)
    requires t != [] && IsSubsequence(s, t[1..])
    ensures IsSubsequence(s, t)
    decreases |t|, 1
  {
    if s != [] && s[0] == t[0] {
      SubsequenceDropFirst(s, t[1..]);
    }
  }

  /** Dropping the first element of a subsequence keeps it a subsequence. */
  lemma {:induction false} SubsequenceDropFirst<T>(s: seq<T>, t: seq<T>)
    requires s != [] && IsSubsequence(s, t)
    ensures IsSubsequence(s[1..], t)
    decreases |t|, 2
  {
    if s[0] == t[0] {
      if s[1..] != [] {
        SubsequenceOfTail(s[1..], t);
      }
    } else {
      SubsequenceDropFirst(s, t[1..]);
      SubsequenceOfTail(s[1..], t);
    }
  }

  /** Filtering by id keeps the list free of duplicate ids. */
  lemma {:induction false} WithoutIdKeepsUniqueIds(blogs: seq<Blog>, id: BlogId)
    requires UniqueIds(blogs)
    ensures UniqueIds(WithoutId(blogs, id))
  {
    if blogs != [] {
      WithoutIdKeepsUniqueIds(blogs[1..], id);
      var rest := WithoutId(blogs[1..], id);
      if blogs[0].id != id {
        var r := [blogs[0]] + rest;
        forall i, j | 0 <= i < j < |r| ensures r[i].id != r[j].id {
          if i == 0 {
            assert r[j] in blogs[1..];
          }
        }
      }
    }
  }
}
