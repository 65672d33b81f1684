/**
 * The remote resource store the two containers talk to, reduced to what the
 * containers rely on: two collections kept in insertion order, equality
 * filters, lookup by id, create, partial update and delete. A store-wide
 * `fault` stands for every way a request can fail before it reaches a
 * record (unreachable server, application error); it carries the message
 * the error body may hold.
 */
module Remote {
  import opened Wrappers
  import opened Records

  /** What a failed request exposes: the `message` of the error body, if any. */
  datatype Failure = Failure(message: Option<string>)

  /** The reply to a request for an id the store does not hold: no message. */
  const NOT_FOUND := Failure(None)

  datatype Reply<T> = Ok(data: T) | Err(failure: Failure)

  datatype Server = Server(users: seq<User>, blogs: seq<Blog>, fault: Option<Failure>)

  /** The users whose email equals `email`, in store order (`GET /users?email=`). */
  function UsersWithEmail(users: seq<User>, email: string): (r: seq<User>)
    ensures forall u :: u in r <==> u in users && u.email == email
    ensures forall u: User :: u.email == email ==> multiset(r)[u] == multiset(users)[u]
    ensures users != [] && users[0].email == email ==> r != [] && r[0] == users[0]
  {
    if users == [] then []
    else
      assert users == [users[0]] + users[1..];
      (if users[0].email == email then [users[0]] else []) + UsersWithEmail(users[1..], email)
  }

  /**
   * The first user the email query returns is the first user of the store
   * with that email: every user before it has another email.
   */
  lemma {:induction false} UsersWithEmailHeadIsFirstMatch(users: seq<User>, email: string)
    ensures UsersWithEmail(users, email) != [] ==>
      exists k :: 0 <= k < |users| && users[k] == UsersWithEmail(users, email)[0]
                  && forall i :: 0 <= i < k ==> users[i].email != email
  {
    if users != [] {
      if users[0].email == email {
        assert users[0] == UsersWithEmail(users, email)[0];
      } else {
        var rest := UsersWithEmail(users[1..], email);
        assert UsersWithEmail(users, email) == rest;
        UsersWithEmailHeadIsFirstMatch(users[1..], email);
        FirstMatchPastHead(users, email, rest);
      }
    }
  }

  /**
   * A first match found in the tail, past a non-matching head, is the first
   * match of the whole list, one position further on.
   */
  lemma FirstMatchPastHead(users: seq<User>, email: string, rest: seq<User>)
    requires users != [] && users[0].email != email
    requires rest != [] ==>
      exists k :: 0 <= k < |users[1..]| && users[1..][k] == rest[0]
                  && forall i :: 0 <= i < k ==> users[1..][i].email != email
    ensures rest != [] ==>
      exists k :: 0 <= k < |users| && users[k] == rest[0] && forall i :: 0 <= i < k ==> users[i].email != email
  {
    if rest != [] {
      var k :| 0 <= k < |users[1..]| && users[1..][k] == rest[0]
               && forall i :: 0 <= i < k ==> users[1..][i].email != email;
      assert users[k + 1] == rest[0];
      forall i | 0 <= i < k + 1 ensures users[i].email != email {
        if i > 0 { assert users[i] == users[1..][i - 1]; }
      }
    }
  }

  /** The users with an email come back in the order the store keeps them. */
  lemma {:induction false} UsersWithEmailIsSubsequence(users: seq<User>, email: string)
    ensures IsSubsequence(UsersWithEmail(users, email), users)
  {
    if users != [] {
      UsersWithEmailIsSubsequence(users[1..], email);
      var rest := UsersWithEmail(users[1..], email);
      if users[0].email != email {
        assert UsersWithEmail(users, email) == rest;
        SubsequenceOfTail(rest, users);
      } else {
        assert UsersWithEmail(users, email) == [users[0]] + rest;
        assert ([users[0]] + rest)[1..] == rest;
      }
    }
  }

  /** The posts whose author is `userId`, in store order (`GET /blogs?userId=`). */
  function BlogsOfUser(blogs: seq<Blog>, userId: UserId): (r: seq<Blog>)
    ensures forall b :: b in r <==> b in blogs && b.userId == userId
    ensures forall b: Blog :: b.userId == userId ==> multiset(r)[b] == multiset(blogs)[b]
  {
    if blogs == [] then []
    else
      assert blogs == [blogs[0]] + blogs[1..];
      (if blogs[0].userId == userId then [blogs[0]] else []) + BlogsOfUser(blogs[1..], userId)
  }

  /** The author's posts come back in the order the store keeps them. */
  lemma {:induction false} BlogsOfUserIsSubsequence(blogs: seq<Blog>, userId: UserId)
    ensures IsSubsequence(BlogsOfUser(blogs, userId), blogs)
  {
    if blogs != [] {
      BlogsOfUserIsSubsequence(blogs[1..], userId);
      var rest := BlogsOfUser(blogs[1..], userId);
      if blogs[0].userId != userId {
        assert BlogsOfUser(blogs, userId) == rest;
        SubsequenceOfTail(rest, blogs);
      } else {
        assert BlogsOfUser(blogs, userId) == [blogs[0]] + rest;
        assert ([blogs[0]] + rest)[1..] == rest;
      }
    }
  }

  /**
   * Position of the first user with id `id`, or -1: the store's lookup by id.
   * It is `FindIndexById` over the `users` collection; the two are separate
   * because `User` and `Blog` are distinct record types with no common `id`
   * accessor to abstract over.
   */
  function FindUserIndex(users: seq<User>, id: UserId): (index: int)
    ensures -1 <= index < |users|
    ensures index == -1 <==> forall i :: 0 <= i < |users| ==> users[i].id != id
    ensures 0 <= index ==> users[index].id == id
    ensures 0 <= index ==> forall i :: 0 <= i < index ==> users[i].id != id
  {
    if users == [] then -1
    else if users[0].id == id then 0
    else
      var k := FindUserIndex(users[1..], id);
      if k == -1 then -1 else k + 1
  }

  /** A stored user with the fields the patch carries replaced. */
  function MergeUser(u: User, p: UserPatch): User {
    u.(fullName := p.fullName.GetOr(u.fullName),
       email := p.email.GetOr(u.email),
       password := p.password.GetOr(u.password),
       bio := if p.bio.Some? then p.bio else u.bio)
  }

  /** A stored post with the fields the patch carries replaced. */
  function MergeBlog(b: Blog, p: BlogPatch): Blog {
    b.(title := p.title.GetOr(b.title),
       description := p.description.GetOr(b.description),
       content := p.content.GetOr(b.content),
       category := p.category.GetOr(b.category),
       likes := if p.likes.Some? then p.likes else b.likes,
       updatedAt := p.updatedAt.GetOr(b.updatedAt))
  }

  // ---- Requests. A request against a faulty store fails and changes nothing.

  function GetUsersByEmail(s: Server, email: string): Reply<seq<User>> {
    if s.fault.Some? then Err(s.fault.value) else Ok(UsersWithEmail(s.users, email))
  }

  function GetUser(s: Server, id: UserId): Reply<User> {
    if s.fault.Some? then Err(s.fault.value)
    else
      var k := FindUserIndex(s.users, id);
      if k == -1 then Err(NOT_FOUND) else Ok(s.users[k])
  }

  function PostUser(s: Server, u: User): (Reply<User>, Server) {
    if s.fault.Some? then (Err(s.fault.value), s)
    else (Ok(u), s.(users := s.users + [u]))
  }

  function PatchUser(s: Server, id: UserId, p: UserPatch): (Reply<User>, Server) {
    if s.fault.Some? then (Err(s.fault.value), s)
    else
      var k := FindUserIndex(s.users, id);
      if k == -1 then (Err(NOT_FOUND), s)
      else
        var u := MergeUser(s.users[k], p);
        (Ok(u), s.(users := s.users[k := u]))
  }

  function GetBlogsByUser(s: Server, userId: UserId): Reply<seq<Blog>> {
    if s.fault.Some? then Err(s.fault.value) else Ok(BlogsOfUser(s.blogs, userId))
  }

  function GetBlog(s: Server, id: BlogId): Reply<Blog> {
    if s.fault.Some? then Err(s.fault.value)
    else
      var k := FindIndexById(s.blogs, id);
      if k == -1 then Err(NOT_FOUND) else Ok(s.blogs[k])
  }

  function PostBlog(s: Server, b: Blog): (Reply<Blog>, Server) {
    if s.fault.Some? then (Err(s.fault.value), s)
    else (Ok(b), s.(blogs := s.blogs + [b]))
  }

  function PatchBlog(s: Server, id: BlogId, p: BlogPatch): (Reply<Blog>, Server) {
    if s.fault.Some? then (Err(s.fault.value), s)
    else
      var k := FindIndexById(s.blogs, id);
      if k == -1 then (Err(NOT_FOUND), s)
      else
        var b := MergeBlog(s.blogs[k], p);
        (Ok(b), s.(blogs := s.blogs[k := b]))
  }

  /** Deletes the record with that id; the reply carries no data the caller uses. */
  function DeleteBlogById(s: Server, id: BlogId): (Reply<()>, Server) {
    if s.fault.Some? then (Err(s.fault.value), s)
    else if FindIndexById(s.blogs, id) == -1 then (Err(NOT_FOUND), s)
    else (Ok(()), s.(blogs := WithoutId(s.blogs, id)))
  }
}
