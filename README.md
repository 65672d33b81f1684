# Blog client state layer, in Dafny

A model of the client-side state layer of a small blogging single-page
application: the **blog collection container** (`blogslice.js`) and the
**user session container** (`userslice.js`). Each container holds a small
record of state and a set of asynchronous operations that talk to a remote
REST store; each operation goes through a pending phase and then a fulfilled
or a rejected phase, and a reducer applies each phase to the container.

How the model is laid out:

- `records.dfy` (module `Records`): the user and blog-post records and the
  patches sent to the store. It also holds the two list operations the blog
  reducers perform: `findIndex` by id and `filter` by id.
- `remote.dfy` (module `Remote`): the remote store, reduced to what the
  containers rely on. It holds two collections in insertion order and answers
  equality-filtered queries, lookup by id, create, partial update (merge) and
  delete. A missing id fails with no message, as a 404 with an empty body
  does. A store-wide `fault` fails every request with the message the error
  body carries, if any.
- `async.dfy` (module `Async`): the settled outcome of an operation
  (`Fulfilled(payload)` or `Rejected(message)`). It also holds the
  `error.response?.data?.message || default` rule that every operation uses to
  choose its rejection message.
- `storage.dfy` (module `Storage`): the browser's key/value session store, as
  a class over a `map<string, string>`.
- `blog_slice.dfy` (module `BlogSlice`) and `user_slice.dfy` (module
  `UserSlice`). Each operation's request-and-decide logic is a pure function
  from the store (and the operation's arguments) to its outcome and to the
  store afterwards. Each container is a class whose fields the reducers
  assign. One method per `addCase` (identical cases share one method), and a
  `Dispatch…` method per operation that runs pending, the request, and the
  matching settled case as one atomic step.

Clocks and id generation are parameters: the generated user id, the
creation timestamp, and the `Date.now()` text in the session token.

`BlogSlice` also holds four client methods without contracts of their own
(`CreateScenario`, `FetchScenario`, `DeleteScenario`, `ToggleLikeScenario`).
They drive the containers through concrete stores, and Dafny proves each assertion:
three posts created by one user are listed back in store order; deleting
"2" from "1", "2", "3" leaves "1", "3"; a like by "u2" on a post with no
likes gives `["u2"]`, and a second toggle gives `[]`. `UserSlice.LoginScenario`
does the same for the session: a wrong password is refused with the session
store left empty, the right one stores `token_7_100`, `7` and `Alice`, and a
logout empties the store again.

Where the code departs from what one might expect, the model follows the code:

- `deleteBlog` removes every cached post with the deleted id (a `filter`),
  not exactly one.
- Likes are a list, not a set. Unliking removes every occurrence of the user.
  `ToggleKeepsDistinct` shows that a duplicate-free list stays duplicate-free.
- `fetchCurrentUser.pending` does not clear `error`.
- `fetchCurrentUser.rejected` ignores the rejection message and keeps `user`.
- An empty server message counts as absent, and so does an empty stored user
  id: JavaScript's `||` and `!` treat `""` as false.

## Model

| member | source | states |
|---|---|---|
| Remote.BlogsOfUser | src/features/blog/blogslice.js:16 | The author query holds exactly the author's stored posts, each as many times as the store holds it. |
| Remote.BlogsOfUserIsSubsequence | src/features/blog/blogslice.js:16 | The author query returns the posts in the order the store keeps them. |
| Remote.UsersWithEmail | src/features/user/userslice.js:17 | The email query holds exactly the users with that email, each as many times as the store holds it; a matching first user comes first. |
| Remote.UsersWithEmailIsSubsequence | src/features/user/userslice.js:42-43 | The email query returns the users in the order the store keeps them. |
| Remote.UsersWithEmailHeadIsFirstMatch | src/features/user/userslice.js:42-43 | The first user the email query returns (the `data[0]` login checks) is the first stored user with that email. |
| Records.FindIndexById | src/features/blog/blogslice.js:170 | The result is -1 exactly when no post has the id. Otherwise it is a position holding that id with no earlier position holding it. |
| Records.WithoutId | src/features/blog/blogslice.js:188 | The result holds exactly the posts whose id differs, each as many times as before. |
| Records.WithoutIdIsSubsequence | src/features/blog/blogslice.js:188 | The survivors of the filter keep their original relative order. |
| Records.WithoutIdKeepsUniqueIds | src/features/blog/blogslice.js:186-189 | Deleting from a list with unique ids keeps the ids unique. |
| Async.RejectionMessage | src/features/blog/blogslice.js:19 | The server's message wins when it is present and non-empty. Otherwise the operation's fixed message is used. The result is one of the two and is never empty. |
| BlogSlice.LikesOf | src/features/blog/blogslice.js:85 | The post's like list when it has one, and the empty list when the stored record has none. |
| BlogSlice.Without | src/features/blog/blogslice.js:90 | The result holds exactly the old ids other than the user's, each as many times as before, and never the user's. |
| BlogSlice.WithoutIsSubsequence | src/features/blog/blogslice.js:90 | The ids the filter keeps stay in their original relative order. |
| BlogSlice.ToggledLikes | src/features/blog/blogslice.js:85-94 | The user is in the new likes iff it was not in the old likes. With the user filtered out, the new and old lists are equal, so every other id keeps its count and relative order. A like appends exactly one copy of the user at the end. |
| BlogSlice.WithoutAbsent | src/features/blog/blogslice.js:90 | Filtering out an id that is not there leaves the list unchanged. |
| BlogSlice.WithoutAppended | src/features/blog/blogslice.js:90-93 | Filtering out the user undoes appending the user. |
| BlogSlice.LikeThenUnlike | src/features/blog/blogslice.js:85-94 | Like then unlike, on a list without the user, gives back exactly the original list. |
| BlogSlice.UnlikeThenLike | src/features/blog/blogslice.js:85-94 | Unlike then like, on a list with the user, gives back the same set of ids. |
| BlogSlice.WithoutKeepsDistinct | src/features/blog/blogslice.js:90 | Filtering a duplicate-free list keeps it duplicate-free. |
| BlogSlice.ToggleKeepsDistinct | src/features/blog/blogslice.js:85-94 | A toggle keeps a like list duplicate-free. |
| BlogSlice.FetchBlogs | src/features/blog/blogslice.js:12-22 | Fulfils iff the store answers, with the store's answer unchanged: each of the user's stored posts as often as the store holds it, no other post, in store order. Otherwise rejects with the server message or 'Failed to fetch blogs'. |
| BlogSlice.FetchAllOfOneAuthor | src/features/blog/blogslice.js:12-22 | A store that answers and holds only the user's posts gives back exactly its whole list. |
| BlogSlice.AllOfOneAuthor | src/features/blog/blogslice.js:16 | The author query over posts all by that author returns the list as it is. |
| BlogSlice.BlogsOfUserAppend | src/features/blog/blogslice.js:16 | Appending a post adds it at the end of its author's query result. |
| BlogSlice.FetchBlogById | src/features/blog/blogslice.js:25-35 | Fulfils iff the store answers and holds a post with the id, with such a stored post. A missing post rejects with 'Failed to fetch blog'. |
| BlogSlice.CreateBlog | src/features/blog/blogslice.js:38-48 | On success it fulfils with the caller's post unchanged, and the store gains it at the end. On failure the store is unchanged and the rejection is the server message or 'Failed to create blog'. |
| BlogSlice.UpdateBlog | src/features/blog/blogslice.js:51-61 | Fulfils iff the post exists, with the stored post merged with the patch. It keeps the id and its place in the store. Rejections leave the store unchanged; the default message is 'Failed to update blog'. |
| BlogSlice.DeleteBlog | src/features/blog/blogslice.js:64-74 | Fulfils iff the post exists, with the id it was given, and the store drops that post. Rejections leave the store unchanged; the default message is 'Failed to delete blog'. |
| BlogSlice.ToggleLikeBlog | src/features/blog/blogslice.js:77-106 | Reads the post and writes back the toggled likes (a missing list counts as empty). Fulfils with the post whose only change is the new likes. A missing post or a failing store rejects with 'Failed to like blog' or the server message. |
| BlogSlice.DeletedBlogCannotBeFetched | src/features/blog/blogslice.js:64-74 | After a successful delete, fetching that id rejects with 'Failed to fetch blog'. |
| BlogSlice.CreatedBlogIsListedLast | src/features/blog/blogslice.js:38-48 | After a successful create, the author's fetched list is the earlier list with the new post appended. |
| BlogSlice.ToggleTwiceRestoresLikes | src/features/blog/blogslice.js:77-106 | Two toggles by a user who had not liked the post succeed and restore its original likes. |
| BlogSlice.BlogState.constructor | src/features/blog/blogslice.js:4-9 | The initial state: no posts, not loading, no error, no current post. |
| BlogSlice.BlogState.ClearError | src/features/blog/blogslice.js:112-114 | Clears `error` and nothing else. |
| BlogSlice.BlogState.Pending | src/features/blog/blogslice.js:119-122 | Sets `loading` and clears `error`, leaving `blogs` and `currentBlog`. The same case stands at 134-137, 149-152, 164-167 and 182-185. |
| BlogSlice.BlogState.Reject | src/features/blog/blogslice.js:127-130 | Clears `loading` and stores the rejection message, leaving `blogs` and `currentBlog`. The same case stands at 142-145, 157-160, 175-178 and 190-193. |
| BlogSlice.BlogState.FetchBlogsFulfilled | src/features/blog/blogslice.js:123-126 | Replaces `blogs` wholesale with the payload and clears `loading`. |
| BlogSlice.BlogState.FetchBlogByIdFulfilled | src/features/blog/blogslice.js:138-141 | Sets only `currentBlog` (and clears `loading`); `blogs` is untouched. |
| BlogSlice.BlogState.CreateBlogFulfilled | src/features/blog/blogslice.js:153-156 | The length grows by one, the old list is an unchanged prefix, and the last element is the payload. |
| BlogSlice.BlogState.UpdateBlogFulfilled | src/features/blog/blogslice.js:168-174 | Replaces only the first post with the payload's id. The length and every other position are unchanged, and with no match the list is exactly as before. |
| BlogSlice.BlogState.DeleteBlogFulfilled | src/features/blog/blogslice.js:186-189 | `blogs` becomes the old list filtered by id. |
| BlogSlice.BlogState.ToggleLikeBlogFulfilled | src/features/blog/blogslice.js:197-202 | Replaces the first post with the payload's id, as in the update case, and leaves `loading` and `error` untouched. |
| BlogSlice.BlogState.DispatchFetchBlogs | src/features/blog/blogslice.js:117-130 | After the operation `loading` is off. On success `blogs` is the fetched list and `error` is clear. On failure `blogs` is kept and `error` is the rejection. |
| BlogSlice.BlogState.DispatchFetchBlogById | src/features/blog/blogslice.js:132-145 | `blogs` is never touched. `currentBlog` becomes the fetched post, or `error` becomes the rejection. |
| BlogSlice.BlogState.DispatchCreateBlog | src/features/blog/blogslice.js:147-160 | On success the created post is appended to `blogs`; on failure `blogs` is kept and `error` is set. |
| BlogSlice.BlogState.DispatchUpdateBlog | src/features/blog/blogslice.js:162-178 | On success the first post with the id is replaced; on failure `blogs` is kept and `error` is set. |
| BlogSlice.BlogState.DispatchDeleteBlog | src/features/blog/blogslice.js:180-193 | On success every post with the deleted id is dropped; on failure `blogs` is kept and `error` is set. |
| BlogSlice.BlogState.DispatchToggleLikeBlog | src/features/blog/blogslice.js:195-202 | No toggle outcome changes `loading` or `error`. Success replaces the post; failure changes nothing. |
| Storage.LocalStorage.GetItem | src/features/user/userslice.js:71 | Present exactly when the key is stored, with the stored string. |
| Storage.LocalStorage.SetItem | src/features/user/userslice.js:55-57 | The key maps to the value; every other key is unchanged. |
| Storage.LocalStorage.RemoveItem | src/features/user/userslice.js:104-106 | The key is gone; every other key is unchanged. |
| UserSlice.SessionToken | src/features/user/userslice.js:54 | The token is `token_`, then the user's id, then `_`, then the clock text, and nothing else. |
| UserSlice.NewUser | src/features/user/userslice.js:23-27 | `createdAt` always comes from the clock. A caller-supplied `id` wins over the generated one. The other fields come from the caller. |
| UserSlice.RegisterUser | src/features/user/userslice.js:12-35 | A taken email rejects with 'Email already registered' and leaves the store unchanged (no create). A free email stores the new record at the end and fulfils with it. A failing store rejects with its message or 'Registration failed'. |
| UserSlice.LoginUser | src/features/user/userslice.js:38-64 | No user with the email rejects with 'User not found'. The first such user with a different password rejects with 'Invalid password'. Otherwise it fulfils with that user, whose email and password match. A failing store rejects with its message or 'Login failed'. |
| UserSlice.FetchCurrentUser | src/features/user/userslice.js:67-82 | Takes what the session store holds under `userId`. An absent or empty value rejects with 'No user logged in' whatever the store holds. Otherwise it fulfils iff the store answers and holds that id, with that user. |
| UserSlice.UpdateUserProfile | src/features/user/userslice.js:85-95 | Fulfils iff the user exists, with the stored user merged with the patch, kept in its place. Rejections leave the store unchanged; the default message is 'Failed to update profile'. |
| UserSlice.UsersWithEmailAppend | src/features/user/userslice.js:17-29 | Appending a user adds it at the end of its email's query result. |
| UserSlice.RegisteredUserCanLogIn | src/features/user/userslice.js:17-59 | Right after a successful registration, logging in with the same email and password fulfils with the new record. |
| UserSlice.EmailCannotRegisterTwice | src/features/user/userslice.js:17-20 | A second registration with the same email rejects with 'Email already registered' and leaves the store unchanged. |
| UserSlice.UserState.constructor | src/features/user/userslice.js:4-9 | The initial state: no user, not authenticated, not loading, no error. |
| UserSlice.UserState.Logout | src/features/user/userslice.js:101-107 | Clears `user` and `isAuthenticated` and removes exactly the three session keys. It keeps `loading` and `error`. |
| UserSlice.UserState.ClearError | src/features/user/userslice.js:108-110 | Clears `error` and nothing else. |
| UserSlice.UserState.Pending | src/features/user/userslice.js:115-118 | Sets `loading` and clears `error`, keeping `user` and `isAuthenticated`. The same case stands at 131-134. |
| UserSlice.UserState.Authenticated | src/features/user/userslice.js:119-123 | Sets `user` to the payload, raises `isAuthenticated` and clears `loading`. The same case stands at 135-139 and 150-154. |
| UserSlice.UserState.Reject | src/features/user/userslice.js:124-127 | Clears `loading` and stores the message, keeping `user` and `isAuthenticated`. The same case stands at 140-143. |
| UserSlice.UserState.FetchCurrentUserPending | src/features/user/userslice.js:147-149 | Sets `loading` without clearing `error`. |
| UserSlice.UserState.FetchCurrentUserRejected | src/features/user/userslice.js:155-158 | Clears `loading` and drops `isAuthenticated`, keeping `user` and `error`. |
| UserSlice.UserState.UpdateUserProfileFulfilled | src/features/user/userslice.js:161-164 | Replaces `user` and nothing else. |
| UserSlice.UserState.DispatchRegisterUser | src/features/user/userslice.js:113-127 | On success the user is the created record and authenticated. On failure `user` and `isAuthenticated` are kept and `error` is the rejection. |
| UserSlice.UserState.DispatchLoginUser | src/features/user/userslice.js:129-143 | On success it writes exactly `authToken = token_<id>_<now>`, `userId` and `userName`, then authenticates. On failure the session store is untouched and `isAuthenticated` is kept. |
| UserSlice.UserState.DispatchFetchCurrentUser | src/features/user/userslice.js:145-158 | `error` is never touched. Success authenticates the fetched user; failure drops `isAuthenticated` and keeps `user`. |
| UserSlice.UserState.DispatchUpdateUserProfile | src/features/user/userslice.js:160-164 | Only `user` can change, and only on success. |
| UserSlice.LogoutTwice | src/features/user/userslice.js:101-107 | Logging out twice leaves the same state and session store as logging out once. |

Every `UserState` method requires and ensures `Valid()`: `isAuthenticated`
implies that `user` is present. This holds because every fulfilled payload is
a user record.

## Left out

- Concurrency: the interleaving of in-flight operations is not modelled.
  Last completion wins for the flags and the list. Another write can land
  between toggle-like's read and its write (a lost update). Each operation is
  one atomic step here.
- The HTTP client and the real store. `Remote` is an abstraction: it does
  not model query-string encoding, the store's own type coercions, or
  failures that hit one request and not the next. A create with a duplicate
  id is accepted.
- The browser storage throwing (quota exceeded). The source would then
  reject login with 'Login failed' after a partial write.
- The clock: `Date.now()` and the ISO timestamps are parameters, and so is
  their decimal rendering in the generated id and the session token.
- JavaScript value types: ids are strings throughout. A number/string id
  mismatch under `===`, and `null` or non-record payloads, are not modelled.
- The React components, the router and the application bootstrap. That
  bootstrap dispatches fetch-current-user when an `authToken` is stored
  (src/App.jsx:19-22). The store configuration is not part of this model
  either.
- Redux Toolkit's action plumbing. Rejections are modelled as carrying only
  the message string that `rejectWithValue` receives.
