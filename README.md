# Geku core: users, follows, listing and post media

Geku is a small social-network back end (Express and Mongoose). This
project models its core in Dafny:

- the user collection and the relationship operations of `user/model.js`:
  follow, unfollow, block and unblock, profile updates, password changes;
- `listUsers`, which compiles a flat query-string filter into a MongoDB
  query (text, exclusion, verified, membership and date-range conditions,
  a sort and a page) that the store then evaluates;
- the user handlers of `user/route.js` that decide or sequence state
  changes: the follow annotations of the profile view, the forgot-password
  request and reset, change-password, login and the profile-image
  replacement;
- the post handlers of `post/route.js`: like, unlike, soft delete, and the
  add and remove of images and videos, with the object-storage calls they
  make.

Modules:

- `Common` (common.dfy): ids, `Option`, `Result`, the error kinds the
  handlers answer with, and MongoDB's `$addToSet` and `$pull`.
- `UserModel` (user_model.dfy) follows a two-layer pattern. The pure
  functions `Follow`, `Unfollow`, `Block` and `Unblock` over the whole
  collection state the properties. The `Store` class then performs the
  same writes in place, and each of its methods is proved equal to those
  functions.
- `UserListing` (user_listing.dfy) has three parts:
  - `parseInt` and `JSON.parse` of id lists;
  - the query compiler `CompileQuery`;
  - the store's evaluation `RunQuery`: filter, stable sort, skip and limit.
- `ObjectStorage` (object_storage.dfy): the S3 store as a class with a
  failure oracle, plus a ghost log of the delete calls.
- `UserRoute` (user_route.dfy) and `PostRoute` (post_route.dfy) model the
  handlers as methods. The steps run in the source's order, with its early
  exits and its messages.
- `PostModel` (post_model.dfy): the post operations the handlers call.
  `post/model.js` is not part of this model, so each of these operations is
  given the contract the handlers rely on.

Database and storage failures come from oracles: a set `down` of documents
whose writes the database rejects, and a `failing` flag on the object store.
The authenticated actor's id, the upload's outcome, the clock (`now`), fresh
tokens and passwords, the password hash and bcrypt's compare are all
parameters.

The handlers are modelled as written, including the four defects listed
under "## Findings"; each of those also has a corrected twin. Two answers
follow from the contracts assumed for post/model.js (see "## Left out"):
a like or unlike of a missing or soft-deleted post answers 400 "Post not
updated!", because `like` is assumed to answer nothing for it; removing a
reference the post does not hold answers "Post Image not deleted!" (or
"Post video not deleted!"), because `removeImage` is assumed to answer
nothing exactly then.

## Model

| member | source | states |
|---|---|---|
| `Common.AddToSet` | user/model.js:222 | the element is present afterwards; an array that already holds it is left exactly as it was; otherwise nothing else is added, the old array is a prefix, and no duplicate is introduced |
| `Common.Pull` | user/model.js:238 | the element is absent afterwards; every other element keeps its multiplicity |
| `Common.PullUndoesAddToSet` | user/model.js:220-249 | `$pull` after `$addToSet` of a fresh element restores the array |
| `Common.PullIdempotent` | user/model.js:238 | a second `$pull` of the same element changes nothing |
| `Common.AddToSetPullCommute` | post/route.js:73-93 | an `$addToSet` of one element and a `$pull` of another give the same array in either order |
| `UserModel.Follow` | user/model.js:220-233 | the actor's `following` holds the target and the target's `followers` holds the actor; no other document and no other field changes |
| `UserModel.Unfollow` | user/model.js:236-249 | neither edge direction remains; no other document and no other field changes |
| `UserModel.Block` | user/model.js:252-259 | only the actor's `black_list` changes; it becomes `$addToSet` of the target on the old list, so every earlier entry stays and the target is present |
| `UserModel.Unblock` | user/model.js:262-269 | only the actor's `black_list` changes; it becomes `$pull` of the target from the old list, so every other entry stays and the target is gone |
| `UserModel.AddWritesCommute` | user/model.js:222-229 | the two writes of a follow give the same collection whichever lands first |
| `UserModel.PullWritesCommute` | user/model.js:238-245 | the two writes of an unfollow give the same collection whichever lands first |
| `UserModel.FollowIdempotent` | user/model.js:220-233 | following twice is following once |
| `UserModel.UnfollowIdempotent` | user/model.js:236-249 | unfollowing twice is unfollowing once |
| `UserModel.UnfollowAbsentIsNoop` | user/model.js:236-249 | unfollowing when neither edge direction exists changes nothing |
| `UserModel.FollowThenUnfollowRestores` | user/model.js:220-249 | follow then unfollow restores the collection when the edge was absent |
| `UserModel.BlockThenUnblockRestores` | user/model.js:252-269 | block then unblock restores the collection when the target was not blocked |
| `UserModel.FollowKeepsEdgesDistinct` | user/model.js:222-226 | a follow never duplicates an id in `following` or `followers` |
| `UserModel.FollowKeepsMutual` | user/model.js:220-233 | if `b` is in `a.following` exactly when `a` is in `b.followers`, that still holds after a follow |
| `UserModel.UnfollowKeepsMutual` | user/model.js:236-249 | the same two-sided agreement holds after an unfollow |
| `UserModel.FindByEmail` | user/model.js:80-85 | nothing is found exactly when no document has the email; otherwise the answer is the first such document in storage order |
| `UserModel.Patched` | user/model.js:213-214 | each patched field takes the patch's value, `updated_at` is stamped, and every other field is unchanged |
| `UserModel.Store.FollowUser` | user/model.js:220-233 | the collection becomes `Follow(old)`; the answer is the actor's document after the first write, or nothing when the actor is missing |
| `UserModel.Store.UnfollowUser` | user/model.js:236-249 | the collection becomes `Unfollow(old)`; the answer is the actor's document after the first write |
| `UserModel.Store.AddBlackList` | user/model.js:252-259 | the collection becomes `Block(old)`; the answer is the actor's updated document |
| `UserModel.Store.RemoveBlackList` | user/model.js:262-269 | the collection becomes `Unblock(old)`; the answer is the actor's updated document |
| `UserModel.Store.UpdateUser` | user/model.js:209-217 | fails with "you can only update your own user" unless the actor owns the document, and on a store failure; a failure changes nothing; success stores and answers the patched document |
| `UserModel.Store.ChangePassword` | user/model.js:272-282 | stores the hash of the new password and sets the reset token to ""; a store failure changes nothing |
| `UserListing.ParseIntReadsDecimal` | user/model.js:89 | `parseInt(String(n) + tail, 10)` is `n` for every integer `n` when the tail does not begin with a digit |
| `UserListing.ParseIntOfDigits` | user/model.js:89 | a digit run followed by a non-digit parses to the run's value |
| `UserListing.ParseIntOfNegativeDigits` | user/model.js:89 | a minus sign before a digit run parses to the negated value |
| `UserListing.ParseIntWithoutDigitsIsNaN` | user/model.js:89-91 | a string without digits parses to NaN |
| `UserListing.ParseIntStart` | user/model.js:89-91 | a number is read only when a digit follows the leading white space and an optional sign; an unsigned digit gives a number that is not negative, and only a minus sign gives a negative one |
| `UserListing.ParseIntSkipsSpace` | user/model.js:89-91 | any leading white-space character of JavaScript, the Unicode space separators included, is skipped |
| `UserListing.ParseIdList` | user/model.js:146-152 | every list it accepts consists of ids a JSON string holds unescaped, and is exactly what `JSON.stringify` writes for those ids |
| `UserListing.IdListRoundTrip` | user/model.js:146-152 | parsing the JSON that a client writes for a list of plain ids gives back that list |
| `UserListing.ListUsers` | user/model.js:87-176 | every listed user is stored and not soft-deleted; a `followers` or `following` value that is not a JSON id list fails with "Unexpected token in JSON" |
| `UserListing.CompileQuery` | user/model.js:87-173 | the query always excludes soft-deleted users, and compilation fails exactly when a `followers` or `following` value is not a JSON id list |
| `UserListing.Select` | user/model.js:175 | a document is kept exactly when it is stored and satisfies every condition of the query |
| `UserListing.SortOn` | user/model.js:175 | the result is a permutation of the input, ordered by the sort path in the requested direction |
| `UserListing.SortOnUnknownPathKeepsOrder` | user/model.js:94-99 | sorting on a path the schema lacks keeps the storage order |
| `UserListing.Page` | user/model.js:175 | skip then limit: the length is as MongoDB computes it, and element `i` is element `skip + i` of the input |
| `UserListing.RunQuery` | user/model.js:175 | every listed user is stored and satisfies the query |
| `UserListing.DefaultPaging` | user/model.js:88-91 | without paging keys the query skips 0 and limits to 25 |
| `UserListing.Paging` | user/model.js:88-91 | with `per_page = n` and `page_number = p`, the query skips `(p - 1) * n` when `p > 0` (otherwise 0) and limits to `n` |
| `UserListing.SortChoice` | user/model.js:93-102 | the default sort is `created_at` descending; `sort_field` without `sort_type` sorts descending; otherwise the direction is the parsed `sort_type` |
| `UserListing.ListingIsWindow` | user/model.js:175 | a successful listing is the skip/limit window of the sorted matching documents |
| `UserListing.PageIsWindow` | user/model.js:175 | with skip `s` and limit `n > 0`, the listing is the at most `n` sorted matches starting at position `s` |
| `UserListing.ListingExcludesDeleted` | user/model.js:104-106 | no listed user is soft-deleted |
| `UserListing.ListingHonoursFilters` | user/model.js:108-144 | each listed user contains every given text filter (ASCII case-insensitive), matches a "true"/"false" `verified` filter, and is not the `nin` id |
| `UserListing.FieldCondsMeaning` | user/model.js:108-144 | what each exclusion, text and verified key asks of a document |
| `UserListing.VerifiedIgnoredUnlessBoolean` | user/model.js:140-144 | a `verified` value other than "true" or "false" compiles like no `verified` key |
| `UserListing.ListingHonoursMembership` | user/model.js:146-152 | each listed user shares an id with every given `followers` or `following` list |
| `UserListing.BirthdayRangeListsNobody` | user/model.js:154-159 | any birthday bound empties the listing, because the schema has no `birthday` path |
| `UserListing.ListingHonoursRange` | user/model.js:161-173 | each listed user's `created_at` (or `updated_at`) lies strictly between the given bounds, and every given bound is a valid date |
| `ObjectStorage.Storage.Put` | user/route.js:233 | a completed upload adds its location to the store |
| `ObjectStorage.Storage.Delete` | user/route.js:244 | the call is logged; an accepted delete removes the object, and a rejected one changes nothing |
| `UserRoute.ViewUserAsWritten` | user/route.js:46-50 | as written, every view is annotated: `is_follow` tests the requester, and `is_followed` tests the viewed user's own id |
| `UserRoute.ViewUser` | user/route.js:46-50 | another user's profile is annotated; the requester's own profile is not |
| `UserRoute.ViewReflectsEdge` | user/route.js:48-49 | on a store with two-sided edges, the corrected flags report exactly whether `a` follows `b` and whether `b` follows `a` |
| `UserRoute.SelfViewIsPlain` | user/route.js:46 | the corrected view of one's own profile has no annotation |
| `UserRoute.SelfViewIsAnnotated` | user/route.js:46 | as written, one's own profile is annotated, unlike the corrected view |
| `UserRoute.IsFollowedIgnoresRequester` | user/route.js:49 | as written, `is_followed` does not depend on the requester; a concrete user `b` who follows `a` shows `is_followed` false to `a` |
| `UserRoute.ForgotPasswordRequest` | user/route.js:57-95 | an unknown email gives "User not found" and changes nothing; otherwise the first user with that email gets the fresh token through `updateUser` |
| `UserRoute.ResetAllowedAsWritten` | user/route.js:112 | the check as written passes every request the corrected check passes, and none without a pending token |
| `UserRoute.AnyTokenResetsAsWritten` | user/route.js:112 | as written, a forged non-empty token passes while a token is pending, and the corrected check refuses it |
| `UserRoute.ResetNeedsIssuedToken` | user/route.js:112 | the corrected check passes exactly for the pending, non-empty token |
| `UserRoute.IssuedTokenOpensReset` | user/route.js:71-73 | the token a request stores opens the reset |
| `UserRoute.ResetIsOneShot` | user/model.js:278 | once the password is changed, no token resets again, under either check |
| `UserRoute.ResetPassword` | user/route.js:98-143 | the handler as written: "User not found!" or "Wrong token, Please try again!" changes nothing; whenever both the URL token and the stored token are non-empty, whatever their values, the new password's hash is stored and the token cleared |
| `UserRoute.ResetPasswordCorrected` | user/route.js:98-143 | the same handler with the corrected check: only the token the request stored resets the password |
| `UserRoute.ChangePasswordRoute` | user/route.js:146-164 | when the two entries differ, answers "Password aren 't same!" and stores nothing; otherwise the actor's password changes |
| `UserRoute.Login` | user/route.js:167-215 | success only for a verified user whose password matches; otherwise "User not found", "User not verified" or "Wrong password", each in its case |
| `UserRoute.UnverifiedLoginIgnoresPassword` | user/route.js:184-190 | for an unverified user no password comparison decides the answer |
| `UserRoute.UploadProfileImage` | user/route.js:218-254 | only the owner may replace the image, checked before any upload; after the new location is stored, the old image is deleted only if the write succeeded; a failed delete is reported and the write kept |
| `PostModel.Liked` | post/route.js:73 | the user is among the likers; nothing else changes; likes stay duplicate-free |
| `PostModel.Unliked` | post/route.js:93 | the user is not among the likers; nothing else changes |
| `PostModel.WithImage` | post/route.js:147 | the old `images` are kept in order as a prefix and the location is the one new, last entry; nothing else changes |
| `PostModel.WithVideo` | post/route.js:207 | the old `videos` are kept in order as a prefix and the location is the one new, last entry; nothing else changes |
| `PostModel.WithoutImage` | post/route.js:171-178 | answers exactly when the post holds the location, which is then pulled from `images` only |
| `PostModel.WithoutVideo` | post/route.js:231-238 | answers exactly when the post holds the location, which is then pulled from `videos` only |
| `PostModel.SoftDeleted` | post/route.js:113-115 | the record is kept with `deleted_at` and `updated_at` stamped; nothing else changes |
| `PostModel.LikeIdempotent` | post/route.js:73 | liking twice is liking once |
| `PostModel.LikesCommuteAsSets` | post/route.js:73 | likes by two users give the same likers in either order |
| `PostModel.UnlikeIdempotent` | post/route.js:93 | unliking twice is unliking once |
| `PostModel.UnlikeAbsentIsNoop` | post/route.js:93 | unliking a post one does not like changes nothing |
| `PostModel.LikeThenUnlikeRestores` | post/route.js:73-93 | a like then an unlike by the same user restores the post |
| `PostModel.LikeUnlikeCommute` | post/route.js:73-93 | a like and another user's unlike commute |
| `PostModel.LikeScenario` | post/route.js:73-93 | on a post with no likes: like gives ["u1"], liking again keeps ["u1"], and unlike gives [] |
| `PostModel.ImageRoundTrip` | post/route.js:147-171 | removing a just-added image restores the post |
| `PostModel.VideoRoundTrip` | post/route.js:207-231 | removing a just-added video restores the post |
| `PostModel.ImageIsNotAVideo` | post/route.js:207-231 | a location added as an image cannot be removed as a video |
| `PostModel.PostStore.Find` | post/route.js:136-143 | a post is found exactly when it exists and is not soft-deleted |
| `PostModel.PostStore.Like` | post/route.js:73 | stores `Liked` of a live post; for a post not found, nothing |
| `PostModel.PostStore.Unlike` | post/route.js:93 | stores `Unliked` of a live post; for a post not found, nothing |
| `PostModel.PostStore.AddImage` | post/route.js:147 | stores `WithImage` of a live post; a failure changes nothing |
| `PostModel.PostStore.AddVideo` | post/route.js:207 | stores `WithVideo` of a live post; a failure changes nothing |
| `PostModel.PostStore.RemoveImage` | post/route.js:171 | stores `WithoutImage` when the live post holds the location; otherwise answers nothing and changes nothing |
| `PostModel.PostStore.RemoveVideo` | post/route.js:231 | stores `WithoutVideo` when the live post holds the location; otherwise answers nothing and changes nothing |
| `PostModel.PostStore.UpdatePost` | post/route.js:113-115 | only the owner may soft-delete a live post; a failure changes nothing |
| `PostRoute.LikePost` | post/route.js:70-87 | a post not found gives "Post not updated!"; otherwise the user is among the likers |
| `PostRoute.UnlikePost` | post/route.js:90-107 | a post not found gives "Post not updated!"; otherwise the user is not among the likers |
| `PostRoute.DeletePost` | post/route.js:110-129 | a post not found gives "Post not deleted!"; an owner's delete leaves the record stored but no longer live |
| `PostRoute.AddPostImage` | post/route.js:132-156 | "Post not found" before any upload; a failed upload changes nothing; the uploaded location is appended to `images` |
| `PostRoute.AddPostVideoAsWritten` | post/route.js:189-216 | as written: "Post not found" before any upload, the upload failure, the stored object, the store failure, and on success the updated post is answered with the video appended to `images` and `videos` unchanged |
| `PostRoute.AddPostVideo` | post/route.js:189-216 | corrected: the uploaded location is appended to `videos` |
| `PostRoute.RemovePostImage` | post/route.js:159-186 | "Post not found", then "Post Image not deleted!" for a location the post lacks; the storage delete follows only a successful removal, and a failed delete is reported without restoring the reference |
| `PostRoute.RemovePostVideo` | post/route.js:219-249 | the same as for images, on `videos`, with "Post video not deleted!" |
| `PostRoute.UploadedVideoRemovable` | post/route.js:207-231 | a video uploaded by the route as written cannot be removed by the video route; one uploaded by the corrected route can, and the post is restored |

## Left out

- Mail, JWT signing and verification, and the passport layer are not modelled. The actor's id is an input, and the JWT layer guarantees that the actor's document exists.
- bcrypt hashing and comparison are left out; they are the parameters `hash` and `matches`. `comparePassword` throwing on an error is not modelled.
- Random tokens and the generated password are parameters; their randomness is not modelled.
- The multipart upload transport is modelled only by its outcome: a location, or `None` for failure. The object key's path format and `Date.now()` are not modelled.
- `createUser`, `getUserByUsername`, `getUserById`, the user creation and verification routes, `listPosts`, `createPost` and the GET post routes are outside this core.
- post/model.js is not part of this model. `PostModel` gives each post operation the contract its callers rely on. That includes the owner-check message "you can only update your own post", which is assumed.
- `UserModel.Store.UpdateUser`: on a missing id the source dereferences `null` and crashes. The model answers "User not found" instead.
- `UserModel.Store.FollowUser`: the second write is not awaited, and its error, like the first one's, calls the callback a second time. Both writes are modelled as landing, and database errors of the four relationship operations are not modelled.
- Read failures are not modelled: a lookup (`findOne`, `findById`, `getPostById`) always answers. Only writes fail, through the `down` oracle.
- `UserListing.ContainsIgnoringCase` treats the filter text as a literal substring. Regular-expression metacharacters in it are not interpreted, and case folding covers ASCII letters only.
- `UserListing.ParseIdList` accepts only the compact JSON form `["a","b"]` with ids needing no escapes (no quote, backslash or control character). Any other text is treated as the parse error. That includes white space and escapes, which `JSON.parse` would accept.
- `UserListing.CastDate` accepts only date bounds written as decimal milliseconds. Other date strings count as a cast error.
- `UserListing.KeyOf`: sorting on an array path (`followers`, `following`, `black_list`) treats every document as missing the key. MongoDB's element-wise array ordering is not modelled.
- `PostModel.PostStore.Find`, `PostModel.PostStore.Like` and `PostModel.PostStore.Unlike`: that `getPostById`, `like` and `unlike` answer nothing for a missing or soft-deleted post is assumed, since post/model.js is not part of this model.
- `PostModel.PostStore.RemoveImage` and `PostModel.PostStore.RemoveVideo`: that `removeImage` and `removeVideo` answer nothing exactly when the post does not hold the reference is assumed, for the same reason.
- `PostModel.PostStore.UpdatePost`: the owner check and its message are assumed, as above.
- `PostModel.SoftDeleted`: that `updatePost` stamps `updated_at` along with `deleted_at` is assumed, as above.
- Number precision beyond 2^53 in `parseInt` is not modelled: integers are unbounded.
- A `nin` value is a single id. Array query-string values are not modelled. Ids are plain strings, so the ObjectId cast Mongoose applies to `_id` is not modelled: a malformed `nin` id (or `followers`/`following` id) raises no CastError in the model and is compared as a string.
- The `change_password` handler ignores the `:userId` path segment and changes the actor's password. The model does the same.
- `ObjectStorage.Storage.Delete` of an undefined key (a user without a profile image) is decided by the failure oracle like any other delete.
- The image and video removals read the location from the request body's `file_item`. Its absence is not modelled apart from an absent reference.
- Concurrency between requests is not modelled, beyond the commutation lemmas for the follow, unfollow and like writes.

## Findings

| source | as written | input that shows it | evidently intended | confidence | as-written member | corrected member |
|---|---|---|---|---|---|---|
| user/route.js:46 | `req.param.userId` (not `req.params`) is undefined, so the condition always holds | a user viewing their own profile gets `is_follow`/`is_followed` | one's own profile is not annotated | high, not executed | `UserRoute.SelfViewIsAnnotated` | `UserRoute.SelfViewIsPlain` |
| user/route.js:49 | `is_followed` tests whether the viewed user follows itself | user `b` with `following = ["a"]`, viewed by `a`, shows `is_followed` false | whether the viewed user follows the requester | high, not executed | `UserRoute.IsFollowedIgnoresRequester` | `UserRoute.ViewReflectsEdge` |
| user/route.js:112 | the URL token and the stored token are only tested for being non-empty, never compared | stored token "t1", URL token "x": the password is reset | the reset needs the issued token | high, not executed | `UserRoute.ResetPassword` | `UserRoute.ResetPasswordCorrected` |
| post/route.js:207 | the video upload calls `Post.addImage` | upload a video, then remove it through the video route: "Post video not deleted!" | the location is appended to `videos` | high, not executed | `PostRoute.AddPostVideoAsWritten` | `PostRoute.UploadedVideoRemovable` |
