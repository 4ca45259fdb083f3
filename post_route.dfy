/** The handlers of post/route.js that change a post: like, unlike, soft
    delete, and the add and remove of images and videos. Each is a short
    chain of steps with an early exit on failure: look the post up, change
    its metadata, and (for a removal) delete the object from storage, in
    that order. The authenticated actor id and the upload's outcome are
    inputs. */
module PostRoute {
  import opened Common
  import opened PostModel
  import opened ObjectStorage

  /** POST /posts/:postId/like: the like is recorded for the authenticated
      user; a post that is not found yields "Post not updated!". */
  method LikePost(store: PostStore, postId: Id, actorId: Id) returns (r: Result<Post>)
    requires store.Valid()
    modifies store`posts
    ensures store.Valid()
    ensures !Live(old(store.posts), postId) ==>
              r == Err(BadRequest("Post not updated!")) && store.posts == old(store.posts)
    ensures Live(old(store.posts), postId) && postId in store.down ==>
              r == Err(StoreFailure) && store.posts == old(store.posts)
    ensures Live(old(store.posts), postId) && postId !in store.down ==>
              && store.posts == old(store.posts)[postId := Liked(old(store.posts)[postId], actorId)]
              && r == Ok(store.posts[postId]) && actorId in r.value.likes
  {
    var updated := store.Like(postId, actorId);
    match updated
    case Err(e) => r := Err(e);
    case Ok(None) => r := Err(BadRequest("Post not updated!"));
    case Ok(Some(p)) => r := Ok(p);
  }

  /** DELETE /posts/:postId/like: the authenticated user's like is
      withdrawn; a post that is not found yields "Post not updated!". */
  method UnlikePost(store: PostStore, postId: Id, actorId: Id) returns (r: Result<Post>)
    requires store.Valid()
    modifies store`posts
    ensures store.Valid()
    ensures !Live(old(store.posts), postId) ==>
              r == Err(BadRequest("Post not updated!")) && store.posts == old(store.posts)
    ensures Live(old(store.posts), postId) && postId in store.down ==>
              r == Err(StoreFailure) && store.posts == old(store.posts)
    ensures Live(old(store.posts), postId) && postId !in store.down ==>
              && store.posts == old(store.posts)[postId := Unliked(old(store.posts)[postId], actorId)]
              && r == Ok(store.posts[postId]) && actorId !in r.value.likes
  {
    var updated := store.Unlike(postId, actorId);
    match updated
    case Err(e) => r := Err(e);
    case Ok(None) => r := Err(BadRequest("Post not updated!"));
    case Ok(Some(p)) => r := Ok(p);
  }

  /** DELETE /posts/:postId: a soft delete through `updatePost`, acting as
      the authenticated user; the record is kept with `deleted_at` set, and
      a post that is not found yields "Post not deleted!". `None` is the
      204 answer. */
  method DeletePost(store: PostStore, postId: Id, actorId: Id, now: int) returns (err: Option<Error>)
    requires store.Valid()
    modifies store`posts
    ensures store.Valid()
    ensures !Live(old(store.posts), postId) ==>
              err == Some(BadRequest("Post not deleted!")) && store.posts == old(store.posts)
    ensures Live(old(store.posts), postId) && actorId != old(store.posts)[postId].userId ==>
              err == Some(Unauthorized("you can only update your own post")) && store.posts == old(store.posts)
    ensures Live(old(store.posts), postId) && actorId == old(store.posts)[postId].userId && postId in store.down ==>
              err == Some(StoreFailure) && store.posts == old(store.posts)
    ensures Live(old(store.posts), postId) && actorId == old(store.posts)[postId].userId && postId !in store.down ==>
              && err.None?
              && store.posts == old(store.posts)[postId := SoftDeleted(old(store.posts)[postId], now)]
              && postId in store.posts && !Live(store.posts, postId)
  {
    var updated := store.UpdatePost(postId, actorId, now);
    match updated
    case Err(e) => err := Some(e);
    case Ok(None) => err := Some(BadRequest("Post not deleted!"));
    case Ok(Some(_)) => err := None;
  }

  /** POST /posts/:postId/image: the post must be found before anything is
      uploaded; the uploaded location (`None` when the upload failed) is
      then appended to `images`. */
  method AddPostImage(store: PostStore, storage: Storage, postId: Id, upload: Option<Ref>) returns (r: Result<Post>)
    requires store.Valid()
    modifies store`posts, storage`objects
    ensures store.Valid()
    ensures !Live(old(store.posts), postId) ==>
              r == Err(NotFound("Post not found")) && store.posts == old(store.posts) && storage.objects == old(storage.objects)
    ensures Live(old(store.posts), postId) && upload.None? ==>
              r == Err(UploadFailure) && store.posts == old(store.posts) && storage.objects == old(storage.objects)
    ensures Live(old(store.posts), postId) && upload.Some? ==> storage.objects == old(storage.objects) + {upload.value}
    ensures Live(old(store.posts), postId) && upload.Some? && postId in store.down ==>
              r == Err(StoreFailure) && store.posts == old(store.posts)
    ensures Live(old(store.posts), postId) && upload.Some? && postId !in store.down ==>
              && store.posts == old(store.posts)[postId := WithImage(old(store.posts)[postId], upload.value)]
              && r == Ok(store.posts[postId])
  {
    if store.Find(postId).None? {
      return Err(NotFound("Post not found"));
    }
    if upload.None? {
      return Err(UploadFailure);
    }
    storage.Put(upload.value);
    var updated := store.AddImage(postId, upload.value);
    match updated
    case Err(e) => r := Err(e);
    case Ok(None) => assert false; r := Err(StoreFailure);
    case Ok(Some(p)) => r := Ok(p);
  }

  /** POST /posts/:postId/video as written: the handler appends the
      uploaded location through `addImage`, so the video lands in `images`. */
  method AddPostVideoAsWritten(store: PostStore, storage: Storage, postId: Id, upload: Option<Ref>)
    returns (r: Result<Post>)
    requires store.Valid()
    modifies store`posts, storage`objects
    ensures store.Valid()
    ensures !Live(old(store.posts), postId) ==>
              r == Err(NotFound("Post not found")) && store.posts == old(store.posts) && storage.objects == old(storage.objects)
    ensures Live(old(store.posts), postId) && upload.None? ==>
              r == Err(UploadFailure) && store.posts == old(store.posts) && storage.objects == old(storage.objects)
    ensures Live(old(store.posts), postId) && upload.Some? ==> storage.objects == old(storage.objects) + {upload.value}
    ensures Live(old(store.posts), postId) && upload.Some? && postId in store.down ==>
              r == Err(StoreFailure) && store.posts == old(store.posts)
    ensures Live(old(store.posts), postId) && upload.Some? && postId !in store.down ==>
              && store.posts == old(store.posts)[postId := WithImage(old(store.posts)[postId], upload.value)]
              && store.posts[postId].videos == old(store.posts)[postId].videos
              && r == Ok(store.posts[postId])
  {
    r := AddPostImage(store, storage, postId, upload);
  }

  /** POST /posts/:postId/video as evidently intended: the uploaded location
      is appended to `videos`. */
  method AddPostVideo(store: PostStore, storage: Storage, postId: Id, upload: Option<Ref>) returns (r: Result<Post>)
    requires store.Valid()
    modifies store`posts, storage`objects
    ensures store.Valid()
    ensures !Live(old(store.posts), postId) ==>
              r == Err(NotFound("Post not found")) && store.posts == old(store.posts) && storage.objects == old(storage.objects)
    ensures Live(old(store.posts), postId) && upload.None? ==>
              r == Err(UploadFailure) && store.posts == old(store.posts) && storage.objects == old(storage.objects)
    ensures Live(old(store.posts), postId) && upload.Some? ==> storage.objects == old(storage.objects) + {upload.value}
    ensures Live(old(store.posts), postId) && upload.Some? && postId in store.down ==>
              r == Err(StoreFailure) && store.posts == old(store.posts)
    ensures Live(old(store.posts), postId) && upload.Some? && postId !in store.down ==>
              && store.posts == old(store.posts)[postId := WithVideo(old(store.posts)[postId], upload.value)]
              && r == Ok(store.posts[postId])
  {
    if store.Find(postId).None? {
      return Err(NotFound("Post not found"));
    }
    if upload.None? {
      return Err(UploadFailure);
    }
    storage.Put(upload.value);
    var updated := store.AddVideo(postId, upload.value);
    match updated
    case Err(e) => r := Err(e);
    case Ok(None) => assert false; r := Err(StoreFailure);
    case Ok(Some(p)) => r := Ok(p);
  }

  /** DELETE /posts/:postId/image: the reference is removed from the post
      first; the object is deleted from storage only after that removal
      succeeded, and a failed delete is reported without restoring the
      reference. `None` is the 204 answer. */
  method RemovePostImage(store: PostStore, storage: Storage, postId: Id, location: Ref) returns (err: Option<Error>)
    requires store.Valid()
    modifies store`posts, storage`objects, storage`deletes
    ensures store.Valid()
    ensures !Live(old(store.posts), postId) ==>
              && err == Some(NotFound("Post not found")) && store.posts == old(store.posts)
              && storage.objects == old(storage.objects) && storage.deletes == old(storage.deletes)
    ensures Live(old(store.posts), postId) && location !in old(store.posts)[postId].images ==>
              && err == Some(BadRequest("Post Image not deleted!")) && store.posts == old(store.posts)
              && storage.objects == old(storage.objects) && storage.deletes == old(storage.deletes)
    ensures Live(old(store.posts), postId) && location in old(store.posts)[postId].images && postId in store.down ==>
              && err == Some(StoreFailure) && store.posts == old(store.posts)
              && storage.objects == old(storage.objects) && storage.deletes == old(storage.deletes)
    ensures Live(old(store.posts), postId) && location in old(store.posts)[postId].images && postId !in store.down ==>
              && store.posts == old(store.posts)[postId := WithoutImage(old(store.posts)[postId], location).value]
              && location !in store.posts[postId].images
              && storage.deletes == old(storage.deletes) + [Some(location)]
              && storage.objects == (if storage.failing then old(storage.objects) else old(storage.objects) - {location})
              && (err.None? <==> !storage.failing)
              && (err.Some? ==> err.value == StorageFailure)
  {
    if store.Find(postId).None? {
      return Some(NotFound("Post not found"));
    }
    var removed := store.RemoveImage(postId, location);
    match removed
    case Err(e) => return Some(e);
    case Ok(None) => return Some(BadRequest("Post Image not deleted!"));
    case Ok(Some(_)) =>
    var ok := storage.Delete(Some(location));
    err := if ok then None else Some(StorageFailure);
  }

  /** DELETE /posts/:postId/video: as for images, on `videos`. */
  method RemovePostVideo(store: PostStore, storage: Storage, postId: Id, location: Ref) returns (err: Option<Error>)
    requires store.Valid()
    modifies store`posts, storage`objects, storage`deletes
    ensures store.Valid()
    ensures !Live(old(store.posts), postId) ==>
              && err == Some(NotFound("Post not found")) && store.posts == old(store.posts)
              && storage.objects == old(storage.objects) && storage.deletes == old(storage.deletes)
    ensures Live(old(store.posts), postId) && location !in old(store.posts)[postId].videos ==>
              && err == Some(BadRequest("Post video not deleted!")) && store.posts == old(store.posts)
              && storage.objects == old(storage.objects) && storage.deletes == old(storage.deletes)
    ensures Live(old(store.posts), postId) && location in old(store.posts)[postId].videos && postId in store.down ==>
              && err == Some(StoreFailure) && store.posts == old(store.posts)
              && storage.objects == old(storage.objects) && storage.deletes == old(storage.deletes)
    ensures Live(old(store.posts), postId) && location in old(store.posts)[postId].videos && postId !in store.down ==>
              && store.posts == old(store.posts)[postId := WithoutVideo(old(store.posts)[postId], location).value]
              && location !in store.posts[postId].videos
              && storage.deletes == old(storage.deletes) + [Some(location)]
              && storage.objects == (if storage.failing then old(storage.objects) else old(storage.objects) - {location})
              && (err.None? <==> !storage.failing)
              && (err.Some? ==> err.value == StorageFailure)
  {
    if store.Find(postId).None? {
      return Some(NotFound("Post not found"));
    }
    var removed := store.RemoveVideo(postId, location);
    match removed
    case Err(e) => return Some(e);
    case Ok(None) => return Some(BadRequest("Post video not deleted!"));
    case Ok(Some(_)) =>
    var ok := storage.Delete(Some(location));
    err := if ok then None else Some(StorageFailure);
  }

  /** A video uploaded through the route as written cannot be removed
      through the video route: the reference is in `images`, so the removal
      finds nothing and answers "Post video not deleted!". Through the
      corrected route it is removed and the post restored. */
  lemma UploadedVideoRemovable(p: Post, location: Ref)
    requires location !in p.videos
    ensures WithoutVideo(WithImage(p, location), location).None?
    ensures WithoutVideo(WithVideo(p, location), location) == Some(p)
  {
    ImageIsNotAVideo(p, location);
    VideoRoundTrip(p, location);
  }
}
