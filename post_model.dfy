/** The post operations the post handlers call: `getPostById`, `like`,
    `unlike`, `addImage`, `removeImage`, `removeVideo` and `updatePost`.
    post/model.js is not part of this model, so each operation is given
    by the contract the handlers rely on: likes are a set kept with
    `$addToSet`/`$pull`, images and videos are ordered reference lists,
    a post that is missing or soft-deleted is not found, and a soft delete
    is open to the owner only. The bodies are the simplest that meet those
    contracts. */
module PostModel {
  import opened Common

  datatype Post = Post(
    id: Id,
    userId: Id,            // the owner
    content: string,
    images: seq<Ref>,
    videos: seq<Ref>,
    likes: seq<Id>,
    createdAt: int,
    updatedAt: int,
    deletedAt: Option<int>)

  type Posts = map<Id, Post>

  /** The post exists and is not soft-deleted. */
  predicate Live(m: Posts, id: Id) {
    id in m && m[id].deletedAt.None?
  }

  /** `like`: `$addToSet` of the user on `likes`. */
  function Liked(p: Post, userId: Id): (q: Post)
    ensures userId in q.likes
    ensures forall x :: x in q.likes <==> x in p.likes || x == userId
    ensures Distinct(p.likes) ==> Distinct(q.likes)
    ensures q.(likes := p.likes) == p
  {
    p.(likes := AddToSet(p.likes, userId))
  }

  /** `unlike`: `$pull` of the user from `likes`. */
  function Unliked(p: Post, userId: Id): (q: Post)
    ensures userId !in q.likes
    ensures forall x :: x in q.likes <==> x in p.likes && x != userId
    ensures q.(likes := p.likes) == p
  {
    p.(likes := Pull(p.likes, userId))
  }

  /** `addImage`: the reference is appended to `images`. */
  function WithImage(p: Post, location: Ref): (q: Post)
    ensures |q.images| == |p.images| + 1
    ensures q.images[..|p.images|] == p.images && q.images[|p.images|] == location
    ensures q.(images := p.images) == p
  {
    p.(images := p.images + [location])
  }

  /** The video counterpart of `addImage`: the reference is appended to
      `videos`. */
  function WithVideo(p: Post, location: Ref): (q: Post)
    ensures |q.videos| == |p.videos| + 1
    ensures q.videos[..|p.videos|] == p.videos && q.videos[|p.videos|] == location
    ensures q.(videos := p.videos) == p
  {
    p.(videos := p.videos + [location])
  }

  /** `removeImage`: the reference is pulled from `images`; nothing comes
      back when the post does not hold it. */
  function WithoutImage(p: Post, location: Ref): (q: Option<Post>)
    ensures q.Some? <==> location in p.images
    ensures q.Some? ==> location !in q.value.images
    ensures q.Some? ==> multiset(q.value.images) == multiset(p.images)[location := 0]
    ensures q.Some? ==> q.value.(images := p.images) == p
  {
    if location in p.images then Some(p.(images := Pull(p.images, location))) else None
  }

  /** `removeVideo`: the reference is pulled from `videos`; nothing comes
      back when the post does not hold it. */
  function WithoutVideo(p: Post, location: Ref): (q: Option<Post>)
    ensures q.Some? <==> location in p.videos
    ensures q.Some? ==> location !in q.value.videos
    ensures q.Some? ==> multiset(q.value.videos) == multiset(p.videos)[location := 0]
    ensures q.Some? ==> q.value.(videos := p.videos) == p
  {
    if location in p.videos then Some(p.(videos := Pull(p.videos, location))) else None
  }

  /** `updatePost` with `{deleted_at: now}`: the record is kept, stamped as
      deleted. */
  function SoftDeleted(p: Post, now: int): (q: Post)
    ensures q.deletedAt == Some(now) && q.updatedAt == now
    ensures q.(deletedAt := p.deletedAt, updatedAt := p.updatedAt) == p
  {
    p.(deletedAt := Some(now), updatedAt := now)
  }

  /** Liking twice is liking once. */
  lemma LikeIdempotent(p: Post, userId: Id)
    ensures Liked(Liked(p, userId), userId) == Liked(p, userId)
  {
  }

  /** Unliking twice is unliking once. */
  lemma UnlikeIdempotent(p: Post, userId: Id)
    ensures Unliked(Unliked(p, userId), userId) == Unliked(p, userId)
  {
    PullIdempotent(p.likes, userId);
  }

  /** Unliking a user who does not like the post changes nothing. */
  lemma UnlikeAbsentIsNoop(p: Post, userId: Id)
    requires userId !in p.likes
    ensures Unliked(p, userId) == p
  {
    PullAbsent(p.likes, userId);
  }

  /** A like followed by an unlike of the same user restores the post. */
  lemma LikeThenUnlikeRestores(p: Post, userId: Id)
    requires userId !in p.likes
    ensures Unliked(Liked(p, userId), userId) == p
  {
    PullUndoesAddToSet(p.likes, userId);
  }

  /** A like by one user and an unlike by another commute: no update is
      lost whichever lands first. */
  lemma LikeUnlikeCommute(p: Post, u: Id, v: Id)
    requires u != v
    ensures Liked(Unliked(p, v), u) == Unliked(Liked(p, u), v)
  {
    AddToSetPullCommute(p.likes, u, v);
  }

  /** Likes by two users give the same set of likers in either order. */
  lemma LikesCommuteAsSets(p: Post, u: Id, v: Id)
    ensures forall x :: x in Liked(Liked(p, u), v).likes <==> x in Liked(Liked(p, v), u).likes
  {
  }

  /** A post with no likes: like by "u1" gives ["u1"], liking again keeps
      ["u1"], and unliking gives [] again. */
  lemma LikeScenario(p: Post)
    requires p.likes == []
    ensures Liked(p, "u1").likes == ["u1"]
    ensures Liked(Liked(p, "u1"), "u1").likes == ["u1"]
    ensures Unliked(Liked(Liked(p, "u1"), "u1"), "u1").likes == []
  {
    assert Pull(["u1"], "u1") == Pull([], "u1") == [];
  }

  /** Removing an image just added restores the post. */
  lemma ImageRoundTrip(p: Post, location: Ref)
    requires location !in p.images
    ensures WithoutImage(WithImage(p, location), location) == Some(p)
  {
    PullConcat(p.images, [location], location);
    PullAbsent(p.images, location);
    assert Pull([location], location) == [];
    assert Pull(p.images + [location], location) == p.images;
    assert p.(images := p.images) == p;
  }

  /** Removing a video just added restores the post. */
  lemma VideoRoundTrip(p: Post, location: Ref)
    requires location !in p.videos
    ensures WithoutVideo(WithVideo(p, location), location) == Some(p)
  {
    PullConcat(p.videos, [location], location);
    PullAbsent(p.videos, location);
    assert Pull([location], location) == [];
    assert Pull(p.videos + [location], location) == p.videos;
    assert p.(videos := p.videos) == p;
  }

  /** A reference appended to `images` cannot be removed as a video. */
  lemma ImageIsNotAVideo(p: Post, location: Ref)
    requires location !in p.videos
    ensures WithoutVideo(WithImage(p, location), location) == None
  {
  }

  /** The post collection: documents by id, and a failure oracle naming the
      posts whose writes the database rejects. */
  class PostStore {
    var posts: Posts
    var down: set<Id>

    ghost predicate Valid()
      reads this
    {
      forall id :: id in posts ==> posts[id].id == id
    }

    constructor (posts: Posts, down: set<Id>)
      requires forall id :: id in posts ==> posts[id].id == id
      ensures Valid() && this.posts == posts && this.down == down
    {
      this.posts, this.down := posts, down;
    }

    /** `getPostById`: the post, unless it is missing or soft-deleted. */
    function Find(id: Id): (r: Option<Post>)
      reads this
      ensures r.Some? <==> Live(posts, id)
      ensures r.Some? ==> r.value == posts[id]
    {
      if Live(posts, id) then Some(posts[id]) else None
    }

    /** `like(postId, userId)`: nothing comes back for a post that is not
        found. */
    method Like(id: Id, userId: Id) returns (r: Result<Option<Post>>)
      requires Valid()
      modifies this`posts
      ensures Valid()
      ensures !Live(old(posts), id) ==> r == Ok(None) && posts == old(posts)
      ensures Live(old(posts), id) && id in down ==> r == Err(StoreFailure) && posts == old(posts)
      ensures Live(old(posts), id) && id !in down ==>
                posts == old(posts)[id := Liked(old(posts)[id], userId)] && r == Ok(Some(posts[id]))
    {
      if !Live(posts, id) {
        return Ok(None);
      }
      if id in down {
        return Err(StoreFailure);
      }
      posts := posts[id := Liked(posts[id], userId)];
      r := Ok(Some(posts[id]));
    }

    /** `unlike(postId, userId)`: nothing comes back for a post that is not
        found. */
    method Unlike(id: Id, userId: Id) returns (r: Result<Option<Post>>)
      requires Valid()
      modifies this`posts
      ensures Valid()
      ensures !Live(old(posts), id) ==> r == Ok(None) && posts == old(posts)
      ensures Live(old(posts), id) && id in down ==> r == Err(StoreFailure) && posts == old(posts)
      ensures Live(old(posts), id) && id !in down ==>
                posts == old(posts)[id := Unliked(old(posts)[id], userId)] && r == Ok(Some(posts[id]))
    {
      if !Live(posts, id) {
        return Ok(None);
      }
      if id in down {
        return Err(StoreFailure);
      }
      posts := posts[id := Unliked(posts[id], userId)];
      r := Ok(Some(posts[id]));
    }

    /** `addImage(postId, location)`. */
    method AddImage(id: Id, location: Ref) returns (r: Result<Option<Post>>)
      requires Valid()
      modifies this`posts
      ensures Valid()
      ensures !Live(old(posts), id) ==> r == Ok(None) && posts == old(posts)
      ensures Live(old(posts), id) && id in down ==> r == Err(StoreFailure) && posts == old(posts)
      ensures Live(old(posts), id) && id !in down ==>
                posts == old(posts)[id := WithImage(old(posts)[id], location)] && r == Ok(Some(posts[id]))
    {
      if !Live(posts, id) {
        return Ok(None);
      }
      if id in down {
        return Err(StoreFailure);
      }
      posts := posts[id := WithImage(posts[id], location)];
      r := Ok(Some(posts[id]));
    }

    /** The video counterpart of `addImage`, which the video upload
        evidently means to call. */
    method AddVideo(id: Id, location: Ref) returns (r: Result<Option<Post>>)
      requires Valid()
      modifies this`posts
      ensures Valid()
      ensures !Live(old(posts), id) ==> r == Ok(None) && posts == old(posts)
      ensures Live(old(posts), id) && id in down ==> r == Err(StoreFailure) && posts == old(posts)
      ensures Live(old(posts), id) && id !in down ==>
                posts == old(posts)[id := WithVideo(old(posts)[id], location)] && r == Ok(Some(posts[id]))
    {
      if !Live(posts, id) {
        return Ok(None);
      }
      if id in down {
        return Err(StoreFailure);
      }
      posts := posts[id := WithVideo(posts[id], location)];
      r := Ok(Some(posts[id]));
    }

    /** `removeImage(postId, location)`: nothing comes back, and nothing
        changes, when the post is not found or does not hold the reference. */
    method RemoveImage(id: Id, location: Ref) returns (r: Result<Option<Post>>)
      requires Valid()
      modifies this`posts
      ensures Valid()
      ensures !Live(old(posts), id) || location !in old(posts)[id].images ==> r == Ok(None) && posts == old(posts)
      ensures Live(old(posts), id) && location in old(posts)[id].images && id in down ==>
                r == Err(StoreFailure) && posts == old(posts)
      ensures Live(old(posts), id) && location in old(posts)[id].images && id !in down ==>
                posts == old(posts)[id := WithoutImage(old(posts)[id], location).value] && r == Ok(Some(posts[id]))
    {
      if !Live(posts, id) || location !in posts[id].images {
        return Ok(None);
      }
      if id in down {
        return Err(StoreFailure);
      }
      posts := posts[id := WithoutImage(posts[id], location).value];
      r := Ok(Some(posts[id]));
    }

    /** `removeVideo(postId, location)`: nothing comes back, and nothing
        changes, when the post is not found or does not hold the reference. */
    method RemoveVideo(id: Id, location: Ref) returns (r: Result<Option<Post>>)
      requires Valid()
      modifies this`posts
      ensures Valid()
      ensures !Live(old(posts), id) || location !in old(posts)[id].videos ==> r == Ok(None) && posts == old(posts)
      ensures Live(old(posts), id) && location in old(posts)[id].videos && id in down ==>
                r == Err(StoreFailure) && posts == old(posts)
      ensures Live(old(posts), id) && location in old(posts)[id].videos && id !in down ==>
                posts == old(posts)[id := WithoutVideo(old(posts)[id], location).value] && r == Ok(Some(posts[id]))
    {
      if !Live(posts, id) || location !in posts[id].videos {
        return Ok(None);
      }
      if id in down {
        return Err(StoreFailure);
      }
      posts := posts[id := WithoutVideo(posts[id], location).value];
      r := Ok(Some(posts[id]));
    }

    /** `updatePost(postId, userIdForCheck, {deleted_at: now})`: only the
        owner may update a post. */
    method UpdatePost(id: Id, actorId: Id, now: int) returns (r: Result<Option<Post>>)
      requires Valid()
      modifies this`posts
      ensures Valid()
      ensures !Live(old(posts), id) ==> r == Ok(None) && posts == old(posts)
      ensures Live(old(posts), id) && actorId != old(posts)[id].userId ==>
                r == Err(Unauthorized("you can only update your own post")) && posts == old(posts)
      ensures Live(old(posts), id) && actorId == old(posts)[id].userId && id in down ==>
                r == Err(StoreFailure) && posts == old(posts)
      ensures Live(old(posts), id) && actorId == old(posts)[id].userId && id !in down ==>
                posts == old(posts)[id := SoftDeleted(old(posts)[id], now)] && r == Ok(Some(posts[id]))
    {
      if !Live(posts, id) {
        return Ok(None);
      }
      if actorId != posts[id].userId {
        return Err(Unauthorized("you can only update your own post"));
      }
      if id in down {
        return Err(StoreFailure);
      }
      posts := posts[id := SoftDeleted(posts[id], now)];
      r := Ok(Some(posts[id]));
    }
  }
}
