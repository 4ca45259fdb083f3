/** The user document and the operations of user/model.js that change it:
    following, blocking, profile updates and password changes.

    Each relationship operation is first given as a pure function on the
    whole collection (`Users`), so that idempotence, inverses and the
    two-sided follow edge can be stated as lemmas; the `Store` class then
    performs the same writes in place, one document at a time, and its
    methods are proved to produce exactly what those functions describe. */
module UserModel {
  import opened Common

  /** One stored user document (the fields of the user schema). */
  datatype User = User(
    id: Id,
    firstName: string,
    lastName: string,
    username: string,
    email: string,
    password: string,                    // the bcrypt hash, never the plain text
    profileImage: Option<Ref>,
    verified: bool,
    followers: seq<Id>,                  // who follows this user
    following: seq<Id>,                  // whom this user follows
    emailActivationKey: Option<string>,
    forgotPasswordToken: Option<string>,
    blackList: seq<Id>,
    createdAt: int,                      // timestamps in milliseconds
    updatedAt: int,
    deletedAt: Option<int>)              // soft-delete marker

  /** The user collection, keyed by id. */
  type Users = map<Id, User>

  /** The first write of a follow: `$addToSet` on the actor's `following`. */
  function AddFollowing(m: Users, id: Id, x: Id): Users {
    if id in m then m[id := m[id].(following := AddToSet(m[id].following, x))] else m
  }

  /** The second write of a follow: `$addToSet` on the target's `followers`. */
  function AddFollower(m: Users, id: Id, x: Id): Users {
    if id in m then m[id := m[id].(followers := AddToSet(m[id].followers, x))] else m
  }

  /** The first write of an unfollow: `$pull` on the actor's `following`. */
  function PullFollowing(m: Users, id: Id, x: Id): Users {
    if id in m then m[id := m[id].(following := Pull(m[id].following, x))] else m
  }

  /** The second write of an unfollow: `$pull` on the target's `followers`. */
  function PullFollower(m: Users, id: Id, x: Id): Users {
    if id in m then m[id := m[id].(followers := Pull(m[id].followers, x))] else m
  }

  /** `followUser(id, userId)`: the collection after both writes. A missing
      document is simply not updated (`findOneAndUpdate` matches nothing). */
  function Follow(m: Users, id: Id, userId: Id): (r: Users)
    ensures r.Keys == m.Keys
    ensures id in m ==> userId in r[id].following
    ensures userId in m ==> id in r[userId].followers
    ensures forall k :: k in m && k != id && k != userId ==> r[k] == m[k]
    ensures id in m && id != userId ==> r[id].(following := m[id].following) == m[id]
    ensures userId in m && id != userId ==> r[userId].(followers := m[userId].followers) == m[userId]
    ensures id in m && id == userId ==>
              r[id].(following := m[id].following, followers := m[id].followers) == m[id]
  {
    AddFollower(AddFollowing(m, id, userId), userId, id)
  }

  /** `unfollowUser(id, userId)`: the collection after both writes. */
  function Unfollow(m: Users, id: Id, userId: Id): (r: Users)
    ensures r.Keys == m.Keys
    ensures id in m ==> userId !in r[id].following
    ensures userId in m ==> id !in r[userId].followers
    ensures forall k :: k in m && k != id && k != userId ==> r[k] == m[k]
    ensures id in m && id != userId ==> r[id].(following := m[id].following) == m[id]
    ensures userId in m && id != userId ==> r[userId].(followers := m[userId].followers) == m[userId]
    ensures id in m && id == userId ==>
              r[id].(following := m[id].following, followers := m[id].followers) == m[id]
  {
    PullFollower(PullFollowing(m, id, userId), userId, id)
  }

  /** `addBlackList(id, userId)`: one-sided, only the actor's `black_list`. */
  function Block(m: Users, id: Id, userId: Id): (r: Users)
    ensures r.Keys == m.Keys
    ensures id in m ==> userId in r[id].blackList
    ensures id in m ==> r[id].blackList == AddToSet(m[id].blackList, userId)
    ensures id in m ==> r[id].(blackList := m[id].blackList) == m[id]
    ensures forall k :: k in m && k != id ==> r[k] == m[k]
  {
    if id in m then m[id := m[id].(blackList := AddToSet(m[id].blackList, userId))] else m
  }

  /** `removeBlackList(id, userId)`: one-sided, only the actor's `black_list`. */
  function Unblock(m: Users, id: Id, userId: Id): (r: Users)
    ensures r.Keys == m.Keys
    ensures id in m ==> userId !in r[id].blackList
    ensures id in m ==> r[id].blackList == Pull(m[id].blackList, userId)
    ensures id in m ==> r[id].(blackList := m[id].blackList) == m[id]
    ensures forall k :: k in m && k != id ==> r[k] == m[k]
  {
    if id in m then m[id := m[id].(blackList := Pull(m[id].blackList, userId))] else m
  }

  /** The denormalised follow edge agrees in both directions: `b` is in
      `a.following` exactly when `a` is in `b.followers`. */
  ghost predicate Mutual(m: Users) {
    forall a, b :: a in m && b in m ==> (b in m[a].following <==> a in m[b].followers)
  }

  /** Writing one user's `following` and one user's `followers` commutes,
      whatever values are written. */
  lemma FieldWritesCommute(m: Users, a: Id, p: seq<Id>, b: Id, q: seq<Id>)
    requires a in m && b in m
    ensures var l := m[a := m[a].(following := p)];
            var r := m[b := m[b].(followers := q)];
            l[b := l[b].(followers := q)] == r[a := r[a].(following := p)]
  {
    var u, w := m[a], m[b];
    if a == b {
      var v := u.(following := p, followers := q);
      assert u.(following := p).(followers := q) == v;
      assert u.(followers := q).(following := p) == v;
    } else {
      var u', w' := u.(following := p), w.(followers := q);
      assert m[a := u'][b := w'] == m[b := w'][a := u'];
    }
  }

  /** The two writes of a follow touch different fields, so they can land
      in either order. */
  lemma AddWritesCommute(m: Users, a: Id, x: Id, b: Id, y: Id)
    ensures AddFollower(AddFollowing(m, a, x), b, y) == AddFollowing(AddFollower(m, b, y), a, x)
  {
    if a in m && b in m {
      FieldWritesCommute(m, a, AddToSet(m[a].following, x), b, AddToSet(m[b].followers, y));
    }
  }

  /** The two writes of an unfollow touch different fields, so they can
      land in either order. */
  lemma PullWritesCommute(m: Users, a: Id, x: Id, b: Id, y: Id)
    ensures PullFollower(PullFollowing(m, a, x), b, y) == PullFollowing(PullFollower(m, b, y), a, x)
  {
    if a in m && b in m {
      FieldWritesCommute(m, a, Pull(m[a].following, x), b, Pull(m[b].followers, y));
    }
  }

  /** Following twice is the same as following once. */
  lemma FollowIdempotent(m: Users, id: Id, userId: Id)
    ensures Follow(Follow(m, id, userId), id, userId) == Follow(m, id, userId)
  {
    var m1 := AddFollowing(m, id, userId);
    var m2 := AddFollower(m1, userId, id);
    AddWritesCommute(m1, id, userId, userId, id);
    assert AddFollowing(m2, id, userId) == AddFollower(AddFollowing(m1, id, userId), userId, id);
    assert AddFollowing(m1, id, userId) == m1;
    assert AddFollower(m2, userId, id) == m2;
  }

  /** The first write of a follow and the second write of an unfollow
      touch different fields, so they can land in either order. */
  lemma AddFollowerPullFollowingCommute(m: Users, a: Id, x: Id, b: Id, y: Id)
    ensures PullFollowing(AddFollower(m, b, y), a, x) == AddFollower(PullFollowing(m, a, x), b, y)
  {
    if a in m && b in m {
      FieldWritesCommute(m, a, Pull(m[a].following, x), b, AddToSet(m[b].followers, y));
    }
  }

  /** Repeating either write of an unfollow changes nothing. */
  lemma PullWritesIdempotent(m: Users, a: Id, x: Id)
    ensures PullFollowing(PullFollowing(m, a, x), a, x) == PullFollowing(m, a, x)
    ensures PullFollower(PullFollower(m, a, x), a, x) == PullFollower(m, a, x)
  {
    if a in m {
      PullIdempotent(m[a].following, x);
      PullIdempotent(m[a].followers, x);
    }
  }

  /** The first write of an unfollow undoes the first write of a follow
      when the id was absent before. */
  lemma PullFollowingUndoesAdd(m: Users, a: Id, x: Id)
    requires a in m ==> x !in m[a].following
    ensures PullFollowing(AddFollowing(m, a, x), a, x) == m
  {
    if a in m {
      var u := m[a];
      PullUndoesAddToSet(u.following, x);
      assert u.(following := u.following) == u;
      assert m[a := u] == m;
    }
  }

  /** The second write of an unfollow undoes the second write of a follow
      when the id was absent before. */
  lemma PullFollowerUndoesAdd(m: Users, a: Id, x: Id)
    requires a in m ==> x !in m[a].followers
    ensures PullFollower(AddFollower(m, a, x), a, x) == m
  {
    if a in m {
      var u := m[a];
      PullUndoesAddToSet(u.followers, x);
      assert u.(followers := u.followers) == u;
      assert m[a := u] == m;
    }
  }

  /** Unfollowing twice is the same as unfollowing once. */
  lemma UnfollowIdempotent(m: Users, id: Id, userId: Id)
    ensures Unfollow(Unfollow(m, id, userId), id, userId) == Unfollow(m, id, userId)
  {
    var m1 := PullFollowing(m, id, userId);
    PullWritesCommute(m1, id, userId, userId, id);
    PullWritesIdempotent(m, id, userId);
    PullWritesIdempotent(m1, userId, id);
  }

  /** Unfollowing a user one does not follow changes nothing. */
  lemma UnfollowAbsentIsNoop(m: Users, id: Id, userId: Id)
    requires id in m ==> userId !in m[id].following
    requires userId in m ==> id !in m[userId].followers
    ensures Unfollow(m, id, userId) == m
  {
    var m1 := PullFollowing(m, id, userId);
    if id in m {
      PullAbsent(m[id].following, userId);
      assert m[id := m[id].(following := m[id].following)] == m;
    }
    assert m1 == m;
    if userId in m {
      PullAbsent(m[userId].followers, id);
      assert m[userId := m[userId].(followers := m[userId].followers)] == m;
    }
  }

  /** Follow then unfollow returns both users to their state before the
      follow, provided the edge was absent on both sides. */
  lemma FollowThenUnfollowRestores(m: Users, id: Id, userId: Id)
    requires id in m ==> userId !in m[id].following
    requires userId in m ==> id !in m[userId].followers
    ensures Unfollow(Follow(m, id, userId), id, userId) == m
  {
    var m1 := AddFollowing(m, id, userId);
    AddFollowerPullFollowingCommute(m1, id, userId, userId, id);
    PullFollowingUndoesAdd(m, id, userId);
    PullFollowerUndoesAdd(m, userId, id);
  }

  /** Unblocking after blocking a user not yet blocked restores the list. */
  lemma BlockThenUnblockRestores(m: Users, id: Id, userId: Id)
    requires id in m ==> userId !in m[id].blackList
    ensures Unblock(Block(m, id, userId), id, userId) == m
  {
    if id in m { PullUndoesAddToSet(m[id].blackList, userId); }
  }

  /** Following never puts an id twice into either edge field. */
  lemma FollowKeepsEdgesDistinct(m: Users, id: Id, userId: Id)
    requires id in m ==> Distinct(m[id].following)
    requires userId in m ==> Distinct(m[userId].followers)
    ensures id in m ==> Distinct(Follow(m, id, userId)[id].following)
    ensures userId in m ==> Distinct(Follow(m, id, userId)[userId].followers)
  {
  }

  /** The edge fields of one document after a follow. */
  lemma EdgesAfterFollow(m: Users, id: Id, userId: Id, a: Id)
    requires a in m
    ensures Follow(m, id, userId)[a].following ==
              if a == id then AddToSet(m[a].following, userId) else m[a].following
    ensures Follow(m, id, userId)[a].followers ==
              if a == userId then AddToSet(m[a].followers, id) else m[a].followers
  {
  }

  /** The edge fields of one document after an unfollow. */
  lemma EdgesAfterUnfollow(m: Users, id: Id, userId: Id, a: Id)
    requires a in m
    ensures Unfollow(m, id, userId)[a].following ==
              if a == id then Pull(m[a].following, userId) else m[a].following
    ensures Unfollow(m, id, userId)[a].followers ==
              if a == userId then Pull(m[a].followers, id) else m[a].followers
  {
  }

  /** A follow whose both writes land keeps the two edge fields in agreement. */
  lemma FollowKeepsMutual(m: Users, id: Id, userId: Id)
    requires Mutual(m)
    ensures Mutual(Follow(m, id, userId))
  {
    var r := Follow(m, id, userId);
    forall a, b | a in r && b in r
      ensures b in r[a].following <==> a in r[b].followers
    {
      EdgesAfterFollow(m, id, userId, a);
      EdgesAfterFollow(m, id, userId, b);
      assert b in m[a].following <==> a in m[b].followers;
    }
  }

  /** An unfollow whose both writes land keeps the two edge fields in agreement. */
  lemma UnfollowKeepsMutual(m: Users, id: Id, userId: Id)
    requires Mutual(m)
    ensures Mutual(Unfollow(m, id, userId))
  {
    var r := Unfollow(m, id, userId);
    forall a, b | a in r && b in r
      ensures b in r[a].following <==> a in r[b].followers
    {
      EdgesAfterUnfollow(m, id, userId, a);
      EdgesAfterUnfollow(m, id, userId, b);
      assert b in m[a].following <==> a in m[b].followers;
    }
  }

  /** The position of the first document, in storage order, with the
      given email; `|docs|` when there is none. */
  function FirstWithEmail(docs: seq<User>, email: string): (k: nat)
    ensures k <= |docs|
    ensures forall j :: 0 <= j < k ==> docs[j].email != email
    ensures k < |docs| ==> docs[k].email == email
  {
    if docs == [] then 0
    else if docs[0].email == email then 0
    else 1 + FirstWithEmail(docs[1..], email)
  }

  /** `getUserByEmail`: `findOne` answers the first document, in storage
      order, whose email is the given one, and nothing when none has it. */
  function FindByEmail(docs: seq<User>, email: string): (r: Option<User>)
    ensures r.None? <==> forall i :: 0 <= i < |docs| ==> docs[i].email != email
    ensures r.Some? ==> r.value in docs && r.value.email == email
    ensures r.Some? ==> exists k :: 0 <= k < |docs| && docs[k] == r.value && forall j :: 0 <= j < k ==> docs[j].email != email
  {
    var k := FirstWithEmail(docs, email);
    if k < |docs| then Some(docs[k]) else None
  }

  /** The fields a call to `updateUser` may set (`user.set(updateUser)`);
      `None` leaves a field as it is. */
  datatype Patch = Patch(
    firstName: Option<string>,
    lastName: Option<string>,
    email: Option<string>,
    profileImage: Option<Ref>,
    forgotPasswordToken: Option<string>)

  /** The patch that sets only `profile_image`. */
  function ProfileImagePatch(location: Ref): Patch {
    Patch(None, None, None, Some(location), None)
  }

  /** The patch that sets only `forgot_password_token`. */
  function ForgotTokenPatch(token: string): Patch {
    Patch(None, None, None, None, Some(token))
  }

  /** The document after `user.set(patch)` with `updated_at` stamped. */
  function Patched(u: User, p: Patch, now: int): (v: User)
    ensures v.updatedAt == now
    ensures v.firstName == (if p.firstName.Some? then p.firstName.value else u.firstName)
    ensures v.lastName == (if p.lastName.Some? then p.lastName.value else u.lastName)
    ensures v.email == (if p.email.Some? then p.email.value else u.email)
    ensures v.profileImage == (if p.profileImage.Some? then p.profileImage else u.profileImage)
    ensures v.forgotPasswordToken == (if p.forgotPasswordToken.Some? then p.forgotPasswordToken else u.forgotPasswordToken)
    ensures v.(firstName := u.firstName, lastName := u.lastName, email := u.email,
               profileImage := u.profileImage, forgotPasswordToken := u.forgotPasswordToken,
               updatedAt := u.updatedAt) == u
  {
    u.(firstName := if p.firstName.Some? then p.firstName.value else u.firstName,
       lastName := if p.lastName.Some? then p.lastName.value else u.lastName,
       email := if p.email.Some? then p.email.value else u.email,
       profileImage := if p.profileImage.Some? then p.profileImage else u.profileImage,
       forgotPasswordToken := if p.forgotPasswordToken.Some? then p.forgotPasswordToken else u.forgotPasswordToken,
       updatedAt := now)
  }

  /** The user collection as the database holds it: documents by id, their
      natural storage order (what an unsorted scan or `findOne` sees), and a
      failure oracle naming the documents whose `save` the database rejects. */
  class Store {
    var users: Users
    var order: seq<Id>
    var down: set<Id>

    ghost predicate Valid()
      reads this
    {
      && (forall id :: id in users ==> users[id].id == id)
      && (forall i :: 0 <= i < |order| ==> order[i] in users)
      && (forall id :: id in users ==> id in order)
      && Distinct(order)
    }

    /** The collection as the database holds it: every document under its
        own id, and a storage order listing each stored id once. */
    constructor (users: Users, order: seq<Id>, down: set<Id>)
      requires forall id :: id in users ==> users[id].id == id
      requires forall i :: 0 <= i < |order| ==> order[i] in users
      requires forall id :: id in users ==> id in order
      requires Distinct(order)
      ensures Valid() && this.users == users && this.order == order && this.down == down
    {
      this.users, this.order, this.down := users, order, down;
    }

    /** Every document, in storage order. */
    function Snapshot(): (docs: seq<User>)
      reads this
      requires Valid()
      ensures |docs| == |order|
      ensures forall i :: 0 <= i < |docs| ==> docs[i] == users[order[i]]
    {
      seq(|order|, i reads this requires 0 <= i < |order| && order[i] in users => users[order[i]])
    }

    /** `followUser`: `$addToSet` on the actor's `following`, then on the
        target's `followers`; answers the actor's updated document. */
    method FollowUser(id: Id, userId: Id) returns (r: Option<User>)
      requires Valid()
      modifies this`users
      ensures Valid()
      ensures users == Follow(old(users), id, userId)
      ensures r == if id in old(users) then Some(AddFollowing(old(users), id, userId)[id]) else None
    {
      if id in users {
        users := users[id := users[id].(following := AddToSet(users[id].following, userId))];
        r := Some(users[id]);
      } else {
        r := None;
      }
      ghost var m1 := users;
      assert m1 == AddFollowing(old(users), id, userId);
      if userId in users {
        users := users[userId := users[userId].(followers := AddToSet(users[userId].followers, id))];
      }
      assert users == AddFollower(m1, userId, id);
    }

    /** `unfollowUser`: `$pull` on the actor's `following`, then on the
        target's `followers`; answers the actor's updated document. */
    method UnfollowUser(id: Id, userId: Id) returns (r: Option<User>)
      requires Valid()
      modifies this`users
      ensures Valid()
      ensures users == Unfollow(old(users), id, userId)
      ensures r == if id in old(users) then Some(PullFollowing(old(users), id, userId)[id]) else None
    {
      if id in users {
        users := users[id := users[id].(following := Pull(users[id].following, userId))];
        r := Some(users[id]);
      } else {
        r := None;
      }
      ghost var m1 := users;
      assert m1 == PullFollowing(old(users), id, userId);
      if userId in users {
        users := users[userId := users[userId].(followers := Pull(users[userId].followers, id))];
      }
      assert users == PullFollower(m1, userId, id);
    }

    /** `addBlackList`: `$addToSet` on the actor's `black_list` only. */
    method AddBlackList(id: Id, userId: Id) returns (r: Option<User>)
      requires Valid()
      modifies this`users
      ensures Valid()
      ensures users == Block(old(users), id, userId)
      ensures r == if id in old(users) then Some(users[id]) else None
    {
      if id in users {
        users := users[id := users[id].(blackList := AddToSet(users[id].blackList, userId))];
        r := Some(users[id]);
      } else {
        r := None;
      }
    }

    /** `removeBlackList`: `$pull` on the actor's `black_list` only. */
    method RemoveBlackList(id: Id, userId: Id) returns (r: Option<User>)
      requires Valid()
      modifies this`users
      ensures Valid()
      ensures users == Unblock(old(users), id, userId)
      ensures r == if id in old(users) then Some(users[id]) else None
    {
      if id in users {
        users := users[id := users[id].(blackList := Pull(users[id].blackList, userId))];
        r := Some(users[id]);
      } else {
        r := None;
      }
    }

    /** `updateUser(id, userIdForCheck, patch)`: only the owner may update a
        user; on success the patch is applied and `updated_at` stamped. */
    method UpdateUser(id: Id, actorId: Id, patch: Patch, now: int) returns (r: Result<User>)
      requires Valid()
      modifies this`users
      ensures Valid()
      ensures r.Ok? <==> id in old(users) && actorId == id && id !in down
      ensures id !in old(users) ==> r == Err(NotFound("User not found"))
      ensures id in old(users) && actorId != id ==>
                r == Err(Unauthorized("you can only update your own user"))
      ensures id in old(users) && actorId == id && id in down ==> r == Err(StoreFailure)
      ensures r.Err? ==> users == old(users)
      ensures r.Ok? ==> users == old(users)[id := Patched(old(users)[id], patch, now)] && r.value == users[id]
    {
      if id !in users {
        return Err(NotFound("User not found"));
      }
      if actorId != id {
        return Err(Unauthorized("you can only update your own user"));
      }
      if id in down {
        return Err(StoreFailure);
      }
      users := users[id := Patched(users[id], patch, now)];
      r := Ok(users[id]);
    }

    /** `changePassword(user, password)`: store the hash of the new password
        and clear the one-shot reset token to the empty string. */
    method ChangePassword(id: Id, password: string, hash: string -> string) returns (r: Result<User>)
      requires Valid() && id in users
      modifies this`users
      ensures Valid()
      ensures r.Ok? <==> id !in down
      ensures r.Err? ==> r.error == StoreFailure && users == old(users)
      ensures r.Ok? ==> users == old(users)[id := old(users)[id].(password := hash(password), forgotPasswordToken := Some(""))]
      ensures r.Ok? ==> r.value == users[id]
    {
      if id in down {
        return Err(StoreFailure);
      }
      users := users[id := users[id].(password := hash(password), forgotPasswordToken := Some(""))];
      r := Ok(users[id]);
    }
  }
}
