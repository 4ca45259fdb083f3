/** The user handlers of user/route.js that decide or sequence state
    changes: the profile view's follow annotations, the forgot-password
    request and reset, change-password, login, and the profile-image
    replacement. The authenticated actor id is an input (the JWT layer
    guarantees that the actor's document exists); password hashing and
    comparison, random tokens and passwords, mail and the upload transport
    are parameters. */
module UserRoute {
  import opened Common
  import opened UserModel
  import opened ObjectStorage

  // ---------------------------------------------------------------------
  // GET /users/:userId — follow annotations
  // ---------------------------------------------------------------------

  datatype FollowFlags = FollowFlags(isFollow: bool, isFollowed: bool)

  /** The document a view answers, with the follow annotations when the
      handler adds them. */
  datatype UserView = UserView(user: User, flags: Option<FollowFlags>)

  /** The view as written: `req.param.userId` is undefined, so every view
      is annotated, the requester's own included, and `is_followed` looks
      for the viewed user's own id in its `following`. */
  function ViewUserAsWritten(u: User, requesterId: Id): (v: UserView)
    ensures v.user == u && v.flags.Some?
    ensures v.flags.value.isFollow <==> requesterId in u.followers
    ensures v.flags.value.isFollowed <==> u.id in u.following
  {
    UserView(u, Some(FollowFlags(requesterId in u.followers, u.id in u.following)))
  }

  /** The view as evidently intended: another user's profile carries
      whether the requester follows it and whether it follows the
      requester; the requester's own profile carries no annotation. */
  function ViewUser(u: User, requesterId: Id): (v: UserView)
    ensures v.user == u
    ensures v.flags.Some? <==> u.id != requesterId
  {
    if u.id == requesterId then UserView(u, None)
    else UserView(u, Some(FollowFlags(requesterId in u.followers, requesterId in u.following)))
  }

  /** On a store whose follow edges are two-sided, the corrected view of `b`
      by `a` reports exactly the two directed edges between them. */
  lemma ViewReflectsEdge(m: Users, a: Id, b: Id)
    requires Mutual(m) && a in m && b in m && a != b
    requires m[b].id == b
    ensures ViewUser(m[b], a).flags.Some?
    ensures ViewUser(m[b], a).flags.value.isFollow <==> b in m[a].following
    ensures ViewUser(m[b], a).flags.value.isFollowed <==> b in m[a].followers
  {
    assert b in m[a].following <==> a in m[b].followers;
    assert a in m[b].following <==> b in m[a].followers;
  }

  /** The requester's own profile comes back without annotations. */
  lemma SelfViewIsPlain(u: User)
    ensures ViewUser(u, u.id).flags.None?
  {
  }

  /** A document with the given id and edges and nothing else of note. */
  function SampleUser(id: Id, followers: seq<Id>, following: seq<Id>): (u: User)
    ensures u.id == id && u.followers == followers && u.following == following
  {
    User(id, "", "", "", "", "", None, true, followers, following, None, None, [], 0, 0, None)
  }

  /** As written, `is_followed` does not depend on who asks: `b` follows
      `a`, yet `a` sees `is_followed == false`. */
  lemma IsFollowedIgnoresRequester(u: User, r1: Id, r2: Id)
    ensures ViewUserAsWritten(u, r1).flags.value.isFollowed == ViewUserAsWritten(u, r2).flags.value.isFollowed
    ensures var b := SampleUser("b", [], ["a"]);
      !ViewUserAsWritten(b, "a").flags.value.isFollowed && ViewUser(b, "a").flags.value.isFollowed
  {
  }

  /** As written, the requester's own profile is annotated too. */
  lemma SelfViewIsAnnotated(u: User)
    ensures ViewUserAsWritten(u, u.id).flags.Some?
    ensures ViewUser(u, u.id) != ViewUserAsWritten(u, u.id)
  {
  }

  // ---------------------------------------------------------------------
  // Forgot password: request and reset
  // ---------------------------------------------------------------------

  /** A document of the snapshot is the stored document with its own id. */
  lemma SnapshotHolds(store: Store, u: User)
    requires store.Valid() && u in store.Snapshot()
    ensures u.id in store.users && store.users[u.id] == u
  {
    var docs := store.Snapshot();
    var i :| 0 <= i < |docs| && docs[i] == u;
    assert store.order[i] in store.users;
  }

  /** POST /users/forgot_password/: find the user by email and store the
      fresh `token` through `updateUser`, acting as that user. */
  method ForgotPasswordRequest(store: Store, email: string, token: string, now: int) returns (r: Result<User>)
    requires store.Valid()
    modifies store`users
    ensures store.Valid()
    ensures var found := FindByEmail(old(store.Snapshot()), email);
      && (found.None? ==> r == Err(NotFound("User not found")) && store.users == old(store.users))
      && (found.Some? && found.value.id in store.down ==>
            r == Err(StoreFailure) && store.users == old(store.users))
      && (found.Some? && found.value.id !in store.down ==>
            r.Ok? && store.users == old(store.users)[found.value.id := Patched(found.value, ForgotTokenPatch(token), now)])
  {
    var found := FindByEmail(store.Snapshot(), email);
    if found.None? {
      return Err(NotFound("User not found"));
    }
    var u := found.value;
    SnapshotHolds(store, u);
    r := store.UpdateUser(u.id, u.id, ForgotTokenPatch(token), now);
  }

  /** The reset check as written: the URL token and the stored token must
      both be non-empty; they are never compared. It lets through every
      request the corrected check lets through, and none without a pending
      token. */
  function ResetAllowedAsWritten(urlToken: string, stored: Option<string>): (allowed: bool)
    ensures allowed ==> stored.Some?
    ensures ResetAllowed(urlToken, stored) ==> allowed
  {
    urlToken != "" && stored.Some? && stored.value != ""
  }

  /** The reset check as evidently intended: the URL token is the one the
      request stored. */
  predicate ResetAllowed(urlToken: string, stored: Option<string>) {
    urlToken != "" && stored == Some(urlToken)
  }

  /** As written, any non-empty token resets the password of a user with a
      pending request; the corrected check refuses a token it did not issue. */
  lemma AnyTokenResetsAsWritten(forged: string, issued: string)
    requires forged != "" && issued != "" && forged != issued
    ensures ResetAllowedAsWritten(forged, Some(issued))
    ensures !ResetAllowed(forged, Some(issued))
  {
  }

  /** The corrected check accepts exactly the token issued, and accepts it
      only while it is pending. */
  lemma ResetNeedsIssuedToken(urlToken: string, stored: Option<string>)
    ensures ResetAllowed(urlToken, stored) <==> stored.Some? && stored.value != "" && urlToken == stored.value
  {
  }

  /** The token a forgot-password request stores opens the reset. */
  lemma IssuedTokenOpensReset(u: User, token: string, now: int)
    requires token != ""
    ensures ResetAllowed(token, Patched(u, ForgotTokenPatch(token), now).forgotPasswordToken)
  {
  }

  /** After `changePassword` the token is "", so no token resets again,
      under either check. */
  lemma ResetIsOneShot(u: User, urlToken: string, hashed: string)
    ensures !ResetAllowed(urlToken, u.(password := hashed, forgotPasswordToken := Some("")).forgotPasswordToken)
    ensures !ResetAllowedAsWritten(urlToken, u.(password := hashed, forgotPasswordToken := Some("")).forgotPasswordToken)
  {
  }

  /** GET /users/forgot_password/:user_id/:forgot_password_token, as
      written: when the URL token and the stored token are both non-empty
      (never compared), store the hash of the generated `newPassword` and
      clear the token; otherwise change nothing. */
  method ResetPassword(store: Store, userId: Id, urlToken: string, newPassword: string, hash: string -> string)
    returns (r: Result<User>)
    requires store.Valid()
    modifies store`users
    ensures store.Valid()
    ensures userId !in old(store.users) ==> r == Err(NotFound("User not found!")) && store.users == old(store.users)
    ensures userId in old(store.users) && !ResetAllowedAsWritten(urlToken, old(store.users)[userId].forgotPasswordToken) ==>
              r == Err(NotFound("Wrong token, Please try again!")) && store.users == old(store.users)
    ensures userId in old(store.users) && ResetAllowedAsWritten(urlToken, old(store.users)[userId].forgotPasswordToken) ==>
              && (r.Ok? <==> userId !in store.down)
              && (r.Err? ==> r == Err(StoreFailure) && store.users == old(store.users))
              && (r.Ok? ==> store.users == old(store.users)[userId := old(store.users)[userId].(
                                password := hash(newPassword), forgotPasswordToken := Some(""))])
  {
    if userId !in store.users {
      return Err(NotFound("User not found!"));
    }
    if !ResetAllowedAsWritten(urlToken, store.users[userId].forgotPasswordToken) {
      return Err(NotFound("Wrong token, Please try again!"));
    }
    r := store.ChangePassword(userId, newPassword, hash);
  }

  /** The same handler with the corrected check: only the token the
      forgot-password request stored resets the password. */
  method ResetPasswordCorrected(store: Store, userId: Id, urlToken: string, newPassword: string,
                                hash: string -> string) returns (r: Result<User>)
    requires store.Valid()
    modifies store`users
    ensures store.Valid()
    ensures userId !in old(store.users) ==> r == Err(NotFound("User not found!")) && store.users == old(store.users)
    ensures userId in old(store.users) && !ResetAllowed(urlToken, old(store.users)[userId].forgotPasswordToken) ==>
              r == Err(NotFound("Wrong token, Please try again!")) && store.users == old(store.users)
    ensures userId in old(store.users) && ResetAllowed(urlToken, old(store.users)[userId].forgotPasswordToken) ==>
              && (r.Ok? <==> userId !in store.down)
              && (r.Err? ==> r == Err(StoreFailure) && store.users == old(store.users))
              && (r.Ok? ==> store.users == old(store.users)[userId := old(store.users)[userId].(
                                password := hash(newPassword), forgotPasswordToken := Some(""))])
  {
    if userId !in store.users {
      return Err(NotFound("User not found!"));
    }
    if !ResetAllowed(urlToken, store.users[userId].forgotPasswordToken) {
      return Err(NotFound("Wrong token, Please try again!"));
    }
    r := store.ChangePassword(userId, newPassword, hash);
  }

  // ---------------------------------------------------------------------
  // PUT /users/:userId/change_password
  // ---------------------------------------------------------------------

  /** The two entries must agree before anything is stored; the change then
      applies to the authenticated actor, whatever the path says. */
  method ChangePasswordRoute(store: Store, actorId: Id, password: string, repeatPassword: string,
                             hash: string -> string) returns (r: Result<User>)
    requires store.Valid() && actorId in store.users
    modifies store`users
    ensures store.Valid()
    ensures password != repeatPassword ==>
              r == Err(BadRequest("Password aren 't same!")) && store.users == old(store.users)
    ensures password == repeatPassword ==>
              && (r.Ok? <==> actorId !in store.down)
              && (r.Err? ==> r == Err(StoreFailure) && store.users == old(store.users))
              && (r.Ok? ==> store.users == old(store.users)[actorId := old(store.users)[actorId].(
                                password := hash(password), forgotPasswordToken := Some(""))])
  {
    if password != repeatPassword {
      return Err(BadRequest("Password aren 't same!"));
    }
    r := store.ChangePassword(actorId, password, hash);
  }

  // ---------------------------------------------------------------------
  // POST /users/login
  // ---------------------------------------------------------------------

  /** Look the user up by email, refuse an unverified user before any
      password comparison, then compare with `matches` (bcrypt's compare). */
  function Login(docs: seq<User>, email: string, password: string, matches: (string, string) -> bool): (r: Result<User>)
    ensures r.Ok? ==> r.value in docs && r.value.email == email && r.value.verified && matches(password, r.value.password)
    ensures (forall i :: 0 <= i < |docs| ==> docs[i].email != email) ==> r == Err(NotFound("User not found"))
    ensures FindByEmail(docs, email).Some? && !FindByEmail(docs, email).value.verified ==>
              r == Err(BadRequest("User not verified"))
    ensures FindByEmail(docs, email).Some? && FindByEmail(docs, email).value.verified ==>
              (r.Ok? <==> matches(password, FindByEmail(docs, email).value.password))
    ensures r.Err? ==> r.error in {NotFound("User not found"), BadRequest("User not verified"), BadRequest("Wrong password")}
  {
    match FindByEmail(docs, email)
    case None => Err(NotFound("User not found"))
    case Some(u) =>
      if !u.verified then Err(BadRequest("User not verified"))
      else if matches(password, u.password) then Ok(u)
      else Err(BadRequest("Wrong password"))
  }

  /** For an unverified user the answer depends neither on the password
      given nor on the comparison: none is made. */
  lemma UnverifiedLoginIgnoresPassword(docs: seq<User>, email: string, p1: string, p2: string,
                                       m1: (string, string) -> bool, m2: (string, string) -> bool)
    requires FindByEmail(docs, email).Some? && !FindByEmail(docs, email).value.verified
    ensures Login(docs, email, p1, m1) == Login(docs, email, p2, m2)
  {
  }

  // ---------------------------------------------------------------------
  // POST /users/:userId/profile_image
  // ---------------------------------------------------------------------

  /** Replace the actor's profile image. The ownership check comes before
      any lookup, upload or storage call; `upload` is the location the
      upload produced (`None` when it failed). The new location is written
      to the document first; the previous image is deleted from storage
      only after that write succeeded, and a failed delete is reported
      without undoing the write. */
  method UploadProfileImage(store: Store, storage: Storage, actorId: Id, pathUserId: Id,
                            upload: Option<Ref>, now: int) returns (r: Result<User>)
    requires store.Valid() && actorId in store.users
    modifies store`users, storage`objects, storage`deletes
    ensures store.Valid()
    ensures actorId != pathUserId ==>
              && r == Err(Unauthorized("you can only update your own user"))
              && store.users == old(store.users)
              && storage.objects == old(storage.objects) && storage.deletes == old(storage.deletes)
    ensures actorId == pathUserId && upload.None? ==>
              && r == Err(UploadFailure)
              && store.users == old(store.users)
              && storage.objects == old(storage.objects) && storage.deletes == old(storage.deletes)
    ensures actorId == pathUserId && upload.Some? && actorId in store.down ==>
              && r == Err(StoreFailure)
              && store.users == old(store.users)
              && storage.objects == old(storage.objects) + {upload.value}
              && storage.deletes == old(storage.deletes)
    ensures actorId == pathUserId && upload.Some? && actorId !in store.down ==>
              && store.users == old(store.users)[actorId := Patched(old(store.users)[actorId], ProfileImagePatch(upload.value), now)]
              && storage.deletes == old(storage.deletes) + [old(store.users)[actorId].profileImage]
              && storage.objects == (var uploaded := old(storage.objects) + {upload.value};
                                     var previous := old(store.users)[actorId].profileImage;
                                     if !storage.failing && previous.Some? then uploaded - {previous.value} else uploaded)
              && (r.Ok? <==> !storage.failing)
              && (r.Ok? ==> r.value == store.users[actorId])
              && (r.Err? ==> r.error == StorageFailure)
  {
    if actorId != pathUserId {
      return Err(Unauthorized("you can only update your own user"));
    }
    var previous := store.users[actorId].profileImage;
    if upload.None? {
      return Err(UploadFailure);
    }
    storage.Put(upload.value);
    var updated := store.UpdateUser(pathUserId, actorId, ProfileImagePatch(upload.value), now);
    if updated.Err? {
      return Err(updated.error);
    }
    var ok := storage.Delete(previous);
    if !ok {
      return Err(StorageFailure);
    }
    r := updated;
  }
}
