/** The route handlers of server.js, over an in-memory store that holds the
    three collections (users, outfits, comments) as maps from id to
    document. Handlers that write become methods of the Store class;
    handlers that only read become functions of the collections. */
module Server {
  import opened Base
  import opened CommentModel
  import opened Likes
  import opened Messages

  /** A user document (server.js:73): the password is stored hashed. */
  datatype User = User(username: string, email: string, password: string)

  /** An outfit document (server.js:282-287): `likes` lists the users who
      like it and `comments` the ids of its comments, oldest first. */
  datatype Outfit = Outfit(
    name: string,
    description: string,
    image: string,
    user: Id,
    likes: seq<Id>,
    comments: seq<Id>,
    createdAt: nat)

  /** The fields of a user that the routes hand out: `_id`, `username` and
      `email`, never the password hash. */
  datatype Profile = Profile(id: Id, username: string, email: string)

  /** The JSON bodies the handlers send. */
  datatype Body =
    | Message(message: string)
    | MissingCommentFields(message: string, outfitId: Field, userId: Field, text: Field)
    | UserData(profile: Profile)
    | WithUser(message: string, user: Profile)
    | WithComment(message: string, id: Id, comment: Comment)
    | CommentList(comments: map<Id, Comment>)
    | WithOutfit(message: string, id: Id, outfit: Outfit)
    | OutfitList(outfits: map<Id, Outfit>)
    | LikeToggled(message: string, liked: bool, likeCount: nat)
    | LikeStatus(likeCount: nat, liked: bool)
    | DeletedCount(message: string, deletedCount: nat)

  datatype Response = Response(status: int, body: Body)

  function ProfileOf(users: map<Id, User>, id: Id): Profile
    requires id in users
  {
    Profile(id, users[id].username, users[id].email)
  }

  // ---------------------------------------------------------------------
  // Store invariants

  /** The users collection's unique index on `username`. */
  predicate UniqueUsernames(users: map<Id, User>)
  {
    forall a, b :: a in users && b in users && users[a].username == users[b].username ==> a == b
  }

  /** Emails are unique: registration refuses one that is already held. */
  predicate UniqueEmails(users: map<Id, User>)
  {
    forall a, b :: a in users && b in users && users[a].email == users[b].email ==> a == b
  }

  /** No outfit is liked twice by the same user. */
  predicate LikesDistinct(outfits: map<Id, Outfit>)
  {
    forall id :: id in outfits ==> NoDup(outfits[id].likes)
  }

  /** Every comment id an outfit lists names a stored comment on that
      outfit. */
  predicate CommentRefsResolve(outfits: map<Id, Outfit>, comments: map<Id, Comment>)
  {
    forall id, k :: id in outfits && 0 <= k < |outfits[id].comments| ==>
      outfits[id].comments[k] in comments && comments[outfits[id].comments[k]].outfitId == id
  }

  predicate EmailTaken(users: map<Id, User>, email: string)
  {
    exists id :: id in users && users[id].email == email
  }

  predicate UsernameTaken(users: map<Id, User>, username: string)
  {
    exists id :: id in users && users[id].username == username
  }

  /** `User.findOne({ username, _id: { $ne: userId } })` finds a user. */
  predicate HeldByOther(users: map<Id, User>, userId: Id, username: string)
  {
    exists id :: id in users && id != userId && users[id].username == username
  }

  // ---------------------------------------------------------------------
  // Lookups and filters

  /** `User.findOne({ username })`. */
  function FindByUsername(users: map<Id, User>, username: string): (r: Option<Id>)
    requires UniqueUsernames(users)
    ensures r.Some? ==> r.value in users && users[r.value].username == username
    ensures r.None? <==> !UsernameTaken(users, username)
  {
    if UsernameTaken(users, username) then
      var id :| id in users && users[id].username == username;
      Some(id)
    else
      None
  }

  /** `Outfit.find({ user })`: the outfits a user owns. */
  function OwnedBy(outfits: map<Id, Outfit>, owner: Id): (r: map<Id, Outfit>)
    ensures forall id :: id in r <==> id in outfits && outfits[id].user == owner
    ensures forall id :: id in r ==> r[id] == outfits[id]
  {
    map id | id in outfits && outfits[id].user == owner :: outfits[id]
  }

  /** `Outfit.deleteMany({ user })` leaves the outfits of other owners. */
  function WithoutOwner(outfits: map<Id, Outfit>, owner: Id): (r: map<Id, Outfit>)
    ensures forall id :: id in r <==> id in outfits && outfits[id].user != owner
    ensures forall id :: id in r ==> r[id] == outfits[id]
  {
    map id | id in outfits && outfits[id].user != owner :: outfits[id]
  }

  /** `Comment.find({ outfitId })`: the comments on one outfit. */
  function CommentsOn(comments: map<Id, Comment>, outfitId: Id): (r: map<Id, Comment>)
    ensures forall id :: id in r <==> id in comments && comments[id].outfitId == outfitId
    ensures forall id :: id in r ==> r[id] == comments[id]
  {
    map id | id in comments && comments[id].outfitId == outfitId :: comments[id]
  }

  /** The outfits that `deleteMany({ _id: { $in: outfitIds } })` matches. */
  function Matched(outfits: map<Id, Outfit>, outfitIds: seq<Id>): (r: set<Id>)
    ensures r <= outfits.Keys
    ensures forall id :: id in r <==> id in outfits && id in outfitIds
  {
    set id | id in outfits && id in outfitIds
  }

  /** Removing keys that are present shrinks a map by their number. */
  lemma {:induction false} RemoveKeysCount(outfits: map<Id, Outfit>, doomed: set<Id>)
    requires doomed <= outfits.Keys
    ensures |outfits - doomed| == |outfits| - |doomed|
    decreases |doomed|
  {
    if doomed != {} {
      var id :| id in doomed;
      var rest := doomed - {id};
      RemoveKeysCount(outfits, rest);
      var smaller := outfits - rest;
      assert outfits - doomed == smaller - {id};
      assert (smaller - {id}).Keys == smaller.Keys - {id};
      assert |(smaller - {id}).Keys| == |smaller.Keys| - 1;
    }
  }

  // ---------------------------------------------------------------------
  // Read-only handlers

  /** POST /login. */
  function Login(users: map<Id, User>, hash: string -> string, username: string, password: string): (r: Response)
    requires UniqueUsernames(users)
    ensures r.status == OK <==>
      exists id :: id in users && users[id].username == username && users[id].password == hash(password)
    ensures r.status == OK ==>
      && r.body.WithUser? && r.body.message == "Login successful"
      && r.body.user.id in users && r.body.user == ProfileOf(users, r.body.user.id)
      && r.body.user.username == username
    ensures r.status != OK ==> r == Response(UNAUTHORIZED, Message("Invalid credentials"))
  {
    match FindByUsername(users, username)
    case None => Response(UNAUTHORIZED, Message("Invalid credentials"))
    case Some(id) =>
      if hash(password) == users[id].password then
        Response(OK, WithUser("Login successful", ProfileOf(users, id)))
      else
        Response(UNAUTHORIZED, Message("Invalid credentials"))
  }

  /** GET /user/:username. */
  function GetUser(users: map<Id, User>, username: string): (r: Response)
    requires UniqueUsernames(users)
    ensures r.status == OK <==> UsernameTaken(users, username)
    ensures r.status == OK ==>
      && r.body.UserData? && r.body.profile.id in users
      && r.body.profile == ProfileOf(users, r.body.profile.id)
      && r.body.profile.username == username
    ensures r.status != OK ==> r == Response(NOT_FOUND, Message("User not found"))
  {
    match FindByUsername(users, username)
    case None => Response(NOT_FOUND, Message("User not found"))
    case Some(id) => Response(OK, UserData(ProfileOf(users, id)))
  }

  /** GET /comments/:outfitId. */
  function ListComments(comments: map<Id, Comment>, outfitId: string): (r: Response)
    ensures !Nameable(outfitId) <==> r == Response(BAD_REQUEST, Message("Invalid outfit ID"))
    ensures Nameable(outfitId) ==> r.status == OK && r.body.CommentList?
    ensures r.status == OK ==>
      forall id :: id in r.body.comments <==> id in comments && comments[id].outfitId == outfitId
    ensures r.status == OK ==>
      forall id :: id in r.body.comments ==> r.body.comments[id] == comments[id]
  {
    if !Nameable(outfitId) then Response(BAD_REQUEST, Message("Invalid outfit ID"))
    else Response(OK, CommentList(CommentsOn(comments, outfitId)))
  }

  /** GET /outfits/user/:userId. */
  function ListOutfitsByUser(outfits: map<Id, Outfit>, userId: Id): (r: Response)
    ensures r.status == OK && r.body.OutfitList?
    ensures forall id :: id in r.body.outfits <==> id in outfits && outfits[id].user == userId
    ensures forall id :: id in r.body.outfits ==> r.body.outfits[id] == outfits[id]
  {
    Response(OK, OutfitList(OwnedBy(outfits, userId)))
  }

  /** GET /outfits: every stored outfit. */
  function ListOutfits(outfits: map<Id, Outfit>): (r: Response)
    ensures r.status == OK && r.body.OutfitList?
    ensures r.body.outfits.Keys == outfits.Keys
    ensures forall id :: id in r.body.outfits ==> r.body.outfits[id] == outfits[id]
  {
    Response(OK, OutfitList(outfits))
  }

  /** The owners that hold at least one outfit. */
  function Owners(outfits: map<Id, Outfit>): set<Id>
  {
    set id | id in outfits :: outfits[id].user
  }

  /** The outfits whose owner is one of `owners`. */
  function OwnedByAny(outfits: map<Id, Outfit>, owners: set<Id>): set<Id>
  {
    set id | id in outfits && outfits[id].user in owners
  }

  /** The sizes of the per-owner listings of `owners`, added up. */
  ghost function ListedPerOwner(outfits: map<Id, Outfit>, owners: set<Id>): nat
    decreases |owners|
  {
    if owners == {} then 0
    else
      var o :| o in owners;
      |ListOutfitsByUser(outfits, o).body.outfits| + ListedPerOwner(outfits, owners - {o})
  }

  lemma {:induction false} ListedPerOwnerCounts(outfits: map<Id, Outfit>, owners: set<Id>)
    ensures |OwnedByAny(outfits, owners)| == ListedPerOwner(outfits, owners)
    decreases |owners|
  {
    if owners != {} {
      var o :| o in owners && |ListOutfitsByUser(outfits, o).body.outfits| + ListedPerOwner(outfits, owners - {o})
        == ListedPerOwner(outfits, owners);
      ListedPerOwnerCounts(outfits, owners - {o});
      var mine := ListOutfitsByUser(outfits, o).body.outfits;
      assert OwnedByAny(outfits, owners) == OwnedByAny(outfits, owners - {o}) + mine.Keys;
      assert OwnedByAny(outfits, owners - {o}) * mine.Keys == {};
    }
  }

  /** The full listing is the disjoint union of the per-owner listings:
      two owners never share an outfit, every outfit is in its owner's
      listing, and the per-owner listings add up to the full one. */
  lemma ListingsPartition(outfits: map<Id, Outfit>)
    ensures forall a, b :: a != b ==>
      ListOutfitsByUser(outfits, a).body.outfits.Keys * ListOutfitsByUser(outfits, b).body.outfits.Keys == {}
    ensures forall id :: id in ListOutfits(outfits).body.outfits ==>
      id in ListOutfitsByUser(outfits, outfits[id].user).body.outfits
    ensures |ListOutfits(outfits).body.outfits| == ListedPerOwner(outfits, Owners(outfits))
  {
    ListedPerOwnerCounts(outfits, Owners(outfits));
    assert OwnedByAny(outfits, Owners(outfits)) == outfits.Keys;
  }

  /** GET /outfits/:outfitId/likes. */
  function GetLikes(outfits: map<Id, Outfit>, outfitId: Id, userId: Field): (r: Response)
    ensures outfitId !in outfits ==> r == Response(NOT_FOUND, Message("Outfit not found"))
    ensures outfitId in outfits ==> r.status == OK && r.body.LikeStatus?
    ensures r.status == OK ==> r.body.likeCount == |outfits[outfitId].likes|
    ensures r.status == OK ==> (r.body.liked <==> Given(userId) && userId.value in outfits[outfitId].likes)
  {
    if outfitId !in outfits then Response(NOT_FOUND, Message("Outfit not found"))
    else
      var likes := outfits[outfitId].likes;
      Response(OK, LikeStatus(|likes|, if Given(userId) then userId.value in likes else false))
  }

  /** After a toggle, the likes query reports what the toggle reported: the
      user likes the outfit exactly when they did not before, and the count
      moved by one. */
  lemma LikesAfterToggle(outfits: map<Id, Outfit>, outfitId: Id, u: Id)
    requires outfitId in outfits && NoDup(outfits[outfitId].likes) && u != ""
    ensures
      var before := outfits[outfitId].likes;
      var after := outfits[outfitId := outfits[outfitId].(likes := Toggled(before, u))];
      GetLikes(after, outfitId, Some(u))
        == Response(OK, LikeStatus(if u in before then |before| - 1 else |before| + 1, u !in before))
  {
    ToggledMembership(outfits[outfitId].likes, u);
  }

  /** A freshly registered user can log in with the password they chose. */
  lemma LoginAfterRegister(users: map<Id, User>, hash: string -> string, id: Id,
                           username: string, email: string, password: string)
    requires UniqueUsernames(users) && !UsernameTaken(users, username) && id !in users
    ensures UniqueUsernames(users[id := User(username, email, hash(password))])
    ensures Login(users[id := User(username, email, hash(password))], hash, username, password)
      == Response(OK, WithUser("Login successful", Profile(id, username, email)))
  {
    var users' := users[id := User(username, email, hash(password))];
    assert users'[id].username == username;
    forall a, b | a in users' && b in users' && users'[a].username == users'[b].username
      ensures a == b
    {
      if a != id && b != id {
        assert users'[a] == users[a] && users'[b] == users[b];
      }
    }
  }

  /** Some outfit lists `commentId` among its comments. */
  predicate Referenced(outfits: map<Id, Outfit>, commentId: Id)
  {
    exists o, k :: o in outfits && 0 <= k < |outfits[o].comments| && outfits[o].comments[k] == commentId
  }

  /** Removing a comment that an outfit still lists leaves that outfit with
      a dangling reference, whatever the rest of the store holds. */
  lemma DeleteCommentDangles(outfits: map<Id, Outfit>, comments: map<Id, Comment>, o: Id, k: nat)
    requires o in outfits && k < |outfits[o].comments|
    ensures !CommentRefsResolve(outfits, comments - {outfits[o].comments[k]})
  {
  }

  /** An instance of `DeleteCommentDangles` on a store whose references all
      resolved before the deletion. */
  lemma DeleteCommentMayDangle()
    ensures
      var outfits := map["o" := Outfit("Street", "Casual fit", "url", "u1", [], ["c"], 0)];
      var comments := map["c" := Comment("o", "u2", "Nice", 0, 0)];
      && CommentRefsResolve(outfits, comments)
      && !CommentRefsResolve(outfits, comments - {"c"})
  {
    var outfits := map["o" := Outfit("Street", "Casual fit", "url", "u1", [], ["c"], 0)];
    var comments := map["c" := Comment("o", "u2", "Nice", 0, 0)];
    assert outfits["o"].comments[0] == "c";
    assert "c" !in comments - {"c"};
  }

  // ---------------------------------------------------------------------
  // The store and the write handlers

  class Store {
    var users: map<Id, User>
    var outfits: map<Id, Outfit>
    var comments: map<Id, Comment>
    /** bcrypt's one-way hash; its salt and cost are not modelled. */
    const hash: string -> string

    ghost predicate Valid()
      reads this
    {
      UniqueUsernames(users) && UniqueEmails(users) && LikesDistinct(outfits)
    }

    constructor (hash: string -> string)
      ensures Valid() && this.hash == hash
      ensures users == map[] && outfits == map[] && comments == map[]
    {
      this.hash := hash;
      users, outfits, comments := map[], map[], map[];
    }

    /** The ObjectId that MongoDB assigns to a new document. */
    method NewId() returns (id: Id)
      ensures id !in users && id !in outfits && id !in comments && Nameable(id)
    {
      UnusedIdExists(users.Keys + outfits.Keys + comments.Keys);
      id :| id !in users.Keys + outfits.Keys + comments.Keys && Nameable(id);
    }

    /** POST /register (server.js:56-81). A username that is already held
        violates the unique index, so `save()` throws and the handler
        answers 500. */
    method Register(username: Field, email: Field, password: Field) returns (r: Response)
      requires Valid()
      modifies this
      ensures Valid()
      ensures outfits == old(outfits) && comments == old(comments)
      ensures !(Given(username) && Given(email) && Given(password)) ==>
        r == Response(BAD_REQUEST, Message("All fields are required")) && users == old(users)
      ensures Given(username) && Given(email) && Given(password) && EmailTaken(old(users), email.value) ==>
        r == Response(BAD_REQUEST, Message("Email already registered")) && users == old(users)
      ensures Given(username) && Given(email) && Given(password) && !EmailTaken(old(users), email.value)
              && UsernameTaken(old(users), username.value) ==>
        r == Response(SERVER_ERROR, Message("Error registering user")) && users == old(users)
      ensures r.status == CREATED <==>
        Given(username) && Given(email) && Given(password)
        && !EmailTaken(old(users), email.value) && !UsernameTaken(old(users), username.value)
      ensures r.status == CREATED ==>
        && r.body == Message("User registered successfully!")
        && |users| == |old(users)| + 1
        && (exists id :: id !in old(users) && Nameable(id)
              && users == old(users)[id := User(username.value, email.value, hash(password.value))])
      ensures r.status == CREATED ==> Login(users, hash, username.value, password.value).status == OK
    {
      if !(Given(username) && Given(email) && Given(password)) {
        return Response(BAD_REQUEST, Message("All fields are required"));
      }
      if exists id :: id in users && users[id].email == email.value {
        return Response(BAD_REQUEST, Message("Email already registered"));
      }
      if exists id :: id in users && users[id].username == username.value {
        return Response(SERVER_ERROR, Message("Error registering user"));
      }
      var hashed := hash(password.value);
      var id := NewId();
      LoginAfterRegister(users, hash, id, username.value, email.value, password.value);
      users := users[id := User(username.value, email.value, hashed)];
      r := Response(CREATED, Message("User registered successfully!"));
    }

    /** POST /comments (server.js:111-145): the comment is saved, then its
        id is pushed onto its outfit's comment list, if that outfit
        exists. */
    method CreateComment(outfitId: Field, userId: Field, text: Field, now: nat) returns (r: Response)
      requires Valid()
      modifies this
      ensures Valid() && users == old(users)
      ensures Create(outfitId, userId, text, now).None? ==>
        && r == Response(BAD_REQUEST, MissingCommentFields("Missing required fields", outfitId, userId, text))
        && comments == old(comments) && outfits == old(outfits)
      ensures Create(outfitId, userId, text, now).Some? ==>
        && r.status == CREATED && r.body.WithComment?
        && r.body.message == "Comment added successfully"
        && r.body.id !in old(comments) && r.body.id !in old(outfits) && Nameable(r.body.id)
        && r.body.comment == Create(outfitId, userId, text, now).value
        && comments == old(comments)[r.body.id := r.body.comment]
        && outfits == if outfitId.value in old(outfits) then
                        old(outfits)[outfitId.value := old(outfits)[outfitId.value].(
                          comments := old(outfits)[outfitId.value].comments + [r.body.id])]
                      else old(outfits)
      ensures r.status == CREATED && Nameable(outfitId.value) ==>
        r.body.id in ListComments(comments, outfitId.value).body.comments
      ensures old(CommentRefsResolve(outfits, comments)) ==> CommentRefsResolve(outfits, comments)
    {
      var created := Create(outfitId, userId, text, now);
      if created.None? {
        return Response(BAD_REQUEST, MissingCommentFields("Missing required fields", outfitId, userId, text));
      }
      var comment := created.value;
      var id := NewId();
      comments := comments[id := comment];
      if outfitId.value in outfits {
        var outfit := outfits[outfitId.value];
        outfits := outfits[outfitId.value := outfit.(comments := outfit.comments + [id])];
      }
      r := Response(CREATED, WithComment("Comment added successfully", id, comment));
    }

    /** PUT /comments/:commentId (server.js:164-180). */
    method UpdateComment(commentId: Id, text: string, now: nat) returns (r: Response)
      requires Valid()
      modifies this
      ensures Valid() && users == old(users) && outfits == old(outfits)
      ensures commentId !in old(comments) ==>
        r == Response(NOT_FOUND, Message("Comment not found")) && comments == old(comments)
      ensures commentId in old(comments) ==>
        && comments == old(comments)[commentId := Touch(old(comments)[commentId], text, now)]
        && r == Response(OK, WithComment("Comment updated successfully", commentId, comments[commentId]))
      ensures old(CommentRefsResolve(outfits, comments)) ==> CommentRefsResolve(outfits, comments)
    {
      if commentId !in comments {
        return Response(NOT_FOUND, Message("Comment not found"));
      }
      var updated := Touch(comments[commentId], text, now);
      comments := comments[commentId := updated];
      r := Response(OK, WithComment("Comment updated successfully", commentId, updated));
    }

    /** DELETE /comments/:commentId (server.js:183-193). */
    method DeleteComment(commentId: Id) returns (r: Response)
      requires Valid()
      modifies this
      ensures Valid() && users == old(users) && outfits == old(outfits)
      ensures commentId !in old(comments) ==>
        r == Response(NOT_FOUND, Message("Comment not found")) && comments == old(comments)
      ensures commentId in old(comments) ==>
        r == Response(OK, Message("Comment deleted successfully")) && comments == old(comments) - {commentId}
      ensures r.status == OK && Referenced(outfits, commentId) ==> !CommentRefsResolve(outfits, comments)
    {
      if commentId !in comments {
        return Response(NOT_FOUND, Message("Comment not found"));
      }
      if Referenced(outfits, commentId) {
        var o, k :| o in outfits && 0 <= k < |outfits[o].comments| && outfits[o].comments[k] == commentId;
        DeleteCommentDangles(outfits, comments, o, k);
      }
      comments := comments - {commentId};
      r := Response(OK, Message("Comment deleted successfully"));
    }

    /** PUT /user/:userId (server.js:195-225): the uniqueness check comes
        before the existence check. */
    method RenameUser(userId: Id, username: string) returns (r: Response)
      requires Valid()
      modifies this
      ensures Valid() && outfits == old(outfits) && comments == old(comments)
      ensures HeldByOther(old(users), userId, username) ==>
        r == Response(BAD_REQUEST, Message("Username already taken")) && users == old(users)
      ensures !HeldByOther(old(users), userId, username) && userId !in old(users) ==>
        r == Response(NOT_FOUND, Message("User not found")) && users == old(users)
      ensures !HeldByOther(old(users), userId, username) && userId in old(users) ==>
        && users == old(users)[userId := old(users)[userId].(username := username)]
        && r == Response(OK, WithUser("Username updated successfully", ProfileOf(users, userId)))
      ensures r.status == OK ==> GetUser(users, username) == Response(OK, UserData(ProfileOf(users, userId)))
    {
      if exists id :: id in users && id != userId && users[id].username == username {
        return Response(BAD_REQUEST, Message("Username already taken"));
      }
      if userId !in users {
        return Response(NOT_FOUND, Message("User not found"));
      }
      users := users[userId := users[userId].(username := username)];
      r := Response(OK, WithUser("Username updated successfully", ProfileOf(users, userId)));
    }

    /** DELETE /user/:id (server.js:227-242): the user's outfits are deleted
        first, whether or not the user exists. */
    method DeleteUser(userId: Id) returns (r: Response)
      requires Valid()
      modifies this
      ensures Valid() && comments == old(comments)
      ensures outfits == WithoutOwner(old(outfits), userId)
      ensures userId !in old(users) ==>
        r == Response(NOT_FOUND, Message("User not found")) && users == old(users)
      ensures userId in old(users) ==>
        r == Response(OK, Message("User deleted successfully")) && users == old(users) - {userId}
      ensures ListOutfitsByUser(outfits, userId).body.outfits == map[]
      ensures old(CommentRefsResolve(outfits, comments)) ==> CommentRefsResolve(outfits, comments)
    {
      outfits := WithoutOwner(outfits, userId);
      if userId !in users {
        return Response(NOT_FOUND, Message("User not found"));
      }
      users := users - {userId};
      r := Response(OK, Message("User deleted successfully"));
    }

    /** POST /outfits (server.js:274-294). */
    method CreateOutfit(name: Field, description: Field, image: Field, userId: Field, now: nat)
      returns (r: Response)
      requires Valid()
      modifies this
      ensures Valid() && users == old(users) && comments == old(comments)
      ensures !(Given(name) && Given(description) && Given(image) && Given(userId)) ==>
        r == Response(BAD_REQUEST, Message("All fields are required")) && outfits == old(outfits)
      ensures Given(name) && Given(description) && Given(image) && Given(userId) ==>
        && r.status == CREATED && r.body.WithOutfit?
        && r.body.message == "Outfit created successfully!"
        && r.body.id !in old(outfits) && Nameable(r.body.id)
        && r.body.outfit == Outfit(name.value, description.value, image.value, userId.value, [], [], now)
        && outfits == old(outfits)[r.body.id := r.body.outfit]
      ensures old(CommentRefsResolve(outfits, comments)) ==> CommentRefsResolve(outfits, comments)
    {
      if !(Given(name) && Given(description) && Given(image) && Given(userId)) {
        return Response(BAD_REQUEST, Message("All fields are required"));
      }
      var outfit := Outfit(name.value, description.value, image.value, userId.value, [], [], now);
      var id := NewId();
      outfits := outfits[id := outfit];
      r := Response(CREATED, WithOutfit("Outfit created successfully!", id, outfit));
    }

    /** POST /outfits/:outfitId/like (server.js:306-343). */
    method ToggleLike(outfitId: Id, userId: Field) returns (r: Response)
      requires Valid()
      modifies this
      ensures Valid() && users == old(users) && comments == old(comments)
      ensures !Given(userId) || outfitId == "" ==>
        r == Response(BAD_REQUEST, Message("Missing required fields")) && outfits == old(outfits)
      ensures Given(userId) && outfitId != "" && outfitId !in old(outfits) ==>
        r == Response(NOT_FOUND, Message("Outfit not found")) && outfits == old(outfits)
      ensures Given(userId) && outfitId != "" && outfitId in old(outfits) ==>
        var before := old(outfits)[outfitId];
        var liked := userId.value !in before.likes;
        && outfits == old(outfits)[outfitId := before.(likes := Toggled(before.likes, userId.value))]
        && r == Response(OK, LikeToggled(if liked then "Like added successfully" else "Like removed successfully",
                                         liked, |outfits[outfitId].likes|))
      ensures r.status == OK ==>
        GetLikes(outfits, outfitId, userId) == Response(OK, LikeStatus(r.body.likeCount, r.body.liked))
      ensures old(CommentRefsResolve(outfits, comments)) ==> CommentRefsResolve(outfits, comments)
    {
      if !Given(userId) || outfitId == "" {
        return Response(BAD_REQUEST, Message("Missing required fields"));
      }
      if outfitId !in outfits {
        return Response(NOT_FOUND, Message("Outfit not found"));
      }
      var outfit := outfits[outfitId];
      var u := userId.value;
      var likes := outfit.likes;
      var i := IndexOf(likes, u);
      var liked: bool;
      if i == -1 {
        likes := likes + [u];
        liked := true;
      } else {
        likes := RemoveAt(likes, i);
        liked := false;
      }
      LikesAfterToggle(outfits, outfitId, u);
      ToggledKeepsNoDup(outfit.likes, u);
      outfits := outfits[outfitId := outfit.(likes := likes)];
      r := Response(OK, LikeToggled(if liked then "Like added successfully" else "Like removed successfully",
                                    liked, |likes|));
    }

    /** PUT /outfits/:id (server.js:365-383): only name, description and
        image are replaced. */
    method UpdateOutfit(outfitId: Id, name: Field, description: Field, image: Field) returns (r: Response)
      requires Valid()
      modifies this
      ensures Valid() && users == old(users) && comments == old(comments)
      ensures !(Given(name) && Given(description) && Given(image)) ==>
        r == Response(BAD_REQUEST, Message("All fields are required")) && outfits == old(outfits)
      ensures Given(name) && Given(description) && Given(image) && outfitId !in old(outfits) ==>
        r == Response(NOT_FOUND, Message("Outfit not found")) && outfits == old(outfits)
      ensures Given(name) && Given(description) && Given(image) && outfitId in old(outfits) ==>
        && outfits == old(outfits)[outfitId := old(outfits)[outfitId].(
                        name := name.value, description := description.value, image := image.value)]
        && r == Response(OK, WithOutfit("Outfit updated successfully", outfitId, outfits[outfitId]))
      ensures outfitId in outfits ==>
        && outfits[outfitId].user == old(outfits)[outfitId].user
        && outfits[outfitId].likes == old(outfits)[outfitId].likes
        && outfits[outfitId].comments == old(outfits)[outfitId].comments
        && outfits[outfitId].createdAt == old(outfits)[outfitId].createdAt
      ensures old(CommentRefsResolve(outfits, comments)) ==> CommentRefsResolve(outfits, comments)
    {
      if !(Given(name) && Given(description) && Given(image)) {
        return Response(BAD_REQUEST, Message("All fields are required"));
      }
      if outfitId !in outfits {
        return Response(NOT_FOUND, Message("Outfit not found"));
      }
      var updated := outfits[outfitId].(name := name.value, description := description.value, image := image.value);
      outfits := outfits[outfitId := updated];
      r := Response(OK, WithOutfit("Outfit updated successfully", outfitId, updated));
    }

    /** DELETE /outfits (server.js:386-408): `outfitIds` is None when the
        body has no array under that name. Comments on the deleted outfits
        are kept. */
    method DeleteOutfits(outfitIds: Option<seq<Id>>) returns (r: Response)
      requires Valid()
      modifies this
      ensures Valid() && users == old(users) && comments == old(comments)
      ensures outfitIds.None? || outfitIds.value == [] ==>
        r == Response(BAD_REQUEST, Message("Invalid outfit IDs provided")) && outfits == old(outfits)
      ensures outfitIds.Some? && outfitIds.value != [] ==>
        var doomed := Matched(old(outfits), outfitIds.value);
        && outfits == old(outfits) - doomed
        && (doomed == {} ==> r == Response(NOT_FOUND, Message("No outfits found to delete")))
        && (doomed != {} ==> r == Response(OK, DeletedCount(DeletedMessageAsWritten(|doomed|), |doomed|)))
      ensures r.status == OK ==> r.body.deletedCount == |old(outfits)| - |outfits| > 0
      ensures r.status == NOT_FOUND ==> outfits == old(outfits)
      ensures old(CommentRefsResolve(outfits, comments)) ==> CommentRefsResolve(outfits, comments)
    {
      if outfitIds.None? || outfitIds.value == [] {
        return Response(BAD_REQUEST, Message("Invalid outfit IDs provided"));
      }
      var doomed := Matched(outfits, outfitIds.value);
      RemoveKeysCount(outfits, doomed);
      outfits := outfits - doomed;
      var deletedCount := |doomed|;
      if deletedCount == 0 {
        return Response(NOT_FOUND, Message("No outfits found to delete"));
      }
      r := Response(OK, DeletedCount(DeletedMessageAsWritten(deletedCount), deletedCount));
    }
  }
}
