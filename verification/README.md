# Outfit-sharing backend: a Dafny model of its route handlers

This project models the REST backend of an outfit-sharing application. Users
register and log in, post outfits (name, description, image), like and unlike
outfits, and comment on them. The backend keeps three MongoDB collections:
users, outfits and comments. Here each collection is a map from document id
to document, held by a `Store` object:

- `Base` holds identifiers (opaque strings), request fields (`Field`: absent,
  or a string whose JavaScript truthiness is `Given`) and status codes.
- `CommentModel` covers the Comment schema of `models/Comment.js`. The
  required `outfitId`, `userId` and `text` fields are checked on creation.
  `createdAt` is set once, and `updatedAt` is refreshed on every update.
- `Likes` covers an outfit's like list and the toggle the like route runs
  on it: `indexOf`, then `push` or `splice`. It also states the count, the
  membership, the no-duplicate and the repeated-toggle properties.
- `Messages` covers the confirmation message of the bulk outfit delete (see
  Findings).
- `Server` holds the handlers. Each handler that writes is a method of
  `Server.Store`. Its contract gives the status, the body and the new
  contents of all three maps, and it keeps the store invariant `Valid()`:
  usernames and emails are unique, and no outfit is liked twice by one
  user. Each read-only handler is a function of the maps.

The bcrypt hash is the store's `hash` function, and a password matches when
`hash(password)` equals the stored hash. The clock is a `now` parameter.
New document ids come from `Store.NewId`: some id that no document uses yet.

Some of the code's behaviour may be unexpected. The model follows the code:

- A taken email answers 400 "Email already registered", and a taken
  username on rename answers 400 "Username already taken". Neither is a
  conflict status.
- Deleting a user deletes every outfit owned by that id first. The handler
  answers 404 only afterwards, when no such user exists.
- A new comment is stored even when its `outfitId` names no outfit. The push
  of its id onto that outfit's `comments` then matches nothing.
- The bulk outfit delete sends its confirmation message exactly as written
  (see Findings).

The model takes one thing as an assumption rather than from the code: the
users collection has a unique index on `username` (see Left out).

## Model

| member | source | states |
|---|---|---|
| `Base.Given` | server.js:60 | JavaScript truthiness of a body field, as in `!username`: present and not the empty string. Every "All fields are required" check is stated with it. |
| `CommentModel.Conforms` | models/Comment.js:5-18 | The schema's `required: true` on `outfitId`, `userId` and `text`: all three are non-empty. |
| `CommentModel.Create` | models/Comment.js:3-21 | A comment is stored exactly when `outfitId`, `userId` and `text` are all given. The stored comment keeps the two references as ids, satisfies the schema's required fields, and has `createdAt == updatedAt == now`. |
| `CommentModel.Touch` | models/Comment.js:20 | An update replaces the text and refreshes `updatedAt`. The references and `createdAt` are unchanged. The schema is not re-checked, so a conforming comment stays conforming exactly when the new text is non-empty. |
| `Likes.IndexOf` | server.js:320 | Gives -1 exactly when the user is absent. Otherwise it gives the first position holding the user. |
| `Likes.RemoveAt` | server.js:329 | `splice(i, 1)` removes exactly the element at `i`. The rest keep their order, and the multiset loses that one element. |
| `Likes.Toggled` | server.js:320-331 | An absent user is appended at the end. A present user has one occurrence removed. The new length (the `likeCount`) is the old length plus or minus one. |
| `Likes.ToggledMembership` | server.js:320-331 | On a list with no duplicates, the user is in the new list exactly when they were not in the old one. No other user's membership changes. |
| `Likes.ToggledKeepsNoDup` | server.js:323-331 | A toggle never creates a duplicate like. |
| `Likes.ToggleTwiceFromAbsent` | server.js:320-331 | Liking and then unliking gives back the original list exactly. |
| `Likes.ToggleTwiceFromPresent` | server.js:320-331 | Unliking and then liking gives back the same users, but the user moves to the end of the list. |
| `Likes.ToggledTimes` | server.js:306-343 | After n toggles by one user, that user's membership is flipped when n is odd and unchanged when n is even. The list never holds a duplicate. |
| `Likes.ToggledByEachDistinct` | server.js:320-333 | When N distinct users who had not liked an outfit each toggle once, all of them are appended in order and the count grows by N. |
| `Messages.DeletedMessageAsWritten` | server.js:401 | The bulk-delete message exactly as written: the same text, with the literal `${result.deletedCount}` in it, whatever the count. |
| `Messages.DeletedMessage` | server.js:400-403 | The message as evidently intended: the prefix, the decimal count, then the suffix. |
| `Messages.DecimalRoundTrip` | server.js:401 | Reading back the decimal spelling of a count gives the count. |
| `Messages.AsWrittenHidesCount` | server.js:401 | As written, the bulk-delete message is the same for every count, so a client cannot read the count from it. |
| `Messages.DeletedMessageReportsCount` | server.js:400-403 | The interpolated message reports the number of outfits deleted. |
| `Server.ProfileOf` | server.js:96-100 | The public projection of a user: `_id`, `username` and `email`, never the password hash. The same projection is sent at server.js:216-220 and 251-255. |
| `Server.HeldByOther` | server.js:199-202 | `findOne({ username, _id: { $ne: userId } })` finds a user: some user other than `userId` holds the name. |
| `Server.FindByUsername` | server.js:87 | `findOne({ username })` finds the user with that username, or reports that there is none. |
| `Server.OwnedBy` | server.js:264 | The outfits whose `user` is the given id, with their contents unchanged. |
| `Server.WithoutOwner` | server.js:229 | `deleteMany({ user })` keeps exactly the outfits of other owners. |
| `Server.CommentsOn` | server.js:154 | The comments whose `outfitId` is the given outfit. |
| `Server.Matched` | server.js:394 | `$in` matches exactly the stored outfits whose id is in the list. |
| `Server.RemoveKeysCount` | server.js:394-402 | Removing the matched outfits shrinks the collection by their number, which is the `deletedCount`. |
| `Server.Login` | server.js:84-108 | 200 exactly when a user with that username exists and `hash(password)` equals the stored hash. The body then carries only `_id`, `username` and `email`. Every other case is 401 "Invalid credentials". |
| `Server.GetUser` | server.js:245-259 | 200 with the public profile exactly when the username is held. Otherwise 404. |
| `Server.ListComments` | server.js:148-161 | 400 exactly when the outfit id is empty or the string "undefined". Otherwise 200 with exactly the comments on that outfit. |
| `Server.ListOutfitsByUser` | server.js:262-271 | 200 with exactly the outfits that user owns. |
| `Server.ListOutfits` | server.js:297-304 | 200 with every stored outfit. |
| `Server.ListingsPartition` | server.js:262-304 | The full listing is the disjoint union of the per-owner listings. Two owners' listings share no outfit, and every outfit is in its owner's listing. The sizes of the owners' listings add up to the size of the full listing. |
| `Server.GetLikes` | server.js:345-362 | 404 for an unknown outfit. Otherwise `likeCount` is the length of `likes`, and `liked` holds exactly when a `userId` is given and is in `likes`. |
| `Server.LikesAfterToggle` | server.js:320-358 | After a toggle, the likes query reports `liked` exactly when the user had not liked the outfit before, and the count has moved by one. |
| `Server.LoginAfterRegister` | server.js:69-103 | Inserting a user with a new username and `hash(password)` keeps usernames unique, and login with that password then succeeds with the new profile. |
| `Server.DeleteCommentDangles` | server.js:183-193 | For every store, deleting a comment that some outfit still lists leaves a dangling reference, because the handler does not prune the outfit's `comments`. |
| `Server.DeleteCommentMayDangle` | server.js:183-193 | A store whose references all resolve before such a deletion exists, so the break above is reachable from a consistent store. |
| `Server.Store.NewId` | server.js:289 | The ObjectId MongoDB assigns on `save()`: used by no user, outfit or comment, never empty, and never "undefined". |
| `Server.Store.Register` | server.js:56-81 | A missing field gives 400 and a held email gives 400; a held username then gives 500 (the unique index). In all three cases nothing changes. Otherwise exactly one user is added under a new id, with `hash(password)` stored, and login with that password succeeds. |
| `Server.Store.CreateComment` | server.js:111-145 | A missing field gives 400 with the received fields, and nothing changes. Otherwise one comment is added under a new id, and that id goes at the end of its outfit's `comments`. An unknown outfit is left alone. The comment then appears in its outfit's listing, and resolving comment references stay resolving. |
| `Server.Store.UpdateComment` | server.js:164-180 | An unknown id gives 404 and no change. Otherwise only that comment changes: new text and `updatedAt`, same references and `createdAt`. |
| `Server.Store.DeleteComment` | server.js:183-193 | An unknown id gives 404 and no change. Otherwise only that comment is removed, and no outfit changes. If an outfit listed the comment, the store's comment references no longer all resolve. |
| `Server.Store.RenameUser` | server.js:195-225 | A username held by a different user gives 400, even for an unknown id. Otherwise an unknown id gives 404. Otherwise only that user's username changes: keeping one's own name succeeds, and GET /user finds the user under the new name. |
| `Server.Store.DeleteUser` | server.js:227-242 | Every outfit owned by the id is removed, even when the answer is 404. The user is removed only if present (200). Afterwards the owner's outfit listing is empty. |
| `Server.Store.CreateOutfit` | server.js:274-294 | A missing field gives 400 and no change. Otherwise one outfit is added under a new, nameable id (so it can be liked and listed at once), with empty `likes` and `comments`. |
| `Server.Store.ToggleLike` | server.js:306-343 | A missing id gives 400 and an unknown outfit gives 404, with no change in either case. Otherwise only that outfit's `likes` changes, by `Toggled`. `liked` is true exactly when the user was absent, `likeCount` is the new length, and the likes query agrees. |
| `Server.Store.UpdateOutfit` | server.js:365-383 | A missing field gives 400 and an unknown id gives 404, with no change in either case. Otherwise only name, description and image are replaced; `user`, `likes`, `comments` and `createdAt` keep their values. |
| `Server.Store.DeleteOutfits` | server.js:386-408 | A missing, non-array or empty list gives 400 and no change. Otherwise exactly the listed outfits are removed. When none matched, the answer is 404 and nothing changed; Otherwise the message is the as-written text and `deletedCount` is the number removed. |

## Findings

| source | as written | input that shows it | evidently intended | confidence | as-written member | corrected member |
|---|---|---|---|---|---|---|
| server.js:401 | The bulk-delete message is a double-quoted string, so `${result.deletedCount}` is sent literally. | Deleting 2 outfits gives "Successfully deleted ${result.deletedCount} outfits". | A template literal naming the count, e.g. "Successfully deleted 2 outfits". | high; not executed | `Messages.DeletedMessageAsWritten` (`Messages.AsWrittenHidesCount`) | `Messages.DeletedMessage` (`Messages.DeletedMessageReportsCount`) |

## Left out

- CORS origin allow-list (server.js:19-30): request plumbing.
- The Unsplash image proxy (server.js:43-53, and its second copy at 412-424): an external HTTP call.
- MongoDB connection, body parsing and `app.listen` (server.js:33-40, 426-428): I/O.
- bcrypt's salt and cost: the hash is an arbitrary function supplied to the store.
- `populate(...)`: the author username on comments and the owner and likers on outfits. Listings return the matching documents as maps.
- `sort({ createdAt: -1 })`: no order is modelled for listings.
- Storage failures that answer 500: left out, except the username unique-index violation on registration.
- ObjectId cast failures, which answer 500: ids are opaque strings here.
- Concurrent requests: the model is sequential, so the lost update between two read-modify-save like toggles (server.js:315-333) is not represented.
- models/User.js and models/Outfit.js are not part of this model. Their fields are taken from how server.js uses them, and no timestamps are modelled for them beyond the outfit's `createdAt`.
- Server.Store.Register: assumes the users collection has a unique index on `username`. models/User.js, which would declare it, is not part of this model. On that assumption, registering a held username makes `save()` fail with 500. Without the index, `save()` would succeed with 201 and add a second user with the same name. `UniqueUsernames` would then not hold, and `Server.FindByUsername`, `Server.Login` and `Server.GetUser`, which require it, would not apply: `findOne` would return whichever of those users the database finds first. The modelled 500 body also leaves out the `error: err.message` field that server.js:79 adds.
- Server.Login: takes `username` and `password` as strings. An absent password, where bcrypt throws and the handler answers 500, is not modelled.
- Server.Store.RenameUser: takes `username` as a string. An absent body field depends on how Mongoose casts `undefined` in a query and is not modelled.
- Server.Store.UpdateComment: takes `text` as a string. An absent body field is not modelled. An empty text is accepted, as in the code, because updates do not run validators.
- Likes.ToggleTwiceFromPresent: "two toggles restore the like list" is proved only up to order. When the user had already liked the outfit, the same users come back, but that user moves to the end of the list. The exact list is restored only from the unliked state (`Likes.ToggleTwiceFromAbsent`).
