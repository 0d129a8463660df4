# Social-network backend: presence registry, post/comment handlers, auth and error middleware

This project is a verified Dafny model of the parts of the server that hold real sequential logic.

- **Presence registry** (`socket/socket.js`). It is a process-wide object from user id to socket id.
  - The `connection` handler registers the handshake's `userId` unless it is the literal `"undefined"`.
  - The `disconnect` handler deletes the key of the user id the connection was opened with.
  - Both handlers broadcast `Object.keys` of the map.
  - `getReceiverSocketId` reads the map.
  - Modelled as the class `Presence.Gateway`. Its fields are the map and the key insertion order. Its methods are proved equal to the pure transitions `OnConnection` / `OnDisconnect`, and the lemmas are about those transitions.
- **Post handlers** (`controllers/postControllers.js`).
  - `createPost` checks for a missing body, an oversized image and an upload without `secure_url`. It then creates the post and pushes its id onto the creator's `posts`.
  - `updatePost` checks that the caller is the creator, then replaces the body.
- **Comment handlers** (`controllers/commentControllers.js`).
  - `createComment` checks the text, creates the record and pushes its id onto the post's `comments`.
  - `deleteComment` removes the record.
- **Error middleware** (`middleware/errorMiddleware.js`). `notFound` and `errorHandler` turn an error into `{ message }` and a status.
- **Auth middleware** (`middleware/authMiddleware.js`). It selects the header, extracts the Bearer token, and passes on or rejects with 403.

The document store is the class `Store.Database`. It has one method per Mongoose call the handlers make. Each handler is a method that calls those methods in the source's order. Each method is proved equal to a pure transition function (`CreatePostSpec`, `UpdatePostSpec`, `CreateCommentSpec`, `DeleteCommentSpec`). The properties are proved about these functions, including an integrity invariant (`Store.Integrity`): every id in a user's `posts` names a post by that user, and every id in a post's `comments` names a comment on that post.

Foreign calls are parameters of the model:
- The image upload is an `Upload` value: a result with an optional URL, or a thrown message.
- `jwt.verify` and `UserModel.findById` are total functions that may report a throw.
- The ids the database generates are parameters. Each handler requires its fresh id to be unused.

Behaviour of the code that the model keeps:
- Disconnect deletes by user id, not by socket id. An old socket's disconnect therefore removes a newer registration of the same user (`StaleDisconnectRemovesNewer`). One would expect only the entry of the disconnecting connection itself to go. The model follows the code.
- A handshake without any `userId` passes the loose `userId != "undefined"` test. The value `undefined` then becomes the property key `"undefined"`, so such sockets are registered and broadcast under that key (`AbsentUserIdRegistersSentinelKey`).
- A handshake with the literal `userId` `"undefined"` is never registered, yet its disconnect runs `delete userSocketMap["undefined"]`. That removes the entry a connection without any `userId` installed (`SentinelDisconnectRemovesAnonymous`).
- The map is a plain object `{}`, so it inherits from `Object.prototype`.
  - Assigning a socket id to the key `"__proto__"` goes through the inherited setter, which ignores strings. A user with that id is never registered or broadcast (`ProtoUserIdIsNeverOnline`).
  - Looking up an unregistered name that `Object.prototype` defines, such as `"toString"`, returns the inherited member, which is truthy. `getReceiverSocketId` returns a `Property`: `Own`, `Inherited` or `Undefined`.
  - A user id such as `"toString"` is assigned as an ordinary own key.
- `updatePost` and `createComment` do not check for a missing post. Reading a field of `null` throws, and `new HttpError(error)` forwards it without a code, so the error middleware answers 500. `createComment` has by then already created the comment record.
- `deleteComment` leaves the post's `comments` list untouched, so that list can end up naming a deleted comment (`DeleteCommentLeavesDanglingId`).
- `controllers/messageControllers.js` names handlers for sending a message, listing messages and listing conversations, but no route is registered for them and they only return placeholder strings, so there is nothing there to model.

## Model

| member | source | states |
|---|---|---|
| `Js.Split` | middleware/authMiddleware.js:9 | `split(" ")` yields at least one field and no field contains the separator. The first field is the longest separator-free prefix. |
| `Js.JoinSplit` | middleware/authMiddleware.js:9 | Joining the fields of `split` with the separator gives back the original string. |
| `Js.SplitAfterWord` | middleware/authMiddleware.js:8-9 | A separator-free word followed by the separator contributes exactly one leading field. |
| `Presence.OnlineUsers` | socket/socket.js:29 | The broadcast list has no duplicates and holds exactly the registered user ids. |
| `Presence.Without` | socket/socket.js:33 | Deleting a key removes it and no other element from the key list. It keeps the list duplicate-free, shortens it by one when the key was present, and leaves it unchanged when the key was absent. |
| `Presence.WithoutRemovesOnePosition` | socket/socket.js:33 | Deleting a key removes exactly its one position; the other keys keep their order. |
| `Presence.OnlineUsersCount` | socket/socket.js:29-34 | The broadcast list has one element per registered user. |
| `Presence.Put` | socket/socket.js:25 | The assignment keeps the key list well-formed. A key other than `__proto__` then maps to the socket id; `__proto__` changes nothing. No other entry changes, users already online keep their place, and an existing key keeps its position. |
| `Presence.OnConnection` | socket/socket.js:20-29 | `Registers` is the loose guard `userId != "undefined"`: an absent `userId` passes it. `KeyOf` turns an absent value into the key `"undefined"`. Unless the guard fails or the key is `__proto__`, the user then maps (by `Lookup`) to the new socket id; otherwise the registry is unchanged. A broadcast of the current key list is emitted either way. No other user's entry changes, and users already online keep their place in the list. |
| `Presence.OnDisconnect` | socket/socket.js:31-34 | The key `KeyOf` gives for the user id the connection was opened with is then absent, and no other entry changes. Disconnecting an absent user changes nothing. The key list is that of `Without`, so the other keys keep their order, and it is broadcast. |
| `Presence.LastConnectionWins` | socket/socket.js:25 | For a registering user id other than `__proto__`, a second connection of the same user overwrites the socket id and adds no second entry to the key list. |
| `Presence.StaleDisconnectRemovesNewer` | socket/socket.js:22-33 | For a registering user id other than `__proto__`, the disconnect of an older socket removes the entry that a newer socket of the same user installed. |
| `Presence.AbsentUserIdRegistersSentinelKey` | socket/socket.js:22-25 | A handshake without `userId` registers its socket under the key `"undefined"`, and that key is broadcast. |
| `Presence.SentinelDisconnectRemovesAnonymous` | socket/socket.js:22-33 | A literal `"undefined"` handshake leaves the registry unchanged, but its disconnect removes the entry a handshake without `userId` installed under `"undefined"`. |
| `Presence.ProtoUserIdIsNeverOnline` | socket/socket.js:24-29 | A `__proto__` user id passes the guard, but the registry and the broadcast stay as they were, and that id is not broadcast. |
| `Presence.Gateway.GetReceiverSocketId` | socket/socket.js:14-16 | Returns `Own` with the mapped socket id exactly when the user is an own key. For an unregistered name that `Object.prototype` defines it returns `Inherited` with that name, and `Undefined` for every other name. It changes no state. |
| `Presence.Gateway.Connect` | socket/socket.js:20-29 | The new registry and the returned broadcast are those of `OnConnection`, and the registry stays well-formed. |
| `Presence.Gateway.Disconnect` | socket/socket.js:31-35 | The new registry and the returned broadcast are those of `OnDisconnect`, and the registry stays well-formed. |
| `Errors.NotFound` | middleware/errorMiddleware.js:3-7 | Sets status 404 and forwards a code-less error whose message is "Not Found - " followed by the requested URL. |
| `Errors.ErrorHandler` | middleware/errorMiddleware.js:10-18 | With the guard on the response's `headersSent` flag: when the headers are out, the error is passed on unchanged. Otherwise the status is `err.code` when truthy, else 500, and the message is `err.message` when non-empty, else "An unknown error occurred.". The written status is never 0 and the message never empty. |
| `Errors.ErrorHandlerAsWritten` | middleware/errorMiddleware.js:11-17 | As written, the guard reads the undefined `res.headerSent`, so the handler always attempts to write the envelope. |
| `Errors.LateErrorIsNotPassedOn` | middleware/errorMiddleware.js:11-13 | After the headers are sent, the as-written handler still attempts to write an envelope, while the guard on `headersSent` passes the error on. The as-written handler ignores the flag. |
| `Errors.UnmatchedRouteAnswers500` | middleware/errorMiddleware.js:3-17 | `UnmatchedRouteAsWritten` is the chain `notFound` then `errorHandler`, wired in that order at config/express.js:18-19. As written, it answers an unmatched route with 500, not the 404 that `notFound` set. |
| `Errors.ErrorHandlerKeepingStatus` | middleware/errorMiddleware.js:10-17 | The corrected handler agrees with `ErrorHandler` when the headers are out, when the error has a code, or when no earlier status was set. When none of these holds, it keeps the earlier status. |
| `Errors.UnmatchedRoute` | middleware/errorMiddleware.js:3-17 | With the corrected handler an unmatched route is answered 404 "Not Found - <url>". |
| `Auth.BearerToken` | middleware/authMiddleware.js:8-9 | The token is the text after "Bearer " up to the next space or the end. |
| `Auth.DoubleSpaceGivesEmptyToken` | middleware/authMiddleware.js:9 | "Bearer " followed by another space yields the empty token. |
| `Auth.Authenticate` | middleware/authMiddleware.js:5-19 | `SelectHeader` is `authorization \|\| Authorization`, and `HasBearer` is the truthy-and-starts-with-"Bearer " test. Every rejection has status 403. Without a truthy header starting with "Bearer " the result is 403 "Unauthorized". A verification or lookup failure gives 403 with that failure's message. Otherwise the request proceeds once, with the looked-up user. |
| `Auth.ProceedExactlyWhenVerified` | middleware/authMiddleware.js:7-18 | The request proceeds if and only if the selected header has the prefix and verification and lookup both succeed. |
| `Auth.LowerCaseHeaderWins` | middleware/authMiddleware.js:7 | A non-empty `authorization` header makes `Authorization` irrelevant. |
| `Store.PushTo` | controllers/postControllers.js:53-55 | `$push` appends the id to the named user's list, changes no other list, and does nothing for a missing user. |
| `Store.Database.FindPost` | controllers/postControllers.js:117 | Returns the stored post with its id exactly when the id exists. It is a pure read. |
| `Store.Database.InsertPost` | controllers/postControllers.js:47-51 | Stores the post under its id and returns it with that id; users and comments are unchanged. |
| `Store.Database.PushUserPost` | controllers/postControllers.js:53-55 | The users' lists become `PushTo` of the old ones; posts and comments are unchanged. |
| `Store.Database.SetBody` | controllers/postControllers.js:123-127 | Replaces only the body of an existing post and returns the new document. An absent body leaves the post as it is. |
| `Store.Database.InsertComment` | controllers/commentControllers.js:22-26 | Stores the comment under its id and returns it with that id; posts and users are unchanged. |
| `Store.Database.PushPostComment` | controllers/commentControllers.js:27-28 | Appends the id to the post's `comments` and changes nothing else. |
| `Store.Database.DeleteComment` | controllers/commentControllers.js:65 | Removes the comment record and returns it, or nothing. Posts are unchanged. |
| `PostControllers.CheckCreate` | controllers/postControllers.js:14-45 | A missing or empty body gives 422 "Fill in required fields". A size over 5000000 gives 422. A thrown upload gives 500 "Error uploading image: "+message. An upload without `secure_url` gives 400. Acceptance holds iff none of these applies. The image is then the URL, or "" without an image. |
| `PostControllers.SizeLimitIsInclusive` | controllers/postControllers.js:23 | An image of exactly 5000000 bytes is accepted; one byte more is rejected. |
| `PostControllers.CreatePostSpec` | controllers/postControllers.js:12-72 | A rejected request changes nothing. A success answers 200 with the new id and a post of the caller as creator, the body and the chosen image. It stores that post and appends its id at the end of the creator's `posts`, keeping earlier entries. It touches no other list. |
| `PostControllers.UpdatePostSpec` | controllers/postControllers.js:113-132 | A missing post gives a code-less error. A caller who is not the creator gets 403 and nothing changes. The creator gets 200 with the post, under its id, whose body alone is replaced, and that is the only change. |
| `PostControllers.CreatePostKeepsIntegrity` | controllers/postControllers.js:47-66 | Creating a post preserves `Store.Integrity`. |
| `PostControllers.UpdatePostKeepsIntegrity` | controllers/postControllers.js:123-127 | Updating a post preserves `Store.Integrity`. |
| `PostControllers.CreatePost` | controllers/postControllers.js:12-72 | Running the handler step by step gives the reply and store of `CreatePostSpec`. |
| `PostControllers.UpdatePost` | controllers/postControllers.js:113-132 | Running the handler step by step gives the reply and store of `UpdatePostSpec`. |
| `CommentControllers.CreateCommentSpec` | controllers/commentControllers.js:10-33 | A missing or empty comment gives 400 "Comment cannot be empty" and no change. Otherwise a comment with the caller, the route's `postId` and the text is stored. For an existing post the reply is 201 with that comment under its new id, and the post's `comments` gains the new id at its end, earlier ids kept in order. For a missing post the reply is a code-less error and no post changes. |
| `CommentControllers.DeleteCommentSpec` | controllers/commentControllers.js:62-70 | Answers 200 with the deleted comment and its id, or nothing. It removes only that record; posts and users are untouched. |
| `CommentControllers.CreateCommentKeepsIntegrity` | controllers/commentControllers.js:22-28 | Creating a comment preserves `Store.Integrity`. |
| `CommentControllers.DeleteCommentLeavesDanglingId` | controllers/commentControllers.js:65-66 | Deleting a comment that a post lists leaves its id in that post's `comments`, and the references no longer resolve. |
| `CommentControllers.CreateComment` | controllers/commentControllers.js:10-33 | Running the handler step by step gives the reply and store of `CreateCommentSpec`. |
| `CommentControllers.DeleteComment` | controllers/commentControllers.js:62-70 | Running the handler gives the reply and store of `DeleteCommentSpec`. |

## Findings

| source | as written | input that shows it | evidently intended | confidence | as-written member | corrected member |
|---|---|---|---|---|---|---|
| middleware/errorMiddleware.js:16 | `res.status(err.code \|\| 500)` overrides the 404 that `notFound` set, because `notFound` forwards a plain `Error` with no `code`. | in an app set up by `configureExpress` (config/express.js:10-20), any unmatched route, e.g. `GET /nowhere`, is answered 500 "Not Found - /nowhere". The app that index.js builds installs neither middleware. | unmatched routes are answered 404 | not executed; high | `Errors.UnmatchedRouteAnswers500` | `Errors.UnmatchedRoute` |
| middleware/errorMiddleware.js:11 | `if (res.headerSent)` reads a property that neither Express 4 nor Node's `ServerResponse` defines. The flag is `res.headersSent`, so the guard never fires. | a handler that has already answered and then calls `next(error)`: the handler attempts to write the envelope, the write throws because the headers are out, and that throw replaces the original error on its way to Express's default handler | errors after the headers are out go on to Express's default handler | not executed; medium (based on the Express 4 and Node APIs) | `Errors.LateErrorIsNotPassedOn` | `Errors.ErrorHandler` |

## Left out

- Event transport is left out: socket.io server construction, CORS options, logging, and the actual sending of `io.emit`. Only the broadcast list is modelled, returned from each handler.
- JS orders array-index-like keys numerically first. The model reports keys in insertion order.
- The messaging controllers are left out because they only return placeholder strings. That covers find-or-create conversation, message append and the `newMessage` push.
- The user controllers and the stub post endpoints (`deletePost`, `getFollowingPost`, `likeDislikePost`, `getUserPosts`, `createBookmark`, `getUserBookmarks`) are left out for the same reason.
- `getPost`, `getPosts` and `getPostComments` are left out. They are plain reads with `populate`/`sort`, which is query semantics outside the core.
- Persistence failures are left out. A document-store call that throws, such as a malformed ObjectId, a lost connection or a validation error, is not modelled: the store always answers. The only errors that come from a null document are modelled.
- The ids the database generates are parameters. Fresh ones are required; ObjectId uniqueness is the database's guarantee.
- The Cloudinary upload and the data-URI it is given are left out. The upload enters only as its outcome. A `req.files.image` that is an array (several files under one name) is not modelled.
- `jwt.verify` cryptography and the user lookup enter only as their outcomes. The user document is represented by its id.
- Controllers take the caller's id as a string. The case where `authMiddleware` sets `req.user` to `null` (a verified token whose user no longer exists) is modelled in `Auth.Authenticate`, but the handlers' later crash on `req.user.id` is not.
- `config/error.js` (`HttpError`) is not part of this model. `new HttpError(message, code)` is taken to set `message` and `code`, and `new HttpError(error)` to carry the error's text with no code.
- The exact text of a caught `TypeError` is the JavaScript engine's. Only the fact that it carries no code (so the answer is 500) is meant.
- `Store.Database.SetBody`: an absent `body` is taken to be dropped from the update, as current Mongoose versions do; older versions configured otherwise could store `null`.
- Concurrency is left out. That covers uniqueness of a conversation per user pair and ordering across interleaved requests: the code contains no logic for either.
- `createComment` loads the post with its `comments` populated and sorted newest first (controllers/commentControllers.js:17-21). The model appends the new id to the stored list in its stored order. It assumes a single `push` followed by `save` is written as `$push`, so the sort of the populated copy never reaches the database.
- Fields that Mongoose adds to a stored document are left out of the replies. The `_id` is kept. `__v` and the comment's `createdAt`/`updatedAt` timestamps are left out.
- Express wiring, environment and database connection are left out.
