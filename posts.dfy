/** The post handlers `createPost` and `updatePost`: request validation, the upload of an
    attached image (an oracle), ownership, and the changes they make to the store. */
module PostControllers {
  import opened Js
  import opened Errors
  import opened Store

  /** Largest accepted image, in bytes. */
  const MaxImageSize: nat := 5000000
  /** The schema default of a post's `image`. */
  const DefaultImage: string := ""

  const MissingFields: string := "Fill in required fields"
  const ImageTooBig: string := "Image is too big, it should be less than 5mb"
  const NoSecureUrl: string := "Couldn't upload image to cloudinary"
  const UploadErrorPrefix: string := "Error uploading image: "
  const NotCreator: string := "You are not authorized to update this post"
  /** What reading `post.creator` of a null post throws, as `new HttpError(error)` wraps it. */
  const NullPostCreator: string := "TypeError: Cannot read properties of null (reading 'creator')"

  /** An uploaded file `req.files.image`; only its size matters to the handler. */
  datatype Image = Image(size: nat)

  /** What the image upload does: resolve to a result with an optional `secure_url`, or throw. */
  datatype Upload = Uploaded(secureUrl: Option<string>) | UploadThrew(message: string)

  /** The guards of `createPost`: the image URL the new post gets, or the error handed to `next`.
      `upload` is what the upload call returns; it is consulted only when an image of
      acceptable size is attached. */
  function CheckCreate(body: Option<string>, image: Option<Image>, upload: Upload): (d: Result<string, HttpError>)
    ensures !Truthy(body) ==> d == Err(Raise(MissingFields, 422))
    ensures Truthy(body) && image.Some? && image.value.size > MaxImageSize ==> d == Err(Raise(ImageTooBig, 422))
    ensures Truthy(body) && image.Some? && image.value.size <= MaxImageSize && upload.UploadThrew? ==>
              d == Err(Raise(UploadErrorPrefix + upload.message, 500))
    ensures (Truthy(body) && image.Some? && image.value.size <= MaxImageSize && upload.Uploaded?
             && !Truthy(upload.secureUrl)) ==> d == Err(Raise(NoSecureUrl, 400))
    ensures d.Ok? <==> Truthy(body) && (image.Some? ==>
                         image.value.size <= MaxImageSize && upload.Uploaded? && Truthy(upload.secureUrl))
    ensures d.Ok? && image.None? ==> d.value == DefaultImage
    ensures d.Ok? && image.Some? ==> upload.Uploaded? && upload.secureUrl == Some(d.value)
  {
    if !Truthy(body) then Err(Raise(MissingFields, 422))
    else if image.None? then Ok(DefaultImage)
    else if image.value.size > MaxImageSize then Err(Raise(ImageTooBig, 422))
    else
      match upload
      case UploadThrew(m) => Err(Raise(UploadErrorPrefix + m, 500))
      case Uploaded(url) => if Truthy(url) then Ok(url.value) else Err(Raise(NoSecureUrl, 400))
  }

  /** The size limit is inclusive: an image of exactly 5000000 bytes goes on to the upload. */
  lemma SizeLimitIsInclusive(body: string, url: string)
    requires body != "" && url != ""
    ensures CheckCreate(Some(body), Some(Image(MaxImageSize)), Uploaded(Some(url))) == Ok(url)
    ensures CheckCreate(Some(body), Some(Image(MaxImageSize + 1)), Uploaded(Some(url))).Err?
  {
  }

  /** `createPost` by the authenticated `user`, as a transition of the store; `freshId` is the
      id the database generates for the new post. */
  function CreatePostSpec(s: Snapshot, user: Id, body: Option<string>, image: Option<Image>,
                          upload: Upload, freshId: Id): (o: Outcome<Stored<Post>>)
    requires freshId !in s.posts
    ensures o.reply.Next? <==> CheckCreate(body, image, upload).Err?
    ensures o.reply.Next? ==> o.reply.error == CheckCreate(body, image, upload).error && o.after == s
    ensures o.reply.Respond? ==>
      && Truthy(body) && CheckCreate(body, image, upload).Ok?
      && o.reply.status == 200
      && o.reply.payload == Stored(freshId, Post(user, body.value, CheckCreate(body, image, upload).value, [], []))
      && o.after.posts == s.posts[freshId := o.reply.payload.doc]
      && o.after.comments == s.comments
    // the new id goes at the end of the creator's list; every other list is as it was
    ensures o.reply.Respond? ==>
      && o.after.userPosts.Keys == s.userPosts.Keys
      && (user in s.userPosts ==>
            |o.after.userPosts[user]| == |s.userPosts[user]| + 1
            && o.after.userPosts[user][..|s.userPosts[user]|] == s.userPosts[user]
            && o.after.userPosts[user][|s.userPosts[user]|] == freshId)
      && (forall u :: u in s.userPosts && u != user ==> o.after.userPosts[u] == s.userPosts[u])
  {
    match CheckCreate(body, image, upload)
    case Err(e) => Outcome(Next(e), s)
    case Ok(url) =>
      var p := Post(user, body.value, url, [], []);
      var after := Snapshot(s.posts[freshId := p], PushTo(s.userPosts, user, freshId), s.comments);
      assert user in s.userPosts ==> after.userPosts[user][..|s.userPosts[user]|] == s.userPosts[user];
      Outcome(Respond(200, Stored(freshId, p)), after)
  }

  /** `updatePost` of post `id` by `user` with the request's `body`, as a transition of the store. */
  function UpdatePostSpec(s: Snapshot, user: Id, id: Id, body: Option<string>): (o: Outcome<Stored<Post>>)
    ensures id !in s.posts ==> o == Outcome(Next(Wrap(NullPostCreator)), s)
    ensures id in s.posts && s.posts[id].creator != user ==> o == Outcome(Next(Raise(NotCreator, 403)), s)
    ensures o.reply.Respond? <==> id in s.posts && s.posts[id].creator == user
    // the creator's update replaces the body (when one is sent) and nothing else
    ensures o.reply.Respond? ==>
      var p := s.posts[id];
      && o.reply.status == 200
      && o.reply.payload.id == id
      && o.reply.payload.doc.body == (if body.Some? then body.value else p.body)
      && o.reply.payload.doc == p.(body := o.reply.payload.doc.body)
      && o.after == s.(posts := s.posts[id := o.reply.payload.doc])
  {
    if id !in s.posts then Outcome(Next(Wrap(NullPostCreator)), s)
    else
      var p := s.posts[id];
      if p.creator != user then Outcome(Next(Raise(NotCreator, 403)), s)
      else
        var q := if body.Some? then p.(body := body.value) else p;
        Outcome(Respond(200, Stored(id, q)), s.(posts := s.posts[id := q]))
  }

  /** Creating a post keeps every reference in the store resolving. */
  lemma CreatePostKeepsIntegrity(s: Snapshot, user: Id, body: Option<string>, image: Option<Image>,
                                 upload: Upload, freshId: Id)
    requires freshId !in s.posts && Integrity(s)
    ensures Integrity(CreatePostSpec(s, user, body, image, upload, freshId).after)
  {
  }

  /** Updating a post keeps every reference in the store resolving. */
  lemma UpdatePostKeepsIntegrity(s: Snapshot, user: Id, id: Id, body: Option<string>)
    requires Integrity(s)
    ensures Integrity(UpdatePostSpec(s, user, id, body).after)
  {
  }

  /** `createPost` run step by step against the database. */
  method CreatePost(db: Database, user: Id, body: Option<string>, image: Option<Image>,
                    upload: Upload, freshId: Id) returns (reply: Reply<Stored<Post>>)
    requires freshId !in db.posts
    modifies db
    ensures Outcome(reply, db.Value()) == CreatePostSpec(old(db.Value()), user, body, image, upload, freshId)
  {
    if !Truthy(body) {
      return Next(Raise(MissingFields, 422));
    }
    var url := DefaultImage;
    if image.Some? {
      if image.value.size > MaxImageSize {
        return Next(Raise(ImageTooBig, 422));
      }
      match upload {
        case UploadThrew(m) =>
          return Next(Raise(UploadErrorPrefix + m, 500));
        case Uploaded(secureUrl) =>
          if !Truthy(secureUrl) {
            return Next(Raise(NoSecureUrl, 400));
          }
          url := secureUrl.value;
      }
    }
    var newPost := db.InsertPost(freshId, Post(user, body.value, url, [], []));
    db.PushUserPost(newPost.doc.creator, newPost.id);
    reply := Respond(200, newPost);
  }

  /** `updatePost` run step by step against the database. */
  method UpdatePost(db: Database, user: Id, id: Id, body: Option<string>) returns (reply: Reply<Stored<Post>>)
    modifies db
    ensures Outcome(reply, db.Value()) == UpdatePostSpec(old(db.Value()), user, id, body)
  {
    var post := db.FindPost(id);
    if post.None? {
      return Next(Wrap(NullPostCreator));
    }
    if post.value.doc.creator != user {
      return Next(Raise(NotCreator, 403));
    }
    var updated := db.SetBody(id, body);
    reply := Respond(200, updated.value);
  }
}
