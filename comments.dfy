/** The comment handlers `createComment` and `deleteComment` and what they do to the store. */
module CommentControllers {
  import opened Js
  import opened Errors
  import opened Store

  const EmptyComment: string := "Comment cannot be empty"
  /** What `post.comments.push(..)` on a null post throws, as `new HttpError(error)` wraps it. */
  const NullPostComments: string := "TypeError: Cannot read properties of null (reading 'comments')"

  /** `createComment` by `user` on the route's `postId`, as a transition of the store;
      `freshId` is the id the database generates for the comment. The comment record is
      created before the post is used, so a missing post still leaves the new comment behind. */
  function CreateCommentSpec(s: Snapshot, user: Id, postId: Id, comment: Option<string>, freshId: Id): (o: Outcome<Stored<Comment>>)
    requires freshId !in s.comments
    ensures !Truthy(comment) ==> o == Outcome(Next(Raise(EmptyComment, 400)), s)
    ensures Truthy(comment) ==>
      && o.after.comments == s.comments[freshId := Comment(user, postId, comment.value)]
      && o.after.userPosts == s.userPosts
    ensures Truthy(comment) && postId !in s.posts ==>
      o.reply == Next(Wrap(NullPostComments)) && o.after.posts == s.posts
    // the post's list gains the new id at its end, earlier entries in their order
    ensures Truthy(comment) && postId in s.posts ==>
      var before := s.posts[postId];
      && o.reply == Respond(201, Stored(freshId, Comment(user, postId, comment.value)))
      && o.after.posts.Keys == s.posts.Keys
      && (forall p :: p in s.posts && p != postId ==> o.after.posts[p] == s.posts[p])
      && o.after.posts[postId] == before.(comments := o.after.posts[postId].comments)
      && |o.after.posts[postId].comments| == |before.comments| + 1
      && o.after.posts[postId].comments[..|before.comments|] == before.comments
      && o.after.posts[postId].comments[|before.comments|] == freshId
    ensures o.reply.Respond? <==> Truthy(comment) && postId in s.posts
  {
    if !Truthy(comment) then Outcome(Next(Raise(EmptyComment, 400)), s)
    else
      var created := s.(comments := s.comments[freshId := Comment(user, postId, comment.value)]);
      if postId !in s.posts then Outcome(Next(Wrap(NullPostComments)), created)
      else
        var p := s.posts[postId];
        var q := p.(comments := p.comments + [freshId]);
        assert q.comments[..|p.comments|] == p.comments;
        Outcome(Respond(201, Stored(freshId, Comment(user, postId, comment.value))), created.(posts := s.posts[postId := q]))
  }

  /** `deleteComment`: the record goes, and with it nothing else; posts still list its id. */
  function DeleteCommentSpec(s: Snapshot, commentId: Id): (o: Outcome<Option<Stored<Comment>>>)
    ensures o.reply.Respond? && o.reply.status == 200
    ensures o.reply.payload.Some? <==> commentId in s.comments
    ensures o.reply.payload.Some? ==> o.reply.payload.value == Stored(commentId, s.comments[commentId])
    ensures commentId !in o.after.comments
    ensures forall c :: c in s.comments && c != commentId ==> c in o.after.comments && o.after.comments[c] == s.comments[c]
    ensures o.after.comments.Keys == s.comments.Keys - {commentId}
    ensures o.after.posts == s.posts && o.after.userPosts == s.userPosts
  {
    var deleted := if commentId in s.comments then Some(Stored(commentId, s.comments[commentId])) else None;
    Outcome(Respond(200, deleted), s.(comments := s.comments - {commentId}))
  }

  /** Creating a comment keeps every reference in the store resolving. */
  lemma CreateCommentKeepsIntegrity(s: Snapshot, user: Id, postId: Id, comment: Option<string>, freshId: Id)
    requires freshId !in s.comments && Integrity(s)
    ensures Integrity(CreateCommentSpec(s, user, postId, comment, freshId).after)
  {
  }

  /** Deleting a comment that a post lists leaves that post with a dangling id. */
  lemma DeleteCommentLeavesDanglingId(s: Snapshot, commentId: Id, postId: Id)
    requires postId in s.posts && commentId in s.posts[postId].comments
    ensures !CommentsResolve(DeleteCommentSpec(s, commentId).after)
    ensures commentId in DeleteCommentSpec(s, commentId).after.posts[postId].comments
  {
  }

  /** `createComment` run step by step against the database. */
  method CreateComment(db: Database, user: Id, postId: Id, comment: Option<string>, freshId: Id)
    returns (reply: Reply<Stored<Comment>>)
    requires freshId !in db.comments
    modifies db
    ensures Outcome(reply, db.Value()) == CreateCommentSpec(old(db.Value()), user, postId, comment, freshId)
  {
    if !Truthy(comment) {
      return Next(Raise(EmptyComment, 400));
    }
    var post := db.FindPost(postId);
    var newComment := db.InsertComment(freshId, Comment(user, postId, comment.value));
    if post.None? {
      return Next(Wrap(NullPostComments));
    }
    db.PushPostComment(postId, newComment.id);
    reply := Respond(201, newComment);
  }

  /** `deleteComment` run against the database. */
  method DeleteComment(db: Database, commentId: Id) returns (reply: Reply<Option<Stored<Comment>>>)
    modifies db
    ensures Outcome(reply, db.Value()) == DeleteCommentSpec(old(db.Value()), commentId)
  {
    var deleted := db.DeleteComment(commentId);
    reply := Respond(200, deleted);
  }
}
