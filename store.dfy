/** The document store the post and comment handlers work on: post records, the `posts` list of
    each user document, and comment records, all keyed by document id. Only the Mongoose calls
    the handlers make are modelled, each as a method that changes what it names and nothing else. */
module Store {
  import opened Js
  import opened Errors

  /** A document id (an ObjectId compared through its string form). */
  type Id = string

  /** The fields of a post document; `image` defaults to "". */
  datatype Post = Post(creator: Id, body: string, image: string, likes: seq<Id>, comments: seq<Id>)

  datatype Comment = Comment(creator: Id, postId: Id, comment: string)

  /** A document as Mongoose hands it back, and as `res.json` sends it: its `_id` and its fields. */
  datatype Stored<T> = Stored(id: Id, doc: T)

  /** The store's value: posts by id, each user's `posts` list by user id, comments by id. */
  datatype Snapshot = Snapshot(posts: map<Id, Post>, userPosts: map<Id, seq<Id>>, comments: map<Id, Comment>)

  /** What a handler replied and the store it left. */
  datatype Outcome<T> = Outcome(reply: Reply<T>, after: Snapshot)

  /** `$push: { posts: id }` on the user document `user`; an update of a missing document
      changes nothing. */
  function PushTo(lists: map<Id, seq<Id>>, user: Id, id: Id): (r: map<Id, seq<Id>>)
    ensures r.Keys == lists.Keys
    ensures user in lists ==> r[user] == lists[user] + [id]
    ensures forall u :: u in lists && u != user ==> r[u] == lists[u]
  {
    if user in lists then lists[user := lists[user] + [id]] else lists
  }

  /** Every id in a user's `posts` list names a stored post whose creator is that user. */
  predicate PostsOwned(s: Snapshot) {
    forall u, i :: u in s.userPosts && 0 <= i < |s.userPosts[u]| ==>
      s.userPosts[u][i] in s.posts && s.posts[s.userPosts[u][i]].creator == u
  }

  /** Every id in a post's `comments` list names a stored comment made on that post. */
  predicate CommentsResolve(s: Snapshot) {
    forall p, i :: p in s.posts && 0 <= i < |s.posts[p].comments| ==>
      s.posts[p].comments[i] in s.comments && s.comments[s.posts[p].comments[i]].postId == p
  }

  /** The references between documents all resolve. */
  predicate Integrity(s: Snapshot) {
    PostsOwned(s) && CommentsResolve(s)
  }

  class Database {
    var posts: map<Id, Post>
    var userPosts: map<Id, seq<Id>>
    var comments: map<Id, Comment>

    function Value(): Snapshot
      reads this
    {
      Snapshot(posts, userPosts, comments)
    }

    constructor (initial: Snapshot)
      ensures Value() == initial
    {
      posts := initial.posts;
      userPosts := initial.userPosts;
      comments := initial.comments;
    }

    /** `PostModel.findById(id)`: the post, or null. */
    method FindPost(id: Id) returns (post: Option<Stored<Post>>)
      ensures post.Some? <==> id in posts
      ensures post.Some? ==> post.value == Stored(id, posts[id])
    {
      post := if id in posts then Some(Stored(id, posts[id])) else None;
    }

    /** `PostModel.create(p)`, stored under the id the database generated; the created
        document is returned. */
    method InsertPost(id: Id, p: Post) returns (created: Stored<Post>)
      modifies this
      ensures created == Stored(id, p)
      ensures posts == old(posts)[id := p]
      ensures userPosts == old(userPosts) && comments == old(comments)
    {
      posts := posts[id := p];
      created := Stored(id, p);
    }

    /** `UserModel.findByIdAndUpdate(user, { $push: { posts: id } })` */
    method PushUserPost(user: Id, id: Id)
      modifies this
      ensures userPosts == PushTo(old(userPosts), user, id)
      ensures posts == old(posts) && comments == old(comments)
    {
      if user in userPosts {
        userPosts := userPosts[user := userPosts[user] + [id]];
      }
    }

    /** `PostModel.findByIdAndUpdate(id, { body }, { new: true })`. An undefined `body` is
        dropped from the update, so the document is returned as it is. */
    method SetBody(id: Id, body: Option<string>) returns (updated: Option<Stored<Post>>)
      modifies this
      ensures id in old(posts) ==>
        var p := old(posts)[id];
        updated == Some(Stored(id, p.(body := if body.Some? then body.value else p.body)))
        && posts == old(posts)[id := updated.value.doc]
      ensures id !in old(posts) ==> updated == None && posts == old(posts)
      ensures userPosts == old(userPosts) && comments == old(comments)
    {
      if id in posts {
        var p := posts[id];
        var q := if body.Some? then p.(body := body.value) else p;
        posts := posts[id := q];
        updated := Some(Stored(id, q));
      } else {
        updated := None;
      }
    }

    /** `CommentModel.create(c)`, stored under the id the database generated; the created
        document is returned. */
    method InsertComment(id: Id, c: Comment) returns (created: Stored<Comment>)
      modifies this
      ensures created == Stored(id, c)
      ensures comments == old(comments)[id := c]
      ensures posts == old(posts) && userPosts == old(userPosts)
    {
      comments := comments[id := c];
      created := Stored(id, c);
    }

    /** `post.comments.push(id); await post.save()` on a post that was found. */
    method PushPostComment(postId: Id, id: Id)
      requires postId in posts
      modifies this
      ensures posts == old(posts)[postId := old(posts)[postId].(comments := old(posts)[postId].comments + [id])]
      ensures userPosts == old(userPosts) && comments == old(comments)
    {
      var p := posts[postId];
      posts := posts[postId := p.(comments := p.comments + [id])];
    }

    /** `CommentModel.findByIdAndDelete(id)`: the deleted comment, or null. */
    method DeleteComment(id: Id) returns (deleted: Option<Stored<Comment>>)
      modifies this
      ensures deleted == if id in old(comments) then Some(Stored(id, old(comments)[id])) else None
      ensures comments == old(comments) - {id}
      ensures posts == old(posts) && userPosts == old(userPosts)
    {
      deleted := if id in comments then Some(Stored(id, comments[id])) else None;
      comments := comments - {id};
    }
  }
}
