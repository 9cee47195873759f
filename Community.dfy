/**
 * The community endpoints (backend/community/views.py): posts, their
 * comments and likes. The three tables are fields of a store the views
 * change; deleting a post deletes its comments and likes with it, as the
 * foreign keys' `on_delete=CASCADE` says (backend/community/models.py).
 */
module Community {

  datatype PostRow = PostRow(author: nat, content: string)

  datatype CommentRow = CommentRow(post: nat, author: nat, content: string)

  /** A like: the post and the user, unique together. */
  datatype LikeRow = LikeRow(post: nat, user: nat)

  /**
   * `like`: `get_or_create` followed by a delete when the like existed.
   * With no like it creates one and answers `liked` with 201; with one it
   * removes it and answers not `liked` with 200.
   */
  function ToggleLike(likes: set<LikeRow>, post: nat, user: nat): (set<LikeRow>, bool, int)
  {
    if LikeRow(post, user) in likes then (likes - {LikeRow(post, user)}, false, 200)
    else (likes + {LikeRow(post, user)}, true, 201)
  }

  /** The users who like a post. */
  function LikersOf(likes: set<LikeRow>, post: nat): (r: set<nat>)
    ensures forall u :: u in r <==> LikeRow(post, u) in likes
  {
    set l | l in likes && l.post == post :: l.user
  }

  /**
   * A toggle reports `liked` exactly when the user likes the post
   * afterwards, moves the post's like count by one, and changes no other
   * like.
   */
  lemma ToggleLikeEffect(likes: set<LikeRow>, post: nat, user: nat)
    ensures var (after, liked, status) := ToggleLike(likes, post, user);
      && (liked <==> LikeRow(post, user) in after)
      && (liked <==> LikeRow(post, user) !in likes)
      && (status == 201 <==> liked)
      && |LikersOf(after, post)| == (if liked then |LikersOf(likes, post)| + 1 else |LikersOf(likes, post)| - 1)
      && forall l :: l != LikeRow(post, user) ==> (l in after <==> l in likes)
  {
    var (after, liked, _) := ToggleLike(likes, post, user);
    if liked {
      assert LikersOf(after, post) == LikersOf(likes, post) + {user};
    } else {
      assert LikersOf(likes, post) == LikersOf(after, post) + {user};
    }
  }

  /** Two toggles by the same user restore the likes. */
  lemma ToggleTwiceRestores(likes: set<LikeRow>, post: nat, user: nat)
    ensures ToggleLike(ToggleLike(likes, post, user).0, post, user).0 == likes
  {
  }

  /** Only the author may edit a post or a comment. */
  predicate MayEdit(author: nat, user: nat)
  {
    author == user
  }

  /** The author or a staff member may delete a post or a comment. */
  predicate MayDelete(author: nat, user: nat, isStaff: bool)
  {
    author == user || isStaff
  }

  /** Staff may delete what they may not edit; an author may do both. */
  lemma EditImpliesDelete(author: nat, user: nat, isStaff: bool)
    ensures MayEdit(author, user) ==> MayDelete(author, user, isStaff)
    ensures !MayEdit(author, user) ==> (MayDelete(author, user, isStaff) <==> isStaff)
  {
  }

  /** The posts, comments and likes. */
  class CommunityStore {
    var posts: map<nat, PostRow>
    var comments: map<nat, CommentRow>
    var likes: set<LikeRow>

    /** Every comment and like belongs to an existing post. */
    predicate Valid()
      reads this
    {
      && (forall c :: c in comments ==> comments[c].post in posts)
      && (forall l :: l in likes ==> l.post in posts)
    }

    constructor ()
      ensures Valid() && posts == map[] && comments == map[] && likes == {}
    {
      posts := map[];
      comments := map[];
      likes := {};
    }

    /** `PostViewSet.perform_create`: the post's author is the requesting user. */
    method CreatePost(id: nat, user: nat, content: string)
      requires Valid() && id !in posts
      modifies this`posts
      ensures Valid() && posts == old(posts)[id := PostRow(user, content)]
    {
      posts := posts[id := PostRow(user, content)];
    }

    /** `PostViewSet.perform_update`: 404 for a missing post, 403 for anyone but its author; otherwise 200. */
    method UpdatePost(id: nat, user: nat, content: string) returns (status: int)
      requires Valid()
      modifies this`posts
      ensures Valid()
      ensures id !in old(posts) ==> status == 404 && posts == old(posts)
      ensures id in old(posts) && !MayEdit(old(posts)[id].author, user) ==> status == 403 && posts == old(posts)
      ensures id in old(posts) && MayEdit(old(posts)[id].author, user) ==>
        status == 200 && posts == old(posts)[id := PostRow(user, content)]
    {
      if id !in posts {
        return 404;
      }
      if !MayEdit(posts[id].author, user) {
        return 403;
      }
      posts := posts[id := posts[id].(content := content)];
      status := 200;
    }

    /**
     * `PostViewSet.perform_destroy`: 404 for a missing post, 403 unless the
     * user is its author or staff; otherwise 204, and the post goes with
     * all its comments and likes.
     */
    method DeletePost(id: nat, user: nat, isStaff: bool) returns (status: int)
      requires Valid()
      modifies this`posts, this`comments, this`likes
      ensures Valid()
      ensures id !in old(posts) ==> status == 404 && unchanged(this)
      ensures id in old(posts) && !MayDelete(old(posts)[id].author, user, isStaff) ==> status == 403 && unchanged(this)
      ensures id in old(posts) && MayDelete(old(posts)[id].author, user, isStaff) ==>
        && status == 204 && posts == old(posts) - {id}
        && (forall c :: c in comments <==> c in old(comments) && old(comments)[c].post != id)
        && (forall c :: c in comments ==> comments[c] == old(comments)[c])
        && (forall l :: l in likes <==> l in old(likes) && l.post != id)
    {
      if id !in posts {
        return 404;
      }
      if !MayDelete(posts[id].author, user, isStaff) {
        return 403;
      }
      posts := posts - {id};
      comments := map c | c in comments && comments[c].post != id :: comments[c];
      likes := set l | l in likes && l.post != id;
      status := 204;
    }

    /** `like` on an existing post toggles the user's like as `ToggleLike` says; 404 for a missing post. */
    method Like(id: nat, user: nat) returns (status: int, liked: bool)
      requires Valid()
      modifies this`likes
      ensures Valid()
      ensures id !in posts ==> status == 404 && likes == old(likes)
      ensures id in posts ==> (likes, liked, status) == ToggleLike(old(likes), id, user)
    {
      if id !in posts {
        return 404, false;
      }
      var toggled := ToggleLike(likes, id, user);
      likes, liked, status := toggled.0, toggled.1, toggled.2;
    }

    /** `CommentViewSet.perform_create`: a comment on an existing post, by the requesting user. */
    method CreateComment(id: nat, post: nat, user: nat, content: string)
      requires Valid() && id !in comments && post in posts
      modifies this`comments
      ensures Valid() && comments == old(comments)[id := CommentRow(post, user, content)]
    {
      comments := comments[id := CommentRow(post, user, content)];
    }

    /** `CommentViewSet.perform_update`: 404 for a missing comment, 403 for anyone but its author; otherwise 200. */
    method UpdateComment(id: nat, user: nat, content: string) returns (status: int)
      requires Valid()
      modifies this`comments
      ensures Valid()
      ensures id !in old(comments) ==> status == 404 && comments == old(comments)
      ensures id in old(comments) && !MayEdit(old(comments)[id].author, user) ==> status == 403 && comments == old(comments)
      ensures id in old(comments) && MayEdit(old(comments)[id].author, user) ==>
        status == 200 && comments == old(comments)[id := old(comments)[id].(content := content)]
    {
      if id !in comments {
        return 404;
      }
      if !MayEdit(comments[id].author, user) {
        return 403;
      }
      comments := comments[id := comments[id].(content := content)];
      status := 200;
    }

    /** `CommentViewSet.perform_destroy`: 404, 403 unless author or staff; otherwise that comment alone goes, 204. */
    method DeleteComment(id: nat, user: nat, isStaff: bool) returns (status: int)
      requires Valid()
      modifies this`comments
      ensures Valid()
      ensures id !in old(comments) ==> status == 404 && comments == old(comments)
      ensures id in old(comments) && !MayDelete(old(comments)[id].author, user, isStaff) ==> status == 403 && comments == old(comments)
      ensures id in old(comments) && MayDelete(old(comments)[id].author, user, isStaff) ==>
        status == 204 && comments == old(comments) - {id}
    {
      if id !in comments {
        return 404;
      }
      if !MayDelete(comments[id].author, user, isStaff) {
        return 403;
      }
      comments := comments - {id};
      status := 204;
    }
  }
}
