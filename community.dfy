/**
 * The community tables and handlers: likes, unique per (post, user), toggled
 * by `like_post`; comments attached by `post_detail`.
 */
module Community {
  import opened Keys
  import opened Wrappers

  datatype Like = Like(post: PostId, user: UserId)

  datatype Comment = Comment(post: PostId, user: UserId, content: string)

  /** `unique_like_per_user_per_post`: no two rows hold the same (post, user). */
  predicate LikesUnique(likes: seq<Like>)
  {
    forall i, j | 0 <= i < j < |likes| :: likes[i] != likes[j]
  }

  /** The (post, user) pairs the Like table holds, forgetting row order. */
  function LikedPairs(likes: seq<Like>): set<Like>
  {
    set l | l in likes
  }

  /** The position of the row holding `l`: the first, and under uniqueness the only one. */
  function IndexOf(likes: seq<Like>, l: Like): (i: nat)
    requires l in likes
    ensures i < |likes| && likes[i] == l && l !in likes[..i]
  {
    if likes[0] == l then 0 else 1 + IndexOf(likes[1..], l)
  }

  /** The Like table without its row at `i`. */
  function RemoveAt(likes: seq<Like>, i: nat): (r: seq<Like>)
    requires i < |likes|
    ensures |r| == |likes| - 1
    ensures forall k | 0 <= k < |r| :: r[k] == if k < i then likes[k] else likes[k + 1]
  {
    likes[..i] + likes[i + 1..]
  }

  /**
   * like_post on the Like table: the pair's row is appended if absent;
   * if present, exactly one row holding it is deleted and every other row stays.
   */
  function Toggle(likes: seq<Like>, l: Like): (r: seq<Like>)
    ensures l !in likes ==> r == likes + [l]
    ensures l in likes ==> multiset(r) == multiset(likes) - multiset{l}
  {
    if l in likes then
      var i := IndexOf(likes, l);
      assert likes == likes[..i] + [l] + likes[i + 1..];
      RemoveAt(likes, i)
    else likes + [l]
  }

  /** `post.likes.count()`: the number of rows on the post, zero exactly when no row is. */
  function LikeCount(likes: seq<Like>, post: PostId): (c: nat)
    ensures c <= |likes|
    ensures c == 0 <==> forall i | 0 <= i < |likes| :: likes[i].post != post
  {
    if |likes| == 0 then 0
    else (if likes[0].post == post then 1 else 0) + LikeCount(likes[1..], post)
  }

  /** The users who like `post`. */
  function Likers(likes: seq<Like>, post: PostId): set<UserId>
  {
    set l | l in likes && l.post == post :: l.user
  }

  // ---------------------------------------------------------------- the toggle

  lemma RemoveAtKeepsUnique(likes: seq<Like>, i: nat)
    requires LikesUnique(likes) && i < |likes|
    ensures LikesUnique(RemoveAt(likes, i))
  {
  }

  /** Toggling keeps the table free of duplicate pairs. */
  lemma ToggleKeepsUnique(likes: seq<Like>, l: Like)
    requires LikesUnique(likes)
    ensures LikesUnique(Toggle(likes, l))
  {
  }

  /** Pairs other than `l` are not touched (this needs no uniqueness). */
  lemma ToggleLeavesOthers(likes: seq<Like>, l: Like, m: Like)
    requires m != l
    ensures m in Toggle(likes, l) <==> m in likes
  {
  }

  /**
   * Toggling flips exactly the pair `l`: it is removed if it was liked and
   * added if not, and every other pair keeps its state.
   */
  lemma ToggleFlipsPair(likes: seq<Like>, l: Like)
    requires LikesUnique(likes)
    ensures LikedPairs(Toggle(likes, l)) ==
      if l in likes then LikedPairs(likes) - {l} else LikedPairs(likes) + {l}
  {
  }

  /** A like that did not exist is undone exactly by a second toggle: the table is back row for row. */
  lemma ToggleTwiceRestoresRows(likes: seq<Like>, l: Like)
    requires l !in likes
    ensures Toggle(Toggle(likes, l), l) == likes
  {
  }

  /** Toggling twice restores the set of liked pairs, whichever state the pair started in. */
  lemma ToggleTwiceRestoresPairs(likes: seq<Like>, l: Like)
    requires LikesUnique(likes)
    ensures LikedPairs(Toggle(Toggle(likes, l), l)) == LikedPairs(likes)
  {
  }

  // ---------------------------------------------------------- counting likes

  lemma TailUnique(likes: seq<Like>)
    requires LikesUnique(likes) && |likes| > 0
    ensures LikesUnique(likes[1..])
    ensures likes[0] !in likes[1..]
  {
  }

  /** The likers of a table split into its first row's user, if that row is on the post, and the rest's likers. */
  lemma LikersCons(likes: seq<Like>, post: PostId)
    requires |likes| > 0
    ensures Likers(likes, post) ==
      (if likes[0].post == post then {likes[0].user} else {}) + Likers(likes[1..], post)
  {
  }

  /** Under the uniqueness constraint, a post's like count is the number of distinct users who like it. */
  lemma {:induction false} LikeCountIsLikers(likes: seq<Like>, post: PostId)
    requires LikesUnique(likes)
    ensures LikeCount(likes, post) == |Likers(likes, post)|
  {
    if |likes| > 0 {
      var x, rest := likes[0], likes[1..];
      TailUnique(likes);
      LikeCountIsLikers(rest, post);
      LikersCons(likes, post);
      assert x.post == post ==> x.user !in Likers(rest, post);
    }
  }

  lemma {:induction false} LikeCountAppend(likes: seq<Like>, l: Like, post: PostId)
    ensures LikeCount(likes + [l], post) == LikeCount(likes, post) + (if l.post == post then 1 else 0)
  {
    if |likes| > 0 {
      assert (likes + [l])[1..] == likes[1..] + [l];
      LikeCountAppend(likes[1..], l, post);
    }
  }

  lemma {:induction false} LikeCountConcat(a: seq<Like>, b: seq<Like>, post: PostId)
    ensures LikeCount(a + b, post) == LikeCount(a, post) + LikeCount(b, post)
  {
    if |a| == 0 {
      assert a + b == b;
    } else {
      assert (a + b)[1..] == a[1..] + b;
      LikeCountConcat(a[1..], b, post);
    }
  }

  /** A toggle moves the post's like count by one, up or down, and no other post's count. */
  lemma ToggleLikeCount(likes: seq<Like>, l: Like, post: PostId)
    ensures LikeCount(Toggle(likes, l), post) ==
      LikeCount(likes, post) + (if l.post != post then 0 else if l in likes then -1 else 1)
  {
    if l in likes {
      var i := IndexOf(likes, l);
      assert likes == likes[..i] + [l] + likes[i + 1..];
      LikeCountConcat(likes[..i] + [l], likes[i + 1..], post);
      LikeCountConcat(likes[..i], [l], post);
      LikeCountConcat(likes[..i], likes[i + 1..], post);
      assert LikeCount([l], post) == (if l.post == post then 1 else 0) by {
        assert [l][1..] == [];
      }
    } else {
      LikeCountAppend(likes, l, post);
    }
  }

  // ------------------------------------------------------------------ handlers

  datatype LikeResponse = LikeNotFound | BackToPost

  datatype DetailResponse =
    | DetailNotFound                              // get_object_or_404
    | DetailFailed                                // an exception escapes the view: 500
    | CommentAdded(comment: Comment)              // redirect back to the post
    | Rendered(userHasLiked: bool, likeCount: nat)

  /**
   * post_detail as written: after the post is found, its comments are ordered
   * by `created_at`, a field Comment does not have (it has `created_on`). The
   * queryset refuses the unknown field where it is built, before the like
   * lookup, the comment form or the page, so every found post ends in an
   * error and nothing is written; only the 404 is answered as intended.
   */
  function PostDetailAsCoded(posts: set<PostId>, post: PostId): (r: DetailResponse)
    ensures r.DetailNotFound? <==> post !in posts
    ensures r.DetailFailed? <==> post in posts
  {
    if post !in posts then DetailNotFound else DetailFailed
  }

  /** The community tables. */
  class CommunityDb {
    var posts: set<PostId>
    var likes: seq<Like>
    var comments: seq<Comment>

    /** Likes are unique per pair; likes and comments point at existing posts (their foreign keys). */
    ghost predicate Valid()
      reads this
    {
      && LikesUnique(likes)
      && (forall i | 0 <= i < |likes| :: likes[i].post in posts)
      && (forall i | 0 <= i < |comments| :: comments[i].post in posts)
    }

    constructor (posts: set<PostId>)
      ensures Valid()
      ensures this.posts == posts && likes == [] && comments == []
    {
      this.posts := posts;
      likes := [];
      comments := [];
    }

    /** `Like.objects.get_or_create(post=post, user=user)`: the existing row, or a new one appended. */
    method GetOrCreateLike(l: Like) returns (i: nat, created: bool)
      requires Valid() && l.post in posts
      modifies this
      ensures Valid()
      ensures created <==> l !in old(likes)
      ensures likes == if created then old(likes) + [l] else old(likes)
      ensures i < |likes| && likes[i] == l
      ensures posts == old(posts) && comments == old(comments)
    {
      if l in likes {
        i := IndexOf(likes, l);
        created := false;
      } else {
        ToggleKeepsUnique(likes, l);
        likes := likes + [l];
        i := |likes| - 1;
        created := true;
      }
    }

    /** `like.delete()` for the row at `i`. */
    method DeleteLike(i: nat)
      requires Valid() && i < |likes|
      modifies this
      ensures Valid()
      ensures likes == RemoveAt(old(likes), i)
      ensures posts == old(posts) && comments == old(comments)
    {
      RemoveAtKeepsUnique(likes, i);
      likes := RemoveAt(likes, i);
    }

    /** like_post: 404 for a missing post; otherwise the user's like is created, or deleted if it existed. */
    method LikePost(post: PostId, user: UserId) returns (r: LikeResponse)
      requires Valid()
      modifies this
      ensures Valid()
      ensures r.LikeNotFound? <==> post !in old(posts)
      ensures likes == if post in old(posts) then Toggle(old(likes), Like(post, user)) else old(likes)
      ensures posts == old(posts) && comments == old(comments)
    {
      if post !in posts {
        return LikeNotFound;
      }
      var i, created := GetOrCreateLike(Like(post, user));
      if !created {
        DeleteLike(i);
      }
      r := BackToPost;
    }

    /**
     * post_detail as the view intends it, with the comments ordered by their
     * own `created_on`: for an authenticated POST whose comment form is valid
     * (`content` is the cleaned content, None when the form is invalid), a
     * comment on this post by this user is saved and the user redirected;
     * otherwise the page shows whether the user likes the post and its like
     * count.
     */
    method PostDetail(post: PostId, user: Option<UserId>, isPost: bool, content: Option<string>)
      returns (r: DetailResponse)
      requires Valid()
      modifies this
      ensures Valid()
      ensures r.DetailNotFound? <==> post !in old(posts)
      ensures r.CommentAdded? <==> post in old(posts) && isPost && user.Some? && content.Some?
      ensures r.CommentAdded? ==>
        r.comment == Comment(post, user.value, content.value) && comments == old(comments) + [r.comment]
      ensures !r.CommentAdded? ==> comments == old(comments)
      ensures r.Rendered? <==> post in old(posts) && !(isPost && user.Some? && content.Some?)
      ensures r.Rendered? ==>
        && (r.userHasLiked <==> user.Some? && Like(post, user.value) in likes)
        && r.likeCount == LikeCount(likes, post)
      ensures posts == old(posts) && likes == old(likes)
    {
      if post !in posts {
        return DetailNotFound;
      }
      var userHasLiked := false;
      if user.Some? {
        userHasLiked := Like(post, user.value) in likes;
      }
      if isPost && user.Some? {
        if content.Some? {
          var comment := Comment(post, user.value, content.value);
          comments := comments + [comment];
          return CommentAdded(comment);
        }
      }
      r := Rendered(userHasLiked, LikeCount(likes, post));
    }
  }
}
