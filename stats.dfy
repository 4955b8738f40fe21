/** Per-user image statistics (`get_user_image_stats`): how many of a user's
    posts were judged real and how many fake. */
module Stats {
  import opened Wrappers
  import opened Records
  import opened Counting

  datatype ImageStats = ImageStats(realImages: nat, fakeImages: nat)

  predicate OwnedBy(userId: string, post: Item<PostBody>) {
    post.body.userId == Some(userId)
  }

  /** The scan's `FilterExpression="user_id = :user_id"`: the posts whose
      `user_id` equals the argument, in scan order. */
  function UserPosts(scan: seq<Item<PostBody>>, userId: string): (r: seq<Item<PostBody>>)
    ensures |r| <= |scan|
    ensures forall p :: p in r <==> p in scan && OwnedBy(userId, p)
    ensures forall p :: multiset(r)[p] == (if OwnedBy(userId, p) then multiset(scan)[p] else 0)
  {
    if scan == [] then []
    else
      var n := |scan| - 1;
      assert scan == scan[..n] + [scan[n]];
      UserPosts(scan[..n], userId) + IfOwned(scan[n], userId)
  }

  /** `[post]` if it belongs to the user, otherwise nothing. */
  function IfOwned(post: Item<PostBody>, userId: string): seq<Item<PostBody>> {
    if OwnedBy(userId, post) then [post] else []
  }

  /** `post["status"] == True` */
  predicate IsRealPost(post: Item<PostBody>) {
    post.body.status == Bool(true)
  }

  /** `post["status"] == False` */
  predicate IsFakePost(post: Item<PostBody>) {
    post.body.status == Bool(false)
  }

  /** `get_user_image_stats`: a post of the user without a `status` key
      raises `KeyError`, which becomes a 500 response; otherwise the two
      generator sums count the posts whose status is True and False. */
  function GetUserImageStats(scan: seq<Item<PostBody>>, userId: string): (r: Result<ImageStats, Error>)
    ensures r.Failure? <==> exists p :: p in scan && OwnedBy(userId, p) && p.body.status.Absent?
    ensures r.Failure? ==> r.error == InternalError
    ensures r.Success? ==>
      var mine := UserPosts(scan, userId);
      && r.value.realImages == |Indices(mine, IsRealPost)|
      && r.value.fakeImages == |Indices(mine, IsFakePost)|
      && r.value.realImages + r.value.fakeImages <= |mine|
  {
    var mine := UserPosts(scan, userId);
    if exists i :: 0 <= i < |mine| && mine[i].body.status.Absent? then
      Failure(InternalError)
    else
      CountIsIndexCount(mine, IsRealPost);
      CountIsIndexCount(mine, IsFakePost);
      CountDisjoint(mine, IsRealPost, IsFakePost);
      Success(ImageStats(Count(mine, IsRealPost), Count(mine, IsFakePost)))
  }

  /** Posts of other users never change a user's statistics. */
  lemma {:induction false} OtherUsersIgnored(scan: seq<Item<PostBody>>, userId: string, other: Item<PostBody>)
    requires !OwnedBy(userId, other)
    ensures GetUserImageStats(scan + [other], userId) == GetUserImageStats(scan, userId)
  {
    assert (scan + [other])[..|scan|] == scan;
    assert UserPosts(scan + [other], userId) == UserPosts(scan, userId);
  }

  /** A new post of the user with status True adds one real image and no
      fake one; one with status False the other way round. */
  lemma {:induction false} NewPostCounted(scan: seq<Item<PostBody>>, userId: string, post: Item<PostBody>, b: bool)
    requires OwnedBy(userId, post) && post.body.status == Bool(b)
    requires GetUserImageStats(scan, userId).Success?
    ensures var before := GetUserImageStats(scan, userId).value;
      GetUserImageStats(scan + [post], userId)
        == Success(ImageStats(before.realImages + (if b then 1 else 0), before.fakeImages + (if b then 0 else 1)))
  {
    var mine := UserPosts(scan, userId);
    StatsOf(scan, userId);
    StatsOfAppendOwned(scan, userId, post);
    CountAppend(mine, post, IsRealPost);
    CountAppend(mine, post, IsFakePost);
  }

  /** After the user's own post, with a status, is appended, the counts are
      those of the user's posts followed by it. */
  lemma StatsOfAppendOwned(scan: seq<Item<PostBody>>, userId: string, post: Item<PostBody>)
    requires OwnedBy(userId, post) && !post.body.status.Absent?
    requires GetUserImageStats(scan, userId).Success?
    ensures var mine' := UserPosts(scan, userId) + [post];
      GetUserImageStats(scan + [post], userId) == Success(ImageStats(Count(mine', IsRealPost), Count(mine', IsFakePost)))
  {
    var mine := UserPosts(scan, userId);
    UserPostsAppendOwned(scan, userId, post);
    StatsOf(scan, userId);
    NoMissingStatusAppend(mine, post);
    StatsOf(scan + [post], userId);
  }

  lemma NoMissingStatusAppend(mine: seq<Item<PostBody>>, post: Item<PostBody>)
    requires forall i :: 0 <= i < |mine| ==> !mine[i].body.status.Absent?
    requires !post.body.status.Absent?
    ensures forall i :: 0 <= i < |mine + [post]| ==> !(mine + [post])[i].body.status.Absent?
  {
  }

  /** A successful result holds the two counts of the user's posts, and a
      scan succeeds when none of the user's posts lacks a status. */
  lemma StatsOf(scan: seq<Item<PostBody>>, userId: string)
    ensures var mine := UserPosts(scan, userId);
      (forall i :: 0 <= i < |mine| ==> !mine[i].body.status.Absent?) ==>
        GetUserImageStats(scan, userId) == Success(ImageStats(Count(mine, IsRealPost), Count(mine, IsFakePost)))
    ensures GetUserImageStats(scan, userId).Success? ==>
      forall i :: 0 <= i < |UserPosts(scan, userId)| ==> !UserPosts(scan, userId)[i].body.status.Absent?
  {
  }

  /** The user's own new post is appended to the user's posts. */
  lemma UserPostsAppendOwned(scan: seq<Item<PostBody>>, userId: string, post: Item<PostBody>)
    requires OwnedBy(userId, post)
    ensures UserPosts(scan + [post], userId) == UserPosts(scan, userId) + [post]
  {
    assert (scan + [post])[..|scan|] == scan;
  }
}
