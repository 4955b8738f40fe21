/** Feed assembly (`get_all_posts`): join every post with its author, drop
    posts whose author does not resolve, and order the result newest first. */
module Feed {
  import opened Wrappers
  import opened Records
  import opened StableSort

  /** One feed entry: the post with its author's public attributes. The
      author's password is not a field, so no view can carry it. */
  datatype PostView = PostView(
    id: Option<string>,
    userId: string,
    username: Option<string>,
    email: Option<string>,
    userProfileImageUrl: Option<string>,
    content: Option<string>,
    postImageUrl: Option<string>,
    status: Status,
    timestamp: string)

  /** The timestamp a post without one is shown with. */
  const EpochTimestamp: string := "1970-01-01T00:00:00"

  /** `{user["id"]: user for user in users}`: a user without an `id` raises
      `KeyError`; when two users share an id the later one wins. */
  function UserIndex(users: seq<Item<UserBody>>): (r: Option<map<string, Item<UserBody>>>)
    ensures r.Some? <==> forall i :: 0 <= i < |users| ==> users[i].id.Some?
    ensures r.Some? ==> forall k :: k in r.value <==> exists i :: 0 <= i < |users| && users[i].id == Some(k)
  {
    if users == [] then Some(map[])
    else
      var u := users[|users| - 1];
      match UserIndex(users[..|users| - 1])
      case None => None
      case Some(m) => if u.id.None? then None else Some(m[u.id.value := u])
  }

  /** The user an id maps to is the last scanned user with that id. */
  lemma {:induction false} UserIndexLastWins(users: seq<Item<UserBody>>, i: int)
    requires UserIndex(users).Some?
    requires 0 <= i < |users|
    requires forall j :: i < j < |users| ==> users[j].id != users[i].id
    ensures users[i].id.value in UserIndex(users).value
    ensures UserIndex(users).value[users[i].id.value] == users[i]
  {
    var n := |users| - 1;
    if i < n {
      var prefix := users[..n];
      assert forall j :: i < j < |prefix| ==> prefix[j] == users[j];
      UserIndexLastWins(prefix, i);
    }
  }

  /** On a scan of the registrations table, whose ids are its keys and
      distinct, the index never fails and is the table itself. */
  lemma UserIndexOfTableScan(scan: seq<Item<UserBody>>, t: map<string, Item<UserBody>>)
    requires Keyed(t) && IsScanOf(scan, t)
    ensures UserIndex(scan) == Some(t)
  {
    var index := UserIndex(scan);
    assert index.Some?;
    var m := index.value;
    ScanCoversTable(scan, t);
    assert forall k :: k in m <==> k in t;
    forall k | k in t ensures m[k] == t[k] {
      var i :| 0 <= i < |scan| && scan[i].id == Some(k);
      UserIndexLastWins(scan, i);
    }
    assert m == t;
  }

  /** A scan of a table mentions every key of the table. */
  lemma ScanCoversTable<A>(scan: seq<Item<A>>, t: map<string, Item<A>>)
    requires IsScanOf(scan, t)
    ensures forall k :: k in t <==> exists i :: 0 <= i < |scan| && scan[i].id == Some(k)
  {
    var ids := set i | 0 <= i < |scan| :: scan[i].id.value;
    IndexImageSize(scan);
    assert ids <= t.Keys;
    SubsetOfSameSize(ids, t.Keys);
    forall k | k in t ensures exists i :: 0 <= i < |scan| && scan[i].id == Some(k) {
      assert k in ids;
      var i :| 0 <= i < |scan| && scan[i].id.value == k;
      assert scan[i].id == Some(k);
    }
  }

  lemma SubsetOfSameSize<T>(a: set<T>, b: set<T>)
    requires a <= b && |a| == |b|
    ensures a == b
  {
    assert |b - a| == |b| - |a|;
  }

  /** Distinct ids: the set of ids has one element per scanned item. */
  lemma {:induction false} IndexImageSize<A>(scan: seq<Item<A>>)
    requires forall i :: 0 <= i < |scan| ==> scan[i].id.Some?
    requires forall i, j :: 0 <= i < j < |scan| ==> scan[i].id != scan[j].id
    ensures |set i | 0 <= i < |scan| :: scan[i].id.value| == |scan|
  {
    if scan != [] {
      var n := |scan| - 1;
      var prefix := scan[..n];
      IndexImageSize(prefix);
      var before := set i | 0 <= i < n :: prefix[i].id.value;
      var all := set i | 0 <= i < |scan| :: scan[i].id.value;
      assert all == before + {scan[n].id.value};
      assert scan[n].id.value !in before;
    }
  }

  /** The post names a user that the index knows. */
  predicate Resolves(post: Item<PostBody>, index: map<string, Item<UserBody>>) {
    post.body.userId.Some? && post.body.userId.value in index
  }

  /** The view of a resolved post. */
  function ViewOf(post: Item<PostBody>, index: map<string, Item<UserBody>>): (v: PostView)
    requires Resolves(post, index)
    // the author is the indexed user the post names
    ensures v.userId == post.body.userId.value && v.userId in index
    ensures var author := index[v.userId].body;
      v.username == author.username && v.email == author.email && v.userProfileImageUrl == author.profileImageUrl
    // the post's own id, content and image URL are carried over
    ensures v.id == post.id && v.content == post.body.content && v.postImageUrl == post.body.imageUrl
    // a missing status stays missing; a missing timestamp shows as the epoch
    ensures v.status == post.body.status
    ensures post.timestamp.Some? ==> v.timestamp == post.timestamp.value
    ensures post.timestamp.None? ==> v.timestamp == EpochTimestamp
  {
    var uid := post.body.userId.value;
    var user := index[uid];
    PostView(post.id, uid, user.body.username, user.body.email, user.body.profileImageUrl,
             post.body.content, post.body.imageUrl, post.body.status,
             post.timestamp.GetOr(EpochTimestamp))
  }

  /** The views of the resolved posts, in scan order. */
  function Join(posts: seq<Item<PostBody>>, index: map<string, Item<UserBody>>): (r: seq<PostView>)
    ensures |r| <= |posts|
    ensures forall i :: 0 <= i < |r| ==> r[i].userId in index
  {
    if posts == [] then []
    else
      var last := posts[|posts| - 1];
      Join(posts[..|posts| - 1], index) + (if Resolves(last, index) then [ViewOf(last, index)] else [])
  }

  /** The `for post in posts` loop that appends one view per resolved post. */
  method JoinPosts(posts: seq<Item<PostBody>>, index: map<string, Item<UserBody>>) returns (joined: seq<PostView>)
    ensures joined == Join(posts, index)
  {
    joined := [];
    var i := 0;
    while i < |posts|
      invariant 0 <= i <= |posts|
      invariant joined == Join(posts[..i], index)
    {
      var post := posts[i];
      assert posts[..i + 1][..i] == posts[..i];
      if Resolves(post, index) {
        joined := joined + [ViewOf(post, index)];
      }
      i := i + 1;
    }
    assert posts[..|posts|] == posts;
  }

  /** Every view comes from a resolved post. */
  lemma {:induction false} JoinSound(posts: seq<Item<PostBody>>, index: map<string, Item<UserBody>>, v: PostView)
    requires v in Join(posts, index)
    ensures exists i :: 0 <= i < |posts| && Resolves(posts[i], index) && v == ViewOf(posts[i], index)
  {
    var n := |posts| - 1;
    if v in Join(posts[..n], index) {
      JoinSound(posts[..n], index, v);
      var i :| 0 <= i < n && Resolves(posts[..n][i], index) && v == ViewOf(posts[..n][i], index);
      assert posts[..n][i] == posts[i];
    }
  }

  /** Every resolved post has its view in the join. */
  lemma {:induction false} JoinComplete(posts: seq<Item<PostBody>>, index: map<string, Item<UserBody>>, i: int)
    requires 0 <= i < |posts| && Resolves(posts[i], index)
    ensures ViewOf(posts[i], index) in Join(posts, index)
  {
    var n := |posts| - 1;
    if i < n {
      assert posts[..n][i] == posts[i];
      JoinComplete(posts[..n], index, i);
    }
  }

  /** The join has exactly one view per resolved post. */
  lemma {:induction false} JoinLength(posts: seq<Item<PostBody>>, index: map<string, Item<UserBody>>)
    ensures |Join(posts, index)| == |set i | 0 <= i < |posts| && Resolves(posts[i], index)|
  {
    if posts != [] {
      var n := |posts| - 1;
      JoinLength(posts[..n], index);
      var before := set i | 0 <= i < n && Resolves(posts[..n][i], index);
      var all := set i | 0 <= i < |posts| && Resolves(posts[i], index);
      forall i | 0 <= i < n ensures posts[..n][i] == posts[i] { }
      if Resolves(posts[n], index) {
        assert |Join(posts, index)| == |Join(posts[..n], index)| + 1;
        assert all == before + {n} && n !in before;
      } else {
        assert Join(posts, index) == Join(posts[..n], index);
        assert all == before;
      }
    }
  }

  /** Every view's timestamp parses. */
  predicate AllParse(views: seq<PostView>, parse: string -> Option<int>) {
    forall i :: 0 <= i < |views| ==> parse(views[i].timestamp).Some?
  }

  /** The sort key: the parsed timestamp (0 stands in for one that does not
      parse, which never reaches the sort). */
  function KeyOf(parse: string -> Option<int>): PostView -> int {
    (v: PostView) => parse(v.timestamp).GetOr(0)
  }

  /** Parsed timestamps never increase from left to right. */
  ghost predicate NewestFirst(views: seq<PostView>, parse: string -> Option<int>) {
    && AllParse(views, parse)
    && forall i, j :: 0 <= i < j < |views| ==> parse(views[j].timestamp).value <= parse(views[i].timestamp).value
  }

  /** Sorting views whose timestamps all parse puts them newest first and
      keeps the views of each timestamp in their order. */
  lemma SortNewestFirst(joined: seq<PostView>, parse: string -> Option<int>)
    requires AllParse(joined, parse)
    ensures var sorted := SortDesc(joined, KeyOf(parse));
      && multiset(sorted) == multiset(joined)
      && NewestFirst(sorted, parse)
      && forall k :: WithKey(sorted, KeyOf(parse), k) == WithKey(joined, KeyOf(parse), k)
  {
    var key := KeyOf(parse);
    var sorted := SortDesc(joined, key);
    forall i | 0 <= i < |sorted| ensures parse(sorted[i].timestamp).Some? {
      assert sorted[i] in multiset(joined);
    }
    forall i, j | 0 <= i < j < |sorted|
      ensures parse(sorted[j].timestamp).value <= parse(sorted[i].timestamp).value
    {
      assert key(sorted[j]) <= key(sorted[i]);
    }
    forall k {
      SortDescStable(joined, key, k);
    }
  }

  /** `get_all_posts`. The two scans are the store's answers in the store's
      order; `parse` is `datetime.fromisoformat`, with `None` for a string it
      rejects. */
  method GetAllPosts(postScan: seq<Item<PostBody>>, userScan: seq<Item<UserBody>>, parse: string -> Option<int>)
    returns (r: Result<seq<PostView>, Error>)
    ensures postScan == [] ==> r == Success([])
    ensures postScan != [] ==>
      (r.Success? <==> UserIndex(userScan).Some? && AllParse(Join(postScan, UserIndex(userScan).value), parse))
    ensures r.Failure? ==> r.error == InternalError
    ensures r.Success? && postScan != [] ==>
      var joined := Join(postScan, UserIndex(userScan).value);
      && multiset(r.value) == multiset(joined)
      && NewestFirst(r.value, parse)
      && forall k :: WithKey(r.value, KeyOf(parse), k) == WithKey(joined, KeyOf(parse), k)
  {
    if postScan == [] {
      return Success([]);
    }
    var index := UserIndex(userScan);
    if index.None? {
      return Failure(InternalError);
    }
    var joined := JoinPosts(postScan, index.value);
    // `sort` computes every key before comparing any two
    if exists i :: 0 <= i < |joined| && parse(joined[i].timestamp).None? {
      return Failure(InternalError);
    }
    var sorted := SortDesc(joined, KeyOf(parse));
    SortNewestFirst(joined, parse);
    r := Success(sorted);
  }
}
