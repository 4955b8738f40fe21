/** The gateway's write side: the three key-value tables, the blob store,
    and the two operations that write to them, `register` and `create_post`. */
module Store {
  import opened Wrappers
  import opened Records
  import opened Verdict
  import opened BlobKeys

  /** One key-value table, keyed by item `id` (upserts overwrite). */
  class Table<A> {
    var items: map<string, Item<A>>

    ghost predicate Valid()
      reads this
    {
      Keyed(items)
    }

    constructor ()
      ensures Valid() && items == map[]
    {
      items := map[];
    }

    /** `table.put_item(Item=item)`. */
    method PutItem(item: Item<A>)
      requires Valid() && HasId(item)
      modifies this
      ensures Valid()
      ensures items == old(items)[item.id.value := item]
    {
      items := items[item.id.value := item];
    }

    /** `store_in_dynamodb(table, data)`: fill in a missing or empty `id`
        with `freshId` (the `uuid4()` string) and a missing `timestamp` with
        `now` (the `utcnow().isoformat()` string), write the item, and return
        it as written. */
    method StoreItem(data: Item<A>, freshId: string, now: string) returns (stored: Item<A>)
      requires Valid() && freshId != ""
      modifies this
      ensures Valid()
      ensures stored == Normalize(data, freshId, now)
      ensures items == old(items)[stored.id.value := stored]
    {
      stored := data;
      if stored.id.None? || stored.id.value == "" {
        stored := stored.(id := Some(freshId));
      }
      if stored.timestamp.None? {
        stored := stored.(timestamp := Some(now));
      }
      PutItem(stored);
    }
  }

  /** One object upload: the bucket and the key it went to. */
  datatype Blob = Blob(bucket: string, key: string)

  /** The blob store, as the log of every upload in order. */
  class BlobStore {
    var uploads: seq<Blob>

    constructor ()
      ensures uploads == []
    {
      uploads := [];
    }

    /** `upload_to_s3(file, bucket, key)`: upload and return the public URL. */
    method UploadFile(bucket: string, key: string) returns (url: string)
      modifies this
      ensures uploads == old(uploads) + [Blob(bucket, key)]
      ensures url == ObjectUrl(bucket, key)
    {
      uploads := uploads + [Blob(bucket, key)];
      url := ObjectUrl(bucket, key);
    }
  }

  /** Every stored identity's profile image URL is the public URL of an
      object that was uploaded. */
  ghost predicate ImagesUploaded(t: map<string, Item<UserBody>>, uploads: seq<Blob>) {
    forall k :: k in t && t[k].body.profileImageUrl.Some? ==> UrlUploaded(t[k].body.profileImageUrl.value, uploads)
  }

  ghost predicate UrlUploaded(url: string, uploads: seq<Blob>) {
    exists b :: b in uploads && ObjectUrl(b.bucket, b.key) == url
  }

  /** Later uploads never invalidate an earlier one. */
  lemma ImagesUploadedGrow(t: map<string, Item<UserBody>>, uploads: seq<Blob>, more: seq<Blob>)
    requires ImagesUploaded(t, uploads)
    ensures ImagesUploaded(t, uploads + more)
  {
    forall k | k in t && t[k].body.profileImageUrl.Some?
      ensures UrlUploaded(t[k].body.profileImageUrl.value, uploads + more)
    {
      var b :| b in uploads && ObjectUrl(b.bucket, b.key) == t[k].body.profileImageUrl.value;
      assert b in uploads + more;
    }
  }

  /** Storing an identity whose image was uploaded keeps the invariant. */
  lemma ImagesUploadedStore(t: map<string, Item<UserBody>>, uploads: seq<Blob>, k: string, item: Item<UserBody>)
    requires ImagesUploaded(t, uploads)
    requires item.body.profileImageUrl.Some? ==> UrlUploaded(item.body.profileImageUrl.value, uploads)
    ensures ImagesUploaded(t[k := item], uploads)
  {
  }

  /** What `register` reports back on success. */
  datatype RegisteredUser = RegisteredUser(email: string, username: string, profileImageUrl: string)

  /** What `create_post` reports back on success. */
  datatype PostData = PostData(userId: string, content: string, status: bool, imageUrl: string)

  /** `register`'s check that no form field is empty. */
  predicate RegisterFieldsPresent(username: string, email: string, password: string) {
    username != "" && email != "" && password != ""
  }

  /** `create_post`'s check that no form field is empty. */
  predicate PostFieldsPresent(userId: string, content: string) {
    userId != "" && content != ""
  }

  /** The identity `register` stores for a Real verdict. */
  function NewIdentity(id: string, now: string, username: string, email: string, password: string, url: string): Item<UserBody> {
    Item(Some(id), Some(now), UserBody(Some(username), Some(email), Some(password), Some(url)))
  }

  /** The quarantined attempt `register` stores for a Fake verdict. */
  function NewFakeAttempt(id: string, now: string, username: string, email: string, password: string): Item<FakeBody> {
    Item(Some(id), Some(now), FakeBody(email, username, password))
  }

  /** The post `create_post` stores; its status is True exactly for Real. */
  function NewPost(id: string, now: string, userId: string, content: string, url: string, verdict: Verdict): Item<PostBody> {
    Item(Some(id), Some(now), PostBody(Some(userId), Some(content), Some(url), Bool(verdict == Real)))
  }

  class Gateway {
    const registrations: Table<UserBody>
    const fakeRegistrations: Table<FakeBody>
    const posts: Table<PostBody>
    const blobs: BlobStore

    /** Every table is keyed by id, every stored item has a timestamp, and
        every identity's profile image is an uploaded object. */
    ghost predicate Valid()
      reads this, registrations, fakeRegistrations, posts, blobs
    {
      && registrations.Valid() && fakeRegistrations.Valid() && posts.Valid()
      && Stamped(registrations.items) && Stamped(fakeRegistrations.items) && Stamped(posts.items)
      && ImagesUploaded(registrations.items, blobs.uploads)
    }

    constructor ()
      ensures Valid()
      ensures registrations.items == map[] && fakeRegistrations.items == map[] && posts.items == map[]
      ensures blobs.uploads == []
      ensures fresh(registrations) && fresh(fakeRegistrations) && fresh(posts) && fresh(blobs)
    {
      registrations := new Table();
      fakeRegistrations := new Table();
      posts := new Table();
      blobs := new BlobStore();
    }

    /** `register`. `score` is the classifier's output for the uploaded image,
        or `None` when the image could not be opened or classified;
        `freshId` and `now` are what `uuid4()` and `utcnow()` return. */
    method Register(username: string, email: string, password: string, filename: string,
                    score: Option<real>, freshId: string, now: string)
      returns (r: Result<RegisteredUser, Error>)
      requires Valid() && freshId != ""
      modifies registrations, fakeRegistrations, blobs
      ensures Valid()
      // an empty field fails before anything is written
      ensures !RegisterFieldsPresent(username, email, password) ==>
        r == Failure(MissingFields) && unchanged(registrations, fakeRegistrations, blobs)
      ensures RegisterFieldsPresent(username, email, password) && score.None? ==>
        r == Failure(ImageError) && unchanged(registrations, fakeRegistrations, blobs)
      // a Fake image is quarantined, never uploaded, and the call fails
      ensures RegisterFieldsPresent(username, email, password) && score.Some? && Classify(score.value) == Fake ==>
        && r == Failure(FakeImage)
        && fakeRegistrations.items == old(fakeRegistrations.items)[freshId := NewFakeAttempt(freshId, now, username, email, password)]
        && unchanged(registrations, blobs)
      // a Real image is uploaded once and one identity points at its URL
      ensures RegisterFieldsPresent(username, email, password) && score.Some? && Classify(score.value) == Real ==>
        var key := ProfileImageKey(email, filename);
        var url := ObjectUrl(ProfileBucket, key);
        && r == Success(RegisteredUser(email, username, url))
        && blobs.uploads == old(blobs.uploads) + [Blob(ProfileBucket, key)]
        && registrations.items == old(registrations.items)[freshId := NewIdentity(freshId, now, username, email, password, url)]
        && unchanged(fakeRegistrations)
      ensures r.Success? && freshId !in old(registrations.items) ==>
        |registrations.items| == |old(registrations.items)| + 1
    {
      if !RegisterFieldsPresent(username, email, password) {
        return Failure(MissingFields);
      }
      if score.None? {
        return Failure(ImageError);
      }
      if Classify(score.value) == Fake {
        Quarantine(username, email, password, freshId, now);
        return Failure(FakeImage);
      }
      r := Enrol(username, email, password, filename, freshId, now);
    }

    /** The Fake branch of `register`: the attempt goes to the fake table only. */
    method Quarantine(username: string, email: string, password: string, freshId: string, now: string)
      requires Valid() && freshId != ""
      modifies fakeRegistrations
      ensures Valid()
      ensures fakeRegistrations.items == old(fakeRegistrations.items)[freshId := NewFakeAttempt(freshId, now, username, email, password)]
    {
      var fakeUser := Item(None, None, FakeBody(email, username, password));
      var stored := fakeRegistrations.StoreItem(fakeUser, freshId, now);
      assert stored == NewFakeAttempt(freshId, now, username, email, password);
    }

    /** The Real branch of `register`: upload, then the two `put_item` calls. */
    method Enrol(username: string, email: string, password: string, filename: string, freshId: string, now: string)
      returns (r: Result<RegisteredUser, Error>)
      requires Valid() && freshId != ""
      modifies registrations, blobs
      ensures Valid()
      ensures
        var key := ProfileImageKey(email, filename);
        var url := ObjectUrl(ProfileBucket, key);
        && r == Success(RegisteredUser(email, username, url))
        && blobs.uploads == old(blobs.uploads) + [Blob(ProfileBucket, key)]
        && registrations.items == old(registrations.items)[freshId := NewIdentity(freshId, now, username, email, password, url)]
    {
      var key := ProfileImageKey(email, filename);
      var url := blobs.UploadFile(ProfileBucket, key);
      ImagesUploadedGrow(registrations.items, old(blobs.uploads), [Blob(ProfileBucket, key)]);
      assert Blob(ProfileBucket, key) in blobs.uploads;
      var userDict := NewIdentity(freshId, now, username, email, password, url);
      var stored := registrations.StoreItem(userDict, freshId, now);
      assert stored == userDict;
      // the second `put_item`, of the same dictionary
      registrations.PutItem(stored);
      ImagesUploadedStore(old(registrations.items), blobs.uploads, freshId, userDict);
      r := Success(RegisteredUser(email, username, url));
    }

    /** `create_post`: the post is stored whatever the verdict; only its
        status differs. */
    method CreatePost(userId: string, content: string, filename: string,
                      score: Option<real>, freshId: string, now: string)
      returns (r: Result<PostData, Error>)
      requires Valid() && freshId != ""
      modifies posts, blobs
      ensures Valid()
      ensures !PostFieldsPresent(userId, content) ==>
        r == Failure(MissingFields) && unchanged(posts, blobs)
      ensures PostFieldsPresent(userId, content) && score.None? ==>
        r == Failure(ImageError) && unchanged(posts, blobs)
      ensures PostFieldsPresent(userId, content) && score.Some? ==>
        var verdict := Classify(score.value);
        var key := PostImageKey(userId, filename);
        var url := ObjectUrl(PostsBucket, key);
        && r == Success(PostData(userId, content, verdict == Real, url))
        && blobs.uploads == old(blobs.uploads) + [Blob(PostsBucket, key)]
        && posts.items == old(posts.items)[freshId := NewPost(freshId, now, userId, content, url, verdict)]
      ensures r.Success? ==> (r.value.status <==> score.value <= 0.5)
      ensures r.Success? && freshId !in old(posts.items) ==> |posts.items| == |old(posts.items)| + 1
    {
      if !PostFieldsPresent(userId, content) {
        return Failure(MissingFields);
      }
      if score.None? {
        return Failure(ImageError);
      }
      var status := true;
      if Classify(score.value) == Fake {
        status := false;
      }
      var key := PostImageKey(userId, filename);
      var url := blobs.UploadFile(PostsBucket, key);
      ImagesUploadedGrow(registrations.items, old(blobs.uploads), [Blob(PostsBucket, key)]);
      var post := Item(None, None, PostBody(Some(userId), Some(content), Some(url), Bool(status)));
      var _ := posts.StoreItem(post, freshId, now);
      r := Success(PostData(userId, content, status, url));
    }
  }

  /** A new gateway turns away a registration whose image scores 0.9: the
      attempt is quarantined, and no identity and no upload appear. */
  method FakeRegistrationOnNewGateway() returns (r: Result<RegisteredUser, Error>, g: Gateway)
    ensures r == Failure(FakeImage)
    ensures g.registrations.items == map[] && g.blobs.uploads == []
    ensures g.fakeRegistrations.items == map["id1" := NewFakeAttempt("id1", "now", "bob", "b@x", "pw")]
  {
    g := new Gateway();
    r := g.Register("bob", "b@x", "pw", "me.png", Some(0.9), "id1", "now");
  }
}
