/** Object keys and public URLs of uploaded images (`upload_to_s3` and the
    key formatting in `register` and `create_post`). */
module BlobKeys {
  import opened Wrappers

  const Region: string := "us-east-1"
  /** Bucket of profile images. */
  const ProfileBucket: string := "news1-bucket"
  /** Bucket of post images. */
  const PostsBucket: string := "feedsbuck"

  const ProfilePrefix: string := "profile_images/"
  const PostPrefix: string := "uploads/"

  function CleanChar(c: char): char {
    if c == ' ' then '_' else c
  }

  /** `filename.replace(" ", "_")`: every space becomes an underscore and
      every other character stays where it was. */
  function Sanitize(name: string): (r: string)
    ensures |r| == |name|
    ensures forall i :: 0 <= i < |name| ==> r[i] == CleanChar(name[i])
  {
    if name == [] then [] else [CleanChar(name[0])] + Sanitize(name[1..])
  }

  /** No space survives sanitising. */
  lemma SanitizeHasNoSpace(name: string)
    ensures ' ' !in Sanitize(name)
  {
    var r := Sanitize(name);
    forall i | 0 <= i < |r| ensures r[i] != ' ' {
    }
  }

  /** A name without spaces is already clean. */
  lemma SanitizeKeepsCleanName(name: string)
    requires ' ' !in name
    ensures Sanitize(name) == name
  {
    var r := Sanitize(name);
    forall i | 0 <= i < |name| ensures r[i] == name[i] {
      assert name[i] != ' ';
    }
  }

  /** Sanitising twice is sanitising once. */
  lemma SanitizeIdempotent(name: string)
    ensures Sanitize(Sanitize(name)) == Sanitize(name)
  {
    SanitizeHasNoSpace(name);
    SanitizeKeepsCleanName(Sanitize(name));
  }

  /** `profile_images/{email}_{clean_filename}`. */
  function ProfileImageKey(email: string, filename: string): (key: string)
    ensures |key| == |ProfilePrefix| + |email| + 1 + |filename|
  {
    ProfilePrefix + email + "_" + Sanitize(filename)
  }

  /** `uploads/{user_id}_{clean_filename}`. */
  function PostImageKey(userId: string, filename: string): (key: string)
    ensures |key| == |PostPrefix| + |userId| + 1 + |filename|
  {
    PostPrefix + userId + "_" + Sanitize(filename)
  }

  /** Everything of a public URL before the key. */
  function UrlPrefix(bucket: string): string {
    "https://" + bucket + ".s3." + Region + ".amazonaws.com/"
  }

  /** `https://{bucket}.s3.{region}.amazonaws.com/{key}`. */
  function ObjectUrl(bucket: string, key: string): (url: string)
    ensures |url| == |UrlPrefix(bucket)| + |key|
  {
    UrlPrefix(bucket) + key
  }

  /** The key a public URL of `bucket` points to, if it is one. */
  function KeyOfUrl(bucket: string, url: string): Option<string> {
    var p := UrlPrefix(bucket);
    if |p| <= |url| && url[..|p|] == p then Some(url[|p|..]) else None
  }

  /** A URL gives back the key it was built from. */
  lemma {:induction false} KeyOfObjectUrl(bucket: string, key: string)
    ensures KeyOfUrl(bucket, ObjectUrl(bucket, key)) == Some(key)
  {
    var p := UrlPrefix(bucket);
    var url := ObjectUrl(bucket, key);
    assert url[..|p|] == p;
    assert url[|p|..] == key;
  }

  /** Whatever `KeyOfUrl` accepts is the URL of the key it returns, so two
      keys of one bucket never share a URL. */
  lemma {:induction false} ObjectUrlOfKey(bucket: string, url: string)
    requires KeyOfUrl(bucket, url).Some?
    ensures ObjectUrl(bucket, KeyOfUrl(bucket, url).value) == url
  {
    var p := UrlPrefix(bucket);
    assert url == url[..|p|] + url[|p|..];
  }

  /** A profile-image key and a post-image key are never the same key. */
  lemma ProfileAndPostKeysDiffer(email: string, f: string, userId: string, g: string)
    ensures ProfileImageKey(email, f) != PostImageKey(userId, g)
  {
    assert ProfileImageKey(email, f)[0] == 'p';
    assert PostImageKey(userId, g)[0] == 'u';
  }

  /** The key ends with the sanitised file name, right after an underscore. */
  lemma ProfileImageKeyEndsWithName(email: string, filename: string)
    ensures var key := ProfileImageKey(email, filename);
      && key[..|ProfilePrefix|] == ProfilePrefix
      && key[|key| - |filename| ..] == Sanitize(filename)
      && key[|key| - |filename| - 1] == '_'
  {
  }
}
