/** The items the gateway keeps in its three key-value tables, and the
    normalisation `store_in_dynamodb` applies to an item before writing it. */
module Records {
  import opened Wrappers

  /** The gateway's failures, as the client sees them. */
  datatype Error =
    | MissingFields    // 400 "All fields are required!"
    | FakeImage        // 400, registration image classified "Fake"
    | ImageError       // 400, the image could not be opened or classified
    | InternalError    // 500, every failure of login, feed and statistics

  /** A post's `status` attribute as a scan returns it: a boolean, some other
      value (with its Python truthiness), or no attribute at all. */
  datatype Status = Bool(b: bool) | Other(truthy: bool) | Absent

  /** One table item: the `id` and `timestamp` keys every table shares,
      each possibly missing, and the table-specific attributes. */
  datatype Item<A> = Item(id: Option<string>, timestamp: Option<string>, body: A)

  /** An item of the `registrations` table. */
  datatype UserBody = UserBody(
    username: Option<string>,
    email: Option<string>,
    password: Option<string>,
    profileImageUrl: Option<string>)

  /** An item of the `fake_registrations` table (a `FakeRegistration` model). */
  datatype FakeBody = FakeBody(email: string, username: string, password: string)

  /** An item of the `posts` table. */
  datatype PostBody = PostBody(
    userId: Option<string>,
    content: Option<string>,
    imageUrl: Option<string>,
    status: Status)

  /** The item has an `id` key whose value is truthy (a non-empty string). */
  predicate HasId<A>(item: Item<A>) {
    item.id.Some? && item.id.value != ""
  }

  /** The dictionary `store_in_dynamodb` writes: a missing or empty `id` is
      replaced by a fresh one, a missing `timestamp` is set to the current
      time, and nothing else is touched. */
  function Normalize<A>(data: Item<A>, freshId: string, now: string): (r: Item<A>)
    requires freshId != ""
    ensures HasId(r) && r.timestamp.Some?
    ensures HasId(data) ==> r.id == data.id
    ensures !HasId(data) ==> r.id == Some(freshId)
    ensures data.timestamp.Some? ==> r.timestamp == data.timestamp
    ensures data.timestamp.None? ==> r.timestamp == Some(now)
    ensures r.body == data.body
  {
    var withId := if HasId(data) then data else data.(id := Some(freshId));
    if withId.timestamp.Some? then withId else withId.(timestamp := Some(now))
  }

  /** Normalising twice changes nothing the second time, whatever fresh id
      and clock reading the second call is given: this is why the second
      `put_item` of a registration rewrites the very same item. */
  lemma NormalizeIdempotent<A>(data: Item<A>, freshId: string, now: string, freshId': string, now': string)
    requires freshId != "" && freshId' != ""
    ensures Normalize(Normalize(data, freshId, now), freshId', now') == Normalize(data, freshId, now)
  {
  }

  /** An item whose id and timestamp are already set is written unchanged. */
  lemma NormalizeKeepsComplete<A>(data: Item<A>, freshId: string, now: string)
    requires freshId != ""
    requires HasId(data) && data.timestamp.Some?
    ensures Normalize(data, freshId, now) == data
  {
  }

  /** Every item of a table sits under its own non-empty `id`. */
  ghost predicate Keyed<A>(t: map<string, Item<A>>) {
    forall k :: k in t ==> k != "" && t[k].id == Some(k)
  }

  /** Every item of a table carries a `timestamp`. */
  ghost predicate Stamped<A>(t: map<string, Item<A>>) {
    forall k :: k in t ==> t[k].timestamp.Some?
  }

  /** `scan` lists the items of table `t`, each exactly once, in the order
      the store chooses. */
  ghost predicate IsScanOf<A>(scan: seq<Item<A>>, t: map<string, Item<A>>) {
    && |scan| == |t|
    && (forall i :: 0 <= i < |scan| ==> scan[i].id.Some? && scan[i].id.value in t && t[scan[i].id.value] == scan[i])
    && (forall i, j :: 0 <= i < j < |scan| ==> scan[i].id != scan[j].id)
  }

  /** Every item a scan of a keyed table returns has an `id`. */
  lemma ScanHasIds<A>(scan: seq<Item<A>>, t: map<string, Item<A>>, i: int)
    requires Keyed(t) && IsScanOf(scan, t) && 0 <= i < |scan|
    ensures HasId(scan[i])
  {
  }
}
