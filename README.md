# Authenticity gateway — a Dafny model

The backend of this deepfake-news application stands between its users and
three key-value tables (`registrations`, `fake_registrations`, `posts`) plus
two object buckets (profile images and post images). An image classifier
scores every uploaded picture. A score above 0.5 means "Fake":

- **Registration.** A Fake profile image blocks the registration. The
  attempt is kept in `fake_registrations`. A Real image is uploaded and the
  identity is stored with the image's public URL.
- **Posts.** Once the image is opened, classified and re-encoded, a post is
  always stored. Only its `status` flag (True for Real) depends on the
  verdict.
- **Feed.** The feed joins every post with its author, drops posts whose
  author is unknown, and lists the rest newest first.
- **Statistics.** They count a user's real and fake posts.
- **Login.** Login checks the submitted password against the first
  registration with that username.

The model also covers a few pure decisions of the Streamlit dashboard:

- the profile-maturity label;
- the Real/Fake badge of a post;
- the two form guards.

The model is organised by the program's structure:

| file | module | what |
|---|---|---|
| `wrappers.dfy` | `Wrappers` | `Option`, `Result` |
| `records.dfy` | `Records` | table items with optional `id`/`timestamp`; the normalisation `store_in_dynamodb` applies; what a scan of a table is |
| `verdict.dfy` | `Verdict` | the 0.5 threshold of `predict_image` |
| `blob_keys.dfy` | `BlobKeys` | file-name sanitising, object keys, public URLs |
| `store.dfy` | `Store` | classes `Table`, `BlobStore` and `Gateway`; `register` and `create_post` as methods that update them |
| `counting.dfy` | `Counting` | `sum(1 for … if …)` and its relation to sets of positions |
| `stable_sort.dfy` | `StableSort` | Python's stable `sort(key, reverse=True)`, as an insertion sort with its properties |
| `feed.dfy` | `Feed` | `get_all_posts`: id index, join loop, sort |
| `stats.dfy` | `Stats` | `get_user_image_stats` |
| `login.dfy` | `Login` | `login`'s lookup and comparison |
| `frontend.dfy` | `Frontend` | `calculate_maturity`, badge choice, form guards |

The environment is passed in as parameters:

- **Classifier score.** It is a `real` argument. `None` stands for an image
  that could not be opened or classified.
- **Fresh ids and the clock.** They are strings the caller supplies, in place
  of `uuid4()` and `utcnow().isoformat()`.
- **Timestamp parsing.** `datetime.fromisoformat` is a function argument
  `parse: string -> Option<int>`. It gives `None` for a string that does not
  parse.
- **Scans.** A scan of a table is a sequence in the store's order. The
  predicate `Records.IsScanOf` ties a scan to the table's contents.

In a few places the code behaves differently from what a reader might
expect, and the model follows the code:

- **Unparseable timestamps.** The feed's sort key is `fromisoformat`. A post
  whose timestamp does not parse therefore makes `get_all_posts` fail with a
  500. One might expect such a post to sort last, but it does not.
- **Missing status.** A post of the user without a `status` attribute makes
  `get_user_image_stats` fail with a 500. One might expect the post to be
  skipped, but it is not. Posts whose status is some other non-boolean value
  are left out of both counts.
- **Tie order.** Python's sort is stable. Posts with equal timestamps keep
  their scan order rather than an arbitrary one, and the model proves it.
- **Login errors.** Every login failure comes out as one 500 response.
  Unknown username, wrong password and missing attributes all look the same.
  The 400s raised inside the `try` are re-raised by the catch-all handler.
- **Wrapped exceptions.** In `register` and `create_post`, every exception
  after the field check becomes a 400. This includes the fake-image
  rejection and store faults.

## Model

| member | source | states |
|---|---|---|
| `Verdict.Classify` | backend/app.py:124 | the verdict is Real exactly when the score is at most 0.5 |
| `Verdict.ClassifySplitsAtThreshold` | backend/app.py:124 | a score is Fake exactly when it is strictly above 0.5, so exactly 0.5 is Real |
| `Verdict.ClassifyMonotone` | backend/app.py:124 | raising a Fake score keeps it Fake |
| `Records.Normalize` | backend/app.py:84-101 | the written item always has a non-empty id and a timestamp. A present non-empty id is kept, otherwise the fresh id is used. An existing timestamp (even an empty one) is kept, otherwise the current time is used. The attributes are unchanged |
| `Records.NormalizeIdempotent` | backend/app.py:91-97 | normalising an already-normalised item changes nothing, whatever the new fresh id and clock |
| `Records.NormalizeKeepsComplete` | backend/app.py:205-209 | an item that already has an id and a timestamp is written unchanged |
| `Records.IsScanOf` | backend/app.py:238-239 | a scan lists each item of the table exactly once, under its own id, in an order the store chooses |
| `Records.ScanHasIds` | backend/app.py:242 | every item a scan of a keyed table returns has a non-empty id |
| `Store.Table.constructor` | backend/app.py:44-46 | a new table is empty and keyed |
| `Store.Table.PutItem` | backend/app.py:100 | an upsert: the table maps the item's id to the item, every other entry unchanged |
| `Store.Table.StoreItem` | backend/app.py:84-101 | fills in the missing id and timestamp in place, then upserts. The returned item is `Normalize` of the input and is exactly what the table now holds under its id |
| `Store.BlobStore.constructor` | backend/app.py:30-35 | the upload log starts empty |
| `Store.BlobStore.UploadFile` | backend/app.py:75-79 | appends exactly one upload to the log and returns that object's public URL |
| `Store.RegisterFieldsPresent` | backend/app.py:179 | `register`'s field check: username, email and password all non-empty |
| `Store.PostFieldsPresent` | backend/app.py:279 | `create_post`'s field check: user id and content both non-empty |
| `Store.NewIdentity` | backend/app.py:197-207 | the identity `register` stores: fresh id, current time, username, email, password and the image URL |
| `Store.NewFakeAttempt` | backend/app.py:185 | the quarantined attempt: fresh id, current time, email, username and password, and no image |
| `Store.NewPost` | backend/app.py:296 | the stored post: owner, content, image URL, and status True exactly for a Real verdict |
| `Store.ImagesUploadedGrow` | backend/app.py:195 | further uploads keep every identity's image URL pointing at an uploaded object |
| `Store.ImagesUploadedStore` | backend/app.py:209-215 | storing an identity whose image URL was uploaded keeps that invariant |
| `Store.Gateway.Valid` | backend/app.py:44-46 | the gateway's invariant: every table keyed by id, every item timestamped, and every stored identity's profile image URL the public URL of an uploaded object |
| `Store.Gateway.constructor` | backend/app.py:44-46 | three new, empty tables and a new, empty upload log, all invariants holding |
| `Store.Gateway.Register` | backend/app.py:172-224 | An empty username, email or password fails before any write. An unreadable image fails with nothing written. A Fake verdict writes exactly one `fake_registrations` item, uploads nothing, leaves `registrations` alone and fails. A Real verdict uploads once to the profile bucket under `profile_images/{email}_{clean}`, stores one identity whose image URL is the returned URL, and succeeds. The table gains one entry for a fresh id. The gateway invariant is preserved: keys, timestamps, and every identity's image being an upload |
| `Store.Gateway.Quarantine` | backend/app.py:184-187 | the fake table gains the attempt (email, username, password) under the fresh id, with the current time |
| `Store.FakeRegistrationOnNewGateway` | backend/app.py:184-187 | on a new gateway, a registration whose image scores 0.9 fails as fake. One attempt is quarantined, and there is no identity and no upload |
| `Store.Gateway.Enrol` | backend/app.py:189-222 | one upload, then both `put_item` calls leave exactly one identity under the fresh id. That identity's URL is the one returned |
| `Store.Gateway.CreatePost` | backend/app.py:273-304 | Empty fields fail before any write. Otherwise one upload under `uploads/{user_id}_{clean}` and exactly one post is stored, whatever the verdict. Its status is True exactly when the score is at most 0.5. The table gains one entry for a fresh id |
| `BlobKeys.Sanitize` | backend/app.py:193 | same length; each space becomes `_` and every other character stays in place |
| `BlobKeys.SanitizeHasNoSpace` | backend/app.py:193 | no space survives |
| `BlobKeys.SanitizeKeepsCleanName` | backend/app.py:292 | a name without spaces is unchanged |
| `BlobKeys.SanitizeIdempotent` | backend/app.py:193 | sanitising twice equals sanitising once |
| `BlobKeys.ProfileImageKey` | backend/app.py:193-194 | the key's length is prefix + email + `_` + file name |
| `BlobKeys.ProfileImageKeyEndsWithName` | backend/app.py:193-194 | the key starts with `profile_images/` and ends with `_` followed by the sanitised file name |
| `BlobKeys.PostImageKey` | backend/app.py:292-293 | the key's length is prefix + user id + `_` + file name |
| `BlobKeys.ProfileAndPostKeysDiffer` | backend/app.py:194 | a profile-image key never equals a post-image key |
| `BlobKeys.ObjectUrl` | backend/app.py:79 | the URL is the bucket's URL prefix followed by the key |
| `BlobKeys.KeyOfObjectUrl` | backend/app.py:79 | the key can be read back from the URL |
| `BlobKeys.ObjectUrlOfKey` | backend/app.py:79 | conversely, a URL with the bucket's prefix is the URL of the key read from it, so distinct keys have distinct URLs |
| `Feed.UserIndex` | backend/app.py:242 | the id index exists exactly when every scanned user has an id (else `KeyError`), and its keys are exactly the scanned ids |
| `Feed.UserIndexLastWins` | backend/app.py:242 | an id maps to the last scanned user with that id |
| `Feed.UserIndexOfTableScan` | backend/app.py:238-242 | on a scan of the registrations table the index never fails and equals the table |
| `Feed.Resolves` | backend/app.py:247-251 | a post is kept exactly when its `user_id` is present and is a key of the index |
| `Feed.ViewOf` | backend/app.py:254-264 | the view's author fields are those of the indexed user the post names. Its status is the post's status, with a missing one staying missing. Its timestamp is the post's, or the epoch default when missing. It carries the post's id, content and image URL |
| `Feed.Join` | backend/app.py:245-264 | at most one view per post, and every view's author is a key of the index |
| `Feed.JoinPosts` | backend/app.py:245-264 | the `for` loop's result is the join of the posts, in scan order |
| `Feed.JoinSound` | backend/app.py:246-264 | every view comes from a post whose owner resolves |
| `Feed.JoinComplete` | backend/app.py:246-264 | every post whose owner resolves has its view in the join |
| `Feed.JoinLength` | backend/app.py:245-251 | the join has exactly one view per resolving post |
| `Feed.SortNewestFirst` | backend/app.py:267 | when every timestamp parses, the sorted views are a permutation of the input and newest first. Views with equal timestamps keep their order |
| `Feed.GetAllPosts` | backend/app.py:226-271 | No posts gives an empty feed, whatever the users. Otherwise the call succeeds exactly when every user has an id and every joined view's timestamp parses, and it fails with a 500 otherwise. A successful feed is a permutation of the join, newest first, and stable on ties |
| `StableSort.Insert` | backend/app.py:267 | inserting adds exactly the one element (multiset) |
| `StableSort.InsertBounded` | backend/app.py:267 | inserting an element within a bound keeps every key within it |
| `StableSort.InsertSorted` | backend/app.py:267 | inserting into a descending sequence keeps it descending |
| `StableSort.SortDesc` | backend/app.py:267 | the result is descending by key and a permutation of the input |
| `StableSort.WithKeyConcat` | backend/app.py:267 | the elements with a given key of a concatenation are those of each part, in order |
| `StableSort.WithKeySingle` | backend/app.py:267 | a one-element sequence contributes its element exactly when the key matches |
| `StableSort.InsertWithKey` | backend/app.py:267 | an inserted element goes in front of the elements with its own key |
| `StableSort.InsertPastLarger` | backend/app.py:267 | the step of the above in which the element passes a larger one |
| `StableSort.Reassociate` | backend/app.py:267 | the sequence identity that step needs |
| `StableSort.SortDescStable` | backend/app.py:267 | for every key, the sort keeps the elements with that key in input order |
| `Counting.Count` | backend/app.py:318-319 | a count never exceeds the number of elements |
| `Counting.CountIsIndexCount` | backend/app.py:318-319 | the count equals the number of positions that satisfy the condition, so nothing is counted twice or missed |
| `Counting.CountDisjoint` | backend/app.py:318-319 | two conditions that never hold together count at most the length |
| `Counting.CountNone` | backend/app.py:318-319 | a condition no element meets counts zero |
| `Stats.UserPosts` | backend/app.py:311-315 | a post is selected exactly when it is scanned and its `user_id` is the argument. Each of the user's posts appears as many times as in the scan, and other posts never |
| `Stats.IsRealPost` | backend/app.py:318 | `status == True`: only a boolean True |
| `Stats.IsFakePost` | backend/app.py:319 | `status == False`: only a boolean False |
| `Stats.GetUserImageStats` | backend/app.py:306-323 | The call fails (500) exactly when one of the user's posts has no status. Otherwise real counts the user's posts with status True and fake those with status False. real + fake is at most the user's post count |
| `Stats.OtherUsersIgnored` | backend/app.py:311-314 | another user's post never changes the statistics |
| `Stats.NewPostCounted` | backend/app.py:318-319 | a new True post of the user adds one real image, a False one adds one fake image |
| `Stats.StatsOf` | backend/app.py:311-321 | the call succeeds with the two counts of the user's posts whenever none lacks a status |
| `Stats.StatsOfAppendOwned` | backend/app.py:318-319 | after the user's own post is appended, the counts are those of the user's posts followed by it |
| `Stats.UserPostsAppendOwned` | backend/app.py:311-315 | the user's own new post is appended to the user's selected posts |
| `Stats.NoMissingStatusAppend` | backend/app.py:318-319 | appending a post with a status keeps "no post lacks a status" |
| `Counting.CountAppend` | backend/app.py:318-319 | appending one element adds one to the count exactly when it satisfies the condition |
| `Login.FirstNamed` | backend/app.py:139-148 | the position found is the first user with the name; none means nobody has it |
| `Login.Login` | backend/app.py:134-169 | Login succeeds exactly when the first scanned user with the name has that exact password (and an id and email). Every failure is the same 500. The result is that user's id, username, email, profile URL (default None) and timestamp (default ""), with no password |
| `Login.Accepts` | backend/app.py:151-162 | the stored password equals the submitted one, and the `id` and `email` the response reads without default are present |
| `Login.LoginIdNonEmpty` | backend/app.py:155-158 | over a scan of the registrations table, the `id` a successful login returns is non-empty and is the key the user is stored under |
| `Login.FirstNamedAtUnique` | backend/app.py:148 | only one position can be the first with a name |
| `Login.LoginIgnoresLaterUsers` | backend/app.py:148 | users scanned after the first match, duplicates included, never change the outcome |
| `Login.LoginFindsRegisteredUser` | backend/app.py:139-164 | an identity stored by `register` with no earlier namesake logs in with its password and gets its own data back |
| `Frontend.CalculateMaturity` | frontend/app.py:80-101 | an absent or empty timestamp gives the no-timestamp Noobie label without parsing. A parse or arithmetic failure gives Unknown. Otherwise the label is the one for the day count |
| `Frontend.MaturityText` | frontend/app.py:84-101 | the text shown for each label: "🟢 Noobie" without a timestamp, "👼 Noobie", "👶 Beginner", "🟡 Intermediate", "🟠 Advanced", "🔴 Expert", and "Unknown" |
| `Frontend.LabelForDays` | frontend/app.py:89-98 | every day count gets a label whose day band contains it |
| `Frontend.LabelForDaysIsBand` | frontend/app.py:89-98 | each day count gets exactly the label whose band holds it: 0 Noobie, 1 and negatives Beginner, 2..30 Intermediate, 31..90 Advanced, above 90 Expert |
| `Frontend.LabelForDaysMonotone` | frontend/app.py:89-98 | from day 0 on, more days never give a lower label |
| `Frontend.ShowsRealBadge` | frontend/app.py:385-388 | the Real badge shows exactly for a truthy status: True or a truthy non-boolean. False, falsy values and a missing status show Fake |
| `Frontend.BadgeOfStoredPost` | frontend/app.py:385-388 | a post stored by `create_post` resolves in the feed and shows the Real badge exactly when its score was at most 0.5 |
| `Frontend.RegisterFormComplete` | frontend/app.py:204-207 | the register form calls the backend exactly when the backend's own field check passes and an image is chosen |
| `Frontend.PostFormComplete` | frontend/app.py:357-360 | the post form calls the backend only with non-empty content and an image |
| `Frontend.PostFormPassesBackendCheck` | frontend/app.py:140-150 | the post the form lets through is sent with the `id` of a successful login over the registrations table. That id is non-empty, so the request passes the backend's field check |

## Left out

- Image decoding, `preprocess_image` and `model.predict` (backend/app.py:109-123): tensor and floating-point work inside libraries. The score is a parameter, and `None` stands for a failure to open or classify the image.
- PNG re-encoding and the uploaded bytes (backend/app.py:190-192, 289-291): the blob store records only bucket and key. The failure of re-encoding is not modelled. An image mode PNG cannot hold, such as a CMYK JPEG, makes `save` raise after classification, giving a 400 with nothing uploaded or stored. In the model, `Register` (Real branch) and `CreatePost` always succeed once a score is given.
- The cloud clients, credentials and network. Tables are maps, the blob store is an upload log, and scans are sequences. Faults of the store or bucket (including `NoCredentialsError` and the 500 of `store_in_dynamodb`) are not modelled. Every write succeeds.
- Scan pagination, which the code never handles, and concurrent requests.
- `uuid4()` and `utcnow()`: nondeterministic, so they are parameters.
- ISO 8601 formatting and parsing (`isoformat`, `fromisoformat`): a `parse` parameter mapping strings to instants. The comparison of naive and timezone-aware datetimes, which raises in Python, counts as a parse failure.
- HTTP status codes and messages: the `Error` kinds stand in for them.
- `not profile_image` and `not image`: an `UploadFile` is always truthy, so these parts of the field checks are not modelled.
- `Records.Status`: `Other` records only Python truthiness. The model does not capture that a stored `1` or `0` compares equal to `True` or `False` in the statistics.
- `Store.Table.StoreItem`: the caller's dictionary is not shared. The normalised item is returned instead of the caller's dict being mutated in place.
- `Feed.GetAllPosts`: "users are never scanned when there are no posts" is stated as independence from the user scan.
- The Streamlit UI, session state, CSS and the `requests` helpers in frontend/app.py: presentation and HTTP plumbing. `MaturityText` gives the label strings.
