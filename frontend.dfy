/** The dashboard's pure decisions: the profile maturity label, the
    Real/Fake badge of a post, and the guards in front of the two forms. */
module Frontend {
  import opened Wrappers
  import opened Records
  import opened Verdict
  import Store
  import Feed
  import Login

  datatype Maturity = NoTimestamp | Noobie | Beginner | Intermediate | Advanced | Expert | Unknown

  /** The text the dashboard shows for each label. */
  function MaturityText(m: Maturity): string {
    match m
    case NoTimestamp => "🟢 Noobie"
    case Noobie => "👼 Noobie"
    case Beginner => "👶 Beginner"
    case Intermediate => "🟡 Intermediate"
    case Advanced => "🟠 Advanced"
    case Expert => "🔴 Expert"
    case Unknown => "Unknown"
  }

  /** The if/elif chain over the number of whole days since registration. */
  function LabelForDays(days: int): (m: Maturity)
    ensures InBand(m, days)
  {
    if days == 0 then Noobie
    else if days <= 1 then Beginner
    else if days <= 30 then Intermediate
    else if days <= 90 then Advanced
    else Expert
  }

  /** `calculate_maturity(timestamp)`. `days` is the day count
      `(utcnow() - fromisoformat(timestamp)).days`, or `None` when parsing
      or the subtraction raised. An absent or empty timestamp is never parsed. */
  function CalculateMaturity(timestamp: Option<string>, days: Option<int>): (m: Maturity)
    ensures timestamp.None? || timestamp.value == "" ==> m == NoTimestamp
    ensures timestamp.Some? && timestamp.value != "" && days.None? ==> m == Unknown
    ensures timestamp.Some? && timestamp.value != "" && days.Some? ==> m == LabelForDays(days.value)
  {
    if timestamp.None? || timestamp.value == "" then NoTimestamp
    else match days
      case None => Unknown
      case Some(d) => LabelForDays(d)
  }

  /** The day interval of each label, as an independent table. */
  predicate InBand(m: Maturity, days: int) {
    match m
    case Noobie => days == 0
    case Beginner => days <= 1 && days != 0
    case Intermediate => 2 <= days <= 30
    case Advanced => 31 <= days <= 90
    case Expert => 90 < days
    case NoTimestamp => false
    case Unknown => false
  }

  /** Every day count gets the label whose band contains it, and no other:
      the bands partition the integers. Negative counts (a registration
      time in the future) fall into Beginner's band. */
  lemma LabelForDaysIsBand(days: int, m: Maturity)
    ensures LabelForDays(days) == m <==> InBand(m, days)
  {
  }

  function Rank(m: Maturity): int {
    match m
    case Noobie => 0
    case Beginner => 1
    case Intermediate => 2
    case Advanced => 3
    case Expert => 4
    case NoTimestamp => 0
    case Unknown => 0
  }

  /** From day 0 on, more days never give a lower label. */
  lemma LabelForDaysMonotone(d: int, e: int)
    requires 0 <= d <= e
    ensures Rank(LabelForDays(d)) <= Rank(LabelForDays(e))
  {
  }

  /** `if post["status"]:` shows "Real", otherwise "Fake"; a missing status
      arrives as `None`, which is falsy. */
  function ShowsRealBadge(status: Status): (shown: bool)
    ensures shown <==> status == Bool(true) || status == Other(true)
  {
    match status
    case Bool(b) => b
    case Other(truthy) => truthy
    case Absent => false
  }

  /** A post stored by `create_post` shows the Real badge in the feed
      exactly when its image's score was at most 0.5. */
  lemma BadgeOfStoredPost(id: string, now: string, userId: string, content: string, url: string,
                          score: real, index: map<string, Item<UserBody>>)
    requires userId in index
    ensures var post := Store.NewPost(id, now, userId, content, url, Classify(score));
      Feed.Resolves(post, index) && (ShowsRealBadge(Feed.ViewOf(post, index).status) <==> score <= 0.5)
  {
  }

  /** The register tab calls the backend only when all four inputs are set;
      exactly then the backend's own field check passes and an image is sent. */
  predicate RegisterFormComplete(username: string, email: string, password: string, hasImage: bool)
    ensures RegisterFormComplete(username, email, password, hasImage)
        <==> Store.RegisterFieldsPresent(username, email, password) && hasImage
  {
    username != "" && email != "" && password != "" && hasImage
  }

  /** The post form calls the backend only with content and an image. */
  predicate PostFormComplete(content: string, hasImage: bool) {
    content != "" && hasImage
  }

  /** A post the form lets through is sent with the `id` of the logged-in
      user's `user_data`, which a successful login over a scan of the
      registrations table never leaves empty; so it passes the backend's own
      field check. */
  lemma PostFormPassesBackendCheck(scan: seq<Item<UserBody>>, t: map<string, Item<UserBody>>,
                                   username: string, password: string, content: string, hasImage: bool)
    requires Keyed(t) && IsScanOf(scan, t)
    requires Login.Login(scan, username, password).Success?
    requires PostFormComplete(content, hasImage)
    ensures Store.PostFieldsPresent(Login.Login(scan, username, password).value.id, content)
  {
    Login.LoginIdNonEmpty(scan, t, username, password);
  }
}
