/**
 * The two enumerations of backend/server.py: ContentType and
 * StreamingPlatform, with the string value each member carries on the wire,
 * and the `/platforms` listing.
 */
module Catalog {
  import opened Wrappers

  datatype ContentType = Movie | TvSeries

  datatype Platform =
    | Netflix
    | AmazonPrimeVideo
    | DisneyPlusHotstar
    | Hulu
    | HboMax
    | AppleTvPlus
    | ParamountPlus
    | YouTube
    | Other

  function ContentTypeValue(c: ContentType): string {
    match c
    case Movie => "movie"
    case TvSeries => "tv_series"
  }

  function PlatformValue(p: Platform): string {
    match p
    case Netflix => "Netflix"
    case AmazonPrimeVideo => "Amazon Prime Video"
    case DisneyPlusHotstar => "Disney+ Hotstar"
    case Hulu => "Hulu"
    case HboMax => "HBO Max"
    case AppleTvPlus => "Apple TV+"
    case ParamountPlus => "Paramount+"
    case YouTube => "YouTube"
    case Other => "Other"
  }

  /** The members in declaration order, the order the enum iterates in. */
  const AllPlatforms: seq<Platform> :=
    [Netflix, AmazonPrimeVideo, DisneyPlusHotstar, Hulu, HboMax,
     AppleTvPlus, ParamountPlus, YouTube, Other]

  /** Enum coercion of a request string: a member exactly when some member has that value. */
  function ParseContentType(s: string): (r: Option<ContentType>)
    ensures r.Some? ==> ContentTypeValue(r.value) == s
    ensures forall c :: ContentTypeValue(c) == s ==> r == Some(c)
  {
    if s == "movie" then Some(Movie)
    else if s == "tv_series" then Some(TvSeries)
    else None
  }

  function ParsePlatform(s: string): (r: Option<Platform>)
    ensures r.Some? ==> PlatformValue(r.value) == s
    ensures forall p :: PlatformValue(p) == s ==> r == Some(p)
  {
    if s == "Netflix" then Some(Netflix)
    else if s == "Amazon Prime Video" then Some(AmazonPrimeVideo)
    else if s == "Disney+ Hotstar" then Some(DisneyPlusHotstar)
    else if s == "Hulu" then Some(Hulu)
    else if s == "HBO Max" then Some(HboMax)
    else if s == "Apple TV+" then Some(AppleTvPlus)
    else if s == "Paramount+" then Some(ParamountPlus)
    else if s == "YouTube" then Some(YouTube)
    else if s == "Other" then Some(Other)
    else None
  }

  /** Every platform is listed exactly once. */
  lemma AllPlatformsComplete(p: Platform)
    ensures p in AllPlatforms
    ensures forall i, j | 0 <= i < j < |AllPlatforms| :: AllPlatforms[i] != AllPlatforms[j]
  {
  }

  /**
   * get_platforms: the string values of all nine platforms, in declaration
   * order, all distinct; a string is listed exactly when it names a platform.
   */
  function PlatformValues(): (r: seq<string>)
    ensures |r| == |AllPlatforms| == 9
    ensures forall i | 0 <= i < |r| :: ParsePlatform(r[i]) == Some(AllPlatforms[i])
    ensures forall i, j | 0 <= i < j < |r| :: r[i] != r[j]
    ensures forall s :: s in r <==> ParsePlatform(s).Some?
  {
    var r := seq(|AllPlatforms|, i requires 0 <= i < |AllPlatforms| => PlatformValue(AllPlatforms[i]));
    assert forall p :: PlatformValue(p) in r by {
      forall p ensures PlatformValue(p) in r {
        AllPlatformsComplete(p);
        var i :| 0 <= i < |AllPlatforms| && AllPlatforms[i] == p;
        assert r[i] == PlatformValue(p);
      }
    }
    r
  }
}
