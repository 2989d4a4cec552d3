/**
 * The field constraints that the request models MovieTVShowCreate and
 * MovieTVShowUpdate declare (backend/server.py), written out as checks that
 * collect one error per offending field, in declaration order, the way
 * request validation reports them before a handler runs.
 */
module Validation {
  import opened Wrappers
  import opened Rating
  import opened Catalog

  /**
   * A field of an update body: left out of the JSON, sent as `null`, or sent
   * with a value. Only the first is dropped by `exclude_unset`.
   */
  datatype Patch<+T> = Unset | Null | Set(value: T)

  datatype Violation =
    | MinLength(min: nat)
    | MaxLength(max: nat)
    | GreaterEqual(lower: int)
    | LessEqual(upper: int)
    | NotAMember
    | NotNullable

  datatype FieldError = FieldError(field: string, violation: Violation)

  const MinTextLength: nat := 1
  const TitleMaxLength: nat := 200
  const GenreMaxLength: nat := 100
  const DescriptionMaxLength: nat := 1000
  const FirstYear: int := 1900
  const LastYear: int := 2030

  predicate TitleOk(s: string) { MinTextLength <= |s| <= TitleMaxLength }
  predicate GenreOk(s: string) { MinTextLength <= |s| <= GenreMaxLength }
  predicate YearOk(y: int) { FirstYear <= y <= LastYear }
  predicate DescriptionOk(d: Option<string>) { d.Some? ==> |d.value| <= DescriptionMaxLength }

  /** The locations an error list reports. */
  function Fields(e: seq<FieldError>): set<string> {
    if e == [] then {} else {e[0].field} + Fields(e[1..])
  }


  /** The list reports `field` when it is not empty, and nothing else. */
  predicate OnlyField(e: seq<FieldError>, field: string) {
    Fields(e) == if e == [] then {} else {field}
  }

  lemma {:induction false} FieldsConcat(a: seq<FieldError>, b: seq<FieldError>)
    ensures Fields(a + b) == Fields(a) + Fields(b)
  {
    if a == [] {
      assert a + b == b;
    } else {
      FieldsConcat(a[1..], b);
      assert (a + b)[1..] == a[1..] + b;
    }
  }

  function LengthErrors(field: string, s: string, min: nat, max: nat): (r: seq<FieldError>)
    ensures OnlyField(r, field)
    ensures r == [] <==> min <= |s| <= max
    ensures |r| <= 1
  {
    if |s| < min then [FieldError(field, MinLength(min))]
    else if |s| > max then [FieldError(field, MaxLength(max))]
    else []
  }

  function RangeErrors(field: string, x: int, lower: int, upper: int): (r: seq<FieldError>)
    ensures OnlyField(r, field)
    ensures r == [] <==> lower <= x <= upper
    ensures |r| <= 1
  {
    if x < lower then [FieldError(field, GreaterEqual(lower))]
    else if x > upper then [FieldError(field, LessEqual(upper))]
    else []
  }

  function ScoreErrors(field: string, x: real): (r: seq<FieldError>)
    ensures OnlyField(r, field)
    ensures r == [] <==> InScoreRange(x)
    ensures |r| <= 1
  {
    if x < MinScore then [FieldError(field, GreaterEqual(0))]
    else if x > MaxScore then [FieldError(field, LessEqual(10))]
    else []
  }

  function MemberErrors(field: string, isMember: bool): (r: seq<FieldError>)
    ensures OnlyField(r, field)
    ensures r == [] <==> isMember
  {
    if isMember then [] else [FieldError(field, NotAMember)]
  }

  function DescriptionErrors(d: Option<string>): (r: seq<FieldError>)
    ensures r == [] <==> DescriptionOk(d)
    ensures OnlyField(r, "description")
  {
    match d
    case None => []
    case Some(s) => LengthErrors("description", s, 0, DescriptionMaxLength)
  }

  /** The seven `ge=0, le=10` checks of RatingCategories. */
  function RatingsErrors(r: Ratings): (e: seq<FieldError>)
    ensures e == [] <==> ScoresInRange(r)
    ensures |e| <= 7
  {
    ScoreErrors("ratings.story", r.story)
      + ScoreErrors("ratings.acting", r.acting)
      + ScoreErrors("ratings.direction", r.direction)
      + ScoreErrors("ratings.music_sound", r.musicSound)
      + ScoreErrors("ratings.cinematography", r.cinematography)
      + ScoreErrors("ratings.action_stunts", r.actionStunts)
      + ScoreErrors("ratings.emotional_impact", r.emotionalImpact)
  }

  /** The locations the score checks can report. */
  const RatingFields: set<string> := {
    "ratings.story", "ratings.acting", "ratings.direction", "ratings.music_sound",
    "ratings.cinematography", "ratings.action_stunts", "ratings.emotional_impact"}

  function Report(bad: bool, field: string): set<string> {
    if bad then {field} else {}
  }

  /** Each score is reported exactly when it is out of [0, 10], and nothing else is reported. */
  lemma RatingsErrorsPerField(r: Ratings)
    ensures Fields(RatingsErrors(r)) ==
      Report(!InScoreRange(r.story), "ratings.story")
      + Report(!InScoreRange(r.acting), "ratings.acting")
      + Report(!InScoreRange(r.direction), "ratings.direction")
      + Report(!InScoreRange(r.musicSound), "ratings.music_sound")
      + Report(!InScoreRange(r.cinematography), "ratings.cinematography")
      + Report(!InScoreRange(r.actionStunts), "ratings.action_stunts")
      + Report(!InScoreRange(r.emotionalImpact), "ratings.emotional_impact")
    ensures Fields(RatingsErrors(r)) <= RatingFields
  {
    var e1 := ScoreErrors("ratings.story", r.story);
    var e2 := ScoreErrors("ratings.acting", r.acting);
    var e3 := ScoreErrors("ratings.direction", r.direction);
    var e4 := ScoreErrors("ratings.music_sound", r.musicSound);
    var e5 := ScoreErrors("ratings.cinematography", r.cinematography);
    var e6 := ScoreErrors("ratings.action_stunts", r.actionStunts);
    var e7 := ScoreErrors("ratings.emotional_impact", r.emotionalImpact);
    FieldsConcat(e1, e2);
    FieldsConcat(e1 + e2, e3);
    FieldsConcat(e1 + e2 + e3, e4);
    FieldsConcat(e1 + e2 + e3 + e4, e5);
    FieldsConcat(e1 + e2 + e3 + e4 + e5, e6);
    FieldsConcat(e1 + e2 + e3 + e4 + e5 + e6, e7);
  }

  // ---------------------------------------------------------------- create

  /** A create body as it arrives: the enumerations are still strings. */
  datatype CreateRequest = CreateRequest(
    title: string,
    contentType: string,
    year: int,
    genre: string,
    streamingPlatform: string,
    description: Option<string>,
    ratings: Ratings)

  /** Every constraint of MovieTVShowCreate, stated declaratively. */
  predicate ValidCreate(p: CreateRequest) {
    && TitleOk(p.title)
    && ParseContentType(p.contentType).Some?
    && YearOk(p.year)
    && GenreOk(p.genre)
    && ParsePlatform(p.streamingPlatform).Some?
    && DescriptionOk(p.description)
    && ScoresInRange(p.ratings)
  }

  /** All violations of a create body; none exactly when the body is valid. */
  function CreateErrors(p: CreateRequest): (e: seq<FieldError>)
    ensures e == [] <==> ValidCreate(p)
  {
    LengthErrors("title", p.title, MinTextLength, TitleMaxLength)
      + MemberErrors("content_type", ParseContentType(p.contentType).Some?)
      + RangeErrors("year", p.year, FirstYear, LastYear)
      + LengthErrors("genre", p.genre, MinTextLength, GenreMaxLength)
      + MemberErrors("streaming_platform", ParsePlatform(p.streamingPlatform).Some?)
      + DescriptionErrors(p.description)
      + RatingsErrors(p.ratings)
  }

  /**
   * Each create field is reported exactly when its own constraint fails, and
   * the scores are reported as RatingsErrorsPerField states.
   */
  lemma CreateErrorsPerField(p: CreateRequest)
    ensures Fields(CreateErrors(p)) ==
      Report(!TitleOk(p.title), "title")
      + Report(ParseContentType(p.contentType).None?, "content_type")
      + Report(!YearOk(p.year), "year")
      + Report(!GenreOk(p.genre), "genre")
      + Report(ParsePlatform(p.streamingPlatform).None?, "streaming_platform")
      + Report(!DescriptionOk(p.description), "description")
      + Fields(RatingsErrors(p.ratings))
  {
    var e1 := LengthErrors("title", p.title, MinTextLength, TitleMaxLength);
    var e2 := MemberErrors("content_type", ParseContentType(p.contentType).Some?);
    var e3 := RangeErrors("year", p.year, FirstYear, LastYear);
    var e4 := LengthErrors("genre", p.genre, MinTextLength, GenreMaxLength);
    var e5 := MemberErrors("streaming_platform", ParsePlatform(p.streamingPlatform).Some?);
    var e6 := DescriptionErrors(p.description);
    FieldsConcat(e1, e2);
    FieldsConcat(e1 + e2, e3);
    FieldsConcat(e1 + e2 + e3, e4);
    FieldsConcat(e1 + e2 + e3 + e4, e5);
    FieldsConcat(e1 + e2 + e3 + e4 + e5, e6);
    FieldsConcat(e1 + e2 + e3 + e4 + e5 + e6, RatingsErrors(p.ratings));
  }

  /** A validated create body (the MovieTVShowCreate instance). */
  datatype MovieCreate = MovieCreate(
    title: string,
    contentType: ContentType,
    year: int,
    genre: string,
    platform: Platform,
    description: Option<string>,
    ratings: Ratings)

  predicate AcceptedCreate(m: MovieCreate) {
    && TitleOk(m.title)
    && YearOk(m.year)
    && GenreOk(m.genre)
    && DescriptionOk(m.description)
    && ScoresInRange(m.ratings)
  }

  /** The validated body holds exactly what the request sent. */
  predicate CarriesCreate(p: CreateRequest, m: MovieCreate) {
    && m.title == p.title
    && ContentTypeValue(m.contentType) == p.contentType
    && m.year == p.year
    && m.genre == p.genre
    && PlatformValue(m.platform) == p.streamingPlatform
    && m.description == p.description
    && m.ratings == p.ratings
  }

  function ValidateCreate(p: CreateRequest): (r: Result<MovieCreate, seq<FieldError>>)
    ensures r.Ok? <==> ValidCreate(p)
    ensures r.Ok? ==> AcceptedCreate(r.value) && CarriesCreate(p, r.value)
    ensures r.Err? ==> r.error == CreateErrors(p) && r.error != []
  {
    var errors := CreateErrors(p);
    if errors != [] then Err(errors)
    else
      Ok(MovieCreate(p.title, ParseContentType(p.contentType).value, p.year, p.genre,
                     ParsePlatform(p.streamingPlatform).value, p.description, p.ratings))
  }

  // ---------------------------------------------------------------- update

  /** An update body as it arrives: every field may be absent or `null`. */
  datatype UpdateRequest = UpdateRequest(
    title: Patch<string>,
    contentType: Patch<string>,
    year: Patch<int>,
    genre: Patch<string>,
    streamingPlatform: Patch<string>,
    description: Patch<string>,
    ratings: Patch<Ratings>)

  const EmptyUpdate := UpdateRequest(Unset, Unset, Unset, Unset, Unset, Unset, Unset)

  /**
   * The constraints of MovieTVShowUpdate as declared: a field that is sent
   * with a value is checked like the create field; an absent field or a
   * `null` passes, since every field is Optional.
   */
  predicate ValidUpdateAsWritten(p: UpdateRequest) {
    && (p.title.Set? ==> TitleOk(p.title.value))
    && (p.contentType.Set? ==> ParseContentType(p.contentType.value).Some?)
    && (p.year.Set? ==> YearOk(p.year.value))
    && (p.genre.Set? ==> GenreOk(p.genre.value))
    && (p.streamingPlatform.Set? ==> ParsePlatform(p.streamingPlatform.value).Some?)
    && (p.description.Set? ==> |p.description.value| <= DescriptionMaxLength)
    && (p.ratings.Set? ==> ScoresInRange(p.ratings.value))
  }

  /** No `null` for a field that a stored record cannot hold as null. */
  predicate NoNullForRequired(p: UpdateRequest) {
    && !p.title.Null?
    && !p.contentType.Null?
    && !p.year.Null?
    && !p.genre.Null?
    && !p.streamingPlatform.Null?
    && !p.ratings.Null?
  }

  /** The corrected update constraints: those declared, and no stray `null`. */
  predicate ValidUpdate(p: UpdateRequest) {
    ValidUpdateAsWritten(p) && NoNullForRequired(p)
  }

  function NullErrors(field: string, rejectNull: bool): (r: seq<FieldError>)
    ensures OnlyField(r, field)
    ensures r == [] <==> !rejectNull
  {
    if rejectNull then [FieldError(field, NotNullable)] else []
  }

  function PatchTextErrors(field: string, p: Patch<string>, max: nat, rejectNull: bool): (r: seq<FieldError>)
    ensures OnlyField(r, field)
    ensures r == [] <==> (p.Set? ==> MinTextLength <= |p.value| <= max) && (p.Null? ==> !rejectNull)
  {
    match p
    case Unset => []
    case Null => NullErrors(field, rejectNull)
    case Set(s) => LengthErrors(field, s, MinTextLength, max)
  }

  function PatchMemberErrors(field: string, p: Patch<string>, isMember: string -> bool, rejectNull: bool): (r: seq<FieldError>)
    ensures OnlyField(r, field)
    ensures r == [] <==> (p.Set? ==> isMember(p.value)) && (p.Null? ==> !rejectNull)
  {
    match p
    case Unset => []
    case Null => NullErrors(field, rejectNull)
    case Set(s) => MemberErrors(field, isMember(s))
  }

  function PatchYearErrors(p: Patch<int>, rejectNull: bool): (r: seq<FieldError>)
    ensures r == [] <==> (p.Set? ==> YearOk(p.value)) && (p.Null? ==> !rejectNull)
    ensures OnlyField(r, "year")
  {
    match p
    case Unset => []
    case Null => NullErrors("year", rejectNull)
    case Set(y) => RangeErrors("year", y, FirstYear, LastYear)
  }

  /** The description is nullable in the record, so a `null` always passes. */
  function PatchDescriptionErrors(p: Patch<string>): (r: seq<FieldError>)
    ensures r == [] <==> (p.Set? ==> |p.value| <= DescriptionMaxLength)
    ensures OnlyField(r, "description")
  {
    match p
    case Set(d) => LengthErrors("description", d, 0, DescriptionMaxLength)
    case _ => []
  }

  function PatchRatingsErrors(p: Patch<Ratings>, rejectNull: bool): (r: seq<FieldError>)
    ensures r == [] <==> (p.Set? ==> ScoresInRange(p.value)) && (p.Null? ==> !rejectNull)
    ensures !p.Set? ==> OnlyField(r, "ratings")
  {
    match p
    case Unset => []
    case Null => NullErrors("ratings", rejectNull)
    case Set(r) => RatingsErrors(r)
  }

  /**
   * The violations of an update body. With `rejectNulls` false these are the
   * checks as declared; with it true a `null` for a non-nullable field is
   * reported as well.
   */
  function UpdateErrorsWith(p: UpdateRequest, rejectNulls: bool): (e: seq<FieldError>)
    ensures e == [] <==> ValidUpdateAsWritten(p) && (rejectNulls ==> NoNullForRequired(p))
  {
    PatchTextErrors("title", p.title, TitleMaxLength, rejectNulls)
      + PatchMemberErrors("content_type", p.contentType, s => ParseContentType(s).Some?, rejectNulls)
      + PatchYearErrors(p.year, rejectNulls)
      + PatchTextErrors("genre", p.genre, GenreMaxLength, rejectNulls)
      + PatchMemberErrors("streaming_platform", p.streamingPlatform, s => ParsePlatform(s).Some?, rejectNulls)
      + PatchDescriptionErrors(p.description)
      + PatchRatingsErrors(p.ratings, rejectNulls)
  }

  /**
   * A field sent with a value is reported exactly when that value fails its
   * constraint; a field sent as `null` is reported exactly when nulls are
   * rejected and the field is not the description; an absent field never is.
   * A `null` for ratings is reported at "ratings", a ratings body per score.
   */
  lemma UpdateErrorsPerField(p: UpdateRequest, rejectNulls: bool)
    ensures Fields(UpdateErrorsWith(p, rejectNulls)) ==
      Report((p.title.Set? && !TitleOk(p.title.value)) || (p.title.Null? && rejectNulls), "title")
      + Report((p.contentType.Set? && ParseContentType(p.contentType.value).None?)
               || (p.contentType.Null? && rejectNulls), "content_type")
      + Report((p.year.Set? && !YearOk(p.year.value)) || (p.year.Null? && rejectNulls), "year")
      + Report((p.genre.Set? && !GenreOk(p.genre.value)) || (p.genre.Null? && rejectNulls), "genre")
      + Report((p.streamingPlatform.Set? && ParsePlatform(p.streamingPlatform.value).None?)
               || (p.streamingPlatform.Null? && rejectNulls), "streaming_platform")
      + Report(p.description.Set? && |p.description.value| > DescriptionMaxLength, "description")
      + (if p.ratings.Set? then Fields(RatingsErrors(p.ratings.value))
         else Report(p.ratings.Null? && rejectNulls, "ratings"))
  {
    var e1 := PatchTextErrors("title", p.title, TitleMaxLength, rejectNulls);
    var e2 := PatchMemberErrors("content_type", p.contentType, s => ParseContentType(s).Some?, rejectNulls);
    var e3 := PatchYearErrors(p.year, rejectNulls);
    var e4 := PatchTextErrors("genre", p.genre, GenreMaxLength, rejectNulls);
    var e5 := PatchMemberErrors("streaming_platform", p.streamingPlatform, s => ParsePlatform(s).Some?, rejectNulls);
    var e6 := PatchDescriptionErrors(p.description);
    var e7 := PatchRatingsErrors(p.ratings, rejectNulls);
    assert UpdateErrorsWith(p, rejectNulls) == e1 + e2 + e3 + e4 + e5 + e6 + e7;
    FieldsConcat(e1, e2);
    FieldsConcat(e1 + e2, e3);
    FieldsConcat(e1 + e2 + e3, e4);
    FieldsConcat(e1 + e2 + e3 + e4, e5);
    FieldsConcat(e1 + e2 + e3 + e4 + e5, e6);
    FieldsConcat(e1 + e2 + e3 + e4 + e5 + e6, e7);
  }

  /** Declared update validation: the reported fields are those sent with a bad value. */
  lemma UpdateErrorsAsWrittenPerField(p: UpdateRequest)
    ensures Fields(UpdateErrorsAsWritten(p)) ==
      Report(p.title.Set? && !TitleOk(p.title.value), "title")
      + Report(p.contentType.Set? && ParseContentType(p.contentType.value).None?, "content_type")
      + Report(p.year.Set? && !YearOk(p.year.value), "year")
      + Report(p.genre.Set? && !GenreOk(p.genre.value), "genre")
      + Report(p.streamingPlatform.Set? && ParsePlatform(p.streamingPlatform.value).None?, "streaming_platform")
      + Report(p.description.Set? && |p.description.value| > DescriptionMaxLength, "description")
      + (if p.ratings.Set? then Fields(RatingsErrors(p.ratings.value)) else {})
  {
    UpdateErrorsPerField(p, false);
  }

  /** Update validation as the source declares it: a `null` always passes. */
  function UpdateErrorsAsWritten(p: UpdateRequest): (e: seq<FieldError>)
    ensures e == [] <==> ValidUpdateAsWritten(p)
  {
    UpdateErrorsWith(p, false)
  }

  /** Corrected update validation, the one the store uses. */
  function UpdateErrors(p: UpdateRequest): (e: seq<FieldError>)
    ensures e == [] <==> ValidUpdate(p)
  {
    UpdateErrorsWith(p, true)
  }

  /** A validated update body: only the fields that were sent are present. */
  datatype MovieUpdate = MovieUpdate(
    title: Option<string>,
    contentType: Option<ContentType>,
    year: Option<int>,
    genre: Option<string>,
    platform: Option<Platform>,
    description: Patch<string>,
    ratings: Option<Ratings>)

  predicate AcceptedUpdate(u: MovieUpdate) {
    && (u.title.Some? ==> TitleOk(u.title.value))
    && (u.year.Some? ==> YearOk(u.year.value))
    && (u.genre.Some? ==> GenreOk(u.genre.value))
    && (u.description.Set? ==> |u.description.value| <= DescriptionMaxLength)
    && (u.ratings.Some? ==> ScoresInRange(u.ratings.value))
  }

  /** A field is present in the validated update exactly when it was sent, with the value sent. */
  predicate CarriesUpdate(p: UpdateRequest, u: MovieUpdate) {
    && (u.title.Some? <==> p.title.Set?) && (u.title.Some? ==> u.title.value == p.title.value)
    && (u.contentType.Some? <==> p.contentType.Set?)
    && (u.contentType.Some? ==> ContentTypeValue(u.contentType.value) == p.contentType.value)
    && (u.year.Some? <==> p.year.Set?) && (u.year.Some? ==> u.year.value == p.year.value)
    && (u.genre.Some? <==> p.genre.Set?) && (u.genre.Some? ==> u.genre.value == p.genre.value)
    && (u.platform.Some? <==> p.streamingPlatform.Set?)
    && (u.platform.Some? ==> PlatformValue(u.platform.value) == p.streamingPlatform.value)
    && u.description == p.description
    && (u.ratings.Some? <==> p.ratings.Set?) && (u.ratings.Some? ==> u.ratings.value == p.ratings.value)
  }

  function PresentValue<T>(p: Patch<T>): Option<T> {
    if p.Set? then Some(p.value) else None
  }

  function ValidateUpdate(p: UpdateRequest): (r: Result<MovieUpdate, seq<FieldError>>)
    ensures r.Ok? <==> ValidUpdate(p)
    ensures r.Ok? ==> AcceptedUpdate(r.value) && CarriesUpdate(p, r.value)
    ensures r.Err? ==> r.error == UpdateErrors(p) && r.error != []
  {
    var errors := UpdateErrors(p);
    if errors != [] then Err(errors)
    else
      Ok(MovieUpdate(
        PresentValue(p.title),
        if p.contentType.Set? then ParseContentType(p.contentType.value) else None,
        PresentValue(p.year),
        PresentValue(p.genre),
        if p.streamingPlatform.Set? then ParsePlatform(p.streamingPlatform.value) else None,
        p.description,
        PresentValue(p.ratings)))
  }

  /** The corrected checks only add rejections: what they accept, the declared ones accept. */
  lemma CorrectedUpdateIsStricter(p: UpdateRequest)
    ensures UpdateErrors(p) == [] ==> UpdateErrorsAsWritten(p) == []
    ensures UpdateErrorsAsWritten(p) == [] && NoNullForRequired(p) ==> UpdateErrors(p) == []
  {
  }

  /** The test body with story 11 is refused, and the refusal names that score. */
  lemma ScoreElevenRejected(p: CreateRequest)
    requires p.ratings.story == 11.0
    ensures !ValidCreate(p)
    ensures FieldError("ratings.story", LessEqual(10)) in CreateErrors(p)
  {
  }
}
