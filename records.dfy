/**
 * The stored entity MovieTVShow (backend/server.py), its invariant, the record
 * that create builds, and the `$set` merge that update applies.
 */
module Records {
  import opened Wrappers
  import opened Rating
  import opened Catalog
  import opened Validation

  /** Timestamps are caller-supplied clock readings (the code reads utcnow). */
  type Timestamp = int

  datatype Record = Record(
    id: string,
    title: string,
    contentType: ContentType,
    year: int,
    genre: string,
    platform: Platform,
    description: Option<string>,
    ratings: Ratings,
    overallRating: real,
    createdAt: Timestamp,
    updatedAt: Timestamp)

  /** The field constraints of MovieTVShow itself. */
  predicate FieldsValid(rec: Record) {
    && TitleOk(rec.title)
    && YearOk(rec.year)
    && GenreOk(rec.genre)
    && DescriptionOk(rec.description)
    && ScoresInRange(rec.ratings)
    && InScoreRange(rec.overallRating)
  }

  /** The overall rating is the rounded mean of the record's own scores. */
  predicate RatingConsistent(rec: Record) {
    rec.overallRating == OverallRating(rec.ratings)
  }

  predicate WellFormed(rec: Record) {
    FieldsValid(rec) && RatingConsistent(rec)
  }

  /**
   * create_movie: the validated body, the computed overall rating, a fresh id
   * and both timestamps from one clock reading.
   */
  function NewRecord(m: MovieCreate, id: string, now: Timestamp): Record {
    Record(id, m.title, m.contentType, m.year, m.genre, m.platform, m.description,
           m.ratings, OverallRating(m.ratings), now, now)
  }

  /** The record create builds from a valid body is well formed. */
  lemma NewRecordWellFormed(m: MovieCreate, id: string, now: Timestamp)
    requires AcceptedCreate(m)
    ensures WellFormed(NewRecord(m, id, now))
  {
  }

  /**
   * The `update_data` dictionary: the fields of the body that were sent,
   * `updated_at`, and `overall_rating` once it has been recomputed.
   */
  datatype UpdateData = UpdateData(
    fields: MovieUpdate,
    updatedAt: Timestamp,
    overallRating: Option<real>)

  function Pick<T>(o: Option<T>, otherwise: T): T {
    if o.Some? then o.value else otherwise
  }

  /** `$set`: every key present in `data` replaces the stored field. */
  function ApplySet(rec: Record, data: UpdateData): Record {
    var u := data.fields;
    rec.(
      title := Pick(u.title, rec.title),
      contentType := Pick(u.contentType, rec.contentType),
      year := Pick(u.year, rec.year),
      genre := Pick(u.genre, rec.genre),
      platform := Pick(u.platform, rec.platform),
      description := match u.description
                     case Unset => rec.description
                     case Null => None
                     case Set(d) => Some(d),
      ratings := Pick(u.ratings, rec.ratings),
      overallRating := Pick(data.overallRating, rec.overallRating),
      updatedAt := data.updatedAt)
  }

  /**
   * What a partial update promises: the fields sent replace the stored ones,
   * every other field keeps its value, `updated_at` is the clock reading, and
   * the overall rating is recomputed exactly when new scores were sent.
   */
  predicate UpdatedFrom(before: Record, u: MovieUpdate, now: Timestamp, after: Record) {
    && after.id == before.id
    && after.createdAt == before.createdAt
    && after.updatedAt == now
    && after.title == (if u.title.Some? then u.title.value else before.title)
    && after.contentType == (if u.contentType.Some? then u.contentType.value else before.contentType)
    && after.year == (if u.year.Some? then u.year.value else before.year)
    && after.genre == (if u.genre.Some? then u.genre.value else before.genre)
    && after.platform == (if u.platform.Some? then u.platform.value else before.platform)
    && (u.description.Unset? ==> after.description == before.description)
    && (u.description.Null? ==> after.description == None)
    && (u.description.Set? ==> after.description == Some(u.description.value))
    && (u.ratings.None? ==> after.ratings == before.ratings && after.overallRating == before.overallRating)
    && (u.ratings.Some? ==> after.ratings == u.ratings.value && after.overallRating == OverallRating(u.ratings.value))
  }

  /** UpdatedFrom leaves no freedom: it fixes every field of the new record. */
  lemma UpdatedFromDeterministic(before: Record, u: MovieUpdate, now: Timestamp, a: Record, b: Record)
    requires UpdatedFrom(before, u, now, a) && UpdatedFrom(before, u, now, b)
    ensures a == b
  {
  }

  /**
   * Every update keeps the record invariant: a well-formed record updated
   * with an accepted body is well formed, and in particular its overall
   * rating is still the rounded mean of its scores.
   */
  lemma UpdatePreservesWellFormed(before: Record, u: MovieUpdate, now: Timestamp, after: Record)
    requires WellFormed(before) && AcceptedUpdate(u)
    requires UpdatedFrom(before, u, now, after)
    ensures WellFormed(after)
  {
  }

  /** An update that sends the same fields twice has the effect of sending them once. */
  lemma UpdateIdempotent(before: Record, u: MovieUpdate, now: Timestamp, once: Record, twice: Record)
    requires UpdatedFrom(before, u, now, once) && UpdatedFrom(once, u, now, twice)
    ensures twice == once
  {
  }

  /** An empty body changes nothing but `updated_at`. */
  lemma EmptyUpdateTouchesOnlyTimestamp(before: Record, now: Timestamp, after: Record)
    requires UpdatedFrom(before, MovieUpdate(None, None, None, None, None, Unset, None), now, after)
    ensures after == before.(updatedAt := now)
  {
  }
}
