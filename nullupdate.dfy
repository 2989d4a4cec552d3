/**
 * update_movie as the source writes it, on the stored document, where any
 * field can be null. Every field of MovieTVShowUpdate is Optional, so a body
 * that sends `null` for title, content_type, year, genre or
 * streaming_platform passes validation; `exclude_unset` keeps that null and
 * `$set` writes it into the document. Building MovieTVShow from the updated
 * document then fails, so the answer is a server error while the document
 * stays changed, and no later read can load it. A `null` for ratings fails
 * earlier, in RatingCategories(**None), before anything is written.
 *
 * The rest of the model uses the corrected check, Validation.UpdateErrors,
 * which refuses such a null; CorrectedUpdateAgrees shows that on every body
 * it accepts, the code as written behaves exactly like the model.
 */
module NullUpdate {
  import opened Wrappers
  import opened Rating
  import opened Catalog
  import opened Validation
  import opened Records

  /** A document of the collection: a field may hold null. */
  datatype Document = Document(
    id: string,
    title: Option<string>,
    contentType: Option<string>,
    year: Option<int>,
    genre: Option<string>,
    platform: Option<string>,
    description: Option<string>,
    ratings: Option<Ratings>,
    overallRating: Option<real>,
    createdAt: Timestamp,
    updatedAt: Timestamp)

  /** The document a record is stored as (`movie_obj.dict()`). */
  function ToDocument(rec: Record): Document {
    Document(rec.id, Some(rec.title), Some(ContentTypeValue(rec.contentType)), Some(rec.year),
             Some(rec.genre), Some(PlatformValue(rec.platform)), rec.description,
             Some(rec.ratings), Some(rec.overallRating), rec.createdAt, rec.updatedAt)
  }

  /** `MovieTVShow(**document)` succeeds. */
  predicate Loadable(d: Document) {
    && d.title.Some? && TitleOk(d.title.value)
    && d.contentType.Some? && ParseContentType(d.contentType.value).Some?
    && d.year.Some? && YearOk(d.year.value)
    && d.genre.Some? && GenreOk(d.genre.value)
    && d.platform.Some? && ParsePlatform(d.platform.value).Some?
    && DescriptionOk(d.description)
    && d.ratings.Some? && ScoresInRange(d.ratings.value)
    && d.overallRating.Some? && InScoreRange(d.overallRating.value)
  }

  /** One key of `$set`: absent keeps the stored value, null stores null. */
  function SetKey<T>(stored: Option<T>, p: Patch<T>): Option<T> {
    match p
    case Unset => stored
    case Null => None
    case Set(v) => Some(v)
  }

  /** The status the handler answers with and the document left in the store. */
  datatype Outcome = Outcome(status: int, stored: Document)

  /** update_movie as written, on a body that passed the declared validation. */
  function UpdateAsWritten(d: Document, p: UpdateRequest, now: Timestamp): (o: Outcome)
    requires ValidUpdateAsWritten(p)
    ensures o.status == 200 || o.status == 500
    ensures o.status == 200 <==> !p.ratings.Null? && Loadable(o.stored)
    ensures p.ratings.Null? ==> o.stored == d
    ensures o.stored.id == d.id && o.stored.createdAt == d.createdAt
    ensures !p.ratings.Null? ==> o.stored.updatedAt == now
    ensures p.ratings.Set? ==> o.stored.overallRating == Some(OverallRating(p.ratings.value))
    ensures p.ratings.Unset? ==> o.stored.overallRating == d.overallRating
    ensures p.title.Null? && !p.ratings.Null? ==> o.stored.title.None?
    ensures p.title.Set? && !p.ratings.Null? ==> o.stored.title == Some(p.title.value)
    ensures p.title.Unset? && !p.ratings.Null? ==> o.stored.title == d.title
    ensures !p.ratings.Null? ==>
      && o.stored.contentType == SetKey(d.contentType, p.contentType)
      && o.stored.year == SetKey(d.year, p.year)
      && o.stored.genre == SetKey(d.genre, p.genre)
      && o.stored.platform == SetKey(d.platform, p.streamingPlatform)
      && o.stored.description == SetKey(d.description, p.description)
      && o.stored.ratings == SetKey(d.ratings, p.ratings)
  {
    if p.ratings.Null? then Outcome(500, d)
    else
      var merged := d.(
        title := SetKey(d.title, p.title),
        contentType := SetKey(d.contentType, p.contentType),
        year := SetKey(d.year, p.year),
        genre := SetKey(d.genre, p.genre),
        platform := SetKey(d.platform, p.streamingPlatform),
        description := SetKey(d.description, p.description),
        ratings := SetKey(d.ratings, p.ratings),
        overallRating := if p.ratings.Set? then Some(OverallRating(p.ratings.value)) else d.overallRating,
        updatedAt := now);
      Outcome(if Loadable(merged) then 200 else 500, merged)
  }

  /**
   * As written: a `null` for title, content_type, year, genre or
   * streaming_platform passes validation, is stored, and leaves a document
   * that can no longer be loaded, with a server error as the answer.
   */
  lemma NullForRequiredFieldCorrupts(d: Document, p: UpdateRequest, now: Timestamp)
    requires Loadable(d) && ValidUpdateAsWritten(p)
    requires !NoNullForRequired(p) && !p.ratings.Null?
    ensures UpdateAsWritten(d, p, now).status == 500
    ensures !Loadable(UpdateAsWritten(d, p, now).stored)
    ensures UpdateAsWritten(d, p, now).stored != d
  {
  }

  /** A concrete case: the body `{"title": null}` against a stored movie. */
  lemma NullTitleExample()
    ensures var rec := Record("m1", "Inception", Movie, 2010, "Sci-Fi", Netflix, None,
                              Uniform(9.0), 9.0, 0, 0);
            var p := EmptyUpdate.(title := Null);
            && WellFormed(rec)
            && UpdateErrorsAsWritten(p) == []
            && UpdateAsWritten(ToDocument(rec), p, 1).status == 500
            && UpdateAsWritten(ToDocument(rec), p, 1).stored.title == None
  {
  }

  lemma WellFormedIsLoadable(rec: Record)
    requires WellFormed(rec)
    ensures Loadable(ToDocument(rec))
  {
  }

  /**
   * Corrected: on every body the corrected validation accepts, the code as
   * written answers 200 and stores exactly the record the model's update
   * produces, so the store keeps only loadable documents.
   */
  lemma CorrectedUpdateAgrees(rec: Record, p: UpdateRequest, now: Timestamp, after: Record)
    requires WellFormed(rec) && UpdateErrors(p) == []
    requires UpdatedFrom(rec, ValidateUpdate(p).value, now, after)
    ensures ValidUpdateAsWritten(p)
    ensures UpdateAsWritten(ToDocument(rec), p, now) == Outcome(200, ToDocument(after))
    ensures Loadable(ToDocument(after))
  {
    UpdatePreservesWellFormed(rec, ValidateUpdate(p).value, now, after);
    WellFormedIsLoadable(after);
  }
}
