# CineRating rating-record service, modelled in Dafny

CineRating keeps rating records of movies and TV series. Each record has a
title, a content type (`movie` or `tv_series`), a release year, a genre, one
of nine streaming platforms, an optional description, seven category scores
(story, acting, direction, music & sound, cinematography, action & stunts,
emotional impact) and an overall rating. The overall rating is derived: it
is the mean of the seven scores rounded to one decimal place. The backend
(`backend/server.py`) checks the declared field constraints on every request
body. It creates, reads, partially updates and deletes records in one
collection, lists them with optional platform and content-type filters,
newest first, and reports counts per content type and per platform.

This project models that backend.

- `rating.dfy` (module `Rating`): the seven scores, the score range and the
  overall rating. Rounding is round-half-to-even on exact reals.
- `catalog.dfy` (`Catalog`): the two enumerations, their wire strings, and
  the `/platforms` listing.
- `validation.dfy` (`Validation`): the constraints of the create and update
  bodies, as functions that collect every violation, in field order.
- `records.dfy` (`Records`): the stored record and its invariant (the
  overall rating is the rounded mean of the record's scores). Also the
  record create builds, and the `$set` merge that update applies.
- `query.dfy` (`Query`): the listing filter and the newest-first selection,
  capped at the limit.
- `stats.dfy` (`Stats`): the content-type counts and the per-platform
  distribution (group, then sort by count, descending).
- `store.dfy` (`Store`): the collection, as the `map` field of the class
  `MovieStore`, with one method per handler.
- `nullupdate.dfy` (`NullUpdate`): the update handler as written, on raw
  documents, for the finding below.
- `scenarios.dfy` (`Scenarios`): request sequences whose outcome follows
  from the store's contracts alone.
- `wrappers.dfy` (`Wrappers`): `Option` and `Result`.

Modelling choices:

- Scores are `real`. `round(total / 7, 1)` rounds to the nearest tenth, with
  ties going to the even tenth, as Python's `round` does. `Rating.RoundHalfEven`
  states that rule, and `Rating.RoundHalfEvenUnique` proves that the rule fixes
  the result.
- Ids and clocks are inputs. A new record's id is any id not already in the
  store (the source draws a random UUID). Timestamps are integer clock
  readings that the caller supplies.
- A request body arrives with its enumerations still as strings, so an
  unknown content type or platform is a validation error like any other.
- A field of an update body is absent, `null`, or a value (`Validation.Patch`),
  because `exclude_unset` keeps an explicit `null`.
- The handlers answer with `Result` values. `Store.ApiError` keeps the
  distinction between 422 (validation), 404 (unknown id) and 500.

Three behaviours of the code that the model keeps:

- The code only reassigns `updated_at` (backend/server.py:165). The model
  does not promise that an update moves it strictly later.
- The code answers a negative `limit` with status 500. Mongo sorts before it
  limits, and the cursor's `to_list` refuses a negative length.
- There is no seeding route in `backend/server.py`.

## Model

| member | source | states |
|---|---|---|
| `Rating.RoundHalfEven` | backend/server.py:91 | the result is an integer within 1/2 of the input, and it is even when the input lies exactly half-way |
| `Rating.RoundHalfEvenUnique` | backend/server.py:91 | any integer within 1/2 of the input that is even on a tie equals the rounded value, so the two properties define the rounding |
| `Rating.OverallRating` | backend/server.py:86-91 | the overall rating is a whole number of tenths within 0.05 of the mean of the seven scores, and the even tenth on an exact tie |
| `Rating.RoundTenth` | backend/server.py:91 | `round(x, 1)` is a whole number of tenths within 0.05 of `x`, and on an exact tie it is the even tenth |
| `Rating.TieGoesToEvenTenth` | backend/server.py:91 | seven scores of 0.25 give 0.2 and seven of 0.75 give 0.8: a tie at tenths goes to the even tenth |
| `Rating.OverallRatingInRange` | backend/server.py:86-91 | when all seven scores are in [0, 10], so is the overall rating, which is the constraint MovieTVShow puts on `overall_rating` |
| `Rating.OverallRatingNearMean` | backend/server.py:86-91 | the overall rating differs from the exact mean of the seven scores by at most 0.05 |
| `Rating.UniformOverallRating` | backend/server.py:86-91 | seven equal scores that are a whole number of tenths have that score as their overall rating |
| `Rating.AllZeroAndAllTenScores` | backend_test.py:172-206 | all-zero scores give overall 0 and all-ten scores give overall 10 |
| `Rating.CreateExampleRating` | backend_test.py:144-146 | the create test's scores (9.5, 9.0, 9.8, 9.2, 9.7, 8.9, 8.5) give overall 9.2 |
| `Rating.UpdateExampleRating` | backend_test.py:336-366 | the update test's scores (9.0, 8.5, 9.3, 8.8, 9.2, 8.4, 8.0) give overall 8.7 |
| `Catalog.ParseContentType` | backend/server.py:29-31 | a string is coerced to a content type exactly when it is that member's value (`movie`, `tv_series`) |
| `Catalog.ParsePlatform` | backend/server.py:33-42 | a string is coerced to a platform exactly when it is that member's value, for the nine platforms |
| `Catalog.AllPlatformsComplete` | backend/server.py:33-42 | the platform list holds every platform, each once |
| `Catalog.PlatformValues` | backend/server.py:199-202 | `/platforms` lists nine distinct strings, in declaration order. A string is listed exactly when it names a platform |
| `Validation.RatingsErrors` | backend/server.py:45-52 | the seven score checks report nothing exactly when every score is in [0, 10] |
| `Validation.RatingsErrorsPerField` | backend/server.py:45-52 | the score errors name `ratings.story`, `ratings.acting`, … `ratings.emotional_impact` each exactly when that score is outside [0, 10], and name no other location |
| `Validation.CreateErrors` | backend/server.py:67-74 | a create body has no violation exactly when title is 1..200 characters, content type and platform are members, year is in 1900..2030, genre is 1..100 characters, the description (if any) is at most 1000 characters, and every score is in [0, 10] |
| `Validation.ValidateCreate` | backend/server.py:67-74 | a valid body is accepted with exactly the fields sent, enums decoded. An invalid body is refused with its non-empty list of violations |
| `Validation.CreateErrorsPerField` | backend/server.py:67-74 | the create errors name `title`, `content_type`, `year`, `genre`, `streaming_platform` and `description` each exactly when that field's own constraint fails, plus the score locations of the ratings |
| `Validation.ScoreElevenRejected` | backend_test.py:208-222 | a create body with story score 11 is refused, and the refusal names `ratings.story` for its upper bound 10 |
| `Validation.UpdateErrorsAsWritten` | backend/server.py:76-83 | the declared update checks: a field sent with a value is checked like the create field, and an absent field or a `null` passes |
| `Validation.UpdateErrors` | backend/server.py:76-83 | the corrected update checks: the declared ones, plus a `null` is refused for every field except the description |
| `Validation.UpdateErrorsPerField` | backend/server.py:76-83 | with nulls rejected or not, each update field is named exactly when it was sent with a value that fails its constraint, or sent as `null` while nulls are rejected (never the description); a ratings body is reported per score, a `null` ratings at `ratings`; an absent field is never named |
| `Validation.UpdateErrorsAsWrittenPerField` | backend/server.py:76-83 | the declared update checks name exactly the fields sent with a bad value, and never a field sent as `null` |
| `Validation.ValidateUpdate` | backend/server.py:164 | an accepted update holds a field exactly when the body sent it, with the value sent (`exclude_unset`). A refused one carries its violations |
| `Validation.CorrectedUpdateIsStricter` | backend/server.py:76-83 | the corrected checks accept a subset of what the declared ones accept, and they differ only on `null` for a field other than the description |
| `Records.NewRecordWellFormed` | backend/server.py:98-113 | the record that create builds from a valid body meets every MovieTVShow constraint, and its `overall_rating` is the rounded mean of its scores |
| `Records.UpdatePreservesWellFormed` | backend/server.py:163-175 | an accepted partial update of a well-formed record gives a well-formed record, so the overall-rating invariant survives every update |
| `Records.UpdatedFromDeterministic` | backend/server.py:164-175 | the update contract fixes every field: sent fields replace, unsent fields stay, `updated_at` is the clock reading, and the ratings pair changes only together |
| `Records.UpdateIdempotent` | backend/server.py:164-175 | applying the same update twice at the same time equals applying it once |
| `Records.EmptyUpdateTouchesOnlyTimestamp` | backend/server.py:164-165 | an empty update body changes only `updated_at` |
| `Query.NoFilterMatchesEverything` | backend/server.py:126-130 | with no filter, every stored record matches |
| `Query.BothFiltersConjoin` | backend/server.py:126-130 | with both filters, a record matches exactly when its platform and its content type both equal the filters |
| `Query.Newest` | backend/server.py:133 | the chosen id is in the set, and no record in the set is newer |
| `Query.SelectNewest` | backend/server.py:133-134 | the result lists distinct stored records that match the filter, newest first. Its length is min(limit, number of matches). No match left out is newer than a listed record, and under the limit every match is listed |
| `Stats.TypeCountsPartition` | backend/server.py:208-209 | movies and TV series together account for every record |
| `Stats.GroupedRows` | backend/server.py:212-213 | a grouping row appears exactly when its platform occurs, with its true count, which is positive |
| `Stats.GroupedDistinct` | backend/server.py:212-213 | grouping distinct platforms gives rows with distinct platforms |
| `Stats.GroupedSum` | backend/server.py:212-213 | the group counts over distinct platforms add up to the number of records on those platforms |
| `Stats.SortByCountFacts` | backend/server.py:214 | the count sort is a permutation of the rows, keeps their total, and orders them by non-increasing count |
| `Stats.SortByCountDistinct` | backend/server.py:214 | the count sort keeps the platforms distinct |
| `Stats.DistributionFacts` | backend/server.py:211-216 | the platform distribution names each occurring platform once, with its count. Counts are non-increasing and add up to the number of records |
| `Store.MovieStore.CreateMovie` | backend/server.py:98-113 | an invalid body is refused with status 422 and every violation, and nothing changes. A valid body adds exactly one record under the fresh id, with the body's fields and the computed overall rating, and leaves every other record as it was |
| `Store.MovieStore.ListMovies` | backend/server.py:117-136 | the filters that are given are conjoined, and `limit` defaults to 50. A negative limit gives status 500. Any other limit gives the newest matching records, as `Query.SelectNewest` states |
| `Store.MovieStore.GetMovie` | backend/server.py:140-148 | returns the record filed under the id, or not-found when there is none |
| `Store.MovieStore.UpdateMovie` | backend/server.py:154-179 | an invalid body gives 422 and an unknown id gives 404, both with the store unchanged. Otherwise only that record changes, as `Records.UpdatedFrom` fixes, and the store invariant holds |
| `Store.MovieStore.DeleteMovie` | backend/server.py:185-193 | removes exactly the record with that id and confirms. An unknown id gives not-found with the store unchanged |
| `Store.MovieStore.GetStats` | backend/server.py:204-222 | the movie and TV-series counts are exact, and their total is the number of records. The distribution is as `Stats.DistributionFacts` states |
| `NullUpdate.UpdateAsWritten` | backend/server.py:154-183 | on a body that passed the declared checks: a `null` ratings answers 500 with nothing written; otherwise a sent value is `$set`, a sent `null` stores null, an absent key keeps the stored value, `updated_at` is the clock, the rating is recomputed exactly when scores were sent, and the answer is 200 exactly when the merged document loads |
| `NullUpdate.NullForRequiredFieldCorrupts` | backend/server.py:164-179 | as written: a `null` for title, content type, year, genre or platform passes validation and is stored. The handler answers 500 and leaves a document that cannot be loaded |
| `NullUpdate.NullTitleExample` | backend/server.py:76-83 | the body `{"title": null}` against a stored movie passes the declared checks, answers 500, and stores a null title |
| `NullUpdate.CorrectedUpdateAgrees` | backend/server.py:164-179 | on every body the corrected checks accept, the handler as written answers 200 and stores exactly the record `Store.MovieStore.UpdateMovie` stores |
| `Scenarios.CreateReadUpdateDelete` | backend_test.py:306-409 | on a fresh store: create, then get, returns the created record. An update keeps id and `created_at`, sets `updated_at`, and keeps the overall rating consistent. Delete succeeds, and a second delete or a get then gives not-found |
| `Scenarios.RejectedCreateStoresNothing` | backend_test.py:208-222 | a refused create answers 422 and leaves the store empty: the stats total is 0 and the distribution is empty |

## Findings

| source | as written | input that shows it | evidently intended | confidence | as-written member | corrected member |
|---|---|---|---|---|---|---|
| backend/server.py:76-83 | every update field is `Optional`, so an explicit `null` passes validation; `exclude_unset` keeps it, `$set` writes it, and `MovieTVShow(**updated_movie)` then fails: the answer is 500 and the stored document can no longer be loaded | `PUT /movies/{id}` with body `{"title": null}` | a `null` for a field the record cannot hold is refused (422) and never stored | medium; not executed | `NullUpdate.NullForRequiredFieldCorrupts` | `Validation.UpdateErrors` |

## Left out

- Transport and configuration are not modelled: routing, the `/api` prefix, the root message route, CORS, logging, `.env` loading and client shutdown.
- The async Mongo client is replaced by a map. The model has no cursors, no `_id` field and no concurrency, so racing updates are not modelled.
- The catch-all `except Exception` wrappers answer with 500. Three of those 500s are modelled: the negative `limit` refused by `to_list` (backend/server.py:133-138, `Store.MovieStore.ListMovies`), and the `RatingCategories(**None)` failure and the failing `MovieTVShow(**updated_movie)` of an update with a `null` field (backend/server.py:169, backend/server.py:179-183, `NullUpdate.UpdateAsWritten`). Only storage faults are left out, since an in-memory map has none.
- `uuid.uuid4()` is replaced by the requirement that the new id is not already in the store.
- `datetime.utcnow()` is replaced by one caller-supplied clock value. The source reads the clock separately for `created_at` and `updated_at`, which can differ by microseconds.
- Scores are exact reals. The IEEE-754 doubles and binary rounding of `round(total / 7, 1)` are not modelled.
- Request decoding is not modelled: JSON parsing, type coercion (for example `"2010"` as a year) and missing required fields. Bodies arrive already typed.
- Store.MovieStore.ListMovies: takes the `platform` and `content_type` query parameters already decoded. The source answers 422 for a string that names no member; the model takes the decoded values and leaves that refusal out.
- Store.MovieStore.ListMovies: does not fix the order among records with equal `created_at`, since Mongo does not.
- Store.MovieStore.GetStats: does not fix the order among platforms with equal counts, since Mongo does not.
- Store.MovieStore.UpdateMovie: refuses a `null` for a field other than the description (the corrected checks). The behaviour as written is modelled in `NullUpdate`.
- Seeding is not modelled. The `/seed` route that seed_test.py calls is not part of this model.
- frontend/src/App.js is not part of this model. It is user interface only.
