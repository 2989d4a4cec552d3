/**
 * The handlers of backend/server.py over the `movies` collection, which is
 * held here as an in-memory map from each record's `id` to the record.
 */
module Store {
  import opened Wrappers
  import opened Rating
  import opened Catalog
  import opened Validation
  import opened Records
  import opened Query
  import opened Stats

  /** The failures a handler answers with. */
  datatype ApiError =
    | Unprocessable(errors: seq<FieldError>)
    | NotFound
    | ServerError(detail: string)

  function HttpStatus(e: ApiError): int {
    match e
    case Unprocessable(_) => 422
    case NotFound => 404
    case ServerError(_) => 500
  }

  /** The body get_stats returns. */
  datatype StatsReport = StatsReport(
    totalMovies: nat,
    totalTvShows: nat,
    totalContent: nat,
    platformDistribution: seq<PlatformCount>)

  const DeletedMessage := "Movie deleted successfully"

  class MovieStore {
    /** The collection, keyed by the record's `id` field. */
    var records: map<string, Record>

    /** Each record is filed under its own id and is well formed. */
    ghost predicate Valid()
      reads this
    {
      forall id | id in records :: records[id].id == id && WellFormed(records[id])
    }

    constructor ()
      ensures Valid() && records == map[]
    {
      records := map[];
    }

    /**
     * create_movie. A body that fails validation is refused with all its
     * violations and nothing is stored; otherwise exactly one record is
     * added under the fresh id, carrying the body's fields and the computed
     * overall rating.
     */
    method CreateMovie(p: CreateRequest, id: string, now: Timestamp) returns (r: Result<Record, ApiError>)
      requires Valid()
      requires id !in records
      modifies this
      ensures Valid()
      ensures r.Ok? <==> ValidCreate(p)
      ensures r.Err? ==> r.error == Unprocessable(CreateErrors(p)) && records == old(records)
      ensures r.Ok? ==> records == old(records)[id := r.value]
      ensures r.Ok? ==> r.value == NewRecord(ValidateCreate(p).value, id, now)
    {
      var validated := ValidateCreate(p);
      if validated.Err? {
        r := Err(Unprocessable(validated.error));
        return;
      }
      var movie := NewRecord(validated.value, id, now);
      NewRecordWellFormed(validated.value, id, now);
      records := records[id := movie];
      r := Ok(movie);
    }

    /**
     * get_movies. The query holds the filters that were given; a negative
     * limit makes the result cursor refuse (`to_list` demands a
     * non-negative length), any other limit yields the newest matching
     * records, newest first.
     */
    method ListMovies(platform: Option<Platform>, contentType: Option<ContentType>, limit: int := DefaultLimit)
      returns (r: Result<seq<Record>, ApiError>)
      requires Valid()
      ensures r.Err? <==> limit < 0
      ensures r.Err? ==> HttpStatus(r.error) == 500
      ensures r.Ok? ==> IsListing(records, Filter(platform, contentType), limit, r.value)
      ensures r.Ok? && |MatchingIds(records, Filter(platform, contentType))| <= limit ==>
        forall id | id in MatchingIds(records, Filter(platform, contentType)) :: records[id] in r.value
    {
      var query := MatchAll;
      if platform.Some? {
        query := query.(platform := platform);
      }
      if contentType.Some? {
        query := query.(contentType := contentType);
      }
      if limit < 0 {
        r := Err(ServerError("Error retrieving movies: length must be non-negative"));
        return;
      }
      var movies := SelectNewest(records, query, limit);
      r := Ok(movies);
    }

    /** get_movie: the record filed under `id`, or not found. */
    method GetMovie(id: string) returns (r: Result<Record, ApiError>)
      ensures id in records ==> r == Ok(records[id])
      ensures id !in records ==> r == Err(NotFound)
    {
      if id !in records {
        r := Err(NotFound);
        return;
      }
      r := Ok(records[id]);
    }

    /**
     * update_movie. A body that fails validation is refused first; an
     * unknown id is not found; in both cases nothing changes. Otherwise
     * the record is merged with the fields sent and nothing else changes.
     */
    method UpdateMovie(id: string, p: UpdateRequest, now: Timestamp) returns (r: Result<Record, ApiError>)
      requires Valid()
      modifies this
      ensures Valid()
      ensures !ValidUpdate(p) ==> r == Err(Unprocessable(UpdateErrors(p))) && records == old(records)
      ensures ValidUpdate(p) && id !in old(records) ==> r == Err(NotFound) && records == old(records)
      ensures ValidUpdate(p) && id in old(records) ==>
        && r.Ok?
        && records == old(records)[id := r.value]
        && UpdatedFrom(old(records)[id], ValidateUpdate(p).value, now, r.value)
    {
      var validated := ValidateUpdate(p);
      if validated.Err? {
        r := Err(Unprocessable(validated.error));
        return;
      }
      if id !in records {
        r := Err(NotFound);
        return;
      }
      var existing := records[id];
      var u := validated.value;
      var updateData := UpdateData(u, now, None);
      if u.ratings.Some? {
        updateData := updateData.(overallRating := Some(OverallRating(u.ratings.value)));
      }
      var updated := ApplySet(existing, updateData);
      UpdatePreservesWellFormed(existing, u, now, updated);
      records := records[id := updated];
      r := Ok(records[id]);
    }

    /** delete_movie: removes exactly the record filed under `id`, or not found. */
    method DeleteMovie(id: string) returns (r: Result<string, ApiError>)
      requires Valid()
      modifies this
      ensures Valid()
      ensures id in old(records) ==> r == Ok(DeletedMessage) && records == old(records) - {id}
      ensures id !in old(records) ==> r == Err(NotFound) && records == old(records)
    {
      if id !in records {
        r := Err(NotFound);
        return;
      }
      records := records - {id};
      r := Ok(DeletedMessage);
    }

    /**
     * get_stats: the two content-type counts and their total, which is the
     * number of records, and the platform distribution, whose rows name each
     * occurring platform once with its count, largest first, and add up to
     * the number of records.
     */
    method GetStats() returns (s: StatsReport)
      ensures s.totalMovies == |IdsOfType(records, Movie)|
      ensures s.totalTvShows == |IdsOfType(records, TvSeries)|
      ensures s.totalContent == s.totalMovies + s.totalTvShows == |records|
      ensures SumCounts(s.platformDistribution) == |records|
      ensures CountsDescending(s.platformDistribution)
      ensures DistinctPlatforms(s.platformDistribution)
      ensures forall row :: row in s.platformDistribution <==>
        row.count == |IdsOnPlatform(records, row.platform)| && row.count > 0
    {
      var totalMovies := |IdsOfType(records, Movie)|;
      var totalTvShows := |IdsOfType(records, TvSeries)|;
      TypeCountsPartition(records);
      DistributionFacts(records);
      s := StatsReport(totalMovies, totalTvShows, totalMovies + totalTvShows, Distribution(records));
    }
  }
}
