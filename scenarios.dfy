/**
 * Request sequences that the store's contracts alone decide: what a client
 * observes when it creates a record, reads it back, updates, deletes and
 * reads it again, and what a refused create leaves behind.
 */
module Scenarios {
  import opened Wrappers
  import opened Rating
  import opened Validation
  import opened Records
  import opened Store

  /**
   * On a fresh store: create, then get by the returned id, then update with
   * a valid body, then delete twice, then get again.
   */
  method CreateReadUpdateDelete(p: CreateRequest, u: UpdateRequest, id: string, created: Timestamp, edited: Timestamp)
    returns (made: Result<Record, ApiError>, read: Result<Record, ApiError>,
             changed: Result<Record, ApiError>, removed: Result<string, ApiError>,
             removedAgain: Result<string, ApiError>, readAgain: Result<Record, ApiError>)
    requires ValidCreate(p) && ValidUpdate(u)
    ensures made.Ok? && made.value.id == id && read == made
    ensures made.value.title == p.title && made.value.ratings == p.ratings
    ensures made.value.overallRating == OverallRating(p.ratings)
    ensures changed.Ok? && changed.value.id == id && changed.value.createdAt == created
    ensures changed.value.updatedAt == edited
    ensures changed.value.overallRating == OverallRating(changed.value.ratings)
    ensures u.ratings.Unset? ==> changed.value.ratings == made.value.ratings
    ensures u.title.Unset? ==> changed.value.title == made.value.title
    ensures removed == Ok(DeletedMessage)
    ensures removedAgain == Err(NotFound) && readAgain == Err(NotFound)
  {
    var store := new MovieStore();
    made := store.CreateMovie(p, id, created);
    read := store.GetMovie(id);
    changed := store.UpdateMovie(id, u, edited);
    removed := store.DeleteMovie(id);
    removedAgain := store.DeleteMovie(id);
    readAgain := store.GetMovie(id);
  }

  /** A refused create stores nothing: the store is still empty and a total of zero is reported. */
  method RejectedCreateStoresNothing(p: CreateRequest, id: string, now: Timestamp)
    returns (made: Result<Record, ApiError>, report: StatsReport)
    requires !ValidCreate(p)
    ensures made.Err? && HttpStatus(made.error) == 422
    ensures report.totalContent == 0 && report.platformDistribution == []
  {
    var store := new MovieStore();
    made := store.CreateMovie(p, id, now);
    report := store.GetStats();
  }
}
