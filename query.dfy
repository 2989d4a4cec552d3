/**
 * The listing query of get_movies (backend/server.py): optional equality
 * filters on platform and content type, newest first by `created_at`, at
 * most `limit` records.
 */
module Query {
  import opened Wrappers
  import opened Catalog
  import opened Records

  /** The `limit` query parameter when none is given. */
  const DefaultLimit: int := 50

  /** The Mongo query document: one optional equality per filterable field. */
  datatype Filter = Filter(platform: Option<Platform>, contentType: Option<ContentType>)

  const MatchAll := Filter(None, None)

  predicate Matches(rec: Record, f: Filter) {
    && (f.platform.Some? ==> rec.platform == f.platform.value)
    && (f.contentType.Some? ==> rec.contentType == f.contentType.value)
  }

  function MatchingIds(m: map<string, Record>, f: Filter): set<string> {
    set id | id in m && Matches(m[id], f)
  }

  /** With no filter every stored record matches. */
  lemma NoFilterMatchesEverything(m: map<string, Record>)
    ensures MatchingIds(m, MatchAll) == m.Keys
  {
  }

  /** Two filters are a conjunction. */
  lemma BothFiltersConjoin(rec: Record, p: Platform, c: ContentType)
    ensures Matches(rec, Filter(Some(p), Some(c))) <==> rec.platform == p && rec.contentType == c
  {
  }

  function Min(a: int, b: int): int {
    if a <= b then a else b
  }

  predicate NewestFirst(s: seq<Record>) {
    forall i, j | 0 <= i < j < |s| :: s[i].createdAt >= s[j].createdAt
  }

  predicate DistinctIds(s: seq<Record>) {
    forall i, j | 0 <= i < j < |s| :: s[i].id != s[j].id
  }

  /** Every listed record is a stored record that passes the filter. */
  predicate DrawnFrom(m: map<string, Record>, f: Filter, s: seq<Record>) {
    forall i | 0 <= i < |s| :: s[i].id in m && m[s[i].id] == s[i] && Matches(s[i], f)
  }

  /** No matching record that was left out is newer than a listed one. */
  predicate NoNewerLeftOut(m: map<string, Record>, f: Filter, s: seq<Record>) {
    forall id | id in MatchingIds(m, f) && m[id] !in s ::
      forall i | 0 <= i < |s| :: m[id].createdAt <= s[i].createdAt
  }

  /**
   * `find(query).sort("created_at", -1).limit(limit)`: the newest `limit`
   * matching records, newest first (ties in any order).
   */
  predicate IsListing(m: map<string, Record>, f: Filter, limit: nat, s: seq<Record>) {
    && DrawnFrom(m, f, s)
    && DistinctIds(s)
    && NewestFirst(s)
    && |s| == Min(limit, |MatchingIds(m, f)|)
    && NoNewerLeftOut(m, f, s)
  }

  /** The newest of a non-empty set of stored ids (one step of the sort). */
  method Newest(m: map<string, Record>, ids: set<string>) returns (best: string)
    requires ids != {} && ids <= m.Keys
    ensures best in ids
    ensures forall id | id in ids :: m[id].createdAt <= m[best].createdAt
  {
    best :| best in ids;
    var rest := ids - {best};
    while rest != {}
      invariant rest <= ids && best in ids
      invariant forall id | id in ids - rest :: m[id].createdAt <= m[best].createdAt
      decreases |rest|
    {
      var id :| id in rest;
      if m[id].createdAt > m[best].createdAt {
        best := id;
      }
      rest := rest - {id};
    }
  }

  /**
   * Selects the listing: repeatedly takes the newest matching record not yet
   * taken, until `limit` records are taken or none is left.
   */
  method SelectNewest(m: map<string, Record>, f: Filter, limit: nat) returns (s: seq<Record>)
    requires forall id | id in m :: m[id].id == id
    ensures IsListing(m, f, limit, s)
    ensures |MatchingIds(m, f)| <= limit ==> forall id | id in MatchingIds(m, f) :: m[id] in s
  {
    ghost var matching := MatchingIds(m, f);
    var candidates := MatchingIds(m, f);
    s := [];
    while |s| < limit && candidates != {}
      invariant candidates <= matching
      invariant |s| <= limit
      invariant |candidates| + |s| == |matching|
      invariant DrawnFrom(m, f, s) && DistinctIds(s) && NewestFirst(s)
      invariant forall i | 0 <= i < |s| :: s[i].id !in candidates
      invariant forall id | id in matching && m[id] !in s :: id in candidates
      invariant forall id | id in candidates :: forall i | 0 <= i < |s| :: m[id].createdAt <= s[i].createdAt
      decreases |candidates|
    {
      var best := Newest(m, candidates);
      s := s + [m[best]];
      candidates := candidates - {best};
    }
  }
}
