/**
 * The statistics of get_stats (backend/server.py): the number of movies, of
 * TV series, their total, and the number of records per platform, largest
 * first.
 */
module Stats {
  import opened Catalog
  import opened Records

  function IdsOfType(m: map<string, Record>, c: ContentType): set<string> {
    set id | id in m && m[id].contentType == c
  }

  function IdsOnPlatform(m: map<string, Record>, p: Platform): set<string> {
    set id | id in m && m[id].platform == p
  }

  function IdsOnPlatforms(m: map<string, Record>, ps: seq<Platform>): set<string> {
    set id | id in m && m[id].platform in ps
  }

  /** Every record is either a movie or a TV series, so the two counts add up to all records. */
  lemma TypeCountsPartition(m: map<string, Record>)
    ensures |IdsOfType(m, Movie)| + |IdsOfType(m, TvSeries)| == |m|
  {
    var movies, shows := IdsOfType(m, Movie), IdsOfType(m, TvSeries);
    assert movies + shows == m.Keys;
    assert movies * shows == {};
    assert |m.Keys| == |m|;
  }

  /** One `{"_id": platform, "count": n}` row of the `$group` stage. */
  datatype PlatformCount = PlatformCount(platform: Platform, count: nat)

  /** `$group` by platform: one row for each platform that occurs, with its count. */
  function Grouped(m: map<string, Record>, ps: seq<Platform>): seq<PlatformCount> {
    if ps == [] then []
    else
      var n := |IdsOnPlatform(m, ps[0])|;
      (if n > 0 then [PlatformCount(ps[0], n)] else []) + Grouped(m, ps[1..])
  }

  function SumCounts(s: seq<PlatformCount>): nat {
    if s == [] then 0 else s[0].count + SumCounts(s[1..])
  }

  predicate CountsDescending(s: seq<PlatformCount>) {
    forall i, j | 0 <= i < j < |s| :: s[i].count >= s[j].count
  }

  predicate DistinctPlatforms(s: seq<PlatformCount>) {
    forall i, j | 0 <= i < j < |s| :: s[i].platform != s[j].platform
  }

  predicate NoDuplicates(ps: seq<Platform>) {
    forall i, j | 0 <= i < j < |ps| :: ps[i] != ps[j]
  }

  /** A row is in the grouping exactly when its platform occurs, with the true count. */
  lemma {:induction false} GroupedRows(m: map<string, Record>, ps: seq<Platform>, row: PlatformCount)
    ensures row in Grouped(m, ps) <==>
      row.platform in ps && row.count == |IdsOnPlatform(m, row.platform)| && row.count > 0
  {
    if ps != [] {
      GroupedRows(m, ps[1..], row);
      assert ps == [ps[0]] + ps[1..];
    }
  }

  lemma {:induction false} GroupedDistinct(m: map<string, Record>, ps: seq<Platform>)
    requires NoDuplicates(ps)
    ensures DistinctPlatforms(Grouped(m, ps))
  {
    if ps != [] {
      GroupedDistinct(m, ps[1..]);
      var rest := Grouped(m, ps[1..]);
      forall row | row in rest ensures row.platform != ps[0] {
        GroupedRows(m, ps[1..], row);
      }
    }
  }

  /** The group counts over distinct platforms add up to the records on those platforms. */
  lemma {:induction false} GroupedSum(m: map<string, Record>, ps: seq<Platform>)
    requires NoDuplicates(ps)
    ensures SumCounts(Grouped(m, ps)) == |IdsOnPlatforms(m, ps)|
  {
    if ps != [] {
      GroupedSum(m, ps[1..]);
      var head := if |IdsOnPlatform(m, ps[0])| > 0 then [PlatformCount(ps[0], |IdsOnPlatform(m, ps[0])|)] else [];
      SumCountsAppend(head, Grouped(m, ps[1..]));
      assert IdsOnPlatforms(m, ps) == IdsOnPlatform(m, ps[0]) + IdsOnPlatforms(m, ps[1..]);
      assert IdsOnPlatform(m, ps[0]) * IdsOnPlatforms(m, ps[1..]) == {};
    } else {
      assert IdsOnPlatforms(m, ps) == {};
    }
  }

  lemma {:induction false} SumCountsAppend(a: seq<PlatformCount>, b: seq<PlatformCount>)
    ensures SumCounts(a + b) == SumCounts(a) + SumCounts(b)
  {
    if a == [] {
      assert a + b == b;
    } else {
      SumCountsAppend(a[1..], b);
      assert (a + b)[0] == a[0];
      assert (a + b)[1..] == a[1..] + b;
    }
  }

  /** Puts a row in front of the first row whose count is not larger. */
  function InsertByCount(x: PlatformCount, s: seq<PlatformCount>): seq<PlatformCount> {
    if s == [] || x.count >= s[0].count then [x] + s
    else [s[0]] + InsertByCount(x, s[1..])
  }

  /** `$sort` by count, descending (insertion sort). */
  function SortByCount(s: seq<PlatformCount>): seq<PlatformCount> {
    if s == [] then [] else InsertByCount(s[0], SortByCount(s[1..]))
  }

  lemma {:induction false} InsertByCountKeepsRows(x: PlatformCount, s: seq<PlatformCount>)
    ensures multiset(InsertByCount(x, s)) == multiset(s) + multiset{x}
  {
    if s != [] && x.count < s[0].count {
      InsertByCountKeepsRows(x, s[1..]);
      assert s == [s[0]] + s[1..];
    }
  }

  lemma {:induction false} InsertByCountSum(x: PlatformCount, s: seq<PlatformCount>)
    ensures SumCounts(InsertByCount(x, s)) == x.count + SumCounts(s)
  {
    if s != [] && x.count < s[0].count {
      InsertByCountSum(x, s[1..]);
    }
  }

  lemma {:induction false} InsertByCountDescending(x: PlatformCount, s: seq<PlatformCount>)
    requires CountsDescending(s)
    ensures CountsDescending(InsertByCount(x, s))
  {
    if s != [] && x.count < s[0].count {
      var t := InsertByCount(x, s[1..]);
      InsertByCountDescending(x, s[1..]);
      InsertByCountKeepsRows(x, s[1..]);
      forall k | 0 <= k < |t| ensures s[0].count >= t[k].count {
        assert t[k] in multiset(t);
        if t[k] != x {
          assert t[k] in multiset(s[1..]);
        }
      }
    }
  }

  lemma {:induction false} InsertByCountDistinct(x: PlatformCount, s: seq<PlatformCount>)
    requires DistinctPlatforms(s)
    requires forall e | e in s :: e.platform != x.platform
    ensures DistinctPlatforms(InsertByCount(x, s))
  {
    if s != [] && x.count < s[0].count {
      var t := InsertByCount(x, s[1..]);
      InsertByCountDistinct(x, s[1..]);
      InsertByCountKeepsRows(x, s[1..]);
      forall k | 0 <= k < |t| ensures s[0].platform != t[k].platform {
        assert t[k] in multiset(t);
        if t[k] != x {
          assert t[k] in multiset(s[1..]);
          var j :| 0 <= j < |s[1..]| && s[1..][j] == t[k];
          assert s[j + 1] == t[k];
        }
      }
    }
  }

  /** The sort keeps the rows (a permutation) and their total, and orders them. */
  lemma {:induction false} SortByCountFacts(s: seq<PlatformCount>)
    ensures multiset(SortByCount(s)) == multiset(s)
    ensures SumCounts(SortByCount(s)) == SumCounts(s)
    ensures CountsDescending(SortByCount(s))
  {
    if s != [] {
      SortByCountFacts(s[1..]);
      InsertByCountKeepsRows(s[0], SortByCount(s[1..]));
      InsertByCountSum(s[0], SortByCount(s[1..]));
      InsertByCountDescending(s[0], SortByCount(s[1..]));
      assert s == [s[0]] + s[1..];
    }
  }

  lemma {:induction false} SortByCountDistinct(s: seq<PlatformCount>)
    requires DistinctPlatforms(s)
    ensures DistinctPlatforms(SortByCount(s))
  {
    if s != [] {
      var t := SortByCount(s[1..]);
      SortByCountDistinct(s[1..]);
      SortByCountFacts(s[1..]);
      forall e | e in t ensures e.platform != s[0].platform {
        assert e in multiset(t);
        assert e in multiset(s[1..]);
        var j :| 0 <= j < |s[1..]| && s[1..][j] == e;
        assert s[j + 1] == e;
      }
      InsertByCountDistinct(s[0], t);
    }
  }

  /** platform_distribution: the grouping ordered by count, largest first. */
  function Distribution(m: map<string, Record>): seq<PlatformCount> {
    SortByCount(Grouped(m, AllPlatforms))
  }

  /** AllPlatforms lists no platform twice. */
  lemma AllPlatformsNoDuplicates()
    ensures NoDuplicates(AllPlatforms)
  {
  }

  lemma IdsOnAllPlatforms(m: map<string, Record>)
    ensures IdsOnPlatforms(m, AllPlatforms) == m.Keys
  {
    forall id | id in m ensures id in IdsOnPlatforms(m, AllPlatforms) {
      AllPlatformsComplete(m[id].platform);
    }
  }

  lemma DistributionSum(m: map<string, Record>)
    ensures SumCounts(Distribution(m)) == |m|
  {
    var g := Grouped(m, AllPlatforms);
    SortByCountFacts(g);
    AllPlatformsNoDuplicates();
    GroupedSum(m, AllPlatforms);
    IdsOnAllPlatforms(m);
    assert |m.Keys| == |m|;
  }

  lemma {:induction false} DistributionRows(m: map<string, Record>, row: PlatformCount)
    ensures row in Distribution(m) <==> row.count == |IdsOnPlatform(m, row.platform)| && row.count > 0
  {
    var g := Grouped(m, AllPlatforms);
    SortByCountFacts(g);
    AllPlatformsComplete(row.platform);
    GroupedRows(m, AllPlatforms, row);
    assert row in Distribution(m) <==> row in multiset(Distribution(m));
    assert row in g <==> row in multiset(g);
  }

  /**
   * The distribution lists each occurring platform once with its count, in
   * non-increasing count order, and the counts add up to the number of records.
   */
  lemma DistributionFacts(m: map<string, Record>)
    ensures SumCounts(Distribution(m)) == |m|
    ensures CountsDescending(Distribution(m))
    ensures DistinctPlatforms(Distribution(m))
    ensures forall row :: row in Distribution(m) <==>
      row.count == |IdsOnPlatform(m, row.platform)| && row.count > 0
  {
    DistributionSum(m);
    SortByCountFacts(Grouped(m, AllPlatforms));
    AllPlatformsNoDuplicates();
    GroupedDistinct(m, AllPlatforms);
    SortByCountDistinct(Grouped(m, AllPlatforms));
    forall row ensures row in Distribution(m) <==>
      row.count == |IdsOnPlatform(m, row.platform)| && row.count > 0
    {
      DistributionRows(m, row);
    }
  }
}
