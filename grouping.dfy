/**
 * Hourly pressure aggregation: zip the timestamps with the readings, group
 * the readings by the date part of their timestamp in a dictionary of
 * lists, keep the groups of the seven smallest dates, reduce each kept
 * group to its mean and average those means.
 */
module Grouping {
  import opened Wrappers
  import opened Upstream
  import opened Dates
  import opened Stats

  /** The dictionary from date to the readings of that date. */
  type Groups = map<string, seq<real>>

  /** At most this many days enter the pressure average. */
  const MaxDaysAveraged: nat := 7

  /** `zip` stops at the end of the shorter list. */
  function ZipLength(time: seq<string>, pressure: seq<real>): (n: nat)
    ensures n <= |time| && n <= |pressure|
    ensures n == |time| || n == |pressure|
  {
    if |time| <= |pressure| then |time| else |pressure|
  }

  /** The list stored under `k`, or the empty list a `defaultdict(list)` starts from. */
  function Lookup(g: Groups, k: string): seq<real>
  {
    if k in g then g[k] else []
  }

  /** `g[k].append(v)` on a `defaultdict(list)`. */
  function Append(g: Groups, k: string, v: real): Groups
  {
    g[k := Lookup(g, k) + [v]]
  }

  /** The dictionary after the first `n` iterations of the zip loop. */
  function GroupFirst(time: seq<string>, pressure: seq<real>, n: nat): Groups
    requires n <= ZipLength(time, pressure)
  {
    if n == 0 then map[]
    else Append(GroupFirst(time, pressure, n - 1), DatePrefix(time[n - 1]), pressure[n - 1])
  }

  /** The dictionary once the zip loop has finished. */
  function GroupByDate(time: seq<string>, pressure: seq<real>): Groups
  {
    GroupFirst(time, pressure, ZipLength(time, pressure))
  }

  /** The grouping loop: append each zipped reading to the list of its date. */
  method GroupPressures(time: seq<string>, pressure: seq<real>) returns (groups: Groups)
    ensures groups == GroupByDate(time, pressure)
    ensures forall i | 0 <= i < ZipLength(time, pressure) ::
      DatePrefix(time[i]) in groups && pressure[i] in groups[DatePrefix(time[i])]
  {
    var n := ZipLength(time, pressure);
    groups := map[];
    var i := 0;
    while i < n
      invariant i <= n
      invariant groups == GroupFirst(time, pressure, i)
    {
      var date := DatePrefix(time[i]);
      var readings := if date in groups then groups[date] else [];
      groups := groups[date := readings + [pressure[i]]];
      i := i + 1;
    }
    GroupingContents(time, pressure, n);
    forall i | 0 <= i < n
      ensures DatePrefix(time[i]) in groups && pressure[i] in groups[DatePrefix(time[i])]
    {
      ReadingOnItsDate(time, pressure, i, n);
    }
  }

  /**
   * The independent reference: the readings among the first `n` whose
   * timestamp has date `date`, in input order.
   */
  function ReadingsOn(time: seq<string>, pressure: seq<real>, date: string, n: nat): seq<real>
    requires n <= ZipLength(time, pressure)
  {
    if n == 0 then []
    else ReadingsOn(time, pressure, date, n - 1) + (if DatePrefix(time[n - 1]) == date then [pressure[n - 1]] else [])
  }

  /** The date of each of the first `n` timestamps. */
  function DatesOf(time: seq<string>, n: nat): (ds: seq<string>)
    requires n <= |time|
    ensures |ds| == n && forall i | 0 <= i < n :: ds[i] == DatePrefix(time[i])
  {
    seq(n, i requires 0 <= i < n => DatePrefix(time[i]))
  }

  /**
   * The grouping partitions the readings: the keys are exactly the dates
   * that occur, and the list under each date holds exactly that date's
   * readings, in input order.
   */
  lemma {:induction false} GroupingContents(time: seq<string>, pressure: seq<real>, n: nat)
    requires n <= ZipLength(time, pressure)
    ensures forall date :: Lookup(GroupFirst(time, pressure, n), date) == ReadingsOn(time, pressure, date, n)
    ensures forall date :: date in GroupFirst(time, pressure, n) <==> date in DatesOf(time, n)
    ensures forall date | date in GroupFirst(time, pressure, n) :: GroupFirst(time, pressure, n)[date] != []
  {
    if n > 0 {
      GroupingContents(time, pressure, n - 1);
      var prev := DatesOf(time, n - 1);
      assert DatesOf(time, n) == prev + [DatePrefix(time[n - 1])];
    }
  }

  /** Reading `i` is in the list of its own date. */
  lemma {:induction false} ReadingOnItsDate(time: seq<string>, pressure: seq<real>, i: nat, n: nat)
    requires i < n <= ZipLength(time, pressure)
    ensures pressure[i] in ReadingsOn(time, pressure, DatePrefix(time[i]), n)
  {
    if i < n - 1 {
      ReadingOnItsDate(time, pressure, i, n - 1);
    }
  }

  /** Every reading in a date's list is one of the zipped readings. */
  lemma {:induction false} ReadingsOnBounds(time: seq<string>, pressure: seq<real>, date: string, n: nat, lo: real, hi: real)
    requires n <= ZipLength(time, pressure)
    requires forall i | 0 <= i < n :: lo <= pressure[i] <= hi
    ensures forall x | x in ReadingsOn(time, pressure, date, n) :: lo <= x <= hi
  {
    if n > 0 {
      ReadingsOnBounds(time, pressure, date, n - 1, lo, hi);
    }
  }

  /** The total size of the lists stored under the keys `ks`. */
  function GroupSizes(g: Groups, ks: seq<string>): nat
  {
    if ks == [] then 0 else |Lookup(g, ks[0])| + GroupSizes(g, ks[1..])
  }

  lemma {:induction false} GroupSizesEmpty(ks: seq<string>)
    ensures GroupSizes(map[], ks) == 0
  {
    if ks != [] {
      GroupSizesEmpty(ks[1..]);
    }
  }

  /** One append grows the total over distinct keys by one exactly when its key is among them. */
  lemma {:induction false} GroupSizesAppend(g: Groups, ks: seq<string>, k: string, v: real)
    requires StrictlySorted(ks)
    ensures GroupSizes(Append(g, k, v), ks) == GroupSizes(g, ks) + (if k in ks then 1 else 0)
  {
    if ks != [] {
      GroupSizesAppend(g, ks[1..], k, v);
      if ks[0] == k {
        assert k !in ks[1..] by {
          forall j | 0 <= j < |ks[1..]| ensures ks[1..][j] != k {
            assert ks[1..][j] == ks[j + 1];
            LessIrreflexive(k);
          }
        }
      }
    }
  }

  lemma {:induction false} GroupSizesCount(time: seq<string>, pressure: seq<real>, ks: seq<string>, n: nat)
    requires n <= ZipLength(time, pressure)
    requires StrictlySorted(ks)
    requires forall i | 0 <= i < n :: DatePrefix(time[i]) in ks
    ensures GroupSizes(GroupFirst(time, pressure, n), ks) == n
  {
    if n == 0 {
      GroupSizesEmpty(ks);
    } else {
      GroupSizesCount(time, pressure, ks, n - 1);
      GroupSizesAppend(GroupFirst(time, pressure, n - 1), ks, DatePrefix(time[n - 1]), pressure[n - 1]);
    }
  }

  /** The distinct dates of the zipped readings, ascending: the order of `sorted(pressure_by_day.items())`. */
  function SortedDates(time: seq<string>, pressure: seq<real>): seq<string>
  {
    SortDistinct(DatesOf(time, ZipLength(time, pressure)))
  }

  /** The sorted dates are exactly the dictionary's keys, in ascending order. */
  lemma SortedDatesAreKeys(time: seq<string>, pressure: seq<real>)
    ensures StrictlySorted(SortedDates(time, pressure))
    ensures forall k :: k in SortedDates(time, pressure) <==> k in GroupByDate(time, pressure)
    ensures |SortedDates(time, pressure)| == |GroupByDate(time, pressure).Keys|
  {
    var ks := SortedDates(time, pressure);
    var g := GroupByDate(time, pressure);
    GroupingContents(time, pressure, ZipLength(time, pressure));
    SortedCardinality(ks);
    assert (set y | y in ks) == g.Keys;
  }

  /** The group sizes add up to the number of zipped readings. */
  lemma GroupSizesSumToZipLength(time: seq<string>, pressure: seq<real>)
    ensures GroupSizes(GroupByDate(time, pressure), SortedDates(time, pressure)) == ZipLength(time, pressure)
  {
    var n := ZipLength(time, pressure);
    SortedDatesAreKeys(time, pressure);
    GroupingContents(time, pressure, n);
    forall i | 0 <= i < n ensures DatePrefix(time[i]) in SortedDates(time, pressure) {
      assert DatesOf(time, n)[i] == DatePrefix(time[i]);
    }
    GroupSizesCount(time, pressure, SortedDates(time, pressure), n);
  }

  /** The dates whose groups enter the average: the first seven sorted keys, `[:7]`. */
  function KeptDates(time: seq<string>, pressure: seq<real>): seq<string>
  {
    var ks := SortedDates(time, pressure);
    if |ks| <= MaxDaysAveraged then ks else ks[..MaxDaysAveraged]
  }

  /** The kept dates are min(7, number of groups) keys, and none is above a key left out. */
  lemma KeptDatesAreSmallest(time: seq<string>, pressure: seq<real>)
    ensures var kept := KeptDates(time, pressure);
      var g := GroupByDate(time, pressure);
      && |kept| == (if |g.Keys| <= MaxDaysAveraged then |g.Keys| else MaxDaysAveraged)
      && StrictlySorted(kept)
      && (forall k | k in kept :: k in g)
      && (forall k, j | k in kept && j in g && j !in kept :: Less(k, j))
  {
    var ks := SortedDates(time, pressure);
    var kept := KeptDates(time, pressure);
    SortedDatesAreKeys(time, pressure);
    var m := |kept|;
    assert kept == ks[..m];
    forall k, j | k in kept && j in GroupByDate(time, pressure) && j !in kept
      ensures Less(k, j)
    {
      PrefixBelowRest(ks, m, k, j);
    }
  }

  /** The mean of each kept group, in ascending date order. */
  function DailyMeans(g: Groups, kept: seq<string>): (means: seq<real>)
    requires forall k | k in kept :: k in g && g[k] != []
    ensures |means| == |kept|
    ensures forall i | 0 <= i < |kept| :: means[i] * (|g[kept[i]]| as real) == Sum(g[kept[i]])
  {
    seq(|kept|, i requires 0 <= i < |kept| => Mean(g[kept[i]]))
  }

  /**
   * The average pressure: the mean of the kept daily means.  With no
   * readings there is no group and the division by zero surfaces as the
   * processing error.
   */
  function AveragePressure(time: seq<string>, pressure: seq<real>): (r: Result<real, Failure>)
    ensures r.Ok? <==> ZipLength(time, pressure) > 0
    ensures r.Err? ==> r.error == ProcessingError
  {
    var g := GroupByDate(time, pressure);
    var kept := KeptDates(time, pressure);
    GroupingContents(time, pressure, ZipLength(time, pressure));
    KeptDatesAreSmallest(time, pressure);
    if kept == [] then
      assert ZipLength(time, pressure) > 0 ==> DatePrefix(time[0]) in g;
      Err(ProcessingError)
    else
      Ok(Mean(DailyMeans(g, kept)))
  }

  /** Groups whose readings lie in a range have daily means in that range. */
  lemma DailyMeansBounds(g: Groups, kept: seq<string>, lo: real, hi: real)
    requires forall k | k in kept :: k in g && g[k] != []
    requires forall k, x | k in kept && x in g[k] :: lo <= x <= hi
    ensures forall i | 0 <= i < |kept| :: lo <= DailyMeans(g, kept)[i] <= hi
  {
    forall i | 0 <= i < |kept| ensures lo <= DailyMeans(g, kept)[i] <= hi {
      var rs := g[kept[i]];
      assert forall j | 0 <= j < |rs| :: rs[j] in rs;
      MeanBounds(rs, lo, hi);
    }
  }

  /** Readings inside a range give an average pressure inside that range. */
  lemma AveragePressureBounds(time: seq<string>, pressure: seq<real>, lo: real, hi: real)
    requires forall i | 0 <= i < ZipLength(time, pressure) :: lo <= pressure[i] <= hi
    ensures AveragePressure(time, pressure).Ok? ==> lo <= AveragePressure(time, pressure).value <= hi
  {
    var n := ZipLength(time, pressure);
    var g := GroupByDate(time, pressure);
    var kept := KeptDates(time, pressure);
    GroupingContents(time, pressure, n);
    KeptDatesAreSmallest(time, pressure);
    if kept != [] {
      forall k, x | k in kept && x in g[k] ensures lo <= x <= hi {
        ReadingsOnBounds(time, pressure, k, n, lo, hi);
        assert Lookup(g, k) == ReadingsOn(time, pressure, k, n);
      }
      DailyMeansBounds(g, kept, lo, hi);
      MeanBounds(DailyMeans(g, kept), lo, hi);
      assert AveragePressure(time, pressure) == Ok(Mean(DailyMeans(g, kept)));
    }
  }

  /**
   * The average pressure is the mean, over the kept dates in ascending
   * order, of the mean of each date's readings.
   */
  lemma AveragePressureFromReadings(time: seq<string>, pressure: seq<real>)
    ensures var n := ZipLength(time, pressure);
      var kept := KeptDates(time, pressure);
      && (forall i | 0 <= i < |kept| :: ReadingsOn(time, pressure, kept[i], n) != [])
      && (AveragePressure(time, pressure).Ok? ==>
            AveragePressure(time, pressure).value ==
              Mean(seq(|kept|, i requires 0 <= i < |kept| && ReadingsOn(time, pressure, kept[i], n) != [] =>
                Mean(ReadingsOn(time, pressure, kept[i], n)))))
  {
    var n := ZipLength(time, pressure);
    var g := GroupByDate(time, pressure);
    var kept := KeptDates(time, pressure);
    GroupingContents(time, pressure, n);
    KeptDatesAreSmallest(time, pressure);
    forall i | 0 <= i < |kept| ensures g[kept[i]] == ReadingsOn(time, pressure, kept[i], n) {
      assert kept[i] in kept;
      assert Lookup(g, kept[i]) == ReadingsOn(time, pressure, kept[i], n);
    }
    if kept != [] {
      var byFilter := seq(|kept|, i requires 0 <= i < |kept| && ReadingsOn(time, pressure, kept[i], n) != [] =>
        Mean(ReadingsOn(time, pressure, kept[i], n)));
      assert DailyMeans(g, kept) == byFilter;
      assert AveragePressure(time, pressure) == Ok(Mean(DailyMeans(g, kept)));
    }
  }

  const ExampleTime: seq<string> := ["aT1", "aT2", "bT1", "bT2"]
  const ExamplePressure: seq<real> := [1000.0, 1002.0, 1010.0, 1020.0]

  lemma ExampleGroups()
    ensures DatesOf(ExampleTime, 4) == ["a", "a", "b", "b"]
    ensures GroupByDate(ExampleTime, ExamplePressure) == map["a" := [1000.0, 1002.0], "b" := [1010.0, 1020.0]]
  {
    var time, pressure := ExampleTime, ExamplePressure;
    DatePrefixOfTimestamp("a", "1");
    DatePrefixOfTimestamp("a", "2");
    DatePrefixOfTimestamp("b", "1");
    DatePrefixOfTimestamp("b", "2");
    assert "a" + "T" + "1" == time[0] && "a" + "T" + "2" == time[1];
    assert "b" + "T" + "1" == time[2] && "b" + "T" + "2" == time[3];
    assert ZipLength(time, pressure) == 4;
    assert [] + [1000.0] == [1000.0] && [1000.0] + [1002.0] == [1000.0, 1002.0];
    assert [] + [1010.0] == [1010.0] && [1010.0] + [1020.0] == [1010.0, 1020.0];
    assert GroupFirst(time, pressure, 1) == map["a" := [1000.0]];
    assert GroupFirst(time, pressure, 2) == map["a" := [1000.0, 1002.0]];
    assert GroupFirst(time, pressure, 3) == map["a" := [1000.0, 1002.0], "b" := [1010.0]];
  }

  lemma ExampleSortedDates()
    ensures SortedDates(ExampleTime, ExamplePressure) == ["a", "b"]
  {
    ExampleGroups();
    var ds: seq<string> := ["a", "a", "b", "b"];
    assert ZipLength(ExampleTime, ExamplePressure) == 4;
    assert Less("a", "b");
    assert ds[..3] == ["a", "a", "b"] && ds[..3][..2] == ["a", "a"] && ds[..3][..2][..1] == ["a"];
    assert SortDistinct(["a"]) == ["a"];
    assert SortDistinct(["a", "a"]) == ["a"];
    assert SortDistinct(["a", "a", "b"]) == ["a", "b"];
    assert !Less("b", "a") && ["a", "b"][1..] == ["b"];
    assert Insert("b", ["a", "b"]) == ["a", "b"];
    assert SortDistinct(ds) == ["a", "b"];
    assert DatesOf(ExampleTime, ZipLength(ExampleTime, ExamplePressure)) == ds;
  }

  /** Two dates with two readings each: (1000 + 1002) / 2 and (1010 + 1020) / 2 average to 1008. */
  lemma TwoDateExample()
    ensures AveragePressure(ExampleTime, ExamplePressure) == Ok(1008.0)
  {
    ExampleGroups();
    ExampleSortedDates();
    var g := GroupByDate(ExampleTime, ExamplePressure);
    assert KeptDates(ExampleTime, ExamplePressure) == ["a", "b"];
    assert Mean([1000.0, 1002.0]) == 1001.0;
    assert Mean([1010.0, 1020.0]) == 1015.0;
    assert DailyMeans(g, ["a", "b"]) == [1001.0, 1015.0];
    assert Mean([1001.0, 1015.0]) == 1008.0;
  }
}
