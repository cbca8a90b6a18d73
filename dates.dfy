/**
 * Date keys of the hourly series: the date part of a timestamp, the
 * code-point-wise ordering the source sorts keys by, and sorting a list of
 * keys into strictly ascending order.
 */
module Dates {

  /**
   * The part of a timestamp before its first 'T' (the whole string when it
   * has none), as `time_str.split("T")[0]`.
   */
  function DatePrefix(t: string): (p: string)
    ensures p <= t
    ensures 'T' !in p
    ensures |p| < |t| ==> t[|p|] == 'T'
  {
    if t == [] || t[0] == 'T' then [] else [t[0]] + DatePrefix(t[1..])
  }

  /** The three properties of DatePrefix determine it: it is the longest 'T'-free prefix. */
  lemma {:induction false} DatePrefixUnique(t: string, q: string)
    requires q <= t && 'T' !in q && (|q| < |t| ==> t[|q|] == 'T')
    ensures q == DatePrefix(t)
  {
    if q != [] {
      assert q[0] == t[0] && q[0] != 'T';
      assert q[1..] <= t[1..];
      DatePrefixUnique(t[1..], q[1..]);
    }
  }

  /** A timestamp "date" + "T" + "time" is keyed by its date. */
  lemma DatePrefixOfTimestamp(date: string, rest: string)
    requires 'T' !in date
    ensures DatePrefix(date + "T" + rest) == date
  {
    var t := date + "T" + rest;
    assert t[|date|] == 'T';
    assert date <= t;
    DatePrefixUnique(t, date);
  }

  /** Code-point-wise lexicographic order on strings, as Python compares `str`. */
  predicate Less(a: string, b: string)
    decreases |a|
  {
    if a == [] then b != []
    else if b == [] then false
    else if a[0] == b[0] then Less(a[1..], b[1..])
    else a[0] < b[0]
  }

  lemma {:induction false} LessIrreflexive(a: string)
    ensures !Less(a, a)
  {
    if a != [] {
      LessIrreflexive(a[1..]);
    }
  }

  lemma {:induction false} LessTransitive(a: string, b: string, c: string)
    requires Less(a, b) && Less(b, c)
    ensures Less(a, c)
    decreases |a|
  {
    if a != [] && b != [] && c != [] && a[0] == b[0] == c[0] {
      LessTransitive(a[1..], b[1..], c[1..]);
    }
  }

  lemma {:induction false} LessTotal(a: string, b: string)
    requires a != b
    ensures Less(a, b) || Less(b, a)
    decreases |a|
  {
    if a != [] && b != [] && a[0] == b[0] {
      assert a[1..] != b[1..] by {
        assert a == [a[0]] + a[1..] && b == [b[0]] + b[1..];
      }
      LessTotal(a[1..], b[1..]);
    }
  }

  /** Strictly ascending, hence free of duplicates. */
  predicate StrictlySorted(s: seq<string>)
  {
    forall i, j | 0 <= i < j < |s| :: Less(s[i], s[j])
  }

  /** Inserts `x` into a strictly ascending list unless it is already there. */
  function Insert(x: string, s: seq<string>): (r: seq<string>)
    requires StrictlySorted(s)
    ensures StrictlySorted(r)
    ensures forall y :: y in r <==> y in s || y == x
  {
    if s == [] then [x]
    else if x == s[0] then s
    else if Less(x, s[0]) then
      assert forall j | 0 <= j < |s| :: Less(x, s[j]) by {
        forall j | 0 <= j < |s| ensures Less(x, s[j]) {
          if j > 0 { LessTransitive(x, s[0], s[j]); }
        }
      }
      [x] + s
    else
      LessTotal(x, s[0]);
      var tail := Insert(x, s[1..]);
      assert forall j | 0 <= j < |tail| :: Less(s[0], tail[j]) by {
        forall j | 0 <= j < |tail| ensures Less(s[0], tail[j]) {
          if tail[j] != x {
            assert tail[j] in tail;
            var k :| 0 <= k < |s[1..]| && s[1..][k] == tail[j];
            assert s[1..][k] == s[k + 1];
          }
        }
      }
      [s[0]] + tail
  }

  /** The distinct elements of `s`, in ascending order, as `sorted(...)` over dictionary keys. */
  function SortDistinct(s: seq<string>): (r: seq<string>)
    ensures StrictlySorted(r)
    ensures forall y :: y in r <==> y in s
  {
    if s == [] then []
    else
      var r := Insert(s[|s| - 1], SortDistinct(s[..|s| - 1]));
      assert forall y :: y in s <==> y in s[..|s| - 1] || y == s[|s| - 1] by {
        assert s == s[..|s| - 1] + [s[|s| - 1]];
      }
      r
  }

  /** A strictly ascending list has as many elements as the set of its elements. */
  lemma {:induction false} SortedCardinality(s: seq<string>)
    requires StrictlySorted(s)
    ensures |set y | y in s| == |s|
  {
    if s != [] {
      SortedCardinality(s[1..]);
      assert s[0] !in s[1..] by {
        forall k | 0 <= k < |s[1..]| ensures s[1..][k] != s[0] {
          assert s[1..][k] == s[k + 1];
          LessIrreflexive(s[0]);
        }
      }
      assert (set y | y in s) == {s[0]} + (set y | y in s[1..]);
    }
  }

  /** In a strictly ascending list every element of a prefix is below every element after it. */
  lemma PrefixBelowRest(s: seq<string>, m: nat, k: string, j: string)
    requires StrictlySorted(s) && m <= |s|
    requires k in s[..m] && j in s && j !in s[..m]
    ensures Less(k, j)
  {
    var a :| 0 <= a < m && s[..m][a] == k;
    var b :| 0 <= b < |s| && s[b] == j;
    assert forall i | 0 <= i < m :: s[..m][i] == s[i];
    assert s[a] == k;
  }
}
