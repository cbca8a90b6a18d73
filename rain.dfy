/** The weekly precipitation label derived from the daily weather codes. */
module Rain {

  /** Rain-family codes are those in `range(51, 99)`: 51 up to and including 98. */
  const RainCodeFirst: int := 51
  const RainCodeStop: int := 99
  /** This many rain days or more make a wet week. */
  const RainDaysThreshold: nat := 4

  const WithPrecipitation: string := "z opadami"
  const WithoutPrecipitation: string := "bez opadów"

  predicate IsRainCode(c: int)
  {
    RainCodeFirst <= c < RainCodeStop
  }

  /** The number of days with a rain-family code, over every code given. */
  function RainDays(codes: seq<int>): (n: nat)
    ensures n <= |codes|
    ensures n == 0 <==> forall i | 0 <= i < |codes| :: !IsRainCode(codes[i])
    ensures n == |codes| <==> forall i | 0 <= i < |codes| :: IsRainCode(codes[i])
  {
    if codes == [] then 0
    else (if IsRainCode(codes[0]) then 1 else 0) + RainDays(codes[1..])
  }

  /** The label of the week: with precipitation exactly when at least four days are rain days. */
  function Classify(codes: seq<int>): (week: string)
    ensures week == WithPrecipitation <==> RainDays(codes) >= 4
    ensures week == WithoutPrecipitation <==> RainDays(codes) < 4
  {
    if RainDays(codes) >= RainDaysThreshold then WithPrecipitation else WithoutPrecipitation
  }

  /** Counting distributes over concatenation. */
  lemma {:induction false} RainDaysAppend(a: seq<int>, b: seq<int>)
    ensures RainDays(a + b) == RainDays(a) + RainDays(b)
  {
    if a == [] {
      assert a + b == b;
    } else {
      assert (a + b)[1..] == a[1..] + b;
      RainDaysAppend(a[1..], b);
    }
  }

  /**
   * Inserting one more code anywhere adds one day exactly when it is a
   * rain-family code, so a rain code never turns a wet week dry.
   */
  lemma InsertCode(a: seq<int>, c: int, b: seq<int>)
    ensures RainDays(a + [c] + b) == RainDays(a + b) + (if IsRainCode(c) then 1 else 0)
    ensures IsRainCode(c) && Classify(a + b) == WithPrecipitation ==> Classify(a + [c] + b) == WithPrecipitation
    ensures !IsRainCode(c) ==> Classify(a + [c] + b) == Classify(a + b)
  {
    RainDaysAppend(a + [c], b);
    RainDaysAppend(a, [c]);
    RainDaysAppend(a, b);
    assert RainDays([c]) == (if IsRainCode(c) then 1 else 0);
  }

  /** Three rain days are not enough; four are. Codes 50 and 99 lie outside the family. */
  lemma ThresholdExamples()
    ensures Classify([51, 61, 98, 0, 3, 50, 99]) == WithoutPrecipitation
    ensures Classify([51, 61, 98, 80, 3, 50, 99]) == WithPrecipitation
  {
    assert [51, 61, 98, 0, 3, 50, 99][1..] == [61, 98, 0, 3, 50, 99];
    assert [61, 98, 0, 3, 50, 99][1..] == [98, 0, 3, 50, 99];
    assert [98, 0, 3, 50, 99][1..] == [0, 3, 50, 99];
    assert RainDays([0, 3, 50, 99]) == 0;
    assert [51, 61, 98, 80, 3, 50, 99][1..] == [61, 98, 80, 3, 50, 99];
    assert [61, 98, 80, 3, 50, 99][1..] == [98, 80, 3, 50, 99];
    assert [98, 80, 3, 50, 99][1..] == [80, 3, 50, 99];
    assert [80, 3, 50, 99][1..] == [3, 50, 99];
    assert RainDays([3, 50, 99]) == 0;
  }
}
