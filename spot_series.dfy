/**
 * getSeriesData of content/ec2-spot-pricing/local.js (lines 13-53) without its
 * DOM reads: from the dataset, the filter values and the two foreign
 * collaborators (the regular-expression engine and the label formatter) it
 * builds the three index-aligned lists handed to the chart.
 */
module SpotSeries {
  import opened Wrappers
  import opened SpotFilter
  import opened PowerBuckets

  /**
   * One bar of the chart: `name` is the tooltip label, `y` the hourly price and
   * `className` the N of the CSS class "power-N" (None while it is still null).
   */
  datatype Point = Point(name: string, y: real, className: Option<int>)

  /** The global `seriesData`: categories, price points and powers, index-aligned. */
  datatype SeriesData = SeriesData(categories: seq<string>, price: seq<Point>, power: seq<real>)

  /** What `RegExp(insttype, "i")` throws for a malformed pattern. */
  datatype PatternError = InvalidPattern(pattern: string)

  /** The series with all three lists empty. */
  const EmptySeries: SeriesData := SeriesData([], [], [])

  /** The class of a point with power `p` among the accepted powers `powers`. */
  function ClassOf(p: real, powers: seq<real>): int
  {
    if |powers| == 0 then MiddleClass else PowerIndex(p, MinOf(powers), MaxOf(powers))
  }

  /** The point pushed for an accepted row, before its class is assigned. */
  function RawPoint(row: Row, formatLabel: Row -> string): Point
  {
    Point(formatLabel(row), row.dollarsPerHour, None)
  }

  /** The series built from the accepted rows, with every class assigned. */
  function Build(accepted: seq<Row>, formatLabel: Row -> string): SeriesData
  {
    var power := seq(|accepted|, k requires 0 <= k < |accepted| => accepted[k].power);
    SeriesData(
      seq(|accepted|, k requires 0 <= k < |accepted| => accepted[k].instanceType),
      seq(|accepted|, k requires 0 <= k < |accepted| =>
        RawPoint(accepted[k], formatLabel).(className := Some(ClassOf(accepted[k].power, power)))),
      power)
  }

  /** What getSeriesData computes: an error for a bad pattern, else the capped series. */
  function Series(data: seq<Row>, f: Filters, e: PatternEngine, formatLabel: Row -> string): Result<SeriesData, PatternError>
  {
    if !e.compiles(f.instanceType) then Failure(InvalidPattern(f.instanceType))
    else Success(Build(FirstMatches(data, f, e, Cap), formatLabel))
  }

  /**
   * getSeriesData: a malformed pattern throws before any row is looked at;
   * otherwise the scan loop and the class loop below build the series.
   */
  method ComputeSeries(data: seq<Row>, f: Filters, e: PatternEngine, formatLabel: Row -> string)
    returns (r: Result<SeriesData, PatternError>)
    ensures r == Series(data, f, e, formatLabel)
  {
    if !e.compiles(f.instanceType) {
      return Failure(InvalidPattern(f.instanceType));
    }
    var categories, price, power := ScanRows(data, f, e, formatLabel);
    price := AssignClasses(price, power);
    ghost var spec := Build(FirstMatches(data, f, e, Cap), formatLabel);
    assert categories == spec.categories;
    assert power == spec.power;
    assert price == spec.price;
    r := Success(SeriesData(categories, price, power));
  }

  /**
   * The first loop of getSeriesData: scans the rows in order, skips each one
   * that fails a predicate, stops once Cap rows are accepted, and pushes the
   * accepted row's type, point and power onto the three lists.
   */
  method ScanRows(data: seq<Row>, f: Filters, e: PatternEngine, formatLabel: Row -> string)
    returns (categories: seq<string>, price: seq<Point>, power: seq<real>)
    ensures var accepted := FirstMatches(data, f, e, Cap);
      && |categories| == |price| == |power| == |accepted|
      && (forall k :: 0 <= k < |accepted| ==>
            && categories[k] == accepted[k].instanceType
            && price[k] == RawPoint(accepted[k], formatLabel)
            && power[k] == accepted[k].power)
  {
    categories, price, power := [], [], [];
    ghost var accepted: seq<Row> := [];
    var i := 0;
    while i < |data|
      invariant 0 <= i <= |data|
      invariant |accepted| <= Cap
      invariant FirstMatches(data, f, e, Cap) == accepted + FirstMatches(data[i..], f, e, Cap - |accepted|)
      invariant |categories| == |price| == |power| == |accepted|
      invariant forall k :: 0 <= k < |accepted| ==>
        categories[k] == accepted[k].instanceType && price[k] == RawPoint(accepted[k], formatLabel) &&
        power[k] == accepted[k].power
    {
      if |categories| == Cap {
        break;
      }
      var row := data[i];
      assert data[i..] == [row] + data[i + 1..];
      i := i + 1;
      if row.memoryGib < f.memory { continue; }
      if row.vcpus < f.vcpus { continue; }
      if row.memoryGibPerVcpu < f.mpv { continue; }
      if !e.test(f.instanceType, row.instanceType) { continue; }
      if f.currentGen && !row.currentGeneration { continue; }
      if f.region != row.region { continue; }
      if f.architecture != AnyArchitecture && f.architecture != row.architecture { continue; }
      assert Accepts(f, e, row);
      categories := categories + [row.instanceType];
      price := price + [RawPoint(row, formatLabel)];
      power := power + [row.power];
      accepted := accepted + [row];
    }
    assert accepted == FirstMatches(data, f, e, Cap);
  }

  /**
   * The second loop of getSeriesData: every point gets the class of its power
   * among all the powers, and nothing else about it changes.
   */
  method AssignClasses(price: seq<Point>, power: seq<real>) returns (classed: seq<Point>)
    requires |price| == |power|
    ensures |classed| == |price|
    ensures forall k :: 0 <= k < |price| ==> classed[k] == price[k].(className := Some(ClassOf(power[k], power)))
  {
    classed := price;
    // Math.min and Math.max of an empty list are never used: the loop below does not run.
    var minPower := if |power| > 0 then MinOf(power) else 0.0;
    var maxPower := if |power| > 0 then MaxOf(power) else 0.0;
    var j := 0;
    while j < |power|
      invariant 0 <= j <= |power| == |classed|
      invariant forall k :: 0 <= k < j ==> classed[k] == price[k].(className := Some(ClassOf(power[k], power)))
      invariant forall k :: j <= k < |classed| ==> classed[k] == price[k]
    {
      var powerIndex := MiddleClass;
      if minPower < maxPower {
        var normalised := (power[j] - minPower) / (maxPower - minPower);
        var scaled := (normalised * (Classes as real)).Floor;
        powerIndex := if scaled < Classes - 1 then scaled else Classes - 1;
      }
      classed := classed[j := classed[j].(className := Some(powerIndex))];
      j := j + 1;
    }
  }

  /**
   * The three lists have equal length, at most Cap, and index k of each comes
   * from the k-th accepted row.
   */
  lemma SeriesAligned(data: seq<Row>, f: Filters, e: PatternEngine, formatLabel: Row -> string)
    requires e.compiles(f.instanceType)
    ensures var s := Series(data, f, e, formatLabel).value;
      var accepted := FirstMatches(data, f, e, Cap);
      && |s.categories| == |s.price| == |s.power| == |accepted| <= Cap
      && forall k :: 0 <= k < |accepted| ==>
           && s.categories[k] == accepted[k].instanceType
           && s.price[k].name == formatLabel(accepted[k])
           && s.price[k].y == accepted[k].dollarsPerHour
           && s.power[k] == accepted[k].power
  {
    FirstMatchesBounded(data, f, e, Cap);
  }

  /** A malformed pattern fails before any row is looked at. */
  lemma SeriesInvalidPattern(data: seq<Row>, f: Filters, e: PatternEngine, formatLabel: Row -> string)
    ensures Series(data, f, e, formatLabel).Failure? <==> !e.compiles(f.instanceType)
    ensures !e.compiles(f.instanceType) ==> Series(data, f, e, formatLabel) == Failure(InvalidPattern(f.instanceType))
  {
  }

  /** Every point is given a class, and every class is one of 0..4. */
  lemma SeriesClassesInRange(data: seq<Row>, f: Filters, e: PatternEngine, formatLabel: Row -> string)
    requires e.compiles(f.instanceType)
    ensures var s := Series(data, f, e, formatLabel).value;
      forall k :: 0 <= k < |s.price| ==>
        s.price[k].className.Some? && 0 <= s.price[k].className.value < Classes
  {
    var s := Series(data, f, e, formatLabel).value;
    forall k | 0 <= k < |s.price|
      ensures s.price[k].className.Some? && 0 <= s.price[k].className.value < Classes
    {
      PowerIndexInRange(s.power[k], MinOf(s.power), MaxOf(s.power));
    }
  }

  /** When every accepted row has the same power, every point is in the middle class. */
  lemma SeriesEqualPowers(data: seq<Row>, f: Filters, e: PatternEngine, formatLabel: Row -> string, v: real)
    requires e.compiles(f.instanceType)
    requires forall x :: x in FirstMatches(data, f, e, Cap) ==> x.power == v
    ensures var s := Series(data, f, e, formatLabel).value;
      forall k :: 0 <= k < |s.price| ==> s.price[k].className == Some(MiddleClass)
  {
    var s := Series(data, f, e, formatLabel).value;
    var accepted := FirstMatches(data, f, e, Cap);
    if |s.power| > 0 {
      assert accepted[0] in accepted;
      assert MinOf(s.power) == v && MaxOf(s.power) == v;
    }
  }

  /**
   * Classes never decrease with power, and when the powers are not all equal
   * the rows of maximal power get class 4 and the rows of minimal power class 0.
   */
  lemma SeriesClassOrder(data: seq<Row>, f: Filters, e: PatternEngine, formatLabel: Row -> string)
    requires e.compiles(f.instanceType)
    ensures var s := Series(data, f, e, formatLabel).value;
      && (forall k, l :: 0 <= k < |s.power| && 0 <= l < |s.power| && s.power[k] <= s.power[l] ==>
            s.price[k].className.value <= s.price[l].className.value)
      && (|s.power| > 0 && MinOf(s.power) < MaxOf(s.power) ==>
            forall k :: 0 <= k < |s.power| ==>
              (s.power[k] == MaxOf(s.power) ==> s.price[k].className == Some(Classes - 1)) &&
              (s.power[k] == MinOf(s.power) ==> s.price[k].className == Some(0)))
  {
    var s := Series(data, f, e, formatLabel).value;
    if |s.power| > 0 {
      var lo, hi := MinOf(s.power), MaxOf(s.power);
      forall k, l | 0 <= k < |s.power| && 0 <= l < |s.power| && s.power[k] <= s.power[l]
        ensures s.price[k].className.value <= s.price[l].className.value
      {
        if lo < hi {
          PowerIndexMonotone(s.power[k], s.power[l], lo, hi);
        }
      }
      if lo < hi {
        PowerIndexOfMax(lo, hi);
        PowerIndexOfMin(lo, hi);
      }
    }
  }

  /**
   * With a non-empty accepted set whose powers are not all equal, both extreme
   * classes are used. (When all powers are equal every point is in class 2.)
   */
  lemma SeriesExtremesAttained(data: seq<Row>, f: Filters, e: PatternEngine, formatLabel: Row -> string)
    requires e.compiles(f.instanceType)
    requires var s := Series(data, f, e, formatLabel).value; |s.power| > 0 && MinOf(s.power) < MaxOf(s.power)
    ensures var s := Series(data, f, e, formatLabel).value;
      && (exists k :: 0 <= k < |s.price| && s.price[k].className == Some(Classes - 1))
      && (exists k :: 0 <= k < |s.price| && s.price[k].className == Some(0))
  {
    var s := Series(data, f, e, formatLabel).value;
    SeriesClassOrder(data, f, e, formatLabel);
    var hi := MaxOf(s.power);
    var lo := MinOf(s.power);
    var kh :| 0 <= kh < |s.power| && s.power[kh] == hi;
    var kl :| 0 <= kl < |s.power| && s.power[kl] == lo;
  }

  /** The two-row scenario: both rows accepted in order, the larger power in class 4, the smaller in class 0. */
  lemma TwoRowScenario(e: PatternEngine, formatLabel: Row -> string)
    requires EmptyPatternMatchesAll(e)
    ensures
      var m5 := Row("m5.large", "us-west-2", "us-west-2a", "x86_64", 8.0, 2.0, 4.0, 0.0224, true, 10.0);
      var t3 := Row("t3.micro", "us-west-2", "us-west-2b", "x86_64", 1.0, 2.0, 0.5, 0.0035, true, 2.0);
      Series([m5, t3], Defaults(), e, formatLabel) == Success(SeriesData(
        ["m5.large", "t3.micro"],
        [Point(formatLabel(m5), 0.0224, Some(4)), Point(formatLabel(t3), 0.0035, Some(0))],
        [10.0, 2.0]))
  {
    var m5 := Row("m5.large", "us-west-2", "us-west-2a", "x86_64", 8.0, 2.0, 4.0, 0.0224, true, 10.0);
    var t3 := Row("t3.micro", "us-west-2", "us-west-2b", "x86_64", 1.0, 2.0, 0.5, 0.0035, true, 2.0);
    var data := [m5, t3];
    assert data[1..] == [t3];
    assert Accepts(Defaults(), e, m5) by { assert e.test("", m5.instanceType); }
    assert Accepts(Defaults(), e, t3) by { assert e.test("", t3.instanceType); }
    assert [t3][1..] == [];
    assert FirstMatches([t3], Defaults(), e, Cap - 1) == [t3];
    assert FirstMatches(data, Defaults(), e, Cap) == data;
    var s := Build(data, formatLabel);
    assert s.power == [10.0, 2.0];
    assert MinOf(s.power) == 2.0;
    assert MaxOf(s.power) == 10.0;
    PowerIndexOfMax(2.0, 10.0);
    PowerIndexOfMin(2.0, 10.0);
    assert ClassOf(10.0, s.power) == 4 && ClassOf(2.0, s.power) == 0;
    assert s.categories == ["m5.large", "t3.micro"];
    assert s.price == [Point(formatLabel(m5), 0.0224, Some(4)), Point(formatLabel(t3), 0.0035, Some(0))];
  }
}
