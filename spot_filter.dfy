/**
 * The row filter of the EC2 spot-pricing page (content/ec2-spot-pricing/local.js,
 * the `for (let row of data)` loop of getSeriesData): seven predicates a row must
 * pass, and the "first 20 matches in dataset order" selection.
 */
module SpotFilter {

  /** One record of stats.json. Numbers are JavaScript numbers, modelled as reals. */
  datatype Row = Row(
    instanceType: string,
    region: string,
    availabilityZone: string,
    architecture: string,
    memoryGib: real,
    vcpus: real,
    memoryGibPerVcpu: real,
    dollarsPerHour: real,
    currentGeneration: bool,
    power: real)

  /** The values read from the seven filter controls of the page. */
  datatype Filters = Filters(
    memory: real,
    vcpus: real,
    mpv: real,
    instanceType: string,
    architecture: string,
    region: string,
    currentGen: bool)

  /**
   * The JavaScript regular-expression engine, which is not modelled: `compiles(p)`
   * says whether `RegExp(p, "i")` succeeds, and `test(p, s)` is the result of the
   * case-insensitive `regex.test(s)` of the compiled pattern.
   */
  datatype PatternEngine = PatternEngine(
    compiles: string -> bool,
    test: (string, string) -> bool)

  /** At most this many rows are accepted. */
  const Cap: nat := 20

  /** The sentinel architecture value that switches the architecture filter off. */
  const AnyArchitecture: string := "any"

  /** The region the reset button selects. */
  const DefaultRegion: string := "us-west-2"

  /** The filter values the reset button writes into the controls. */
  function Defaults(): (f: Filters)
    ensures f.memory == 0.0 && f.vcpus == 0.0 && f.mpv == 0.0
    ensures f.architecture == "any" && f.instanceType == ""
    ensures f.region == "us-west-2" && !f.currentGen
  {
    Filters(0.0, 0.0, 0.0, "", AnyArchitecture, DefaultRegion, false)
  }

  /** The seven `continue` tests of the scan loop, negated: true when the row is kept. */
  predicate Accepts(f: Filters, e: PatternEngine, row: Row)
  {
    && !(row.memoryGib < f.memory)
    && !(row.vcpus < f.vcpus)
    && !(row.memoryGibPerVcpu < f.mpv)
    && e.test(f.instanceType, row.instanceType)
    && !(f.currentGen && !row.currentGeneration)
    && f.region == row.region
    && !(f.architecture != AnyArchitecture && f.architecture != row.architecture)
  }

  /** All rows the filter keeps, in dataset order (no cap). */
  function Matching(rows: seq<Row>, f: Filters, e: PatternEngine): (r: seq<Row>)
    ensures |r| <= |rows|
  {
    if rows == [] then []
    else if Accepts(f, e, rows[0]) then [rows[0]] + Matching(rows[1..], f, e)
    else Matching(rows[1..], f, e)
  }

  /**
   * What the scan loop accepts: rows in dataset order, at most `cap` of them,
   * looking at no row once `cap` rows have been accepted.
   */
  function FirstMatches(rows: seq<Row>, f: Filters, e: PatternEngine, cap: nat): seq<Row>
  {
    if rows == [] || cap == 0 then []
    else if Accepts(f, e, rows[0]) then [rows[0]] + FirstMatches(rows[1..], f, e, cap - 1)
    else FirstMatches(rows[1..], f, e, cap)
  }

  function Min(a: nat, b: nat): nat { if a < b then a else b }

  /** Never more than `cap` rows are accepted. */
  lemma {:induction false} FirstMatchesBounded(rows: seq<Row>, f: Filters, e: PatternEngine, cap: nat)
    ensures |FirstMatches(rows, f, e, cap)| <= cap
    ensures |FirstMatches(rows, f, e, cap)| <= |rows|
  {
    if rows != [] && cap != 0 {
      if Accepts(f, e, rows[0]) {
        FirstMatchesBounded(rows[1..], f, e, cap - 1);
      } else {
        FirstMatchesBounded(rows[1..], f, e, cap);
      }
    }
  }

  /** Every accepted row passes all seven predicates and is a row of the dataset. */
  lemma {:induction false} FirstMatchesAccepted(rows: seq<Row>, f: Filters, e: PatternEngine, cap: nat)
    ensures forall x :: x in FirstMatches(rows, f, e, cap) ==> Accepts(f, e, x) && x in rows
  {
    if rows != [] && cap != 0 {
      if Accepts(f, e, rows[0]) {
        FirstMatchesAccepted(rows[1..], f, e, cap - 1);
      } else {
        FirstMatchesAccepted(rows[1..], f, e, cap);
      }
    }
  }

  /** Every matching row of the dataset, and only those, is in `Matching`. */
  lemma {:induction false} MatchingExactly(rows: seq<Row>, f: Filters, e: PatternEngine)
    ensures forall x :: x in Matching(rows, f, e) <==> x in rows && Accepts(f, e, x)
  {
    if rows != [] {
      MatchingExactly(rows[1..], f, e);
      assert rows == [rows[0]] + rows[1..];
    }
  }

  /**
   * First-N-matches policy: the accepted rows are exactly the first
   * min(cap, number of matches) matching rows, in dataset order. No matching row
   * before an accepted one is skipped, and none is reordered.
   */
  lemma {:induction false} FirstMatchesIsPrefixOfMatching(rows: seq<Row>, f: Filters, e: PatternEngine, cap: nat)
    ensures var m := Matching(rows, f, e);
      FirstMatches(rows, f, e, cap) == m[..Min(cap, |m|)]
  {
    if rows != [] && cap != 0 {
      if Accepts(f, e, rows[0]) {
        FirstMatchesIsPrefixOfMatching(rows[1..], f, e, cap - 1);
      } else {
        FirstMatchesIsPrefixOfMatching(rows[1..], f, e, cap);
      }
    }
  }

  /** When at least `cap` rows match, exactly `cap` are accepted; otherwise all matches are. */
  lemma FirstMatchesCount(rows: seq<Row>, f: Filters, e: PatternEngine, cap: nat)
    ensures |Matching(rows, f, e)| >= cap ==> |FirstMatches(rows, f, e, cap)| == cap
    ensures |Matching(rows, f, e)| < cap ==> FirstMatches(rows, f, e, cap) == Matching(rows, f, e)
  {
    FirstMatchesIsPrefixOfMatching(rows, f, e, cap);
  }

  /** Raising the cap keeps every row accepted under the lower cap, in the same order. */
  lemma {:induction false} FirstMatchesCapMonotone(rows: seq<Row>, f: Filters, e: PatternEngine, c1: nat, c2: nat)
    requires c1 <= c2
    ensures FirstMatches(rows, f, e, c1) <= FirstMatches(rows, f, e, c2)
  {
    FirstMatchesIsPrefixOfMatching(rows, f, e, c1);
    FirstMatchesIsPrefixOfMatching(rows, f, e, c2);
  }

  /**
   * Once `cap` rows have been accepted from a prefix of the dataset, the rest of
   * the dataset does not influence the result: the scan may stop there.
   */
  lemma {:induction false} FirstMatchesStopsAtCap(rows: seq<Row>, f: Filters, e: PatternEngine, cap: nat, k: nat)
    requires k <= |rows|
    requires |FirstMatches(rows[..k], f, e, cap)| == cap
    ensures FirstMatches(rows, f, e, cap) == FirstMatches(rows[..k], f, e, cap)
  {
    if rows != [] && cap != 0 {
      assert rows[..k][0] == rows[0];
      assert rows[..k][1..] == rows[1..][..k - 1];
      if Accepts(f, e, rows[0]) {
        FirstMatchesStopsAtCap(rows[1..], f, e, cap - 1, k - 1);
      } else {
        FirstMatchesStopsAtCap(rows[1..], f, e, cap, k - 1);
      }
    }
  }

  /** With the sentinel "any", a row's architecture does not affect acceptance. */
  lemma AnyArchitectureIgnoresArchitecture(f: Filters, e: PatternEngine, row: Row, arch: string)
    requires f.architecture == AnyArchitecture
    ensures Accepts(f, e, row) == Accepts(f, e, row.(architecture := arch))
  {
  }

  /** With the current-generation box unchecked, the generation flag does not affect acceptance. */
  lemma CurrentGenOffIgnoresGeneration(f: Filters, e: PatternEngine, row: Row, gen: bool)
    requires !f.currentGen
    ensures Accepts(f, e, row) == Accepts(f, e, row.(currentGeneration := gen))
  {
  }

  /** An engine for which the empty pattern compiles and matches every string, as JavaScript's does. */
  ghost predicate EmptyPatternMatchesAll(e: PatternEngine)
  {
    e.compiles("") && forall s :: e.test("", s)
  }

  /**
   * Under the reset defaults a row is kept exactly when it is in the default
   * region and its three numeric fields are not negative.
   */
  lemma DefaultsAccept(e: PatternEngine, row: Row)
    requires EmptyPatternMatchesAll(e)
    ensures Accepts(Defaults(), e, row) <==>
      row.region == DefaultRegion && row.memoryGib >= 0.0 && row.vcpus >= 0.0 && row.memoryGibPerVcpu >= 0.0
  {
  }
}
