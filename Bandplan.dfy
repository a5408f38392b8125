/**
 * The IARU Region 1 band plan check: is a frequency inside one of the
 * twelve amateur segments from 160 m to 4 m? Segment bounds are inclusive.
 */
module Bandplan {
  import opened Digits

  /** One band segment, lower and upper edge in Hz, both included. */
  datatype Segment = Segment(lower: int, upper: int) {
    predicate Contains(hz: int) {
      lower <= hz <= upper
    }
  }

  const Region1Bands: seq<Segment> := [
    Segment(1810000, 2000000),    // 160 m
    Segment(3500000, 3800000),    // 80 m
    Segment(5351500, 5366500),    // 60 m
    Segment(7000000, 7200000),    // 40 m
    Segment(10100000, 10150000),  // 30 m
    Segment(14000000, 14350000),  // 20 m
    Segment(18068000, 18168000),  // 17 m
    Segment(21000000, 21450000),  // 15 m
    Segment(24890000, 24990000),  // 12 m
    Segment(28000000, 29700000),  // 10 m
    Segment(50000000, 52000000),  // 6 m
    Segment(70150000, 70250000)   // 4 m
  ]

  /** The reference meaning of the check: some segment of the table contains hz. */
  predicate InTable(table: seq<Segment>, hz: int) {
    exists i :: 0 <= i < |table| && table[i].Contains(hz)
  }

  predicate InRegion1(hz: int) {
    InTable(Region1Bands, hz)
  }

  /**
   * Every segment is non-empty and lies strictly below the next one with
   * at least one frequency between them.
   */
  predicate Separated(table: seq<Segment>) {
    && (forall i :: 0 <= i < |table| ==> table[i].lower <= table[i].upper)
    && (forall i :: 0 < i < |table| ==> table[i - 1].upper + 1 < table[i].lower)
  }

  /** The table has twelve segments, sorted, disjoint and with gaps between them. */
  lemma Region1Separated()
    ensures |Region1Bands| == 12
    ensures Separated(Region1Bands)
  {
  }

  lemma {:induction false} SeparatedOrdered(table: seq<Segment>, j: int, k: int)
    requires Separated(table)
    requires 0 <= j < k < |table|
    ensures table[j].upper + 1 < table[k].lower
  {
    if j < k - 1 {
      SeparatedOrdered(table, j, k - 1);
    }
  }

  /** In a separated table at most one segment contains a frequency. */
  lemma AtMostOneSegment(table: seq<Segment>, hz: int, j: int, k: int)
    requires Separated(table)
    requires 0 <= j < |table| && 0 <= k < |table|
    requires table[j].Contains(hz) && table[k].Contains(hz)
    ensures j == k
  {
    if j < k {
      SeparatedOrdered(table, j, k);
    } else if k < j {
      SeparatedOrdered(table, k, j);
    }
  }

  /**
   * In a separated table both edges of every segment are in the table and
   * the frequencies just outside them are not.
   */
  lemma {:induction false} EdgesExact(table: seq<Segment>, i: int)
    requires Separated(table) && 0 <= i < |table|
    ensures InTable(table, table[i].lower) && InTable(table, table[i].upper)
    ensures !InTable(table, table[i].lower - 1) && !InTable(table, table[i].upper + 1)
  {
    assert table[i].Contains(table[i].lower) && table[i].Contains(table[i].upper);
    forall j | 0 <= j < |table|
      ensures !table[j].Contains(table[i].lower - 1) && !table[j].Contains(table[i].upper + 1)
    {
      if j < i {
        SeparatedOrdered(table, j, i);
      } else if i < j {
        SeparatedOrdered(table, i, j);
      }
    }
  }

  /** The edges of each Region 1 segment are inside the plan, one hertz beyond them is not. */
  lemma Region1EdgesExact(i: int)
    requires 0 <= i < |Region1Bands|
    ensures InRegion1(Region1Bands[i].lower) && InRegion1(Region1Bands[i].upper)
    ensures !InRegion1(Region1Bands[i].lower - 1) && !InRegion1(Region1Bands[i].upper + 1)
  {
    Region1Separated();
    EdgesExact(Region1Bands, i);
  }

  /** The plan spans 1.81 MHz to 70.25 MHz: nothing outside that range is in it. */
  lemma Region1Span(hz: int)
    requires InRegion1(hz)
    ensures 1810000 <= hz <= 70250000
  {
    var i :| 0 <= i < |Region1Bands| && Region1Bands[i].Contains(hz);
    Region1Separated();
    if i > 0 {
      SeparatedOrdered(Region1Bands, 0, i);
    }
    if i < |Region1Bands| - 1 {
      SeparatedOrdered(Region1Bands, i, |Region1Bands| - 1);
    }
  }

  /**
   * is_within_iaru_region1: walks the table in order and answers true at
   * the first segment holding int(frequency), false when none does.
   */
  method IsWithinIaruRegion1(frequency: string) returns (inBand: bool)
    requires IsDecimal(frequency)
    ensures inBand <==> InRegion1(DecimalValue(frequency))
  {
    var i := 0;
    while i < |Region1Bands|
      invariant 0 <= i <= |Region1Bands|
      invariant forall j :: 0 <= j < i ==> !Region1Bands[j].Contains(DecimalValue(frequency))
    {
      var band := Region1Bands[i];
      if band.lower <= DecimalValue(frequency) <= band.upper {
        return true;
      }
      i := i + 1;
    }
    return false;
  }
}
