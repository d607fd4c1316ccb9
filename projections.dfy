/**
 * The list comprehensions of core/utils.py `fetch_gender_data` and
 * `fetch_region_data` (also used at myapp/utils/csv_utils.py:119-120): parallel
 * label and count lists projected from a group-by-count query result.  The
 * query itself runs in the database; its result is an input here.
 */
module Projections {
  import opened Wrappers

  /** One row of `values('gender').annotate(count=Count('id'))`. */
  datatype GenderCount = GenderCount(gender: string, count: nat)

  /** One row of `values('region').annotate(count=Count('id'))`; the region column is nullable. */
  datatype RegionCount = RegionCount(region: Option<string>, count: nat)

  /** Pairs two index-aligned lists back into query rows. */
  function ZipGenders(genders: seq<string>, counts: seq<nat>): seq<GenderCount>
    requires |genders| == |counts|
  {
    seq(|genders|, i requires 0 <= i < |genders| => GenderCount(genders[i], counts[i]))
  }

  /**
   * `fetch_gender_data`: the gender list and the count list.  Both have one
   * entry per query row, and position i of each comes from query row i.
   */
  function FetchGenderData(q: seq<GenderCount>): (r: (seq<string>, seq<nat>))
    ensures |r.0| == |r.1| == |q|
    ensures ZipGenders(r.0, r.1) == q
  {
    (seq(|q|, i requires 0 <= i < |q| => q[i].gender), seq(|q|, i requires 0 <= i < |q| => q[i].count))
  }

  /** Python truthiness of a nullable string: neither `None` nor empty. */
  predicate Truthy(region: Option<string>) {
    region.Some? && region.value != ""
  }

  /** The query rows whose region is truthy, in query order: the reference for `fetch_region_data`. */
  function NamedEntries(q: seq<RegionCount>): seq<RegionCount> {
    if q == [] then []
    else (if Truthy(q[0].region) then [q[0]] else []) + NamedEntries(q[1..])
  }

  /** `[entry['region'] for entry in region_count if entry['region']]` */
  function Regions(q: seq<RegionCount>): seq<string> {
    if q == [] then []
    else (if Truthy(q[0].region) then [q[0].region.value] else []) + Regions(q[1..])
  }

  /** `[entry['count'] for entry in region_count if entry['region']]` */
  function RegionCounts(q: seq<RegionCount>): seq<nat> {
    if q == [] then []
    else (if Truthy(q[0].region) then [q[0].count] else []) + RegionCounts(q[1..])
  }

  /** Pairs two index-aligned lists back into query rows with a present region. */
  function ZipRegions(regions: seq<string>, counts: seq<nat>): seq<RegionCount>
    requires |regions| == |counts|
  {
    seq(|regions|, i requires 0 <= i < |regions| => RegionCount(Some(regions[i]), counts[i]))
  }

  /** The two filtered comprehensions keep the same rows, so their results line up. */
  lemma {:induction false} RegionDataAligned(q: seq<RegionCount>)
    ensures |Regions(q)| == |RegionCounts(q)|
    ensures ZipRegions(Regions(q), RegionCounts(q)) == NamedEntries(q)
  {
    if q != [] {
      RegionDataAligned(q[1..]);
    }
  }

  /**
   * `fetch_region_data`: regions and counts of the rows with a truthy region.
   * The lists have equal length, no region is empty, and pairing them back
   * gives exactly the kept rows in query order.
   */
  function FetchRegionData(q: seq<RegionCount>): (r: (seq<string>, seq<nat>))
    ensures |r.0| == |r.1| <= |q|
    ensures forall i :: 0 <= i < |r.0| ==> r.0[i] != ""
    ensures ZipRegions(r.0, r.1) == NamedEntries(q)
  {
    RegionDataAligned(q);
    NamedEntriesBound(q);
    assert forall i :: 0 <= i < |Regions(q)| ==>
      NamedEntries(q)[i] in NamedEntries(q) && NamedEntries(q)[i].region == Some(Regions(q)[i]);
    (Regions(q), RegionCounts(q))
  }

  lemma {:induction false} NamedEntriesBound(q: seq<RegionCount>)
    ensures |NamedEntries(q)| <= |q|
    ensures forall e :: e in NamedEntries(q) ==> Truthy(e.region)
  {
    if q != [] {
      NamedEntriesBound(q[1..]);
    }
  }

  /** A row is kept exactly when it occurs in the query with a truthy region. */
  lemma {:induction false} NamedEntriesMembers(q: seq<RegionCount>, e: RegionCount)
    ensures e in NamedEntries(q) <==> e in q && Truthy(e.region)
  {
    if q != [] {
      NamedEntriesMembers(q[1..], e);
      assert q == [q[0]] + q[1..];
    }
  }

  /** Filtering distributes over concatenation, so query order is kept. */
  lemma {:induction false} NamedEntriesAppend(a: seq<RegionCount>, b: seq<RegionCount>)
    ensures NamedEntries(a + b) == NamedEntries(a) + NamedEntries(b)
  {
    if a == [] {
      assert a + b == b;
    } else {
      var ab := a + b;
      var head := if Truthy(a[0].region) then [a[0]] else [];
      assert ab[0] == a[0];
      assert ab[1..] == a[1..] + b;
      assert NamedEntries(ab) == head + NamedEntries(a[1..] + b);
      NamedEntriesAppend(a[1..], b);
      assert head + (NamedEntries(a[1..]) + NamedEntries(b)) == (head + NamedEntries(a[1..])) + NamedEntries(b);
    }
  }
}
