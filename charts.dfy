/**
 * The chart aggregation, myapp/utils/csv_utils.py `chart_data`: the gender
 * counts as two parallel lists, and the region-by-gender counts pivoted into
 * one series per gender with one value per region.  The two group-by queries
 * run in the database; their results are inputs, `None` when a query failed.
 */
module Charts {
  import opened Wrappers
  import opened StringOrder
  import opened Projections

  /** One row of `values('region', 'gender').annotate(count=Count('id'))` over records with a region. */
  datatype RegionGenderCount = RegionGenderCount(region: string, gender: string, count: nat)

  /** One chart series, `{'label': gender, 'data': [count per region]}`; its label is the gender. */
  datatype Dataset = Dataset(gender: string, data: seq<nat>)

  /** The dictionary `chart_data` returns. */
  datatype ChartResult = ChartResult(
    genderLabels: seq<string>,
    genderCounts: seq<nat>,
    allRegions: seq<string>,
    regionDatasets: seq<Dataset>)

  /** A query that raised; the source then fails with an unbound name, here it is reported. */
  datatype ChartError = GenderQueryFailed | RegionQueryFailed

  /** `region_gender_counts`: region to gender to count. */
  type Table = map<string, map<string, nat>>

  function RegionsOf(ds: seq<RegionGenderCount>): (r: seq<string>)
    ensures |r| == |ds|
  {
    seq(|ds|, i requires 0 <= i < |ds| => ds[i].region)
  }

  function GendersOf(ds: seq<RegionGenderCount>): (r: seq<string>)
    ensures |r| == |ds|
  {
    seq(|ds|, i requires 0 <= i < |ds| => ds[i].gender)
  }

  function Labels(datasets: seq<Dataset>): (r: seq<string>)
    ensures |r| == |datasets|
  {
    seq(|datasets|, i requires 0 <= i < |datasets| => datasets[i].gender)
  }

  /**
   * The count recorded for `(region, gender)` after a pass over `ds`: the
   * last matching row's count, since later rows overwrite earlier ones, or 0.
   */
  function CountFor(ds: seq<RegionGenderCount>, region: string, gender: string): nat {
    if ds == [] then 0
    else if ds[|ds| - 1].region == region && ds[|ds| - 1].gender == gender then ds[|ds| - 1].count
    else CountFor(ds[..|ds| - 1], region, gender)
  }

  /** `region_gender_counts.get(region, {}).get(gender, 0)` */
  function Get(table: Table, region: string, gender: string): nat {
    if region in table && gender in table[region] then table[region][gender] else 0
  }

  /** The series for `genders` over `regions`: one per gender, in order, each with one count per region. */
  predicate IsPivot(ds: seq<RegionGenderCount>, regions: seq<string>, genders: seq<string>, datasets: seq<Dataset>) {
    && Labels(datasets) == genders
    && forall j :: 0 <= j < |datasets| ==>
         && |datasets[j].data| == |regions|
         && forall i :: 0 <= i < |regions| ==> datasets[j].data[i] == CountFor(ds, regions[i], genders[j])
  }

  /** Each (region, gender) pair occurs at most once, as a group-by guarantees. */
  predicate PairsDistinct(ds: seq<RegionGenderCount>) {
    forall i, j :: 0 <= i < j < |ds| ==> ds[i].region != ds[j].region || ds[i].gender != ds[j].gender
  }

  /**
   * `chart_data`.  On success: the gender lists pair back into the gender
   * query result; the regions are the distinct regions of the region query in
   * ascending order; the series are labelled by its distinct genders in
   * ascending order; and each series holds, per region, the recorded count for
   * that pair or 0.
   */
  method ChartData(genderData: Option<seq<GenderCount>>, regionDataset: Option<seq<RegionGenderCount>>)
    returns (r: Result<ChartResult, ChartError>)
    ensures r.Failure? <==> genderData.None? || regionDataset.None?
    ensures r.Success? ==>
              && |r.value.genderLabels| == |r.value.genderCounts|
              && ZipGenders(r.value.genderLabels, r.value.genderCounts) == genderData.value
    ensures r.Success? ==>
              && StrictlySorted(r.value.allRegions)
              && (forall x :: x in r.value.allRegions <==> x in RegionsOf(regionDataset.value))
    ensures r.Success? ==>
              && StrictlySorted(Labels(r.value.regionDatasets))
              && (forall g :: g in Labels(r.value.regionDatasets) <==> g in GendersOf(regionDataset.value))
    ensures r.Success? ==>
              IsPivot(regionDataset.value, r.value.allRegions, Labels(r.value.regionDatasets), r.value.regionDatasets)
  {
    if genderData.None? {
      return Failure(GenderQueryFailed);
    }
    if regionDataset.None? {
      return Failure(RegionQueryFailed);
    }
    var (genderLabels, genderCounts) := FetchGenderData(genderData.value);
    var ds := regionDataset.value;
    var allRegions := SortedSet(RegionsOf(ds));
    var allGenders := SortedSet(GendersOf(ds));

    var regionGenderCounts: Table := map[];
    var k := 0;
    while k < |ds|
      invariant 0 <= k <= |ds|
      invariant forall region, gender :: Get(regionGenderCounts, region, gender) == CountFor(ds[..k], region, gender)
    {
      var item := ds[k];
      if item.region !in regionGenderCounts {
        regionGenderCounts := regionGenderCounts[item.region := map[]];
      }
      var forRegion: map<string, nat> := regionGenderCounts[item.region];
      regionGenderCounts := regionGenderCounts[item.region := forRegion[item.gender := item.count]];
      k := k + 1;
      assert ds[..k][..k - 1] == ds[..k - 1];
    }
    assert ds[..k] == ds;

    var regionDatasets: seq<Dataset> := [];
    var j := 0;
    while j < |allGenders|
      invariant 0 <= j <= |allGenders|
      invariant IsPivot(ds, allRegions, allGenders[..j], regionDatasets)
    {
      var gender := allGenders[j];
      var dataForGender: seq<nat> := [];
      var i := 0;
      while i < |allRegions|
        invariant 0 <= i <= |allRegions|
        invariant |dataForGender| == i
        invariant forall m :: 0 <= m < i ==> dataForGender[m] == CountFor(ds, allRegions[m], gender)
      {
        dataForGender := dataForGender + [Get(regionGenderCounts, allRegions[i], gender)];
        i := i + 1;
      }
      regionDatasets := regionDatasets + [Dataset(gender, dataForGender)];
      j := j + 1;
      assert Labels(regionDatasets) == allGenders[..j];
    }
    assert allGenders[..j] == allGenders;
    r := Success(ChartResult(genderLabels, genderCounts, allRegions, regionDatasets));
  }

  // ---------------------------------------------------------------------
  // Properties of the pivot
  // ---------------------------------------------------------------------

  /** With distinct pairs, a pair present in the query result gets exactly its count. */
  lemma {:induction false} CountForPresent(ds: seq<RegionGenderCount>, k: nat)
    requires PairsDistinct(ds)
    requires k < |ds|
    ensures CountFor(ds, ds[k].region, ds[k].gender) == ds[k].count
  {
    var init := ds[..|ds| - 1];
    if k < |ds| - 1 {
      assert init[k] == ds[k];
      CountForPresent(init, k);
    }
  }

  /** A pair absent from the query result counts 0. */
  lemma {:induction false} CountForAbsent(ds: seq<RegionGenderCount>, region: string, gender: string)
    requires forall k :: 0 <= k < |ds| ==> ds[k].region != region || ds[k].gender != gender
    ensures CountFor(ds, region, gender) == 0
  {
    if ds != [] {
      CountForAbsent(ds[..|ds| - 1], region, gender);
    }
  }

  /**
   * Pivot completeness: every cell of a pivot over a group-by result is the
   * count of the row with that region and gender, or 0 when there is none.
   */
  lemma PivotComplete(ds: seq<RegionGenderCount>, regions: seq<string>, datasets: seq<Dataset>, j: nat, i: nat)
    requires PairsDistinct(ds)
    requires IsPivot(ds, regions, Labels(datasets), datasets)
    requires j < |datasets| && i < |regions|
    ensures (exists k :: 0 <= k < |ds| && ds[k].region == regions[i] && ds[k].gender == datasets[j].gender
               && datasets[j].data[i] == ds[k].count)
            || ((forall k :: 0 <= k < |ds| ==> ds[k].region != regions[i] || ds[k].gender != datasets[j].gender)
                && datasets[j].data[i] == 0)
  {
    if k :| 0 <= k < |ds| && ds[k].region == regions[i] && ds[k].gender == datasets[j].gender {
      CountForPresent(ds, k);
    } else {
      CountForAbsent(ds, regions[i], datasets[j].gender);
    }
  }

  /**
   * A client: records (North, M) x3, (North, F) x2 and (South, M) x1 give the
   * regions North, South and the series F = [2, 0], M = [3, 1].
   */
  method PivotScenario() {
    var ds := [RegionGenderCount("North", "M", 3), RegionGenderCount("North", "F", 2), RegionGenderCount("South", "M", 1)];
    var r := ChartData(Some([GenderCount("M", 4), GenderCount("F", 2)]), Some(ds));
    var res := r.value;
    assert RegionsOf(ds) == ["North", "North", "South"];
    assert GendersOf(ds) == ["M", "F", "M"];
    assert Less("North", "South") && Less("F", "M");
    SortedUnique(res.allRegions, ["North", "South"]);
    SortedUnique(Labels(res.regionDatasets), ["F", "M"]);
    CountForAbsent(ds, "South", "F");
    assert CountFor(ds, "North", "F") == 2;
    assert CountFor(ds, "North", "M") == 3 && CountFor(ds, "South", "M") == 1;
    assert res.regionDatasets[0].data == [2, 0];
    assert res.regionDatasets[1].data == [3, 1];
    var zipped := ZipGenders(res.genderLabels, res.genderCounts);
    assert zipped[0] == GenderCount("M", 4) && zipped[1] == GenderCount("F", 2);
    assert res.genderLabels == ["M", "F"] && res.genderCounts == [4, 2];
  }
}
