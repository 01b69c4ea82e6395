/**
 * The crops that can be planted in the current season. The host's crop
 * table and its current season are the parameters of the query here.
 */
module GameData {

  datatype Season = Spring | Summer | Fall | Winter

  /** A crop of the host's crop table: the seasons it grows in and what it yields. */
  datatype CropData = CropData(seasons: seq<Season>, harvestItemId: string)

  /** Whether `crop` grows in `season`. */
  predicate GrowsIn(crop: CropData, season: Season) {
    season in crop.seasons
  }

  /** The crops of `crops` that grow in `season`, in their original order. */
  function InSeason(crops: seq<CropData>, season: Season): seq<CropData>
    decreases |crops|
  {
    if crops == [] then []
    else
      var rest := InSeason(crops[..|crops| - 1], season);
      var last := crops[|crops| - 1];
      if GrowsIn(last, season) then rest + [last] else rest
  }

  /** `sub` is `s` with some elements removed and the rest kept in order. */
  predicate IsSubsequence<T(==)>(sub: seq<T>, s: seq<T>)
    decreases |s|
  {
    if s == [] then sub == []
    else
      || (sub != [] && sub[|sub| - 1] == s[|s| - 1] && IsSubsequence(sub[..|sub| - 1], s[..|s| - 1]))
      || IsSubsequence(sub, s[..|s| - 1])
  }

  /**
   * Walks the crop table once and appends every crop that grows in
   * `season` to a new list; the table itself is a value and stays as it was.
   */
  method GetSeasonalCrops(crops: seq<CropData>, season: Season) returns (seasonalCrops: seq<CropData>)
    ensures seasonalCrops == InSeason(crops, season)
    ensures forall c :: c in seasonalCrops <==> c in crops && GrowsIn(c, season)
    ensures |seasonalCrops| <= |crops|
    ensures IsSubsequence(seasonalCrops, crops)
  {
    seasonalCrops := [];
    for i := 0 to |crops|
      invariant seasonalCrops == InSeason(crops[..i], season)
    {
      assert crops[..i + 1][..i] == crops[..i];
      if season in crops[i].seasons {
        seasonalCrops := seasonalCrops + [crops[i]];
      }
    }
    assert crops[..|crops|] == crops;
    InSeasonMembers(crops, season);
    InSeasonLength(crops, season);
    InSeasonIsSubsequence(crops, season);
  }

  /** A crop is selected exactly when it is in the table and grows in the season. */
  lemma {:induction false} InSeasonMembers(crops: seq<CropData>, season: Season)
    ensures forall c :: c in InSeason(crops, season) <==> c in crops && GrowsIn(c, season)
    decreases |crops|
  {
    if crops != [] {
      var front := crops[..|crops| - 1];
      InSeasonMembers(front, season);
      assert crops == front + [crops[|crops| - 1]];
    }
  }

  /** The selection is never longer than the table. */
  lemma {:induction false} InSeasonLength(crops: seq<CropData>, season: Season)
    ensures |InSeason(crops, season)| <= |crops|
    decreases |crops|
  {
    if crops != [] {
      InSeasonLength(crops[..|crops| - 1], season);
    }
  }

  /** The selection keeps the table's order. */
  lemma {:induction false} InSeasonIsSubsequence(crops: seq<CropData>, season: Season)
    ensures IsSubsequence(InSeason(crops, season), crops)
    decreases |crops|
  {
    if crops != [] {
      var front := crops[..|crops| - 1];
      var last := crops[|crops| - 1];
      var rest := InSeason(front, season);
      InSeasonIsSubsequence(front, season);
      if GrowsIn(last, season) {
        assert (rest + [last])[..|rest + [last]| - 1] == rest;
      }
    }
  }

  /** Every crop of the table that grows in the season is selected, and as often as it occurs in the table. */
  lemma {:induction false} InSeasonCounts(crops: seq<CropData>, season: Season, c: CropData)
    ensures multiset(InSeason(crops, season))[c] == if GrowsIn(c, season) then multiset(crops)[c] else 0
    decreases |crops|
  {
    if crops != [] {
      var front := crops[..|crops| - 1];
      InSeasonCounts(front, season, c);
      assert crops == front + [crops[|crops| - 1]];
    }
  }
}
