/** The volume-tiered fee schedule. */
module Schedule {
  import opened Fees

  datatype Tier = Tier(threshold: nat, feeBps: nat)

  /** The largest fee of a table. */
  function MaxFee(tiers: seq<Tier>): (max: nat)
    ensures forall k :: 0 <= k < |tiers| ==> tiers[k].feeBps <= max
    ensures max == 0 || exists k :: 0 <= k < |tiers| && tiers[k].feeBps == max
  {
    if tiers == [] then 0 else
      var (rest, last) := (MaxFee(tiers[..|tiers| - 1]), tiers[|tiers| - 1].feeBps);
      if last > rest then last else rest
  }

  ghost predicate Ascending(tiers: seq<Tier>) {
    forall j, k :: 0 <= j < k < |tiers| ==> tiers[j].threshold <= tiers[k].threshold
  }

  ghost predicate Capped(tiers: seq<Tier>) {
    forall k :: 0 <= k < |tiers| ==> tiers[k].feeBps <= HARD_CAP_BPS
  }

  /** The fee of the last tier that volume reaches, or of the first tier when it reaches none. */
  ghost predicate IsFeeFor(tiers: seq<Tier>, volume: nat, fee: nat)
    requires tiers != []
  {
    || (exists k :: 0 <= k < |tiers| && tiers[k].threshold <= volume && fee == tiers[k].feeBps
          && forall j :: k < j < |tiers| ==> tiers[j].threshold > volume)
    || (fee == tiers[0].feeBps && forall j :: 0 <= j < |tiers| ==> tiers[j].threshold > volume)
  }

  method ComputeMaxFeeBps(tiers: seq<Tier>) returns (max: nat)
    ensures max == MaxFee(tiers)
  {
    max := 0;
    for i := 0 to |tiers|
      invariant max == MaxFee(tiers[..i])
    {
      assert tiers[..i + 1][..i] == tiers[..i];
      if tiers[i].feeBps > max { max := tiers[i].feeBps; }
    }
    assert tiers[..|tiers|] == tiers;
  }

  method ValidateTiers(tiers: seq<Tier>) returns (ok: bool)
    ensures ok <==> Ascending(tiers) && Capped(tiers)
  {
    var prev := 0;
    for i := 0 to |tiers|
      invariant Ascending(tiers[..i]) && Capped(tiers[..i])
      invariant prev == if i == 0 then 0 else tiers[i - 1].threshold
    {
      if tiers[i].threshold < prev {
        assert tiers[i - 1].threshold > tiers[i].threshold;
        return false;
      }
      prev := tiers[i].threshold;
      if tiers[i].feeBps > HARD_CAP_BPS { return false; }
    }
    assert tiers[..|tiers|] == tiers;
    ok := true;
  }

  class FeeSchedule {
    var tiers: seq<Tier>
    var maxTierFeeBps: nat

    ghost predicate Valid()
      reads this
    {
      |tiers| == MAX_TIERS && Ascending(tiers) && Capped(tiers) && maxTierFeeBps == MaxFee(tiers)
    }

    method FeeForVolume(volume: nat) returns (fee: nat)
      requires tiers != []
      ensures IsFeeFor(tiers, volume, fee)
    {
      fee := tiers[0].feeBps;
      ghost var hit := -1;
      for i := 0 to |tiers|
        invariant -1 <= hit < i && forall j :: hit < j < i ==> tiers[j].threshold > volume
        invariant if hit < 0 then fee == tiers[0].feeBps else tiers[hit].threshold <= volume && fee == tiers[hit].feeBps
      {
        if volume >= tiers[i].threshold {
          fee := tiers[i].feeBps;
          hit := i;
        }
      }
    }

    /** Replaces the table. It is refused when it is malformed or raises the largest fee. */
    method SetFeeSchedule(newTiers: seq<Tier>) returns (ok: bool)
      requires Valid() && |newTiers| == MAX_TIERS
      modifies this
      ensures Valid()
      ensures ok <==> Ascending(newTiers) && Capped(newTiers) && MaxFee(newTiers) <= old(maxTierFeeBps)
      ensures tiers == if ok then newTiers else old(tiers)
    {
      var wellFormed := ValidateTiers(newTiers);
      if !wellFormed { return false; }
      var newMax := ComputeMaxFeeBps(newTiers);
      if newMax > maxTierFeeBps { return false; }
      tiers := newTiers;
      maxTierFeeBps := newMax;
      ok := true;
    }
  }

  /** On an ascending table, the tier used is the one with the largest threshold within reach. */
  lemma FeeTierIsLargestReached(tiers: seq<Tier>, volume: nat, fee: nat, j: nat)
    requires tiers != [] && Ascending(tiers) && IsFeeFor(tiers, volume, fee)
    requires j < |tiers| && tiers[j].threshold <= volume
    ensures exists k :: 0 <= k < |tiers| && tiers[j].threshold <= tiers[k].threshold <= volume && fee == tiers[k].feeBps
  {
    var k :| 0 <= k < |tiers| && tiers[k].threshold <= volume && fee == tiers[k].feeBps
      && forall i :: k < i < |tiers| ==> tiers[i].threshold > volume;
    assert j <= k;
  }

  /** A run of accepted schedules: each is no dearer than the one before. */
  ghost predicate Adopted(tables: seq<seq<Tier>>) {
    && (forall i :: 0 <= i < |tables| ==> tables[i] != [])
    && forall i :: 0 < i < |tables| ==> MaxFee(tables[i]) <= MaxFee(tables[i - 1])
  }

  /** Whatever schedules follow, the fee looked up later, for any volume, never exceeds the largest
      fee of the schedule an intent was posted under. */
  lemma {:induction false} LaterFeesCovered(tables: seq<seq<Tier>>, i: nat, j: nat, volume: nat, fee: nat)
    requires Adopted(tables) && i <= j < |tables| && IsFeeFor(tables[j], volume, fee)
    ensures fee <= MaxFee(tables[i])
  {
    if i < j { MaxFalls(tables, i, j); }
  }

  lemma {:induction false} MaxFalls(tables: seq<seq<Tier>>, i: nat, j: nat)
    requires Adopted(tables) && i <= j < |tables|
    ensures MaxFee(tables[j]) <= MaxFee(tables[i])
  {
    if i < j { MaxFalls(tables, i, j - 1); }
  }
}
