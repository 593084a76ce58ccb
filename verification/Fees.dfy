/** Fee buffers and how fills release them, and the volume-tiered fee schedule. */
module Fees {
  import opened FixedPoint

  const MAX_TIERS: nat := 8
  const HARD_CAP_BPS: nat := 1_000

  // ----- the buffer of one intent ------------------------------------------------------------------

  function FeeBufferFor(contracts: nat, bucket: nat, feeBps: nat): Checked<nat> {
    var product := contracts * bucket * feeBps;
    if contracts * bucket >= U128 || product >= U128 || product / BPS_DENOM >= U64 then Err(ArithmeticOverflow)
    else Ok(product / BPS_DENOM)
  }

  /** The part of the buffer a fill of `fill` contracts releases. */
  function ReleaseForFill(buffer: nat, before: nat, fill: nat): Checked<nat> {
    if fill == 0 || before == 0 || fill > before then Err(InvalidContractCount)
    else if fill == before then Ok(buffer)
    else if buffer * fill / before >= U64 then Err(ArithmeticOverflow)
    else Ok(buffer * fill / before)
  }

  /** The fee for one contract. */
  function FeePerContract(bucket: nat, feeBps: nat): nat { bucket * feeBps / BPS_DENOM }

  /** A fill is a pro-rata share rounded down: it covers u atoms for each contract filled and leaves u
      atoms for each contract that rests, whenever the buffer held u for each contract before. */
  lemma ReleaseCovers(buffer: nat, before: nat, fill: nat, u: nat)
    requires buffer < U64 && 0 < fill <= before && buffer >= before * u
    ensures var r := ReleaseForFill(buffer, before, fill);
            r.Ok? && r.value <= buffer && r.value >= fill * u && buffer - r.value >= (before - fill) * u
  {
    if fill < before {
      var share := buffer * fill / before;
      DivBounds(buffer * fill, before);
      ShareCovers(buffer, before, fill, u, share);
      RestCovers(buffer, before, fill, u, share);
    }
  }

  lemma ShareCovers(buffer: nat, n: nat, k: nat, u: nat, share: nat)
    requires n > 0 && buffer * k < (share + 1) * n && buffer >= n * u
    ensures share >= k * u
  {
    MulMono(n * u, buffer, k);
    assert (n * u) * k == (k * u) * n;
    Cancel(k * u, share + 1, n);
  }

  lemma RestCovers(buffer: nat, n: nat, k: nat, u: nat, share: nat)
    requires n > 0 && share * n <= buffer * k && k <= n && buffer >= n * u
    ensures share <= buffer && buffer - share >= (n - k) * u
  {
    MulMono(k, n, buffer);
    assert k * buffer == buffer * k && n * buffer == buffer * n;
    AtMost(share, buffer, n);
    MulMono(n * u, buffer, n - k);
    assert (n * u) * (n - k) == ((n - k) * u) * n;
    assert buffer * (n - k) == buffer * n - buffer * k;
    assert (buffer - share) * n == buffer * n - share * n;
    AtMost((n - k) * u, buffer - share, n);
  }

  lemma AtMost(a: int, b: int, c: nat)
    requires c > 0 && a * c <= b * c
    ensures a <= b
  {
    if a > b { MulMono(b + 1, a, c); }
  }

  predicate AllPositive(xs: seq<nat>) { forall j :: 0 <= j < |xs| ==> xs[j] > 0 }

  function Total(xs: seq<nat>): nat { if xs == [] then 0 else xs[0] + Total(xs[1..]) }

  /** The successive releases as an intent of n contracts is filled. */
  function Releases(buffer: nat, n: nat, fills: seq<nat>): seq<nat>
    requires buffer < U64 && Total(fills) <= n && AllPositive(fills)
    decreases |fills|
  {
    if fills == [] then [] else
      assert Total(fills) == fills[0] + Total(fills[1..]);
      ReleaseCovers(buffer, n, fills[0], 0);
      var r := ReleaseForFill(buffer, n, fills[0]).value;
      [r] + Releases(buffer - r, n - fills[0], fills[1..])
  }

  /** However an intent is filled, its releases add up to its buffer, no more and no less. */
  lemma {:induction false} ReleasesExhaustBuffer(buffer: nat, n: nat, fills: seq<nat>)
    requires buffer < U64 && n > 0 && Total(fills) == n && AllPositive(fills)
    ensures Total(Releases(buffer, n, fills)) == buffer
    decreases |fills|
  {
    var k := fills[0];
    ReleaseCovers(buffer, n, k, 0);
    var r := ReleaseForFill(buffer, n, k).value;
    var rest := Releases(buffer - r, n - k, fills[1..]);
    assert Releases(buffer, n, fills) == [r] + rest && ([r] + rest)[1..] == rest;
    if k < n {
      ReleasesExhaustBuffer(buffer - r, n - k, fills[1..]);
    } else {
      TotalPositive(fills[1..]);
    }
  }

  lemma {:induction false} TotalPositive(xs: seq<nat>)
    requires AllPositive(xs)
    ensures Total(xs) == 0 ==> xs == []
  {
    if xs != [] { assert Total(xs) == xs[0] + Total(xs[1..]); }
  }

  /** Any fill of k contracts, at any point of any fill sequence, releases at least k times the fee
      of one contract, at every rate up to the one the buffer was reserved at. */
  lemma {:induction false} EveryFillCoversItsFee(buffer: nat, n: nat, fills: seq<nat>, u: nat, i: nat)
    requires buffer < U64 && buffer >= n * u && Total(fills) <= n && AllPositive(fills) && i < |fills|
    ensures |Releases(buffer, n, fills)| == |fills| && Releases(buffer, n, fills)[i] >= fills[i] * u
    decreases |fills|
  {
    var k := fills[0];
    assert Total(fills) == k + Total(fills[1..]);
    ReleaseCovers(buffer, n, k, 0);
    ReleaseCovers(buffer, n, k, u);
    var r := ReleaseForFill(buffer, n, k).value;
    var rest := Releases(buffer - r, n - k, fills[1..]);
    assert Releases(buffer, n, fills) == [r] + rest;
    if |fills| == 1 {
      assert fills[1..] == [];
    } else {
      EveryFillCoversItsFee(buffer - r, n - k, fills[1..], u, if i == 0 then 0 else i - 1);
    }
  }

  /** A buffer reserved at rate `reserved` holds the fee at any rate up to it, for every contract. */
  lemma BufferCoversContracts(contracts: nat, bucket: nat, reserved: nat, feeBps: nat)
    requires feeBps <= reserved && FeeBufferFor(contracts, bucket, reserved).Ok?
    ensures FeeBufferFor(contracts, bucket, reserved).value >= contracts * FeePerContract(bucket, feeBps)
  {
    var u := FeePerContract(bucket, feeBps);
    DivBounds(bucket * feeBps, BPS_DENOM);
    MulMono(feeBps, reserved, bucket);
    MulMono(u * BPS_DENOM, bucket * reserved, contracts);
    assert (u * BPS_DENOM) * contracts == (contracts * u) * BPS_DENOM;
    assert (bucket * reserved) * contracts == contracts * bucket * reserved;
    DivBounds(contracts * bucket * reserved, BPS_DENOM);
    var v := contracts * bucket * reserved / BPS_DENOM;
    if v < contracts * u { MulMono(v + 1, contracts * u, BPS_DENOM); }
  }

  /** Single-contract fills release one of two neighbouring amounts. */
  lemma {:induction false} SingleReleasesEven(buffer: nat, n: nat, q: nat, fills: seq<nat>, i: nat)
    requires buffer < U64 && q * n <= buffer <= (q + 1) * n && |fills| <= n && i < |fills|
    requires (forall j :: 0 <= j < |fills| ==> fills[j] == 1) && Total(fills) <= n
    ensures |Releases(buffer, n, fills)| == |fills| && q <= Releases(buffer, n, fills)[i] <= q + 1
    decreases |fills|
  {
    assert Total(fills) == 1 + Total(fills[1..]);
    ReleaseCovers(buffer, n, 1, 0);
    var r := ReleaseForFill(buffer, n, 1).value;
    EvenShare(buffer, n, q);
    var rest := Releases(buffer - r, n - 1, fills[1..]);
    assert Releases(buffer, n, fills) == [r] + rest;
    if |fills| == 1 {
      assert fills[1..] == [];
    } else {
      SingleReleasesEven(buffer - r, n - 1, q, fills[1..], if i == 0 then 0 else i - 1);
    }
  }

  lemma EvenShare(buffer: nat, n: nat, q: nat)
    requires buffer < U64 && n > 0 && q * n <= buffer <= (q + 1) * n
    ensures var r := ReleaseForFill(buffer, n, 1).value;
            && ReleaseForFill(buffer, n, 1).Ok? && q <= r <= q + 1 && r <= buffer
            && q * (n - 1) <= buffer - r <= (q + 1) * (n - 1)
  {
    ReleaseCovers(buffer, n, 1, q);
    assert q * n == n * q && (n - 1) * q == q * (n - 1);
    if n > 1 {
      var r := buffer / n;
      DivBounds(buffer, n);
      if r > q + 1 { MulMono(q + 2, r, n); }
      assert (q + 1) * (n - 1) == (q + 1) * n - (q + 1) && q * (n - 1) == q * n - q;
      if r == q { assert (r + 1) * n == q * n + n; }
    }
  }
}
