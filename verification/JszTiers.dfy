/** Storage used and reserved per tier, a tier being a storage class and a replica count. */
module JszTiers {
  import opened JszMerge

  function Used(s: StreamDetail): int {
    s.state.bytes
  }

  /** Only a positive limit reserves anything. */
  function Reserved(s: StreamDetail): int {
    if s.config.maxBytes > 0 then s.config.maxBytes else 0
  }

  function AddTo(m: map<int, int>, k: int, v: int): map<int, int> {
    m[k := if k in m then m[k] + v else v]
  }

  /** The map that the loop over the streams builds for one storage class. */
  function TierMap(streams: seq<StreamDetail>, storage: Storage, amount: StreamDetail -> int): map<int, int> {
    if streams == [] then map[]
    else
      var m := TierMap(streams[..|streams| - 1], storage, amount);
      var s := streams[|streams| - 1];
      if s.config.storage == storage then AddTo(m, s.config.replicas, amount(s)) else m
  }

  // ----- Reference definitions -----

  predicate InTier(s: StreamDetail, storage: Storage, replicas: int) {
    s.config.storage == storage && s.config.replicas == replicas
  }

  /** The sum of the amounts of the streams in one tier. */
  function TierSum(streams: seq<StreamDetail>, storage: Storage, replicas: int, amount: StreamDetail -> int): int {
    if streams == [] then 0
    else
      (if InTier(streams[0], storage, replicas) then amount(streams[0]) else 0)
      + TierSum(streams[1..], storage, replicas, amount)
  }

  /** The sum of the amounts of the streams in one storage class. */
  function ClassSum(streams: seq<StreamDetail>, storage: Storage, amount: StreamDetail -> int): int {
    if streams == [] then 0
    else
      (if streams[0].config.storage == storage then amount(streams[0]) else 0)
      + ClassSum(streams[1..], storage, amount)
  }

  ghost function SumValues(m: map<int, int>): int
    decreases |m|
  {
    if exists k :: k in m then
      var k :| k in m;
      m[k] + SumValues(m - {k})
    else 0
  }

  lemma {:induction false} TierSumSnoc(
    streams: seq<StreamDetail>, s: StreamDetail, storage: Storage, replicas: int, amount: StreamDetail -> int)
    ensures TierSum(streams + [s], storage, replicas, amount) ==
            TierSum(streams, storage, replicas, amount)
            + if InTier(s, storage, replicas) then amount(s) else 0
  {
    if streams == [] {
    } else {
      assert (streams + [s])[1..] == streams[1..] + [s];
      TierSumSnoc(streams[1..], s, storage, replicas, amount);
    }
  }

  lemma {:induction false} ClassSumSnoc(
    streams: seq<StreamDetail>, s: StreamDetail, storage: Storage, amount: StreamDetail -> int)
    ensures ClassSum(streams + [s], storage, amount) ==
            ClassSum(streams, storage, amount) + if s.config.storage == storage then amount(s) else 0
  {
    if streams == [] {
    } else {
      assert (streams + [s])[1..] == streams[1..] + [s];
      ClassSumSnoc(streams[1..], s, storage, amount);
    }
  }

  /** A tier is present exactly when some stream is in it, and holds their sum. */
  lemma {:induction false} TierMapIsSum(
    streams: seq<StreamDetail>, storage: Storage, replicas: int, amount: StreamDetail -> int)
    ensures var m := TierMap(streams, storage, amount);
            && (replicas in m <==> exists i :: 0 <= i < |streams| && InTier(streams[i], storage, replicas))
            && (replicas in m ==> m[replicas] == TierSum(streams, storage, replicas, amount))
            && (replicas !in m ==> TierSum(streams, storage, replicas, amount) == 0)
  {
    if streams == [] {
    } else {
      var init, s := streams[..|streams| - 1], streams[|streams| - 1];
      TierMapIsSum(init, storage, replicas, amount);
      assert streams == init + [s];
      TierSumSnoc(init, s, storage, replicas, amount);
      assert InTier(s, storage, replicas) ==> InTier(streams[|init|], storage, replicas);
      assert forall i :: 0 <= i < |init| ==> streams[i] == init[i];
    }
  }

  /** The used and the reserved map of a storage class have the same tiers. */
  lemma {:induction false} SameTiers(streams: seq<StreamDetail>, storage: Storage)
    ensures TierMap(streams, storage, Used).Keys == TierMap(streams, storage, Reserved).Keys
  {
    forall r
      ensures r in TierMap(streams, storage, Used) <==> r in TierMap(streams, storage, Reserved)
    {
      TierMapIsSum(streams, storage, r, Used);
      TierMapIsSum(streams, storage, r, Reserved);
    }
  }

  function Sum(xs: seq<int>): int {
    if xs == [] then 0 else Sum(xs[..|xs| - 1]) + xs[|xs| - 1]
  }

  /** The bytes of the streams of a tier. */
  function BytesIn(streams: seq<StreamDetail>, storage: Storage, replicas: int): seq<int> {
    if streams == [] then []
    else
      var s := streams[|streams| - 1];
      var earlier := BytesIn(streams[..|streams| - 1], storage, replicas);
      if s.config.storage == storage && s.config.replicas == replicas then earlier + [s.state.bytes] else earlier
  }

  /** The limits of the streams of a tier that have one: those set above zero. */
  function LimitsIn(streams: seq<StreamDetail>, storage: Storage, replicas: int): seq<int> {
    if streams == [] then []
    else
      var s := streams[|streams| - 1];
      var earlier := LimitsIn(streams[..|streams| - 1], storage, replicas);
      if s.config.storage == storage && s.config.replicas == replicas && s.config.maxBytes > 0
      then earlier + [s.config.maxBytes] else earlier
  }

  /** A tier has used the bytes of its streams and reserved their limits; a stream without a
      limit reserves nothing. */
  lemma {:induction false} TierIsBytesAndLimits(streams: seq<StreamDetail>, storage: Storage, replicas: int)
    requires exists i :: 0 <= i < |streams| && InTier(streams[i], storage, replicas)
    ensures replicas in TierMap(streams, storage, Used) && replicas in TierMap(streams, storage, Reserved)
    ensures TierMap(streams, storage, Used)[replicas] == Sum(BytesIn(streams, storage, replicas))
    ensures TierMap(streams, storage, Reserved)[replicas] == Sum(LimitsIn(streams, storage, replicas))
    ensures LimitsIn(streams, storage, replicas) == [] ==> TierMap(streams, storage, Reserved)[replicas] == 0
  {
    TierMapIsSum(streams, storage, replicas, Used);
    TierMapIsSum(streams, storage, replicas, Reserved);
    UsedIsBytes(streams, storage, replicas);
    ReservedIsLimits(streams, storage, replicas);
  }

  lemma SumSnoc(xs: seq<int>, x: int)
    ensures Sum(xs + [x]) == Sum(xs) + x
  {
    assert (xs + [x])[..|xs|] == xs;
  }

  lemma {:induction false} UsedIsBytes(streams: seq<StreamDetail>, storage: Storage, replicas: int)
    ensures TierSum(streams, storage, replicas, Used) == Sum(BytesIn(streams, storage, replicas))
  {
    if streams != [] {
      var init, s := streams[..|streams| - 1], streams[|streams| - 1];
      UsedIsBytes(init, storage, replicas);
      assert streams == init + [s];
      TierSumSnoc(init, s, storage, replicas, Used);
      SumSnoc(BytesIn(init, storage, replicas), s.state.bytes);
    }
  }

  lemma {:induction false} ReservedIsLimits(streams: seq<StreamDetail>, storage: Storage, replicas: int)
    ensures TierSum(streams, storage, replicas, Reserved) == Sum(LimitsIn(streams, storage, replicas))
  {
    if streams != [] {
      var init, s := streams[..|streams| - 1], streams[|streams| - 1];
      ReservedIsLimits(init, storage, replicas);
      assert streams == init + [s];
      TierSumSnoc(init, s, storage, replicas, Reserved);
      SumSnoc(LimitsIn(init, storage, replicas), s.config.maxBytes);
    }
  }

  lemma {:induction false} SumValuesRemove(m: map<int, int>, k: int)
    requires k in m
    ensures SumValues(m) == m[k] + SumValues(m - {k})
    decreases |m|
  {
    var j :| j in m && SumValues(m) == m[j] + SumValues(m - {j});
    if j != k {
      SumValuesRemove(m - {j}, k);
      SumValuesRemove(m - {k}, j);
      assert m - {j} - {k} == m - {k} - {j};
    }
  }

  lemma SumValuesAdd(m: map<int, int>, k: int, v: int)
    ensures SumValues(AddTo(m, k, v)) == SumValues(m) + v
  {
    var grown := AddTo(m, k, v);
    SumValuesRemove(grown, k);
    if k in m {
      SumValuesRemove(m, k);
      assert grown - {k} == m - {k};
    } else {
      assert grown - {k} == m;
    }
  }

  /** All tiers of a storage class together hold the amounts of all its streams. */
  lemma {:induction false} TiersConserve(streams: seq<StreamDetail>, storage: Storage, amount: StreamDetail -> int)
    ensures SumValues(TierMap(streams, storage, amount)) == ClassSum(streams, storage, amount)
  {
    if streams == [] {
    } else {
      var init, s := streams[..|streams| - 1], streams[|streams| - 1];
      TiersConserve(init, storage, amount);
      assert streams == init + [s];
      ClassSumSnoc(init, s, storage, amount);
      SumValuesAdd(TierMap(init, storage, amount), s.config.replicas, amount(s));
    }
  }
}
