/**
 * The rows the API routes and pages aggregate, as they come back from the
 * `car_data` and `car_nfts` tables, and the NFT-id to VIN lookup that several
 * routes build from the `car_nfts` rows.
 */
module Records {

  datatype Option<+T> = None | Some(value: T)

  /**
   * A JSON object of named numeric sensor readings (`Record<string, number>`):
   * its entries in key order.
   */
  type SensorData = seq<(string, real)>

  /** One row of `car_data`: a classified diagnostic snapshot. */
  datatype CarData = CarData(
    uniqueId: string,
    fault: string,
    timestamp: string,
    confidence: real,
    sensorData: Option<SensorData>)

  /** One row of `car_nfts`: a token id and the VIN it was minted for. */
  datatype CarNft = CarNft(id: string, vin: string)

  /** The keys of a sensor object, in order (`Object.keys`). */
  function SensorKeys(s: SensorData): (keys: seq<string>)
    ensures |keys| == |s|
    ensures forall i :: 0 <= i < |s| ==> keys[i] == s[i].0
  {
    seq(|s|, i requires 0 <= i < |s| => s[i].0)
  }

  /** `s[key]` for a key the object has: the value of its (first) entry with that key. */
  function SensorValue(s: SensorData, key: string): real
    requires key in SensorKeys(s)
  {
    if s[0].0 == key then s[0].1 else SensorValue(s[1..], key)
  }

  /** The `fault` column of each row, in order. */
  function Faults(rs: seq<CarData>): (fs: seq<string>)
    ensures |fs| == |rs|
    ensures forall i :: 0 <= i < |rs| ==> fs[i] == rs[i].fault
  {
    seq(|rs|, i requires 0 <= i < |rs| => rs[i].fault)
  }

  /** The `unique_id` column of each row, in order. */
  function UniqueIds(rs: seq<CarData>): (ids: seq<string>)
    ensures |ids| == |rs|
    ensures forall i :: 0 <= i < |rs| ==> ids[i] == rs[i].uniqueId
  {
    seq(|rs|, i requires 0 <= i < |rs| => rs[i].uniqueId)
  }

  /** The `vin` column of each NFT row, in order. */
  function Vins(nfts: seq<CarNft>): (vins: seq<string>)
    ensures |vins| == |nfts|
    ensures forall i :: 0 <= i < |nfts| ==> vins[i] == nfts[i].vin
  {
    seq(|nfts|, i requires 0 <= i < |nfts| => nfts[i].vin)
  }

  /**
   * `new Map(nftData.map(nft => [nft.id, nft.vin]))`: every NFT id is a key,
   * and when an id repeats, the last row's VIN wins (NftToVinLastWins).
   */
  function NftToVin(nfts: seq<CarNft>): (m: map<string, string>)
    ensures forall id :: id in m <==> id in NftIds(nfts)
  {
    if nfts == [] then map[]
    else
      var p := nfts[..|nfts| - 1];
      var last := nfts[|nfts| - 1];
      assert NftIds(nfts) == NftIds(p) + [last.id];
      NftToVin(p)[last.id := last.vin]
  }

  /** The `id` column of each NFT row, in order. */
  function NftIds(nfts: seq<CarNft>): (ids: seq<string>)
    ensures |ids| == |nfts|
    ensures forall i :: 0 <= i < |nfts| ==> ids[i] == nfts[i].id
  {
    seq(|nfts|, i requires 0 <= i < |nfts| => nfts[i].id)
  }

  lemma {:induction false} NftToVinLastWins(nfts: seq<CarNft>, i: nat)
    requires i < |nfts|
    requires forall j :: i < j < |nfts| ==> nfts[j].id != nfts[i].id
    ensures nfts[i].id in NftToVin(nfts) && NftToVin(nfts)[nfts[i].id] == nfts[i].vin
    decreases |nfts|
  {
    if i < |nfts| - 1 {
      var p := nfts[..|nfts| - 1];
      assert p[i] == nfts[i];
      NftToVinLastWins(p, i);
    }
  }

  /**
   * `nftToVin.get(id)` followed by `if (!vin)`: a record resolves to a VIN
   * when its id is a known NFT id whose VIN is not the empty string.
   */
  function ResolveVin(m: map<string, string>, id: string): (r: Option<string>)
    ensures r.Some? <==> id in m && m[id] != ""
    ensures r.Some? ==> r.value == m[id]
  {
    if id in m && m[id] != "" then Some(m[id]) else None
  }

  /** The VIN of each record that resolves to one, in record order. */
  function ResolvedVins(m: map<string, string>, rs: seq<CarData>): seq<string>
  {
    if rs == [] then []
    else
      var rest := ResolvedVins(m, rs[..|rs| - 1]);
      match ResolveVin(m, rs[|rs| - 1].uniqueId)
      case Some(vin) => rest + [vin]
      case None => rest
  }

  lemma {:induction false} ResolvedVinsConcat(m: map<string, string>, a: seq<CarData>, b: seq<CarData>)
    ensures ResolvedVins(m, a + b) == ResolvedVins(m, a) + ResolvedVins(m, b)
    decreases |b|
  {
    if b == [] {
      assert a + b == a;
    } else {
      var b' := b[..|b| - 1];
      assert (a + b)[..|a + b| - 1] == a + b';
      ResolvedVinsConcat(m, a, b');
    }
  }

  /** The sum of the confidences of `rs`. */
  function SumConfidence(rs: seq<CarData>): (total: real)
    ensures (forall i :: 0 <= i < |rs| ==> 0.0 <= rs[i].confidence <= 1.0) ==> 0.0 <= total <= |rs| as real
  {
    if rs == [] then 0.0
    else
      assert forall i :: 0 <= i < |rs| - 1 ==> rs[..|rs| - 1][i] == rs[i];
      SumConfidence(rs[..|rs| - 1]) + rs[|rs| - 1].confidence
  }

  /** The mean confidence of a non-empty list of rows: within [0, 1] when every confidence is. */
  function MeanConfidence(rs: seq<CarData>): (avg: real)
    requires |rs| > 0
    ensures (forall i :: 0 <= i < |rs| ==> 0.0 <= rs[i].confidence <= 1.0) ==> 0.0 <= avg <= 1.0
  {
    var n := |rs| as real;
    assert 0.0 <= SumConfidence(rs) <= n ==> 0.0 <= SumConfidence(rs) / n <= 1.0 by {
      if 0.0 <= SumConfidence(rs) <= n {
        RatioWithinUnit(SumConfidence(rs), n);
      }
    }
    SumConfidence(rs) / n
  }

  /** A part no larger than a positive whole is a fraction within [0, 1] of it. */
  lemma RatioWithinUnit(part: real, whole: real)
    requires 0.0 < whole && 0.0 <= part <= whole
    ensures 0.0 <= part / whole <= 1.0
  {
    var q := part / whole;
    assert q * whole == part;
  }
}
