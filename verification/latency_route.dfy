/** The fallback latency endpoint of app/api/latency/route.ts: a fixed list of
    five exchange ids, one mock record per unordered pair, and the JSON
    envelope `GET` answers with. */
module LatencyRoute {
  import opened JsMath
  import opened Pairs

  /** The ids `generateMockLatency` pairs up. */
  const MOCK_IDS: seq<string> := ["binance-sg", "okx-sg", "deribit-nl", "bybit-jp", "kraken-us"]

  /** One mock record (no colour, unlike the simulator's records). */
  datatype MockLatency = MockLatency(from: string, to: string, latency: int, timestamp: int)

  /** The record of the index pair `p`, made with random draw `r`:
      `Math.floor(r * 150) + 10`. */
  function MockOf(ids: seq<string>, p: Pair, r: real, now: int): MockLatency
    requires p.0 < |ids| && p.1 < |ids|
  {
    MockLatency(ids[p.0], ids[p.1], Floor(r * 150.0) + 10, now)
  }

  /** Record k of `data` is the one of pair `ps[k]`, made with the k-th draw. */
  predicate FollowsPairs(data: seq<MockLatency>, ids: seq<string>, ps: seq<Pair>, draw: nat -> real, now: int) {
    && |data| == |ps|
    && (forall k :: 0 <= k < |ps| ==> ps[k].0 < |ids| && ps[k].1 < |ids|)
    && (forall k :: 0 <= k < |data| ==> data[k] == MockOf(ids, ps[k], draw(k), now))
  }

  /** Pushing the record of the next pair keeps `FollowsPairs`. */
  lemma FollowsPairsSnoc(data: seq<MockLatency>, ids: seq<string>, ps: seq<Pair>, p: Pair, draw: nat -> real, now: int)
    requires FollowsPairs(data, ids, ps, draw, now)
    requires p.0 < |ids| && p.1 < |ids|
    ensures FollowsPairs(data + [MockOf(ids, p, draw(|ps|), now)], ids, ps + [p], draw, now)
  {
    var d, q := data + [MockOf(ids, p, draw(|ps|), now)], ps + [p];
    forall k | 0 <= k < |d| ensures d[k] == MockOf(ids, q[k], draw(k), now) {
      if k < |data| {
        assert d[k] == data[k] && q[k] == ps[k];
      }
    }
  }

  /** `generateMockLatency`: for each i, for each j > i, push the record of
      ids i and j made with the next random draw. */
  method GenerateMockLatency(draw: nat -> real, now: int) returns (data: seq<MockLatency>)
    ensures FollowsPairs(data, MOCK_IDS, AllPairs(|MOCK_IDS|), draw, now)
  {
    data := PairUp(MOCK_IDS, draw, now);
  }

  /** The loops of `generateMockLatency` over its id list `exchanges`. */
  method PairUp(exchanges: seq<string>, draw: nat -> real, now: int) returns (data: seq<MockLatency>)
    ensures FollowsPairs(data, exchanges, AllPairs(|exchanges|), draw, now)
  {
    var n := |exchanges|;
    data := [];
    for i := 0 to n
      invariant FollowsPairs(data, exchanges, RowsBefore(i, n), draw, now)
    {
      ghost var before := RowsBefore(i, n);
      var row := Row(i, n);
      for j := i + 1 to n
        invariant FollowsPairs(data, exchanges, before + row[..j - i - 1], draw, now)
      {
        var record := MockLatency(exchanges[i], exchanges[j], Floor(draw(|data|) * 150.0) + 10, now);
        FollowsPairsSnoc(data, exchanges, before + row[..j - i - 1], (i, j), draw, now);
        assert row[..j - i] == row[..j - i - 1] + [(i, j)];
        assert before + row[..j - i] == before + row[..j - i - 1] + [(i, j)];
        data := data + [record];
      }
      assert row[..n - i - 1] == row;
    }
  }

  /** The ten mock records: one per pair i < j of the five ids, in loop order,
      each with a latency from 10 to 159 ms and the time of the call. */
  lemma MockLatencyShape(data: seq<MockLatency>, draw: nat -> real, now: int)
    requires FollowsPairs(data, MOCK_IDS, AllPairs(|MOCK_IDS|), draw, now)
    requires forall k: nat :: IsUnit(draw(k))
    ensures |data| == 10
    ensures forall k :: 0 <= k < |data| ==>
      var p := AllPairs(|MOCK_IDS|)[k];
      && p.0 < p.1 < 5
      && data[k].from == MOCK_IDS[p.0] && data[k].to == MOCK_IDS[p.1]
      && data[k].from != data[k].to
      && 10 <= data[k].latency <= 159
      && data[k].timestamp == now
    ensures forall k, l :: 0 <= k < l < |data| ==>
      (data[k].from, data[k].to) != (data[l].from, data[l].to) && (data[k].from, data[k].to) != (data[l].to, data[l].from)
  {
    AllPairsCount(|MOCK_IDS|);
    forall k | 0 <= k < |data| ensures 10 <= data[k].latency <= 159 {
      assert data[k].latency == RandomInt(draw(k), 150, 10);
    }
    MockPairsDistinct(data, draw, now);
  }

  /** No two mock records join the same two ids, in either direction. */
  lemma MockPairsDistinct(data: seq<MockLatency>, draw: nat -> real, now: int)
    requires FollowsPairs(data, MOCK_IDS, AllPairs(|MOCK_IDS|), draw, now)
    ensures forall k, l :: 0 <= k < l < |data| ==>
      (data[k].from, data[k].to) != (data[l].from, data[l].to) && (data[k].from, data[k].to) != (data[l].to, data[l].from)
  {
    var ps := AllPairs(|MOCK_IDS|);
    AllPairsSorted(|MOCK_IDS|);
    assert forall a, b :: 0 <= a < |MOCK_IDS| && 0 <= b < |MOCK_IDS| && MOCK_IDS[a] == MOCK_IDS[b] ==> a == b;
    forall k, l | 0 <= k < l < |data|
      ensures (data[k].from, data[k].to) != (data[l].from, data[l].to) && (data[k].from, data[k].to) != (data[l].to, data[l].from)
    {
      assert ps[k] != ps[l];
    }
  }

  /** Every mock id is an end of exactly four mock records. */
  lemma EachMockIdInFourRecords(data: seq<MockLatency>, draw: nat -> real, now: int, x: nat)
    requires FollowsPairs(data, MOCK_IDS, AllPairs(|MOCK_IDS|), draw, now)
    requires x < |MOCK_IDS|
    ensures |Seqs.Filter(data, (d: MockLatency) => d.from == MOCK_IDS[x] || d.to == MOCK_IDS[x])| == 4
  {
    var ps := AllPairs(|MOCK_IDS|);
    var id := MOCK_IDS[x];
    assert forall a, b :: 0 <= a < |MOCK_IDS| && 0 <= b < |MOCK_IDS| && MOCK_IDS[a] == MOCK_IDS[b] ==> a == b;
    assert forall k :: 0 <= k < |data| ==> (data[k].from == id || data[k].to == id <==> HasEnd(ps[k], x));
    Seqs.FilterLengthPointwise(data, (d: MockLatency) => d.from == id || d.to == id, ps, (p: Pair) => HasEnd(p, x));
    AllPairsTouch(|MOCK_IDS|, x);
  }

  /** The JSON body `GET` answers with. */
  datatype Body =
    | Success(data: seq<MockLatency>, timestamp: int)
    | Failure(error: string)

  /** The HTTP status and the body. */
  datatype Response = Response(status: int, body: Body)

  /** The answer of the `catch` branch. */
  const FAILED: Response := Response(500, Failure("Failed to fetch latency data"))

  /** `GET`: status 200 with `success: true`, the mock records and the time. */
  method Get(draw: nat -> real, now: int) returns (response: Response)
    ensures response.status == 200 && response.body.Success? && response.body.timestamp == now
    ensures FollowsPairs(response.body.data, MOCK_IDS, AllPairs(|MOCK_IDS|), draw, now)
  {
    var latencyData := GenerateMockLatency(draw, now);
    response := Response(200, Success(latencyData, now));
  }
}
